/**
 Named-session commit (src/session.ts): a write-ahead `pending-commit.json` moves the
 canonical session file, the ledger and the manifest together.

 A process may die at any file operation, and any file operation may fail.  Both are
 demonic choices of `Strike`, so a contract of a method below speaks of every crash point
 of its body.  SHA-256 is taken to be free of collisions: a digest is the content itself.
 */
module Session {
  import opened Outcomes

  type Content = string
  type Digest = Content

  /** `0001-<hex>`: the sequence number a turn was started with, and a nonce. */
  datatype RunId = RunId(sequence: nat, nonce: string)

  datatype FilePath =
    | Canonical(name: string)
    | Staged(name: string, runId: RunId)
    | Attempt(runId: RunId, name: string)

  datatype Action = Created | Resumed | NotCreated

  datatype RunRecord = RunRecord(
    runId: RunId,
    sequence: nat,
    action: Action,
    sessionFile: Option<string>,
    finishedAt: string,
    output: string,
    success: bool)

  datatype Manifest = Manifest(
    sessionKey: string,
    cwd: string,
    skill: Option<string>,
    modelClass: string,
    sessionFile: string,
    createdAt: string,
    lastRunAt: string,
    runCount: nat,
    lastOutput: string)

  datatype Commit = Commit(
    attemptRun: RunId,
    attemptName: string,
    predecessor: Option<Digest>,
    successor: Digest,
    record: RunRecord,
    nextManifest: Manifest)

  /** Everything of one session that survives a process. */
  datatype Disk = Disk(
    files: map<FilePath, Content>,
    pending: Option<Commit>,
    ledger: seq<RunRecord>,
    manifest: Option<Manifest>,
    attempts: seq<RunRecord>)

  datatype Error =
    | CommitInvalid
    | LedgerInvalid
    | IoError
    | AlreadyExists
    | DoesNotExist
    | CwdMismatch
    | SkillMismatch

  datatype Exit = Done | Threw(error: Error) | Dead

  // ---------------------------------------------------------------- the commit, as a function

  function Hash(d: Disk, path: FilePath): Option<Digest> {
    if path in d.files then Some(d.files[path]) else None
  }

  function CanonicalPath(c: Commit): FilePath {
    Canonical(c.nextManifest.sessionFile)
  }

  function StagedPath(c: Commit): FilePath {
    Staged(c.nextManifest.sessionFile, c.record.runId)
  }

  function AttemptPath(c: Commit): FilePath {
    Attempt(c.attemptRun, c.attemptName)
  }

  /** The files once the attempt workspace of a run is removed. */
  function WithoutWorkspace(files: map<FilePath, Content>, runId: RunId): map<FilePath, Content> {
    map path | path in files && !(path.Attempt? && path.runId == runId) :: files[path]
  }

  function Publish(d: Disk, c: Commit): Result<Disk, Error> {
    if Hash(d, CanonicalPath(c)) == Some(c.successor) then Success(d)
    else if Hash(d, CanonicalPath(c)) != c.predecessor then Failure(CommitInvalid)
    else if Hash(d, AttemptPath(c)) != Some(c.successor) then Failure(CommitInvalid)
    else Success(d.(files := d.files[CanonicalPath(c) := c.successor] - {StagedPath(c)}))
  }

  function FindRecord(ledger: seq<RunRecord>, runId: RunId): Option<RunRecord> {
    if ledger == [] then None
    else if ledger[0].runId == runId then Some(ledger[0])
    else FindRecord(ledger[1..], runId)
  }

  function Append(ledger: seq<RunRecord>, record: RunRecord): Result<seq<RunRecord>, Error> {
    match FindRecord(ledger, record.runId)
    case Some(existing) => if existing == record then Success(ledger) else Failure(LedgerInvalid)
    case None => Success(ledger + [record])
  }

  /** `applyPendingCommit` when no operation fails and the process lives. */
  function Apply(d: Disk, c: Commit): Result<Disk, Error> {
    var published :- Publish(d, c);
    var ledger :- Append(published.ledger, c.record);
    Success(published.(
      ledger := ledger,
      manifest := Some(c.nextManifest),
      files := WithoutWorkspace(published.files - {StagedPath(c)}, c.attemptRun),
      pending := None))
  }

  // ---------------------------------------------------------------- the abstract history

  /** One committed turn. */
  datatype Turn = Turn(record: RunRecord, manifest: Manifest, content: Content)

  /** What a caller of the session can observe: canonical files, ledger and manifest. */
  datatype View = View(canonical: map<string, Content>, ledger: seq<RunRecord>, manifest: Option<Manifest>)

  function CanonicalFiles(files: map<FilePath, Content>): map<string, Content> {
    map path | path in files && path.Canonical? :: path.name := files[path]
  }

  function Observe(d: Disk): View {
    View(CanonicalFiles(d.files), d.ledger, d.manifest)
  }

  function Records(h: seq<Turn>): (records: seq<RunRecord>)
    ensures |records| == |h|
    ensures forall k :: 0 <= k < |h| ==> records[k] == h[k].record
  {
    seq(|h|, k requires 0 <= k < |h| => h[k].record)
  }

  function ViewOf(h: seq<Turn>): View {
    if h == [] then View(map[], [], None)
    else
      var last := h[|h| - 1];
      View(map[last.manifest.sessionFile := last.content], Records(h), Some(last.manifest))
  }

  function Predecessor(h: seq<Turn>): Option<Digest> {
    if h == [] then None else Some(h[|h| - 1].content)
  }

  /** The immutable part of a manifest and the agreement of each turn with its position. */
  ghost predicate WellFormed(h: seq<Turn>) {
    forall k :: 0 <= k < |h| ==>
      && h[k].record.sequence == k + 1
      && h[k].record.runId.sequence == k + 1
      && h[k].record.success
      && h[k].record.action == (if k == 0 then Created else Resumed)
      && h[k].record.sessionFile == Some(h[k].manifest.sessionFile)
      && h[k].manifest.runCount == k + 1
      && h[k].manifest.lastOutput == h[k].record.output
      && h[k].manifest.lastRunAt == h[k].record.finishedAt
      && h[k].manifest.sessionFile == h[0].manifest.sessionFile
      && h[k].manifest.createdAt == h[0].manifest.createdAt
      && h[k].manifest.cwd == h[0].manifest.cwd
      && h[k].manifest.skill == h[0].manifest.skill
      && h[k].manifest.modelClass == h[0].manifest.modelClass
  }

  ghost predicate Quiescent(d: Disk, h: seq<Turn>) {
    && WellFormed(h)
    && d.pending == None
    && Observe(d) == ViewOf(h)
  }

  /** The pending commit is the last turn of `h`, and nothing of it, a part or all of it is published. */
  ghost predicate InFlight(d: Disk, h: seq<Turn>) {
    && WellFormed(h)
    && h != []
    && d.pending.Some?
    && var c := d.pending.value;
    && var last := h[|h| - 1];
    && var before := ViewOf(h[..|h| - 1]);
    && var after := ViewOf(h);
    && c.record == last.record
    && c.nextManifest == last.manifest
    && c.successor == last.content
    && c.predecessor == Predecessor(h[..|h| - 1])
    && c.attemptRun == c.record.runId
    && CanonicalFiles(d.files) in {before.canonical, after.canonical}
    && d.ledger in {before.ledger, after.ledger}
    && d.manifest in {before.manifest, after.manifest}
    && (d.ledger == after.ledger ==> CanonicalFiles(d.files) == after.canonical)
    && (d.manifest == after.manifest ==> d.ledger == after.ledger)
    && (CanonicalFiles(d.files) != after.canonical ==> Hash(d, AttemptPath(c)) == Some(c.successor))
  }

  /** Every state a process can leave behind. */
  ghost predicate CrashState(d: Disk, h: seq<Turn>) {
    Quiescent(d, h) || InFlight(d, h)
  }

  // ---------------------------------------------------------------- lemmas about the functions

  lemma {:induction false} FindAppended(ledger: seq<RunRecord>, record: RunRecord)
    requires FindRecord(ledger, record.runId) == None
    ensures FindRecord(ledger + [record], record.runId) == Some(record)
  {
    if ledger == [] {
    } else {
      assert (ledger + [record])[1..] == ledger[1..] + [record];
      FindAppended(ledger[1..], record);
    }
  }

  lemma {:induction false} FindMisses(ledger: seq<RunRecord>, runId: RunId)
    requires forall k :: 0 <= k < |ledger| ==> ledger[k].runId != runId
    ensures FindRecord(ledger, runId) == None
  {
    if ledger == [] {
    } else {
      FindMisses(ledger[1..], runId);
    }
  }

  lemma HashIsCanonical(d: Disk, name: string)
    ensures Hash(d, Canonical(name)) ==
            if name in CanonicalFiles(d.files) then Some(CanonicalFiles(d.files)[name]) else None
  {
    if name in CanonicalFiles(d.files) {
      var path :| path in d.files && path.Canonical? && path.name == name;
      assert path == Canonical(name);
    }
  }

  /** Only the canonical entries of the file map are observable. */
  lemma CanonicalFilesOnly(files: map<FilePath, Content>, files': map<FilePath, Content>)
    requires forall path: FilePath :: path.Canonical? ==>
               (path in files <==> path in files') && (path in files ==> files[path] == files'[path])
    ensures CanonicalFiles(files) == CanonicalFiles(files')
  {
    var m, m' := CanonicalFiles(files), CanonicalFiles(files');
    forall name | name in m ensures name in m' && m[name] == m'[name] {
      assert Canonical(name) in files';
    }
    forall name | name in m' ensures name in m {
      assert Canonical(name) in files;
    }
  }

  lemma CanonicalFilesUpdated(files: map<FilePath, Content>, name: string, content: Content)
    ensures CanonicalFiles(files[Canonical(name) := content]) == CanonicalFiles(files)[name := content]
  {
    var m, m' := CanonicalFiles(files[Canonical(name) := content]), CanonicalFiles(files)[name := content];
    forall other | other in m ensures other in m' && m[other] == m'[other] {
      if other != name { assert Canonical(other) in files; }
    }
    forall other | other in m' ensures other in m {
      assert Canonical(other) in files[Canonical(name) := content];
    }
  }

  /** Applying a commit twice equals applying it once, from any disk at all. */
  lemma ApplyTwice(d: Disk, c: Commit)
    requires Apply(d, c).Success?
    ensures Apply(Apply(d, c).value, c) == Success(Apply(d, c).value)
  {
    var once := Apply(d, c).value;
    var published := Publish(d, c).value;
    if FindRecord(published.ledger, c.record.runId) == None {
      FindAppended(published.ledger, c.record);
    }
    assert Hash(published, CanonicalPath(c)) == Some(c.successor);
    assert Hash(once, CanonicalPath(c)) == Some(c.successor);
    assert once.files - {StagedPath(c)} == once.files;
    assert WithoutWorkspace(once.files, c.attemptRun) == once.files;
  }

  lemma PrefixWellFormed(h: seq<Turn>)
    requires WellFormed(h) && h != []
    ensures WellFormed(h[..|h| - 1])
    ensures Records(h) == Records(h[..|h| - 1]) + [h[|h| - 1].record]
    ensures forall k :: 0 <= k < |h| - 1 ==> Records(h)[k].runId != h[|h| - 1].record.runId
  {
  }

  /**
   Atomicity: whatever a crash left behind, one undisturbed recovery ends in exactly the state
   after the turn that was pending.  It never refuses, so it is never stuck.
   */
  lemma RecoveryCompletes(d: Disk, h: seq<Turn>)
    requires InFlight(d, h)
    ensures Apply(d, d.pending.value).Success?
    ensures Quiescent(Apply(d, d.pending.value).value, h)
  {
    var c := d.pending.value;
    PrefixWellFormed(h);
    HashIsCanonical(d, c.nextManifest.sessionFile);
    var published := Publish(d, c).value;
    PublishedView(d, h);
    LedgerAppends(d, h);
    var applied := Apply(d, c).value;
    CanonicalFilesOnly(published.files, applied.files);
  }

  lemma PublishedView(d: Disk, h: seq<Turn>)
    requires InFlight(d, h)
    ensures Publish(d, d.pending.value).Success?
    ensures var published := Publish(d, d.pending.value).value;
            && CanonicalFiles(published.files) == ViewOf(h).canonical
            && published == d.(files := published.files)
  {
    var c := d.pending.value;
    var name := c.nextManifest.sessionFile;
    HashIsCanonical(d, name);
    var published := Publish(d, c).value;
    if Hash(d, CanonicalPath(c)) != Some(c.successor) {
      CanonicalFilesUpdated(d.files, name, c.successor);
      CanonicalFilesOnly(published.files, d.files[Canonical(name) := c.successor]);
    }
  }

  lemma LedgerAppends(d: Disk, h: seq<Turn>)
    requires InFlight(d, h)
    ensures Append(d.ledger, d.pending.value.record) == Success(ViewOf(h).ledger)
  {
    var c := d.pending.value;
    PrefixWellFormed(h);
    var before := Records(h[..|h| - 1]);
    FindMisses(before, c.record.runId);
    FindAppended(before, c.record);
    assert ViewOf(h[..|h| - 1]).ledger == before;
  }

  /** Staged copies are invisible to the invariant. */
  lemma StagedIsHidden(d: Disk, d': Disk, h: seq<Turn>)
    requires InFlight(d, h)
    requires d' == d.(files := d'.files)
    requires forall path: FilePath :: !path.Staged? ==>
               (path in d.files <==> path in d'.files) && (path in d.files ==> d.files[path] == d'.files[path])
    ensures InFlight(d', h)
  {
    CanonicalFilesOnly(d.files, d'.files);
  }

  /** Two file maps that differ in staged copies only. */
  ghost predicate SameUnstaged(files: map<FilePath, Content>, files': map<FilePath, Content>, but: FilePath) {
    forall path: FilePath :: !path.Staged? && path != but ==>
      (path in files <==> path in files') && (path in files ==> files[path] == files'[path])
  }

  lemma RenamedFiles(d: Disk, files: map<FilePath, Content>, c: Commit)
    requires Publish(d, c).Success?
    requires SameUnstaged(d.files, files, CanonicalPath(c))
    requires CanonicalPath(c) in files && files[CanonicalPath(c)] == c.successor
    ensures CanonicalFiles(files) == CanonicalFiles(Publish(d, c).value.files)
  {
    var published := Publish(d, c).value.files;
    assert CanonicalPath(c) in published && published[CanonicalPath(c)] == c.successor;
    CanonicalFilesOnly(files, published);
  }

  /** The rename is the step that publishes. */
  lemma RenamedIsInFlight(d: Disk, d': Disk, h: seq<Turn>)
    requires InFlight(d, h)
    requires d' == d.(files := d'.files)
    requires SameUnstaged(d.files, d'.files, CanonicalPath(d.pending.value))
    requires Hash(d', CanonicalPath(d.pending.value)) == Some(d.pending.value.successor)
    ensures InFlight(d', h)
  {
    PublishedView(d, h);
    RenamedFiles(d, d'.files, d.pending.value);
    PublishedIsInFlight(d, d', h);
  }

  lemma AppendedIsFound(ledger: seq<RunRecord>, record: RunRecord)
    requires Append(ledger, record).Success?
    ensures FindRecord(Append(ledger, record).value, record.runId) == Some(record)
  {
    if FindRecord(ledger, record.runId) == None {
      FindAppended(ledger, record);
    }
  }

  /** Once the canonical file carries the new content, the attempt workspace is no longer needed. */
  lemma PublishedIsInFlight(d: Disk, d': Disk, h: seq<Turn>)
    requires InFlight(d, h)
    requires d' == d.(files := d'.files)
    requires CanonicalFiles(d'.files) == ViewOf(h).canonical
    ensures InFlight(d', h)
  {
  }

  /** The record and the manifest a turn after `h` must carry. */
  ghost predicate ExtendsHistory(h: seq<Turn>, record: RunRecord, manifest: Manifest) {
    WellFormed(h + [Turn(record, manifest, "")])
  }

  /** Writing `pending-commit.json` is where a turn commits: from here recovery publishes it. */
  lemma PreparedIsInFlight(d: Disk, c: Commit, h: seq<Turn>, turn: Turn)
    requires Quiescent(d, h) && ExtendsHistory(h, turn.record, turn.manifest)
    requires turn == Turn(c.record, c.nextManifest, c.successor)
    requires c.attemptRun == c.record.runId
    requires Hash(d, AttemptPath(c)) == Some(c.successor)
    requires c.predecessor == Hash(d, CanonicalPath(c))
    ensures InFlight(d.(pending := Some(c)), h + [turn])
  {
    var h' := h + [turn];
    assert h'[..|h'| - 1] == h;
    ContentIsFree(h, turn);
    HashIsCanonical(d, c.nextManifest.sessionFile);
    ManifestMoves(h, turn);
    assert |ViewOf(h').ledger| == |h| + 1 && |ViewOf(h).ledger| == |h|;
  }

  lemma ContentIsFree(h: seq<Turn>, turn: Turn)
    requires ExtendsHistory(h, turn.record, turn.manifest)
    ensures WellFormed(h + [turn])
  {
    var probe := h + [Turn(turn.record, turn.manifest, "")];
    var h' := h + [turn];
    assert forall k :: 0 <= k < |h'| ==> probe[k].record == h'[k].record && probe[k].manifest == h'[k].manifest;
  }

  lemma ManifestMoves(h: seq<Turn>, turn: Turn)
    requires WellFormed(h + [turn])
    ensures ViewOf(h).manifest != ViewOf(h + [turn]).manifest
    ensures h != [] ==> h[|h| - 1].manifest.sessionFile == turn.manifest.sessionFile
  {
    var h' := h + [turn];
    assert h'[|h|] == turn;
    if h != [] {
      assert h'[|h| - 1] == h[|h| - 1];
    }
  }

  /** A new turn's sequence number and manifest continue the history it was read from. */
  lemma NextTurnFits(d: Disk, h: seq<Turn>, record: RunRecord, manifest: Manifest)
    requires Quiescent(d, h)
    requires record.success && record.sequence == record.runId.sequence == manifest.runCount == |h| + 1
    requires record.action == (if d.manifest.Some? then Resumed else Created)
    requires record.sessionFile == Some(manifest.sessionFile)
    requires manifest.lastOutput == record.output && manifest.lastRunAt == record.finishedAt
    requires d.manifest.Some? ==>
               && manifest.sessionFile == d.manifest.value.sessionFile && manifest.createdAt == d.manifest.value.createdAt
               && manifest.cwd == d.manifest.value.cwd && manifest.skill == d.manifest.value.skill
               && manifest.modelClass == d.manifest.value.modelClass
    ensures ExtendsHistory(h, record, manifest)
  {
    var h' := h + [Turn(record, manifest, "")];
    if h != [] {
      assert d.manifest == Some(h[|h| - 1].manifest);
    }
    forall k | 0 <= k < |h'|
      ensures h'[k].manifest.sessionFile == h'[0].manifest.sessionFile
      ensures h'[k].manifest.createdAt == h'[0].manifest.createdAt
      ensures h'[k].manifest.cwd == h'[0].manifest.cwd
      ensures h'[k].manifest.skill == h'[0].manifest.skill
      ensures h'[k].manifest.modelClass == h'[0].manifest.modelClass
    {
      if k < |h| { assert h'[k] == h[k] && h'[0] == h[0]; }
    }
  }

  lemma OutsideWorkspace(files: map<FilePath, Content>, files': map<FilePath, Content>, runId: RunId)
    requires WithoutWorkspace(files, runId) == WithoutWorkspace(files', runId)
    ensures CanonicalFiles(files) == CanonicalFiles(files')
  {
    CanonicalFilesOnly(files, WithoutWorkspace(files, runId));
    CanonicalFilesOnly(files', WithoutWorkspace(files', runId));
  }

  // ---------------------------------------------------------------- the session directory

  /** What a turn is asked to do, together with what its child does to the attempt workspace. */
  datatype Request = Request(
    sessionKey: string,
    cwd: string,
    skill: Option<string>,
    modelClass: string,
    requireNew: bool,
    requireExisting: bool,
    nonce: string,
    startedAt: string,
    finishedAt: string,
    output: string,
    accepted: bool,
    childFile: Option<string>)

  /** The manifest of a session at rest. */
  function Current(h: seq<Turn>): Option<Manifest> {
    if h == [] then None else Some(h[|h| - 1].manifest)
  }

  /** The record of an attempt says what was asked and what came of it. */
  predicate RecordCarries(record: RunRecord, request: Request, h: seq<Turn>, success: bool) {
    && record.runId == RunId(|h| + 1, request.nonce) && record.sequence == |h| + 1
    && record.finishedAt == request.finishedAt && record.output == request.output
    && record.success == success
    && record.action == (if !success then NotCreated else if h == [] then Created else Resumed)
    && record.sessionFile == (if h != [] then Some(h[|h| - 1].manifest.sessionFile) else if success then request.childFile else None)
  }

  /** A committed turn carries its request; what the first turn fixed stays, and the rest is the request's. */
  predicate TurnCarries(turn: Turn, request: Request, h: seq<Turn>) {
    var manifest := turn.manifest;
    && RecordCarries(turn.record, request, h, true)
    && turn.record.sessionFile == Some(manifest.sessionFile)
    && manifest.sessionKey == request.sessionKey && manifest.cwd == request.cwd && manifest.skill == request.skill
    && manifest.lastRunAt == request.finishedAt && manifest.lastOutput == request.output && manifest.runCount == |h| + 1
    && manifest.modelClass == (if h == [] then request.modelClass else h[|h| - 1].manifest.modelClass)
    && manifest.createdAt == (if h == [] then request.startedAt else h[|h| - 1].manifest.createdAt)
  }

  /** Why a request is refused before its child runs. */
  function Refusal(h: seq<Turn>, request: Request): Option<Error> {
    if h != [] && request.requireNew then Some(AlreadyExists)
    else if h == [] && request.requireExisting then Some(DoesNotExist)
    else if h != [] && h[|h| - 1].manifest.cwd != request.cwd then Some(CwdMismatch)
    else if h != [] && h[|h| - 1].manifest.skill != request.skill then Some(SkillMismatch)
    else None
  }

  /** At most this request's turn enters the history, with what its child left of what was committed before. */
  ghost predicate Enters(
    h: seq<Turn>, h': seq<Turn>, request: Request, saw: map<FilePath, Content>, left: map<FilePath, Content>)
  {
    h' != h ==>
      && |h'| == |h| + 1 && h'[..|h|] == h && request.accepted
      && TurnCarries(h'[|h|], request, h)
      && var at := Attempt(RunId(|h| + 1, request.nonce), h'[|h|].manifest.sessionFile);
      && at in left && h'[|h|].content == left[at]
      && (h != [] ==> at in saw && Some(saw[at]) == Predecessor(h))
  }

  /** At most the record of this request's refused turn enters the attempts. */
  ghost predicate AttemptsGrow(before: seq<RunRecord>, after: seq<RunRecord>, request: Request, h: seq<Turn>) {
    after != before ==>
      |after| == |before| + 1 && after[..|before|] == before && RecordCarries(after[|before|], request, h, false)
  }

  /** The record of an attempt of the session that `manifest` describes. */
  function AttemptRecord(request: Request, manifest: Option<Manifest>, runId: RunId, success: bool): RunRecord {
    RunRecord(
      runId, runId.sequence, if !success then NotCreated else if manifest.Some? then Resumed else Created,
      if manifest.Some? then Some(manifest.value.sessionFile) else if success then request.childFile else None,
      request.finishedAt, request.output, success)
  }

  function NextManifest(request: Request, manifest: Option<Manifest>, record: RunRecord): Manifest
    requires record.sessionFile.Some?
  {
    Manifest(
      request.sessionKey, request.cwd, request.skill,
      if manifest.Some? then manifest.value.modelClass else request.modelClass,
      record.sessionFile.value,
      if manifest.Some? then manifest.value.createdAt else request.startedAt,
      request.finishedAt, record.sequence, request.output)
  }

  lemma AttemptCarries(d: Disk, h: seq<Turn>, request: Request, success: bool)
    requires Quiescent(d, h)
    ensures RecordCarries(AttemptRecord(request, d.manifest, RunId(|h| + 1, request.nonce), success), request, h, success)
  {
    RestIsCurrent(d, h);
  }

  /** An accepted attempt with a session file continues the history, and its turn carries the request. */
  lemma AttemptContinues(d: Disk, h: seq<Turn>, request: Request, content: Content)
    requires Quiescent(d, h) && (h == [] ==> request.childFile.Some?)
    requires d.manifest.Some? ==> d.manifest.value.cwd == request.cwd && d.manifest.value.skill == request.skill
    ensures var record := AttemptRecord(request, d.manifest, RunId(|h| + 1, request.nonce), true);
            && record.sessionFile.Some?
            && ExtendsHistory(h, record, NextManifest(request, d.manifest, record))
            && TurnCarries(Turn(record, NextManifest(request, d.manifest, record), content), request, h)
  {
    RestIsCurrent(d, h);
    var record := AttemptRecord(request, d.manifest, RunId(|h| + 1, request.nonce), true);
    NextTurnFits(d, h, record, NextManifest(request, d.manifest, record));
  }

  lemma RestBeside(d: Disk, h: seq<Turn>, attempts: seq<RunRecord>)
    requires Quiescent(d, h)
    ensures Quiescent(d.(attempts := attempts), h)
  {
  }

  /** The session file a turn commits is the one its child works on. */
  lemma AttemptsFile(d: Disk, h: seq<Turn>, request: Request)
    requires Quiescent(d, h) && (h == [] ==> request.childFile.Some?)
    ensures var record := AttemptRecord(request, d.manifest, RunId(|h| + 1, request.nonce), true);
            && record.runId == RunId(|h| + 1, request.nonce) && record.sessionFile.Some?
            && NextManifest(request, d.manifest, record).sessionFile ==
                 if d.manifest.Some? then d.manifest.value.sessionFile else request.childFile.value
  {
    RestIsCurrent(d, h);
  }

  lemma RestOutside(d: Disk, d': Disk, h: seq<Turn>, runId: RunId)
    requires Quiescent(d, h) && d' == d.(files := d'.files)
    requires WithoutWorkspace(d.files, runId) == WithoutWorkspace(d'.files, runId)
    ensures Quiescent(d', h)
  {
    OutsideWorkspace(d.files, d'.files, runId);
  }

  ghost predicate IsTurnOf(turn: Turn, h: seq<Turn>, requests: seq<Request>) {
    exists request :: request in requests && TurnCarries(turn, request, h)
  }

  /** Each turn from the `n`-th on is that of one of the requests. */
  ghost predicate Serves(n: nat, h: seq<Turn>, requests: seq<Request>) {
    forall k :: n <= k < |h| ==> IsTurnOf(h[k], h[..k], requests)
  }

  lemma ServesNothing(h: seq<Turn>, requests: seq<Request>)
    ensures Serves(|h|, h, requests[..0])
  {
  }

  lemma ServesOne(n: nat, h: seq<Turn>, h': seq<Turn>, requests: seq<Request>, k: nat)
    requires k < |requests| && Serves(n, h, requests[..k]) && n <= |h|
    requires h' == h || (|h'| == |h| + 1 && h'[..|h|] == h && TurnCarries(h'[|h|], requests[k], h))
    ensures Serves(n, h', requests[..k + 1])
  {
    hide TurnCarries;
    var served := requests[..k + 1];
    assert served == requests[..k] + [requests[k]];
    forall j | n <= j < |h'| ensures IsTurnOf(h'[j], h'[..j], served) {
      if j < |h| {
        assert h'[j] == h[j] && h'[..j] == h[..j];
        assert IsTurnOf(h[j], h[..j], requests[..k]);
      } else {
        assert requests[k] in served;
      }
    }
  }

  lemma RestIsCurrent(d: Disk, h: seq<Turn>)
    requires Quiescent(d, h)
    ensures d.manifest == Current(h) && (d.manifest.None? <==> h == [])
    ensures d.manifest.Some? ==> d.manifest.value.runCount == |h|
  {
  }

  function ReconcileManifest(manifest: Manifest, ledger: seq<RunRecord>): Result<Manifest, Error> {
    if |ledger| == manifest.runCount then Success(manifest)
    else if |ledger| < manifest.runCount then Failure(LedgerInvalid)
    else
      var last := ledger[|ledger| - 1];
      if last.action.NotCreated? then Failure(LedgerInvalid)
      else if last.sessionFile.Some? && last.sessionFile.value != manifest.sessionFile then Failure(LedgerInvalid)
      else Success(manifest.(runCount := |ledger|, lastRunAt := last.finishedAt, lastOutput := last.output))
  }

  /** At rest the manifest already agrees with the ledger: reconciliation is the identity. */
  lemma ReconcileIsIdentity(d: Disk, h: seq<Turn>)
    requires Quiescent(d, h)
    ensures d.manifest.Some? <==> d.ledger != []
    ensures d.manifest.Some? ==>
              && d.manifest.value.runCount == |d.ledger| == |h|
              && ReconcileManifest(d.manifest.value, d.ledger) == Success(d.manifest.value)
    ensures forall k :: 0 <= k < |d.ledger| ==> d.ledger[k].sequence == k + 1 && d.ledger[k].success
  {
    assert d.ledger == ViewOf(h).ledger;
    if h != [] {
      assert d.ledger == Records(h);
    }
  }

  /** From the manifest of any earlier turn, reconciliation with the ledger arrives at the last one. */
  lemma ReconcileCatchesUp(h: seq<Turn>, k: nat)
    requires WellFormed(h) && k < |h|
    ensures var last, key := h[|h| - 1].manifest, h[k].manifest.sessionKey;
            ReconcileManifest(h[k].manifest, Records(h)) == Success(last.(sessionKey := key))
              || (k == |h| - 1 && ReconcileManifest(h[k].manifest, Records(h)) == Success(last))
  {
    assert Records(h)[|h| - 1] == h[|h| - 1].record;
  }

  /** A ledger that is behind its manifest, or that ends otherwise than in a turn of this session, is refused. */
  lemma ReconcileRefuses(manifest: Manifest, ledger: seq<RunRecord>)
    requires |ledger| != manifest.runCount
    ensures ReconcileManifest(manifest, ledger) == Failure(LedgerInvalid) <==>
              || |ledger| < manifest.runCount
              || ledger[|ledger| - 1].action.NotCreated?
              || (ledger[|ledger| - 1].sessionFile.Some? && ledger[|ledger| - 1].sessionFile.value != manifest.sessionFile)
  {
  }

  /** The directory of one named session; its exclusive run lock is held by the caller. */
  class SessionDirectory {
    var disk: Disk
    ghost var history: seq<Turn>
    /** How often the demon has struck: without it nothing below fails or dies. */
    ghost var struck: nat
    /** Whether the process that works on the session lives; nothing is done after its death. */
    ghost var alive: bool
    /** The files as the last child found and as it left them. */
    ghost var childSaw: map<FilePath, Content>
    ghost var childLeft: map<FilePath, Content>

    ghost predicate Valid()
      reads this
    {
      CrashState(disk, history)
    }

    constructor ()
      ensures Valid() && history == [] && alive
      ensures disk == Disk(map[], None, [], None, [])
    {
      disk := Disk(map[], None, [], None, []);
      history, struck, alive := [], 0, true;
      new;
      assert CanonicalFiles(disk.files) == map[];
    }

    // ------------------------------------------------ single file operations

    /** The demon: an operation takes effect, is refused, or the process dies before it. */
    method Strike() returns (fate: Fate)
      requires alive
      modifies this`struck, this`alive
      ensures fate.Took? ==> struck == old(struck)
      ensures !fate.Took? ==> struck > old(struck)
      ensures alive <==> !fate.Died?
    {
      fate := *;
      if !fate.Took? {
        struck := struck + 1;
      }
      alive := !fate.Died?;
    }

    /** Another process takes the session over. */
    method Restart()
      modifies this`alive
      ensures alive
    {
      alive := true;
    }

    method RemoveFile(path: FilePath) returns (fate: Fate)
      requires alive
      modifies this`disk, this`struck, this`alive
      ensures struck >= old(struck) && (fate.Took? <==> struck == old(struck)) && (alive <==> !fate.Died?)
      ensures disk == if fate.Took? then old(disk).(files := old(disk).files - {path}) else old(disk)
    {
      fate := Strike();
      if fate.Took? {
        disk := disk.(files := disk.files - {path});
      }
    }

    /** A copy is not atomic: when it does not complete, the target holds anything or is absent. */
    method CopyFile(source: FilePath, target: FilePath) returns (fate: Fate)
      requires alive
      requires source in disk.files
      modifies this`disk, this`struck, this`alive
      ensures struck >= old(struck) && (fate.Took? <==> struck == old(struck)) && (alive <==> !fate.Died?)
      ensures fate.Took? ==> disk == old(disk).(files := old(disk).files[target := old(disk).files[source]])
      ensures !fate.Took? ==>
                || disk == old(disk)
                || (target in disk.files && disk == old(disk).(files := old(disk).files[target := disk.files[target]]))
    {
      fate := Strike();
      if fate.Took? {
        disk := disk.(files := disk.files[target := disk.files[source]]);
      } else {
        var partial: Option<Content> := *;
        if partial.Some? {
          disk := disk.(files := disk.files[target := partial.value]);
        }
      }
    }

    method RenameFile(source: FilePath, target: FilePath) returns (fate: Fate)
      requires alive
      requires source in disk.files && source != target
      modifies this`disk, this`struck, this`alive
      ensures struck >= old(struck) && (fate.Took? <==> struck == old(struck)) && (alive <==> !fate.Died?)
      ensures disk == if fate.Took?
                      then old(disk).(files := old(disk).files[target := old(disk).files[source]] - {source})
                      else old(disk)
    {
      fate := Strike();
      if fate.Took? {
        disk := disk.(files := disk.files[target := disk.files[source]] - {source});
      }
    }

    method AppendLedger(record: RunRecord) returns (fate: Fate)
      requires alive
      modifies this`disk, this`struck, this`alive
      ensures struck >= old(struck) && (fate.Took? <==> struck == old(struck)) && (alive <==> !fate.Died?)
      ensures disk == if fate.Took? then old(disk).(ledger := old(disk).ledger + [record]) else old(disk)
    {
      fate := Strike();
      if fate.Took? {
        disk := disk.(ledger := disk.ledger + [record]);
      }
    }

    method AppendAttempts(record: RunRecord) returns (fate: Fate)
      requires alive
      modifies this`disk, this`struck, this`alive
      ensures struck >= old(struck) && (fate.Took? <==> struck == old(struck)) && (alive <==> !fate.Died?)
      ensures disk == if fate.Took? then old(disk).(attempts := old(disk).attempts + [record]) else old(disk)
    {
      fate := Strike();
      if fate.Took? {
        disk := disk.(attempts := disk.attempts + [record]);
      }
    }

    method WriteManifest(manifest: Manifest) returns (fate: Fate)
      requires alive
      modifies this`disk, this`struck, this`alive
      ensures struck >= old(struck) && (fate.Took? <==> struck == old(struck)) && (alive <==> !fate.Died?)
      ensures disk == if fate.Took? then old(disk).(manifest := Some(manifest)) else old(disk)
    {
      fate := Strike();
      if fate.Took? {
        disk := disk.(manifest := Some(manifest));
      }
    }

    method WritePending(commit: Commit) returns (fate: Fate)
      requires alive
      modifies this`disk, this`struck, this`alive
      ensures struck >= old(struck) && (fate.Took? <==> struck == old(struck)) && (alive <==> !fate.Died?)
      ensures disk == if fate.Took? then old(disk).(pending := Some(commit)) else old(disk)
    {
      fate := Strike();
      if fate.Took? {
        disk := disk.(pending := Some(commit));
      }
    }

    method RemovePending() returns (fate: Fate)
      requires alive
      modifies this`disk, this`struck, this`alive
      ensures struck >= old(struck) && (fate.Took? <==> struck == old(struck)) && (alive <==> !fate.Died?)
      ensures disk == if fate.Took? then old(disk).(pending := None) else old(disk)
    {
      fate := Strike();
      if fate.Took? {
        disk := disk.(pending := None);
      }
    }

    /** A recursive removal that fails or dies on the way leaves some of the workspace. */
    method RemoveWorkspace(runId: RunId) returns (fate: Fate)
      requires alive
      modifies this`disk, this`struck, this`alive
      ensures struck >= old(struck) && (fate.Took? <==> struck == old(struck)) && (alive <==> !fate.Died?)
      ensures fate.Took? ==>
                disk == old(disk).(files := WithoutWorkspace(old(disk).files, runId))
      ensures disk == old(disk).(files := disk.files)
      ensures CanonicalFiles(disk.files) == CanonicalFiles(old(disk).files)
      ensures forall path :: path in old(disk).files && !(path.Attempt? && path.runId == runId) ==>
                path in disk.files && disk.files[path] == old(disk).files[path]
    {
      fate := Strike();
      var removed: set<FilePath> := *;
      if fate.Took? {
        disk := disk.(files := WithoutWorkspace(disk.files, runId));
      } else {
        disk := disk.(files := map path | path in disk.files && !(path in removed && path.Attempt? && path.runId == runId) :: disk.files[path]);
      }
      CanonicalFilesOnly(old(disk).files, disk.files);
    }

    // ------------------------------------------------ the commit

    method PublishAttemptFile(commit: Commit) returns (exit: Exit)
      requires alive
      modifies this`disk, this`struck, this`alive
      ensures struck >= old(struck) && (exit.Dead? || exit == Threw(IoError) ==> struck > old(struck))
      ensures (alive <==> !exit.Dead?) && (exit.Done? ==> struck == old(struck))
      ensures disk == old(disk).(files := disk.files)
      ensures exit.Done? ==> Publish(old(disk), commit) == Success(disk)
      ensures exit.Threw? && exit.error != IoError ==> Publish(old(disk), commit) == Failure(exit.error)
      ensures old(InFlight(disk, history)) && disk.pending == Some(commit) ==> InFlight(disk, history)
    {
      hide WellFormed, ViewOf, Records, InFlight, CanonicalFiles, Observe;
      ghost var start := disk;
      ghost var tracked := InFlight(disk, history) && disk.pending == Some(commit);
      var canonical, staged := CanonicalPath(commit), StagedPath(commit);
      if Hash(disk, canonical) == Some(commit.successor) {
        return Done;
      }
      if Hash(disk, canonical) != commit.predecessor {
        return Threw(CommitInvalid);
      }
      if Hash(disk, AttemptPath(commit)) != Some(commit.successor) {
        return Threw(CommitInvalid);
      }
      var fate := RemoveFile(staged);
      if tracked { StagedIsHidden(start, disk, history); }
      if fate.Died? { return Dead; }
      if fate.Refused? { return Threw(IoError); }
      fate := CopyFile(AttemptPath(commit), staged);
      if tracked { StagedIsHidden(start, disk, history); }
      if fate.Died? { return Dead; }
      var thrown := fate.Refused?;
      if !thrown {
        fate := RenameFile(staged, canonical);
        if tracked {
          if fate.Took? { RenamedIsInFlight(start, disk, history); } else { StagedIsHidden(start, disk, history); }
        }
        if fate.Died? { return Dead; }
        thrown := fate.Refused?;
      }
      ghost var renamed := disk;
      fate := RemoveFile(staged);
      if tracked { StagedIsHidden(renamed, disk, history); }
      if fate.Died? { return Dead; }
      if thrown || fate.Refused? { return Threw(IoError); }
      assert disk.files == start.files[canonical := commit.successor] - {staged};
      return Done;
    }

    method AppendRunRecordIdempotent(record: RunRecord) returns (exit: Exit)
      requires alive
      modifies this`disk, this`struck, this`alive
      ensures struck >= old(struck) && (exit.Dead? || exit == Threw(IoError) ==> struck > old(struck))
      ensures (alive <==> !exit.Dead?) && (exit.Done? ==> struck == old(struck))
      ensures disk == old(disk).(ledger := disk.ledger)
      ensures disk.ledger == old(disk.ledger) || Append(old(disk.ledger), record) == Success(disk.ledger)
      ensures exit.Done? ==> Append(old(disk.ledger), record) == Success(disk.ledger)
      ensures exit.Threw? && exit.error != IoError ==> Append(old(disk.ledger), record) == Failure(exit.error)
    {
      var existing := FindRecord(disk.ledger, record.runId);
      if existing.Some? {
        return if existing.value != record then Threw(LedgerInvalid) else Done;
      }
      var fate := AppendLedger(record);
      return if fate.Died? then Dead else if fate.Refused? then Threw(IoError) else Done;
    }

    /** The three stores one after the other, then the check that all three carry the commit. */
    method MoveStores(commit: Commit) returns (exit: Exit)
      requires alive
      modifies this`disk, this`struck, this`alive
      ensures struck >= old(struck) && (exit.Dead? || exit == Threw(IoError) ==> struck > old(struck))
      ensures (alive <==> !exit.Dead?) && (exit.Done? ==> struck == old(struck))
      ensures disk.pending == old(disk).pending && disk.attempts == old(disk).attempts
      ensures exit.Done? ==>
                && Publish(old(disk), commit).Success?
                && Append(old(disk).ledger, commit.record) == Success(disk.ledger)
                && disk == Publish(old(disk), commit).value.(ledger := disk.ledger, manifest := Some(commit.nextManifest))
      ensures exit.Threw? && exit.error != IoError ==> Apply(old(disk), commit) == Failure(exit.error)
      ensures old(InFlight(disk, history) && disk.pending == Some(commit)) ==>
                && InFlight(disk, history)
                && (exit.Threw? ==> exit.error == IoError)
                && (exit.Done? ==> Observe(disk) == ViewOf(history))
    {
      hide WellFormed, Records;
      ghost var tracked := InFlight(disk, history) && disk.pending == Some(commit);
      if tracked { PublishedView(disk, history); LedgerAppends(disk, history); }
      exit := PublishAttemptFile(commit);
      if !exit.Done? { return; }
      ghost var published := disk;
      exit := AppendRunRecordIdempotent(commit.record);
      if !exit.Done? { return; }
      var fate := WriteManifest(commit.nextManifest);
      if !fate.Took? { return if fate.Died? then Dead else Threw(IoError); }
      AppendedIsFound(published.ledger, commit.record);
      if Hash(disk, CanonicalPath(commit)) != Some(commit.successor) { return Threw(CommitInvalid); }
      if FindRecord(disk.ledger, commit.record.runId) != Some(commit.record) { return Threw(CommitInvalid); }
      if disk.manifest != Some(commit.nextManifest) { return Threw(CommitInvalid); }
      return Done;
    }

    /** Staged copy, attempt workspace and pending commit go last, in this order. */
    method ClearCommit(commit: Commit) returns (exit: Exit)
      requires alive
      modifies this`disk, this`struck, this`alive
      ensures struck >= old(struck) && (exit.Dead? || exit == Threw(IoError) ==> struck > old(struck))
      ensures (alive <==> !exit.Dead?) && (exit.Done? ==> struck == old(struck))
      ensures disk.attempts == old(disk).attempts
      ensures exit.Done? ==>
                disk == old(disk).(files := WithoutWorkspace(old(disk).files - {StagedPath(commit)}, commit.attemptRun),
                                   pending := None)
      ensures exit.Threw? ==> exit.error == IoError
      ensures old(InFlight(disk, history) && disk.pending == Some(commit) && Observe(disk) == ViewOf(history)) ==>
                if exit.Done? then Quiescent(disk, history)
                else InFlight(disk, history) && disk.pending == Some(commit)
    {
      ghost var start := disk;
      ghost var tracked := InFlight(disk, history) && disk.pending == Some(commit) && Observe(disk) == ViewOf(history);
      var fate := RemoveFile(StagedPath(commit));
      CanonicalFilesOnly(start.files, disk.files);
      if tracked { PublishedIsInFlight(start, disk, history); }
      if !fate.Took? { return if fate.Died? then Dead else Threw(IoError); }
      fate := RemoveWorkspace(commit.attemptRun);
      if tracked { PublishedIsInFlight(start, disk, history); }
      if !fate.Took? { return if fate.Died? then Dead else Threw(IoError); }
      fate := RemovePending();
      if !fate.Took? { return if fate.Died? then Dead else Threw(IoError); }
      return Done;
    }

    /**
     `applyPendingCommit`.  Its three verifications can only fail when an earlier step already
     refused, so they never add a way to fail; the crash invariant holds wherever it stops.
     */
    method ApplyPendingCommit(commit: Commit) returns (exit: Exit)
      requires alive
      modifies this`disk, this`struck, this`alive
      ensures struck >= old(struck) && (exit.Dead? || exit == Threw(IoError) ==> struck > old(struck))
      ensures (alive <==> !exit.Dead?) && (exit.Done? ==> struck == old(struck))
      ensures exit.Done? ==> Apply(old(disk), commit) == Success(disk)
      ensures exit.Threw? && exit.error != IoError ==> Apply(old(disk), commit) == Failure(exit.error)
      ensures old(InFlight(disk, history) && disk.pending == Some(commit)) ==>
                && CrashState(disk, history)
                && (exit.Done? ==> Quiescent(disk, history))
                && (exit.Threw? ==> exit.error == IoError)
                && (disk.pending == Some(commit) || Quiescent(disk, history))
      ensures disk.attempts == old(disk.attempts)
    {
      exit := MoveStores(commit);
      if exit.Done? {
        exit := ClearCommit(commit);
      }
    }

    /** Writes the pending commit, which is the moment the turn enters the history, and applies it. */
    method CommitAttemptSession(attemptRun: RunId, attemptName: string, record: RunRecord, nextManifest: Manifest)
      returns (exit: Exit)
      requires alive
      requires Quiescent(disk, history) && attemptRun == record.runId
      requires ExtendsHistory(history, record, nextManifest)
      modifies this`disk, this`struck, this`alive, this`history
      ensures struck >= old(struck) && (exit.Dead? || exit == Threw(IoError) ==> struck > old(struck))
      ensures (alive <==> !exit.Dead?) && (exit.Done? ==> struck == old(struck))
      ensures CrashState(disk, history)
      ensures disk.attempts == old(disk.attempts)
      ensures history != old(history) ==>
                && Attempt(attemptRun, attemptName) in old(disk).files
                && history == old(history) + [Turn(record, nextManifest, old(disk).files[Attempt(attemptRun, attemptName)])]
      ensures exit.Done? ==> Quiescent(disk, history) && history != old(history)
      ensures exit.Threw? && exit.error != IoError ==>
                && exit.error == CommitInvalid
                && Attempt(attemptRun, attemptName) !in old(disk).files
                && history == old(history) && disk == old(disk)
      ensures disk.pending.Some? ==> disk.pending.value.attemptRun == attemptRun
    {
      var successor := Hash(disk, Attempt(attemptRun, attemptName));
      if successor.None? {
        return Threw(CommitInvalid);
      }
      var commit := Commit(
        attemptRun, attemptName, Hash(disk, Canonical(nextManifest.sessionFile)), successor.value, record, nextManifest);
      ghost var before, turn := disk, Turn(record, nextManifest, successor.value);
      var fate := WritePending(commit);
      if !fate.Took? { return if fate.Died? then Dead else Threw(IoError); }
      PreparedIsInFlight(before, commit, history, turn);
      history := history + [turn];
      exit := ApplyPendingCommit(commit);
    }

    /** Recovery at the start of every turn. */
    method Recover() returns (exit: Exit)
      requires alive
      requires Valid()
      modifies this`disk, this`struck, this`alive
      ensures struck >= old(struck) && (exit.Dead? || exit == Threw(IoError) ==> struck > old(struck))
      ensures (alive <==> !exit.Dead?) && (exit.Done? ==> struck == old(struck))
      ensures Valid()
      ensures exit.Done? ==> Quiescent(disk, history)
      ensures exit.Threw? ==> exit.error == IoError
      ensures disk.attempts == old(disk.attempts)
    {
      exit := Done;
      if disk.pending.Some? {
        exit := ApplyPendingCommit(disk.pending.value);
      }
    }

    method ReconcileManifestWithLedger(manifest: Manifest) returns (exit: Exit)
      requires alive
      requires disk.manifest == Some(manifest)
      modifies this`disk, this`struck, this`alive
      ensures struck >= old(struck) && (exit.Dead? || exit == Threw(IoError) ==> struck > old(struck))
      ensures (alive <==> !exit.Dead?) && (exit.Done? ==> struck == old(struck))
      ensures exit.Done? ==>
                && ReconcileManifest(manifest, disk.ledger).Success?
                && disk == old(disk).(manifest := Some(ReconcileManifest(manifest, disk.ledger).value))
      ensures !exit.Done? ==> disk == old(disk)
      ensures exit.Threw? && exit.error != IoError ==> ReconcileManifest(manifest, disk.ledger) == Failure(exit.error)
      ensures Quiescent(old(disk), history) ==> exit.Done? && disk == old(disk)
    {
      if Quiescent(disk, history) { ReconcileIsIdentity(disk, history); }
      var reconciled := ReconcileManifest(manifest, disk.ledger);
      if reconciled.Failure? { return Threw(reconciled.error); }
      if |disk.ledger| == manifest.runCount { return Done; }
      var fate := WriteManifest(reconciled.value);
      return if fate.Died? then Dead else if fate.Refused? then Threw(IoError) else Done;
    }

    method PrepareAttemptSession(runId: RunId, manifest: Manifest) returns (fate: Fate)
      requires alive
      requires Quiescent(disk, history) && disk.manifest == Some(manifest)
      modifies this`disk, this`struck, this`alive
      ensures struck >= old(struck) && (fate.Took? <==> struck == old(struck)) && (alive <==> !fate.Died?)
      ensures disk == old(disk).(files := disk.files)
      ensures Quiescent(disk, history)
      ensures fate.Took? ==> Hash(disk, Attempt(runId, manifest.sessionFile)) == Predecessor(history)
    {
      HashIsCanonical(disk, manifest.sessionFile);
      fate := RemoveWorkspace(runId);
      if !fate.Took? { return; }
      ghost var emptied := disk;
      HashIsCanonical(disk, manifest.sessionFile);
      fate := CopyFile(Canonical(manifest.sessionFile), Attempt(runId, manifest.sessionFile));
      CanonicalFilesOnly(emptied.files, disk.files);
    }

    /** The child works in its attempt workspace only; what it leaves there is arbitrary. */
    method RunChild(runId: RunId) returns (fate: Fate)
      requires alive
      modifies this`disk, this`struck, this`alive, this`childSaw, this`childLeft
      ensures childSaw == old(disk).files && childLeft == disk.files
      ensures struck >= old(struck) && (fate.Took? <==> struck == old(struck)) && (alive <==> !fate.Died?)
      ensures disk == old(disk).(files := disk.files)
      ensures WithoutWorkspace(disk.files, runId) == WithoutWorkspace(old(disk).files, runId)
    {
      fate := Strike();
      childSaw := disk.files;
      var written: map<string, Content> := *;
      var workspace := map name | name in written :: Attempt(runId, name) := written[name];
      disk := disk.(files := WithoutWorkspace(disk.files, runId) + workspace);
      childLeft := disk.files;
      assert WithoutWorkspace(disk.files, runId) == WithoutWorkspace(old(disk).files, runId);
    }

    method RunAttempt(request: Request, manifest: Option<Manifest>, runId: RunId) returns (exit: Exit, committed: bool)
      requires alive
      requires Quiescent(disk, history) && manifest == disk.manifest
      requires runId == RunId((if manifest.Some? then manifest.value.runCount else 0) + 1, request.nonce)
      requires manifest.Some? ==> manifest.value.cwd == request.cwd && manifest.value.skill == request.skill
      modifies this
      ensures struck >= old(struck) && (exit.Dead? || exit == Threw(IoError) ==> struck > old(struck))
      ensures (alive <==> !exit.Dead?) && (exit.Done? ==> struck == old(struck))
      ensures Valid()
      ensures history == old(history) ||
              (history != [] && history[..|history| - 1] == old(history) && request.accepted)
      ensures exit.Done? ==> Quiescent(disk, history) && (committed <==> history != old(history))
      ensures exit.Done? ==> (committed <==> request.accepted && (old(history) != [] || request.childFile.Some?))
      // A turn that enters the history is this request's; a refused one leaves exactly its record among the attempts.
      ensures Enters(old(history), history, request, childSaw, childLeft)
      ensures AttemptsGrow(old(disk.attempts), disk.attempts, request, old(history))
      ensures exit.Done? ==> (committed <==> disk.attempts == old(disk.attempts))
      ensures committed ==> exit.Done?
      ensures exit.Threw? ==> exit.error in {IoError, CommitInvalid}
      ensures exit.Threw? && exit.error == CommitInvalid ==>
                history == old(history) && Quiescent(disk, history) && request.accepted
      ensures exit.Threw? && exit.error == CommitInvalid ==>
                if manifest.Some? then Attempt(runId, manifest.value.sessionFile) !in childLeft
                else request.childFile.Some? && Attempt(runId, request.childFile.value) !in childLeft
      ensures disk.pending.Some? ==> disk.pending.value.attemptRun == runId
    {
      hide WellFormed, InFlight, Observe, ViewOf, CanonicalFiles, Records, RecordCarries, TurnCarries, ExtendsHistory, AttemptRecord,
        NextManifest;
      committed := false;
      RestIsCurrent(disk, history);
      if manifest.Some? {
        var prepared := PrepareAttemptSession(runId, manifest.value);
        if !prepared.Took? { exit := if prepared.Died? then Dead else Threw(IoError); return; }
      }
      ghost var prepared := disk;
      var ran := RunChild(runId);
      RestOutside(prepared, disk, history, runId);
      if !ran.Took? { exit := if ran.Died? then Dead else Threw(IoError); return; }
      var attemptName := if manifest.Some? then Some(manifest.value.sessionFile) else request.childFile;
      var success := request.accepted && attemptName.Some?;
      var record := AttemptRecord(request, manifest, runId, success);
      AttemptCarries(disk, history, request, success);
      if success {
        ghost var content := if Attempt(runId, attemptName.value) in disk.files then disk.files[Attempt(runId, attemptName.value)] else "";
        AttemptContinues(disk, history, request, content);
        AttemptsFile(disk, history, request);
        exit := CommitAttemptSession(runId, attemptName.value, record, NextManifest(request, manifest, record));
        committed := exit.Done?;
      } else {
        RestBeside(disk, history, disk.attempts + [record]);
        var fate := AppendAttempts(record);
        exit := if fate.Died? then Dead else if fate.Refused? then Threw(IoError) else Done;
      }
    }

    /** The `finally` of a turn: the workspace stays while a pending commit may still need it. */
    method CleanUp(runId: RunId, thrown: Exit) returns (exit: Exit)
      requires alive
      requires Valid() && !thrown.Dead?
      modifies this`disk, this`struck, this`alive
      ensures struck >= old(struck) && (exit != thrown ==> struck > old(struck)) && (alive <==> !exit.Dead?)
      ensures Valid()
      ensures disk == old(disk).(files := disk.files)
      ensures Quiescent(old(disk), history) ==> Quiescent(disk, history)
      ensures exit == thrown || exit.Dead?
      ensures disk.pending.Some? && disk.pending.value.attemptRun == runId ==> disk == old(disk)
      ensures struck == old(struck) && (disk.pending.Some? ==> disk.pending.value.attemptRun != runId) ==>
                disk.files == WithoutWorkspace(old(disk).files, runId)
    {
      exit := thrown;
      if disk.pending.None? || disk.pending.value.attemptRun != runId {
        var fate := RemoveWorkspace(runId);
        if fate.Died? { exit := Dead; }
      }
    }

    /** One call of `run_subagent_session` under the session lock. */
    method RunSubagentSession(request: Request) returns (exit: Exit, committed: bool)
      requires alive
      requires Valid()
      modifies this
      ensures struck >= old(struck) && (exit.Dead? || exit == Threw(IoError) ==> struck > old(struck))
      ensures alive <==> !exit.Dead?
      ensures Valid()
      ensures history == old(history) ||
              (history != [] && history[..|history| - 1] == old(history) && request.accepted)
      ensures exit.Done? ==> Quiescent(disk, history) && (committed <==> history != old(history))
      ensures exit.Done? ==> (committed <==> request.accepted && (old(history) != [] || request.childFile.Some?))
      // A turn that enters the history is this request's; a refused one leaves exactly its record among the attempts.
      ensures Enters(old(history), history, request, childSaw, childLeft)
      ensures AttemptsGrow(old(disk.attempts), disk.attempts, request, old(history))
      ensures exit.Done? ==> (committed <==> disk.attempts == old(disk.attempts))
      // Where nothing strikes, the attempt's workspace is gone at the end.
      ensures struck == old(struck) && Refusal(old(history), request).None? ==>
                forall path :: path in disk.files && path.Attempt? ==> path.runId != RunId(|old(history)| + 1, request.nonce)
      // It is refused before its child runs exactly for these reasons, and then nothing changes.
      ensures exit.Threw? && exit.error !in {IoError, CommitInvalid} ==> Refusal(old(history), request) == Some(exit.error)
      ensures Refusal(old(history), request).Some? ==>
                && history == old(history) && disk.attempts == old(disk.attempts) && !exit.Done?
                && (struck == old(struck) ==> exit == Threw(Refusal(old(history), request).value))
      ensures committed ==> exit.Done?
      ensures exit.Threw? ==> exit.error != LedgerInvalid
      ensures exit.Threw? && exit.error == CommitInvalid ==>
                history == old(history) && Quiescent(disk, history) && request.accepted
      ensures exit.Threw? && exit.error !in {IoError, CommitInvalid} ==>
                history == old(history) && Quiescent(disk, history)
    {
      hide WellFormed, InFlight, Observe, ViewOf, CanonicalFiles, Records, RecordCarries, TurnCarries, Predecessor, ReconcileManifest;
      committed := false;
      exit := Recover();
      if !exit.Done? { return; }
      if disk.manifest.Some? {
        exit := ReconcileManifestWithLedger(disk.manifest.value);
        if !exit.Done? { return; }
      }
      var manifest := disk.manifest;
      RestIsCurrent(disk, history);
      if manifest.Some? && request.requireNew { exit := Threw(AlreadyExists); return; }
      if manifest.None? && request.requireExisting { exit := Threw(DoesNotExist); return; }
      if manifest.Some? && manifest.value.cwd != request.cwd { exit := Threw(CwdMismatch); return; }
      if manifest.Some? && manifest.value.skill != request.skill { exit := Threw(SkillMismatch); return; }
      var sequence := (if manifest.Some? then manifest.value.runCount else 0) + 1;
      var runId := RunId(sequence, request.nonce);
      exit, committed := RunAttempt(request, manifest, runId);
      if !exit.Dead? {
        exit := CleanUp(runId, exit);
      }
      committed := committed && exit.Done?;
    }

    /**
     One turn from rest, dying or failing anywhere, then any number of later servers that each try
     to recover and may die or fail anywhere, then one that gets through: the session is observed
     exactly as before the turn or exactly as after it.
     */
    method TurnThenRecoveries(request: Request, servers: nat) returns (exit: Exit)
      requires alive
      requires Quiescent(disk, history)
      modifies this
      ensures struck >= old(struck) && (exit.Dead? || exit == Threw(IoError) ==> struck > old(struck))
      ensures alive <==> !exit.Dead?
      ensures Valid()
      ensures exit.Done? ==>
                || Observe(disk) == old(Observe(disk))
                || (history != [] && Observe(disk) == ViewOf(history) && ViewOf(history[..|history| - 1]) == old(Observe(disk))
                    && TurnCarries(history[|history| - 1], request, history[..|history| - 1]))
      ensures exit.Done? ==> disk.pending == None
    {
      hide InFlight, WellFormed, CanonicalFiles, Records, TurnCarries;
      var committed;
      exit, committed := RunSubagentSession(request);
      assert history != old(history) ==> history[..|history| - 1] == old(history);
      for server := 0 to servers
        invariant Valid() && struck >= old(struck)
        invariant history == old(history)
                  || (history != [] && history[..|history| - 1] == old(history)
                      && TurnCarries(history[|history| - 1], request, old(history)))
      {
        Restart();
        exit := Recover();
      }
      Restart();
      exit := Recover();
    }

    /** Any number of turns, each dying or failing anywhere: the history only grows, one turn a request at most. */
    method ServeRequests(requests: seq<Request>) returns (exit: Exit)
      requires alive
      requires Valid()
      modifies this
      ensures struck >= old(struck) && (exit.Dead? || exit == Threw(IoError) ==> struck > old(struck))
      ensures alive <==> !exit.Dead?
      ensures Valid()
      ensures old(history) <= history && |history| <= |old(history)| + |requests|
      ensures Serves(|old(history)|, history, requests)
      ensures exit.Done? ==> Quiescent(disk, history)
    {
      hide TurnCarries, CrashState, Quiescent, RecordCarries, Serves;
      ServesNothing(history, requests);
      for k := 0 to |requests|
        invariant Valid() && struck >= old(struck)
        invariant old(history) <= history && |history| <= |old(history)| + k
        invariant Serves(|old(history)|, history, requests[..k])
      {
        ghost var before := history;
        Restart();
        var ended, committed := RunSubagentSession(requests[k]);
        ServesOne(|old(history)|, before, history, requests, k);
      }
      assert requests[..|requests|] == requests;
      Restart();
      exit := Recover();
    }
  }

  /** At rest the ledger is the list of committed turns, numbered from one, and the manifest counts them. */
  lemma QuiescentLedger(d: Disk, h: seq<Turn>, k: nat)
    requires Quiescent(d, h)
    ensures |d.ledger| == |h| && (d.manifest.Some? <==> h != [])
    ensures h != [] ==> d.manifest.value.runCount == |h| && d.manifest.value.lastOutput == d.ledger[|h| - 1].output
    ensures k < |h| ==> d.ledger[k] == h[k].record && d.ledger[k].sequence == k + 1
    ensures k < |h| ==> FindRecord(d.ledger, h[k].record.runId) == Some(h[k].record)
  {
    if k < |h| { FindFirst(d.ledger, k); }
  }

  /** A record whose id no earlier record has is the one that is found. */
  lemma {:induction false} FindFirst(ledger: seq<RunRecord>, k: nat)
    requires k < |ledger| && forall j :: 0 <= j < k ==> ledger[j].runId != ledger[k].runId
    ensures FindRecord(ledger, ledger[k].runId) == Some(ledger[k])
  {
    if k > 0 { FindFirst(ledger[1..], k - 1); }
  }
}
