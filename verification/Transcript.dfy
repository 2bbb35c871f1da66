/**
 The streaming run transcript (src/output.ts) and the batch form of the same text
 (src/transcript.ts).

 What a line of process output projects to is arbitrary.  Texts are the UTF-8 bytes that are left
 once ANSI and control sequences are stripped; which of them count as blank is arbitrary too, but
 for the empty one.  Writes do not fail.
 */
module Transcript {
  import opened Outcomes

  type Byte = b: nat | b < 256
  type Bytes = seq<Byte>

  const MAX_OUTPUT_BYTES: nat := 1024 * 1024

  const SEPARATOR: Bytes := [10, 10]

  datatype Kind = User | Assistant | Warning | Problem | Status

  datatype Line = Line(kind: Kind, text: Bytes)

  /** `projectProcessOutputLine`: a marker has both a public line and a raw fallback, an event no fallback. */
  datatype Projection = Projection(controls: bool, public: Option<Line>, raw: Option<Bytes>)

  datatype Block = Block(text: Bytes, kind: Option<Kind>)

  datatype Mode = Undetermined | Raw | Structured

  // ---------------------------------------------------------------- the batch meaning

  /** The blocks joined by blank lines. */
  function Join(blocks: seq<Block>): Bytes {
    if blocks == [] then []
    else
      var init := blocks[..|blocks| - 1];
      Join(init) + (if init == [] then [] else SEPARATOR) + blocks[|blocks| - 1].text
  }

  function Kept(blank: Bytes -> bool, blocks: seq<Block>): seq<Block> {
    if blocks == [] then []
    else Kept(blank, blocks[..|blocks| - 1]) + if blank(blocks[|blocks| - 1].text) then [] else [blocks[|blocks| - 1]]
  }

  function PublicBlock(line: Line): Block {
    Block(line.text, Some(line.kind))
  }

  /** The block of a line once the transcript is structured. */
  function StructuredBlocks(provenance: bool, p: Projection): seq<Block> {
    if p.public.Some? && !(provenance && p.public.value.kind == User) then [PublicBlock(p.public.value)] else []
  }

  /** The block of a line while no line has controlled the mode. */
  function PlainBlocks(p: Projection): seq<Block> {
    if p.public.Some? then [PublicBlock(p.public.value)]
    else if p.raw.Some? then [Block(p.raw.value, None)]
    else []
  }

  function AllStructured(provenance: bool, lines: seq<Projection>): seq<Block> {
    if lines == [] then []
    else AllStructured(provenance, lines[..|lines| - 1]) + StructuredBlocks(provenance, lines[|lines| - 1])
  }

  function AllPlain(lines: seq<Projection>): seq<Block> {
    if lines == [] then [] else AllPlain(lines[..|lines| - 1]) + PlainBlocks(lines[|lines| - 1])
  }

  predicate Controlled(lines: seq<Projection>) {
    exists k :: 0 <= k < |lines| && lines[k].controls
  }

  /** The lines from the first controlling one on. */
  function FromControl(lines: seq<Projection>): seq<Projection> {
    if lines == [] || lines[0].controls then lines else FromControl(lines[1..])
  }

  function InitialBlocks(initial: seq<Line>): seq<Block> {
    seq(|initial|, k requires 0 <= k < |initial| => PublicBlock(initial[k]))
  }

  /** What the transcript of these lines holds. */
  function Blocks(initial: seq<Line>, provenance: bool, lines: seq<Projection>): seq<Block> {
    InitialBlocks(initial) +
    if Controlled(lines) then AllStructured(provenance, FromControl(lines)) else AllPlain(lines)
  }

  predicate Has(blocks: seq<Block>, kind: Kind) {
    exists k :: 0 <= k < |blocks| && blocks[k].kind == Some(kind)
  }

  lemma KeptAppend(blank: Bytes -> bool, blocks: seq<Block>, next: Block)
    ensures Kept(blank, blocks + [next]) == Kept(blank, blocks) + if blank(next.text) then [] else [next]
  {
    assert (blocks + [next])[..|blocks|] == blocks;
  }

  lemma {:induction false} KeptConcat(blank: Bytes -> bool, a: seq<Block>, b: seq<Block>)
    ensures Kept(blank, a + b) == Kept(blank, a) + Kept(blank, b)
    decreases |b|
  {
    if b == [] {
      assert a + b == a;
    } else {
      var init, last := b[..|b| - 1], b[|b| - 1];
      assert a + b == (a + init) + [last];
      KeptAppend(blank, a + init, last);
      KeptConcat(blank, a, init);
    }
  }

  lemma JoinAppend(blocks: seq<Block>, next: Block)
    ensures Join(blocks + [next]) == Join(blocks) + (if blocks == [] then [] else SEPARATOR) + next.text
  {
    assert (blocks + [next])[..|blocks|] == blocks;
  }

  lemma ControlledNext(lines: seq<Projection>, next: Projection)
    ensures Controlled(lines + [next]) <==> Controlled(lines) || next.controls
  {
    var all := lines + [next];
    if Controlled(lines) { var k :| 0 <= k < |lines| && lines[k].controls; assert all[k].controls; }
    if next.controls { assert all[|lines|].controls; }
    if Controlled(all) && !next.controls { var k :| 0 <= k < |all| && all[k].controls; assert lines[k].controls; }
  }

  lemma ControlledTail(lines: seq<Projection>)
    requires lines != [] && !lines[0].controls
    ensures Controlled(lines) <==> Controlled(lines[1..])
  {
    if Controlled(lines) { var k :| 0 <= k < |lines| && lines[k].controls; assert lines[1..][k - 1].controls; }
    if Controlled(lines[1..]) { var k :| 0 <= k < |lines| - 1 && lines[1..][k].controls; assert lines[k + 1].controls; }
  }

  lemma {:induction false} FromControlAppend(lines: seq<Projection>, next: Projection)
    requires Controlled(lines) || next.controls
    ensures FromControl(lines + [next]) == if Controlled(lines) then FromControl(lines) + [next] else [next]
  {
    if lines == [] {
      assert lines + [next] == [next];
    } else {
      assert (lines + [next])[1..] == lines[1..] + [next] && (lines + [next])[0] == lines[0];
      if lines[0].controls {
        assert Controlled(lines);
      } else {
        ControlledTail(lines);
        FromControlAppend(lines[1..], next);
      }
    }
  }

  lemma StructuredAppend(provenance: bool, lines: seq<Projection>, next: Projection)
    ensures AllStructured(provenance, lines + [next]) == AllStructured(provenance, lines) + StructuredBlocks(provenance, next)
  {
    assert (lines + [next])[..|lines|] == lines;
  }

  lemma PlainAppend(lines: seq<Projection>, next: Projection)
    ensures AllPlain(lines + [next]) == AllPlain(lines) + PlainBlocks(next)
  {
    assert (lines + [next])[..|lines|] == lines;
  }

  /** One more line: a first controlling line drops what came before it, any other line only appends. */
  lemma BlocksNext(initial: seq<Line>, provenance: bool, lines: seq<Projection>, next: Projection)
    ensures Blocks(initial, provenance, lines + [next]) ==
              if next.controls && !Controlled(lines) then InitialBlocks(initial) + StructuredBlocks(provenance, next)
              else if Controlled(lines) then Blocks(initial, provenance, lines) + StructuredBlocks(provenance, next)
              else Blocks(initial, provenance, lines) + PlainBlocks(next)
  {
    hide AllStructured, AllPlain, StructuredBlocks, PlainBlocks, FromControl;
    ControlledNext(lines, next);
    var head := InitialBlocks(initial);
    if Controlled(lines) {
      FromControlAppend(lines, next);
      StructuredAppend(provenance, FromControl(lines), next);
      assert head + (AllStructured(provenance, FromControl(lines)) + StructuredBlocks(provenance, next))
          == head + AllStructured(provenance, FromControl(lines)) + StructuredBlocks(provenance, next);
    } else if next.controls {
      FromControlAppend(lines, next);
      StructuredAppend(provenance, [], next);
      assert [] + [next] == [next];
      NothingStructured(provenance);
    } else {
      PlainAppend(lines, next);
      assert head + (AllPlain(lines) + PlainBlocks(next)) == head + AllPlain(lines) + PlainBlocks(next);
    }
  }

  lemma NothingStructured(provenance: bool)
    ensures AllStructured(provenance, []) == []
  {
  }

  // ---------------------------------------------------------------- the stream

  datatype TranscriptError = OutputLimit | Closed

  class StreamingTranscript {
    const initial: seq<Line>
    const provenance: bool
    const blank: Bytes -> bool
    /** The bytes of the staged file. */
    var file: Bytes
    var mode: Mode
    var blockCount: nat
    var byteCount: nat
    var hasAssistant: bool
    var hasWarning: bool
    var hasProblem: bool
    /** The lines accepted so far, and the blocks of the file. */
    ghost var accepted: seq<Projection>
    ghost var blocks: seq<Block>

    /** The file, the counters and the flags all describe the same kept blocks. */
    ghost predicate Describes()
      reads this
    {
      && file == Join(blocks)
      && byteCount == |file| <= MAX_OUTPUT_BYTES
      && blockCount == |blocks|
      && (hasAssistant <==> Has(blocks, Assistant))
      && (hasWarning <==> Has(blocks, Warning))
      && (hasProblem <==> Has(blocks, Problem))
    }

    ghost predicate Valid()
      reads this
    {
      && Describes()
      && (mode.Structured? <==> Controlled(accepted))
      && blocks == Kept(blank, Blocks(initial, provenance, accepted))
    }

    constructor (initial: seq<Line>, provenance: bool, blank: Bytes -> bool)
      requires |Join(Kept(blank, InitialBlocks(initial)))| <= MAX_OUTPUT_BYTES
      ensures Valid() && accepted == []
      ensures this.initial == initial && this.provenance == provenance && this.blank == blank
    {
      this.initial, this.provenance, this.blank := initial, provenance, blank;
      file, mode, blockCount, byteCount := [], Undetermined, 0, 0;
      hasAssistant, hasWarning, hasProblem := false, false, false;
      accepted, blocks := [], [];
      new;
      var failed := ResetToInitialLines();
      assert InitialBlocks(initial) + [] == InitialBlocks(initial);
    }

    method AppendBlock(block: Block) returns (failed: bool)
      requires Describes()
      modifies this`file, this`blockCount, this`byteCount, this`hasAssistant, this`hasWarning, this`hasProblem, this`blocks
      ensures Describes()
      ensures failed <==> |Join(old(blocks) + if blank(block.text) then [] else [block])| > MAX_OUTPUT_BYTES
      ensures blocks == if failed || blank(block.text) then old(blocks) else old(blocks) + [block]
    {
      hide Join;
      if blank(block.text) {
        assert blocks + [] == blocks;
        return false;
      }
      JoinAppend(blocks, block);
      var bytes := (if blockCount > 0 then SEPARATOR else []) + block.text;
      if byteCount + |bytes| > MAX_OUTPUT_BYTES { return true; }
      file := file[..byteCount] + bytes;
      byteCount := byteCount + |bytes|;
      blockCount := blockCount + 1;
      hasAssistant := hasAssistant || block.kind == Some(Assistant);
      hasWarning := hasWarning || block.kind == Some(Warning);
      hasProblem := hasProblem || block.kind == Some(Problem);
      HasNext(blocks, block);
      blocks := blocks + [block];
      return false;
    }

    method ResetToInitialLines() returns (failed: bool)
      modifies this`file, this`blockCount, this`byteCount, this`hasAssistant, this`hasWarning, this`hasProblem, this`blocks
      ensures Describes()
      ensures |Join(Kept(blank, InitialBlocks(initial)))| <= MAX_OUTPUT_BYTES ==> !failed
      ensures !failed ==> blocks == Kept(blank, InitialBlocks(initial))
    {
      hide Join, Kept;
      file, blockCount, byteCount := [], 0, 0;
      hasAssistant, hasWarning, hasProblem := false, false, false;
      blocks := [];
      ghost var all := InitialBlocks(initial);
      NothingKept(blank);
      assert all[..0] == [];
      for k := 0 to |initial|
        invariant Describes() && blocks == Kept(blank, all[..k])
      {
        KeptAppend(blank, all[..k], all[k]);
        assert all[..k + 1] == all[..k] + [all[k]];
        failed := AppendBlock(PublicBlock(initial[k]));
        if failed {
          JoinGrows(blank, all, k + 1);
          return;
        }
      }
      assert all[..|initial|] == all;
      return false;
    }

    /** After every accepted line the file holds exactly the blocks of the accepted lines. */
    method AppendProcessLine(projection: Projection) returns (failed: bool)
      requires Valid()
      modifies this
      ensures !failed ==> Valid() && accepted == old(accepted) + [projection]
      ensures failed ==> Describes()
      ensures InitialFits() ==>
                (failed <==> |Join(Kept(blank, Blocks(initial, provenance, old(accepted) + [projection])))| > MAX_OUTPUT_BYTES)
    {
      hide Join, Kept, Blocks, Controlled;
      BlocksNext(initial, provenance, accepted, projection);
      ControlledNext(accepted, projection);
      ghost var before := Blocks(initial, provenance, accepted);
      accepted := accepted + [projection];
      if projection.controls && !mode.Structured? {
        mode := Structured;
        before := InitialBlocks(initial);
        failed := ResetToInitialLines();
        if failed { return; }
      }
      if mode.Structured? {
        KeptConcat(blank, before, StructuredBlocks(provenance, projection));
        assert before + [] == before;
        if projection.public.Some? && !(provenance && projection.public.value.kind == User) {
          KeptOne(blank, PublicBlock(projection.public.value));
          failed := AppendBlock(PublicBlock(projection.public.value));
        } else {
          failed := false;
        }
        return;
      }
      KeptConcat(blank, before, PlainBlocks(projection));
      assert before + [] == before;
      if projection.public.Some? {
        KeptOne(blank, PublicBlock(projection.public.value));
        failed := AppendBlock(PublicBlock(projection.public.value));
        return;
      }
      if projection.raw.Some? {
        mode := Raw;
        KeptOne(blank, Block(projection.raw.value, None));
        failed := AppendBlock(Block(projection.raw.value, None));
        return;
      }
      return false;
    }

    ghost predicate InitialFits()
      reads this
    {
      |Join(Kept(blank, InitialBlocks(initial)))| <= MAX_OUTPUT_BYTES
    }
  }

  lemma NothingKept(blank: Bytes -> bool)
    ensures Kept(blank, []) == [] && Join([]) == []
  {
  }

  lemma KeptOne(blank: Bytes -> bool, block: Block)
    ensures Kept(blank, [block]) == if blank(block.text) then [] else [block]
  {
    assert [block][..0] == [];
  }

  lemma HasNext(blocks: seq<Block>, next: Block)
    ensures forall kind :: Has(blocks + [next], kind) <==> Has(blocks, kind) || next.kind == Some(kind)
  {
    var all := blocks + [next];
    forall kind ensures Has(all, kind) <==> Has(blocks, kind) || next.kind == Some(kind) {
      if Has(blocks, kind) { var k :| 0 <= k < |blocks| && blocks[k].kind == Some(kind); assert all[k].kind == Some(kind); }
      if next.kind == Some(kind) { assert all[|blocks|].kind == Some(kind); }
      if Has(all, kind) && next.kind != Some(kind) {
        var k :| 0 <= k < |all| && all[k].kind == Some(kind);
        assert blocks[k].kind == Some(kind);
      }
    }
  }

  lemma {:induction false} JoinGrows(blank: Bytes -> bool, blocks: seq<Block>, k: nat)
    requires k <= |blocks|
    ensures |Join(Kept(blank, blocks[..k]))| <= |Join(Kept(blank, blocks))|
    decreases |blocks|
  {
    hide Join, Kept;
    if k == |blocks| {
      assert blocks[..k] == blocks;
    } else {
      var init, last := blocks[..|blocks| - 1], blocks[|blocks| - 1];
      JoinGrows(blank, init, k);
      assert init[..k] == blocks[..k] && blocks == init + [last];
      KeptAppend(blank, init, last);
      assert Kept(blank, init) + [] == Kept(blank, init);
      JoinAppend(Kept(blank, init), last);
    }
  }

  // ---------------------------------------------------------------- the repository's own batch function

  predicate IsMarker(p: Projection) {
    p.public.Some? && p.raw.Some?
  }

  /** Every block of a line in the public text of `preparePublicTranscriptFromProcessOutput`. */
  function PublicBlocks(provenance: bool, p: Projection): seq<Block> {
    if IsMarker(p) then [PublicBlock(p.public.value)] else StructuredBlocks(provenance, p)
  }

  /** And in its raw text, where an event leaves nothing. */
  function RawBlocks(p: Projection): seq<Block> {
    if IsMarker(p) then [PublicBlock(p.public.value)]
    else if p.raw.Some? then [Block(p.raw.value, None)]
    else []
  }

  function AllPublic(provenance: bool, lines: seq<Projection>): seq<Block> {
    if lines == [] then []
    else AllPublic(provenance, lines[..|lines| - 1]) + PublicBlocks(provenance, lines[|lines| - 1])
  }

  function AllRaw(lines: seq<Projection>): seq<Block> {
    if lines == [] then [] else AllRaw(lines[..|lines| - 1]) + RawBlocks(lines[|lines| - 1])
  }

  /** The text of `preparePublicTranscriptFromProcessOutput`, before its fallback for an empty one. */
  function BatchText(initial: seq<Line>, provenance: bool, lines: seq<Projection>): Bytes {
    Join(InitialBlocks(initial) + if Controlled(lines) then AllPublic(provenance, lines) else AllRaw(lines))
  }

  /** A marker repeats its text as its raw fallback, and is no user line; only an event controls. */
  predicate WellFormed(p: Projection) {
    && (IsMarker(p) ==> p.raw.value == p.public.value.text && p.public.value.kind != User)
    && (p.controls ==> p.raw.None?)
  }

  predicate NoneBlank(blank: Bytes -> bool, blocks: seq<Block>) {
    forall k :: 0 <= k < |blocks| ==> !blank(blocks[k].text)
  }

  lemma {:induction false} KeptAll(blank: Bytes -> bool, blocks: seq<Block>)
    requires NoneBlank(blank, blocks)
    ensures Kept(blank, blocks) == blocks
  {
    if blocks != [] {
      var init, last := blocks[..|blocks| - 1], blocks[|blocks| - 1];
      KeptAll(blank, init);
      assert blocks == init + [last];
    }
  }

  function Total(blocks: seq<Block>): nat {
    if blocks == [] then 0 else Total(blocks[..|blocks| - 1]) + |blocks[|blocks| - 1].text|
  }

  lemma {:induction false} JoinLength(blocks: seq<Block>)
    ensures |Join(blocks)| == Total(blocks) + if blocks == [] then 0 else 2 * (|blocks| - 1)
  {
    if blocks != [] { JoinLength(blocks[..|blocks| - 1]); }
  }

  lemma {:induction false} TotalConcat(a: seq<Block>, b: seq<Block>)
    ensures Total(a + b) == Total(a) + Total(b)
    decreases |b|
  {
    if b == [] {
      assert a + b == a;
    } else {
      assert (a + b)[..|a + b| - 1] == a + b[..|b| - 1];
      TotalConcat(a, b[..|b| - 1]);
    }
  }

  /** Leaving out blocks that are not all empty shortens the text. */
  lemma FewerBlocksAreShorter(a: seq<Block>, b: seq<Block>)
    requires |a| < |b| && Total(a) < Total(b)
    ensures Join(a) != Join(b)
  {
    JoinLength(a);
    JoinLength(b);
  }

  /** The lines before the first controlling one. */
  function BeforeControl(lines: seq<Projection>): seq<Projection> {
    if lines == [] || lines[0].controls then [] else [lines[0]] + BeforeControl(lines[1..])
  }

  lemma {:induction false} SplitAtControl(lines: seq<Projection>)
    ensures BeforeControl(lines) + FromControl(lines) == lines
  {
    if lines != [] && !lines[0].controls { SplitAtControl(lines[1..]); }
  }

  lemma {:induction false} AllPublicConcat(provenance: bool, a: seq<Projection>, b: seq<Projection>)
    ensures AllPublic(provenance, a + b) == AllPublic(provenance, a) + AllPublic(provenance, b)
    decreases |b|
  {
    if b == [] {
      assert a + b == a;
    } else {
      assert (a + b)[..|a + b| - 1] == a + b[..|b| - 1];
      AllPublicConcat(provenance, a, b[..|b| - 1]);
    }
  }

  lemma {:induction false} PublicIsStructured(provenance: bool, lines: seq<Projection>)
    requires forall k :: 0 <= k < |lines| ==> WellFormed(lines[k])
    ensures AllPublic(provenance, lines) == AllStructured(provenance, lines)
  {
    if lines != [] { PublicIsStructured(provenance, lines[..|lines| - 1]); }
  }

  /** An event with a public line, which the raw text leaves out. */
  predicate IsPublicEvent(p: Projection) {
    p.public.Some? && p.raw.None?
  }

  lemma {:induction false} RawIsPlain(lines: seq<Projection>)
    requires forall k :: 0 <= k < |lines| ==> WellFormed(lines[k]) && (IsPublicEvent(lines[k]) ==> lines[k].public.value.text != [])
    ensures (forall k :: 0 <= k < |lines| ==> !IsPublicEvent(lines[k])) ==> AllRaw(lines) == AllPlain(lines)
    ensures (exists k :: 0 <= k < |lines| && IsPublicEvent(lines[k])) ==>
              |AllRaw(lines)| < |AllPlain(lines)| && Total(AllRaw(lines)) < Total(AllPlain(lines))
    ensures |AllRaw(lines)| <= |AllPlain(lines)| && Total(AllRaw(lines)) <= Total(AllPlain(lines))
  {
    if lines != [] {
      var init, last := lines[..|lines| - 1], lines[|lines| - 1];
      RawIsPlain(init);
      TotalConcat(AllRaw(init), RawBlocks(last));
      TotalConcat(AllPlain(init), PlainBlocks(last));
      TotalOne(last);
    }
  }

  lemma TotalOne(p: Projection)
    requires WellFormed(p)
    ensures !IsPublicEvent(p) ==> RawBlocks(p) == PlainBlocks(p)
    ensures IsPublicEvent(p) ==> |RawBlocks(p)| == 0 && |PlainBlocks(p)| == 1
    ensures IsPublicEvent(p) ==> Total(RawBlocks(p)) == 0 && Total(PlainBlocks(p)) == |p.public.value.text|
  {
    if IsPublicEvent(p) {
      assert PlainBlocks(p)[..0] == [];
    }
  }

  /** The condition under which the stream and the batch function leave the same text. */
  predicate NothingLost(provenance: bool, lines: seq<Projection>) {
    if Controlled(lines) then AllPublic(provenance, BeforeControl(lines)) == []
    else forall k :: 0 <= k < |lines| ==> !IsPublicEvent(lines[k])
  }

  lemma {:induction false} SomeTextSomeTotal(blocks: seq<Block>)
    requires blocks != [] && forall k :: 0 <= k < |blocks| ==> blocks[k].text != []
    ensures Total(blocks) > 0
  {
  }

  /**
   The stream drops what was public before the first controlling line, a marker for instance, and
   the batch function keeps it; and of lines without control the batch function drops public
   events.  For all lines without blank texts the two texts are equal exactly when neither happens.
   */
  lemma StreamIsBatchExactly(initial: seq<Line>, provenance: bool, lines: seq<Projection>, blank: Bytes -> bool)
    requires blank([]) && NoneBlank(blank, Blocks(initial, provenance, lines))
    requires NoneBlank(blank, AllPublic(provenance, lines))
    requires forall k :: 0 <= k < |lines| ==> WellFormed(lines[k]) && (IsPublicEvent(lines[k]) ==> lines[k].public.value.text != [])
    ensures Join(Kept(blank, Blocks(initial, provenance, lines))) == BatchText(initial, provenance, lines)
       <==> NothingLost(provenance, lines)
  {
    hide Join, Kept, Total, AllPublic, AllRaw, AllPlain, AllStructured, FromControl, BeforeControl;
    var head := InitialBlocks(initial);
    KeptAll(blank, Blocks(initial, provenance, lines));
    if Controlled(lines) {
      var before, from := BeforeControl(lines), FromControl(lines);
      var lost, kept := AllPublic(provenance, before), AllPublic(provenance, from);
      SplitAtControl(lines);
      AllPublicConcat(provenance, before, from);
      forall k | 0 <= k < |from| ensures WellFormed(from[k]) { assert lines[|before| + k] == from[k]; }
      PublicIsStructured(provenance, from);
      assert head + (lost + kept) == head + lost + kept;
      if lost == [] {
        assert head + lost + kept == head + kept;
      } else {
        forall k | 0 <= k < |lost| ensures lost[k].text != [] { assert AllPublic(provenance, lines)[k] == lost[k]; }
        SomeTextSomeTotal(lost);
        TotalConcat(head, lost + kept);
        TotalConcat(lost, kept);
        TotalConcat(head, kept);
        FewerBlocksAreShorter(head + kept, head + (lost + kept));
      }
    } else {
      RawIsPlain(lines);
      TotalConcat(head, AllRaw(lines));
      TotalConcat(head, AllPlain(lines));
      if !NothingLost(provenance, lines) { FewerBlocksAreShorter(head + AllRaw(lines), head + AllPlain(lines)); }
    }
  }
}
