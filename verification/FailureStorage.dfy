/**
 The byte budget of the failure ledger (src/failureStorage.ts).

 Archives are listed oldest first.  Texts are bytes, all of them valid UTF-8; which line is a
 complete record is an arbitrary predicate that no empty line meets.  The storage lock is held and no operation fails.
 */
module FailureStorage {
  import opened Outcomes

  type Byte = b: nat | b < 256
  type Bytes = seq<Byte>

  const NEWLINE: Byte := 10

  // ---------------------------------------------------------------- records of a ledger

  /** The parts between newlines. */
  function Split(text: Bytes): (parts: seq<Bytes>)
    ensures parts != []
  {
    if text == [] then [[]]
    else if text[0] == NEWLINE then [[]] + Split(text[1..])
    else
      var rest := Split(text[1..]);
      [[text[0]] + rest[0]] + rest[1..]
  }

  predicate IsLine(line: Bytes) {
    line != [] && NEWLINE !in line
  }

  function Filter(complete: Bytes -> bool, parts: seq<Bytes>): seq<Bytes> {
    if parts == [] then []
    else (if parts[0] != [] && complete(parts[0]) then [parts[0]] else []) + Filter(complete, parts[1..])
  }

  /** The complete records of a text, oldest first. */
  function Records(complete: Bytes -> bool, text: Bytes): seq<Bytes> {
    Filter(complete, Split(text))
  }

  function Render(records: seq<Bytes>): Bytes {
    if records == [] then [] else records[0] + [NEWLINE] + Render(records[1..])
  }

  function Size(records: seq<Bytes>): nat {
    if records == [] then 0 else |records[0]| + 1 + Size(records[1..])
  }

  lemma {:induction false} RenderSize(records: seq<Bytes>)
    ensures |Render(records)| == Size(records)
  {
    if records != [] { RenderSize(records[1..]); }
  }

  lemma {:induction false} SplitAfterLine(line: Bytes, rest: Bytes)
    requires NEWLINE !in line
    ensures Split(line + [NEWLINE] + rest) == [line] + Split(rest)
  {
    if line == [] {
      assert line + [NEWLINE] + rest == [NEWLINE] + rest;
    } else {
      assert (line + [NEWLINE] + rest)[1..] == line[1..] + [NEWLINE] + rest;
      SplitAfterLine(line[1..], rest);
      assert [line[0]] + line[1..] == line;
    }
  }

  /** A rendered list of records is read back record by record. */
  lemma {:induction false} RenderRoundTrip(complete: Bytes -> bool, records: seq<Bytes>)
    requires forall k :: 0 <= k < |records| ==> IsLine(records[k]) && complete(records[k])
    ensures Records(complete, Render(records)) == records
  {
    if records == [] {
      assert Filter(complete, [[]]) == [] + Filter(complete, [[]][1..]);
    } else {
      RenderRoundTrip(complete, records[1..]);
      SplitAfterLine(records[0], Render(records[1..]));
    }
  }

  lemma {:induction false} SplitParts(text: Bytes)
    ensures forall k :: 0 <= k < |Split(text)| ==> NEWLINE !in Split(text)[k]
  {
    if text != [] { SplitParts(text[1..]); }
  }

  lemma {:induction false} FilterParts(complete: Bytes -> bool, parts: seq<Bytes>)
    requires forall k :: 0 <= k < |parts| ==> NEWLINE !in parts[k]
    ensures forall k :: 0 <= k < |Filter(complete, parts)| ==> IsLine(Filter(complete, parts)[k]) && complete(Filter(complete, parts)[k])
  {
    if parts != [] { FilterParts(complete, parts[1..]); }
  }

  lemma RecordsAreLines(complete: Bytes -> bool, text: Bytes)
    ensures forall k :: 0 <= k < |Records(complete, text)| ==>
              IsLine(Records(complete, text)[k]) && complete(Records(complete, text)[k])
  {
    SplitParts(text);
    FilterParts(complete, Split(text));
  }

  lemma {:induction false} SplitAtNewline(before: Bytes, after: Bytes)
    ensures Split(before + [NEWLINE] + after) == Split(before) + Split(after)
  {
    var text := before + [NEWLINE] + after;
    if before == [] {
      assert text == [NEWLINE] + after;
    } else {
      assert text[0] == before[0] && text[1..] == before[1..] + [NEWLINE] + after;
      SplitAtNewline(before[1..], after);
    }
  }

  lemma {:induction false} FilterConcat(complete: Bytes -> bool, a: seq<Bytes>, b: seq<Bytes>)
    ensures Filter(complete, a + b) == Filter(complete, a) + Filter(complete, b)
  {
    if a == [] {
      assert a + b == b;
    } else {
      assert (a + b)[0] == a[0] && (a + b)[1..] == a[1..] + b;
      FilterConcat(complete, a[1..], b);
    }
  }

  /** A newline separates the records before it from those after it, whatever is torn on either side. */
  lemma RecordsSeparate(complete: Bytes -> bool, before: Bytes, after: Bytes)
    ensures Records(complete, before + [NEWLINE] + after) == Records(complete, before) + Records(complete, after)
  {
    SplitAtNewline(before, after);
    FilterConcat(complete, Split(before), Split(after));
  }

  /** What stands between two newlines is one record, or none. */
  lemma RecordsOfPart(complete: Bytes -> bool, part: Bytes)
    requires NEWLINE !in part
    ensures Records(complete, part) == if part != [] && complete(part) then [part] else []
  {
    SplitOfPart(part);
    assert Filter(complete, [part]) == (if part != [] && complete(part) then [part] else []) + Filter(complete, [part][1..]);
  }

  lemma {:induction false} SplitOfPart(part: Bytes)
    requires NEWLINE !in part
    ensures Split(part) == [part]
  {
    if part != [] {
      SplitOfPart(part[1..]);
      assert [part[0]] + part[1..] == part;
    }
  }

  /** Beside a torn line every other record survives, and the torn one is dropped exactly if it is not complete. */
  lemma TornLine(complete: Bytes -> bool, before: Bytes, torn: Bytes, after: Bytes)
    requires NEWLINE !in torn
    ensures Records(complete, before + [NEWLINE] + torn + [NEWLINE] + after) ==
              Records(complete, before) + (if torn != [] && complete(torn) then [torn] else []) + Records(complete, after)
  {
    RecordsSeparate(complete, before + [NEWLINE] + torn, after);
    RecordsSeparate(complete, before, torn);
    RecordsOfPart(complete, torn);
  }

  /** `kept` is the longest suffix of the records that fits. */
  predicate LongestFit(records: seq<Bytes>, kept: seq<Bytes>, maxBytes: nat) {
    && |kept| <= |records| && kept == records[|records| - |kept|..]
    && Size(kept) <= maxBytes
    && (|kept| < |records| ==> Size(records[|records| - |kept| - 1..]) > maxBytes)
  }

  /** There is one longest fitting suffix. */
  lemma LongestFitIsUnique(records: seq<Bytes>, a: seq<Bytes>, b: seq<Bytes>, maxBytes: nat)
    requires LongestFit(records, a, maxBytes) && LongestFit(records, b, maxBytes)
    ensures a == b
  {
    if |a| < |b| { SuffixSize(records, |records| - |b|, |records| - |a| - 1); }
    if |b| < |a| { SuffixSize(records, |records| - |a|, |records| - |b| - 1); }
  }

  lemma {:induction false} SuffixSize(records: seq<Bytes>, i: nat, j: nat)
    requires i <= j <= |records|
    ensures Size(records[j..]) <= Size(records[i..])
    decreases j - i
  {
    if i < j {
      SuffixSize(records, i + 1, j);
      assert records[i..][1..] == records[i + 1..];
    }
  }

  // ---------------------------------------------------------------- the store

  datatype Archive = Archive(name: string, bytes: nat)

  function ArchiveBytes(archives: seq<Archive>): nat {
    if archives == [] then 0 else archives[0].bytes + ArchiveBytes(archives[1..])
  }

  function LogBytes(log: Option<Bytes>): nat {
    if log.Some? then |log.value| else 0
  }

  class FailureStore {
    const complete: Bytes -> bool
    /** Oldest first. */
    var archives: seq<Archive>
    var log: Option<Bytes>

    constructor (complete: Bytes -> bool, archives: seq<Archive>, log: Option<Bytes>)
      ensures this.complete == complete && this.archives == archives && this.log == log
    {
      this.complete, this.archives, this.log := complete, archives, log;
    }

    method RewriteNewestCompleteRecords(maxBytes: nat)
      requires log.Some?
      modifies this`log
      ensures LogBytes(log) <= maxBytes
      ensures LongestFit(Records(complete, old(log).value), if log.Some? then Records(complete, log.value) else [], maxBytes)
      ensures log.Some? ==> log.value == Render(Records(complete, log.value)) && log.value != []
    {
      var lines := Records(complete, log.value);
      var retained: seq<Bytes> := [];
      var retainedBytes := 0;
      var index := |lines|;
      assert lines[|lines|..] == [];
      while index > 0
        invariant 0 <= index <= |lines|
        invariant retained == lines[index..] && retainedBytes == Size(retained) <= maxBytes
      {
        var lineBytes := |lines[index - 1]| + 1;
        assert lines[index - 1..] == [lines[index - 1]] + lines[index..];
        assert Size(lines[index - 1..]) == lineBytes + Size(lines[index..]);
        if retainedBytes + lineBytes > maxBytes { break; }
        retained := [lines[index - 1]] + retained;
        retainedBytes := retainedBytes + lineBytes;
        index := index - 1;
      }
      assert LongestFit(lines, retained, maxBytes);
      if retained == [] {
        log := None;
        return;
      }
      RecordsAreLines(complete, log.value);
      RenderRoundTrip(complete, retained);
      RenderSize(retained);
      log := Some(Render(retained));
    }

    /**
     Deletes the fewest oldest archives that make room, and only then rewrites the ledger, to the
     longest suffix of its complete records that fits.
     */
    method EnforceBudget(budget: nat)
      modifies this
      ensures ArchiveBytes(archives) + LogBytes(log) <= budget
      ensures |archives| <= |old(archives)| && archives == old(archives)[|old(archives)| - |archives|..]
      ensures |archives| < |old(archives)| ==>
                ArchiveBytes(old(archives)[|old(archives)| - |archives| - 1..]) + LogBytes(old(log)) > budget
      // The ledger is rewritten exactly when it alone is over the budget.
      ensures log == old(log) <==> LogBytes(old(log)) <= budget
      ensures log != old(log) ==>
                && archives == [] && old(log).Some? && LogBytes(old(log)) > budget
                && LongestFit(Records(complete, old(log).value), if log.Some? then Records(complete, log.value) else [], budget)
    {
      hide Records, Render, LongestFit;
      var listed := archives;
      var activeBytes := LogBytes(log);
      var archiveBytes := ArchiveBytes(listed);
      var k := 0;
      while k < |listed| && archiveBytes + activeBytes > budget
        invariant 0 <= k <= |listed|
        invariant log == old(log)
        invariant archives == listed[k..] && archiveBytes == ArchiveBytes(archives)
        invariant k > 0 ==> ArchiveBytes(listed[k - 1..]) + activeBytes > budget
      {
        assert archives[1..] == listed[k + 1..];
        archives := archives[1..];
        archiveBytes := archiveBytes - listed[k].bytes;
        k := k + 1;
      }
      if activeBytes > 0 && archiveBytes + activeBytes > budget {
        RewriteNewestCompleteRecords(if budget >= archiveBytes then budget - archiveBytes else 0);
      }
    }
  }

  /** A store within its budget is left as it is, so enforcing twice is enforcing once. */
  method EnforceTwice(store: FailureStore, budget: nat) returns (archives: seq<Archive>, log: Option<Bytes>)
    modifies store
    ensures ArchiveBytes(archives) + LogBytes(log) <= budget
    ensures store.archives == archives && store.log == log
  {
    hide Records, Render, LongestFit;
    store.EnforceBudget(budget);
    archives, log := store.archives, store.log;
    store.EnforceBudget(budget);
    if |store.archives| < |archives| {
      DroppedBytes(archives, |archives| - |store.archives| - 1);
    }
  }

  lemma {:induction false} DroppedBytes(archives: seq<Archive>, k: nat)
    requires k <= |archives|
    ensures ArchiveBytes(archives[k..]) <= ArchiveBytes(archives)
  {
    if k > 0 {
      DroppedBytes(archives[1..], k - 1);
      assert archives[1..][k - 1..] == archives[k..];
    }
  }
}
