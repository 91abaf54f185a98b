/** Cutting a sorted batch into runs of bounded size. */
module Cutting {
  import opened Texts
  import opened Records

  /** intermediateRecordBytes. */
  function RecordBytes(r: Record): nat
  {
    |r.primary| + |r.secondary| + |r.value| + 64
  }

  function Bytes(s: seq<Record>): nat
  {
    if s == [] then 0 else Bytes(s[..|s| - 1]) + RecordBytes(s[|s| - 1])
  }

  lemma {:induction false} BytesSnoc(s: seq<Record>, r: Record)
    ensures Bytes(s + [r]) == Bytes(s) + RecordBytes(r)
  {
    assert (s + [r])[..|s|] == s;
  }

  lemma {:induction false} BytesAppend(a: seq<Record>, b: seq<Record>)
    ensures Bytes(a + b) == Bytes(a) + Bytes(b)
  {
    if b == [] {
      assert a + b == a;
    } else {
      var front, last := b[..|b| - 1], b[|b| - 1];
      BytesAppend(a, front);
      BytesSnoc(a + front, last);
      assert a + b == (a + front) + [last];
    }
  }

  /** A run larger than max holds a single record. */
  predicate Bounded(run: seq<Record>, max: int)
  {
    Bytes(run) <= max || |run| == 1
  }

  /** Run i is cut only because its successor's first record would not fit. */
  predicate FullAt(runs: seq<seq<Record>>, i: nat, max: int)
    requires i + 1 < |runs| && runs[i + 1] != []
  {
    Bytes(runs[i]) + RecordBytes(runs[i + 1][0]) > max
  }

  /** runs cut records: in order, none empty, none too big unless it is one
      record, and each as full as it can be. */
  predicate IsCut(records: seq<Record>, runs: seq<seq<Record>>, max: int)
  {
    && Flatten(runs) == records
    && (forall i | 0 <= i < |runs| :: runs[i] != [] && Bounded(runs[i], max))
    && (forall i | 0 <= i < |runs| - 1 :: FullAt(runs, i, max))
  }

  /** The last run is full: r does not fit in it. */
  predicate LastFull(runs: seq<seq<Record>>, r: Record, max: int)
  {
    runs == [] || Bytes(runs[|runs| - 1]) + RecordBytes(r) > max
  }

  lemma {:induction false} CutGrows(done: seq<Record>, runs: seq<seq<Record>>, run: seq<Record>, max: int)
    requires IsCut(done, runs, max) && run != [] && Bounded(run, max) && LastFull(runs, run[0], max)
    ensures IsCut(done + run, runs + [run], max)
  {
    FlattenOne(runs, run);
    forall k | 0 <= k < |runs + [run]| - 1 ensures FullAt(runs + [run], k, max) {
      if k + 1 < |runs| {
        assert FullAt(runs, k, max);
      }
    }
  }

  lemma {:induction false} SliceGrows(s: seq<Record>, start: nat, i: nat)
    requires start <= i < |s|
    ensures Bytes(s[start..i + 1]) == Bytes(s[start..i]) + RecordBytes(s[i])
  {
    var after := s[start..i + 1];
    assert after[..|after| - 1] == s[start..i];
  }

  /** runs cut what comes before start; the run being built is start to i. */
  predicate CutTo(records: seq<Record>, runs: seq<seq<Record>>, start: nat, i: nat, size: nat, max: int)
  {
    && start <= i <= |records|
    && IsCut(records[..start], runs, max)
    && size == Bytes(records[start..i])
    && (start < i ==> Bounded(records[start..i], max))
    && (start < |records| ==> LastFull(runs, records[start], max))
  }

  /** The next record fits, or is the run's first. */
  lemma CutTakes(records: seq<Record>, runs: seq<seq<Record>>, start: nat, i: nat, size: nat, max: int)
    requires CutTo(records, runs, start, i, size, max) && i < |records|
    requires start < i ==> size + RecordBytes(records[i]) <= max
    ensures CutTo(records, runs, start, i + 1, size + RecordBytes(records[i]), max)
  {
    SliceGrows(records, start, i);
  }

  /** It does not, and starts the next run. */
  lemma CutCloses(records: seq<Record>, runs: seq<seq<Record>>, start: nat, i: nat, size: nat, max: int)
    requires CutTo(records, runs, start, i, size, max) && start < i < |records| && size + RecordBytes(records[i]) > max
    ensures CutTo(records, runs + [records[start..i]], i, i, 0, max)
  {
    var run := records[start..i];
    CutGrows(records[..start], runs, run, max);
    assert records[..start] + run == records[..i];
    assert records[i..i] == [];
  }

  lemma CutEnds(records: seq<Record>, runs: seq<seq<Record>>, start: nat, size: nat, max: int)
    requires CutTo(records, runs, start, |records|, size, max)
    ensures IsCut(records, if start < |records| then runs + [records[start..]] else runs, max)
  {
    if start < |records| {
      assert records[start..] == records[start..|records|];
      CutGrows(records[..start], runs, records[start..], max);
      assert records[..start] + records[start..] == records;
    } else {
      assert records[..start] == records;
    }
  }

  /** cutIntermediateRecords. */
  method CutRecords(records: seq<Record>, max: int) returns (runs: seq<seq<Record>>)
    ensures IsCut(records, runs, max)
  {
    runs := [];
    var start, size: nat := 0, 0;
    for i := 0 to |records|
      invariant CutTo(records, runs, start, i, size, max)
    {
      var recordSize := RecordBytes(records[i]);
      if i > start && size + recordSize > max {
        CutCloses(records, runs, start, i, size, max);
        runs := runs + [records[start..i]];
        start, size := i, 0;
      }
      CutTakes(records, runs, start, i, size, max);
      size := size + recordSize;
    }
    CutEnds(records, runs, start, size, max);
    if start < |records| {
      runs := runs + [records[start..]];
    }
  }

  /** Every two runs side by side exceed the bound together. */
  lemma NeighboursExceed(records: seq<Record>, runs: seq<seq<Record>>, max: int, i: nat)
    requires IsCut(records, runs, max) && i + 1 < |runs|
    ensures Bytes(runs[i]) + Bytes(runs[i + 1]) > max
  {
    var next := runs[i + 1];
    BytesAppend([next[0]], next[1..]);
    BytesSnoc([], next[0]);
    assert next == [next[0]] + next[1..] && [next[0]] == [] + [next[0]];
    assert FullAt(runs, i, max);
  }

  lemma EmptyCut(records: seq<Record>, a: seq<seq<Record>>, max: int)
    requires IsCut(records, a, max)
    ensures a == [] <==> records == []
  {
    if a != [] {
      assert a[0] != [];
    }
  }

  /** There is one way to cut: IsCut leaves the runs no choice. */
  lemma {:induction false} CutUnique(records: seq<Record>, a: seq<seq<Record>>, b: seq<seq<Record>>, max: int)
    requires IsCut(records, a, max) && IsCut(records, b, max)
    ensures a == b
    decreases |a|
  {
    EmptyCut(records, a, max);
    EmptyCut(records, b, max);
    if records != [] {
      FirstNoLonger(records, a, b, max);
      FirstNoLonger(records, b, a, max);
      assert a[0] == records[..|a[0]|] && b[0] == records[..|b[0]|];
      assert Flatten(a[1..]) == records[|a[0]|..] && Flatten(b[1..]) == records[|b[0]|..];
      RestIsCut(records, a, max);
      RestIsCut(records, b, max);
      CutUnique(records[|a[0]|..], a[1..], b[1..], max);
      assert a == [a[0]] + a[1..] && b == [b[0]] + b[1..];
    }
  }

  lemma RestIsCut(records: seq<Record>, a: seq<seq<Record>>, max: int)
    requires IsCut(records, a, max) && a != []
    ensures IsCut(records[|a[0]|..], a[1..], max)
  {
    assert Flatten(a[1..]) == records[|a[0]|..];
    forall i | 0 <= i < |a[1..]| - 1 ensures FullAt(a[1..], i, max) {
      assert FullAt(a, i + 1, max);
    }
  }

  /** A longer prefix than a cut's first run does not fit. */
  lemma LongerExceeds(records: seq<Record>, a: seq<seq<Record>>, max: int, k: nat)
    requires IsCut(records, a, max) && a != [] && |a[0]| < k <= |records|
    ensures Bytes(records[..k]) > max && k > 1
  {
    var n := |a[0]|;
    assert a[0] == records[..n];
    assert Flatten(a[1..]) == records[n..];
    assert Flatten(a[1..])[0] == a[1][0];
    assert FullAt(a, 0, max);
    SliceGrows(records, 0, n);
    assert records[0..n] == records[..n] && records[0..n + 1] == records[..n + 1];
    BytesAppend(records[..n + 1], records[n + 1..k]);
    assert records[..n + 1] + records[n + 1..k] == records[..k];
  }

  /** The first run of one cut does not outgrow the first run of another. */
  lemma FirstNoLonger(records: seq<Record>, a: seq<seq<Record>>, b: seq<seq<Record>>, max: int)
    requires IsCut(records, a, max) && IsCut(records, b, max) && a != [] && b != []
    ensures |b[0]| <= |a[0]|
  {
    assert b[0] == records[..|b[0]|];
    if |a[0]| < |b[0]| {
      LongerExceeds(records, a, max, |b[0]|);
    }
  }

  /** Runs cut from a sorted batch are sorted. */
  lemma {:induction false} RunsSorted(runs: seq<seq<Record>>, i: nat)
    requires Sorted(Flatten(runs)) && i < |runs|
    ensures Sorted(runs[i])
  {
    var all, first, rest := Flatten(runs), runs[0], Flatten(runs[1..]);
    assert first == all[..|first|] && rest == all[|first|..];
    if i > 0 {
      RunsSorted(runs[1..], i - 1);
    }
  }
}
