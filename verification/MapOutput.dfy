/** The writer of one map attempt: it partitions, buffers, sorts, combines and
    cuts what a mapper emits into stored runs. */
module MapOutput {
  import opened Texts
  import opened Records
  import opened Outcomes
  import opened Cutting
  import opened Combining
  import Seqs

  const DEFAULT_RUN_BYTES := 1048576

  /** A run that was put in the store. */
  datatype StoredRun = StoredRun(partition: nat, records: seq<Record>)

  /** The runs of partition p, in the order they were put. */
  function RunsOf(runs: seq<StoredRun>, p: nat): seq<seq<Record>>
  {
    if runs == [] then []
    else
      var last := runs[|runs| - 1];
      RunsOf(runs[..|runs| - 1], p) + (if last.partition == p then [last.records] else [])
  }

  lemma {:induction false} RunsOfSnoc(runs: seq<StoredRun>, run: StoredRun, p: nat)
    ensures RunsOf(runs + [run], p) == RunsOf(runs, p) + (if run.partition == p then [run.records] else [])
  {
    assert (runs + [run])[..|runs|] == runs;
  }

  /** What one flushed batch is stored as: sorted, combined and sorted again. */
  function Prepared(batch: seq<Record>, c: Option<Combiner>): Outcome<seq<Record>>
  {
    match c
    case None => Ok(Arranged(batch))
    case Some(combiner) =>
      match Combined(Arranged(batch), combiner)
      case Failed => Failed
      case Ok(combined) => Ok(Arranged(combined))
  }

  function StoredOne(batch: seq<Record>, c: Option<Combiner>): seq<Record>
  {
    match Prepared(batch, c)
    case Ok(out) => out
    case Failed => []
  }

  function Storing(c: Option<Combiner>): seq<Record> -> seq<Record>
  {
    batch => StoredOne(batch, c)
  }

  /** batches as they are stored, one after the other. */
  function Stored(batches: seq<seq<Record>>, c: Option<Combiner>): seq<Record>
  {
    Seqs.Each(Storing(c), batches)
  }

  lemma StoredAppend(a: seq<seq<Record>>, b: seq<seq<Record>>, c: Option<Combiner>)
    ensures Stored(a + b, c) == Stored(a, c) + Stored(b, c)
  {
    Seqs.EachAppend(Storing(c), a, b);
  }

  lemma StoredSnoc(batches: seq<seq<Record>>, batch: seq<Record>, c: Option<Combiner>)
    requires Prepared(batch, c).Ok?
    ensures Stored(batches + [batch], c) == Stored(batches, c) + Prepared(batch, c).value
  {
    Seqs.EachLast(Storing(c), batches, batch);
  }

  /** pieces hold what flushing batches stored. */
  ghost predicate StoredFor(pieces: seq<seq<Record>>, batches: seq<seq<Record>>, c: Option<Combiner>)
  {
    Flatten(pieces) == Stored(batches, c) && forall b | b in batches :: Prepared(b, c).Ok?
  }

  lemma StoredMore(pieces: seq<seq<Record>>, more: seq<seq<Record>>, batches: seq<seq<Record>>, batch: seq<Record>,
                   c: Option<Combiner>)
    requires StoredFor(pieces, batches, c) && Prepared(batch, c) == Ok(Flatten(more))
    ensures StoredFor(pieces + more, batches + [batch], c)
  {
    StoredSnoc(batches, batch, c);
    FlattenAppend(pieces, more);
  }

  function Sum(s: seq<int>): int
  {
    if s == [] then 0 else Sum(s[..|s| - 1]) + s[|s| - 1]
  }

  lemma {:induction false} SumUpdate(s: seq<int>, i: nat, v: int)
    requires i < |s|
    ensures Sum(s[i := v]) == Sum(s) - s[i] + v
  {
    var front := s[..|s| - 1];
    if i == |s| - 1 {
      assert s[i := v][..i] == front;
    } else {
      SumUpdate(front, i, v);
      assert s[i := v][..|s| - 1] == front[i := v];
    }
  }

  lemma {:induction false} SumZeros(n: nat)
    ensures Sum(seq(n, _ => 0)) == 0
  {
    if n > 0 {
      SumZeros(n - 1);
      assert seq(n, _ => 0)[..n - 1] == seq(n - 1, _ => 0);
    }
  }

  // ---------------------------------------------------------------- where flushes fall

  /** What each partition has buffered, and the batches flushed for it. */
  datatype Buffers = Buffers(open: seq<seq<Record>>, flushed: seq<seq<seq<Record>>>)

  function Sizes(open: seq<seq<Record>>): (sizes: seq<int>)
    ensures |sizes| == |open| && forall p | 0 <= p < |open| :: sizes[p] == Bytes(open[p])
  {
    seq(|open|, p requires 0 <= p < |open| => Bytes(open[p]))
  }

  /** The first partition with the most bytes; -1 if all are empty. */
  function FirstLargest(sizes: seq<int>): (p: int)
    ensures -1 <= p < |sizes|
  {
    if sizes == [] then -1
    else
      var p, last := FirstLargest(sizes[..|sizes| - 1]), sizes[|sizes| - 1];
      if last > 0 && (p < 0 || last > sizes[p]) then |sizes| - 1 else p
  }

  function Flushing(b: Buffers, p: int): (r: Buffers)
    ensures |r.open| == |b.open| && |r.flushed| == |b.flushed|
  {
    if 0 <= p < |b.open| == |b.flushed| && b.open[p] != [] then
      Buffers(b.open[p := []], b.flushed[p := b.flushed[p] + [b.open[p]]])
    else b
  }

  function Appending(b: Buffers, p: int, r: Record): Buffers
  {
    if 0 <= p < |b.open| then b.(open := b.open[p := b.open[p] + [r]]) else b
  }

  /** A write: once the bound is reached, the largest partition is flushed. */
  function Writing(b: Buffers, p: int, r: Record, max: int): Buffers
  {
    var more := Appending(b, p, r);
    if Sum(Sizes(more.open)) >= max then Flushing(more, FirstLargest(Sizes(more.open))) else more
  }

  /** Flushes the first n partitions, in order. */
  function FlushingFirst(b: Buffers, n: nat): (r: Buffers)
    ensures |r.open| == |b.open| && |r.flushed| == |b.flushed|
  {
    if n == 0 then b else Flushing(FlushingFirst(b, n - 1), n - 1)
  }

  function Opened(partitions: nat): Buffers
  {
    Buffers(seq(partitions, _ => []), seq(partitions, _ => []))
  }

  /** The buffers once a mapper's emits have been written. */
  function WritingAll(emits: seq<(Text, Text)>, fingerprint: Text -> nat, partitions: nat, max: int): (r: Buffers)
    requires 0 < partitions
    ensures |r.open| == |r.flushed| == partitions
  {
    if emits == [] then Opened(partitions)
    else
      var (key, value) := emits[|emits| - 1];
      Writing(WritingAll(emits[..|emits| - 1], fingerprint, partitions, max), fingerprint(key) % partitions,
              Record(key, [], value), max)
  }

  /** The batches that an attempt flushes, partition by partition. */
  function BatchesOf(emits: seq<(Text, Text)>, fingerprint: Text -> nat, partitions: nat,
                     max: int): (batches: seq<seq<seq<Record>>>)
    requires 0 < partitions
    ensures |batches| == partitions
  {
    FlushingFirst(WritingAll(emits, fingerprint, partitions, max), partitions).flushed
  }

  class Writer {
    const partitions: nat
    const maxBytes: int
    const combiner: Option<Combiner>
    /** Fingerprint64. */
    const fingerprint: Text -> nat
    /** Whether the store takes its n-th put. */
    const takes: nat -> bool

    var buffers: seq<seq<Record>>
    var sizes: seq<int>
    var total: int
    var runs: seq<StoredRun>
    var puts: nat
    var failed: bool

    /** The batches flushed so far for each partition, as they were emitted. */
    ghost var batches: seq<seq<seq<Record>>>

    ghost predicate Shaped()
      reads this
    {
      && 0 < partitions && 0 < maxBytes
      && |buffers| == |sizes| == |batches| == partitions
      && (forall p | 0 <= p < partitions :: sizes[p] == Bytes(buffers[p]))
      && total == Sum(sizes)
    }

    /** Every stored run is a sorted, bounded run of some partition. */
    ghost predicate RunsFit()
      reads this
    {
      forall i | 0 <= i < |runs| ::
        && runs[i].partition < partitions && runs[i].records != []
        && Sorted(runs[i].records) && Bounded(runs[i].records, maxBytes)
    }

    /** What is stored for each partition is what was flushed for it. */
    ghost predicate RunsMatch()
      reads this
      requires |batches| == partitions
    {
      forall p | 0 <= p < partitions :: StoredFor(RunsOf(runs, p), batches[p], combiner)
    }

    ghost predicate Valid()
      reads this
    {
      Shaped() && RunsFit() && (!failed ==> total < maxBytes && RunsMatch())
    }

    /** Everything written for partition p, in order. */
    ghost function Emitted(p: nat): seq<Record>
      reads this
      requires p < |batches| == |buffers|
    {
      Flatten(batches[p]) + buffers[p]
    }

    ghost function View(): Buffers
      reads this
    {
      Buffers(buffers, batches)
    }

    /** What a write or a flush can fail for. */
    ghost predicate MayFail() { combiner.Some? || exists n: nat :: !takes(n) }

    /** ShardForKey. */
    function Shard(key: Text): (p: nat)
      requires 0 < partitions
      ensures p < partitions
    {
      fingerprint(key) % partitions
    }

    constructor (partitions: nat, maxBytes: int, combiner: Option<Combiner>, fingerprint: Text -> nat,
                 takes: nat -> bool)
      requires 0 < partitions
      ensures Valid() && !failed && runs == []
      ensures this.partitions == partitions && this.combiner == combiner && this.fingerprint == fingerprint &&
              this.takes == takes
      ensures this.maxBytes == if maxBytes <= 0 then DEFAULT_RUN_BYTES else maxBytes
      ensures View() == Opened(partitions) && forall p | 0 <= p < partitions :: Emitted(p) == []
    {
      this.partitions := partitions;
      this.maxBytes := if maxBytes <= 0 then DEFAULT_RUN_BYTES else maxBytes;
      this.combiner := combiner;
      this.fingerprint := fingerprint;
      this.takes := takes;
      buffers := seq(partitions, _ => []);
      sizes := seq(partitions, _ => 0);
      total, runs, puts, failed := 0, [], 0, false;
      batches := seq(partitions, _ => []);
      SumZeros(partitions);
    }

    method ClearBuffer(p: nat)
      requires Shaped() && p < partitions
      modifies `buffers, `sizes, `total, `batches
      ensures Shaped() && buffers == old(buffers)[p := []] && total == old(total) - old(sizes[p])
      ensures batches == old(batches)[p := old(batches[p]) + [old(buffers[p])]]
      ensures forall q | 0 <= q < partitions :: Emitted(q) == old(Emitted(q))
    {
      SumUpdate(sizes, p, 0);
      FlattenOne(batches[p], buffers[p]);
      batches := batches[p := batches[p] + [buffers[p]]];
      total := total - sizes[p];
      buffers := buffers[p := []];
      sizes := sizes[p := 0];
    }

    /** Puts pieces one by one; a refused put leaves the earlier ones stored. */
    method PutAll(p: nat, pieces: seq<seq<Record>>) returns (ok: bool)
      requires RunsFit() && p < partitions
      requires forall i | 0 <= i < |pieces| :: pieces[i] != [] && Sorted(pieces[i]) && Bounded(pieces[i], maxBytes)
      modifies `runs, `puts
      ensures RunsFit()
      ensures if ok then RunsOf(runs, p) == RunsOf(old(runs), p) + pieces else MayFail()
      ensures forall q: nat | q != p :: RunsOf(runs, q) == RunsOf(old(runs), q)
    {
      for i := 0 to |pieces|
        invariant RunsFit()
        invariant RunsOf(runs, p) == RunsOf(old(runs), p) + pieces[..i]
        invariant forall q: nat | q != p :: RunsOf(runs, q) == RunsOf(old(runs), q)
      {
        var taken := takes(puts);
        puts := puts + 1;
        if !taken {
          return false;
        }
        var run := StoredRun(p, pieces[i]);
        forall q: nat ensures RunsOf(runs + [run], q) == RunsOf(runs, q) + (if q == p then [pieces[i]] else []) {
          RunsOfSnoc(runs, run, q);
        }
        assert pieces[..i] + [pieces[i]] == pieces[..i + 1];
        runs := runs + [run];
      }
      ok := true;
    }

    /** The batch as it is to be stored. */
    method Prepare(batch: seq<Record>) returns (r: Outcome<seq<Record>>)
      ensures r == Prepared(batch, combiner)
    {
      var records := Arranged(batch);
      if combiner.Some? {
        var combined := CombineRun(records, combiner.value);
        if combined.Failed? {
          return Failed;
        }
        records := Arranged(combined.value);
      }
      r := Ok(records);
    }

    /** Cuts and puts what the buffer of p became, then clears it. */
    method PutBatch(p: nat, records: seq<Record>) returns (ok: bool)
      requires Shaped() && RunsFit() && RunsMatch() && p < partitions && Prepared(buffers[p], combiner) == Ok(records)
      modifies `buffers, `sizes, `total, `batches, `runs, `puts
      ensures Shaped() && RunsFit()
      ensures ok ==> RunsMatch() && total == old(total) - old(sizes[p]) && buffers == old(buffers)[p := []]
      ensures ok ==> batches == old(batches)[p := old(batches[p]) + [old(buffers[p])]]
      ensures ok || MayFail()
      ensures forall q | 0 <= q < partitions :: Emitted(q) == old(Emitted(q))
    {
      var pieces := CutRecords(records, maxBytes);
      forall i | 0 <= i < |pieces| ensures Sorted(pieces[i]) {
        RunsSorted(pieces, i);
      }
      ok := PutAll(p, pieces);
      if ok {
        StoredMore(RunsOf(old(runs), p), pieces, batches[p], buffers[p], combiner);
        ClearBuffer(p);
      }
    }

    method Flush(p: nat) returns (ok: bool)
      requires Shaped() && RunsFit() && RunsMatch() && p < partitions
      modifies `buffers, `sizes, `total, `batches, `runs, `puts
      ensures Shaped() && RunsFit()
      ensures ok ==> RunsMatch() && total == old(total) - old(sizes[p]) && View() == Flushing(old(View()), p)
      ensures ok || MayFail()
      ensures forall q | 0 <= q < partitions :: Emitted(q) == old(Emitted(q))
    {
      if buffers[p] == [] {
        return true;
      }
      var records := Prepare(buffers[p]);
      if records.Failed? {
        return false;
      }
      ok := PutBatch(p, records.value);
    }

    /** The first largest buffer, if any buffer is not empty. */
    method Largest() returns (p: int)
      requires Shaped()
      ensures p < 0 ==> forall q | 0 <= q < partitions :: sizes[q] == 0
      ensures p >= 0 ==> p < partitions && 0 < sizes[p] && forall q | 0 <= q < partitions :: sizes[q] <= sizes[p]
      ensures forall q | 0 <= q < p :: sizes[q] < sizes[p]
      ensures p == FirstLargest(sizes)
    {
      p := -1;
      for q := 0 to |sizes|
        invariant -1 <= p < q
        invariant p < 0 ==> forall i | 0 <= i < q :: sizes[i] == 0
        invariant p >= 0 ==> 0 < sizes[p] && forall i | 0 <= i < q :: sizes[i] <= sizes[p]
        invariant forall i | 0 <= i < p :: sizes[i] < sizes[p]
        invariant p == FirstLargest(sizes[..q])
      {
        assert sizes[..q + 1][..q] == sizes[..q];
        if sizes[q] > 0 && (p < 0 || sizes[q] > sizes[p]) {
          p := q;
        }
      }
      assert sizes[..|sizes|] == sizes;
    }

    method FlushLargest() returns (ok: bool)
      requires Shaped() && RunsFit() && RunsMatch()
      modifies `buffers, `sizes, `total, `batches, `runs, `puts
      ensures Shaped() && RunsFit()
      ensures ok ==> RunsMatch() && forall q | 0 <= q < partitions :: total <= old(total - sizes[q])
      ensures ok ==> View() == Flushing(old(View()), FirstLargest(old(sizes)))
      ensures ok || MayFail()
      ensures forall q | 0 <= q < partitions :: Emitted(q) == old(Emitted(q))
    {
      var p := Largest();
      if p < 0 {
        return true;
      }
      ok := Flush(p);
    }

    method Append(p: nat, record: Record)
      requires Shaped() && p < partitions
      modifies `buffers, `sizes, `total
      ensures Shaped() && total - sizes[p] == old(total - sizes[p]) && View() == Appending(old(View()), p, record)
      ensures forall q | 0 <= q < partitions :: Emitted(q) == old(Emitted(q)) + if q == p then [record] else []
    {
      var n := RecordBytes(record);
      BytesSnoc(buffers[p], record);
      SumUpdate(sizes, p, sizes[p] + n);
      Seqs.Assoc(Flatten(batches[p]), buffers[p], [record]);
      buffers := buffers[p := buffers[p] + [record]];
      sizes := sizes[p := sizes[p] + n];
      total := total + n;
    }

    /** Buffers one record. After a write that succeeds the buffered bytes are
        below the bound again, whatever partition had to be flushed for it. */
    method Write(primary: Text, secondary: Text, value: Text) returns (ok: bool)
      requires Valid()
      modifies this
      ensures Valid() && ok == !failed && (old(failed) ==> failed) && (ok || old(failed) || MayFail())
      ensures ok ==> forall q | 0 <= q < partitions ::
                Emitted(q) == old(Emitted(q)) + if q == Shard(primary) then [Record(primary, secondary, value)] else []
      ensures ok ==> View() == Writing(old(View()), Shard(primary), Record(primary, secondary, value), maxBytes)
    {
      if failed {
        return false;
      }
      var p := Shard(primary);
      var record := Record(primary, secondary, value);
      Append(p, record);
      assert sizes == Sizes(buffers);
      if total >= maxBytes {
        ok := FlushLargest();
        failed := !ok;
      }
      ok := !failed;
    }

    /** Flushes what is left. The runs then hold everything that was written. */
    method Finish() returns (r: Outcome<seq<StoredRun>>)
      requires Valid()
      modifies this
      ensures Valid() && (r.Ok? <==> !failed) && (r.Ok? || old(failed) || MayFail())
      ensures r.Ok? ==> r.value == runs && forall q | 0 <= q < partitions :: Flatten(batches[q]) == old(Emitted(q))
      ensures r.Ok? ==> View() == FlushingFirst(old(View()), partitions)
    {
      if failed {
        return Failed;
      }
      var ok := FlushRest();
      failed := !ok;
      if !ok {
        return Failed;
      }
      r := Ok(runs);
    }

    /** Flushes every partition, in order. */
    method FlushRest() returns (ok: bool)
      requires Shaped() && RunsFit() && RunsMatch() && total < maxBytes
      modifies `buffers, `sizes, `total, `batches, `runs, `puts
      ensures Shaped() && RunsFit() && (ok || MayFail())
      ensures ok ==> RunsMatch() && total < maxBytes && View() == FlushingFirst(old(View()), partitions)
      ensures ok ==> forall q | 0 <= q < partitions :: buffers[q] == [] && Flatten(batches[q]) == old(Emitted(q))
    {
      for p := 0 to partitions
        invariant Shaped() && RunsFit() && RunsMatch() && total < maxBytes
        invariant forall q | 0 <= q < p :: buffers[q] == []
        invariant forall q | 0 <= q < partitions :: Emitted(q) == old(Emitted(q))
        invariant View() == FlushingFirst(old(View()), p)
      {
        ok := Flush(p);
        if !ok {
          return;
        }
      }
      ok := true;
    }
  }

  /** The records a mapper's emits become, and those of partition p. */
  function EmittedTo(emits: seq<(Text, Text)>, fingerprint: Text -> nat, partitions: nat, p: nat): seq<Record>
    requires 0 < partitions
  {
    if emits == [] then []
    else
      var (key, value) := emits[|emits| - 1];
      EmittedTo(emits[..|emits| - 1], fingerprint, partitions, p) +
      if fingerprint(key) % partitions == p then [Record(key, [], value)] else []
  }

  /** What a finished attempt leaves in the store for partition p: each batch of
      its records sorted, combined and sorted again. */
  ghost predicate StoredAs(emitted: seq<Record>, c: Option<Combiner>, runs: seq<StoredRun>, p: nat,
                           batches: seq<seq<Record>>)
  {
    Flatten(batches) == emitted && StoredFor(RunsOf(runs, p), batches, c)
  }

  /** One map attempt: every emit is written, and the writer finished. */
  method MapAttempt(emits: seq<(Text, Text)>, partitions: nat, maxBytes: int, combiner: Option<Combiner>,
                    fingerprint: Text -> nat, takes: nat -> bool)
    returns (r: Outcome<seq<StoredRun>>, ghost batches: seq<seq<seq<Record>>>)
    requires 0 < partitions
    ensures r.Failed? ==> combiner.Some? || exists n: nat :: !takes(n)
    ensures r.Ok? ==> |batches| == partitions
    ensures r.Ok? ==> batches == BatchesOf(emits, fingerprint, partitions,
                                           if maxBytes <= 0 then DEFAULT_RUN_BYTES else maxBytes)
    ensures r.Ok? ==> forall p | 0 <= p < partitions ::
              StoredAs(EmittedTo(emits, fingerprint, partitions, p), combiner, r.value, p, batches[p])
    ensures r.Ok? ==> forall i | 0 <= i < |r.value| ::
              && r.value[i].partition < partitions && Sorted(r.value[i].records) && r.value[i].records != []
              && Bounded(r.value[i].records, if maxBytes <= 0 then DEFAULT_RUN_BYTES else maxBytes)
  {
    var out := new Writer(partitions, maxBytes, combiner, fingerprint, takes);
    for i := 0 to |emits|
      invariant out.Valid() && !out.failed && fresh(out)
      invariant forall p | 0 <= p < partitions :: out.Emitted(p) == EmittedTo(emits[..i], fingerprint, partitions, p)
      invariant out.View() == WritingAll(emits[..i], fingerprint, partitions, out.maxBytes)
    {
      assert emits[..i + 1][..i] == emits[..i];
      var (key, value) := emits[i];
      var ok := out.Write(key, [], value);
      if !ok {
        return Failed, [];
      }
    }
    assert emits[..|emits|] == emits;
    r := out.Finish();
    batches := out.batches;
  }

  /** Without a combiner, what is stored is what was emitted. */
  lemma {:induction false} StoredPlain(batches: seq<seq<Record>>)
    ensures multiset(Stored(batches, None)) == multiset(Flatten(batches))
    decreases |batches|
  {
    if batches != [] {
      var front, last := batches[..|batches| - 1], batches[|batches| - 1];
      StoredPlain(front);
      FlattenLast(batches);
    }
  }
}
