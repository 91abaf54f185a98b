/** A done run, end to end: whatever was duplicated, raced or crashed, its output
    is what one sequential MapReduce over the accepted attempts' emits gives. */
module MapReduce {
  import opened RunProtocol
  import opened RunInvariants
  import RunTheorems
  import opened Texts
  import opened Records
  import opened Outcomes
  import Combiners
  import Combining
  import Grouping
  import MapOutput
  import Results
  import Seqs
  import Shuffle
  import Sums

  /** What each stored run holds. */
  type Data = nat -> seq<Record>

  // ---------------------------------------------------------------- one attempt

  /** The records of partition p that runs hold. */
  function Written(runs: seq<Run>, data: Data, p: int): seq<Record>
  {
    if runs == [] then []
    else
      var last := runs[|runs| - 1];
      Written(runs[..|runs| - 1], data, p) + if last.partition == p then data(last.id) else []
  }

  /** runs hold the emitted records, each in its key's partition. */
  ghost predicate Wrote(emitted: seq<Record>, runs: seq<Run>, data: Data, shard: Text -> nat, parts: nat)
  {
    forall p, r: Record | 0 <= p < parts ::
      multiset(Written(runs, data, p))[r] == if shard(r.primary) == p then multiset(emitted)[r] else 0
  }

  /** The records a mapper's emits become. */
  function Emitted(emits: seq<(Text, Text)>): seq<Record>
  {
    seq(|emits|, i requires 0 <= i < |emits| => Record(emits[i].0, [], emits[i].1))
  }

  lemma {:induction false} EmittedCount(emits: seq<(Text, Text)>, fingerprint: Text -> nat, parts: nat, p: nat,
                                        r: Record)
    requires 0 < parts
    ensures multiset(MapOutput.EmittedTo(emits, fingerprint, parts, p))[r] ==
            if fingerprint(r.primary) % parts == p then multiset(Emitted(emits))[r] else 0
    decreases |emits|
  {
    if emits != [] {
      var front, last := emits[..|emits| - 1], emits[|emits| - 1];
      EmittedCount(front, fingerprint, parts, p, r);
      assert Emitted(emits) == Emitted(front) + [Record(last.0, [], last.1)];
    }
  }

  /** runs name what the writer stored. */
  ghost predicate NamesStored(runs: seq<Run>, stored: seq<MapOutput.StoredRun>, data: Data)
  {
    |runs| == |stored| &&
    forall i | 0 <= i < |runs| :: runs[i].partition == stored[i].partition && data(runs[i].id) == stored[i].records
  }

  lemma {:induction false} StoredWritten(runs: seq<Run>, stored: seq<MapOutput.StoredRun>, data: Data, p: nat)
    requires NamesStored(runs, stored, data)
    ensures Written(runs, data, p) == Flatten(MapOutput.RunsOf(stored, p))
    decreases |runs|
  {
    if runs != [] {
      var n := |runs| - 1;
      StoredWritten(runs[..n], stored[..n], data, p);
      var before := MapOutput.RunsOf(stored[..n], p);
      if stored[n].partition == p {
        FlattenOne(before, stored[n].records);
      } else {
        assert before + [] == before;
      }
    }
  }

  /** A finished attempt without a combiner wrote what its mapper emitted. */
  lemma AttemptWrote(emits: seq<(Text, Text)>, fingerprint: Text -> nat, parts: nat, runs: seq<Run>,
                     stored: seq<MapOutput.StoredRun>, batches: seq<seq<seq<Record>>>, data: Data)
    requires 0 < parts && |batches| == parts && NamesStored(runs, stored, data)
    requires forall p | 0 <= p < parts ::
               MapOutput.StoredAs(MapOutput.EmittedTo(emits, fingerprint, parts, p), None, stored, p, batches[p])
    ensures Wrote(Emitted(emits), runs, data, k => fingerprint(k) % parts, parts)
  {
    forall p, r: Record | 0 <= p < parts
      ensures multiset(Written(runs, data, p))[r] ==
              if fingerprint(r.primary) % parts == p then multiset(Emitted(emits))[r] else 0
    {
      StoredWritten(runs, stored, data, p);
      MapOutput.StoredPlain(batches[p]);
      EmittedCount(emits, fingerprint, parts, p, r);
    }
  }

  // ---------------------------------------------------------------- what an attempt consumed

  /** What the run that id names holds. */
  function DataAt(accepted: map<nat, Finish>, data: Data, p: int): PointerID -> seq<Record>
  {
    id => if Names(accepted, id, p) then data(accepted[id.split].runs[id.index].id) else []
  }

  /** What the runs that ids name hold, one after the other. */
  function Gather(held: PointerID -> seq<Record>, ids: seq<PointerID>): seq<Record>
  {
    if ids == [] then [] else Gather(held, ids[..|ids| - 1]) + held(ids[|ids| - 1])
  }

  /** The runs accepted for a split. */
  function RunsAt(accepted: map<nat, Finish>, split: nat): seq<Run>
  {
    if split in accepted then accepted[split].runs else []
  }

  /** The names of partition p among a split's first m runs. */
  function NamesIn(runs: seq<Run>, p: int, split: nat, m: nat): seq<PointerID>
    requires m <= |runs|
  {
    if m == 0 then []
    else if runs[m - 1].partition == p then NamesIn(runs, p, split, m - 1) + [PointerID(split, m - 1)]
    else NamesIn(runs, p, split, m - 1)
  }

  /** The names of partition p in the first n splits. */
  function AllNames(accepted: map<nat, Finish>, p: int, n: nat): seq<PointerID>
  {
    if n == 0 then []
    else
      var runs := RunsAt(accepted, n - 1);
      AllNames(accepted, p, n - 1) + NamesIn(runs, p, n - 1, |runs|)
  }

  predicate NamedIn(runs: seq<Run>, p: int, split: nat, m: nat, id: PointerID)
    requires m <= |runs|
  {
    id.split == split && id.index < m && runs[id.index].partition == p
  }

  lemma {:induction false} NamesInOnce(runs: seq<Run>, p: int, split: nat, m: nat, id: PointerID)
    requires m <= |runs|
    ensures multiset(NamesIn(runs, p, split, m))[id] == if NamedIn(runs, p, split, m, id) then 1 else 0
    decreases m
  {
    if m > 0 {
      NamesInOnce(runs, p, split, m - 1, id);
      Seqs.Counts(NamesIn(runs, p, split, m - 1), [PointerID(split, m - 1)], id);
    }
  }

  lemma {:induction false} AllNamesOnce(accepted: map<nat, Finish>, p: int, n: nat, id: PointerID, all: seq<PointerID>)
    requires all == AllNames(accepted, p, n)
    ensures multiset(all)[id] == if id.split < n && Names(accepted, id, p) then 1 else 0
    decreases n
  {
    if n > 0 {
      var runs, before := RunsAt(accepted, n - 1), AllNames(accepted, p, n - 1);
      AllNamesOnce(accepted, p, n - 1, id, before);
      NamesInOnce(runs, p, n - 1, |runs|, id);
      Seqs.Counts(before, NamesIn(runs, p, n - 1, |runs|), id);
    }
  }

  lemma {:induction false} DistinctOnce(order: seq<PointerID>, id: PointerID)
    requires forall i, j | 0 <= i < j < |order| :: order[i] != order[j]
    ensures multiset(order)[id] == if id in order then 1 else 0
  {
    if order != [] {
      var front, last := order[..|order| - 1], order[|order| - 1];
      DistinctOnce(front, id);
      assert order == front + [last];
    }
  }

  /** A complete read names what all the accepted finishes name. */
  lemma CompleteNames(accepted: map<nat, Finish>, p: int, order: seq<PointerID>, runs: seq<Run>, n: nat)
    requires CompleteRead(accepted, p, order, runs) && forall s | s in accepted :: s < n
    ensures multiset(order) == multiset(AllNames(accepted, p, n))
  {
    forall id ensures multiset(order)[id] == multiset(AllNames(accepted, p, n))[id] {
      DistinctOnce(order, id);
      AllNamesOnce(accepted, p, n, id, AllNames(accepted, p, n));
    }
  }

  lemma {:induction false} GatherAppend(held: PointerID -> seq<Record>, a: seq<PointerID>, b: seq<PointerID>)
    ensures Gather(held, a + b) == Gather(held, a) + Gather(held, b)
    decreases |b|
  {
    if b == [] {
      assert a + b == a;
    } else {
      var front := b[..|b| - 1];
      GatherAppend(held, a, front);
      assert (a + b)[..|a + b| - 1] == a + front;
    }
  }

  lemma {:induction false} GatherOut(held: PointerID -> seq<Record>, x: seq<PointerID>, id: PointerID,
                                     y: seq<PointerID>)
    ensures multiset(Gather(held, x + [id] + y)) == multiset(Gather(held, x + y)) + multiset(held(id))
  {
    GatherAppend(held, x + [id], y);
    GatherAppend(held, x, y);
    assert (x + [id])[..|x|] == x;
  }

  /** The order in which runs are read does not change which records they hold. */
  lemma {:induction false} GatherPermuted(held: PointerID -> seq<Record>, a: seq<PointerID>, b: seq<PointerID>)
    requires multiset(a) == multiset(b)
    ensures multiset(Gather(held, a)) == multiset(Gather(held, b))
    decreases |a|
  {
    if a == [] {
      assert |multiset(b)| == 0;
    } else {
      var front, last := a[..|a| - 1], a[|a| - 1];
      assert a == front + [last];
      var x, y := Seqs.Around(b, last);
      Seqs.LeftAlike(front, b, last, x, y);
      GatherPermuted(held, front, x + y);
      GatherOut(held, x, last, y);
      Seqs.Assoc(x, [last], y);
    }
  }

  // ---------------------------------------------------------------- the whole run

  /** Everything the accepted attempts of the first n splits emitted. */
  function AllEmitted(emitted: nat -> seq<Record>, n: nat): seq<Record>
  {
    if n == 0 then [] else AllEmitted(emitted, n - 1) + emitted(n - 1)
  }

  /** Every accepted attempt wrote what its mapper emitted. */
  ghost predicate AllWrote(accepted: map<nat, Finish>, data: Data, emitted: nat -> seq<Record>, shard: Text -> nat,
                           parts: nat)
  {
    forall split | split in accepted :: Wrote(emitted(split), accepted[split].runs, data, shard, parts)
  }

  /** held gives what the runs of a split hold. */
  ghost predicate HoldsRuns(held: PointerID -> seq<Record>, runs: seq<Run>, data: Data, p: int, split: nat)
  {
    forall m: nat | m < |runs| && runs[m].partition == p :: held(PointerID(split, m)) == data(runs[m].id)
  }

  lemma {:induction false} SplitGathers(held: PointerID -> seq<Record>, runs: seq<Run>, data: Data, p: int, split: nat,
                                        m: nat)
    requires m <= |runs| && HoldsRuns(held, runs, data, p, split)
    ensures Gather(held, NamesIn(runs, p, split, m)) == Written(runs[..m], data, p)
    decreases m
  {
    if m > 0 {
      SplitGathers(held, runs, data, p, split, m - 1);
      assert runs[..m][..m - 1] == runs[..m - 1];
      GatherSnoc(held, NamesIn(runs, p, split, m - 1), PointerID(split, m - 1));
    }
  }

  lemma GatherSnoc(held: PointerID -> seq<Record>, ids: seq<PointerID>, id: PointerID)
    ensures Gather(held, ids + [id]) == Gather(held, ids) + held(id)
  {
    assert (ids + [id])[..|ids|] == ids;
  }

  /** What the first n splits' accepted runs hold of partition p. */
  function AllWritten(accepted: map<nat, Finish>, data: Data, p: int, n: nat): seq<Record>
  {
    if n == 0 then [] else AllWritten(accepted, data, p, n - 1) + Written(RunsAt(accepted, n - 1), data, p)
  }

  lemma {:induction false} NamesGather(accepted: map<nat, Finish>, data: Data, p: int, n: nat, all: seq<PointerID>)
    requires all == AllNames(accepted, p, n)
    ensures Gather(DataAt(accepted, data, p), all) == AllWritten(accepted, data, p, n)
    decreases n
  {
    if n > 0 {
      var held, runs, before := DataAt(accepted, data, p), RunsAt(accepted, n - 1), AllNames(accepted, p, n - 1);
      NamesGather(accepted, data, p, n - 1, before);
      SplitGathers(held, runs, data, p, n - 1, |runs|);
      assert runs[..|runs|] == runs;
      GatherAppend(held, before, NamesIn(runs, p, n - 1, |runs|));
    }
  }

  lemma {:induction false} WrittenCount(accepted: map<nat, Finish>, data: Data, emitted: nat -> seq<Record>,
                                        shard: Text -> nat,
                                        parts: nat, p: nat, n: nat, r: Record, written: seq<Record>, all: seq<Record>)
    requires p < parts && (forall s: nat | s < n :: s in accepted) && AllWrote(accepted, data, emitted, shard, parts)
    requires written == AllWritten(accepted, data, p, n) && all == AllEmitted(emitted, n)
    ensures multiset(written)[r] == if shard(r.primary) == p then multiset(all)[r] else 0
    decreases n
  {
    if n > 0 {
      var before, emittedBefore := AllWritten(accepted, data, p, n - 1), AllEmitted(emitted, n - 1);
      WrittenCount(accepted, data, emitted, shard, parts, p, n - 1, r, before, emittedBefore);
      assert Wrote(emitted(n - 1), accepted[n - 1].runs, data, shard, parts);
      Seqs.Counts(before, Written(RunsAt(accepted, n - 1), data, p), r);
      Seqs.Counts(emittedBefore, emitted(n - 1), r);
    }
  }

  /** What runs hold, one after the other. */
  function Contents(runs: seq<Run>, data: Data): seq<Record>
  {
    if runs == [] then [] else Contents(runs[..|runs| - 1], data) + data(runs[|runs| - 1].id)
  }

  lemma {:induction false} ReadGathers(accepted: map<nat, Finish>, data: Data, p: int, order: seq<PointerID>,
                                       runs: seq<Run>)
    requires |order| == |runs|
    requires forall k | 0 <= k < |order| ::
               Names(accepted, order[k], p) && runs[k] == accepted[order[k].split].runs[order[k].index]
    ensures Contents(runs, data) == Gather(DataAt(accepted, data, p), order)
    decreases |order|
  {
    if order != [] {
      ReadGathers(accepted, data, p, order[..|order| - 1], runs[..|runs| - 1]);
    }
  }

  /** The records behind partition p's committed output; none if it has none. */
  function Behind(committed: map<int, Attempt>, data: Data, p: int): seq<Record>
  {
    if p in committed then Contents(committed[p].runs, data) else []
  }

  lemma NamedHasData(accepted: map<nat, Finish>, p: int, n: nat)
    requires AllNames(accepted, p, n) != []
    ensures HasData(accepted, p)
  {
    var ids := AllNames(accepted, p, n);
    AllNamesOnce(accepted, p, n, ids[0], ids);
    assert ids[0] in multiset(ids);
  }

  /** What a done run is known to be: every split accepted, and every partition
      with data committed from a complete read. */
  ghost predicate Complete(accepted: map<nat, Finish>, n: nat, committed: map<int, Attempt>)
  {
    && (forall split: nat :: split < n <==> split in accepted)
    && (forall p | p in committed :: CompleteRead(accepted, p, committed[p].pointers, committed[p].runs))
    && (forall p | HasData(accepted, p) :: p in committed)
  }

  lemma DoneIsComplete(s: State)
    requires Reachable(s) && s.docs.phase.PhaseDone?
    ensures Complete(s.docs.accepted, s.mapSplits, s.sink.committed)
  {
    RunTheorems.ExactlyOnce(s);
    RunTheorems.ReachableOk(s);
    forall p | p in s.sink.committed
      ensures CompleteRead(s.docs.accepted, p, s.sink.committed[p].pointers, s.sink.committed[p].runs)
    {
      assert GoodAttempt(s.docs, s.sink.committed[p]);
    }
  }

  /** A partition's output stands on all the emitted records of its keys, each as
      often as it was emitted, and on nothing else. */
  lemma BehindOutput(accepted: map<nat, Finish>, n: nat, committed: map<int, Attempt>, data: Data,
                     emitted: nat -> seq<Record>, shard: Text -> nat, parts: nat, p: nat, r: Record)
    requires Complete(accepted, n, committed) && p < parts && AllWrote(accepted, data, emitted, shard, parts)
    ensures multiset(Behind(committed, data, p))[r] ==
            if shard(r.primary) == p then multiset(AllEmitted(emitted, n))[r] else 0
  {
    WrittenCount(accepted, data, emitted, shard, parts, p, n, r, AllWritten(accepted, data, p, n),
                 AllEmitted(emitted, n));
    BehindWritten(accepted, n, committed, data, p);
  }

  /** Behind a partition's output stands all that the accepted attempts wrote for it. */
  lemma BehindWritten(accepted: map<nat, Finish>, n: nat, committed: map<int, Attempt>, data: Data, p: nat)
    requires Complete(accepted, n, committed)
    ensures multiset(Behind(committed, data, p)) == multiset(AllWritten(accepted, data, p, n))
  {
    NamesGather(accepted, data, p, n, AllNames(accepted, p, n));
    if p in committed {
      var a := committed[p];
      ReadGathers(accepted, data, p, a.pointers, a.runs);
      CompleteNames(accepted, p, a.pointers, a.runs, n);
      GatherPermuted(DataAt(accepted, data, p), a.pointers, AllNames(accepted, p, n));
    } else if AllNames(accepted, p, n) != [] {
      NamedHasData(accepted, p, n);
    }
  }

  // ---------------------------------------------------------------- with a combiner

  /** What an attempt wrote for partition p: its emits of that partition's keys, in
      some batches, each stored as the combiner left it. */
  ghost predicate WroteCombined(emitted: seq<Record>, written: seq<Record>, batches: seq<seq<Record>>,
                                c: Option<Combining.Combiner>, shard: Text -> nat, p: nat)
  {
    && Combiners.Fit(batches, c)
    && multiset(written) == multiset(MapOutput.Stored(batches, c))
    && forall r: Record :: multiset(Flatten(batches))[r] == if shard(r.primary) == p then multiset(emitted)[r] else 0
  }

  /** A finished attempt wrote so, with whatever combiner. */
  lemma AttemptWroteCombined(emits: seq<(Text, Text)>, fingerprint: Text -> nat, parts: nat,
                             c: Option<Combining.Combiner>,
                             runs: seq<Run>, stored: seq<MapOutput.StoredRun>, batches: seq<seq<Record>>, data: Data,
                             p: nat)
    requires p < parts && NamesStored(runs, stored, data)
    requires MapOutput.StoredAs(MapOutput.EmittedTo(emits, fingerprint, parts, p), c, stored, p, batches)
    ensures WroteCombined(Emitted(emits), Written(runs, data, p), batches, c, k => fingerprint(k) % parts, p)
  {
    StoredWritten(runs, stored, data, p);
    EmittedPrimary(emits, fingerprint, parts, p);
    BatchesPrimary(batches);
    forall r: Record
      ensures multiset(Flatten(batches))[r] ==
              if fingerprint(r.primary) % parts == p then multiset(Emitted(emits))[r] else 0
    {
      EmittedCount(emits, fingerprint, parts, p, r);
    }
  }

  lemma {:induction false} EmittedPrimary(emits: seq<(Text, Text)>, fingerprint: Text -> nat, parts: nat, p: nat)
    requires 0 < parts
    ensures OnlyPrimary(MapOutput.EmittedTo(emits, fingerprint, parts, p))
    decreases |emits|
  {
    if emits != [] {
      EmittedPrimary(emits[..|emits| - 1], fingerprint, parts, p);
    }
  }

  lemma {:induction false} BatchesPrimary(batches: seq<seq<Record>>)
    requires OnlyPrimary(Flatten(batches))
    ensures Combiners.AllPrimary(batches)
  {
    if batches != [] {
      var all, first, rest := Flatten(batches), batches[0], Flatten(batches[1..]);
      assert forall i | 0 <= i < |first| :: all[i] == first[i];
      assert forall i | 0 <= i < |rest| :: all[|first| + i] == rest[i];
      BatchesPrimary(batches[1..]);
    }
  }

  /** The batches of partition p over the first n splits. */
  function AllFlushed(flushed: (nat, nat) -> seq<seq<Record>>, p: nat, n: nat): seq<seq<Record>>
  {
    if n == 0 then [] else AllFlushed(flushed, p, n - 1) + flushed(n - 1, p)
  }

  ghost predicate AllWroteCombined(accepted: map<nat, Finish>, data: Data, emitted: nat -> seq<Record>,
                                   flushed: (nat, nat) -> seq<seq<Record>>, c: Option<Combining.Combiner>,
                                   shard: Text -> nat, parts: nat)
  {
    forall split, p: nat | split in accepted && p < parts ::
      SplitWrote(accepted, data, emitted, flushed, c, shard, split, p)
  }

  ghost predicate SplitWrote(accepted: map<nat, Finish>, data: Data, emitted: nat -> seq<Record>,
                             flushed: (nat, nat) -> seq<seq<Record>>, c: Option<Combining.Combiner>, shard: Text -> nat,
                             split: nat, p: nat)
  {
    WroteCombined(emitted(split), Written(RunsAt(accepted, split), data, p), flushed(split, p), c, shard, p)
  }

  lemma PartsBoth(b1: seq<seq<Record>>, b2: seq<seq<Record>>, c: Option<Combining.Combiner>)
    requires Combiners.Fit(b1, c) && Combiners.Fit(b2, c)
    ensures Combiners.Fit(b1 + b2, c)
  {
  }

  lemma StoredBoth(w1: seq<Record>, b1: seq<seq<Record>>, w2: seq<Record>, b2: seq<seq<Record>>,
                   c: Option<Combining.Combiner>, s1: seq<Record>, s2: seq<Record>)
    requires s1 == MapOutput.Stored(b1, c) && s2 == MapOutput.Stored(b2, c)
    requires multiset(w1) == multiset(s1) && multiset(w2) == multiset(s2)
    ensures multiset(w1 + w2) == multiset(MapOutput.Stored(b1 + b2, c))
  {
    MapOutput.StoredAppend(b1, b2, c);
    assert multiset(w1 + w2) == multiset(w1) + multiset(w2) && multiset(s1 + s2) == multiset(s1) + multiset(s2);
  }

  /** All the splits together wrote for p what one attempt with all their batches
      would have. */
  lemma TogetherStored(accepted: map<nat, Finish>, data: Data, emitted: nat -> seq<Record>,
                       flushed: (nat, nat) -> seq<seq<Record>>, c: Option<Combining.Combiner>,
                       shard: Text -> nat, parts: nat, p: nat, n: nat)
    requires p < parts && (forall s: nat | s < n :: s in accepted) &&
             AllWroteCombined(accepted, data, emitted, flushed, c, shard, parts)
    ensures var batches := AllFlushed(flushed, p, n);
            && Combiners.Fit(batches, c)
            && multiset(AllWritten(accepted, data, p, n)) == multiset(MapOutput.Stored(batches, c))
  {
    var written, batches, stored := [], [], [];
    for i := 0 to n
      invariant written == AllWritten(accepted, data, p, i) && batches == AllFlushed(flushed, p, i)
      invariant stored == MapOutput.Stored(batches, c) && multiset(written) == multiset(stored)
      invariant Combiners.Fit(batches, c)
    {
      assert SplitWrote(accepted, data, emitted, flushed, c, shard, i, p);
      var mine, more := Written(RunsAt(accepted, i), data, p), flushed(i, p);
      PartsBoth(batches, more, c);
      StoredBoth(written, batches, mine, more, c, stored, MapOutput.Stored(more, c));
      written, batches := written + mine, batches + more;
      stored := MapOutput.Stored(batches, c);
    }
  }

  lemma TogetherCount(accepted: map<nat, Finish>, data: Data, emitted: nat -> seq<Record>,
                      flushed: (nat, nat) -> seq<seq<Record>>, c: Option<Combining.Combiner>,
                      shard: Text -> nat, parts: nat, p: nat, n: nat, r: Record)
    requires p < parts && (forall s: nat | s < n :: s in accepted) &&
             AllWroteCombined(accepted, data, emitted, flushed, c, shard, parts)
    ensures multiset(Flatten(AllFlushed(flushed, p, n)))[r] ==
            if shard(r.primary) == p then multiset(AllEmitted(emitted, n))[r] else 0
  {
    var all, batches, raw := [], [], [];
    for i := 0 to n
      invariant all == AllEmitted(emitted, i) && batches == AllFlushed(flushed, p, i) && raw == Flatten(batches)
      invariant multiset(raw)[r] == if shard(r.primary) == p then multiset(all)[r] else 0
    {
      assert SplitWrote(accepted, data, emitted, flushed, c, shard, i, p);
      FlattenAppend(batches, flushed(i, p));
      Seqs.Counts(raw, Flatten(flushed(i, p)), r);
      Seqs.Counts(all, emitted(i), r);
      all, batches, raw := all + emitted(i), batches + flushed(i, p), raw + Flatten(flushed(i, p));
    }
  }

  function AllRaw(flushed: (nat, nat) -> seq<seq<Record>>, n: nat, parts: nat): (raw: seq<seq<Record>>)
    ensures |raw| == parts && forall p | 0 <= p < parts :: raw[p] == Flatten(AllFlushed(flushed, p, n))
  {
    seq(parts, p requires 0 <= p < parts => Flatten(AllFlushed(flushed, p, n)))
  }

  /** A partition reduces to what its emitted records reduce to without the combiner. */
  lemma CombinedPartition(accepted: map<nat, Finish>, n: nat, committed: map<int, Attempt>, data: Data,
                          emitted: nat -> seq<Record>,
                          flushed: (nat, nat) -> seq<seq<Record>>, c: Option<Combining.Combiner>, shard: Text -> nat,
                          parts: nat, red: Grouping.Reducer, p: nat)
    requires Complete(accepted, n, committed) && p < parts &&
             AllWroteCombined(accepted, data, emitted, flushed, c, shard, parts)
    requires Combiners.Harmless(c, red)
    ensures var raw := Flatten(AllFlushed(flushed, p, n));
            && Grouping.Reduced(Arranged(Behind(committed, data, p)), red) == Grouping.Reduced(Arranged(raw), red)
            && forall r: Record ::
                 multiset(raw)[r] == if shard(r.primary) == p then multiset(AllEmitted(emitted, n))[r] else 0
  {
    var batches := AllFlushed(flushed, p, n);
    var stored := MapOutput.Stored(batches, c);
    TogetherStored(accepted, data, emitted, flushed, c, shard, parts, p, n);
    forall r: Record
      ensures multiset(Flatten(batches))[r] == if shard(r.primary) == p then multiset(AllEmitted(emitted, n))[r] else 0
    {
      TogetherCount(accepted, data, emitted, flushed, c, shard, parts, p, n, r);
    }
    BehindWritten(accepted, n, committed, data, p);
    SortedUnique(Arranged(Behind(committed, data, p)), Arranged(stored));
  }

  /** With a combiner that is harmless to its reducer, or none: in every interleaving,
      wherever each attempt's flushes fell, the merged output of a done run is what
      reducing all the raw emits, at once and in order, gives. */
  lemma CombinedRunIsMapReduce(s: State, data: Data, emitted: nat -> seq<Record>,
                               flushed: (nat, nat) -> seq<seq<Record>>,
                               c: Option<Combining.Combiner>, shard: Text -> nat, red: Grouping.Reducer,
                               outs: seq<seq<Grouping.KV>>, final: seq<Grouping.KV>)
    requires Reachable(s) && s.docs.phase.PhaseDone? && forall k :: shard(k) < s.reduceParts
    requires AllWroteCombined(s.docs.accepted, data, emitted, flushed, c, shard, s.reduceParts) &&
             Combiners.Harmless(c, red)
    requires |outs| == s.reduceParts && Shuffle.MergeOf(outs, final)
    requires forall p | 0 <= p < |outs| ::
             Grouping.Reduced(Arranged(Behind(s.sink.committed, data, p)), red) == Ok(outs[p])
    ensures Grouping.Reduced(Arranged(AllEmitted(emitted, s.mapSplits)), red) == Ok(final)
    ensures Grouping.GroupsBy(k => Combining.ValuesOf(Arranged(AllEmitted(emitted, s.mapSplits)), k), red, final)
  {
    var all, raw := AllEmitted(emitted, s.mapSplits), AllRaw(flushed, s.mapSplits, s.reduceParts);
    DoneIsComplete(s);
    forall p | 0 <= p < s.reduceParts
      ensures Grouping.Reduced(Arranged(raw[p]), red) == Ok(outs[p])
      ensures forall r: Record :: multiset(raw[p])[r] == if shard(r.primary) == p then multiset(all)[r] else 0
    {
      CombinedPartition(s.docs.accepted, s.mapSplits, s.sink.committed, data, emitted, flushed, c, shard, s.reduceParts,
                        red, p);
    }
    Shuffle.ShuffleIsGroupBy(all, raw, shard, red, outs, final);
  }

  lemma UncombinedBatch(emitted: seq<Record>, written: seq<Record>, shard: Text -> nat, p: nat)
    requires forall r: Record :: multiset(written)[r] == if shard(r.primary) == p then multiset(emitted)[r] else 0
    ensures WroteCombined(emitted, written, [written], None, shard, p)
  {
    MapOutput.StoredPlain([written]);
    assert Flatten([written]) == written;
  }

  /** Without a combiner the batches do not matter. */
  lemma WroteUncombined(accepted: map<nat, Finish>, data: Data, emitted: nat -> seq<Record>,
                        flushed: (nat, nat) -> seq<seq<Record>>, shard: Text -> nat, parts: nat)
    requires AllWrote(accepted, data, emitted, shard, parts)
    requires forall split, p: nat :: flushed(split, p) == [Written(RunsAt(accepted, split), data, p)]
    ensures AllWroteCombined(accepted, data, emitted, flushed, None, shard, parts)
  {
    forall split, p: nat | split in accepted && p < parts
      ensures SplitWrote(accepted, data, emitted, flushed, None, shard, split, p)
    {
      UncombinedBatch(emitted(split), Written(RunsAt(accepted, split), data, p), shard, p);
    }
  }

  /** So it is of a run without a combiner. */
  lemma DoneRunIsMapReduce(s: State, data: Data, emitted: nat -> seq<Record>, shard: Text -> nat, red: Grouping.Reducer,
                           outs: seq<seq<Grouping.KV>>, final: seq<Grouping.KV>)
    requires Reachable(s) && s.docs.phase.PhaseDone? && forall k :: shard(k) < s.reduceParts
    requires AllWrote(s.docs.accepted, data, emitted, shard, s.reduceParts)
    requires |outs| == s.reduceParts && Shuffle.MergeOf(outs, final)
    requires forall p | 0 <= p < |outs| ::
             Grouping.Reduced(Arranged(Behind(s.sink.committed, data, p)), red) == Ok(outs[p])
    ensures Grouping.Reduced(Arranged(AllEmitted(emitted, s.mapSplits)), red) == Ok(final)
    ensures Grouping.GroupsBy(k => Combining.ValuesOf(Arranged(AllEmitted(emitted, s.mapSplits)), k), red, final)
  {
    var flushed := (split: nat, p: nat) => [Written(RunsAt(s.docs.accepted, split), data, p)];
    WroteUncombined(s.docs.accepted, data, emitted, flushed, shard, s.reduceParts);
    Combiners.NoneHarmless(red);
    CombinedRunIsMapReduce(s, data, emitted, flushed, None, shard, red, outs, final);
  }

  /** And of every combiner that is transparent, with every reducer it matches: its
      output is that of the run without it. */
  lemma TransparentRunIsMapReduce(s: State, data: Data, emitted: nat -> seq<Record>,
                                  flushed: (nat, nat) -> seq<seq<Record>>,
                                  c: Combiners.Total, shard: Text -> nat, red: Grouping.Reducer,
                                  outs: seq<seq<Grouping.KV>>, final: seq<Grouping.KV>)
    requires Combiners.Transparent(c) && Combiners.Matches(red, c)
    requires Reachable(s) && s.docs.phase.PhaseDone? && forall k :: shard(k) < s.reduceParts
    requires AllWroteCombined(s.docs.accepted, data, emitted, flushed, Some(Combiners.Plain(c)), shard, s.reduceParts)
    requires |outs| == s.reduceParts && Shuffle.MergeOf(outs, final)
    requires forall p | 0 <= p < |outs| ::
             Grouping.Reduced(Arranged(Behind(s.sink.committed, data, p)), red) == Ok(outs[p])
    ensures Grouping.Reduced(Arranged(AllEmitted(emitted, s.mapSplits)), red) == Ok(final)
    ensures Grouping.GroupsBy(k => Combining.ValuesOf(Arranged(AllEmitted(emitted, s.mapSplits)), k), red, final)
  {
    Combiners.TransparentHarmless(c, red);
    CombinedRunIsMapReduce(s, data, emitted, flushed, Some(Combiners.Plain(c)), shard, red, outs, final);
  }

  /** So a done run of sums, with SumCombiner, gives each key the 64-bit sum of all
      the values emitted for it. */
  lemma SumRun(s: State, data: Data, emitted: nat -> seq<Record>, flushed: (nat, nat) -> seq<seq<Record>>,
               shard: Text -> nat, outs: seq<seq<Grouping.KV>>, final: seq<Grouping.KV>)
    requires Reachable(s) && s.docs.phase.PhaseDone? && forall k :: shard(k) < s.reduceParts
    requires AllWroteCombined(s.docs.accepted, data, emitted, flushed, Some(Sums.SumCombined), shard, s.reduceParts)
    requires |outs| == s.reduceParts && Shuffle.MergeOf(outs, final)
    requires forall p | 0 <= p < |outs| ::
             Grouping.Reduced(Arranged(Behind(s.sink.committed, data, p)), Sums.SUMMER) == Ok(outs[p])
    ensures forall i | 0 <= i < |final| ::
              Sums.SumAnswer(Combining.ValuesOf(AllEmitted(emitted, s.mapSplits), final[i].key)) == Ok(final[i].value)
    ensures forall k :: Combining.ValuesOf(AllEmitted(emitted, s.mapSplits), k) != [] <==> Grouping.HasKey(final, k)
  {
    var all := AllEmitted(emitted, s.mapSplits);
    Sums.SumHarmless();
    CombinedRunIsMapReduce(s, data, emitted, flushed, Some(Sums.SumCombined), shard, Sums.SUMMER, outs, final);
    SumOutput(all, k => Combining.ValuesOf(Arranged(all), k), final);
  }

  lemma SumOutput(all: seq<Record>, values: Text -> seq<Text>, final: seq<Grouping.KV>)
    requires Grouping.GroupsBy(values, Sums.SUMMER, final) &&
             forall k :: values(k) == Combining.ValuesOf(Arranged(all), k)
    ensures forall i | 0 <= i < |final| :: Sums.SumAnswer(Combining.ValuesOf(all, final[i].key)) == Ok(final[i].value)
    ensures forall k :: Combining.ValuesOf(all, k) != [] <==> Grouping.HasKey(final, k)
  {
    forall k ensures Combining.ValuesOf(all, k) != [] <==> Grouping.HasKey(final, k) {
      Sums.SameEmpty(all, Arranged(all), k);
    }
    forall i | 0 <= i < |final| ensures Sums.SumAnswer(Combining.ValuesOf(all, final[i].key)) == Ok(final[i].value) {
      Sums.SummerAnswers(final[i].key, Combining.ValuesOf(Arranged(all), final[i].key));
      Sums.KeySumArranged(all, final[i].key);
    }
  }
}
