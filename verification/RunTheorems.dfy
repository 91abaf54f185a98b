/** What the run protocol promises, over every run of it. */
module RunTheorems {
  import opened RunProtocol
  import opened RunInvariants
  import opened RunDocs
  import opened RunKnowledge
  import opened RunOwnership
  import opened RunProgress
  import opened ControlLists

  // ---------------------------------------------------------------- every reachable state

  lemma InitialOk(n: nat, r: nat)
    requires 0 < n && 0 < r
    ensures Inv(Initial(n, r))
  {
    var s := Initial(n, r);
    forall sp | sp in s.docs.splits ensures SplitServed(s.queues, sp) {
      var t := TaskID(0, sp);
      assert Held(s.queues, t) && ServesSplit(TaskAt(s.queues, t), sp);
    }
    assert 0 in s.docs.splits;
  }

  /** What every step keeps. */
  lemma StepKeeps(s: State, step: Step)
    requires Inv(s) && Enabled(s, step)
    ensures Inv(Do(s, step))
  {
    StepKnows(s, step);
    StepOwns(s, step);
    StepProgress(s, step);
  }

  lemma {:induction false} RunKeeps(s: State, steps: seq<Step>, s': State)
    requires Inv(s) && Runs(s, steps, s')
    ensures Inv(s')
    decreases |steps|
  {
    if steps != [] {
      StepKeeps(s, steps[0]);
      RunKeeps(Do(s, steps[0]), steps[1..], s');
    }
  }

  lemma ReachableOk(s: State)
    requires Reachable(s)
    ensures Inv(s)
  {
    var n: nat, r: nat, steps: seq<Step> :| 0 < n && 0 < r && Runs(Initial(n, r), steps, s);
    InitialOk(n, r);
    RunKeeps(Initial(n, r), steps, s);
  }

  // ---------------------------------------------------------------- exactly once

  /** r is one of the runs accepted for partition p. */
  ghost predicate AcceptedRun(accepted: map<nat, Finish>, p: int, r: Run)
  {
    exists id :: Names(accepted, id, p) && accepted[id.split].runs[id.index] == r
  }

  /** An attempt that consumed every accepted run of its partition, none twice. */
  ghost predicate ConsumedAll(accepted: map<nat, Finish>, p: int, runs: seq<Run>)
  {
    && (forall i, j | 0 <= i < j < |runs| :: runs[i].id != runs[j].id)
    && (forall r :: r in runs <==> AcceptedRun(accepted, p, r))
  }

  /** Accepted runs under different names are different runs. */
  lemma NamesApart(d: Docs, st: Store, q: Queues, c: Crew, a: PointerID, b: PointerID, p: int)
    requires OwnersOk(d, st, q, c) && Names(d.accepted, a, p) && Names(d.accepted, b, p) && a != b
    ensures d.accepted[a.split].runs[a.index].id != d.accepted[b.split].runs[b.index].id
  {
    assert RunsOwned(st.owner, d.accepted[a.split].runs, Published(a.split));
    assert RunsOwned(st.owner, d.accepted[b.split].runs, Published(b.split));
  }

  lemma CompleteConsumes(d: Docs, st: Store, q: Queues, c: Crew, p: int, order: seq<PointerID>, runs: seq<Run>)
    requires OwnersOk(d, st, q, c) && CompleteRead(d.accepted, p, order, runs)
    ensures ConsumedAll(d.accepted, p, runs)
  {
    forall i, j | 0 <= i < j < |runs| ensures runs[i].id != runs[j].id {
      NamesApart(d, st, q, c, order[i], order[j], p);
    }
    forall r ensures r in runs <==> AcceptedRun(d.accepted, p, r) {
      if r in runs {
        var k :| 0 <= k < |runs| && runs[k] == r;
        assert Names(d.accepted, order[k], p);
      }
      if AcceptedRun(d.accepted, p, r) {
        var id :| Names(d.accepted, id, p) && d.accepted[id.split].runs[id.index] == r;
        var k :| 0 <= k < |order| && order[k] == id;
        assert runs[k] == r;
      }
    }
  }

  /** In every interleaving: each split is accepted at most once; committed output
      comes from an attempt that consumed exactly the runs of the accepted finishes;
      and a done run has accepted every split and committed every partition with data. */
  lemma ExactlyOnce(s: State)
    requires Reachable(s)
    ensures forall p | p in s.sink.committed :: ConsumedAll(s.docs.accepted, p, s.sink.committed[p].runs)
    ensures forall p | p in s.sink.committed :: forall split: nat | split < s.mapSplits :: split in s.docs.accepted
    ensures s.docs.phase.PhaseDone? ==>
              && (forall split: nat | split < s.mapSplits :: split in s.docs.accepted)
              && (forall p :: p in s.sink.committed <==> HasData(s.docs.accepted, p))
  {
    ReachableOk(s);
    forall p | p in s.sink.committed ensures ConsumedAll(s.docs.accepted, p, s.sink.committed[p].runs) {
      CompleteConsumes(s.docs, s.store, s.queues, s.crew, p, s.sink.committed[p].pointers, s.sink.committed[p].runs);
    }
    if s.docs.phase.PhaseDone? {
      forall p | HasData(s.docs.accepted, p) ensures p in s.sink.committed {
        MarkersHaveData(s.mapSplits, s.reduceParts, s.docs);
      }
    }
  }

  // ---------------------------------------------------------------- barriers and progress

  /** No lost barrier: when a phase's inputs are consumed, a check is queued that
      nobody has spoilt by looking too early, or is quarantined and fails the run;
      where none was quarantined, one is queued. */
  lemma NoLostBarrier(s: State)
    requires Reachable(s)
    ensures s.docs.phase.PhaseMap? && s.docs.splits == {} ==> exists t :: Awaited(s.queues, s.crew, t, MapCheck)
    ensures s.docs.phase.PhaseReduce? && s.docs.pointers == map[] ==>
            exists t :: Awaited(s.queues, s.crew, t, ReduceCheck)
    ensures s.docs.phase.PhaseMap? && s.docs.splits == {} && NoneQuarantined(s.queues, MapCheck) ==>
              exists t :: Waits(s.queues, s.crew, t, MapCheck)
    ensures s.docs.phase.PhaseReduce? && s.docs.pointers == map[] && NoneQuarantined(s.queues, ReduceCheck) ==>
              exists t :: Waits(s.queues, s.crew, t, ReduceCheck)
  {
    ReachableOk(s);
    if exists t :: Awaited(s.queues, s.crew, t, MapCheck) {
      var t :| Awaited(s.queues, s.crew, t, MapCheck);
      assert NoneQuarantined(s.queues, MapCheck) ==> Waits(s.queues, s.crew, t, MapCheck);
    }
    if exists t :: Awaited(s.queues, s.crew, t, ReduceCheck) {
      var t :| Awaited(s.queues, s.crew, t, ReduceCheck);
      assert NoneQuarantined(s.queues, ReduceCheck) ==> Waits(s.queues, s.crew, t, ReduceCheck);
    }
  }

  /** No check of the kind was given up, which is for a state doc that is missing. */
  ghost predicate NoneQuarantined(q: Queues, check: Task)
  {
    forall t | t in q.errs :: q.errs[t] != check
  }

  /** t is a queued check that nobody has spoilt by looking too early. */
  ghost predicate Waits(q: Queues, c: Crew, t: TaskID, check: Task)
  {
    t in q.tasks && q.tasks[t] == check && forall w | w in c.work && c.work[w].id == t :: !Spoilt(c.work[w])
  }

  /** A run that has not ended always has a task left to handle. */
  lemma NeverStuck(s: State)
    requires Reachable(s) && !s.docs.phase.Terminal()
    ensures exists t :: Held(s.queues, t) && !TaskAt(s.queues, t).Collect?
  {
    ReachableOk(s);
    var q := s.queues;
    if s.docs.phase.PhaseMap? {
      if s.docs.splits == {} {
        var t :| Awaited(q, s.crew, t, MapCheck);
        assert Held(q, t);
      } else {
        var splits := s.docs.splits;
        var sp :| sp in splits;
        assert SplitServed(q, sp);
      }
    } else {
      if s.docs.pointers == map[] {
        var t :| Awaited(q, s.crew, t, ReduceCheck);
        assert Held(q, t);
      } else {
        var id :| id in s.docs.pointers;
        assert PartServed(q, s.docs.pointers[id].partition);
      }
    }
  }

  // ---------------------------------------------------------------- collection

  /** While a run has not ended, no collection task, queued or quarantined or in a
      collector's hands, names a run that a pointer doc names, and every such run
      is still in the store. */
  lemma CollectionSafe(s: State, id: PointerID)
    requires Reachable(s) && !s.docs.phase.Terminal() && id in s.docs.pointers
    ensures s.docs.pointers[id].id in s.store.stored
    ensures s.docs.pointers[id].partition !in s.docs.markers
    ensures forall t | Held(s.queues, t) && TaskAt(s.queues, t).Collect? ::
              s.docs.pointers[id].id !in IDs(TaskAt(s.queues, t).runs)
    ensures forall w | w in s.crew.work && s.crew.work[w].task.Collect? ::
              s.docs.pointers[id].id !in IDs(s.crew.work[w].task.runs)
  {
    ReachableOk(s);
    forall t | Held(s.queues, t) && TaskAt(s.queues, t).Collect?
      ensures s.docs.pointers[id].id !in IDs(TaskAt(s.queues, t).runs)
    {
      assert TaskOwns(s.store.owner, s.docs, t, TaskAt(s.queues, t));
      NotGathered(s, id, TaskAt(s.queues, t).runs);
    }
    forall w | w in s.crew.work && s.crew.work[w].task.Collect?
      ensures s.docs.pointers[id].id !in IDs(s.crew.work[w].task.runs)
    {
      assert WorkOwns(s.store.owner, s.docs, w, s.crew.work[w]);
      NotGathered(s, id, s.crew.work[w].task.runs);
    }
  }

  lemma NotGathered(s: State, id: PointerID, runs: seq<Run>)
    requires Inv(s) && !s.docs.phase.Terminal() && id in s.docs.pointers && Gathered(s.store.owner, s.docs, runs)
    ensures s.docs.pointers[id].id !in IDs(runs)
  {
    forall i | 0 <= i < |runs| ensures s.docs.pointers[id].id != runs[i].id {
      NotCollected(s, id, runs[i]);
    }
  }

  // ---------------------------------------------------------------- pointers

  lemma ReadsAlike(accepted: map<nat, Finish>, p: int, ids: set<PointerID>, order: seq<PointerID>, runs: seq<Run>)
    requires CompleteRead(accepted, p, order, runs) && forall id :: id in ids <==> Names(accepted, id, p)
    ensures SamePointers(ids, order)
  {
    assert forall id :: id in ids <==> id in Named(order);
    SamePointersMeans(ids, order);
  }

  /** A finish is never refused for having read the wrong pointers: what it read is
      what its acceptance finds, whenever that finds any. */
  lemma PointersAlwaysSame(s: State, w: nat)
    requires Reachable(s) && w in s.crew.work && s.crew.work[w].task.ReduceDone?
    requires s.crew.work[w].stage.Found? && s.crew.work[w].stage.ids != {}
    ensures SamePointers(s.crew.work[w].stage.ids, s.crew.work[w].task.attempt.pointers)
  {
    ReachableOk(s);
    var k := s.crew.work[w];
    assert WorkOk(s.mapSplits, s.reduceParts, s.docs, s.sink, k);
    var a := k.task.attempt;
    ReadsAlike(s.docs.accepted, a.partition, k.stage.ids, a.pointers, a.runs);
  }

  // ---------------------------------------------------------------- what a run never undoes

  lemma LaterTransitive(a: Docs, b: Docs, c: Docs)
    requires Later(a, b) && Later(b, c)
    ensures Later(a, c)
  {
  }

  lemma DocsLeft(s: State, step: Step)
    requires Enabled(s, step)
    requires !(step.AcceptMap? || step.Look? || step.Barrier? || step.AcceptReduce? || step.ErrorWorker? ||
               step.FailNow?)
    ensures Do(s, step).docs == s.docs
  {
  }

  lemma AcceptsLater(s: State, w: nat, act: ReduceDoneAct)
    requires ReduceDoneEnabled(s, w, act)
    ensures Later(s.docs, ReduceDoneDo(s, w, act).docs)
  {
  }

  lemma LooksLater(s: State, w: nat, act: LookAct)
    requires LookEnabled(s, w, act)
    ensures Later(s.docs, LookDo(s, w, act).docs)
  {
  }

  lemma ErrorsLater(s: State, w: nat, act: ErrorAct)
    requires ErrorEnabled(s, w, act) && HeldOk(s.docs, s.crew.work[w].task, s.crew.work[w].stage)
    ensures Later(s.docs, ErrorDo(s, w, act).docs)
  {
  }

  lemma MapsLater(s: State, w: nat, act: MapDoneAct)
    requires DocsOk(s.mapSplits, s.reduceParts, s.docs) && MapDoneEnabled(s, w, act)
    ensures Later(s.docs, MapDoneDo(s, w, act).docs)
  {
    if act.AcceptFinish? {
      AcceptKeeps(s.mapSplits, s.reduceParts, s.docs, s.crew.work[w].task.finish);
    }
  }

  lemma StepLater(s: State, step: Step)
    requires Knowledge(s) && Enabled(s, step)
    ensures Later(s.docs, Do(s, step).docs)
  {
    match step
    case AcceptMap(w, act) => MapsLater(s, w, act);
    case Look(w, act) => LooksLater(s, w, act);
    case Barrier(w, act) => BarrierLater(s, w, act);
    case AcceptReduce(w, act) => AcceptsLater(s, w, act);
    case ErrorWorker(w, act) =>
      assert WorkOk(s.mapSplits, s.reduceParts, s.docs, s.sink, s.crew.work[w]);
      ErrorsLater(s, w, act);
    case FailNow =>
    case _ => DocsLeft(s, step);
  }

  /** Committed output is never replaced. */
  ghost predicate OutputKept(sink: Sink, sink': Sink)
  {
    forall p | p in sink.committed :: p in sink'.committed && sink'.committed[p] == sink.committed[p]
  }

  lemma OutputLeft(s: State, step: Step)
    requires Enabled(s, step) && !step.AcceptReduce?
    ensures Do(s, step).sink.committed == s.sink.committed
  {
  }

  lemma AttemptOutput(s: State, w: nat, act: ReduceDoneAct)
    requires ReduceDoneEnabled(s, w, act)
    ensures var sink' := ReduceDoneDo(s, w, act).sink;
            && OutputKept(s.sink, sink')
            && (s.crew.work[w].task.attempt.partition in s.sink.committed ==> sink'.committed == s.sink.committed)
            && (!act.CommitSink? ==> sink' == s.sink)
  {
  }

  lemma StepOutput(s: State, step: Step)
    requires Inv(s) && Enabled(s, step)
    ensures OutputKept(s.sink, Do(s, step).sink)
    ensures s.docs.phase.PhaseDone? ==> Do(s, step).sink.committed == s.sink.committed
  {
    if step.AcceptReduce? {
      AttemptOutput(s, step.w, step.reduceDone);
      if s.docs.phase.PhaseDone? {
        assert WorkOk(s.mapSplits, s.reduceParts, s.docs, s.sink, s.crew.work[step.w]);
        MarkersOfDone(s, s.crew.work[step.w].task.attempt.partition);
      }
    } else {
      OutputLeft(s, step);
    }
  }

  lemma MarkersOfDone(s: State, p: int)
    requires Inv(s) && s.docs.phase.PhaseDone? && p in s.docs.fanned
    ensures p in s.sink.committed
  {
    MarkersHaveData(s.mapSplits, s.reduceParts, s.docs);
  }

  /** Along every run: phases only move map to reduce to done, map to done, or to
      failed, and an end is final; what is accepted or marked stays so; committed
      output is never replaced; and once done, no partition's output changes. */
  lemma {:induction false} NothingUndone(s: State, steps: seq<Step>, s': State)
    requires Inv(s) && Runs(s, steps, s')
    ensures PhaseLater(s.docs.phase, s'.docs.phase)
    ensures Later(s.docs, s'.docs)
    ensures OutputKept(s.sink, s'.sink)
    ensures s.docs.phase.PhaseDone? ==> s'.sink.committed == s.sink.committed
    decreases |steps|
  {
    if steps != [] {
      var s1 := Do(s, steps[0]);
      StepLater(s, steps[0]);
      StepOutput(s, steps[0]);
      StepKeeps(s, steps[0]);
      NothingUndone(s1, steps[1..], s');
      LaterTransitive(s.docs, s1.docs, s'.docs);
    }
  }

  // ---------------------------------------------------------------- Finish

  /** Every fenced call of Finish is told the same thing: the partitions with no
      data. A done run has made one, and its markers and that list split the
      partitions between them. */
  lemma FencedFinishes(s: State)
    requires Reachable(s)
    ensures forall c | c in s.sink.finishes && c.fenced :: c.empty == EmptyParts(s.docs.accepted, s.reduceParts)
    ensures s.docs.phase.PhaseDone? ==>
              && FinishCall(EmptyParts(s.docs.accepted, s.reduceParts), true) in s.sink.finishes
              && s.docs.markers !! EmptyParts(s.docs.accepted, s.reduceParts)
              && s.docs.markers + EmptyParts(s.docs.accepted, s.reduceParts) == AllPartitions(s.reduceParts)
  {
    ReachableOk(s);
    if s.docs.phase.PhaseDone? {
      var empty := EmptyParts(s.docs.accepted, s.reduceParts);
      forall p ensures p in s.docs.markers <==> HasData(s.docs.accepted, p) {
        DoneMarkers(s, p);
      }
      forall p | p in s.docs.markers ensures p in AllPartitions(s.reduceParts) {
        DataInRange(s, p);
      }
    }
  }

  lemma DoneMarkers(s: State, p: int)
    requires Inv(s) && s.docs.phase.PhaseDone?
    ensures p in s.docs.markers <==> HasData(s.docs.accepted, p)
  {
    if s.docs.fanned != {} {
      MarkersHaveData(s.mapSplits, s.reduceParts, s.docs);
    }
  }

  lemma DataInRange(s: State, p: int)
    requires Inv(s) && HasData(s.docs.accepted, p)
    ensures 0 <= p < s.reduceParts
  {
    var id :| Names(s.docs.accepted, id, p);
    assert InRange(s.docs.accepted[id.split].runs, s.reduceParts);
  }

  /** Not every call is fenced: Finish runs outside the commit, so a map check whose
      claim has lapsed may list the pointers after the reducers consumed them. A
      call names the partitions without data exactly when it was fenced, or came
      from a reduce check, or the run has no data at all. */
  lemma FinishExactlyWhen(s: State, w: nat)
    requires Reachable(s) && BarrierEnabled(s, w, CallFinish)
    ensures var k := s.crew.work[w];
            AllPartitions(s.reduceParts) - k.stage.parts == EmptyParts(s.docs.accepted, s.reduceParts)
            <==> k.stage.fenced || k.task.ReduceCheck? || forall p :: !HasData(s.docs.accepted, p)
  {
    ReachableOk(s);
    assert WorkOk(s.mapSplits, s.reduceParts, s.docs, s.sink, s.crew.work[w]);
    CallExactlyWhen(s.mapSplits, s.reduceParts, s.docs, s.sink, s.crew.work[w]);
  }

  lemma CallExactlyWhen(n: nat, parts: nat, d: Docs, sink: Sink, k: Work)
    requires SplitsOk(n, parts, d) && IsCheck(k.task) && k.stage.Listed? && (k.task.MapCheck? ==> k.stage.parts == {})
    requires CheckOk(parts, d, sink, k.task, k.stage)
    ensures AllPartitions(parts) - k.stage.parts == EmptyParts(d.accepted, parts)
            <==> k.stage.fenced || k.task.ReduceCheck? || forall p :: !HasData(d.accepted, p)
  {
    var told, empty := AllPartitions(parts) - k.stage.parts, EmptyParts(d.accepted, parts);
    if k.stage.fenced || k.task.ReduceCheck? {
      assert told == empty;
    } else if p :| HasData(d.accepted, p) {
      var id :| Names(d.accepted, id, p);
      assert InRange(d.accepted[id.split].runs, parts);
      assert p in told && p !in empty;
    } else {
      assert told == empty;
    }
  }

  /** And a partition that a call wrongly takes for empty is one whose output is
      committed, and whose marker says so. */
  lemma MissedIsCommitted(s: State, w: nat, p: int)
    requires Reachable(s) && BarrierEnabled(s, w, CallFinish)
    requires HasData(s.docs.accepted, p) && p !in s.crew.work[w].stage.parts
    ensures p in s.docs.markers && p in s.sink.committed
  {
    ReachableOk(s);
    assert WorkOk(s.mapSplits, s.reduceParts, s.docs, s.sink, s.crew.work[w]);
    MissedIsMarked(s.mapSplits, s.reduceParts, s.docs, s.sink, s.crew.work[w], p);
  }

  lemma MissedIsMarked(n: nat, parts: nat, d: Docs, sink: Sink, k: Work, p: int)
    requires DocsOk(n, parts, d) && IsCheck(k.task) && k.stage.Listed? && (k.task.MapCheck? ==> k.stage.parts == {})
    requires CheckOk(parts, d, sink, k.task, k.stage) && HasData(d.accepted, p) && p !in k.stage.parts
    ensures p in d.markers
  {
    var id :| Names(d.accepted, id, p);
  }

  // ---------------------------------------------------------------- a call that is not fenced

  lemma {:induction false} RunsOn(s: State, steps: seq<Step>, m: State, step: Step)
    requires Runs(s, steps, m) && Enabled(m, step)
    ensures Runs(s, steps + [step], Do(m, step))
    decreases |steps|
  {
    if steps == [] {
      assert Runs(Do(s, step), [], Do(s, step));
      assert ([] + [step])[1..] == [];
    } else {
      RunsOn(Do(s, steps[0]), steps[1..], m, step);
      assert (steps + [step])[1..] == steps[1..] + [step];
    }
  }

  lemma ReachableOn(s: State, step: Step)
    requires Reachable(s) && Enabled(s, step)
    ensures Reachable(Do(s, step))
  {
    var n: nat, r: nat, steps: seq<Step> :| 0 < n && 0 < r && Runs(Initial(n, r), steps, s);
    RunsOn(Initial(n, r), steps, s, step);
  }
}
