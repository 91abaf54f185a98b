/**
What holds in every reachable state of the run protocol. Each predicate names
only the parts of the state it speaks of, so a step that leaves those alone
keeps it.
*/
module RunInvariants {
  import opened RunProtocol

  // ---------------------------------------------------------------- docs

  /** id names an accepted run of partition p. */
  predicate Names(accepted: map<nat, Finish>, id: PointerID, p: int)
  {
    id.split in accepted && id.index < |accepted[id.split].runs| && accepted[id.split].runs[id.index].partition == p
  }

  /** Some accepted finish wrote a run for partition p. */
  ghost predicate HasData(accepted: map<nat, Finish>, p: int)
  {
    exists id :: Names(accepted, id, p)
  }

  ghost predicate SplitsOk(n: nat, parts: nat, d: Docs)
  {
    && (forall s | s in d.splits :: s < n)
    && (forall s | s in d.accepted ::
        s < n && s !in d.splits && d.accepted[s].split == s && InRange(d.accepted[s].runs, parts))
    && (forall s: nat | s < n :: s in d.splits || s in d.accepted)
  }

  /** The pointer docs are the accepted runs of the partitions without a marker. */
  ghost predicate PointersOk(d: Docs)
  {
    && (forall id | id in d.pointers ::
          && Names(d.accepted, id, d.pointers[id].partition)
          && d.pointers[id] == d.accepted[id.split].runs[id.index]
          && d.pointers[id].partition !in d.markers)
    && (forall id, p | Names(d.accepted, id, p) && p !in d.markers :: id in d.pointers)
  }

  /** Exactly the partitions with data are fanned out. */
  ghost predicate FannedOk(d: Docs)
  {
    forall p :: p in d.fanned <==> HasData(d.accepted, p)
  }

  ghost predicate PhaseOk(d: Docs)
  {
    && (d.phase.PhaseMap? ==> d.fanned == {})
    && (d.phase.PhaseReduce? ==> d.splits == {} && d.fanned != {})
    && (d.phase.PhaseDone? ==> d.splits == {} && d.pointers == map[] && FannedOk(d))
    && (d.fanned != {} ==> d.splits == {} && FannedOk(d))
    && d.markers <= d.fanned
  }

  ghost predicate DocsOk(n: nat, parts: nat, d: Docs)
  {
    SplitsOk(n, parts, d) && PointersOk(d) && PhaseOk(d)
  }

  /** How docs may change over any number of commits. */
  ghost predicate Later(d: Docs, d': Docs)
  {
    && d'.splits <= d.splits
    && (forall s | s in d.accepted :: s in d'.accepted && d'.accepted[s] == d.accepted[s])
    && (d.splits == {} ==> d'.accepted == d.accepted && d'.pointers.Keys <= d.pointers.Keys)
    && d.markers <= d'.markers
    && (d.fanned != {} ==> d'.fanned == d.fanned)
    && d.version <= d'.version
    && (d.version == d'.version ==> d.phase == d'.phase)
    && PhaseLater(d.phase, d'.phase)
  }

  /** Phases only move map to reduce to done, map to done, or to failed, and a
      terminal phase is never left. */
  predicate PhaseLater(ph: Phase, ph': Phase)
  {
    match ph
    case PhaseMap => true
    case PhaseReduce => !ph'.PhaseMap?
    case PhaseDone => ph'.PhaseDone?
    case PhaseFailed => ph'.PhaseFailed?
  }

  // ---------------------------------------------------------------- attempts and tasks

  /** order and runs are all of partition p's accepted runs, once each. */
  ghost predicate CompleteRead(accepted: map<nat, Finish>, p: int, order: seq<PointerID>, runs: seq<Run>)
  {
    && |order| == |runs|
    && (forall i, j | 0 <= i < j < |order| :: order[i] != order[j])
    && (forall k | 0 <= k < |order| ::
          Names(accepted, order[k], p) && runs[k] == accepted[order[k].split].runs[order[k].index])
    && (forall id | Names(accepted, id, p) :: id in order)
  }

  ghost predicate GoodAttempt(d: Docs, a: Attempt)
  {
    a.partition in d.fanned && CompleteRead(d.accepted, a.partition, a.pointers, a.runs)
  }

  ghost predicate TaskOk(n: nat, d: Docs, task: Task)
  {
    match task
    case MapTask(split) => split < n
    case ReduceTask(p) => p in d.fanned
    case MapDone(f) => f.split < n
    case ReduceDone(a) => GoodAttempt(d, a)
    case MapCheck => true
    case ReduceCheck => d.fanned != {}
    case Collect(_, sweep) => sweep ==> d.phase.Terminal()
  }

  ghost predicate QueuesOk(n: nat, d: Docs, q: Queues)
  {
    && (forall t | t in q.tasks :: t.number < q.next && t !in q.errs && TaskOk(n, d, q.tasks[t]))
    && (forall t | t in q.errs :: t.number < q.next && TaskOk(n, d, q.errs[t]))
  }

  // ---------------------------------------------------------------- workers

  /** The partitions of a run with no data: what Finish is told. */
  ghost function EmptyParts(accepted: map<nat, Finish>, parts: nat): set<int>
  {
    set p | p in AllPartitions(parts) && !HasData(accepted, p)
  }

  ghost predicate FinishedWell(parts: nat, d: Docs, sink: Sink)
  {
    FinishCall(EmptyParts(d.accepted, parts), true) in sink.finishes
  }

  /** What a check knows at each stage. */
  ghost predicate CheckOk(parts: nat, d: Docs, sink: Sink, task: Task, stage: Stage)
  {
    match stage
    case LookedPhase(ph) => PhaseLater(ph, d.phase) && (task.ReduceCheck? ==> !ph.PhaseMap?)
    case NoneLeft(v) =>
      && v <= d.version && d.splits == {}
      && (task.ReduceCheck? ==> d.pointers == map[])
      && (v == d.version ==> d.phase == CheckPhase(task))
    case Listed(v, ps, fenced) =>
      && v <= d.version && d.splits == {}
      && (task.ReduceCheck? || ps == {} ==> d.pointers == map[])
      && (v == d.version ==> d.phase == CheckPhase(task) && fenced)
      && (fenced || task.ReduceCheck? ==> forall p :: p in ps <==> HasData(d.accepted, p))
    case Finishing(v) =>
      && v <= d.version
      && (v == d.version ==>
          d.phase == CheckPhase(task) && d.splits == {} && d.pointers == map[] && FinishedWell(parts, d, sink))
    case SomeLeft(v) => v <= d.version
    case _ => true
  }

  ghost predicate MapDoneOk(d: Docs, f: Finish, stage: Stage)
  {
    match stage
    case Took(found) => found || f.split !in d.splits
    case Informed(found, ph) => (found || f.split !in d.splits) && (ph.Terminal() ==> d.phase == ph)
    case _ => true
  }

  ghost predicate ReadOk(d: Docs, p: int, ids: set<PointerID>)
  {
    if ids == {} then p in d.markers else forall id :: id in ids <==> Names(d.accepted, id, p)
  }

  ghost predicate ReduceDoneOk(d: Docs, sink: Sink, a: Attempt, stage: Stage)
  {
    match stage
    case Took(found) => found ==> a.partition in d.markers
    case Informed(found, ph) => (found ==> a.partition in d.markers) && (ph.Terminal() ==> d.phase == ph)
    case Found(ids) => ReadOk(d, a.partition, ids)
    case SinkCommitted(ids) => ids != {} && ReadOk(d, a.partition, ids) && a.partition in sink.committed
    case _ => true
  }

  ghost predicate ReducerOk(d: Docs, p: int, stage: Stage)
  {
    match stage
    case HasRead(order, runs) => if order == [] then p in d.markers else CompleteRead(d.accepted, p, order, runs)
    case Staged(a) => a.partition == p && CompleteRead(d.accepted, p, a.pointers, a.runs)
    case _ => true
  }

  /** What a claim on the state doc is worth. */
  ghost predicate HeldOk(d: Docs, task: Task, stage: Stage)
  {
    match stage
    case Holding(v, ph) =>
      && v <= d.version && (v == d.version ==> d.phase == ph) && PhaseLater(ph, d.phase)
      && (task.ReduceCheck? ==> !ph.PhaseMap?)
    case Judged(v, ph, loser) =>
      && v <= d.version && (v == d.version ==> d.phase == ph) && (loser ==> Loser(d, task))
    case _ => true
  }

  ghost predicate WorkOk(n: nat, parts: nat, d: Docs, sink: Sink, k: Work)
  {
    && TaskOk(n, d, k.task)
    && HeldOk(d, k.task, k.stage)
    && (k.task.MapTask? && k.stage.SplitMissing? ==> k.task.split !in d.splits)
    && (k.task.MapDone? ==> MapDoneOk(d, k.task.finish, k.stage))
    && (IsCheck(k.task) ==> CheckOk(parts, d, sink, k.task, k.stage))
    && (k.task.ReduceTask? ==> ReducerOk(d, k.task.partition, k.stage))
    && (k.task.ReduceDone? ==> ReduceDoneOk(d, sink, k.task.attempt, k.stage))
  }

  ghost predicate CrewOk(n: nat, parts: nat, d: Docs, sink: Sink, c: Crew)
  {
    forall w | w in c.work :: w < c.next && WorkOk(n, parts, d, sink, c.work[w])
  }

  /** A worker's task is the one queued under its id, if one still is. */
  ghost predicate Agrees(q: Queues, k: Work)
  {
    && k.id.number < q.next
    && (k.id in q.tasks ==> q.tasks[k.id] == k.task)
    && (k.id in q.errs ==> q.errs[k.id] == k.task)
  }

  ghost predicate CrewAgrees(q: Queues, c: Crew)
  {
    forall w | w in c.work :: Agrees(q, c.work[w])
  }

  // ---------------------------------------------------------------- sink

  ghost predicate SinkOk(parts: nat, d: Docs, sink: Sink)
  {
    && d.markers <= sink.committed.Keys
    && (forall p | p in sink.committed :: sink.committed[p].partition == p && GoodAttempt(d, sink.committed[p])
                                         && sink.committed[p] in sink.staged)
    && (forall c | c in sink.finishes :: d.splits == {} && (c.fenced ==> c.empty == EmptyParts(d.accepted, parts)))
    && (d.phase.PhaseDone? ==> FinishedWell(parts, d, sink))
  }

  // ---------------------------------------------------------------- ownership of runs

  predicate RunsOwned(owner: map<nat, Owner>, runs: seq<Run>, o: Owner)
  {
    && (forall i | 0 <= i < |runs| :: runs[i].id in owner && owner[runs[i].id] == o)
    && (forall i, j | 0 <= i < j < |runs| :: runs[i].id != runs[j].id)
  }

  /** Collecting r deletes nothing that a pointer doc names. */
  predicate Collectable(owner: map<nat, Owner>, d: Docs, r: Run)
  {
    && r.id in owner
    && match owner[r.id]
       case Retired => true
       case Published(s) => s in d.accepted && r in d.accepted[s].runs && r.partition in d.markers
       case _ => false
  }

  ghost predicate TaskOwns(owner: map<nat, Owner>, d: Docs, t: TaskID, task: Task)
  {
    match task
    case MapDone(f) => RunsOwned(owner, f.runs, Queued(t))
    case Collect(runs, _) => Gathered(owner, d, runs)
    case _ => true
  }

  ghost predicate Gathered(owner: map<nat, Owner>, d: Docs, runs: seq<Run>)
  {
    d.phase.Terminal() || forall i | 0 <= i < |runs| :: Collectable(owner, d, runs[i])
  }

  ghost predicate WorkOwns(owner: map<nat, Owner>, d: Docs, w: nat, k: Work)
  {
    && (k.task.MapTask? && k.stage.Writing? ==> RunsOwned(owner, k.stage.written, InFlight(w)))
    && (k.task.Collect? ==> Gathered(owner, d, k.task.runs))
  }

  ghost predicate OwnersOk(d: Docs, st: Store, q: Queues, c: Crew)
  {
    && (forall id | id in st.owner :: id < st.next)
    && (forall t | t in q.tasks :: TaskOwns(st.owner, d, t, q.tasks[t]))
    && (forall t | t in q.errs :: TaskOwns(st.owner, d, t, q.errs[t]))
    && (forall w | w in c.work :: WorkOwns(st.owner, d, w, c.work[w]))
    && (forall s | s in d.accepted :: RunsOwned(st.owner, d.accepted[s].runs, Published(s)))
  }

  /** Until the run ends, a run that may yet be read is in the store. */
  ghost predicate StoredOk(d: Docs, st: Store)
  {
    d.phase.Terminal() ||
    (&& (forall id | id in st.owner :: st.owner[id].InFlight? || st.owner[id].Queued? ==> id in st.stored)
     && (forall id | id in d.pointers :: d.pointers[id].id in st.stored))
  }

  // ---------------------------------------------------------------- progress

  /** w has looked and seen an input, or a phase its check cannot end. */
  predicate Spoilt(k: Work)
  {
    match k.stage
    case LookedPhase(ph) => ph != CheckPhase(k.task)
    case Looked(reached) => !reached
    case Holding(_, ph) => ph != CheckPhase(k.task)
    case SomeLeft(_) => true
    case _ => false
  }

  /** Check t is queued and nobody on it will retire it without a further look,
      or it is quarantined, which fails the run. */
  ghost predicate Awaited(q: Queues, c: Crew, t: TaskID, check: Task)
  {
    || (t in q.tasks && q.tasks[t] == check && forall w | w in c.work && c.work[w].id == t :: !Spoilt(c.work[w]))
    || (t in q.errs && q.errs[t] == check)
  }

  ghost predicate BarrierKept(d: Docs, q: Queues, c: Crew)
  {
    && (d.phase.PhaseMap? && d.splits == {} ==> exists t :: Awaited(q, c, t, MapCheck))
    && (d.phase.PhaseReduce? && d.pointers == map[] ==> exists t :: Awaited(q, c, t, ReduceCheck))
  }

  predicate Held(q: Queues, t: TaskID) { t in q.tasks || t in q.errs }

  function TaskAt(q: Queues, t: TaskID): Task
    requires Held(q, t)
  {
    if t in q.tasks then q.tasks[t] else q.errs[t]
  }

  predicate ServesSplit(task: Task, split: nat)
  {
    task == MapTask(split) || (task.MapDone? && task.finish.split == split)
  }

  predicate ServesPart(task: Task, p: int)
  {
    task == ReduceTask(p) || (task.ReduceDone? && task.attempt.partition == p)
  }

  ghost predicate SplitServed(q: Queues, split: nat)
  {
    exists t :: Held(q, t) && ServesSplit(TaskAt(q, t), split)
  }

  ghost predicate PartServed(q: Queues, p: int)
  {
    exists t :: Held(q, t) && ServesPart(TaskAt(q, t), p)
  }

  /** Every unit that is left has a task that will do it, or that will fail the run. */
  ghost predicate WorkKept(d: Docs, q: Queues)
  {
    && (d.phase.PhaseMap? ==> forall s | s in d.splits :: SplitServed(q, s))
    && (d.phase.PhaseReduce? ==> forall id | id in d.pointers :: PartServed(q, d.pointers[id].partition))
  }

  // ---------------------------------------------------------------- all of it

  ghost predicate Inv(s: State)
  {
    && DocsOk(s.mapSplits, s.reduceParts, s.docs)
    && QueuesOk(s.mapSplits, s.docs, s.queues)
    && CrewOk(s.mapSplits, s.reduceParts, s.docs, s.sink, s.crew)
    && CrewAgrees(s.queues, s.crew)
    && SinkOk(s.reduceParts, s.docs, s.sink)
    && OwnersOk(s.docs, s.store, s.queues, s.crew)
    && StoredOk(s.docs, s.store)
    && BarrierKept(s.docs, s.queues, s.crew)
    && WorkKept(s.docs, s.queues)
  }
}
