/** Every stored run has one owner, and collection deletes only runs nobody can
    still read. */
module RunOwnership {
  import opened RunProtocol
  import opened RunInvariants
  import opened RunDocs
  import opened RunKnowledge

  ghost predicate Owning(s: State)
  {
    OwnersOk(s.docs, s.store, s.queues, s.crew) && StoredOk(s.docs, s.store)
  }

  // ---------------------------------------------------------------- the parts of a step

  lemma GatheredLater(owner: map<nat, Owner>, d: Docs, d': Docs, runs: seq<Run>)
    requires Later(d, d') && Gathered(owner, d, runs)
    ensures Gathered(owner, d', runs)
  {
  }

  /** The docs move on, accepting only runs that have been handed to their split. */
  lemma OwnersLater(d: Docs, d': Docs, st: Store, q: Queues, c: Crew)
    requires OwnersOk(d, st, q, c) && Later(d, d')
    requires forall s | s in d'.accepted :: RunsOwned(st.owner, d'.accepted[s].runs, Published(s))
    ensures OwnersOk(d', st, q, c)
  {
    forall t | t in q.tasks ensures TaskOwns(st.owner, d', t, q.tasks[t]) {
      if q.tasks[t].Collect? { GatheredLater(st.owner, d, d', q.tasks[t].runs); }
    }
    forall t | t in q.errs ensures TaskOwns(st.owner, d', t, q.errs[t]) {
      if q.errs[t].Collect? { GatheredLater(st.owner, d, d', q.errs[t].runs); }
    }
    forall w | w in c.work ensures WorkOwns(st.owner, d', w, c.work[w]) {
      if c.work[w].task.Collect? { GatheredLater(st.owner, d, d', c.work[w].task.runs); }
    }
  }

  lemma StoredLater(d: Docs, d': Docs, st: Store)
    requires StoredOk(d, st) && Later(d, d')
    requires forall id | id in d'.pointers :: id in d.pointers && d'.pointers[id] == d.pointers[id]
    ensures StoredOk(d', st)
  {
  }

  lemma MoveOwns(d: Docs, st: Store, q: Queues, c: Crew, w: nat, stage: Stage)
    requires OwnersOk(d, st, q, c) && w in c.work
    requires stage.Writing? && c.work[w].task.MapTask? ==> RunsOwned(st.owner, stage.written, InFlight(w))
    ensures OwnersOk(d, st, q, Move(c, w, stage))
  {
  }

  lemma CommitOwns(d: Docs, st: Store, q: Queues, c: Crew, w: nat, t: TaskID, inserted: map<TaskID, Task>)
    requires OwnersOk(d, st, q, c)
    requires forall x | x in inserted :: TaskOwns(st.owner, d, x, inserted[x])
    ensures OwnersOk(d, st, Commit(q, t, inserted), Leave(c, w))
    ensures OwnersOk(d, st, Insert(q, inserted), c)
  {
  }

  lemma StillOwned(st: Store, runs: seq<Run>, o: Owner, o': Owner, rs: seq<Run>, x: Owner)
    requires RunsOwned(st.owner, runs, o) && RunsOwned(st.owner, rs, x) && x != o
    ensures RunsOwned(Owned(st, runs, o').owner, rs, x)
  {
  }

  lemma StillGathered(st: Store, runs: seq<Run>, o: Owner, o': Owner, d: Docs, rs: seq<Run>)
    requires RunsOwned(st.owner, runs, o) && (o.InFlight? || o.Queued?) && Gathered(st.owner, d, rs)
    ensures Gathered(Owned(st, runs, o').owner, d, rs)
  {
    if !d.phase.Terminal() {
      forall i | 0 <= i < |rs| ensures Collectable(Owned(st, runs, o').owner, d, rs[i]) {
        assert Collectable(st.owner, d, rs[i]);
        assert rs[i].id !in IDs(runs);
      }
    }
  }

  lemma StillTask(st: Store, runs: seq<Run>, o: Owner, o': Owner, d: Docs, t: TaskID, task: Task)
    requires RunsOwned(st.owner, runs, o) && (o.InFlight? || o.Queued?) && o != Queued(t) &&
             TaskOwns(st.owner, d, t, task)
    ensures TaskOwns(Owned(st, runs, o').owner, d, t, task)
  {
    if task.Collect? {
      StillGathered(st, runs, o, o', d, task.runs);
    } else if task.MapDone? {
      StillOwned(st, runs, o, o', task.finish.runs, Queued(t));
    }
  }

  /** Runs change hands in the commit that ends a task or the worker that owned
      them, or as the worker gives up. */
  lemma TransferOwns(d: Docs, st: Store, q: Queues, c: Crew, w: nat, t: TaskID, runs: seq<Run>, o: Owner, o': Owner,
                     inserted: map<TaskID, Task>)
    requires OwnersOk(d, st, q, c) && RunsOwned(st.owner, runs, o)
    requires o == InFlight(w) || (o == Queued(t) && t !in q.errs)
    requires forall x | x in inserted :: TaskOwns(Owned(st, runs, o').owner, d, x, inserted[x])
    ensures OwnersOk(d, Owned(st, runs, o'), Commit(q, t, inserted), Leave(c, w))
    ensures o.InFlight? ==> OwnersOk(d, Owned(st, runs, o'), q, Leave(c, w))
  {
    var st' := Owned(st, runs, o');
    forall x | x in q.tasks && (x != t || o.InFlight?) ensures TaskOwns(st'.owner, d, x, q.tasks[x]) {
      StillTask(st, runs, o, o', d, x, q.tasks[x]);
    }
    forall x | x in q.errs ensures TaskOwns(st'.owner, d, x, q.errs[x]) {
      StillTask(st, runs, o, o', d, x, q.errs[x]);
    }
    forall x | x in c.work && x != w ensures WorkOwns(st'.owner, d, x, c.work[x]) {
      var k := c.work[x];
      if k.task.Collect? {
        StillGathered(st, runs, o, o', d, k.task.runs);
      } else if k.task.MapTask? && k.stage.Writing? {
        StillOwned(st, runs, o, o', k.stage.written, InFlight(x));
      }
    }
    forall s | s in d.accepted ensures RunsOwned(st'.owner, d.accepted[s].runs, Published(s)) {
      StillOwned(st, runs, o, o', d.accepted[s].runs, Published(s));
    }
  }

  // ---------------------------------------------------------------- each role

  lemma WriteOwns(s: State, w: nat, p: int)
    requires Owning(s) && MapperEnabled(s, w, WriteRun(p))
    ensures Owning(MapperDo(s, w, WriteRun(p)))
  {
    var st := s.store;
    var st' := Store(st.stored + {st.next}, st.owner[st.next := InFlight(w)], st.next + 1);
    var k := s.crew.work[w];
    assert OwnersOk(s.docs, st', s.queues, s.crew);
    MoveOwns(s.docs, st', s.queues, s.crew, w, Writing(k.stage.written + [Run(st.next, p)]));
  }

  lemma FinishOwns(s: State, w: nat)
    requires Owning(s) && MapperEnabled(s, w, CommitFinish)
    ensures Owning(MapperDo(s, w, CommitFinish))
  {
    var k := s.crew.work[w];
    var t' := TaskID(s.queues.next, 0);
    TransferOwns(s.docs, s.store, s.queues, s.crew, w, k.id, k.stage.written, InFlight(w), Queued(t'),
                 One(s.queues.next, MapDone(Finish(k.task.split, k.stage.written))));
  }

  lemma AbortOwns(s: State, w: nat)
    requires PointersOk(s.docs) && Owning(s) && MapperEnabled(s, w, Abort)
    ensures Owning(MapperDo(s, w, Abort))
  {
    var k := s.crew.work[w];
    TransferOwns(s.docs, s.store, s.queues, s.crew, w, k.id, k.stage.written, InFlight(w), Retired, map[]);
    var s' := MapperDo(s, w, Abort);
    if !s.docs.phase.Terminal() {
      forall id | id in s.docs.pointers ensures s.docs.pointers[id].id in s'.store.stored {
        PointerOwned(s, id);
      }
    }
  }

  /** A published run belongs to its split. */
  lemma PointerOwned(s: State, id: PointerID)
    requires OwnersOk(s.docs, s.store, s.queues, s.crew) && id in s.docs.pointers
    ensures PointersOk(s.docs) ==>
      var r := s.docs.pointers[id].id; r in s.store.owner && s.store.owner[r] == Published(id.split)
  {
    if PointersOk(s.docs) {
      assert Names(s.docs.accepted, id, s.docs.pointers[id].partition);
    }
  }

  lemma MapperOwns(s: State, w: nat, act: MapperAct)
    requires PointersOk(s.docs) && Owning(s) && MapperEnabled(s, w, act)
    ensures Owning(MapperDo(s, w, act))
  {
    var k := s.crew.work[w];
    match act
    case ReadSplit => MoveOwns(s.docs, s.store, s.queues, s.crew, w,
                               if k.task.split in s.docs.splits then Writing([]) else SplitMissing);
    case WriteRun(p) => WriteOwns(s, w, p);
    case CommitFinish => FinishOwns(s, w);
    case RetireMapper => CommitOwns(s.docs, s.store, s.queues, s.crew, w, k.id, map[]);
    case Abort => AbortOwns(s, w);
  }

  lemma AcceptStored(d: Docs, st: Store, f: Finish, t: TaskID)
    requires StoredOk(d, st) && RunsOwned(st.owner, f.runs, Queued(t))
    ensures StoredOk(Accepted(d, f), Owned(st, f.runs, Published(f.split)))
  {
  }

  lemma AcceptOwners(d: Docs, d': Docs, st: Store, q: Queues, c: Crew, w: nat, t: TaskID, f: Finish)
    requires OwnersOk(d, st, q, c) && Later(d, d') && d'.accepted == d.accepted[f.split := f]
    requires t !in q.errs && RunsOwned(st.owner, f.runs, Queued(t))
    ensures OwnersOk(d', Owned(st, f.runs, Published(f.split)), Commit(q, t, One(q.next, MapCheck)), Leave(c, w))
  {
    TransferOwns(d, st, q, c, w, t, f.runs, Queued(t), Published(f.split), One(q.next, MapCheck));
    OwnersLater(d, d', Owned(st, f.runs, Published(f.split)), Commit(q, t, One(q.next, MapCheck)), Leave(c, w));
  }

  lemma AcceptOwns(s: State, w: nat)
    requires DocsOk(s.mapSplits, s.reduceParts, s.docs) && Owning(s) && MapDoneEnabled(s, w, AcceptFinish)
    requires s.queues.tasks[s.crew.work[w].id] == s.crew.work[w].task && s.crew.work[w].id !in s.queues.errs
    ensures Owning(MapDoneDo(s, w, AcceptFinish))
  {
    var k := s.crew.work[w];
    assert TaskOwns(s.store.owner, s.docs, k.id, k.task);
    AcceptKeeps(s.mapSplits, s.reduceParts, s.docs, k.task.finish);
    AcceptOwners(s.docs, Accepted(s.docs, k.task.finish), s.store, s.queues, s.crew, w, k.id, k.task.finish);
    AcceptStored(s.docs, s.store, k.task.finish, k.id);
  }

  lemma DiscardOwns(s: State, w: nat)
    requires Owning(s) && MapDoneEnabled(s, w, DiscardFinish)
    requires s.queues.tasks[s.crew.work[w].id] == s.crew.work[w].task && s.crew.work[w].id !in s.queues.errs
    ensures Owning(MapDoneDo(s, w, DiscardFinish))
  {
    var k := s.crew.work[w];
    assert TaskOwns(s.store.owner, s.docs, k.id, k.task);
    TransferOwns(s.docs, s.store, s.queues, s.crew, w, k.id, k.task.finish.runs, Queued(k.id), Retired,
                 Collecting(s.queues.next, k.task.finish.runs));
  }

  lemma MapDoneOwns(s: State, w: nat, act: MapDoneAct)
    requires Knowledge(s) && Owning(s) && MapDoneEnabled(s, w, act)
    ensures Owning(MapDoneDo(s, w, act))
  {
    var k := s.crew.work[w];
    match act
    case TakeSplit => MoveOwns(s.docs, s.store, s.queues, s.crew, w, Took(k.task.finish.split in s.docs.splits));
    case ReadMapPhase => MoveOwns(s.docs, s.store, s.queues, s.crew, w, Informed(k.stage.found, s.docs.phase));
    case AcceptFinish => AcceptOwns(s, w);
    case DiscardFinish => DiscardOwns(s, w);
  }

  /** A change of the state doc alone. */
  lemma PhaseOwns(d: Docs, d': Docs, st: Store, q: Queues, c: Crew)
    requires OwnersOk(d, st, q, c) && StoredOk(d, st) && Later(d, d')
    requires d'.accepted == d.accepted && d'.pointers == d.pointers
    ensures OwnersOk(d', st, q, c) && StoredOk(d', st)
  {
    OwnersLater(d, d', st, q, c);
  }

  lemma LookOwns(s: State, w: nat, act: LookAct)
    requires Knowledge(s) && Owning(s) && LookEnabled(s, w, act)
    ensures Owning(LookDo(s, w, act))
  {
    var k := s.crew.work[w];
    BumpKeeps(s.mapSplits, s.reduceParts, s.docs);
    PhaseOwns(s.docs, Bump(s.docs), s.store, s.queues, s.crew);
    var s' := LookDo(s, w, act);
    if act.RetireCheck? || act.RetireHeld? {
      CommitOwns(s'.docs, s.store, s.queues, s.crew, w, k.id, map[]);
    } else {
      MoveOwns(s'.docs, s.store, s.queues, s.crew, w, s'.crew.work[w].stage);
    }
  }

  lemma BarrierOwns(s: State, w: nat, act: BarrierAct)
    requires Knowledge(s) && Owning(s) && BarrierEnabled(s, w, act)
    ensures Owning(BarrierDo(s, w, act))
  {
    var k := s.crew.work[w];
    var s' := BarrierDo(s, w, act);
    BarrierLater(s, w, act);
    PhaseOwns(s.docs, s'.docs, s.store, s.queues, s.crew);
    if act.ListParts? || act.CallFinish? {
      MoveOwns(s'.docs, s.store, s.queues, s.crew, w, s'.crew.work[w].stage);
    } else if act.FanOut? {
      CommitOwns(s'.docs, s.store, s.queues, s.crew, w, k.id, Fan(s.queues.next, k.stage.parts));
    } else {
      CommitOwns(s'.docs, s.store, s.queues, s.crew, w, k.id, Ending(s.queues.next));
    }
  }

  lemma BarrierLater(s: State, w: nat, act: BarrierAct)
    requires Knowledge(s) && BarrierEnabled(s, w, act)
    ensures Later(s.docs, BarrierDo(s, w, act).docs)
  {
    var k := s.crew.work[w];
    assert WorkOk(s.mapSplits, s.reduceParts, s.docs, s.sink, k);
    assert CheckOk(s.reduceParts, s.docs, s.sink, k.task, k.stage);
  }

  lemma ReducerOwns(s: State, w: nat, act: ReducerAct)
    requires Owning(s) && ReducerEnabled(s, w, act)
    ensures Owning(ReducerDo(s, w, act))
  {
    var k := s.crew.work[w];
    match act
    case ReadPointers(order) =>
      MoveOwns(s.docs, s.store, s.queues, s.crew, w, HasRead(order, Contents(s.docs.pointers, order)));
    case RetireReducer => CommitOwns(s.docs, s.store, s.queues, s.crew, w, k.id, map[]);
    case StageOutput =>
      MoveOwns(s.docs, s.store, s.queues, s.crew, w,
               Staged(Attempt(s.sink.next, k.task.partition, k.stage.order, k.stage.runs)));
    case CommitAttempt =>
      CommitOwns(s.docs, s.store, s.queues, s.crew, w, k.id, One(s.queues.next, ReduceDone(k.stage.attempt)));
  }

  /** What a complete attempt read may be collected once its partition is marked. */
  lemma AttemptGathered(d: Docs, st: Store, q: Queues, c: Crew, a: Attempt)
    requires OwnersOk(d, st, q, c) && GoodAttempt(d, a) && (a.partition in d.markers || d.phase.Terminal())
    ensures Gathered(st.owner, d, a.runs)
  {
    if !d.phase.Terminal() {
      forall i | 0 <= i < |a.runs| ensures Collectable(st.owner, d, a.runs[i]) {
        assert Names(d.accepted, a.pointers[i], a.partition);
        assert RunsOwned(st.owner, d.accepted[a.pointers[i].split].runs, Published(a.pointers[i].split));
      }
    }
  }

  /** Consuming a partition's pointers frees the runs that were read. */
  lemma ConsumeOwns(n: nat, parts: nat, d: Docs, d': Docs, st: Store, q: Queues, c: Crew, a: Attempt,
                    ids: set<PointerID>)
    requires DocsOk(n, parts, d) && OwnersOk(d, st, q, c) && StoredOk(d, st)
    requires GoodAttempt(d, a) && ids != {} && ReadOk(d, a.partition, ids)
    requires d' == d.(pointers := d.pointers - ids, markers := d.markers + {a.partition})
    ensures OwnersOk(d', st, q, c) && StoredOk(d', st) && Gathered(st.owner, d', a.runs)
  {
    ConsumeKeeps(n, parts, d, a.partition, ids);
    OwnersLater(d, d', st, q, c);
    StoredLater(d, d', st);
    GoodLater(n, parts, d, d', a);
    AttemptGathered(d', st, q, c, a);
  }

  lemma AttemptOwns(s: State, w: nat)
    requires DocsOk(s.mapSplits, s.reduceParts, s.docs) && Owning(s) && ReduceDoneEnabled(s, w, AcceptAttempt)
    requires GoodAttempt(s.docs, s.crew.work[w].task.attempt)
    requires ReduceDoneOk(s.docs, s.sink, s.crew.work[w].task.attempt, s.crew.work[w].stage)
    ensures Owning(ReduceDoneDo(s, w, AcceptAttempt))
  {
    var k := s.crew.work[w];
    var a := k.task.attempt;
    var d' := s.docs.(pointers := s.docs.pointers - k.stage.ids, markers := s.docs.markers + {a.partition});
    ConsumeOwns(s.mapSplits, s.reduceParts, s.docs, d', s.store, s.queues, s.crew, a, k.stage.ids);
    CommitOwns(d', s.store, s.queues, s.crew, w, k.id,
               One(s.queues.next, ReduceCheck) + Collecting(s.queues.next, a.runs));
  }

  lemma DropOwns(s: State, w: nat)
    requires Knowledge(s) && Owning(s) && ReduceDoneEnabled(s, w, DiscardAttempt)
    ensures Owning(ReduceDoneDo(s, w, DiscardAttempt))
  {
    var k := s.crew.work[w];
    assert WorkOk(s.mapSplits, s.reduceParts, s.docs, s.sink, k);
    AttemptGathered(s.docs, s.store, s.queues, s.crew, k.task.attempt);
    CommitOwns(s.docs, s.store, s.queues, s.crew, w, k.id, Collecting(s.queues.next, k.task.attempt.runs));
  }

  lemma ReduceDoneOwns(s: State, w: nat, act: ReduceDoneAct)
    requires Knowledge(s) && Owning(s) && ReduceDoneEnabled(s, w, act)
    ensures Owning(ReduceDoneDo(s, w, act))
  {
    if act.AcceptAttempt? {
      assert WorkOk(s.mapSplits, s.reduceParts, s.docs, s.sink, s.crew.work[w]);
      AttemptOwns(s, w);
    } else if act.DiscardAttempt? {
      DropOwns(s, w);
    } else {
      MoveOwns(s.docs, s.store, s.queues, s.crew, w, ReduceDoneDo(s, w, act).crew.work[w].stage);
    }
  }

  /** No collection deletes a run that a pointer names or that may yet be published. */
  lemma CollectOwns(s: State, w: nat, act: CollectAct)
    requires Knowledge(s) && Owning(s) && CollectEnabled(s, w, act)
    ensures Owning(CollectDo(s, w, act))
  {
    var k := s.crew.work[w];
    match act
    case RetireCollector => CommitOwns(s.docs, s.store, s.queues, s.crew, w, k.id, map[]);
    case CollectRun(i) =>
      if !s.docs.phase.Terminal() {
        var r := k.task.runs[i];
        assert WorkOwns(s.store.owner, s.docs, w, k);
        assert Collectable(s.store.owner, s.docs, r);
        forall id | id in s.docs.pointers ensures s.docs.pointers[id].id != r.id {
          NotCollected(s, id, r);
        }
      }
    case SweepRun =>
      assert WorkOk(s.mapSplits, s.reduceParts, s.docs, s.sink, k);
      assert s.docs.phase.Terminal();
  }

  /** A published pointer's run is not one a collection may name. */
  lemma NotCollected(s: State, id: PointerID, r: Run)
    requires PointersOk(s.docs) && Owning(s) && id in s.docs.pointers && Collectable(s.store.owner, s.docs, r)
    ensures s.docs.pointers[id].id != r.id
  {
    PointerOwned(s, id);
    assert Names(s.docs.accepted, id, s.docs.pointers[id].partition);
    assert s.docs.accepted[id.split].runs[id.index] == s.docs.pointers[id];
    assert RunsOwned(s.store.owner, s.docs.accepted[id.split].runs, Published(id.split));
  }

  lemma ErrorOwns(s: State, w: nat, act: ErrorAct)
    requires Knowledge(s) && Owning(s) && ErrorEnabled(s, w, act)
    ensures Owning(ErrorDo(s, w, act))
  {
    var k := s.crew.work[w];
    var s' := ErrorDo(s, w, act);
    assert WorkOk(s.mapSplits, s.reduceParts, s.docs, s.sink, k);
    PhaseOwns(s.docs, s'.docs, s.store, s.queues, s.crew);
    if act.HoldForError? || act.Judge? {
      MoveOwns(s'.docs, s.store, s.queues, s.crew, w, s'.crew.work[w].stage);
    } else {
      var q := s.queues.(errs := s.queues.errs - {k.id});
      assert OwnersOk(s'.docs, s.store, q, Leave(s.crew, w));
      CommitOwns(s'.docs, s.store, q, Leave(s.crew, w), w, k.id, Ending(q.next));
    }
  }

  lemma StepOwns(s: State, step: Step)
    requires Knowledge(s) && Owning(s) && Enabled(s, step)
    ensures Owning(Do(s, step))
  {
    match step
    case Begin(t) => BeginOwns(s, t);
    case Crash(w) =>
    case DuplicateMap(split) =>
      CommitOwns(s.docs, s.store, s.queues, s.crew, 0, TaskID(0, 0), One(s.queues.next, MapTask(split)));
    case DuplicateReduce(p) =>
      CommitOwns(s.docs, s.store, s.queues, s.crew, 0, TaskID(0, 0), One(s.queues.next, ReduceTask(p)));
    case Quarantine(w) =>
    case FailNow =>
      PhaseOwns(s.docs, InPhase(s.docs, PhaseFailed), s.store, s.queues, s.crew);
      CommitOwns(InPhase(s.docs, PhaseFailed), s.store, s.queues, s.crew, 0, TaskID(0, 0), Ending(s.queues.next));
    case Mapper(w, act) => MapperOwns(s, w, act);
    case AcceptMap(w, act) => MapDoneOwns(s, w, act);
    case Look(w, act) => LookOwns(s, w, act);
    case Barrier(w, act) => BarrierOwns(s, w, act);
    case Reducer(w, act) => ReducerOwns(s, w, act);
    case AcceptReduce(w, act) => ReduceDoneOwns(s, w, act);
    case Collector(w, act) => CollectOwns(s, w, act);
    case ErrorWorker(w, act) => ErrorOwns(s, w, act);
  }

  lemma BeginOwns(s: State, t: TaskID)
    requires Knowledge(s) && Owning(s) && Enabled(s, Begin(t))
    ensures Owning(Do(s, Begin(t)))
  {
  }
}
