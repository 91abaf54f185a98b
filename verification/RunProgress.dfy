/** No barrier is lost and no unit is forgotten: whatever is left to do, a task is
    queued that does it, or that fails the run. */
module RunProgress {
  import opened RunProtocol
  import opened RunInvariants
  import opened RunDocs
  import opened RunKnowledge

  ghost predicate Progressing(s: State)
  {
    BarrierKept(s.docs, s.queues, s.crew) && WorkKept(s.docs, s.queues)
  }

  // ---------------------------------------------------------------- the parts of a step

  /** Every awaited check is still awaited. */
  ghost predicate AwaitsKept(q: Queues, c: Crew, q': Queues, c': Crew)
  {
    && (forall t | Awaited(q, c, t, MapCheck) :: Awaited(q', c', t, MapCheck))
    && (forall t | Awaited(q, c, t, ReduceCheck) :: Awaited(q', c', t, ReduceCheck))
  }

  ghost predicate ServesKept(d: Docs, q: Queues, q': Queues)
  {
    && (forall s | s in d.splits && SplitServed(q, s) :: SplitServed(q', s))
    && (forall id | id in d.pointers && PartServed(q, d.pointers[id].partition) ::
        PartServed(q', d.pointers[id].partition))
  }

  /** The phase and its inputs are as they were, or fewer but some left. */
  ghost predicate SameUnits(d: Docs, d': Docs)
  {
    && d'.phase == d.phase && d'.splits == d.splits && d'.pointers == d.pointers
  }

  lemma KeptProgress(d: Docs, d': Docs, q: Queues, c: Crew, q': Queues, c': Crew)
    requires BarrierKept(d, q, c) && WorkKept(d, q)
    requires d'.phase.Terminal() || (SameUnits(d, d') && AwaitsKept(q, c, q', c') && ServesKept(d, q, q'))
    ensures BarrierKept(d', q', c') && WorkKept(d', q')
  {
    if !d'.phase.Terminal() {
      if d.phase.PhaseMap? && d.splits == {} {
        var t :| Awaited(q, c, t, MapCheck);
        assert Awaited(q', c', t, MapCheck);
      }
      if d.phase.PhaseReduce? && d.pointers == map[] {
        var t :| Awaited(q, c, t, ReduceCheck);
        assert Awaited(q', c', t, ReduceCheck);
      }
    }
  }

  lemma MoveAwaits(q: Queues, c: Crew, w: nat, stage: Stage)
    requires CrewAgrees(q, c) && w in c.work
    requires IsCheck(c.work[w].task) && !Spoilt(c.work[w]) ==> !Spoilt(c.work[w].(stage := stage))
    ensures AwaitsKept(q, c, q, Move(c, w, stage))
  {
  }

  lemma LeaveAwaits(q: Queues, c: Crew, w: nat)
    ensures AwaitsKept(q, c, q, Leave(c, w))
  {
  }

  lemma CommitAwaits(n: nat, d: Docs, q: Queues, c: Crew, w: nat, inserted: map<TaskID, Task>)
    requires QueuesOk(n, d, q) && CrewAgrees(q, c) && w in c.work && c.work[w].id in q.tasks
    requires IsCheck(c.work[w].task) ==> Spoilt(c.work[w])
    requires forall x | x in inserted :: x.number == q.next
    ensures AwaitsKept(q, c, Commit(q, c.work[w].id, inserted), Leave(c, w))
  {
  }

  lemma InsertAwaits(n: nat, d: Docs, q: Queues, c: Crew, inserted: map<TaskID, Task>)
    requires QueuesOk(n, d, q)
    requires forall x | x in inserted :: x.number == q.next
    ensures AwaitsKept(q, c, Insert(q, inserted), c) && ServesKept(d, q, Insert(q, inserted))
  {
    var q' := Insert(q, inserted);
    forall t | Held(q, t) ensures Held(q', t) && TaskAt(q', t) == TaskAt(q, t) {}
    ServedStill(d, q, q');
  }

  /** Tasks that only ever stay or move between queues go on serving. */
  lemma ServedStill(d: Docs, q: Queues, q': Queues)
    requires forall t | Held(q, t) :: Held(q', t) && TaskAt(q', t) == TaskAt(q, t)
    ensures ServesKept(d, q, q')
  {
    forall s | s in d.splits && SplitServed(q, s) ensures SplitServed(q', s) {
      var t :| Held(q, t) && ServesSplit(TaskAt(q, t), s);
      assert Held(q', t);
    }
    forall id | id in d.pointers && PartServed(q, d.pointers[id].partition)
      ensures PartServed(q', d.pointers[id].partition)
    {
      var t :| Held(q, t) && ServesPart(TaskAt(q, t), d.pointers[id].partition);
      assert Held(q', t);
    }
  }

  /** A task goes whose unit is done, or whose successor comes with the commit. */
  lemma CommitServes(n: nat, d: Docs, q: Queues, t: TaskID, inserted: map<TaskID, Task>)
    requires QueuesOk(n, d, q) && t in q.tasks
    requires forall x | x in inserted :: x.number == q.next
    requires forall s | s in d.splits && ServesSplit(q.tasks[t], s) ::
             exists x :: x in inserted && ServesSplit(inserted[x], s)
    requires forall id | id in d.pointers && ServesPart(q.tasks[t], d.pointers[id].partition) ::
               exists x :: x in inserted && ServesPart(inserted[x], d.pointers[id].partition)
    ensures ServesKept(d, q, Commit(q, t, inserted))
  {
    var q' := Commit(q, t, inserted);
    forall s | s in d.splits && SplitServed(q, s) ensures SplitServed(q', s) {
      var u :| Held(q, u) && ServesSplit(TaskAt(q, u), s);
      if u == t {
        var x :| x in inserted && ServesSplit(inserted[x], s);
        assert Held(q', x) && TaskAt(q', x) == inserted[x];
      } else {
        assert Held(q', u) && TaskAt(q', u) == TaskAt(q, u);
      }
    }
    forall id | id in d.pointers && PartServed(q, d.pointers[id].partition)
      ensures PartServed(q', d.pointers[id].partition)
    {
      var p := d.pointers[id].partition;
      var u :| Held(q, u) && ServesPart(TaskAt(q, u), p);
      if u == t {
        var x :| x in inserted && ServesPart(inserted[x], p);
        assert Held(q', x) && TaskAt(q', x) == inserted[x];
      } else {
        assert Held(q', u) && TaskAt(q', u) == TaskAt(q, u);
      }
    }
  }

  /** A worker that only learns something. */
  lemma LearnProgress(s: State, w: nat, stage: Stage, d': Docs)
    requires Knowledge(s) && Progressing(s) && w in s.crew.work && SameUnits(s.docs, d')
    requires IsCheck(s.crew.work[w].task) && !Spoilt(s.crew.work[w]) ==> !Spoilt(s.crew.work[w].(stage := stage))
    ensures BarrierKept(d', s.queues, Move(s.crew, w, stage)) && WorkKept(d', s.queues)
  {
    MoveAwaits(s.queues, s.crew, w, stage);
    ServedStill(s.docs, s.queues, s.queues);
    KeptProgress(s.docs, d', s.queues, s.crew, s.queues, Move(s.crew, w, stage));
  }

  ghost predicate UnitHandled(d: Docs, task: Task, inserted: map<TaskID, Task>)
  {
    && (forall s | s in d.splits && ServesSplit(task, s) :: exists x :: x in inserted && ServesSplit(inserted[x], s))
    && (forall id | id in d.pointers && ServesPart(task, d.pointers[id].partition) ::
          exists x :: x in inserted && ServesPart(inserted[x], d.pointers[id].partition))
  }

  /** A worker that commits without touching the phase's inputs. */
  lemma RetireProgress(s: State, w: nat, inserted: map<TaskID, Task>, d': Docs)
    requires Knowledge(s) && Progressing(s) && w in s.crew.work && s.crew.work[w].id in s.queues.tasks
    requires forall x | x in inserted :: x.number == s.queues.next
    requires d'.phase.Terminal() ||
             (&& SameUnits(s.docs, d')
              && (IsCheck(s.crew.work[w].task) ==> Spoilt(s.crew.work[w]))
              && UnitHandled(s.docs, s.crew.work[w].task, inserted))
    ensures BarrierKept(d', Commit(s.queues, s.crew.work[w].id, inserted), Leave(s.crew, w))
    ensures WorkKept(d', Commit(s.queues, s.crew.work[w].id, inserted))
  {
    var t := s.crew.work[w].id;
    if !d'.phase.Terminal() {
      CommitAwaits(s.mapSplits, s.docs, s.queues, s.crew, w, inserted);
      assert s.queues.tasks[t] == s.crew.work[w].task;
      CommitServes(s.mapSplits, s.docs, s.queues, t, inserted);
    }
    KeptProgress(s.docs, d', s.queues, s.crew, Commit(s.queues, t, inserted), Leave(s.crew, w));
  }

  // ---------------------------------------------------------------- each role

  lemma MapperProgress(s: State, w: nat, act: MapperAct)
    requires Knowledge(s) && Progressing(s) && MapperEnabled(s, w, act)
    ensures Progressing(MapperDo(s, w, act))
  {
    var k := s.crew.work[w];
    var s' := MapperDo(s, w, act);
    match act
    case ReadSplit => LearnProgress(s, w, s'.crew.work[w].stage, s.docs);
    case WriteRun(p) => LearnProgress(s, w, s'.crew.work[w].stage, s.docs);
    case CommitFinish =>
      var inserted := One(s.queues.next, MapDone(Finish(k.task.split, k.stage.written)));
      assert ServesSplit(inserted[TaskID(s.queues.next, 0)], k.task.split);
      RetireProgress(s, w, inserted, s.docs);
    case RetireMapper =>
      assert WorkOk(s.mapSplits, s.reduceParts, s.docs, s.sink, k);
      RetireProgress(s, w, map[], s.docs);
    case Abort =>
      LeaveAwaits(s.queues, s.crew, w);
      ServedStill(s.docs, s.queues, s.queues);
      KeptProgress(s.docs, s.docs, s.queues, s.crew, s.queues, s'.crew);
  }

  /** The last acceptance of the map phase queues the check that ends it. */
  lemma AcceptProgress(s: State, w: nat)
    requires Knowledge(s) && Progressing(s) && MapDoneEnabled(s, w, AcceptFinish)
    ensures Progressing(MapDoneDo(s, w, AcceptFinish))
  {
    var k := s.crew.work[w];
    var q, c := s.queues, s.crew;
    var s' := MapDoneDo(s, w, AcceptFinish);
    var t' := TaskID(q.next, 0);
    assert s.docs.fanned == {} && !s.docs.phase.PhaseReduce?;
    assert Awaited(s'.queues, s'.crew, t', MapCheck);
    if s.docs.phase.PhaseMap? {
      forall sp | sp in s'.docs.splits ensures SplitServed(s'.queues, sp) {
        assert SplitServed(q, sp);
        var u :| Held(q, u) && ServesSplit(TaskAt(q, u), sp);
        assert u != k.id;
        assert Held(s'.queues, u) && TaskAt(s'.queues, u) == TaskAt(q, u);
      }
    }
  }

  lemma MapDoneProgress(s: State, w: nat, act: MapDoneAct)
    requires Knowledge(s) && Progressing(s) && MapDoneEnabled(s, w, act)
    ensures Progressing(MapDoneDo(s, w, act))
  {
    var k := s.crew.work[w];
    var s' := MapDoneDo(s, w, act);
    match act
    case TakeSplit => LearnProgress(s, w, s'.crew.work[w].stage, s.docs);
    case ReadMapPhase => LearnProgress(s, w, s'.crew.work[w].stage, s.docs);
    case AcceptFinish => AcceptProgress(s, w);
    case DiscardFinish =>
      assert WorkOk(s.mapSplits, s.reduceParts, s.docs, s.sink, k);
      RetireProgress(s, w, Collecting(s.queues.next, k.task.finish.runs), s.docs);
  }

  /** A check on the awaited side of its barrier is not spoilt by looking. */
  lemma LookStays(s: State, w: nat, act: LookAct)
    requires Knowledge(s) && LookEnabled(s, w, act) && !act.RetireCheck? && !act.RetireHeld?
    requires s.docs.phase == CheckPhase(s.crew.work[w].task) && !InputsLeft(s.docs, s.crew.work[w].task)
    ensures !Spoilt(s.crew.work[w]) ==> !Spoilt(LookDo(s, w, act).crew.work[w])
  {
  }

  lemma LookProgress(s: State, w: nat, act: LookAct)
    requires Knowledge(s) && Progressing(s) && LookEnabled(s, w, act)
    ensures Progressing(LookDo(s, w, act))
  {
    var k := s.crew.work[w];
    var s' := LookDo(s, w, act);
    if act.RetireCheck? || act.RetireHeld? {
      RetireProgress(s, w, map[], s'.docs);
    } else if s.docs.phase == CheckPhase(k.task) && !InputsLeft(s.docs, k.task) {
      LookStays(s, w, act);
      LearnProgress(s, w, s'.crew.work[w].stage, s'.docs);
    } else {
      LookElsewhere(s, w, s'.crew.work[w].stage);
      assert BarrierKept(s'.docs, s'.queues, s'.crew);
      assert WorkKept(s'.docs, s'.queues);
    }
  }

  /** Spoiling a check whose barrier is not awaited loses nothing. */
  lemma LookElsewhere(s: State, w: nat, stage: Stage)
    requires Knowledge(s) && Progressing(s) && w in s.crew.work && IsCheck(s.crew.work[w].task)
    requires s.docs.phase != CheckPhase(s.crew.work[w].task) || InputsLeft(s.docs, s.crew.work[w].task)
    ensures BarrierKept(s.docs, s.queues, Move(s.crew, w, stage))
  {
    var q, c, c' := s.queues, s.crew, Move(s.crew, w, stage);
    // A reduce check exists only past the map phase.
    if s.docs.phase.PhaseReduce? && s.docs.pointers == map[] {
      var t :| Awaited(q, c, t, ReduceCheck);
      assert Awaited(q, c', t, ReduceCheck);
    }
  }

  lemma FanServes(d: Docs, q: Queues, t: TaskID, parts: set<int>, id: PointerID)
    requires PointersOk(d) && id in d.pointers && forall p :: p in parts <==> HasData(d.accepted, p)
    ensures PartServed(Commit(q, t, Fan(q.next, parts)), d.pointers[id].partition)
  {
    var p := d.pointers[id].partition;
    assert Names(d.accepted, id, p);
    var q' := Commit(q, t, Fan(q.next, parts));
    var u := TaskID(q.next, p);
    assert u in Fan(q.next, parts);
    assert Held(q', u) && TaskAt(q', u) == ReduceTask(p);
  }

  lemma Someone(parts: set<int>) returns (p: int)
    requires parts != {}
    ensures p in parts
  {
    if forall q: int :: q !in parts {
      assert false;
    }
    p :| p in parts;
  }

  lemma FanProgress(s: State, w: nat)
    requires DocsOk(s.mapSplits, s.reduceParts, s.docs) && BarrierEnabled(s, w, FanOut)
    requires CheckOk(s.reduceParts, s.docs, s.sink, s.crew.work[w].task, s.crew.work[w].stage)
    ensures Progressing(BarrierDo(s, w, FanOut))
  {
    var k := s.crew.work[w];
    var s' := BarrierDo(s, w, FanOut);
    var p0 := Someone(k.stage.parts);
    var id0 :| Names(s.docs.accepted, id0, p0);
    assert id0 in s'.docs.pointers;
    forall id | id in s'.docs.pointers ensures PartServed(s'.queues, s'.docs.pointers[id].partition) {
      FanServes(s.docs, s.queues, k.id, k.stage.parts, id);
    }
  }

  lemma BarrierProgress(s: State, w: nat, act: BarrierAct)
    requires Knowledge(s) && Progressing(s) && BarrierEnabled(s, w, act)
    ensures Progressing(BarrierDo(s, w, act))
  {
    var s' := BarrierDo(s, w, act);
    match act
    case ListParts => LearnProgress(s, w, s'.crew.work[w].stage, s.docs);
    case FanOut =>
      assert WorkOk(s.mapSplits, s.reduceParts, s.docs, s.sink, s.crew.work[w]);
      FanProgress(s, w);
    case CallFinish => LearnProgress(s, w, s'.crew.work[w].stage, s.docs);
    case MarkDone => RetireProgress(s, w, Ending(s.queues.next), s'.docs);
    case FailFinish => RetireProgress(s, w, Ending(s.queues.next), s'.docs);
  }

  lemma ReducerProgress(s: State, w: nat, act: ReducerAct)
    requires Knowledge(s) && Progressing(s) && ReducerEnabled(s, w, act)
    ensures Progressing(ReducerDo(s, w, act))
  {
    var k := s.crew.work[w];
    var s' := ReducerDo(s, w, act);
    assert WorkOk(s.mapSplits, s.reduceParts, s.docs, s.sink, k);
    match act
    case ReadPointers(order) => LearnProgress(s, w, s'.crew.work[w].stage, s.docs);
    case StageOutput => LearnProgress(s, w, s'.crew.work[w].stage, s.docs);
    case RetireReducer => RetireProgress(s, w, map[], s.docs);
    case CommitAttempt =>
      var inserted := One(s.queues.next, ReduceDone(k.stage.attempt));
      assert ServesPart(inserted[TaskID(s.queues.next, 0)], k.task.partition);
      RetireProgress(s, w, inserted, s.docs);
  }

  lemma AttemptServes(s: State, w: nat, id: PointerID)
    requires PointersOk(s.docs) && QueuesOk(s.mapSplits, s.docs, s.queues) && ReduceDoneEnabled(s, w, AcceptAttempt)
    requires Agrees(s.queues, s.crew.work[w]) &&
             ReadOk(s.docs, s.crew.work[w].task.attempt.partition, s.crew.work[w].stage.ids)
    requires id in s.docs.pointers && id !in s.crew.work[w].stage.ids &&
             PartServed(s.queues, s.docs.pointers[id].partition)
    requires s.crew.work[w].stage.ids != {}
    ensures PartServed(ReduceDoneDo(s, w, AcceptAttempt).queues, s.docs.pointers[id].partition)
  {
    var k := s.crew.work[w];
    var q, q' := s.queues, ReduceDoneDo(s, w, AcceptAttempt).queues;
    var p := s.docs.pointers[id].partition;
    assert Names(s.docs.accepted, id, p);
    assert p != k.task.attempt.partition;
    var u :| Held(q, u) && ServesPart(TaskAt(q, u), p);
    assert u != k.id;
    assert Held(q', u) && TaskAt(q', u) == TaskAt(q, u);
  }

  /** The last acceptance of the reduce phase queues the check that ends it. */
  lemma AttemptProgress(s: State, w: nat)
    requires Knowledge(s) && Progressing(s) && ReduceDoneEnabled(s, w, AcceptAttempt)
    ensures Progressing(ReduceDoneDo(s, w, AcceptAttempt))
  {
    var k := s.crew.work[w];
    var s' := ReduceDoneDo(s, w, AcceptAttempt);
    assert WorkOk(s.mapSplits, s.reduceParts, s.docs, s.sink, k);
    assert s.docs.fanned != {};
    AttemptAwaited(s, w);
    forall id | id in s'.docs.pointers && s.docs.phase.PhaseReduce?
      ensures PartServed(s'.queues, s'.docs.pointers[id].partition)
    {
      AttemptServes(s, w, id);
    }
  }

  lemma AttemptAwaited(s: State, w: nat)
    requires Knowledge(s) && ReduceDoneEnabled(s, w, AcceptAttempt)
    ensures var s' := ReduceDoneDo(s, w, AcceptAttempt);
            Awaited(s'.queues, s'.crew, TaskID(s.queues.next, 0), ReduceCheck)
  {
  }

  lemma ReduceDoneProgress(s: State, w: nat, act: ReduceDoneAct)
    requires Knowledge(s) && Progressing(s) && ReduceDoneEnabled(s, w, act)
    ensures Progressing(ReduceDoneDo(s, w, act))
  {
    var k := s.crew.work[w];
    if act.AcceptAttempt? {
      AttemptProgress(s, w);
    } else if act.DiscardAttempt? {
      assert WorkOk(s.mapSplits, s.reduceParts, s.docs, s.sink, k);
      RetireProgress(s, w, Collecting(s.queues.next, k.task.attempt.runs), s.docs);
    } else {
      LearnProgress(s, w, ReduceDoneDo(s, w, act).crew.work[w].stage, s.docs);
    }
  }

  lemma CollectProgress(s: State, w: nat, act: CollectAct)
    requires Knowledge(s) && Progressing(s) && CollectEnabled(s, w, act)
    ensures Progressing(CollectDo(s, w, act))
  {
    if act.RetireCollector? {
      RetireProgress(s, w, map[], s.docs);
    }
  }

  lemma ErrsAwait(s: State, w: nat, q': Queues)
    requires Knowledge(s) && w in s.crew.work && s.crew.work[w].id in s.queues.errs
    requires !IsCheck(s.crew.work[w].task)
    requires q'.tasks == s.queues.tasks && q'.errs == s.queues.errs - {s.crew.work[w].id}
    ensures AwaitsKept(s.queues, s.crew, q', Leave(s.crew, w))
  {
  }

  lemma ErrsServe(s: State, w: nat, q': Queues)
    requires Knowledge(s) && w in s.crew.work && s.crew.work[w].id in s.queues.errs
    requires UnitHandled(s.docs, s.crew.work[w].task, map[])
    requires q'.tasks == s.queues.tasks && q'.errs == s.queues.errs - {s.crew.work[w].id}
    ensures ServesKept(s.docs, s.queues, q')
  {
    var q, t := s.queues, s.crew.work[w].id;
    forall sp | sp in s.docs.splits && SplitServed(q, sp) ensures SplitServed(q', sp) {
      var u :| Held(q, u) && ServesSplit(TaskAt(q, u), sp);
      assert u != t;
      assert Held(q', u) && TaskAt(q', u) == TaskAt(q, u);
    }
    forall id | id in s.docs.pointers && PartServed(q, s.docs.pointers[id].partition)
      ensures PartServed(q', s.docs.pointers[id].partition)
    {
      var u :| Held(q, u) && ServesPart(TaskAt(q, u), s.docs.pointers[id].partition);
      assert u != t;
      assert Held(q', u) && TaskAt(q', u) == TaskAt(q, u);
    }
  }

  lemma ErrorProgress(s: State, w: nat, act: ErrorAct)
    requires Knowledge(s) && Progressing(s) && ErrorEnabled(s, w, act)
    ensures Progressing(ErrorDo(s, w, act))
  {
    var k := s.crew.work[w];
    var s' := ErrorDo(s, w, act);
    assert WorkOk(s.mapSplits, s.reduceParts, s.docs, s.sink, k);
    match act
    case HoldForError => ErrorLooks(s, w, s'.crew.work[w].stage, s'.docs);
    case Judge => ErrorLooks(s, w, s'.crew.work[w].stage, s'.docs);
    case RetireLoser =>
      ErrsAwait(s, w, s'.queues);
      ErrsServe(s, w, s'.queues);
      KeptProgress(s.docs, s'.docs, s.queues, s.crew, s'.queues, s'.crew);
    case Condemn =>
      if !s'.docs.phase.Terminal() {
        assert k.task.Collect?;
        ErrsAwait(s, w, s'.queues);
        ErrsServe(s, w, s'.queues);
      }
      KeptProgress(s.docs, s'.docs, s.queues, s.crew, s'.queues, s'.crew);
  }

  /** What the error worker does on a quarantined task spoils no queued one. */
  lemma ErrorLooks(s: State, w: nat, stage: Stage, d': Docs)
    requires Knowledge(s) && Progressing(s) && w in s.crew.work && SameUnits(s.docs, d')
    requires s.crew.work[w].id in s.queues.errs
    ensures BarrierKept(d', s.queues, Move(s.crew, w, stage)) && WorkKept(d', s.queues)
  {
    var c' := Move(s.crew, w, stage);
    assert AwaitsKept(s.queues, s.crew, s.queues, c');
    ServedStill(s.docs, s.queues, s.queues);
    KeptProgress(s.docs, d', s.queues, s.crew, s.queues, c');
  }

  lemma QuarantineAwaits(q: Queues, c: Crew, q': Queues, w: nat)
    requires w in c.work && c.work[w].id in q.tasks && c.work[w].id !in q.errs
    requires q'.tasks == q.tasks - {c.work[w].id} && q'.errs == q.errs[c.work[w].id := q.tasks[c.work[w].id]]
    ensures AwaitsKept(q, c, q', Leave(c, w))
  {
  }

  lemma QuarantineProgress(s: State, w: nat)
    requires Knowledge(s) && Progressing(s) && Enabled(s, Quarantine(w))
    ensures Progressing(Do(s, Quarantine(w)))
  {
    var s' := Do(s, Quarantine(w));
    QuarantineAwaits(s.queues, s.crew, s'.queues, w);
    ServedStill(s.docs, s.queues, s'.queues);
    KeptProgress(s.docs, s'.docs, s.queues, s.crew, s'.queues, s'.crew);
  }

  lemma BeginProgress(s: State, t: TaskID)
    requires Knowledge(s) && Progressing(s) && Enabled(s, Begin(t))
    ensures Progressing(Do(s, Begin(t)))
  {
    var s' := Do(s, Begin(t));
    assert AwaitsKept(s.queues, s.crew, s.queues, s'.crew);
    ServedStill(s.docs, s.queues, s.queues);
    KeptProgress(s.docs, s.docs, s.queues, s.crew, s.queues, s'.crew);
  }

  lemma InsertProgress(s: State, task: Task)
    requires Knowledge(s) && Progressing(s)
    ensures Progressing(s.(queues := Insert(s.queues, One(s.queues.next, task))))
  {
    var q' := Insert(s.queues, One(s.queues.next, task));
    InsertAwaits(s.mapSplits, s.docs, s.queues, s.crew, One(s.queues.next, task));
    KeptProgress(s.docs, s.docs, s.queues, s.crew, q', s.crew);
  }

  lemma CrashProgress(s: State, w: nat)
    requires Progressing(s)
    ensures Progressing(s.(crew := Leave(s.crew, w)))
  {
    LeaveAwaits(s.queues, s.crew, w);
    ServedStill(s.docs, s.queues, s.queues);
    KeptProgress(s.docs, s.docs, s.queues, s.crew, s.queues, Leave(s.crew, w));
  }

  lemma StepProgress(s: State, step: Step)
    requires Knowledge(s) && Progressing(s) && Enabled(s, step)
    ensures Progressing(Do(s, step))
  {
    match step
    case Begin(t) => BeginProgress(s, t);
    case Crash(w) => CrashProgress(s, w);
    case DuplicateMap(split) => InsertProgress(s, MapTask(split));
    case DuplicateReduce(p) => InsertProgress(s, ReduceTask(p));
    case Quarantine(w) => QuarantineProgress(s, w);
    case FailNow =>
    case Mapper(w, act) => MapperProgress(s, w, act);
    case AcceptMap(w, act) => MapDoneProgress(s, w, act);
    case Look(w, act) => LookProgress(s, w, act);
    case Barrier(w, act) => BarrierProgress(s, w, act);
    case Reducer(w, act) => ReducerProgress(s, w, act);
    case AcceptReduce(w, act) => ReduceDoneProgress(s, w, act);
    case Collector(w, act) => CollectProgress(s, w, act);
    case ErrorWorker(w, act) => ErrorProgress(s, w, act);
  }
}
