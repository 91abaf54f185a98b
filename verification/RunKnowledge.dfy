/** Every step keeps the docs, queues, sink and workers consistent. */
module RunKnowledge {
  import opened RunProtocol
  import opened RunInvariants
  import opened RunDocs

  ghost predicate Known(n: nat, parts: nat, d: Docs, sink: Sink, q: Queues, c: Crew)
  {
    && DocsOk(n, parts, d)
    && QueuesOk(n, d, q)
    && CrewOk(n, parts, d, sink, c)
    && CrewAgrees(q, c)
    && SinkOk(parts, d, sink)
  }

  ghost predicate Knowledge(s: State)
  {
    Known(s.mapSplits, s.reduceParts, s.docs, s.sink, s.queues, s.crew)
  }

  // ---------------------------------------------------------------- the parts of a step

  lemma SinkStays(n: nat, parts: nat, d: Docs, d': Docs, sink: Sink)
    requires DocsOk(n, parts, d) && Later(d, d') && SinkOk(parts, d, sink)
    requires d'.markers <= sink.committed.Keys
    requires d'.phase.PhaseDone? ==> d.phase.PhaseDone? || (d.splits == {} && FinishedWell(parts, d, sink))
    ensures SinkOk(parts, d', sink)
  {
    forall p | p in sink.committed ensures GoodAttempt(d', sink.committed[p]) {
      GoodLater(n, parts, d, d', sink.committed[p]);
    }
    if sink.finishes != {} {
      var c :| c in sink.finishes;
      assert d.splits == {};
      assert d'.accepted == d.accepted;
    }
  }

  /** A worker moves on, having learned what its new stage says. */
  lemma MoveKeeps(n: nat, parts: nat, d: Docs, sink: Sink, q: Queues, c: Crew, w: nat, stage: Stage)
    requires Known(n, parts, d, sink, q, c) && w in c.work
    requires WorkOk(n, parts, d, sink, c.work[w].(stage := stage))
    ensures Known(n, parts, d, sink, q, Move(c, w, stage))
  {
  }

  lemma LeaveKeeps(n: nat, parts: nat, d: Docs, sink: Sink, q: Queues, c: Crew, w: nat)
    requires Known(n, parts, d, sink, q, c)
    ensures Known(n, parts, d, sink, q, Leave(c, w))
  {
  }

  ghost predicate MayBecome(n: nat, parts: nat, d: Docs, sink: Sink, d': Docs)
  {
    && DocsOk(n, parts, d') && Later(d, d')
    && d'.markers <= sink.committed.Keys
    && (d'.phase.PhaseDone? ==> d.phase.PhaseDone? || (d.splits == {} && FinishedWell(parts, d, sink)))
  }

  /** The docs move on under everybody. */
  lemma DocsKeep(n: nat, parts: nat, d: Docs, sink: Sink, q: Queues, c: Crew, d': Docs)
    requires Known(n, parts, d, sink, q, c) && MayBecome(n, parts, d, sink, d')
    ensures Known(n, parts, d', sink, q, c)
  {
    QueuesLater(n, parts, d, d', q);
    CrewLater(n, parts, d, d', sink, sink, c);
    SinkStays(n, parts, d, d', sink);
  }

  ghost predicate MayInsert(n: nat, d: Docs, next: nat, inserted: map<TaskID, Task>)
  {
    forall x | x in inserted :: x.number == next && TaskOk(n, d, inserted[x])
  }

  lemma QueuesKeep(n: nat, parts: nat, d: Docs, sink: Sink, q: Queues, c: Crew, t: TaskID, inserted: map<TaskID, Task>)
    requires Known(n, parts, d, sink, q, c) && MayInsert(n, d, q.next, inserted)
    ensures Known(n, parts, d, sink, Commit(q, t, inserted), c)
    ensures Known(n, parts, d, sink, Insert(q, inserted), c)
  {
  }

  lemma SinkKeeps(n: nat, parts: nat, d: Docs, sink: Sink, q: Queues, c: Crew, sink': Sink)
    requires Known(n, parts, d, sink, q, c) && SinkLater(sink, sink') && SinkOk(parts, d, sink')
    ensures Known(n, parts, d, sink', q, c)
  {
    assert Later(d, d);
    CrewLater(n, parts, d, d, sink, sink', c);
  }

  /** One commit: w's task goes, others come, the docs move on, and w is done. */
  lemma CommitKeeps(n: nat, parts: nat, d: Docs, sink: Sink, q: Queues, c: Crew, w: nat, t: TaskID, d': Docs,
                    inserted: map<TaskID, Task>)
    requires Known(n, parts, d, sink, q, c) && MayBecome(n, parts, d, sink, d') && MayInsert(n, d', q.next, inserted)
    ensures Known(n, parts, d', sink, Commit(q, t, inserted), Leave(c, w))
  {
    DocsKeep(n, parts, d, sink, q, c, d');
    QueuesKeep(n, parts, d', sink, q, c, t, inserted);
    LeaveKeeps(n, parts, d', sink, Commit(q, t, inserted), c, w);
  }

  // ---------------------------------------------------------------- each role

  /** A commit that leaves the docs as they are. */
  lemma RetireKeeps(s: State, w: nat, inserted: map<TaskID, Task>)
    requires Knowledge(s) && w in s.crew.work && MayInsert(s.mapSplits, s.docs, s.queues.next, inserted)
    ensures Known(s.mapSplits, s.reduceParts, s.docs, s.sink, Commit(s.queues, s.crew.work[w].id, inserted),
                  Leave(s.crew, w))
  {
    QueuesKeep(s.mapSplits, s.reduceParts, s.docs, s.sink, s.queues, s.crew, s.crew.work[w].id, inserted);
    LeaveKeeps(s.mapSplits, s.reduceParts, s.docs, s.sink, Commit(s.queues, s.crew.work[w].id, inserted), s.crew, w);
  }

  lemma LearnKeeps(s: State, w: nat, stage: Stage)
    requires Knowledge(s) && w in s.crew.work
    requires WorkOk(s.mapSplits, s.reduceParts, s.docs, s.sink, s.crew.work[w].(stage := stage))
    ensures Known(s.mapSplits, s.reduceParts, s.docs, s.sink, s.queues, Move(s.crew, w, stage))
  {
    MoveKeeps(s.mapSplits, s.reduceParts, s.docs, s.sink, s.queues, s.crew, w, stage);
  }

  lemma MapperKnows(s: State, w: nat, act: MapperAct)
    requires Knowledge(s) && MapperEnabled(s, w, act)
    ensures Knowledge(MapperDo(s, w, act))
  {
    var k := s.crew.work[w];
    match act
    case ReadSplit => LearnKeeps(s, w, if k.task.split in s.docs.splits then Writing([]) else SplitMissing);
    case WriteRun(p) => LearnKeeps(s, w, Writing(k.stage.written + [Run(s.store.next, p)]));
    case CommitFinish => RetireKeeps(s, w, One(s.queues.next, MapDone(Finish(k.task.split, k.stage.written))));
    case RetireMapper => RetireKeeps(s, w, map[]);
    case Abort => LeaveKeeps(s.mapSplits, s.reduceParts, s.docs, s.sink, s.queues, s.crew, w);
  }

  lemma MapDoneKnows(s: State, w: nat, act: MapDoneAct)
    requires Knowledge(s) && MapDoneEnabled(s, w, act)
    ensures Knowledge(MapDoneDo(s, w, act))
  {
    var k := s.crew.work[w];
    var f := k.task.finish;
    match act
    case TakeSplit => LearnKeeps(s, w, Took(f.split in s.docs.splits));
    case ReadMapPhase => LearnKeeps(s, w, Informed(k.stage.found, s.docs.phase));
    case AcceptFinish => FinishKnows(s, w);
    case DiscardFinish => RetireKeeps(s, w, Collecting(s.queues.next, f.runs));
  }

  lemma FinishKnows(s: State, w: nat)
    requires Knowledge(s) && MapDoneEnabled(s, w, AcceptFinish)
    ensures Knowledge(MapDoneDo(s, w, AcceptFinish))
  {
    var k := s.crew.work[w];
    var d' := Accepted(s.docs, k.task.finish);
    AcceptKeeps(s.mapSplits, s.reduceParts, s.docs, k.task.finish);
    CommitKeeps(s.mapSplits, s.reduceParts, s.docs, s.sink, s.queues, s.crew, w, k.id, d',
                One(s.queues.next, MapCheck));
  }

  /** A claim on the state doc, which moves its version. */
  lemma HoldKnows(s: State, w: nat)
    requires Knowledge(s) && w in s.crew.work
    requires s.crew.work[w].stage.Started? || s.crew.work[w].stage.LookedPhase? || s.crew.work[w].stage.Looked?
    ensures Known(s.mapSplits, s.reduceParts, Bump(s.docs), s.sink, s.queues,
                  Move(s.crew, w, Holding(s.docs.version + 1, s.docs.phase)))
  {
    var d' := Bump(s.docs);
    BumpKeeps(s.mapSplits, s.reduceParts, s.docs);
    DocsKeep(s.mapSplits, s.reduceParts, s.docs, s.sink, s.queues, s.crew, d');
    MoveKeeps(s.mapSplits, s.reduceParts, d', s.sink, s.queues, s.crew, w, Holding(d'.version, d'.phase));
  }

  lemma LookAgainKnows(s: State, w: nat)
    requires Knowledge(s) && LookEnabled(s, w, LookAgain)
    ensures Knowledge(LookDo(s, w, LookAgain))
  {
    var k := s.crew.work[w];
    var left := k.stage.phase != CheckPhase(k.task) || InputsLeft(s.docs, k.task);
    LearnKeeps(s, w, if left then SomeLeft(k.stage.version) else NoneLeft(k.stage.version));
  }

  lemma LookKnows(s: State, w: nat, act: LookAct)
    requires Knowledge(s) && LookEnabled(s, w, act)
    ensures Knowledge(LookDo(s, w, act))
  {
    var k := s.crew.work[w];
    match act
    case LookPhase => LearnKeeps(s, w, LookedPhase(s.docs.phase));
    case LookDocs =>
      LearnKeeps(s, w, Looked(k.stage.phase == CheckPhase(k.task) && !InputsLeft(s.docs, k.task)));
    case RetireCheck => RetireKeeps(s, w, map[]);
    case HoldState => HoldKnows(s, w);
    case LookAgain => LookAgainKnows(s, w);
    case RetireHeld =>
      BumpKeeps(s.mapSplits, s.reduceParts, s.docs);
      CommitKeeps(s.mapSplits, s.reduceParts, s.docs, s.sink, s.queues, s.crew, w, k.id, Bump(s.docs), map[]);
  }

  /** With the reduce phase's pointers gone, the markers are the partitions with data. */
  lemma MarkersHaveData(n: nat, parts: nat, d: Docs)
    requires DocsOk(n, parts, d) && d.fanned != {} && d.pointers == map[]
    ensures forall p :: p in d.markers <==> HasData(d.accepted, p)
  {
    forall p | HasData(d.accepted, p) ensures p in d.markers {
      var id :| Names(d.accepted, id, p);
    }
  }

  lemma NoParts(pointers: map<PointerID, Run>)
    ensures PartsOf(pointers) == {} ==> pointers == map[]
  {
    forall id | id in pointers ensures pointers[id].partition in PartsOf(pointers) {
    }
  }

  lemma ListKnows(s: State, w: nat)
    requires Knowledge(s) && BarrierEnabled(s, w, ListParts)
    ensures Knowledge(BarrierDo(s, w, ListParts))
  {
    var k := s.crew.work[w];
    var v := k.stage.version;
    if k.task.MapCheck? {
      if v == s.docs.version {
        PartsHaveData(s.docs);
      }
      NoParts(s.docs.pointers);
      LearnKeeps(s, w, Listed(v, PartsOf(s.docs.pointers), v == s.docs.version));
    } else {
      MarkersHaveData(s.mapSplits, s.reduceParts, s.docs);
      LearnKeeps(s, w, Listed(v, s.docs.markers, v == s.docs.version));
    }
  }

  lemma NoPointers(d: Docs)
    requires PointersOk(d) && forall p :: !HasData(d.accepted, p)
    ensures d.pointers == map[]
  {
    forall id | id in d.pointers ensures false {
      assert HasData(d.accepted, d.pointers[id].partition);
    }
  }

  /** A fenced call of Finish names exactly the partitions without data. */
  lemma CallKnows(s: State, w: nat)
    requires Knowledge(s) && BarrierEnabled(s, w, CallFinish)
    ensures Knowledge(BarrierDo(s, w, CallFinish))
  {
    var l := s.crew.work[w].stage;
    var call := FinishCall(AllPartitions(s.reduceParts) - l.parts, l.fenced);
    var sink' := s.sink.(finishes := s.sink.finishes + {call});
    if l.fenced {
      assert call.empty == EmptyParts(s.docs.accepted, s.reduceParts);
      if s.crew.work[w].task.MapCheck? {
        NoPointers(s.docs);
      }
    }
    SinkKeeps(s.mapSplits, s.reduceParts, s.docs, s.sink, s.queues, s.crew, sink');
    MoveKeeps(s.mapSplits, s.reduceParts, s.docs, sink', s.queues, s.crew, w, Finishing(l.version));
  }

  lemma EndKnows(s: State, w: nat, ph: Phase)
    requires Knowledge(s) && w in s.crew.work
    requires MayBecome(s.mapSplits, s.reduceParts, s.docs, s.sink, InPhase(s.docs, ph)) && ph.Terminal()
    ensures Known(s.mapSplits, s.reduceParts, InPhase(s.docs, ph), s.sink,
                  Commit(s.queues, s.crew.work[w].id, Ending(s.queues.next)), Leave(s.crew, w))
  {
    CommitKeeps(s.mapSplits, s.reduceParts, s.docs, s.sink, s.queues, s.crew, w, s.crew.work[w].id,
                InPhase(s.docs, ph), Ending(s.queues.next));
  }

  lemma BarrierKnows(s: State, w: nat, act: BarrierAct)
    requires Knowledge(s) && BarrierEnabled(s, w, act)
    ensures Knowledge(BarrierDo(s, w, act))
  {
    var k := s.crew.work[w];
    match act
    case ListParts => ListKnows(s, w);
    case FanOut =>
      var d' := InPhase(s.docs, PhaseReduce).(fanned := k.stage.parts);
      FanKeeps(s.mapSplits, s.reduceParts, s.docs, k.stage.parts);
      CommitKeeps(s.mapSplits, s.reduceParts, s.docs, s.sink, s.queues, s.crew, w, k.id, d',
                  Fan(s.queues.next, k.stage.parts));
    case CallFinish => CallKnows(s, w);
    case MarkDone =>
      DoneKeeps(s.mapSplits, s.reduceParts, s.docs);
      EndKnows(s, w, PhaseDone);
    case FailFinish =>
      FailKeeps(s.mapSplits, s.reduceParts, s.docs);
      EndKnows(s, w, PhaseFailed);
  }

  lemma ReadKnows(s: State, w: nat, order: seq<PointerID>)
    requires Knowledge(s) && ReducerEnabled(s, w, ReadPointers(order))
    ensures Knowledge(ReducerDo(s, w, ReadPointers(order)))
  {
    var p := s.crew.work[w].task.partition;
    ReadIsComplete(s.mapSplits, s.reduceParts, s.docs, p);
    if order == [] {
      assert PointersOf(s.docs.pointers, p) == {};
    } else {
      assert order[0] in PointersOf(s.docs.pointers, p);
    }
    LearnKeeps(s, w, HasRead(order, Contents(s.docs.pointers, order)));
  }

  lemma ReducerKnows(s: State, w: nat, act: ReducerAct)
    requires Knowledge(s) && ReducerEnabled(s, w, act)
    ensures Knowledge(ReducerDo(s, w, act))
  {
    var k := s.crew.work[w];
    match act
    case ReadPointers(order) => ReadKnows(s, w, order);
    case RetireReducer => RetireKeeps(s, w, map[]);
    case StageOutput =>
      var a := Attempt(s.sink.next, k.task.partition, k.stage.order, k.stage.runs);
      var sink' := s.sink.(staged := s.sink.staged + {a}, next := s.sink.next + 1);
      SinkKeeps(s.mapSplits, s.reduceParts, s.docs, s.sink, s.queues, s.crew, sink');
      MoveKeeps(s.mapSplits, s.reduceParts, s.docs, sink', s.queues, s.crew, w, Staged(a));
    case CommitAttempt => RetireKeeps(s, w, One(s.queues.next, ReduceDone(k.stage.attempt)));
  }

  lemma SinkCommitKnows(s: State, w: nat)
    requires Knowledge(s) && ReduceDoneEnabled(s, w, CommitSink)
    ensures Knowledge(ReduceDoneDo(s, w, CommitSink))
  {
    var k := s.crew.work[w];
    var a := k.task.attempt;
    var sink' := if a.partition in s.sink.committed then s.sink
    else s.sink.(committed := s.sink.committed[a.partition := a]);
    SinkKeeps(s.mapSplits, s.reduceParts, s.docs, s.sink, s.queues, s.crew, sink');
    MoveKeeps(s.mapSplits, s.reduceParts, s.docs, sink', s.queues, s.crew, w, SinkCommitted(k.stage.ids));
  }

  lemma ConsumeMay(n: nat, parts: nat, d: Docs, sink: Sink, a: Attempt, ids: set<PointerID>, next: nat)
    requires DocsOk(n, parts, d) && SinkOk(parts, d, sink) && GoodAttempt(d, a)
    requires ReduceDoneOk(d, sink, a, SinkCommitted(ids))
    ensures var d' := d.(pointers := d.pointers - ids, markers := d.markers + {a.partition});
            && MayBecome(n, parts, d, sink, d')
            && MayInsert(n, d', next, One(next, ReduceCheck) + Collecting(next, a.runs))
  {
    ConsumeKeeps(n, parts, d, a.partition, ids);
  }

  lemma AttemptKnows(s: State, w: nat)
    requires Knowledge(s) && ReduceDoneEnabled(s, w, AcceptAttempt)
    ensures Knowledge(ReduceDoneDo(s, w, AcceptAttempt))
  {
    var k := s.crew.work[w];
    var a := k.task.attempt;
    var d' := s.docs.(pointers := s.docs.pointers - k.stage.ids, markers := s.docs.markers + {a.partition});
    assert WorkOk(s.mapSplits, s.reduceParts, s.docs, s.sink, k);
    ConsumeMay(s.mapSplits, s.reduceParts, s.docs, s.sink, a, k.stage.ids, s.queues.next);
    CommitKeeps(s.mapSplits, s.reduceParts, s.docs, s.sink, s.queues, s.crew, w, k.id, d',
                One(s.queues.next, ReduceCheck) + Collecting(s.queues.next, a.runs));
  }

  lemma ReduceDoneKnows(s: State, w: nat, act: ReduceDoneAct)
    requires Knowledge(s) && ReduceDoneEnabled(s, w, act)
    ensures Knowledge(ReduceDoneDo(s, w, act))
  {
    var k := s.crew.work[w];
    var a := k.task.attempt;
    match act
    case TakeMarker => LearnKeeps(s, w, Took(a.partition in s.docs.markers));
    case ReadReducePhase => LearnKeeps(s, w, Informed(k.stage.found, s.docs.phase));
    case FindPointers =>
      ReadIsComplete(s.mapSplits, s.reduceParts, s.docs, a.partition);
      LearnKeeps(s, w, Found(PointersOf(s.docs.pointers, a.partition)));
    case DiscardAttempt => RetireKeeps(s, w, Collecting(s.queues.next, a.runs));
    case CommitSink => SinkCommitKnows(s, w);
    case AcceptAttempt => AttemptKnows(s, w);
  }

  lemma CollectKnows(s: State, w: nat, act: CollectAct)
    requires Knowledge(s) && CollectEnabled(s, w, act)
    ensures Knowledge(CollectDo(s, w, act))
  {
    match act
    case CollectRun(i) =>
    case SweepRun =>
      var sink' := s.sink.(staged := set a | a in s.sink.staged && a in s.sink.committed.Values);
      forall p | p in s.sink.committed ensures s.sink.committed[p] in sink'.staged {
        assert s.sink.committed[p] in s.sink.committed.Values;
      }
      SinkKeeps(s.mapSplits, s.reduceParts, s.docs, s.sink, s.queues, s.crew, sink');
    case RetireCollector => RetireKeeps(s, w, map[]);
  }

  lemma ErrorQueueKeeps(n: nat, parts: nat, d: Docs, sink: Sink, q: Queues, c: Crew, t: TaskID)
    requires Known(n, parts, d, sink, q, c)
    ensures Known(n, parts, d, sink, q.(errs := q.errs - {t}), c)
    ensures t in q.tasks ==> Known(n, parts, d, sink, q.(tasks := q.tasks - {t}, errs := q.errs[t := q.tasks[t]]), c)
  {
  }

  lemma CondemnKnows(s: State, w: nat)
    requires Knowledge(s) && ErrorEnabled(s, w, Condemn)
    ensures Knowledge(ErrorDo(s, w, Condemn))
  {
    var k := s.crew.work[w];
    var n, parts, d := s.mapSplits, s.reduceParts, s.docs;
    var q := s.queues.(errs := s.queues.errs - {k.id});
    LeaveKeeps(n, parts, d, s.sink, s.queues, s.crew, w);
    ErrorQueueKeeps(n, parts, d, s.sink, s.queues, Leave(s.crew, w), k.id);
    if k.task.Collect? || k.stage.phase.Terminal() {
      BumpKeeps(n, parts, d);
      DocsKeep(n, parts, d, s.sink, q, Leave(s.crew, w), Bump(d));
    } else {
      FailKeeps(n, parts, d);
      DocsKeep(n, parts, d, s.sink, q, Leave(s.crew, w), InPhase(d, PhaseFailed));
      QueuesKeep(n, parts, InPhase(d, PhaseFailed), s.sink, q, Leave(s.crew, w), k.id, Ending(q.next));
    }
  }

  lemma LoserKnows(s: State, w: nat)
    requires Knowledge(s) && ErrorEnabled(s, w, RetireLoser)
    ensures Knowledge(ErrorDo(s, w, RetireLoser))
  {
    var n, parts, t := s.mapSplits, s.reduceParts, s.crew.work[w].id;
    BumpKeeps(n, parts, s.docs);
    LeaveKeeps(n, parts, s.docs, s.sink, s.queues, s.crew, w);
    ErrorQueueKeeps(n, parts, s.docs, s.sink, s.queues, Leave(s.crew, w), t);
    DocsKeep(n, parts, s.docs, s.sink, s.queues.(errs := s.queues.errs - {t}), Leave(s.crew, w), Bump(s.docs));
  }

  lemma ErrorKnows(s: State, w: nat, act: ErrorAct)
    requires Knowledge(s) && ErrorEnabled(s, w, act)
    ensures Knowledge(ErrorDo(s, w, act))
  {
    var k := s.crew.work[w];
    match act
    case HoldForError => HoldKnows(s, w);
    case Judge =>
      LearnKeeps(s, w, Judged(k.stage.version, k.stage.phase, Loser(s.docs, k.task)));
    case RetireLoser => LoserKnows(s, w);
    case Condemn => CondemnKnows(s, w);
  }

  lemma BeginKnows(s: State, t: TaskID)
    requires Knowledge(s) && Enabled(s, Begin(t))
    ensures Knowledge(Do(s, Begin(t)))
  {
  }

  lemma FailNowKnows(s: State)
    requires Knowledge(s) && Enabled(s, FailNow)
    ensures Knowledge(Do(s, FailNow))
  {
    var d' := InPhase(s.docs, PhaseFailed);
    FailKeeps(s.mapSplits, s.reduceParts, s.docs);
    DocsKeep(s.mapSplits, s.reduceParts, s.docs, s.sink, s.queues, s.crew, d');
    QueuesKeep(s.mapSplits, s.reduceParts, d', s.sink, s.queues, s.crew, TaskID(0, 0), Ending(s.queues.next));
  }

  lemma StepKnows(s: State, step: Step)
    requires Knowledge(s) && Enabled(s, step)
    ensures Knowledge(Do(s, step))
  {
    var n, parts, d, sink, q := s.mapSplits, s.reduceParts, s.docs, s.sink, s.queues;
    match step
    case Begin(t) => BeginKnows(s, t);
    case Crash(w) => LeaveKeeps(n, parts, d, sink, q, s.crew, w);
    case DuplicateMap(split) => QueuesKeep(n, parts, d, sink, q, s.crew, TaskID(0, 0), One(q.next, MapTask(split)));
    case DuplicateReduce(p) => QueuesKeep(n, parts, d, sink, q, s.crew, TaskID(0, 0), One(q.next, ReduceTask(p)));
    case Quarantine(w) =>
      LeaveKeeps(n, parts, d, sink, q, s.crew, w);
      ErrorQueueKeeps(n, parts, d, sink, q, Leave(s.crew, w), s.crew.work[w].id);
    case FailNow => FailNowKnows(s);
    case Mapper(w, act) => MapperKnows(s, w, act);
    case AcceptMap(w, act) => MapDoneKnows(s, w, act);
    case Look(w, act) => LookKnows(s, w, act);
    case Barrier(w, act) => BarrierKnows(s, w, act);
    case Reducer(w, act) => ReducerKnows(s, w, act);
    case AcceptReduce(w, act) => ReduceDoneKnows(s, w, act);
    case Collector(w, act) => CollectKnows(s, w, act);
    case ErrorWorker(w, act) => ErrorKnows(s, w, act);
  }
}
