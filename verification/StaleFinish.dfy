/** A run in which Finish is told the wrong thing: a map check loses its claim on
    the state doc after its second look, and lists the pointers only once the
    reducers have consumed them. */
module StaleFinish {
  import opened RunProtocol
  import opened RunInvariants
  import opened RunTheorems

  const RUN := Run(0, 0)
  const FIRST_RUN := PointerID(0, 0)
  const FINISH := Finish(0, [RUN])
  const ATTEMPT := Attempt(0, 0, [FIRST_RUN], [RUN])
  const CHECK := TaskID(2, 0)

  /** R holds of whatever a step reaches from where it holds. */
  ghost predicate Closed(R: State -> bool)
  {
    forall s, step :: R(s) && Enabled(s, step) ==> R(Do(s, step))
  }

  lemma Go(R: State -> bool, s: State, step: Step, s': State)
    requires Closed(R) && R(s) && Enabled(s, step) && Do(s, step) == s'
    ensures R(s')
  {
  }

  // ---------------------------------------------------------------- small crews and queues

  /** Worker w at stage, next to the others. */
  function With(others: map<nat, Work>, w: nat, t: TaskID, task: Task, stage: Stage): Crew
  {
    Crew(others[w := Work(t, task, stage)], w + 1)
  }

  lemma Moves(others: map<nat, Work>, w: nat, t: TaskID, task: Task, a: Stage, b: Stage)
    requires w !in others
    ensures Move(With(others, w, t, task, a), w, b) == With(others, w, t, task, b)
    ensures Leave(With(others, w, t, task, a), w) == Crew(others, w + 1)
  {
    assert With(others, w, t, task, a).work - {w} == others;
  }

  function Single(t: TaskID, task: Task): Queues
  {
    Queues(map[t := task], map[], t.number + 1)
  }

  lemma Replaces(t: TaskID, task: Task, task': Task)
    ensures Commit(Single(t, task), t, One(t.number + 1, task')) == Single(TaskID(t.number + 1, 0), task')
  {
  }

  // ---------------------------------------------------------------- mapping

  /** One split and one partition, before the split's acceptance. */
  function Mapping(q: Queues, store: Store, crew: Crew): State
  {
    State(1, 1, Docs(PhaseMap, 0, {0}, map[], {}, map[], {}), store, Sink({}, map[], {}, 0), q, crew)
  }

  lemma Wrote(R: State -> bool)
    requires Closed(R) && R(Initial(1, 1))
    ensures R(Mapping(Single(TaskID(0, 0), MapTask(0)), Store({0}, map[0 := InFlight(0)], 1),
                      With(map[], 0, TaskID(0, 0), MapTask(0), Writing([RUN]))))
  {
    var t, task := TaskID(0, 0), MapTask(0);
    var q, none := Single(t, task), Store({}, map[], 0);
    assert Initial(1, 1).docs.splits == {0};
    assert Initial(1, 1).queues == q;
    Go(R, Initial(1, 1), Begin(t), Mapping(q, none, With(map[], 0, t, task, Started)));
    Moves(map[], 0, t, task, Started, Writing([]));
    Go(R, Mapping(q, none, With(map[], 0, t, task, Started)), Mapper(0, ReadSplit),
       Mapping(q, none, With(map[], 0, t, task, Writing([]))));
    Moves(map[], 0, t, task, Writing([]), Writing([RUN]));
    assert [] + [RUN] == [RUN];
    Go(R, Mapping(q, none, With(map[], 0, t, task, Writing([]))), Mapper(0, WriteRun(0)),
       Mapping(q, Store({0}, map[0 := InFlight(0)], 1), With(map[], 0, t, task, Writing([RUN]))));
  }

  lemma Finished(R: State -> bool)
    requires Closed(R) && R(Initial(1, 1))
    ensures R(Mapping(Single(TaskID(1, 0), MapDone(FINISH)), Store({0}, map[0 := Queued(TaskID(1, 0))], 1),
                      With(map[], 1, TaskID(1, 0), MapDone(FINISH), Took(true))))
  {
    var t, task := TaskID(0, 0), MapTask(0);
    var t', task' := TaskID(1, 0), MapDone(FINISH);
    Wrote(R);
    Replaces(t, task, task');
    Moves(map[], 0, t, task, Writing([RUN]), Started);
    OneID();
    var st' := Store({0}, map[0 := Queued(t')], 1);
    assert Owned(Store({0}, map[0 := InFlight(0)], 1), [RUN], Queued(t')) == st';
    Go(R, Mapping(Single(t, task), Store({0}, map[0 := InFlight(0)], 1), With(map[], 0, t, task, Writing([RUN]))),
       Mapper(0, CommitFinish),
       Mapping(Single(t', task'), st', Crew(map[], 1)));
    Go(R, Mapping(Single(t', task'), st', Crew(map[], 1)), Begin(t'),
       Mapping(Single(t', task'), st', With(map[], 1, t', task', Started)));
    Moves(map[], 1, t', task', Started, Took(true));
    Go(R, Mapping(Single(t', task'), st', With(map[], 1, t', task', Started)), AcceptMap(1, TakeSplit),
       Mapping(Single(t', task'), st', With(map[], 1, t', task', Took(true))));
  }

  lemma OneID()
    ensures IDs([RUN]) == {0}
  {
    assert [RUN][0].id in IDs([RUN]);
  }

  // ---------------------------------------------------------------- the two checks

  function Pointing(version: nat): Docs
  {
    Docs(PhaseMap, version, {}, map[FIRST_RUN := RUN], {}, map[0 := FINISH], {})
  }

  const STORE := Store({0}, map[0 := Published(0)], 1)

  /** The split accepted, and its check queued. */
  function Checking(version: nat, crew: Crew): State
  {
    State(1, 1, Pointing(version), STORE, Sink({}, map[], {}, 0), Single(CHECK, MapCheck), crew)
  }

  lemma Accepts(R: State -> bool)
    requires Closed(R) && R(Initial(1, 1))
    ensures R(Checking(0, Crew(map[], 2)))
  {
    var t, task := TaskID(1, 0), MapDone(FINISH);
    var st := Store({0}, map[0 := Queued(t)], 1);
    Finished(R);
    Moves(map[], 1, t, task, Took(true), Informed(true, PhaseMap));
    Go(R, Mapping(Single(t, task), st, With(map[], 1, t, task, Took(true))), AcceptMap(1, ReadMapPhase),
       Mapping(Single(t, task), st, With(map[], 1, t, task, Informed(true, PhaseMap))));
    Moves(map[], 1, t, task, Informed(true, PhaseMap), Started);
    Replaces(t, task, MapCheck);
    OneID();
    assert Owned(st, [RUN], Published(0)) == STORE;
    assert Accepted(Docs(PhaseMap, 0, {0}, map[], {}, map[], {}), FINISH) == Pointing(0) by {
      assert NewPointers(FINISH) == map[FIRST_RUN := RUN];
    }
    Go(R, Mapping(Single(t, task), st, With(map[], 1, t, task, Informed(true, PhaseMap))), AcceptMap(1, AcceptFinish),
       Checking(0, Crew(map[], 2)));
  }

  /** The check that will lose its claim. */
  const STALE := map[2 := Work(CHECK, MapCheck, NoneLeft(1))]

  lemma StaleLooks(R: State -> bool)
    requires Closed(R) && R(Initial(1, 1))
    ensures R(Checking(1, Crew(STALE, 3)))
  {
    Accepts(R);
    Go(R, Checking(0, Crew(map[], 2)), Begin(CHECK), Checking(0, With(map[], 2, CHECK, MapCheck, Started)));
    Moves(map[], 2, CHECK, MapCheck, Started, Holding(1, PhaseMap));
    Go(R, Checking(0, With(map[], 2, CHECK, MapCheck, Started)), Look(2, HoldState),
       Checking(1, With(map[], 2, CHECK, MapCheck, Holding(1, PhaseMap))));
    Moves(map[], 2, CHECK, MapCheck, Holding(1, PhaseMap), NoneLeft(1));
    Go(R, Checking(1, With(map[], 2, CHECK, MapCheck, Holding(1, PhaseMap))), Look(2, LookAgain),
       Checking(1, With(map[], 2, CHECK, MapCheck, NoneLeft(1))));
  }

  lemma OtherLooks(R: State -> bool)
    requires Closed(R) && R(Initial(1, 1))
    ensures R(Checking(2, With(STALE, 3, CHECK, MapCheck, NoneLeft(2))))
  {
    StaleLooks(R);
    Go(R, Checking(1, Crew(STALE, 3)), Begin(CHECK), Checking(1, With(STALE, 3, CHECK, MapCheck, Started)));
    Moves(STALE, 3, CHECK, MapCheck, Started, Holding(2, PhaseMap));
    Go(R, Checking(1, With(STALE, 3, CHECK, MapCheck, Started)), Look(3, HoldState),
       Checking(2, With(STALE, 3, CHECK, MapCheck, Holding(2, PhaseMap))));
    Moves(STALE, 3, CHECK, MapCheck, Holding(2, PhaseMap), NoneLeft(2));
    Go(R, Checking(2, With(STALE, 3, CHECK, MapCheck, Holding(2, PhaseMap))), Look(3, LookAgain),
       Checking(2, With(STALE, 3, CHECK, MapCheck, NoneLeft(2))));
  }

  // ---------------------------------------------------------------- reducing

  function Reducing(d: Docs, sink: Sink, q: Queues, crew: Crew): State
  {
    State(1, 1, d, STORE, sink, q, crew)
  }

  const FANNED := Docs(PhaseReduce, 3, {}, map[FIRST_RUN := RUN], {}, map[0 := FINISH], {0})
  const STAGED := Sink({ATTEMPT}, map[], {}, 1)
  const COMMITTED := Sink({ATTEMPT}, map[0 := ATTEMPT], {}, 1)
  const REDUCE := TaskID(3, 0)
  const DONE := TaskID(4, 0)

  lemma Fans(R: State -> bool)
    requires Closed(R) && R(Initial(1, 1))
    ensures R(Reducing(FANNED, Sink({}, map[], {}, 0), Single(REDUCE, ReduceTask(0)), Crew(STALE, 4)))
  {
    OtherLooks(R);
    assert PartsOf(map[FIRST_RUN := RUN]) == {0} by {
      assert map[FIRST_RUN := RUN][FIRST_RUN].partition in PartsOf(map[FIRST_RUN := RUN]);
    }
    Moves(STALE, 3, CHECK, MapCheck, NoneLeft(2), Listed(2, {0}, true));
    Go(R, Checking(2, With(STALE, 3, CHECK, MapCheck, NoneLeft(2))), Barrier(3, ListParts),
       Checking(2, With(STALE, 3, CHECK, MapCheck, Listed(2, {0}, true))));
    Moves(STALE, 3, CHECK, MapCheck, Listed(2, {0}, true), Started);
    assert Fan(3, {0}) == One(3, ReduceTask(0));
    Replaces(CHECK, MapCheck, ReduceTask(0));
    Go(R, Checking(2, With(STALE, 3, CHECK, MapCheck, Listed(2, {0}, true))), Barrier(3, FanOut),
       Reducing(FANNED, Sink({}, map[], {}, 0), Single(REDUCE, ReduceTask(0)), Crew(STALE, 4)));
  }

  lemma Reads(R: State -> bool)
    requires Closed(R) && R(Initial(1, 1))
    ensures R(Reducing(FANNED, Sink({}, map[], {}, 0), Single(REDUCE, ReduceTask(0)),
                       With(STALE, 4, REDUCE, ReduceTask(0), HasRead([FIRST_RUN], [RUN]))))
  {
    var sink, q, task := Sink({}, map[], {}, 0), Single(REDUCE, ReduceTask(0)), ReduceTask(0);
    Fans(R);
    Go(R, Reducing(FANNED, sink, q, Crew(STALE, 4)), Begin(REDUCE),
       Reducing(FANNED, sink, q, With(STALE, 4, REDUCE, task, Started)));
    Moves(STALE, 4, REDUCE, task, Started, HasRead([FIRST_RUN], [RUN]));
    assert PointersOf(FANNED.pointers, 0) == {FIRST_RUN};
    assert Contents(FANNED.pointers, [FIRST_RUN]) == [RUN];
    Go(R, Reducing(FANNED, sink, q, With(STALE, 4, REDUCE, task, Started)), Reducer(4, ReadPointers([FIRST_RUN])),
       Reducing(FANNED, sink, q, With(STALE, 4, REDUCE, task, HasRead([FIRST_RUN], [RUN]))));
  }

  lemma Stages(R: State -> bool)
    requires Closed(R) && R(Initial(1, 1))
    ensures R(Reducing(FANNED, STAGED, Single(DONE, ReduceDone(ATTEMPT)), Crew(STALE, 5)))
  {
    var sink, q, task := Sink({}, map[], {}, 0), Single(REDUCE, ReduceTask(0)), ReduceTask(0);
    Reads(R);
    Moves(STALE, 4, REDUCE, task, HasRead([FIRST_RUN], [RUN]), Staged(ATTEMPT));
    OneID();
    assert {} + {ATTEMPT} == {ATTEMPT};
    Go(R, Reducing(FANNED, sink, q, With(STALE, 4, REDUCE, task, HasRead([FIRST_RUN], [RUN]))), Reducer(4, StageOutput),
       Reducing(FANNED, STAGED, q, With(STALE, 4, REDUCE, task, Staged(ATTEMPT))));
    Moves(STALE, 4, REDUCE, task, Staged(ATTEMPT), Started);
    Replaces(REDUCE, task, ReduceDone(ATTEMPT));
    Go(R, Reducing(FANNED, STAGED, q, With(STALE, 4, REDUCE, task, Staged(ATTEMPT))), Reducer(4, CommitAttempt),
       Reducing(FANNED, STAGED, Single(DONE, ReduceDone(ATTEMPT)), Crew(STALE, 5)));
  }

  lemma Finds(R: State -> bool)
    requires Closed(R) && R(Initial(1, 1))
    ensures R(Reducing(FANNED, STAGED, Single(DONE, ReduceDone(ATTEMPT)),
                       With(STALE, 5, DONE, ReduceDone(ATTEMPT), Informed(false, PhaseReduce))))
  {
    var q, task := Single(DONE, ReduceDone(ATTEMPT)), ReduceDone(ATTEMPT);
    Stages(R);
    Go(R, Reducing(FANNED, STAGED, q, Crew(STALE, 5)), Begin(DONE),
       Reducing(FANNED, STAGED, q, With(STALE, 5, DONE, task, Started)));
    Moves(STALE, 5, DONE, task, Started, Took(false));
    Go(R, Reducing(FANNED, STAGED, q, With(STALE, 5, DONE, task, Started)), AcceptReduce(5, TakeMarker),
       Reducing(FANNED, STAGED, q, With(STALE, 5, DONE, task, Took(false))));
    Moves(STALE, 5, DONE, task, Took(false), Informed(false, PhaseReduce));
    Go(R, Reducing(FANNED, STAGED, q, With(STALE, 5, DONE, task, Took(false))), AcceptReduce(5, ReadReducePhase),
       Reducing(FANNED, STAGED, q, With(STALE, 5, DONE, task, Informed(false, PhaseReduce))));
  }

  lemma Commits(R: State -> bool)
    requires Closed(R) && R(Initial(1, 1))
    ensures R(Reducing(FANNED, COMMITTED, Single(DONE, ReduceDone(ATTEMPT)),
                       With(STALE, 5, DONE, ReduceDone(ATTEMPT), SinkCommitted({FIRST_RUN}))))
  {
    var q, task := Single(DONE, ReduceDone(ATTEMPT)), ReduceDone(ATTEMPT);
    Finds(R);
    assert PointersOf(FANNED.pointers, 0) == {FIRST_RUN};
    Moves(STALE, 5, DONE, task, Informed(false, PhaseReduce), Found({FIRST_RUN}));
    Go(R, Reducing(FANNED, STAGED, q, With(STALE, 5, DONE, task, Informed(false, PhaseReduce))),
       AcceptReduce(5, FindPointers),
       Reducing(FANNED, STAGED, q, With(STALE, 5, DONE, task, Found({FIRST_RUN}))));
    Moves(STALE, 5, DONE, task, Found({FIRST_RUN}), SinkCommitted({FIRST_RUN}));
    Go(R, Reducing(FANNED, STAGED, q, With(STALE, 5, DONE, task, Found({FIRST_RUN}))), AcceptReduce(5, CommitSink),
       Reducing(FANNED, COMMITTED, q, With(STALE, 5, DONE, task, SinkCommitted({FIRST_RUN}))));
  }

  // ---------------------------------------------------------------- the stale list

  const CONSUMED := Docs(PhaseReduce, 3, {}, map[], {0}, map[0 := FINISH], {0})

  function After(stage: Stage): State
  {
    Reducing(CONSUMED, COMMITTED,
             Queues(map[TaskID(5, 0) := ReduceCheck, TaskID(5, 1) := Collect([RUN], false)], map[], 6),
             Crew(map[2 := Work(CHECK, MapCheck, stage)], 6))
  }

  lemma ConsumedDocs()
    ensures Commit(Single(DONE, ReduceDone(ATTEMPT)), DONE, One(5, ReduceCheck) + Collecting(5, [RUN])) ==
            After(NoneLeft(1)).queues
    ensures FANNED.(pointers := FANNED.pointers - {FIRST_RUN}, markers := FANNED.markers + {0}) == CONSUMED
  {
  }

  lemma Consumes(R: State -> bool)
    requires Closed(R) && R(Initial(1, 1))
    ensures R(After(NoneLeft(1)))
  {
    var q, task := Single(DONE, ReduceDone(ATTEMPT)), ReduceDone(ATTEMPT);
    Commits(R);
    Moves(STALE, 5, DONE, task, SinkCommitted({FIRST_RUN}), Started);
    ConsumedDocs();
    Go(R, Reducing(FANNED, COMMITTED, q, With(STALE, 5, DONE, task, SinkCommitted({FIRST_RUN}))),
       AcceptReduce(5, AcceptAttempt), After(NoneLeft(1)));
  }

  lemma Lists(R: State -> bool)
    requires Closed(R) && R(Initial(1, 1))
    ensures R(After(Listed(1, {}, false)))
  {
    Consumes(R);
    assert PartsOf(map[]) == {};
    assert Move(After(NoneLeft(1)).crew, 2, Listed(1, {}, false)) == After(Listed(1, {}, false)).crew;
    Go(R, After(NoneLeft(1)), Barrier(2, ListParts), After(Listed(1, {}, false)));
  }

  lemma AllReachable(R: State -> bool)
    requires forall s :: R(s) == Reachable(s)
    ensures Closed(R) && R(Initial(1, 1))
  {
    forall s, step | Reachable(s) && Enabled(s, step) ensures Reachable(Do(s, step)) {
      ReachableOn(s, step);
    }
    assert Runs(Initial(1, 1), [], Initial(1, 1));
  }

  /** Finish can be told that a partition with committed output has no data. */
  lemma FinishMisinformed()
    ensures exists s, w ::
              && Reachable(s) && BarrierEnabled(s, w, CallFinish)
              && AllPartitions(s.reduceParts) - s.crew.work[w].stage.parts != EmptyParts(s.docs.accepted, s.reduceParts)
  {
    AllReachable(s => Reachable(s));
    Lists(s => Reachable(s));
    var s := After(Listed(1, {}, false));
    assert Names(s.docs.accepted, FIRST_RUN, 0);
    assert 0 in AllPartitions(1) - {} && 0 !in EmptyParts(s.docs.accepted, 1);
    assert Reachable(s) && BarrierEnabled(s, 2, CallFinish);
  }

  // ---------------------------------------------------------------- and still the run is done

  const LAST := TaskID(5, 0)
  const WRONG := FinishCall({0}, false)
  const RIGHT := FinishCall({}, true)
  const LATE := map[2 := Work(CHECK, MapCheck, Listed(1, {}, false))]

  /** The reduce check is queued, and finishes have been made. */
  function Closing(version: nat, finishes: set<FinishCall>, crew: Crew): State
  {
    Reducing(CONSUMED.(version := version), COMMITTED.(finishes := finishes), After(NoneLeft(1)).queues, crew)
  }

  lemma LastLooks(R: State -> bool)
    requires Closed(R) && R(Initial(1, 1))
    ensures R(Closing(4, {}, With(LATE, 6, LAST, ReduceCheck, NoneLeft(4))))
  {
    Lists(R);
    assert After(Listed(1, {}, false)) == Closing(3, {}, Crew(LATE, 6));
    Go(R, Closing(3, {}, Crew(LATE, 6)), Begin(LAST), Closing(3, {}, With(LATE, 6, LAST, ReduceCheck, Started)));
    Moves(LATE, 6, LAST, ReduceCheck, Started, Holding(4, PhaseReduce));
    Go(R, Closing(3, {}, With(LATE, 6, LAST, ReduceCheck, Started)), Look(6, HoldState),
       Closing(4, {}, With(LATE, 6, LAST, ReduceCheck, Holding(4, PhaseReduce))));
    Moves(LATE, 6, LAST, ReduceCheck, Holding(4, PhaseReduce), NoneLeft(4));
    Go(R, Closing(4, {}, With(LATE, 6, LAST, ReduceCheck, Holding(4, PhaseReduce))), Look(6, LookAgain),
       Closing(4, {}, With(LATE, 6, LAST, ReduceCheck, NoneLeft(4))));
  }

  lemma LastFinishes(R: State -> bool)
    requires Closed(R) && R(Initial(1, 1))
    ensures R(Closing(4, {RIGHT}, With(LATE, 6, LAST, ReduceCheck, Finishing(4))))
  {
    LastLooks(R);
    Moves(LATE, 6, LAST, ReduceCheck, NoneLeft(4), Listed(4, {0}, true));
    Go(R, Closing(4, {}, With(LATE, 6, LAST, ReduceCheck, NoneLeft(4))), Barrier(6, ListParts),
       Closing(4, {}, With(LATE, 6, LAST, ReduceCheck, Listed(4, {0}, true))));
    Moves(LATE, 6, LAST, ReduceCheck, Listed(4, {0}, true), Finishing(4));
    assert AllPartitions(1) - {0} == {} && {} + {RIGHT} == {RIGHT};
    Go(R, Closing(4, {}, With(LATE, 6, LAST, ReduceCheck, Listed(4, {0}, true))), Barrier(6, CallFinish),
       Closing(4, {RIGHT}, With(LATE, 6, LAST, ReduceCheck, Finishing(4))));
  }

  /** The run is done, and the stale check has yet to call Finish, or has. */
  function Over(finishes: set<FinishCall>, stale: Stage): State
  {
    Reducing(CONSUMED.(phase := PhaseDone, version := 5), COMMITTED.(finishes := finishes),
             Queues(map[TaskID(5, 1) := Collect([RUN], false), TaskID(6, 1) := Collect([], true)], map[], 7),
             Crew(map[2 := Work(CHECK, MapCheck, stale)], 7))
  }

  lemma Ends(R: State -> bool)
    requires Closed(R) && R(Initial(1, 1))
    ensures R(Over({RIGHT}, Listed(1, {}, false)))
  {
    var over := Over({RIGHT}, Listed(1, {}, false));
    LastFinishes(R);
    Moves(LATE, 6, LAST, ReduceCheck, Finishing(4), Started);
    assert Commit(After(NoneLeft(1)).queues, LAST, Ending(6)) == over.queues;
    Go(R, Closing(4, {RIGHT}, With(LATE, 6, LAST, ReduceCheck, Finishing(4))), Barrier(6, MarkDone), over);
  }

  /** Partition 0 of s has data, and its output is committed. */
  ghost predicate HasOutput(s: State)
  {
    HasData(s.docs.accepted, 0) && 0 in s.sink.committed
  }

  lemma OverHasOutput(finishes: set<FinishCall>, stale: Stage)
    ensures HasOutput(Over(finishes, stale))
  {
    assert Names(Over(finishes, stale).docs.accepted, FIRST_RUN, 0);
  }

  /** The wrong call can come last: the run is done, Finish has been told the right
      thing, and a call that names a partition with committed output is still to come. */
  lemma DoneAndMisinformed()
    ensures exists s, w ::
              && Reachable(s) && s.docs.phase.PhaseDone? && FinishedWell(s.reduceParts, s.docs, s.sink) && HasOutput(s)
              && BarrierEnabled(s, w, CallFinish) && 0 in AllPartitions(s.reduceParts) - s.crew.work[w].stage.parts
  {
    var s := Over({RIGHT}, Listed(1, {}, false));
    AllReachable(s => Reachable(s));
    Ends(s => Reachable(s));
    OverHasOutput({RIGHT}, Listed(1, {}, false));
    assert EmptyParts(s.docs.accepted, s.reduceParts) == {};
    assert Reachable(s) && BarrierEnabled(s, 2, CallFinish);
  }

  lemma Tells(R: State -> bool)
    requires Closed(R) && R(Initial(1, 1))
    ensures R(Over({RIGHT, WRONG}, Finishing(1)))
  {
    var s, s' := Over({RIGHT}, Listed(1, {}, false)), Over({RIGHT, WRONG}, Finishing(1));
    Ends(R);
    assert AllPartitions(1) - {} == {0};
    assert {RIGHT} + {WRONG} == {RIGHT, WRONG};
    assert Move(s.crew, 2, Finishing(1)) == s'.crew;
    Go(R, s, Barrier(2, CallFinish), s');
  }

  /** So a done run may have told Finish two different things. */
  lemma FinishesDisagree()
    ensures exists s, c, c' ::
              && Reachable(s) && s.docs.phase.PhaseDone? && HasOutput(s)
              && c in s.sink.finishes && c' in s.sink.finishes && c.empty != c'.empty
  {
    var s := Over({RIGHT, WRONG}, Finishing(1));
    AllReachable(s => Reachable(s));
    Tells(s => Reachable(s));
    OverHasOutput({RIGHT, WRONG}, Finishing(1));
    assert RIGHT in s.sink.finishes && WRONG in s.sink.finishes && 0 in WRONG.empty && 0 !in RIGHT.empty;
  }
}
