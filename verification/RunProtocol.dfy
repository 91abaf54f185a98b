/**
The run protocol of an eqmr MapReduce: docs, stored runs, sink output and queues
that mappers, reducers and controller workers change one commit at a time. A step
is one commit, or one read or side effect made on the way to a commit, so that
anything may happen between a worker's look and its commit.

Any number of workers may be at work on one task, and any of them may stop for
good at any point. A commit needs its task still queued, its docs still present
and, where it writes the state doc, the state doc's version unchanged; nothing
else is assumed about claims.
*/
module RunProtocol {

  // ---------------------------------------------------------------- values

  /** The phases of a run, kept in its state doc. */
  datatype Phase = PhaseMap | PhaseReduce | PhaseDone | PhaseFailed {
    predicate Terminal() { PhaseDone? || PhaseFailed? }
  }

  /** One stored run: its ref in the intermediate store and its partition. */
  datatype Run = Run(id: nat, partition: int)

  /** A mapper's finish: the split it read and the runs it wrote. */
  datatype Finish = Finish(split: nat, runs: seq<Run>)

  /** A pointer doc, named by its keys: run `index` of split `split`. A split is
      accepted once, so the keys name one doc as well as its id does. */
  datatype PointerID = PointerID(split: nat, index: nat)

  /** A reducer's finish: its staged output, and the pointers and runs it read. */
  datatype Attempt = Attempt(staged: nat, partition: int, pointers: seq<PointerID>, runs: seq<Run>)

  datatype TaskID = TaskID(number: nat, part: int)

  datatype Task =
    | MapTask(split: nat)
    | ReduceTask(partition: int)
    | MapDone(finish: Finish)
    | ReduceDone(attempt: Attempt)
    | MapCheck
    | ReduceCheck
    | Collect(runs: seq<Run>, sweep: bool)

  /** How far one worker has come with its task. */
  datatype Stage =
    | Started
    // mapper
    | SplitMissing
    | Writing(written: seq<Run>)
    // acceptance: whether the claimed set held a doc, then the phase read
    | Took(found: bool)
    | Informed(found: bool, phase: Phase)
    | Found(ids: set<PointerID>)
    | SinkCommitted(ids: set<PointerID>)
    // reducer
    | HasRead(order: seq<PointerID>, runs: seq<Run>)
    | Staged(attempt: Attempt)
    // checks and the error worker: the unclaimed look, then the claimed one
    | LookedPhase(phase: Phase)
    | Looked(reached: bool)
    | Holding(version: nat, phase: Phase)
    | SomeLeft(version: nat)
    | NoneLeft(version: nat)
    | Listed(version: nat, parts: set<int>, fenced: bool)
    | Finishing(version: nat)
    | Judged(version: nat, phase: Phase, loser: bool)

  datatype Work = Work(id: TaskID, task: Task, stage: Stage)

  /** Who may still publish or delete a stored run. Recorded, never read. */
  datatype Owner = InFlight(worker: nat) | Queued(task: TaskID) | Published(split: nat) | Retired

  /** One call of the sink's Finish; fenced when its caller's claim on the state
      doc was still the last one as it listed the partitions. */
  datatype FinishCall = FinishCall(empty: set<int>, fenced: bool)

  // ---------------------------------------------------------------- state

  /** The run's docs. accepted and fanned are history: the finish accepted for
      each split, and the partitions the map barrier fanned out. */
  datatype Docs = Docs(
    phase: Phase, version: nat,
    splits: set<nat>, pointers: map<PointerID, Run>, markers: set<int>,
    accepted: map<nat, Finish>, fanned: set<int>)

  /** The intermediate store; owner is history. */
  datatype Store = Store(stored: set<nat>, owner: map<nat, Owner>, next: nat)

  /** The sink; finishes is history. */
  datatype Sink = Sink(staged: set<Attempt>, committed: map<int, Attempt>, finishes: set<FinishCall>, next: nat)

  /** The queues, and the error queues. */
  datatype Queues = Queues(tasks: map<TaskID, Task>, errs: map<TaskID, Task>, next: nat)

  datatype Crew = Crew(work: map<nat, Work>, next: nat)

  datatype State = State(mapSplits: nat, reduceParts: nat, docs: Docs, store: Store, sink: Sink, queues: Queues,
                         crew: Crew)

  function Naturals(n: nat): (r: set<nat>)
    ensures forall i: nat :: i in r <==> i < n
  {
    if n == 0 then {} else Naturals(n - 1) + {n - 1}
  }

  /** allPartitions: partitions 0 through n-1. */
  function AllPartitions(n: nat): (r: set<int>)
    ensures forall i :: i in r <==> 0 <= i < n
  {
    if n == 0 then {} else AllPartitions(n - 1) + {n - 1}
  }

  function MapTasks(n: nat): (r: map<TaskID, Task>)
    ensures forall t :: t in r ==> t.number == 0 && 0 <= t.part < n && r[t] == MapTask(t.part)
    ensures forall i: nat :: i < n ==> TaskID(0, i) in r
  {
    if n == 0 then map[] else MapTasks(n - 1)[TaskID(0, n - 1) := MapTask(n - 1)]
  }

  /** What Setup leaves: every split doc, the state doc, and one map task a split. */
  function Initial(mapSplits: nat, reduceParts: nat): State
  {
    State(mapSplits, reduceParts,
          Docs(PhaseMap, 0, Naturals(mapSplits), map[], {}, map[], {}),
          Store({}, map[], 0), Sink({}, map[], {}, 0),
          Queues(MapTasks(mapSplits), map[], 1), Crew(map[], 0))
  }

  // ---------------------------------------------------------------- reads

  /** The ids of partition p's pointer docs. */
  function PointersOf(pointers: map<PointerID, Run>, p: int): set<PointerID>
  {
    set id | id in pointers && pointers[id].partition == p
  }

  /** keyPartitions over the pointer docs. */
  function PartsOf(pointers: map<PointerID, Run>): set<int>
  {
    set id | id in pointers :: pointers[id].partition
  }

  /** order lists ids once each. */
  ghost predicate Enumerates(order: seq<PointerID>, ids: set<PointerID>)
  {
    && (forall i, j | 0 <= i < j < |order| :: order[i] != order[j])
    && (forall i | 0 <= i < |order| :: order[i] in ids)
    && (forall id | id in ids :: id in order)
  }

  /** samePointers on ids: as many, and each consumed one published. */
  predicate SamePointers(published: set<PointerID>, consumed: seq<PointerID>)
  {
    |published| == |consumed| && forall i | 0 <= i < |consumed| :: consumed[i] in published
  }

  predicate InRange(runs: seq<Run>, parts: nat)
  {
    forall i | 0 <= i < |runs| :: 0 <= runs[i].partition < parts
  }

  function IDs(runs: seq<Run>): set<nat>
  {
    set i | 0 <= i < |runs| :: runs[i].id
  }

  predicate IsCheck(task: Task) { task.MapCheck? || task.ReduceCheck? }

  /** The phase a check may end. */
  function CheckPhase(task: Task): Phase
  {
    if task.MapCheck? then PhaseMap else PhaseReduce
  }

  /** Whether a check finds an input of its phase. */
  predicate InputsLeft(d: Docs, task: Task)
  {
    if task.MapCheck? then d.splits != {} else d.pointers != map[]
  }

  /** isLoser: whether a quarantined task's unit is already complete. */
  predicate Loser(d: Docs, task: Task)
  {
    match task
    case MapTask(split) => split !in d.splits
    case ReduceTask(p) => p in d.markers
    case _ => false
  }

  // ---------------------------------------------------------------- commits

  /** Deletes task t and inserts others, all in one commit. */
  function Commit(q: Queues, t: TaskID, inserted: map<TaskID, Task>): Queues
  {
    Queues((q.tasks - {t}) + inserted, q.errs, q.next + 1)
  }

  function Insert(q: Queues, inserted: map<TaskID, Task>): Queues
  {
    Queues(q.tasks + inserted, q.errs, q.next + 1)
  }

  function One(next: nat, task: Task): map<TaskID, Task>
  {
    map[TaskID(next, 0) := task]
  }

  /** collecting: a gc task for runs, or nothing for no runs. */
  function Collecting(next: nat, runs: seq<Run>): map<TaskID, Task>
  {
    if runs == [] then map[] else map[TaskID(next, 1) := Collect(runs, false)]
  }

  /** ending: the sweep that every commit ending a run carries. */
  function Ending(next: nat): map<TaskID, Task>
  {
    map[TaskID(next, 1) := Collect([], true)]
  }

  function Owned(st: Store, runs: seq<Run>, owner: Owner): Store
  {
    st.(owner := st.owner + map id | id in IDs(runs) :: owner)
  }

  function NewPointers(f: Finish): (r: map<PointerID, Run>)
    ensures forall id :: id in r <==> id.split == f.split && id.index < |f.runs|
    ensures forall id :: id in r ==> r[id] == f.runs[id.index]
  {
    FirstPointers(f, |f.runs|)
  }

  function FirstPointers(f: Finish, n: nat): (r: map<PointerID, Run>)
    requires n <= |f.runs|
    ensures forall id :: id in r <==> id.split == f.split && id.index < n
    ensures forall id :: id in r ==> r[id] == f.runs[id.index]
  {
    if n == 0 then map[] else FirstPointers(f, n - 1)[PointerID(f.split, n - 1) := f.runs[n - 1]]
  }

  function Fan(next: nat, parts: set<int>): map<TaskID, Task>
  {
    map p | p in parts :: TaskID(next, p) := ReduceTask(p)
  }

  function Bump(d: Docs): Docs { d.(version := d.version + 1) }

  function InPhase(d: Docs, phase: Phase): Docs { d.(phase := phase, version := d.version + 1) }

  function Leave(c: Crew, w: nat): Crew { c.(work := c.work - {w}) }

  function Move(c: Crew, w: nat, stage: Stage): Crew
    requires w in c.work
  {
    c.(work := c.work[w := c.work[w].(stage := stage)])
  }

  // ---------------------------------------------------------------- steps

  datatype MapperAct = ReadSplit | WriteRun(partition: int) | CommitFinish | RetireMapper | Abort
  datatype MapDoneAct = TakeSplit | ReadMapPhase | AcceptFinish | DiscardFinish
  datatype LookAct = LookPhase | LookDocs | RetireCheck | HoldState | LookAgain | RetireHeld
  datatype BarrierAct = ListParts | FanOut | CallFinish | MarkDone | FailFinish
  datatype ReducerAct = ReadPointers(order: seq<PointerID>) | RetireReducer | StageOutput | CommitAttempt
  datatype ReduceDoneAct = TakeMarker | ReadReducePhase | FindPointers | DiscardAttempt | CommitSink | AcceptAttempt
  datatype CollectAct = CollectRun(i: nat) | SweepRun | RetireCollector
  datatype ErrorAct = HoldForError | Judge | RetireLoser | Condemn

  datatype Step =
    | Begin(t: TaskID)
    | Crash(w: nat)
    | DuplicateMap(split: nat)
    | DuplicateReduce(partition: int)
    | Quarantine(w: nat)
    | FailNow
    | Mapper(w: nat, mapper: MapperAct)
    | AcceptMap(w: nat, mapDone: MapDoneAct)
    | Look(w: nat, look: LookAct)
    | Barrier(w: nat, barrier: BarrierAct)
    | Reducer(w: nat, reducer: ReducerAct)
    | AcceptReduce(w: nat, reduceDone: ReduceDoneAct)
    | Collector(w: nat, collect: CollectAct)
    | ErrorWorker(w: nat, error: ErrorAct)

  /** workers.go: MapperWorker. */
  predicate MapperEnabled(s: State, w: nat, act: MapperAct)
  {
    && w in s.crew.work
    && var k := s.crew.work[w];
    && k.task.MapTask?
    && match act
       case ReadSplit => k.stage.Started?
       case WriteRun(_) => k.stage.Writing?
       case CommitFinish => k.stage.Writing? && k.id in s.queues.tasks
       case RetireMapper => k.stage.SplitMissing? && k.id in s.queues.tasks
       case Abort => k.stage.Writing?
  }

  function MapperDo(s: State, w: nat, act: MapperAct): State
    requires MapperEnabled(s, w, act)
  {
    var k := s.crew.work[w];
    match act
    case ReadSplit =>
      s.(crew := Move(s.crew, w, if k.task.split in s.docs.splits then Writing([]) else SplitMissing))
    case WriteRun(p) =>
      var id := s.store.next;
      s.(crew := Move(s.crew, w, Writing(k.stage.written + [Run(id, p)])),
         store := Store(s.store.stored + {id}, s.store.owner[id := InFlight(w)], id + 1))
    case CommitFinish =>
      var runs := k.stage.written;
      s.(crew := Leave(s.crew, w),
         queues := Commit(s.queues, k.id, One(s.queues.next, MapDone(Finish(k.task.split, runs)))),
         store := Owned(s.store, runs, Queued(TaskID(s.queues.next, 0))))
    case RetireMapper =>
      s.(crew := Leave(s.crew, w), queues := Commit(s.queues, k.id, map[]))
    case Abort =>
      var runs := k.stage.written;
      s.(crew := Leave(s.crew, w),
         store := Owned(s.store, runs, Retired).(stored := s.store.stored - IDs(runs)))
  }

  /** control.go: mapDoneWorker. */
  predicate MapDoneEnabled(s: State, w: nat, act: MapDoneAct)
  {
    && w in s.crew.work
    && var k := s.crew.work[w];
    && k.task.MapDone?
    && match act
       case TakeSplit => k.stage.Started?
       case ReadMapPhase => k.stage.Took?
       case AcceptFinish =>
         && k.stage.Informed? && k.stage.found && !k.stage.phase.Terminal()
         && InRange(k.task.finish.runs, s.reduceParts)
         && k.id in s.queues.tasks && k.task.finish.split in s.docs.splits
       case DiscardFinish =>
         && k.stage.Informed? && (!k.stage.found || k.stage.phase.Terminal())
         && k.id in s.queues.tasks
  }

  function MapDoneDo(s: State, w: nat, act: MapDoneAct): State
    requires MapDoneEnabled(s, w, act)
  {
    var k := s.crew.work[w];
    var f := k.task.finish;
    match act
    case TakeSplit => s.(crew := Move(s.crew, w, Took(f.split in s.docs.splits)))
    case ReadMapPhase => s.(crew := Move(s.crew, w, Informed(k.stage.found, s.docs.phase)))
    case AcceptFinish =>
      s.(crew := Leave(s.crew, w),
         queues := Commit(s.queues, k.id, One(s.queues.next, MapCheck)),
         docs := Accepted(s.docs, f),
         store := Owned(s.store, f.runs, Published(f.split)))
    case DiscardFinish =>
      s.(crew := Leave(s.crew, w),
         queues := Commit(s.queues, k.id, Collecting(s.queues.next, f.runs)),
         store := Owned(s.store, f.runs, Retired))
  }

  /** Deletes f's split and publishes its runs. */
  function Accepted(d: Docs, f: Finish): Docs
  {
    d.(splits := d.splits - {f.split}, pointers := d.pointers + NewPointers(f), accepted := d.accepted[f.split := f])
  }

  /** control.go: barrierWorker, up to the second look. */
  predicate LookEnabled(s: State, w: nat, act: LookAct)
  {
    && w in s.crew.work
    && var k := s.crew.work[w];
    && IsCheck(k.task)
    && match act
       case LookPhase => k.stage.Started?
       case LookDocs => k.stage.LookedPhase?
       case RetireCheck => k.stage.Looked? && !k.stage.reached && k.id in s.queues.tasks
       // A look that could not tell goes on to claim.
       case HoldState => k.stage.Started? || k.stage.LookedPhase? || (k.stage.Looked? && k.stage.reached)
       case LookAgain => k.stage.Holding?
       case RetireHeld => k.stage.SomeLeft? && k.stage.version == s.docs.version && k.id in s.queues.tasks
  }

  function LookDo(s: State, w: nat, act: LookAct): State
    requires LookEnabled(s, w, act)
  {
    var k := s.crew.work[w];
    match act
    case LookPhase => s.(crew := Move(s.crew, w, LookedPhase(s.docs.phase)))
    case LookDocs =>
      s.(crew := Move(s.crew, w, Looked(k.stage.phase == CheckPhase(k.task) && !InputsLeft(s.docs, k.task))))
    case RetireCheck => s.(crew := Leave(s.crew, w), queues := Commit(s.queues, k.id, map[]))
    case HoldState =>
      s.(crew := Move(s.crew, w, Holding(s.docs.version + 1, s.docs.phase)), docs := Bump(s.docs))
    case LookAgain =>
      var v := k.stage.version;
      s.(crew := Move(s.crew, w,
                      if k.stage.phase != CheckPhase(k.task) || InputsLeft(s.docs, k.task) then SomeLeft(v)
                      else NoneLeft(v)))
    case RetireHeld =>
      s.(crew := Leave(s.crew, w), queues := Commit(s.queues, k.id, map[]), docs := Bump(s.docs))
  }

  /** control.go: what mapCheckWorker and reduceCheckWorker do once nothing is left. */
  predicate BarrierEnabled(s: State, w: nat, act: BarrierAct)
  {
    && w in s.crew.work
    && var k := s.crew.work[w];
    && IsCheck(k.task)
    && match act
       case ListParts => k.stage.NoneLeft?
       case FanOut =>
         && k.task.MapCheck? && k.stage.Listed? && k.stage.parts != {}
         && k.stage.version == s.docs.version && k.id in s.queues.tasks
       case CallFinish => k.stage.Listed? && (k.task.MapCheck? ==> k.stage.parts == {})
       case MarkDone => k.stage.Finishing? && k.stage.version == s.docs.version && k.id in s.queues.tasks
       case FailFinish =>
         && (k.stage.Listed? || k.stage.Finishing?)
         && k.stage.version == s.docs.version && k.id in s.queues.tasks
  }

  function BarrierDo(s: State, w: nat, act: BarrierAct): State
    requires BarrierEnabled(s, w, act)
  {
    var k := s.crew.work[w];
    match act
    case ListParts =>
      var v := k.stage.version;
      var parts := if k.task.MapCheck? then PartsOf(s.docs.pointers) else s.docs.markers;
      s.(crew := Move(s.crew, w, Listed(v, parts, v == s.docs.version)))
    case FanOut =>
      s.(crew := Leave(s.crew, w),
         queues := Commit(s.queues, k.id, Fan(s.queues.next, k.stage.parts)),
         docs := InPhase(s.docs, PhaseReduce).(fanned := k.stage.parts))
    case CallFinish =>
      var empty := AllPartitions(s.reduceParts) - k.stage.parts;
      s.(crew := Move(s.crew, w, Finishing(k.stage.version)),
         sink := s.sink.(finishes := s.sink.finishes + {FinishCall(empty, k.stage.fenced)}))
    case MarkDone =>
      s.(crew := Leave(s.crew, w),
         queues := Commit(s.queues, k.id, Ending(s.queues.next)), docs := InPhase(s.docs, PhaseDone))
    case FailFinish =>
      s.(crew := Leave(s.crew, w),
         queues := Commit(s.queues, k.id, Ending(s.queues.next)), docs := InPhase(s.docs, PhaseFailed))
  }

  /** workers.go: ReducerWorker. */
  ghost predicate ReducerEnabled(s: State, w: nat, act: ReducerAct)
  {
    && w in s.crew.work
    && var k := s.crew.work[w];
    && k.task.ReduceTask?
    && match act
       case ReadPointers(order) => k.stage.Started? && Enumerates(order, PointersOf(s.docs.pointers, k.task.partition))
       case RetireReducer => k.stage.HasRead? && k.stage.order == [] && k.id in s.queues.tasks
       case StageOutput => k.stage.HasRead? && k.stage.order != [] && IDs(k.stage.runs) <= s.store.stored
       case CommitAttempt => k.stage.Staged? && k.id in s.queues.tasks
  }

  function Contents(pointers: map<PointerID, Run>, order: seq<PointerID>): (runs: seq<Run>)
    requires forall i | 0 <= i < |order| :: order[i] in pointers
    ensures |runs| == |order| && forall i | 0 <= i < |order| :: runs[i] == pointers[order[i]]
  {
    seq(|order|, i requires 0 <= i < |order| && order[i] in pointers => pointers[order[i]])
  }

  ghost function ReducerDo(s: State, w: nat, act: ReducerAct): State
    requires ReducerEnabled(s, w, act)
  {
    var k := s.crew.work[w];
    match act
    case ReadPointers(order) => s.(crew := Move(s.crew, w, HasRead(order, Contents(s.docs.pointers, order))))
    case RetireReducer => s.(crew := Leave(s.crew, w), queues := Commit(s.queues, k.id, map[]))
    case StageOutput =>
      var a := Attempt(s.sink.next, k.task.partition, k.stage.order, k.stage.runs);
      s.(crew := Move(s.crew, w, Staged(a)),
         sink := s.sink.(staged := s.sink.staged + {a}, next := s.sink.next + 1))
    case CommitAttempt =>
      s.(crew := Leave(s.crew, w),
         queues := Commit(s.queues, k.id, One(s.queues.next, ReduceDone(k.stage.attempt))))
  }

  /** control.go: reduceDoneWorker. */
  predicate ReduceDoneEnabled(s: State, w: nat, act: ReduceDoneAct)
  {
    && w in s.crew.work
    && var k := s.crew.work[w];
    && k.task.ReduceDone?
    && var a := k.task.attempt;
    && match act
       case TakeMarker => k.stage.Started?
       case ReadReducePhase => k.stage.Took?
       case FindPointers => k.stage.Informed? && !k.stage.found && !k.stage.phase.Terminal()
       case DiscardAttempt =>
         && (|| (k.stage.Informed? && (k.stage.found || k.stage.phase.Terminal()))
             || (k.stage.Found? && k.stage.ids == {}))
         && k.id in s.queues.tasks
       case CommitSink =>
         && k.stage.Found? && k.stage.ids != {} && SamePointers(k.stage.ids, a.pointers)
         && (a.partition in s.sink.committed || a in s.sink.staged)
       case AcceptAttempt =>
         && k.stage.SinkCommitted? && k.stage.ids <= s.docs.pointers.Keys
         && a.partition !in s.docs.markers && k.id in s.queues.tasks
  }

  function ReduceDoneDo(s: State, w: nat, act: ReduceDoneAct): State
    requires ReduceDoneEnabled(s, w, act)
  {
    var k := s.crew.work[w];
    var a := k.task.attempt;
    match act
    case TakeMarker => s.(crew := Move(s.crew, w, Took(a.partition in s.docs.markers)))
    case ReadReducePhase => s.(crew := Move(s.crew, w, Informed(k.stage.found, s.docs.phase)))
    case FindPointers => s.(crew := Move(s.crew, w, Found(PointersOf(s.docs.pointers, a.partition))))
    case DiscardAttempt =>
      s.(crew := Leave(s.crew, w), queues := Commit(s.queues, k.id, Collecting(s.queues.next, a.runs)))
    case CommitSink =>
      s.(crew := Move(s.crew, w, SinkCommitted(k.stage.ids)),
         sink := if a.partition in s.sink.committed then s.sink
                 else s.sink.(committed := s.sink.committed[a.partition := a]))
    case AcceptAttempt =>
      s.(crew := Leave(s.crew, w),
         queues := Commit(s.queues, k.id, One(s.queues.next, ReduceCheck) + Collecting(s.queues.next, a.runs)),
         docs := s.docs.(pointers := s.docs.pointers - k.stage.ids, markers := s.docs.markers + {a.partition}))
  }

  /** control.go: gcWorker. */
  predicate CollectEnabled(s: State, w: nat, act: CollectAct)
  {
    && w in s.crew.work
    && var k := s.crew.work[w];
    && k.task.Collect?
    && match act
       case CollectRun(i) => i < |k.task.runs|
       case SweepRun => k.task.sweep
       case RetireCollector => k.id in s.queues.tasks
  }

  function CollectDo(s: State, w: nat, act: CollectAct): State
    requires CollectEnabled(s, w, act)
  {
    var k := s.crew.work[w];
    match act
    case CollectRun(i) => s.(store := s.store.(stored := s.store.stored - {k.task.runs[i].id}))
    case SweepRun =>
      s.(store := s.store.(stored := {}),
         sink := s.sink.(staged := set a | a in s.sink.staged && a in s.sink.committed.Values))
    case RetireCollector => s.(crew := Leave(s.crew, w), queues := Commit(s.queues, k.id, map[]))
  }

  /** control.go: errWorker. */
  predicate ErrorEnabled(s: State, w: nat, act: ErrorAct)
  {
    && w in s.crew.work
    && var k := s.crew.work[w];
    && k.id in s.queues.errs
    && match act
       case HoldForError => k.stage.Started?
       case Judge => k.stage.Holding?
       case RetireLoser => k.stage.Judged? && k.stage.loser && k.stage.version == s.docs.version
       case Condemn => k.stage.Judged? && !k.stage.loser && k.stage.version == s.docs.version
  }

  function ErrorDo(s: State, w: nat, act: ErrorAct): State
    requires ErrorEnabled(s, w, act)
  {
    var k := s.crew.work[w];
    match act
    case HoldForError =>
      s.(crew := Move(s.crew, w, Holding(s.docs.version + 1, s.docs.phase)), docs := Bump(s.docs))
    case Judge =>
      s.(crew := Move(s.crew, w, Judged(k.stage.version, k.stage.phase, Loser(s.docs, k.task))))
    case RetireLoser =>
      s.(crew := Leave(s.crew, w), queues := s.queues.(errs := s.queues.errs - {k.id}), docs := Bump(s.docs))
    case Condemn =>
      var q := s.queues.(errs := s.queues.errs - {k.id});
      if k.task.Collect? || k.stage.phase.Terminal() then
        s.(crew := Leave(s.crew, w), queues := q, docs := Bump(s.docs))
      else
        s.(crew := Leave(s.crew, w), queues := Insert(q, Ending(q.next)), docs := InPhase(s.docs, PhaseFailed))
  }

  ghost predicate Enabled(s: State, step: Step)
  {
    match step
    case Begin(t) => t in s.queues.tasks || t in s.queues.errs
    case Crash(w) => w in s.crew.work
    // A map or reduce task that was ever inserted may be inserted again.
    case DuplicateMap(split) => split < s.mapSplits
    case DuplicateReduce(p) => p in s.docs.fanned
    // A worker gives its task up for good: a move, or its last retry or claim.
    case Quarantine(w) => w in s.crew.work && s.crew.work[w].id in s.queues.tasks
    // failNow, from outside any worker.
    case FailNow => !s.docs.phase.Terminal()
    case Mapper(w, act) => MapperEnabled(s, w, act)
    case AcceptMap(w, act) => MapDoneEnabled(s, w, act)
    case Look(w, act) => LookEnabled(s, w, act)
    case Barrier(w, act) => BarrierEnabled(s, w, act)
    case Reducer(w, act) => ReducerEnabled(s, w, act)
    case AcceptReduce(w, act) => ReduceDoneEnabled(s, w, act)
    case Collector(w, act) => CollectEnabled(s, w, act)
    case ErrorWorker(w, act) => ErrorEnabled(s, w, act)
  }

  ghost function Do(s: State, step: Step): State
    requires Enabled(s, step)
  {
    match step
    case Begin(t) =>
      var task := if t in s.queues.tasks then s.queues.tasks[t] else s.queues.errs[t];
      s.(crew := Crew(s.crew.work[s.crew.next := Work(t, task, Started)], s.crew.next + 1))
    case Crash(w) => s.(crew := Leave(s.crew, w))
    case DuplicateMap(split) => s.(queues := Insert(s.queues, One(s.queues.next, MapTask(split))))
    case DuplicateReduce(p) => s.(queues := Insert(s.queues, One(s.queues.next, ReduceTask(p))))
    case Quarantine(w) =>
      var t := s.crew.work[w].id;
      s.(crew := Leave(s.crew, w),
         queues := s.queues.(tasks := s.queues.tasks - {t}, errs := s.queues.errs[t := s.queues.tasks[t]]))
    case FailNow =>
      s.(docs := InPhase(s.docs, PhaseFailed), queues := Insert(s.queues, Ending(s.queues.next)))
    case Mapper(w, act) => MapperDo(s, w, act)
    case AcceptMap(w, act) => MapDoneDo(s, w, act)
    case Look(w, act) => LookDo(s, w, act)
    case Barrier(w, act) => BarrierDo(s, w, act)
    case Reducer(w, act) => ReducerDo(s, w, act)
    case AcceptReduce(w, act) => ReduceDoneDo(s, w, act)
    case Collector(w, act) => CollectDo(s, w, act)
    case ErrorWorker(w, act) => ErrorDo(s, w, act)
  }

  /** s' is where steps, each enabled in its turn, take s. */
  ghost predicate Runs(s: State, steps: seq<Step>, s': State)
    decreases |steps|
  {
    if steps == [] then s' == s
    else Enabled(s, steps[0]) && Runs(Do(s, steps[0]), steps[1..], s')
  }

  ghost predicate Reachable(s: State)
  {
    exists n: nat, r: nat, steps: seq<Step> :: 0 < n && 0 < r && Runs(Initial(n, r), steps, s)
  }
}
