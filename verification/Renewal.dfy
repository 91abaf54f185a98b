/** A worker's hold on its task and doc sets while the work runs: renewed in the
    background, and handed over once, to the commit that ends the work. */
module Renewal {
  import opened Outcomes
  import opened Versions

  // ---------------------------------------------------------------- what an answer leaves held

  /** A claimed task and the sets claimed with it. */
  datatype Held = Held(id: string, version: int, sets: seq<DocSet>)

  /** A set as a renewal answers with it. */
  datatype Lock = Lock(name: SetKey, version: int)

  /** The last lock of each name. */
  function LockMap(locks: seq<Lock>): map<SetKey, int>
  {
    if locks == [] then map[]
    else
      var last := locks[|locks| - 1];
      LockMap(locks[..|locks| - 1])[last.name := last.version]
  }

  /** out is h at what the answer says of it: the same sets and docs, in order. */
  predicate HeldAnew(h: Held, task: int, locks: map<SetKey, int>, out: Held)
  {
    && out.id == h.id && out.version == task && |out.sets| == |h.sets|
    && forall i | 0 <= i < |h.sets| ::
         h.sets[i].name in locks && out.sets[i] == h.sets[i].(version := locks[h.sets[i].name])
  }

  /** held.renewed and relocked: the answer must name the task, and it alone, and
      every set held. */
  method Renew(h: Held, tasks: seq<TaskOp>, locks: seq<Lock>) returns (r: Outcome<Held>)
    ensures r.Ok? <==>
            |tasks| == 1 && tasks[0].id == h.id && forall i | 0 <= i < |h.sets| :: h.sets[i].name in LockMap(locks)
    ensures r.Ok? ==> HeldAnew(h, tasks[0].version, LockMap(locks), r.value)
  {
    if |tasks| != 1 || tasks[0].id != h.id {
      return Failed;
    }
    var found: map<SetKey, int> := map[];
    for i := 0 to |locks|
      invariant found == LockMap(locks[..i])
    {
      assert locks[..i + 1][..i] == locks[..i];
      found := found[locks[i].name := locks[i].version];
    }
    assert locks[..|locks|] == locks;
    var sets: seq<DocSet> := [];
    for i := 0 to |h.sets|
      invariant |sets| == i && forall k | 0 <= k < i ::
                  h.sets[k].name in found && sets[k] == h.sets[k].(version := found[h.sets[k].name])
    {
      var g := h.sets[i];
      if g.name !in found {
        return Failed;
      }
      sets := sets + [g.(version := found[g.name])];
    }
    r := Ok(Held(h.id, tasks[0].version, sets));
  }

  /** The versions of what is held: the task's, then each set's. */
  function VersionsOf(h: Held): (v: seq<int>)
    ensures |v| == 1 + |h.sets|
  {
    [h.version] + seq(|h.sets|, i requires 0 <= i < |h.sets| => h.sets[i].version)
  }

  /** v after a write of everything it names. */
  function Bumped(v: seq<int>): (w: seq<int>)
    ensures |w| == |v| && forall i | 0 <= i < |v| :: w[i] == v[i] + 1
  {
    seq(|v|, i requires 0 <= i < |v| => v[i] + 1)
  }

  /** An answer that tells of one write to everything held leaves what that write
      left in the store. */
  lemma AnsweredInFull(h: Held, locks: map<SetKey, int>, out: Held)
    requires HeldAnew(h, h.version + 1, locks, out)
    requires forall i | 0 <= i < |h.sets| :: h.sets[i].name in locks && locks[h.sets[i].name] == h.sets[i].version + 1
    ensures VersionsOf(out) == Bumped(VersionsOf(h))
  {
    var v, w := VersionsOf(h), VersionsOf(out);
    forall i | 0 <= i < |w| ensures w[i] == v[i] + 1 {
      if i > 0 {
        assert w[i] == out.sets[i - 1].version && v[i] == h.sets[i - 1].version;
      }
    }
  }

  // ---------------------------------------------------------------- the loop

  /** A renewal on its way: the versions it names; whether the store has applied it. */
  datatype Call = NoCall | Issued(named: seq<int>, landed: bool)

  /** How UpdateArrival answered. Renewed tells of the versions it left. */
  datatype Answer = Renewed(now: seq<int>) | Unreadable | Canceled | Lost | Unsupported | Transient

  /** The renewal loop. store is the versions of what is held, as the store has them;
      cur is the loop's; late are the renewals that it no longer waits for and the
      store may still apply; open is whether it may hand over; handed is what it
      handed over, after which it is gone. The rest is history: which items someone
      else has written, and whether a renewal landed whose answer was not read. */
  datatype State = State(
    store: seq<int>, cur: seq<int>, call: Call, late: seq<seq<int>>, gone: bool, open: bool, handed: Option<seq<int>>,
    foreign: set<nat>, unread: bool)

  function Start(held: seq<int>): State
  {
    State(held, held, NoCall, [], false, false, None, {}, false)
  }

  datatype Step =
    | Foreign(i: nat)    // someone else writes the claimed task, or a claimed set
    | SeesStop           // the work has asked for the hold, or the context has ended
    | Tick               // its timer fires
    | Lands              // the store applies the renewal
    | LandsLate(k: nat)  // the store applies one that the loop no longer waits for
    | Answers(answer: Answer)
    | HandsOver

  predicate Enabled(s: State, step: Step)
  {
    match step
    case Foreign(i) => i < |s.store|
    case SeesStop => s.handed.None? && s.call.NoCall?
    case Tick => s.handed.None? && s.call.NoCall?
    case Lands => s.call.Issued? && !s.call.landed && s.call.named == s.store
    case LandsLate(k) => k < |s.late| && s.late[k] == s.store
    case Answers(answer) =>
      s.call.Issued? && (answer.Renewed? || answer.Unreadable? ==> s.call.landed)
      && (answer.Renewed? ==> answer.now == Bumped(s.call.named))
    case HandsOver => s.handed.None? && s.call.NoCall? && s.open
  }

  function Do(s: State, step: Step): State
    requires Enabled(s, step)
  {
    match step
    case Foreign(i) => s.(store := s.store[i := s.store[i] + 1], foreign := s.foreign + {i})
    case SeesStop => s.(open := true)
    case Tick => if s.gone then s else s.(call := Issued(s.cur, false))
    case Lands => s.(store := Bumped(s.store), call := s.call.(landed := true))
    case LandsLate(k) => s.(store := Bumped(s.store), late := s.late[..k] + s.late[k + 1..], unread := true)
    case Answers(answer) => Answered(s, answer)
    case HandsOver => s.(handed := Some(s.cur))
  }

  function Answered(s: State, answer: Answer): State
    requires s.call.Issued?
  {
    if answer.Renewed? then s.(call := NoCall, cur := answer.now)
    else
      var next := if s.call.landed then s.(call := NoCall, unread := true)
                  else s.(call := NoCall, late := s.late + [s.call.named]);
      match answer
      case Unreadable => next.(gone := true, open := true)
      case Canceled => next.(open := true)
      case Lost => next.(gone := true, open := true)
      case Unsupported => next.(gone := true, open := true)
      case _ => next
  }

  ghost predicate Runs(s: State, steps: seq<Step>, s': State)
    decreases |steps|
  {
    if steps == [] then s' == s
    else Enabled(s, steps[0]) && Runs(Do(s, steps[0]), steps[1..], s')
  }

  // ---------------------------------------------------------------- what holds

  predicate NoNewer(v: seq<int>, w: seq<int>)
  {
    |v| == |w| && forall i | 0 <= i < |v| :: v[i] <= w[i]
  }

  /** What the loop knows the store to have, unless it was told of less. */
  function Told(s: State): (v: seq<int>)
    ensures |v| == |s.cur|
  {
    if s.call.Issued? && s.call.landed then Bumped(s.cur) else s.cur
  }

  predicate Ahead(s: State)
  {
    && |s.store| == |s.cur| > 0
    && forall i | 0 <= i < |s.store| :: if i in s.foreign || s.unread then s.store[i] > Told(s)[i]
      else s.store[i] == Told(s)[i]
  }

  predicate Inv(s: State)
  {
    && Ahead(s)
    && (s.handed.Some? ==> s.handed.value == s.cur && s.call.NoCall?)
    && (s.call.Issued? ==> s.call.named == s.cur)
    && forall k | 0 <= k < |s.late| :: NoNewer(s.late[k], s.cur)
  }

  /** A late renewal applies only where the loop is not behind for any other reason. */
  lemma LateKeeps(s: State, k: nat)
    requires Inv(s) && Enabled(s, LandsLate(k))
    ensures Inv(Do(s, LandsLate(k)))
  {
    var s' := Do(s, LandsLate(k));
    assert NoNewer(s.late[k], s.cur);
    forall i | 0 <= i < |s.store| ensures s'.store[i] > Told(s')[i] {
      assert s.late[k][i] <= s.cur[i];
    }
    forall j | 0 <= j < |s'.late| ensures NoNewer(s'.late[j], s'.cur) {
      assert s'.late[j] == s.late[if j < k then j else j + 1];
    }
  }

  lemma LandKeeps(s: State)
    requires Inv(s) && Enabled(s, Lands)
    ensures Inv(Do(s, Lands))
  {
    var s' := Do(s, Lands);
    assert Told(s) == s.cur == s.store;
    assert !s.unread && forall i | 0 <= i < |s.store| :: i !in s.foreign by {
      assert s.store[0] == Told(s)[0];
      forall i | 0 <= i < |s.store| ensures i !in s.foreign {
        assert s.store[i] == Told(s)[i];
      }
    }
  }

  lemma AnswerKeeps(s: State, answer: Answer)
    requires Inv(s) && Enabled(s, Answers(answer))
    ensures Inv(Do(s, Answers(answer)))
  {
    var s' := Do(s, Answers(answer));
    if answer.Renewed? {
      assert s'.cur == Bumped(s.cur);
      forall k | 0 <= k < |s'.late| ensures NoNewer(s'.late[k], s'.cur) {
        assert NoNewer(s.late[k], s.cur);
      }
    } else {
      assert Told(s') == s.cur;
      forall k | 0 <= k < |s'.late| ensures NoNewer(s'.late[k], s'.cur) {
        assert k < |s.late| ==> s'.late[k] == s.late[k];
      }
    }
  }

  /** Every step of the loop, of its calls and of the store keeps what the loop knows
      of the store. */
  lemma StepKeeps(s: State, step: Step)
    requires Inv(s) && Enabled(s, step)
    ensures Inv(Do(s, step))
    ensures s.handed.Some? ==> Do(s, step).handed == s.handed && (step.Foreign? || step.LandsLate?)
  {
    match step
    case Lands => LandKeeps(s);
    case LandsLate(k) => LateKeeps(s, k);
    case Answers(answer) => AnswerKeeps(s, answer);
    case _ =>
  }

  /** The versions that the last answer among steps told of; first if there is none. */
  function LastAnswered(first: seq<int>, steps: seq<Step>): seq<int>
  {
    if steps == [] then first
    else
      var last := steps[|steps| - 1];
      if last.Answers? && last.answer.Renewed? then last.answer.now else LastAnswered(first, steps[..|steps| - 1])
  }

  lemma {:induction false} LastFirst(first: seq<int>, steps: seq<Step>)
    requires steps != []
    ensures LastAnswered(first, steps) ==
            LastAnswered(if steps[0].Answers? && steps[0].answer.Renewed? then steps[0].answer.now else first,
                         steps[1..])
    decreases |steps|
  {
    if |steps| > 1 {
      LastFirst(first, steps[..|steps| - 1]);
      assert steps[1..][..|steps| - 2] == steps[..|steps| - 1][1..];
    }
  }

  /** The loop holds what it was last told of, in every interleaving. */
  lemma {:induction false} RunKeeps(s: State, steps: seq<Step>, s': State)
    requires Inv(s) && Runs(s, steps, s')
    ensures Inv(s') && s'.cur == LastAnswered(s.cur, steps)
    ensures s.handed.Some? ==>
            s'.handed == s.handed && forall i | 0 <= i < |steps| :: steps[i].Foreign? || steps[i].LandsLate?
    decreases |steps|
  {
    if steps != [] {
      StepKeeps(s, steps[0]);
      RunKeeps(Do(s, steps[0]), steps[1..], s');
      LastFirst(s.cur, steps);
      assert forall i | 1 <= i < |steps| :: steps[i] == steps[1..][i - 1];
    }
  }

  /** What is handed over is what the last answer told of, whatever was renewed,
      refused, abandoned or written by others on the way. From then on the loop
      issues no renewal and reads no answer: only others, and renewals it gave up
      on, write what was held. */
  lemma HandOver(held: seq<int>, before: seq<Step>, s: State, after: seq<Step>, s': State)
    requires held != [] && Runs(Start(held), before, s) && s.handed.Some? && Runs(s, after, s')
    ensures s.handed.value == LastAnswered(held, before) && s'.handed == s.handed
    ensures forall i | 0 <= i < |after| :: after[i].Foreign? || after[i].LandsLate?
  {
    RunKeeps(Start(held), before, s);
    RunKeeps(s, after, s');
  }

  /** So, for the task and for each set, whenever the commit is made: it names the
      store's version exactly when nobody else wrote that item and no renewal landed
      whose answer was not read, before or after the hand-over. */
  lemma CommitNamesStore(held: seq<int>, steps: seq<Step>, s: State, i: nat)
    requires Runs(Start(held), steps, s) && s.handed.Some? && i < |held|
    ensures |s.handed.value| == |s.store| == |held|
    ensures s.handed.value[i] == s.store[i] <==> i !in s.foreign && !s.unread
  {
    RunKeeps(Start(held), steps, s);
    SameItems(Start(held), steps, s);
  }

  lemma {:induction false} SameItems(s: State, steps: seq<Step>, s': State)
    requires Runs(s, steps, s')
    ensures |s'.store| == |s.store|
    decreases |steps|
  {
    if steps != [] {
      SameItems(Do(s, steps[0]), steps[1..], s');
    }
  }

  // ---------------------------------------------------------------- what happens

  /** The commit names another version than the store's for the claimed task. */
  ghost predicate Stale(s: State)
  {
    s.handed.Some? && 0 < |s.store| == |s.handed.value| && s.handed.value[0] != s.store[0]
  }

  lemma Runs1(s: State, step: Step, rest: seq<Step>, s': State)
    requires Enabled(s, step) && Runs(Do(s, step), rest, s')
    ensures Runs(s, [step] + rest, s')
  {
    assert ([step] + rest)[1..] == rest;
  }

  /** All three happen: a write by someone else; a renewal that landed and was not
      answered; and one that lands only after the hold was handed over. */
  lemma StaleCommits(version: int)
    ensures exists steps, s :: Runs(Start([version]), steps, s) && Stale(s) && !s.unread
    ensures exists steps, s :: Runs(Start([version]), steps, s) && Stale(s) && s.foreign == {}
    ensures exists before, m, after, s ::
              Runs(Start([version]), before, m) && m.handed.Some? && !Stale(m) && Runs(m, after, s) && Stale(s) &&
                s.foreign == {}
  {
    ForeignStale(version);
    UnreadStale(version);
    LateStale(version);
  }

  lemma ForeignStale(version: int)
    ensures exists steps, s :: Runs(Start([version]), steps, s) && Stale(s) && !s.unread
  {
    var s0 := Start([version]);
    var s1 := Do(s0, Foreign(0));
    var s2 := Do(s1, SeesStop);
    var s3 := Do(s2, HandsOver);
    assert Runs(s3, [], s3);
    Runs1(s2, HandsOver, [], s3);
    Runs1(s1, SeesStop, [HandsOver] + [], s3);
    Runs1(s0, Foreign(0), [SeesStop] + ([HandsOver] + []), s3);
    assert Stale(s3);
  }

  lemma UnreadStale(version: int)
    ensures exists steps, s :: Runs(Start([version]), steps, s) && Stale(s) && s.foreign == {}
  {
    var s0 := Start([version]);
    var s1 := Do(s0, Tick);
    var s2 := Do(s1, Lands);
    var s3 := Do(s2, Answers(Canceled));
    var s4 := Do(s3, HandsOver);
    assert Runs(s4, [], s4);
    Runs1(s3, HandsOver, [], s4);
    Runs1(s2, Answers(Canceled), [HandsOver] + [], s4);
    Runs1(s1, Lands, [Answers(Canceled)] + ([HandsOver] + []), s4);
    Runs1(s0, Tick, [Lands] + ([Answers(Canceled)] + ([HandsOver] + [])), s4);
    assert Stale(s4);
  }

  lemma LateStale(version: int)
    ensures exists before, m, after, s ::
              Runs(Start([version]), before, m) && m.handed.Some? && !Stale(m) && Runs(m, after, s) && Stale(s) &&
                s.foreign == {}
  {
    var s0 := Start([version]);
    var s1 := Do(s0, Tick);
    var s2 := Do(s1, Answers(Canceled));
    var m := Do(s2, HandsOver);
    assert Runs(m, [], m);
    Runs1(s2, HandsOver, [], m);
    Runs1(s1, Answers(Canceled), [HandsOver] + [], m);
    Runs1(s0, Tick, [Answers(Canceled)] + ([HandsOver] + []), m);
    assert m.late == [[version]];
    var s := Do(m, LandsLate(0));
    assert Runs(s, [], s);
    Runs1(m, LandsLate(0), [], s);
    assert !Stale(m) && Stale(s);
  }
}
