/** Where the promises of an eqlink lane stop: a switch made too early, and a turn
    whose commit is lost. */
module EqlinkFaults {
  import opened Texts
  import opened Outcomes
  import opened Lanes
  import opened LaneTurns
  import opened Eqlink

  const MINUTE := 60 * SECOND

  /** The default timing, with a heartbeat every minute. */
  const DEFAULT := Timing(30 * MINUTE, 10 * MINUTE, 5 * MINUTE)
  const CONFIG := Config(DEFAULT, DEFAULT, MINUTE)

  /** After how long a silence each end of a lane gives its peer up. */
  datatype Patience = Patience(data: int, ack: int)

  const PATIENCE := Patience(3 * MINUTE, 3 * MINUTE)

  function At(seconds: int): Clock { Clock(seconds * SECOND, seconds * SECOND) }

  /** A lane that has carried no bytes, with a control frame on its way. */
  function Quiet(data: End, ack: End, s: Sent, turns: seq<Kind>): Link
  {
    Link(data, ack, [s], [], [], false, false, turns)
  }

  function DataQueue(at: int): Name { LaneQueue(DataEnd, at) }

  function AckQueue(at: int): Name { LaneQueue(AckEnd, at) }

  /** A control frame to a queue, to be answered in another. */
  function Asking(to: Name, reply: Name): Sent { Sent(to, Frame(Some(reply), false, false, false, [])) }

  /** Bodyless turns take the lane from l to l'. */
  lemma Goes(cfg: Config, l: Link, act: Act, c: Commit, l': Link)
    requires act.i == 0 && |l.frames| == 1 && l.frames[0].frame.body == [] && !l.frames[0].frame.final
    requires c.sent.Some? && c.sent.value.frame.body == [] && !l.broke && !l.error && !l.frames[0].frame.error
    requires match act
             case DataActs(_, _, _) =>
               && !l.data.done && l.frames[0].to == l.data.watching && DataCommit(cfg, l, act) == Ok(c)
               && l' == l.(data := Landed(l.data, DataEnd, c), frames := [c.sent.value], turns := l.turns + [c.kind])
             case AckActs(_, _, _) =>
               && !l.ack.done && l.frames[0].to == l.ack.watching && AckCommit(cfg, l, act) == Ok(c)
               && l' == l.(ack := Landed(l.ack, AckEnd, c), frames := [c.sent.value], turns := l.turns + [c.kind])
             case Refuses(_) => false
    ensures Enabled(cfg, l, act) && Do(cfg, l, act) == l'
  {
    assert l.frames == [l.frames[0]];
    OneFrame(l.frames[0], c);
    assert l.taken + [] == l.taken && l.written + [] == l.written;
  }

  // ---------------------------------------------------------------- runs in time

  /** A lane, when its last turn landed, and when each end last heard of the other. */
  datatype Timed = Timed(link: Link, last: int, heardData: int, heardAck: int)

  /** The sender waits from when it made its queue, the receiver from its own. */
  ghost predicate Begins(cfg: Config, t: Timed, made: int, accepted: int)
  {
    && Start(cfg, t.link, made, accepted) && t.last == accepted
    && (if t.link.frames[0].to.side == AckEnd then t.heardData == made && t.heardAck == accepted
        else t.heardData == accepted && t.heardAck == made)
  }

  /** Whether the queue that a frame advertises calls for a reciprocal switch. */
  predicate CallsFor(v: View, reply: Name) { Changes(v, reply) && !v.awaiting }

  /** How long the data end waits for its source: to its heartbeat, or until it must
      leave the peer's queue. */
  function WaitsUntil(cfg: Config, reply: Name, asked: int): int
  {
    var beat := asked + cfg.heartbeat;
    if reply.LaneQueue? && ForceAt(reply.collectAt, cfg.data) < beat then ForceAt(reply.collectAt, cfg.data) else beat
  }

  /** A turn that two ends with these clocks could take: after the one before, before
      the end gave its peer up, and idle only once the wait is over. */
  predicate OnTime(cfg: Config, p: Patience, t: Timed, act: Act)
  {
    && Enabled(cfg, t.link, act)
    && match act
       case DataActs(i, wake, clock) =>
         && t.last <= clock.asked <= clock.now && clock.asked - t.heardData < p.data
         && (var reply := t.link.frames[i].frame.reply;
             wake.Idle? && reply.Some? && !CallsFor(t.link.data.view, reply.value) ==>
             WaitsUntil(cfg, reply.value, clock.asked) <= clock.now)
       case AckActs(_, _, clock) => t.last <= clock.asked <= clock.now && clock.asked - t.heardAck < p.ack
       case Refuses(_) => false
  }

  function After(cfg: Config, p: Patience, t: Timed, act: Act): Timed
    requires OnTime(cfg, p, t, act)
  {
    var l := Do(cfg, t.link, act);
    if act.DataActs? then Timed(l, act.clock.now, act.clock.asked, t.heardAck)
    else Timed(l, act.clock.now, t.heardData, act.clock.asked)
  }

  ghost predicate TimedRuns(cfg: Config, p: Patience, t: Timed, acts: seq<Act>, t': Timed)
    decreases |acts|
  {
    if acts == [] then t' == t
    else OnTime(cfg, p, t, acts[0]) && TimedRuns(cfg, p, After(cfg, p, t, acts[0]), acts[1..], t')
  }

  ghost predicate InTime(cfg: Config, p: Patience, t: Timed)
  {
    exists start, made, accepted, acts :: Begins(cfg, start, made, accepted) && TimedRuns(cfg, p, start, acts, t)
  }

  lemma BeginsInTime(cfg: Config, p: Patience, t: Timed, made: int, accepted: int)
    requires Begins(cfg, t, made, accepted)
    ensures InTime(cfg, p, t)
  {
    assert TimedRuns(cfg, p, t, [], t);
  }

  lemma {:induction false} TimedRunsOn(cfg: Config, p: Patience, t: Timed, acts: seq<Act>, m: Timed, act: Act,
                                       t': Timed)
    requires TimedRuns(cfg, p, t, acts, m) && OnTime(cfg, p, m, act) && t' == After(cfg, p, m, act)
    ensures TimedRuns(cfg, p, t, acts + [act], t')
    decreases |acts|
  {
    if acts == [] {
      assert TimedRuns(cfg, p, t', [], t') && (acts + [act])[1..] == [];
    } else {
      TimedRunsOn(cfg, p, After(cfg, p, t, acts[0]), acts[1..], m, act, t');
      assert (acts + [act])[1..] == acts[1..] + [act];
    }
  }

  lemma InTimeOn(cfg: Config, p: Patience, t: Timed, act: Act, t': Timed)
    requires InTime(cfg, p, t) && OnTime(cfg, p, t, act) && t' == After(cfg, p, t, act)
    ensures InTime(cfg, p, t')
  {
    var start, made, accepted, acts :|
      Begins(cfg, start, made, accepted) && TimedRuns(cfg, p, start, acts, t);
    TimedRunsOn(cfg, p, start, acts, t, act, t');
  }

  lemma {:induction false} TimedRunsAreRuns(cfg: Config, p: Patience, t: Timed, acts: seq<Act>, t': Timed)
    requires TimedRuns(cfg, p, t, acts, t')
    ensures Runs(cfg, t.link, acts, t'.link)
    decreases |acts|
  {
    if acts != [] {
      TimedRunsAreRuns(cfg, p, After(cfg, p, t, acts[0]), acts[1..], t');
    }
  }

  lemma InTimeReachable(cfg: Config, p: Patience, t: Timed)
    requires InTime(cfg, p, t)
    ensures Reachable(cfg, t.link)
  {
    var start, made, accepted, acts :|
      Begins(cfg, start, made, accepted) && TimedRuns(cfg, p, start, acts, t);
    TimedRunsAreRuns(cfg, p, start, acts, t);
  }

  // ---------------------------------------------------------------- a switch made too early

  /** Under the defaults each initiated switch draws one reciprocal one in every run
      of a lane, unless it is cut short, if the request was taken from the inbox
      within the three minutes that the sender waits for it and the lane's first
      turn comes within nineteen minutes of that. */
  lemma DefaultsAnswer(start: Link, made: int, accepted: int, acts: seq<Act>, l: Link)
    requires Start(CONFIG, start, made, accepted) && Runs(CONFIG, start, acts, l)
    requires accepted < made + PATIENCE.ack
    requires acts != [] && !acts[0].Refuses? ==> acts[0].clock.asked <= acts[0].clock.now < accepted + 19 * MINUTE
    ensures Answered(l.turns)
  {
    ReciprocityExactlyWhen(CONFIG, start, made, accepted, acts, l);
    assert Deadline(made, DEFAULT) * SECOND > made + 30 * MINUTE - SECOND;
    assert Deadline(accepted, DEFAULT) * SECOND > accepted + 30 * MINUTE - SECOND;
  }

  /** The sender of WithSenderRequestTimeout(30 * time.Minute), which waits that long. */
  const PATIENT := Patience(3 * MINUTE, 30 * MINUTE)

  const WAITED := Timed(ResponseLane(3300, 1800), 1500 * SECOND, 1500 * SECOND, 0)
  const FIRST := DataActs(0, Idle, At(1500))
  const SECOND_TURN := AckActs(0, Wrote, At(1501))
  const THIRD := DataActs(0, Idle, Clock(1502 * SECOND, 1562 * SECOND))

  const EARLY := Quiet(End(View(3301, Some(AckQueue(1800)), true), DataQueue(3301), false, [3300, 3301]),
                       Fresh(AckEnd, 1800), Asking(AckQueue(1800), DataQueue(3301)), [Initiates])

  const CROSSING := Quiet(End(View(3301, Some(AckQueue(1800)), true), DataQueue(3301), false, [3300, 3301]),
                          End(View(3301, Some(DataQueue(3301)), true), AckQueue(3301), false, [1800, 3301]),
                          Asking(DataQueue(3301), AckQueue(3301)), [Initiates, Initiates])

  const CROSSED := Quiet(End(View(3301, Some(AckQueue(3301)), false), DataQueue(3301), false, [3300, 3301]),
                         End(View(3301, Some(DataQueue(3301)), true), AckQueue(3301), false, [1800, 3301]),
                         Asking(AckQueue(3301), DataQueue(3301)), [Initiates, Initiates, Plain])

  lemma WaitedBegins()
    ensures Begins(CONFIG, WAITED, 0, 1500 * SECOND)
  {
    assert Deadline(0, DEFAULT) == 1800 && Deadline(1500 * SECOND, DEFAULT) == 3300;
  }

  lemma EarlyReached()
    ensures InTime(CONFIG, PATIENT, Timed(EARLY, 1500 * SECOND, 1500 * SECOND, 0))
  {
    WaitedBegins();
    BeginsInTime(CONFIG, PATIENT, WAITED, 0, 1500 * SECOND);
    var seen := View(3300, Some(AckQueue(1800)), false);
    assert Forced(seen, FIRST.clock, DEFAULT, MINUTE);
    var c := Commit(EARLY.data.view, Some(EARLY.frames[0]), Initiates);
    assert Initiated(seen, FIRST.clock.now, DEFAULT) == c.view;
    assert [3300] + [3301] == [3300, 3301] && [] + [Initiates] == [Initiates];
    Goes(CONFIG, WAITED.link, FIRST, c, EARLY);
    InTimeOn(CONFIG, PATIENT, WAITED, FIRST, Timed(EARLY, 1500 * SECOND, 1500 * SECOND, 0));
  }

  lemma CrossingReached()
    ensures InTime(CONFIG, PATIENT, Timed(CROSSING, 1501 * SECOND, 1500 * SECOND, 1501 * SECOND))
  {
    EarlyReached();
    var seen := View(1800, Some(DataQueue(3301)), false);
    assert PiggybackDue(1800, SECOND_TURN.clock.now, DEFAULT);
    var c := Commit(CROSSING.ack.view, Some(CROSSING.frames[0]), Initiates);
    assert Initiated(seen, SECOND_TURN.clock.now, DEFAULT) == c.view;
    assert [1800] + [3301] == [1800, 3301] && [Initiates] + [Initiates] == [Initiates, Initiates];
    Goes(CONFIG, EARLY, SECOND_TURN, c, CROSSING);
    InTimeOn(CONFIG, PATIENT, Timed(EARLY, 1500 * SECOND, 1500 * SECOND, 0), SECOND_TURN,
             Timed(CROSSING, 1501 * SECOND, 1500 * SECOND, 1501 * SECOND));
  }

  lemma CrossedReached()
    ensures InTime(CONFIG, PATIENT, Timed(CROSSED, 1562 * SECOND, 1502 * SECOND, 1501 * SECOND))
  {
    CrossingReached();
    var seen := CROSSED.data.view;
    assert Observed(CROSSING.data.view, AckQueue(3301)) == Ok((seen, false));
    assert !Forced(seen, THIRD.clock, DEFAULT, MINUTE);
    assert [Initiates, Initiates] + [Plain] == [Initiates, Initiates, Plain];
    Goes(CONFIG, CROSSING, THIRD, Commit(seen, Some(CROSSED.frames[0]), Plain), CROSSED);
    InTimeOn(CONFIG, PATIENT, Timed(CROSSING, 1501 * SECOND, 1500 * SECOND, 1501 * SECOND), THIRD,
             Timed(CROSSED, 1562 * SECOND, 1502 * SECOND, 1501 * SECOND));
  }

  /** A request that waited 25 minutes in the inbox, from a sender that waits longer
      than that: by the receiver's first turn on the response lane the sender's queue
      is due, so that turn initiates a switch, and the sender, which hears of the
      receiver's queue for the first time, answers it with a switch of its own
      instead of a reciprocal one. */
  lemma EarlySwitchUnanswered()
    ensures DEFAULT.Valid()
    ensures exists t :: InTime(CONFIG, PATIENT, t) && t.link.turns == [Initiates, Initiates] && !Answered(t.link.turns)
  {
    CrossingReached();
    FirstAnswered(CROSSING.turns);
  }

  /** Nor is that switch answered, though both ends have heard of each other by
      then: the receiver takes it for the answer to its own. */
  lemma LaterSwitchUnanswered()
    ensures exists t ::
              InTime(CONFIG, PATIENT, t) && t.link.turns == [Initiates, Initiates, Plain] &&
                !AnsweredLater(t.link.turns)
  {
    CrossedReached();
    assert !AnswersAt(CROSSED.turns, 2);
  }

  // ---------------------------------------------------------------- a turn that is lost

  /** The data end's handler has run, and its commit was lost: the lane it keeps in
      memory has moved, the store and the queue it watches have not. */
  function DataLost(cfg: Config, l: Link, act: Act): Link
    requires act.DataActs? && Enabled(cfg, l, act)
  {
    l.(data := l.data.(view := DataCommit(cfg, l, act).value.view))
  }

  function AckLost(cfg: Config, l: Link, act: Act): Link
    requires act.AckActs? && Enabled(cfg, l, act)
  {
    l.(ack := l.ack.(view := AckCommit(cfg, l, act).value.view))
  }

  /** A turn of the data end that moves no bytes, whose loss does not end the
      session: a reciprocal switch, or one whose source was idle. */
  predicate DataMovesNone(l: Link, act: Act)
    requires act.DataActs? && |l.frames| == 1 && l.frames[0].frame.reply.Some?
  {
    CallsFor(l.data.view, l.frames[0].frame.reply.value) || act.wake.Idle?
  }

  /** Whether the acknowledging end's queue, as a frame advertises it, must be left
      before an idle turn's heartbeat. */
  predicate MustForce(reply: Name, clock: Clock, timing: Timing, heartbeat: int)
  {
    reply.LaneQueue? && clock.asked + heartbeat >= ForceAt(reply.collectAt, timing)
  }

  /** The guards under which a bodyless turn of the data end rotates. */
  predicate DataRotates(cfg: Config, v: View, reply: Name, clock: Clock)
  {
    CallsFor(v, reply) || MustForce(reply, clock, cfg.data, cfg.heartbeat)
  }

  /** The guards under which a turn on a frame that was seen before rotates, once
      the queue in memory has rotated to local. */
  predicate RetryRotates(cfg: Config, local: int, reply: Name, wake: Wake, clock: Clock)
  {
    if wake.Idle? then MustForce(reply, clock, cfg.data, cfg.heartbeat) else PiggybackDue(local, clock.now, cfg.data)
  }

  /** The frame in flight asks for its answer in the queue that its sender watches. */
  predicate AnswerFindsData(l: Link)
  {
    |l.frames| == 1 && l.frames[0].frame.reply == Some(l.data.watching)
  }

  predicate AnswerFindsAck(l: Link)
  {
    |l.frames| == 1 && l.frames[0].frame.reply == Some(l.ack.watching)
  }

  /** The end on one side waits in one queue, and has asked for its answer in another. */
  predicate Stranded(l: Link, side: Side)
  {
    && |l.frames| == 1 && !l.frames[0].frame.final && l.frames[0].frame.reply.Some?
    && l.data.watching.LaneQueue? && l.data.watching.side == DataEnd
    && l.ack.watching.LaneQueue? && l.ack.watching.side == AckEnd
    && (var to, reply := l.frames[0].to, l.frames[0].frame.reply.value;
        && to.LaneQueue? && to.side != side && reply.LaneQueue? && reply.side == side
        && reply != (if side == DataEnd then l.data else l.ack).watching)
  }

  /** A bodyless turn of the data end is lost, and a later one on the same frame
      lands. The answer to that is stranded exactly when the first rotated (the
      peer had switched, or its queue was due) and the second does not (its queue
      is not due any more, or, with bytes to send, the rotated one is not due). */
  lemma LostDataTurn(cfg: Config, l: Link, lost: Act, landed: Act)
    requires Routed(l) && |l.frames| == 1 && !l.frames[0].frame.final
    requires lost.DataActs? && Enabled(cfg, l, lost) && DataMovesNone(l, lost)
    requires landed.DataActs? && !landed.wake.Last? && Enabled(cfg, DataLost(cfg, l, lost), landed)
    ensures var r := Do(cfg, DataLost(cfg, l, lost), landed); AnswerFindsData(r) <==> !Stranded(r, DataEnd)
    ensures var reply, rotated := l.frames[0].frame.reply.value, Rotation(l.data.view.local, lost.clock.now, cfg.data);
            AnswerFindsData(Do(cfg, DataLost(cfg, l, lost), landed)) <==>
            !(DataRotates(cfg, l.data.view, reply, lost.clock) &&
              !RetryRotates(cfg, rotated, reply, landed.wake, landed.clock))
  {
    var s, m := l.frames[0], DataLost(cfg, l, lost);
    assert l.frames == [s];
    var c1, c2 := DataCommit(cfg, l, lost).value, DataCommit(cfg, m, landed).value;
    DataTurns(l.data.view, s.frame, lost.wake, lost.clock, cfg.data, cfg.heartbeat);
    DataTurns(m.data.view, s.frame, landed.wake, landed.clock, cfg.data, cfg.heartbeat);
    OneFrame(s, c2);
  }

  /** The same of the end that acknowledges requests, on a frame without bytes. It
      rotates when the peer had switched or its own queue is due; having rotated in
      memory, the retry rotates only if the new queue is due too. */
  lemma LostAckTurn(cfg: Config, l: Link, lost: Act, landed: Act)
    requires Routed(l) && |l.frames| == 1 && !Consumes(l.frames[0].frame)
    requires lost.AckActs? && Enabled(cfg, l, lost) && landed.AckActs? && Enabled(cfg, AckLost(cfg, l, lost), landed)
    ensures var r := Do(cfg, AckLost(cfg, l, lost), landed); AnswerFindsAck(r) <==> !Stranded(r, AckEnd)
    ensures var v, reply := l.ack.view, l.frames[0].frame.reply.value;
            AnswerFindsAck(Do(cfg, AckLost(cfg, l, lost), landed)) <==>
            !(&& (CallsFor(v, reply) || PiggybackDue(v.local, lost.clock.now, cfg.ack))
              && !PiggybackDue(Rotation(v.local, lost.clock.now, cfg.ack), landed.clock.now, cfg.ack))
  {
    var s, m := l.frames[0], AckLost(cfg, l, lost);
    assert l.frames == [s];
    var c1, c2 := AckCommit(cfg, l, lost).value, AckCommit(cfg, m, landed).value;
    AckTurns(l.ack.view, s.frame, lost.write, lost.clock, cfg.ack);
    AckTurns(m.ack.view, s.frame, landed.write, landed.clock, cfg.ack);
    OneFrame(s, c2);
  }

  /** No frame is where an end would find it. */
  predicate Deaf(l: Link)
  {
    forall s | s in l.frames :: s.to != l.data.watching && s.to != l.ack.watching
  }

  /** The one turn left to the peer of a stranded end is its last, or unheard. */
  lemma StrandedTurn(cfg: Config, l: Link, side: Side, act: Act)
    requires Stranded(l, side) && Enabled(cfg, l, act)
    ensures var l' := Do(cfg, l, act);
            Deaf(l') && (if side == DataEnd then l'.data == l.data else l'.ack == l.ack)
  {
    var s := l.frames[0];
    assert l.frames == [s];
    match act
    case DataActs(i, wake, clock) =>
      var c := DataCommit(cfg, l, act).value;
      DataTurns(l.data.view, s.frame, wake, clock, cfg.data, cfg.heartbeat);
      OneFrame(s, c);
    case AckActs(i, write, clock) =>
      var c := AckCommit(cfg, l, act).value;
      AckTurns(l.ack.view, s.frame, write, clock, cfg.ack);
      OneFrame(s, c);
    case Refuses(i) => OneFrame(s, AckFailure(l.ack.view, s.frame));
  }

  lemma DeafStays(cfg: Config, l: Link, act: Act)
    requires Deaf(l)
    ensures !Enabled(cfg, l, act)
  {
    if act.i < |l.frames| {
      assert l.frames[act.i] in l.frames;
    }
  }

  /** What stranding means: in every run from there an end that is stranded never
      takes another turn, and its peer takes at most one. */
  lemma StrandedStays(cfg: Config, l: Link, side: Side, acts: seq<Act>, l': Link)
    requires Stranded(l, side) && Runs(cfg, l, acts, l')
    ensures |acts| <= 1 && (if side == DataEnd then l'.data == l.data else l'.ack == l.ack)
  {
    if acts != [] {
      StrandedTurn(cfg, l, side, acts[0]);
      var m := Do(cfg, l, acts[0]);
      forall act ensures !Enabled(cfg, m, act) {
        DeafStays(cfg, m, act);
      }
    }
  }

  // ---------------------------------------------------------------- such a run

  function Plains(n: nat): seq<Kind> { seq(n, _ => Plain) }

  const DATA_END := End(View(1800, Some(AckQueue(1801)), false), DataQueue(1800), false, [1800])
  const ACK_END := End(View(1801, Some(DataQueue(1800)), false), AckQueue(1801), false, [1801])

  /** When the k-th heartbeat of a request is answered that was accepted a second
      after it was made. */
  function Tick(k: int): int { (60 * k + 1) * SECOND }

  /** A request lane that has been idle for k heartbeats, before and after the
      receiver answers the last. */
  function Hum(k: nat): Timed
  {
    if k == 0 then Timed(RequestLane(1800, 1801), Tick(0), 0, Tick(0))
    else Timed(Quiet(DATA_END, ACK_END, Asking(AckQueue(1801), DataQueue(1800)), Plains(2 * k)),
               Tick(k), Tick(k - 1), Tick(k - 1))
  }

  function Answer(k: nat): Timed
  {
    Timed(Quiet(Hum(k).link.data, ACK_END, Asking(DataQueue(1800), AckQueue(1801)), Plains(2 * k + 1)),
          Tick(k), Hum(k).heardData, Tick(k))
  }

  lemma HumBegins()
    ensures InTime(CONFIG, PATIENCE, Hum(0))
  {
    assert Deadline(0, DEFAULT) == 1800 && Deadline(SECOND, DEFAULT) == 1801;
    BeginsInTime(CONFIG, PATIENCE, Hum(0), 0, SECOND);
  }

  lemma AnswerGoes(k: nat, act: Act)
    requires k < 20 && act == AckActs(0, Wrote, At(60 * k + 1))
    ensures Enabled(CONFIG, Hum(k).link, act) && Do(CONFIG, Hum(k).link, act) == Answer(k).link
  {
    var l, l' := Hum(k).link, Answer(k).link;
    assert !PiggybackDue(1801, act.clock.now, DEFAULT);
    assert Observed(l.ack.view, DataQueue(1800)) == Ok((ACK_END.view, false));
    assert l.turns + [Plain] == l'.turns;
    Goes(CONFIG, l, act, Commit(ACK_END.view, Some(l'.frames[0]), Plain), l');
  }

  lemma AnswerReached(k: nat)
    requires k < 20 && InTime(CONFIG, PATIENCE, Hum(k))
    ensures InTime(CONFIG, PATIENCE, Answer(k))
  {
    var act := AckActs(0, Wrote, At(60 * k + 1));
    AnswerGoes(k, act);
    InTimeOn(CONFIG, PATIENCE, Hum(k), act, Answer(k));
  }

  lemma HumOn(k: nat)
    requires k < 20 && InTime(CONFIG, PATIENCE, Answer(k))
    ensures InTime(CONFIG, PATIENCE, Hum(k + 1))
  {
    var a, h, act := Answer(k), Hum(k + 1), DataActs(0, Idle, Clock(Tick(k), Tick(k + 1)));
    assert !Forced(DATA_END.view, act.clock, DEFAULT, MINUTE);
    assert a.link.turns + [Plain] == h.link.turns;
    Goes(CONFIG, a.link, act, Commit(DATA_END.view, Some(h.link.frames[0]), Plain), h.link);
    InTimeOn(CONFIG, PATIENCE, a, act, h);
  }

  lemma HumReached(k: nat)
    requires k <= 20
    ensures InTime(CONFIG, PATIENCE, Hum(k))
  {
    HumBegins();
    for j := 0 to k
      invariant InTime(CONFIG, PATIENCE, Hum(j))
    {
      AnswerReached(j);
      HumOn(j);
    }
  }

  /** Twenty minutes on, the receiver leaves its queue. */
  const SWITCHED := Timed(
    Quiet(DATA_END, End(View(3001, Some(DataQueue(1800)), true), AckQueue(3001), false, [1801, 3001]),
          Asking(DataQueue(1800), AckQueue(3001)), Plains(40) + [Initiates]),
    Tick(20), Tick(19), Tick(20))

  lemma SwitchedReached()
    ensures InTime(CONFIG, PATIENCE, SWITCHED)
  {
    HumReached(20);
    var h, act, seen := Hum(20), AckActs(0, Wrote, At(1201)), ACK_END.view;
    assert PiggybackDue(1801, act.clock.now, DEFAULT);
    assert Initiated(seen, act.clock.now, DEFAULT) == SWITCHED.link.ack.view;
    assert [1801] + [3001] == [1801, 3001];
    Goes(CONFIG, h.link, act, Commit(SWITCHED.link.ack.view, Some(SWITCHED.link.frames[0]), Initiates), SWITCHED.link);
    InTimeOn(CONFIG, PATIENCE, h, act, SWITCHED);
  }

  /** The lane in time after a turn of the data end whose commit was lost. */
  function DataLostAt(cfg: Config, t: Timed, act: Act): Timed
    requires act.DataActs? && Enabled(cfg, t.link, act)
  {
    Timed(DataLost(cfg, t.link, act), act.clock.now, act.clock.asked, t.heardAck)
  }

  const LOST := DataActs(0, Idle, At(1202))
  const LANDED := DataActs(0, Idle, Clock(1203 * SECOND, 1263 * SECOND))
  const KEPT := View(3002, Some(AckQueue(3001)), false)

  lemma LoseReciprocal()
    ensures OnTime(CONFIG, PATIENCE, SWITCHED, LOST)
    ensures DataCommit(CONFIG, SWITCHED.link, LOST).value.kind == Reciprocates
    ensures DataLost(CONFIG, SWITCHED.link, LOST).data.view == KEPT
  {
    var seen := View(1800, Some(AckQueue(3001)), false);
    assert Observed(DATA_END.view, AckQueue(3001)) == Ok((seen, true));
    assert Reciprocated(seen, LOST.clock.now, DEFAULT) == KEPT;
  }

  lemma RetryPlain(l: Link, t: Timed)
    requires OnTime(CONFIG, PATIENCE, SWITCHED, LOST)
    requires l == SWITCHED.link.(data := DATA_END.(view := KEPT)) &&
             t == Timed(l, LOST.clock.now, LOST.clock.asked, Tick(20))
    ensures OnTime(CONFIG, PATIENCE, t, LANDED) && DataCommit(CONFIG, l, LANDED).value.kind == Plain
  {
    assert Observed(KEPT, AckQueue(3001)) == Ok((KEPT, false)) && !Forced(KEPT, LANDED.clock, DEFAULT, MINUTE);
  }

  lemma RetryStrands(l: Link, lost: Act, landed: Act)
    requires Routed(l) && l == SWITCHED.link && lost == LOST && landed == LANDED
    requires Enabled(CONFIG, l, lost) && Enabled(CONFIG, DataLost(CONFIG, l, lost), landed)
    requires DataLost(CONFIG, l, lost).data.view == KEPT
    ensures Stranded(Do(CONFIG, DataLost(CONFIG, l, lost), landed), DataEnd)
  {
    assert CallsFor(DATA_END.view, AckQueue(3001));
    LostDataTurn(CONFIG, l, lost, landed);
  }

  /** Under the defaults, and in time, a request lane on which the sender's reciprocal
      switch is lost, and the retry lands plain and strands it. */
  lemma LostReciprocalStrands()
    ensures exists t, lost: Act, landed: Act ::
              && InTime(CONFIG, PATIENCE, t) && lost.DataActs? && landed.DataActs?
              && OnTime(CONFIG, PATIENCE, t, lost) && DataCommit(CONFIG, t.link, lost).value.kind == Reciprocates
              && OnTime(CONFIG, PATIENCE, DataLostAt(CONFIG, t, lost), landed)
              && DataCommit(CONFIG, DataLost(CONFIG, t.link, lost), landed).value.kind == Plain
              && Stranded(Do(CONFIG, DataLost(CONFIG, t.link, lost), landed), DataEnd)
  {
    var t, lost, landed := SWITCHED, LOST, LANDED;
    SwitchedReached();
    InTimeReachable(CONFIG, PATIENCE, t);
    ReachableOk(CONFIG, t.link);
    LoseReciprocal();
    RetryPlain(DataLost(CONFIG, t.link, lost), DataLostAt(CONFIG, t, lost));
    RetryStrands(t.link, lost, landed);
    assert InTime(CONFIG, PATIENCE, t);
  }
}
