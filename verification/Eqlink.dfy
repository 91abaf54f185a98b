/** A whole lane: two ends and the frames between them, one landed turn at a time. */
module Eqlink {
  import opened Texts
  import opened Outcomes
  import opened Lanes
  import opened LaneTurns

  /** An end: what it knows, the queue it claims on, and whether it has finished.
      names is history: the deadlines of every queue it has had. */
  datatype End = End(view: View, watching: Name, done: bool, names: seq<int>)

  /** frames are all the lane's frames in the store. taken and written are the
      bytes read from the near source and written at the far end. broke says that a
      write broke, error that the last frame carried one. turns is history. */
  datatype Link = Link(data: End, ack: End, frames: seq<Sent>, taken: Text, written: Text, broke: bool, error: bool,
                       turns: seq<Kind>)

  datatype Config = Config(data: Timing, ack: Timing, heartbeat: int)

  /** A turn of either end on frame i; Refuses is the acknowledging end's, when it
      cannot open the request that the frame asks for. */
  datatype Act =
    | DataActs(i: nat, wake: Wake, clock: Clock)
    | AckActs(i: nat, write: Write, clock: Clock)
    | Refuses(i: nat)

  function Fresh(side: Side, collectAt: int): End
  {
    End(View(collectAt, None, false), LaneQueue(side, collectAt), false, [collectAt])
  }

  /** The request lane opens with the sender's frame in the receiver's queue. */
  function RequestLane(data: int, ack: int): Link
  {
    Link(Fresh(DataEnd, data), Fresh(AckEnd, ack),
         [Sent(LaneQueue(AckEnd, ack), Frame(Some(LaneQueue(DataEnd, data)), false, false, true, []))],
         [], [], false, false, [])
  }

  /** The response lane opens with a seed in the receiver's queue that stands for an
      acknowledgement by the sender. */
  function ResponseLane(data: int, ack: int): Link
  {
    Link(Fresh(DataEnd, data), Fresh(AckEnd, ack),
         [Sent(LaneQueue(DataEnd, data), Frame(Some(LaneQueue(AckEnd, ack)), false, false, false, []))],
         [], [], false, false, [])
  }

  /** The deadline of a queue made at a time. */
  function Deadline(made: int, timing: Timing): int { Rotation(ZERO_TIME, made, timing) }

  /** The sender made its queue, then put the request in the inbox; the receiver made
      its own when it took the request from there. */
  ghost predicate Start(cfg: Config, l: Link, made: int, accepted: int)
  {
    && made <= accepted
    && (|| l == RequestLane(Deadline(made, cfg.data), Deadline(accepted, cfg.ack))
        || l == ResponseLane(Deadline(accepted, cfg.data), Deadline(made, cfg.ack)))
  }

  /** The end once its turn has landed. */
  function Landed(e: End, side: Side, c: Commit): End
  {
    if c.kind.Ends? then e.(view := c.view, done := true)
    else if c.kind.Plain? then e.(view := c.view)
    else End(c.view, LaneQueue(side, c.view.local), e.done, e.names + [c.view.local])
  }

  function Without(frames: seq<Sent>, i: nat): seq<Sent>
    requires i < |frames|
  {
    frames[..i] + frames[i + 1..]
  }

  function Sending(frames: seq<Sent>, i: nat, c: Commit): seq<Sent>
    requires i < |frames|
  {
    Without(frames, i) + if c.sent.Some? then [c.sent.value] else []
  }

  function DataCommit(cfg: Config, l: Link, act: Act): Outcome<Commit>
    requires act.DataActs? && act.i < |l.frames|
  {
    DataTurn(l.data.view, l.frames[act.i].frame, act.wake, act.clock, cfg.data, cfg.heartbeat)
  }

  function AckCommit(cfg: Config, l: Link, act: Act): Outcome<Commit>
    requires act.AckActs? && act.i < |l.frames|
  {
    AckTurn(l.ack.view, l.frames[act.i].frame, act.write, act.clock, cfg.ack)
  }

  /** An end takes a turn on a frame in the queue it watches. */
  predicate Enabled(cfg: Config, l: Link, act: Act)
  {
    && act.i < |l.frames|
    && match act
       case DataActs(i, _, _) => !l.data.done && l.frames[i].to == l.data.watching && DataCommit(cfg, l, act).Ok?
       case AckActs(i, _, _) => !l.ack.done && l.frames[i].to == l.ack.watching && AckCommit(cfg, l, act).Ok?
       case Refuses(i) =>
         !l.ack.done && l.frames[i].to == l.ack.watching && l.turns == [] && l.frames[i].frame.meta &&
           WellFormed(l.frames[i].frame)
  }

  function Do(cfg: Config, l: Link, act: Act): Link
    requires Enabled(cfg, l, act)
  {
    match act
    case DataActs(i, wake, _) =>
      var c := DataCommit(cfg, l, act).value;
      var body := if c.sent.Some? then c.sent.value.frame.body else [];
      l.(data := Landed(l.data, DataEnd, c), frames := Sending(l.frames, i, c), taken := l.taken + body,
         turns := l.turns + [c.kind])
    case AckActs(i, write, _) =>
      var c := AckCommit(cfg, l, act).value;
      var f := l.frames[i].frame;
      l.(ack := Landed(l.ack, AckEnd, c), frames := Sending(l.frames, i, c), turns := l.turns + [c.kind],
         written := l.written + Through(f.body, write),
         broke := l.broke || (Consumes(f) && write.Broke?), error := l.error || f.error)
    case Refuses(i) =>
      var c := AckFailure(l.ack.view, l.frames[i].frame);
      l.(ack := Landed(l.ack, AckEnd, c), frames := Sending(l.frames, i, c), turns := l.turns + [c.kind], broke := true)
  }

  ghost predicate Runs(cfg: Config, l: Link, acts: seq<Act>, l': Link)
    decreases |acts|
  {
    if acts == [] then l' == l
    else Enabled(cfg, l, acts[0]) && Runs(cfg, Do(cfg, l, acts[0]), acts[1..], l')
  }

  ghost predicate Reachable(cfg: Config, l: Link)
  {
    exists start, made, accepted, acts :: Start(cfg, start, made, accepted) && Runs(cfg, start, acts, l)
  }

  // ---------------------------------------------------------------- routing

  /** The names an end has had, each used once, the last of them its queue now. */
  predicate Names(e: End, side: Side)
  {
    && e.names != [] && e.names[|e.names| - 1] == e.view.local
    && (forall i, j | 0 <= i < j < |e.names| :: e.names[i] < e.names[j])
    && e.watching == LaneQueue(side, e.view.local)
  }

  /** f is on its way from one end to the other, in the queue that is watched. */
  predicate OnItsWay(from: End, side: Side, to: End, s: Sent)
  {
    && s.to == to.watching && !to.done
    && WellFormed(s.frame)
    && from.done == s.frame.final
    && (!s.frame.final ==> s.frame.reply == Some(LaneQueue(side, from.view.local)))
  }

  predicate Routed(l: Link)
  {
    && Names(l.data, DataEnd) && Names(l.ack, AckEnd)
    && match |l.frames|
       case 0 => l.data.done && l.ack.done
       case 1 =>
         if l.frames[0].to.LaneQueue? && l.frames[0].to.side == AckEnd then
           OnItsWay(l.data, DataEnd, l.ack, l.frames[0])
         else OnItsWay(l.ack, AckEnd, l.data, l.frames[0]) && l.frames[0].frame.body == [] && !l.frames[0].frame.meta
              && l.frames[0].frame.error == l.frames[0].frame.final
       case _ => false
  }

  lemma StartRouted(cfg: Config, l: Link, made: int, accepted: int)
    requires Start(cfg, l, made, accepted)
    ensures Routed(l)
  {
  }

  lemma LandedNames(e: End, side: Side, c: Commit)
    requires Names(e, side)
    requires if c.kind.Plain? || c.kind.Ends? then c.view.local == e.view.local else c.view.local > e.view.local
    ensures Names(Landed(e, side, c), side)
  {
  }

  /** What a turn of the data end can be. */
  lemma DataTurns(v: View, ack: Frame, wake: Wake, clock: Clock, timing: Timing, heartbeat: int)
    requires WellFormed(ack) && DataTurn(v, ack, wake, clock, timing, heartbeat).Ok?
    ensures var c := DataTurn(v, ack, wake, clock, timing, heartbeat).value;
            && (if c.kind.Plain? || c.kind.Ends? then c.view.local == v.local else c.view.local > v.local)
            && (ack.final ==> c.kind.Ends? && c.sent.None?)
            && (!ack.final ==> c.sent.Some? && c.sent.value.to == ack.reply.value && WellFormed(c.sent.value.frame))
            && (!ack.final ==> (c.sent.value.frame.final <==> c.kind.Ends?))
            && (!ack.final && !c.kind.Ends? ==> c.sent.value.frame.reply == Some(LaneQueue(DataEnd, c.view.local)))
  {
  }

  lemma AckTurns(v: View, f: Frame, write: Write, clock: Clock, timing: Timing)
    requires AckTurn(v, f, write, clock, timing).Ok?
    ensures var c := AckTurn(v, f, write, clock, timing).value;
            && WellFormed(f)
            && (if c.kind.Plain? || c.kind.Ends? then c.view.local == v.local else c.view.local > v.local)
            && (f.final ==> c.kind.Ends? && c.sent.None?)
            && (!f.final ==> c.sent.Some? && c.sent.value.to == f.reply.value && WellFormed(c.sent.value.frame))
            && (!f.final ==> (c.sent.value.frame.final <==> c.kind.Ends?))
            && (!f.final ==> c.sent.value.frame.body == [] && !c.sent.value.frame.meta)
            && (!f.final ==> c.sent.value.frame.error == c.sent.value.frame.final)
            && (!f.final && !c.kind.Ends? ==> c.sent.value.frame.reply == Some(LaneQueue(AckEnd, c.view.local)))
  {
  }

  lemma OneFrame(s: Sent, c: Commit)
    ensures Sending([s], 0, c) == if c.sent.Some? then [c.sent.value] else []
  {
  }

  lemma DataRoutes(cfg: Config, l: Link, act: Act)
    requires Routed(l) && act.DataActs? && Enabled(cfg, l, act)
    ensures Routed(Do(cfg, l, act))
  {
    var s := l.frames[0];
    var c := DataCommit(cfg, l, act).value;
    DataTurns(l.data.view, s.frame, act.wake, act.clock, cfg.data, cfg.heartbeat);
    LandedNames(l.data, DataEnd, c);
    assert l.frames == [s];
    OneFrame(s, c);
  }

  lemma AckRoutes(cfg: Config, l: Link, act: Act)
    requires Routed(l) && act.AckActs? && Enabled(cfg, l, act)
    ensures Routed(Do(cfg, l, act))
  {
    var s := l.frames[0];
    var c := AckCommit(cfg, l, act).value;
    AckTurns(l.ack.view, s.frame, act.write, act.clock, cfg.ack);
    LandedNames(l.ack, AckEnd, c);
    assert l.frames == [s];
    OneFrame(s, c);
  }

  /** Every turn keeps the lane routed. */
  lemma TurnRoutes(cfg: Config, l: Link, act: Act)
    requires Routed(l) && Enabled(cfg, l, act)
    ensures Routed(Do(cfg, l, act))
  {
    match act
    case DataActs(_, _, _) => DataRoutes(cfg, l, act);
    case AckActs(_, _, _) => AckRoutes(cfg, l, act);
    case Refuses(_) =>
      assert l.frames == [l.frames[0]];
      OneFrame(l.frames[0], AckFailure(l.ack.view, l.frames[0].frame));
      LandedNames(l.ack, AckEnd, AckFailure(l.ack.view, l.frames[0].frame));
  }

  // ---------------------------------------------------------------- bodies

  /** The bytes of a data frame on its way; none while an acknowledgement is. */
  function InFlight(frames: seq<Sent>): Text
  {
    if |frames| == 1 && frames[0].to.LaneQueue? && frames[0].to.side == AckEnd then frames[0].frame.body else []
  }

  predicate Carried(l: Link)
  {
    if l.broke then l.written <= l.taken && InFlight(l.frames) == [] else l.written + InFlight(l.frames) == l.taken
  }

  /** A write that broke is the last thing the acknowledging end did. */
  predicate BrokeEnds(l: Link)
  {
    l.broke ==> l.ack.done
  }

  lemma DataCarries(cfg: Config, l: Link, act: Act)
    requires Routed(l) && Carried(l) && BrokeEnds(l) && act.DataActs? && Enabled(cfg, l, act)
    ensures Carried(Do(cfg, l, act)) && BrokeEnds(Do(cfg, l, act))
  {
    var s, c := l.frames[0], DataCommit(cfg, l, act).value;
    assert l.frames == [s];
    DataTurns(l.data.view, s.frame, act.wake, act.clock, cfg.data, cfg.heartbeat);
    OneFrame(s, c);
    assert l.written + [] == l.written && l.taken + [] == l.taken;
  }

  lemma AckCarries(cfg: Config, l: Link, act: Act)
    requires Routed(l) && Carried(l) && BrokeEnds(l) && act.AckActs? && Enabled(cfg, l, act)
    ensures Carried(Do(cfg, l, act)) && BrokeEnds(Do(cfg, l, act))
  {
    var s, c := l.frames[0], AckCommit(cfg, l, act).value;
    assert l.frames == [s];
    AckTurns(l.ack.view, s.frame, act.write, act.clock, cfg.ack);
    OneFrame(s, c);
    assert s.frame.body == [] || Consumes(s.frame);
    assert (l.written + s.frame.body) + [] == l.written + s.frame.body;
  }

  lemma TurnCarries(cfg: Config, l: Link, act: Act)
    requires Routed(l) && Carried(l) && BrokeEnds(l) && Enabled(cfg, l, act)
    ensures Carried(Do(cfg, l, act)) && BrokeEnds(Do(cfg, l, act))
  {
    match act
    case DataActs(_, _, _) => DataCarries(cfg, l, act);
    case AckActs(_, _, _) => AckCarries(cfg, l, act);
    case Refuses(_) =>
      assert l.frames == [l.frames[0]];
      OneFrame(l.frames[0], AckFailure(l.ack.view, l.frames[0].frame));
  }

  // ---------------------------------------------------------------- switches

  /** Each switch that is not cut short is answered by the next turn, and only a
      switch is. */
  predicate Answered(turns: seq<Kind>)
  {
    && (turns != [] ==> !turns[0].Reciprocates?)
    && (forall i | 1 <= i < |turns| :: AnswersAt(turns, i))
  }

  /** The same from the second turn on, by when both ends have heard of each
      other's queue. */
  predicate AnsweredLater(turns: seq<Kind>)
  {
    forall i | 2 <= i < |turns| :: AnswersAt(turns, i)
  }

  /** Turn i goes on, and answers the turn before it if that was a switch. */
  predicate AnswersAt(turns: seq<Kind>, i: int)
    requires 1 <= i < |turns|
  {
    !turns[i].Ends? ==> (turns[i].Reciprocates? <==> turns[i - 1].Initiates?)
  }

  /** How a switch in the first turn still bears on the later ones. Its end awaits a
      switch in return (Early), until it switches again (Usual) or the other end
      does (Crossing) and is not answered (Crossed). */
  datatype Bearing = Usual | Early | Crossing | Crossed

  function BearingOf(turns: seq<Kind>): Bearing
  {
    if turns == [] then Usual
    else
      var last := turns[|turns| - 1];
      if |turns| == 1 then (if last.Initiates? then Early else Usual)
      else
        match BearingOf(turns[..|turns| - 1])
        case Usual => Usual
        case Early => if !last.Initiates? then Early else if |turns| % 2 == 1 then Usual else Crossing
        case Crossing => if last.Ends? then Crossing else Crossed
        case Crossed => Crossed
  }

  /** The first switch after turn 0. */
  predicate FirstLater(turns: seq<Kind>, i: nat)
  {
    1 <= i < |turns| && turns[i].Initiates? && forall j | 1 <= j < i :: !turns[j].Initiates?
  }

  /** Turn 0 switched, the other end made the first switch after it, and the lane
      went on. */
  ghost predicate Swallowed(turns: seq<Kind>)
  {
    turns != [] && turns[0].Initiates? &&
    exists i: nat :: FirstLater(turns, i) && i % 2 == 1 && i + 1 < |turns| && !turns[i + 1].Ends?
  }

  function LastTurn(turns: seq<Kind>): Kind
    requires turns != []
  {
    turns[|turns| - 1]
  }

  /** Who awaits a switch while a frame goes from x to y. */
  predicate Awaits(x: View, y: View, turns: seq<Kind>)
  {
    match BearingOf(turns)
    case Usual =>
      && (x.awaiting <==> turns != [] && LastTurn(turns).Initiates?)
      && (y.awaiting <==> turns != [] && LastTurn(turns).Reciprocates?)
    case Early => x.awaiting == (|turns| % 2 == 1) && y.awaiting == (|turns| % 2 == 0)
    case Crossing => x.awaiting && y.awaiting
    case Crossed => true
  }

  /** What the ends know while a frame that is not final goes from x to y. */
  predicate Aware(x: View, y: View, ys: Side, reply: Name, turns: seq<Kind>)
  {
    && Awaits(x, y, turns)
    && match |turns|
       case 0 => x.peer.None? && y.peer.None?
       case 1 => x.peer == Some(LaneQueue(ys, y.local)) && y.peer.None?
       case _ =>
         && x.peer == Some(LaneQueue(ys, y.local)) && y.peer.Some?
         && (y.peer.value == reply <==> LastTurn(turns).Plain?)
  }

  predicate Talking(l: Link)
  {
    |l.frames| == 1 && !l.frames[0].frame.final && l.frames[0].frame.reply.Some? ==>
      var s := l.frames[0];
      if s.to.LaneQueue? && s.to.side == AckEnd then
        Aware(l.data.view, l.ack.view, AckEnd, s.frame.reply.value, l.turns)
      else Aware(l.ack.view, l.data.view, DataEnd, s.frame.reply.value, l.turns)
  }

  /** What has come of the switches so far. */
  predicate Told(turns: seq<Kind>)
  {
    && (AnsweredLater(turns) <==> !BearingOf(turns).Crossed?)
    && (turns != [] ==> !turns[0].Reciprocates?)
    && (|turns| >= 2 ==> !turns[1].Reciprocates?)
    && (BearingOf(turns).Early? && |turns| >= 2 ==> !LastTurn(turns).Initiates? && !LastTurn(turns).Reciprocates?)
    && (BearingOf(turns).Crossing? && !LastTurn(turns).Ends? ==> |turns| >= 2 && LastTurn(turns).Initiates?)
    && EndsLast(turns)
  }

  /** What a turn that goes on makes of the turn before it. */
  predicate Tells(turns: seq<Kind>, kind: Kind)
  {
    && (|turns| <= 1 ==> !kind.Reciprocates?)
    && (|turns| >= 2 && BearingOf(turns).Usual? ==> (kind.Reciprocates? <==> LastTurn(turns).Initiates?))
    && (BearingOf(turns).Early? || BearingOf(turns).Crossing? ==> !kind.Reciprocates?)
  }

  /** A frame is final, or there is none, exactly once a turn has ended the lane. */
  predicate EndsTold(l: Link)
  {
    (|l.frames| == 1 && !l.frames[0].frame.final) <==> !(l.turns != [] && LastTurn(l.turns).Ends?)
  }

  /** How a turn that goes on treats a switch. */
  predicate Switches(v: View, reply: Name, c: Commit)
  {
    && Observed(v, reply).Ok?
    && var (seen, reciprocate) := Observed(v, reply).value;
    && (c.kind.Reciprocates? <==> reciprocate)
    && c.view.peer == Some(reply)
    && c.view.awaiting == (c.kind.Initiates? || seen.awaiting)
  }

  lemma DataSwitches(v: View, ack: Frame, wake: Wake, clock: Clock, timing: Timing, heartbeat: int)
    requires DataTurn(v, ack, wake, clock, timing, heartbeat).Ok?
    ensures var c := DataTurn(v, ack, wake, clock, timing, heartbeat).value;
            !c.kind.Ends? ==> ack.reply.Some? && Switches(v, ack.reply.value, c)
  {
  }

  lemma AckSwitches(v: View, f: Frame, write: Write, clock: Clock, timing: Timing)
    requires AckTurn(v, f, write, clock, timing).Ok?
    ensures var c := AckTurn(v, f, write, clock, timing).value;
            !c.kind.Ends? ==> f.reply.Some? && Switches(v, f.reply.value, c)
  {
  }

  lemma BearingGrows(turns: seq<Kind>, kind: Kind)
    requires turns != []
    ensures BearingOf(turns + [kind]) ==
            match BearingOf(turns) {
              case Usual => Usual
              case Early => if !kind.Initiates? then Early else if |turns| % 2 == 0 then Usual else Crossing
              case Crossing => if kind.Ends? then Crossing else Crossed
              case Crossed => Crossed
            }
  {
    assert (turns + [kind])[..|turns|] == turns;
  }

  /** After y's turn, the frame goes back from y to x. */
  lemma TurnAware(x: View, xs: Side, y: View, ys: Side, reply: Name, turns: seq<Kind>, c: Commit)
    requires xs != ys && reply == LaneQueue(xs, x.local) && Aware(x, y, ys, reply, turns) && Told(turns)
    requires turns != [] ==> !LastTurn(turns).Ends?
    requires Switches(y, reply, c) && !c.kind.Ends?
    requires if c.kind.Plain? then c.view.local == y.local else c.view.local > y.local
    ensures Aware(c.view, x, xs, LaneQueue(ys, c.view.local), turns + [c.kind])
    ensures Tells(turns, c.kind)
  {
    if turns != [] {
      BearingGrows(turns, c.kind);
    }
  }

  lemma ToldGrows(turns: seq<Kind>, kind: Kind)
    requires Told(turns) && Tells(turns, kind) && !kind.Ends? && (turns != [] ==> !LastTurn(turns).Ends?)
    ensures Told(turns + [kind])
  {
    if turns != [] {
      BearingGrows(turns, kind);
      LaterGrows(turns, kind);
    }
    EndsGrows(turns, kind);
  }

  lemma EndsGrows(turns: seq<Kind>, kind: Kind)
    requires EndsLast(turns) && (kind.Ends? || (turns != [] ==> !LastTurn(turns).Ends?))
    ensures EndsLast(turns + [kind])
  {
    var more := turns + [kind];
    forall i, j | 0 <= i < j < |more| && more[i].Ends? ensures more[j].Ends? {
      if j == |turns| && i < j - 1 {
        assert turns[j - 1].Ends?;
      }
    }
  }

  lemma LaterGrows(turns: seq<Kind>, kind: Kind)
    requires turns != []
    ensures AnsweredLater(turns + [kind]) <==>
            AnsweredLater(turns) &&
              (|turns| >= 2 && !kind.Ends? ==> (kind.Reciprocates? <==> LastTurn(turns).Initiates?))
  {
    var more := turns + [kind];
    assert more[|turns|] == kind && more[|turns| - 1] == LastTurn(turns);
    forall i | 2 <= i < |turns| ensures AnswersAt(more, i) == AnswersAt(turns, i) {
      assert more[i] == turns[i] && more[i - 1] == turns[i - 1];
    }
    assert |turns| >= 2 ==>
           AnswersAt(more, |turns|) == (!kind.Ends? ==> (kind.Reciprocates? <==> LastTurn(turns).Initiates?));
  }

  lemma ToldEnds(turns: seq<Kind>)
    requires Told(turns)
    ensures Told(turns + [Ends])
  {
    if turns != [] {
      BearingGrows(turns, Ends);
      LaterGrows(turns, Ends);
    }
    EndsGrows(turns, Ends);
  }

  function Other(side: Side): Side { if side == DataEnd then AckEnd else DataEnd }

  ghost predicate Switching(l: Link)
  {
    Talking(l) && Told(l.turns) && EndsTold(l)
  }

  lemma EndTells(l: Link, l': Link)
    requires Told(l.turns) && l'.turns == l.turns + [Ends] && (|l'.frames| == 1 ==> l'.frames[0].frame.final)
    ensures Switching(l')
  {
    ToldEnds(l.turns);
  }

  /** y has answered x's frame, and its own is on its way to x. */
  lemma GoesOn(l: Link, xs: Side, x: View, y: View, reply: Name, l': Link, c: Commit)
    requires Told(l.turns) && (l.turns != [] ==> !LastTurn(l.turns).Ends?)
    requires reply == LaneQueue(xs, x.local) && Aware(x, y, Other(xs), reply, l.turns)
    requires Switches(y, reply, c) && !c.kind.Ends?
    requires if c.kind.Plain? then c.view.local == y.local else c.view.local > y.local
    requires l'.turns == l.turns + [c.kind] && |l'.frames| == 1 && !l'.frames[0].frame.final
    requires l'.frames[0].to == reply && l'.frames[0].frame.reply == Some(LaneQueue(Other(xs), c.view.local))
    requires if xs == DataEnd then l'.data.view == x && l'.ack.view == c.view
             else l'.ack.view == x && l'.data.view == c.view
    ensures Switching(l')
  {
    TurnAware(x, xs, y, Other(xs), reply, l.turns, c);
    ToldGrows(l.turns, c.kind);
  }

  lemma DataTells(cfg: Config, l: Link, act: Act)
    requires Routed(l) && Switching(l) && act.DataActs? && Enabled(cfg, l, act)
    ensures Switching(Do(cfg, l, act))
  {
    var s, l' := l.frames[0], Do(cfg, l, act);
    assert l.frames == [s];
    var c := DataCommit(cfg, l, act).value;
    DataTurns(l.data.view, s.frame, act.wake, act.clock, cfg.data, cfg.heartbeat);
    DataSwitches(l.data.view, s.frame, act.wake, act.clock, cfg.data, cfg.heartbeat);
    OneFrame(s, c);
    if c.kind.Ends? {
      EndTells(l, l');
    } else {
      GoesOn(l, AckEnd, l.ack.view, l.data.view, s.frame.reply.value, l', c);
    }
  }

  lemma AckTells(cfg: Config, l: Link, act: Act)
    requires Routed(l) && Switching(l) && act.AckActs? && Enabled(cfg, l, act)
    ensures Switching(Do(cfg, l, act))
  {
    var s, l' := l.frames[0], Do(cfg, l, act);
    assert l.frames == [s];
    var c := AckCommit(cfg, l, act).value;
    AckTurns(l.ack.view, s.frame, act.write, act.clock, cfg.ack);
    AckSwitches(l.ack.view, s.frame, act.write, act.clock, cfg.ack);
    OneFrame(s, c);
    if c.kind.Ends? {
      EndTells(l, l');
    } else {
      GoesOn(l, DataEnd, l.data.view, l.ack.view, s.frame.reply.value, l', c);
    }
  }

  lemma TurnTells(cfg: Config, l: Link, act: Act)
    requires Routed(l) && Switching(l) && Enabled(cfg, l, act)
    ensures Switching(Do(cfg, l, act))
  {
    match act
    case DataActs(_, _, _) => DataTells(cfg, l, act);
    case AckActs(_, _, _) => AckTells(cfg, l, act);
    case Refuses(_) =>
      assert l.frames == [l.frames[0]];
      OneFrame(l.frames[0], AckFailure(l.ack.view, l.frames[0].frame));
      EndTells(l, Do(cfg, l, act));
  }

  // ---------------------------------------------------------------- every run

  ghost predicate Inv(l: Link)
  {
    Routed(l) && Carried(l) && BrokeEnds(l) && Switching(l)
  }

  lemma {:induction false} RunKeeps(cfg: Config, l: Link, acts: seq<Act>, l': Link)
    requires Inv(l) && Runs(cfg, l, acts, l')
    ensures Inv(l')
    decreases |acts|
  {
    if acts != [] {
      TurnRoutes(cfg, l, acts[0]);
      TurnCarries(cfg, l, acts[0]);
      TurnTells(cfg, l, acts[0]);
      RunKeeps(cfg, Do(cfg, l, acts[0]), acts[1..], l');
    }
  }

  lemma StartOk(cfg: Config, l: Link, made: int, accepted: int)
    requires Start(cfg, l, made, accepted)
    ensures Inv(l)
  {
    StartRouted(cfg, l, made, accepted);
  }

  lemma ReachableOk(cfg: Config, l: Link)
    requires Reachable(cfg, l)
    ensures Inv(l)
  {
    var start, made, accepted, acts :| Start(cfg, start, made, accepted) && Runs(cfg, start, acts, l);
    StartOk(cfg, start, made, accepted);
    RunKeeps(cfg, start, acts, l);
  }

  lemma {:induction false} RunsOn(cfg: Config, l: Link, acts: seq<Act>, m: Link, act: Act)
    requires Runs(cfg, l, acts, m) && Enabled(cfg, m, act)
    ensures Runs(cfg, l, acts + [act], Do(cfg, m, act))
    decreases |acts|
  {
    if acts == [] {
      assert ([] + [act])[1..] == [] && Runs(cfg, Do(cfg, l, act), [], Do(cfg, l, act));
    } else {
      RunsOn(cfg, Do(cfg, l, acts[0]), acts[1..], m, act);
      assert (acts + [act])[1..] == acts[1..] + [act];
    }
  }

  lemma {:induction false} TurnsGrow(cfg: Config, l: Link, acts: seq<Act>, l': Link)
    requires Runs(cfg, l, acts, l')
    ensures |l'.turns| == |l.turns| + |acts| && l.turns <= l'.turns
    decreases |acts|
  {
    if acts != [] {
      TurnsGrow(cfg, Do(cfg, l, acts[0]), acts[1..], l');
    }
  }

  /** Over every sequence of landed turns a lane has at most one frame in flight,
      none only once both ends have finished; it lies in the queue its recipient is
      watching, wherever either end has rotated to; and no end ever uses a queue
      name twice. */
  lemma Routing(cfg: Config, l: Link)
    requires Reachable(cfg, l)
    ensures |l.frames| <= 1 && (l.frames == [] <==> l.data.done && l.ack.done)
    ensures |l.frames| == 1 ==>
              || (l.frames[0].to == l.ack.watching && !l.ack.done)
              || (l.frames[0].to == l.data.watching && !l.data.done)
    ensures |l.frames| == 1 && l.frames[0].frame.reply.Some? ==>
              l.frames[0].frame.reply.value ==
                if l.frames[0].to == l.ack.watching then l.data.watching else l.ack.watching
    ensures forall i, j | 0 <= i < j < |l.data.names| :: l.data.names[i] != l.data.names[j]
    ensures forall i, j | 0 <= i < j < |l.ack.names| :: l.ack.names[i] != l.ack.names[j]
  {
    ReachableOk(cfg, l);
  }

  /** What was written at the far end, followed by what is in flight, is what was
      taken from the near source: in order, nothing lost or repeated. A write that
      breaks leaves a prefix, and ends the lane; without one, the two ends are
      equal once the lane is over. */
  lemma Bodies(cfg: Config, l: Link)
    requires Reachable(cfg, l)
    ensures !l.broke ==> l.written + InFlight(l.frames) == l.taken
    ensures l.broke ==> l.written <= l.taken && l.ack.done
    ensures l.frames == [] && !l.broke ==> l.written == l.taken
  {
    ReachableOk(cfg, l);
    assert l.written + [] == l.written;
  }

  /** The guards under which a lane's first turn initiates a switch: of the data end,
      that the peer's queue must be left before an idle turn's heartbeat, or that
      its own is due when it has something to send; of the acknowledging end, that
      its own is due. */
  predicate SwitchDue(cfg: Config, l: Link, act: Act)
  {
    match act
    case DataActs(_, Idle, clock) => clock.asked + cfg.heartbeat >= ForceAt(l.ack.view.local, cfg.data)
    case DataActs(_, More(_, _), clock) => PiggybackDue(l.data.view.local, clock.now, cfg.data)
    case AckActs(_, _, clock) => PiggybackDue(l.ack.view.local, clock.now, cfg.ack)
    case _ => false
  }

  lemma FirstTurnSwitches(cfg: Config, l: Link, made: int, accepted: int, act: Act)
    requires Start(cfg, l, made, accepted) && Enabled(cfg, l, act)
    ensures var turns := Do(cfg, l, act).turns; |turns| == 1 && (turns[0].Initiates? <==> SwitchDue(cfg, l, act))
  {
  }

  /** Each initiated switch draws exactly one reciprocal one, unless it is cut
      short, exactly when the lane's first turn, whose frame is the first its peer
      hears of its queue, came before a switch was due, or was the last to go on. */
  lemma ReciprocityExactlyWhen(cfg: Config, start: Link, made: int, accepted: int, acts: seq<Act>, l: Link)
    requires Start(cfg, start, made, accepted) && Runs(cfg, start, acts, l)
    ensures |l.turns| == |acts|
    ensures Answered(l.turns) <==> !(|acts| >= 2 && SwitchDue(cfg, start, acts[0]) && !l.turns[1].Ends?)
  {
    StartOk(cfg, start, made, accepted);
    RunKeeps(cfg, start, acts, l);
    TurnsGrow(cfg, start, acts, l);
    if acts != [] {
      FirstTurnSwitches(cfg, start, made, accepted, acts[0]);
      TurnsGrow(cfg, Do(cfg, start, acts[0]), acts[1..], l);
    }
    if l.turns != [] && !l.turns[0].Initiates? {
      UsualStays(l.turns);
    }
    FirstAnswered(l.turns);
  }

  lemma FirstAnswered(turns: seq<Kind>)
    requires (turns != [] ==> !turns[0].Reciprocates?) && (|turns| >= 2 ==> !turns[1].Reciprocates?) && EndsLast(turns)
    requires turns != [] && !turns[0].Initiates? ==> AnsweredLater(turns)
    ensures Answered(turns) <==> !(|turns| >= 2 && turns[0].Initiates? && !turns[1].Ends?)
  {
    if turns != [] && !turns[0].Initiates? {
      assert forall i | 1 <= i < |turns| :: AnswersAt(turns, i);
    } else if |turns| >= 2 {
      assert AnswersAt(turns, 1) == turns[1].Ends?;
      assert turns[1].Ends? ==> forall i | 1 <= i < |turns| :: AnswersAt(turns, i);
    }
  }

  lemma {:induction false} UsualStays(turns: seq<Kind>)
    requires turns != [] && !turns[0].Initiates?
    ensures BearingOf(turns).Usual?
  {
    if |turns| > 1 {
      UsualStays(turns[..|turns| - 1]);
    }
  }

  /** From when both ends have heard of each other: each initiated switch draws
      exactly one reciprocal one, unless it is cut short, exactly when it is not
      the case that turn 0 switched, the other end made the first switch after it,
      and the lane went on. Then the end that switched in turn 0 takes that switch
      for the answer to its own. */
  lemma LaterReciprocityExactlyWhen(cfg: Config, l: Link)
    requires Reachable(cfg, l)
    ensures AnsweredLater(l.turns) <==> !Swallowed(l.turns)
  {
    ReachableOk(cfg, l);
    BearingMeans(l.turns);
  }

  predicate NoneLater(turns: seq<Kind>)
  {
    forall j | 1 <= j < |turns| :: !turns[j].Initiates?
  }

  /** What the bearing says of the turns. */
  ghost predicate Bears(turns: seq<Kind>)
  {
    match BearingOf(turns)
    case Usual => turns == [] || !turns[0].Initiates? || exists i: nat :: FirstLater(turns, i) && i % 2 == 0
    case Early => turns != [] && turns[0].Initiates? && NoneLater(turns)
    case Crossing =>
      && turns != [] && turns[0].Initiates?
      && exists i: nat :: FirstLater(turns, i) && i % 2 == 1 && forall j | i < j < |turns| :: turns[j].Ends?
    case Crossed => Swallowed(turns)
  }

  predicate EndsLast(turns: seq<Kind>)
  {
    forall i, j | 0 <= i < j < |turns| && turns[i].Ends? :: turns[j].Ends?
  }

  lemma {:induction false} BearingBears(turns: seq<Kind>)
    requires EndsLast(turns)
    ensures Bears(turns)
  {
    if |turns| > 1 {
      var front, last := turns[..|turns| - 1], turns[|turns| - 1];
      BearingBears(front);
      BearsOn(front, last);
      assert front + [last] == turns;
    }
  }

  lemma FirstStays(front: seq<Kind>, last: Kind, i: nat)
    requires FirstLater(front, i)
    ensures FirstLater(front + [last], i)
  {
  }

  lemma BearsOn(front: seq<Kind>, last: Kind)
    requires front != [] && Bears(front) && EndsLast(front + [last])
    ensures Bears(front + [last])
  {
    var turns := front + [last];
    BearingGrows(front, last);
    match BearingOf(front)
    case Usual =>
      if front[0].Initiates? {
        var i: nat :| FirstLater(front, i) && i % 2 == 0;
        FirstStays(front, last, i);
      }
    case Early =>
      if last.Initiates? {
        assert FirstLater(turns, |front|);
      }
    case Crossing =>
      var i: nat :| FirstLater(front, i) && i % 2 == 1 && forall j | i < j < |front| :: front[j].Ends?;
      FirstStays(front, last, i);
      assert turns[i + 1].Ends? ==> last.Ends?;
    case Crossed =>
      var i: nat :| FirstLater(front, i) && i % 2 == 1 && i + 1 < |front| && !front[i + 1].Ends?;
      FirstStays(front, last, i);
  }

  lemma BearingMeans(turns: seq<Kind>)
    requires EndsLast(turns)
    ensures BearingOf(turns).Crossed? <==> Swallowed(turns)
  {
    BearingBears(turns);
    if Swallowed(turns) {
      var i: nat :| FirstLater(turns, i) && i % 2 == 1 && i + 1 < |turns| && !turns[i + 1].Ends?;
      assert forall k: nat | FirstLater(turns, k) :: k == i;
    }
  }
}
