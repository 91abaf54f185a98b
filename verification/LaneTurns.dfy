/** One turn at either end of an eqlink lane: what a handler makes of the frame it
    claimed, and what its commit sends. */
module LaneTurns {
  import opened Texts
  import opened Outcomes
  import opened Lanes

  /** A frame: the queue its sender awaits an answer on, whether it is the last of
      its direction, whether it carries an error, opening metadata, and bytes. */
  datatype Frame = Frame(reply: Option<Name>, final: bool, error: bool, meta: bool, body: Text)

  /** What a turn means for the lane. */
  datatype Kind = Plain | Initiates | Reciprocates | Ends

  datatype Sent = Sent(to: Name, frame: Frame)

  datatype Commit = Commit(view: View, sent: Option<Sent>, kind: Kind)

  /** What the near source had in time: nothing, bytes, or its last bytes. */
  datatype Wake = Idle | More(meta: bool, body: Text) | Last(meta: bool, body: Text, error: bool)

  /** How writing a frame's bytes went. */
  datatype Write = Wrote | Broke(after: nat)

  /** When a handler asked for the time, first to wait and then to rotate. */
  datatype Clock = Clock(asked: int, now: int)

  function Control(side: Side, v: View): Frame
  {
    Frame(Some(LaneQueue(side, v.local)), false, false, false, [])
  }

  const ABORT := Frame(None, true, true, false, [])

  /** The handler's commit is the lane's turn on f. */
  ghost predicate Turned(turn: Outcome<Commit>, sent: Outcome<Option<Sent>>, kind: Kind, view: View)
  {
    match turn
    case Ok(c) => sent == Ok(c.sent) && kind == c.kind && view == c.view
    case Failed => sent.Failed?
  }

  // ---------------------------------------------------------------- the data end

  /** Whether an idle turn comes so late that the peer's queue must be rotated. */
  predicate Forced(v: View, clock: Clock, timing: Timing, heartbeat: int)
  {
    v.peer.Some? && v.peer.value.LaneQueue? && clock.asked + heartbeat >= ForceAt(v.peer.value.collectAt, timing)
  }

  function Answering(to: Name, v: View, kind: Kind, frame: Frame): Outcome<Commit>
  {
    Ok(Commit(v, Some(Sent(to, frame)), kind))
  }

  function DataAnswer(to: Name, v: View, reciprocate: bool, wake: Wake, clock: Clock, timing: Timing,
                      heartbeat: int): Outcome<Commit>
  {
    if reciprocate then
      var r := Reciprocated(v, clock.now, timing);
      Answering(to, r, Reciprocates, Control(DataEnd, r))
    else
      var i := Initiated(v, clock.now, timing);
      match wake
      case Idle =>
        if Forced(v, clock, timing, heartbeat) then Answering(to, i, Initiates, Control(DataEnd, i))
        else Answering(to, v, Plain, Control(DataEnd, v))
      case More(meta, body) =>
        if PiggybackDue(v.local, clock.now, timing) then
          Answering(to, i, Initiates, Control(DataEnd, i).(meta := meta, body := body))
        else Answering(to, v, Plain, Control(DataEnd, v).(meta := meta, body := body))
      case Last(meta, body, error) => Answering(to, v, Ends, Frame(None, true, error, meta, body))
  }

  /** The data end's turn on an acknowledgement. Failed is a fatal error: nothing
      commits and the session ends. */
  function DataTurn(v: View, ack: Frame, wake: Wake, clock: Clock, timing: Timing, heartbeat: int): Outcome<Commit>
  {
    if ack.meta || ack.body != [] then Failed
    else if ack.final then
      if !ack.error || ack.reply.Some? then Failed else Ok(Commit(v, None, Ends))
    else if ack.error || ack.reply.None? then Failed
    else
      match Observed(v, ack.reply.value)
      case Failed => Failed
      case Ok((seen, reciprocate)) => DataAnswer(ack.reply.value, seen, reciprocate, wake, clock, timing, heartbeat)
  }

  /** handleRequestAck and responseHandler, on the lanes as they are kept. */
  method HandleAck(lanes: SessionLanes, ack: Frame, wake: Wake, clock: Clock, heartbeat: int)
    returns (sent: Outcome<Option<Sent>>, kind: Kind)
    requires lanes.Valid() && lanes.local.side == DataEnd
    modifies lanes, lanes.local, lanes.peer
    ensures lanes.Valid()
    ensures Turned(DataTurn(old(lanes.Known()), ack, wake, clock, lanes.local.timing, heartbeat), sent, kind,
                   lanes.Known())
  {
    kind := Plain;
    if ack.meta || ack.body != [] {
      return Failed, kind;
    }
    if ack.final {
      if !ack.error || ack.reply.Some? {
        return Failed, kind;
      }
      return Ok(None), Ends;
    }
    if ack.error || ack.reply.None? {
      return Failed, kind;
    }
    var reciprocate := lanes.ObservePeer(ack.reply.value);
    if reciprocate.Failed? {
      return Failed, kind;
    }
    var frame := Frame(Some(lanes.local.queue), false, false, false, []);
    if reciprocate.value {
      var name := lanes.ReciprocateSwitch(clock.now);
      frame, kind := frame.(reply := Some(name)), Reciprocates;
    } else {
      match wake {
        case Idle =>
          if clock.asked + heartbeat >= lanes.peer.collectAt * SECOND - lanes.local.timing.forceBefore {
            var name := lanes.InitiateSwitch(clock.now);
            frame, kind := frame.(reply := Some(name)), Initiates;
          }
        case More(meta, body) =>
          frame := frame.(meta := meta, body := body);
          if lanes.local.ShouldPiggyback(clock.now) {
            var name := lanes.InitiateSwitch(clock.now);
            frame, kind := frame.(reply := Some(name)), Initiates;
          }
        case Last(meta, body, error) =>
          frame, kind := Frame(None, true, error, meta, body), Ends;
      }
    }
    sent := Ok(Some(Sent(ack.reply.value, frame)));
  }

  // ---------------------------------------------------------------- the acknowledging end

  predicate WellFormed(f: Frame)
  {
    && (f.final <==> f.reply.None?)
    && (f.error ==> f.final)
  }

  /** The answer to a write that failed: the sender is told if it awaits one. */
  function AckFailure(v: View, f: Frame): Commit
  {
    Commit(v, if f.reply.Some? then Some(Sent(f.reply.value, ABORT)) else None, Ends)
  }

  function AckAnswer(v: View, reciprocate: bool, f: Frame, clock: Clock, timing: Timing): Outcome<Commit>
    requires f.reply.Some?
  {
    if reciprocate then
      var r := Reciprocated(v, clock.now, timing);
      Answering(f.reply.value, r, Reciprocates, Control(AckEnd, r))
    else if PiggybackDue(v.local, clock.now, timing) then
      var i := Initiated(v, clock.now, timing);
      Answering(f.reply.value, i, Initiates, Control(AckEnd, i))
    else Answering(f.reply.value, v, Plain, Control(AckEnd, v))
  }

  /** Bytes are written, and an end is passed on, before the turn is answered. */
  predicate Consumes(f: Frame) { f.body != [] || f.final }

  /** The acknowledging end's turn on a data frame that its session accepts. */
  function AckTurn(v: View, f: Frame, write: Write, clock: Clock, timing: Timing): Outcome<Commit>
  {
    if !WellFormed(f) then Failed
    else if f.final then Ok(Commit(v, None, Ends))
    else
      match Observed(v, f.reply.value)
      case Failed => Failed
      case Ok((seen, reciprocate)) =>
        if Consumes(f) && write.Broke? then Ok(AckFailure(seen, f))
        else AckAnswer(seen, reciprocate, f, clock, timing)
  }

  /** The lane part of both handlers, once the frame's metadata is in order. */
  method Acknowledge(lanes: SessionLanes, f: Frame, write: Write, clock: Clock)
    returns (sent: Outcome<Option<Sent>>, kind: Kind)
    requires lanes.Valid() && lanes.local.side == AckEnd
    modifies lanes, lanes.local, lanes.peer
    ensures lanes.Valid()
    ensures Turned(AckTurn(old(lanes.Known()), f, write, clock, lanes.local.timing), sent, kind, lanes.Known())
  {
    kind := Plain;
    if !WellFormed(f) {
      return Failed, kind;
    }
    var reciprocate := Ok(false);
    if !f.final {
      reciprocate := lanes.ObservePeer(f.reply.value);
      if reciprocate.Failed? {
        return Failed, kind;
      }
    }
    if Consumes(f) && write.Broke? {
      return Ok(if f.reply.Some? then Some(Sent(f.reply.value, ABORT)) else None), Ends;
    }
    if f.final {
      return Ok(None), Ends;
    }
    if reciprocate.value {
      var _ := lanes.ReciprocateSwitch(clock.now);
      kind := Reciprocates;
    } else if lanes.local.ShouldPiggyback(clock.now) {
      var _ := lanes.InitiateSwitch(clock.now);
      kind := Initiates;
    }
    sent := Ok(Some(Sent(f.reply.value, Frame(Some(lanes.local.queue), false, false, false, []))));
  }

  // ---------------------------------------------------------------- sessions

  /** What of body a write got through. */
  function Through(body: Text, write: Write): Text
  {
    if write.Broke? && write.after < |body| then body[..write.after] else body
  }

  /** The receiver's end of the request lane. */
  class RequestEnd {
    const lanes: SessionLanes
    var open: bool
    var written: Text

    constructor (lanes: SessionLanes)
      ensures this.lanes == lanes && !open && written == []
    {
      this.lanes, open, written := lanes, false, [];
    }

    /** requestHandler. The first frame opens the upstream request; a frame that
        cannot open it is answered with an error, as one that cannot be written. */
    method Handle(f: Frame, opens: bool, write: Write, clock: Clock) returns (sent: Outcome<Option<Sent>>, kind: Kind)
      requires lanes.Valid() && lanes.local.side == AckEnd
      modifies this, lanes, lanes.local, lanes.peer
      ensures lanes.Valid() && (sent.Ok? ==> WellFormed(f) && f.meta == !old(open))
      ensures WellFormed(f) && f.meta == !old(open) ==> open == (old(open) || opens)
      ensures WellFormed(f) && f.meta == !old(open) && open ==>
                Turned(AckTurn(old(lanes.Known()), f, write, clock, lanes.local.timing), sent, kind, lanes.Known())
      ensures sent.Ok? && !open ==> kind == Ends && lanes.Known() == old(lanes.Known())
      ensures sent.Ok? && !open && f.reply.Some? ==> sent == Ok(AckFailure(lanes.Known(), f).sent)
      ensures written == old(written) + if sent.Ok? && open then Through(f.body, write) else []
    {
      kind := Plain;
      if !WellFormed(f) || f.meta == open {
        return Failed, kind;
      }
      if !open {
        if !opens {
          return Ok(Some(Sent(if f.reply.Some? then f.reply.value else Foreign(""), ABORT))), Ends;
        }
        open := true;
      }
      sent, kind := Acknowledge(lanes, f, write, clock);
      if sent.Ok? {
        written := written + Through(f.body, write);
      }
    }
  }

  /** The sender's end of the response lane. */
  class ResponseEnd {
    const lanes: SessionLanes
    var started: bool
    var broken: bool
    var written: Text

    constructor (lanes: SessionLanes)
      ensures this.lanes == lanes && !started && !broken && written == []
    {
      this.lanes, started, broken, written := lanes, false, false, [];
    }

    /** handleResponse. Metadata comes once, before any bytes or error; an error
        after the response has started is kept for the caller. */
    method Handle(f: Frame, write: Write, clock: Clock) returns (sent: Outcome<Option<Sent>>, kind: Kind)
      requires lanes.Valid() && lanes.local.side == AckEnd
      modifies this, lanes, lanes.local, lanes.peer
      ensures lanes.Valid()
      ensures sent.Ok? ==>
              WellFormed(f) && !(old(started) && f.meta) && (old(started) || f.meta || (f.body == [] && !f.error))
      ensures sent.Ok? ==> started == (old(started) || f.meta)
      ensures WellFormed(f) && !(old(started) && f.meta) && (old(started) || f.meta || (f.body == [] && !f.error)) ==>
                Turned(AckTurn(old(lanes.Known()), f, if f.body == [] then Wrote else write, clock, lanes.local.timing),
                       sent, kind, lanes.Known())
      ensures sent.Ok? ==> broken == (old(broken) || (old(started) && f.error && (f.body == [] || write.Wrote?)))
      ensures written == old(written) + if sent.Ok? then Through(f.body, write) else []
    {
      kind := Plain;
      if !WellFormed(f) || (started && f.meta) || (!started && !f.meta && (f.body != [] || f.error)) {
        return Failed, kind;
      }
      var wasStarted := started;
      sent, kind := Acknowledge(lanes, f, if f.body == [] then Wrote else write, clock);
      if sent.Ok? {
        started := started || f.meta;
        written := written + Through(f.body, write);
        if f.error && wasStarted && (f.body == [] || write.Wrote?) {
          broken := true;
        }
      }
    }
  }

  /** What runLane does with a turn that committed. */
  class LaneRun {
    const lanes: SessionLanes
    var watching: Name
    var done: bool

    constructor (lanes: SessionLanes)
      ensures this.lanes == lanes && watching == lanes.local.queue && !done
    {
      this.lanes, watching, done := lanes, lanes.local.queue, false;
    }

    method Landed(kind: Kind)
      requires lanes.Valid()
      modifies this
      ensures done == (old(done) || kind.Ends?)
      ensures watching == if kind.Initiates? || kind.Reciprocates? then LaneQueue(lanes.local.side, lanes.Known().local)
              else old(watching)
    {
      match kind {
        case Plain =>
        case Ends => done := true;
        case Initiates => watching := lanes.local.queue;
        case Reciprocates => watching := lanes.local.queue;
      }
    }
  }
}
