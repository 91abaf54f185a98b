/** The queues on which the two ends of an eqlink lane await each other's frames. */
module Lanes {
  import opened Outcomes

  /** Times are in nanoseconds since the Unix epoch, deadlines in whole seconds. */
  const SECOND := 1_000_000_000
  const ZERO_TIME := -62135596800

  datatype Timing = Timing(lifetime: int, piggybackBefore: int, forceBefore: int) {
    /** validate. */
    predicate Valid()
    {
      lifetime > 0 && forceBefore < piggybackBefore < lifetime && forceBefore > 0
    }
  }

  /** The end of a lane that sends data, and the end that acknowledges it. */
  datatype Side = DataEnd | AckEnd

  /** A queue name as the peer sees it: one made by sessionQueue, whose deadline it
      can read back, or some other text. */
  datatype Name = LaneQueue(side: Side, collectAt: int) | Foreign(text: string)

  /** rotate's new deadline. */
  function Rotation(collectAt: int, now: int, timing: Timing): (next: int)
    ensures next > collectAt
  {
    var at := (now + timing.lifetime) / SECOND;
    if at > collectAt then at else collectAt + 1
  }

  predicate PiggybackDue(collectAt: int, now: int, timing: Timing)
  {
    now >= collectAt * SECOND - timing.piggybackBefore
  }

  function ForceAt(collectAt: int, timing: Timing): int
  {
    collectAt * SECOND - timing.forceBefore
  }

  /** What one end knows of its lane. */
  datatype View = View(local: int, peer: Option<Name>, awaiting: bool)

  /** A queue that differs from the one known before. The first one known does not. */
  predicate Changes(v: View, queue: Name)
  {
    v.peer.Some? && v.peer.value != queue
  }

  /** What observing a peer's queue leaves; whether it must be reciprocated. */
  function Observed(v: View, queue: Name): Outcome<(View, bool)>
  {
    if queue.Foreign? then Failed
    else if !Changes(v, queue) then Ok((v.(peer := Some(queue)), false))
    else Ok((v.(peer := Some(queue), awaiting := false), !v.awaiting))
  }

  function Initiated(v: View, now: int, timing: Timing): View
  {
    v.(local := Rotation(v.local, now, timing), awaiting := true)
  }

  function Reciprocated(v: View, now: int, timing: Timing): View
  {
    v.(local := Rotation(v.local, now, timing))
  }

  // ---------------------------------------------------------------- as the ends keep it

  class ReceiveLane {
    const side: Side
    const timing: Timing
    var collectAt: int
    var queue: Name

    ghost predicate Valid()
      reads this
    {
      queue == LaneQueue(side, collectAt)
    }

    constructor (side: Side, now: int, timing: Timing)
      ensures Valid() && this.side == side && this.timing == timing && collectAt == Rotation(ZERO_TIME, now, timing)
    {
      this.side, this.timing := side, timing;
      collectAt := Rotation(ZERO_TIME, now, timing);
      queue := LaneQueue(side, Rotation(ZERO_TIME, now, timing));
    }

    /** A name that the lane has not had before: deadlines only grow. */
    method Rotate(now: int) returns (name: Name)
      modifies this
      ensures Valid() && name == queue && collectAt > old(collectAt) &&
              collectAt == Rotation(old(collectAt), now, timing)
    {
      var at := (now + timing.lifetime) / SECOND;
      if at <= collectAt {
        at := collectAt + 1;
      }
      collectAt := at;
      queue := LaneQueue(side, collectAt);
      name := queue;
    }

    predicate ShouldPiggyback(now: int)
      reads this
    {
      PiggybackDue(collectAt, now, timing)
    }
  }

  class PeerLane {
    var queue: Option<Name>
    var collectAt: int

    ghost predicate Valid()
      reads this
    {
      queue.Some? ==> queue.value.LaneQueue? && collectAt == queue.value.collectAt
    }

    constructor ()
      ensures Valid() && queue == None
    {
      queue, collectAt := None, ZERO_TIME;
    }

    method Observe(name: Name) returns (changed: Outcome<bool>)
      requires Valid()
      modifies this
      ensures Valid()
      ensures name.Foreign? ==> changed.Failed? && queue == old(queue)
      ensures !name.Foreign? ==> changed == Ok(old(queue).Some? && name != old(queue).value) && queue == Some(name)
    {
      match name {
        case Foreign(_) => return Failed;
        case LaneQueue(_, at) =>
          changed := Ok(queue.Some? && name != queue.value);
          queue, collectAt := Some(name), at;
      }
    }
  }

  class SessionLanes {
    const local: ReceiveLane
    const peer: PeerLane
    var awaitingSwitch: bool

    constructor (local: ReceiveLane)
      requires local.Valid()
      ensures Valid() && this.local == local && fresh(peer) && Known() == View(local.collectAt, None, false)
    {
      this.local := local;
      peer := new PeerLane();
      awaitingSwitch := false;
    }

    ghost predicate Valid()
      reads this, local, peer
    {
      local.Valid() && peer.Valid()
    }

    ghost function Known(): View
      reads this, local, peer
    {
      View(local.collectAt, peer.queue, awaitingSwitch)
    }

    method ObservePeer(name: Name) returns (reciprocate: Outcome<bool>)
      requires Valid()
      modifies this, peer
      ensures Valid()
      ensures match Observed(old(Known()), name)
              case Ok(seen) => Known() == seen.0 && reciprocate == Ok(seen.1)
              case Failed => Known() == old(Known()) && reciprocate.Failed?
    {
      var changed := peer.Observe(name);
      if changed.Failed? {
        return Failed;
      }
      if !changed.value {
        return Ok(false);
      }
      if awaitingSwitch {
        awaitingSwitch := false;
        return Ok(false);
      }
      reciprocate := Ok(true);
    }

    method InitiateSwitch(now: int) returns (name: Name)
      requires Valid()
      modifies this, local
      ensures Valid() && Known() == Initiated(old(Known()), now, local.timing) && name == local.queue
    {
      awaitingSwitch := true;
      name := local.Rotate(now);
    }

    method ReciprocateSwitch(now: int) returns (name: Name)
      requires Valid()
      modifies local
      ensures Valid() && Known() == Reciprocated(old(Known()), now, local.timing) && name == local.queue
    {
      name := local.Rotate(now);
    }
  }
}
