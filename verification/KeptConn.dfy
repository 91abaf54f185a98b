/** A conn that is kept alive while its owner waits: idle turns taken from a timer
    share it with the owner's own receives and sends. */
module KeptConn {
  import opened Outcomes

  /** What the underlying conn has seen. */
  datatype Op = Received | Sent

  /** Where the owner is. It receives a request, works, and sends the answer. */
  datatype Owner =
    | Ready
    | Receiving
    | GotRequest      // received, not yet owed
    | Working         // owes an answer
    | Clear           // has taken the answer over from the idle turns, not yet sent it
    | Sending
    | Stopped

  /** Where the idle turn in progress is. */
  datatype Turn = NoTurn | Began | SendingReady | AwaitsAnswer | ReceivingReady | Answered | TurnFailed

  /** The timers. held is whether the conn has one to stop, and live whether that one
      has yet to fire; running counts all that have yet to fire, also those it no
      longer holds; pending counts idle calls whose timer has fired and that wait
      for the mutex. A timer that was stopped too late is one of those. */
  datatype Timers = Timers(held: bool, live: bool, running: nat, pending: nat)

  /** The fields under the mutex, the two parties, the timers, and the conn's
      history. */
  datatype State = State(owed: bool, failed: bool, owner: Owner, turn: Turn, timers: Timers, log: seq<Op>)

  const START := State(false, false, Ready, NoTurn, Timers(false, false, 0, 0), [])

  /** time.AfterFunc, held in place of the timer before. */
  function Armed(t: Timers): Timers { t.(held := true, live := true, running := t.running + 1) }

  /** timer.Stop, if there is a timer; too late if it has fired. */
  function Disarmed(t: Timers): Timers
    requires t.live ==> t.running > 0
  {
    t.(held := false, live := false, running := if t.live then t.running - 1 else t.running)
  }

  datatype Step =
    | TimerFires(held: bool)      // the timer that is held, or one that no longer is
    | RecvStarts | RecvEnds(ok: bool) | Owes
    | SendEnters | SendGivesUp | SendStarts | SendEnds(ok: bool)
    | IdleEnters | ReadyStarts | ReadyEnds(ok: bool) | AnswerStarts | AnswerEnds(ok: bool) | IdleExits

  predicate Enabled(s: State, step: Step)
  {
    match step
    case TimerFires(held) =>
      s.timers.running > 0 && if held then s.timers.live else s.timers.live ==> s.timers.running > 1
    case RecvStarts => s.owner.Ready?
    case RecvEnds(_) => s.owner.Receiving?
    case Owes => s.owner.GotRequest?
    case SendEnters => s.owner.Working? && s.turn.NoTurn? && (s.timers.live ==> s.timers.running > 0)
    case SendGivesUp => s.owner.Working? && !s.turn.NoTurn?
    case SendStarts => s.owner.Clear?
    case SendEnds(_) => s.owner.Sending?
    case IdleEnters => s.timers.pending > 0
    case ReadyStarts => s.turn.Began?
    case ReadyEnds(_) => s.turn.SendingReady?
    case AnswerStarts => s.turn.AwaitsAnswer?
    case AnswerEnds(_) => s.turn.ReceivingReady?
    case IdleExits => s.turn.Answered? || s.turn.TurnFailed?
  }

  function Do(s: State, step: Step): State
    requires Enabled(s, step)
  {
    match step
    case TimerFires(held) =>
      var t := s.timers;
      s.(timers := Timers(t.held, t.live && !held, t.running - 1, t.pending + 1))
    // Recv
    case RecvStarts => s.(owner := Receiving)
    case RecvEnds(ok) => if ok then s.(owner := GotRequest, log := s.log + [Received]) else s.(owner := Stopped)
    case Owes => s.(owner := Working, owed := true, timers := Armed(s.timers))
    // Send
    case SendEnters => s.(owed := false, timers := Disarmed(s.timers), owner := if s.failed then Stopped else Clear)
    case SendGivesUp => s.(owner := Stopped)
    case SendStarts => s.(owner := Sending)
    case SendEnds(ok) => if ok then s.(owner := Ready, log := s.log + [Sent]) else s.(owner := Stopped)
    // idle
    case IdleEnters =>
      var left := s.timers.(pending := s.timers.pending - 1);
      if !s.owed || !s.turn.NoTurn? || s.failed then s.(timers := left) else s.(timers := left, turn := Began)
    case ReadyStarts => s.(turn := SendingReady)
    case ReadyEnds(ok) => if ok then s.(turn := AwaitsAnswer, log := s.log + [Sent]) else s.(turn := TurnFailed)
    case AnswerStarts => s.(turn := ReceivingReady)
    case AnswerEnds(ok) => if ok then s.(turn := Answered, log := s.log + [Received]) else s.(turn := TurnFailed)
    case IdleExits =>
      if s.turn.TurnFailed? then s.(turn := NoTurn, failed := true)
      else s.(turn := NoTurn, owed := true, timers := Armed(s.timers))
  }

  ghost predicate Runs(s: State, steps: seq<Step>, s': State)
    decreases |steps|
  {
    if steps == [] then s' == s
    else Enabled(s, steps[0]) && Runs(Do(s, steps[0]), steps[1..], s')
  }

  ghost predicate Reachable(s: State)
  {
    exists steps :: Runs(START, steps, s)
  }

  // ---------------------------------------------------------------- what holds

  /** Receives and sends take turns, a receive first. */
  predicate Alternates(log: seq<Op>)
  {
    forall i | 0 <= i < |log| :: log[i] == if i % 2 == 0 then Received else Sent
  }

  predicate OwnerUses(s: State) { s.owner.Receiving? || s.owner.Sending? }
  predicate TurnUses(s: State) { s.turn.SendingReady? || s.turn.ReceivingReady? }

  /** Whether a request has been received that no answer was sent to. */
  predicate Unanswered(s: State) { |s.log| % 2 == 1 }

  predicate Inv(s: State)
  {
    && Alternates(s.log)
    // Only the party whose turn it is may use the conn.
    && (!s.turn.NoTurn? ==> s.owed && (s.owner.Working? || s.owner.Stopped?))
    && (s.owner.Ready? || s.owner.Receiving? ==> !s.owed && !Unanswered(s))
    && (s.owner.GotRequest? ==> !s.owed && Unanswered(s))
    && (s.owner.Clear? || s.owner.Sending? ==> !s.owed && Unanswered(s))
    && (s.owner.Working? ==> s.owed)
    && (s.owed && s.turn.NoTurn? && !s.failed ==> Unanswered(s))
    && (s.turn.Began? || s.turn.SendingReady? || s.turn.Answered? ==> Unanswered(s))
    && (s.turn.AwaitsAnswer? || s.turn.ReceivingReady? ==> !Unanswered(s))
    && (s.failed ==> s.turn.NoTurn? && (s.owner.Working? || s.owner.Stopped?))
    && (s.timers.live ==> s.timers.held && s.timers.running > 0)
    // What is owed will be answered by a turn, if by nothing else.
    && (s.owed && s.turn.NoTurn? && !s.failed ==> s.timers.live || s.timers.pending > 0)
  }

  lemma StepKeeps(s: State, step: Step)
    requires Inv(s) && Enabled(s, step)
    ensures Inv(Do(s, step))
  {
  }

  lemma {:induction false} RunKeeps(s: State, steps: seq<Step>, s': State)
    requires Inv(s) && Runs(s, steps, s')
    ensures Inv(s')
    decreases |steps|
  {
    if steps != [] {
      StepKeeps(s, steps[0]);
      RunKeeps(Do(s, steps[0]), steps[1..], s');
    }
  }

  /** In every interleaving of the timers, however late they fire, with Send and
      Recv: the conn sees receives and sends strictly alternate, so no request is
      answered twice; the two parties never use it at once; and an answer is sent
      only when no idle turn is in progress. */
  lemma ConnAlternates(s: State)
    requires Reachable(s)
    ensures Alternates(s.log)
    ensures !(OwnerUses(s) && TurnUses(s))
    ensures s.owner.Clear? || s.owner.Sending? ==> s.turn.NoTurn? && Unanswered(s)
    ensures s.turn.SendingReady? ==> Unanswered(s)
  {
    var steps :| Runs(START, steps, s);
    RunKeeps(START, steps, s);
  }

  /** A request that waits is never forgotten: while the owner works and no turn has
      failed, an idle turn is in progress, or an idle call waits for the mutex, or
      the timer that is held has yet to fire; and the call, or the one that timer
      makes, begins a turn. Nothing but the owner's own answer takes them away. */
  lemma WaitingIsKept(s: State)
    requires Reachable(s) && s.owner.Working? && !s.failed
    ensures s.owed && (s.turn.NoTurn? ==> Unanswered(s) && (s.timers.pending > 0 || (s.timers.held && s.timers.live)))
    ensures s.turn.NoTurn? && s.timers.pending > 0 ==> Do(s, IdleEnters).turn.Began?
    ensures s.turn.NoTurn? && s.timers.pending == 0 ==>
            Enabled(s, TimerFires(true)) && Do(Do(s, TimerFires(true)), IdleEnters).turn.Began?
  {
    var steps :| Runs(START, steps, s);
    RunKeeps(START, steps, s);
  }

  // ---------------------------------------------------------------- under the mutex

  /** The fields keptConn keeps, each method one hold of its mutex. */
  class Kept {
    var owed: bool
    var armed: bool
    var inTurn: bool
    var failed: bool

    constructor ()
      ensures Shows(START)
    {
      owed, armed, inTurn, failed := false, false, false, false;
    }

    ghost predicate Shows(s: State)
      reads this
    {
      owed == s.owed && armed == s.timers.held && failed == s.failed && inTurn == !s.turn.NoTurn?
    }

    method Owe()
      modifies this
      ensures owed && armed && inTurn == old(inTurn) && failed == old(failed)
      ensures forall s | old(Shows(s)) && Enabled(s, Owes) :: Shows(Do(s, Owes))
    {
      owed, armed := true, true;
    }

    /** Send's part under the mutex. It has to wait while a turn is in progress. */
    method Clear() returns (waits: bool, fails: bool)
      modifies this
      ensures waits == old(inTurn) && (waits ==> owed == old(owed) && armed == old(armed) && fails == false)
      ensures !waits ==> !armed && forall s | old(Shows(s)) && Enabled(s, SendEnters) ::
                Shows(Do(s, SendEnters)) && fails == Do(s, SendEnters).owner.Stopped?
    {
      if inTurn {
        return true, false;
      }
      owed, armed := false, false;
      waits, fails := false, failed;
    }

    method EnterIdle() returns (begins: bool)
      modifies this
      ensures forall s | old(Shows(s)) && Enabled(s, IdleEnters) ::
                Shows(Do(s, IdleEnters)) && (begins <==> Do(s, IdleEnters).turn != s.turn)
    {
      if !owed || inTurn || failed {
        return false;
      }
      inTurn := true;
      begins := true;
    }

    method ExitIdle(ok: bool)
      modifies this
      ensures forall s | old(Shows(s)) && Enabled(s, IdleExits) && ok == s.turn.Answered? :: Shows(Do(s, IdleExits))
    {
      inTurn := false;
      if !ok {
        failed := true;
        return;
      }
      Owe();
    }
  }
}
