// A stream that can be closed while it is being read. The stream and the
// guard of its operation form a pair that sits in a slot, is held by the one
// read in progress, or has been dropped.
module ClosableStream {
  import opened Wrappers
  import Cancellation

  type CallId = nat
  type Reason = Cancellation.Reason

  // Make: the constructor, which registers the discarding cleanup.
  datatype Call = Make | Next | Close | Cancel(wanted: Reason)

  // What the underlying stream answers when it is polled.
  datatype Outcome = Pending | Item | Failed | Ended

  datatype Pc =
    | Lock | Check | Store | Unlock(late: bool) | DiscardLate // new
    | Swap | Take | RunCleanup(found: bool) // cancel, by any call
    | Await | Discard // close
    | Enter | Queue | TakePair | Poll1 | Poll2 | PutLock | PutCheck | PutStore | PutRefuse | DropPair | DropFailed | Leave // next
    | Returned

  datatype Move = Move(call: CallId, outcome: Outcome)

  // `stored`: the cleanup is registered and not yet taken; `cleanupLock`
  // guards it. `slotLock` guards the slot, `nextLock` admits one read at a
  // time. `drops` counts how often the pair was dropped; `cleaned`: some
  // discard ran after cancellation.
  datatype State = State(calls: map<CallId, Call>, pcs: map<CallId, Pc>,
                         reason: Reason, winner: Option<CallId>, stored: bool, cleanupLock: Option<CallId>,
                         made: bool, slot: bool, slotLock: Option<CallId>, nextLock: Option<CallId>,
                         drops: nat, cleaned: bool)

  function Start(c: Call): Pc {
    match c case Make => Lock case Next => Enter case Close => Await case Cancel(_) => Swap
  }

  function Initial(calls: map<CallId, Call>): State {
    State(calls, map t | t in calls :: Start(calls[t]), Cancellation.Live, None, false, None, false, true, None, None, 0, false)
  }

  function Goto(s: State, t: CallId, pc: Pc): State {
    s.(pcs := s.pcs[t := pc])
  }

  ghost predicate OwnStep(s: State, t: CallId, n: State)
    requires t in s.pcs
  {
    && n.calls == s.calls && t in n.pcs && n.pcs == s.pcs[t := n.pcs[t]]
    && (s.reason != Cancellation.Live || !s.pcs[t].Swap? ==> n.reason == s.reason && n.winner == s.winner)
    && s.drops <= n.drops && (s.made ==> n.made)
  }

  // Empties the slot, dropping what was there.
  function Discarded(s: State): State {
    s.(slot := false, drops := s.drops + (if s.slot then 1 else 0), cleaned := true)
  }

  function DiscardTo(s: State, t: CallId, pc: Pc): Option<State> {
    if s.slotLock.Some? then None else Some(Discarded(Goto(s, t, pc)))
  }

  // Registering the cleanup: look at the reason under the lock, store it ...
  function StoreStep(s: State, t: CallId): (next: Option<State>)
    requires t in s.pcs
  {
    match s.pcs[t]
    case Lock => if s.cleanupLock.Some? then None else Some(Goto(s, t, Check).(cleanupLock := Some(t)))
    case Check => Some(Goto(s, t, if s.reason == Cancellation.Live then Store else Unlock(true)))
    case Store => Some(Goto(s, t, Unlock(false)).(stored := true))
    case _ => None
  }

  // ... or run it after releasing the lock.
  function MadeStep(s: State, t: CallId): (next: Option<State>)
    requires t in s.pcs
  {
    match s.pcs[t]
    case Unlock(late) => Some(Goto(s, t, if late then DiscardLate else Returned).(cleanupLock := None, made := s.made || !late))
    case DiscardLate => if s.slotLock.Some? then None else Some(Discarded(Goto(s, t, Returned)).(made := true))
    case _ => None
  }

  function Wanted(c: Call): Reason {
    match c case Cancel(r) => r case _ => Cancellation.StreamClosed
  }

  // Where a call goes on after cancelling.
  function AfterCancel(c: Call): Pc {
    match c case Close => Discard case Next => Leave case _ => Returned
  }

  // Swapping the reason.
  function SwapStep(s: State, t: CallId): (next: Option<State>)
    requires t in s.pcs && t in s.calls
  {
    match s.pcs[t]
    case Await => if s.made then Some(Goto(s, t, Swap)) else None
    case Swap =>
      if Wanted(s.calls[t]) != Cancellation.Live && s.reason == Cancellation.Live then
        Some(Goto(s, t, Take).(reason := Wanted(s.calls[t]), winner := Some(t)))
      else Some(Goto(s, t, AfterCancel(s.calls[t])))
    case _ => None
  }

  // The winner takes and runs the cleanup; a close discards in any case.
  function CleanStep(s: State, t: CallId): (next: Option<State>)
    requires t in s.pcs && t in s.calls
  {
    match s.pcs[t]
    case Take => if s.cleanupLock.Some? then None else Some(Goto(s, t, RunCleanup(s.stored)).(stored := false))
    case RunCleanup(found) => if found then DiscardTo(s, t, AfterCancel(s.calls[t])) else Some(Goto(s, t, AfterCancel(s.calls[t])))
    case Discard => DiscardTo(s, t, Returned)
    case _ => None
  }

  // Reading the next item: wait for the turn and take the pair ...
  function EnterStep(s: State, t: CallId): (next: Option<State>)
    requires t in s.pcs
  {
    match s.pcs[t]
    case Enter =>
      if !s.made then None else Some(Goto(s, t, if s.reason != Cancellation.Live then Returned else Queue))
    case Queue =>
      if s.reason != Cancellation.Live then Some(Goto(s, t, Returned))
      else if s.nextLock.Some? then None
      else Some(Goto(s, t, TakePair).(nextLock := Some(t)))
    case TakePair =>
      if s.slotLock.Some? then None else Some(Goto(s, t, if s.slot then Poll1 else Leave).(slot := false))
    case _ => None
  }

  // ... poll the stream while the operation is live ...
  function PollStep(s: State, t: CallId, o: Outcome): (next: Option<State>)
    requires t in s.pcs
  {
    match s.pcs[t]
    case Poll1 => Some(Goto(s, t, if s.reason != Cancellation.Live then DropPair else Poll2))
    case Poll2 =>
      Some(Goto(s, t, match o case Pending => Poll1 case Item => PutLock case Failed => DropFailed case Ended => DropFailed))
    case _ => None
  }

  // ... put the pair back under the slot's lock, if it is still live ...
  function PutStep(s: State, t: CallId): (next: Option<State>)
    requires t in s.pcs
  {
    match s.pcs[t]
    case PutLock => if s.slotLock.Some? then None else Some(Goto(s, t, PutCheck).(slotLock := Some(t)))
    case PutCheck => Some(Goto(s, t, if s.reason == Cancellation.Live then PutStore else PutRefuse))
    case PutStore => Some(Goto(s, t, Leave).(slot := true, slotLock := None))
    case PutRefuse => Some(Goto(s, t, DropPair).(slotLock := None))
    case _ => None
  }

  // ... or drop it, and let the next read in.
  function LeaveStep(s: State, t: CallId): (next: Option<State>)
    requires t in s.pcs
  {
    match s.pcs[t]
    case DropPair => Some(Goto(s, t, Leave).(drops := s.drops + 1))
    case DropFailed => Some(Goto(s, t, Swap).(drops := s.drops + 1))
    case Leave => Some(Goto(s, t, Returned).(nextLock := None))
    case _ => None
  }

  predicate Storing(pc: Pc) {
    pc.Lock? || pc.Check? || pc.Store?
  }

  predicate Making(pc: Pc) {
    Storing(pc) || pc.Unlock? || pc.DiscardLate?
  }

  predicate Swapping(pc: Pc) {
    pc.Await? || pc.Swap?
  }

  predicate Cleaning(pc: Pc) {
    pc.Take? || pc.RunCleanup? || pc.Discard?
  }

  predicate Entering(pc: Pc) {
    pc.Enter? || pc.Queue? || pc.TakePair?
  }

  predicate Polling(pc: Pc) {
    pc.Poll1? || pc.Poll2?
  }

  predicate Putting(pc: Pc) {
    pc.PutLock? || HoldsSlot(pc)
  }

  // The next step of a call; none if it has returned or must wait.
  function StepOf(s: State, t: CallId, o: Outcome): (next: Option<State>)
    requires t in s.pcs && t in s.calls
  {
    var pc := s.pcs[t];
    if Storing(pc) then StoreStep(s, t)
    else if Making(pc) then MadeStep(s, t)
    else if Swapping(pc) then SwapStep(s, t)
    else if Cleaning(pc) then CleanStep(s, t)
    else if Entering(pc) then EnterStep(s, t)
    else if Polling(pc) then PollStep(s, t, o)
    else if Putting(pc) then PutStep(s, t)
    else LeaveStep(s, t)
  }

  lemma StoreIsOwn(s: State, t: CallId)
    requires t in s.pcs && t in s.calls && StoreStep(s, t).Some?
    ensures OwnStep(s, t, StoreStep(s, t).value)
  {
    match s.pcs[t] case Lock => case Check => case Store => case _ =>
  }

  lemma MadeIsOwn(s: State, t: CallId)
    requires t in s.pcs && t in s.calls && MadeStep(s, t).Some?
    ensures OwnStep(s, t, MadeStep(s, t).value)
  {
    match s.pcs[t] case Unlock(_) => case DiscardLate => case _ =>
  }

  lemma SwapIsOwn(s: State, t: CallId)
    requires t in s.pcs && t in s.calls && SwapStep(s, t).Some?
    ensures OwnStep(s, t, SwapStep(s, t).value)
  {
    match s.pcs[t] case Await => case Swap => case _ =>
  }

  lemma CleanIsOwn(s: State, t: CallId)
    requires t in s.pcs && t in s.calls && CleanStep(s, t).Some?
    ensures OwnStep(s, t, CleanStep(s, t).value)
  {
    match s.pcs[t] case Take => case RunCleanup(_) => case Discard => case _ =>
  }

  lemma EnterIsOwn(s: State, t: CallId)
    requires t in s.pcs && t in s.calls && EnterStep(s, t).Some?
    ensures OwnStep(s, t, EnterStep(s, t).value)
  {
    match s.pcs[t] case Enter => case Queue => case TakePair => case _ =>
  }

  lemma PollIsOwn(s: State, t: CallId, o: Outcome)
    requires t in s.pcs && t in s.calls && PollStep(s, t, o).Some?
    ensures OwnStep(s, t, PollStep(s, t, o).value)
  {
    match s.pcs[t] case Poll1 => case Poll2 => case _ =>
  }

  lemma PutIsOwn(s: State, t: CallId)
    requires t in s.pcs && t in s.calls && PutStep(s, t).Some?
    ensures OwnStep(s, t, PutStep(s, t).value)
  {
    match s.pcs[t] case PutLock => case PutCheck => case PutStore => case PutRefuse => case _ =>
  }

  lemma LeaveIsOwn(s: State, t: CallId)
    requires t in s.pcs && t in s.calls && LeaveStep(s, t).Some?
    ensures OwnStep(s, t, LeaveStep(s, t).value)
  {
    match s.pcs[t] case DropPair => case DropFailed => case Leave => case _ =>
  }

  lemma StepIsOwn(s: State, t: CallId, o: Outcome)
    requires t in s.pcs && t in s.calls && StepOf(s, t, o).Some?
    ensures OwnStep(s, t, StepOf(s, t, o).value)
  {
    var pc := s.pcs[t];
    if Storing(pc) {
      StoreIsOwn(s, t);
    } else if Making(pc) {
      MadeIsOwn(s, t);
    } else if Swapping(pc) {
      SwapIsOwn(s, t);
    } else if Cleaning(pc) {
      CleanIsOwn(s, t);
    } else if Entering(pc) {
      EnterIsOwn(s, t);
    } else if Polling(pc) {
      PollIsOwn(s, t, o);
    } else if Putting(pc) {
      PutIsOwn(s, t);
    } else {
      LeaveIsOwn(s, t);
    }
  }

  // A call that must wait leaves everything as it is.
  function Settle(s: State, next: Option<State>): State {
    match next case Some(n) => n case None => s
  }

  function Moved(s: State, m: Move): (next: State)
    requires s.pcs.Keys == s.calls.Keys
    ensures next.calls == s.calls && next.pcs.Keys == s.pcs.Keys
  {
    if m.call in s.pcs && StepOf(s, m.call, m.outcome).Some? then
      StepIsOwn(s, m.call, m.outcome);
      Settle(s, StepOf(s, m.call, m.outcome))
    else s
  }

  function Play(s: State, schedule: seq<Move>): (end: State)
    requires s.pcs.Keys == s.calls.Keys
    ensures end.calls == s.calls && end.pcs.Keys == s.pcs.Keys
    decreases |schedule|
  {
    if schedule == [] then s else Play(Moved(s, schedule[0]), schedule[1..])
  }

  // The stream, updated in place one atomic step at a time.
  class Stream {
    const calls: map<CallId, Call>
    var pcs: map<CallId, Pc>
    var reason: Reason
    var winner: Option<CallId>
    var stored: bool
    var cleanupLock: Option<CallId>
    var made: bool
    var slot: bool
    var slotLock: Option<CallId>
    var nextLock: Option<CallId>
    var drops: nat
    var cleaned: bool

    function Current(): State
      reads this
    {
      State(calls, pcs, reason, winner, stored, cleanupLock, made, slot, slotLock, nextLock, drops, cleaned)
    }

    ghost predicate Valid()
      reads this
    {
      Consistent(Current())
    }

    constructor (calls: map<CallId, Call>)
      requires Sensible(calls)
      ensures Valid() && Current() == Initial(calls)
    {
      this.calls := calls;
      pcs := map t | t in calls :: Start(calls[t]);
      reason, winner, stored, cleanupLock := Cancellation.Live, None, false, None;
      made, slot, slotLock, nextLock, drops, cleaned := false, true, None, None, 0, false;
    }

    // Look at the reason under the cleanup's lock, and store the cleanup.
    method StepStore(t: CallId)
      requires pcs.Keys == calls.Keys && t in calls && Storing(pcs[t])
      modifies this
      ensures Current() == Settle(old(Current()), StoreStep(old(Current()), t))
    {
      match pcs[t]
      case Lock =>
        if cleanupLock.None? {
          cleanupLock := Some(t);
          pcs := pcs[t := Check];
        }
      case Check =>
        pcs := pcs[t := if reason == Cancellation.Live then Store else Unlock(true)];
      case Store =>
        stored := true;
        pcs := pcs[t := Unlock(false)];
    }

    // Let go of that lock; discard if the operation was cancelled before.
    method StepMade(t: CallId)
      requires pcs.Keys == calls.Keys && t in calls && !Storing(pcs[t]) && Making(pcs[t])
      modifies this
      ensures Current() == Settle(old(Current()), MadeStep(old(Current()), t))
    {
      match pcs[t]
      case Unlock(late) =>
        cleanupLock, made := None, made || !late;
        pcs := pcs[t := if late then DiscardLate else Returned];
      case DiscardLate =>
        if slotLock.None? {
          DiscardPair(t, Returned);
          made := true;
        }
    }

    // A close waits for the stream to exist; the first swap of the reason wins.
    method StepSwap(t: CallId)
      requires pcs.Keys == calls.Keys && t in calls && Swapping(pcs[t])
      modifies this
      ensures Current() == Settle(old(Current()), SwapStep(old(Current()), t))
    {
      match pcs[t]
      case Await =>
        if made {
          pcs := pcs[t := Swap];
        }
      case Swap =>
        if Wanted(calls[t]) != Cancellation.Live && reason == Cancellation.Live {
          reason, winner := Wanted(calls[t]), Some(t);
          pcs := pcs[t := Take];
        } else {
          pcs := pcs[t := AfterCancel(calls[t])];
        }
    }

    // Wait for the turn, then take the pair out of the slot.
    method StepEnter(t: CallId)
      requires pcs.Keys == calls.Keys && t in calls && Entering(pcs[t])
      modifies this
      ensures Current() == Settle(old(Current()), EnterStep(old(Current()), t))
    {
      match pcs[t]
      case Enter =>
        if made {
          pcs := pcs[t := if reason != Cancellation.Live then Returned else Queue];
        }
      case Queue =>
        if reason != Cancellation.Live {
          pcs := pcs[t := Returned];
        } else if nextLock.None? {
          nextLock := Some(t);
          pcs := pcs[t := TakePair];
        }
      case TakePair =>
        if slotLock.None? {
          pcs := pcs[t := if slot then Poll1 else Leave];
          slot := false;
        }
    }

    // Poll the stream unless the operation is cancelled.
    method StepPoll(t: CallId, outcome: Outcome)
      requires pcs.Keys == calls.Keys && t in calls && Polling(pcs[t])
      modifies this
      ensures Current() == Settle(old(Current()), PollStep(old(Current()), t, outcome))
    {
      match pcs[t]
      case Poll1 =>
        pcs := pcs[t := if reason != Cancellation.Live then DropPair else Poll2];
      case Poll2 =>
        match outcome {
          case Pending => pcs := pcs[t := Poll1];
          case Item => pcs := pcs[t := PutLock];
          case _ => pcs := pcs[t := DropFailed];
        }
    }

    // Put the pair back if the operation is still live.
    method StepPut(t: CallId)
      requires pcs.Keys == calls.Keys && t in calls && Putting(pcs[t])
      modifies this
      ensures Current() == Settle(old(Current()), PutStep(old(Current()), t))
    {
      match pcs[t]
      case PutLock =>
        if slotLock.None? {
          slotLock := Some(t);
          pcs := pcs[t := PutCheck];
        }
      case PutCheck =>
        pcs := pcs[t := if reason == Cancellation.Live then PutStore else PutRefuse];
      case PutStore =>
        slot, slotLock := true, None;
        pcs := pcs[t := Leave];
      case PutRefuse =>
        slotLock := None;
        pcs := pcs[t := DropPair];
    }

    // Drop the pair instead, and let the next read in.
    method StepLeave(t: CallId)
      requires pcs.Keys == calls.Keys && t in calls && (pcs[t].DropPair? || pcs[t].DropFailed? || pcs[t].Leave?)
      modifies this
      ensures Current() == Settle(old(Current()), LeaveStep(old(Current()), t))
    {
      match pcs[t]
      case DropPair =>
        drops := drops + 1;
        pcs := pcs[t := Leave];
      case DropFailed =>
        drops := drops + 1;
        pcs := pcs[t := Swap];
      case Leave =>
        nextLock := None;
        pcs := pcs[t := Returned];
    }

    // The winner of the cancellation takes and runs the cleanup; a close discards.
    method StepClean(t: CallId)
      requires pcs.Keys == calls.Keys && t in calls && Cleaning(pcs[t])
      modifies this
      ensures Current() == Settle(old(Current()), CleanStep(old(Current()), t))
    {
      match pcs[t]
      case Take =>
        if cleanupLock.None? {
          pcs := pcs[t := RunCleanup(stored)];
          stored := false;
        }
      case RunCleanup(found) =>
        if !found {
          pcs := pcs[t := AfterCancel(calls[t])];
        } else if slotLock.None? {
          DiscardPair(t, AfterCancel(calls[t]));
        }
      case Discard =>
        if slotLock.None? {
          DiscardPair(t, Returned);
        }
    }

    // discard: empty the slot and drop what was there.
    method DiscardPair(t: CallId, pc: Pc)
      requires t in pcs
      modifies this
      ensures Current() == Discarded(Goto(old(Current()), t, pc))
    {
      if slot {
        drops := drops + 1;
      }
      slot, cleaned := false, true;
      pcs := pcs[t := pc];
    }

    // One step of a call, whatever it does next; a call that must wait, or has
    // returned, changes nothing.
    method Step(m: Move)
      requires pcs.Keys == calls.Keys && m.call in calls
      modifies this
      ensures Current() == Settle(old(Current()), StepOf(old(Current()), m.call, m.outcome))
    {
      var t := m.call;
      var pc := pcs[t];
      if Storing(pc) {
        StepStore(t);
      } else if Making(pc) {
        StepMade(t);
      } else if Swapping(pc) {
        StepSwap(t);
      } else if Cleaning(pc) {
        StepClean(t);
      } else if Entering(pc) {
        StepEnter(t);
      } else if Polling(pc) {
        StepPoll(t, m.outcome);
      } else if Putting(pc) {
        StepPut(t);
      } else if pc.DropPair? || pc.DropFailed? || pc.Leave? {
        StepLeave(t);
      }
    }

    method Advance(m: Move)
      requires Valid()
      modifies this
      ensures Valid() && Current() == Moved(old(Current()), m)
    {
      MovedOk(Current(), m);
      if m.call in calls {
        Step(m);
      }
    }

    // The calls move in the order of the schedule.
    method Follow(schedule: seq<Move>)
      requires Valid()
      modifies this
      ensures Valid() && Current() == Play(old(Current()), schedule)
    {
      assert schedule[0..] == schedule;
      for i := 0 to |schedule|
        invariant Valid() && Play(Current(), schedule[i..]) == Play(old(Current()), schedule)
      {
        assert schedule[i..][0] == schedule[i] && schedule[i..][1..] == schedule[i + 1..];
        Advance(schedule[i]);
      }
    }
  }

  // ---- Locks ----

  predicate HoldsPair(pc: Pc) {
    pc.Poll1? || pc.Poll2? || pc.PutLock? || HoldsSlot(pc) || pc.DropPair? || pc.DropFailed?
  }

  predicate HoldsSlot(pc: Pc) {
    pc.PutCheck? || pc.PutStore? || pc.PutRefuse?
  }

  predicate HoldsCleanup(pc: Pc) {
    pc.Check? || pc.Store? || pc.Unlock?
  }

  predicate HoldsNext(c: Call, pc: Pc) {
    c.Next? && (HoldsPair(pc) || pc.TakePair? || pc.Swap? || pc.Take? || pc.RunCleanup? || pc.Leave?)
  }

  predicate PcFits(c: Call, pc: Pc) {
    match c
    case Make => Making(pc) || pc.Returned?
    case Cancel(r) => r != Cancellation.Live && (pc.Swap? || pc.Take? || pc.RunCleanup? || pc.Returned?)
    case Close => Swapping(pc) || Cleaning(pc) || pc.Returned?
    case Next => pc.Enter? || pc.Queue? || HoldsNext(c, pc) || pc.Returned?
  }

  predicate TurnOk(s: State, t: CallId) {
    && t in s.pcs && t in s.calls
    && PcFits(s.calls[t], s.pcs[t])
    && (HoldsNext(s.calls[t], s.pcs[t]) <==> s.nextLock == Some(t))
  }

  predicate LockOk(s: State, t: CallId) {
    && t in s.pcs && t in s.calls
    && (HoldsSlot(s.pcs[t]) <==> s.slotLock == Some(t))
    && (HoldsCleanup(s.pcs[t]) <==> s.cleanupLock == Some(t))
  }

  ghost predicate From(s: State, t: CallId) {
    s.pcs.Keys == s.calls.Keys && t in s.pcs && TurnOk(s, t) && LockOk(s, t)
  }

  // ---- Cancellation and the cleanup ----

  predicate WinnerAt(s: State, pc: Pc) {
    s.winner.Some? && s.winner.value in s.pcs && s.pcs[s.winner.value] == pc
  }

  // Whoever won the cancellation has not looked for the cleanup yet.
  predicate NotTaken(s: State) {
    s.reason == Cancellation.Live || WinnerAt(s, Take)
  }

  // The registered cleanup is waiting, about to run, or has run.
  predicate CleanupKept(s: State) {
    s.stored || WinnerAt(s, RunCleanup(true)) || s.cleaned
  }

  // Where the winner is once it has swapped the reason.
  predicate Won(pc: Pc) {
    pc.Take? || pc.RunCleanup? || pc.Discard? || pc.Leave? || pc.Returned?
  }

  predicate CellOk(s: State) {
    && (s.reason == Cancellation.Live <==> s.winner.None?)
    && (s.winner.Some? ==> s.winner.value in s.pcs && Won(s.pcs[s.winner.value]))
    && (s.stored ==> NotTaken(s))
    && (s.cleaned ==> s.reason != Cancellation.Live && !s.slot)
    && (s.made ==> CleanupKept(s))
    && (s.slotLock.Some? ==> s.slotLock.value in s.pcs && HoldsSlot(s.pcs[s.slotLock.value]))
    && (s.cleanupLock.Some? ==> s.cleanupLock.value in s.pcs && HoldsCleanup(s.pcs[s.cleanupLock.value]))
    && (s.nextLock.Some? ==> s.nextLock.value in s.pcs && s.nextLock.value in s.calls)
  }

  predicate CallOk(s: State, t: CallId) {
    && t in s.pcs && t in s.calls
    && var pc := s.pcs[t];
      && (pc.Take? || pc.RunCleanup? ==> s.winner == Some(t))
      && (pc.Store? ==> NotTaken(s))
      && (pc == Unlock(false) ==> CleanupKept(s))
      && (pc == Unlock(true) || pc.DiscardLate? || pc.Discard? ==> s.reason != Cancellation.Live)
      && (pc.PutStore? ==> !s.cleaned)
      && (s.calls[t].Make? && pc.Returned? ==> s.made)
      && (s.calls[t].Cancel? && !pc.Swap? ==> s.reason != Cancellation.Live)
  }

  // ---- The pair ----

  predicate Held(s: State) {
    s.nextLock.Some? && s.nextLock.value in s.pcs && HoldsPair(s.pcs[s.nextLock.value])
  }

  // The pair is in exactly one place, and was dropped at most once.
  predicate PairOk(s: State) {
    (if s.slot then 1 else 0) + (if Held(s) then 1 else 0) + s.drops == 1
  }

  // ---- Every step keeps all of it ----

  ghost predicate Sound(s: State, t: CallId) {
    From(s, t) && CellOk(s) && CallOk(s, t)
  }

  lemma StoreTurn(s: State, t: CallId, u: CallId)
    requires From(s, t) && StoreStep(s, t).Some? && TurnOk(s, u)
    ensures TurnOk(StoreStep(s, t).value, u)
  {
    StoreIsOwn(s, t);
    match s.pcs[t] case Lock => case Check => case Store => case _ =>
  }

  lemma StoreLocks(s: State, t: CallId, u: CallId)
    requires From(s, t) && StoreStep(s, t).Some? && LockOk(s, u)
    ensures LockOk(StoreStep(s, t).value, u)
  {
    StoreIsOwn(s, t);
    match s.pcs[t] case Lock => case Check => case Store => case _ =>
  }

  lemma StoreCell(s: State, t: CallId)
    requires Sound(s, t) && StoreStep(s, t).Some?
    ensures CellOk(StoreStep(s, t).value)
  {
    StoreIsOwn(s, t);
    match s.pcs[t] case Lock => case Check => case Store => case _ =>
  }

  lemma StoreCall(s: State, t: CallId, u: CallId)
    requires Sound(s, t) && StoreStep(s, t).Some? && TurnOk(s, u) && LockOk(s, u) && CallOk(s, u)
    ensures CallOk(StoreStep(s, t).value, u)
  {
    StoreIsOwn(s, t);
    match s.pcs[t] case Lock => case Check => case Store => case _ =>
  }

  lemma StorePair(s: State, t: CallId)
    requires Sound(s, t) && StoreStep(s, t).Some? && PairOk(s)
    ensures PairOk(StoreStep(s, t).value)
  {
    StoreIsOwn(s, t);
    match s.pcs[t] case Lock => case Check => case Store => case _ =>
  }

  lemma MadeTurn(s: State, t: CallId, u: CallId)
    requires From(s, t) && MadeStep(s, t).Some? && TurnOk(s, u)
    ensures TurnOk(MadeStep(s, t).value, u)
  {
    MadeIsOwn(s, t);
    match s.pcs[t] case Unlock(_) => case DiscardLate => case _ =>
  }

  lemma MadeLocks(s: State, t: CallId, u: CallId)
    requires From(s, t) && MadeStep(s, t).Some? && LockOk(s, u)
    ensures LockOk(MadeStep(s, t).value, u)
  {
    MadeIsOwn(s, t);
    match s.pcs[t] case Unlock(_) => case DiscardLate => case _ =>
  }

  lemma MadeCell(s: State, t: CallId)
    requires Sound(s, t) && MadeStep(s, t).Some?
    ensures CellOk(MadeStep(s, t).value)
  {
    MadeIsOwn(s, t);
    match s.pcs[t] case Unlock(_) => case DiscardLate => case _ =>
  }

  lemma MadeCall(s: State, t: CallId, u: CallId)
    requires Sound(s, t) && MadeStep(s, t).Some? && TurnOk(s, u) && LockOk(s, u) && CallOk(s, u)
    ensures CallOk(MadeStep(s, t).value, u)
  {
    MadeIsOwn(s, t);
    match s.pcs[t] case Unlock(_) => case DiscardLate => case _ =>
  }

  lemma MadePair(s: State, t: CallId)
    requires Sound(s, t) && MadeStep(s, t).Some? && PairOk(s)
    ensures PairOk(MadeStep(s, t).value)
  {
    MadeIsOwn(s, t);
    match s.pcs[t] case Unlock(_) => case DiscardLate => case _ =>
  }

  lemma SwapTurn(s: State, t: CallId, u: CallId)
    requires From(s, t) && SwapStep(s, t).Some? && TurnOk(s, u)
    ensures TurnOk(SwapStep(s, t).value, u)
  {
    SwapIsOwn(s, t);
    match s.pcs[t] case Await => case Swap => case _ =>
  }

  lemma SwapLocks(s: State, t: CallId, u: CallId)
    requires From(s, t) && SwapStep(s, t).Some? && LockOk(s, u)
    ensures LockOk(SwapStep(s, t).value, u)
  {
    SwapIsOwn(s, t);
    match s.pcs[t] case Await => case Swap => case _ =>
  }

  lemma SwapCell(s: State, t: CallId)
    requires Sound(s, t) && SwapStep(s, t).Some?
    ensures CellOk(SwapStep(s, t).value)
  {
    SwapIsOwn(s, t);
    match s.pcs[t] case Await => case Swap => case _ =>
  }

  lemma SwapCall(s: State, t: CallId, u: CallId)
    requires Sound(s, t) && SwapStep(s, t).Some? && TurnOk(s, u) && LockOk(s, u) && CallOk(s, u)
    ensures CallOk(SwapStep(s, t).value, u)
  {
    SwapIsOwn(s, t);
    match s.pcs[t] case Await => case Swap => case _ =>
  }

  lemma SwapPair(s: State, t: CallId)
    requires Sound(s, t) && SwapStep(s, t).Some? && PairOk(s)
    ensures PairOk(SwapStep(s, t).value)
  {
    SwapIsOwn(s, t);
    match s.pcs[t] case Await => case Swap => case _ =>
  }

  lemma CleanTurn(s: State, t: CallId, u: CallId)
    requires From(s, t) && CleanStep(s, t).Some? && TurnOk(s, u)
    ensures TurnOk(CleanStep(s, t).value, u)
  {
    CleanIsOwn(s, t);
    match s.pcs[t] case Take => case RunCleanup(_) => case Discard => case _ =>
  }

  lemma CleanLocks(s: State, t: CallId, u: CallId)
    requires From(s, t) && CleanStep(s, t).Some? && LockOk(s, u)
    ensures LockOk(CleanStep(s, t).value, u)
  {
    CleanIsOwn(s, t);
    match s.pcs[t] case Take => case RunCleanup(_) => case Discard => case _ =>
  }

  lemma CleanCell(s: State, t: CallId)
    requires Sound(s, t) && CleanStep(s, t).Some?
    ensures CellOk(CleanStep(s, t).value)
  {
    CleanIsOwn(s, t);
    match s.pcs[t] case Take => case RunCleanup(_) => case Discard => case _ =>
  }

  lemma CleanCall(s: State, t: CallId, u: CallId)
    requires Sound(s, t) && CleanStep(s, t).Some? && TurnOk(s, u) && LockOk(s, u) && CallOk(s, u)
    ensures CallOk(CleanStep(s, t).value, u)
  {
    CleanIsOwn(s, t);
    match s.pcs[t] case Take => case RunCleanup(_) => case Discard => case _ =>
  }

  lemma CleanPair(s: State, t: CallId)
    requires Sound(s, t) && CleanStep(s, t).Some? && PairOk(s)
    ensures PairOk(CleanStep(s, t).value)
  {
    CleanIsOwn(s, t);
    match s.pcs[t] case Take => case RunCleanup(_) => case Discard => case _ =>
  }

  lemma EnterTurn(s: State, t: CallId, u: CallId)
    requires From(s, t) && EnterStep(s, t).Some? && TurnOk(s, u)
    ensures TurnOk(EnterStep(s, t).value, u)
  {
    EnterIsOwn(s, t);
    match s.pcs[t] case Enter => case Queue => case TakePair => case _ =>
  }

  lemma EnterLocks(s: State, t: CallId, u: CallId)
    requires From(s, t) && EnterStep(s, t).Some? && LockOk(s, u)
    ensures LockOk(EnterStep(s, t).value, u)
  {
    EnterIsOwn(s, t);
    match s.pcs[t] case Enter => case Queue => case TakePair => case _ =>
  }

  lemma EnterCell(s: State, t: CallId)
    requires Sound(s, t) && EnterStep(s, t).Some?
    ensures CellOk(EnterStep(s, t).value)
  {
    EnterIsOwn(s, t);
    match s.pcs[t] case Enter => case Queue => case TakePair => case _ =>
  }

  lemma EnterCall(s: State, t: CallId, u: CallId)
    requires Sound(s, t) && EnterStep(s, t).Some? && TurnOk(s, u) && LockOk(s, u) && CallOk(s, u)
    ensures CallOk(EnterStep(s, t).value, u)
  {
    EnterIsOwn(s, t);
    match s.pcs[t] case Enter => case Queue => case TakePair => case _ =>
  }

  lemma EnterPair(s: State, t: CallId)
    requires Sound(s, t) && EnterStep(s, t).Some? && PairOk(s)
    ensures PairOk(EnterStep(s, t).value)
  {
    EnterIsOwn(s, t);
    match s.pcs[t] case Enter => case Queue => case TakePair => case _ =>
  }

  lemma PollTurn(s: State, t: CallId, o: Outcome, u: CallId)
    requires From(s, t) && PollStep(s, t, o).Some? && TurnOk(s, u)
    ensures TurnOk(PollStep(s, t, o).value, u)
  {
    PollIsOwn(s, t, o);
    match s.pcs[t] case Poll1 => case Poll2 => case _ =>
  }

  lemma PollLocks(s: State, t: CallId, o: Outcome, u: CallId)
    requires From(s, t) && PollStep(s, t, o).Some? && LockOk(s, u)
    ensures LockOk(PollStep(s, t, o).value, u)
  {
    PollIsOwn(s, t, o);
    match s.pcs[t] case Poll1 => case Poll2 => case _ =>
  }

  lemma PollCell(s: State, t: CallId, o: Outcome)
    requires Sound(s, t) && PollStep(s, t, o).Some?
    ensures CellOk(PollStep(s, t, o).value)
  {
    PollIsOwn(s, t, o);
    match s.pcs[t] case Poll1 => case Poll2 => case _ =>
  }

  lemma PollCall(s: State, t: CallId, o: Outcome, u: CallId)
    requires Sound(s, t) && PollStep(s, t, o).Some? && TurnOk(s, u) && LockOk(s, u) && CallOk(s, u)
    ensures CallOk(PollStep(s, t, o).value, u)
  {
    PollIsOwn(s, t, o);
    match s.pcs[t] case Poll1 => case Poll2 => case _ =>
  }

  lemma PollPair(s: State, t: CallId, o: Outcome)
    requires Sound(s, t) && PollStep(s, t, o).Some? && PairOk(s)
    ensures PairOk(PollStep(s, t, o).value)
  {
    PollIsOwn(s, t, o);
    match s.pcs[t] case Poll1 => case Poll2 => case _ =>
  }

  lemma PutTurn(s: State, t: CallId, u: CallId)
    requires From(s, t) && PutStep(s, t).Some? && TurnOk(s, u)
    ensures TurnOk(PutStep(s, t).value, u)
  {
    PutIsOwn(s, t);
    match s.pcs[t] case PutLock => case PutCheck => case PutStore => case PutRefuse => case _ =>
  }

  lemma PutLocks(s: State, t: CallId, u: CallId)
    requires From(s, t) && PutStep(s, t).Some? && LockOk(s, u)
    ensures LockOk(PutStep(s, t).value, u)
  {
    PutIsOwn(s, t);
    match s.pcs[t] case PutLock => case PutCheck => case PutStore => case PutRefuse => case _ =>
  }

  lemma PutCell(s: State, t: CallId)
    requires Sound(s, t) && PutStep(s, t).Some?
    ensures CellOk(PutStep(s, t).value)
  {
    PutIsOwn(s, t);
    match s.pcs[t] case PutLock => case PutCheck => case PutStore => case PutRefuse => case _ =>
  }

  lemma PutCall(s: State, t: CallId, u: CallId)
    requires Sound(s, t) && PutStep(s, t).Some? && TurnOk(s, u) && LockOk(s, u) && CallOk(s, u)
    ensures CallOk(PutStep(s, t).value, u)
  {
    PutIsOwn(s, t);
    match s.pcs[t] case PutLock => case PutCheck => case PutStore => case PutRefuse => case _ =>
  }

  lemma PutPair(s: State, t: CallId)
    requires Sound(s, t) && PutStep(s, t).Some? && PairOk(s)
    ensures PairOk(PutStep(s, t).value)
  {
    PutIsOwn(s, t);
    match s.pcs[t] case PutLock => case PutCheck => case PutStore => case PutRefuse => case _ =>
  }

  lemma LeaveTurn(s: State, t: CallId, u: CallId)
    requires From(s, t) && LeaveStep(s, t).Some? && TurnOk(s, u)
    ensures TurnOk(LeaveStep(s, t).value, u)
  {
    LeaveIsOwn(s, t);
    match s.pcs[t] case DropPair => case DropFailed => case Leave => case _ =>
  }

  lemma LeaveLocks(s: State, t: CallId, u: CallId)
    requires From(s, t) && LeaveStep(s, t).Some? && LockOk(s, u)
    ensures LockOk(LeaveStep(s, t).value, u)
  {
    LeaveIsOwn(s, t);
    match s.pcs[t] case DropPair => case DropFailed => case Leave => case _ =>
  }

  lemma LeaveCell(s: State, t: CallId)
    requires Sound(s, t) && LeaveStep(s, t).Some?
    ensures CellOk(LeaveStep(s, t).value)
  {
    LeaveIsOwn(s, t);
    match s.pcs[t] case DropPair => case DropFailed => case Leave => case _ =>
  }

  lemma LeaveCall(s: State, t: CallId, u: CallId)
    requires Sound(s, t) && LeaveStep(s, t).Some? && TurnOk(s, u) && LockOk(s, u) && CallOk(s, u)
    ensures CallOk(LeaveStep(s, t).value, u)
  {
    LeaveIsOwn(s, t);
    match s.pcs[t] case DropPair => case DropFailed => case Leave => case _ =>
  }

  lemma LeavePair(s: State, t: CallId)
    requires Sound(s, t) && LeaveStep(s, t).Some? && PairOk(s)
    ensures PairOk(LeaveStep(s, t).value)
  {
    LeaveIsOwn(s, t);
    match s.pcs[t] case DropPair => case DropFailed => case Leave => case _ =>
  }

  ghost predicate Good(s: State, t: CallId) {
    TurnOk(s, t) && LockOk(s, t) && CallOk(s, t)
  }

  // One step keeps the cell, the pair, and what holds of each call `u`.
  lemma StepKeeps(s: State, t: CallId, o: Outcome, u: CallId)
    requires Sound(s, t) && StepOf(s, t, o).Some? && PairOk(s) && Good(s, u)
    ensures var n := StepOf(s, t, o).value; CellOk(n) && PairOk(n) && Good(n, u)
  {
    var pc := s.pcs[t];
    if Storing(pc) {
      StoreTurn(s, t, u);
      StoreLocks(s, t, u);
      StoreCell(s, t);
      StoreCall(s, t, u);
      StorePair(s, t);
    } else if Making(pc) {
      MadeTurn(s, t, u);
      MadeLocks(s, t, u);
      MadeCell(s, t);
      MadeCall(s, t, u);
      MadePair(s, t);
    } else if Swapping(pc) {
      SwapTurn(s, t, u);
      SwapLocks(s, t, u);
      SwapCell(s, t);
      SwapCall(s, t, u);
      SwapPair(s, t);
    } else if Cleaning(pc) {
      CleanTurn(s, t, u);
      CleanLocks(s, t, u);
      CleanCell(s, t);
      CleanCall(s, t, u);
      CleanPair(s, t);
    } else if Entering(pc) {
      EnterTurn(s, t, u);
      EnterLocks(s, t, u);
      EnterCell(s, t);
      EnterCall(s, t, u);
      EnterPair(s, t);
    } else if Polling(pc) {
      PollTurn(s, t, o, u);
      PollLocks(s, t, o, u);
      PollCell(s, t, o);
      PollCall(s, t, o, u);
      PollPair(s, t, o);
    } else if Putting(pc) {
      PutTurn(s, t, u);
      PutLocks(s, t, u);
      PutCell(s, t);
      PutCall(s, t, u);
      PutPair(s, t);
    } else {
      LeaveTurn(s, t, u);
      LeaveLocks(s, t, u);
      LeaveCell(s, t);
      LeaveCall(s, t, u);
      LeavePair(s, t);
    }
  }

  ghost predicate Consistent(s: State) {
    && s.pcs.Keys == s.calls.Keys && CellOk(s) && PairOk(s)
    && forall t :: t in s.pcs ==> Good(s, t)
  }

  lemma MovedOk(s: State, m: Move)
    requires Consistent(s)
    ensures Consistent(Moved(s, m))
  {
    var t, o := m.call, m.outcome;
    if t in s.pcs && StepOf(s, t, o).Some? {
      StepIsOwn(s, t, o);
      assert Good(s, t);
      StepKeeps(s, t, o, t);
      forall u | u in s.pcs ensures Good(Moved(s, m), u) {
        StepKeeps(s, t, o, u);
      }
    }
  }

  lemma {:induction false} PlayOk(s: State, schedule: seq<Move>)
    requires Consistent(s)
    ensures Consistent(Play(s, schedule))
    decreases |schedule|
  {
    if schedule != [] {
      MovedOk(s, schedule[0]);
      PlayOk(Moved(s, schedule[0]), schedule[1..]);
    }
  }

  // The calls of one stream: some constructor, and cancellations with a reason.
  predicate Sensible(calls: map<CallId, Call>) {
    && (exists t :: t in calls && calls[t].Make?)
    && (forall t :: t in calls && calls[t].Cancel? ==> calls[t].wanted != Cancellation.Live)
  }

  lemma InitialOk(calls: map<CallId, Call>)
    requires Sensible(calls)
    ensures Consistent(Initial(calls))
  {
  }

  // ---- What every schedule keeps ----

  lemma OneHolder(s: State)
    requires Consistent(s)
    ensures forall t, u :: t in s.pcs && u in s.pcs && HoldsPair(s.pcs[t]) && HoldsPair(s.pcs[u]) ==> t == u
  {
    forall t | t in s.pcs && HoldsPair(s.pcs[t]) ensures s.nextLock == Some(t) {
      assert Good(s, t);
    }
  }

  // The pair is always in exactly one place: the slot, the one read in
  // progress, or dropped, and it is never dropped twice.
  lemma PairInOnePlace(calls: map<CallId, Call>, schedule: seq<Move>)
    requires Sensible(calls)
    ensures var s := Play(Initial(calls), schedule);
            && s.drops <= 1 && (s.drops == 1 ==> !s.slot && !Held(s))
            && (s.drops == 0 ==> (s.slot <==> !Held(s)))
            && (forall t, u :: t in s.pcs && u in s.pcs && HoldsPair(s.pcs[t]) && HoldsPair(s.pcs[u]) ==> t == u)
  {
    InitialOk(calls);
    PlayOk(Initial(calls), schedule);
    OneHolder(Play(Initial(calls), schedule));
  }

  lemma CleanedStays(s: State, m: Move)
    requires s.pcs.Keys == s.calls.Keys && s.cleaned
    ensures Moved(s, m).cleaned
  {
    var t := m.call;
    if t in s.pcs {
      match s.pcs[t] case Unlock(_) => case DiscardLate => case RunCleanup(_) => case Discard => case _ =>
    }
  }

  // Once cancelled and cleaned up, the slot stays empty whatever happens, and
  // no read that holds the pair is about to store it back.
  lemma {:induction false} SlotStaysEmpty(s: State, schedule: seq<Move>)
    requires Consistent(s) && s.cleaned
    ensures var e := Play(s, schedule);
            e.cleaned && !e.slot && forall t :: t in e.pcs ==> !e.pcs[t].PutStore?
    decreases |schedule|
  {
    if schedule == [] {
      forall t | t in s.pcs ensures !s.pcs[t].PutStore? {
        assert Good(s, t);
      }
    } else {
      CleanedStays(s, schedule[0]);
      MovedOk(s, schedule[0]);
      SlotStaysEmpty(Moved(s, schedule[0]), schedule[1..]);
    }
  }

  predicate Quiet(s: State) {
    forall t :: t in s.pcs ==> s.pcs[t].Returned?
  }

  // No guard leaks: when every call has returned and the operation was
  // cancelled, the pair has been dropped, exactly once.
  lemma CancelledIsDropped(calls: map<CallId, Call>, schedule: seq<Move>)
    requires Sensible(calls)
    ensures var s := Play(Initial(calls), schedule);
            Quiet(s) && s.reason != Cancellation.Live ==> s.drops == 1 && !s.slot
  {
    InitialOk(calls);
    PlayOk(Initial(calls), schedule);
    var s := Play(Initial(calls), schedule);
    if Quiet(s) && s.reason != Cancellation.Live {
      QuietIsDropped(s);
    }
  }

  lemma QuietIsDropped(s: State)
    requires Consistent(s) && Sensible(s.calls) && Quiet(s) && s.reason != Cancellation.Live
    ensures s.drops == 1 && !s.slot
  {
    var mk :| mk in s.calls && s.calls[mk].Make?;
    assert Good(s, mk) && s.made && s.cleaned;
  }

  // ---- Nobody waits in vain ----

  ghost predicate Stuck(s: State) {
    s.pcs.Keys == s.calls.Keys && forall t, o :: t in s.pcs ==> StepOf(s, t, o).None?
  }

  lemma LocksFree(s: State)
    requires Consistent(s) && Stuck(s)
    ensures s.slotLock.None? && s.cleanupLock.None?
  {
    if s.slotLock.Some? {
      HolderMoves(s, s.slotLock.value);
    }
    if s.cleanupLock.Some? {
      HolderMoves(s, s.cleanupLock.value);
    }
  }

  lemma HolderMoves(s: State, t: CallId)
    requires t in s.pcs && t in s.calls && (HoldsSlot(s.pcs[t]) || HoldsCleanup(s.pcs[t]))
    ensures StepOf(s, t, Pending).Some?
  {
  }

  // Where a call can be stuck with both locks free.
  lemma StuckAt(s: State, t: CallId)
    requires t in s.pcs && t in s.calls && TurnOk(s, t) && s.slotLock.None? && s.cleanupLock.None? && StepOf(s, t, Pending).None?
    ensures s.pcs[t].Returned? || (!s.made && (s.pcs[t].Enter? || s.pcs[t].Await?)) || (s.pcs[t].Queue? && s.nextLock.Some?)
  {
    match s.pcs[t] case Await => case Enter => case Queue => case Returned => case _ =>
  }

  lemma TurnMoves(s: State)
    requires Consistent(s) && s.made && s.nextLock.Some? && s.slotLock.None? && s.cleanupLock.None?
    ensures StepOf(s, s.nextLock.value, Pending).Some?
  {
    var t := s.nextLock.value;
    assert Good(s, t);
    if StepOf(s, t, Pending).None? {
      StuckAt(s, t);
    }
  }

  // When no call can move, whatever the stream answers, all have returned.
  lemma NoDeadlock(s: State)
    requires Consistent(s) && Sensible(s.calls) && Stuck(s)
    ensures Quiet(s)
  {
    LocksFree(s);
    forall t | t in s.pcs ensures Good(s, t) && StepOf(s, t, Pending).None? {
    }
    var mk :| mk in s.calls && s.calls[mk].Make?;
    StuckAt(s, mk);
    assert Good(s, mk) && s.made;
    if s.nextLock.Some? {
      TurnMoves(s);
    }
    forall t | t in s.pcs ensures s.pcs[t].Returned? {
      StuckAt(s, t);
    }
  }
}
