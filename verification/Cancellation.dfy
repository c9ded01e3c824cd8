// The cancellation cell of one operation: an atomic reason, a notification
// and a cleanup slot behind a lock, used by any number of concurrent calls.
// Each atomic access and each lock transition is one step; a schedule
// interleaves the steps of the calls in any order.
module Cancellation {
  import opened Wrappers

  datatype Reason = Live | User | StreamClosed | ClientClosed

  // One call on the cell. A cleanup is named by the call that registers it.
  type CallId = nat
  datatype Call = Cancel(wanted: Reason) | SetCleanup | Cancelled

  // What a call does next.
  datatype Pc =
    | Swap | Take | Notify(taken: Option<CallId>) | Run(taken: Option<CallId>) // cancel
    | Lock | Check | Store | Unlock(late: bool) | RunOwn // set_cleanup
    | Listen | Look(heard: nat) | Park(heard: nat) // cancelled
    | Returned | Answered(answer: Reason)

  // `epoch` counts the notifications; a waiter that listened before one is woken by it.
  datatype State = State(calls: map<CallId, Call>, pcs: map<CallId, Pc>,
                         reason: Reason, slot: Option<CallId>, holder: Option<CallId>, epoch: nat,
                         winner: Option<CallId>, ran: multiset<CallId>, dropped: set<CallId>)

  function Start(c: Call): Pc {
    match c case Cancel(_) => Swap case SetCleanup => Lock case Cancelled => Listen
  }

  function Initial(calls: map<CallId, Call>): State {
    State(calls, map t | t in calls :: Start(calls[t]), Live, None, None, 0, None, multiset{}, {})
  }

  function Goto(s: State, t: CallId, pc: Pc): State {
    s.(pcs := s.pcs[t := pc])
  }

  function Counted(c: Option<CallId>): multiset<CallId> {
    match c case Some(f) => multiset{f} case None => multiset{}
  }

  // A step of call `t` moves no other call, and a reason is never replaced.
  ghost predicate OwnStep(s: State, t: CallId, n: State)
    requires t in s.pcs
  {
    && n.calls == s.calls && t in n.pcs && n.pcs == s.pcs[t := n.pcs[t]]
    && (s.reason != Live ==> n.reason == s.reason && n.winner == s.winner)
    && s.epoch <= n.epoch
  }

  function CancelStep(s: State, t: CallId): (next: Option<State>)
    requires t in s.pcs && t in s.calls
    ensures next.Some? ==> OwnStep(s, t, next.value)
  {
    match s.pcs[t]
    case Swap =>
      if s.calls[t].Cancel? && s.calls[t].wanted != Live && s.reason == Live then
        Some(Goto(s, t, Take).(reason := s.calls[t].wanted, winner := Some(t)))
      else Some(Goto(s, t, Returned))
    case Take => if s.holder.Some? then None else Some(Goto(s, t, Notify(s.slot)).(slot := None))
    case Notify(c) => Some(Goto(s, t, Run(c)).(epoch := s.epoch + 1))
    case Run(c) => Some(Goto(s, t, Returned).(ran := s.ran + Counted(c)))
    case _ => None
  }

  function SetStep(s: State, t: CallId): (next: Option<State>)
    requires t in s.pcs
    ensures next.Some? ==> OwnStep(s, t, next.value)
  {
    match s.pcs[t]
    case Lock => if s.holder.Some? then None else Some(Goto(s, t, Check).(holder := Some(t)))
    case Check => Some(Goto(s, t, if s.reason == Live then Store else Unlock(true)))
    case Store => Some(Goto(s, t, Unlock(false)).(slot := Some(t), dropped := s.dropped + OptionSet(s.slot)))
    case Unlock(late) => Some(Goto(s, t, if late then RunOwn else Returned).(holder := None))
    case RunOwn => Some(Goto(s, t, Returned).(ran := s.ran + multiset{t}))
    case _ => None
  }

  function WaitStep(s: State, t: CallId): (next: Option<State>)
    requires t in s.pcs
    ensures next.Some? ==> OwnStep(s, t, next.value)
  {
    match s.pcs[t]
    case Listen => Some(Goto(s, t, Look(s.epoch)))
    case Look(e) => Some(Goto(s, t, if s.reason != Live then Answered(s.reason) else Park(e)))
    case Park(e) => if s.epoch == e then None else Some(Goto(s, t, Listen))
    case _ => None
  }

  // The next step of call `t`; none if it has returned or must wait.
  function StepOf(s: State, t: CallId): (next: Option<State>)
    requires t in s.pcs && t in s.calls
    ensures next.Some? ==> OwnStep(s, t, next.value)
  {
    match s.calls[t]
    case Cancel(_) => CancelStep(s, t)
    case SetCleanup => SetStep(s, t)
    case Cancelled => WaitStep(s, t)
  }

  function OptionSet(c: Option<CallId>): set<CallId> {
    match c case Some(f) => {f} case None => {}
  }

  // A call that must wait is passed over.
  function Moved(s: State, t: CallId): (next: State)
    requires s.pcs.Keys == s.calls.Keys
    ensures t in s.pcs ==> OwnStep(s, t, next)
    ensures t !in s.pcs ==> next == s
  {
    if t in s.pcs && StepOf(s, t).Some? then StepOf(s, t).value else s
  }

  // The calls move in the order of the schedule.
  function Play(s: State, schedule: seq<CallId>): State
    requires s.pcs.Keys == s.calls.Keys
    decreases |schedule|
  {
    if schedule == [] then s else Play(Moved(s, schedule[0]), schedule[1..])
  }

  // The cell itself, updated in place one atomic step at a time.
  class Cell {
    const calls: map<CallId, Call>
    var pcs: map<CallId, Pc>
    var reason: Reason
    var slot: Option<CallId>
    var holder: Option<CallId>
    var epoch: nat
    var winner: Option<CallId>
    var ran: multiset<CallId>
    var dropped: set<CallId>

    function Snapshot(): State
      reads this
    {
      State(calls, pcs, reason, slot, holder, epoch, winner, ran, dropped)
    }

    ghost predicate Valid()
      reads this
    {
      Consistent(Snapshot())
    }

    constructor (calls: map<CallId, Call>)
      ensures Valid() && Snapshot() == Initial(calls)
    {
      this.calls := calls;
      pcs := map t | t in calls :: Start(calls[t]);
      reason, slot, holder, epoch, winner, ran, dropped := Live, None, None, 0, None, multiset{}, {};
    }

    // cancel: swap the reason; only the first swap goes on.
    method StepSwap(t: CallId)
      requires pcs.Keys == calls.Keys && t in calls && pcs[t].Swap? && calls[t].Cancel?
      modifies this
      ensures Snapshot() == Moved(old(Snapshot()), t)
    {
      if calls[t].wanted != Live && reason == Live {
        reason, winner := calls[t].wanted, Some(t);
        pcs := pcs[t := Take];
      } else {
        pcs := pcs[t := Returned];
      }
    }

    // The winner: empty the slot under the lock, notify, run what was in it.
    method StepWinner(t: CallId)
      requires pcs.Keys == calls.Keys && t in calls && Winning(pcs[t]) && calls[t].Cancel?
      modifies this
      ensures Snapshot() == Moved(old(Snapshot()), t)
    {
      match pcs[t]
      case Take =>
        if holder.None? {
          pcs := pcs[t := Notify(slot)];
          slot := None;
        }
      case Notify(taken) =>
        epoch := epoch + 1;
        pcs := pcs[t := Run(taken)];
      case Run(taken) =>
        ran := ran + Counted(taken);
        pcs := pcs[t := Returned];
    }

    // set_cleanup: look at the reason under the lock ...
    method StepLook(t: CallId)
      requires pcs.Keys == calls.Keys && t in calls && calls[t].SetCleanup? && (pcs[t].Lock? || pcs[t].Check?)
      modifies this
      ensures Snapshot() == Moved(old(Snapshot()), t)
    {
      match pcs[t]
      case Lock =>
        if holder.None? {
          holder := Some(t);
          pcs := pcs[t := Check];
        }
      case Check =>
        pcs := pcs[t := if reason == Live then Store else Unlock(true)];
    }

    // ... store the cleanup if the operation is live, or run it after releasing the lock.
    method StepStore(t: CallId)
      requires pcs.Keys == calls.Keys && t in calls && calls[t].SetCleanup? && (pcs[t].Store? || pcs[t].Unlock? || pcs[t].RunOwn?)
      modifies this
      ensures Snapshot() == Moved(old(Snapshot()), t)
    {
      match pcs[t]
      case Store =>
        dropped := dropped + OptionSet(slot);
        slot := Some(t);
        pcs := pcs[t := Unlock(false)];
      case Unlock(late) =>
        holder := None;
        pcs := pcs[t := if late then RunOwn else Returned];
      case RunOwn =>
        ran := ran + multiset{t};
        pcs := pcs[t := Returned];
    }

    // cancelled: listen before looking, so that no notification is missed.
    method StepCancelled(t: CallId)
      requires pcs.Keys == calls.Keys && t in calls && PcFits(calls[t], pcs[t]) && calls[t].Cancelled?
      modifies this
      ensures Snapshot() == Moved(old(Snapshot()), t)
    {
      match pcs[t]
      case Listen => pcs := pcs[t := Look(epoch)];
      case Look(heard) => pcs := pcs[t := if reason != Live then Answered(reason) else Park(heard)];
      case Park(heard) =>
        if epoch != heard {
          pcs := pcs[t := Listen];
        }
      case Answered(_) =>
    }

    // One step of call `t`, whatever it does next; a call that must wait, or
    // has returned, changes nothing.
    method Step(t: CallId)
      requires pcs.Keys == calls.Keys && t in calls
      modifies this
      ensures Snapshot() == Moved(old(Snapshot()), t)
    {
      match calls[t]
      case Cancel(_) =>
        if pcs[t].Swap? {
          StepSwap(t);
        } else if Winning(pcs[t]) {
          StepWinner(t);
        }
      case SetCleanup =>
        if pcs[t].Lock? || pcs[t].Check? {
          StepLook(t);
        } else if pcs[t].Store? || pcs[t].Unlock? || pcs[t].RunOwn? {
          StepStore(t);
        }
      case Cancelled =>
        if PcFits(calls[t], pcs[t]) {
          StepCancelled(t);
        }
    }

    method Advance(t: CallId)
      requires Valid()
      modifies this
      ensures Valid() && Snapshot() == Moved(old(Snapshot()), t)
    {
      MovedOk(Snapshot(), t);
      if t in calls {
        Step(t);
      }
    }

    // The calls move in the order of the schedule.
    method Follow(schedule: seq<CallId>)
      requires Valid()
      modifies this
      ensures Valid() && Snapshot() == Play(old(Snapshot()), schedule)
    {
      assert schedule[0..] == schedule;
      for i := 0 to |schedule|
        invariant Valid() && Play(Snapshot(), schedule[i..]) == Play(old(Snapshot()), schedule)
      {
        assert schedule[i..][0] == schedule[i] && schedule[i..][1..] == schedule[i + 1..];
        Advance(schedule[i]);
      }
    }
  }

  // ---- The invariant ----

  predicate Holds(pc: Pc) {
    pc.Check? || pc.Store? || pc.Unlock?
  }

  predicate Winning(pc: Pc) {
    pc.Take? || pc.Notify? || pc.Run?
  }

  // `set_cleanup` has handed its cleanup over.
  predicate Handed(pc: Pc) {
    pc == Unlock(false) || pc == Returned
  }

  predicate WinnerAt(s: State, pc: Pc) {
    s.winner.Some? && s.winner.value in s.pcs && s.pcs[s.winner.value] == pc
  }

  // The winner of the swap has not taken the slot yet, if there is one.
  predicate NotTaken(s: State) {
    s.reason == Live || WinnerAt(s, Take)
  }

  predicate Taken(s: State, f: CallId) {
    WinnerAt(s, Notify(Some(f))) || WinnerAt(s, Run(Some(f)))
  }

  predicate PcFits(c: Call, pc: Pc) {
    match c
    case Cancel(_) => pc.Swap? || Winning(pc) || pc.Returned?
    case SetCleanup => pc.Lock? || Holds(pc) || pc.RunOwn? || pc.Returned?
    case Cancelled => pc.Listen? || pc.Look? || pc.Park? || pc.Answered?
  }

  // Where the cleanup of call `f` is; it is in exactly one place.
  predicate Placed(s: State, f: CallId)
    requires f in s.pcs
  {
    && (Handed(s.pcs[f]) ==>
          if f in s.dropped then s.slot != Some(f) && !Taken(s, f) && s.ran[f] == 0
          else if s.slot == Some(f) then !Taken(s, f) && s.ran[f] == 0
          else if Taken(s, f) then s.ran[f] == 0
          else s.ran[f] == 1 && s.reason != Live)
    && (!Handed(s.pcs[f]) ==> f !in s.dropped && s.slot != Some(f) && !Taken(s, f) && s.ran[f] == 0)
  }

  predicate CallOk(s: State, t: CallId)
    requires t in s.pcs && t in s.calls
  {
    var pc := s.pcs[t];
    && PcFits(s.calls[t], pc)
    && (Holds(pc) <==> s.holder == Some(t))
    && (Winning(pc) ==> s.winner == Some(t))
    && (pc.Store? ==> NotTaken(s))
    && (pc == Unlock(true) || pc.RunOwn? ==> s.reason != Live)
    && (pc.Look? ==> pc.heard <= s.epoch)
    && (pc.Park? ==> pc.heard == 0)
    && (pc.Answered? ==> pc.answer == s.reason && s.reason != Live)
  }

  predicate CellOk(s: State) {
    && s.pcs.Keys == s.calls.Keys
    && (s.reason == Live <==> s.winner.None?)
    && (s.winner.Some? ==>
          && s.winner.value in s.pcs && s.calls[s.winner.value] == Cancel(s.reason)
          && (Winning(s.pcs[s.winner.value]) || s.pcs[s.winner.value].Returned?))
    && s.epoch == (if s.winner.Some? && (s.pcs[s.winner.value].Run? || s.pcs[s.winner.value].Returned?) then 1 else 0)
    && (s.slot.Some? ==> s.slot.value in s.pcs && s.calls[s.slot.value].SetCleanup? && NotTaken(s))
    && (s.holder.Some? ==> s.holder.value in s.pcs)
  }

  // Some other call also registers a cleanup.
  predicate OtherSetter(calls: map<CallId, Call>, f: CallId) {
    exists g :: g in calls && g != f && calls[g].SetCleanup?
  }

  ghost predicate Consistent(s: State) {
    && CellOk(s)
    && (forall t :: t in s.pcs ==> CallOk(s, t))
    && (forall t :: t in s.pcs && s.calls[t].SetCleanup? ==> Placed(s, t))
    && (forall f :: f in s.dropped ==> OtherSetter(s.calls, f))
  }

  lemma InitialOk(calls: map<CallId, Call>)
    ensures Consistent(Initial(calls))
  {
  }

  ghost predicate StepFrom(s: State, t: CallId) {
    CellOk(s) && t in s.pcs && CallOk(s, t) && StepOf(s, t).Some?
  }

  lemma CancelCell(s: State, t: CallId)
    requires StepFrom(s, t) && s.calls[t].Cancel?
    ensures CellOk(StepOf(s, t).value)
  {
  }

  lemma SetCell(s: State, t: CallId)
    requires StepFrom(s, t) && s.calls[t].SetCleanup?
    ensures CellOk(StepOf(s, t).value)
  {
  }

  lemma WaitCell(s: State, t: CallId)
    requires StepFrom(s, t) && s.calls[t].Cancelled?
    ensures CellOk(StepOf(s, t).value)
  {
  }

  lemma CancelCall(s: State, t: CallId, u: CallId)
    requires StepFrom(s, t) && s.calls[t].Cancel? && u in s.pcs && CallOk(s, u)
    ensures CallOk(StepOf(s, t).value, u)
  {
  }

  lemma SetCall(s: State, t: CallId, u: CallId)
    requires StepFrom(s, t) && s.calls[t].SetCleanup? && u in s.pcs && CallOk(s, u)
    ensures CallOk(StepOf(s, t).value, u)
  {
  }

  lemma WaitCall(s: State, t: CallId, u: CallId)
    requires StepFrom(s, t) && s.calls[t].Cancelled? && u in s.pcs && CallOk(s, u)
    ensures CallOk(StepOf(s, t).value, u)
  {
  }

  lemma CancelPlaced(s: State, t: CallId, f: CallId)
    requires StepFrom(s, t) && s.calls[t].Cancel? && f in s.pcs && CallOk(s, f) && s.calls[f].SetCleanup? && Placed(s, f)
    ensures Placed(StepOf(s, t).value, f)
  {
  }

  lemma SetPlaced(s: State, t: CallId, f: CallId)
    requires StepFrom(s, t) && s.calls[t].SetCleanup? && f in s.pcs && CallOk(s, f) && s.calls[f].SetCleanup? && Placed(s, f)
    ensures Placed(StepOf(s, t).value, f)
  {
  }

  lemma WaitPlaced(s: State, t: CallId, f: CallId)
    requires StepFrom(s, t) && s.calls[t].Cancelled? && f in s.pcs && s.calls[f].SetCleanup? && Placed(s, f)
    ensures Placed(StepOf(s, t).value, f)
  {
  }

  lemma StepCell(s: State, t: CallId)
    requires StepFrom(s, t)
    ensures CellOk(StepOf(s, t).value)
  {
    match s.calls[t]
    case Cancel(_) => CancelCell(s, t);
    case SetCleanup => SetCell(s, t);
    case Cancelled => WaitCell(s, t);
  }

  lemma StepCall(s: State, t: CallId, u: CallId)
    requires StepFrom(s, t) && u in s.pcs && CallOk(s, u)
    ensures CallOk(StepOf(s, t).value, u)
  {
    match s.calls[t]
    case Cancel(_) => CancelCall(s, t, u);
    case SetCleanup => SetCall(s, t, u);
    case Cancelled => WaitCall(s, t, u);
  }

  lemma StepPlaced(s: State, t: CallId, f: CallId)
    requires StepFrom(s, t) && f in s.pcs && CallOk(s, f) && s.calls[f].SetCleanup? && Placed(s, f)
    ensures Placed(StepOf(s, t).value, f)
  {
    match s.calls[t]
    case Cancel(_) => CancelPlaced(s, t, f);
    case SetCleanup => SetPlaced(s, t, f);
    case Cancelled => WaitPlaced(s, t, f);
  }

  // A stored cleanup is dropped only by another call that stores its own.
  lemma StepDropped(s: State, t: CallId, f: CallId)
    requires StepFrom(s, t) && f in StepOf(s, t).value.dropped && f !in s.dropped
    requires f in s.pcs && s.calls[f].SetCleanup? ==> Placed(s, f)
    ensures OtherSetter(s.calls, f)
  {
    assert t != f && s.calls[t].SetCleanup?;
  }

  lemma StepOk(s: State, t: CallId)
    requires Consistent(s) && t in s.pcs && StepOf(s, t).Some?
    ensures Consistent(StepOf(s, t).value) && StepOf(s, t).value.calls == s.calls
  {
    var after := StepOf(s, t).value;
    assert StepFrom(s, t);
    StepCell(s, t);
    forall u | u in s.pcs ensures CallOk(after, u) {
      StepCall(s, t, u);
    }
    forall f | f in s.pcs && s.calls[f].SetCleanup? ensures Placed(after, f) {
      StepPlaced(s, t, f);
    }
    forall f | f in after.dropped ensures OtherSetter(s.calls, f) {
      if f !in s.dropped {
        StepDropped(s, t, f);
      }
    }
  }

  // ---- Every schedule ----

  lemma MovedOk(s: State, t: CallId)
    requires Consistent(s)
    ensures Consistent(Moved(s, t))
  {
    if t in s.pcs && StepOf(s, t).Some? {
      StepOk(s, t);
    }
  }

  lemma {:induction false} PlayOk(s: State, schedule: seq<CallId>)
    requires Consistent(s)
    ensures Consistent(Play(s, schedule)) && Play(s, schedule).calls == s.calls
    decreases |schedule|
  {
    if schedule != [] {
      MovedOk(s, schedule[0]);
      PlayOk(Moved(s, schedule[0]), schedule[1..]);
    }
  }

  // First wins: once the reason has left Live, no schedule changes it again.
  lemma {:induction false} ReasonIsFinal(s: State, schedule: seq<CallId>)
    requires Consistent(s) && s.reason != Live
    ensures Play(s, schedule).reason == s.reason && Play(s, schedule).winner == s.winner
    decreases |schedule|
  {
    if schedule != [] {
      MovedOk(s, schedule[0]);
      ReasonIsFinal(Moved(s, schedule[0]), schedule[1..]);
    }
  }

  // The reason is the one of the call that won; every answer is that reason.
  lemma AnswersAgree(calls: map<CallId, Call>, schedule: seq<CallId>)
    ensures var s := Play(Initial(calls), schedule);
            && s.pcs.Keys == calls.Keys && s.calls == calls
            && (s.reason != Live ==> s.winner.Some? && s.winner.value in calls && calls[s.winner.value] == Cancel(s.reason))
            && (forall t :: t in calls && s.pcs[t].Answered? ==> s.pcs[t].answer == s.reason && s.reason != Live)
  {
    InitialOk(calls);
    PlayOk(Initial(calls), schedule);
    var s := Play(Initial(calls), schedule);
    forall t | t in calls ensures CallOk(s, t) {
    }
  }

  // A cancellation with a reason has taken effect once its swap is done.
  predicate Effective(s: State, t: CallId) {
    t in s.pcs && t in s.calls && (s.calls[t].Cancel? && s.calls[t].wanted != Live && !s.pcs[t].Swap? ==> s.reason != Live)
  }

  lemma StepEffective(s: State, u: CallId, t: CallId)
    requires s.pcs.Keys == s.calls.Keys && Effective(s, t)
    ensures Effective(Moved(s, u), t)
  {
  }

  lemma {:induction false} CancelTakesEffect(s: State, schedule: seq<CallId>, t: CallId)
    requires Consistent(s) && s.pcs.Keys == s.calls.Keys && Effective(s, t)
    ensures Effective(Play(s, schedule), t)
    decreases |schedule|
  {
    if schedule != [] {
      StepEffective(s, schedule[0], t);
      MovedOk(s, schedule[0]);
      CancelTakesEffect(Moved(s, schedule[0]), schedule[1..], t);
    }
  }

  // A cancellation that has returned has cancelled the operation.
  lemma CancelledOnReturn(calls: map<CallId, Call>, schedule: seq<CallId>, t: CallId)
    requires t in calls && calls[t].Cancel? && calls[t].wanted != Live
    ensures var s := Play(Initial(calls), schedule); t in s.pcs && (s.pcs[t].Returned? ==> s.reason != Live)
  {
    InitialOk(calls);
    CancelTakesEffect(Initial(calls), schedule, t);
    AnswersAgree(calls, schedule);
  }

  // Both parties to cleanup `f` are done: the call that registers it, and the
  // call that won the cancellation, if any.
  predicate Settled(s: State, f: CallId)
    requires f in s.pcs
  {
    s.pcs[f].Returned? && (s.reason != Live ==> WinnerAt(s, Returned))
  }

  // A cleanup runs at most once, and never on a live operation. Once both
  // parties are done it has run exactly once if the operation was cancelled
  // and no other registration replaced it; else it has not run at all.
  lemma CleanupRunsOnce(calls: map<CallId, Call>, schedule: seq<CallId>, f: CallId)
    requires f in calls && calls[f].SetCleanup?
    ensures var s := Play(Initial(calls), schedule);
            && s.pcs.Keys == calls.Keys
            && s.ran[f] <= 1 && (s.ran[f] == 1 ==> s.reason != Live)
            && (Settled(s, f) ==> s.ran[f] == if s.reason != Live && f !in s.dropped then 1 else 0)
            && (f in s.dropped ==> OtherSetter(calls, f))
            && (Settled(s, f) && s.reason == Live && f !in s.dropped ==> s.slot == Some(f))
  {
    InitialOk(calls);
    PlayOk(Initial(calls), schedule);
    var s := Play(Initial(calls), schedule);
    assert CallOk(s, f) && Placed(s, f);
  }

  // ---- Waiters ----

  // How many steps of its own a waiter is from answering, once notified.
  function Rank(pc: Pc): nat {
    match pc case Park(_) => 3 case Listen => 2 case Look(_) => 1 case _ => 0
  }

  lemma NotifiedMoves(s: State, t: CallId)
    requires Consistent(s) && s.epoch > 0 && t in s.pcs && s.calls[t].Cancelled? && !s.pcs[t].Answered?
    ensures StepOf(s, t).Some?
    ensures Rank(StepOf(s, t).value.pcs[t]) < Rank(s.pcs[t]) && StepOf(s, t).value.epoch > 0
  {
    assert CallOk(s, t);
  }

  lemma NotifiedStays(s: State, u: CallId, t: CallId)
    requires Consistent(s) && s.epoch > 0 && t in s.pcs && s.calls[t].Cancelled?
    ensures var n := Moved(s, u);
            && n.epoch > 0 && n.reason == s.reason && n.calls == s.calls && t in n.pcs
            && Rank(n.pcs[t]) <= (if u == t && Rank(s.pcs[t]) > 0 then Rank(s.pcs[t]) - 1 else Rank(s.pcs[t]))
  {
    if u == t && !s.pcs[t].Answered? {
      NotifiedMoves(s, t);
    }
  }

  // How often `t` gets a turn.
  function Turns(schedule: seq<CallId>, t: CallId): nat {
    if schedule == [] then 0 else (if schedule[0] == t then 1 else 0) + Turns(schedule[1..], t)
  }

  lemma NoRankAnswered(s: State, t: CallId)
    requires Consistent(s) && t in s.pcs && s.calls[t].Cancelled? && Rank(s.pcs[t]) == 0
    ensures s.pcs[t] == Answered(s.reason)
  {
    assert CallOk(s, t);
  }

  // Once the canceller has notified, no waiter stays parked: after at most
  // three turns of its own it has answered, whatever the other calls do.
  lemma {:induction false} NoWaiterLeftParked(s: State, schedule: seq<CallId>, t: CallId)
    requires Consistent(s) && s.epoch > 0 && t in s.pcs && s.calls[t].Cancelled?
    requires Turns(schedule, t) >= Rank(s.pcs[t])
    ensures t in Play(s, schedule).pcs && Play(s, schedule).pcs[t] == Answered(s.reason)
    decreases |schedule|
  {
    if schedule == [] {
      NoRankAnswered(s, t);
    } else {
      NotifiedStays(s, schedule[0], t);
      MovedOk(s, schedule[0]);
      NoWaiterLeftParked(Moved(s, schedule[0]), schedule[1..], t);
    }
  }

  lemma HolderMoves(s: State)
    requires Consistent(s) && s.holder.Some?
    ensures exists t :: t in s.pcs && StepOf(s, t).Some?
  {
    assert CallOk(s, s.holder.value);
    assert StepOf(s, s.holder.value).Some?;
  }

  // Nothing deadlocks: when no call can move, every call has returned, except
  // waiters of an operation that is still live.
  lemma NoDeadlock(s: State)
    requires Consistent(s) && forall t :: t in s.pcs ==> StepOf(s, t).None?
    ensures forall t :: t in s.pcs ==> s.pcs[t].Returned? || s.pcs[t].Answered? || (s.pcs[t].Park? && s.reason == Live)
  {
    if s.holder.Some? {
      HolderMoves(s);
    }
    if s.winner.Some? {
      assert CallOk(s, s.winner.value) && StepOf(s, s.winner.value).None?;
    }
    forall t | t in s.pcs ensures s.pcs[t].Returned? || s.pcs[t].Answered? || (s.pcs[t].Park? && s.reason == Live) {
      assert CallOk(s, t) && StepOf(s, t).None?;
    }
  }

  // ---- Every call ends ----

  // How many steps a call has left: a waiter wakes up once at most.
  function Left(pc: Pc, epoch: nat): nat {
    match pc
    case Swap => 4 case Take => 3 case Notify(_) => 2 case Run(_) => 1
    case Lock => 5 case Check => 4 case Store => 3 case Unlock(_) => 2 case RunOwn => 1
    case Listen => if epoch == 0 then 5 else 2
    case Look(_) => if epoch == 0 then 4 else 1
    case Park(_) => 3
    case Returned => 0 case Answered(_) => 0
  }

  lemma CancelLeft(s: State, t: CallId)
    requires t in s.pcs && t in s.calls && CancelStep(s, t).Some?
    ensures var n := CancelStep(s, t).value; t in n.pcs && Left(n.pcs[t], n.epoch) < Left(s.pcs[t], s.epoch)
  {
    match s.pcs[t] case Swap => case Take => case Notify(_) => case Run(_) => case _ =>
  }

  lemma SetLeft(s: State, t: CallId)
    requires t in s.pcs && SetStep(s, t).Some?
    ensures var n := SetStep(s, t).value; t in n.pcs && Left(n.pcs[t], n.epoch) < Left(s.pcs[t], s.epoch)
  {
    match s.pcs[t] case Lock => case Check => case Store => case Unlock(_) => case RunOwn => case _ =>
  }

  lemma WaitLeft(s: State, t: CallId)
    requires t in s.pcs && WaitStep(s, t).Some? && (s.epoch > 0 ==> s.reason != Live)
    requires s.pcs[t].Park? ==> s.pcs[t].heard == 0
    ensures var n := WaitStep(s, t).value; t in n.pcs && Left(n.pcs[t], n.epoch) < Left(s.pcs[t], s.epoch)
  {
    match s.pcs[t] case Listen => case Look(_) => case Park(_) => case _ =>
  }

  lemma StepLeft(s: State, t: CallId)
    requires Consistent(s) && t in s.pcs && StepOf(s, t).Some?
    ensures var n := StepOf(s, t).value; t in n.pcs && Left(n.pcs[t], n.epoch) < Left(s.pcs[t], s.epoch)
  {
    assert CallOk(s, t);
    match s.calls[t]
    case Cancel(_) => CancelLeft(s, t);
    case SetCleanup => SetLeft(s, t);
    case Cancelled => WaitLeft(s, t);
  }

  lemma LeftFalls(s: State, u: CallId, t: CallId)
    requires Consistent(s) && t in s.pcs
    ensures var n := Moved(s, u);
            t in n.pcs && Left(n.pcs[t], n.epoch) + (if u == t && StepOf(s, t).Some? then 1 else 0) <= Left(s.pcs[t], s.epoch) <= 5
  {
    if u == t && StepOf(s, t).Some? {
      StepLeft(s, t);
    }
  }

  // How many of the turns of `t` did something.
  function StepsOf(s: State, schedule: seq<CallId>, t: CallId): nat
    requires s.pcs.Keys == s.calls.Keys
    decreases |schedule|
  {
    if schedule == [] then 0
    else (if schedule[0] == t && t in s.pcs && StepOf(s, t).Some? then 1 else 0) + StepsOf(Moved(s, schedule[0]), schedule[1..], t)
  }

  // Every call, also a waiter, takes at most five steps.
  lemma {:induction false} EveryCallEnds(s: State, schedule: seq<CallId>, t: CallId)
    requires Consistent(s) && t in s.pcs
    ensures StepsOf(s, schedule, t) <= Left(s.pcs[t], s.epoch) <= 5
    decreases |schedule|
  {
    LeftFalls(s, t, t);
    if schedule != [] {
      LeftFalls(s, schedule[0], t);
      MovedOk(s, schedule[0]);
      EveryCallEnds(Moved(s, schedule[0]), schedule[1..], t);
    }
  }
}
