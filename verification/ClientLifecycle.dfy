// Registering operations with a client, finishing them, and closing the
// client, in any interleaving. The active table is guarded by a lock, the
// closed flag is atomic, and the number of active operations is published on
// a watch channel after every change of the table.
module ClientLifecycle {
  import opened Wrappers

  type CallId = nat
  type OperationId = nat

  // Register: one operation, from registration to the drop of its guard.
  datatype Call = Register | Close | UserCancel(target: CallId)

  datatype Pc =
    | Check | CheckOp | Acquire | Recheck | RecheckOp | Insert | Publish(id: OperationId) | Release(id: OperationId) | Abort // register
    | Running(id: OperationId) | Reacquire(id: OperationId) | Remove(id: OperationId) | Republish | Rerelease // finish
    | SwapClosed | Snapshot | CancelAll(todo: seq<CallId>) | Look | Park(seen: nat) // close
    | Request // cancellation by the user
    | Returned | Refused

  // `version` counts the values sent on the channel.
  datatype State = State(calls: map<CallId, Call>, pcs: map<CallId, Pc>,
                         closed: bool, holder: Option<CallId>, active: map<OperationId, CallId>, nextId: OperationId,
                         count: nat, version: nat, cancelled: set<CallId>,
                         winner: Option<CallId>, snapped: bool)

  function Start(c: Call): Pc {
    match c case Register => Check case Close => SwapClosed case UserCancel(_) => Request
  }

  function Initial(calls: map<CallId, Call>): State {
    State(calls, map t | t in calls :: Start(calls[t]), false, None, map[], 1, 0, 0, {}, None, false)
  }

  function Goto(s: State, t: CallId, pc: Pc): State {
    s.(pcs := s.pcs[t := pc])
  }

  // The operations in the table, by id from `i` up to `n`.
  function Listing(active: map<OperationId, CallId>, i: nat, n: nat): seq<CallId>
    decreases n - i
  {
    if i >= n then [] else (if i in active then [active[i]] else []) + Listing(active, i + 1, n)
  }

  function LockFor(s: State, t: CallId, pc: Pc): Option<State> {
    if s.holder.Some? then None else Some(Goto(s, t, pc).(holder := Some(t)))
  }

  function Sent(s: State): State {
    s.(count := |s.active|, version := s.version + 1)
  }

  // A step of call `t` moves no other call, and only a first close elects a winner.
  ghost predicate OwnStep(s: State, t: CallId, n: State)
    requires t in s.pcs
  {
    && n.calls == s.calls && t in n.pcs && n.pcs == s.pcs[t := n.pcs[t]]
    && (n.winner == s.winner || (s.pcs[t].SwapClosed? && n.pcs[t].Snapshot?))
  }

  // Registration: the client and then the operation are looked at, before and
  // again under the lock.
  function RegisterStep(s: State, t: CallId): (next: Option<State>)
    requires t in s.pcs
    ensures next.Some? ==> OwnStep(s, t, next.value)
  {
    match s.pcs[t]
    case Check => Some(Goto(s, t, if s.closed then Refused else CheckOp))
    case CheckOp => Some(Goto(s, t, if t in s.cancelled then Refused else Acquire))
    case Acquire => LockFor(s, t, Recheck)
    case Recheck => Some(Goto(s, t, if s.closed then Abort else RecheckOp))
    case RecheckOp => Some(Goto(s, t, if t in s.cancelled then Abort else Insert))
    case Abort => Some(Goto(s, t, Refused).(holder := None))
    case Insert => Some(Goto(s, t, Publish(s.nextId)).(active := s.active[s.nextId := t], nextId := s.nextId + 1))
    case Publish(id) => Some(Sent(Goto(s, t, Release(id))))
    case Release(id) => Some(Goto(s, t, Running(id)).(holder := None))
    case _ => None
  }

  // The drop of the guard.
  function FinishStep(s: State, t: CallId): (next: Option<State>)
    requires t in s.pcs
    ensures next.Some? ==> OwnStep(s, t, next.value)
  {
    match s.pcs[t]
    case Running(id) => Some(Goto(s, t, Reacquire(id)))
    case Reacquire(id) => LockFor(s, t, Remove(id))
    case Remove(id) => Some(Goto(s, t, Republish).(active := s.active - {id}))
    case Republish => Some(Sent(Goto(s, t, Rerelease)))
    case Rerelease => Some(Goto(s, t, Returned).(holder := None))
    case _ => None
  }

  function CloseStep(s: State, t: CallId): (next: Option<State>)
    requires t in s.pcs && t in s.calls
    ensures next.Some? ==> OwnStep(s, t, next.value)
  {
    match s.pcs[t]
    case SwapClosed =>
      if s.closed then Some(Goto(s, t, Look)) else Some(Goto(s, t, Snapshot).(closed := true, winner := Some(t)))
    case Snapshot =>
      if s.holder.Some? then None
      else Some(Goto(s, t, CancelAll(Listing(s.active, 0, s.nextId))).(snapped := true))
    case CancelAll(todo) =>
      if todo == [] then Some(Goto(s, t, Look))
      else Some(Goto(s, t, CancelAll(todo[1..])).(cancelled := s.cancelled + {todo[0]}))
    case Look => Some(Goto(s, t, if s.count == 0 then Returned else Park(s.version)))
    case Park(seen) => if s.version == seen then None else Some(Goto(s, t, Look))
    case Request =>
      if s.calls[t].UserCancel? then Some(Goto(s, t, Returned).(cancelled := s.cancelled + {s.calls[t].target})) else None
    case _ => None
  }

  predicate Finishing(pc: Pc) {
    pc.Running? || pc.Reacquire? || pc.Remove? || pc.Republish? || pc.Rerelease?
  }

  predicate Registering(pc: Pc) {
    Admitting(pc) || pc.Insert? || pc.Publish? || pc.Release?
  }

  // The next step of call `t`; none if it has returned or must wait.
  function StepOf(s: State, t: CallId): (next: Option<State>)
    requires t in s.pcs && t in s.calls
    ensures next.Some? ==> OwnStep(s, t, next.value)
  {
    if Registering(s.pcs[t]) then RegisterStep(s, t)
    else if Finishing(s.pcs[t]) then FinishStep(s, t)
    else CloseStep(s, t)
  }

  function Moved(s: State, t: CallId): (next: State)
    requires s.pcs.Keys == s.calls.Keys
    ensures next.calls == s.calls && next.pcs.Keys == s.pcs.Keys
  {
    if t in s.pcs && StepOf(s, t).Some? then StepOf(s, t).value else s
  }

  function Play(s: State, schedule: seq<CallId>): (end: State)
    requires s.pcs.Keys == s.calls.Keys
    ensures end.calls == s.calls && end.pcs.Keys == s.pcs.Keys
    decreases |schedule|
  {
    if schedule == [] then s else Play(Moved(s, schedule[0]), schedule[1..])
  }

  // The client's state, updated in place one atomic step at a time.
  class Client {
    const calls: map<CallId, Call>
    var pcs: map<CallId, Pc>
    var closed: bool
    var holder: Option<CallId>
    var active: map<OperationId, CallId>
    var nextId: OperationId
    var count: nat
    var version: nat
    var cancelled: set<CallId>
    var winner: Option<CallId>
    var snapped: bool

    function Current(): State
      reads this
    {
      State(calls, pcs, closed, holder, active, nextId, count, version, cancelled, winner, snapped)
    }

    ghost predicate Valid()
      reads this
    {
      Consistent(Current())
    }

    constructor (calls: map<CallId, Call>)
      ensures Valid() && Current() == Initial(calls)
    {
      this.calls := calls;
      pcs := map t | t in calls :: Start(calls[t]);
      closed, holder, active, nextId := false, None, map[], 1;
      count, version, cancelled, winner, snapped := 0, 0, {}, None, false;
    }

    // Registration is refused if the client is closed or the operation
    // cancelled, before and under the lock.
    method StepAdmit(t: CallId)
      requires pcs.Keys == calls.Keys && t in calls && Admitting(pcs[t]) && !pcs[t].Abort?
      modifies this
      ensures Current() == Moved(old(Current()), t)
    {
      match pcs[t]
      case Check =>
        pcs := pcs[t := if closed then Refused else CheckOp];
      case CheckOp =>
        pcs := pcs[t := if t in cancelled then Refused else Acquire];
      case Acquire =>
        if holder.None? {
          holder := Some(t);
          pcs := pcs[t := Recheck];
        }
      case Recheck =>
        pcs := pcs[t := if closed then Abort else RecheckOp];
      case RecheckOp =>
        pcs := pcs[t := if t in cancelled then Abort else Insert];
    }

    // Still under the lock: insert the operation, then publish the count.
    method StepInsert(t: CallId)
      requires pcs.Keys == calls.Keys && t in calls && (pcs[t].Insert? || pcs[t].Publish?)
      modifies this
      ensures Current() == Moved(old(Current()), t)
    {
      match pcs[t]
      case Insert =>
        pcs := pcs[t := Publish(nextId)];
        active := active[nextId := t];
        nextId := nextId + 1;
      case Publish(id) =>
        pcs := pcs[t := Release(id)];
        count, version := |active|, version + 1;
    }

    // Release the lock after a registration, a refusal or a finish.
    method StepRelease(t: CallId)
      requires pcs.Keys == calls.Keys && t in calls && (pcs[t].Release? || pcs[t].Abort? || pcs[t].Rerelease?)
      modifies this
      ensures Current() == Moved(old(Current()), t)
    {
      match pcs[t]
      case Release(id) =>
        holder := None;
        pcs := pcs[t := Running(id)];
      case Abort =>
        holder := None;
        pcs := pcs[t := Refused];
      case Rerelease =>
        holder := None;
        pcs := pcs[t := Returned];
    }

    // The drop of a guard takes the lock ...
    method StepFinish(t: CallId)
      requires pcs.Keys == calls.Keys && t in calls && (pcs[t].Running? || pcs[t].Reacquire?)
      modifies this
      ensures Current() == Moved(old(Current()), t)
    {
      match pcs[t]
      case Running(id) =>
        pcs := pcs[t := Reacquire(id)];
      case Reacquire(id) =>
        if holder.None? {
          holder := Some(t);
          pcs := pcs[t := Remove(id)];
        }
    }

    // ... takes the operation out, and publishes the count.
    method StepRemove(t: CallId)
      requires pcs.Keys == calls.Keys && t in calls && (pcs[t].Remove? || pcs[t].Republish?)
      modifies this
      ensures Current() == Moved(old(Current()), t)
    {
      match pcs[t]
      case Remove(id) =>
        active := active - {id};
        pcs := pcs[t := Republish];
      case Republish =>
        count, version := |active|, version + 1;
        pcs := pcs[t := Rerelease];
    }

    // Only the first close to swap the flag goes on to the table.
    method StepSwap(t: CallId)
      requires pcs.Keys == calls.Keys && t in calls && pcs[t].SwapClosed?
      modifies this
      ensures Current() == Moved(old(Current()), t)
    {
      if closed {
        pcs := pcs[t := Look];
      } else {
        closed, winner := true, Some(t);
        pcs := pcs[t := Snapshot];
      }
    }

    // It lists the operations under the lock and cancels them one by one.
    method StepCancel(t: CallId)
      requires pcs.Keys == calls.Keys && t in calls && (pcs[t].Snapshot? || pcs[t].CancelAll?)
      modifies this
      ensures Current() == Moved(old(Current()), t)
    {
      match pcs[t]
      case Snapshot =>
        if holder.None? {
          snapped := true;
          pcs := pcs[t := CancelAll(Listing(active, 0, nextId))];
        }
      case CancelAll(todo) =>
        if todo == [] {
          pcs := pcs[t := Look];
        } else {
          cancelled := cancelled + {todo[0]};
          pcs := pcs[t := CancelAll(todo[1..])];
        }
    }

    // Every close waits until the published count is zero.
    method StepWait(t: CallId)
      requires pcs.Keys == calls.Keys && t in calls && (pcs[t].Look? || pcs[t].Park?)
      modifies this
      ensures Current() == Moved(old(Current()), t)
    {
      match pcs[t]
      case Look =>
        pcs := pcs[t := if count == 0 then Returned else Park(version)];
      case Park(seen) =>
        if version != seen {
          pcs := pcs[t := Look];
        }
    }

    // One step of call `t`, whatever it does next; a call that must wait, or
    // has returned, changes nothing.
    method Step(t: CallId)
      requires pcs.Keys == calls.Keys && t in calls
      modifies this
      ensures Current() == Moved(old(Current()), t)
    {
      var pc := pcs[t];
      if Registering(pc) {
        StepRegister(t);
      } else if Finishing(pc) {
        StepDrop(t);
      } else {
        StepClose(t);
      }
    }

    method StepRegister(t: CallId)
      requires pcs.Keys == calls.Keys && t in calls && Registering(pcs[t])
      modifies this
      ensures Current() == Moved(old(Current()), t)
    {
      if pcs[t].Insert? || pcs[t].Publish? {
        StepInsert(t);
      } else if pcs[t].Release? || pcs[t].Abort? {
        StepRelease(t);
      } else {
        StepAdmit(t);
      }
    }

    method StepDrop(t: CallId)
      requires pcs.Keys == calls.Keys && t in calls && Finishing(pcs[t])
      modifies this
      ensures Current() == Moved(old(Current()), t)
    {
      if pcs[t].Rerelease? {
        StepRelease(t);
      } else if pcs[t].Running? || pcs[t].Reacquire? {
        StepFinish(t);
      } else {
        StepRemove(t);
      }
    }

    method StepClose(t: CallId)
      requires pcs.Keys == calls.Keys && t in calls && !Registering(pcs[t]) && !Finishing(pcs[t])
      modifies this
      ensures Current() == Moved(old(Current()), t)
    {
      match pcs[t]
      case SwapClosed => StepSwap(t);
      case Snapshot => StepCancel(t);
      case CancelAll(_) => StepCancel(t);
      case Look => StepWait(t);
      case Park(_) => StepWait(t);
      case Request => StepRequest(t);
      case _ =>
    }

    // Cancellation by the user.
    method StepRequest(t: CallId)
      requires pcs.Keys == calls.Keys && t in calls && pcs[t].Request?
      modifies this
      ensures Current() == Moved(old(Current()), t)
    {
      if calls[t].UserCancel? {
        cancelled := cancelled + {calls[t].target};
        pcs := pcs[t := Returned];
      }
    }

    method Advance(t: CallId)
      requires Valid()
      modifies this
      ensures Valid() && Current() == Moved(old(Current()), t)
    {
      MovedOk(Current(), t);
      if t in calls {
        Step(t);
      }
    }

    // The calls move in the order of the schedule.
    method Follow(schedule: seq<CallId>)
      requires Valid()
      modifies this
      ensures Valid() && Current() == Play(old(Current()), schedule)
    {
      assert schedule[0..] == schedule;
      for i := 0 to |schedule|
        invariant Valid() && Play(Current(), schedule[i..]) == Play(old(Current()), schedule)
      {
        assert schedule[i..][0] == schedule[i] && schedule[i..][1..] == schedule[i + 1..];
        Advance(schedule[i]);
      }
    }
  }

  // ---- The invariant ----

  predicate Holds(pc: Pc) {
    pc.Recheck? || pc.RecheckOp? || pc.Abort? || pc.Insert? || pc.Publish? || pc.Release? || pc.Remove? || pc.Republish? || pc.Rerelease?
  }

  // The operation is in the table under this id.
  function TableId(pc: Pc): Option<OperationId> {
    match pc
    case Publish(id) => Some(id)
    case Release(id) => Some(id)
    case Running(id) => Some(id)
    case Reacquire(id) => Some(id)
    case Remove(id) => Some(id)
    case _ => None
  }

  // A registration that nothing can stop any more, not yet visible in the count.
  predicate Entering(s: State, t: CallId)
    requires t in s.pcs
  {
    s.pcs[t].Insert? || s.pcs[t].Publish? || (s.pcs[t].RecheckOp? && t !in s.cancelled)
  }

  predicate PcFits(c: Call, pc: Pc) {
    match c
    case Register => !(pc.SwapClosed? || pc.Snapshot? || pc.CancelAll? || pc.Look? || pc.Park? || pc.Request?)
    case Close => pc.SwapClosed? || pc.Snapshot? || pc.CancelAll? || pc.Look? || pc.Park? || pc.Returned?
    case UserCancel(_) => pc.Request? || pc.Returned?
  }

  // How far the published count lags the table while the lock is held.
  predicate CountFits(s: State) {
    if s.holder.Some? && s.holder.value in s.pcs && s.pcs[s.holder.value].Publish? then s.count == |s.active| - 1
    else if s.holder.Some? && s.holder.value in s.pcs && s.pcs[s.holder.value].Republish? then s.count == |s.active| + 1
    else s.count == |s.active|
  }

  predicate CellOk(s: State) {
    && s.pcs.Keys == s.calls.Keys
    && CountFits(s)
    && (s.holder.Some? ==> s.holder.value in s.pcs && Holds(s.pcs[s.holder.value]))
    && (s.closed <==> s.winner.Some?)
    && (s.winner.Some? ==> s.winner.value in s.pcs && s.calls[s.winner.value].Close?)
    && (s.snapped ==> s.closed)
    && (s.winner.Some? ==> (!s.snapped <==> s.pcs[s.winner.value].Snapshot?))
    && (s.winner.Some? ==> !s.pcs[s.winner.value].SwapClosed?)
  }

  // Every entry belongs to a registration that knows its id.
  predicate EntryOk(s: State, id: OperationId)
    requires id in s.active
  {
    id < s.nextId && s.active[id] in s.pcs && TableId(s.pcs[s.active[id]]) == Some(id)
  }

  predicate CallOk(s: State, t: CallId)
    requires t in s.pcs && t in s.calls
  {
    var pc := s.pcs[t];
    && PcFits(s.calls[t], pc)
    && (Holds(pc) <==> s.holder == Some(t))
    && (TableId(pc).Some? ==> TableId(pc).value in s.active && s.active[TableId(pc).value] == t)
    && (s.snapped ==> !Entering(s, t))
    && (pc.Snapshot? || pc.CancelAll? ==> s.winner == Some(t))
    && (pc.Look? || pc.Park? ==> s.closed)
    && (pc.Park? ==> pc.seen <= s.version && (pc.seen == s.version ==> s.count != 0))
  }

  ghost predicate Consistent(s: State) {
    && CellOk(s)
    && (forall id :: id in s.active ==> EntryOk(s, id))
    && (forall t :: t in s.pcs ==> CallOk(s, t))
  }

  ghost predicate StepFrom(s: State, t: CallId) {
    CellOk(s) && t in s.pcs && CallOk(s, t) && StepOf(s, t).Some? && (forall id :: id in s.active ==> id < s.nextId)
  }

  lemma Shrunk(active: map<OperationId, CallId>, id: OperationId)
    requires id in active
    ensures |active - {id}| == |active| - 1
  {
    assert (active - {id}).Keys == active.Keys - {id};
    assert |active.Keys| == |active| && |(active - {id}).Keys| == |active - {id}|;
  }

  lemma Grown(active: map<OperationId, CallId>, id: OperationId, t: CallId)
    requires id !in active
    ensures |active[id := t]| == |active| + 1
  {
    assert active[id := t].Keys == active.Keys + {id};
    assert |active.Keys| == |active| && |active[id := t].Keys| == |active[id := t]|;
  }

  // What a step touches: only the lock, the table, the channel, the closed
  // flag and its snapshot, or none of these.
  predicate Admitting(pc: Pc) {
    pc.Check? || pc.CheckOp? || pc.Acquire? || pc.Recheck? || pc.RecheckOp? || pc.Abort?
  }

  predicate Locking(pc: Pc) {
    pc.Release? || pc.Running? || pc.Reacquire? || pc.Rerelease?
  }

  predicate Changing(pc: Pc) {
    pc.Insert? || pc.Remove?
  }

  predicate Sending(pc: Pc) {
    pc.Publish? || pc.Republish?
  }

  predicate Closing(pc: Pc) {
    pc.SwapClosed? || pc.Snapshot?
  }

  predicate Waiting(pc: Pc) {
    pc.CancelAll? || pc.Look? || pc.Park? || pc.Request? || pc.Returned? || pc.Refused?
  }

  lemma AdmitCell(s: State, t: CallId)
    requires StepFrom(s, t) && Admitting(s.pcs[t])
    ensures CellOk(StepOf(s, t).value)
  {
    match s.pcs[t] case Check => case CheckOp => case Acquire => case Recheck => case RecheckOp => case Abort => case _ =>
  }

  lemma AdmitCall(s: State, t: CallId, u: CallId)
    requires StepFrom(s, t) && Admitting(s.pcs[t]) && u in s.pcs && CallOk(s, u)
    ensures CallOk(StepOf(s, t).value, u)
  {
    match s.pcs[t] case Check => case CheckOp => case Acquire => case Recheck => case RecheckOp => case Abort => case _ =>
  }

  lemma LockCell(s: State, t: CallId)
    requires StepFrom(s, t) && Locking(s.pcs[t])
    ensures CellOk(StepOf(s, t).value)
  {
    match s.pcs[t] case Release(_) => case Running(_) => case Reacquire(_) => case Rerelease => case _ =>
  }

  lemma LockCall(s: State, t: CallId, u: CallId)
    requires StepFrom(s, t) && Locking(s.pcs[t]) && u in s.pcs && CallOk(s, u)
    ensures CallOk(StepOf(s, t).value, u)
  {
    match s.pcs[t] case Release(_) => case Running(_) => case Reacquire(_) => case Rerelease => case _ =>
  }

  lemma TableCell(s: State, t: CallId)
    requires StepFrom(s, t) && Changing(s.pcs[t])
    ensures CellOk(StepOf(s, t).value)
  {
    if s.pcs[t].Insert? {
      Grown(s.active, s.nextId, t);
    } else {
      Shrunk(s.active, s.pcs[t].id);
    }
  }

  lemma TableCall(s: State, t: CallId, u: CallId)
    requires StepFrom(s, t) && Changing(s.pcs[t]) && u in s.pcs && CallOk(s, u)
    ensures CallOk(StepOf(s, t).value, u)
  {
    match s.pcs[t] case Insert => case Remove(_) => case _ =>
  }

  lemma SendCell(s: State, t: CallId)
    requires StepFrom(s, t) && Sending(s.pcs[t])
    ensures CellOk(StepOf(s, t).value)
  {
  }

  lemma SendCall(s: State, t: CallId, u: CallId)
    requires StepFrom(s, t) && Sending(s.pcs[t]) && u in s.pcs && CallOk(s, u)
    ensures CallOk(StepOf(s, t).value, u)
  {
  }

  lemma CloserCell(s: State, t: CallId)
    requires StepFrom(s, t) && Closing(s.pcs[t])
    ensures CellOk(StepOf(s, t).value)
  {
  }

  lemma CloserCall(s: State, t: CallId, u: CallId)
    requires StepFrom(s, t) && Closing(s.pcs[t]) && u in s.pcs && CallOk(s, u)
    ensures CallOk(StepOf(s, t).value, u)
  {
  }

  lemma WaitCell(s: State, t: CallId)
    requires StepFrom(s, t) && Waiting(s.pcs[t])
    ensures CellOk(StepOf(s, t).value)
  {
    match s.pcs[t] case CancelAll(_) => case Look => case Park(_) => case Request => case _ =>
  }

  lemma WaitCall(s: State, t: CallId, u: CallId)
    requires StepFrom(s, t) && Waiting(s.pcs[t]) && u in s.pcs && CallOk(s, u)
    ensures CallOk(StepOf(s, t).value, u)
  {
    match s.pcs[t] case CancelAll(_) => case Look => case Park(_) => case Request => case _ =>
  }

  lemma InsertEntry(s: State, t: CallId, id: OperationId)
    requires StepFrom(s, t) && s.pcs[t].Insert? && id in StepOf(s, t).value.active && (id in s.active ==> EntryOk(s, id))
    ensures EntryOk(StepOf(s, t).value, id)
  {
  }

  lemma KeptEntry(s: State, t: CallId, id: OperationId)
    requires StepFrom(s, t) && !s.pcs[t].Insert? && id in StepOf(s, t).value.active
    ensures id in s.active && StepOf(s, t).value.active[id] == s.active[id] && s.nextId <= StepOf(s, t).value.nextId
    ensures TableId(s.pcs[t]) == Some(id) ==> TableId(StepOf(s, t).value.pcs[t]) == Some(id)
  {
  }

  lemma StepEntry(s: State, t: CallId, id: OperationId)
    requires StepFrom(s, t) && id in StepOf(s, t).value.active && (id in s.active ==> EntryOk(s, id))
    ensures EntryOk(StepOf(s, t).value, id)
  {
    if s.pcs[t].Insert? {
      InsertEntry(s, t, id);
    } else {
      KeptEntry(s, t, id);
    }
  }

  lemma StepCell(s: State, t: CallId)
    requires StepFrom(s, t)
    ensures CellOk(StepOf(s, t).value)
  {
    var pc := s.pcs[t];
    if Admitting(pc) {
      AdmitCell(s, t);
    } else if Locking(pc) {
      LockCell(s, t);
    } else if Changing(pc) {
      TableCell(s, t);
    } else if Sending(pc) {
      SendCell(s, t);
    } else if Closing(pc) {
      CloserCell(s, t);
    } else {
      WaitCell(s, t);
    }
  }

  lemma StepCall(s: State, t: CallId, u: CallId)
    requires StepFrom(s, t) && u in s.pcs && CallOk(s, u)
    ensures CallOk(StepOf(s, t).value, u)
  {
    var pc := s.pcs[t];
    if Admitting(pc) {
      AdmitCall(s, t, u);
    } else if Locking(pc) {
      LockCall(s, t, u);
    } else if Changing(pc) {
      TableCall(s, t, u);
    } else if Sending(pc) {
      SendCall(s, t, u);
    } else if Closing(pc) {
      CloserCall(s, t, u);
    } else {
      WaitCall(s, t, u);
    }
  }

  lemma MovedOk(s: State, t: CallId)
    requires Consistent(s)
    ensures Consistent(Moved(s, t))
  {
    if t in s.pcs && StepOf(s, t).Some? {
      var after := StepOf(s, t).value;
      forall id | id in s.active ensures id < s.nextId {
        assert EntryOk(s, id);
      }
      assert StepFrom(s, t);
      StepCell(s, t);
      forall u | u in s.pcs ensures CallOk(after, u) {
        StepCall(s, t, u);
      }
      forall id | id in after.active ensures EntryOk(after, id) {
        StepEntry(s, t, id);
      }
    }
  }

  lemma {:induction false} PlayOk(s: State, schedule: seq<CallId>)
    requires Consistent(s)
    ensures Consistent(Play(s, schedule)) && Play(s, schedule).calls == s.calls
    decreases |schedule|
  {
    if schedule != [] {
      MovedOk(s, schedule[0]);
      PlayOk(Moved(s, schedule[0]), schedule[1..]);
    }
  }

  lemma InitialOk(calls: map<CallId, Call>)
    ensures Consistent(Initial(calls))
  {
  }

  // ---- Draining ----

  // The client is closed and no registration is about to insert its operation.
  ghost predicate Sealed(s: State) {
    s.closed && forall t :: t in s.pcs ==> !Entering(s, t)
  }

  lemma SnapshotSeals(s: State)
    requires Consistent(s) && s.snapped
    ensures Sealed(s)
  {
    forall t | t in s.pcs ensures !Entering(s, t) {
      assert CallOk(s, t);
    }
  }

  lemma NoneEnters(s: State, t: CallId)
    requires t in s.pcs && t in s.calls && StepOf(s, t).Some? && s.closed && !Entering(s, t)
    ensures var next := StepOf(s, t).value;
            next.closed && !Entering(next, t) && s.cancelled <= next.cancelled
            && forall u :: u in s.pcs && u != t ==> next.pcs[u] == s.pcs[u]
  {
  }

  lemma TableShrinks(s: State, t: CallId)
    requires t in s.pcs && t in s.calls && StepOf(s, t).Some? && !Entering(s, t)
    ensures StepOf(s, t).value.active.Keys <= s.active.Keys
  {
  }

  lemma SealedStep(s: State, t: CallId)
    requires Sealed(s) && s.pcs.Keys == s.calls.Keys
    ensures Sealed(Moved(s, t)) && Moved(s, t).active.Keys <= s.active.Keys
  {
    if t in s.pcs && StepOf(s, t).Some? {
      NoneEnters(s, t);
      TableShrinks(s, t);
    }
  }

  // Once the winning closer has taken its snapshot, operations only leave the table.
  lemma {:induction false} ActiveOnlyShrinks(s: State, schedule: seq<CallId>)
    requires Consistent(s) && Sealed(s)
    ensures Sealed(Play(s, schedule)) && Play(s, schedule).active.Keys <= s.active.Keys
    decreases |schedule|
  {
    if schedule != [] {
      SealedStep(s, schedule[0]);
      MovedOk(s, schedule[0]);
      ActiveOnlyShrinks(Moved(s, schedule[0]), schedule[1..]);
    }
  }

  // When nobody holds the lock the published count is the size of the table.
  lemma CountIsExact(calls: map<CallId, Call>, schedule: seq<CallId>)
    ensures var s := Play(Initial(calls), schedule); s.holder.None? ==> s.count == |s.active|
  {
    InitialOk(calls);
    PlayOk(Initial(calls), schedule);
  }

  // ---- What a returning close guarantees ----

  predicate Drained(s: State) {
    s.active == map[]
  }

  lemma ZeroCountDrains(s: State)
    requires Consistent(s) && Sealed(s) && s.count == 0
    ensures Drained(s)
  {
    if s.holder.Some? {
      assert CallOk(s, s.holder.value);
    }
    assert |s.active| == 0;
  }

  lemma SealedDrains(s: State, t: CallId, schedule: seq<CallId>)
    requires Consistent(s) && t in s.pcs && s.count == 0 && Sealed(s)
    ensures Drained(Play(Moved(s, t), schedule))
  {
    ZeroCountDrains(s);
    SealedStep(s, t);
    MovedOk(s, t);
    ActiveOnlyShrinks(Moved(s, t), schedule);
  }

  lemma SealedDrainsAll(s: State, t: CallId)
    requires Consistent(s) && t in s.pcs && s.count == 0 && Sealed(s)
    ensures forall schedule: seq<CallId> :: Drained(Play(Moved(s, t), schedule))
  {
    forall schedule: seq<CallId> ensures Drained(Play(Moved(s, t), schedule)) {
      SealedDrains(s, t, schedule);
    }
  }

  lemma UnsealedAppears(s: State, t: CallId)
    requires Consistent(s) && t in s.pcs && s.pcs[t].Look? && !Sealed(s)
    ensures exists schedule: seq<CallId> :: !Drained(Play(Moved(s, t), schedule))
  {
    assert CallOk(s, t);
    var u :| u in s.pcs && Entering(s, u);
    EnteringAppears(s, t, u);
  }

  // A close about to return (it reads a count of zero) has drained the client
  // for good exactly when no registration is about to insert its operation.
  lemma CloseDrainsExactly(s: State, t: CallId)
    requires Consistent(s) && t in s.pcs && s.pcs[t].Look? && s.count == 0
    ensures Moved(s, t).pcs[t] == Returned
    ensures (forall schedule: seq<CallId> :: Drained(Play(Moved(s, t), schedule))) <==> Sealed(s)
  {
    if Sealed(s) {
      SealedDrainsAll(s, t);
    } else {
      UnsealedAppears(s, t);
    }
  }

  // Such a registration ends up in the table whatever else happened.
  lemma EnteringAppears(s: State, t: CallId, u: CallId)
    requires Consistent(s) && t in s.pcs && s.pcs[t].Look? && u in s.pcs && Entering(s, u)
    ensures exists schedule: seq<CallId> :: !Drained(Play(Moved(s, t), schedule))
  {
    var after := Moved(s, t);
    LookKeepsTable(s, t);
    assert CallOk(s, u);
    if s.pcs[u].RecheckOp? {
      InsertsSoon(after, u);
      assert !Drained(Play(after, [u, u]));
    } else if s.pcs[u].Insert? {
      InsertsLater(after, u);
      assert !Drained(Play(after, [u]));
    } else {
      assert Play(after, []) == after;
      assert !Drained(Play(after, []));
    }
  }

  lemma LookKeepsTable(s: State, t: CallId)
    requires t in s.pcs && t in s.calls && s.pcs[t].Look? && s.pcs.Keys == s.calls.Keys
    ensures Moved(s, t).active == s.active && Moved(s, t).cancelled == s.cancelled
  {
  }

  lemma InsertAdds(s: State, r: CallId)
    requires s.pcs.Keys == s.calls.Keys && r in s.pcs && s.pcs[r].Insert?
    ensures s.nextId in Moved(s, r).active
  {
  }

  lemma PlayOne(s: State, a: CallId, rest: seq<CallId>)
    requires s.pcs.Keys == s.calls.Keys
    ensures Play(s, [a] + rest) == Play(Moved(s, a), rest)
  {
    assert ([a] + rest)[1..] == rest;
  }

  lemma InsertsLater(s: State, r: CallId)
    requires s.pcs.Keys == s.calls.Keys && r in s.pcs && s.pcs[r].Insert?
    ensures !Drained(Play(s, [r]))
  {
    assert [r] == [r] + [];
    PlayOne(s, r, []);
    assert Play(Moved(s, r), []) == Moved(s, r);
    InsertAdds(s, r);
  }

  lemma RecheckOpPasses(s: State, r: CallId)
    requires s.pcs.Keys == s.calls.Keys && r in s.pcs && s.pcs[r].RecheckOp? && r !in s.cancelled
    ensures Moved(s, r) == Goto(s, r, Insert)
  {
  }

  lemma InsertsSoon(s: State, r: CallId)
    requires s.pcs.Keys == s.calls.Keys && r in s.pcs && s.pcs[r].RecheckOp? && r !in s.cancelled
    ensures !Drained(Play(s, [r, r]))
  {
    assert [r, r] == [r] + [r];
    PlayOne(s, r, [r]);
    RecheckOpPasses(s, r);
    InsertsLater(Goto(s, r, Insert), r);
  }

  // The call whose swap closed the client always drains it.
  lemma WinnerDrains(calls: map<CallId, Call>, before: seq<CallId>, later: seq<CallId>, t: CallId)
    requires var s := Play(Initial(calls), before);
             s.winner == Some(t) && t in s.pcs && s.pcs[t].Returned?
    ensures Drained(Play(Play(Initial(calls), before), later))
  {
    InitialOk(calls);
    PlayOk(Initial(calls), before);
    WinnerReturnsDrained(Initial(calls), before, t);
    var s := Play(Initial(calls), before);
    SnapshotSeals(s);
    ActiveOnlyShrinks(s, later);
  }

  lemma {:induction false} WinnerReturnsDrained(s: State, schedule: seq<CallId>, t: CallId)
    requires Consistent(s) && (s.winner == Some(t) && t in s.pcs && s.pcs[t].Returned? ==> Drained(s))
    requires var e := Play(s, schedule); e.winner == Some(t) && t in e.pcs && e.pcs[t].Returned?
    ensures Drained(Play(s, schedule))
    decreases |schedule|
  {
    if schedule != [] {
      WinnerStep(s, schedule[0], t);
      MovedOk(s, schedule[0]);
      WinnerReturnsDrained(Moved(s, schedule[0]), schedule[1..], t);
    }
  }

  // How the winner comes to have returned: by reading a count of zero.
  lemma WinnerElected(s: State, u: CallId, t: CallId)
    requires s.pcs.Keys == s.calls.Keys && t in s.pcs && Moved(s, u).winner == Some(t) && Moved(s, u).pcs[t].Returned?
    ensures s.winner == Some(t)
  {
  }

  lemma OthersStay(s: State, u: CallId, t: CallId)
    requires s.pcs.Keys == s.calls.Keys && t in s.pcs && u != t
    ensures Moved(s, u).pcs[t] == s.pcs[t]
  {
  }

  lemma CloseReturns(s: State, t: CallId)
    requires s.pcs.Keys == s.calls.Keys && t in s.pcs && PcFits(Close, s.pcs[t]) && Moved(s, t).pcs[t].Returned?
    ensures s.pcs[t].Returned? || (s.pcs[t].Look? && s.count == 0)
  {
  }

  lemma WinnerReturns(s: State, u: CallId, t: CallId)
    requires CellOk(s) && t in s.pcs && CallOk(s, t) && Moved(s, u).winner == Some(t) && Moved(s, u).pcs[t].Returned?
    ensures s.winner == Some(t) && s.snapped && (s.pcs[t].Returned? || (s.pcs[t].Look? && s.count == 0))
  {
    WinnerElected(s, u, t);
    if u == t {
      CloseReturns(s, t);
    } else {
      OthersStay(s, u, t);
    }
  }

  lemma WinnerStep(s: State, u: CallId, t: CallId)
    requires Consistent(s) && (s.winner == Some(t) && t in s.pcs && s.pcs[t].Returned? ==> Drained(s))
    ensures var e := Moved(s, u); e.winner == Some(t) && t in e.pcs && e.pcs[t].Returned? ==> Drained(e)
  {
    var e := Moved(s, u);
    if e.winner == Some(t) && t in e.pcs && e.pcs[t].Returned? {
      assert CallOk(s, t);
      WinnerReturns(s, u, t);
      SnapshotSeals(s);
      SealedStep(s, u);
      if !s.pcs[t].Returned? {
        ZeroCountDrains(s);
      }
      assert s.active == map[] && e.active.Keys <= {};
      assert e.active == map[];
    }
  }

  // ---- Every operation of the snapshot is cancelled ----

  lemma {:induction false} ListingComplete(active: map<OperationId, CallId>, i: nat, n: nat)
    requires i <= n
    ensures forall id :: id in active && i <= id < n ==> active[id] in Listing(active, i, n)
    decreases n - i
  {
    if i < n {
      ListingComplete(active, i + 1, n);
      forall id | id in active && i <= id < n ensures active[id] in Listing(active, i, n) {
        if id != i {
          assert active[id] in Listing(active, i + 1, n);
        }
      }
    }
  }

  // What the winner still has to cancel.
  function ToCancel(s: State): seq<CallId> {
    if s.winner.Some? && s.winner.value in s.pcs && s.pcs[s.winner.value].CancelAll? then s.pcs[s.winner.value].todo else []
  }

  // After the snapshot every operation in the table is cancelled or will be.
  ghost predicate AllTold(s: State) {
    s.snapped ==> forall id :: id in s.active ==> s.active[id] in s.cancelled || s.active[id] in ToCancel(s)
  }

  lemma ToldWhileWaiting(s: State, t: CallId)
    requires Consistent(s) && AllTold(s) && s.snapped && t in s.pcs && StepOf(s, t).Some?
    ensures forall c :: c in s.cancelled || c in ToCancel(s) ==> c in StepOf(s, t).value.cancelled || c in ToCancel(StepOf(s, t).value)
  {
    assert CallOk(s, t);
    if s.pcs[t].CancelAll? && s.pcs[t].todo != [] {
      assert forall c :: c in s.pcs[t].todo ==> c == s.pcs[t].todo[0] || c in s.pcs[t].todo[1..];
    }
  }

  lemma SnapshotTells(s: State, t: CallId)
    requires t in s.pcs && t in s.calls && s.pcs[t].Snapshot? && s.winner == Some(t) && s.holder.None?
    requires forall id :: id in s.active ==> id < s.nextId
    ensures StepOf(s, t).Some? && AllTold(StepOf(s, t).value)
  {
    ListingComplete(s.active, 0, s.nextId);
  }

  lemma OnlySnapshotSnaps(s: State, t: CallId)
    requires t in s.pcs && t in s.calls && StepOf(s, t).Some? && !s.snapped && StepOf(s, t).value.snapped
    ensures s.pcs[t].Snapshot? && s.holder.None?
  {
  }

  lemma ToldAfter(s: State, t: CallId)
    requires Consistent(s) && AllTold(s) && s.snapped && t in s.pcs && StepOf(s, t).Some?
    ensures AllTold(StepOf(s, t).value)
  {
    SnapshotSeals(s);
    ToldWhileWaiting(s, t);
    EntriesKept(s, t);
  }

  lemma ToldStep(s: State, t: CallId)
    requires Consistent(s) && AllTold(s)
    ensures AllTold(Moved(s, t))
  {
    if t in s.pcs && StepOf(s, t).Some? {
      if s.snapped {
        ToldAfter(s, t);
      } else if StepOf(s, t).value.snapped {
        OnlySnapshotSnaps(s, t);
        forall id | id in s.active ensures id < s.nextId {
          assert EntryOk(s, id);
        }
        assert CallOk(s, t);
        SnapshotTells(s, t);
      }
    }
  }

  lemma EntriesKept(s: State, t: CallId)
    requires t in s.pcs && t in s.calls && StepOf(s, t).Some? && !Entering(s, t)
    ensures forall id :: id in StepOf(s, t).value.active ==> id in s.active && StepOf(s, t).value.active[id] == s.active[id]
  {
  }

  // When the winner has gone on to wait, every operation left is cancelled.
  lemma {:induction false} SnapshotCancelled(s: State, schedule: seq<CallId>)
    requires Consistent(s) && AllTold(s)
    ensures AllTold(Play(s, schedule))
    ensures var e := Play(s, schedule); e.snapped && ToCancel(e) == [] ==> forall id :: id in e.active ==> e.active[id] in e.cancelled
    decreases |schedule|
  {
    if schedule != [] {
      ToldStep(s, schedule[0]);
      MovedOk(s, schedule[0]);
      SnapshotCancelled(Moved(s, schedule[0]), schedule[1..]);
    }
  }

  // ---- Nobody waits in vain ----

  lemma HolderMoves(s: State)
    requires Consistent(s) && s.holder.Some?
    ensures s.holder.value in s.pcs && Holds(s.pcs[s.holder.value]) && StepOf(s, s.holder.value).Some?
  {
    assert CallOk(s, s.holder.value);
  }

  // With the lock free, an operation that is to finish can.
  lemma FinishMoves(s: State, t: CallId)
    requires s.holder.None? && t in s.pcs && t in s.calls && CallOk(s, t) && Finishing(s.pcs[t])
    ensures (s.pcs[t].Running? || s.pcs[t].Reacquire?) && StepOf(s, t).Some?
  {
  }

  // A registration does not begin to finish by its own steps before it runs.
  lemma RegistersFirst(s: State, t: CallId)
    requires t in s.pcs && t in s.calls && Registering(s.pcs[t]) && StepOf(s, t).Some?
    ensures var pc := StepOf(s, t).value.pcs[t]; Registering(pc) || pc.Refused? || pc.Running?
  {
    match s.pcs[t]
    case Check => case CheckOp => case Acquire => case Recheck => case RecheckOp => case Abort =>
    case Insert => case Publish(_) => case Release(_) => case _ =>
  }

  lemma TableMoves(s: State, id: OperationId)
    requires Consistent(s) && s.holder.None? && id in s.active
    ensures exists t :: t in s.pcs && StepOf(s, t).Some?
  {
    assert EntryOk(s, id) && CallOk(s, s.active[id]);
    assert StepOf(s, s.active[id]).Some?;
  }

  // When no call can move, every call has returned or been refused: no closer
  // misses the wake-up of the last operation to finish.
  lemma NoDeadlock(s: State)
    requires Consistent(s) && forall t :: t in s.pcs ==> StepOf(s, t).None?
    ensures forall t :: t in s.pcs ==> s.pcs[t].Returned? || s.pcs[t].Refused?
  {
    if s.holder.Some? {
      HolderMoves(s);
    }
    if id :| id in s.active {
      TableMoves(s, id);
    }
    forall t | t in s.pcs ensures s.pcs[t].Returned? || s.pcs[t].Refused? {
      assert CallOk(s, t) && StepOf(s, t).None?;
    }
  }

  // ---- A losing close may return while an operation is about to appear ----

  lemma {:induction false} PlayConcat(s: State, a: seq<CallId>, b: seq<CallId>)
    requires s.pcs.Keys == s.calls.Keys
    ensures Play(s, a + b) == Play(Play(s, a), b)
    decreases |a|
  {
    if a == [] {
      assert a + b == b;
    } else {
      assert (a + b)[1..] == a[1..] + b;
      PlayConcat(Moved(s, a[0]), a[1..], b);
    }
  }

  lemma PlayTwo(s: State, a: CallId, b: CallId)
    requires s.pcs.Keys == s.calls.Keys
    ensures Play(s, [a, b]) == Moved(Moved(s, a), b)
  {
    assert [a, b] == [a] + [b] && [b] == [b] + [];
    PlayOne(s, a, [b]);
    PlayOne(Moved(s, a), b, []);
    assert Play(Moved(Moved(s, a), b), []) == Moved(Moved(s, a), b);
  }

  lemma CheckPasses(s: State, t: CallId)
    requires s.pcs.Keys == s.calls.Keys && t in s.pcs && s.pcs[t].Check? && !s.closed
    ensures Moved(s, t) == Goto(s, t, CheckOp)
  {
  }

  lemma CheckOpPasses(s: State, t: CallId)
    requires s.pcs.Keys == s.calls.Keys && t in s.pcs && s.pcs[t].CheckOp? && t !in s.cancelled
    ensures Moved(s, t) == Goto(s, t, Acquire)
  {
  }

  lemma AcquirePasses(s: State, t: CallId)
    requires s.pcs.Keys == s.calls.Keys && t in s.pcs && s.pcs[t].Acquire? && s.holder.None?
    ensures Moved(s, t) == Goto(s, t, Recheck).(holder := Some(t))
  {
  }

  lemma RecheckPasses(s: State, t: CallId)
    requires s.pcs.Keys == s.calls.Keys && t in s.pcs && s.pcs[t].Recheck? && !s.closed
    ensures Moved(s, t) == Goto(s, t, RecheckOp)
  {
  }

  lemma GoTwice(s: State, t: CallId, a: Pc, b: Pc)
    ensures Goto(Goto(s, t, a), t, b) == Goto(s, t, b)
  {
    assert s.pcs[t := a][t := b] == s.pcs[t := b];
  }

  lemma LooksOpen(s: State, t: CallId)
    requires s.pcs.Keys == s.calls.Keys && t in s.pcs && s.pcs[t].Check? && !s.closed && t !in s.cancelled
    ensures Play(s, [t, t]) == Goto(s, t, Acquire)
  {
    PlayTwo(s, t, t);
    CheckPasses(s, t);
    CheckOpPasses(Goto(s, t, CheckOp), t);
    GoTwice(s, t, CheckOp, Acquire);
  }

  lemma LooksOpenAgain(s: State, t: CallId)
    requires s.pcs.Keys == s.calls.Keys && t in s.pcs && s.pcs[t].Acquire? && s.holder.None? && !s.closed
    ensures Play(s, [t, t]) == Goto(s, t, RecheckOp).(holder := Some(t))
  {
    PlayTwo(s, t, t);
    AcquirePasses(s, t);
    RecheckPasses(Goto(s, t, Recheck).(holder := Some(t)), t);
    GoTwice(s, t, Recheck, RecheckOp);
  }

  // A registration sees the client open under the lock ...
  lemma Admitted(s: State, t: CallId)
    requires s.pcs.Keys == s.calls.Keys && t in s.pcs && s.pcs[t].Check? && s.holder.None? && !s.closed && t !in s.cancelled
    ensures Play(s, [t, t] + [t, t]) == Goto(s, t, RecheckOp).(holder := Some(t))
  {
    PlayConcat(s, [t, t], [t, t]);
    LooksOpen(s, t);
    LooksOpenAgain(Goto(s, t, Acquire), t);
    GoTwice(s, t, Acquire, RecheckOp);
  }

  lemma FirstSwap(s: State, w: CallId)
    requires s.pcs.Keys == s.calls.Keys && w in s.pcs && s.pcs[w].SwapClosed? && !s.closed
    ensures Moved(s, w) == Goto(s, w, Snapshot).(closed := true, winner := Some(w))
  {
  }

  lemma SwapFails(s: State, l: CallId)
    requires s.pcs.Keys == s.calls.Keys && l in s.pcs && s.pcs[l].SwapClosed? && s.closed
    ensures Moved(s, l) == Goto(s, l, Look)
  {
  }

  lemma ReadsZero(s: State, l: CallId)
    requires s.pcs.Keys == s.calls.Keys && l in s.pcs && s.pcs[l].Look? && s.count == 0
    ensures Moved(s, l) == Goto(s, l, Returned)
  {
  }

  lemma LostSwap(s: State, l: CallId)
    requires s.pcs.Keys == s.calls.Keys && l in s.pcs && s.pcs[l].SwapClosed? && s.closed && s.count == 0
    ensures Play(s, [l, l]) == Goto(s, l, Returned)
  {
    PlayTwo(s, l, l);
    SwapFails(s, l);
    ReadsZero(Goto(s, l, Look), l);
    GoTwice(s, l, Look, Returned);
  }

  // ... then one close wins, and another loses, reads zero and returns.
  lemma ClosedTwice(s: State, w: CallId, l: CallId)
    requires s.pcs.Keys == s.calls.Keys && w in s.pcs && l in s.pcs && w != l
    requires s.pcs[w].SwapClosed? && s.pcs[l].SwapClosed? && !s.closed && s.count == 0
    ensures Play(s, [w] + [l, l]) == Goto(Goto(s, w, Snapshot), l, Returned).(closed := true, winner := Some(w))
  {
    PlayOne(s, w, [l, l]);
    FirstSwap(s, w);
    LostSwap(Goto(s, w, Snapshot).(closed := true, winner := Some(w)), l);
  }

  lemma LosingClose(s: State, r: CallId, w: CallId, l: CallId)
    requires s.pcs.Keys == s.calls.Keys && r in s.pcs && w in s.pcs && l in s.pcs && r != w && r != l && w != l
    requires s.pcs[r].Check? && s.pcs[w].SwapClosed? && s.pcs[l].SwapClosed?
    requires s.holder.None? && s.count == 0 && !s.closed && r !in s.cancelled
    ensures var e := Play(s, ([r, r] + [r, r]) + ([w] + [l, l]));
            e.pcs[l] == Returned && e.pcs[r] == RecheckOp && r !in e.cancelled
  {
    PlayConcat(s, [r, r] + [r, r], [w] + [l, l]);
    Admitted(s, r);
    ClosedTwice(Play(s, [r, r] + [r, r]), w, l);
  }

  // Call 1 registers and sees the client open under the lock; call 2 closes and
  // wins the swap; call 3 closes, loses, reads zero and returns; then call 1 inserts.
  lemma LosingCloseReturnsEarly()
    ensures var s := Play(Initial(map[1 := Register, 2 := Close, 3 := Close]), ([1, 1] + [1, 1]) + ([2] + [3, 3]));
            s.pcs[3] == Returned && !Drained(Play(s, [1, 1]))
  {
    var s := Initial(map[1 := Register, 2 := Close, 3 := Close]);
    LosingClose(s, 1, 2, 3);
    InsertsSoon(Play(s, ([1, 1] + [1, 1]) + ([2] + [3, 3])), 1);
  }
}
