// Who is let in and who is not: refusals have a reason, a cancelled or late
// registration never enters the table, and every call ends.
module Admission {
  import opened Wrappers
  import opened ClientLifecycle

  // ---- What only grows ----

  lemma FlagsGrow(s: State, u: CallId)
    requires s.pcs.Keys == s.calls.Keys
    ensures (s.closed ==> Moved(s, u).closed) && s.cancelled <= Moved(s, u).cancelled && s.version <= Moved(s, u).version
  {
  }

  // ---- Effects and refusals ----

  // A user's cancellation reaches its operation, a close closes the client, and
  // a registration is refused only by one of the two.
  predicate Told(s: State, t: CallId) {
    && t in s.pcs && t in s.calls
    && (s.calls[t].UserCancel? && s.pcs[t].Returned? ==> s.calls[t].target in s.cancelled)
    && (s.calls[t].Close? && !s.pcs[t].SwapClosed? ==> s.closed)
    && (s.calls[t].Register? && (s.pcs[t].Abort? || s.pcs[t].Refused?) ==> s.closed || t in s.cancelled)
  }

  lemma OwnTold(s: State, t: CallId)
    requires t in s.pcs && t in s.calls && PcFits(s.calls[t], s.pcs[t]) && Told(s, t) && StepOf(s, t).Some?
    ensures Told(StepOf(s, t).value, t)
  {
  }

  lemma MovedTold(s: State, u: CallId, t: CallId)
    requires Consistent(s) && Told(s, t)
    ensures Told(Moved(s, u), t)
  {
    FlagsGrow(s, u);
    if u == t && StepOf(s, t).Some? {
      assert CallOk(s, t);
      OwnTold(s, t);
    } else if u != t {
      OthersStay(s, u, t);
    }
  }

  lemma {:induction false} PlayTold(s: State, schedule: seq<CallId>, t: CallId)
    requires Consistent(s) && Told(s, t)
    ensures Told(Play(s, schedule), t)
    decreases |schedule|
  {
    if schedule != [] {
      MovedOk(s, schedule[0]);
      MovedTold(s, schedule[0], t);
      PlayTold(Moved(s, schedule[0]), schedule[1..], t);
    }
  }

  lemma RefusalsHaveReason(calls: map<CallId, Call>, schedule: seq<CallId>, t: CallId)
    requires t in calls
    ensures Told(Play(Initial(calls), schedule), t)
  {
    InitialOk(calls);
    PlayTold(Initial(calls), schedule, t);
  }

  // ---- Refused for good ----

  // Closed or cancelled before `t` looked for the last time.
  predicate ShutOut(s: State, t: CallId) {
    && t in s.pcs && t in s.calls && s.calls[t].Register?
    && (|| s.pcs[t].Refused?
        || (s.closed && Admitting(s.pcs[t]) && !s.pcs[t].RecheckOp?)
        || (t in s.cancelled && Admitting(s.pcs[t])))
  }

  lemma OwnShutOut(s: State, t: CallId)
    requires ShutOut(s, t) && StepOf(s, t).Some?
    ensures ShutOut(StepOf(s, t).value, t)
  {
  }

  lemma MovedShutOut(s: State, u: CallId, t: CallId)
    requires Consistent(s) && ShutOut(s, t)
    ensures ShutOut(Moved(s, u), t)
  {
    FlagsGrow(s, u);
    if u == t && StepOf(s, t).Some? {
      OwnShutOut(s, t);
    } else if u != t {
      OthersStay(s, u, t);
    }
  }

  // A registration the client was closed to, or whose operation was cancelled,
  // before its last look never enters the table.
  lemma {:induction false} ShutOutNeverEnters(s: State, schedule: seq<CallId>, t: CallId)
    requires Consistent(s) && ShutOut(s, t)
    ensures var e := Play(s, schedule); ShutOut(e, t) && forall id :: id in e.active ==> e.active[id] != t
    decreases |schedule|
  {
    if schedule == [] {
      forall id | id in s.active ensures s.active[id] != t {
        assert EntryOk(s, id);
      }
    } else {
      MovedOk(s, schedule[0]);
      MovedShutOut(s, schedule[0], t);
      ShutOutNeverEnters(Moved(s, schedule[0]), schedule[1..], t);
    }
  }

  // A registration that comes too late, or for a cancelled operation, does not
  // even wait for the lock.
  predicate TurnedAway(s: State, t: CallId) {
    && t in s.pcs && t in s.calls
    && (|| s.pcs[t].Refused?
        || (s.closed && s.pcs[t].Check?)
        || (t in s.cancelled && (s.pcs[t].Check? || s.pcs[t].CheckOp?)))
  }

  lemma MovedTurnedAway(s: State, u: CallId, t: CallId)
    requires s.pcs.Keys == s.calls.Keys && TurnedAway(s, t)
    ensures TurnedAway(Moved(s, u), t)
  {
    FlagsGrow(s, u);
    if u != t {
      OthersStay(s, u, t);
    }
  }

  lemma {:induction false} TurnedAwayNeverLocks(s: State, schedule: seq<CallId>, t: CallId)
    requires Consistent(s) && TurnedAway(s, t)
    ensures var e := Play(s, schedule); TurnedAway(e, t) && e.holder != Some(t)
    decreases |schedule|
  {
    if schedule == [] {
      assert CallOk(s, t);
    } else {
      MovedOk(s, schedule[0]);
      MovedTurnedAway(s, schedule[0], t);
      TurnedAwayNeverLocks(Moved(s, schedule[0]), schedule[1..], t);
    }
  }

  // ---- Only what a user or the close asks for is cancelled ----

  predicate Asked(calls: map<CallId, Call>, c: CallId) {
    exists t :: t in calls && calls[t] == UserCancel(c)
  }

  ghost predicate CancelledAsked(s: State) {
    s.snapped || forall c :: c in s.cancelled ==> Asked(s.calls, c)
  }

  lemma CancelsAsked(s: State, u: CallId)
    requires u in s.pcs && u in s.calls && !s.pcs[u].CancelAll? && StepOf(s, u).Some?
    ensures var n := StepOf(s, u).value;
            && n.calls == s.calls && (s.snapped ==> n.snapped)
            && (n.cancelled == s.cancelled || (s.calls[u].UserCancel? && n.cancelled == s.cancelled + {s.calls[u].target}))
  {
  }

  lemma CancelAllSnapped(s: State, u: CallId)
    requires Consistent(s) && u in s.pcs && s.pcs[u].CancelAll?
    ensures s.snapped
  {
    assert CallOk(s, u);
  }

  lemma SnapStays(s: State, u: CallId)
    requires s.pcs.Keys == s.calls.Keys && s.snapped
    ensures Moved(s, u).snapped
  {
  }

  lemma MovedAsked(s: State, u: CallId)
    requires Consistent(s) && CancelledAsked(s)
    ensures CancelledAsked(Moved(s, u))
  {
    if s.snapped {
      SnapStays(s, u);
    } else if u in s.pcs && StepOf(s, u).Some? {
      if s.pcs[u].CancelAll? {
        CancelAllSnapped(s, u);
      }
      CancelsAsked(s, u);
      AskedMore(s, StepOf(s, u).value, u);
    }
  }

  lemma AskedMore(s: State, n: State, u: CallId)
    requires n.calls == s.calls && u in s.calls && CancelledAsked(s) && !s.snapped
    requires n.cancelled == s.cancelled || (s.calls[u].UserCancel? && n.cancelled == s.cancelled + {s.calls[u].target})
    ensures CancelledAsked(n)
  {
    if s.calls[u].UserCancel? {
      assert Asked(s.calls, s.calls[u].target);
    }
  }

  lemma {:induction false} PlayAsked(s: State, schedule: seq<CallId>)
    requires Consistent(s) && CancelledAsked(s)
    ensures CancelledAsked(Play(s, schedule))
    decreases |schedule|
  {
    if schedule != [] {
      MovedOk(s, schedule[0]);
      MovedAsked(s, schedule[0]);
      PlayAsked(Moved(s, schedule[0]), schedule[1..]);
    }
  }

  lemma CancelledBeforeClose(calls: map<CallId, Call>, schedule: seq<CallId>)
    ensures CancelledAsked(Play(Initial(calls), schedule))
  {
    InitialOk(calls);
    PlayAsked(Initial(calls), schedule);
  }

  // The close cancels nothing but operations that are or were in the table.
  predicate WasIn(s: State, c: CallId) {
    && c in s.pcs && c in s.calls && s.calls[c].Register?
    && !Admitting(s.pcs[c]) && !s.pcs[c].Insert? && !s.pcs[c].Refused?
  }

  ghost predicate CancelledIn(s: State) {
    && (forall c :: c in s.cancelled ==> Asked(s.calls, c) || WasIn(s, c))
    && (forall t, c :: t in s.pcs && s.pcs[t].CancelAll? && c in s.pcs[t].todo ==> WasIn(s, c))
  }

  lemma OwnWasIn(s: State, c: CallId)
    requires WasIn(s, c) && PcFits(s.calls[c], s.pcs[c]) && StepOf(s, c).Some?
    ensures WasIn(StepOf(s, c).value, c)
  {
    match s.pcs[c]
    case Publish(_) => case Release(_) => case Running(_) => case Reacquire(_) => case Remove(_) =>
    case Republish => case Rerelease => case _ =>
  }

  lemma WasInStays(s: State, u: CallId, c: CallId)
    requires Consistent(s) && WasIn(s, c)
    ensures WasIn(Moved(s, u), c)
  {
    if u != c {
      OthersStay(s, u, c);
    } else if StepOf(s, c).Some? {
      assert CallOk(s, c);
      OwnWasIn(s, c);
    }
  }

  lemma {:induction false} ListingOnly(active: map<OperationId, CallId>, i: nat, n: nat)
    ensures forall c :: c in Listing(active, i, n) ==> exists id :: id in active && active[id] == c
    decreases n - i
  {
    if i < n {
      ListingOnly(active, i + 1, n);
    }
  }

  lemma SnapshotWasIn(s: State)
    requires Consistent(s)
    ensures forall c :: c in Listing(s.active, 0, s.nextId) ==> WasIn(s, c)
  {
    ListingOnly(s.active, 0, s.nextId);
    forall c | c in Listing(s.active, 0, s.nextId) ensures WasIn(s, c) {
      var id :| id in s.active && s.active[id] == c;
      assert EntryOk(s, id) && CallOk(s, c);
    }
  }

  // What one step adds to the cancelled operations and to those still to be.
  lemma StepCancels(s: State, u: CallId)
    requires u in s.pcs && u in s.calls && StepOf(s, u).Some?
    ensures var n := StepOf(s, u).value;
            && n.calls == s.calls && u in n.pcs
            && (forall c :: c in n.cancelled ==>
                  c in s.cancelled || s.calls[u] == UserCancel(c) || (s.pcs[u].CancelAll? && c in s.pcs[u].todo))
            && (n.pcs[u].CancelAll? ==>
                  || (s.pcs[u].Snapshot? && n.pcs[u].todo == Listing(s.active, 0, s.nextId))
                  || (s.pcs[u].CancelAll? && forall c :: c in n.pcs[u].todo ==> c in s.pcs[u].todo))
  {
    if s.pcs[u].CancelAll? && s.pcs[u].todo != [] {
      assert forall c :: c in s.pcs[u].todo[1..] ==> c in s.pcs[u].todo;
    }
  }

  lemma MovedCancelledIn(s: State, u: CallId)
    requires Consistent(s) && CancelledIn(s)
    ensures CancelledIn(Moved(s, u))
  {
    if u in s.pcs && StepOf(s, u).Some? {
      var n := Moved(s, u);
      StepCancels(s, u);
      SnapshotWasIn(s);
      forall c | WasIn(s, c) ensures WasIn(n, c) {
        WasInStays(s, u, c);
      }
      forall c | c in n.cancelled ensures Asked(n.calls, c) || WasIn(n, c) {
        if c !in s.cancelled && s.calls[u] == UserCancel(c) {
          assert Asked(n.calls, c);
        }
      }
      forall t, c | t in n.pcs && n.pcs[t].CancelAll? && c in n.pcs[t].todo ensures WasIn(n, c) {
        if t != u {
          OthersStay(s, u, t);
        }
      }
    }
  }

  lemma {:induction false} PlayCancelledIn(s: State, schedule: seq<CallId>)
    requires Consistent(s) && CancelledIn(s)
    ensures CancelledIn(Play(s, schedule))
    decreases |schedule|
  {
    if schedule != [] {
      MovedOk(s, schedule[0]);
      MovedCancelledIn(s, schedule[0]);
      PlayCancelledIn(Moved(s, schedule[0]), schedule[1..]);
    }
  }

  lemma CloseCancelsTable(calls: map<CallId, Call>, schedule: seq<CallId>)
    ensures CancelledIn(Play(Initial(calls), schedule))
  {
    InitialOk(calls);
    PlayCancelledIn(Initial(calls), schedule);
  }

  // ---- Every call ends ----

  // Steps left to a registration; to a close that has its snapshot, apart from
  // two for each publication still to come.
  function Rank(pc: Pc, version: nat): nat {
    match pc
    case Check => 14 case CheckOp => 13 case Acquire => 12 case Recheck => 11 case RecheckOp => 10
    case Insert => 9 case Publish(_) => 8 case Release(_) => 7 case Running(_) => 6 case Reacquire(_) => 5
    case Remove(_) => 4 case Republish => 3 case Rerelease => 2 case Abort => 1
    case CancelAll(todo) => |todo| + 2
    case Look => 1
    case Park(seen) => if seen <= version then 2 * (version - seen) else 0
    case Request => 1
    case _ => 0
  }

  predicate Opening(pc: Pc) {
    pc.SwapClosed? || pc.Snapshot?
  }

  lemma RegisterRank(s: State, t: CallId)
    requires t in s.pcs && RegisterStep(s, t).Some?
    ensures var n := RegisterStep(s, t).value; t in n.pcs && Rank(n.pcs[t], n.version) < Rank(s.pcs[t], s.version)
  {
    match s.pcs[t]
    case Check => case CheckOp => case Acquire => case Recheck => case RecheckOp => case Abort =>
    case Insert => case Publish(_) => case Release(_) => case _ =>
  }

  lemma FinishRank(s: State, t: CallId)
    requires t in s.pcs && FinishStep(s, t).Some?
    ensures var n := FinishStep(s, t).value; t in n.pcs && Rank(n.pcs[t], n.version) < Rank(s.pcs[t], s.version)
  {
    match s.pcs[t] case Running(_) => case Reacquire(_) => case Remove(_) => case Republish => case Rerelease => case _ =>
  }

  lemma CloseRank(s: State, t: CallId)
    requires t in s.pcs && t in s.calls && CloseStep(s, t).Some? && !Opening(s.pcs[t])
    requires s.pcs[t].Park? ==> s.pcs[t].seen <= s.version
    ensures var n := CloseStep(s, t).value;
            t in n.pcs && Rank(n.pcs[t], n.version) < Rank(s.pcs[t], s.version)
  {
    match s.pcs[t] case CancelAll(_) => case Look => case Park(_) => case Request => case _ =>
  }

  lemma ParkedBefore(s: State, t: CallId)
    requires Consistent(s) && t in s.pcs && s.pcs[t].Park?
    ensures s.pcs[t].seen <= s.version
  {
    assert CallOk(s, t);
  }

  lemma StaysOpened(s: State, t: CallId)
    requires t in s.pcs && t in s.calls && StepOf(s, t).Some? && !Opening(s.pcs[t])
    ensures t in StepOf(s, t).value.pcs && !Opening(StepOf(s, t).value.pcs[t])
  {
  }

  lemma OwnRank(s: State, t: CallId)
    requires t in s.pcs && t in s.calls && StepOf(s, t).Some? && !Opening(s.pcs[t])
    requires s.pcs[t].Park? ==> s.pcs[t].seen <= s.version
    ensures var n := StepOf(s, t).value; t in n.pcs && Rank(n.pcs[t], n.version) < Rank(s.pcs[t], s.version)
  {
    if Registering(s.pcs[t]) {
      RegisterRank(s, t);
    } else if Finishing(s.pcs[t]) {
      FinishRank(s, t);
    } else {
      CloseRank(s, t);
    }
  }

  // How many of the turns of `t` did something.
  function StepsOf(s: State, schedule: seq<CallId>, t: CallId): nat
    requires s.pcs.Keys == s.calls.Keys
    decreases |schedule|
  {
    if schedule == [] then 0
    else (if schedule[0] == t && t in s.pcs && StepOf(s, t).Some? then 1 else 0) + StepsOf(Moved(s, schedule[0]), schedule[1..], t)
  }

  lemma RankMoves(s: State, u: CallId, t: CallId)
    requires Consistent(s) && t in s.pcs && !Opening(s.pcs[t])
    ensures var n := Moved(s, u);
            && t in n.pcs && s.version <= n.version && !Opening(n.pcs[t])
            && (if u == t && StepOf(s, t).Some? then 1 else 0) + Rank(n.pcs[t], n.version)
               <= Rank(s.pcs[t], s.version) + 2 * (n.version - s.version)
  {
    FlagsGrow(s, u);
    if u == t && StepOf(s, t).Some? {
      if s.pcs[t].Park? {
        ParkedBefore(s, t);
      }
      OwnRank(s, t);
      StaysOpened(s, t);
    } else if u != t {
      OthersStay(s, u, t);
    }
  }

  // Every call takes at most as many steps as its rank, and two more for each
  // count published meanwhile.
  lemma {:induction false} EveryCallEnds(s: State, schedule: seq<CallId>, t: CallId)
    requires Consistent(s) && t in s.pcs && !Opening(s.pcs[t])
    ensures var e := Play(s, schedule);
            s.version <= e.version && StepsOf(s, schedule, t) <= Rank(s.pcs[t], s.version) + 2 * (e.version - s.version)
    ensures var e := Play(s, schedule); StepsOf(s, schedule, t) + Rank(e.pcs[t], e.version) <= Rank(s.pcs[t], s.version) + 2 * (e.version - s.version)
    decreases |schedule|
  {
    if schedule != [] {
      MovedOk(s, schedule[0]);
      RankMoves(s, schedule[0], t);
      EveryCallEnds(Moved(s, schedule[0]), schedule[1..], t);
    }
  }
}
