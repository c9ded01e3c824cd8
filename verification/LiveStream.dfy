// Reading a stream that nobody cancels, and how reading ends: a live stream
// keeps its pair, a failed or exhausted one is closed, and after a
// cancellation every call ends soon.
module LiveStream {
  import opened Wrappers
  import Cancellation
  import opened ClosableStream

  // ---- Only a cancelled stream gives its pair up ----

  // What a call of a live stream is not about to do.
  predicate LiveCall(s: State, t: CallId) {
    t in s.pcs && (s.reason == Cancellation.Live ==> !s.pcs[t].DropPair? && !s.pcs[t].PutRefuse?)
  }

  // The read whose stream failed has dropped the pair and cancels next.
  predicate AboutToCancel(s: State) {
    s.nextLock.Some? && s.nextLock.value in s.pcs && s.pcs[s.nextLock.value].Swap?
  }

  predicate KeepsPair(s: State) {
    s.reason == Cancellation.Live && s.drops > 0 ==> AboutToCancel(s)
  }

  lemma StoreLive(s: State, t: CallId, u: CallId)
    requires Sound(s, t) && StoreStep(s, t).Some? && LiveCall(s, u)
    ensures LiveCall(StoreStep(s, t).value, u) && (KeepsPair(s) ==> KeepsPair(StoreStep(s, t).value))
  {
    StoreIsOwn(s, t);
    match s.pcs[t] case Lock => case Check => case Store => case _ =>
  }

  lemma MadeLive(s: State, t: CallId, u: CallId)
    requires Sound(s, t) && MadeStep(s, t).Some? && LiveCall(s, u)
    ensures LiveCall(MadeStep(s, t).value, u) && (KeepsPair(s) ==> KeepsPair(MadeStep(s, t).value))
  {
    MadeIsOwn(s, t);
    match s.pcs[t] case Unlock(_) => case DiscardLate => case _ =>
  }

  lemma SwapLive(s: State, t: CallId, u: CallId)
    requires Sound(s, t) && SwapStep(s, t).Some? && LiveCall(s, u)
    ensures LiveCall(SwapStep(s, t).value, u) && (KeepsPair(s) ==> KeepsPair(SwapStep(s, t).value))
  {
    SwapIsOwn(s, t);
    match s.pcs[t] case Await => case Swap => case _ =>
  }

  lemma CleanLive(s: State, t: CallId, u: CallId)
    requires Sound(s, t) && CleanStep(s, t).Some? && LiveCall(s, u)
    ensures LiveCall(CleanStep(s, t).value, u) && (KeepsPair(s) ==> KeepsPair(CleanStep(s, t).value))
  {
    CleanIsOwn(s, t);
    match s.pcs[t] case Take => case RunCleanup(_) => case Discard => case _ =>
  }

  lemma EnterLive(s: State, t: CallId, u: CallId)
    requires Sound(s, t) && EnterStep(s, t).Some? && LiveCall(s, u)
    ensures LiveCall(EnterStep(s, t).value, u) && (KeepsPair(s) ==> KeepsPair(EnterStep(s, t).value))
  {
    EnterIsOwn(s, t);
    match s.pcs[t] case Enter => case Queue => case TakePair => case _ =>
  }

  lemma PollLive(s: State, t: CallId, o: Outcome, u: CallId)
    requires Sound(s, t) && PollStep(s, t, o).Some? && LiveCall(s, u)
    ensures LiveCall(PollStep(s, t, o).value, u) && (KeepsPair(s) ==> KeepsPair(PollStep(s, t, o).value))
  {
    PollIsOwn(s, t, o);
    match s.pcs[t] case Poll1 => case Poll2 => case _ =>
  }

  lemma PutLive(s: State, t: CallId, u: CallId)
    requires Sound(s, t) && PutStep(s, t).Some? && LiveCall(s, u)
    ensures LiveCall(PutStep(s, t).value, u) && (KeepsPair(s) ==> KeepsPair(PutStep(s, t).value))
  {
    PutIsOwn(s, t);
    match s.pcs[t] case PutLock => case PutCheck => case PutStore => case PutRefuse => case _ =>
  }

  lemma LeaveLive(s: State, t: CallId, u: CallId)
    requires Sound(s, t) && LeaveStep(s, t).Some? && LiveCall(s, t) && LiveCall(s, u)
    ensures LiveCall(LeaveStep(s, t).value, u) && (KeepsPair(s) ==> KeepsPair(LeaveStep(s, t).value))
  {
    LeaveIsOwn(s, t);
    match s.pcs[t] case DropPair => case DropFailed => case Leave => case _ =>
  }

  lemma StepLive(s: State, t: CallId, o: Outcome, u: CallId)
    requires Sound(s, t) && StepOf(s, t, o).Some? && LiveCall(s, t) && LiveCall(s, u)
    ensures LiveCall(StepOf(s, t, o).value, u) && (KeepsPair(s) ==> KeepsPair(StepOf(s, t, o).value))
  {
    var pc := s.pcs[t];
    if Storing(pc) {
      StoreLive(s, t, u);
    } else if Making(pc) {
      MadeLive(s, t, u);
    } else if Swapping(pc) {
      SwapLive(s, t, u);
    } else if Cleaning(pc) {
      CleanLive(s, t, u);
    } else if Entering(pc) {
      EnterLive(s, t, u);
    } else if Polling(pc) {
      PollLive(s, t, o, u);
    } else if Putting(pc) {
      PutLive(s, t, u);
    } else {
      LeaveLive(s, t, u);
    }
  }

  ghost predicate Kept(s: State) {
    KeepsPair(s) && forall t :: t in s.pcs ==> LiveCall(s, t)
  }

  lemma MovedKept(s: State, m: Move)
    requires Consistent(s) && Kept(s)
    ensures Kept(Moved(s, m))
  {
    var t, o := m.call, m.outcome;
    if t in s.pcs && StepOf(s, t, o).Some? {
      assert Good(s, t);
      StepIsOwn(s, t, o);
      StepLive(s, t, o, t);
      forall u | u in s.pcs ensures LiveCall(Moved(s, m), u) {
        StepLive(s, t, o, u);
      }
    }
  }

  lemma {:induction false} PlayKept(s: State, schedule: seq<Move>)
    requires Consistent(s) && Kept(s)
    ensures Kept(Play(s, schedule))
    decreases |schedule|
  {
    if schedule != [] {
      MovedOk(s, schedule[0]);
      MovedKept(s, schedule[0]);
      PlayKept(Moved(s, schedule[0]), schedule[1..]);
    }
  }

  // A stream nobody cancelled still has its pair when every call has returned.
  lemma LiveKeepsPair(calls: map<CallId, Call>, schedule: seq<Move>)
    requires Sensible(calls)
    ensures var s := Play(Initial(calls), schedule);
            Quiet(s) && s.reason == Cancellation.Live ==> s.slot && s.drops == 0
  {
    InitialOk(calls);
    PlayOk(Initial(calls), schedule);
    PlayKept(Initial(calls), schedule);
    var s := Play(Initial(calls), schedule);
    if Quiet(s) && s.reason == Cancellation.Live {
      QuietKeeps(s);
    }
  }

  lemma QuietKeeps(s: State)
    requires Consistent(s) && Kept(s) && Quiet(s) && s.reason == Cancellation.Live
    ensures s.slot && s.drops == 0
  {
  }

  // ---- What one step of a call does to it ----

  // How many steps of its own a call of a cancelled stream has left at most.
  function Rank(pc: Pc): nat {
    match pc
    case Returned => 0
    case Leave => 1 case DiscardLate => 1 case Discard => 1
    case DropPair => 2 case PutStore => 2 case RunCleanup(_) => 2 case Unlock(_) => 2
    case PutRefuse => 3 case Poll1 => 3 case Take => 3 case Store => 3
    case PutCheck => 4 case Swap => 4 case Check => 4
    case PutLock => 5 case DropFailed => 5 case Await => 5 case Lock => 5
    case Poll2 => 6 case TakePair => 7 case Queue => 8 case Enter => 9
  }

  predicate Discarding(pc: Pc) {
    pc.DiscardLate? || Cleaning(pc)
  }

  predicate PastPolls(pc: Pc) {
    pc.Returned? || pc.Leave? || Putting(pc)
  }

  // On a live stream a read gets past its
  // polls by an item only, fails by a failed poll only, and nothing else drops.
  predicate Forward(s: State, t: CallId, o: Outcome, n: State) {
    && t in s.pcs && t in s.calls && t in n.pcs
    && var pc, now := s.pcs[t], n.pcs[t];
      && (now.DropFailed? ==> pc.Poll2? && (o.Failed? || o.Ended?))
      && (n.reason == Cancellation.Live && !pc.DropPair? && !Discarding(pc) ==>
            && s.reason == Cancellation.Live
            && (!pc.DropFailed? ==> n.drops == s.drops)
            && (s.calls[t].Next? && PastPolls(now) ==> PastPolls(pc) || (pc.Poll2? && o.Item?) || (pc.TakePair? && !s.slot)))
  }

  lemma StoreForward(s: State, t: CallId, o: Outcome)
    requires t in s.pcs && t in s.calls && StoreStep(s, t).Some?
    ensures Forward(s, t, o, StoreStep(s, t).value)
  {
    match s.pcs[t] case Lock => case Check => case Store => case _ =>
  }

  lemma StoreRank(s: State, t: CallId)
    requires s.reason != Cancellation.Live && t in s.pcs && t in s.calls && StoreStep(s, t).Some?
    ensures t in StoreStep(s, t).value.pcs && Rank(StoreStep(s, t).value.pcs[t]) < Rank(s.pcs[t])
  {
    match s.pcs[t] case Lock => case Check => case Store => case _ =>
  }

  lemma MadeForward(s: State, t: CallId, o: Outcome)
    requires t in s.pcs && t in s.calls && PcFits(s.calls[t], s.pcs[t]) && MadeStep(s, t).Some?
    ensures Forward(s, t, o, MadeStep(s, t).value)
  {
    match s.pcs[t] case Unlock(_) => case DiscardLate => case _ =>
  }

  lemma MadeRank(s: State, t: CallId)
    requires s.reason != Cancellation.Live && t in s.pcs && t in s.calls && MadeStep(s, t).Some?
    ensures t in MadeStep(s, t).value.pcs && Rank(MadeStep(s, t).value.pcs[t]) < Rank(s.pcs[t])
  {
    match s.pcs[t] case Unlock(_) => case DiscardLate => case _ =>
  }

  lemma SwapForward(s: State, t: CallId, o: Outcome)
    requires t in s.pcs && t in s.calls && SwapStep(s, t).Some?
    ensures Forward(s, t, o, SwapStep(s, t).value)
  {
    match s.pcs[t] case Await => case Swap => case _ =>
  }

  lemma SwapRank(s: State, t: CallId)
    requires s.reason != Cancellation.Live && t in s.pcs && t in s.calls && SwapStep(s, t).Some?
    ensures t in SwapStep(s, t).value.pcs && Rank(SwapStep(s, t).value.pcs[t]) < Rank(s.pcs[t])
  {
    match s.pcs[t] case Await => case Swap => case _ =>
  }

  lemma CleanForward(s: State, t: CallId, o: Outcome)
    requires t in s.pcs && t in s.calls && CleanStep(s, t).Some?
    ensures Forward(s, t, o, CleanStep(s, t).value)
  {
    match s.pcs[t] case Take => case RunCleanup(_) => case Discard => case _ =>
  }

  lemma CleanRank(s: State, t: CallId)
    requires s.reason != Cancellation.Live && t in s.pcs && t in s.calls && CleanStep(s, t).Some?
    ensures t in CleanStep(s, t).value.pcs && Rank(CleanStep(s, t).value.pcs[t]) < Rank(s.pcs[t])
  {
    match s.pcs[t] case Take => case RunCleanup(_) => case Discard => case _ =>
  }

  lemma EnterForward(s: State, t: CallId, o: Outcome)
    requires t in s.pcs && t in s.calls && EnterStep(s, t).Some?
    ensures Forward(s, t, o, EnterStep(s, t).value)
  {
    match s.pcs[t] case Enter => case Queue => case TakePair => case _ =>
  }

  lemma EnterRank(s: State, t: CallId)
    requires s.reason != Cancellation.Live && t in s.pcs && t in s.calls && EnterStep(s, t).Some?
    ensures t in EnterStep(s, t).value.pcs && Rank(EnterStep(s, t).value.pcs[t]) < Rank(s.pcs[t])
  {
    match s.pcs[t] case Enter => case Queue => case TakePair => case _ =>
  }

  lemma PollForward(s: State, t: CallId, o: Outcome)
    requires t in s.pcs && t in s.calls && PollStep(s, t, o).Some?
    ensures Forward(s, t, o, PollStep(s, t, o).value)
  {
    match s.pcs[t] case Poll1 => case Poll2 => case _ =>
  }

  lemma PollRank(s: State, t: CallId, o: Outcome)
    requires s.reason != Cancellation.Live && t in s.pcs && t in s.calls && PollStep(s, t, o).Some?
    ensures t in PollStep(s, t, o).value.pcs && Rank(PollStep(s, t, o).value.pcs[t]) < Rank(s.pcs[t])
  {
    match s.pcs[t] case Poll1 => case Poll2 => case _ =>
  }

  lemma PutForward(s: State, t: CallId, o: Outcome)
    requires t in s.pcs && t in s.calls && PutStep(s, t).Some?
    ensures Forward(s, t, o, PutStep(s, t).value)
  {
    match s.pcs[t] case PutLock => case PutCheck => case PutStore => case PutRefuse => case _ =>
  }

  lemma PutRank(s: State, t: CallId)
    requires s.reason != Cancellation.Live && t in s.pcs && t in s.calls && PutStep(s, t).Some?
    ensures t in PutStep(s, t).value.pcs && Rank(PutStep(s, t).value.pcs[t]) < Rank(s.pcs[t])
  {
    match s.pcs[t] case PutLock => case PutCheck => case PutStore => case PutRefuse => case _ =>
  }

  lemma LeaveForward(s: State, t: CallId, o: Outcome)
    requires t in s.pcs && t in s.calls && LeaveStep(s, t).Some?
    ensures Forward(s, t, o, LeaveStep(s, t).value)
  {
    match s.pcs[t] case DropPair => case DropFailed => case Leave => case _ =>
  }

  lemma LeaveRank(s: State, t: CallId)
    requires s.reason != Cancellation.Live && t in s.pcs && t in s.calls && LeaveStep(s, t).Some?
    ensures t in LeaveStep(s, t).value.pcs && Rank(LeaveStep(s, t).value.pcs[t]) < Rank(s.pcs[t])
  {
    match s.pcs[t] case DropPair => case DropFailed => case Leave => case _ =>
  }

  lemma StepForward(s: State, t: CallId, o: Outcome)
    requires t in s.pcs && t in s.calls && PcFits(s.calls[t], s.pcs[t]) && StepOf(s, t, o).Some?
    ensures Forward(s, t, o, StepOf(s, t, o).value)
  {
    var pc := s.pcs[t];
    if Storing(pc) {
      StoreForward(s, t, o);
    } else if Making(pc) {
      MadeForward(s, t, o);
    } else if Swapping(pc) {
      SwapForward(s, t, o);
    } else if Cleaning(pc) {
      CleanForward(s, t, o);
    } else if Entering(pc) {
      EnterForward(s, t, o);
    } else if Polling(pc) {
      PollForward(s, t, o);
    } else if Putting(pc) {
      PutForward(s, t, o);
    } else {
      LeaveForward(s, t, o);
    }
  }

  lemma StepRank(s: State, t: CallId, o: Outcome)
    requires s.reason != Cancellation.Live && t in s.pcs && t in s.calls && StepOf(s, t, o).Some?
    ensures t in StepOf(s, t, o).value.pcs && Rank(StepOf(s, t, o).value.pcs[t]) < Rank(s.pcs[t])
  {
    var pc := s.pcs[t];
    if Storing(pc) {
      StoreRank(s, t);
    } else if Making(pc) {
      MadeRank(s, t);
    } else if Swapping(pc) {
      SwapRank(s, t);
    } else if Cleaning(pc) {
      CleanRank(s, t);
    } else if Entering(pc) {
      EnterRank(s, t);
    } else if Polling(pc) {
      PollRank(s, t, o);
    } else if Putting(pc) {
      PutRank(s, t);
    } else {
      LeaveRank(s, t);
    }
  }

  // Only a cancelled stream is discarded.
  lemma DiscardsCancelled(s: State, t: CallId)
    requires Consistent(s) && t in s.pcs && Discarding(s.pcs[t])
    ensures s.reason != Cancellation.Live
  {
    assert Good(s, t);
  }

  // ---- A stream that neither fails nor ends ----

  predicate Flowing(schedule: seq<Move>) {
    forall m :: m in schedule ==> m.outcome.Pending? || m.outcome.Item?
  }

  ghost predicate NeverFailed(s: State) {
    (s.reason == Cancellation.Live ==> s.drops == 0) && forall t :: t in s.pcs ==> !s.pcs[t].DropFailed?
  }

  lemma FlowStep(s: State, m: Move)
    requires Consistent(s) && Kept(s) && NeverFailed(s) && !m.outcome.Failed? && !m.outcome.Ended?
    ensures NeverFailed(Moved(s, m))
  {
    var t, o := m.call, m.outcome;
    if t in s.pcs && StepOf(s, t, o).Some? {
      assert Good(s, t) && LiveCall(s, t);
      StepIsOwn(s, t, o);
      StepForward(s, t, o);
      if Discarding(s.pcs[t]) {
        DiscardsCancelled(s, t);
      }
    }
  }

  lemma {:induction false} FlowKept(s: State, schedule: seq<Move>)
    requires Consistent(s) && Kept(s) && NeverFailed(s) && Flowing(schedule)
    ensures NeverFailed(Play(s, schedule))
    decreases |schedule|
  {
    if schedule != [] {
      assert schedule[0] in schedule;
      MovedOk(s, schedule[0]);
      MovedKept(s, schedule[0]);
      FlowStep(s, schedule[0]);
      FlowKept(Moved(s, schedule[0]), schedule[1..]);
    }
  }

  // While it is live, the pair of such a stream is with a read or in the slot.
  lemma LiveSlotFull(calls: map<CallId, Call>, schedule: seq<Move>)
    requires Sensible(calls) && Flowing(schedule)
    ensures var s := Play(Initial(calls), schedule);
            s.reason == Cancellation.Live ==> s.drops == 0 && (s.slot <==> !Held(s))
  {
    InitialOk(calls);
    PlayOk(Initial(calls), schedule);
    FlowKept(Initial(calls), schedule);
  }

  // ---- A stream that failed or ended ----

  // The read that was told so is closing the stream, or it is closed.
  predicate Ending(s: State, t: CallId) {
    && t in s.pcs && t in s.calls && s.calls[t].Next?
    && (s.pcs[t].DropFailed? || (s.pcs[t].Swap? && s.drops == 1) || (s.reason != Cancellation.Live && s.drops == 1))
  }

  lemma EndingStep(s: State, m: Move, t: CallId)
    requires Consistent(s) && Ending(s, t)
    ensures Ending(Moved(s, m), t)
  {
    var u, o := m.call, m.outcome;
    if u in s.pcs && StepOf(s, u, o).Some? {
      StepIsOwn(s, u, o);
      MovedOk(s, m);
      assert Good(s, t);
      if u == t {
        OwnEndingStep(s, t, o);
      }
    }
  }

  lemma OwnEndingStep(s: State, t: CallId, o: Outcome)
    requires Ending(s, t) && PairOk(s) && StepOf(s, t, o).Some? && TurnOk(s, t) && PairOk(StepOf(s, t, o).value)
    ensures Ending(StepOf(s, t, o).value, t)
  {
    StepIsOwn(s, t, o);
    if s.pcs[t].DropFailed? {
      assert StepOf(s, t, o) == LeaveStep(s, t);
    } else if s.pcs[t].Swap? {
      assert StepOf(s, t, o) == SwapStep(s, t);
    }
  }

  lemma {:induction false} EndingLasts(s: State, schedule: seq<Move>, t: CallId)
    requires Consistent(s) && Ending(s, t)
    ensures Consistent(Play(s, schedule)) && Ending(Play(s, schedule), t)
    decreases |schedule|
  {
    if schedule != [] {
      MovedOk(s, schedule[0]);
      EndingStep(s, schedule[0], t);
      EndingLasts(Moved(s, schedule[0]), schedule[1..], t);
    }
  }

  // Once a read was told that the stream failed or ended and has returned, the
  // stream is closed and its pair dropped.
  lemma FailedReadCloses(s: State, t: CallId, o: Outcome, schedule: seq<Move>)
    requires Consistent(s) && t in s.pcs && s.pcs[t].Poll2? && (o.Failed? || o.Ended?)
    ensures var e := Play(Moved(s, Move(t, o)), schedule);
            t in e.pcs && (e.pcs[t].Returned? ==> e.reason != Cancellation.Live && e.drops == 1 && !e.slot)
  {
    assert Good(s, t);
    assert StepOf(s, t, o) == Some(Goto(s, t, DropFailed));
    MovedOk(s, Move(t, o));
    EndingLasts(Moved(s, Move(t, o)), schedule, t);
  }

  // ---- After a cancellation ----

  // How many of the moves of `t` did something.
  function StepsOf(s: State, schedule: seq<Move>, t: CallId): nat
    requires s.pcs.Keys == s.calls.Keys
    decreases |schedule|
  {
    if schedule == [] then 0
    else
      (if schedule[0].call == t && t in s.pcs && StepOf(s, t, schedule[0].outcome).Some? then 1 else 0)
      + StepsOf(Moved(s, schedule[0]), schedule[1..], t)
  }

  lemma RankMoves(s: State, m: Move, t: CallId)
    requires Consistent(s) && s.reason != Cancellation.Live && t in s.pcs
    ensures var n := Moved(s, m);
            && n.reason != Cancellation.Live && t in n.pcs && Rank(s.pcs[t]) <= 9
            && Rank(n.pcs[t]) + (if m.call == t && StepOf(s, t, m.outcome).Some? then 1 else 0) <= Rank(s.pcs[t])
  {
    if m.call in s.pcs && StepOf(s, m.call, m.outcome).Some? {
      StepIsOwn(s, m.call, m.outcome);
      StepRank(s, m.call, m.outcome);
    }
  }

  // Whatever the stream answers, a call of a cancelled stream ends after at
  // most nine more steps.
  lemma {:induction false} EndsWhenCancelled(s: State, schedule: seq<Move>, t: CallId)
    requires Consistent(s) && s.reason != Cancellation.Live && t in s.pcs
    ensures StepsOf(s, schedule, t) + Rank(Play(s, schedule).pcs[t]) <= Rank(s.pcs[t]) <= 9
    decreases |schedule|
  {
    if schedule != [] {
      MovedOk(s, schedule[0]);
      RankMoves(s, schedule[0], t);
      EndsWhenCancelled(Moved(s, schedule[0]), schedule[1..], t);
    }
  }

  // A read that finds the stream cancelled before its turn never takes the
  // pair, and returns in its next step whoever has the turn.
  predicate TooLate(s: State, t: CallId) {
    && t in s.pcs && t in s.calls && s.calls[t].Next? && s.reason != Cancellation.Live
    && (s.pcs[t].Enter? || s.pcs[t].Queue? || s.pcs[t].Returned?)
  }

  lemma LateStep(s: State, m: Move, t: CallId)
    requires s.pcs.Keys == s.calls.Keys && TooLate(s, t)
    ensures TooLate(Moved(s, m), t)
    ensures m.call == t && (s.pcs[t].Queue? || s.made) ==> Moved(s, m).pcs[t].Returned?
  {
    if m.call in s.pcs && StepOf(s, m.call, m.outcome).Some? {
      StepIsOwn(s, m.call, m.outcome);
    }
  }

  lemma {:induction false} LateReadTakesNothing(s: State, schedule: seq<Move>, t: CallId)
    requires Consistent(s) && TooLate(s, t)
    ensures var e := Play(s, schedule); TooLate(e, t) && !HoldsPair(e.pcs[t])
    decreases |schedule|
  {
    if schedule != [] {
      MovedOk(s, schedule[0]);
      LateStep(s, schedule[0], t);
      LateReadTakesNothing(Moved(s, schedule[0]), schedule[1..], t);
    }
  }

  // ---- A close that has returned ----

  predicate CloseDone(s: State, t: CallId) {
    t in s.pcs && t in s.calls && (s.calls[t].Close? && s.pcs[t].Returned? ==> s.reason != Cancellation.Live && s.cleaned)
  }

  lemma OwnCloseStep(s: State, t: CallId, o: Outcome)
    requires Consistent(s) && t in s.pcs && s.calls[t].Close? && StepOf(s, t, o).Some?
    ensures CloseDone(StepOf(s, t, o).value, t)
  {
    assert Good(s, t);
    StepIsOwn(s, t, o);
    match s.pcs[t] case Await => case Swap => case Take => case RunCleanup(_) => case Discard => case _ =>
  }

  lemma CloseStep(s: State, m: Move, t: CallId)
    requires Consistent(s) && CloseDone(s, t)
    ensures CloseDone(Moved(s, m), t)
  {
    if m.call in s.pcs && StepOf(s, m.call, m.outcome).Some? {
      StepIsOwn(s, m.call, m.outcome);
      if m.call == t && s.calls[t].Close? {
        OwnCloseStep(s, t, m.outcome);
      } else if s.cleaned {
        CleanedStays(s, m);
      }
    }
  }

  lemma {:induction false} PlayCloses(s: State, schedule: seq<Move>, t: CallId)
    requires Consistent(s) && CloseDone(s, t)
    ensures Consistent(Play(s, schedule)) && CloseDone(Play(s, schedule), t)
    decreases |schedule|
  {
    if schedule != [] {
      MovedOk(s, schedule[0]);
      CloseStep(s, schedule[0], t);
      PlayCloses(Moved(s, schedule[0]), schedule[1..], t);
    }
  }

  // A close that has returned has cancelled the stream and emptied its slot
  // for good.
  lemma CloseEmptiesSlot(calls: map<CallId, Call>, schedule: seq<Move>, later: seq<Move>, t: CallId)
    requires Sensible(calls) && t in calls && calls[t].Close?
    requires var s := Play(Initial(calls), schedule); t in s.pcs && s.pcs[t].Returned?
    ensures var e := Play(Play(Initial(calls), schedule), later); e.reason != Cancellation.Live && !e.slot
  {
    InitialOk(calls);
    PlayCloses(Initial(calls), schedule, t);
    var s := Play(Initial(calls), schedule);
    SlotStaysEmpty(s, later);
    PlayOk(s, later);
  }

  // ---- Before the stream is made, and who cancelled it ----

  function ReasonOf(c: Call): Reason {
    match c case Cancel(r) => r case Make => Cancellation.Live case Next => Cancellation.StreamClosed case Close => Cancellation.StreamClosed
  }

  // A read or close has not begun while there is no stream.
  predicate Waits(s: State, t: CallId) {
    t in s.pcs && t in s.calls
    && (!s.made ==> (s.calls[t].Next? ==> s.pcs[t].Enter?) && (s.calls[t].Close? ==> s.pcs[t].Await?))
  }

  // The reason is that of the call that won.
  predicate Blamed(s: State) {
    s.winner.Some? ==> s.winner.value in s.calls && s.reason == ReasonOf(s.calls[s.winner.value])
  }

  lemma SwapBlames(s: State, t: CallId)
    requires t in s.pcs && t in s.calls && s.pcs[t].Swap? && !s.calls[t].Make? && Blamed(s)
    ensures SwapStep(s, t).Some? && Blamed(SwapStep(s, t).value)
  {
  }

  lemma OrderStep(s: State, m: Move, t: CallId)
    requires Consistent(s) && Waits(s, t) && Blamed(s)
    ensures Waits(Moved(s, m), t) && Blamed(Moved(s, m))
  {
    var u, o := m.call, m.outcome;
    if u in s.pcs && StepOf(s, u, o).Some? {
      StepIsOwn(s, u, o);
      assert Good(s, u);
      if s.pcs[u].Swap? {
        SwapBlames(s, u);
      }
    }
  }

  lemma {:induction false} PlayOrder(s: State, schedule: seq<Move>, t: CallId)
    requires Consistent(s) && Waits(s, t) && Blamed(s)
    ensures Waits(Play(s, schedule), t) && Blamed(Play(s, schedule))
    decreases |schedule|
  {
    if schedule != [] {
      OrderStep(s, schedule[0], t);
      MovedOk(s, schedule[0]);
      PlayOrder(Moved(s, schedule[0]), schedule[1..], t);
    }
  }

  lemma NothingBeforeMade(calls: map<CallId, Call>, schedule: seq<Move>, t: CallId)
    requires Sensible(calls) && t in calls
    ensures Waits(Play(Initial(calls), schedule), t) && Blamed(Play(Initial(calls), schedule))
  {
    InitialOk(calls);
    PlayOrder(Initial(calls), schedule, t);
  }

  // ---- What a finished read has read ----

  // A poll of `t` answered with an item.
  function GotItem(s: State, schedule: seq<Move>, t: CallId): bool
    requires s.pcs.Keys == s.calls.Keys
    decreases |schedule|
  {
    schedule != []
    && (|| (t in s.pcs && s.pcs[t].Poll2? && schedule[0] == Move(t, Item))
        || GotItem(Moved(s, schedule[0]), schedule[1..], t))
  }

  // On a live stream a read that has got past its polls was given an item.
  predicate ReadSomething(s: State, t: CallId, got: bool) {
    t in s.pcs && t in s.calls
    && (s.calls[t].Next? && s.reason == Cancellation.Live && PastPolls(s.pcs[t]) ==> got)
  }

  lemma ReadStep(s: State, m: Move, t: CallId, got: bool)
    requires Consistent(s) && Kept(s) && ReadSomething(s, t, got)
    ensures ReadSomething(Moved(s, m), t, got || (s.pcs[t].Poll2? && m == Move(t, Item)))
  {
    if m.call in s.pcs && StepOf(s, m.call, m.outcome).Some? {
      StepIsOwn(s, m.call, m.outcome);
      if m.call == t && s.calls[t].Next? {
        OwnReadStep(s, t, m.outcome);
      }
    }
  }

  // Whose turn it is on a live stream finds the pair in the slot.
  lemma OwnReadStep(s: State, t: CallId, o: Outcome)
    requires Consistent(s) && Kept(s) && t in s.pcs && s.calls[t].Next? && StepOf(s, t, o).Some?
    ensures var n := StepOf(s, t, o).value;
            t in n.pcs && (n.reason == Cancellation.Live && PastPolls(n.pcs[t]) ==>
              s.reason == Cancellation.Live && (PastPolls(s.pcs[t]) || (s.pcs[t].Poll2? && o.Item?)))
  {
    assert Good(s, t) && LiveCall(s, t);
    StepForward(s, t, o);
    if Discarding(s.pcs[t]) {
      DiscardsCancelled(s, t);
      StepIsOwn(s, t, o);
    } else if s.pcs[t].DropPair? {
      StepIsOwn(s, t, o);
    }
  }

  lemma {:induction false} ReadsGotItem(s: State, schedule: seq<Move>, t: CallId, got: bool)
    requires Consistent(s) && Kept(s) && ReadSomething(s, t, got)
    ensures ReadSomething(Play(s, schedule), t, got || GotItem(s, schedule, t))
    decreases |schedule|
  {
    if schedule != [] {
      var m := schedule[0];
      MovedOk(s, m);
      MovedKept(s, m);
      ReadStep(s, m, t, got);
      ReadsGotItem(Moved(s, m), schedule[1..], t, got || (s.pcs[t].Poll2? && m == Move(t, Item)));
    }
  }

  // No read of a live stream returns empty-handed.
  lemma LiveReadsGotItem(calls: map<CallId, Call>, schedule: seq<Move>, t: CallId)
    requires Sensible(calls) && t in calls && calls[t].Next?
    ensures var s := Play(Initial(calls), schedule);
            t in s.pcs && (s.reason == Cancellation.Live && s.pcs[t].Returned? ==> GotItem(Initial(calls), schedule, t))
  {
    InitialOk(calls);
    ReadsGotItem(Initial(calls), schedule, t, false);
  }
}
