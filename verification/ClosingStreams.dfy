// A client and the streams of its operations together. An operation's guard is
// dropped with the pair of its stream, so it finishes once the pair is dropped;
// closing the client cancels its operations, and so their streams.
module ClosingStreams {
  import opened Wrappers
  import Cancellation
  import Client = ClientLifecycle
  import Stream = ClosableStream

  type CallId = nat

  // `streams` holds the stream of each registration that opens one.
  datatype State = State(client: Client.State, streams: map<CallId, Stream.State>)

  datatype Move = ClientMove(call: CallId) | StreamMove(operation: CallId, move: Stream.Move)

  // The operation has its guard, or had one.
  predicate Registered(pc: Client.Pc) {
    Client.Finishing(pc) || pc.Returned?
  }

  predicate FinishBegun(pc: Client.Pc) {
    Registered(pc) && !pc.Running?
  }

  // The guard of an operation with a stream is dropped with the pair.
  predicate ClientMay(s: State, t: CallId) {
    t in s.client.pcs && (s.client.pcs[t].Running? && t in s.streams ==> s.streams[t].drops > 0)
  }

  // A stream is made for a registered operation, and cancelled through it.
  predicate StreamMay(s: State, o: CallId, t: CallId) {
    && o in s.streams && o in s.client.pcs && Registered(s.client.pcs[o])
    && t in s.streams[o].pcs && t in s.streams[o].calls
    && (s.streams[o].calls[t].Cancel? && s.streams[o].pcs[t].Swap? ==> o in s.client.cancelled)
  }

  ghost predicate Typed(s: State) {
    && s.client.pcs.Keys == s.client.calls.Keys
    && forall o :: o in s.streams ==> s.streams[o].pcs.Keys == s.streams[o].calls.Keys
  }

  ghost function Moved(s: State, m: Move): (next: State)
    requires Typed(s)
    ensures Typed(next)
  {
    match m
    case ClientMove(t) => if ClientMay(s, t) then s.(client := Client.Moved(s.client, t)) else s
    case StreamMove(o, v) =>
      if StreamMay(s, o, v.call) then s.(streams := s.streams[o := Stream.Moved(s.streams[o], v)]) else s
  }

  ghost function Play(s: State, schedule: seq<Move>): (end: State)
    requires Typed(s)
    ensures Typed(end)
    decreases |schedule|
  {
    if schedule == [] then s else Play(Moved(s, schedule[0]), schedule[1..])
  }

  // ---- The invariant ----

  // One of its calls is the cancellation by the closing client.
  predicate Closable(calls: map<CallId, Stream.Call>) {
    exists t :: t in calls && calls[t] == Stream.Cancel(Cancellation.ClientClosed)
  }

  ghost predicate StreamOk(s: State, o: CallId) {
    && o in s.streams && o in s.client.pcs && o in s.client.calls && s.client.calls[o].Register?
    && Stream.Consistent(s.streams[o]) && Stream.Sensible(s.streams[o].calls) && Closable(s.streams[o].calls)
    && (FinishBegun(s.client.pcs[o]) ==> s.streams[o].drops > 0)
  }

  ghost predicate Consistent(s: State) {
    && Client.Consistent(s.client) && Client.AllTold(s.client)
    && forall o :: o in s.streams ==> StreamOk(s, o)
  }

  // A pair once dropped stays dropped.
  lemma DropsGrow(s: Stream.State, m: Stream.Move)
    requires s.pcs.Keys == s.calls.Keys
    ensures s.drops <= Stream.Moved(s, m).drops
  {
    if m.call in s.pcs && Stream.StepOf(s, m.call, m.outcome).Some? {
      Stream.StepIsOwn(s, m.call, m.outcome);
    }
  }

  // An operation begins to finish only by dropping its guard.
  lemma FinishBegins(c: Client.State, t: CallId, o: CallId)
    requires Client.Consistent(c) && o in c.pcs && c.calls[o].Register? && FinishBegun(Client.Moved(c, t).pcs[o])
    ensures FinishBegun(c.pcs[o]) || (t == o && c.pcs[o].Running?)
  {
    if t != o {
      Client.OthersStay(c, t, o);
    } else if Client.StepOf(c, o).Some? {
      OwnFinishBegins(c, o);
    }
  }

  lemma OwnFinishBegins(c: Client.State, o: CallId)
    requires Client.Consistent(c) && o in c.pcs && c.calls[o].Register? && Client.StepOf(c, o).Some?
    requires FinishBegun(Client.StepOf(c, o).value.pcs[o])
    ensures FinishBegun(c.pcs[o]) || c.pcs[o].Running?
  {
    assert Client.CallOk(c, o);
    if Client.Registering(c.pcs[o]) {
      Client.RegistersFirst(c, o);
    }
  }

  lemma ClientMoveOk(s: State, t: CallId)
    requires Consistent(s) && Typed(s) && ClientMay(s, t)
    ensures Consistent(Moved(s, ClientMove(t)))
  {
    var n := Moved(s, ClientMove(t));
    Client.MovedOk(s.client, t);
    Client.ToldStep(s.client, t);
    forall o | o in n.streams ensures StreamOk(n, o) {
      assert StreamOk(s, o);
      if FinishBegun(n.client.pcs[o]) {
        FinishBegins(s.client, t, o);
      }
    }
  }

  lemma StreamMoveOk(s: State, o: CallId, v: Stream.Move)
    requires Consistent(s) && Typed(s) && StreamMay(s, o, v.call)
    ensures Consistent(Moved(s, StreamMove(o, v)))
  {
    var n := Moved(s, StreamMove(o, v));
    assert StreamOk(s, o);
    Stream.MovedOk(s.streams[o], v);
    DropsGrow(s.streams[o], v);
    forall x | x in n.streams ensures StreamOk(n, x) {
      assert StreamOk(s, x);
    }
  }

  lemma MovedOk(s: State, m: Move)
    requires Consistent(s) && Typed(s)
    ensures Consistent(Moved(s, m))
  {
    match m
    case ClientMove(t) =>
      if ClientMay(s, t) {
        ClientMoveOk(s, t);
      }
    case StreamMove(o, v) =>
      if StreamMay(s, o, v.call) {
        StreamMoveOk(s, o, v);
      }
  }

  lemma {:induction false} PlayOk(s: State, schedule: seq<Move>)
    requires Consistent(s) && Typed(s)
    ensures Consistent(Play(s, schedule))
    decreases |schedule|
  {
    if schedule != [] {
      MovedOk(s, schedule[0]);
      PlayOk(Moved(s, schedule[0]), schedule[1..]);
    }
  }

  // ---- What can surely move ----

  // All cancellations of operations that have begun are done.
  ghost predicate Told(s: State) {
    forall o :: o in s.streams && o in s.client.pcs && Registered(s.client.pcs[o]) && o in s.client.cancelled ==>
      CancelsDone(s.streams[o])
  }

  predicate CancelsDone(x: Stream.State) {
    forall t :: t in x.pcs && t in x.calls && x.calls[t].Cancel? ==> x.pcs[t].Returned?
  }

  // The closing client cancels one operation after the other, each to its end.
  ghost predicate ClientSurely(s: State, t: CallId) {
    ClientMay(s, t) && (s.client.pcs[t].CancelAll? ==> Told(s))
  }

  // The call that drops the pair goes on only when the operation has finished.
  ghost predicate StreamSurely(s: State, o: CallId, t: CallId) {
    StreamMay(s, o, t) && (s.streams[o].drops == 0 || s.client.pcs[o].Returned?)
  }

  // Nothing moves any more, whatever the streams answer, even if every call
  // waits for all it could be waiting for.
  ghost predicate Stuck(s: State) {
    && (forall t :: t in s.client.pcs && t in s.client.calls && ClientSurely(s, t) ==> Client.StepOf(s.client, t).None?)
    && (forall o, t, a :: StreamSurely(s, o, t) ==> Stream.StepOf(s.streams[o], t, a).None?)
  }

  lemma LockFree(s: State)
    requires Consistent(s) && Stuck(s)
    ensures s.client.holder.None?
  {
    if s.client.holder.Some? {
      Client.HolderMoves(s.client);
      assert ClientSurely(s, s.client.holder.value);
    }
  }

  // A registered operation is still running, its pair not dropped, or has finished.
  lemma RunsOrFinished(s: State, o: CallId)
    requires Consistent(s) && Stuck(s) && o in s.client.pcs && Registered(s.client.pcs[o])
    ensures s.client.pcs[o].Returned? || (s.client.pcs[o].Running? && o in s.streams && s.streams[o].drops == 0)
  {
    LockFree(s);
    assert Client.CallOk(s.client, o);
    if Client.Finishing(s.client.pcs[o]) {
      Client.FinishMoves(s.client, o);
      assert !ClientSurely(s, o);
    }
  }

  // The stream of a cancelled operation has come to rest, its pair dropped.
  lemma CancelledRests(s: State, o: CallId)
    requires Consistent(s) && Stuck(s) && o in s.streams && Registered(s.client.pcs[o]) && o in s.client.cancelled
    ensures Stream.Quiet(s.streams[o]) && s.streams[o].drops == 1 && s.client.pcs[o].Returned?
  {
    assert StreamOk(s, o);
    RunsOrFinished(s, o);
    var x := s.streams[o];
    forall t, a | t in x.pcs ensures Stream.StepOf(x, t, a).None? {
      assert StreamSurely(s, o, t);
    }
    Stream.NoDeadlock(x);
    var t :| t in x.calls && x.calls[t] == Stream.Cancel(Cancellation.ClientClosed);
    assert Stream.Good(x, t);
    Stream.QuietIsDropped(x);
  }

  lemma AllToldWhenStuck(s: State)
    requires Consistent(s) && Stuck(s)
    ensures Told(s)
  {
    forall o | o in s.streams && o in s.client.pcs && Registered(s.client.pcs[o]) && o in s.client.cancelled
      ensures CancelsDone(s.streams[o]) {
      CancelledRests(s, o);
    }
  }

  // The winner has cancelled everything and waits, or has returned.
  lemma WinnerWaits(s: State)
    requires Consistent(s) && Stuck(s) && s.client.winner.Some?
    ensures s.client.snapped && Client.ToCancel(s.client) == []
  {
    var w := s.client.winner.value;
    LockFree(s);
    AllToldWhenStuck(s);
    assert Client.CallOk(s.client, w);
    assert ClientSurely(s, w) && Client.StepOf(s.client, w).None?;
  }

  lemma TableEmpty(s: State)
    requires Consistent(s) && Stuck(s) && s.client.winner.Some?
    ensures s.client.active == map[] && s.client.count == 0
  {
    WinnerWaits(s);
    LockFree(s);
    forall id | id in s.client.active ensures false {
      var o := s.client.active[id];
      assert Client.EntryOk(s.client, id) && Client.CallOk(s.client, o);
      RunsOrFinished(s, o);
      CancelledRests(s, o);
    }
  }

  lemma CallsRest(s: State, t: CallId)
    requires Consistent(s) && Stuck(s) && s.client.winner.Some? && t in s.client.pcs
    ensures s.client.pcs[t].Returned? || s.client.pcs[t].Refused?
  {
    LockFree(s);
    TableEmpty(s);
    AllToldWhenStuck(s);
    assert Client.CallOk(s.client, t);
    if !s.client.pcs[t].Running? {
      assert ClientSurely(s, t) && Client.StepOf(s.client, t).None?;
    }
  }

  // The table is empty, the winner and every other call have returned or been
  // refused, and the pair of every registered stream was dropped exactly once;
  // the streams that were cancelled have come to rest.
  ghost predicate Drained(s: State) {
    && s.client.active == map[]
    && (s.client.winner.Some? ==> s.client.winner.value in s.client.pcs && s.client.pcs[s.client.winner.value].Returned?)
    && (forall t :: t in s.client.pcs ==> s.client.pcs[t].Returned? || s.client.pcs[t].Refused?)
    && (forall o :: o in s.streams && o in s.client.pcs && Registered(s.client.pcs[o]) ==>
          s.streams[o].drops == 1 && (o in s.client.cancelled ==> Stream.Quiet(s.streams[o])))
  }

  // Once a close has won and nothing moves any more, the client is drained.
  lemma ClosingDrains(s: State)
    requires Consistent(s) && Stuck(s) && s.client.winner.Some?
    ensures Drained(s)
  {
    TableEmpty(s);
    forall t | t in s.client.pcs ensures s.client.pcs[t].Returned? || s.client.pcs[t].Refused? {
      CallsRest(s, t);
    }
    assert Client.CallOk(s.client, s.client.winner.value);
    forall o | o in s.streams && Registered(s.client.pcs[o])
      ensures s.streams[o].drops == 1 && (o in s.client.cancelled ==> Stream.Quiet(s.streams[o])) {
      StreamDropped(s, o);
    }
  }

  lemma StreamDropped(s: State, o: CallId)
    requires Consistent(s) && Stuck(s) && s.client.winner.Some? && o in s.streams && Registered(s.client.pcs[o])
    ensures s.streams[o].drops == 1 && (o in s.client.cancelled ==> Stream.Quiet(s.streams[o]))
  {
    assert StreamOk(s, o);
    CallsRest(s, o);
    if o in s.client.cancelled {
      CancelledRests(s, o);
    }
  }

  // ---- From the start ----

  function Initial(calls: map<CallId, Client.Call>, streams: map<CallId, map<CallId, Stream.Call>>): State {
    State(Client.Initial(calls), map o | o in streams :: Stream.Initial(streams[o]))
  }

  // A stream for some of the registrations, each with a constructor and with
  // the cancellation by the closing client among its calls.
  predicate Sensible(calls: map<CallId, Client.Call>, streams: map<CallId, map<CallId, Stream.Call>>) {
    forall o :: o in streams ==> o in calls && calls[o].Register? && Stream.Sensible(streams[o]) && Closable(streams[o])
  }

  lemma InitialOk(calls: map<CallId, Client.Call>, streams: map<CallId, map<CallId, Stream.Call>>)
    requires Sensible(calls, streams)
    ensures Consistent(Initial(calls, streams)) && Typed(Initial(calls, streams))
  {
    Client.InitialOk(calls);
    var s := Initial(calls, streams);
    forall o | o in s.streams ensures StreamOk(s, o) {
      Stream.InitialOk(streams[o]);
    }
  }

  // Any schedule that ends with nothing left to move has drained the client it closed.
  lemma EveryCloseDrains(calls: map<CallId, Client.Call>, streams: map<CallId, map<CallId, Stream.Call>>, schedule: seq<Move>)
    requires Sensible(calls, streams)
    ensures Typed(Initial(calls, streams))
    ensures var s := Play(Initial(calls, streams), schedule); Stuck(s) && s.client.winner.Some? ==> Drained(s)
  {
    InitialOk(calls, streams);
    PlayOk(Initial(calls, streams), schedule);
    var s := Play(Initial(calls, streams), schedule);
    if Stuck(s) && s.client.winner.Some? {
      ClosingDrains(s);
    }
  }
}
