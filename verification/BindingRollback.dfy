// Rolling one agent's entry of the shared `agent.yaml` back through a chain.
module BindingRollback {
  import opened Wrappers
  import opened MigrationDisk

  datatype Run = Run(writes: seq<Write>, ok: bool)

  // Preflight: before each manifest the (simulated) binding is what that
  // manifest wrote or what it replaced; afterwards it is what it replaced.
  method PreflightBindings(bindings: map<Agent, Binding>, agent: Agent, chain: seq<Link>) returns (ok: bool)
    ensures ok <==> BindingRun(agent, Lookup(bindings, agent), chain).ok
  {
    var current := Lookup(bindings, agent);
    for i := 0 to |chain|
      invariant BindingRun(agent, Lookup(bindings, agent), chain).ok <==> BindingRun(agent, current, chain[i..]).ok
    {
      assert chain[i..][0] == chain[i] && chain[i..][1..] == chain[i + 1..];
      if chain[i].manifest.change.Some? {
        var change := chain[i].manifest.change.value;
        if current != Some(change.after) && current != change.before {
          return false;
        }
        current := change.before;
      }
    }
    ok := true;
  }

  // The restoration itself, newest manifest first: a binding that is already
  // restored is skipped, one nobody recorded stops the run.
  function BindingRun(agent: Agent, current: Option<Binding>, chain: seq<Link>): Run
    decreases |chain|
  {
    if chain == [] then Run([], true)
    else match chain[0].manifest.change
      case None => BindingRun(agent, current, chain[1..])
      case Some(change) =>
        if current == change.before then BindingRun(agent, current, chain[1..])
        else if current != Some(change.after) then Run([], false)
        else
          var rest := BindingRun(agent, change.before, chain[1..]);
          Run([SetBinding(agent, change.before)] + rest.writes, rest.ok)
  }

  // What the oldest manifest of the chain recorded as the binding before it.
  function OldestBefore(current: Option<Binding>, chain: seq<Link>): Option<Binding>
    decreases |chain|
  {
    if chain == [] then current
    else match chain[0].manifest.change
      case None => OldestBefore(current, chain[1..])
      case Some(change) => OldestBefore(change.before, chain[1..])
  }

  lemma SetIsLookup(bindings: map<Agent, Binding>, agent: Agent, b: Option<Binding>)
    ensures Lookup(UpdateBinding(bindings, agent, b), agent) == b
    ensures forall a :: a != agent ==> Lookup(UpdateBinding(bindings, agent, b), a) == Lookup(bindings, a)
    ensures UpdateBinding(bindings, agent, Lookup(bindings, agent)) == bindings
  {
  }

  // An accepted chain takes the agent back to the oldest recorded binding,
  // whatever the intermediate ones were, and touches nobody else's.
  lemma {:induction false} BindingRestored(d: Disk, agent: Agent, chain: seq<Link>)
    requires BindingRun(agent, Lookup(d.bindings, agent), chain).ok
    ensures var e := Replay(d, BindingRun(agent, Lookup(d.bindings, agent), chain).writes);
            && Lookup(e.bindings, agent) == OldestBefore(Lookup(d.bindings, agent), chain)
            && (forall a :: a != agent ==> Lookup(e.bindings, a) == Lookup(d.bindings, a))
            && e == d.(bindings := e.bindings)
    decreases |chain|
  {
    if chain != [] {
      var current := Lookup(d.bindings, agent);
      match chain[0].manifest.change
      case None => BindingRestored(d, agent, chain[1..]);
      case Some(change) =>
        if current == change.before {
          BindingRestored(d, agent, chain[1..]);
        } else {
          var w := SetBinding(agent, change.before);
          SetIsLookup(d.bindings, agent, change.before);
          BindingRestored(Step(d, w), agent, chain[1..]);
          var rest := BindingRun(agent, change.before, chain[1..]).writes;
          assert ([w] + rest)[1..] == rest;
        }
    }
  }

  // The rollback of the bindings runs to its end exactly if each manifest that
  // recorded one finds what it wrote or what it replaced, on the binding that
  // the newer ones lead back to.
  ghost predicate BindingsFit(current: Option<Binding>, chain: seq<Link>) {
    forall k, change :: 0 <= k < |chain| && chain[k].manifest.change == Some(change) ==>
      OldestBefore(current, chain[..k]) == change.before || OldestBefore(current, chain[..k]) == Some(change.after)
  }

  lemma {:induction false} FitLater(current: Option<Binding>, next: Option<Binding>, chain: seq<Link>)
    requires chain != [] && next == OldestBefore(current, [chain[0]])
    ensures forall k :: 0 <= k < |chain| - 1 ==> OldestBefore(current, chain[..k + 1]) == OldestBefore(next, chain[1..][..k])
  {
    forall k | 0 <= k < |chain| - 1 ensures OldestBefore(current, chain[..k + 1]) == OldestBefore(next, chain[1..][..k]) {
      assert chain[..k + 1][1..] == chain[1..][..k] && chain[..k + 1][0] == chain[0];
      assert [chain[0]][1..] == [];
    }
  }

  lemma {:induction false} BindingsFitExactly(agent: Agent, current: Option<Binding>, chain: seq<Link>)
    ensures BindingRun(agent, current, chain).ok <==> BindingsFit(current, chain)
    decreases |chain|
  {
    if chain != [] {
      var next := OldestBefore(current, [chain[0]]);
      assert [chain[0]][1..] == [];
      FitLater(current, next, chain);
      BindingsFitExactly(agent, next, chain[1..]);
      assert chain[..0] == [];
      if BindingsFit(current, chain) {
        forall k, change | 0 <= k < |chain[1..]| && chain[1..][k].manifest.change == Some(change)
          ensures OldestBefore(next, chain[1..][..k]) == change.before || OldestBefore(next, chain[1..][..k]) == Some(change.after) {
          assert chain[k + 1].manifest.change == Some(change);
        }
        assert chain[0].manifest.change.Some? ==> current == chain[0].manifest.change.value.before || current == Some(chain[0].manifest.change.value.after);
      }
      if BindingsFit(next, chain[1..]) {
        forall k, change | 1 <= k < |chain| && chain[k].manifest.change == Some(change)
          ensures OldestBefore(current, chain[..k]) == change.before || OldestBefore(current, chain[..k]) == Some(change.after) {
          assert chain[1..][k - 1].manifest.change == Some(change);
        }
      }
    }
  }

  // The oldest recorded binding is the one before the last manifest of the
  // chain that recorded any.
  lemma {:induction false} OldestIsLast(current: Option<Binding>, chain: seq<Link>, k: nat)
    requires k < |chain| && chain[k].manifest.change.Some? && forall j :: k < j < |chain| ==> chain[j].manifest.change.None?
    ensures OldestBefore(current, chain) == chain[k].manifest.change.value.before
    decreases |chain|
  {
    if k > 0 {
      var next := if chain[0].manifest.change.Some? then chain[0].manifest.change.value.before else current;
      OldestIsLast(next, chain[1..], k - 1);
    } else {
      NoneRecorded(chain[0].manifest.change.value.before, chain[1..]);
    }
  }

  lemma {:induction false} NoneRecorded(current: Option<Binding>, chain: seq<Link>)
    requires forall j :: 0 <= j < |chain| ==> chain[j].manifest.change.None?
    ensures OldestBefore(current, chain) == current
    decreases |chain|
  {
    if chain != [] {
      NoneRecorded(current, chain[1..]);
    }
  }
}
