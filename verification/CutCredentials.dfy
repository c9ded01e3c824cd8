// The agent's keys after unlinking a chain whose newest link was cut anywhere.
module CutCredentials {
  import opened Wrappers
  import opened MigrationDisk
  import opened CredentialHandoff
  import opened Reconcile
  import opened ReconcileCuts
  import opened HandoffBacking
  import opened CutHandoff
  import opened CutUnlink
  import opened ChainInversion

  lemma AgentMeets(base: Disk, d: Disk, plan: Plan, e: Disk, m: Manifest, prior: seq<Link>)
    requires Imports(d, plan) && Moves(plan) && Backed(d, plan.agent, prior) && ManifestOf(plan, m) && (!Pending(m) ==> plan.transferred == {})
    requires KeysUndo(base, d, prior, plan.home) && KeysCut(d, plan, e) && ShardAt(d, plan, e, m)
    ensures LoadTransferred(e, m).Ok? ==>
              KeysMeet(base, e, PendingSources([Link(ManifestAt(plan.stamp), m)] + prior), LoadTransferred(e, m).value, plan.home)
  {
    var saved := SavedShard(ShardAccounts(d.files, SHARD), plan.imported);
    if Lookup(e.files, SHARD) == Some(Accounts(saved)) {
      LoadedWhenSaved(d, plan, e, m);
      MeetWhenSaved(base, d, plan, e, m, prior, LoadTransferred(e, m).value);
    } else {
      LoadedWhenUnsaved(d, e, m);
      StillLoaded(d, plan, e, m);
      MeetWhenUnsaved(base, d, plan, e, m, prior, LoadTransferred(e, m).value);
    }
  }

  lemma OwedHome(chain: seq<Link>)
    requires HasRoutes(chain) && exists l :: l in chain && Pending(l.manifest)
    ensures Homes(chain) != {}
  {
    var l :| l in chain && Pending(l.manifest);
    assert l.manifest.home.value in Homes(chain);
  }

  lemma AgentKeysReturned(base: Disk, d: Disk, plan: Plan, e: Disk, m: Manifest, prior: seq<Link>)
    requires Imports(d, plan) && Moves(plan) && Backed(d, plan.agent, prior) && ManifestOf(plan, m) && (!Pending(m) ==> plan.transferred == {})
    requires KeysUndo(base, d, prior, plan.home) && KeysCut(d, plan, e) && ShardAt(d, plan, e, m)
    requires HasRoutes([Link(ManifestAt(plan.stamp), m)] + prior)
    requires HandoffRun(e, [Link(ManifestAt(plan.stamp), m)] + prior).ok
    ensures forall k :: AuthOf(Replay(e, HandoffRun(e, [Link(ManifestAt(plan.stamp), m)] + prior).writes), k) == AuthOf(base, k)
  {
    var chain := [Link(ManifestAt(plan.stamp), m)] + prior;
    assert forall l :: l in chain <==> l == chain[0] || l in prior;
    if exists l :: l in chain && Pending(l.manifest) {
      OwedHome(chain);
      AgentMeets(base, d, plan, e, m, prior);
      assert Loaded(e, chain) == LoadTransferred(e, m);
      KeysReturned(base, e, chain, plan.home);
    } else {
      assert !Pending(chain[0].manifest);
      SameKeys(d, plan, e);
      NoneOwed(base, d, e, prior, chain, plan.home);
    }
  }

  // Wherever the newest link was cut, the complete handoff leaves every home
  // with exactly the keys it had before the first link.
  lemma CutKeysReturn(base: Disk, d: Disk, plan: Plan, e: Disk, m: Manifest, dirty: Option<Path>, prior: seq<Link>)
    requires Tidy(plan) && Mid(d, plan, e, m, dirty) && Continues(d, plan, prior) && KeysUndo(base, d, prior, plan.home)
    requires TakesOver(d, plan)
    ensures forall k :: AuthOf(Replay(e, HandoffRun(e, [Link(ManifestAt(plan.stamp), m)] + prior).writes), k) == AuthOf(base, k)
  {
    var chain := [Link(ManifestAt(plan.stamp), m)] + prior;
    HeaderOf(d, plan, m);
    CutKeys(d, plan, e, m);
    CutHandsOff(d, plan, e, m, dirty, prior);
    RoutesAfter(m, chain[0], prior);
    if Moves(plan) {
      MergedImports(d, plan);
      ShardOfMid(d, plan, e, m, dirty);
      OwedIsOwned(d, plan, m);
      AgentKeysReturned(base, d, plan, e, m, prior);
    } else {
      assert forall l :: l in chain <==> l == chain[0] || l in prior;
      SameKeys(d, plan, e);
      NoneOwed(base, d, e, prior, chain, plan.home);
    }
  }
}
