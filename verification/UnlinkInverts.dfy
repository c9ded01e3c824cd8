// Unlink inverts a whole history of links and syncs, the last one cut anywhere.
module UnlinkInverts {
  import opened Wrappers
  import opened MigrationDisk
  import opened ManifestChain
  import opened ManifestLog
  import opened FileRollback
  import opened BindingRollback
  import opened CredentialHandoff
  import opened Unlink
  import opened Reconcile
  import opened ReconcileCuts
  import opened LinkUndo
  import opened HandoffBacking
  import opened ReconcileCompletes
  import opened CutUnlink
  import opened ChainInversion
  import opened CutCredentials

  // ---- Completed links in a row ----

  function AfterLinks(d: Disk, plans: seq<Plan>): Disk
    decreases |plans|
  {
    if plans == [] then d else AfterLinks(Replay(d, ApplyRun(d, plans[0]).writes), plans[1..])
  }

  // Each plan is made for the disk its predecessors leave.
  ghost predicate Links(d: Disk, agent: Agent, h: Home, plans: seq<Plan>)
    decreases |plans|
  {
    plans != [] ==>
      && plans[0].agent == agent && plans[0].home == h
      && Planned(d, plans[0])
      && Links(Replay(d, ApplyRun(d, plans[0]).writes), agent, h, plans[1..])
  }

  lemma PlannedNext(base: Disk, d: Disk, agent: Agent, h: Home, latest: Option<Path>, plan: Plan)
    requires Undoable(base, d, agent, h, latest) && Planned(d, plan)
    ensures plan.previous == latest
  {
    LatestUnique(d.manifests, plan.previous, latest);
  }

  lemma OneLink(base: Disk, d: Disk, h: Home, latest: Option<Path>, plan: Plan)
    requires Undoable(base, d, plan.agent, h, latest) && Planned(d, plan) && plan.home == h
    ensures Undoable(base, Replay(d, ApplyRun(d, plan).writes), plan.agent, h, Some(ManifestAt(plan.stamp)))
  {
    PlannedNext(base, d, plan.agent, h, latest, plan);
    LinkCompletes(d, plan);
    CompleteReached(d, plan);
    LinkKeepsUndoable(base, d, plan, Replay(d, ApplyRun(d, plan).writes), LastManifest(d, plan).(completed := true));
  }

  lemma {:induction false} LinksKeepUndoable(base: Disk, d: Disk, agent: Agent, h: Home, before: Option<Path>, plans: seq<Plan>)
    returns (latest: Option<Path>)
    requires Undoable(base, d, agent, h, before) && Links(d, agent, h, plans)
    ensures Undoable(base, AfterLinks(d, plans), agent, h, latest)
    decreases |plans|
  {
    if plans == [] {
      return before;
    }
    OneLink(base, d, h, before, plans[0]);
    latest := LinksKeepUndoable(base, Replay(d, ApplyRun(d, plans[0]).writes), agent, h, Some(ManifestAt(plans[0].stamp)), plans[1..]);
  }

  // ---- Every cut of a run, its completion included ----

  // The path whose write the cut separates from its checkpoint, if any.
  function GapOf(d: Disk, plan: Plan, k: nat): Option<Path>
    requires |Opening(d, plan)| <= k
  {
    if k <= |Opening(d, plan) + Body(d, plan)| then CutGap(d, plan, k) else None
  }

  lemma AnyCutReached(d: Disk, plan: Plan, k: nat) returns (m: Manifest)
    requires Planned(d, plan) && |Opening(d, plan)| <= k <= |ApplyRun(d, plan).writes|
    ensures Tidy(plan) && Mid(d, plan, Replay(d, ApplyRun(d, plan).writes[..k]), m, GapOf(d, plan, k))
  {
    var ws := Opening(d, plan) + Body(d, plan);
    if k <= |ws| {
      assert ApplyRun(d, plan).writes[..k] == ws[..k];
      m := CutReached(d, plan, k);
    } else {
      CompleteReached(d, plan);
      m := LastManifest(d, plan).(completed := true);
      assert ApplyRun(d, plan).writes[..k] == ApplyRun(d, plan).writes;
    }
  }

  // A cut between writing a changed file other than the shard and its checkpoint.
  predicate InGap(d: Disk, plan: Plan, k: nat)
    requires |Opening(d, plan)| <= k <= |ApplyRun(d, plan).writes|
  {
    var gap := GapOf(d, plan, k);
    gap.Some? && gap.value != SHARD
    && Lookup(Replay(d, ApplyRun(d, plan).writes[..k]).files, gap.value) != Lookup(d.files, gap.value)
  }

  // ---- The result ----

  // Everything the agent and its user see is as it was in `base`, and no
  // manifest is active.
  ghost predicate Unmigrated(base: Disk, f: Disk) {
    && SameFiles(f.files, base.files)
    && (forall a :: Lookup(f.bindings, a) == Lookup(base.bindings, a))
    && (forall h :: AuthOf(f, h) == AuthOf(base, h))
    && NoneActive(f.manifests)
  }

  lemma AllUnlinked(agent: Agent, before: map<Path, Manifest>, after: map<Path, Manifest>, tip: Path)
    requires LogShape(agent, before) && IsLatest(before, tip)
    requires forall l :: l in Log(agent, before, tip) ==> l.path in after && after[l.path].unlinked
    requires forall p :: p !in Paths(Log(agent, before, tip)) ==> Lookup(after, p) == Lookup(before, p)
    ensures NoneActive(after)
  {
    forall q ensures !Active(after, q) {
      if q !in Paths(Log(agent, before, tip)) {
        assert Lookup(after, q) == Lookup(before, q);
        if Active(before, q) {
          ActiveInLog(agent, before, tip, q);
        }
      }
    }
  }

  // From an undoable state, one more run cut at any write after its manifest:
  // unlink takes everything back, unless the cut is in a gap; then it refuses
  // and writes nothing.
  lemma UndoCut(base: Disk, d: Disk, plan: Plan, k: nat, root: Option<string>)
    requires Undoable(base, d, plan.agent, plan.home, plan.previous) && Planned(d, plan)
    requires |Opening(d, plan)| <= k <= |ApplyRun(d, plan).writes|
    ensures var e := Replay(d, ApplyRun(d, plan).writes[..k]);
            var run := UnlinkRun(e, plan.agent, root, ManifestAt(plan.stamp));
            && (run.ok <==> !InGap(d, plan, k))
            && (!run.ok ==> run.writes == [])
            && (run.ok ==> Unmigrated(base, Replay(e, run.writes)))
  {
    var e := Replay(d, ApplyRun(d, plan).writes[..k]);
    var m := AnyCutReached(d, plan, k);
    PlanContinues(base, d, plan, plan.home);
    GapMeansOpen(d, plan, k, e, m);
    UndoMid(base, d, plan, e, m, GapOf(d, plan, k), root);
  }

  lemma UndoMid(base: Disk, d: Disk, plan: Plan, e: Disk, m: Manifest, gap: Option<Path>, root: Option<string>)
    requires Undoable(base, d, plan.agent, plan.home, plan.previous) && Linkable(d, plan) && Continues(d, plan, PriorOf(d, plan))
    requires Tidy(plan) && Mid(d, plan, e, m, gap)
    ensures var run := UnlinkRun(e, plan.agent, root, ManifestAt(plan.stamp));
            && (run.ok <==> !OpenGap(d.files, e.files, gap, m.shard))
            && (!run.ok ==> run.writes == [])
            && (run.ok ==> Unmigrated(base, Replay(e, run.writes)))
  {
    CutUnlinks(d, plan, e, m, gap, root);
    CutLog(d, plan, e, m, gap, root);
    var run := UnlinkRun(e, plan.agent, root, ManifestAt(plan.stamp));
    if run.ok {
      LogNames(plan.agent, e.manifests, ManifestAt(plan.stamp));
      CutKeysReturn(base, d, plan, e, m, gap, PriorOf(d, plan));
      KeysUndone(base, e, plan.agent, ChainAt(d, plan, m));
      var f := Replay(e, run.writes);
      FilesUndone(base, d, plan, PriorOf(d, plan), f);
      LogUndone(d, plan, PriorOf(d, plan), e.manifests, f);
    }
  }

  lemma GapMeansOpen(d: Disk, plan: Plan, k: nat, e: Disk, m: Manifest)
    requires |Opening(d, plan)| <= k <= |ApplyRun(d, plan).writes| && e == Replay(d, ApplyRun(d, plan).writes[..k])
    requires Tidy(plan) && Mid(d, plan, e, m, GapOf(d, plan, k))
    ensures OpenGap(d.files, e.files, GapOf(d, plan, k), m.shard) <==> InGap(d, plan, k)
  {
    HeaderOf(d, plan, m);
  }

  lemma KeysUndone(base: Disk, e: Disk, agent: Agent, chain: seq<Link>)
    requires UnlinkChain(e, agent, chain).ok
    requires forall i, j :: 0 <= i < j < |chain| ==> chain[i].path != chain[j].path
    requires forall h :: AuthOf(Replay(e, HandoffRun(e, chain).writes), h) == AuthOf(base, h)
    ensures forall h :: AuthOf(Replay(e, UnlinkChain(e, agent, chain).writes), h) == AuthOf(base, h)
  {
    UnlinkOutcome(e, agent, chain);
  }

  lemma FilesUndone(base: Disk, d: Disk, plan: Plan, prior: seq<Link>, f: Disk)
    requires FilesUndo(base, d, prior) && BindingUndo(base, d, plan.agent, prior) && Undone(d, plan, prior, f)
    ensures SameFiles(f.files, base.files) && forall a :: Lookup(f.bindings, a) == Lookup(base.bindings, a)
  {
    forall p: Path | !p.BackupOf? ensures Lookup(f.files, p) == Lookup(base.files, p) {
      assert !FreshBackup(p, plan.stamp);
    }
  }

  lemma LogUndone(d: Disk, plan: Plan, prior: seq<Link>, now: map<Path, Manifest>, f: Disk)
    requires LogShape(plan.agent, now) && IsLatest(now, ManifestAt(plan.stamp)) && Undone(d, plan, prior, f)
    requires exists m :: now == d.manifests[ManifestAt(plan.stamp) := m]
                      && Log(plan.agent, now, ManifestAt(plan.stamp)) == [Link(ManifestAt(plan.stamp), m)] + prior
    ensures NoneActive(f.manifests)
  {
    var m :| now == d.manifests[ManifestAt(plan.stamp) := m]
          && Log(plan.agent, now, ManifestAt(plan.stamp)) == [Link(ManifestAt(plan.stamp), m)] + prior;
    assert Paths([Link(ManifestAt(plan.stamp), m)] + prior) == {ManifestAt(plan.stamp)} + Paths(prior);
    AllUnlinked(plan.agent, now, f.manifests, ManifestAt(plan.stamp));
  }

  // The whole history: links and syncs `plans` from a disk with nothing
  // linked, then `plan` cut at `k`, then unlink.
  lemma UnlinkInvertsHistory(base: Disk, agent: Agent, plans: seq<Plan>, plan: Plan, k: nat, root: Option<string>)
    requires LogShape(agent, base.manifests) && NoneActive(base.manifests)
    requires MovesCredentials(agent) ==> ShardOwned(base.files)
    requires plan.agent == agent && Links(base, agent, plan.home, plans) && Planned(AfterLinks(base, plans), plan)
    requires var d := AfterLinks(base, plans); |Opening(d, plan)| <= k <= |ApplyRun(d, plan).writes|
    ensures var d := AfterLinks(base, plans);
            var e := Replay(d, ApplyRun(d, plan).writes[..k]);
            var run := UnlinkRun(e, agent, root, ManifestAt(plan.stamp));
            && (run.ok <==> !InGap(d, plan, k))
            && (!run.ok ==> run.writes == [])
            && (run.ok ==> Unmigrated(base, Replay(e, run.writes)))
  {
    var d := AfterLinks(base, plans);
    NothingLinked(base, agent, plan.home);
    var latest := LinksKeepUndoable(base, base, agent, plan.home, None, plans);
    PlannedNext(base, d, agent, plan.home, latest, plan);
    UndoCut(base, d, plan, k, root);
  }

  // ---- Cuts before the manifest ----

  // The stray backup copies such a cut leaves change nothing about what any
  // unlink does.
  lemma StrayBackups(d: Disk, plan: Plan, k: nat, agent: Agent, root: Option<string>, p: Path)
    requires LogShape(agent, d.manifests) && p in d.manifests && Planned(d, plan) && k < |Opening(d, plan)|
    ensures UnlinkRun(Replay(d, Opening(d, plan)[..k]), agent, root, p) == UnlinkRun(d, agent, root, p)
  {
    OpeningCut(d, plan, k);
    assert Written(agent, p, d.manifests[p]);
    StrayAgrees(d, Replay(d, Opening(d, plan)[..k]), plan.stamp, agent, root, p);
  }

  lemma StrayAgrees(d: Disk, e: Disk, stamp: nat, agent: Agent, root: Option<string>, p: Path)
    requires LogShape(agent, d.manifests) && p in d.manifests && p.stamp < stamp
    requires e == d.(files := e.files) && AgreeOff(d.files, e.files, stamp)
    requires d.manifests[p].shard.Some? ==> d.manifests[p].shard.value == SHARD
    ensures UnlinkRun(e, agent, root, p) == UnlinkRun(d, agent, root, p)
  {
    LogIsChain(agent, d.manifests, root, p);
    LogOlder(agent, d.manifests, p, stamp);
    ChainAgrees(d.files, e.files, Log(agent, d.manifests, p), stamp);
    HandoffAgrees(d, e, Log(agent, d.manifests, p));
  }

  lemma HandoffAgrees(d: Disk, e: Disk, chain: seq<Link>)
    requires chain != [] && e == d.(files := e.files)
    requires chain[0].manifest.shard.Some? ==> Lookup(d.files, chain[0].manifest.shard.value) == Lookup(e.files, chain[0].manifest.shard.value)
    ensures HandoffRun(e, chain) == HandoffRun(d, chain)
  {
    var m := chain[0].manifest;
    forall id ensures FindAccount(e, m, id) == FindAccount(d, m, id) {
    }
    CollectAgrees(d, e, m, m.imported);
    forall r ensures RouteRestorable(d, m, r) <==> RouteRestorable(e, m, r) {
    }
    assert Loaded(e, chain) == Loaded(d, chain);
    if Loaded(d, chain).Ok? {
      var accounts := Loaded(d, chain).value;
      GrantsAgree(d, e, chain, ById(accounts), BySource(accounts), RequiresCredentials(m), Ascending(Homes(chain)));
    }
  }

  lemma {:induction false} CollectAgrees(d: Disk, e: Disk, m: Manifest, ids: seq<AccountId>)
    requires forall id :: FindAccount(e, m, id) == FindAccount(d, m, id)
    ensures CollectAccounts(e, m, ids) == CollectAccounts(d, m, ids)
  {
    if ids != [] {
      CollectAgrees(d, e, m, ids[1..]);
    }
  }

  lemma {:induction false} GrantsAgree(d: Disk, e: Disk, chain: seq<Link>, byId: map<AccountId, Account>,
                                       bySource: map<Provider, Account>, required: bool, homes: seq<Home>)
    requires e.auths == d.auths
    ensures GrantRun(e, chain, byId, bySource, required, homes) == GrantRun(d, chain, byId, bySource, required, homes)
  {
    if homes != [] {
      GrantsAgree(d, e, chain, byId, bySource, required, homes[1..]);
      assert forall h :: AuthOf(e, h) == AuthOf(d, h);
    }
  }
}
