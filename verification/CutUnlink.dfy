// Unlinking a link or sync that was cut anywhere after its manifest was
// written, or that was completed.
module CutUnlink {
  import opened Wrappers
  import opened MigrationDisk
  import opened ManifestChain
  import opened ManifestLog
  import opened FileRollback
  import opened BindingRollback
  import opened CredentialHandoff
  import opened Unlink
  import opened Reconcile
  import opened ReconcileCuts
  import opened LinkUndo
  import opened HandoffBacking
  import opened CutHandoff

  // ---- The log a cut leaves ----

  ghost predicate Linkable(d: Disk, plan: Plan) {
    LogShape(plan.agent, d.manifests) && Planned(d, plan)
  }

  function PriorOf(d: Disk, plan: Plan): seq<Link>
    requires Linkable(d, plan)
  {
    Prior(plan.agent, d.manifests, plan.previous)
  }

  function ChainAt(d: Disk, plan: Plan, m: Manifest): seq<Link>
    requires Linkable(d, plan)
  {
    [Link(ManifestAt(plan.stamp), m)] + PriorOf(d, plan)
  }

  lemma TipHasNoSuccessor(agent: Agent, ms: map<Path, Manifest>, root: Option<string>, tip: Path)
    requires LogShape(agent, ms) && IsLatest(ms, tip)
    ensures !HasActiveSuccessor(ms, agent, root, tip)
  {
    forall q | q in ms && Active(ms, q) && q != tip ensures !Succeeds(ms, agent, root, tip, q) {
      LogIsChain(agent, ms, root, q);
      LogEntries(agent, ms, q);
      assert q.stamp < tip.stamp;
    }
  }

  // The parts of the cut invariant that concern the manifest.
  predicate Header(d: Disk, plan: Plan, m: Manifest) {
    var first := FirstManifest(d, plan);
    && m == first.(files := m.files, change := m.change, completed := m.completed)
    && m.change.Some? && m.change == Some(first.change.value.(applied := m.change.value.applied))
  }

  lemma StampsBelow(d: Disk, plan: Plan)
    requires LogShape(plan.agent, d.manifests)
    requires forall p :: p in d.manifests && p.ManifestAt? ==> p.stamp < plan.stamp
    ensures forall p :: p in d.manifests ==> p.ManifestAt? && p.stamp < plan.stamp
  {
    forall p | p in d.manifests ensures p.ManifestAt? {
      assert Written(plan.agent, p, d.manifests[p]);
    }
  }

  lemma MidWritten(d: Disk, plan: Plan, e: Disk, m: Manifest, dirty: Option<Path>)
    requires Tidy(plan) && Header(d, plan, m) && FilesMid(d.files, plan, e.files, m.files, dirty) && TakesOver(d, plan)
    requires plan.previous.Some? ==> plan.previous.value.ManifestAt?
    ensures Written(plan.agent, ManifestAt(plan.stamp), m) && !m.unlinked
  {
    MidEntries(d.files, plan, e.files, m.files, dirty);
    NewManifestWritten(d, plan, m);
  }

  lemma LatestIsManifest(ms: map<Path, Manifest>, r: Option<Path>)
    requires LatestIs(ms, r)
    ensures r.Some? ==> r.value.ManifestAt? && r.value in ms && !ms[r.value].unlinked
  {
  }

  lemma CutLog(d: Disk, plan: Plan, e: Disk, m: Manifest, dirty: Option<Path>, root: Option<string>)
    requires Linkable(d, plan) && Tidy(plan) && Mid(d, plan, e, m, dirty)
    ensures LogShape(plan.agent, e.manifests) && IsLatest(e.manifests, ManifestAt(plan.stamp))
    ensures Log(plan.agent, e.manifests, ManifestAt(plan.stamp)) == ChainAt(d, plan, m)
    ensures ManifestChainOf(e.manifests, plan.agent, root, ManifestAt(plan.stamp)) == Ok(ChainAt(d, plan, m))
    ensures !HasActiveSuccessor(e.manifests, plan.agent, root, ManifestAt(plan.stamp))
  {
    var tip := ManifestAt(plan.stamp);
    LatestIsManifest(d.manifests, plan.previous);
    MidWritten(d, plan, e, m, dirty);
    StampsBelow(d, plan);
    LogExtended(plan.agent, d.manifests, tip, m);
    LogIsChain(plan.agent, e.manifests, root, tip);
    TipHasNoSuccessor(plan.agent, e.manifests, root, tip);
  }

  lemma PriorOlder(d: Disk, plan: Plan)
    requires Linkable(d, plan)
    ensures OlderThan(PriorOf(d, plan), plan.stamp)
  {
    if plan.previous.Some? {
      LatestIsManifest(d.manifests, plan.previous);
      LogOlder(plan.agent, d.manifests, plan.previous.value, plan.stamp);
    }
  }

  // ---- Files and bindings at a cut ----

  lemma CutFiles(d: Disk, plan: Plan, e: Disk, m: Manifest, dirty: Option<Path>, prior: seq<Link>)
    requires Tidy(plan) && FilesMid(d.files, plan, e.files, m.files, dirty) && m.version == CURRENT_VERSION
    requires OlderThan(prior, plan.stamp)
    ensures var chain := [Link(ManifestAt(plan.stamp), m)] + prior;
            && (RollbackIsSafe(e.files, chain) <==> !OpenGap(d.files, e.files, dirty, m.shard) && RollbackIsSafe(d.files, prior))
            && AgreeOff(RestoreChain(e.files, chain), RestoreChain(d.files, prior), plan.stamp)
  {
    var chain := [Link(ManifestAt(plan.stamp), m)] + prior;
    assert chain[1..] == prior;
    MidAccepted(d.files, plan, e.files, m, dirty);
    MidRestores(d.files, plan, e.files, m.files, dirty);
    ChainAgrees(RestoreEntries(e.files, m.files), d.files, prior, plan.stamp);
  }

  lemma CutBinding(agent: Agent, before: Option<Binding>, after: Binding, current: Option<Binding>, l: Link, prior: seq<Link>)
    requires l.manifest.change.Some? && l.manifest.change.value.before == before && l.manifest.change.value.after == after
    requires current == before || current == Some(after)
    ensures BindingRun(agent, current, [l] + prior).ok <==> BindingRun(agent, before, prior).ok
    ensures OldestBefore(current, [l] + prior) == OldestBefore(before, prior)
  {
    assert ([l] + prior)[1..] == prior;
  }

  // ---- The handoff at a cut ----

  // What holds of the chain a link continues, besides its shape.
  ghost predicate Continues(d: Disk, plan: Plan, prior: seq<Link>) {
    Backed(d, plan.agent, prior) && (!Moves(plan) ==> HandedOff(prior))
  }

  lemma HeaderOf(d: Disk, plan: Plan, m: Manifest)
    requires Header(d, plan, m)
    ensures plan.source.FromAgent? ==> ManifestOf(plan, m)
    ensures (forall r :: r in plan.routes ==> !r.transfer) ==> m.handoff
    ensures m.version == CURRENT_VERSION && m.agent == plan.agent && m.shard == (if plan.source.FromAgent? then Some(SHARD) else None)
    ensures Pending(m) ==> m.home.Some? && m.routes != []
  {
    if m.home.Some? {
      assert Transfers(plan);
    }
  }

  lemma CutHandsOff(d: Disk, plan: Plan, e: Disk, m: Manifest, dirty: Option<Path>, prior: seq<Link>)
    requires Tidy(plan) && Mid(d, plan, e, m, dirty) && Continues(d, plan, prior)
    requires TakesOver(d, plan)
    ensures HandoffRun(e, [Link(ManifestAt(plan.stamp), m)] + prior).ok
  {
    var chain := [Link(ManifestAt(plan.stamp), m)] + prior;
    HeaderOf(d, plan, m);
    assert forall l :: l in chain <==> l == chain[0] || l in prior;
    if Moves(plan) {
      MergedImports(d, plan);
      ShardOfMid(d, plan, e, m, dirty);
      CutHandoffAgent(d, plan, e, m, prior);
    } else {
      assert forall l :: l in chain ==> l.manifest.handoff;
    }
  }

  // ---- The result ----

  // Unlink undoes a cut link exactly when the rollback of the chain before it
  // was safe and the cut is not between a write that changed a file and its
  // checkpoint. Otherwise it refuses and writes nothing at all.
  lemma CutUnlinks(d: Disk, plan: Plan, e: Disk, m: Manifest, dirty: Option<Path>, root: Option<string>)
    requires Linkable(d, plan) && Tidy(plan) && Mid(d, plan, e, m, dirty) && Continues(d, plan, PriorOf(d, plan))
    ensures var run := UnlinkRun(e, plan.agent, root, ManifestAt(plan.stamp));
            var prior := PriorOf(d, plan);
            && (run.ok <==>
                  && !OpenGap(d.files, e.files, dirty, m.shard)
                  && RollbackIsSafe(d.files, prior)
                  && BindingRun(plan.agent, Lookup(d.bindings, plan.agent), prior).ok)
            && (!run.ok ==> run.writes == [])
            && (run.ok ==> Undone(d, plan, prior, Replay(e, run.writes)))
  {
    var prior, chain := PriorOf(d, plan), ChainAt(d, plan, m);
    CutLog(d, plan, e, m, dirty, root);
    CutRun(d, plan, e, m, dirty, prior);
    if UnlinkChain(e, plan.agent, chain).ok {
      LogNames(plan.agent, e.manifests, ManifestAt(plan.stamp));
      CutUndone(d, plan, e, m, prior);
    }
  }

  lemma CutRun(d: Disk, plan: Plan, e: Disk, m: Manifest, dirty: Option<Path>, prior: seq<Link>)
    requires Linkable(d, plan) && Tidy(plan) && Mid(d, plan, e, m, dirty) && Continues(d, plan, prior) && prior == PriorOf(d, plan)
    ensures var chain := [Link(ManifestAt(plan.stamp), m)] + prior;
            var run := UnlinkChain(e, plan.agent, chain);
            && (run.ok <==>
                  && !OpenGap(d.files, e.files, dirty, m.shard)
                  && RollbackIsSafe(d.files, prior)
                  && BindingRun(plan.agent, Lookup(d.bindings, plan.agent), prior).ok)
            && (!run.ok ==> run.writes == [])
            && SameUndo(d, plan, e, chain, prior)
  {
    PriorOlder(d, plan);
    HeaderOf(d, plan, m);
    CutFiles(d, plan, e, m, dirty, prior);
    CutBindings(d, plan, e, m, dirty, prior);
    CutHandsOff(d, plan, e, m, dirty, prior);
  }

  // Rolling the whole chain back at the cut matches rolling the rest back before it.
  ghost predicate SameUndo(d: Disk, plan: Plan, e: Disk, chain: seq<Link>, prior: seq<Link>) {
    && AgreeOff(RestoreChain(e.files, chain), RestoreChain(d.files, prior), plan.stamp)
    && OldestBefore(Lookup(e.bindings, plan.agent), chain) == OldestBefore(Lookup(d.bindings, plan.agent), prior)
    && (forall a :: a != plan.agent ==> Lookup(e.bindings, a) == Lookup(d.bindings, a))
  }

  lemma CutUndone(d: Disk, plan: Plan, e: Disk, m: Manifest, prior: seq<Link>)
    requires var chain := [Link(ManifestAt(plan.stamp), m)] + prior;
             && UnlinkChain(e, plan.agent, chain).ok && SameUndo(d, plan, e, chain, prior)
             && (forall i, j :: 0 <= i < j < |chain| ==> chain[i].path != chain[j].path)
    requires e.manifests == d.manifests[ManifestAt(plan.stamp) := m]
    ensures Undone(d, plan, prior, Replay(e, UnlinkChain(e, plan.agent, [Link(ManifestAt(plan.stamp), m)] + prior).writes))
  {
    var chain := [Link(ManifestAt(plan.stamp), m)] + prior;
    UnlinkOutcome(e, plan.agent, chain);
    var f := Replay(e, UnlinkChain(e, plan.agent, chain).writes);
    UndoneMarks(d, plan, e, m, prior, f);
  }

  // The marks of the whole chain, seen from before the cut run.
  lemma UndoneMarks(d: Disk, plan: Plan, e: Disk, m: Manifest, prior: seq<Link>, f: Disk)
    requires var chain := [Link(ManifestAt(plan.stamp), m)] + prior;
             && (forall l :: l in chain ==> l.path in f.manifests && f.manifests[l.path] == Marked(l.manifest))
             && (forall p :: p !in Paths(chain) ==> Lookup(f.manifests, p) == Lookup(e.manifests, p))
    requires e.manifests == d.manifests[ManifestAt(plan.stamp) := m]
    ensures forall l :: l in prior ==> l.path in f.manifests && f.manifests[l.path].unlinked
    ensures ManifestAt(plan.stamp) in f.manifests && f.manifests[ManifestAt(plan.stamp)].unlinked
    ensures forall p :: p !in Paths(prior) && p != ManifestAt(plan.stamp) ==> Lookup(f.manifests, p) == Lookup(d.manifests, p)
  {
    var chain := [Link(ManifestAt(plan.stamp), m)] + prior;
    assert chain[0] in chain && forall l :: l in prior ==> l in chain;
    assert Paths(chain) == {ManifestAt(plan.stamp)} + Paths(prior);
  }

  lemma CutBindings(d: Disk, plan: Plan, e: Disk, m: Manifest, dirty: Option<Path>, prior: seq<Link>)
    requires Mid(d, plan, e, m, dirty)
    ensures var chain := [Link(ManifestAt(plan.stamp), m)] + prior;
            && (BindingRun(plan.agent, Lookup(e.bindings, plan.agent), chain).ok
                <==> BindingRun(plan.agent, Lookup(d.bindings, plan.agent), prior).ok)
            && OldestBefore(Lookup(e.bindings, plan.agent), chain) == OldestBefore(Lookup(d.bindings, plan.agent), prior)
            && (forall a :: a != plan.agent ==> Lookup(e.bindings, a) == Lookup(d.bindings, a))
  {
    SetIsLookup(d.bindings, plan.agent, Some(plan.binding));
    CutBinding(plan.agent, Lookup(d.bindings, plan.agent), plan.binding, Lookup(e.bindings, plan.agent), Link(ManifestAt(plan.stamp), m), prior);
  }

  // Unlinking the cut run left what unlinking its predecessors would have
  // left, the fresh backup copies apart.
  ghost predicate Undone(d: Disk, plan: Plan, prior: seq<Link>, f: Disk) {
    && AgreeOff(f.files, RestoreChain(d.files, prior), plan.stamp)
    && Lookup(f.bindings, plan.agent) == OldestBefore(Lookup(d.bindings, plan.agent), prior)
    && (forall a :: a != plan.agent ==> Lookup(f.bindings, a) == Lookup(d.bindings, a))
    && (forall l :: l in prior ==> l.path in f.manifests && f.manifests[l.path].unlinked)
    && ManifestAt(plan.stamp) in f.manifests && f.manifests[ManifestAt(plan.stamp)].unlinked
    && (forall p :: p !in Paths(prior) && p != ManifestAt(plan.stamp) ==> Lookup(f.manifests, p) == Lookup(d.manifests, p))
  }

  lemma {:induction false} LogNames(agent: Agent, ms: map<Path, Manifest>, p: Path)
    requires LogShape(agent, ms) && p in ms
    ensures forall i, j :: 0 <= i < j < |Log(agent, ms, p)| ==> Log(agent, ms, p)[i].path != Log(agent, ms, p)[j].path
    decreases p.stamp
  {
    var log := Log(agent, ms, p);
    match ms[p].previous
    case None =>
    case Some(q) =>
      LogNames(agent, ms, q);
      LogEntries(agent, ms, p);
      var rest := Log(agent, ms, q);
      assert log[1..] == rest;
      forall i, j | 0 <= i < j < |log| ensures log[i].path != log[j].path {
        assert log[j] == rest[j - 1] && log[j] in log[1..];
        if i > 0 {
          assert log[i] == rest[i - 1];
        }
      }
  }
}
