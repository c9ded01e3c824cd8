// An unlink keeps every credential somewhere, and the log in shape, wherever
// it is cut.
module UnlinkSafety {
  import opened Wrappers
  import opened MigrationDisk
  import opened ManifestChain
  import opened ManifestLog
  import opened FileRollback
  import opened BindingRollback
  import opened CredentialHandoff
  import opened Unlink
  import opened Reconcile
  import opened LinkUndo
  import opened HandoffBacking
  import opened CutUnlink
  import opened ChainInversion
  import opened LogMarks
  import opened UnlinkCuts
  import opened CredentialSafety

  // ---- After the handoff ----

  // The agent holds every credential the gateway has or could get back from a backup.
  ghost predicate Drained(d: Disk, h: Home) {
    && ShardOwned(d.files) && Sources(d.files) <= AuthOf(d, h).Keys
    && BackupsCovered(d.files, AuthOf(d, h).Keys)
  }

  lemma DrainedIsKept(d: Disk, h: Home, chain: seq<Link>)
    requires Drained(d, h)
    ensures Kept(d, h, chain) && Covered(d, h) == AuthOf(d, h).Keys
  {
  }

  predicate OwedTo(chain: seq<Link>, h: Home) {
    forall l :: l in chain && Pending(l.manifest) ==> l.manifest.home == Some(h)
  }

  // An account the newest manifest leads to is loaded.
  lemma OwedLoaded(d: Disk, chain: seq<Link>, s: Provider)
    requires Owes(d.files, chain, s) && Homes(chain) != {} && Loaded(d, chain).Ok?
    ensures s in BySource(Loaded(d, chain).value)
  {
    var m, shard := chain[0].manifest, ShardAccounts(d.files, SHARD);
    var id :| id in m.imported && id in shard && shard[id].source == s;
    assert FindAccount(d, m, id) == Some(shard[id]);
    Collected(d, m, m.imported);
    BySourceFrom(Loaded(d, chain).value);
  }

  // A complete handoff gives the agent everything only the gateway had.
  lemma HandoffDrains(d: Disk, h: Home, chain: seq<Link>)
    requires chain != [] && HasRoutes(chain) && OwedTo(chain, h) && AllOwed(d, h, chain) && HandoffRun(d, chain).ok
    ensures Covered(d, h) <= AuthOf(Replay(d, HandoffRun(d, chain).writes), h).Keys
  {
    if exists l :: l in chain && Pending(l.manifest) {
      HandoffKeys(d, chain, h);
      var accounts := Loaded(d, chain).value;
      var l :| l in chain && Pending(l.manifest);
      assert h in Homes(chain);
      AllTargets(chain, ById(accounts), h);
      forall s | s in Sources(d.files) && s !in AuthOf(d, h) ensures s in HandedKeys(chain, accounts, h) {
        OwedLoaded(d, chain, s);
      }
    } else {
      NothingPending(chain);
      forall s | s in Sources(d.files) ensures s in AuthOf(d, h) {
        assert !Owes(d.files, chain, s);
      }
    }
  }

  // ---- Keys only ever added ----

  lemma AddedKeysKept(d: Disk, e: Disk, h: Home, chain: seq<Link>)
    requires Kept(d, h, chain) && OnlyKeysAdded(d, e)
    ensures Kept(e, h, chain) && Covered(d, h) <= Covered(e, h)
  {
    assert AuthOf(d, h).Keys <= AuthOf(e, h).Keys;
    WiderBackups(d.files, Covered(d, h), Covered(e, h));
  }

  lemma WiderBackups(files: map<Path, Content>, covered: set<Provider>, wider: set<Provider>)
    requires BackupsCovered(files, covered) && covered <= wider
    ensures BackupsCovered(files, wider)
  {
    forall n: nat | BackupOf(SHARD, n) in files ensures BackupCovered(files[BackupOf(SHARD, n)], wider) {
      assert BackupCovered(files[BackupOf(SHARD, n)], covered);
    }
  }

  // ---- Rolling back ----

  lemma {:induction false} RollbackDrained(d: Disk, h: Home, ws: seq<Write>, agent: Agent, tracked: set<Path>)
    requires Drained(d, h) && Rollback(ws, agent, tracked)
    ensures Drained(Replay(d, ws), h)
    decreases |ws|
  {
    if ws != [] {
      assert ws[0] in ws && forall w :: w in ws[1..] ==> w in ws;
      RollbackStep(d, h, ws[0], agent, tracked);
      RollbackDrained(Step(d, ws[0]), h, ws[1..], agent, tracked);
    }
  }

  lemma RollbackStep(d: Disk, h: Home, w: Write, agent: Agent, tracked: set<Path>)
    requires Drained(d, h) && IsRollback(w, agent, tracked)
    ensures Drained(Step(d, w), h)
  {
    var e := Step(d, w);
    forall n: nat ensures Lookup(e.files, BackupOf(SHARD, n)) == Lookup(d.files, BackupOf(SHARD, n)) {
    }
    BackupsStay(d, e, h, AuthOf(d, h).Keys);
    if w.CopyFile? && w.to == SHARD && w.from in d.files {
      assert w.from == BackupOf(SHARD, w.from.stamp);
      assert BackupCovered(d.files[w.from], AuthOf(d, h).Keys);
    }
  }

  // ---- Facts of the log ----

  lemma LogFacts(agent: Agent, ms: map<Path, Manifest>, p: Path, h: Home)
    requires LogShape(agent, ms) && p in ms && OwnedHome(ms, h)
    ensures HasRoutes(Log(agent, ms, p)) && OwedTo(Log(agent, ms, p), h)
  {
    LogEntries(agent, ms, p);
    forall l | l in Log(agent, ms, p) ensures Written(agent, l.path, l.manifest) && (Pending(l.manifest) ==> l.manifest.home == Some(h)) {
    }
  }

  lemma AdvancedHome(ms: map<Path, Manifest>, now: map<Path, Manifest>, h: Home, bound: nat)
    requires Advanced(ms, now, bound) && OwnedHome(ms, h)
    ensures OwnedHome(now, h)
  {
    forall p | p in now && !now[p].handoff ensures now[p].home == Some(h) {
      assert Ahead(p, ms[p], now[p], bound);
    }
  }

  // ---- Every cut ----

  // After the grants the agent holds all that the gateway does.
  lemma GrantsDrain(d: Disk, h: Home, chain: seq<Link>)
    requires Kept(d, h, chain) && chain != [] && HasRoutes(chain) && OwedTo(chain, h) && HandoffRun(d, chain).ok
    ensures Drained(Replay(d, GrantWrites(d, chain)), h)
    ensures Covered(d, h) <= AuthOf(Replay(d, GrantWrites(d, chain)), h).Keys
  {
    HandoffDrains(d, h, chain);
    HandoffSplits(d, chain);
    GrantsAddKeys(d, GrantWrites(d, chain));
    ReplayConcat(d, GrantWrites(d, chain), MarkHandoff(chain));
    MarksKeepRest(Replay(d, GrantWrites(d, chain)), chain);
    WiderBackups(d.files, Covered(d, h), AuthOf(Replay(d, GrantWrites(d, chain)), h).Keys);
  }

  lemma OverDrained(d: Disk, agent: Agent, h: Home, chain: seq<Link>, e: Disk, part: nat, bound: nat)
    requires Kept(d, h, chain) && HasRoutes(chain) && OwedTo(chain, h) && chain != [] && EntriesApart(chain) && HandoffRun(d, chain).ok
    requires HandedOver(d, Replay(d, GrantWrites(d, chain)).auths, RollbackWrites(d, agent, chain), chain, e, part, bound)
    ensures Drained(e, h) && Covered(d, h) <= Covered(e, h)
  {
    GrantsDrain(d, h, chain);
    HandoffSplits(d, chain);
    var d1 := Replay(d, GrantWrites(d, chain));
    GrantsAddKeys(d, GrantWrites(d, chain));
    RunRollsBack(d, agent, chain);
    var ws := RollbackWrites(d, agent, chain)[..part];
    assert forall w :: w in ws ==> w in RollbackWrites(d, agent, chain);
    RollbackDrained(d1, h, ws, agent, Originals(chain));
    RollbackApart(d, d1, ws, agent, Originals(chain));
  }

  lemma DrainedIsSafe(d: Disk, e: Disk, agent: Agent, h: Home, tip: Path, bound: nat)
    requires Safe(d, agent, h, Some(tip)) && Drained(e, h) && Advanced(d.manifests, e.manifests, bound)
    ensures Safe(e, agent, h, LatestNow(e.manifests, tip))
  {
    ShapeAdvanced(agent, d.manifests, e.manifests, bound);
    LatestAdvanced(d.manifests, e.manifests, tip, bound);
    AdvancedHome(d.manifests, e.manifests, h, bound);
    DrainedIsKept(e, h, Prior(agent, e.manifests, LatestNow(e.manifests, tip)));
  }

  lemma GrantsSafe(d: Disk, e: Disk, agent: Agent, h: Home, latest: Option<Path>)
    requires Safe(d, agent, h, latest) && OnlyKeysAdded(d, e)
    ensures Safe(e, agent, h, latest) && Covered(d, h) <= Covered(e, h)
  {
    AddedKeysKept(d, e, h, Prior(agent, d.manifests, latest));
  }

  lemma TipCut(d: Disk, agent: Agent, h: Home, p: Path, k: nat) returns (now: Option<Path>)
    requires Safe(d, agent, h, Some(p)) && k <= |UnlinkChain(d, agent, Log(agent, d.manifests, p)).writes|
    ensures var run := UnlinkChain(d, agent, Log(agent, d.manifests, p));
            var e := Replay(d, run.writes[..k]);
            Safe(e, agent, h, now) && Covered(d, h) <= Covered(e, h) && (run.ok && k == |run.writes| ==> Drained(e, h))
  {
    var chain := Log(agent, d.manifests, p);
    var run := UnlinkChain(d, agent, chain);
    now := Some(p);
    if !run.ok {
      ChainRefusal(d, agent, chain);
      GrantsCut(d, run.writes, k);
      GrantsSafe(d, Replay(d, run.writes[..k]), agent, h, Some(p));
    } else {
      LogUnlinkable(agent, d.manifests, p);
      LogFacts(agent, d.manifests, p, h);
      var part, bound := CutReaches(d, agent, chain, k);
      var e := Replay(d, run.writes[..k]);
      if k < |GrantWrites(d, chain)| {
        GrantsSafe(d, e, agent, h, Some(p));
      } else {
        OverDrained(d, agent, h, chain, e, part, bound);
        DrainedIsSafe(d, e, agent, h, p, bound);
        now := LatestNow(e.manifests, p);
      }
    }
  }

  // One unlink of any stored manifest, cut anywhere.
  lemma UnlinkCut(d: Disk, agent: Agent, h: Home, latest: Option<Path>, root: Option<string>, p: Path, k: nat) returns (now: Option<Path>)
    requires Safe(d, agent, h, latest) && k <= |UnlinkRun(d, agent, root, p).writes|
    ensures var run := UnlinkRun(d, agent, root, p);
            var e := Replay(d, run.writes[..k]);
            Safe(e, agent, h, now) && Covered(d, h) <= Covered(e, h) && (run.ok && k == |run.writes| ==> Drained(e, h))
  {
    if latest != Some(p) {
      OnlyTipUnlinks(d, agent, root, p, latest);
      now := latest;
    } else {
      TipRun(d, agent, root, p);
      now := TipCut(d, agent, h, p, k);
    }
  }
}
