// What a completed link strips, and why a link must not replace an account
// another home waits for: with two homes an unlink can lose a key.
module HomesMatter {
  import opened Wrappers
  import opened MigrationDisk
  import opened ManifestChain
  import opened ManifestLog
  import opened FileRollback
  import opened BindingRollback
  import opened CredentialHandoff
  import opened Unlink
  import opened Reconcile
  import opened ReconcileCuts
  import opened LinkUndo
  import opened HandoffBacking
  import opened CutHandoff
  import opened CutUnlink
  import opened ChainInversion
  import opened UnlinkInverts
  import opened ReconcileCompletes
  import opened Holdings

  // ---- A completed link strips what it transfers ----

  lemma {:induction false} KeysAfterTasks(e: Disk, plan: Plan, m: Manifest, ts: seq<Task>)
    requires forall t :: t in ts && t.Strip? ==> t.sources == plan.transferred
    ensures var f := Replay(e, TasksWrites(plan, m, ts));
            && (forall h :: h != plan.home ==> AuthOf(f, h) == AuthOf(e, h))
            && (AuthOf(f, plan.home) == AuthOf(e, plan.home) || AuthOf(f, plan.home) == AuthOf(e, plan.home) - plan.transferred)
            && ((exists t :: t in ts && t.Strip?) ==> AuthOf(f, plan.home) == AuthOf(e, plan.home) - plan.transferred)
    decreases |ts|
  {
    if ts != [] {
      var t, rest := ts[0], ts[1..];
      assert t in ts && forall x :: x in ts <==> x == t || x in rest;
      var ws := TaskWrites(plan, m, t);
      ReplayConcat(e, ws, TasksWrites(plan, AfterTask(m, t), rest));
      KeysAfterTask(e, plan, m, t);
      KeysAfterTasks(Replay(e, ws), plan, AfterTask(m, t), rest);
      var left := AuthOf(e, plan.home) - plan.transferred;
      assert left - plan.transferred == left;
    }
  }

  lemma KeysAfterTask(e: Disk, plan: Plan, m: Manifest, t: Task)
    requires t.Strip? ==> t.sources == plan.transferred
    ensures var f := Replay(e, TaskWrites(plan, m, t));
            && (forall h :: h != plan.home ==> AuthOf(f, h) == AuthOf(e, h))
            && AuthOf(f, plan.home) == if t.Strip? then AuthOf(e, plan.home) - plan.transferred else AuthOf(e, plan.home)
  {
    if t.Strip? {
      ReplayOne(e, Action(plan, t));
    } else {
      var w := WriteManifest(ManifestAt(plan.stamp), AfterTask(m, t));
      assert TaskWrites(plan, m, t)[1..] == [w];
      ReplayOne(Step(e, Action(plan, t)), w);
    }
  }

  // A complete link takes exactly the transferred keys from the agent's home
  // and touches no other home.
  lemma LinkStrips(d: Disk, plan: Plan)
    requires Planned(d, plan)
    ensures var e := Replay(d, ApplyRun(d, plan).writes);
            && AuthOf(e, plan.home) == AuthOf(d, plan.home) - plan.transferred
            && (forall h :: h != plan.home ==> AuthOf(e, h) == AuthOf(d, h))
  {
    LinkCompletes(d, plan);
    OpeningKeys(d, plan);
    BodyStrips(d, plan);
    LastWrite(d, plan);
  }

  lemma LastWrite(d: Disk, plan: Plan)
    requires ApplyRun(d, plan).ok
    ensures Replay(d, ApplyRun(d, plan).writes).auths == Replay(d, Opening(d, plan) + Body(d, plan)).auths
  {
    var ws := Opening(d, plan) + Body(d, plan);
    var w := WriteManifest(ManifestAt(plan.stamp), LastManifest(d, plan).(completed := true));
    assert ApplyRun(d, plan).writes == ws + [w];
    ReplayConcat(d, ws, [w]);
    ReplayOne(Replay(d, ws), w);
  }

  lemma BodyStrips(d: Disk, plan: Plan)
    requires Replay(d, Opening(d, plan)).auths == d.auths && (plan.source.FromMain? ==> plan.transferred == {})
    ensures var e := Replay(d, Opening(d, plan) + Body(d, plan));
            && AuthOf(e, plan.home) == AuthOf(d, plan.home) - plan.transferred
            && (forall h :: h != plan.home ==> AuthOf(e, h) == AuthOf(d, h))
  {
    ReplayConcat(d, Opening(d, plan), Body(d, plan));
    TasksStrip(d, plan, Replay(d, Opening(d, plan)), FirstManifest(d, plan));
  }

  lemma TasksStrip(d: Disk, plan: Plan, e: Disk, m: Manifest)
    requires e.auths == d.auths && (plan.source.FromMain? ==> plan.transferred == {})
    ensures var f := Replay(e, TasksWrites(plan, m, Tasks(d, plan)));
            && AuthOf(f, plan.home) == AuthOf(d, plan.home) - plan.transferred
            && (forall h :: h != plan.home ==> AuthOf(f, h) == AuthOf(d, h))
  {
    StripListed(d, plan);
    KeysAfterTasks(e, plan, m, Tasks(d, plan));
    StripIsNeeded(d, plan);
    assert forall h :: AuthOf(e, h) == AuthOf(d, h);
  }

  // Without a strip there is nothing to take.
  lemma StripIsNeeded(d: Disk, plan: Plan)
    requires plan.source.FromMain? ==> plan.transferred == {}
    ensures AuthOf(d, plan.home) == AuthOf(d, plan.home) - plan.transferred || exists t :: t in Tasks(d, plan) && t.Strip?
  {
    if plan.source.FromAgent? && plan.transferred * AuthOf(d, plan.home).Keys != {} {
      StripListed(d, plan);
      assert Strip(plan.transferred).Strip?;
    } else {
      NoneTaken(AuthOf(d, plan.home), plan.transferred);
    }
  }

  lemma NoneTaken(keys: map<Provider, Secret>, taken: set<Provider>)
    requires taken * keys.Keys == {}
    ensures keys - taken == keys
  {
    assert forall s :: s in keys ==> s !in taken by {
      forall s | s in keys ensures s !in taken {
        assert s in taken ==> s in taken * keys.Keys;
      }
    }
  }

  lemma OpeningKeys(d: Disk, plan: Plan)
    requires Planned(d, plan)
    ensures Replay(d, Opening(d, plan)).auths == d.auths
  {
    OpeningFiles(d, plan);
    var w := WriteManifest(ManifestAt(plan.stamp), FirstManifest(d, plan));
    var backups := BackupWrites(d.files, Tracked(plan), plan.stamp);
    ReplayConcat(d, backups, [w]);
    ReplayOne(Replay(d, backups), w);
  }

  lemma StripListed(d: Disk, plan: Plan)
    ensures forall t :: t in Tasks(d, plan) && t.Strip? ==> t.sources == plan.transferred
    ensures plan.source.FromAgent? && plan.transferred * AuthOf(d, plan.home).Keys != {} ==> Strip(plan.transferred) in Tasks(d, plan)
  {
    var ts := Tasks(d, plan);
    if plan.source.FromAgent? && plan.transferred * AuthOf(d, plan.home).Keys != {} {
      assert ts[3] == Strip(plan.transferred);
    }
  }

  // ---- Which links can replace an account ----

  const OPENAI: Provider := "openai"

  // The ids discovery gives an account of OpenCode. Only that of OpenAI also
  // depends on the kind of credential.
  predicate DiscoveryNames(source: Provider, id: AccountId) {
    id == "opencode-" + source || (source == OPENAI && id == "opencode-codex")
  }

  predicate NamedByDiscovery(d: Disk, plan: Plan) {
    var shard := ShardAccounts(d.files, SHARD);
    && (forall a :: a in plan.imported ==> DiscoveryNames(a.source, a.id))
    && (forall id :: id in shard ==> DiscoveryNames(shard[id].source, id))
  }

  lemma OthersKeepId(d: Disk, plan: Plan, s: Provider)
    requires Sound(d, plan.agent) && Merged(d, plan) && Owned(ShardAccounts(d.files, SHARD)) && NamedByDiscovery(d, plan)
    requires Loadable(d, ActiveChain(plan.agent, d.manifests), s) && s != OPENAI
    ensures KeepsId(d, plan, s)
  {
    OwnedIsImported(d, plan, s);
    TipShard(plan.agent, d.manifests);
    var m, shard := ActiveChain(plan.agent, d.manifests)[0].manifest, ShardAccounts(d.files, SHARD);
    var id :| id in m.imported && AccountFor(d, m, id, s);
    var a :| a in plan.imported && a.source == s;
    assert id in shard && shard[id].source == s && a.id == id;
  }

  // So the guard of a link is about OpenAI alone.
  lemma GuardIsAboutOpenAi(d: Disk, plan: Plan)
    requires Sound(d, plan.agent) && Merged(d, plan) && Owned(ShardAccounts(d.files, SHARD)) && NamedByDiscovery(d, plan)
    ensures Guarded(d, plan) <==>
              var chain := ActiveChain(plan.agent, d.manifests);
              forall h :: h != plan.home && OPENAI in Owed(chain, h) && OPENAI !in AuthOf(d, h) && Loadable(d, chain, OPENAI) ==>
                KeepsId(d, plan, OPENAI)
  {
    GuardElsewhere(d, plan);
    var chain := ActiveChain(plan.agent, d.manifests);
    forall s | s != OPENAI && Loadable(d, chain, s) ensures KeepsId(d, plan, s) {
      OthersKeepId(d, plan, s);
    }
  }

  // ---- Two homes ----

  // An API key and an OAuth login for OpenAI.
  const FIRST: Account := Account("opencode-openai", "openai", "openai", Gateway, true, true, "k1")
  const SECOND: Account := Account("opencode-codex", "openai", "codex", Gateway, true, true, "k2")

  // Homes 1 and 2 each have a credential of OpenAI; nothing is linked.
  function Start(): Disk {
    Disk(map[], map[1 := map["openai" := "k1"], 2 := map["openai" := "k2"]], map[], map[], map[])
  }

  function LinkOne(): Plan {
    Plan(OPENCODE, 1, None, FromAgent, 1, [FIRST], {"openai"}, [Route("openai", "openai", "opencode-openai", true)],
         Text("f1"), [], Binding(FromAgent, "b1"))
  }

  function LinkTwo(): Plan {
    Plan(OPENCODE, 2, Some(ManifestAt(1)), FromAgent, 2, [SECOND], {"openai"}, [Route("openai", "codex", "opencode-codex", true)],
         Text("f2"), [], Binding(FromAgent, "b2"))
  }

  function Linked(): Disk {
    Replay(Start(), ApplyRun(Start(), LinkOne()).writes)
  }

  lemma OneImported(d: Disk, plan: Plan, a: Account)
    requires plan.imported == [a] && plan.transferred == {a.source} && a.owner == Gateway && a.enabled && Discovered(d, plan, a)
    requires plan.routes == [RouteFor(a, plan.transferred)]
    requires forall id :: id in ShardAccounts(d.files, SHARD) ==> ShardAccounts(d.files, SHARD)[id].source == a.source
    ensures Merged(d, plan)
  {
    assert a in plan.imported;
    assert plan.routes == seq(|plan.imported|, i requires 0 <= i < |plan.imported| => RouteFor(plan.imported[i], plan.transferred));
  }

  lemma FirstPlanned()
    ensures Planned(Start(), LinkOne()) && LogShape(OPENCODE, Start().manifests) && NoneActive(Start().manifests)
    ensures "openai" in AuthOf(Start(), 1)
  {
    OneImported(Start(), LinkOne(), FIRST);
  }

  lemma FirstMid() returns (m: Manifest)
    ensures Tidy(LinkOne()) && Mid(Start(), LinkOne(), Linked(), m, None) && m.completed
    ensures Undoable(Start(), Linked(), OPENCODE, 1, Some(ManifestAt(1)))
  {
    FirstPlanned();
    LinkCompletes(Start(), LinkOne());
    CompleteReached(Start(), LinkOne());
    m := LastManifest(Start(), LinkOne()).(completed := true);
    NothingLinked(Start(), OPENCODE, 1);
    OneLink(Start(), Start(), 1, None, LinkOne());
  }

  lemma FirstKeys()
    ensures "openai" !in AuthOf(Linked(), 1) && AuthOf(Linked(), 2) == map["openai" := "k2"]
  {
    FirstPlanned();
    LinkStrips(Start(), LinkOne());
    assert "openai" in LinkOne().transferred;
    assert AuthOf(Linked(), 2) == AuthOf(Start(), 2);
  }

  lemma SavedFirst()
    ensures SavedShard(map[], [FIRST]) == map["opencode-openai" := FIRST]
  {
    assert [FIRST][1..] == [];
    assert ById([]) == map[];
    assert ById([FIRST]) == map["opencode-openai" := FIRST];
  }

  // What the first link leaves, as far as the second one reads it.
  ghost predicate AfterFirst(d: Disk, m: Manifest) {
    && Lookup(d.files, SHARD) == Some(Accounts(map["opencode-openai" := FIRST]))
    && d.manifests == map[ManifestAt(1) := m]
    && SourceOf(m) == FromAgent && m.agent == OPENCODE && m.completed && m.previous == None && !m.unlinked
    && exists e :: e in m.files && e.original == FRAGMENT
  }

  lemma FirstManifestFacts(m: Manifest)
    requires Header(Start(), LinkOne(), m)
    ensures SourceOf(m) == FromAgent && m.agent == OPENCODE && m.previous == None && !m.unlinked
  {
  }

  lemma FirstFiles(e: Disk, m: Manifest)
    requires Tidy(LinkOne()) && Mid(Start(), LinkOne(), e, m, None)
    ensures exists f :: f in m.files && f.original == FRAGMENT
  {
    MidNames(Start(), LinkOne(), e, m, None);
    assert Tracked(LinkOne()) == [SHARD, FRAGMENT];
    assert m.files[1] in m.files;
  }

  // The gateway holds the account of home 1.
  lemma FirstShard(e: Disk, m: Manifest)
    requires Tidy(LinkOne()) && Mid(Start(), LinkOne(), e, m, None) && m.completed
    ensures AfterFirst(e, m)
  {
    SavedWhenComplete(Start(), LinkOne(), e, m);
    SavedFirst();
    assert ShardAccounts(Start().files, SHARD) == map[];
    FirstFiles(e, m);
    FirstManifestFacts(m);
  }

  lemma SecondAccepted(d: Disk, m: Manifest)
    requires AfterFirst(d, m) && LogShape(OPENCODE, d.manifests)
    ensures PreviousAccepted(d, LinkTwo(), ManifestAt(1))
  {
    LogIsChain(OPENCODE, d.manifests, None, ManifestAt(1));
    assert Log(OPENCODE, d.manifests, ManifestAt(1)) == [Link(ManifestAt(1), m)];
  }

  lemma SecondPlanned(d: Disk, m: Manifest)
    requires AfterFirst(d, m) && LogShape(OPENCODE, d.manifests) && AuthOf(d, 2) == map["openai" := "k2"]
    ensures Planned(d, LinkTwo())
  {
    SecondAccepted(d, m);
    assert ShardAccounts(d.files, SHARD) == map["opencode-openai" := FIRST];
    OneImported(d, LinkTwo(), SECOND);
    assert IsLatest(d.manifests, ManifestAt(1));
  }

  // Unlinking the second link, cut right after its manifest was written,
  // succeeds: it rolls the shard back to before the first link ...
  lemma CutSucceeds(d: Disk, e: Disk)
    requires Undoable(Start(), d, OPENCODE, 1, Some(ManifestAt(1))) && Planned(d, LinkTwo())
    requires e == Replay(d, Opening(d, LinkTwo()))
    ensures var run := UnlinkRun(e, OPENCODE, None, ManifestAt(2));
            run.ok && SHARD !in Replay(e, run.writes).files
  {
    var plan := LinkTwo();
    OpeningReached(d, plan);
    TrackedPaths(d, plan);
    var prior := Prior(OPENCODE, d.manifests, Some(ManifestAt(1)));
    CutUnlinks(d, plan, e, FirstManifest(d, plan), None, None);
    var f := Replay(e, UnlinkRun(e, OPENCODE, None, ManifestAt(2)).writes);
    ShardGone(d, prior, f);
  }

  lemma ShardGone(d: Disk, prior: seq<Link>, f: Disk)
    requires FilesUndo(Start(), d, prior) && AgreeOff(f.files, RestoreChain(d.files, prior), 2)
    ensures SHARD !in f.files
  {
    assert !SHARD.BackupOf? && !FreshBackup(SHARD, 2);
    assert Lookup(f.files, SHARD) == Lookup(RestoreChain(d.files, prior), SHARD) == Lookup(Start().files, SHARD);
  }

  // ... and hands nothing over, since its manifest names only an account that
  // was never saved.
  predicate NamesUnsaved(e: Disk, m: Manifest) {
    && m.imported == ["opencode-codex"] && m.shard == Some(SHARD) && !RequiresCredentials(m) && !m.handoff
    && Lookup(e.files, SHARD) == Some(Accounts(map["opencode-openai" := FIRST]))
  }

  lemma LoadsNothing(e: Disk, m: Manifest)
    requires NamesUnsaved(e, m)
    ensures LoadTransferred(e, m).Ok? ==> LoadTransferred(e, m).value == []
  {
    assert FindAccount(e, m, "opencode-codex") == None;
    assert ["opencode-codex"][1..] == [];
    assert CollectAccounts(e, m, []) == Ok([]);
  }

  lemma HandsNothing(e: Disk, chain: seq<Link>, h: Home)
    requires chain != [] && NamesUnsaved(e, chain[0].manifest) && HandoffRun(e, chain).ok
    ensures AuthOf(Replay(e, HandoffRun(e, chain).writes), h) == AuthOf(e, h)
  {
    assert chain[0] in chain;
    HandoffKeys(e, chain, h);
    LoadsNothing(e, chain[0].manifest);
    assert HandedKeys(chain, [], h) == map[];
    assert map[] + AuthOf(e, h) == AuthOf(e, h);
  }

  lemma CutGrantsNothing(e: Disk, chain: seq<Link>)
    requires UnlinkChain(e, OPENCODE, chain).ok && NamesUnsaved(e, chain[0].manifest)
    requires forall i, j :: 0 <= i < j < |chain| ==> chain[i].path != chain[j].path
    ensures AuthOf(Replay(e, UnlinkChain(e, OPENCODE, chain).writes), 1) == AuthOf(e, 1)
  {
    HandsNothing(e, chain, 1);
    UnlinkOutcome(e, OPENCODE, chain);
  }

  lemma CutNamesUnsaved(d: Disk, m: Manifest, e: Disk)
    requires AfterFirst(d, m) && Planned(d, LinkTwo()) && e == Replay(d, Opening(d, LinkTwo()))
    ensures NamesUnsaved(e, FirstManifest(d, LinkTwo())) && AuthOf(e, 1) == AuthOf(d, 1)
  {
    var plan := LinkTwo();
    OpeningKeys(d, plan);
    OpeningShard(d, plan);
    EntriesAt(d.files, Tracked(plan), plan.stamp);
    SecondTransfers();
  }

  lemma SecondTransfers()
    ensures Transfers(LinkTwo())
  {
    assert Route("openai", "codex", "opencode-codex", true) in LinkTwo().routes;
  }

  lemma OpeningShard(d: Disk, plan: Plan)
    requires Planned(d, plan)
    ensures Lookup(Replay(d, Opening(d, plan)).files, SHARD) == Lookup(d.files, SHARD)
  {
    OpeningFiles(d, plan);
    var backups := BackupWrites(d.files, Tracked(plan), plan.stamp);
    var w := WriteManifest(ManifestAt(plan.stamp), FirstManifest(d, plan));
    ReplayConcat(d, backups, [w]);
    ReplayOne(Replay(d, backups), w);
  }

  // Cutting the second link on `d` and unlinking it loses the key of home 1.
  predicate KeyLost(d: Disk) {
    var e := Replay(d, Opening(d, LinkTwo()));
    var run := UnlinkRun(e, OPENCODE, None, ManifestAt(2));
    var f := Replay(e, run.writes);
    run.ok && "openai" !in AuthOf(f, 1) && SHARD !in f.files
  }

  // With two homes a history of one complete link, one cut link and one
  // complete unlink loses the key of home 1: it is neither with the agent nor
  // in the shard, though nothing else touched the disk.
  lemma TwoHomesLoseAKey()
    ensures Planned(Linked(), LinkTwo()) && KeyLost(Linked())
  {
    var m := FirstLinked();
    ThenLost(Linked(), m);
  }

  lemma ThenLost(d: Disk, m: Manifest)
    requires AfterFirst(d, m) && Undoable(Start(), d, OPENCODE, 1, Some(ManifestAt(1)))
    requires "openai" !in AuthOf(d, 1) && AuthOf(d, 2) == map["openai" := "k2"]
    ensures Planned(d, LinkTwo()) && KeyLost(d)
  {
    SecondPlanned(d, m);
    LosesKey(d, m);
  }

  lemma FirstLinked() returns (m: Manifest)
    ensures AfterFirst(Linked(), m) && Undoable(Start(), Linked(), OPENCODE, 1, Some(ManifestAt(1)))
    ensures "openai" !in AuthOf(Linked(), 1) && AuthOf(Linked(), 2) == map["openai" := "k2"]
  {
    m := FirstMid();
    FirstShard(Linked(), m);
    FirstKeys();
  }

  lemma LosesKey(d: Disk, m: Manifest)
    requires AfterFirst(d, m) && Planned(d, LinkTwo()) && Undoable(Start(), d, OPENCODE, 1, Some(ManifestAt(1)))
    requires "openai" !in AuthOf(d, 1)
    ensures KeyLost(d)
  {
    var plan := LinkTwo();
    var e := Replay(d, Opening(d, plan));
    CutSucceeds(d, e);
    CutNamesUnsaved(d, m, e);
    OpeningReached(d, plan);
    TrackedPaths(d, plan);
    CutLog(d, plan, e, FirstManifest(d, plan), None, None);
    LogNames(OPENCODE, e.manifests, ManifestAt(2));
    CutGrantsNothing(e, ChainAt(d, plan, FirstManifest(d, plan)));
  }
}
