// Whole histories of one agent: links, syncs and unlinks, each cut at any
// write, with edits by the user and the gateway in between.
module MigrationRuns {
  import opened Wrappers
  import opened MigrationDisk
  import opened ManifestChain
  import opened ManifestLog
  import opened CredentialHandoff
  import opened Unlink
  import opened Reconcile
  import opened ReconcileCuts
  import opened LinkUndo
  import opened HandoffBacking
  import opened CutUnlink
  import opened ChainInversion
  import opened UnlinkInverts
  import opened CredentialSafety
  import opened UnlinkSafety
  import opened Holdings

  // ---- Events ----

  // A link or sync and an unlink each keep the first `cut` of their writes.
  datatype Event =
    | Linking(plan: Plan, cut: nat)
    | Unlinking(path: Path, root: Option<string>, cut: nat)
    | Outside(after: Disk)

  predicate SameAccount(a: Account, b: Account) {
    b == a.(secret := b.secret, enabled := b.enabled)
  }

  // Between runs anything may change, except that the manifest log and the
  // shard's backups stay, the gateway keeps its accounts (secrets may be
  // refreshed), and no key is taken from the agent's home.
  ghost predicate OutsideEdit(d: Disk, e: Disk, h: Home) {
    var before, after := ShardAccounts(d.files, SHARD), ShardAccounts(e.files, SHARD);
    && e.manifests == d.manifests
    && ShardReadable(e.files, SHARD) && before.Keys == after.Keys
    && (forall id :: id in before ==> SameAccount(before[id], after[id]))
    && (forall n: nat :: Lookup(e.files, BackupOf(SHARD, n)) == Lookup(d.files, BackupOf(SHARD, n)))
    && AuthOf(d, h).Keys <= AuthOf(e, h).Keys
  }

  ghost predicate Possible(d: Disk, agent: Agent, h: Home, event: Event) {
    match event
    case Linking(plan, cut) => plan.agent == agent && plan.home == h && Planned(d, plan) && cut <= |ApplyRun(d, plan).writes|
    case Unlinking(path, root, cut) => cut <= |UnlinkRun(d, agent, root, path).writes|
    case Outside(after) => OutsideEdit(d, after, h)
  }

  function After(d: Disk, agent: Agent, event: Event): Disk {
    match event
    case Linking(plan, cut) => Replay(d, ApplyRun(d, plan).writes[..Min(cut, |ApplyRun(d, plan).writes|)])
    case Unlinking(path, root, cut) =>
      Replay(d, UnlinkRun(d, agent, root, path).writes[..Min(cut, |UnlinkRun(d, agent, root, path).writes|)])
    case Outside(after) => after
  }

  function Min(a: nat, b: nat): nat {
    if a <= b then a else b
  }

  ghost predicate History(d: Disk, agent: Agent, h: Home, events: seq<Event>)
    decreases |events|
  {
    events != [] ==> Possible(d, agent, h, events[0]) && History(After(d, agent, events[0]), agent, h, events[1..])
  }

  function AfterAll(d: Disk, agent: Agent, events: seq<Event>): Disk
    decreases |events|
  {
    if events == [] then d else AfterAll(After(d, agent, events[0]), agent, events[1..])
  }

  // ---- One event ----

  lemma OpeningSafe(d: Disk, e: Disk, h: Home, chain: seq<Link>)
    requires Kept(d, h, chain) && e == d.(files := e.files)
    requires Lookup(e.files, SHARD) == Lookup(d.files, SHARD) && BackupsFrom(d.files, e.files)
    ensures Kept(e, h, chain) && Covered(d, h) <= Covered(e, h)
  {
    ShardKept(d, e);
    assert AuthOf(e, h) == AuthOf(d, h);
    BackupsStay(d, e, h, Covered(e, h));
    forall s | s in Sources(e.files) && s !in AuthOf(e, h) ensures Owes(e.files, chain, s) {
      assert Owes(d.files, chain, s);
    }
  }

  lemma OpeningBackups(d: Disk, plan: Plan, e: Disk)
    requires forall p :: BackedUp(d.files, e.files, d.files, Tracked(plan), p, plan.stamp)
    ensures Lookup(e.files, SHARD) == Lookup(d.files, SHARD) && BackupsFrom(d.files, e.files)
  {
    assert BackedUp(d.files, e.files, d.files, Tracked(plan), SHARD, plan.stamp);
    forall n: nat ensures Lookup(e.files, BackupOf(SHARD, n)) in {Lookup(d.files, BackupOf(SHARD, n)), Lookup(d.files, SHARD)} {
      assert BackedUp(d.files, e.files, d.files, Tracked(plan), BackupOf(SHARD, n), plan.stamp);
    }
  }

  lemma OpeningEvent(d: Disk, plan: Plan, k: nat)
    requires Safe(d, plan.agent, plan.home, plan.previous) && Planned(d, plan) && k < |Opening(d, plan)|
    ensures var e := Replay(d, Opening(d, plan)[..k]);
            Safe(e, plan.agent, plan.home, plan.previous) && Covered(d, plan.home) <= Covered(e, plan.home)
  {
    OpeningCut(d, plan, k);
    var e := Replay(d, Opening(d, plan)[..k]);
    OpeningBackups(d, plan, e);
    OpeningSafe(d, e, plan.home, Prior(plan.agent, d.manifests, plan.previous));
  }

  lemma MidEvent(d: Disk, plan: Plan, e: Disk, m: Manifest, dirty: Option<Path>)
    requires Safe(d, plan.agent, plan.home, plan.previous) && Linkable(d, plan) && Tidy(plan) && Mid(d, plan, e, m, dirty)
    ensures Safe(e, plan.agent, plan.home, Some(ManifestAt(plan.stamp))) && Covered(d, plan.home) <= Covered(e, plan.home)
  {
    CutLog(d, plan, e, m, dirty, None);
    CutKept(d, plan, e, m, dirty);
    CutOwnedHome(d, plan, e, m);
  }

  lemma LinkEvent(d: Disk, plan: Plan, k: nat) returns (now: Option<Path>)
    requires Safe(d, plan.agent, plan.home, plan.previous) && Planned(d, plan) && k <= |ApplyRun(d, plan).writes|
    ensures var e := Replay(d, ApplyRun(d, plan).writes[..k]);
            Safe(e, plan.agent, plan.home, now) && Covered(d, plan.home) <= Covered(e, plan.home)
  {
    if k < |Opening(d, plan)| {
      assert ApplyRun(d, plan).writes[..k] == Opening(d, plan)[..k];
      OpeningEvent(d, plan, k);
      now := plan.previous;
    } else {
      var m := AnyCutReached(d, plan, k);
      MidEvent(d, plan, Replay(d, ApplyRun(d, plan).writes[..k]), m, GapOf(d, plan, k));
      now := Some(ManifestAt(plan.stamp));
    }
  }

  lemma SameSources(d: Disk, e: Disk, h: Home)
    requires OutsideEdit(d, e, h)
    ensures Sources(e.files) == Sources(d.files)
    ensures ShardOwned(d.files) ==> ShardOwned(e.files)
  {
    var before, after := ShardAccounts(d.files, SHARD), ShardAccounts(e.files, SHARD);
    forall id | id in before ensures SameAccount(before[id], after[id]) {
    }
    forall s ensures s in Sources(e.files) <==> s in Sources(d.files) {
      if s in Sources(d.files) {
        var id :| id in before && before[id].source == s;
        assert after[id].source == s;
      }
      if s in Sources(e.files) {
        var id :| id in after && after[id].source == s;
        assert before[id].source == s;
      }
    }
  }

  lemma OutsideKept(d: Disk, e: Disk, h: Home, chain: seq<Link>)
    requires Kept(d, h, chain) && OutsideEdit(d, e, h)
    ensures Kept(e, h, chain) && Covered(d, h) <= Covered(e, h)
  {
    SameSources(d, e, h);
    BackupsStay(d, e, h, Covered(e, h));
    var before, after := ShardAccounts(d.files, SHARD), ShardAccounts(e.files, SHARD);
    forall s | s in Sources(e.files) && s !in AuthOf(e, h) ensures Owes(e.files, chain, s) {
      assert Owes(d.files, chain, s);
      var id :| id in chain[0].manifest.imported && id in before && before[id].source == s;
      assert SameAccount(before[id], after[id]);
    }
  }

  lemma OneEvent(d: Disk, agent: Agent, h: Home, latest: Option<Path>, event: Event) returns (now: Option<Path>)
    requires Safe(d, agent, h, latest) && Possible(d, agent, h, event)
    ensures Safe(After(d, agent, event), agent, h, now) && Covered(d, h) <= Covered(After(d, agent, event), h)
  {
    match event
    case Linking(plan, cut) =>
      LatestUnique(d.manifests, latest, plan.previous);
      now := LinkEvent(d, plan, cut);
    case Unlinking(path, root, cut) =>
      now := UnlinkCut(d, agent, h, latest, root, path, cut);
    case Outside(after) =>
      OutsideKept(d, after, h, Prior(agent, d.manifests, latest));
      now := latest;
  }

  // ---- Whole histories with any number of homes ----

  // Each run starts where its predecessors left off; no link replaces an
  // account some home is still waiting for.
  ghost predicate Allowed(d: Disk, agent: Agent, event: Event) {
    match event
    case Linking(plan, cut) =>
      plan.agent == agent && Planned(d, plan) && Guarded(d, plan) && cut <= |ApplyRun(d, plan).writes|
    case Unlinking(path, root, cut) => cut <= |UnlinkRun(d, agent, root, path).writes|
    case Outside(after) => forall h :: OutsideEdit(d, after, h)
  }

  ghost predicate Runs(d: Disk, agent: Agent, events: seq<Event>)
    decreases |events|
  {
    events != [] ==> Allowed(d, agent, events[0]) && Runs(After(d, agent, events[0]), agent, events[1..])
  }

  lemma EditedLoadable(d: Disk, e: Disk, agent: Agent, s: Provider)
    requires Sound(d, agent) && (forall h :: OutsideEdit(d, e, h)) && Loadable(d, ActiveChain(agent, d.manifests), s)
    ensures Loadable(e, ActiveChain(agent, e.manifests), s)
  {
    var chain, h := ActiveChain(agent, d.manifests), 0;
    assert OutsideEdit(d, e, h);
    TipShard(agent, d.manifests);
    var id :| id in chain[0].manifest.imported && AccountFor(d, chain[0].manifest, id, s);
    assert SameAccount(ShardAccounts(d.files, SHARD)[id], ShardAccounts(e.files, SHARD)[id]);
    assert AccountFor(e, chain[0].manifest, id, s);
  }

  lemma OutsideHolds(d: Disk, e: Disk, agent: Agent)
    requires Sound(d, agent) && forall h :: OutsideEdit(d, e, h)
    ensures Sound(e, agent) && forall h :: Held(d, agent, h) <= Held(e, agent, h)
  {
    assert OutsideEdit(d, e, 0);
    forall s | Loadable(d, ActiveChain(agent, d.manifests), s) ensures Loadable(e, ActiveChain(agent, e.manifests), s) {
      EditedLoadable(d, e, agent, s);
    }
    forall h ensures Held(d, agent, h) <= Held(e, agent, h) {
      assert OutsideEdit(d, e, h);
    }
  }

  lemma OneHolds(d: Disk, agent: Agent, event: Event)
    requires Sound(d, agent) && Allowed(d, agent, event)
    ensures var e := After(d, agent, event); Sound(e, agent) && forall h :: Held(d, agent, h) <= Held(e, agent, h)
  {
    match event
    case Linking(plan, cut) => LinkHolds(d, plan, cut);
    case Unlinking(path, root, cut) => UnlinkHolds(d, agent, root, path, cut);
    case Outside(after) => OutsideHolds(d, after, agent);
  }

  // Whatever the homes and however each run is cut, no home ever loses a
  // provider it had a key for or was owed one of, and the log keeps its shape.
  lemma {:induction false} CredentialsConserved(d: Disk, agent: Agent, events: seq<Event>)
    requires Sound(d, agent) && Runs(d, agent, events)
    ensures Sound(AfterAll(d, agent, events), agent)
    ensures forall h :: Held(d, agent, h) <= Held(AfterAll(d, agent, events), agent, h)
    decreases |events|
  {
    if events != [] {
      OneHolds(d, agent, events[0]);
      var e := After(d, agent, events[0]);
      CredentialsConserved(e, agent, events[1..]);
      assert forall h :: Held(d, agent, h) <= Held(e, agent, h);
    }
  }

  // With nothing linked a home holds exactly its own keys.
  lemma UnlinkedIsSound(d: Disk, agent: Agent)
    requires LogShape(agent, d.manifests) && NoneActive(d.manifests)
    ensures Sound(d, agent) && forall h :: Held(d, agent, h) == AuthOf(d, h).Keys
  {
    ChainIs(agent, d.manifests, None);
  }

  // From a disk with nothing linked, after any history, an unlink that
  // completes leaves every home a key for all it ever held on the way, so for
  // all it had before the first link.
  lemma UnlinkReturnsEverything(d: Disk, agent: Agent, events: seq<Event>, more: seq<Event>, root: Option<string>, p: Path)
    requires LogShape(agent, d.manifests) && NoneActive(d.manifests)
    requires Runs(d, agent, events) && Runs(AfterAll(d, agent, events), agent, more)
    requires UnlinkRun(AfterAll(AfterAll(d, agent, events), agent, more), agent, root, p).ok
    ensures var e := AfterAll(AfterAll(d, agent, events), agent, more);
            var f := Replay(e, UnlinkRun(e, agent, root, p).writes);
            forall h :: AuthOf(d, h).Keys <= AuthOf(f, h).Keys && Held(AfterAll(d, agent, events), agent, h) <= AuthOf(f, h).Keys
  {
    UnlinkedIsSound(d, agent);
    CredentialsConserved(d, agent, events);
    var e1 := AfterAll(d, agent, events);
    CredentialsConserved(e1, agent, more);
    var e := AfterAll(e1, agent, more);
    CompleteReturns(e, agent, root, p);
    var f := Replay(e, UnlinkRun(e, agent, root, p).writes);
    forall h ensures AuthOf(d, h).Keys <= AuthOf(f, h).Keys && Held(e1, agent, h) <= AuthOf(f, h).Keys {
      assert Held(d, agent, h) <= Held(e1, agent, h) <= Held(e, agent, h);
    }
  }

  lemma CompleteReturns(d: Disk, agent: Agent, root: Option<string>, p: Path)
    requires Sound(d, agent) && UnlinkRun(d, agent, root, p).ok
    ensures forall h :: Held(d, agent, h) <= AuthOf(Replay(d, UnlinkRun(d, agent, root, p).writes), h).Keys
  {
    var ws := UnlinkRun(d, agent, root, p).writes;
    assert ws[..|ws|] == ws;
    UnlinkHolds(d, agent, root, p, |ws|);
  }

  // ---- Whole histories with one home ----

  // With all links from one agent home no history ever loses the credential of
  // any provider the agent or the gateway has, with no guard on the links. In
  // every state the log has its shape and leads to all the shard alone holds.
  lemma {:induction false} OneHomeCovers(d: Disk, agent: Agent, h: Home, before: Option<Path>, events: seq<Event>) returns (latest: Option<Path>)
    requires Safe(d, agent, h, before) && History(d, agent, h, events)
    ensures Safe(AfterAll(d, agent, events), agent, h, latest)
    ensures Covered(d, h) <= Covered(AfterAll(d, agent, events), h)
    decreases |events|
  {
    if events == [] {
      return before;
    }
    var next := OneEvent(d, agent, h, before, events[0]);
    latest := OneHomeCovers(After(d, agent, events[0]), agent, h, next, events[1..]);
  }

  // A disk no link has touched yet.
  predicate Untouched(d: Disk) {
    d.manifests == map[] && SHARD !in d.files && forall p :: p in d.files ==> !p.BackupOf?
  }

  lemma UntouchedIsSafe(d: Disk, agent: Agent, h: Home)
    requires Untouched(d) && MovesCredentials(agent)
    ensures Safe(d, agent, h, None)
  {
  }

  // After any history, an unlink that completes leaves the agent with a key
  // for every provider that ever had a credential on the way.
  lemma OneHomeReturns(d: Disk, agent: Agent, h: Home, events: seq<Event>, more: seq<Event>, root: Option<string>, p: Path)
    requires Untouched(d) && MovesCredentials(agent) && History(d, agent, h, events) && History(AfterAll(d, agent, events), agent, h, more)
    requires UnlinkRun(AfterAll(AfterAll(d, agent, events), agent, more), agent, root, p).ok
    ensures var e := AfterAll(AfterAll(d, agent, events), agent, more);
            Covered(AfterAll(d, agent, events), h) <= AuthOf(Replay(e, UnlinkRun(e, agent, root, p).writes), h).Keys
  {
    UntouchedIsSafe(d, agent, h);
    var middle := OneHomeCovers(d, agent, h, None, events);
    var latest := OneHomeCovers(AfterAll(d, agent, events), agent, h, middle, more);
    var e := AfterAll(AfterAll(d, agent, events), agent, more);
    var ws := UnlinkRun(e, agent, root, p).writes;
    assert ws[..|ws|] == ws;
    var now := UnlinkCut(e, agent, h, latest, root, p, |ws|);
  }
}
