// One unlink run: every refusal comes first, then credentials, files and
// bindings are handed back, and last of all the manifests are marked.
module Unlink {
  import opened Wrappers
  import opened MigrationDisk
  import opened ManifestChain
  import opened FileRollback
  import opened BindingRollback
  import opened CredentialHandoff

  // Another active manifest of the agent descends from `p`, or cannot be followed.
  predicate HasActiveSuccessor(ms: map<Path, Manifest>, agent: Agent, root: Option<string>, p: Path) {
    exists q :: q in ms && Succeeds(ms, agent, root, p, q)
  }

  predicate Succeeds(ms: map<Path, Manifest>, agent: Agent, root: Option<string>, p: Path, q: Path)
    requires q in ms
  {
    && q != p && q.ManifestAt? && ms[q].agent == agent && !ms[q].unlinked
    && var chain := ManifestChainOf(ms, agent, root, q);
      chain.Err? || (chain.value != [] && p in Paths(chain.value[1..]))
  }

  function UnlinkMarks(chain: seq<Link>): seq<Write> {
    if chain == [] then []
    else UnlinkMarks(chain[1..]) + [WriteManifest(chain[0].path, chain[0].manifest.(handoff := true, unlinked := true))]
  }

  // The checks made before anything is written.
  predicate Accepted(d: Disk, agent: Agent, chain: seq<Link>) {
    && chain != [] && !chain[0].manifest.unlinked
    && RollbackIsSafe(d.files, chain)
    && BindingRun(agent, Lookup(d.bindings, agent), chain).ok
  }

  function RollbackWrites(d: Disk, agent: Agent, chain: seq<Link>): seq<Write> {
    ChainWrites(chain) + BindingRun(agent, Lookup(d.bindings, agent), chain).writes
  }

  function UnlinkChain(d: Disk, agent: Agent, chain: seq<Link>): Run {
    if !Accepted(d, agent, chain) then Run([], false)
    else
      var handoff := HandoffRun(d, chain);
      if !handoff.ok then handoff
      else Run(handoff.writes + (RollbackWrites(d, agent, chain) + UnlinkMarks(chain)), true)
  }

  function UnlinkRun(d: Disk, agent: Agent, root: Option<string>, p: Path): Run {
    if HasActiveSuccessor(d.manifests, agent, root, p) then Run([], false)
    else match ManifestChainOf(d.manifests, agent, root, p)
      case Err(_) => Run([], false)
      case Ok(chain) => UnlinkChain(d, agent, chain)
  }

  // All pending credentials go back to one agent home.
  predicate SingleHome(chain: seq<Link>) {
    forall h, k :: h in Homes(chain) && k in Homes(chain) ==> h == k
  }

  // `e` is `d` with keys added.
  ghost predicate OnlyKeysAdded(d: Disk, e: Disk) {
    && e == d.(auths := e.auths)
    && forall h, s :: s in AuthOf(d, h) ==> s in AuthOf(e, h) && AuthOf(e, h)[s] == AuthOf(d, h)[s]
  }

  // A refused unlink has changed no file, no binding and no manifest; at most
  // it has added keys that were absent, and with a single agent home not even those.
  lemma RefusalChangesNothing(d: Disk, agent: Agent, root: Option<string>, p: Path)
    requires !UnlinkRun(d, agent, root, p).ok
    ensures OnlyKeysAdded(d, Replay(d, UnlinkRun(d, agent, root, p).writes))
    ensures ManifestChainOf(d.manifests, agent, root, p).Ok? && SingleHome(ManifestChainOf(d.manifests, agent, root, p).value)
            ==> UnlinkRun(d, agent, root, p).writes == []
  {
    var run := UnlinkRun(d, agent, root, p);
    if run.writes != [] {
      ChainRefusal(d, agent, ManifestChainOf(d.manifests, agent, root, p).value);
    }
    GrantsAddKeys(d, run.writes);
  }

  lemma ChainRefusal(d: Disk, agent: Agent, chain: seq<Link>)
    requires !UnlinkChain(d, agent, chain).ok
    ensures forall w :: w in UnlinkChain(d, agent, chain).writes ==> IsGrant(w)
    ensures SingleHome(chain) ==> UnlinkChain(d, agent, chain).writes == []
  {
    if Accepted(d, agent, chain) && Loaded(d, chain).Ok? && HandoffRun(d, chain).writes != [] {
      var accounts := Loaded(d, chain).value;
      GrantsOnly(d, chain, ById(accounts), BySource(accounts), RequiresCredentials(chain[0].manifest), Ascending(Homes(chain)));
      if SingleHome(chain) {
        OneHome(Homes(chain));
        ShortGrantRun(d, chain, ById(accounts), BySource(accounts), RequiresCredentials(chain[0].manifest), Ascending(Homes(chain)));
      }
    }
  }

  lemma ShortGrantRun(d: Disk, chain: seq<Link>, byId: map<AccountId, Account>, bySource: map<Provider, Account>,
                      required: bool, homes: seq<Home>)
    requires |homes| <= 1
    ensures !GrantRun(d, chain, byId, bySource, required, homes).ok ==> GrantRun(d, chain, byId, bySource, required, homes).writes == []
  {
    if homes != [] {
      assert homes[1..] == [];
      assert GrantRun(d, chain, byId, bySource, required, []).ok;
    }
  }

  lemma OneHome(homes: set<Home>)
    requires forall h, k :: h in homes && k in homes ==> h == k
    ensures |Ascending(homes)| <= 1
  {
    AscendingDistinct(homes);
    AscendingMembers(homes);
    var order := Ascending(homes);
    forall i, j | 0 <= i < |order| && 0 <= j < |order| ensures order[i] == order[j] {
      assert order[i] in order && order[j] in order;
    }
  }

  // ---- The outcome of a complete unlink ----

  function Marked(m: Manifest): Manifest {
    m.(handoff := true, unlinked := true)
  }

  lemma {:induction false} MarksAll(d: Disk, chain: seq<Link>)
    requires forall i, j :: 0 <= i < j < |chain| ==> chain[i].path != chain[j].path
    ensures var e := Replay(d, UnlinkMarks(chain));
            && e == d.(manifests := e.manifests)
            && e.manifests.Keys == d.manifests.Keys + Paths(chain)
            && (forall l :: l in chain ==> e.manifests[l.path] == Marked(l.manifest))
            && (forall p :: p in d.manifests && p !in Paths(chain) ==> e.manifests[p] == d.manifests[p])
    decreases |chain|
  {
    if chain != [] {
      var rest, w := chain[1..], WriteManifest(chain[0].path, Marked(chain[0].manifest));
      MarksAll(d, rest);
      ReplayConcat(d, UnlinkMarks(rest), [w]);
      ReplayOne(Replay(d, UnlinkMarks(rest)), w);
      assert forall l :: l in chain <==> l == chain[0] || l in rest;
      assert Paths(chain) == {chain[0].path} + Paths(rest);
    }
  }

  // A complete unlink: files as the chain rollback leaves them, the oldest
  // recorded binding, nobody else's binding touched, every manifest marked.
  lemma UnlinkOutcome(d: Disk, agent: Agent, chain: seq<Link>)
    requires UnlinkChain(d, agent, chain).ok
    requires forall i, j :: 0 <= i < j < |chain| ==> chain[i].path != chain[j].path
    ensures var e := Replay(d, UnlinkChain(d, agent, chain).writes);
            && e.files == RestoreChain(d.files, chain) && e.rootAccounts == d.rootAccounts
            && e.auths == Replay(d, HandoffRun(d, chain).writes).auths
            && Lookup(e.bindings, agent) == OldestBefore(Lookup(d.bindings, agent), chain)
            && (forall a :: a != agent ==> Lookup(e.bindings, a) == Lookup(d.bindings, a))
            && (forall l :: l in chain ==> l.path in e.manifests && e.manifests[l.path] == Marked(l.manifest))
            && (forall p :: p !in Paths(chain) ==> Lookup(e.manifests, p) == Lookup(d.manifests, p))
  {
    var handoff := HandoffRun(d, chain).writes;
    var rollback := RollbackWrites(d, agent, chain);
    ReplayConcat(d, handoff, rollback + UnlinkMarks(chain));
    HandoffFrame(d, chain);
    var d1 := Replay(d, handoff);
    ReplayConcat(d1, rollback, UnlinkMarks(chain));
    ReplayConcat(d1, ChainWrites(chain), BindingRun(agent, Lookup(d.bindings, agent), chain).writes);
    ReplayChain(d1, chain);
    BindingRestored(d1.(files := RestoreChain(d1.files, chain)), agent, chain);
    MarksAll(Replay(d1, rollback), chain);
  }

  lemma GrantsFrame(d: Disk, chain: seq<Link>, accounts: seq<Account>)
    requires chain != []
    ensures var e := Replay(d, Grants(d, chain, accounts).writes); e == d.(auths := e.auths)
  {
    GrantsOnly(d, chain, ById(accounts), BySource(accounts), RequiresCredentials(chain[0].manifest), Ascending(Homes(chain)));
    GrantsAddKeys(d, Grants(d, chain, accounts).writes);
  }

  // The handoff writes keys and the manifests of the chain, nothing else.
  lemma HandoffFrame(d: Disk, chain: seq<Link>)
    requires chain != []
    ensures var e := Replay(d, HandoffRun(d, chain).writes);
            && e == d.(auths := e.auths, manifests := e.manifests)
            && (forall p :: p !in Paths(chain) ==> Lookup(e.manifests, p) == Lookup(d.manifests, p))
  {
    if HandoffRun(d, chain).writes != [] {
      var accounts := Loaded(d, chain).value;
      var grants := Grants(d, chain, accounts).writes;
      GrantsFrame(d, chain, accounts);
      if HandoffRun(d, chain).writes != grants {
        ReplayConcat(d, grants, MarkHandoff(chain));
        MarksInChain(Replay(d, grants), chain);
      }
    }
  }

  lemma {:induction false} MarksInChain(d: Disk, chain: seq<Link>)
    ensures var e := Replay(d, MarkHandoff(chain));
            && e == d.(manifests := e.manifests)
            && (forall p :: p !in Paths(chain) ==> Lookup(e.manifests, p) == Lookup(d.manifests, p))
    decreases |chain|
  {
    if chain != [] {
      var w := if Pending(chain[0].manifest) then [WriteManifest(chain[0].path, chain[0].manifest.(handoff := true))] else [];
      ReplayConcat(d, w, MarkHandoff(chain[1..]));
      if w != [] {
        ReplayOne(d, w[0]);
      }
      MarksInChain(Replay(d, w), chain[1..]);
      assert chain[0] in chain && forall l :: l in chain[1..] ==> l in chain;
      assert Paths(chain) == {chain[0].path} + Paths(chain[1..]);
    }
  }
}
