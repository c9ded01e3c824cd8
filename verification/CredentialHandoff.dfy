// Handing transferred credentials back to the agent before its gateway shard
// is rolled back.
module CredentialHandoff {
  import opened Wrappers
  import opened MigrationDisk
  import opened BindingRollback

  datatype HandoffError =
    | MissingGatewayAuth | UnreadableShard | RouteNotRestorable
    | AccountMissing | SourceMissing | LegacyAccountMissing | NotExportable

  // ---- Loading the accounts of the newest manifest ----

  predicate HasCheckpointedTransferShard(m: Manifest) {
    && m.shard.Some?
    && (exists e :: e in m.files && e.original == m.shard.value && e.applied.Some?)
    && (exists r :: r in m.routes && r.transfer)
  }

  predicate RequiresCredentials(m: Manifest) {
    m.completed || HasCheckpointedTransferShard(m)
  }

  function FindAccount(d: Disk, m: Manifest, id: AccountId): Option<Account> {
    match m.shard
    case Some(p) => Lookup(ShardAccounts(d.files, p), id)
    case None => Lookup(d.rootAccounts, id)
  }

  // The account a transferred route names can be exported back to the agent.
  predicate RouteRestorable(d: Disk, m: Manifest, r: Route) {
    && r.account in m.imported
    && FindAccount(d, m, r.account).Some?
    && var a := FindAccount(d, m, r.account).value;
      a.owner == Gateway && a.provider == r.provider && a.source == r.source && a.exportable
  }

  function CollectAccounts(d: Disk, m: Manifest, ids: seq<AccountId>): Result<seq<Account>, HandoffError> {
    if ids == [] then Ok([])
    else match FindAccount(d, m, ids[0])
      case None => if RequiresCredentials(m) then Err(AccountMissing) else CollectAccounts(d, m, ids[1..])
      case Some(a) =>
        match CollectAccounts(d, m, ids[1..])
        case Err(e) => Err(e)
        case Ok(rest) => Ok([a] + rest)
  }

  function LoadTransferred(d: Disk, m: Manifest): Result<seq<Account>, HandoffError> {
    if m.imported == [] then Ok([])
    else if !m.gatewayAuth then Err(MissingGatewayAuth)
    else if m.shard.Some? && !ShardReadable(d.files, m.shard.value) then Err(UnreadableShard)
    else if HasCheckpointedTransferShard(m) && exists r :: r in m.routes && r.transfer && !RouteRestorable(d, m, r) then
      Err(RouteNotRestorable)
    else CollectAccounts(d, m, m.imported)
  }

  // Later accounts replace earlier ones with the same key.
  function BySource(accounts: seq<Account>): map<Provider, Account> {
    if accounts == [] then map[] else map[accounts[0].source := accounts[0]] + BySource(accounts[1..])
  }

  function ById(accounts: seq<Account>): map<AccountId, Account> {
    if accounts == [] then map[] else map[accounts[0].id := accounts[0]] + ById(accounts[1..])
  }

  lemma {:induction false} BySourceFrom(accounts: seq<Account>)
    ensures forall s :: s in BySource(accounts) ==> BySource(accounts)[s] in accounts && BySource(accounts)[s].source == s
    ensures forall a :: a in accounts ==> a.source in BySource(accounts)
  {
    if accounts != [] {
      BySourceFrom(accounts[1..]);
    }
  }

  lemma {:induction false} Collected(d: Disk, m: Manifest, ids: seq<AccountId>)
    requires CollectAccounts(d, m, ids).Ok?
    ensures forall a :: a in CollectAccounts(d, m, ids).value <==> exists id :: id in ids && FindAccount(d, m, id) == Some(a)
    ensures RequiresCredentials(m) ==> forall id :: id in ids ==> FindAccount(d, m, id).Some?
  {
    if ids != [] {
      Collected(d, m, ids[1..]);
      assert forall id :: id in ids <==> id == ids[0] || id in ids[1..];
    }
  }

  // ---- Which sources must be handed back, and where ----

  predicate Pending(m: Manifest) {
    !m.handoff
  }

  function TransferSources(m: Manifest): set<Provider> {
    set r | r in m.routes && r.transfer :: r.source
  }

  // Manifests older than provider routes list only the imported accounts.
  function ManifestTargets(m: Manifest, byId: map<AccountId, Account>): set<Provider> {
    if m.routes == [] then set id | id in m.imported && id in byId :: byId[id].source
    else TransferSources(m)
  }

  predicate LegacyMissing(m: Manifest, byId: map<AccountId, Account>) {
    Pending(m) && m.home.Some? && m.routes == [] && m.completed && exists id :: id in m.imported && id !in byId
  }

  function TargetsAt(chain: seq<Link>, byId: map<AccountId, Account>, h: Home): set<Provider> {
    if chain == [] then {}
    else
      var m := chain[0].manifest;
      (if Pending(m) && m.home == Some(h) then ManifestTargets(m, byId) else {}) + TargetsAt(chain[1..], byId, h)
  }

  function Homes(chain: seq<Link>): set<Home> {
    set l | l in chain && Pending(l.manifest) && l.manifest.home.Some? :: l.manifest.home.value
  }

  predicate IsLeast(s: set<Home>, m: Home) {
    m in s && forall x :: x in s ==> m <= x
  }

  lemma {:induction false} LeastExists(s: set<Home>) returns (m: Home)
    requires s != {}
    ensures IsLeast(s, m)
  {
    var y :| y in s;
    var rest := s - {y};
    m := y;
    if rest != {} {
      var z := LeastExists(rest);
      m := if y <= z then y else z;
    }
    forall x | x in s ensures m <= x {
      assert x == y || x in rest;
    }
  }

  lemma SomeLeast(s: set<Home>)
    requires s != {}
    ensures exists m :: IsLeast(s, m)
  {
    var m := LeastExists(s);
  }

  // Homes in ascending order of their auth paths.
  function Ascending(s: set<Home>): seq<Home> {
    if s == {} then [] else
      SomeLeast(s);
      var m :| IsLeast(s, m);
      [m] + Ascending(s - {m})
  }

  lemma {:induction false} AscendingMembers(s: set<Home>)
    ensures forall h :: h in Ascending(s) <==> h in s
  {
    if s != {} {
      SomeLeast(s);
      var m := Ascending(s)[0];
      AscendingMembers(s - {m});
    }
  }

  // ---- The handoff ----

  // The keys the handoff has accounts for at home `h`.
  function KeysAt(chain: seq<Link>, byId: map<AccountId, Account>, bySource: map<Provider, Account>, h: Home): map<Provider, Secret> {
    map s | s in TargetsAt(chain, byId, h) && s in bySource :: bySource[s].secret
  }

  // The keys to insert for one home: fail closed when the newest manifest
  // guarantees its credentials, skip an unavailable source otherwise.
  function KeysFor(d: Disk, chain: seq<Link>, byId: map<AccountId, Account>, bySource: map<Provider, Account>, required: bool, h: Home)
    : Result<map<Provider, Secret>, HandoffError>
  {
    var sources := TargetsAt(chain, byId, h);
    if required && exists s :: s in sources && s !in bySource then Err(SourceMissing)
    else if exists s :: s in sources && s in bySource && s !in AuthOf(d, h) && !bySource[s].exportable then Err(NotExportable)
    else Ok(KeysAt(chain, byId, bySource, h))
  }

  function GrantWrite(h: Home, keys: map<Provider, Secret>): seq<Write> {
    if keys == map[] then [] else [GrantKeys(h, keys)]
  }

  function GrantRun(d: Disk, chain: seq<Link>, byId: map<AccountId, Account>, bySource: map<Provider, Account>,
                    required: bool, homes: seq<Home>): Run
  {
    if homes == [] then Run([], true)
    else match KeysFor(d, chain, byId, bySource, required, homes[0])
      case Err(_) => Run([], false)
      case Ok(keys) =>
        var rest := GrantRun(d, chain, byId, bySource, required, homes[1..]);
        Run(GrantWrite(homes[0], keys) + rest.writes, rest.ok)
  }

  function MarkHandoff(chain: seq<Link>): seq<Write> {
    if chain == [] then []
    else (if Pending(chain[0].manifest) then [WriteManifest(chain[0].path, chain[0].manifest.(handoff := true))] else [])
         + MarkHandoff(chain[1..])
  }

  function Loaded(d: Disk, chain: seq<Link>): Result<seq<Account>, HandoffError> {
    if Homes(chain) == {} || chain == [] then Ok([]) else LoadTransferred(d, chain[0].manifest)
  }

  function Grants(d: Disk, chain: seq<Link>, accounts: seq<Account>): Run
    requires chain != []
  {
    GrantRun(d, chain, ById(accounts), BySource(accounts), RequiresCredentials(chain[0].manifest), Ascending(Homes(chain)))
  }

  function HandoffRun(d: Disk, chain: seq<Link>): Run
    requires chain != []
  {
    if forall l :: l in chain ==> l.manifest.handoff then Run([], true)
    else match Loaded(d, chain)
      case Err(_) => Run([], false)
      case Ok(accounts) =>
        if exists l :: l in chain && LegacyMissing(l.manifest, ById(accounts)) then Run([], false)
        else
          var grants := Grants(d, chain, accounts);
          if grants.ok then Run(grants.writes + MarkHandoff(chain), true) else grants
  }

  // ---- What the handoff does to the agent's keys ----

  predicate IsGrant(w: Write) {
    w.GrantKeys?
  }

  lemma {:induction false} GrantsOnly(d: Disk, chain: seq<Link>, byId: map<AccountId, Account>, bySource: map<Provider, Account>,
                                      required: bool, homes: seq<Home>)
    ensures forall w :: w in GrantRun(d, chain, byId, bySource, required, homes).writes ==> IsGrant(w)
  {
    if homes != [] {
      GrantsOnly(d, chain, byId, bySource, required, homes[1..]);
    }
  }

  // Grants only ever add keys; nothing else on disk changes.
  lemma {:induction false} GrantsAddKeys(d: Disk, ws: seq<Write>)
    requires forall w :: w in ws ==> IsGrant(w)
    ensures var e := Replay(d, ws);
            && e == d.(auths := e.auths)
            && forall h, s :: s in AuthOf(d, h) ==> s in AuthOf(e, h) && AuthOf(e, h)[s] == AuthOf(d, h)[s]
    decreases |ws|
  {
    if ws != [] {
      assert ws[0] in ws;
      GrantsAddKeys(Step(d, ws[0]), ws[1..]);
    }
  }

  lemma GrantStep(e: Disk, home: Home, keys: map<Provider, Secret>, h: Home)
    ensures var f := Replay(e, GrantWrite(home, keys));
            && f == e.(auths := f.auths)
            && AuthOf(f, h) == if h == home then keys + AuthOf(e, h) else AuthOf(e, h)
  {
    if keys != map[] {
      ReplayOne(e, GrantKeys(home, keys));
    } else {
      assert keys + AuthOf(e, h) == AuthOf(e, h);
    }
  }

  // After a complete grant run a source is present at a home exactly when it
  // was there already or its account could be loaded.
  lemma {:induction false} GrantsExactly(d: Disk, e: Disk, chain: seq<Link>, byId: map<AccountId, Account>, bySource: map<Provider, Account>,
                                         required: bool, homes: seq<Home>, h: Home)
    requires GrantRun(d, chain, byId, bySource, required, homes).ok
    requires forall i, j :: 0 <= i < j < |homes| ==> homes[i] != homes[j]
    ensures var f := Replay(e, GrantRun(d, chain, byId, bySource, required, homes).writes);
            && f == e.(auths := f.auths)
            && AuthOf(f, h) == if h in homes then KeysAt(chain, byId, bySource, h) + AuthOf(e, h) else AuthOf(e, h)
    decreases |homes|
  {
    if homes != [] {
      var w := GrantWrite(homes[0], KeysAt(chain, byId, bySource, homes[0]));
      GrantStep(e, homes[0], KeysAt(chain, byId, bySource, homes[0]), h);
      ReplayConcat(e, w, GrantRun(d, chain, byId, bySource, required, homes[1..]).writes);
      GrantsExactly(d, Replay(e, w), chain, byId, bySource, required, homes[1..], h);
      assert h in homes <==> h == homes[0] || h in homes[1..];
    }
  }

  lemma {:induction false} AscendingDistinct(s: set<Home>)
    ensures forall i, j :: 0 <= i < j < |Ascending(s)| ==> Ascending(s)[i] != Ascending(s)[j]
  {
    if s != {} {
      SomeLeast(s);
      var m := Ascending(s)[0];
      AscendingMembers(s - {m});
      AscendingDistinct(s - {m});
      assert Ascending(s)[1..] == Ascending(s - {m});
      forall i, j | 0 <= i < j < |Ascending(s)| ensures Ascending(s)[i] != Ascending(s)[j] {
        assert Ascending(s)[j] == Ascending(s - {m})[j - 1];
        assert Ascending(s)[j] in Ascending(s - {m});
      }
    }
  }

  // The keys a handoff of `accounts` puts at home `h`.
  function HandedKeys(chain: seq<Link>, accounts: seq<Account>, h: Home): map<Provider, Secret> {
    KeysAt(chain, ById(accounts), BySource(accounts), h)
  }

  lemma NothingHanded(chain: seq<Link>, accounts: seq<Account>, h: Home)
    requires h !in Homes(chain)
    ensures HandedKeys(chain, accounts, h) == map[]
  {
    NoHomeNoTargets(chain, ById(accounts), h);
  }

  // No other home is touched.
  lemma NotGranted(d: Disk, e: Disk, chain: seq<Link>, accounts: seq<Account>, h: Home)
    requires h !in Homes(chain) && AuthOf(e, h) == AuthOf(d, h)
    ensures AuthOf(e, h) == HandedKeys(chain, accounts, h) + AuthOf(d, h)
  {
    NothingHanded(chain, accounts, h);
    assert map[] + AuthOf(d, h) == AuthOf(d, h);
  }

  lemma GrantedKeys(d: Disk, chain: seq<Link>, accounts: seq<Account>, h: Home)
    requires chain != [] && Grants(d, chain, accounts).ok
    ensures var e := Replay(d, Grants(d, chain, accounts).writes);
            e == d.(auths := e.auths) && AuthOf(e, h) == HandedKeys(chain, accounts, h) + AuthOf(d, h)
  {
    var homes := Ascending(Homes(chain));
    AscendingDistinct(Homes(chain));
    AscendingMembers(Homes(chain));
    GrantsExactly(d, d, chain, ById(accounts), BySource(accounts), RequiresCredentials(chain[0].manifest), homes, h);
    if h !in Homes(chain) {
      NotGranted(d, Replay(d, Grants(d, chain, accounts).writes), chain, accounts, h);
    }
  }

  // The keys the agent owns at `h` after a complete handoff.
  lemma HandoffKeys(d: Disk, chain: seq<Link>, h: Home)
    requires chain != [] && HandoffRun(d, chain).ok
    requires exists l :: l in chain && Pending(l.manifest)
    ensures Loaded(d, chain).Ok?
    ensures var e := Replay(d, HandoffRun(d, chain).writes);
            && e == d.(auths := e.auths, manifests := e.manifests)
            && AuthOf(e, h) == HandedKeys(chain, Loaded(d, chain).value, h) + AuthOf(d, h)
  {
    var accounts := Loaded(d, chain).value;
    GrantedKeys(d, chain, accounts, h);
    var grants := Grants(d, chain, accounts).writes;
    assert HandoffRun(d, chain).writes == grants + MarkHandoff(chain);
    ReplayConcat(d, grants, MarkHandoff(chain));
    MarksKeepRest(Replay(d, grants), chain);
  }

  lemma {:induction false} NoHomeNoTargets(chain: seq<Link>, byId: map<AccountId, Account>, h: Home)
    requires h !in Homes(chain)
    ensures TargetsAt(chain, byId, h) == {}
  {
    if chain != [] {
      assert forall l :: l in chain[1..] ==> l in chain;
      assert h !in Homes(chain[1..]);
      NoHomeNoTargets(chain[1..], byId, h);
      assert chain[0] in chain;
    }
  }

  lemma {:induction false} MarksKeepRest(d: Disk, chain: seq<Link>)
    ensures var e := Replay(d, MarkHandoff(chain)); e == d.(manifests := e.manifests)
    decreases |chain|
  {
    if chain != [] {
      var w := if Pending(chain[0].manifest) then [WriteManifest(chain[0].path, chain[0].manifest.(handoff := true))] else [];
      ReplayConcat(d, w, MarkHandoff(chain[1..]));
      if w != [] {
        ReplayOne(d, w[0]);
      }
      MarksKeepRest(Replay(d, w), chain[1..]);
    }
  }
}
