// The persistent state one agent migration reads and writes, and the
// individual writes it performs. A crash (or an I/O error) keeps a prefix of
// the list of writes of a run.
module MigrationDisk {
  import opened Wrappers

  type Provider = string
  type AccountId = string
  type Agent = string
  type Secret = string

  // Agent home directories, numbered in the order of their auth file paths.
  type Home = nat

  // `BackupOf` is the adjacent "<name>.bak.<timestamp>" copy of a file.
  // `ManifestAt` is a manifest file of the agent, numbered in name order.
  datatype Path =
    | File(name: string)
    | Relative(name: string)
    | ManifestAt(stamp: nat)
    | BackupOf(original: Path, stamp: nat)

  const SHARD: Path := File("auth.d/agent.yaml")
  const FRAGMENT: Path := File("config.d/agent.toml")
  const GATEWAY_AUTH: Path := File("auth.yaml")
  const AGENT_AUTH: Path := File("auth.json")
  const AGENT_CONFIG: Path := File("agent.yaml")
  const CURRENT_VERSION: nat := 5

  predicate Absolute(p: Path) {
    match p
    case Relative(_) => false
    case BackupOf(original, _) => Absolute(original)
    case _ => true
  }

  // Gateway: the gateway owns the credential. Synced: kept in step with the
  // agent's own store. Foreign: not managed on behalf of this agent.
  datatype Ownership = Gateway | Synced | Foreign

  datatype Account = Account(id: AccountId, source: Provider, provider: Provider,
                             owner: Ownership, enabled: bool, exportable: bool, secret: Secret)

  datatype AccountSource = FromAgent | FromMain

  datatype Binding = Binding(source: AccountSource, detail: string)

  // A parsed auth shard or any other bytes.
  datatype Content = Text(text: string) | Accounts(accounts: map<AccountId, Account>)

  // Digests are injective here, so `applied` holds the digested content itself.
  datatype FileBackup = FileBackup(original: Path, backup: Option<Path>, existed: bool,
                                   created: bool, applied: Option<Content>)

  datatype BindingChange = BindingChange(before: Option<Binding>, after: Binding, applied: bool)

  datatype Route = Route(source: Provider, provider: Provider, account: AccountId, transfer: bool)

  // `paths` are the gateway's auth file, the agent's auth file (that of `home`)
  // and the agent config file, as far as the manifest records them.
  datatype Manifest = Manifest(
    version: nat, completed: bool, agent: Agent,
    paths: seq<Path>, gatewayAuth: bool, shard: Option<Path>, home: Option<Home>,
    routes: seq<Route>, previous: Option<Path>, unlinked: bool, handoff: bool,
    change: Option<BindingChange>, imported: seq<AccountId>, files: seq<FileBackup>)

  datatype Link = Link(path: Path, manifest: Manifest)

  datatype Disk = Disk(
    files: map<Path, Content>,
    auths: map<Home, map<Provider, Secret>>,
    bindings: map<Agent, Binding>,
    manifests: map<Path, Manifest>,
    rootAccounts: map<AccountId, Account>)

  function Lookup<K, V>(m: map<K, V>, k: K): Option<V> {
    if k in m then Some(m[k]) else None
  }

  function AuthOf(d: Disk, h: Home): map<Provider, Secret> {
    if h in d.auths then d.auths[h] else map[]
  }

  // The accounts of the shard stored at `p`; an absent shard has none.
  function ShardAccounts(files: map<Path, Content>, p: Path): map<AccountId, Account> {
    if p in files && files[p].Accounts? then files[p].accounts else map[]
  }

  predicate ShardReadable(files: map<Path, Content>, p: Path) {
    p in files ==> files[p].Accounts?
  }

  datatype Write =
    | WriteFile(path: Path, content: Content)
    | CopyFile(from: Path, to: Path)
    | RemoveFile(gone: Path)
    | WriteManifest(at: Path, manifest: Manifest)
    | GrantKeys(home: Home, keys: map<Provider, Secret>) // insert-if-absent
    | StripKeys(stripHome: Home, sources: set<Provider>)
    | SetBinding(agent: Agent, binding: Option<Binding>)

  function UpdateBinding(bindings: map<Agent, Binding>, agent: Agent, binding: Option<Binding>): map<Agent, Binding> {
    match binding
    case Some(b) => bindings[agent := b]
    case None => bindings - {agent}
  }

  function Step(d: Disk, w: Write): Disk {
    match w
    case WriteFile(p, c) => d.(files := d.files[p := c])
    case CopyFile(p, q) => if p in d.files then d.(files := d.files[q := d.files[p]]) else d
    case RemoveFile(p) => d.(files := d.files - {p})
    case WriteManifest(p, m) => d.(manifests := d.manifests[p := m])
    case GrantKeys(h, keys) => d.(auths := d.auths[h := keys + AuthOf(d, h)])
    case StripKeys(h, sources) => d.(auths := d.auths[h := AuthOf(d, h) - sources])
    case SetBinding(a, b) => d.(bindings := UpdateBinding(d.bindings, a, b))
  }

  function Replay(d: Disk, ws: seq<Write>): Disk
    decreases |ws|
  {
    if ws == [] then d else Replay(Step(d, ws[0]), ws[1..])
  }

  lemma {:induction false} ReplayConcat(d: Disk, a: seq<Write>, b: seq<Write>)
    ensures Replay(d, a + b) == Replay(Replay(d, a), b)
    decreases |a|
  {
    if a == [] {
      assert a + b == b;
    } else {
      assert (a + b)[1..] == a[1..] + b;
      ReplayConcat(Step(d, a[0]), a[1..], b);
    }
  }

  lemma ReplayOne(d: Disk, w: Write)
    ensures Replay(d, [w]) == Step(d, w)
  {
    assert Replay(d, [w]) == Replay(Step(d, w), [w][1..]);
  }

  // Cutting a concatenation cuts inside one of its parts.
  lemma CutOfConcat(d: Disk, a: seq<Write>, b: seq<Write>, k: nat)
    requires k <= |a| + |b|
    ensures k <= |a| ==> Replay(d, (a + b)[..k]) == Replay(d, a[..k])
    ensures k >= |a| ==> Replay(d, (a + b)[..k]) == Replay(Replay(d, a), b[..k - |a|])
  {
    if k <= |a| {
      assert (a + b)[..k] == a[..k];
    }
    if k >= |a| {
      assert (a + b)[..k] == a + b[..k - |a|];
      ReplayConcat(d, a, b[..k - |a|]);
    }
  }
}
