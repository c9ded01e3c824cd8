// One link or sync run: back files up, record an in-progress manifest, then
// save, strip and rewrite, checkpointing a digest after each tracked write.
module Reconcile {
  import opened Wrappers
  import opened MigrationDisk
  import opened ManifestChain
  import opened ManifestLog
  import opened BindingRollback
  import opened CredentialHandoff

  datatype Rewrite = Rewrite(path: Path, content: Content)

  datatype Plan = Plan(
    agent: Agent, stamp: nat, previous: Option<Path>, source: AccountSource, home: Home,
    imported: seq<Account>, transferred: set<Provider>, routes: seq<Route>,
    fragment: Content, rewrites: seq<Rewrite>, binding: Binding)

  // ---- What planning guarantees, and apply revalidates before it starts ----

  // The account source a manifest was written for.
  function SourceOf(m: Manifest): AccountSource {
    if m.gatewayAuth || m.shard.Some? || m.home.Some? || m.imported != [] || exists r :: r in m.routes && r.account != "" then
      FromAgent
    else
      FromMain
  }

  predicate PreviousAccepted(d: Disk, plan: Plan, p: Path) {
    && ManifestChainOf(d.manifests, plan.agent, None, p).Ok?
    && (forall l :: l in ManifestChainOf(d.manifests, plan.agent, None, p).value ==> l.manifest.completed)
    && p in d.manifests
    && SourceOf(d.manifests[p]) == plan.source
    && exists e :: e in d.manifests[p].files && e.original == FRAGMENT
  }

  function RouteFor(a: Account, transferred: set<Provider>): Route {
    Route(a.source, a.provider, a.id, a.source in transferred)
  }

  // `a` was read from the agent's own auth file at the plan's home.
  predicate Discovered(d: Disk, plan: Plan, a: Account) {
    && a.source in AuthOf(d, plan.home) && a.secret == AuthOf(d, plan.home)[a.source]
    && a.enabled && a.exportable
  }

  predicate HasEnabled(accounts: seq<Account>) {
    exists a :: a in accounts && a.enabled
  }

  predicate DistinctAccounts(accounts: seq<Account>) {
    forall i, j :: 0 <= i < j < |accounts| ==> accounts[i].source != accounts[j].source && accounts[i].id != accounts[j].id
  }

  // `a` is read from the agent now, or is what the gateway's shard holds already.
  predicate Taken(d: Disk, plan: Plan, a: Account) {
    var shard := ShardAccounts(d.files, SHARD);
    && a.owner == Gateway
    && if a.source in plan.transferred then Discovered(d, plan, a) else a.id in shard && shard[a.id] == a
  }

  predicate HasSource(accounts: seq<Account>, s: Provider) {
    exists a :: a in accounts && a.source == s
  }

  predicate CoversOwned(shard: map<AccountId, Account>, imported: seq<Account>) {
    forall id :: id in shard && shard[id].owner == Gateway ==> HasSource(imported, shard[id].source)
  }

  predicate RoutesMatch(plan: Plan) {
    plan.routes == seq(|plan.imported|, i requires 0 <= i < |plan.imported| => RouteFor(plan.imported[i], plan.transferred))
  }

  // The merge of the credentials the gateway holds in the agent's shard with
  // those discovered now; the discovered one wins for its source provider.
  predicate Merged(d: Disk, plan: Plan) {
    && HasEnabled(plan.imported) && DistinctAccounts(plan.imported)
    && (forall a :: a in plan.imported ==> Taken(d, plan, a))
    && CoversOwned(ShardAccounts(d.files, SHARD), plan.imported)
    && (forall s :: s in plan.transferred ==> HasSource(plan.imported, s))
    && RoutesMatch(plan)
  }

  // Copies of the discovered credentials; the agent keeps its own.
  predicate Copied(plan: Plan) {
    && HasEnabled(plan.imported) && (forall a :: a in plan.imported ==> a.owner == Synced)
    && plan.transferred == {} && forall r :: r in plan.routes ==> !r.transfer
  }

  predicate MainOnly(plan: Plan) {
    && plan.imported == [] && plan.transferred == {}
    && forall r :: r in plan.routes ==> !r.transfer && r.account == ""
  }

  // Linking OpenCode moves its credentials into the gateway; linking Codex CLI
  // copies them.
  const OPENCODE: Agent := "opencode"

  predicate MovesCredentials(agent: Agent) {
    agent == OPENCODE
  }

  predicate Moves(plan: Plan) {
    plan.source.FromAgent? && MovesCredentials(plan.agent)
  }

  // The credentials a link takes over.
  predicate TakesOver(d: Disk, plan: Plan) {
    if Moves(plan) then Merged(d, plan)
    else if plan.source.FromAgent? then Copied(plan)
    else MainOnly(plan)
  }

  ghost predicate Planned(d: Disk, plan: Plan) {
    && LatestIs(d.manifests, plan.previous)
    && (forall p :: p in d.manifests && p.ManifestAt? ==> p.stamp < plan.stamp)
    && (plan.previous.Some? ==> PreviousAccepted(d, plan, plan.previous.value))
    && ShardReadable(d.files, SHARD)
    && TakesOver(d, plan)
    && (forall i :: 0 <= i < |plan.rewrites| ==>
          plan.rewrites[i].path.File? && plan.rewrites[i].path != SHARD && plan.rewrites[i].path != FRAGMENT)
    && (forall i, j :: 0 <= i < j < |plan.rewrites| ==> plan.rewrites[i].path != plan.rewrites[j].path)
  }

  // ---- The backup entries ----

  function Tracked(plan: Plan): seq<Path> {
    (if plan.source.FromAgent? then [SHARD] else []) + [FRAGMENT]
    + seq(|plan.rewrites|, i requires 0 <= i < |plan.rewrites| => plan.rewrites[i].path)
  }

  // An existing file is copied aside; an absent one is remembered as created.
  function Entry(fs: map<Path, Content>, p: Path, stamp: nat): FileBackup {
    if p in fs then FileBackup(p, Some(BackupOf(p, stamp)), true, false, None)
    else FileBackup(p, None, false, true, None)
  }

  function Entries(fs: map<Path, Content>, paths: seq<Path>, stamp: nat): seq<FileBackup> {
    if paths == [] then [] else [Entry(fs, paths[0], stamp)] + Entries(fs, paths[1..], stamp)
  }

  function BackupWrites(fs: map<Path, Content>, paths: seq<Path>, stamp: nat): seq<Write> {
    if paths == [] then []
    else (if paths[0] in fs then [CopyFile(paths[0], BackupOf(paths[0], stamp))] else []) + BackupWrites(fs, paths[1..], stamp)
  }

  // ---- The manifest and its checkpoints ----

  predicate Transfers(plan: Plan) {
    exists r :: r in plan.routes && r.transfer
  }

  function RecordedPaths(plan: Plan, home: Option<Home>): seq<Path> {
    (if plan.source.FromAgent? then [GATEWAY_AUTH] else []) + (if home.Some? then [AGENT_AUTH] else []) + [AGENT_CONFIG]
  }

  function FirstManifest(d: Disk, plan: Plan): Manifest {
    var home := if plan.source.FromAgent? && Transfers(plan) then Some(plan.home) else None;
    Manifest(CURRENT_VERSION, false, plan.agent,
             RecordedPaths(plan, home), plan.source.FromAgent?, if plan.source.FromAgent? then Some(SHARD) else None, home,
             plan.routes, plan.previous, false, home.None?,
             Some(BindingChange(Lookup(d.bindings, plan.agent), plan.binding, false)),
             seq(|plan.imported|, i requires 0 <= i < |plan.imported| => plan.imported[i].id),
             Entries(d.files, Tracked(plan), plan.stamp))
  }

  // Records the digest of the first entry for `p`.
  function SetApplied(files: seq<FileBackup>, p: Path, image: Content): seq<FileBackup> {
    if files == [] then []
    else if files[0].original == p then [files[0].(applied := Some(image))] + files[1..]
    else [files[0]] + SetApplied(files[1..], p, image)
  }

  function Checkpoint(m: Manifest, p: Path, image: Content): Manifest {
    m.(files := SetApplied(m.files, p, image))
  }

  // ---- The steps after the in-progress manifest ----

  // The shard with replaced accounts removed, accounts missing from the
  // source disabled, and the imported accounts upserted.
  function SavedShard(shard: map<AccountId, Account>, imported: seq<Account>): map<AccountId, Account> {
    var kept := map id | id in shard && !Replaced(id, shard[id], imported) ::
      if shard[id].owner == Synced && (forall a :: a in imported ==> a.id != id) then shard[id].(enabled := false) else shard[id];
    kept + ById(imported)
  }

  // The import has the source of the account held under `id` under another id.
  predicate Replaced(id: AccountId, held: Account, imported: seq<Account>) {
    held.owner == Gateway && exists a :: a in imported && a.source == held.source && a.id != id
  }

  datatype Task =
    | SaveShard(accounts: map<AccountId, Account>)
    | Bind
    | Put(path: Path, content: Content)
    | Strip(sources: set<Provider>)

  function Tasks(d: Disk, plan: Plan): seq<Task> {
    (if plan.source.FromAgent? then [SaveShard(SavedShard(ShardAccounts(d.files, SHARD), plan.imported))] else [])
    + [Bind, Put(FRAGMENT, plan.fragment)]
    + (if plan.source.FromAgent? && plan.transferred * AuthOf(d, plan.home).Keys != {} then [Strip(plan.transferred)] else [])
    + seq(|plan.rewrites|, i requires 0 <= i < |plan.rewrites| => Put(plan.rewrites[i].path, plan.rewrites[i].content))
  }

  // The path and image a task leaves to be checkpointed.
  function Image(t: Task): Option<(Path, Content)> {
    match t
    case SaveShard(accounts) => Some((SHARD, Accounts(accounts)))
    case Put(p, c) => Some((p, c))
    case _ => None
  }

  function Action(plan: Plan, t: Task): Write {
    match t
    case SaveShard(accounts) => WriteFile(SHARD, Accounts(accounts))
    case Bind => SetBinding(plan.agent, Some(plan.binding))
    case Put(p, c) => WriteFile(p, c)
    case Strip(sources) => StripKeys(plan.home, sources)
  }

  function AfterTask(m: Manifest, t: Task): Manifest {
    match t
    case Bind => if m.change.Some? then m.(change := Some(m.change.value.(applied := true))) else m
    case Strip(_) => m
    case _ => Checkpoint(m, Image(t).value.0, Image(t).value.1)
  }

  function TaskWrites(plan: Plan, m: Manifest, t: Task): seq<Write> {
    if t.Strip? then [Action(plan, t)]
    else [Action(plan, t), WriteManifest(ManifestAt(plan.stamp), AfterTask(m, t))]
  }

  function TasksWrites(plan: Plan, m: Manifest, ts: seq<Task>): seq<Write>
    decreases |ts|
  {
    if ts == [] then [] else TaskWrites(plan, m, ts[0]) + TasksWrites(plan, AfterTask(m, ts[0]), ts[1..])
  }

  function AfterTasks(m: Manifest, ts: seq<Task>): Manifest
    decreases |ts|
  {
    if ts == [] then m else AfterTasks(AfterTask(m, ts[0]), ts[1..])
  }

  // ---- The run ----

  function Opening(d: Disk, plan: Plan): seq<Write> {
    BackupWrites(d.files, Tracked(plan), plan.stamp) + [WriteManifest(ManifestAt(plan.stamp), FirstManifest(d, plan))]
  }

  function Body(d: Disk, plan: Plan): seq<Write> {
    TasksWrites(plan, FirstManifest(d, plan), Tasks(d, plan))
  }

  // The manifest in memory once every step is done.
  function LastManifest(d: Disk, plan: Plan): Manifest {
    AfterTasks(FirstManifest(d, plan), Tasks(d, plan))
  }

  // The checks before the manifest is declared complete.
  predicate CheckpointsValid(d: Disk, m: Manifest) {
    && (m.change.Some? ==> m.change.value.applied && Lookup(d.bindings, m.agent) == Some(m.change.value.after))
    && (m.shard.None? ==> forall r :: r in m.routes ==> !r.transfer)
    && (m.shard.Some? ==>
          && m.gatewayAuth && ShardReadable(d.files, m.shard.value)
          && (exists e :: e in m.files && e.original == m.shard.value && e.applied.Some?)
          && (forall id :: id in m.imported ==>
                FindAccount(d, m, id).Some? && FindAccount(d, m, id).value.owner != Foreign)
          && (forall r :: r in m.routes && r.transfer ==>
                RouteRestorable(d, m, r) && FindAccount(d, m, r.account).value.enabled))
    && (forall e :: e in m.files && Some(e.original) != m.shard ==>
          e.applied.Some? && Lookup(d.files, e.original) == e.applied)
  }

  function ApplyRun(d: Disk, plan: Plan): Run {
    var ws := Opening(d, plan) + Body(d, plan);
    var m := LastManifest(d, plan);
    if CheckpointsValid(Replay(d, ws), m) then
      Run(ws + [WriteManifest(ManifestAt(plan.stamp), m.(completed := true))], true)
    else
      Run(ws, false)
  }
}
