// Link, sync and unlink as they run: loops that change the stored state in
// place, write by write. Each method performs exactly the writes that the
// functions of Reconcile and Unlink list.
module MigrationMachine {
  import opened Wrappers
  import opened MigrationDisk
  import opened ManifestChain
  import opened ManifestLog
  import opened FileRollback
  import opened BindingRollback
  import opened CredentialHandoff
  import opened Unlink
  import opened Reconcile
  import opened ReconcileCuts
  import opened UnlinkCuts

  class Machine {
    var files: map<Path, Content>
    var auths: map<Home, map<Provider, Secret>>
    var bindings: map<Agent, Binding>
    var manifests: map<Path, Manifest>
    const rootAccounts: map<AccountId, Account>
    ghost var written: seq<Write>

    constructor (d: Disk)
      ensures Now() == d && written == []
    {
      files, auths, bindings, manifests, rootAccounts := d.files, d.auths, d.bindings, d.manifests, d.rootAccounts;
      written := [];
    }

    function Now(): Disk
      reads this
    {
      Disk(files, auths, bindings, manifests, rootAccounts)
    }

    // Exactly the writes `ws` were performed, in this order.
    twostate predicate Did(ws: seq<Write>)
      reads this
    {
      Now() == Replay(old(Now()), ws) && written == old(written) + ws
    }

    method Perform(w: Write)
      modifies this
      ensures Did([w])
    {
      ghost var before := Now();
      match w {
        case WriteFile(p, c) => files := files[p := c];
        case CopyFile(p, q) =>
          if p in files {
            files := files[q := files[p]];
          }
        case RemoveFile(p) => files := files - {p};
        case WriteManifest(p, m) => manifests := manifests[p := m];
        case GrantKeys(h, keys) => auths := auths[h := keys + AuthOf(Now(), h)];
        case StripKeys(h, sources) => auths := auths[h := AuthOf(Now(), h) - sources];
        case SetBinding(a, b) => bindings := UpdateBinding(bindings, a, b);
      }
      written := written + [w];
      ReplayOne(before, w);
    }

    // ---- Link and sync ----

    // Remembers the first observation of a file; an existing one is copied aside.
    method BackupPathFor(p: Path, stamp: nat, entries: seq<FileBackup>) returns (existed: bool, more: seq<FileBackup>)
      modifies this
      ensures (forall e :: e in entries ==> e.original != p) ==>
                && existed == (p in old(files))
                && more == entries + [FileBackup(p, if existed then Some(BackupOf(p, stamp)) else None, existed, false, None)]
                && Did(if existed then [CopyFile(p, BackupOf(p, stamp))] else [])
      ensures (exists e :: e in entries && e.original == p) ==> more == entries && Did([])
    {
      for i := 0 to |entries|
        invariant forall j :: 0 <= j < i ==> entries[j].original != p
        invariant Did([])
      {
        if entries[i].original == p {
          return entries[i].existed, entries;
        }
      }
      existed := p in files;
      if existed {
        Perform(CopyFile(p, BackupOf(p, stamp)));
      }
      more := entries + [FileBackup(p, if existed then Some(BackupOf(p, stamp)) else None, existed, false, None)];
    }

    // One more tracked file.
    method BackUpOne(p: Path, stamp: nat, entries: seq<FileBackup>) returns (more: seq<FileBackup>)
      requires forall e :: e in entries ==> e.original != p
      modifies this
      ensures more == entries + [Entry(old(files), p, stamp)]
      ensures Did(if p in old(files) then [CopyFile(p, BackupOf(p, stamp))] else [])
      ensures forall q: Path :: q.File? ==> Lookup(files, q) == Lookup(old(files), q)
    {
      var existed, listed := BackupPathFor(p, stamp, entries);
      if existed {
        ReplayOne(old(Now()), CopyFile(p, BackupOf(p, stamp)));
      }
      MarkLast(entries, listed[|entries|], existed);
      more := MarkCreated(listed, p, existed);
    }

    method BackUpAll(paths: seq<Path>, stamp: nat) returns (entries: seq<FileBackup>)
      requires forall i :: 0 <= i < |paths| ==> paths[i].File?
      requires forall i, j :: 0 <= i < j < |paths| ==> paths[i] != paths[j]
      modifies this
      ensures entries == Entries(old(files), paths, stamp)
      ensures Did(BackupWrites(old(files), paths, stamp))
    {
      ghost var d := Now();
      entries := [];
      for i := 0 to |paths|
        invariant entries == Entries(d.files, paths[..i], stamp)
        invariant Did(BackupWrites(d.files, paths[..i], stamp))
        invariant forall p: Path :: p.File? ==> Lookup(files, p) == Lookup(d.files, p)
      {
        EntriesMore(d.files, paths, i, stamp);
        EntriesAt(d.files, paths[..i], stamp);
        assert Lookup(files, paths[i]) == Lookup(d.files, paths[i]);
        entries := BackUpOne(paths[i], stamp, entries);
        ReplayConcat(d, BackupWrites(d.files, paths[..i], stamp), if paths[i] in d.files then [CopyFile(paths[i], BackupOf(paths[i], stamp))] else []);
      }
      assert paths[..|paths|] == paths;
    }

    // Records the digest of the first entry for `p`.
    method SetAppliedDigest(entries: seq<FileBackup>, p: Path, image: Content) returns (more: seq<FileBackup>)
      ensures more == SetApplied(entries, p, image)
    {
      for i := 0 to |entries|
        invariant forall j :: 0 <= j < i ==> entries[j].original != p
      {
        if entries[i].original == p {
          SetAppliedSkips(entries, i, p, image);
          return entries[..i] + [entries[i].(applied := Some(image))] + entries[i + 1..];
        }
      }
      SetAppliedSkips(entries, |entries|, p, image);
      more := entries;
    }

    // One step and, unless it strips keys, its checkpoint in the manifest.
    method RunTask(plan: Plan, m: Manifest, t: Task) returns (after: Manifest)
      modifies this
      ensures after == AfterTask(m, t) && Did(TaskWrites(plan, m, t))
    {
      Perform(Action(plan, t));
      match t {
        case Strip(_) =>
          return m;
        case Bind =>
          after := if m.change.Some? then m.(change := Some(m.change.value.(applied := true))) else m;
        case _ =>
          var entries := SetAppliedDigest(m.files, Image(t).value.0, Image(t).value.1);
          after := m.(files := entries);
      }
      var w := WriteManifest(ManifestAt(plan.stamp), after);
      Perform(w);
      ReplayConcat(old(Now()), [Action(plan, t)], [w]);
      assert [Action(plan, t)] + [w] == TaskWrites(plan, m, t);
    }

    method RunTasks(plan: Plan, first: Manifest, ts: seq<Task>) returns (m: Manifest)
      modifies this
      ensures m == AfterTasks(first, ts) && Did(TasksWrites(plan, first, ts))
    {
      ghost var d, done := Now(), [];
      m := first;
      assert ts[0..] == ts;
      for i := 0 to |ts|
        invariant Did(done) && done + TasksWrites(plan, m, ts[i..]) == TasksWrites(plan, first, ts)
        invariant AfterTasks(m, ts[i..]) == AfterTasks(first, ts)
      {
        assert ts[i..][0] == ts[i] && ts[i..][1..] == ts[i + 1..];
        ghost var e, ws := Now(), TaskWrites(plan, m, ts[i]);
        var after := RunTask(plan, m, ts[i]);
        Composed(d, done, e, ws, Now(), old(written), written);
        assert (done + ws) + TasksWrites(plan, after, ts[i + 1..]) == done + TasksWrites(plan, m, ts[i..]);
        done := done + ws;
        m := after;
      }
      assert done + [] == done;
    }

    method Open(plan: Plan, first: Manifest)
      requires Tidy(plan) && first == FirstManifest(Now(), plan)
      modifies this
      ensures Did(Opening(old(Now()), plan))
    {
      ghost var d := Now();
      var entries := BackUpAll(Tracked(plan), plan.stamp);
      var w := WriteManifest(ManifestAt(plan.stamp), first.(files := entries));
      Perform(w);
      ReplayConcat(d, BackupWrites(d.files, Tracked(plan), plan.stamp), [w]);
    }

    method OpenAndRun(plan: Plan) returns (m: Manifest)
      requires Tidy(plan)
      modifies this
      ensures m == LastManifest(old(Now()), plan) && Did(Opening(old(Now()), plan) + Body(old(Now()), plan))
    {
      ghost var d := Now();
      var first, tasks := FirstManifest(Now(), plan), Tasks(Now(), plan);
      Open(plan, first);
      m := RunTasks(plan, first, tasks);
      ReplayConcat(d, Opening(d, plan), Body(d, plan));
    }

    // A whole link or sync; it is declared complete only if its checkpoints are valid.
    method Apply(plan: Plan) returns (ok: bool)
      requires Tidy(plan)
      modifies this
      ensures Did(ApplyRun(old(Now()), plan).writes) && ok == ApplyRun(old(Now()), plan).ok
    {
      ghost var d := Now();
      var m := OpenAndRun(plan);
      ok := CheckpointsValid(Now(), m);
      if ok {
        var w := WriteManifest(ManifestAt(plan.stamp), m.(completed := true));
        Perform(w);
        ReplayConcat(d, Opening(d, plan) + Body(d, plan), [w]);
      }
    }

    // ---- Unlink ----

    // Entries are restored in reverse order.
    method RestoreManifestFiles(m: Manifest)
      modifies this
      ensures Did(EntriesWrites(m.files))
    {
      var i := |m.files|;
      while i > 0
        invariant 0 <= i <= |m.files|
        invariant Did(EntriesWrites(m.files[i..]))
      {
        i := i - 1;
        var e := m.files[i];
        assert m.files[i..][0] == e && m.files[i..][1..] == m.files[i + 1..];
        if e.created {
          Perform(RemoveFile(e.original));
        } else if e.backup.Some? {
          Perform(CopyFile(e.backup.value, e.original));
        }
        ReplayConcat(old(Now()), EntriesWrites(m.files[i + 1..]), EntryWrites(e));
      }
      assert m.files[0..] == m.files;
    }

    // The rollback of a whole chain, newest manifest first.
    method RestoreFiles(chain: seq<Link>)
      modifies this
      ensures Did(ChainWrites(chain))
    {
      ghost var d, done := Now(), [];
      assert chain[0..] == chain;
      for i := 0 to |chain|
        invariant Did(done) && done + ChainWrites(chain[i..]) == ChainWrites(chain)
      {
        assert chain[i..][0] == chain[i] && chain[i..][1..] == chain[i + 1..];
        ghost var e, more := Now(), EntriesWrites(chain[i].manifest.files);
        RestoreManifestFiles(chain[i].manifest);
        Composed(d, done, e, more, Now(), old(written), written);
        assert (done + more) + ChainWrites(chain[i + 1..]) == done + ChainWrites(chain[i..]);
        done := done + more;
      }
      assert done == ChainWrites(chain);
    }

    // Every manifest of the chain, oldest first.
    method MarkUnlinked(chain: seq<Link>)
      modifies this
      ensures Did(UnlinkMarks(chain))
    {
      var i := |chain|;
      assert chain[|chain|..] == [];
      while i > 0
        invariant 0 <= i <= |chain|
        invariant Did(UnlinkMarks(chain[i..]))
      {
        i := i - 1;
        assert chain[i..][0] == chain[i] && chain[i..][1..] == chain[i + 1..];
        var w := WriteManifest(chain[i].path, Marked(chain[i].manifest));
        Perform(w);
        ReplayConcat(old(Now()), UnlinkMarks(chain[i + 1..]), [w]);
      }
      assert chain[0..] == chain;
    }

    // Every pending manifest of the chain, newest first.
    method MarkHandedOff(chain: seq<Link>)
      modifies this
      ensures Did(MarkHandoff(chain))
    {
      ghost var done := [];
      assert chain[0..] == chain;
      for i := 0 to |chain|
        invariant Did(done) && done + MarkHandoff(chain[i..]) == MarkHandoff(chain)
      {
        MarkNext(chain, i, done);
        if Pending(chain[i].manifest) {
          var w := WriteManifest(chain[i].path, chain[i].manifest.(handoff := true));
          Perform(w);
          ReplayConcat(old(Now()), done, [w]);
          done := done + [w];
        }
      }
      assert done == MarkHandoff(chain);
    }

    // Puts one recorded binding back.
    method SetTo(agent: Agent, b: Option<Binding>)
      modifies this
      ensures Did([SetBinding(agent, b)]) && Lookup(bindings, agent) == b
    {
      SetIsLookup(bindings, agent, b);
      ReplayOne(Now(), SetBinding(agent, b));
      Perform(SetBinding(agent, b));
    }

    // A binding already restored is skipped; an unknown one stops the run.
    method RestoreBindings(agent: Agent, chain: seq<Link>) returns (ok: bool)
      modifies this
      ensures Did(BindingRun(agent, Lookup(old(bindings), agent), chain).writes)
      ensures ok == BindingRun(agent, Lookup(old(bindings), agent), chain).ok
    {
      ghost var d, whole, done := Now(), BindingRun(agent, Lookup(bindings, agent), chain), [];
      assert chain[0..] == chain;
      for i := 0 to |chain|
        invariant Did(done)
        invariant whole == After(done, BindingRun(agent, Lookup(bindings, agent), chain[i..]))
      {
        assert chain[i..][0] == chain[i] && chain[i..][1..] == chain[i + 1..];
        if chain[i].manifest.change.Some? {
          var change := chain[i].manifest.change.value;
          var current := Lookup(bindings, agent);
          if current == change.before {
            continue;
          }
          if current != Some(change.after) {
            assert done + [] == done;
            return false;
          }
          ghost var e, w := Now(), [SetBinding(agent, change.before)];
          SetTo(agent, change.before);
          Composed(d, done, e, w, Now(), old(written), written);
          AfterBoth(done, w, BindingRun(agent, change.before, chain[i + 1..]));
          done := done + w;
        }
      }
      assert done + [] == done;
      ok := true;
    }

    // ---- Handing credentials back ----

    // Accounts missing from the shard are an error only if the manifest
    // guarantees them.
    method LoadAccounts(m: Manifest) returns (r: Result<seq<Account>, HandoffError>)
      ensures r == LoadTransferred(Now(), m)
    {
      if m.imported == [] {
        return Ok([]);
      }
      if !m.gatewayAuth {
        return Err(MissingGatewayAuth);
      }
      if m.shard.Some? && !ShardReadable(files, m.shard.value) {
        return Err(UnreadableShard);
      }
      if HasCheckpointedTransferShard(m) && exists r :: r in m.routes && r.transfer && !RouteRestorable(Now(), m, r) {
        return Err(RouteNotRestorable);
      }
      var accounts: seq<Account> := [];
      assert m.imported[0..] == m.imported;
      Prepended([], CollectAccounts(Now(), m, m.imported));
      for i := 0 to |m.imported|
        invariant CollectAccounts(Now(), m, m.imported) == Prepend(accounts, CollectAccounts(Now(), m, m.imported[i..]))
      {
        assert m.imported[i..][0] == m.imported[i] && m.imported[i..][1..] == m.imported[i + 1..];
        var account := FindAccount(Now(), m, m.imported[i]);
        if account.Some? {
          Prepended(accounts, CollectAccounts(Now(), m, m.imported[i..]));
          Prepended(accounts + [account.value], CollectAccounts(Now(), m, m.imported[i + 1..]));
          accounts := accounts + [account.value];
        } else if RequiresCredentials(m) {
          return Err(AccountMissing);
        }
      }
      Prepended(accounts, Ok([]));
      r := Ok(accounts);
    }

    // The keys owed to one home, inserted if absent.
    method GrantHome(chain: seq<Link>, byId: map<AccountId, Account>, bySource: map<Provider, Account>, required: bool, h: Home)
      returns (keys: Result<map<Provider, Secret>, HandoffError>)
      modifies this
      ensures keys == KeysFor(old(Now()), chain, byId, bySource, required, h)
      ensures Did(if keys.Ok? then GrantWrite(h, keys.value) else [])
      ensures forall k :: k != h ==> AuthOf(Now(), k) == AuthOf(old(Now()), k)
    {
      keys := KeysFor(Now(), chain, byId, bySource, required, h);
      if keys.Ok? && keys.value != map[] {
        Perform(GrantKeys(h, keys.value));
        ReplayOne(old(Now()), GrantKeys(h, keys.value));
      }
    }

    // One insert for each agent home that is owed something.
    method GrantAll(chain: seq<Link>, byId: map<AccountId, Account>, bySource: map<Provider, Account>, required: bool, homes: seq<Home>)
      returns (ok: bool)
      requires forall i, j :: 0 <= i < j < |homes| ==> homes[i] != homes[j]
      modifies this
      ensures Did(GrantRun(old(Now()), chain, byId, bySource, required, homes).writes)
      ensures ok == GrantRun(old(Now()), chain, byId, bySource, required, homes).ok
    {
      ghost var d := Now();
      ghost var done := [];
      assert homes[0..] == homes;
      for i := 0 to |homes|
        invariant Did(done)
        invariant forall j :: i <= j < |homes| ==> AuthOf(Now(), homes[j]) == AuthOf(d, homes[j])
        invariant GrantRun(d, chain, byId, bySource, required, homes) == After(done, GrantRun(d, chain, byId, bySource, required, homes[i..]))
      {
        assert homes[i..][0] == homes[i] && homes[i..][1..] == homes[i + 1..];
        KeysForAgree(d, Now(), chain, byId, bySource, required, homes[i]);
        ghost var e := Now();
        var keys := GrantHome(chain, byId, bySource, required, homes[i]);
        if keys.Err? {
          assert done + [] == done;
          return false;
        }
        ghost var w := GrantWrite(homes[i], keys.value);
        Composed(d, done, e, w, Now(), old(written), written);
        AfterBoth(done, w, GrantRun(d, chain, byId, bySource, required, homes[i + 1..]));
        done := done + w;
      }
      assert done + [] == done;
      ok := true;
    }

    method GrantForChain(chain: seq<Link>, accounts: seq<Account>) returns (ok: bool)
      requires chain != []
      modifies this
      ensures ok == Grants(old(Now()), chain, accounts).ok && Did(Grants(old(Now()), chain, accounts).writes)
    {
      var homes := Homes(chain);
      AscendingDistinct(homes);
      ok := GrantAll(chain, ById(accounts), BySource(accounts), RequiresCredentials(chain[0].manifest), Ascending(homes));
    }

    method GrantAndMark(chain: seq<Link>, accounts: seq<Account>) returns (ok: bool)
      requires chain != []
      modifies this
      ensures ok == Grants(old(Now()), chain, accounts).ok
      ensures Did(Grants(old(Now()), chain, accounts).writes + (if ok then MarkHandoff(chain) else []))
    {
      ghost var d := Now();
      ghost var grants := Grants(d, chain, accounts).writes;
      ok := GrantForChain(chain, accounts);
      if ok {
        MarkHandedOff(chain);
        ReplayConcat(d, grants, MarkHandoff(chain));
      } else {
        assert grants + [] == grants;
      }
    }

    // Keys first, then the record that they were handed over.
    method RestorePendingCredentials(chain: seq<Link>) returns (ok: bool)
      requires chain != []
      modifies this
      ensures Did(HandoffRun(old(Now()), chain).writes) && ok == HandoffRun(old(Now()), chain).ok
    {
      if forall l :: l in chain ==> l.manifest.handoff {
        return true;
      }
      var loaded: Result<seq<Account>, HandoffError> := Ok([]);
      if Homes(chain) != {} {
        loaded := LoadAccounts(chain[0].manifest);
      }
      assert loaded == Loaded(Now(), chain);
      if loaded.Err? {
        return false;
      }
      if exists l :: l in chain && LegacyMissing(l.manifest, ById(loaded.value)) {
        return false;
      }
      ok := GrantAndMark(chain, loaded.value);
      assert Grants(old(Now()), chain, loaded.value).writes + [] == Grants(old(Now()), chain, loaded.value).writes;
    }

    // ---- Unlink ----

    // Another active manifest descends from `p`, or cannot be followed.
    method ActiveSuccessor(agent: Agent, root: Option<string>, p: Path) returns (found: bool)
      ensures found == HasActiveSuccessor(manifests, agent, root, p)
    {
      var rest := manifests.Keys;
      while rest != {}
        invariant rest <= manifests.Keys
        invariant forall q :: q in manifests && q !in rest ==> !Succeeds(manifests, agent, root, p, q)
        decreases |rest|
      {
        var q :| q in rest;
        rest := rest - {q};
        if q != p && q.ManifestAt? && manifests[q].agent == agent && !manifests[q].unlinked {
          var chain := WalkChain(manifests, agent, root, q);
          if chain.Err? || (chain.value != [] && p in Paths(chain.value[1..])) {
            assert Succeeds(manifests, agent, root, p, q);
            return true;
          }
        }
      }
      found := false;
    }

    // Files, then bindings.
    method RestoreAll(agent: Agent, chain: seq<Link>)
      requires BindingRun(agent, Lookup(bindings, agent), chain).ok
      modifies this
      ensures Did(RollbackWrites(old(Now()), agent, chain))
    {
      ghost var d := Now();
      ghost var ran := BindingRun(agent, Lookup(bindings, agent), chain).writes;
      RestoreFiles(chain);
      ReplayChain(d, chain);
      ghost var e := Now();
      var ok := RestoreBindings(agent, chain);
      Composed(d, ChainWrites(chain), e, ran, Now(), old(written), written);
    }

    // Files, bindings and marks, after the handoff.
    method RollBack(agent: Agent, chain: seq<Link>)
      requires BindingRun(agent, Lookup(bindings, agent), chain).ok
      modifies this
      ensures Did(RollbackWrites(old(Now()), agent, chain) + UnlinkMarks(chain))
    {
      ghost var d := Now();
      ghost var rollback := RollbackWrites(d, agent, chain);
      RestoreAll(agent, chain);
      ghost var e := Now();
      MarkUnlinked(chain);
      Composed(d, rollback, e, UnlinkMarks(chain), Now(), old(written), written);
    }

    // Every check that can refuse comes before the first write.
    method AcceptChain(agent: Agent, chain: seq<Link>) returns (ok: bool)
      requires BackupsApart(chain)
      ensures ok == Accepted(Now(), agent, chain)
    {
      if chain == [] || chain[0].manifest.unlinked {
        return false;
      }
      var safe := Preflight(files, chain);
      if !safe {
        return false;
      }
      ok := PreflightBindings(bindings, agent, chain);
    }

    method UnlinkAccepted(agent: Agent, chain: seq<Link>) returns (ok: bool)
      requires chain != [] && BindingRun(agent, Lookup(bindings, agent), chain).ok
      modifies this
      ensures ok == HandoffRun(old(Now()), chain).ok
      ensures ok ==> Did(HandoffRun(old(Now()), chain).writes + (RollbackWrites(old(Now()), agent, chain) + UnlinkMarks(chain)))
      ensures !ok ==> Did(HandoffRun(old(Now()), chain).writes)
    {
      ghost var d := Now();
      ghost var handoff := HandoffRun(d, chain).writes;
      BindingsHold(d, chain);
      ok := RestorePendingCredentials(chain);
      if ok {
        ghost var e := Now();
        RollBack(agent, chain);
        Composed(d, handoff, e, RollbackWrites(d, agent, chain) + UnlinkMarks(chain), Now(), old(written), written);
      }
    }

    // Exact for every chain whose backup copies are not themselves tracked
    // files, whoever wrote it.
    method Unlink(agent: Agent, root: Option<string>, p: Path) returns (ok: bool)
      requires forall chain :: ManifestChainOf(manifests, agent, root, p) == Ok(chain) ==> BackupsApart(chain)
      modifies this
      ensures Did(UnlinkRun(old(Now()), agent, root, p).writes) && ok == UnlinkRun(old(Now()), agent, root, p).ok
    {
      var succeeded := ActiveSuccessor(agent, root, p);
      if succeeded {
        return false;
      }
      var chain := WalkChain(manifests, agent, root, p);
      if chain.Err? {
        return false;
      }
      var accepted := AcceptChain(agent, chain.value);
      if !accepted {
        return false;
      }
      ok := UnlinkAccepted(agent, chain.value);
    }

    // Exact for every log that links and syncs write.
    method UnlinkLogged(agent: Agent, root: Option<string>, p: Path) returns (ok: bool)
      requires LogShape(agent, manifests)
      modifies this
      ensures Did(UnlinkRun(old(Now()), agent, root, p).writes) && ok == UnlinkRun(old(Now()), agent, root, p).ok
    {
      LoggedBackupsApart(agent, manifests, root, p);
      ok := Unlink(agent, root, p);
    }
  }

  lemma LoggedBackupsApart(agent: Agent, ms: map<Path, Manifest>, root: Option<string>, p: Path)
    requires LogShape(agent, ms)
    ensures forall chain :: ManifestChainOf(ms, agent, root, p) == Ok(chain) ==> BackupsApart(chain)
  {
    if p in ms {
      LogIsChain(agent, ms, root, p);
      LogBackupsApart(agent, ms, p);
    } else {
      ChainFromStep(ms, agent, root, [], {}, None, p);
    }
  }

  lemma MarkNext(chain: seq<Link>, i: nat, done: seq<Write>)
    requires i < |chain|
    ensures var mark := if Pending(chain[i].manifest) then [WriteManifest(chain[i].path, chain[i].manifest.(handoff := true))] else [];
            (done + mark) + MarkHandoff(chain[i + 1..]) == done + MarkHandoff(chain[i..])
  {
    assert chain[i..][0] == chain[i] && chain[i..][1..] == chain[i + 1..];
  }

  // One stretch of writes after another.
  lemma Composed(d: Disk, x: seq<Write>, e: Disk, y: seq<Write>, f: Disk, before: seq<Write>, after: seq<Write>)
    requires e == Replay(d, x) && f == Replay(e, y) && after == (before + x) + y
    ensures f == Replay(d, x + y) && after == before + (x + y)
  {
    ReplayConcat(d, x, y);
  }

  // The first entry of a file that did not exist is marked as created.
  function MarkCreated(entries: seq<FileBackup>, p: Path, existed: bool): seq<FileBackup> {
    if existed || entries == [] then entries
    else if entries[0].original == p then [entries[0].(created := true)] + entries[1..]
    else [entries[0]] + MarkCreated(entries[1..], p, existed)
  }

  lemma {:induction false} SetAppliedSkips(entries: seq<FileBackup>, i: nat, p: Path, image: Content)
    requires i <= |entries| && forall j :: 0 <= j < i ==> entries[j].original != p
    ensures i == |entries| ==> SetApplied(entries, p, image) == entries
    ensures i < |entries| && entries[i].original == p ==>
              SetApplied(entries, p, image) == entries[..i] + [entries[i].(applied := Some(image))] + entries[i + 1..]
  {
    if i > 0 {
      SetAppliedSkips(entries[1..], i - 1, p, image);
      assert entries == [entries[0]] + entries[1..];
    }
  }

  lemma {:induction false} MarkLast(entries: seq<FileBackup>, e: FileBackup, existed: bool)
    requires forall x :: x in entries ==> x.original != e.original
    ensures MarkCreated(entries + [e], e.original, existed) == entries + [if existed then e else e.(created := true)]
  {
    if entries != [] {
      assert (entries + [e])[1..] == entries[1..] + [e] && entries[0] in entries;
      MarkLast(entries[1..], e, existed);
    }
  }

  lemma {:induction false} EntriesMore(fs: Files, paths: seq<Path>, i: nat, stamp: nat)
    requires i < |paths|
    ensures Entries(fs, paths[..i + 1], stamp) == Entries(fs, paths[..i], stamp) + [Entry(fs, paths[i], stamp)]
    ensures BackupWrites(fs, paths[..i + 1], stamp)
         == BackupWrites(fs, paths[..i], stamp) + (if paths[i] in fs then [CopyFile(paths[i], BackupOf(paths[i], stamp))] else [])
    decreases |paths|
  {
    if i > 0 {
      assert paths[..i + 1][1..] == paths[1..][..i] && paths[..i][1..] == paths[1..][..i - 1];
      EntriesMore(fs, paths[1..], i - 1, stamp);
    } else {
      assert paths[..1][1..] == [] && paths[..0] == [];
    }
  }

  // The handoff leaves bindings alone.
  lemma BindingsHold(d: Disk, chain: seq<Link>)
    requires chain != []
    ensures Replay(d, HandoffRun(d, chain).writes).bindings == d.bindings
  {
    HandoffFrame(d, chain);
  }

  function Prepend(accounts: seq<Account>, r: Result<seq<Account>, HandoffError>): Result<seq<Account>, HandoffError> {
    match r case Err(e) => Err(e) case Ok(rest) => Ok(accounts + rest)
  }

  lemma Prepended(accounts: seq<Account>, r: Result<seq<Account>, HandoffError>)
    ensures accounts == [] ==> Prepend(accounts, r) == r
    ensures r.Ok? && r.value != [] ==> Prepend(accounts, r) == Prepend(accounts + [r.value[0]], Ok(r.value[1..]))
    ensures r == Ok([]) ==> Prepend(accounts, r) == Ok(accounts)
  {
    if r.Ok? && r.value != [] {
      assert r.value == [r.value[0]] + r.value[1..];
      assert accounts + r.value == (accounts + [r.value[0]]) + r.value[1..];
    }
    if accounts == [] && r.Ok? {
      assert accounts + r.value == r.value;
    }
    assert accounts + [] == accounts;
  }

  // A run after the writes `done`.
  function After(done: seq<Write>, rest: Run): Run {
    Run(done + rest.writes, rest.ok)
  }

  lemma AfterBoth(done: seq<Write>, more: seq<Write>, rest: Run)
    ensures After(done, After(more, rest)) == After(done + more, rest)
  {
    assert done + (more + rest.writes) == (done + more) + rest.writes;
  }

  // What is owed to a home depends only on the keys there.
  lemma KeysForAgree(d: Disk, e: Disk, chain: seq<Link>, byId: map<AccountId, Account>, bySource: map<Provider, Account>, required: bool, h: Home)
    requires AuthOf(d, h) == AuthOf(e, h)
    ensures KeysFor(d, chain, byId, bySource, required, h) == KeysFor(e, chain, byId, bySource, required, h)
  {
  }
}
