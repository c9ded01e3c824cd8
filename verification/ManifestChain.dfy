// Walking the manifests of one agent through `previous_manifest`.
module ManifestChain {
  import opened Wrappers
  import opened MigrationDisk

  datatype ChainError =
    | RelativeManifestPath | Cycle | Unreadable | TwoRelativeManifests
    | RelativeInCurrentVersion | MissingLegacyRoot | RelativeLegacyRoot | WrongAgent

  // Every path a manifest asks unlink to act on.
  function RestorePaths(m: Manifest): seq<Path> {
    m.paths + OptionSeq(m.shard) + OptionSeq(m.previous)
    + seq(|m.files|, i requires 0 <= i < |m.files| => m.files[i].original)
    + BackupPaths(m.files)
  }

  function OptionSeq<T>(o: Option<T>): seq<T> {
    match o case Some(x) => [x] case None => []
  }

  function BackupPaths(files: seq<FileBackup>): seq<Path> {
    if files == [] then [] else OptionSeq(files[0].backup) + BackupPaths(files[1..])
  }

  predicate HasRelativePath(m: Manifest) {
    exists p :: p in RestorePaths(m) && !Absolute(p)
  }

  // A relative restore path is read from the legacy root directory.
  function ResolveLegacy(root: string, p: Path): Path {
    match p
    case Relative(name) => File(root + "/" + name)
    case BackupOf(original, stamp) => BackupOf(ResolveLegacy(root, original), stamp)
    case _ => p
  }

  function ResolveOption(root: string, p: Option<Path>): Option<Path> {
    match p case Some(q) => Some(ResolveLegacy(root, q)) case None => None
  }

  function ResolveFiles(root: string, files: seq<FileBackup>): seq<FileBackup> {
    seq(|files|, i requires 0 <= i < |files| =>
      files[i].(original := ResolveLegacy(root, files[i].original), backup := ResolveOption(root, files[i].backup)))
  }

  function NormalizeLegacyPaths(m: Manifest, root: string): Manifest {
    m.(paths := seq(|m.paths|, i requires 0 <= i < |m.paths| => ResolveLegacy(root, m.paths[i])),
       shard := ResolveOption(root, m.shard), previous := ResolveOption(root, m.previous),
       files := ResolveFiles(root, m.files))
  }

  predicate AbsoluteRoot(root: string) {
    root != "" && root[0] == '/'
  }

  function PrepareForRestore(m: Manifest, legacyRoot: Option<string>): Result<Manifest, ChainError> {
    if !HasRelativePath(m) then Ok(m)
    else if m.version >= CURRENT_VERSION then Err(RelativeInCurrentVersion)
    else match legacyRoot
         case None => Err(MissingLegacyRoot)
         case Some(root) => if AbsoluteRoot(root) then Ok(NormalizeLegacyPaths(m, root)) else Err(RelativeLegacyRoot)
  }

  // The stored entry of `l` is readable, belongs to the agent, and `l` is its restorable form.
  predicate Restorable(ms: map<Path, Manifest>, agent: Agent, legacyRoot: Option<string>, l: Link) {
    && Absolute(l.path)
    && l.path in ms
    && PrepareForRestore(ms[l.path], legacyRoot) == Ok(l.manifest)
    && l.manifest.agent == agent
  }

  // One of the paths an unlink would act on is relative.
  predicate Unrooted(m: Manifest) {
    || (exists p :: p in m.paths && !Absolute(p))
    || (m.shard.Some? && !Absolute(m.shard.value)) || (m.previous.Some? && !Absolute(m.previous.value))
    || (exists f :: f in m.files && (!Absolute(f.original) || (f.backup.Some? && !Absolute(f.backup.value))))
  }

  lemma {:induction false} BackupPathsAre(files: seq<FileBackup>)
    ensures forall p :: p in BackupPaths(files) <==> exists f :: f in files && f.backup == Some(p)
  {
    if files != [] {
      BackupPathsAre(files[1..]);
      assert forall f :: f in files <==> f == files[0] || f in files[1..];
    }
  }

  lemma RelativeExactly(m: Manifest)
    ensures HasRelativePath(m) <==> Unrooted(m)
  {
    BackupPathsAre(m.files);
    var originals := seq(|m.files|, i requires 0 <= i < |m.files| => m.files[i].original);
    assert forall f :: f in m.files ==> f.original in originals by {
      forall f | f in m.files ensures f.original in originals {
        var i :| 0 <= i < |m.files| && m.files[i] == f;
        assert originals[i] == f.original;
      }
    }
    assert forall p :: p in RestorePaths(m) <==> || p in m.paths || m.shard == Some(p) || m.previous == Some(p) || p in originals || p in BackupPaths(m.files);
  }

  lemma {:induction false} ResolvedIsAbsolute(root: string, p: Path)
    ensures Absolute(ResolveLegacy(root, p)) && (Absolute(p) ==> ResolveLegacy(root, p) == p)
    ensures p.Relative? ==> ResolveLegacy(root, p) == File(root + "/" + p.name)
  {
    match p case BackupOf(original, _) => ResolvedIsAbsolute(root, original); case _ =>
  }

  // Only the paths change, each in its place.
  predicate SameButPaths(m: Manifest, n: Manifest) {
    && n == m.(paths := n.paths, shard := n.shard, previous := n.previous, files := n.files)
    && |n.paths| == |m.paths| && (n.shard.Some? <==> m.shard.Some?) && (n.previous.Some? <==> m.previous.Some?)
    && |n.files| == |m.files|
    && forall i :: 0 <= i < |m.files| ==>
         && n.files[i] == m.files[i].(original := n.files[i].original, backup := n.files[i].backup)
         && (n.files[i].backup.Some? <==> m.files[i].backup.Some?)
  }

  // A manifest is refused exactly if it has relative paths and is not an older
  // one under an absolute root; what is restored has none, and a manifest
  // without any is restored as it is.
  lemma PreparedExactly(m: Manifest, root: Option<string>)
    ensures PrepareForRestore(m, root).Ok? <==>
              !Unrooted(m) || (m.version < CURRENT_VERSION && root.Some? && root.value != "" && root.value[0] == '/')
    ensures PrepareForRestore(m, root).Ok? ==> !Unrooted(PrepareForRestore(m, root).value) && SameButPaths(m, PrepareForRestore(m, root).value)
    ensures !Unrooted(m) ==> PrepareForRestore(m, root) == Ok(m)
  {
    RelativeExactly(m);
    if Unrooted(m) && PrepareForRestore(m, root).Ok? {
      forall p ensures Absolute(ResolveLegacy(root.value, p)) {
        ResolvedIsAbsolute(root.value, p);
      }
    }
  }

  // What a manifest chain is: restorable manifests, each the recorded
  // predecessor of the one before it, down to one without a predecessor,
  // never twice the same and with at most one legacy relative manifest.
  ghost predicate IsChain(ms: map<Path, Manifest>, agent: Agent, legacyRoot: Option<string>, path: Path, chain: seq<Link>) {
    && chain != []
    && chain[0].path == path
    && (forall i :: 0 <= i < |chain| ==> Restorable(ms, agent, legacyRoot, chain[i]))
    && (forall i :: 0 <= i < |chain| - 1 ==> chain[i].manifest.previous == Some(chain[i + 1].path))
    && chain[|chain| - 1].manifest.previous == None
    && (forall i, j :: 0 <= i < j < |chain| ==> chain[i].path != chain[j].path)
    && (forall i, j :: 0 <= i < j < |chain| && chain[i].path in ms && chain[j].path in ms ==>
          !(HasRelativePath(ms[chain[i].path]) && HasRelativePath(ms[chain[j].path])))
  }

  // Two chains from one manifest agree link by link.
  lemma {:induction false} ChainIsUnique(ms: map<Path, Manifest>, agent: Agent, legacyRoot: Option<string>, path: Path,
                                         a: seq<Link>, b: seq<Link>, i: nat)
    requires IsChain(ms, agent, legacyRoot, path, a) && IsChain(ms, agent, legacyRoot, path, b)
    requires i < |a|
    ensures i < |b| && a[i] == b[i]
  {
    if i > 0 {
      ChainIsUnique(ms, agent, legacyRoot, path, a, b, i - 1);
      assert a[i - 1].manifest.previous == Some(a[i].path);
      assert Restorable(ms, agent, legacyRoot, b[i]);
    } else {
      assert Restorable(ms, agent, legacyRoot, b[0]);
    }
    assert Restorable(ms, agent, legacyRoot, a[i]);
  }

  // One round of the walk: the checks on manifest `p`, in order.
  function Visit(ms: map<Path, Manifest>, agent: Agent, legacyRoot: Option<string>,
                 seen: set<Path>, relative: Option<Path>, p: Path): Result<Link, ChainError> {
    if !Absolute(p) then Err(RelativeManifestPath)
    else if p in seen then Err(Cycle)
    else if p !in ms then Err(Unreadable)
    else if HasRelativePath(ms[p]) && relative.Some? then Err(TwoRelativeManifests)
    else match PrepareForRestore(ms[p], legacyRoot)
         case Err(e) => Err(e)
         case Ok(m) => if m.agent != agent then Err(WrongAgent) else Ok(Link(p, m))
  }

  // The walk from `next`, with the links collected and the manifests seen so far.
  function ChainFrom(ms: map<Path, Manifest>, agent: Agent, legacyRoot: Option<string>,
                     chain: seq<Link>, seen: set<Path>, relative: Option<Path>, next: Option<Path>)
    : Result<seq<Link>, ChainError>
    decreases |ms.Keys - seen|
  {
    if next.None? then Ok(chain)
    else match Visit(ms, agent, legacyRoot, seen, relative, next.value)
      case Err(e) => Err(e)
      case Ok(l) =>
        SeenGrows(ms.Keys, seen, l.path);
        ChainFrom(ms, agent, legacyRoot, chain + [l], seen + {l.path}, NowRelative(ms, relative, l.path), l.manifest.previous)
  }

  function NowRelative(ms: map<Path, Manifest>, relative: Option<Path>, p: Path): Option<Path>
    requires p in ms
  {
    if HasRelativePath(ms[p]) then Some(p) else relative
  }

  lemma SeenGrows(keys: set<Path>, seen: set<Path>, p: Path)
    requires p in keys && p !in seen
    ensures |keys - (seen + {p})| < |keys - seen|
  {
    assert keys - seen == (keys - (seen + {p})) + {p};
  }

  function ManifestChainOf(ms: map<Path, Manifest>, agent: Agent, legacyRoot: Option<string>, path: Path)
    : Result<seq<Link>, ChainError>
  {
    ChainFrom(ms, agent, legacyRoot, [], {}, None, Some(path))
  }

  // The walk as the code performs it: it ends on every stored graph, cyclic ones included.
  method WalkChain(ms: map<Path, Manifest>, agent: Agent, legacyRoot: Option<string>, path: Path)
    returns (r: Result<seq<Link>, ChainError>)
    ensures r == ManifestChainOf(ms, agent, legacyRoot, path)
  {
    var chain: seq<Link> := [];
    var seen: set<Path> := {};
    var relative: Option<Path> := None;
    var current := Some(path);
    while current.Some?
      invariant ManifestChainOf(ms, agent, legacyRoot, path)
             == ChainFrom(ms, agent, legacyRoot, chain, seen, relative, current)
      decreases |ms.Keys - seen|, current.Some?
    {
      var visited := Visit(ms, agent, legacyRoot, seen, relative, current.value);
      if visited.Err? {
        return Err(visited.error);
      }
      var l := visited.value;
      SeenGrows(ms.Keys, seen, l.path);
      relative := NowRelative(ms, relative, l.path);
      current := l.manifest.previous;
      chain := chain + [l];
      seen := seen + {l.path};
    }
    r := Ok(chain);
  }

  // The walk succeeds exactly on chains: `Ok(chain)` is the chain from `path`,
  // and an error means that there is none.
  lemma {:induction false} WalkIsExact(ms: map<Path, Manifest>, agent: Agent, legacyRoot: Option<string>, path: Path, chain: seq<Link>)
    ensures ManifestChainOf(ms, agent, legacyRoot, path) == Ok(chain) <==> IsChain(ms, agent, legacyRoot, path, chain)
  {
    WalkOutcome(ms, agent, legacyRoot, path, [], {}, None, Some(path));
    var r := ManifestChainOf(ms, agent, legacyRoot, path);
    if r.Ok? && IsChain(ms, agent, legacyRoot, path, chain) {
      ChainsEqual(ms, agent, legacyRoot, path, r.value, chain);
    }
  }

  lemma ChainsEqual(ms: map<Path, Manifest>, agent: Agent, legacyRoot: Option<string>, path: Path, a: seq<Link>, b: seq<Link>)
    requires IsChain(ms, agent, legacyRoot, path, a) && IsChain(ms, agent, legacyRoot, path, b)
    ensures a == b
  {
    forall i | 0 <= i < |a| ensures i < |b| && a[i] == b[i] {
      ChainIsUnique(ms, agent, legacyRoot, path, a, b, i);
    }
    ChainIsUnique(ms, agent, legacyRoot, path, a, b, |a| - 1);
    ChainIsUnique(ms, agent, legacyRoot, path, b, a, |b| - 1);
  }

  lemma ChainFromStep(ms: map<Path, Manifest>, agent: Agent, legacyRoot: Option<string>,
                      walked: seq<Link>, seen: set<Path>, relative: Option<Path>, p: Path)
    ensures Visit(ms, agent, legacyRoot, seen, relative, p).Err? ==>
              ChainFrom(ms, agent, legacyRoot, walked, seen, relative, Some(p)).Err?
    ensures Visit(ms, agent, legacyRoot, seen, relative, p).Ok? ==>
              var l := Visit(ms, agent, legacyRoot, seen, relative, p).value;
              && l.path == p && p in ms
              && ChainFrom(ms, agent, legacyRoot, walked, seen, relative, Some(p))
                 == ChainFrom(ms, agent, legacyRoot, walked + [l], seen + {p}, NowRelative(ms, relative, p), l.manifest.previous)
  {
  }

  lemma {:induction false} WalkOutcome(ms: map<Path, Manifest>, agent: Agent, legacyRoot: Option<string>, path: Path,
                                       walked: seq<Link>, seen: set<Path>, relative: Option<Path>, next: Option<Path>)
    requires Progress(ms, agent, legacyRoot, path, walked, next, seen, relative)
    ensures Outcome(ms, agent, legacyRoot, path, ChainFrom(ms, agent, legacyRoot, walked, seen, relative, next))
    decreases |ms.Keys - seen|
  {
    match next
    case None =>
      WalkEnds(ms, agent, legacyRoot, path, walked, seen, relative);
    case Some(p) =>
      ChainFromStep(ms, agent, legacyRoot, walked, seen, relative, p);
      match Visit(ms, agent, legacyRoot, seen, relative, p)
      case Err(_) =>
        VisitRefused(ms, agent, legacyRoot, path, walked, seen, relative, p);
      case Ok(l) =>
        VisitExtends(ms, agent, legacyRoot, path, walked, seen, relative, l);
        WalkOutcome(ms, agent, legacyRoot, path, walked + [l], seen + {l.path}, NowRelative(ms, relative, l.path), l.manifest.previous);
  }

  lemma WalkEnds(ms: map<Path, Manifest>, agent: Agent, legacyRoot: Option<string>, path: Path,
                 walked: seq<Link>, seen: set<Path>, relative: Option<Path>)
    requires Progress(ms, agent, legacyRoot, path, walked, None, seen, relative)
    ensures IsChain(ms, agent, legacyRoot, path, walked)
  {
  }

  ghost predicate Outcome(ms: map<Path, Manifest>, agent: Agent, legacyRoot: Option<string>, path: Path,
                          r: Result<seq<Link>, ChainError>) {
    if r.Ok? then IsChain(ms, agent, legacyRoot, path, r.value) else NoChain(ms, agent, legacyRoot, path)
  }

  ghost predicate NoChain(ms: map<Path, Manifest>, agent: Agent, legacyRoot: Option<string>, path: Path) {
    forall chain: seq<Link> :: !IsChain(ms, agent, legacyRoot, path, chain)
  }

  ghost predicate Progress(ms: map<Path, Manifest>, agent: Agent, legacyRoot: Option<string>, path: Path,
                           chain: seq<Link>, next: Option<Path>, seen: set<Path>, relative: Option<Path>) {
    && Walked(ms, agent, legacyRoot, path, chain, next)
    && seen == Paths(chain)
    && (relative.Some? <==> SomeRelative(ms, chain))
  }

  lemma VisitExtends(ms: map<Path, Manifest>, agent: Agent, legacyRoot: Option<string>, path: Path,
                     chain: seq<Link>, seen: set<Path>, relative: Option<Path>, l: Link)
    requires Progress(ms, agent, legacyRoot, path, chain, Some(l.path), seen, relative)
    requires Visit(ms, agent, legacyRoot, seen, relative, l.path) == Ok(l)
    ensures l.path in ms.Keys - seen
    ensures Progress(ms, agent, legacyRoot, path, chain + [l], l.manifest.previous, seen + {l.path},
                     NowRelative(ms, relative, l.path))
    ensures |ms.Keys - (seen + {l.path})| < |ms.Keys - seen|
  {
    WalkedExtends(ms, agent, legacyRoot, path, chain, l);
    assert ms.Keys - seen == (ms.Keys - (seen + {l.path})) + {l.path};
  }

  lemma VisitRefused(ms: map<Path, Manifest>, agent: Agent, legacyRoot: Option<string>, path: Path,
                     chain: seq<Link>, seen: set<Path>, relative: Option<Path>, p: Path)
    requires Progress(ms, agent, legacyRoot, path, chain, Some(p), seen, relative)
    requires Visit(ms, agent, legacyRoot, seen, relative, p).Err?
    ensures NoChain(ms, agent, legacyRoot, path)
  {
    if p in seen {
      CycleRefused(ms, agent, legacyRoot, path, chain, p);
    } else if Absolute(p) && p in ms && HasRelativePath(ms[p]) && relative.Some? {
      RelativeRefused(ms, agent, legacyRoot, path, chain, p);
    } else {
      Refused(ms, agent, legacyRoot, path, chain, p);
    }
  }

  // The invariant of the walk: `chain` is a chain whose last predecessor is `next`.
  ghost predicate Walked(ms: map<Path, Manifest>, agent: Agent, legacyRoot: Option<string>, path: Path,
                         chain: seq<Link>, next: Option<Path>) {
    && (chain == [] ==> next == Some(path))
    && (chain != [] ==> chain[0].path == path && chain[|chain| - 1].manifest.previous == next)
    && (forall i :: 0 <= i < |chain| ==> Restorable(ms, agent, legacyRoot, chain[i]))
    && (forall i :: 0 <= i < |chain| - 1 ==> chain[i].manifest.previous == Some(chain[i + 1].path))
    && (forall i, j :: 0 <= i < j < |chain| ==> chain[i].path != chain[j].path)
    && (forall i, j :: 0 <= i < j < |chain| && chain[i].path in ms && chain[j].path in ms ==>
          !(HasRelativePath(ms[chain[i].path]) && HasRelativePath(ms[chain[j].path])))
  }

  function Paths(chain: seq<Link>): set<Path> {
    set l | l in chain :: l.path
  }

  ghost predicate SomeRelative(ms: map<Path, Manifest>, chain: seq<Link>) {
    exists i :: 0 <= i < |chain| && chain[i].path in ms && HasRelativePath(ms[chain[i].path])
  }

  lemma WalkedExtends(ms: map<Path, Manifest>, agent: Agent, legacyRoot: Option<string>, path: Path, walked: seq<Link>, l: Link)
    requires Walked(ms, agent, legacyRoot, path, walked, Some(l.path))
    requires l.path !in Paths(walked)
    requires Restorable(ms, agent, legacyRoot, l)
    requires HasRelativePath(ms[l.path]) ==> !SomeRelative(ms, walked)
    ensures Walked(ms, agent, legacyRoot, path, walked + [l], l.manifest.previous)
    ensures Paths(walked + [l]) == Paths(walked) + {l.path}
    ensures SomeRelative(ms, walked + [l]) <==> SomeRelative(ms, walked) || HasRelativePath(ms[l.path])
  {
    var longer := walked + [l];
    assert longer[|walked|] == l;
    forall i | 0 <= i < |walked| ensures longer[i] == walked[i] && walked[i].path != l.path {
    }
    assert forall x :: x in longer <==> x in walked || x == l;
  }

  // Any chain from `path` continues a partial walk with the same next link.
  lemma {:induction false} WalkedIsPrefix(ms: map<Path, Manifest>, agent: Agent, legacyRoot: Option<string>, path: Path,
                                          walked: seq<Link>, next: Option<Path>, chain: seq<Link>, i: nat)
    requires Walked(ms, agent, legacyRoot, path, walked, next) && IsChain(ms, agent, legacyRoot, path, chain)
    requires i < |walked|
    ensures i < |chain| && chain[i] == walked[i]
  {
    assert Restorable(ms, agent, legacyRoot, walked[i]);
    if i > 0 {
      WalkedIsPrefix(ms, agent, legacyRoot, path, walked, next, chain, i - 1);
      assert walked[i - 1].manifest.previous == Some(walked[i].path);
      assert Restorable(ms, agent, legacyRoot, chain[i]);
    } else {
      assert Restorable(ms, agent, legacyRoot, chain[0]);
    }
  }

  lemma NextInChain(ms: map<Path, Manifest>, agent: Agent, legacyRoot: Option<string>, path: Path,
                    walked: seq<Link>, next: Path, chain: seq<Link>)
    requires Walked(ms, agent, legacyRoot, path, walked, Some(next)) && IsChain(ms, agent, legacyRoot, path, chain)
    ensures |walked| < |chain| && chain[|walked|].path == next && Restorable(ms, agent, legacyRoot, chain[|walked|])
    ensures forall i :: 0 <= i < |walked| ==> chain[i] == walked[i]
  {
    forall i | 0 <= i < |walked| ensures i < |chain| && chain[i] == walked[i] {
      WalkedIsPrefix(ms, agent, legacyRoot, path, walked, Some(next), chain, i);
    }
    if walked != [] {
      assert chain[|walked| - 1] == walked[|walked| - 1];
    }
  }

  lemma Refused(ms: map<Path, Manifest>, agent: Agent, legacyRoot: Option<string>, path: Path, walked: seq<Link>, next: Path)
    requires Walked(ms, agent, legacyRoot, path, walked, Some(next))
    requires forall m :: !Restorable(ms, agent, legacyRoot, Link(next, m))
    ensures NoChain(ms, agent, legacyRoot, path)
  {
    forall chain: seq<Link> | IsChain(ms, agent, legacyRoot, path, chain) ensures false {
      NextInChain(ms, agent, legacyRoot, path, walked, next, chain);
    }
  }

  lemma CycleRefused(ms: map<Path, Manifest>, agent: Agent, legacyRoot: Option<string>, path: Path, walked: seq<Link>, next: Path)
    requires Walked(ms, agent, legacyRoot, path, walked, Some(next))
    requires next in Paths(walked)
    ensures NoChain(ms, agent, legacyRoot, path)
  {
    forall chain: seq<Link> | IsChain(ms, agent, legacyRoot, path, chain) ensures false {
      NextInChain(ms, agent, legacyRoot, path, walked, next, chain);
    }
  }

  lemma RelativeRefused(ms: map<Path, Manifest>, agent: Agent, legacyRoot: Option<string>, path: Path, walked: seq<Link>, next: Path)
    requires Walked(ms, agent, legacyRoot, path, walked, Some(next))
    requires next in ms && HasRelativePath(ms[next])
    requires SomeRelative(ms, walked)
    ensures NoChain(ms, agent, legacyRoot, path)
  {
    forall chain: seq<Link> | IsChain(ms, agent, legacyRoot, path, chain) ensures false {
      NextInChain(ms, agent, legacyRoot, path, walked, next, chain);
    }
  }
}
