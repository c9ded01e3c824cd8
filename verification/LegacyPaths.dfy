// Resolving a relative restore path of a legacy manifest against a directory
// that may no longer exist, on a file system without symbolic links.
module LegacyPaths {
  import opened Wrappers

  datatype Component = RootDir | CurDir | ParentDir | Normal(name: string)

  // An absolute path without `.` and `..`.
  type Absolute = seq<string>

  datatype Kind = Directory | Other

  type FileSystem = map<Absolute, Kind>

  // The root is a directory, and everything lies in a directory.
  ghost predicate WellFormed(fs: FileSystem) {
    && [] in fs && fs[[]] == Directory
    && forall p :: p in fs && p != [] ==> Parent(p) in fs && fs[Parent(p)] == Directory
  }

  function Parent(p: Absolute): Absolute {
    if p == [] then [] else p[..|p| - 1]
  }

  predicate IsDirectory(fs: FileSystem, p: Absolute) {
    p in fs && fs[p] == Directory
  }

  // ---- Lexical normalisation ----

  function Applied(p: Absolute, c: Component): Absolute {
    match c
    case RootDir => []
    case CurDir => p
    case ParentDir => Parent(p)
    case Normal(name) => p + [name]
  }

  function Normalized(base: Absolute, cs: seq<Component>): Absolute {
    if cs == [] then base else Applied(Normalized(base, cs[..|cs| - 1]), cs[|cs| - 1])
  }

  lemma {:induction false} NormalizedConcat(base: Absolute, a: seq<Component>, b: seq<Component>)
    ensures Normalized(base, a + b) == Normalized(Normalized(base, a), b)
  {
    if b == [] {
      assert a + b == a;
    } else {
      var n := |b| - 1;
      assert (a + b)[..|a + b| - 1] == a + b[..n];
      NormalizedConcat(base, a, b[..n]);
    }
  }

  // ---- What exists ----

  // How many trailing components of `p` do not exist.
  function Missing(fs: FileSystem, p: Absolute): nat
    decreases |p|
  {
    if p in fs || p == [] then 0 else 1 + Missing(fs, Parent(p))
  }

  // Where the file system itself arrives: every component but the last one
  // must lead to a directory.
  function Physical(fs: FileSystem, cs: seq<Component>): Option<Absolute> {
    if cs == [] then Some([])
    else match Physical(fs, cs[..|cs| - 1])
      case None => None
      case Some(p) =>
        if IsDirectory(fs, p) && Applied(p, cs[|cs| - 1]) in fs then Some(Applied(p, cs[|cs| - 1])) else None
  }

  lemma {:induction false} PhysicalIsNormalized(fs: FileSystem, cs: seq<Component>)
    requires WellFormed(fs)
    ensures Physical(fs, cs).Some? ==> Physical(fs, cs).value == Normalized([], cs) && Physical(fs, cs).value in fs
  {
    if cs != [] {
      PhysicalIsNormalized(fs, cs[..|cs| - 1]);
    }
  }

  // ---- Resolving from a missing root ----

  // The path can be followed: it is relative, and no component but the last
  // arrives at something that exists and is not a directory.
  ghost predicate Traversable(fs: FileSystem, base: Absolute, cs: seq<Component>) {
    && (forall i :: 0 <= i < |cs| ==> cs[i] != RootDir)
    && forall i :: 0 <= i < |cs| ==> !Blocked(fs, base, cs, i)
  }

  predicate Blocked(fs: FileSystem, base: Absolute, cs: seq<Component>, i: nat)
    requires i <= |cs|
  {
    Normalized(base, cs[..i]) in fs && !IsDirectory(fs, Normalized(base, cs[..i]))
  }

  lemma NormalizedStep(base: Absolute, cs: seq<Component>, i: nat)
    requires i < |cs|
    ensures Normalized(base, cs[..i + 1]) == Applied(Normalized(base, cs[..i]), cs[i])
  {
    assert cs[..i + 1][..i] == cs[..i];
  }

  // One named component below a directory or something missing. The last one
  // is only appended; any other is looked up unless its parent is missing.
  method Descend(fs: FileSystem, resolved: Absolute, missing: nat, segment: string, last: bool) returns (deeper: nat, isDirectory: bool)
    requires WellFormed(fs) && Clear(fs, resolved) && missing == Missing(fs, resolved)
    ensures var p := resolved + [segment];
            !last ==> (isDirectory <==> !(p in fs && !IsDirectory(fs, p))) && (isDirectory ==> deeper == Missing(fs, p) && Clear(fs, p))
  {
    ClearChild(fs, resolved, segment);
    deeper, isDirectory := missing, true;
    if missing > 0 {
      deeper := missing + 1;
    } else if !last {
      var candidate := resolved + [segment];
      if candidate in fs {
        isDirectory := fs[candidate] == Directory;
      } else {
        deeper := 1;
      }
    }
  }

  // One component of the relative path.
  method Follow(fs: FileSystem, resolved: Absolute, missing: nat, c: Component, last: bool)
    returns (next: Absolute, deeper: nat, isDirectory: bool)
    requires WellFormed(fs) && Clear(fs, resolved) && missing == Missing(fs, resolved) && c != RootDir
    ensures next == Applied(resolved, c)
    ensures !last ==> (isDirectory <==> !(next in fs && !IsDirectory(fs, next))) && (isDirectory ==> deeper == Missing(fs, next) && Clear(fs, next))
  {
    next, deeper, isDirectory := resolved, missing, true;
    match c
    case ParentDir =>
      ClearParent(fs, resolved);
      next := Parent(resolved);
      deeper := if missing > 0 then missing - 1 else 0;
    case Normal(segment) =>
      deeper, isDirectory := Descend(fs, resolved, missing, segment, last);
      next := resolved + [segment];
    case _ =>
  }

  method ResolveFromMissingRoot(fs: FileSystem, base: Absolute, depth: nat, relative: seq<Component>) returns (r: Option<Absolute>)
    requires WellFormed(fs) && depth == Missing(fs, base) && Clear(fs, base)
    ensures r.Some? <==> Traversable(fs, base, relative)
    ensures r.Some? ==> r.value == Normalized(base, relative)
  {
    var resolved, missing, isDirectory := base, depth, true;
    assert relative[..0] == [];
    for i := 0 to |relative|
      invariant resolved == Normalized(base, relative[..i])
      invariant forall j :: 0 <= j < i ==> relative[j] != RootDir && !Blocked(fs, base, relative, j)
      invariant i < |relative| ==> (isDirectory <==> !Blocked(fs, base, relative, i))
      invariant i < |relative| && isDirectory ==> missing == Missing(fs, resolved) && Clear(fs, resolved)
    {
      if !isDirectory || relative[i] == RootDir {
        return None;
      }
      NormalizedStep(base, relative, i);
      resolved, missing, isDirectory := Follow(fs, resolved, missing, relative[i], i + 1 == |relative|);
    }
    assert relative[..|relative|] == relative;
    r := Some(resolved);
  }

  // The deepest existing ancestor of `p` (itself included) is a directory.
  predicate Clear(fs: FileSystem, p: Absolute)
    decreases |p|
  {
    if p in fs || p == [] then IsDirectory(fs, p) else Clear(fs, Parent(p))
  }

  lemma ClearParent(fs: FileSystem, p: Absolute)
    requires WellFormed(fs) && Clear(fs, p)
    ensures Clear(fs, Parent(p)) && (Parent(p) in fs ==> IsDirectory(fs, Parent(p)))
    ensures Missing(fs, Parent(p)) == if Missing(fs, p) > 0 then Missing(fs, p) - 1 else 0
  {
  }

  lemma ClearChild(fs: FileSystem, p: Absolute, name: string)
    requires WellFormed(fs) && Clear(fs, p)
    ensures Missing(fs, p) > 0 ==> p + [name] !in fs
    ensures p + [name] !in fs ==> Clear(fs, p + [name]) && Missing(fs, p + [name]) == Missing(fs, p) + 1
  {
    assert Parent(p + [name]) == p;
  }

  // ---- The root itself ----

  datatype Resolution = Joined(components: seq<Component>) | Resolved(path: Absolute) | Refused

  // The longest prefix of the root that exists.
  method DeepestExisting(fs: FileSystem, root: seq<Component>) returns (k: nat)
    requires Physical(fs, root).None?
    ensures k < |root| && Deepest(fs, root, k)
  {
    k := |root|;
    assert root[..|root|] == root && root[..0] == [];
    while Physical(fs, root[..k]).None?
      invariant 0 <= k <= |root|
      invariant k < |root| ==> Physical(fs, root[..k + 1]).None?
      decreases k
    {
      k := k - 1;
    }
  }

  // Below a directory, the first component that is missing is a name.
  lemma FirstMissing(fs: FileSystem, root: seq<Component>, k: nat)
    requires WellFormed(fs) && k < |root| && root[k] != RootDir && Deepest(fs, root, k)
    requires IsDirectory(fs, Physical(fs, root[..k]).value)
    ensures root[k].Normal? && Physical(fs, root[..k]).value + [root[k].name] !in fs
  {
    PhysicalIsNormalized(fs, root[..k]);
    assert root[..k + 1][..k] == root[..k];
  }

  // The missing part of the root, by name from the directory `ancestor`.
  method FollowRoot(fs: FileSystem, root: seq<Component>, k: nat, ancestor: Absolute)
    returns (resolved: Absolute, missing: nat, followed: bool)
    requires WellFormed(fs) && k < |root| && (forall i :: 0 <= i < |root| ==> root[i] != RootDir)
    requires ancestor == Normalized([], root[..k]) && IsDirectory(fs, ancestor)
    requires root[k].Normal? && ancestor + [root[k].name] !in fs
    ensures followed <==> forall j :: k <= j < |root| ==> root[j] != ParentDir
    ensures followed ==> resolved == Normalized([], root) && missing == Missing(fs, resolved) && Clear(fs, resolved)
  {
    resolved, missing := ancestor, 0;
    for i := k to |root|
      invariant resolved == Normalized([], root[..i])
      invariant missing == Missing(fs, resolved) && Clear(fs, resolved)
      invariant forall j :: k <= j < i ==> root[j] != ParentDir
      invariant if i == k then resolved == ancestor else missing > 0
    {
      NormalizedStep([], root, i);
      match root[i]
      case CurDir =>
      case Normal(segment) =>
        ClearChild(fs, resolved, segment);
        resolved, missing := resolved + [segment], missing + 1;
      case _ =>
        return resolved, missing, false;
    }
    assert root[..|root|] == root;
    followed := true;
  }

  // A missing root is followed by name from its deepest existing ancestor.
  method ResolveLegacyPath(fs: FileSystem, root: seq<Component>, relative: seq<Component>) returns (r: Resolution)
    requires WellFormed(fs) && forall i :: 0 <= i < |root| ==> root[i] != RootDir
    ensures Physical(fs, root).Some? ==> r == Joined(root + relative)
    ensures Physical(fs, root).None? && !r.Refused? ==> r == Resolved(Normalized([], root + relative))
    ensures Physical(fs, root).None? ==> (!r.Refused? <==> Followable(fs, root) && Traversable(fs, Normalized([], root), relative))
  {
    if Physical(fs, root).Some? {
      return Joined(root + relative);
    }
    var k := DeepestExisting(fs, root);
    var ancestor := Physical(fs, root[..k]).value;
    PhysicalIsNormalized(fs, root[..k]);
    FollowableAt(fs, root, k);
    if fs[ancestor] != Directory {
      return Refused;
    }
    FirstMissing(fs, root, k);
    var resolved, missing, followed := FollowRoot(fs, root, k, ancestor);
    if !followed {
      return Refused;
    }
    NormalizedConcat([], root, relative);
    var path := ResolveFromMissingRoot(fs, resolved, missing, relative);
    r := match path case Some(p) => Resolved(p) case None => Refused;
  }

  lemma FollowableAt(fs: FileSystem, root: seq<Component>, k: nat)
    requires k < |root| && Deepest(fs, root, k)
    ensures Followable(fs, root) <==>
              IsDirectory(fs, Physical(fs, root[..k]).value) && forall j :: k <= j < |root| ==> root[j] != ParentDir
  {
    DeepestUnique(fs, root, k);
  }

  // The existing part of the root is a directory, the missing part has no `..`.
  predicate Followable(fs: FileSystem, root: seq<Component>) {
    forall k :: 0 <= k < |root| && Deepest(fs, root, k) ==>
      && IsDirectory(fs, Physical(fs, root[..k]).value)
      && forall j :: k <= j < |root| ==> root[j] != ParentDir
  }

  // The first `k` components exist, one more do not.
  predicate Deepest(fs: FileSystem, root: seq<Component>, k: nat)
    requires k < |root|
  {
    Physical(fs, root[..k]).Some? && Physical(fs, root[..k + 1]).None?
  }

  // Nothing exists beyond something missing, so the prefix is the only one.
  lemma {:induction false} NothingBeyond(fs: FileSystem, root: seq<Component>, k: nat, m: nat)
    requires k <= m <= |root| && Physical(fs, root[..k]).None?
    ensures Physical(fs, root[..m]).None?
    decreases m
  {
    if k < m {
      NothingBeyond(fs, root, k, m - 1);
      assert root[..m][..m - 1] == root[..m - 1];
    }
  }

  lemma DeepestUnique(fs: FileSystem, root: seq<Component>, k: nat)
    requires k < |root| && Deepest(fs, root, k)
    ensures forall m :: 0 <= m < |root| && Deepest(fs, root, m) ==> m == k
  {
    forall m | 0 <= m < |root| && Deepest(fs, root, m) ensures m == k {
      if m < k {
        NothingBeyond(fs, root, m + 1, k);
      } else if k < m {
        NothingBeyond(fs, root, k + 1, m);
      }
    }
  }
}
