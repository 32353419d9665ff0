/** The tenant home as a tree of paths, and what pruning below a given root removes.

    A tree is a map from absolute paths to what `lstat` reports.  Only the home directory and
    what lies below it is represented. */
module HomeTree {

  type Path = seq<string>

  datatype Kind = Regular | Symlink | Directory | Special

  datatype Entry = Entry(kind: Kind, size: nat, mtime: int)

  type Tree = map<Path, Entry>

  const NEVER_TOUCH_FILES: set<string> := {"oauth_creds.json", "credentials.json", "google_accounts.json"}
  const NEVER_TOUCH_DIRS: set<string> := {"projects", ".git", ".config"}
  const LOCK_SUFFIX: string := ".lock"

  function Name(p: Path): string {
    if p == [] then "" else p[|p| - 1]
  }

  function Parent(p: Path): Path {
    if p == [] then [] else p[..|p| - 1]
  }

  predicate EndsWith(s: string, suffix: string) {
    |suffix| <= |s| && s[|s| - |suffix|..] == suffix
  }

  predicate StartsWith(s: string, prefix: string) {
    prefix <= s
  }

  /** Credential files and lock files by base name, protected directories by any segment below
      `home`, and everything outside `home`. */
  predicate NeverTouch(p: Path, home: Path) {
    || Name(p) in NEVER_TOUCH_FILES
    || EndsWith(Name(p), LOCK_SUFFIX)
    || !(home <= p)
    || exists i :: |home| <= i < |p| && p[i] in NEVER_TOUCH_DIRS
  }

  ghost predicate WellFormed(t: Tree, home: Path) {
    forall p :: p in t ==>
      && home <= p
      && (p != home ==> Parent(p) in t && t[Parent(p)].kind.Directory?)
  }

  /** Every proper prefix of a path in the tree that is not above `home` is a directory in it. */
  lemma {:induction false} PrefixIsDirectory(t: Tree, home: Path, q: Path, p: Path)
    requires WellFormed(t, home) && p in t && home <= q && q < p
    ensures q in t && t[q].kind.Directory?
    decreases |p|
  {
    var up := Parent(p);
    assert up in t && t[up].kind.Directory?;
    if q != up {
      assert q < up;
      PrefixIsDirectory(t, home, q, up);
    }
  }

  /** Two prefixes of one path are comparable. */
  lemma Comparable(a: Path, b: Path, p: Path)
    requires a <= p && b <= p
    ensures a <= b || b <= a
  {
    if |a| <= |b| {
      assert a == b[..|a|];
    } else {
      assert b == a[..|b|];
    }
  }

  lemma TransitivePrefix(a: Path, b: Path, c: Path)
    requires a <= b && b <= c
    ensures a <= c
  {
  }

  lemma PrefixAt(a: Path, b: Path)
    requires a <= b
    ensures b[..|a|] == a
  {
  }

  lemma StrictPrefix(q: Path, p: Path)
    requires q <= p && q != p
    ensures q < p && |q| < |p|
  {
    if |q| == |p| {
      assert false;
    }
  }

  ghost function Children(t: Tree, d: Path): set<Path> {
    set p | p in t && |p| == |d| + 1 && d <= p
  }

  ghost function Below(t: Tree, d: Path): set<Path> {
    set p | p in t && d <= p
  }

  lemma LeafHasNoChildren(t: Tree, home: Path, p: Path)
    requires WellFormed(t, home) && p in t && !t[p].kind.Directory?
    ensures Children(t, p) == {}
    ensures Below(t, p) == {p}
  {
    forall q | q in Below(t, p) && q != p
      ensures false
    {
      StrictPrefix(p, q);
      PrefixIsDirectory(t, home, p, q);
    }
    forall q | q in Children(t, p)
      ensures false
    {
      assert q in Below(t, p);
    }
  }

  /** Nothing lies below a missing path. */
  lemma MissingHasNothingBelow(t: Tree, home: Path, p: Path)
    requires WellFormed(t, home) && p !in t && home <= p
    ensures Below(t, p) == {}
  {
    forall q | q in Below(t, p)
      ensures false
    {
      StrictPrefix(p, q);
      PrefixIsDirectory(t, home, p, q);
    }
  }

  // ---- What survives below a root ----

  /** Nodes that no call removes: protected by name, or neither file, link nor directory. */
  ghost predicate Sticky(t: Tree, home: Path, q: Path) {
    q in t && (NeverTouch(q, home) || t[q].kind.Special?)
  }

  /** `p` is kept below `root`: it is inside a sticky node, is one, or leads to one. */
  ghost predicate Kept(t: Tree, home: Path, root: Path, p: Path) {
    exists q :: Sticky(t, home, q) && root <= q && (q <= p || p <= q)
  }

  ghost function Doomed(t: Tree, home: Path, root: Path): set<Path> {
    set p | p in t && root <= p && !NeverTouch(root, home) && !Kept(t, home, root, p)
  }

  ghost function DoomedAll(t: Tree, home: Path, roots: set<Path>): set<Path> {
    set p | p in t && exists r :: r in roots && p in Doomed(t, home, r)
  }

  // ---- The effect of removing nodes ----

  /** A directory whose child was removed gets a new mtime. */
  ghost predicate Touched(gone: set<Path>, p: Path) {
    exists c :: c in gone && c != [] && Parent(c) == p
  }

  /** `t` after removing `gone`, at clock reading `now`. */
  ghost function After(t: Tree, gone: set<Path>, now: int): Tree {
    map p | p in t && p !in gone :: if Touched(gone, p) then t[p].(mtime := now) else t[p]
  }

  /** Same nodes, kinds and sizes; only mtimes may differ. */
  ghost predicate SameShape(t0: Tree, t1: Tree, p: Path) {
    (p in t0 <==> p in t1) && (p in t0 ==> t0[p].kind == t1[p].kind && t0[p].size == t1[p].size)
  }

  lemma AfterCompose(t: Tree, g1: set<Path>, g2: set<Path>, now: int)
    ensures After(After(t, g1, now), g2, now) == After(t, g1 + g2, now)
  {
    var a, b := After(After(t, g1, now), g2, now), After(t, g1 + g2, now);
    forall p | p in a
      ensures p in b && a[p] == b[p]
    {
      if Touched(g1 + g2, p) {
        var c :| c in g1 + g2 && c != [] && Parent(c) == p;
        assert c in g1 || c in g2;
        assert Touched(g1, p) || Touched(g2, p);
      }
    }
    assert a.Keys == b.Keys;
  }

  lemma AfterNothing(t: Tree, now: int)
    ensures After(t, {}, now) == t
  {
  }

  /** `t` is what is left of `t0`, and what went is within `may`, and is all of `may` when every
      call succeeded. */
  ghost predicate Pruned(t0: Tree, t: Tree, may: set<Path>, now: int, reliable: bool) {
    && t.Keys <= t0.Keys
    && t == After(t0, t0.Keys - t.Keys, now)
    && t0.Keys - t.Keys <= may
    && (reliable ==> may <= t0.Keys && t0.Keys - t.Keys == may)
  }

  /** Whether nodes below `r` are doomed depends only on the nodes below `r`. */
  lemma DoomedLocal(t0: Tree, t1: Tree, home: Path, r: Path)
    requires forall p :: r <= p ==> SameShape(t0, t1, p)
    ensures Doomed(t0, home, r) == Doomed(t1, home, r)
  {
    forall p | r <= p
      ensures Kept(t0, home, r, p) <==> Kept(t1, home, r, p)
    {
      if Kept(t0, home, r, p) {
        var q :| Sticky(t0, home, q) && r <= q && (q <= p || p <= q);
        assert SameShape(t0, t1, q);
        assert Sticky(t1, home, q);
      }
      if Kept(t1, home, r, p) {
        var q :| Sticky(t1, home, q) && r <= q && (q <= p || p <= q);
        assert SameShape(t0, t1, q);
        assert Sticky(t0, home, q);
      }
    }
    forall p
      ensures p in Doomed(t0, home, r) <==> p in Doomed(t1, home, r)
    {
      if r <= p {
        assert SameShape(t0, t1, p);
      }
    }
  }

  ghost predicate Antichain(roots: set<Path>) {
    forall a, b :: a in roots && b in roots && a <= b ==> a == b
  }

  /** Pruning below more roots, incomparable with those done. */
  lemma PruneMore(t0: Tree, t1: Tree, t2: Tree, home: Path, done: set<Path>, roots: set<Path>, now: int, reliable: bool)
    requires Pruned(t0, t1, DoomedAll(t0, home, done), now, reliable)
    requires Pruned(t1, t2, DoomedAll(t1, home, roots), now, reliable)
    requires done !! roots && Antichain(done + roots)
    ensures Pruned(t0, t2, DoomedAll(t0, home, done + roots), now, reliable)
    ensures DoomedAll(t1, home, roots) == DoomedAll(t0, home, roots)
  {
    forall r | r in roots
      ensures Doomed(t0, home, r) == Doomed(t1, home, r)
    {
      UntouchedBelow(t0, t1, home, done, r, now, reliable);
      DoomedLocal(t0, t1, home, r);
    }
    var g1, g2 := t0.Keys - t1.Keys, t1.Keys - t2.Keys;
    AfterCompose(t0, g1, g2, now);
    assert t0.Keys - t2.Keys == g1 + g2;
    DoomedUnion(t0, home, done, roots);
    assert DoomedAll(t1, home, roots) == DoomedAll(t0, home, roots) by {
      assert DoomedAll(t1, home, roots) <= DoomedAll(t0, home, roots);
    }
  }

  lemma UntouchedBelow(t0: Tree, t1: Tree, home: Path, done: set<Path>, r: Path, now: int, reliable: bool)
    requires Pruned(t0, t1, DoomedAll(t0, home, done), now, reliable)
    requires r !in done && Antichain(done + {r})
    ensures forall p :: r <= p ==> SameShape(t0, t1, p)
  {
    forall p | r <= p
      ensures SameShape(t0, t1, p)
    {
      if p in t0 && p !in t1 {
        var r' :| r' in done && p in Doomed(t0, home, r');
        Comparable(r, r', p);
        assert false;
      }
    }
  }

  lemma DoomedUnion(t: Tree, home: Path, xs: set<Path>, ys: set<Path>)
    ensures DoomedAll(t, home, xs + ys) == DoomedAll(t, home, xs) + DoomedAll(t, home, ys)
  {
    forall p | p in DoomedAll(t, home, xs + ys)
      ensures p in DoomedAll(t, home, xs) + DoomedAll(t, home, ys)
    {
      var r :| r in xs + ys && p in Doomed(t, home, r);
      assert r in xs || r in ys;
    }
  }

  lemma DoomedSingle(t: Tree, home: Path, r: Path)
    ensures DoomedAll(t, home, {r}) == Doomed(t, home, r)
  {
    assert r in {r};
  }

  lemma DoomedNone(t: Tree, home: Path, now: int, reliable: bool)
    ensures DoomedAll(t, home, {}) == {}
    ensures Pruned(t, t, {}, now, reliable)
  {
    assert t.Keys - t.Keys == {};
    AfterNothing(t, now);
  }

  /** Removing doomed nodes keeps the tree well formed. */
  lemma DoomedClosed(t: Tree, home: Path, root: Path, p: Path, q: Path)
    requires p in Doomed(t, home, root) && q in t && p <= q
    ensures q in Doomed(t, home, root)
  {
    if Kept(t, home, root, q) {
      var s :| Sticky(t, home, s) && root <= s && (s <= q || q <= s);
      if s <= q {
        Comparable(s, p, q);
      }
      assert false;
    }
  }
}
