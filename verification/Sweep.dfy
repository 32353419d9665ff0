/** Pruning below a set of incomparable roots while walking a work list that finds them. */
module Sweep {
  import opened HomeTree
  import opened Ledger
  import opened Frontier
  import opened QuotaTiers

  ghost predicate Apart(xs: set<Path>, ys: set<Path>) {
    forall x, y :: x in xs && y in ys ==> !(x <= y) && !(y <= x)
  }

  /** `done` roots are pruned; those still due lie at or below `front`, where nothing has changed, and the others were
    * given up where a call failed. */
  ghost predicate Sweeping(a: Snapshot, b: Snapshot, home: Path, roots: set<Path>, done: set<Path>, front: set<Path>,
                           now: int, reliable: bool, freed: int) {
    && Antichain(roots) && Antichain(front)
    && done <= roots && Apart(done, front)
    && (reliable ==> forall r :: r in roots ==> r in done || exists f :: f in front && f <= r)
    && (forall r :: r in roots ==> r in done || Struck(b.hurt, r) || exists f :: f in front && f <= r)
    && Effect(a, b, DoomedAll(a.tree, home, done), now, reliable, freed)
  }

  /** Less is promised once a call has failed. */
  lemma Weaker(a: Snapshot, b: Snapshot, hurt: set<Path>, home: Path, roots: set<Path>, done: set<Path>,
               front: set<Path>, now: int, strong: bool, weak: bool, freed: int)
    requires Sweeping(a, b, home, roots, done, front, now, strong, freed) && (weak ==> strong) && b.hurt <= hurt
    ensures Sweeping(a, b.(hurt := hurt), home, roots, done, front, now, weak, freed)
  {
    WeakerEffect(a, b, hurt, DoomedAll(a.tree, home, done), now, strong, weak, freed);
    forall r | r in roots && Struck(b.hurt, r)
      ensures Struck(hurt, r)
    {
      StruckLater(b.hurt, hurt, r);
    }
  }

  lemma Start(a: Snapshot, home: Path, roots: set<Path>, front: set<Path>, now: int, reliable: bool)
    requires Antichain(roots) && Antichain(front)
    requires forall r :: r in roots ==> exists f :: f in front && f <= r
    ensures Sweeping(a, a, home, roots, {}, front, now, reliable, 0)
  {
    NothingSpared(a.tree, a.hurt);
    NoEffect(a, a.hurt, {}, now, reliable);
    DoomedNone(a.tree, home, now, reliable);
  }

  lemma StartChildren(a: Snapshot, home: Path, d: Path, now: int, reliable: bool)
    ensures Sweeping(a, a, home, Children(a.tree, d), {}, Children(a.tree, d), now, reliable, 0)
  {
    Start(a, home, Children(a.tree, d), Children(a.tree, d), now, reliable);
  }

  /** Roots all of which are entries of `d`, or lie below one. */
  lemma StartBelow(a: Snapshot, home: Path, d: Path, roots: set<Path>, now: int, reliable: bool)
    requires Antichain(roots)
    requires forall r :: r in roots ==> exists f :: f in Children(a.tree, d) && f <= r
    ensures Sweeping(a, a, home, roots, {}, Children(a.tree, d), now, reliable, 0)
  {
    Start(a, home, roots, Children(a.tree, d), now, reliable);
  }

  lemma StartPackages(a: Snapshot, home: Path, cutoff: int, now: int, reliable: bool)
    requires WellFormed(a.tree, home)
    ensures Sweeping(a, a, home, SitePackageRoots(a.tree, home, cutoff), {}, Children(a.tree, Lib(home)), now,
        reliable, 0)
  {
    LibRootsAntichain(a.tree, home, cutoff);
    SitePackageCover(a.tree, home, cutoff);
    StartBelow(a, home, Lib(home), SitePackageRoots(a.tree, home, cutoff), now, reliable);
  }

  /** A call failed at a path above all of these. */
  ghost predicate AllStruck(hurt: set<Path>, roots: set<Path>) {
    forall r :: r in roots ==> Struck(hurt, r)
  }

  lemma StruckFromAbove(hurt: set<Path>, h: Path, roots: set<Path>)
    requires h in hurt && forall r :: r in roots ==> h <= r
    ensures AllStruck(hurt, roots)
  {
    forall r | r in roots
      ensures Struck(hurt, r)
    {
      IsStruck(hurt, h, r);
    }
  }

  /** A failure at or above a directory is above whatever lies at or below its entries. */
  lemma StruckCover(hurt: set<Path>, h: Path, t: Tree, d: Path, roots: set<Path>)
    requires h in hurt && h <= d
    requires forall r :: r in roots ==> exists f :: f in Children(t, d) && f <= r
    ensures AllStruck(hurt, roots)
  {
    forall r | r in roots
      ensures h <= r
    {
      var f :| f in Children(t, d) && f <= r;
      TransitivePrefix(h, d, f);
      TransitivePrefix(h, f, r);
    }
    StruckFromAbove(hurt, h, roots);
  }

  lemma StruckListing(hurt: set<Path>, h: Path, t: Tree, d: Path)
    requires h in hurt && h <= d
    ensures AllStruck(hurt, Children(t, d))
  {
    StruckCover(hurt, h, t, d, Children(t, d));
  }

  lemma StruckPackages(hurt: set<Path>, t: Tree, home: Path, cutoff: int, e: Path)
    requires WellFormed(t, home) && Lib(home) in hurt
    ensures AllStruck(hurt, PackagesBelow(t, home, cutoff, e))
  {
    hide SitePackageRoots;
    SitePackageCover(t, home, cutoff);
    StruckCover(hurt, Lib(home), t, Lib(home), PackagesBelow(t, home, cutoff, e));
  }

  lemma StruckAreSpared(t: Tree, u: Tree, home: Path, roots: set<Path>, hurt: set<Path>)
    requires AllStruck(hurt, roots)
    ensures Spared(t, DoomedAll(u, home, roots), hurt)
  {
    hide Doomed, Struck, Near;
    forall p | p in DoomedAll(u, home, roots) && p in t
      ensures Near(hurt, p)
    {
      var r :| r in roots && p in Doomed(u, home, r);
      StruckIsSpared(t, u, home, r, hurt);
    }
  }

  lemma NoneStruck(hurt: set<Path>)
    ensures AllStruck(hurt, {})
  {
  }

  /** A tier without roots does nothing, nor does one that fails before it has come to any. */
  lemma Nothing(a: Snapshot, hurt: set<Path>, home: Path, roots: set<Path>, now: int, reliable: bool)
    requires reliable ==> roots == {}
    requires a.hurt <= hurt && AllStruck(hurt, roots)
    ensures Effect(a, a.(hurt := hurt), DoomedAll(a.tree, home, roots), now, reliable, 0)
  {
    StruckAreSpared(a.tree, a.tree, home, roots, hurt);
    NoEffect(a, hurt, DoomedAll(a.tree, home, roots), now, reliable);
  }

  /** The subtree of an entry is smaller than that of its directory. */
  lemma Smaller(a: Snapshot, b: Snapshot, home: Path, roots: set<Path>, done: set<Path>, front: set<Path>,
                now: int, reliable: bool, freed: int, d: Path, c: Path)
    requires Sweeping(a, b, home, roots, done, front, now, reliable, freed)
    requires d in a.tree && d < c
    ensures Below(b.tree, c) < Below(a.tree, d)
  {
    assert d in Below(a.tree, d) && d !in Below(b.tree, c);
  }

  /** What lies at or below the work list is as it was at the start. */
  lemma Intact(a: Snapshot, b: Snapshot, home: Path, roots: set<Path>, done: set<Path>, front: set<Path>,
               now: int, reliable: bool, freed: int, f: Path, p: Path)
    requires Sweeping(a, b, home, roots, done, front, now, reliable, freed)
    requires f in front && f <= p
    ensures p in a.tree <==> p in b.tree
    ensures p in a.tree ==> a.tree[p] == b.tree[p]
  {
    if p in a.tree {
      if p !in b.tree {
        var r :| r in done && p in Doomed(a.tree, home, r);
        Comparable(f, r, p);
        assert false;
      }
      var gone := a.tree.Keys - b.tree.Keys;
      if Touched(gone, p) {
        var c :| c in gone && c != [] && Parent(c) == p;
        var r :| r in done && c in Doomed(a.tree, home, r);
        Comparable(f, r, c);
        assert false;
      }
    }
  }

  lemma IntactChildren(a: Snapshot, b: Snapshot, home: Path, roots: set<Path>, done: set<Path>, front: set<Path>,
                       now: int, reliable: bool, freed: int, f: Path, d: Path)
    requires Sweeping(a, b, home, roots, done, front, now, reliable, freed)
    requires f in front && f <= d
    ensures Children(a.tree, d) == Children(b.tree, d)
  {
    forall c | |c| == |d| + 1 && d <= c
      ensures c in a.tree <==> c in b.tree
    {
      Intact(a, b, home, roots, done, front, now, reliable, freed, f, c);
    }
  }

  lemma SamePython(a: Snapshot, b: Snapshot, home: Path, cutoff: int, done: set<Path>, front: set<Path>,
                   now: int, reliable: bool, freed: int, e: Path)
    requires Sweeping(a, b, home, SitePackageRoots(a.tree, home, cutoff), done, front, now, reliable, freed)
    requires e in front && e in Children(a.tree, Lib(home))
    ensures PackagesBelow(a.tree, home, cutoff, e) == PackagesBelow(b.tree, home, cutoff, e)
    ensures e in Children(b.tree, Lib(home))
  {
    var roots := SitePackageRoots(a.tree, home, cutoff);
    Intact(a, b, home, roots, done, front, now, reliable, freed, e, e);
    forall r | e <= r
      ensures r in SitePackageRoots(a.tree, home, cutoff) <==> r in SitePackageRoots(b.tree, home, cutoff)
    {
      PrefixAt(e, r);
      Intact(a, b, home, roots, done, front, now, reliable, freed, e, r);
    }
  }

  /** An entry of `.local/lib` is a root of the third tier now when it was one at the start; otherwise it leads to
    * none. */
  lemma SameOther(a: Snapshot, b: Snapshot, home: Path, cutoff: int, done: set<Path>, front: set<Path>, now: int,
                  reliable: bool, freed: int, e: Path)
    requires Sweeping(a, b, home, OtherLibRoots(a.tree, home, cutoff), done, front, now, reliable, freed)
    requires e in front && e in Children(a.tree, Lib(home))
    ensures e in Children(b.tree, Lib(home))
    ensures e in OtherLibRoots(a.tree, home, cutoff) <==> e in OtherLibRoots(b.tree, home, cutoff)
    ensures e !in OtherLibRoots(a.tree, home, cutoff) ==>
              forall r :: r in OtherLibRoots(a.tree, home, cutoff) ==> !(e <= r)
  {
    Intact(a, b, home, OtherLibRoots(a.tree, home, cutoff), done, front, now, reliable, freed, e, e);
    OtherLibEntry(a.tree, home, cutoff, e);
    OtherLibEntry(b.tree, home, cutoff, e);
  }

  /** All roots at or below the next path of the work list have been pruned. */
  lemma TakeAll(a: Snapshot, b: Snapshot, c: Snapshot, home: Path, roots: set<Path>, done: set<Path>, front: set<Path>,
                now: int, reliable: bool, freed: int, p: Path, some: set<Path>, n: int)
    requires Sweeping(a, b, home, roots, done, front, now, reliable, freed)
    requires p in front && some <= roots
    requires forall r :: r in some ==> p <= r
    requires forall r :: r in roots && p <= r ==> r in some
    requires Effect(b, c, DoomedAll(b.tree, home, some), now, reliable, n)
    ensures Sweeping(a, c, home, roots, done + some, front - {p}, now, reliable, freed + n)
  {
    EffectMore(a, b, c, home, done, some, now, reliable, freed, n);
    forall r, f | r in done + some && f in front - {p}
      ensures !(r <= f) && !(f <= r)
    {
      if r in some && r <= f {
        TransitivePrefix(p, r, f);
        assert false;
      }
      if r in some && f <= r {
        Comparable(p, f, r);
        assert false;
      }
    }
    forall r | r in roots && r !in done + some && exists f :: f in front && f <= r
      ensures exists f :: f in front - {p} && f <= r
    {
      var f :| f in front && f <= r;
      assert f in front - {p};
    }
    forall r | r in roots && Struck(b.hurt, r)
      ensures Struck(c.hurt, r)
    {
      StruckLater(b.hurt, c.hurt, r);
    }
  }

  lemma TakePackages(a: Snapshot, b: Snapshot, c: Snapshot, home: Path, cutoff: int, done: set<Path>, front: set<Path>,
                     now: int, reliable: bool, freed: int, e: Path, n: int)
    returns (next: set<Path>)
    ensures next == done + PackagesBelow(a.tree, home, cutoff, e)
    ensures PackagesBelow(a.tree, home, cutoff, e) <= SitePackageRoots(a.tree, home, cutoff)
    requires Sweeping(a, b, home, SitePackageRoots(a.tree, home, cutoff), done, front, now, reliable, freed)
    requires e in front && PackagesBelow(a.tree, home, cutoff, e) == PackagesBelow(b.tree, home, cutoff, e)
    requires Effect(b, c, DoomedAll(b.tree, home, PackagesBelow(b.tree, home, cutoff, e)), now, reliable, n)
    ensures Sweeping(a, c, home, SitePackageRoots(a.tree, home, cutoff), next, front - {e}, now, reliable, freed + n)
  {
    next := done + PackagesBelow(a.tree, home, cutoff, e);
    TakeAll(a, b, c, home, SitePackageRoots(a.tree, home, cutoff), done, front, now, reliable, freed, e,
            PackagesBelow(a.tree, home, cutoff, e), n);
  }

  /** The next path of the work list is a root, and has been pruned. */
  lemma Take(a: Snapshot, b: Snapshot, c: Snapshot, home: Path, roots: set<Path>, done: set<Path>, front: set<Path>,
             now: int, reliable: bool, freed: int, r: Path, n: int)
    requires Sweeping(a, b, home, roots, done, front, now, reliable, freed)
    requires r in front && r in roots
    requires Effect(b, c, Doomed(b.tree, home, r), now, reliable, n)
    ensures Sweeping(a, c, home, roots, done + {r}, front - {r}, now, reliable, freed + n)
  {
    DoomedSingle(b.tree, home, r);
    TakeAll(a, b, c, home, roots, done, front, now, reliable, freed, r, {r}, n);
  }

  /** The next path leads to no root, or could not be looked at. */
  lemma Pass(a: Snapshot, b: Snapshot, home: Path, roots: set<Path>, done: set<Path>, front: set<Path>,
             now: int, reliable: bool, freed: int, p: Path)
    requires Sweeping(a, b, home, roots, done, front, now, reliable, freed) && p in front
    requires reliable ==> forall r :: r in roots ==> !(p <= r)
    requires p in b.hurt || forall r :: r in roots ==> !(p <= r)
    ensures Sweeping(a, b, home, roots, done, front - {p}, now, reliable, freed)
  {
    forall r | r in roots && !(p <= r) && exists f :: f in front && f <= r
      ensures exists f :: f in front - {p} && f <= r
    {
      var f :| f in front && f <= r;
      assert f in front - {p};
    }
    forall r | r in roots && p in b.hurt && p <= r
      ensures Struck(b.hurt, r)
    {
      IsStruck(b.hurt, p, r);
    }
  }

  lemma PassOne(a: Snapshot, b: Snapshot, hurt: set<Path>, home: Path, roots: set<Path>, done: set<Path>,
                front: set<Path>, now: int, strong: bool, weak: bool, freed: int, p: Path)
    requires Sweeping(a, b, home, roots, done, front, now, strong, freed) && (weak ==> strong) && b.hurt <= hurt
    requires p in front && (weak ==> forall r :: r in roots ==> !(p <= r))
    requires p in hurt || forall r :: r in roots ==> !(p <= r)
    ensures Sweeping(a, b.(hurt := hurt), home, roots, done, front - {p}, now, weak, freed)
  {
    hide *;
    Weaker(a, b, hurt, home, roots, done, front, now, strong, weak, freed);
    Pass(a, b.(hurt := hurt), home, roots, done, front, now, weak, freed, p);
  }

  /** A directory of the work list is replaced by its entries. */
  lemma Open(a: Snapshot, b: Snapshot, home: Path, roots: set<Path>, done: set<Path>, front: set<Path>,
             now: int, reliable: bool, freed: int, d: Path)
    requires WellFormed(a.tree, home)
    requires Sweeping(a, b, home, roots, done, front, now, reliable, freed)
    requires d in front && d !in roots && d in b.tree && b.tree[d].kind.Directory?
    requires roots <= a.tree.Keys
    ensures front - {d} !! Children(b.tree, d)
    ensures Children(a.tree, d) == Children(b.tree, d)
    ensures Sweeping(a, b, home, roots, done, front - {d} + Children(b.tree, d), now, reliable, freed)
    ensures Under(a.tree, front - {d} + Children(b.tree, d)) < Under(a.tree, front)
  {
    Intact(a, b, home, roots, done, front, now, reliable, freed, d, d);
    IntactChildren(a, b, home, roots, done, front, now, reliable, freed, d, d);
    Expand(a.tree, home, front, d);
    var next := front - {d} + Children(a.tree, d);
    assert d in Under(a.tree, front);
    ApartChildren(a.tree, done, front, d);
    forall r | r in roots && exists f :: f in front && f <= r
      ensures exists f :: f in next && f <= r
    {
      assert r in Under(a.tree, front) - {d};
    }
  }

  lemma ApartChildren(t: Tree, done: set<Path>, front: set<Path>, d: Path)
    requires Apart(done, front) && d in front
    ensures Apart(done, front - {d} + Children(t, d))
  {
    forall r, c | r in done && c in Children(t, d)
      ensures !(r <= c) && !(c <= r)
    {
      if r <= c {
        Comparable(d, r, c);
        assert false;
      }
      if c <= r {
        TransitivePrefix(d, c, r);
        assert false;
      }
    }
  }

  /** A part of the work list is given up after a failure. */
  lemma Leave(a: Snapshot, b: Snapshot, home: Path, roots: set<Path>, done: set<Path>, front: set<Path>,
              now: int, reliable: bool, freed: int, rest: set<Path>)
    requires Sweeping(a, b, home, roots, done, front, now, reliable, freed)
    requires rest <= front && (reliable ==> rest == front)
    requires rest == front || AllStruck(b.hurt, roots)
    ensures Sweeping(a, b, home, roots, done, rest, now, reliable, freed)
  {
    hide Effect;
  }

  /** The walk is over, or was cut short by a failure. */
  lemma Finish(a: Snapshot, b: Snapshot, home: Path, roots: set<Path>, done: set<Path>, front: set<Path>,
               now: int, reliable: bool, freed: int)
    requires Sweeping(a, b, home, roots, done, front, now, reliable, freed)
    requires reliable ==> front == {}
    requires front == {} || AllStruck(b.hurt, roots)
    ensures Effect(a, b, DoomedAll(a.tree, home, roots), now, reliable, freed)
    ensures reliable ==> done == roots
  {
    if reliable {
      assert done == roots;
    }
    FinishSpared(a.tree, b.tree, home, roots, done, b.hurt);
    assert DoomedAll(a.tree, home, done) <= DoomedAll(a.tree, home, roots);
  }

  /** What went with the roots done is gone, or spared; what lies below the others is spared. */
  lemma FinishSpared(t0: Tree, t: Tree, home: Path, roots: set<Path>, done: set<Path>, hurt: set<Path>)
    requires Spared(t, DoomedAll(t0, home, done), hurt)
    requires forall r :: r in roots ==> r in done || Struck(hurt, r)
    ensures Spared(t, DoomedAll(t0, home, roots), hurt)
  {
    hide Doomed, Near, Struck;
    StruckAreSpared(t, t0, home, roots - done, hurt);
    forall p | p in DoomedAll(t0, home, roots) && p in t
      ensures Near(hurt, p)
    {
      var r :| r in roots && p in Doomed(t0, home, r);
      assert p in DoomedAll(t0, home, if r in done then done else roots - done);
    }
  }
}
