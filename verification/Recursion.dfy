/** How deep the recursive removal goes: where it would need more nested calls than the interpreter has room for. */
module Recursion {
  import opened HomeTree
  import opened Ledger
  import opened QuotaTiers
  import opened Sweep

  /** The removal of `root` calls itself on `p`: it descends through unprotected directories only. */
  ghost predicate Reaches(t: Tree, home: Path, root: Path, p: Path) {
    && root <= p && (p == root || p in t)
    && forall x :: root <= x && x < p ==> x in t && t[x].kind.Directory? && !NeverTouch(x, home)
  }

  /** With room for `room` nested calls the removal of `root` runs out of them. */
  ghost predicate TooDeep(t: Tree, home: Path, root: Path, room: nat) {
    exists p :: Reaches(t, home, root, p) && |p| - |root| >= room
  }

  ghost predicate DeepRoots(t: Tree, home: Path, roots: set<Path>, room: nat) {
    exists r :: r in roots && TooDeep(t, home, r, room)
  }

  lemma NoRoom(t: Tree, home: Path, root: Path)
    ensures TooDeep(t, home, root, 0)
  {
    assert Reaches(t, home, root, root);
  }

  lemma NoDescent(t: Tree, home: Path, root: Path, room: nat)
    requires room > 0 && (NeverTouch(root, home) || !(root in t && t[root].kind.Directory?))
    ensures !TooDeep(t, home, root, room)
  {
    forall p | Reaches(t, home, root, p)
      ensures p == root
    {
      assert p != root ==> root < p;
    }
  }

  /** A directory is too deep when an entry of it is. */
  lemma DescentByChildren(t: Tree, home: Path, d: Path, room: nat)
    requires WellFormed(t, home) && d in t && t[d].kind.Directory? && !NeverTouch(d, home) && room > 0
    ensures TooDeep(t, home, d, room) <==> DeepRoots(t, home, Children(t, d), room - 1)
  {
    if TooDeep(t, home, d, room) {
      var p :| Reaches(t, home, d, p) && |p| - |d| >= room;
      StrictPrefix(d, p);
      var c := p[..|d| + 1];
      ReachesThrough(t, home, d, c, p);
    }
    if DeepRoots(t, home, Children(t, d), room - 1) {
      var c :| c in Children(t, d) && TooDeep(t, home, c, room - 1);
      var p :| Reaches(t, home, c, p) && |p| - |c| >= room - 1;
      ReachesFrom(t, home, d, c, p);
    }
  }

  lemma ReachesThrough(t: Tree, home: Path, d: Path, c: Path, p: Path)
    requires WellFormed(t, home) && Reaches(t, home, d, p) && d < p && c == p[..|d| + 1]
    ensures c in Children(t, d) && Reaches(t, home, c, p)
  {
    assert d <= c && c <= p;
    if c != p {
      assert c in t;
    }
  }

  lemma ReachesFrom(t: Tree, home: Path, d: Path, c: Path, p: Path)
    requires d in t && t[d].kind.Directory? && !NeverTouch(d, home) && c in Children(t, d) && Reaches(t, home, c, p)
    ensures Reaches(t, home, d, p)
  {
    TransitivePrefix(d, c, p);
    forall x | d <= x && x < p
      ensures x in t && t[x].kind.Directory? && !NeverTouch(x, home)
    {
      if x != d {
        StrictPrefix(d, x);
        Comparable(c, x, p);
      }
    }
  }

  lemma ReachesAlike(t0: Tree, t1: Tree, home: Path, r: Path, p: Path)
    requires (forall q :: r <= q ==> SameShape(t0, t1, q)) && Reaches(t0, home, r, p)
    ensures Reaches(t1, home, r, p)
  {
    assert SameShape(t0, t1, p);
    forall x | r <= x && x < p
      ensures x in t1 && t1[x].kind.Directory? && !NeverTouch(x, home)
    {
      assert SameShape(t0, t1, x);
    }
  }

  lemma NoneDeep(t: Tree, home: Path, room: nat)
    ensures !DeepRoots(t, home, {}, room)
  {
  }

  /** One more root of a set: how it counts among those done, and among all. */
  lemma OneMoreRoot(t: Tree, home: Path, roots: set<Path>, done: set<Path>, r: Path, room: nat)
    ensures DeepRoots(t, home, done + {r}, room) <==> DeepRoots(t, home, done, room) || TooDeep(t, home, r, room)
    ensures r in roots && TooDeep(t, home, r, room) ==> DeepRoots(t, home, roots, room)
  {
  }

  /** Depth below `r` depends on the nodes below `r` only. */
  lemma DepthIsLocal(t0: Tree, t1: Tree, home: Path, r: Path, room: nat)
    requires forall p :: r <= p ==> SameShape(t0, t1, p)
    ensures TooDeep(t0, home, r, room) <==> TooDeep(t1, home, r, room)
  {
    if TooDeep(t0, home, r, room) {
      var p :| Reaches(t0, home, r, p) && |p| - |r| >= room;
      ReachesAlike(t0, t1, home, r, p);
    }
    if TooDeep(t1, home, r, room) {
      var p :| Reaches(t1, home, r, p) && |p| - |r| >= room;
      assert forall q :: SameShape(t0, t1, q) ==> SameShape(t1, t0, q);
      ReachesAlike(t1, t0, home, r, p);
    }
  }

  /** What a sweep has not come to yet is as deep as at the start. */
  lemma DepthIsIntact(a: Snapshot, b: Snapshot, home: Path, roots: set<Path>, done: set<Path>, front: set<Path>,
                      now: int, reliable: bool, freed: int, f: Path, r: Path, room: nat)
    requires Sweeping(a, b, home, roots, done, front, now, reliable, freed) && f in front && f <= r
    ensures TooDeep(a.tree, home, r, room) <==> TooDeep(b.tree, home, r, room)
  {
    forall p | r <= p
      ensures SameShape(a.tree, b.tree, p)
    {
      TransitivePrefix(f, r, p);
      Intact(a, b, home, roots, done, front, now, reliable, freed, f, p);
    }
    DepthIsLocal(a.tree, b.tree, home, r, room);
  }

  /** One more root pruned in a sweep: its effect, and how deep it went. */
  lemma TakeOne(a: Snapshot, b: Snapshot, c: Snapshot, home: Path, roots: set<Path>, done: set<Path>, front: set<Path>,
                now: int, strong: bool, weak: bool, freed: int, r: Path, n: int, room: nat)
    requires Sweeping(a, b, home, roots, done, front, now, strong, freed) && (weak ==> strong)
    requires r in front && r in roots && Effect(b, c, Doomed(b.tree, home, r), now, weak, n)
    requires weak ==> !DeepRoots(a.tree, home, done, room) && !TooDeep(b.tree, home, r, room)
    ensures Sweeping(a, c, home, roots, done + {r}, front - {r}, now, weak, freed + n)
    ensures weak ==> !DeepRoots(a.tree, home, done + {r}, room)
    ensures TooDeep(b.tree, home, r, room) ==> DeepRoots(a.tree, home, roots, room)
  {
    hide *;
    DepthIsIntact(a, b, home, roots, done, front, now, strong, freed, r, r, room);
    Weaker(a, b, b.hurt, home, roots, done, front, now, strong, weak, freed);
    Take(a, b, c, home, roots, done, front, now, weak, freed, r, n);
    OneMoreRoot(a.tree, home, roots, done, r, room);
  }

  lemma PackagesIntact(a: Snapshot, b: Snapshot, home: Path, cutoff: int, done: set<Path>, front: set<Path>,
                       now: int, reliable: bool, freed: int, e: Path, room: nat)
    requires Sweeping(a, b, home, SitePackageRoots(a.tree, home, cutoff), done, front, now, reliable, freed)
    requires e in front && PackagesBelow(a.tree, home, cutoff, e) == PackagesBelow(b.tree, home, cutoff, e)
    ensures DeepRoots(a.tree, home, PackagesBelow(a.tree, home, cutoff, e), room)
       <==> DeepRoots(b.tree, home, PackagesBelow(b.tree, home, cutoff, e), room)
  {
    hide TooDeep, Sweeping;
    forall r | r in PackagesBelow(a.tree, home, cutoff, e)
      ensures TooDeep(a.tree, home, r, room) <==> TooDeep(b.tree, home, r, room)
    {
      DepthIsIntact(a, b, home, SitePackageRoots(a.tree, home, cutoff), done, front, now, reliable, freed, e, r, room);
    }
  }

  lemma MoreRoots(t: Tree, home: Path, roots: set<Path>, done: set<Path>, some: set<Path>, room: nat)
    ensures DeepRoots(t, home, done + some, room) <==> DeepRoots(t, home, done, room) || DeepRoots(t, home, some, room)
    ensures some <= roots && DeepRoots(t, home, some, room) ==> DeepRoots(t, home, roots, room)
  {
  }
}
