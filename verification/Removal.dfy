/** Steps of the recursive removal: single files, whole directories, and lists of roots. */
module Removal {
  import opened HomeTree
  import opened Ledger

  ghost function Unlinkable(t: Tree, p: Path): set<Path> {
    if p in t && (t[p].kind.Regular? || t[p].kind.Symlink?) then {p} else {}
  }

  /** One attempt to delete `p`, reporting `n` bytes: those of the file, unless its size could not be read. It fails
    * only where a call did. */
  ghost predicate Unlinked(t0: Tree, t1: Tree, p: Path, now: int, reliable: bool, n: int, unread: set<Path>,
                            hurt: set<Path>) {
    && (t1 == t0 || (Unlinkable(t0, p) == {p} && t1 == After(t0, {p}, now)))
    && n >= 0
    && (n > 0 ==> t1 != t0 && p in t0 && t0[p].kind.Regular? && n == t0[p].size)
    && (t1 != t0 && p in t0 && t0[p].kind.Regular? && p !in unread ==> n == t0[p].size)
    && (t1 == t0 && Unlinkable(t0, p) == {p} ==> p in hurt)
    && (reliable && Unlinkable(t0, p) == {p} ==>
          t1 == After(t0, {p}, now) && n == if t0[p].kind.Regular? then t0[p].size else 0)
  }

  lemma NotUnlinked(t: Tree, p: Path, now: int, reliable: bool, unread: set<Path>, hurt: set<Path>)
    requires p in hurt || !(p in t && (t[p].kind.Regular? || t[p].kind.Symlink?))
    requires reliable ==> !(p in t && (t[p].kind.Regular? || t[p].kind.Symlink?))
    ensures Unlinked(t, t, p, now, reliable, 0, unread, hurt)
  {
  }

  lemma WasUnlinked(t: Tree, p: Path, now: int, reliable: bool, n: nat, unread: set<Path>, hurt: set<Path>)
    requires p in t && (t[p].kind.Symlink? || t[p].kind.Regular?)
    requires n == (if t[p].kind.Regular? then t[p].size else 0) || (n == 0 && p in unread && !reliable)
    ensures Unlinked(t, After(t, {p}, now), p, now, reliable, n, unread, hurt)
  {
    assert p !in After(t, {p}, now);
  }

  /** The moment after an attempt on `p`: a deleted file is listed when bytes were reported for it. */
  ghost function Listed(a: Snapshot, t1: Tree, p: Path, n: int, unread: set<Path>, hurt: set<Path>): Snapshot {
    Snapshot(t1, if n > 0 then a.pruned + [p] else a.pruned, unread, hurt)
  }

  lemma WhatIsListed(a: Snapshot, t1: Tree, p: Path, n: int, unread: set<Path>, hurt: set<Path>)
    ensures Listed(a, t1, p, n, unread, hurt)
         == Snapshot(t1, if n > 0 then a.pruned + [p] else a.pruned, unread, hurt)
  {
  }

  lemma UnlinkEffect(a: Snapshot, t1: Tree, p: Path, now: int, reliable: bool, n: int, unread: set<Path>,
                     hurt: set<Path>)
    requires Unlinked(a.tree, t1, p, now, reliable, n, unread, hurt) && a.unread <= unread && a.hurt <= hurt
    ensures Effect(a, Listed(a, t1, p, n, unread, hurt), Unlinkable(a.tree, p), now, reliable, n)
  {
    var b := Listed(a, t1, p, n, unread, hurt);
    if t1 == a.tree {
      assert p in hurt ==> Near(hurt, p);
      NoEffect(a, hurt, Unlinkable(a.tree, p), now, reliable);
      assert b.pruned[|a.pruned|..] == [];
    } else {
      assert a.tree.Keys - t1.Keys == {p};
      assert b.pruned[|a.pruned|..] == if n > 0 then [p] else [];
      assert Elements([p]) == {p} && Elements([]) == {};
      assert SumLog(a.tree, [p]) == a.tree[p].size + SumLog(a.tree, []);
    }
  }

  // ---- Roots that are not directories ----

  lemma LeafRoot(t: Tree, home: Path, p: Path)
    requires WellFormed(t, home) && p in t && !t[p].kind.Directory? && !NeverTouch(p, home)
    ensures Doomed(t, home, p) == Unlinkable(t, p)
  {
    LeafHasNoChildren(t, home, p);
    forall q | Sticky(t, home, q) && p <= q
      ensures q == p
    {
      assert q in Below(t, p);
    }
    assert Doomed(t, home, p) <= Below(t, p);
    if t[p].kind.Special? {
      assert Sticky(t, home, p);
    }
  }

  /** What a deletion of a root that is a file or a link does. */
  lemma LeafEffect(a: Snapshot, t1: Tree, home: Path, p: Path, now: int, reliable: bool, n: int, unread: set<Path>,
                   hurt: set<Path>)
    requires WellFormed(a.tree, home) && p in a.tree && !a.tree[p].kind.Directory? && !NeverTouch(p, home)
    requires Unlinked(a.tree, t1, p, now, reliable, n, unread, hurt) && a.unread <= unread && a.hurt <= hurt
    ensures Effect(a, Listed(a, t1, p, n, unread, hurt), Doomed(a.tree, home, p), now, reliable, n)
    ensures a.tree[p].kind.Symlink? ==> n == 0
  {
    LeafRoot(a.tree, home, p);
    UnlinkEffect(a, t1, p, now, reliable, n, unread, hurt);
  }

  lemma NothingDue(t: Tree, home: Path, p: Path)
    requires WellFormed(t, home)
    requires NeverTouch(p, home) || (p in t ==> t[p].kind.Special?)
    ensures Doomed(t, home, p) == {}
  {
    if NeverTouch(p, home) {
    } else if p in t {
      LeafRoot(t, home, p);
    } else {
      MissingHasNothingBelow(t, home, p);
      assert Doomed(t, home, p) <= Below(t, p);
    }
  }

  /** A removal that fails before it has removed anything. */
  lemma Untried(a: Snapshot, hurt: set<Path>, home: Path, p: Path, blame: Path, now: int)
    requires a.hurt <= hurt && blame in hurt && (blame <= p || !(home <= p))
    ensures Effect(a, a.(hurt := hurt), Doomed(a.tree, home, p), now, false, 0)
  {
    if home <= p {
      IsStruck(hurt, blame, p);
      StruckIsSpared(a.tree, a.tree, home, p, hurt);
    }
    NoEffect(a, hurt, Doomed(a.tree, home, p), now, false);
  }

  // ---- Closing a directory ----

  /** One attempt to remove `d`, which succeeds on an empty directory only, and fails there only where a call did. */
  ghost predicate Closed(t0: Tree, t1: Tree, d: Path, now: int, reliable: bool, hurt: set<Path>) {
    && (t1 == t0 || (d in t0 && t0[d].kind.Directory? && Children(t0, d) == {} && t1 == After(t0, {d}, now)))
    && (t1 == t0 && d in t0 && t0[d].kind.Directory? && Children(t0, d) == {} ==> Struck(hurt, d))
    && (reliable && d in t0 && t0[d].kind.Directory? && Children(t0, d) == {} ==> t1 == After(t0, {d}, now))
  }

  lemma NotClosed(t: Tree, d: Path, now: int, hurt: set<Path>)
    requires Struck(hurt, d)
    ensures Closed(t, t, d, now, false, hurt)
  {
  }

  lemma DoomedByChildren(t: Tree, home: Path, d: Path)
    requires WellFormed(t, home) && d in t && t[d].kind.Directory? && !NeverTouch(d, home)
    ensures DoomedAll(t, home, Children(t, d)) == Doomed(t, home, d) - {d}
  {
    forall p | p in Below(t, d) && p != d
      ensures p in DoomedAll(t, home, Children(t, d)) <==> p in Doomed(t, home, d)
    {
      StrictPrefix(d, p);
      var c := p[..|d| + 1];
      if c != p {
        StrictPrefix(c, p);
        PrefixIsDirectory(t, home, c, p);
      }
      assert c in Children(t, d);
      assert forall c' :: c' in Children(t, d) && c' <= p ==> c' == c;
      if Kept(t, home, d, p) {
        var q :| Sticky(t, home, q) && d <= q && (q <= p || p <= q);
        assert q != d;
        StrictPrefix(d, q);
        assert c <= q;
        assert Kept(t, home, c, p);
      }
      if Kept(t, home, c, p) {
        var q :| Sticky(t, home, q) && c <= q && (q <= p || p <= q);
        assert d <= q;
        assert Kept(t, home, d, p);
      } else if NeverTouch(c, home) {
        assert Sticky(t, home, c);
      }
    }
  }

  /** The directory itself goes exactly when nothing below it is left. */
  lemma FinishDirectory(a: Snapshot, b: Snapshot, t2: Tree, hurt: set<Path>, home: Path, d: Path, now: int,
                        reliable: bool, freed: int)
    requires WellFormed(a.tree, home) && WellFormed(b.tree, home)
    requires d in a.tree && a.tree[d].kind.Directory? && !NeverTouch(d, home)
    requires Effect(a, b, DoomedAll(a.tree, home, Children(a.tree, d)), now, reliable, freed)
    requires Closed(b.tree, t2, d, now, reliable, hurt) && b.hurt <= hurt
    ensures Effect(a, Snapshot(t2, b.pruned, b.unread, hurt), Doomed(a.tree, home, d), now, reliable, freed)
  {
    hide Doomed, DoomedAll, After, WellFormed, Distinct, SumLog, Spared, Near, Struck, Children;
    KeptDirectory(a.tree, b.tree, home, d, now, reliable);
    DirectorySpared(a.tree, b.tree, t2, home, d, b.hurt, hurt, now, reliable);
    AfterLacks(b.tree, d, now);
    if d in t2 {
      StayingDirectory(a.tree, b.tree, home, d, now, reliable);
    } else {
      GonePruned(a.tree, b.tree, home, d, now, reliable);
      SameReport(a.tree, b.tree, d, now);
    }
  }

  /** A directory that stays although it may go has a failed call at it or inside. */
  lemma DirectorySpared(t0: Tree, t1: Tree, t2: Tree, home: Path, d: Path, hurt: set<Path>, hurt2: set<Path>, now: int,
                        reliable: bool)
    requires WellFormed(t0, home) && d in t0 && t0[d].kind.Directory? && !NeverTouch(d, home)
    requires t1.Keys <= t0.Keys && Spared(t1, DoomedAll(t0, home, Children(t0, d)), hurt) && hurt <= hurt2
    requires d in t1 && t1[d].kind.Directory? && Closed(t1, t2, d, now, reliable, hurt2)
    ensures Spared(t2, Doomed(t0, home, d), hurt2)
  {
    hide Doomed, DoomedAll, Children;
    DoomedByChildren(t0, home, d);
    ClosedShrinks(t1, t2, d, now, reliable, hurt2);
    SparedLater(t1, t2, DoomedAll(t0, home, Children(t0, d)), hurt, hurt2);
    if d in t2 && d in Doomed(t0, home, d) {
      if Children(t1, d) == {} {
        ClosedFails(t1, t2, d, now, reliable, hurt2);
      } else {
        var c :| c in Children(t1, d);
        ChildIsDoomed(t0, t1, home, d, c);
        NearParent(hurt2, d, c);
      }
    }
  }

  lemma ClosedShrinks(t: Tree, t1: Tree, d: Path, now: int, reliable: bool, hurt: set<Path>)
    requires Closed(t, t1, d, now, reliable, hurt)
    ensures t1.Keys <= t.Keys && (d in t1 ==> t1 == t)
  {
  }

  lemma ClosedFails(t: Tree, t1: Tree, d: Path, now: int, reliable: bool, hurt: set<Path>)
    requires d in t && t[d].kind.Directory? && Children(t, d) == {}
    requires Closed(t, t1, d, now, reliable, hurt) && d in t1
    ensures Near(hurt, d)
  {
  }

  /** With a directory go all its entries. */
  lemma ChildIsDoomed(t0: Tree, t1: Tree, home: Path, d: Path, c: Path)
    requires d in Doomed(t0, home, d) && t1.Keys <= t0.Keys && c in Children(t1, d)
    ensures c in Doomed(t0, home, d) && c != d && d <= c && c in t1
  {
    DoomedClosed(t0, home, d, d, c);
  }

  lemma NearParent(hurt: set<Path>, d: Path, c: Path)
    requires d <= c && Near(hurt, c)
    ensures Near(hurt, d)
  {
    var h :| h in hurt && (h <= c || c <= h);
    if h <= c {
      Comparable(h, d, c);
    } else {
      TransitivePrefix(d, c, h);
    }
  }

  lemma AfterLacks(t: Tree, d: Path, now: int)
    ensures d !in After(t, {d}, now)
  {
  }

  lemma KeptDirectory(t0: Tree, t1: Tree, home: Path, d: Path, now: int, reliable: bool)
    requires WellFormed(t0, home) && d in t0 && t0[d].kind.Directory? && !NeverTouch(d, home)
    requires Pruned(t0, t1, DoomedAll(t0, home, Children(t0, d)), now, reliable)
    ensures d in t1 && t1[d].kind.Directory?
  {
    DoomedByChildren(t0, home, d);
  }

  lemma SameReport(t0: Tree, t1: Tree, d: Path, now: int)
    requires d in t0 && t0[d].kind.Directory?
    ensures Reportable(t0, After(t1, {d}, now)) == Reportable(t0, t1)
  {
  }

  lemma StayingDirectory(t0: Tree, t1: Tree, home: Path, d: Path, now: int, reliable: bool)
    requires WellFormed(t0, home)
    requires d in t0 && t0[d].kind.Directory? && !NeverTouch(d, home)
    requires Pruned(t0, t1, DoomedAll(t0, home, Children(t0, d)), now, reliable)
    requires reliable ==> Children(t1, d) != {}
    ensures Pruned(t0, t1, Doomed(t0, home, d), now, reliable)
  {
    DoomedByChildren(t0, home, d);
    if reliable {
      var c :| c in Children(t1, d);
      var q :| Sticky(t0, home, q) && d <= q && (q <= c || c <= q);
      assert Kept(t0, home, d, d);
    }
  }

  lemma OneMoreGone(t0: Tree, t1: Tree, d: Path, now: int)
    requires t1.Keys <= t0.Keys && t1 == After(t0, t0.Keys - t1.Keys, now) && d in t1
    ensures var t2 := After(t1, {d}, now);
            t2.Keys <= t0.Keys && t0.Keys - t2.Keys == t0.Keys - t1.Keys + {d}
                && t2 == After(t0, t0.Keys - t2.Keys, now)
  {
    var gone, t2 := t0.Keys - t1.Keys, After(t1, {d}, now);
    AfterCompose(t0, gone, {d}, now);
    assert t0.Keys - t2.Keys == gone + {d};
  }

  lemma GonePruned(t0: Tree, t1: Tree, home: Path, d: Path, now: int, reliable: bool)
    requires WellFormed(t0, home) && WellFormed(t1, home)
    requires d in t0 && t0[d].kind.Directory? && !NeverTouch(d, home)
    requires Pruned(t0, t1, DoomedAll(t0, home, Children(t0, d)), now, reliable)
    requires Children(t1, d) == {} && d in t1
    ensures Pruned(t0, After(t1, {d}, now), Doomed(t0, home, d), now, reliable)
  {
    var gone, may := t0.Keys - t1.Keys, Doomed(t0, home, d);
    OneMoreGone(t0, t1, d, now);
    assert gone <= may - {d} && (reliable ==> gone == may - {d}) by {
      DoomedByChildren(t0, home, d);
    }
    assert d in may by {
      ChildlessIsAlone(t1, home, d);
      EmptiedIsDoomed(t0, home, d, gone);
    }
  }

  lemma ChildlessIsAlone(t: Tree, home: Path, d: Path)
    requires WellFormed(t, home) && home <= d && Children(t, d) == {}
    ensures forall q :: q in t && d <= q ==> q == d
  {
    forall q | q in t && d <= q
      ensures q == d
    {
      if q != d {
        StrictPrefix(d, q);
        var c := q[..|d| + 1];
        if c != q {
          StrictPrefix(c, q);
          PrefixIsDirectory(t, home, c, q);
        }
        ChildIsListed(t, d, c);
      }
    }
  }

  lemma ChildIsListed(t: Tree, d: Path, c: Path)
    requires c in t && |c| == |d| + 1 && d <= c
    ensures c in Children(t, d)
  {
  }

  lemma EmptiedIsDoomed(t: Tree, home: Path, d: Path, gone: set<Path>)
    requires d in t && t[d].kind.Directory? && !NeverTouch(d, home)
    requires gone <= Doomed(t, home, d)
    requires forall q :: q in t && d <= q && q != d ==> q in gone
    ensures d in Doomed(t, home, d)
  {
    if Kept(t, home, d, d) {
      var q :| Sticky(t, home, q) && d <= q;
      assert q in gone && Kept(t, home, d, q);
      assert false;
    }
  }
}
