/** What pruning leaves, where it may remove, and that running the tiers again changes nothing. */
module QuotaTheorems {
  import opened HomeTree
  import opened Ledger
  import opened QuotaTiers

  // ---- The residue of one removal ----

  /** A sticky node below `root` with no sticky node between. */
  ghost predicate Topmost(t: Tree, home: Path, root: Path, q: Path) {
    && Sticky(t, home, q) && root <= q
    && forall s :: Sticky(t, home, s) && root <= s && s <= q ==> s == q
  }

  lemma {:induction false} TopmostAbove(t: Tree, home: Path, root: Path, q: Path) returns (top: Path)
    requires Sticky(t, home, q) && root <= q
    ensures Topmost(t, home, root, top) && top <= q
    decreases |q|
  {
    if s :| Sticky(t, home, s) && root <= s && s <= q && s != q {
      StrictPrefix(s, q);
      top := TopmostAbove(t, home, root, s);
      TransitivePrefix(top, s, q);
    } else {
      top := q;
    }
  }

  /** Below a removed root exactly the topmost sticky nodes stay, with all below and all above them. */
  lemma ResidueIsExact(t: Tree, home: Path, root: Path, p: Path)
    requires root in t && p in t && root <= p
    ensures p !in Doomed(t, home, root) <==> exists q :: Topmost(t, home, root, q) && (q <= p || p <= q)
  {
    if p !in Doomed(t, home, root) {
      if NeverTouch(root, home) {
        assert Sticky(t, home, root);
      }
      var q :| Sticky(t, home, q) && root <= q && (q <= p || p <= q);
      var top := TopmostAbove(t, home, root, q);
      if p <= q {
        Comparable(top, p, q);
      }
    }
  }

  /** No protected node and nothing above one is removed, whatever fails. */
  lemma ProtectedSurvives(t0: Tree, t1: Tree, home: Path, roots: set<Path>, now: int, reliable: bool, q: Path)
    requires Pruned(t0, t1, DoomedAll(t0, home, roots), now, reliable)
    requires WellFormed(t1, home)
    requires Sticky(t0, home, q)
    ensures Sticky(t1, home, q)
    ensures forall p :: home <= p && p <= q ==> p in t1
  {
    StickyIsNotDoomed(t0, home, roots, q);
    forall p | home <= p && p <= q
      ensures p in t1
    {
      if p != q {
        StrictPrefix(p, q);
        PrefixIsDirectory(t1, home, p, q);
      }
    }
  }

  // ---- The tiers as functions ----

  ghost function Tier(t: Tree, home: Path, roots: set<Path>, now: int): Tree {
    After(t, DoomedAll(t, home, roots), now)
  }

  ghost function Tier1(t: Tree, home: Path, now: int): Tree {
    Tier(t, home, Children(t, Cache(home)), now)
  }

  ghost function Tier2(t: Tree, home: Path, cutoff: int, now: int): Tree {
    Tier(t, home, SitePackageRoots(t, home, cutoff), now)
  }

  ghost function Tier3(t: Tree, home: Path, cutoff: int, now: int): Tree {
    Tier(t, home, OtherLibRoots(t, home, cutoff), now)
  }

  ghost function Tier4(t: Tree, home: Path, cutoff: int, now: int): Tree {
    Tier(t, home, StaleLocalRoots(t, home, cutoff), now)
  }

  /** The tree after the first `k` tiers. */
  ghost function Stage(t: Tree, home: Path, cutoff: int, now: int, k: nat): Tree {
    if k == 0 then t
    else if k == 1 then Tier1(t, home, now)
    else if k == 2 then Tier2(Stage(t, home, cutoff, now, 1), home, cutoff, now)
    else if k == 3 then Tier3(Stage(t, home, cutoff, now, 2), home, cutoff, now)
    else Tier4(Stage(t, home, cutoff, now, 3), home, cutoff, now)
  }

  /** Tiers run one after another until the tree fits. */
  ghost function Enforced(t: Tree, home: Path, budget: int, cutoff: int, now: int, k: nat): Tree
    requires k <= 4
    decreases 4 - k
  {
    var s := Stage(t, home, cutoff, now, k);
    if Size(s, home) <= budget || k == 4 then s else Enforced(t, home, budget, cutoff, now, k + 1)
  }

  /** A later state of the same tree: nodes only go, touched directories are recent, sticky nodes stay. */
  ghost predicate Later(t0: Tree, t1: Tree, home: Path, cutoff: int) {
    && t1.Keys <= t0.Keys
    && (forall p :: p in t1 ==> t1[p].kind == t0[p].kind && t1[p].size == t0[p].size)
    && (forall p :: p in t1 ==> t1[p].mtime == t0[p].mtime || (t1[p].mtime > cutoff && t1[p].kind.Directory?))
    && (forall q :: Sticky(t0, home, q) ==> q in t1)
  }

  lemma LaterTransitive(a: Tree, b: Tree, c: Tree, home: Path, cutoff: int)
    requires Later(a, b, home, cutoff) && Later(b, c, home, cutoff)
    ensures Later(a, c, home, cutoff)
  {
    forall q | Sticky(a, home, q)
      ensures q in c
    {
      assert Sticky(b, home, q);
    }
  }

  lemma TouchedIsDirectory(t: Tree, home: Path, gone: set<Path>, p: Path)
    requires WellFormed(t, home) && gone <= t.Keys && Touched(gone, p) && p in t && p !in gone
    ensures t[p].kind.Directory?
  {
    var c :| c in gone && c != [] && Parent(c) == p;
    if c == home {
      assert false;
    }
  }

  lemma StickyIsNotDoomed(t: Tree, home: Path, roots: set<Path>, q: Path)
    requires Sticky(t, home, q)
    ensures q !in DoomedAll(t, home, roots)
  {
    assert forall r :: r <= q ==> Kept(t, home, r, q);
  }

  lemma PrunedIsLater(t0: Tree, t1: Tree, home: Path, roots: set<Path>, cutoff: int, now: int, reliable: bool)
    requires WellFormed(t0, home) && now > cutoff
    requires Pruned(t0, t1, DoomedAll(t0, home, roots), now, reliable)
    ensures Later(t0, t1, home, cutoff)
  {
    var gone := t0.Keys - t1.Keys;
    forall q | Sticky(t0, home, q)
      ensures q in t1
    {
      StickyIsNotDoomed(t0, home, roots, q);
    }
    forall p | p in t1
      ensures t1[p].mtime == t0[p].mtime || (t1[p].mtime > cutoff && t1[p].kind.Directory?)
    {
      if Touched(gone, p) {
        TouchedIsDirectory(t0, home, gone, p);
      }
    }
  }

  lemma TierIsPruned(t: Tree, home: Path, roots: set<Path>, now: int)
    ensures Pruned(t, Tier(t, home, roots, now), DoomedAll(t, home, roots), now, true)
  {
    var t1 := Tier(t, home, roots, now);
    assert t.Keys - t1.Keys == DoomedAll(t, home, roots);
  }

  lemma TierKeepsShape(t: Tree, home: Path, roots: set<Path>, now: int)
    requires WellFormed(t, home)
    ensures WellFormed(Tier(t, home, roots, now), home)
  {
    var t1 := Tier(t, home, roots, now);
    forall p | p in t1 && p != home
      ensures Parent(p) in t1 && t1[Parent(p)].kind.Directory?
    {
      if Parent(p) in DoomedAll(t, home, roots) {
        var r :| r in roots && Parent(p) in Doomed(t, home, r);
        assert p != [] && Parent(p) <= p;
        DoomedClosed(t, home, r, Parent(p), p);
        assert false;
      }
    }
  }

  // ---- Idempotence ----

  /** Doom passes from a later state to an earlier one along the same root. */
  lemma DoomedEarlier(t0: Tree, t1: Tree, home: Path, cutoff: int, r: Path, p: Path)
    requires Later(t0, t1, home, cutoff) && p in Doomed(t1, home, r)
    ensures p in Doomed(t0, home, r)
  {
    if Kept(t0, home, r, p) {
      var q :| Sticky(t0, home, q) && r <= q && (q <= p || p <= q);
      assert Sticky(t1, home, q);
      assert Kept(t1, home, r, p);
      assert false;
    }
  }

  /** A tier whose later roots were roots before finds nothing to remove after it has run. */
  lemma SettledByRoots(t: Tree, s: Tree, home: Path, cutoff: int, now: int, roots: set<Path>, again: set<Path>)
    requires Later(Tier(t, home, roots, now), s, home, cutoff) && Later(t, s, home, cutoff)
    requires forall r, p :: r in again && p in Doomed(s, home, r) ==> p in DoomedAll(t, home, roots)
    ensures DoomedAll(s, home, again) == {}
  {
    assert DoomedAll(s, home, again) <= DoomedAll(t, home, roots);
    assert DoomedAll(s, home, again) <= s.Keys <= Tier(t, home, roots, now).Keys;
    assert Tier(t, home, roots, now).Keys !! DoomedAll(t, home, roots);
  }

  lemma SameRootsSettle(t: Tree, s: Tree, home: Path, cutoff: int, now: int, roots: set<Path>, again: set<Path>)
    requires Later(Tier(t, home, roots, now), s, home, cutoff) && Later(t, s, home, cutoff)
    requires again <= roots
    ensures DoomedAll(s, home, again) == {}
  {
    forall r, p | r in again && p in Doomed(s, home, r)
      ensures p in DoomedAll(t, home, roots)
    {
      DoomedEarlier(t, s, home, cutoff, r, p);
    }
    SettledByRoots(t, s, home, cutoff, now, roots, again);
  }

  lemma RootsShrink(t: Tree, s: Tree, home: Path, cutoff: int)
    requires Later(t, s, home, cutoff)
    ensures Children(s, Cache(home)) <= Children(t, Cache(home))
    ensures SitePackageRoots(s, home, cutoff) <= SitePackageRoots(t, home, cutoff)
    ensures OtherLibRoots(s, home, cutoff) <= OtherLibRoots(t, home, cutoff)
  {
  }

  /** Where the walk did not reach, it had pruned at a stale directory above. */
  lemma {:induction false} StaleAbove(t: Tree, home: Path, cutoff: int, d: Path) returns (a: Path)
    requires Local(home) <= d && Local(home) in t && t[Local(home)].kind.Directory?
    requires forall x :: Local(home) < x && x <= d ==>
               x in t && t[x].kind.Directory? && !NeverTouch(x, home) && !IsBinDir(t, home, x)
    requires !Walked(t, home, cutoff, d)
    ensures a in StaleLocalRoots(t, home, cutoff) && a <= d
    decreases |d|
  {
    if d == Local(home) {
      WalkStart(t, home, cutoff);
      assert false;
    }
    StrictPrefix(Local(home), d);
    var up := Parent(d);
    assert Local(home) <= up && up <= d;
    if Walked(t, home, cutoff, up) {
      if t[d].mtime > cutoff {
        assert Descended(t, home, cutoff, d);
        WalkedEntry(t, home, cutoff, up, d);
        assert false;
      }
      a := d;
    } else {
      a := StaleAbove(t, home, cutoff, up);
      TransitivePrefix(a, up, d);
    }
  }

  /** A root of the fourth tier in a later state was a root before, or lay below one. */
  lemma StaleRootEarlier(t: Tree, s: Tree, home: Path, cutoff: int, r: Path) returns (a: Path)
    requires Later(t, s, home, cutoff) && r in StaleLocalRoots(s, home, cutoff)
    requires WellFormed(t, home) && WellFormed(s, home)
    ensures a in StaleLocalRoots(t, home, cutoff) && a <= r
    ensures forall q :: a <= q && q < r ==> !Sticky(t, home, q)
  {
    var d := Parent(r);
    forall x | Local(home) <= x && x <= d
      ensures x in t && t[x].kind.Directory?
      ensures x != Local(home) ==> !NeverTouch(x, home) && !IsBinDir(t, home, x)
    {
      WalkedPrefix(s, home, cutoff, d, x);
    }
    if Walked(t, home, cutoff, d) {
      a := r;
    } else {
      a := StaleAbove(t, home, cutoff, d);
      assert a <= r;
    }
    forall q | a <= q && q < r
      ensures !Sticky(t, home, q)
    {
      assert q <= d;
      TransitivePrefix(Local(home), a, q);
    }
  }

  lemma WalkedPrefix(t: Tree, home: Path, cutoff: int, d: Path, x: Path)
    requires WellFormed(t, home) && Walked(t, home, cutoff, d) && Local(home) <= x && x <= d
    ensures x in t && t[x].kind.Directory?
    ensures x != Local(home) ==> Descended(t, home, cutoff, x)
  {
    if x != Local(home) {
      StrictPrefix(Local(home), x);
      assert Descended(t, home, cutoff, x);
    } else if x != d {
      StrictPrefix(x, d);
      PrefixIsDirectory(t, home, x, d);
    }
  }

  lemma StaleLocalSettles(t: Tree, s: Tree, home: Path, cutoff: int, now: int)
    requires WellFormed(t, home) && WellFormed(s, home)
    requires Later(Tier4(t, home, cutoff, now), s, home, cutoff) && Later(t, s, home, cutoff)
    ensures DoomedAll(s, home, StaleLocalRoots(s, home, cutoff)) == {}
  {
    StaleLocalEarlier(t, s, home, cutoff);
    SettledByRoots(t, s, home, cutoff, now, StaleLocalRoots(t, home, cutoff), StaleLocalRoots(s, home, cutoff));
  }

  lemma StaleLocalEarlier(t: Tree, s: Tree, home: Path, cutoff: int)
    requires WellFormed(t, home) && WellFormed(s, home) && Later(t, s, home, cutoff)
    ensures forall r, p :: r in StaleLocalRoots(s, home, cutoff) && p in Doomed(s, home, r) ==>
              p in DoomedAll(t, home, StaleLocalRoots(t, home, cutoff))
  {
    forall r, p | r in StaleLocalRoots(s, home, cutoff) && p in Doomed(s, home, r)
      ensures p in DoomedAll(t, home, StaleLocalRoots(t, home, cutoff))
    {
      var a := StaleRootEarlier(t, s, home, cutoff, r);
      DoomedEarlier(t, s, home, cutoff, r, p);
      DoomedFromAbove(t, home, a, r, p);
    }
  }

  lemma DoomedFromAbove(t: Tree, home: Path, a: Path, r: Path, p: Path)
    requires p in Doomed(t, home, r) && a <= r && !NeverTouch(a, home)
    requires forall q :: a <= q && q < r ==> !Sticky(t, home, q)
    ensures p in Doomed(t, home, a)
  {
    TransitivePrefix(a, r, p);
    if Kept(t, home, a, p) {
      var q :| Sticky(t, home, q) && a <= q && (q <= p || p <= q);
      if q <= p {
        Comparable(q, r, p);
      } else {
        TransitivePrefix(r, p, q);
      }
      if q <= r && q != r {
        StrictPrefix(q, r);
      }
      assert false;
    }
  }

  lemma StagesAreLater(t: Tree, home: Path, cutoff: int, now: int, k: nat)
    requires WellFormed(t, home) && now > cutoff && k <= 4
    ensures WellFormed(Stage(t, home, cutoff, now, k), home)
    ensures Later(t, Stage(t, home, cutoff, now, k), home, cutoff)
    ensures k > 0 ==> Later(Stage(t, home, cutoff, now, k - 1), Stage(t, home, cutoff, now, k), home, cutoff)
  {
    hide DoomedAll, WellFormed, RootsOf, Tier;
    if k > 0 {
      StagesAreLater(t, home, cutoff, now, k - 1);
      var s := Stage(t, home, cutoff, now, k - 1);
      var roots := RootsOf(s, home, cutoff, k);
      StageIsTier(t, home, cutoff, now, k - 1);
      hide Stage, Later;
      TierIsPruned(s, home, roots, now);
      PrunedIsLater(s, Tier(s, home, roots, now), home, roots, cutoff, now, true);
      TierKeepsShape(s, home, roots, now);
      LaterTransitive(t, s, Tier(s, home, roots, now), home, cutoff);
    }
  }

  ghost function RootsOf(t: Tree, home: Path, cutoff: int, k: nat): set<Path>
    requires 1 <= k <= 4
  {
    if k == 1 then Children(t, Cache(home))
    else if k == 2 then SitePackageRoots(t, home, cutoff)
    else if k == 3 then OtherLibRoots(t, home, cutoff)
    else StaleLocalRoots(t, home, cutoff)
  }

  lemma LaterStages(t: Tree, home: Path, cutoff: int, now: int, j: nat, k: nat)
    requires WellFormed(t, home) && now > cutoff && j <= k <= 4
    ensures Later(Stage(t, home, cutoff, now, j), Stage(t, home, cutoff, now, k), home, cutoff)
    decreases k - j
  {
    if j < k {
      StagesAreLater(t, home, cutoff, now, k);
      LaterStages(t, home, cutoff, now, j, k - 1);
      LaterTransitive(Stage(t, home, cutoff, now, j), Stage(t, home, cutoff, now, k - 1),
          Stage(t, home, cutoff, now, k), home, cutoff);
    }
  }

  /** Whatever is removed after tier `k` has run, tier `k` finds nothing more to remove. */
  lemma SettledLater(t: Tree, u: Tree, home: Path, cutoff: int, now: int, k: nat)
    requires WellFormed(t, home) && WellFormed(u, home) && now > cutoff && 1 <= k <= 4
    requires Later(Stage(t, home, cutoff, now, k), u, home, cutoff)
    ensures DoomedAll(u, home, RootsOf(u, home, cutoff, k)) == {}
  {
    hide DoomedAll, Later, Tier;
    var before := Stage(t, home, cutoff, now, k - 1);
    StagesAreLater(t, home, cutoff, now, k);
    StagesAreLater(t, home, cutoff, now, k - 1);
    LaterTransitive(before, Stage(t, home, cutoff, now, k), u, home, cutoff);
    if k == 4 {
      StaleLocalSettles(before, u, home, cutoff, now);
    } else {
      RootsShrink(before, u, home, cutoff);
      SameRootsSettle(before, u, home, cutoff, now, RootsOf(before, home, cutoff, k), RootsOf(u, home, cutoff, k));
    }
  }

  /** After `j` tiers, none of the first `j` has anything left to remove. */
  lemma NothingLeft(t: Tree, home: Path, cutoff: int, now: int, k: nat, j: nat)
    requires WellFormed(t, home) && now > cutoff && 1 <= k <= j <= 4
    ensures var s := Stage(t, home, cutoff, now, j); DoomedAll(s, home, RootsOf(s, home, cutoff, k)) == {}
  {
    StagesAreLater(t, home, cutoff, now, j);
    LaterStages(t, home, cutoff, now, k, j);
    SettledLater(t, Stage(t, home, cutoff, now, j), home, cutoff, now, k);
  }

  lemma IdleTier(t: Tree, home: Path, roots: set<Path>, now: int)
    requires DoomedAll(t, home, roots) == {}
    ensures Tier(t, home, roots, now) == t
  {
    AfterNothing(t, now);
  }

  /** With the cutoff fixed, running the four tiers twice equals running them once, whatever the clock reads by then. */
  lemma TiersIdempotent(t: Tree, home: Path, cutoff: int, now: int, now2: int, k: nat)
    requires WellFormed(t, home) && now > cutoff && k <= 4
    ensures var s := Stage(t, home, cutoff, now, 4); Stage(s, home, cutoff, now2, k) == s
  {
    var s := Stage(t, home, cutoff, now, 4);
    if k > 0 {
      TiersIdempotent(t, home, cutoff, now, now2, k - 1);
      NothingLeft(t, home, cutoff, now, k, 4);
      IdleTier(s, home, RootsOf(s, home, cutoff, k), now2);
    }
  }

  // ---- A second run at a later cutoff ----

  /** A root at a later cutoff that was stale already was a root already. */
  lemma OldRoots(u: Tree, home: Path, cutoff: int, cutoff2: int, k: nat, r: Path)
    requires 1 <= k <= 4 && cutoff <= cutoff2 && r in RootsOf(u, home, cutoff2, k) && u[r].mtime <= cutoff
    ensures r in RootsOf(u, home, cutoff, k)
  {
    if k == 4 {
      forall a | Local(home) < a && a <= Parent(r)
        ensures Descended(u, home, cutoff, a)
      {
        assert Descended(u, home, cutoff2, a);
      }
    }
  }

  lemma NotARoot(u: Tree, home: Path, roots: set<Path>, r: Path, p: Path)
    requires DoomedAll(u, home, roots) == {} && p in Doomed(u, home, r)
    ensures r !in roots
  {
    assert r in roots ==> p in DoomedAll(u, home, roots);
  }

  lemma RootsAreStale(u: Tree, home: Path, cutoff: int, k: nat, r: Path)
    requires 1 <= k <= 4 && r in RootsOf(u, home, cutoff, k)
    ensures r in u && (k >= 2 ==> u[r].mtime <= cutoff)
  {
  }

  lemma LaterCutoff(t: Tree, u: Tree, home: Path, cutoff: int, cutoff2: int)
    requires Later(t, u, home, cutoff2) && cutoff <= cutoff2
    ensures Later(t, u, home, cutoff)
  {
  }

  /** What a run at a later cutoff removes after a complete one is at or below an entry that grew stale in between. */
  lemma {:induction false} LaterRunRemovesOnlyAged(t: Tree, home: Path, cutoff: int, now: int, cutoff2: int, now2: int,
                                                   k: nat)
    requires WellFormed(t, home) && now > cutoff && now2 > cutoff2 >= cutoff && k <= 4
    ensures var s := Stage(t, home, cutoff, now, 4);
            forall p | p in s && p !in Stage(s, home, cutoff2, now2, k) ::
              exists a :: a in s && a <= p && cutoff < s[a].mtime <= cutoff2
  {
    hide WellFormed, RootsOf;
    var s := Stage(t, home, cutoff, now, 4);
    if k > 0 {
      LaterRunRemovesOnlyAged(t, home, cutoff, now, cutoff2, now2, k - 1);
      var u := Stage(s, home, cutoff2, now2, k - 1);
      forall p | p in u && p !in Stage(s, home, cutoff2, now2, k)
        ensures exists a :: a in s && a <= p && cutoff < s[a].mtime <= cutoff2
      {
        StageIsTier(s, home, cutoff2, now2, k - 1);
        var r :| r in RootsOf(u, home, cutoff2, k) && p in Doomed(u, home, r);
        AgedRoot(t, home, cutoff, now, cutoff2, now2, k, r, p);
      }
    }
  }

  lemma AgedRoot(t: Tree, home: Path, cutoff: int, now: int, cutoff2: int, now2: int, k: nat, r: Path, p: Path)
    requires WellFormed(t, home) && now > cutoff && now2 > cutoff2 >= cutoff && 1 <= k <= 4
    requires var u := Stage(Stage(t, home, cutoff, now, 4), home, cutoff2, now2, k - 1);
             r in RootsOf(u, home, cutoff2, k) && p in Doomed(u, home, r)
    ensures var s := Stage(t, home, cutoff, now, 4); r in s && r <= p && cutoff < s[r].mtime <= cutoff2
  {
    hide Stage, RootsOf, WellFormed;
    var s := Stage(t, home, cutoff, now, 4);
    var u := Stage(s, home, cutoff2, now2, k - 1);
    StagesAreLater(t, home, cutoff, now, 4);
    StagesAreLater(s, home, cutoff2, now2, k - 1);
    LaterCutoff(s, u, home, cutoff, cutoff2);
    LaterStages(t, home, cutoff, now, k, 4);
    LaterTransitive(Stage(t, home, cutoff, now, k), s, u, home, cutoff);
    SettledLater(t, u, home, cutoff, now, k);
    NotARoot(u, home, RootsOf(u, home, cutoff, k), r, p);
    RootsAreStale(u, home, cutoff2, k, r);
    if u[r].mtime <= cutoff {
      OldRoots(u, home, cutoff, cutoff2, k, r);
    }
    if k == 1 {
      CacheRoots(u, home, cutoff, cutoff2);
    }
  }

  lemma CacheRoots(u: Tree, home: Path, cutoff: int, cutoff2: int)
    ensures RootsOf(u, home, cutoff, 1) == RootsOf(u, home, cutoff2, 1)
  {
  }

  ghost predicate Grown(s: Tree, home: Path, cutoff: int, cutoff2: int, k: nat, r: Path)
    requires 1 <= k <= 4
  {
    r in s && r in RootsOf(s, home, cutoff2, k) && cutoff < s[r].mtime
  }

  /** Some entry that grew stale in between holds something that may go. */
  ghost predicate NewlyDue(s: Tree, home: Path, cutoff: int, cutoff2: int) {
    exists k, r :: 1 <= k <= 4 && Grown(s, home, cutoff, cutoff2, k, r) && Doomed(s, home, r) != {}
  }

  /** After a complete run, a run at a later cutoff changes nothing exactly when nothing grew stale that may go. */
  lemma LaterRunChanges(t: Tree, home: Path, cutoff: int, now: int, cutoff2: int, now2: int)
    requires WellFormed(t, home) && now > cutoff && now2 > cutoff2 >= cutoff
    ensures var s := Stage(t, home, cutoff, now, 4);
            Stage(s, home, cutoff2, now2, 4) == s <==> !NewlyDue(s, home, cutoff, cutoff2)
  {
    hide Stage, RootsOf, WellFormed, Doomed;
    var s := Stage(t, home, cutoff, now, 4);
    StagesAreLater(t, home, cutoff, now, 4);
    if NewlyDue(s, home, cutoff, cutoff2) {
      var k: nat, r :| 1 <= k <= 4 && Grown(s, home, cutoff, cutoff2, k, r) && Doomed(s, home, r) != {};
      DoomedIsRemoved(s, home, RootsOf(s, home, cutoff2, k), r);
      if Stage(s, home, cutoff2, now2, 4) == s {
        UnchangedMeansIdle(s, home, cutoff2, now2, k);
      }
    } else {
      forall k: nat | 1 <= k <= 4
        ensures DoomedAll(s, home, RootsOf(s, home, cutoff2, k)) == {}
      {
        NothingLeft(t, home, cutoff, now, k, 4);
        forall r | r in RootsOf(s, home, cutoff2, k)
          ensures Doomed(s, home, r) == {}
        {
          RootsAreStale(s, home, cutoff2, k, r);
          if s[r].mtime <= cutoff {
            OldRoots(s, home, cutoff, cutoff2, k, r);
            DoomedIsRemoved(s, home, RootsOf(s, home, cutoff, k), r);
          } else {
            assert Grown(s, home, cutoff, cutoff2, k, r);
          }
        }
      }
      IdleStages(s, home, cutoff2, now2, 4);
    }
  }

  lemma DoomedIsRemoved(t: Tree, home: Path, roots: set<Path>, r: Path)
    requires r in roots
    ensures Doomed(t, home, r) <= DoomedAll(t, home, roots)
  {
  }

  lemma {:induction false} IdleStages(s: Tree, home: Path, cutoff: int, now: int, j: nat)
    requires j <= 4 && forall k: nat | 1 <= k <= 4 :: DoomedAll(s, home, RootsOf(s, home, cutoff, k)) == {}
    ensures Stage(s, home, cutoff, now, j) == s
  {
    hide RootsOf, DoomedAll, Tier;
    if j > 0 {
      IdleStages(s, home, cutoff, now, j - 1);
      StageIsTier(s, home, cutoff, now, j - 1);
      IdleTier(s, home, RootsOf(s, home, cutoff, j), now);
    }
  }

  lemma UnchangedMeansIdle(s: Tree, home: Path, cutoff: int, now: int, k: nat)
    requires WellFormed(s, home) && now > cutoff && 1 <= k <= 4 && Stage(s, home, cutoff, now, 4) == s
    ensures DoomedAll(s, home, RootsOf(s, home, cutoff, k)) == {}
  {
    NothingLeft(s, home, cutoff, now, k, 4);
  }

  /** A home with one file under `.local`. */
  function OneFile(home: Path, mtime: int, now: int): Tree {
    map[home := Entry(Directory, 0, now), Local(home) := Entry(Directory, 0, now),
        Local(home) + ["f"] := Entry(Regular, 1, mtime)]
  }

  lemma FreeName(home: Path)
    ensures !NeverTouch(Local(home) + ["f"], home)
  {
    assert (Local(home) + ["f"])[|home|..] == [".local", "f"];
  }

  lemma FileGrows(home: Path, cutoff: int, mtime: int, cutoff2: int, now: int)
    requires cutoff < mtime <= cutoff2 < now
    ensures Grown(OneFile(home, mtime, now), home, cutoff, cutoff2, 4, Local(home) + ["f"])
  {
    hide NeverTouch;
    var t, f := OneFile(home, mtime, now), Local(home) + ["f"];
    FreeName(home);
    assert Parent(f) == Local(home);
    assert Walked(t, home, cutoff2, Local(home));
  }

  lemma FileIsDoomed(home: Path, mtime: int, now: int)
    ensures Local(home) + ["f"] in Doomed(OneFile(home, mtime, now), home, Local(home) + ["f"])
  {
    hide NeverTouch;
    FreeName(home);
  }

  /** At a later cutoff the tiers do remove more: a file that grew stale in between. */
  lemma LaterRunRemovesMore(home: Path, cutoff: int, mtime: int, cutoff2: int, now: int, now2: int)
    requires cutoff < mtime <= cutoff2 < now && now2 > cutoff2
    ensures var t := OneFile(home, mtime, now);
            && Stage(t, home, cutoff, now, 4) == t
            && Stage(t, home, cutoff2, now2, 4) != t
  {
    hide Stage, Doomed, RootsOf, OneFile;
    var t, f := OneFile(home, mtime, now), Local(home) + ["f"];
    NothingStale(home, cutoff, mtime, now);
    FileGrows(home, cutoff, mtime, cutoff2, now);
    FileIsDoomed(home, mtime, now);
    LaterRunChanges(t, home, cutoff, now, cutoff2, now2);
  }

  lemma NothingBelowNone(t: Tree, home: Path, roots: set<Path>)
    requires roots == {}
    ensures DoomedAll(t, home, roots) == {}
  {
  }

  lemma NoCacheRoots(home: Path, cutoff: int, mtime: int, now: int)
    ensures RootsOf(OneFile(home, mtime, now), home, cutoff, 1) == {}
  {
    assert Cache(home)[|home|] == ".cache" && (Local(home) + ["f"])[|home|] == ".local";
  }

  lemma NoStaleRoots(home: Path, cutoff: int, mtime: int, now: int, k: nat)
    requires cutoff < mtime && cutoff < now && 2 <= k <= 4
    ensures RootsOf(OneFile(home, mtime, now), home, cutoff, k) == {}
  {
    hide OneFile;
    forall r | r in RootsOf(OneFile(home, mtime, now), home, cutoff, k)
      ensures false
    {
      RootsAreStale(OneFile(home, mtime, now), home, cutoff, k, r);
      AllRecent(home, cutoff, mtime, now, r);
    }
  }

  lemma AllRecent(home: Path, cutoff: int, mtime: int, now: int, p: Path)
    requires cutoff < mtime && cutoff < now && p in OneFile(home, mtime, now)
    ensures cutoff < OneFile(home, mtime, now)[p].mtime
  {
  }

  lemma NothingStale(home: Path, cutoff: int, mtime: int, now: int)
    requires cutoff < mtime && cutoff < now
    ensures WellFormed(OneFile(home, mtime, now), home)
    ensures Stage(OneFile(home, mtime, now), home, cutoff, now, 4) == OneFile(home, mtime, now)
  {
    var t := OneFile(home, mtime, now);
    hide RootsOf, DoomedAll, Stage;
    forall k: nat | 1 <= k <= 4
      ensures DoomedAll(t, home, RootsOf(t, home, cutoff, k)) == {}
    {
      if k == 1 {
        NoCacheRoots(home, cutoff, mtime, now);
      } else {
        NoStaleRoots(home, cutoff, mtime, now, k);
      }
      NothingBelowNone(t, home, RootsOf(t, home, cutoff, k));
    }
    IdleStages(t, home, cutoff, now, 4);
  }

  // ---- What the list leaves out ----

  /** A removed node is listed exactly when it was a file with bytes; after a failure only files whose size could not be
    * read may be missing. */
  lemma ListedExactly(t0: Tree, t1: Tree, log: seq<Path>, reliable: bool, unread: set<Path>, p: Path)
    requires Logged(t0, t1, log, reliable, unread) && p in t0 && p !in t1
    ensures p in log ==> t0[p].kind.Regular? && t0[p].size > 0
    ensures reliable || p !in unread ==> (p in log <==> t0[p].kind.Regular? && t0[p].size > 0)
  {
    assert p in log <==> p in Elements(log);
    assert p in Reportable(t0, t1) <==> t0[p].kind.Regular? && t0[p].size > 0;
  }

  /** A home with an empty file and a link in `.cache`. */
  function Weightless(home: Path, now: int): Tree {
    map[home := Entry(Directory, 0, now), Cache(home) := Entry(Directory, 0, now),
        Cache(home) + ["e"] := Entry(Regular, 0, now), Cache(home) + ["l"] := Entry(Symlink, 9, now)]
  }

  lemma WeightlessGoes(home: Path, now: int, name: string)
    requires name == "e" || name == "l"
    ensures Cache(home) + [name] !in Tier1(Weightless(home, now), home, now)
  {
    var t, p := Weightless(home, now), Cache(home) + [name];
    assert !NeverTouch(p, home) by {
      assert p[|home|..] == [".cache", name];
    }
    assert p in Children(t, Cache(home));
    assert forall q :: q in t && p <= q ==> q == p;
    assert !Sticky(t, home, p);
    assert p in Doomed(t, home, p);
  }

  /** The first tier deletes both, and its list is empty. */
  lemma DeletedUnlisted(home: Path, now: int, log: seq<Path>)
    requires Logged(Weightless(home, now), Tier1(Weightless(home, now), home, now), log, true, {})
    ensures log == []
    ensures Cache(home) + ["e"] !in Tier1(Weightless(home, now), home, now)
    ensures Cache(home) + ["l"] !in Tier1(Weightless(home, now), home, now)
  {
    WeightlessGoes(home, now, "e");
    WeightlessGoes(home, now, "l");
    assert Reportable(Weightless(home, now), Tier1(Weightless(home, now), home, now)) == {};
    FirstIsListed(log);
  }

  lemma FirstIsListed(log: seq<Path>)
    ensures log != [] ==> log[0] in Elements(log)
  {
  }

  // ---- The budget loop ----

  /** The result is the first stage that fits, or the last one. */
  lemma FirstFit(t: Tree, home: Path, budget: int, cutoff: int, now: int, k: nat) returns (n: nat)
    requires k <= 4
    requires forall j :: 0 <= j < k ==> Size(Stage(t, home, cutoff, now, j), home) > budget
    ensures k <= n <= 4 && Enforced(t, home, budget, cutoff, now, k) == Stage(t, home, cutoff, now, n)
    ensures forall j :: 0 <= j < n ==> Size(Stage(t, home, cutoff, now, j), home) > budget
    ensures n < 4 ==> Size(Stage(t, home, cutoff, now, n), home) <= budget
    decreases 4 - k
  {
    if Size(Stage(t, home, cutoff, now, k), home) <= budget || k == 4 {
      n := k;
    } else {
      n := FirstFit(t, home, budget, cutoff, now, k + 1);
    }
  }

  /** Still over budget means that all four tiers ran and that none of them can remove anything more. */
  lemma OverBudgetIsExhausted(t: Tree, home: Path, budget: int, cutoff: int, now: int)
    requires WellFormed(t, home) && now > cutoff
    ensures var e := Enforced(t, home, budget, cutoff, now, 0);
            Size(e, home) > budget ==>
              && e == Stage(t, home, cutoff, now, 4)
              && (forall j :: 0 <= j <= 4 ==> Size(Stage(t, home, cutoff, now, j), home) > budget)
              && forall k :: 1 <= k <= 4 ==> DoomedAll(e, home, RootsOf(e, home, cutoff, k)) == {}
  {
    hide Stage, DoomedAll, RootsOf, Size, WellFormed;
    var n := FirstFit(t, home, budget, cutoff, now, 0);
    if Size(Enforced(t, home, budget, cutoff, now, 0), home) > budget {
      forall k | 1 <= k <= 4
        ensures var e := Stage(t, home, cutoff, now, 4); DoomedAll(e, home, RootsOf(e, home, cutoff, k)) == {}
      {
        NothingLeft(t, home, cutoff, now, k, 4);
      }
    }
  }

  /** Enforcing the same budget again with the same cutoff changes nothing. */
  lemma EnforcedIdempotent(t: Tree, home: Path, budget: int, cutoff: int, now: int, now2: int)
    requires WellFormed(t, home) && now > cutoff
    ensures var e := Enforced(t, home, budget, cutoff, now, 0); Enforced(e, home, budget, cutoff, now2, 0) == e
  {
    var e := Enforced(t, home, budget, cutoff, now, 0);
    OverBudgetIsExhausted(t, home, budget, cutoff, now);
    if Size(e, home) > budget {
      var n := FirstFit(e, home, budget, cutoff, now2, 0);
      TiersIdempotent(t, home, cutoff, now, now2, n);
    }
  }

  // ---- Where pruning may remove, and what a whole run did ----

  /** Under `.cache`, or under `.local` at or below something stale; never inside a real `.local/bin`. */
  ghost predicate Removable(t: Tree, home: Path, cutoff: int, p: Path) {
    && (Cache(home) < p || (Local(home) < p && exists a :: Local(home) < a && a <= p && a in t && t[a].mtime <= cutoff))
    && !(IsBinDir(t, home, Bin(home)) && Bin(home) <= p)
  }

  ghost predicate Confined(t0: Tree, t1: Tree, home: Path, cutoff: int) {
    forall p :: p in t0 && p !in t1 ==> Removable(t0, home, cutoff, p)
  }

  lemma RootIsRemovable(t: Tree, home: Path, cutoff: int, k: nat, r: Path, p: Path)
    requires 1 <= k <= 4 && r in RootsOf(t, home, cutoff, k) && r <= p
    ensures Removable(t, home, cutoff, p)
    ensures r in t && (Cache(home) < p || (Local(home) < r && t[r].mtime <= cutoff))
  {
    var h := |home|;
    if k == 1 {
      TransitivePrefix(Cache(home), r, p);
      PrefixAt(Cache(home), p);
      assert p[h] == ".cache";
    } else if k < 4 {
      TransitivePrefix(Lib(home), r, p);
      PrefixAt(Lib(home), p);
      PrefixAt(Lib(home), r);
      assert p[h + 1] == "lib" && Local(home) == p[..h + 1] == r[..h + 1];
    } else {
      TransitivePrefix(Local(home), r, p);
      if IsBinDir(t, home, Bin(home)) && Bin(home) <= p {
        Comparable(Bin(home), r, p);
        BinIsNotAbove(t, home, cutoff, r);
        assert false;
      }
    }
  }

  lemma BinIsNotAbove(t: Tree, home: Path, cutoff: int, r: Path)
    requires r in StaleLocalRoots(t, home, cutoff) && IsBinDir(t, home, Bin(home))
    ensures !(Bin(home) <= r) && !(r <= Bin(home))
  {
    assert Local(home) < Bin(home);
    if Bin(home) <= r {
      RootIsWalkedTo(t, home, cutoff, Bin(home), r);
    }
    if r <= Bin(home) {
      PrefixAt(r, Bin(home));
    }
  }

  /** What `k` tiers did to a tree, whichever calls failed. */
  ghost predicate AfterTiers(a: Snapshot, b: Snapshot, home: Path, cutoff: int, now: int, reliable: bool, k: nat) {
    && WellFormed(a.tree, home)
    && Later(a.tree, b.tree, home, cutoff)
    && Confined(a.tree, b.tree, home, cutoff)
    && a.pruned <= b.pruned && a.unread <= b.unread
    && Logged(a.tree, b.tree, b.pruned[|a.pruned|..], reliable, b.unread)
    && (reliable ==> b.tree == Stage(a.tree, home, cutoff, now, k))
  }

  lemma NoTiers(a: Snapshot, home: Path, cutoff: int, now: int, reliable: bool)
    requires WellFormed(a.tree, home)
    ensures AfterTiers(a, a, home, cutoff, now, reliable, 0)
  {
    assert a.pruned[|a.pruned|..] == [];
  }

  lemma OneMoreTier(a: Snapshot, b: Snapshot, c: Snapshot, home: Path, cutoff: int, now: int, reliable: bool, k: nat,
                    freed: int)
    requires AfterTiers(a, b, home, cutoff, now, reliable, k) && k < 4
    requires WellFormed(b.tree, home) && now > cutoff
    requires Effect(b, c, DoomedAll(b.tree, home, RootsOf(b.tree, home, cutoff, k + 1)), now, reliable, freed)
    ensures AfterTiers(a, c, home, cutoff, now, reliable, k + 1)
  {
    hide RootsOf, DoomedAll, Logged, Later, Confined, Pruned, Removable, Stage, Tier;
    PrunedIsLater(b.tree, c.tree, home, RootsOf(b.tree, home, cutoff, k + 1), cutoff, now, reliable);
    LaterTransitive(a.tree, b.tree, c.tree, home, cutoff);
    ConfinedStep(a.tree, b.tree, c.tree, home, cutoff, now, reliable, k + 1);
    LogGrows(a, b, c, home, cutoff, now, reliable, k, freed);
    if reliable {
      PrunedIsTier(b.tree, c.tree, home, RootsOf(b.tree, home, cutoff, k + 1), now);
      StageIsTier(a.tree, home, cutoff, now, k);
    }
  }

  lemma LogGrows(a: Snapshot, b: Snapshot, c: Snapshot, home: Path, cutoff: int, now: int, reliable: bool, k: nat,
                    freed: int)
    requires AfterTiers(a, b, home, cutoff, now, reliable, k) && k < 4
    requires Effect(b, c, DoomedAll(b.tree, home, RootsOf(b.tree, home, cutoff, k + 1)), now, reliable, freed)
    ensures a.pruned <= c.pruned && Logged(a.tree, c.tree, c.pruned[|a.pruned|..], reliable, c.unread)
  {
    hide RootsOf, DoomedAll, Confined, Removable, Stage;
    var log1, log2 := b.pruned[|a.pruned|..], c.pruned[|b.pruned|..];
    assert c.pruned[|a.pruned|..] == log1 + log2;
    LogOneMore(a.tree, b.tree, c.tree, reliable, log1, log2, b.unread, c.unread);
  }

  lemma PrunedIsTier(t: Tree, t': Tree, home: Path, roots: set<Path>, now: int)
    requires Pruned(t, t', DoomedAll(t, home, roots), now, true)
    ensures t' == Tier(t, home, roots, now)
  {
    hide After, DoomedAll;
  }

  lemma StageIsTier(t: Tree, home: Path, cutoff: int, now: int, k: nat)
    requires k < 4
    ensures var s := Stage(t, home, cutoff, now, k);
            Stage(t, home, cutoff, now, k + 1) == Tier(s, home, RootsOf(s, home, cutoff, k + 1), now)
  {
    hide Tier, Children, SitePackageRoots, OtherLibRoots, StaleLocalRoots;
  }

  lemma ConfinedStep(t0: Tree, t1: Tree, t2: Tree, home: Path, cutoff: int, now: int, reliable: bool, k: nat)
    requires 1 <= k <= 4 && Later(t0, t1, home, cutoff) && Confined(t0, t1, home, cutoff)
    requires Pruned(t1, t2, DoomedAll(t1, home, RootsOf(t1, home, cutoff, k)), now, reliable)
    ensures Confined(t0, t2, home, cutoff)
  {
    forall p | p in t1 && p !in t2
      ensures Removable(t0, home, cutoff, p)
    {
      var r :| r in RootsOf(t1, home, cutoff, k) && p in Doomed(t1, home, r);
      RootIsRemovable(t1, home, cutoff, k, r, p);
      BinStays(t0, t1, home, cutoff);
      if Local(home) < r {
        TransitivePrefix(Local(home), r, p);
      }
    }
  }

  lemma BinStays(t0: Tree, t1: Tree, home: Path, cutoff: int)
    requires Later(t0, t1, home, cutoff) && Confined(t0, t1, home, cutoff)
    ensures IsBinDir(t0, home, Bin(home)) ==> IsBinDir(t1, home, Bin(home))
  {
    if IsBinDir(t0, home, Bin(home)) && Bin(home) !in t1 {
      assert false;
    }
  }

  /** Bytes before less bytes after are what the list and the removed links account for. */
  lemma RunConserves(a: Snapshot, b: Snapshot, home: Path, cutoff: int, now: int, k: nat)
    requires AfterTiers(a, b, home, cutoff, now, true, k)
    requires Elements(b.pruned[|a.pruned|..]) <= a.tree.Keys
    ensures Size(a.tree, home) - Size(b.tree, home)
         == SumLog(a.tree, b.pruned[|a.pruned|..]) + SumSizes(a.tree, RemovedLinks(a.tree, b.tree))
  {
    forall p | p in a.tree && p !in b.tree
      ensures home < p && !a.tree[p].kind.Special?
    {
      assert Removable(a.tree, home, cutoff, p);
      assert home < Cache(home) && home < Local(home);
      if a.tree[p].kind.Special? {
        assert Sticky(a.tree, home, p);
        assert false;
      }
    }
    Conservation(a.tree, b.tree, home, b.pruned[|a.pruned|..], b.unread);
  }
}
