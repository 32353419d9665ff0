/** The four pruning tiers as functions on trees, and the properties of running them. */
module QuotaTiers {
  import opened HomeTree

  const STALE_AGE_SECONDS: int := 14 * 24 * 3600

  function Cache(home: Path): Path { home + [".cache"] }
  function Local(home: Path): Path { home + [".local"] }
  function Lib(home: Path): Path { home + [".local", "lib"] }
  function Bin(home: Path): Path { home + [".local", "bin"] }

  // ---- The roots each tier prunes below ----

  predicate IsPythonDir(t: Tree, p: Path) {
    p in t && t[p].kind.Directory? && StartsWith(Name(p), "python")
  }

  ghost function SitePackageRoots(t: Tree, home: Path, cutoff: int): set<Path> {
    set r | r in t && |r| == |home| + 5 && Lib(home) <= r && IsPythonDir(t, r[..|home| + 3])
            && r[|home| + 3] == "site-packages" && t[r].mtime <= cutoff
  }

  ghost function PackagesBelow(t: Tree, home: Path, cutoff: int, e: Path): set<Path> {
    set r | r in SitePackageRoots(t, home, cutoff) && e <= r
  }

  ghost function OtherLibRoots(t: Tree, home: Path, cutoff: int): set<Path> {
    set r | r in Children(t, Lib(home)) && !IsPythonDir(t, r) && t[r].mtime <= cutoff
  }

  predicate IsBinDir(t: Tree, home: Path, p: Path) {
    p == Bin(home) && p in t && t[p].kind.Directory?
  }

  /** A directory the fourth tier descends into: recent, unprotected, not the user's `bin`. */
  ghost predicate Descended(t: Tree, home: Path, cutoff: int, a: Path) {
    && a in t && t[a].kind.Directory? && t[a].mtime > cutoff
    && !NeverTouch(a, home) && !IsBinDir(t, home, a)
  }

  /** The walk reaches the entries of `d`: every directory from below `.local` down to `d` is descended. */
  ghost predicate Walked(t: Tree, home: Path, cutoff: int, d: Path) {
    && Local(home) <= d && d in t && t[d].kind.Directory?
    && forall a :: Local(home) < a && a <= d ==> Descended(t, home, cutoff, a)
  }

  ghost predicate StaleEntry(t: Tree, home: Path, cutoff: int, r: Path) {
    r in t && !IsBinDir(t, home, r) && !NeverTouch(r, home) && t[r].mtime <= cutoff
  }

  ghost function StaleLocalRoots(t: Tree, home: Path, cutoff: int): set<Path> {
    set r | r in t && Local(home) < r && Walked(t, home, cutoff, Parent(r)) && StaleEntry(t, home, cutoff, r)
  }

  /** `.cache`, `.local`, `.local/lib` and each `site-packages` are not symbolic links. */
  ghost predicate RealPrefixes(t: Tree, home: Path) {
    forall p :: p in t && t[p].kind.Symlink? ==>
      && p != Cache(home) && p != Local(home) && p != Lib(home)
      && !(|p| == |home| + 4 && Lib(home) <= p && StartsWith(p[|home| + 2], "python")
           && p[|home| + 3] == "site-packages")
  }

  lemma Prefixes(home: Path)
    ensures home <= Cache(home) && home <= Local(home) && home <= Lib(home)
  {
  }

  lemma OtherLibWithin(t: Tree, home: Path, cutoff: int)
    ensures OtherLibRoots(t, home, cutoff) <= Children(t, Lib(home))
  {
  }

  lemma LibRootsAntichain(t: Tree, home: Path, cutoff: int)
    ensures Antichain(SitePackageRoots(t, home, cutoff))
    ensures Antichain(OtherLibRoots(t, home, cutoff))
  {
  }

  lemma StaleIsNotDescended(t: Tree, home: Path, cutoff: int, d: Path, a: Path)
    requires Walked(t, home, cutoff, d) && Local(home) < a && a <= d
    ensures !StaleEntry(t, home, cutoff, a)
  {
    assert Descended(t, home, cutoff, a);
  }

  lemma StaleRootsAntichain(t: Tree, home: Path, cutoff: int)
    ensures Antichain(StaleLocalRoots(t, home, cutoff))
  {
    forall a, b | a in StaleLocalRoots(t, home, cutoff) && b in StaleLocalRoots(t, home, cutoff) && a <= b
      ensures a == b
    {
      if a != b {
        StrictPrefix(a, b);
        var up := Parent(b);
        assert Local(home) < a && a <= up;
        StaleIsNotDescended(t, home, cutoff, up, a);
        assert false;
      }
    }
  }

  // ---- Where roots lie ----

  ghost function StaleIn(t: Tree, d: Path, cutoff: int): set<Path> {
    set r | r in Children(t, d) && t[r].mtime <= cutoff
  }

  lemma NoChildren(t: Tree, home: Path, d: Path)
    requires WellFormed(t, home) && home <= d
    requires d in t ==> !t[d].kind.Directory?
    ensures Children(t, d) == {}
  {
    if d in t {
      LeafHasNoChildren(t, home, d);
    } else {
      MissingHasNothingBelow(t, home, d);
      assert Children(t, d) <= Below(t, d);
    }
  }

  lemma NoStaleIn(t: Tree, home: Path, d: Path, cutoff: int)
    requires WellFormed(t, home) && home <= d
    requires d in t ==> !t[d].kind.Directory?
    ensures StaleIn(t, d, cutoff) == {}
  {
    NoChildren(t, home, d);
  }

  lemma StaleInAntichain(t: Tree, d: Path, cutoff: int)
    ensures Antichain(StaleIn(t, d, cutoff))
    ensures forall r :: r in StaleIn(t, d, cutoff) ==> exists f :: f in Children(t, d) && f <= r
  {
    forall r | r in StaleIn(t, d, cutoff)
      ensures exists f :: f in Children(t, d) && f <= r
    {
      assert r in Children(t, d) && r <= r;
    }
  }

  /** An entry of a directory is a root there exactly when it is stale. */
  lemma StaleEntryOf(t: Tree, d: Path, cutoff: int, e: Path)
    requires e in Children(t, d)
    ensures e in StaleIn(t, d, cutoff) <==> t[e].mtime <= cutoff
    ensures e !in StaleIn(t, d, cutoff) ==> forall r :: r in StaleIn(t, d, cutoff) ==> !(e <= r)
  {
    forall r | r in StaleIn(t, d, cutoff) && e <= r
      ensures e == r
    {
      if e != r {
        StrictPrefix(e, r);
      }
    }
  }

  /** Below a `python*` directory the roots are the stale entries of its `site-packages`. */
  lemma PythonRoots(t: Tree, home: Path, cutoff: int, e: Path)
    requires WellFormed(t, home) && e in Children(t, Lib(home)) && IsPythonDir(t, e)
    ensures StaleIn(t, e + ["site-packages"], cutoff) <= SitePackageRoots(t, home, cutoff)
    ensures forall r :: r in SitePackageRoots(t, home, cutoff) && e <= r ==>
              r in StaleIn(t, e + ["site-packages"], cutoff)
    ensures forall r :: r in StaleIn(t, e + ["site-packages"], cutoff) ==> e <= r
  {
    var site := e + ["site-packages"];
    forall r | r in Children(t, site)
      ensures r[..|home| + 3] == e && Lib(home) <= r && e <= r
    {
      assert r[..|site|] == site && site[..|e|] == e;
      assert r[..|e|] == e;
      TransitivePrefix(Lib(home), e, r);
    }
    forall r | r in SitePackageRoots(t, home, cutoff) && e <= r
      ensures r in StaleIn(t, site, cutoff)
    {
      assert r[..|e| + 1] == r[..|e|] + [r[|e|]] == site;
    }
  }

  lemma NoPythonRoots(t: Tree, home: Path, cutoff: int, e: Path)
    requires e in Children(t, Lib(home)) && !IsPythonDir(t, e)
    ensures forall r :: r in SitePackageRoots(t, home, cutoff) ==> !(e <= r)
  {
    forall r | r in SitePackageRoots(t, home, cutoff)
      ensures !(e <= r)
    {
      if e <= r {
        PrefixAt(e, r);
        assert false;
      }
    }
  }

  /** All roots of the third tier are entries of `.local/lib`. */
  lemma OtherLibCover(t: Tree, home: Path, cutoff: int)
    ensures forall r :: r in OtherLibRoots(t, home, cutoff) ==> exists f :: f in Children(t, Lib(home)) && f <= r
  {
    forall r | r in OtherLibRoots(t, home, cutoff)
      ensures exists f :: f in Children(t, Lib(home)) && f <= r
    {
      assert r in Children(t, Lib(home)) && r <= r;
    }
  }

  lemma OtherLibEntry(t: Tree, home: Path, cutoff: int, e: Path)
    requires e in Children(t, Lib(home))
    ensures e in OtherLibRoots(t, home, cutoff) <==> !IsPythonDir(t, e) && t[e].mtime <= cutoff
    ensures e !in OtherLibRoots(t, home, cutoff) ==> forall r :: r in OtherLibRoots(t, home, cutoff) ==> !(e <= r)
  {
    forall r | r in OtherLibRoots(t, home, cutoff) && e <= r
      ensures e == r
    {
      if e != r {
        StrictPrefix(e, r);
      }
    }
  }

  /** All roots of the second tier lie below entries of `.local/lib`. */
  lemma SitePackageCover(t: Tree, home: Path, cutoff: int)
    requires WellFormed(t, home)
    ensures forall r :: r in SitePackageRoots(t, home, cutoff) ==> exists f :: f in Children(t, Lib(home)) && f <= r
  {
    forall r | r in SitePackageRoots(t, home, cutoff)
      ensures exists f :: f in Children(t, Lib(home)) && f <= r
    {
      var f := r[..|home| + 3];
      assert Lib(home) == r[..|home| + 2] == f[..|home| + 2];
      assert f in Children(t, Lib(home));
    }
  }

  lemma NoSitePackages(t: Tree, home: Path, cutoff: int)
    requires WellFormed(t, home) && Children(t, Lib(home)) == {}
    ensures SitePackageRoots(t, home, cutoff) == {}
  {
    SitePackageCover(t, home, cutoff);
  }

  /** The walk to a root enters everything above it. */
  lemma RootIsWalkedTo(t: Tree, home: Path, cutoff: int, e: Path, r: Path)
    requires r in StaleLocalRoots(t, home, cutoff) && Local(home) < e && e <= r
    ensures e == r || Descended(t, home, cutoff, e)
  {
    if e != r {
      StrictPrefix(e, r);
      var up := Parent(r);
      assert e <= up;
      assert Walked(t, home, cutoff, up);
    }
  }

  /** Nothing at or below an entry the fourth tier neither enters nor prunes is a root. */
  lemma BlockedEntry(t: Tree, home: Path, cutoff: int, e: Path)
    requires Local(home) < e && !Descended(t, home, cutoff, e) && !StaleEntry(t, home, cutoff, e)
    ensures forall r :: r in StaleLocalRoots(t, home, cutoff) ==> !(e <= r)
  {
    forall r | r in StaleLocalRoots(t, home, cutoff)
      ensures !(e <= r)
    {
      if e <= r {
        RootIsWalkedTo(t, home, cutoff, e, r);
        assert false;
      }
    }
  }

  lemma WalkedEntry(t: Tree, home: Path, cutoff: int, d: Path, e: Path)
    requires Walked(t, home, cutoff, d) && e in Children(t, d)
    ensures Local(home) < e
    ensures Descended(t, home, cutoff, e) ==> Walked(t, home, cutoff, e)
    ensures StaleEntry(t, home, cutoff, e) ==> e in StaleLocalRoots(t, home, cutoff)
  {
    TransitivePrefix(Local(home), d, e);
    assert Parent(e) == d;
    forall a | Local(home) < a && a <= e && a != e
      ensures Descended(t, home, cutoff, a)
    {
      StrictPrefix(a, e);
      assert a <= d;
    }
  }

  lemma WalkedIsNoRoot(t: Tree, home: Path, cutoff: int, d: Path)
    requires Walked(t, home, cutoff, d)
    ensures d !in StaleLocalRoots(t, home, cutoff)
  {
    if Local(home) < d {
      assert Descended(t, home, cutoff, d);
    }
  }

  lemma WalkStart(t: Tree, home: Path, cutoff: int)
    ensures Local(home) in t && t[Local(home)].kind.Directory? ==> Walked(t, home, cutoff, Local(home))
    ensures WellFormed(t, home) && !(Local(home) in t && t[Local(home)].kind.Directory?) ==>
      StaleLocalRoots(t, home, cutoff) == {}
  {
    if WellFormed(t, home) && !(Local(home) in t && t[Local(home)].kind.Directory?) {
      forall r | r in StaleLocalRoots(t, home, cutoff)
        ensures false
      {
        PrefixIsDirectory(t, home, Local(home), r);
      }
    }
  }
}
