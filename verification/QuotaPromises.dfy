/** What a run of the quota walker promises, told by the names and figures themselves. */
module QuotaPromises {
  import opened HomeTree
  import opened Ledger
  import opened QuotaTiers
  import opened QuotaTheorems
  import opened QuotaRun

  /** Credentials, lock files, and all that is in or at a workspace, a repository or the configuration. */
  predicate Precious(home: Path, p: Path) {
    home < p &&
    var name := p[|p| - 1];
    || name == "oauth_creds.json" || name == "credentials.json" || name == "google_accounts.json"
    || (|name| >= 5 && name[|name| - 5..] == ".lock")
    || exists i :: |home| <= i < |p| && p[i] in {"projects", ".git", ".config"}
  }

  /** Precious, or neither file, link nor directory. */
  ghost predicate Guarded(t: Tree, home: Path, q: Path) {
    q in t && (Precious(home, q) || t[q].kind.Special?)
  }

  /** `p` is a guarded node at or below `root`, lies in one or leads to one. */
  ghost predicate Shielded(t: Tree, home: Path, root: Path, p: Path) {
    exists q :: Guarded(t, home, q) && root <= q && (q <= p || p <= q)
  }

  /** In `.cache`, or in `.local` at or below something untouched for fourteen days; never in a real `.local/bin`. */
  ghost predicate MayGo(t: Tree, home: Path, now: int, p: Path) {
    && (|| home + [".cache"] < p
        || exists a :: home + [".local"] < a && a <= p && a in t && t[a].mtime <= now - 1209600)
    && !(home + [".local", "bin"] <= p && home + [".local", "bin"] in t && t[home + [".local", "bin"]].kind.Directory?)
  }

  /** `p` is at, above or below one of these paths. */
  ghost predicate Beside(hurt: set<Path>, p: Path) {
    exists h :: h in hurt && (h <= p || p <= h)
  }

  /** What lies in `.cache` is gone, but for guarded nodes, what lies in or leads to one, and what is beside `hurt`. */
  ghost predicate CacheIsCleared(t0: Tree, t1: Tree, home: Path, hurt: set<Path>) {
    forall p | p in t0 && home + [".cache"] < p ::
      var guarded := exists q :: Guarded(t0, home, q) && home + [".cache"] < q && (q <= p || p <= q);
      (guarded ==> p in t1) && (!guarded && !Beside(hurt, p) ==> p !in t1)
  }

  /** A real directory `python*` in `.local/lib`. */
  predicate PythonDir(t: Tree, home: Path, p: Path) {
    && |p| == |home| + 3 && home + [".local", "lib"] <= p && p in t && t[p].kind.Directory?
    && |p[|home| + 2]| >= 6 && p[|home| + 2][..6] == "python"
  }

  /** A recent directory, neither precious nor `.local/bin`. */
  ghost predicate Entered(t: Tree, home: Path, now: int, a: Path) {
    a in t && t[a].kind.Directory? && t[a].mtime > now - 1209600 && !Precious(home, a) && a != home + [".local", "bin"]
  }

  /** Where tier `k` starts removing. */
  ghost predicate Target(t: Tree, home: Path, now: int, k: nat, r: Path) {
    var h := |home|;
    r in t && match k
      case 1 => |r| == h + 2 && home + [".cache"] <= r
      case 2 =>
        && t[r].mtime <= now - 1209600
        && |r| == h + 5 && PythonDir(t, home, r[..h + 3]) && r[h + 3] == "site-packages"
      case 3 =>
        && t[r].mtime <= now - 1209600
        && |r| == h + 3 && home + [".local", "lib"] <= r && !PythonDir(t, home, r)
      case _ =>
        && t[r].mtime <= now - 1209600 && home + [".local"] < r && r[..|r| - 1] in t && t[r[..|r| - 1]].kind.Directory?
        && !Precious(home, r)
        && (r == home + [".local", "bin"] ==> !t[r].kind.Directory?)
        && forall a :: home + [".local"] < a && a < r ==> Entered(t, home, now, a)
  }

  /** Tier `k` takes only what lies at or below a target and is not shielded there; of that it leaves only
    * what is beside `hurt`. */
  ghost predicate TakesTargets(t: Tree, t': Tree, home: Path, now: int, hurt: set<Path>, k: nat) {
    && t'.Keys <= t.Keys
    && forall p | p in t ::
      && (p !in t' ==> exists r :: Target(t, home, now, k, r) && r <= p && !Shielded(t, home, r, p))
      && (p in t' && !Beside(hurt, p) ==>
            forall r :: Target(t, home, now, k, r) && r <= p ==> Shielded(t, home, r, p))
  }

  // ---- The names ----

  lemma PreciousByName(home: Path, p: Path)
    requires home < p
    ensures Precious(home, p) <==> NeverTouch(p, home)
  {
  }

  lemma GuardedIsSticky(t: Tree, home: Path, q: Path)
    requires home < q
    ensures Guarded(t, home, q) <==> Sticky(t, home, q)
  {
    PreciousByName(home, q);
  }

  lemma ShieldedIsKept(t: Tree, home: Path, root: Path, p: Path)
    requires home < root
    ensures Shielded(t, home, root, p) <==> Kept(t, home, root, p)
  {
    hide Sticky, Guarded;
    forall q | root <= q
      ensures Guarded(t, home, q) <==> Sticky(t, home, q)
    {
      GuardedIsSticky(t, home, q);
    }
  }

  lemma DoomedMeans(t: Tree, home: Path, r: Path, p: Path)
    requires home < r && r in t && p in t && r <= p
    ensures p in Doomed(t, home, r) <==> !Shielded(t, home, r, p)
  {
    hide NeverTouch, Precious;
    ShieldedIsKept(t, home, r, p);
    PreciousByName(home, r);
    if NeverTouch(r, home) {
      assert Guarded(t, home, r);
    }
  }

  // ---- The targets ----

  lemma TargetsOfOne(t: Tree, home: Path, now: int, r: Path)
    ensures r in Children(t, Cache(home)) <==> Target(t, home, now, 1, r)
  {
  }

  lemma LibIsLiteral(home: Path, p: Path)
    requires |p| >= |home| + 3
    ensures Lib(home) <= p <==> home + [".local", "lib"] <= p[..|home| + 3]
  {
  }

  lemma TargetsOfTwo(t: Tree, home: Path, now: int, r: Path)
    ensures r in SitePackageRoots(t, home, now - STALE_AGE_SECONDS) <==> Target(t, home, now, 2, r)
  {
    if |r| == |home| + 5 {
      LibIsLiteral(home, r);
    }
  }

  lemma TargetsOfThree(t: Tree, home: Path, now: int, r: Path)
    ensures r in OtherLibRoots(t, home, now - STALE_AGE_SECONDS) <==> Target(t, home, now, 3, r)
  {
  }

  lemma UpToParent(r: Path, a: Path)
    requires r != []
    ensures a <= Parent(r) <==> a < r
  {
    if a < r {
      assert a == r[..|a|] == Parent(r)[..|a|];
    }
  }

  /** What a target of the fourth tier promises of the directories above it. */
  lemma WalkedMeans(t: Tree, home: Path, now: int, cutoff: int, r: Path)
    requires Local(home) < r && cutoff == now - STALE_AGE_SECONDS
    ensures Walked(t, home, cutoff, Parent(r)) <==>
            && Parent(r) in t && t[Parent(r)].kind.Directory?
            && forall a :: Local(home) < a && a < r ==> Entered(t, home, now, a)
  {
    hide Precious, NeverTouch;
    UpToParent(r, Local(home));
    forall a | Local(home) < a
      ensures a <= Parent(r) <==> a < r
      ensures Descended(t, home, cutoff, a) <==> Entered(t, home, now, a)
    {
      UpToParent(r, a);
      PreciousByName(home, a);
    }
  }

  lemma TargetsOfFour(t: Tree, home: Path, now: int, r: Path)
    ensures r in StaleLocalRoots(t, home, now - STALE_AGE_SECONDS) <==> Target(t, home, now, 4, r)
  {
    hide Precious, NeverTouch, Walked;
    if Local(home) < r {
      WalkedMeans(t, home, now, now - STALE_AGE_SECONDS, r);
      PreciousByName(home, r);
    }
  }

  lemma TargetsOf(t: Tree, home: Path, now: int, k: nat, r: Path)
    requires 1 <= k <= 4
    ensures r in RootsOf(t, home, now - STALE_AGE_SECONDS, k) <==> Target(t, home, now, k, r)
    ensures Target(t, home, now, k, r) ==> home < r && r in t
  {
    hide SitePackageRoots, OtherLibRoots, StaleLocalRoots, Children, Target;
    TargetsOfOne(t, home, now, r);
    TargetsOfTwo(t, home, now, r);
    TargetsOfThree(t, home, now, r);
    TargetsOfFour(t, home, now, r);
    if Target(t, home, now, k, r) {
      TargetsAreBelow(t, home, now, k, r);
    }
  }

  lemma TargetsAreBelow(t: Tree, home: Path, now: int, k: nat, r: Path)
    requires 1 <= k <= 4 && Target(t, home, now, k, r)
    ensures home < r && r in t
    ensures k > 1 ==> r[|home|] == ".local"
  {
    if k == 1 {
      TransitivePrefix(home, home + [".cache"], r);
    } else if k == 2 {
      TransitivePrefix(home, home + [".local", "lib"], r[..|home| + 3]);
      TransitivePrefix(home, r[..|home| + 3], r);
    } else if k == 3 {
      TransitivePrefix(home, home + [".local", "lib"], r);
    }
  }

  // ---- One tier ----

  lemma TierTakesTargets(t: Tree, t': Tree, hurt: set<Path>, home: Path, budget: int, now: int, reliable: bool, k: nat)
    requires 1 <= k <= 4 && TierRan(t, t', hurt, home, budget, now, reliable, k)
    ensures TakesTargets(t, t', home, now, hurt, k)
  {
    hide Target, RootsOf, Shielded, Doomed, Near, Beside;
    assert forall p :: Near(hurt, p) <==> Beside(hurt, p) by {
      BesideIsNear(hurt);
    }
    var roots := RootsOf(t, home, now - STALE_AGE_SECONDS, k);
    forall p, r | p in t && r <= p
      ensures r in roots <==> Target(t, home, now, k, r)
      ensures r in roots ==> (p in Doomed(t, home, r) <==> !Shielded(t, home, r, p))
    {
      TargetsOf(t, home, now, k, r);
      if r in roots {
        DoomedMeans(t, home, r, p);
      }
    }
    forall p, r | p in Doomed(t, home, r)
      ensures r <= p
    {
      DoomedIsBelow(t, home, r, p);
    }
    forall p, r | p in t && r in roots && p in Doomed(t, home, r)
      ensures p in DoomedAll(t, home, roots)
    {
    }
  }

  lemma BesideIsNear(hurt: set<Path>)
    ensures forall p :: Near(hurt, p) <==> Beside(hurt, p)
  {
  }

  lemma DoomedIsBelow(t: Tree, home: Path, r: Path, p: Path)
    requires p in Doomed(t, home, r)
    ensures r <= p
  {
  }

  // ---- A whole run ----

  /** Every tier of a run took its targets. */
  ghost predicate EachTakesTargets(trail: seq<Tree>, home: Path, now: int, hurt: set<Path>) {
    forall i | 0 <= i < |trail| - 1 :: TakesTargets(trail[i], trail[i + 1], home, now, hurt, i + 1)
  }

  lemma TrailTakesTargets(trail: seq<Tree>, t0: Tree, t1: Tree, hurt: set<Path>, home: Path, budget: int, now: int,
                          reliable: bool)
    requires Trail(trail, t0, t1, hurt, home, budget, now, reliable)
    ensures EachTakesTargets(trail, home, now, hurt)
  {
    forall i | 0 <= i < |trail| - 1
      ensures TakesTargets(trail[i], trail[i + 1], home, now, hurt, i + 1)
    {
      TierTakesTargets(trail[i], trail[i + 1], hurt, home, budget, now, reliable, i + 1);
    }
  }

  /** Later tiers leave `.cache` alone. */
  lemma {:induction false} CacheIsDone(trail: seq<Tree>, home: Path, now: int, hurt: set<Path>, n: nat, p: Path)
    requires EachTakesTargets(trail, home, now, hurt) && 1 <= n < |trail| <= 5
    requires home + [".cache"] < p
    ensures p in trail[n] <==> p in trail[1]
  {
    if n > 1 {
      CacheIsDone(trail, home, now, hurt, n - 1, p);
      assert TakesTargets(trail[n - 1], trail[n], home, now, hurt, n);
      if p in trail[n - 1] && p !in trail[n] {
        var r :| Target(trail[n - 1], home, now, n, r) && r <= p;
        TargetsAreBelow(trail[n - 1], home, now, n, r);
        assert false;
      }
    }
  }

  lemma OneTierClears(t: Tree, t': Tree, home: Path, now: int, hurt: set<Path>, p: Path)
    requires WellFormed(t, home) && TakesTargets(t, t', home, now, hurt, 1)
    requires p in t && home + [".cache"] < p
    ensures var guarded := exists q :: Guarded(t, home, q) && home + [".cache"] < q && (q <= p || p <= q);
            (guarded ==> p in t') && (!guarded && !Beside(hurt, p) ==> p !in t')
  {
    hide Guarded, Beside;
    var cache := home + [".cache"];
    var r := p[..|home| + 2];
    if r != p {
      PrefixIsDirectory(t, home, r, p);
    }
    assert Target(t, home, now, 1, r);
    forall r' | Target(t, home, now, 1, r') && r' <= p
      ensures r' == r
    {
      PrefixAt(r', p);
    }
    forall q | Guarded(t, home, q) && cache < q && (q <= p || p <= q)
      ensures r <= q
    {
    }
  }

  lemma LockedIsNear(t: Tree, home: Path, now: int, lock: LockOutcome)
    ensures var u := Locked(t, home, now, lock);
            && t.Keys <= u.Keys <= t.Keys + {home + [".quota-walker.lock"]}
            && (forall p :: p in t ==> u[p].kind == t[p].kind)
            && (forall p :: p in t && Local(home) < p ==> u[p] == t[p])
  {
    forall p | p in t && Local(home) < p
      ensures |p| >= |home| + 2
    {
    }
  }

  /** Nothing precious is removed, and nothing else but what may go. */
  lemma OnlyWhatMayGo(t: Tree, t1: Tree, home: Path, now: int, lock: LockOutcome)
    requires t1 == t || Safe(Locked(t, home, now, lock), t1, home, now)
    ensures forall p :: p in t && Precious(home, p) ==> p in t1
    ensures forall p :: p in t && p !in t1 ==> MayGo(t, home, now, p)
    ensures t1.Keys <= t.Keys + {home + [".quota-walker.lock"]}
  {
    hide Precious, NeverTouch, Locked;
    LockedIsNear(t, home, now, lock);
    forall p | p in t && Precious(home, p)
      ensures p in t1
    {
      PreciousIsBelow(home, p);
      assert Guarded(t, home, p);
      GuardedIsSticky(Locked(t, home, now, lock), home, p);
    }
    forall p | p in t && p !in t1
      ensures MayGo(t, home, now, p)
    {
      assert Removable(Locked(t, home, now, lock), home, now - STALE_AGE_SECONDS, p);
      assert Local(home) < Bin(home);
    }
  }

  lemma PreciousIsBelow(home: Path, p: Path)
    requires Precious(home, p)
    ensures home < p
  {
  }

  lemma SameGuards(t: Tree, u: Tree, home: Path, q: Path)
    requires t.Keys <= u.Keys <= t.Keys + {home + [".quota-walker.lock"]}
    requires forall p :: p in t ==> u[p].kind == t[p].kind
    requires home + [".cache"] < q
    ensures Guarded(u, home, q) <==> Guarded(t, home, q)
  {
    assert |q| >= |home| + 2;
  }

  /** A run that began over its budget clears `.cache`. */
  lemma RunClearsCache(t: Tree, t1: Tree, trail: seq<Tree>, home: Path, now: int, hurt: set<Path>, lock: LockOutcome)
    requires WellFormed(t, home) && WellFormed(Locked(t, home, now, lock), home)
    requires 1 < |trail| <= 5 && trail[0] == Locked(t, home, now, lock) && trail[|trail| - 1] == t1
    requires EachTakesTargets(trail, home, now, hurt)
    ensures CacheIsCleared(t, t1, home, hurt)
  {
    hide Locked, WellFormed, Guarded, Beside;
    LockedIsNear(t, home, now, lock);
    assert TakesTargets(trail[0], trail[1], home, now, hurt, 1);
    forall p | p in t && home + [".cache"] < p
      ensures var guarded := exists q :: Guarded(t, home, q) && home + [".cache"] < q && (q <= p || p <= q);
              (guarded ==> p in t1) && (!guarded && !Beside(hurt, p) ==> p !in t1)
    {
      OneTierClears(trail[0], trail[1], home, now, hurt, p);
      forall q | home + [".cache"] < q
        ensures Guarded(trail[0], home, q) <==> Guarded(t, home, q)
      {
        SameGuards(t, trail[0], home, q);
      }
      CacheIsDone(trail, home, now, hurt, |trail| - 1, p);
    }
  }

  /** A plain file lying directly in a cleared `.cache` is gone, unless its name is precious or a call failed at it,
    * above it or below it. */
  lemma PlainFileGoes(t: Tree, t1: Tree, home: Path, hurt: set<Path>, name: string)
    requires WellFormed(t, home) && CacheIsCleared(t, t1, home, hurt) && !Beside(hurt, home + [".cache", name])
    requires home + [".cache", name] in t && t[home + [".cache", name]].kind.Regular?
    ensures home + [".cache", name] in t1 <==>
            || name in {"oauth_creds.json", "credentials.json", "google_accounts.json"}
            || name in {"projects", ".git", ".config"}
            || EndsWith(name, ".lock")
  {
    var p := home + [".cache", name];
    LeafHasNoChildren(t, home, p);
    assert p[|home|] == ".cache" && p[|home| + 1] == name;
    assert Precious(home, p) <==> Guarded(t, home, p);
    forall q | Guarded(t, home, q) && home + [".cache"] < q && (q <= p || p <= q)
      ensures q == p
    {
      if p <= q {
        assert q in Below(t, p);
      }
    }
  }

  // ---- The measure ----

  /** What is measured: each entry below the home adds its own size, unless it is a directory. */
  lemma OneMoreEntry(t: Tree, home: Path, p: Path, e: Entry)
    requires p !in t && home < p
    ensures Size(t[p := e], home) == Size(t, home) + if e.kind.Directory? then 0 else e.size
  {
    var u := t[p := e];
    SumAgree(t, u, Leaves(t, home));
    if e.kind.Directory? {
      assert Leaves(u, home) == Leaves(t, home);
    } else {
      SumRemove(u, Leaves(u, home), p);
      assert Leaves(u, home) - {p} == Leaves(t, home);
    }
  }

  lemma NothingBelowHome(t: Tree, home: Path)
    requires t.Keys <= {home}
    ensures Size(t, home) == 0
  {
    assert Leaves(t, home) == {};
  }

  /** Opening the lock file adds nothing to the measure. */
  lemma LockWeighsNothing(t: Tree, home: Path, now: int, lock: LockOutcome)
    requires IsHome(t, home)
    ensures Size(Locked(t, home, now, lock), home) == Size(t, home)
  {
    var file := home + [".quota-walker.lock"];
    var u := WithLockFile(t, home, now);
    if file !in t {
      var e := Entry(Regular, 0, now);
      OneMoreEntry(t, home, file, e);
      assert Leaves(u, home) == Leaves(t[file := e], home);
      SumAgree(u, t[file := e], Leaves(u, home));
    }
  }
}
