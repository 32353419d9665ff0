/** A whole call of the quota walker: lock file, measurements, tiers and report. */
module QuotaRun {
  import opened HomeTree
  import opened Ledger
  import opened QuotaTiers
  import opened QuotaTheorems
  import opened Recursion
  import opened Frontier

  /** What happened to the walker's lock file: never opened, held elsewhere, unusable, or taken. */
  datatype LockOutcome = NotOpened | Busy | Unusable | Acquired

  datatype Report = Report(before: nat, after: nat, pruned: seq<Path>, skipped: bool)

  /** `None` stands for an exception that escaped. */
  datatype Outcome = Raised | Returned(report: Report)

  /** Opening the lock file creates it when it is missing. */
  function WithLockFile(t: Tree, home: Path, now: int): Tree {
    var lock := home + [".quota-walker.lock"];
    if lock in t || home !in t then t else t[lock := Entry(Regular, 0, now)][home := t[home].(mtime := now)]
  }

  lemma LockFileKeeps(t: Tree, home: Path, now: int)
    requires WellFormed(t, home) && RealPrefixes(t, home) && home in t && t[home].kind.Directory?
    ensures WellFormed(WithLockFile(t, home, now), home) && RealPrefixes(WithLockFile(t, home, now), home)
  {
    hide RealPrefixes, WellFormed;
    var lock := home + [".quota-walker.lock"];
    if lock !in t {
      LockFileOnly(t, home, now);
      OneFileMore(t, WithLockFile(t, home, now), home, lock);
    }
  }

  lemma LockFileOnly(t: Tree, home: Path, now: int)
    requires home in t && t[home].kind.Directory? && home + [".quota-walker.lock"] !in t
    ensures var t1, lock := WithLockFile(t, home, now), home + [".quota-walker.lock"];
            && t1.Keys == t.Keys + {lock} && t1[lock].kind.Regular? && Parent(lock) == home
            && forall q :: q in t ==> t1[q].kind == t[q].kind
  {
  }

  lemma OneFileMore(t: Tree, t1: Tree, home: Path, f: Path)
    requires WellFormed(t, home) && RealPrefixes(t, home) && home in t && t[home].kind.Directory?
    requires t1.Keys == t.Keys + {f} && t1[f].kind.Regular? && Parent(f) == home && home <= f
    requires forall q :: q in t ==> t1[q].kind == t[q].kind
    ensures WellFormed(t1, home) && RealPrefixes(t1, home)
  {
  }

  ghost predicate IsHome(t: Tree, home: Path) {
    home in t && t[home].kind.Directory?
  }

  /** The tree once the lock file has been opened, if it was. */
  ghost function Locked(t: Tree, home: Path, now: int, lock: LockOutcome): Tree {
    if IsHome(t, home) && !lock.NotOpened? then WithLockFile(t, home, now) else t
  }

  /** Only removable nodes went and every sticky node stayed. */
  ghost predicate Safe(t0: Tree, t1: Tree, home: Path, now: int) {
    Later(t0, t1, home, now - STALE_AGE_SECONDS) && Confined(t0, t1, home, now - STALE_AGE_SECONDS)
  }

  lemma WhetherHome(t: Tree, home: Path, now: int, lock: LockOutcome)
    ensures IsHome(t, home) <==> home in t && t[home].kind.Directory?
    ensures Locked(t, home, now, lock) == if IsHome(t, home) && !lock.NotOpened? then WithLockFile(t, home, now) else t
  {
  }

  /** What a complete call reports, and the tree it leaves. */
  ghost predicate Enforcement(t0: Tree, t1: Tree, home: Path, budget: int, now: int, reliable: bool, report: Report,
                              unread: set<Path>) {
    && !report.skipped
    && Logged(t0, t1, report.pruned, reliable, unread)
    && report.before <= Size(t0, home) && report.after <= Size(t1, home)
    && (reliable ==>
          && t1 == Enforced(t0, home, budget, now - STALE_AGE_SECONDS, now, 0)
          && report.before == Size(t0, home) && report.after == Size(t1, home)
          && Elements(report.pruned) <= t0.Keys
          && report.before - report.after == SumLog(t0, report.pruned) + SumSizes(t0, RemovedLinks(t0, t1)))
  }

  /** What could be read of the tree fits. */
  ghost predicate FitsAsRead(t: Tree, home: Path, budget: int, failures: nat) {
    exists n: nat :: n <= budget && Measures(t, home, n, failures)
  }

  /** Both sizes of the report are measurements, and a call that did not run all tiers ended on a tree that fits, as far
    * as it could be read. */
  ghost predicate Measured(t0: Tree, t1: Tree, tiers: nat, home: Path, budget: int, report: Report, failures: nat) {
    && Measures(t0, home, report.before, failures) && Measures(t1, home, report.after, failures)
    && (tiers < 4 ==> FitsAsRead(t1, home, budget, failures))
  }

  lemma MeasuredAtOnce(t: Tree, home: Path, budget: int, size: nat, failures: nat)
    requires Measures(t, home, size, failures) && size <= budget
    ensures Measured(t, t, 0, home, budget, Report(size, size, [], false), failures)
  {
  }

  lemma MoreFailures(t0: Tree, t1: Tree, tiers: nat, home: Path, budget: int, report: Report, failures: nat, more: nat)
    requires Measured(t0, t1, tiers, home, budget, report, failures) && failures <= more
    ensures Measured(t0, t1, tiers, home, budget, report, more)
  {
    hide Measures;
    forall t, n: nat | Measures(t, home, n, failures)
      ensures Measures(t, home, n, more)
    {
      MeasuresMore(t, home, n, failures, more);
    }
  }

  lemma MeasuredAfter(t0: Tree, t1: Tree, tiers: nat, home: Path, budget: int, before: nat, size: nat, after: nat,
                      pruned: seq<Path>, failures: nat)
    requires Measures(t0, home, before, failures) && Measures(t1, home, after, failures)
    requires tiers < 4 ==> size <= budget && Measures(t1, home, size, failures)
    ensures Measured(t0, t1, tiers, home, budget, Report(before, after, pruned, false), failures)
  {
  }

  /** The trees a call went through: the first one, and the one each tier left, whatever failed. A tier runs on a tree
    * over the budget only, and removes what is its to remove: all of it but what is near a failed call, and all of it
    * on a run without failures. */
  ghost predicate Trail(trail: seq<Tree>, t0: Tree, t1: Tree, hurt: set<Path>, home: Path, budget: int, now: int,
                        reliable: bool) {
    && 1 <= |trail| <= 5 && trail[0] == t0 && trail[|trail| - 1] == t1
    && forall i | 0 <= i < |trail| - 1 :: TierRan(trail[i], trail[i + 1], hurt, home, budget, now, reliable, i + 1)
  }

  ghost predicate TierRan(t: Tree, t': Tree, hurt: set<Path>, home: Path, budget: int, now: int, reliable: bool, k: nat)
    requires 1 <= k <= 4
  {
    && Size(t, home) > budget
    && Pruned(t, t', DoomedAll(t, home, RootsOf(t, home, now - STALE_AGE_SECONDS, k)), now, reliable)
    && Spared(t', DoomedAll(t, home, RootsOf(t, home, now - STALE_AGE_SECONDS, k)), hurt)
  }

  /** The roots of tier `k` that are too deep for the removal. */
  ghost predicate DeepTier(t: Tree, home: Path, now: int, k: nat, frames: nat)
    requires 1 <= k <= 4
  {
    DeepRoots(t, home, RootsOf(t, home, now - STALE_AGE_SECONDS, k), frames)
  }

  /** Some tier that ran met a root that was too deep. */
  ghost predicate RanTooDeep(trail: seq<Tree>, home: Path, now: int, frames: nat)
    requires |trail| <= 5
  {
    exists i :: 0 <= i < |trail| - 1 && DeepTier(trail[i], home, now, i + 1, frames)
  }

  lemma TrailStarts(t: Tree, hurt: set<Path>, home: Path, budget: int, now: int, reliable: bool, frames: nat)
    ensures Trail([t], t, t, hurt, home, budget, now, reliable) && !RanTooDeep([t], home, now, frames)
  {
  }

  lemma TrailSpan(trail: seq<Tree>, t0: Tree, t1: Tree, hurt: set<Path>, home: Path, budget: int, now: int,
                  reliable: bool)
    requires Trail(trail, t0, t1, hurt, home, budget, now, reliable)
    ensures 1 <= |trail| <= 5 && trail[0] == t0 && trail[|trail| - 1] == t1
  {
  }

  lemma EffectIsTier(b: Snapshot, c: Snapshot, home: Path, budget: int, now: int, reliable: bool, k: nat, freed: int)
    requires 1 <= k <= 4 && Size(b.tree, home) > budget
    requires Effect(b, c, DoomedAll(b.tree, home, RootsOf(b.tree, home, now - STALE_AGE_SECONDS, k)), now, reliable,
                    freed)
    ensures TierRan(b.tree, c.tree, c.hurt, home, budget, now, reliable, k)
  {
  }

  lemma FirstTierTooDeep(trail: seq<Tree>, home: Path, now: int, frames: nat)
    ensures 1 < |trail| <= 5 && DeepTier(trail[0], home, now, 1, frames) ==> RanTooDeep(trail, home, now, frames)
  {
  }

  lemma TierStands(t: Tree, t': Tree, hurt: set<Path>, hurt': set<Path>, home: Path, budget: int, now: int,
                   strong: bool, weak: bool, k: nat)
    requires 1 <= k <= 4 && TierRan(t, t', hurt, home, budget, now, strong, k) && hurt <= hurt' && (weak ==> strong)
    ensures TierRan(t, t', hurt', home, budget, now, weak, k)
  {
    hide DoomedAll, RootsOf, Size, Spared;
    SparedLater(t', t', DoomedAll(t, home, RootsOf(t, home, now - STALE_AGE_SECONDS, k)), hurt, hurt');
  }

  lemma TrailGrows(trail: seq<Tree>, t0: Tree, t: Tree, t': Tree, hurt: set<Path>, hurt': set<Path>, home: Path,
                   budget: int, now: int, strong: bool, weak: bool, frames: nat)
    requires Trail(trail, t0, t, hurt, home, budget, now, strong) && |trail| <= 4 && (weak ==> strong) && hurt <= hurt'
    requires TierRan(t, t', hurt', home, budget, now, weak, |trail|)
    ensures Trail(trail + [t'], t0, t', hurt', home, budget, now, weak)
    ensures RanTooDeep(trail + [t'], home, now, frames)
       <==> RanTooDeep(trail, home, now, frames) || DeepTier(t, home, now, |trail|, frames)
  {
    hide DeepTier, Pruned, DoomedAll, RootsOf, Size, Spared;
    var more := trail + [t'];
    forall i | 0 <= i < |more| - 1
      ensures TierRan(more[i], more[i + 1], hurt', home, budget, now, weak, i + 1)
    {
      if i < |trail| - 1 {
        assert TierRan(trail[i], trail[i + 1], hurt, home, budget, now, strong, i + 1);
        TierStands(trail[i], trail[i + 1], hurt, hurt', home, budget, now, strong, weak, i + 1);
      }
    }
    if RanTooDeep(trail, home, now, frames) {
      var i :| 0 <= i < |trail| - 1 && DeepTier(trail[i], home, now, i + 1, frames);
      assert more[i] == trail[i];
    }
    if DeepTier(t, home, now, |trail|, frames) {
      assert more[|trail| - 1] == t;
    }
  }

  /** A tree within the budget is left alone, whatever fails. */
  lemma FittingIsLeftAlone(trail: seq<Tree>, t0: Tree, t1: Tree, hurt: set<Path>, home: Path, budget: int, now: int,
                           reliable: bool)
    requires Trail(trail, t0, t1, hurt, home, budget, now, reliable)
    ensures Size(t0, home) <= budget ==> |trail| == 1 && t1 == t0
  {
    if |trail| > 1 {
      assert TierRan(trail[0], trail[1], hurt, home, budget, now, reliable, 1);
    }
  }

  // ---- Steps of a call ----

  lemma WeakerProgress(a: Snapshot, b: Snapshot, home: Path, budget: int, now: int, strong: bool, weak: bool,
                       before: nat, k: nat)
    requires InProgress(a, b, home, budget, now, strong, before, k) && (weak ==> strong)
    ensures InProgress(a, b, home, budget, now, weak, before, k)
  {
  }

  ghost predicate OverUpTo(t: Tree, home: Path, budget: int, cutoff: int, now: int, k: int) {
    forall j: nat :: j <= k ==> Size(Stage(t, home, cutoff, now, j), home) > budget
  }

  /** `k` tiers have run and the tree measured too large before each of them and after the last. */
  ghost predicate InProgress(a: Snapshot, b: Snapshot, home: Path, budget: int, now: int, reliable: bool, before: nat,
                             k: nat) {
    && a.pruned == []
    && AfterTiers(a, b, home, now - STALE_AGE_SECONDS, now, reliable, k)
    && before <= Size(a.tree, home)
    && (reliable ==> before == Size(a.tree, home) && OverUpTo(a.tree, home, budget, now - STALE_AGE_SECONDS, now, k))
  }

  /** The first stage that fits is the result. */
  lemma StageReached(t: Tree, home: Path, budget: int, cutoff: int, now: int, i: nat, k: nat)
    requires i <= k <= 4
    requires OverUpTo(t, home, budget, cutoff, now, k - 1)
    requires k < 4 ==> Size(Stage(t, home, cutoff, now, k), home) <= budget
    ensures Enforced(t, home, budget, cutoff, now, i) == Stage(t, home, cutoff, now, k)
    decreases k - i
  {
    if i < k {
      StageReached(t, home, budget, cutoff, now, i + 1, k);
    }
  }

  lemma Untouched(t: Tree, home: Path, now: int)
    ensures Safe(t, t, home, now)
  {
  }

  lemma Beginning(a: Snapshot, home: Path, budget: int, now: int, reliable: bool, before: nat)
    requires WellFormed(a.tree, home) && a.pruned == []
    requires before <= Size(a.tree, home) && (reliable ==> before == Size(a.tree, home))
    ensures Safe(a.tree, a.tree, home, now)
    ensures before > budget ==> InProgress(a, a, home, budget, now, reliable, before, 0)
    ensures before <= budget ==>
      Enforcement(a.tree, a.tree, home, budget, now, reliable, Report(before, before, [], false), a.unread)
  {
    NoTiers(a, home, now - STALE_AGE_SECONDS, now, reliable);
    assert RemovedLinks(a.tree, a.tree) == {};
  }

  lemma TierDone(a: Snapshot, b: Snapshot, c: Snapshot, home: Path, budget: int, now: int, reliable: bool,
                 before: nat, k: nat, freed: int)
    requires 1 <= k <= 4 && InProgress(a, b, home, budget, now, reliable, before, k - 1) && WellFormed(b.tree, home)
    requires Effect(b, c, DoomedAll(b.tree, home, RootsOf(b.tree, home, now - STALE_AGE_SECONDS, k)), now, reliable,
        freed)
    ensures AfterTiers(a, c, home, now - STALE_AGE_SECONDS, now, reliable, k)
    ensures Safe(a.tree, c.tree, home, now)
  {
    OneMoreTier(a, b, c, home, now - STALE_AGE_SECONDS, now, reliable, k - 1, freed);
  }

  lemma TierWasNotEnough(a: Snapshot, b: Snapshot, c: Snapshot, home: Path, budget: int, now: int, reliable: bool,
                         before: nat, k: nat, size: nat)
    requires 1 <= k <= 4 && InProgress(a, b, home, budget, now, reliable, before, k - 1)
    requires AfterTiers(a, c, home, now - STALE_AGE_SECONDS, now, reliable, k)
    requires size > budget && (reliable ==> size == Size(c.tree, home))
    ensures InProgress(a, c, home, budget, now, reliable, before, k)
  {
  }

  lemma TierWasEnough(a: Snapshot, b: Snapshot, c: Snapshot, home: Path, budget: int, now: int, reliable: bool,
                      before: nat, k: nat, size: nat, after: nat)
    requires 1 <= k <= 4 && InProgress(a, b, home, budget, now, reliable, before, k - 1)
    requires AfterTiers(a, c, home, now - STALE_AGE_SECONDS, now, reliable, k)
    requires after <= Size(c.tree, home) && (reliable ==> after == Size(c.tree, home))
    requires k < 4 ==> size <= budget && (reliable ==> size == Size(c.tree, home))
    ensures Enforcement(a.tree, c.tree, home, budget, now, reliable, Report(before, after, c.pruned, false),
                        c.unread)
  {
    assert c.pruned[|a.pruned|..] == c.pruned;
    if reliable {
      StageReached(a.tree, home, budget, now - STALE_AGE_SECONDS, now, 0, k);
      RunConserves(a, c, home, now - STALE_AGE_SECONDS, now, k);
    }
  }
}
