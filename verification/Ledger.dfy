/** Byte totals of sets of nodes, and the list of pruned files kept while nodes are removed. */
module Ledger {
  import opened HomeTree

  // ---- Totals ----

  ghost function SumSizes(t: Tree, s: set<Path>): nat
    requires s <= t.Keys
  {
    if s == {} then 0 else
      var p :| p in s;
      t[p].size + SumSizes(t, s - {p})
  }

  lemma {:induction false} SumRemove(t: Tree, s: set<Path>, p: Path)
    requires s <= t.Keys && p in s
    ensures SumSizes(t, s) == t[p].size + SumSizes(t, s - {p})
    decreases |s|
  {
    var q :| q in s && SumSizes(t, s) == t[q].size + SumSizes(t, s - {q});
    if q != p {
      SumRemove(t, s - {q}, p);
      SumRemove(t, s - {p}, q);
      assert s - {q} - {p} == s - {p} - {q};
    }
  }

  lemma {:induction false} SumUnion(t: Tree, a: set<Path>, b: set<Path>)
    requires a <= t.Keys && b <= t.Keys && a !! b
    ensures SumSizes(t, a + b) == SumSizes(t, a) + SumSizes(t, b)
    decreases |a|
  {
    if a == {} {
      assert a + b == b;
    } else {
      var p :| p in a;
      SumRemove(t, a, p);
      SumRemove(t, a + b, p);
      assert (a + b) - {p} == (a - {p}) + b;
      SumUnion(t, a - {p}, b);
    }
  }

  lemma {:induction false} SumAgree(t0: Tree, t1: Tree, s: set<Path>)
    requires s <= t0.Keys && s <= t1.Keys
    requires forall p :: p in s ==> t0[p].size == t1[p].size
    ensures SumSizes(t0, s) == SumSizes(t1, s)
    decreases |s|
  {
    if s != {} {
      var p :| p in s;
      SumRemove(t0, s, p);
      SumRemove(t1, s, p);
      SumAgree(t0, t1, s - {p});
    }
  }

  lemma SumSubset(t: Tree, a: set<Path>, b: set<Path>)
    requires a <= b <= t.Keys
    ensures SumSizes(t, a) <= SumSizes(t, b)
  {
    SumUnion(t, a, b - a);
    assert a + (b - a) == b;
  }

  ghost function Leaves(t: Tree, root: Path): set<Path> {
    set p | p in t && root < p && !t[p].kind.Directory?
  }

  /** Bytes below `root`: everything that is not a directory, links counted by their own size. */
  ghost function Size(t: Tree, root: Path): nat {
    SumSizes(t, Leaves(t, root))
  }

  // ---- The pruned list ----

  ghost predicate Distinct(log: seq<Path>) {
    forall i, j :: 0 <= i < j < |log| ==> log[i] != log[j]
  }

  ghost function Elements(log: seq<Path>): set<Path> {
    set p | p in log
  }

  lemma SplitFirst(s: seq<Path>)
    requires s != [] && Distinct(s)
    ensures Elements(s) == {s[0]} + Elements(s[1..]) && s[0] !in Elements(s[1..]) && Distinct(s[1..])
  {
    assert s == [s[0]] + s[1..];
    assert forall i :: 0 <= i < |s[1..]| ==> s[1..][i] == s[i + 1] && s[0] != s[i + 1];
  }

  lemma SplitLast(s: seq<Path>)
    requires s != [] && Distinct(s)
    ensures Elements(s) == Elements(s[..|s| - 1]) + {s[|s| - 1]} && s[|s| - 1] !in Elements(s[..|s| - 1])
    ensures Distinct(s[..|s| - 1])
  {
    assert s == s[..|s| - 1] + [s[|s| - 1]];
    assert forall i :: 0 <= i < |s| - 1 ==> s[i] != s[|s| - 1];
  }

  lemma PushLast(s: seq<Path>, p: Path)
    requires Distinct(s) && p !in Elements(s)
    ensures Elements(s + [p]) == Elements(s) + {p} && Distinct(s + [p])
  {
    assert forall i :: 0 <= i < |s| ==> s[i] in Elements(s);
  }

  ghost function SumLog(t: Tree, log: seq<Path>): nat
    requires Elements(log) <= t.Keys
  {
    if log == [] then 0 else
      assert log[0] in Elements(log);
      assert Elements(log[1..]) <= Elements(log);
      t[log[0]].size + SumLog(t, log[1..])
  }

  lemma {:induction false} SumLogIsSum(t: Tree, log: seq<Path>)
    requires Elements(log) <= t.Keys && Distinct(log)
    ensures SumLog(t, log) == SumSizes(t, Elements(log))
  {
    if log != [] {
      assert log[0] in Elements(log);
      assert Elements(log[1..]) <= Elements(log);
      SumLogIsSum(t, log[1..]);
      SumRemove(t, Elements(log), log[0]);
      SplitFirst(log);
      assert Elements(log) - {log[0]} == Elements(log[1..]);
    }
  }

  /** The files a caller is told about: regular, with at least one byte. */
  ghost function Reportable(t0: Tree, t1: Tree): set<Path> {
    set p | p in t0 && p !in t1 && t0[p].kind.Regular? && t0[p].size > 0
  }

  /** The list names removed files with bytes, each once: all of them, but for those in `unread`. */
  ghost predicate Logged(t0: Tree, t1: Tree, log: seq<Path>, reliable: bool, unread: set<Path>) {
    && Distinct(log)
    && Elements(log) <= Reportable(t0, t1) <= Elements(log) + unread
    && (reliable ==> Elements(log) == Reportable(t0, t1))
  }

  // ---- What failures spare ----

  /** A call failed at `p`, above it or below it. */
  ghost predicate Near(hurt: set<Path>, p: Path) {
    exists h :: h in hurt && (h <= p || p <= h)
  }

  ghost predicate Struck(hurt: set<Path>, p: Path) {
    exists h :: h in hurt && h <= p
  }

  /** What may go and is still there is near a failed call. */
  ghost predicate Spared(t: Tree, may: set<Path>, hurt: set<Path>) {
    forall p :: p in may && p in t ==> Near(hurt, p)
  }

  lemma SparedLater(t: Tree, t1: Tree, may: set<Path>, hurt: set<Path>, hurt1: set<Path>)
    requires Spared(t, may, hurt) && t1.Keys <= t.Keys && hurt <= hurt1
    ensures Spared(t1, may, hurt1)
  {
    forall p | p in may && p in t1
      ensures Near(hurt1, p)
    {
      assert Near(hurt, p);
      var h :| h in hurt && (h <= p || p <= h);
      assert h in hurt1;
    }
  }

  lemma SparedUnion(t: Tree, x: set<Path>, y: set<Path>, hurt: set<Path>)
    requires Spared(t, x, hurt) && Spared(t, y, hurt)
    ensures Spared(t, x + y, hurt)
  {
  }

  /** Below a path where a call failed everything may stay. */
  lemma StruckIsSpared(t: Tree, u: Tree, home: Path, root: Path, hurt: set<Path>)
    requires Struck(hurt, root)
    ensures Spared(t, Doomed(u, home, root), hurt)
  {
    var h :| h in hurt && h <= root;
    forall p | p in Doomed(u, home, root)
      ensures h <= p
    {
      TransitivePrefix(h, root, p);
    }
  }

  lemma IsStruck(hurt: set<Path>, h: Path, p: Path)
    requires h in hurt && h <= p
    ensures Struck(hurt, p)
  {
  }

  lemma StruckLater(hurt: set<Path>, hurt1: set<Path>, p: Path)
    requires Struck(hurt, p) && hurt <= hurt1
    ensures Struck(hurt1, p)
  {
  }

  lemma NothingSpared(t: Tree, hurt: set<Path>)
    ensures Spared(t, {}, hurt)
  {
  }

  /** The tree and the shared list of pruned paths at one moment, the files whose size could not be read before they
    * were unlinked, and the paths where calls failed. */
  datatype Snapshot = Snapshot(tree: Tree, pruned: seq<Path>, unread: set<Path>, hurt: set<Path>)

  /** What one pruning call did to the tree and to the list, and what it returned. */
  ghost predicate Effect(a: Snapshot, b: Snapshot, may: set<Path>, now: int, reliable: bool, freed: int) {
    && Pruned(a.tree, b.tree, may, now, reliable)
    && a.pruned <= b.pruned && a.unread <= b.unread
    && a.hurt <= b.hurt && Spared(b.tree, may, b.hurt)
    && Logged(a.tree, b.tree, b.pruned[|a.pruned|..], reliable, b.unread)
    && Elements(b.pruned[|a.pruned|..]) <= a.tree.Keys
    && freed == SumLog(a.tree, b.pruned[|a.pruned|..])
  }

  /** Nothing happened, which is all right unless every call succeeded and something was due. */
  lemma NoEffect(a: Snapshot, hurt: set<Path>, may: set<Path>, now: int, reliable: bool)
    requires reliable ==> may == {}
    requires a.hurt <= hurt && Spared(a.tree, may, hurt)
    ensures Effect(a, a.(hurt := hurt), may, now, reliable, 0)
  {
    assert a.tree.Keys - a.tree.Keys == {};
    assert a.pruned[|a.pruned|..] == [];
    AfterNothing(a.tree, now);
  }

  /** Less is promised once a call has failed. */
  lemma WeakerEffect(a: Snapshot, b: Snapshot, hurt: set<Path>, may: set<Path>, now: int, strong: bool, weak: bool,
                     freed: int)
    requires Effect(a, b, may, now, strong, freed) && (weak ==> strong) && b.hurt <= hurt
    ensures Effect(a, b.(hurt := hurt), may, now, weak, freed)
  {
    SparedLater(b.tree, b.tree, may, b.hurt, hurt);
  }

  lemma {:induction false} SumLogAppend(t: Tree, a: seq<Path>, b: seq<Path>)
    requires Elements(a + b) <= t.Keys
    ensures Elements(a) <= t.Keys && Elements(b) <= t.Keys
    ensures SumLog(t, a + b) == SumLog(t, a) + SumLog(t, b)
  {
    assert forall p :: p in a || p in b ==> p in Elements(a + b);
    if a == [] {
      assert a + b == b;
    } else {
      assert (a + b)[1..] == a[1..] + b;
      assert Elements(a[1..] + b) <= Elements(a + b);
      SumLogAppend(t, a[1..], b);
    }
  }

  lemma {:induction false} SumLogAgree(t0: Tree, t1: Tree, log: seq<Path>)
    requires Elements(log) <= t0.Keys && Elements(log) <= t1.Keys
    requires forall p :: p in log ==> t0[p].size == t1[p].size
    ensures SumLog(t0, log) == SumLog(t1, log)
  {
    if log != [] {
      assert log[0] in Elements(log);
      assert Elements(log[1..]) <= Elements(log);
      SumLogAgree(t0, t1, log[1..]);
    }
  }

  /** Nodes only went; kinds and sizes of the rest are unchanged. */
  ghost predicate Shrunk(t0: Tree, t1: Tree) {
    t1.Keys <= t0.Keys && forall p :: p in t1 ==> t1[p].kind == t0[p].kind && t1[p].size == t0[p].size
  }

  /** Two pruning calls in a row leave a list that accounts for both. */
  lemma LogOneMore(t0: Tree, t1: Tree, t2: Tree, reliable: bool, log1: seq<Path>, log2: seq<Path>,
                   unread1: set<Path>, unread2: set<Path>)
    requires Shrunk(t0, t1) && Shrunk(t1, t2)
    requires Logged(t0, t1, log1, reliable, unread1) && Logged(t1, t2, log2, reliable, unread2) && unread1 <= unread2
    requires Elements(log1) <= t0.Keys && Elements(log2) <= t1.Keys
    ensures Elements(log1 + log2) <= t0.Keys
    ensures Logged(t0, t2, log1 + log2, reliable, unread2)
    ensures SumLog(t0, log1 + log2) == SumLog(t0, log1) + SumLog(t1, log2)
  {
    var log := log1 + log2;
    assert Elements(log) == Elements(log1) + Elements(log2);
    assert Reportable(t0, t2) == Reportable(t0, t1) + Reportable(t1, t2);
    assert Distinct(log) by {
      forall i, j | 0 <= i < j < |log|
        ensures log[i] != log[j]
      {
        if i < |log1| <= j {
          assert log[i] in Elements(log1) && log[j] in Elements(log2);
        }
      }
    }
    SumLogAppend(t0, log1, log2);
    SumLogAgree(t0, t1, log2);
  }

  lemma PrunedShrinks(t0: Tree, t1: Tree, may: set<Path>, now: int, reliable: bool)
    requires Pruned(t0, t1, may, now, reliable)
    ensures Shrunk(t0, t1)
  {
  }

  lemma SparedMore(t0: Tree, t1: Tree, t2: Tree, home: Path, done: set<Path>, roots: set<Path>, hurt1: set<Path>,
                   hurt2: set<Path>)
    requires Spared(t1, DoomedAll(t0, home, done), hurt1) && t2.Keys <= t1.Keys && hurt1 <= hurt2
    requires Spared(t2, DoomedAll(t0, home, roots), hurt2)
    ensures Spared(t2, DoomedAll(t0, home, done + roots), hurt2)
  {
    hide DoomedAll, Spared;
    SparedLater(t1, t2, DoomedAll(t0, home, done), hurt1, hurt2);
    SparedUnion(t2, DoomedAll(t0, home, done), DoomedAll(t0, home, roots), hurt2);
    DoomedUnion(t0, home, done, roots);
  }

  /** Pruning below more roots, with the list and the byte count. */
  lemma EffectMore(a: Snapshot, b: Snapshot, c: Snapshot, home: Path, done: set<Path>, roots: set<Path>,
                   now: int, reliable: bool, freed1: int, freed2: int)
    requires Effect(a, b, DoomedAll(a.tree, home, done), now, reliable, freed1)
    requires Effect(b, c, DoomedAll(b.tree, home, roots), now, reliable, freed2)
    requires done !! roots && Antichain(done + roots)
    ensures Effect(a, c, DoomedAll(a.tree, home, done + roots), now, reliable, freed1 + freed2)
  {
    hide DoomedAll, Spared, Antichain, Logged, SumLog, Pruned, Shrunk;
    var log1, log2 := b.pruned[|a.pruned|..], c.pruned[|b.pruned|..];
    assert c.pruned[|a.pruned|..] == log1 + log2;
    PruneMore(a.tree, b.tree, c.tree, home, done, roots, now, reliable);
    PrunedShrinks(a.tree, b.tree, DoomedAll(a.tree, home, done), now, reliable);
    PrunedShrinks(b.tree, c.tree, DoomedAll(b.tree, home, roots), now, reliable);
    ShrunkKeys(b.tree, c.tree);
    SparedMore(a.tree, b.tree, c.tree, home, done, roots, b.hurt, c.hurt);
    LogOneMore(a.tree, b.tree, c.tree, reliable, log1, log2, b.unread, c.unread);
  }

  lemma ShrunkKeys(t0: Tree, t1: Tree)
    requires Shrunk(t0, t1)
    ensures t1.Keys <= t0.Keys
  {
  }

  // ---- Conservation ----

  ghost function RemovedLinks(t0: Tree, t1: Tree): set<Path> {
    set p | p in t0 && p !in t1 && t0[p].kind.Symlink?
  }

  lemma {:induction false} SumZero(t: Tree, s: set<Path>)
    requires s <= t.Keys && forall p :: p in s ==> t[p].size == 0
    ensures SumSizes(t, s) == 0
    decreases |s|
  {
    if s != {} {
      var p :| p in s;
      SumRemove(t, s, p);
      SumZero(t, s - {p});
    }
  }

  /** Bytes before less bytes after are the sizes of the listed files and of the removed links. */
  lemma Conservation(t0: Tree, t1: Tree, home: Path, log: seq<Path>, unread: set<Path>)
    requires Shrunk(t0, t1) && Logged(t0, t1, log, true, unread) && Elements(log) <= t0.Keys
    requires forall p :: p in t0 && p !in t1 ==> home < p && !t0[p].kind.Special?
    ensures Size(t0, home) - Size(t1, home) == SumLog(t0, log) + SumSizes(t0, RemovedLinks(t0, t1))
  {
    var gone := Leaves(t0, home) - t1.Keys;
    var stay := Leaves(t1, home);
    assert stay == Leaves(t0, home) - gone;
    assert Leaves(t0, home) == stay + gone;
    SumUnion(t0, stay, gone);
    SumAgree(t0, t1, stay);
    var listed, links := Elements(log), RemovedLinks(t0, t1);
    var empty := set p | p in gone && t0[p].kind.Regular? && t0[p].size == 0;
    assert gone == (listed + links) + empty;
    SumUnion(t0, listed + links, empty);
    SumUnion(t0, listed, links);
    SumZero(t0, empty);
    SumLogIsSum(t0, log);
  }
}
