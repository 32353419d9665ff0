/** The work list of an explicit-stack walk: incomparable paths whose subtrees are still to visit. */
module Frontier {
  import opened HomeTree
  import opened Ledger

  ghost function Under(t: Tree, front: set<Path>): set<Path> {
    set p | p in t && exists f :: f in front && f <= p
  }

  /** Replacing a directory by its entries loses that directory and nothing else. */
  lemma Expand(t: Tree, home: Path, front: set<Path>, cur: Path)
    requires WellFormed(t, home) && Antichain(front)
    requires cur in front && cur in t && t[cur].kind.Directory?
    ensures front - {cur} !! Children(t, cur)
    ensures Antichain(front - {cur} + Children(t, cur))
    ensures Under(t, front - {cur} + Children(t, cur)) == Under(t, front) - {cur}
  {
    var kids := Children(t, cur);
    var next := front - {cur} + kids;
    forall a, b | a in next && b in next && a <= b
      ensures a == b
    {
      if a in kids && b !in kids {
        TransitivePrefix(cur, a, b);
        assert false;
      } else if a !in kids && b in kids {
        Comparable(a, cur, b);
        assert false;
      }
    }
    forall p | p in Under(t, front) && p != cur
      ensures p in Under(t, next)
    {
      var f :| f in front && f <= p;
      if f == cur {
        StrictPrefix(cur, p);
        var c := p[..|cur| + 1];
        if c != p {
          StrictPrefix(c, p);
          PrefixIsDirectory(t, home, c, p);
        }
        assert c in kids && c in next;
      } else {
        assert f in next;
      }
    }
    forall p | p in Under(t, next)
      ensures p in Under(t, front) && p != cur
    {
      var f :| f in next && f <= p;
      if f in kids {
        assert cur <= p;
      }
    }
  }

  /** Dropping one path drops exactly its subtree. */
  lemma Drop(t: Tree, front: set<Path>, f: Path)
    requires Antichain(front) && f in front
    ensures Antichain(front - {f})
    ensures Under(t, front - {f}) == Under(t, front) - Below(t, f)
  {
    forall p | p in Under(t, front) && p !in Below(t, f)
      ensures p in Under(t, front - {f})
    {
      var g :| g in front && g <= p;
      assert g in front - {f};
    }
    forall p | p in Below(t, f)
      ensures p !in Under(t, front - {f})
    {
      if p in Under(t, front - {f}) {
        var g :| g in front - {f} && g <= p;
        Comparable(f, g, p);
        assert false;
      }
    }
  }

  // ---- A stack of paths and the entries being read ----

  ghost predicate Worklist(t: Tree, root: Path, stack: seq<Path>, entries: seq<Path>, front: set<Path>) {
    && Distinct(stack) && Distinct(entries)
    && Elements(stack) !! Elements(entries)
    && front == Elements(stack) + Elements(entries)
    && (forall s :: s in stack ==> s == root || (s in t && root < s))
    && (forall e :: e in entries ==> e in t && root < e)
  }

  ghost predicate StackOfDirs(t: Tree, root: Path, stack: seq<Path>) {
    forall s :: s in stack ==> s == root || (s in t && t[s].kind.Directory?)
  }

  lemma Pop(t: Tree, root: Path, stack: seq<Path>, front: set<Path>)
    requires Worklist(t, root, stack, [], front) && stack != []
    ensures var cur := stack[|stack| - 1];
            && cur in front
            && (cur == root || (cur in t && root < cur))
            && Worklist(t, root, stack[..|stack| - 1], [], front - {cur})
  {
    var n := |stack| - 1;
    SplitLast(stack);
    assert Elements([]) == {};
    assert front - {stack[n]} == Elements(stack[..n]) + Elements([]);
    assert stack[n] in stack && forall s :: s in stack[..n] ==> s in stack;
  }

  lemma PopDir(t: Tree, root: Path, stack: seq<Path>)
    requires StackOfDirs(t, root, stack) && stack != []
    ensures StackOfDirs(t, root, stack[..|stack| - 1])
    ensures var cur := stack[|stack| - 1]; cur == root || (cur in t && t[cur].kind.Directory?)
  {
  }

  lemma Move(t: Tree, root: Path, stack: seq<Path>, entries: seq<Path>, front: set<Path>)
    requires Worklist(t, root, stack, entries, front) && entries != []
    ensures Worklist(t, root, stack + [entries[0]], entries[1..], front)
  {
    assert entries[0] in entries;
    SplitFirst(entries);
    PushLast(stack, entries[0]);
  }

  lemma Push(t: Tree, root: Path, stack: seq<Path>, entries: seq<Path>, front: set<Path>)
    requires Worklist(t, root, stack, entries, front) && StackOfDirs(t, root, stack)
    requires entries != [] && entries[0] in t && t[entries[0]].kind.Directory?
    ensures Worklist(t, root, stack + [entries[0]], entries[1..], front)
    ensures StackOfDirs(t, root, stack + [entries[0]])
  {
    Move(t, root, stack, entries, front);
  }

  lemma Skip(t: Tree, root: Path, stack: seq<Path>, entries: seq<Path>, front: set<Path>)
    requires Worklist(t, root, stack, entries, front) && entries != []
    ensures entries[0] in front && entries[0] in t && root < entries[0]
    ensures Worklist(t, root, stack, entries[1..], front - {entries[0]})
  {
    assert entries[0] in entries;
    SplitFirst(entries);
  }

  lemma ListEntries(t: Tree, root: Path, stack: seq<Path>, front: set<Path>, d: Path, entries: seq<Path>)
    requires Worklist(t, root, stack, [], front) && front !! Children(t, d) && root <= d
    requires Distinct(entries) && Elements(entries) == Children(t, d)
    ensures Worklist(t, root, stack, entries, front + Children(t, d))
  {
    assert Elements([]) == {};
    forall e | e in entries
      ensures e in t && root < e
    {
      assert e in Elements(entries);
    }
  }

  lemma StartList(t: Tree, d: Path, entries: seq<Path>)
    requires Distinct(entries) && Elements(entries) == Children(t, d)
    ensures Worklist(t, d, [], entries, Children(t, d))
  {
    assert Elements([]) == {};
    forall e | e in entries
      ensures e in t && d < e
    {
      assert e in Elements(entries);
    }
  }

  /** The entries not read yet are given up. */
  lemma GiveUp(t: Tree, root: Path, stack: seq<Path>, entries: seq<Path>, front: set<Path>)
    requires Worklist(t, root, stack, entries, front)
    ensures Worklist(t, root, stack, [], Elements(stack)) && Elements(stack) <= front
    ensures Under(t, Elements(stack)) <= Under(t, front)
    ensures entries == [] ==> Elements(stack) == front
  {
    assert Elements([]) == {};
  }

  lemma NoPaths(t: Tree, root: Path, front: set<Path>)
    requires Worklist(t, root, [], [], front)
    ensures front == {}
  {
    assert Elements([]) == {};
  }

  // ---- Counting bytes with a work list ----

  /** What lies at or below the paths that could not be read. */
  ghost predicate Missed(missed: set<Path>, p: Path) {
    exists h :: h in missed && h <= p
  }

  /** Leaves counted so far, and where the rest lie; `missed` are the paths where a call failed. */
  ghost predicate Scanning(t: Tree, root: Path, reliable: bool, total: int, seen: set<Path>, front: set<Path>,
                           missed: set<Path>) {
    && seen <= Leaves(t, root)
    && total == SumSizes(t, seen)
    && Antichain(front)
    && (forall f :: f in front ==> root <= f)
    && seen !! Under(t, front)
    && (reliable ==> Leaves(t, root) <= seen + Under(t, front))
    && (forall p :: p in Leaves(t, root) ==> p in seen || p in Under(t, front) || Missed(missed, p))
  }

  /** A total of what lies below `root` that leaves out no more than what is at or below `failures` paths. */
  ghost predicate Measures(t: Tree, root: Path, total: int, failures: nat) {
    && total <= Size(t, root)
    && exists missed: set<Path> :: |missed| <= failures && SumSizes(t, Readable(t, root, missed)) <= total
  }

  ghost function Readable(t: Tree, root: Path, missed: set<Path>): set<Path> {
    set p | p in Leaves(t, root) && !Missed(missed, p)
  }

  lemma MeasuresMore(t: Tree, root: Path, total: int, failures: nat, more: nat)
    requires Measures(t, root, total, failures) && failures <= more
    ensures Measures(t, root, total, more)
  {
  }

  /** Less is promised once a call has failed. */
  lemma WeakerScan(t: Tree, root: Path, strong: bool, weak: bool, total: int, seen: set<Path>, front: set<Path>,
                   missed: set<Path>)
    requires Scanning(t, root, strong, total, seen, front, missed) && (weak ==> strong)
    ensures Scanning(t, root, weak, total, seen, front, missed)
  {
  }

  lemma ScanStart(t: Tree, root: Path, reliable: bool)
    ensures Scanning(t, root, reliable, 0, {}, {root}, {})
    ensures Worklist(t, root, [root], [], {root}) && StackOfDirs(t, root, [root])
  {
    assert Elements([root]) == {root} && Elements([]) == {};
    assert forall p :: p in Leaves(t, root) ==> p in Under(t, {root});
  }

  lemma ScanExpand(t: Tree, home: Path, root: Path, reliable: bool, total: int, seen: set<Path>,
                   stack: seq<Path>, front: set<Path>, cur: Path, entries: seq<Path>, missed: set<Path>)
    requires WellFormed(t, home) && Scanning(t, root, reliable, total, seen, front, missed)
    requires cur in front && cur in t && t[cur].kind.Directory?
    requires Worklist(t, root, stack, [], front - {cur})
    requires Distinct(entries) && Elements(entries) == Children(t, cur)
    ensures Worklist(t, root, stack, entries, front - {cur} + Children(t, cur))
    ensures Scanning(t, root, reliable, total, seen, front - {cur} + Children(t, cur), missed)
    ensures Under(t, front - {cur} + Children(t, cur)) < Under(t, front)
  {
    Expand(t, home, front, cur);
    assert cur in Under(t, front);
    assert forall c :: c in Children(t, cur) ==> root <= cur <= c;
    ListEntries(t, root, stack, front - {cur}, cur, entries);
  }

  lemma ScanEnd(t: Tree, root: Path, reliable: bool, total: int, seen: set<Path>, front: set<Path>, missed: set<Path>)
    requires Scanning(t, root, reliable, total, seen, front, missed) && Worklist(t, root, [], [], front)
    ensures total <= Size(t, root) && Measures(t, root, total, |missed|)
    ensures reliable ==> total == Size(t, root)
  {
    SumSubset(t, seen, Leaves(t, root));
    assert front == Elements([]) + Elements([]) == {};
    assert Under(t, front) == {};
    assert Readable(t, root, missed) <= seen;
    SumSubset(t, Readable(t, root, missed), seen);
    if reliable {
      assert seen == Leaves(t, root);
    }
  }

  /** Giving up on a path is harmless when nothing countable lies below it, and recorded when a call failed there. */
  lemma ScanDrop(t: Tree, root: Path, reliable: bool, total: int, seen: set<Path>, front: set<Path>, f: Path,
                 missed: set<Path>, more: set<Path>)
    requires Scanning(t, root, reliable, total, seen, front, missed) && f in front && missed <= more
    requires reliable ==> Below(t, f) !! Leaves(t, root)
    requires f in more || Below(t, f) !! Leaves(t, root)
    ensures Scanning(t, root, reliable, total, seen, front - {f}, more)
    ensures Under(t, front - {f}) <= Under(t, front)
  {
    Drop(t, front, f);
    forall p | p in Leaves(t, root)
      ensures p in seen || p in Under(t, front - {f}) || Missed(more, p)
    {
      if Missed(missed, p) {
        var h :| h in missed && h <= p;
        assert h in more;
      } else if p in Below(t, f) {
        assert f in more && f <= p;
      }
    }
  }

  /** A path that cannot be listed hides bytes only when the listing itself failed. */
  lemma ScanUnlisted(t: Tree, home: Path, root: Path, reliable: bool, total: int, seen: set<Path>,
                     front: set<Path>, p: Path, missed: set<Path>, more: set<Path>)
    requires WellFormed(t, home) && home <= root
    requires Scanning(t, root, reliable, total, seen, front, missed) && p in front && missed <= more
    requires p == root || (p in t && t[p].kind.Directory?)
    requires reliable ==> !(p in t && t[p].kind.Directory?)
    requires p in more || !(p in t && t[p].kind.Directory?)
    ensures Scanning(t, root, reliable, total, seen, front - {p}, more)
    ensures Under(t, front - {p}) <= Under(t, front)
  {
    if !(p in t && t[p].kind.Directory?) {
      if p in t {
        LeafHasNoChildren(t, home, p);
      } else {
        MissingHasNothingBelow(t, home, p);
      }
    }
    ScanDrop(t, root, reliable, total, seen, front, p, missed, more);
  }

  lemma ScanCount(t: Tree, home: Path, root: Path, reliable: bool, total: int, seen: set<Path>,
                  front: set<Path>, f: Path, missed: set<Path>)
    requires WellFormed(t, home) && Scanning(t, root, reliable, total, seen, front, missed)
    requires f in front && f in t && root < f && !t[f].kind.Directory?
    ensures Scanning(t, root, reliable, total + t[f].size, seen + {f}, front - {f}, missed)
    ensures Under(t, front - {f}) <= Under(t, front)
  {
    LeafHasNoChildren(t, home, f);
    Drop(t, front, f);
    assert f in Under(t, front);
    SumRemove(t, seen + {f}, f);
    assert seen + {f} - {f} == seen;
  }
}
