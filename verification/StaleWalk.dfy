/** The fourth tier's walk: a stack of entered directories below `.local` and the entries being read. */
module StaleWalk {
  import opened HomeTree
  import opened Ledger
  import opened Frontier
  import opened QuotaTiers
  import opened Sweep
  import opened Recursion

  ghost predicate Walking(a: Snapshot, b: Snapshot, home: Path, cutoff: int, stack: seq<Path>, cur: Path,
                          entries: seq<Path>, done: set<Path>, front: set<Path>, now: int, reliable: bool,
                          freed: int) {
    && WellFormed(a.tree, home)
    && Sweeping(a, b, home, StaleLocalRoots(a.tree, home, cutoff), done, front, now, reliable, freed)
    && Worklist(a.tree, Local(home), stack, entries, front)
    && (forall s :: s in stack ==> Walked(a.tree, home, cutoff, s))
    && (forall e :: e in entries ==> e in Children(a.tree, cur))
    && (entries != [] ==> Walked(a.tree, home, cutoff, cur))
  }

  lemma WeakerWalk(a: Snapshot, b: Snapshot, hurt: set<Path>, home: Path, cutoff: int, stack: seq<Path>, cur: Path,
                   entries: seq<Path>, done: set<Path>, front: set<Path>, now: int, strong: bool, weak: bool,
                   freed: int)
    requires Walking(a, b, home, cutoff, stack, cur, entries, done, front, now, strong, freed) && (weak ==> strong)
    requires b.hurt <= hurt
    ensures Walking(a, b.(hurt := hurt), home, cutoff, stack, cur, entries, done, front, now, weak, freed)
  {
    Weaker(a, b, hurt, home, StaleLocalRoots(a.tree, home, cutoff), done, front, now, strong, weak, freed);
  }

  lemma Begin(a: Snapshot, home: Path, cutoff: int, now: int, reliable: bool)
    requires WellFormed(a.tree, home) && Local(home) in a.tree && a.tree[Local(home)].kind.Directory?
    ensures Walking(a, a, home, cutoff, [Local(home)], Local(home), [], {}, {Local(home)}, now, reliable, 0)
  {
    StaleRootsAntichain(a.tree, home, cutoff);
    Start(a, home, StaleLocalRoots(a.tree, home, cutoff), {Local(home)}, now, reliable);
    WalkStart(a.tree, home, cutoff);
    assert Elements([Local(home)]) == {Local(home)} && Elements([]) == {};
  }

  /** The directory on top of the stack is there, as it was at the start. */
  lemma Top(a: Snapshot, b: Snapshot, home: Path, cutoff: int, stack: seq<Path>, cur: Path, done: set<Path>,
            front: set<Path>, now: int, reliable: bool, freed: int)
    requires Walking(a, b, home, cutoff, stack, cur, [], done, front, now, reliable, freed) && stack != []
    ensures var d := stack[|stack| - 1]; d in b.tree && b.tree[d].kind.Directory?
  {
    var d := stack[|stack| - 1];
    assert d in stack;
    Pop(a.tree, Local(home), stack, front);
    Intact(a, b, home, StaleLocalRoots(a.tree, home, cutoff), done, front, now, reliable, freed, d, d);
  }

  /** A directory is taken off the stack and its listing failed. */
  lemma Unlisted(a: Snapshot, b: Snapshot, home: Path, cutoff: int, stack: seq<Path>, cur: Path,
                 done: set<Path>, front: set<Path>, now: int, reliable: bool, freed: int)
    requires Walking(a, b, home, cutoff, stack, cur, [], done, front, now, reliable, freed) && stack != []
    requires var d := stack[|stack| - 1]; (reliable ==> !(d in b.tree && b.tree[d].kind.Directory?)) && d in b.hurt
    ensures !reliable
    ensures var d := stack[|stack| - 1];
            Walking(a, b, home, cutoff, stack[..|stack| - 1], d, [], done, front - {d}, now, reliable, freed)
            && Under(a.tree, front - {d}) <= Under(a.tree, front)
  {
    var d := stack[|stack| - 1];
    assert d in stack;
    Pop(a.tree, Local(home), stack, front);
    Intact(a, b, home, StaleLocalRoots(a.tree, home, cutoff), done, front, now, reliable, freed, d, d);
    Pass(a, b, home, StaleLocalRoots(a.tree, home, cutoff), done, front, now, reliable, freed, d);
    Drop(a.tree, front, d);
  }

  /** A directory is taken off the stack and listed. */
  lemma Listed(a: Snapshot, b: Snapshot, home: Path, cutoff: int, stack: seq<Path>, cur: Path, entries: seq<Path>,
               done: set<Path>, front: set<Path>, now: int, reliable: bool, freed: int)
    requires Walking(a, b, home, cutoff, stack, cur, [], done, front, now, reliable, freed) && stack != []
    requires var d := stack[|stack| - 1];
             d in b.tree && b.tree[d].kind.Directory? && Distinct(entries) && Elements(entries) == Children(b.tree, d)
    ensures var d := stack[|stack| - 1];
            var next := front - {d} + Children(a.tree, d);
            Walking(a, b, home, cutoff, stack[..|stack| - 1], d, entries, done, next, now, reliable, freed)
            && Under(a.tree, next) < Under(a.tree, front)
  {
    var d := stack[|stack| - 1];
    assert d in stack;
    Pop(a.tree, Local(home), stack, front);
    WalkedIsNoRoot(a.tree, home, cutoff, d);
    Open(a, b, home, StaleLocalRoots(a.tree, home, cutoff), done, front, now, reliable, freed, d);
    ListEntries(a.tree, Local(home), stack[..|stack| - 1], front - {d}, d, entries);
    forall e | e in entries
      ensures e in Children(a.tree, d)
    {
      assert e in Elements(entries);
    }
  }

  /** What an entry is, seen from the start and now. */
  lemma Entry(a: Snapshot, b: Snapshot, home: Path, cutoff: int, stack: seq<Path>, cur: Path, entries: seq<Path>,
              done: set<Path>, front: set<Path>, now: int, reliable: bool, freed: int)
    requires Walking(a, b, home, cutoff, stack, cur, entries, done, front, now, reliable, freed) && entries != []
    ensures entries[0] in a.tree && entries[0] in b.tree && a.tree[entries[0]] == b.tree[entries[0]]
    ensures WellFormed(a.tree, home) && home <= entries[0]
    ensures Descended(a.tree, home, cutoff, entries[0]) <==> Descended(b.tree, home, cutoff, entries[0])
    ensures StaleEntry(a.tree, home, cutoff, entries[0]) <==> StaleEntry(b.tree, home, cutoff, entries[0])
  {
    var e := entries[0];
    Skip(a.tree, Local(home), stack, entries, front);
    Intact(a, b, home, StaleLocalRoots(a.tree, home, cutoff), done, front, now, reliable, freed, e, e);
  }

  lemma Passed(a: Snapshot, b: Snapshot, home: Path, cutoff: int, stack: seq<Path>, cur: Path, entries: seq<Path>,
               done: set<Path>, front: set<Path>, now: int, reliable: bool, freed: int)
    requires Walking(a, b, home, cutoff, stack, cur, entries, done, front, now, reliable, freed) && entries != []
    requires var e := entries[0];
             && (reliable ==> !Descended(a.tree, home, cutoff, e) && !StaleEntry(a.tree, home, cutoff, e))
             && (e in b.hurt || (!Descended(a.tree, home, cutoff, e) && !StaleEntry(a.tree, home, cutoff, e)))
    ensures Walking(a, b, home, cutoff, stack, cur, entries[1..], done, front - {entries[0]}, now, reliable, freed)
    ensures Under(a.tree, front - {entries[0]}) <= Under(a.tree, front)
  {
    var e := entries[0];
    assert e in entries;
    Skip(a.tree, Local(home), stack, entries, front);
    WalkedEntry(a.tree, home, cutoff, cur, e);
    if !Descended(a.tree, home, cutoff, e) && !StaleEntry(a.tree, home, cutoff, e) {
      BlockedEntry(a.tree, home, cutoff, e);
    }
    Pass(a, b, home, StaleLocalRoots(a.tree, home, cutoff), done, front, now, reliable, freed, e);
    Drop(a.tree, front, e);
  }

  lemma Entered(a: Snapshot, b: Snapshot, home: Path, cutoff: int, stack: seq<Path>, cur: Path, entries: seq<Path>,
                done: set<Path>, front: set<Path>, now: int, reliable: bool, freed: int)
    requires Walking(a, b, home, cutoff, stack, cur, entries, done, front, now, reliable, freed) && entries != []
    requires Descended(a.tree, home, cutoff, entries[0])
    ensures Walking(a, b, home, cutoff, stack + [entries[0]], cur, entries[1..], done, front, now, reliable, freed)
  {
    var e := entries[0];
    assert e in entries;
    Skip(a.tree, Local(home), stack, entries, front);
    Move(a.tree, Local(home), stack, entries, front);
    WalkedEntry(a.tree, home, cutoff, cur, e);
  }

  lemma Removed(a: Snapshot, b: Snapshot, c: Snapshot, home: Path, cutoff: int, stack: seq<Path>, cur: Path,
                entries: seq<Path>, done: set<Path>, front: set<Path>, now: int, reliable: bool, freed: int, n: int)
    requires Walking(a, b, home, cutoff, stack, cur, entries, done, front, now, reliable, freed) && entries != []
    requires StaleEntry(a.tree, home, cutoff, entries[0])
    requires Effect(b, c, Doomed(b.tree, home, entries[0]), now, reliable, n)
    ensures Walking(a, c, home, cutoff, stack, cur, entries[1..], done + {entries[0]}, front - {entries[0]},
                    now, reliable, freed + n)
    ensures Under(a.tree, front - {entries[0]}) <= Under(a.tree, front)
  {
    var e := entries[0];
    assert e in entries;
    Skip(a.tree, Local(home), stack, entries, front);
    WalkedEntry(a.tree, home, cutoff, cur, e);
    Take(a, b, c, home, StaleLocalRoots(a.tree, home, cutoff), done, front, now, reliable, freed, e, n);
    Drop(a.tree, front, e);
  }

  /** An entry is as deep now as at the start. */
  lemma EntryDepth(a: Snapshot, b: Snapshot, home: Path, cutoff: int, stack: seq<Path>, cur: Path, entries: seq<Path>,
                   done: set<Path>, front: set<Path>, now: int, reliable: bool, freed: int, room: nat)
    requires Walking(a, b, home, cutoff, stack, cur, entries, done, front, now, reliable, freed) && entries != []
    ensures TooDeep(a.tree, home, entries[0], room) <==> TooDeep(b.tree, home, entries[0], room)
  {
    var e := entries[0];
    Skip(a.tree, Local(home), stack, entries, front);
    DepthIsIntact(a, b, home, StaleLocalRoots(a.tree, home, cutoff), done, front, now, reliable, freed, e, e, room);
  }

  /** A stale entry of the walk is a root. */
  lemma EntryIsRoot(a: Snapshot, b: Snapshot, home: Path, cutoff: int, stack: seq<Path>, cur: Path, entries: seq<Path>,
                    done: set<Path>, front: set<Path>, now: int, reliable: bool, freed: int)
    requires Walking(a, b, home, cutoff, stack, cur, entries, done, front, now, reliable, freed) && entries != []
    requires StaleEntry(a.tree, home, cutoff, entries[0])
    ensures entries[0] in StaleLocalRoots(a.tree, home, cutoff)
  {
    assert entries[0] in entries;
    WalkedEntry(a.tree, home, cutoff, cur, entries[0]);
  }

  /** An exception that leaves the walk is a failure above all its roots. */
  lemma EscapeStrikes(t: Tree, home: Path, cutoff: int, hurt: set<Path>)
    requires home in hurt
    ensures AllStruck(hurt, StaleLocalRoots(t, home, cutoff))
  {
    forall r | r in StaleLocalRoots(t, home, cutoff)
      ensures home <= r
    {
      TransitivePrefix(home, Local(home), r);
    }
    StruckFromAbove(hurt, home, StaleLocalRoots(t, home, cutoff));
  }

  /** The entries that are left when an exception ends the walk. */
  lemma Abandon(a: Snapshot, b: Snapshot, home: Path, cutoff: int, stack: seq<Path>, cur: Path, entries: seq<Path>,
                done: set<Path>, front: set<Path>, now: int, reliable: bool, freed: int) returns (rest: set<Path>)
    requires Walking(a, b, home, cutoff, stack, cur, entries, done, front, now, reliable, freed)
    requires reliable ==> entries == []
    requires entries == [] || AllStruck(b.hurt, StaleLocalRoots(a.tree, home, cutoff))
    ensures Walking(a, b, home, cutoff, stack, cur, [], done, rest, now, reliable, freed)
    ensures Under(a.tree, rest) <= Under(a.tree, front)
  {
    hide Sweeping, Worklist, Under;
    rest := Elements(stack);
    GiveUp(a.tree, Local(home), stack, entries, front);
    Leave(a, b, home, StaleLocalRoots(a.tree, home, cutoff), done, front, now, reliable, freed, rest);
  }

  lemma End(a: Snapshot, b: Snapshot, home: Path, cutoff: int, stack: seq<Path>, cur: Path, entries: seq<Path>,
            done: set<Path>, front: set<Path>, now: int, reliable: bool, freed: int)
    requires Walking(a, b, home, cutoff, stack, cur, entries, done, front, now, reliable, freed)
    requires reliable ==> stack == [] && entries == []
    requires (stack == [] && entries == []) || AllStruck(b.hurt, StaleLocalRoots(a.tree, home, cutoff))
    ensures reliable ==> done == StaleLocalRoots(a.tree, home, cutoff)
    ensures Effect(a, b, DoomedAll(a.tree, home, StaleLocalRoots(a.tree, home, cutoff)), now, reliable, freed)
  {
    if stack == [] && entries == [] {
      NoPaths(a.tree, Local(home), front);
    }
    Finish(a, b, home, StaleLocalRoots(a.tree, home, cutoff), done, front, now, reliable, freed);
  }
}
