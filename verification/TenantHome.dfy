/** The quota walker over a tenant's home directory.

    Every file-system call is a method that may fail: `faults` is an arbitrary schedule of the calls
    that do.  The recursive removal has room for `frames` nested calls.  Listing order and lock outcomes
    are arbitrary too. */
module TenantHome {
  import opened HomeTree
  import opened Ledger
  import opened QuotaTiers
  import opened QuotaTheorems
  import opened QuotaRun
  import opened QuotaPromises
  import opened Frontier
  import opened Removal
  import opened Recursion
  import Sweep
  import StaleWalk

  /** What a stat-like call reports: an `OSError`, nothing there, or the entry itself. */
  datatype Reply = Failed | Absent | Found(entry: Entry)

  /** How a tier ends; the last two are exceptions that leave it. */
  datatype Fate = Completed | ProbeFailed | OutOfRoom

  datatype Verdict = Escapes | Skipped | Enter | Remove(isDir: bool)

  /** Taking out a childless node and bumping its parent's mtime, as one tree operation. */
  function Detached(t: Tree, p: Path, now: int): (t1: Tree)
  {
    var t1 := t - {p};
    if p != [] && Parent(p) in t1 then t1[Parent(p) := t1[Parent(p)].(mtime := now)] else t1
  }

  lemma DetachedIsAfter(t: Tree, p: Path, now: int)
    ensures Detached(t, p, now) == After(t, {p}, now)
  {
    assert forall q :: Touched({p}, q) <==> p != [] && Parent(p) == q;
  }

  lemma DetachKeeps(t: Tree, home: Path, p: Path, now: int)
    requires WellFormed(t, home) && RealPrefixes(t, home) && p in t && Children(t, p) == {}
    ensures WellFormed(After(t, {p}, now), home) && RealPrefixes(After(t, {p}, now), home)
  {
    var t1 := After(t, {p}, now);
    forall q | q in t1 && q != home
      ensures Parent(q) in t1 && t1[Parent(q)].kind.Directory?
    {
      assert Parent(q) in t;
      assert q == [] || q in Children(t, Parent(q));
    }
  }

  predicate IsPythonReply(e: Path, st: Reply) {
    st.Found? && st.entry.kind.Directory? && StartsWith(Name(e), "python")
  }

  lemma NotPython(t: Tree, home: Path, cutoff: int, e: Path, st: Reply)
    requires e in Children(t, Lib(home)) && (st.Found? ==> st.entry == t[e]) && !st.Failed? && !st.Absent?
    requires !IsPythonReply(e, st)
    ensures !IsPythonDir(t, e)
    ensures PackagesBelow(t, home, cutoff, e) == {}
  {
    NoPythonRoots(t, home, cutoff, e);
  }

  lemma IsPython(t: Tree, home: Path, cutoff: int, e: Path, st: Reply)
    requires WellFormed(t, home) && e in Children(t, Lib(home)) && (st.Found? ==> st.entry == t[e])
    requires IsPythonReply(e, st)
    ensures StaleIn(t, e + ["site-packages"], cutoff) == PackagesBelow(t, home, cutoff, e)
    ensures home <= e + ["site-packages"]
  {
    PythonRoots(t, home, cutoff, e);
  }

  /** How many of the calls from the `from`-th up to the `to`-th fail. */
  ghost function Failures(faults: nat -> bool, from: nat, to: nat): nat {
    if to <= from then 0 else Failures(faults, from, to - 1) + if faults(to - 1) then 1 else 0
  }

  lemma OneCallMore(faults: nat -> bool, from: nat, to: nat)
    requires from <= to
    ensures Failures(faults, from, to + 1) == Failures(faults, from, to) + if faults(to) then 1 else 0
  {
  }

  lemma NoCallYet(faults: nat -> bool, from: nat)
    ensures Failures(faults, from, from) == 0
  {
  }

  lemma {:induction false} FewerFailures(faults: nat -> bool, first: nat, from: nat, to: nat)
    requires first <= from <= to
    ensures Failures(faults, from, to) <= Failures(faults, first, to)
  {
    if from < to {
      FewerFailures(faults, first, from, to - 1);
    }
  }

  lemma {:induction false} FailuresGrow(faults: nat -> bool, from: nat, to: nat, later: nat)
    requires to <= later
    ensures Failures(faults, from, to) <= Failures(faults, from, later)
  {
    if to < later {
      FailuresGrow(faults, from, to, later - 1);
    }
  }

  /** A measurement made during a run, told by the failures of the whole run. */
  lemma MeasuredWithin(t: Tree, root: Path, total: int, faults: nat -> bool, first: nat, from: nat, to: nat, last: nat)
    requires first <= from <= to <= last && Measures(t, root, total, Failures(faults, from, to))
    ensures Measures(t, root, total, Failures(faults, first, last))
  {
    FewerFailures(faults, first, from, to);
    FailuresGrow(faults, first, to, last);
    MeasuresMore(t, root, total, Failures(faults, from, to), Failures(faults, first, last));
  }

  lemma {:induction false} NoFailures(faults: nat -> bool, from: nat, to: nat)
    requires forall n: nat | from <= n < to :: !faults(n)
    ensures Failures(faults, from, to) == 0
  {
    if from < to {
      NoFailures(faults, from, to - 1);
    }
  }

  class Walker {
    const home: Path
    const now: int
    const faults: nat -> bool
    /** Nested calls of the recursive removal the interpreter has room for. */
    const frames: nat
    var nodes: Tree
    var pruned: seq<Path>
    /** File-system calls made so far. */
    var calls: nat

    /** The call this run began with, whether it ran out of room for nested calls, how many probes that stand outside
      * every `try` have failed, and the files unlinked or tried although their size could not be read. */
    ghost var since: nat
    ghost var overrun: bool
    ghost var unguarded: nat
    ghost var unread: set<Path>
    /** Where calls of this run have failed; a failure that ends the reading of a directory counts there, and one that
      * leaves as an exception counts at `home`. */
    ghost var hurt: set<Path>

    ghost predicate Valid()
      reads this`nodes, this`calls, this`since, this`overrun, this`hurt
    {
      WellFormed(nodes, home) && RealPrefixes(nodes, home) && since <= calls && frames > 0 && Blamed()
    }

    /** Each failed call of this run hurts at one path at most. */
    ghost predicate Blamed()
      reads this`calls, this`since, this`overrun, this`hurt
    {
      && |hurt| <= Failures(faults, since, calls) + (if overrun then 1 else 0)
      && (overrun ==> home in hurt)
    }

    /** In this run no call has failed and the removal has not run out of room. */
    ghost predicate Sound()
      reads this`calls, this`since, this`overrun
    {
      !overrun && forall n: nat | since <= n < calls :: !faults(n)
    }

    lemma ValidIsWellFormed()
      requires Valid()
      ensures WellFormed(nodes, home)
    {
    }

    /** Each failed call hurts at one path at most, and a run without failures nowhere. */
    lemma HurtByFailures()
      requires Valid()
      ensures |hurt| <= Failures(faults, since, calls) + if overrun then 1 else 0
      ensures Sound() ==> hurt == {}
    {
      if Sound() {
        NoFailures(faults, since, calls);
      }
    }

    lemma RoomForOne()
      requires Valid()
      ensures frames > 0
    {
    }

    constructor (home: Path, nodes: Tree, now: int, faults: nat -> bool, frames: nat)
      requires WellFormed(nodes, home) && RealPrefixes(nodes, home) && frames > 0
      ensures Valid() && Sound()
      ensures this.home == home && this.nodes == nodes && this.now == now
      ensures this.faults == faults && this.frames == frames
      ensures pruned == [] && calls == since == 0 && unguarded == 0 && unread == {} && hurt == {}
    {
      this.home, this.nodes, this.now := home, nodes, now;
      this.faults, this.frames := faults, frames;
      this.pruned, this.calls := [], 0;
      this.since, this.overrun, this.unguarded, this.unread, this.hurt := 0, false, 0, {}, {};
    }

    // ---- File-system calls ----

    /** A call; `blame` says where its failure counts, if anywhere. */
    method Fault(ghost blame: set<Path>) returns (hit: bool)
      requires Valid() && |blame| <= 1
      modifies this`calls, this`hurt
      ensures Valid() && calls == old(calls) + 1
      ensures hit == faults(old(calls)) && hurt == if hit then old(hurt) + blame else old(hurt)
      ensures Sound() <==> old(Sound()) && !hit
    {
      hit := faults(calls);
      calls := calls + 1;
      hurt := hurt + if hit then blame else {};
    }

    method Stat(p: Path, ghost blame: set<Path>) returns (r: Reply)
      requires Valid() && |blame| <= 1
      modifies this`calls, this`hurt
      ensures Valid() && hurt == (if r.Failed? then old(hurt) + blame else old(hurt)) && calls == old(calls) + 1
      ensures r.Failed? <==> faults(old(calls))
      ensures Sound() <==> old(Sound()) && !r.Failed?
      ensures r.Absent? ==> p !in nodes
      ensures r.Found? ==> p in nodes && nodes[p] == r.entry
    {
      var hit := Fault(blame);
      r := if hit then Failed else if p in nodes then Found(nodes[p]) else Absent;
    }

    /** A probe outside every `try`: its failure is an exception nobody in this file but the gate catches. */
    method Probe(p: Path) returns (r: Reply)
      requires Valid()
      modifies this`calls, this`hurt, this`unguarded
      ensures Valid() && hurt == (if r.Failed? then old(hurt) + {home} else old(hurt)) && calls == old(calls) + 1
      ensures r.Failed? <==> faults(old(calls))
      ensures unguarded == old(unguarded) + if r.Failed? then 1 else 0
      ensures Sound() <==> old(Sound()) && !r.Failed?
      ensures r.Absent? ==> p !in nodes
      ensures r.Found? ==> p in nodes && nodes[p] == r.entry
    {
      r := Stat(p, {home});
      unguarded := unguarded + if r.Failed? then 1 else 0;
    }

    /** Lists a directory in arbitrary order. */
    method ScanDir(d: Path, ghost blame: set<Path>) returns (ok: bool, entries: seq<Path>)
      requires Valid() && |blame| <= 1
      modifies this`calls, this`hurt
      ensures Valid() && hurt == (if faults(old(calls)) then old(hurt) + blame else old(hurt))
          && calls == old(calls) + 1
      ensures ok <==> !faults(old(calls)) && d in nodes && nodes[d].kind.Directory?
      ensures ok ==> Distinct(entries) && Elements(entries) == Children(nodes, d)
      ensures Sound() ==> (ok <==> d in nodes && nodes[d].kind.Directory?)
      ensures Sound() ==> old(Sound())
      ensures !ok ==> entries == []
    {
      entries := [];
      var hit := Fault(blame);
      ok := !hit && d in nodes && nodes[d].kind.Directory?;
      if ok {
        hide *;
        entries := Entries(d);
      }
    }

    method Entries(d: Path) returns (entries: seq<Path>)
      ensures Distinct(entries) && Elements(entries) == Children(nodes, d)
    {
      entries := [];
      var todo := set p | p in nodes && |p| == |d| + 1 && d <= p;
      while todo != {}
        invariant todo !! Elements(entries) && todo + Elements(entries) == Children(nodes, d)
        invariant Distinct(entries)
        decreases todo
      {
        var p :| p in todo;
        assert p !in Elements(entries);
        ghost var listed := Elements(entries);
        entries := entries + [p];
        assert Elements(entries) == listed + {p};
        todo := todo - {p};
      }
    }

    method Unlink(p: Path) returns (ok: bool)
      requires Valid()
      modifies this`nodes, this`calls, this`hurt
      ensures old(calls) <= calls
      ensures Valid() && old(hurt) <= hurt
      ensures !ok && p in nodes && !nodes[p].kind.Directory? ==> p in hurt
      ensures calls == old(calls) + 1
      ensures ok <==> !faults(old(calls)) && !(p in old(nodes) && old(nodes)[p].kind.Directory?)
      ensures ok && p in old(nodes) ==> !old(nodes)[p].kind.Directory? && nodes == After(old(nodes), {p}, now)
      ensures !(ok && p in old(nodes)) ==> nodes == old(nodes)
      ensures ok ==> p !in nodes
      ensures Sound() ==> old(Sound()) && (ok <==> !(p in old(nodes) && old(nodes)[p].kind.Directory?))
    {
      var hit := Fault({p});
      ok := !hit && !(p in nodes && nodes[p].kind.Directory?);
      if ok && p in nodes {
        LeafHasNoChildren(nodes, home, p);
        Detach(p);
      }
    }

    method RmDir(p: Path) returns (ok: bool)
      requires Valid()
      modifies this`nodes, this`calls, this`hurt
      ensures old(calls) <= calls
      ensures Valid() && old(hurt) <= hurt
      ensures Closed(old(nodes), nodes, p, now, Sound(), hurt) && (Sound() ==> old(Sound()))
      ensures ok <==> nodes != old(nodes)
    {
      var hit := Fault({p});
      assert p in hurt ==> Struck(hurt, p);
      ok := !hit && p in nodes && nodes[p].kind.Directory? && (set c | c in nodes && |c| == |p| + 1 && p <= c) == {};
      if ok {
        assert Children(nodes, p) == {};
        Detach(p);
      }
    }

    /** Takes a childless node out of the tree and bumps its parent's mtime. */
    method Detach(p: Path)
      requires Valid() && p in nodes && Children(nodes, p) == {}
      modifies this`nodes
      ensures Valid()
      ensures nodes == After(old(nodes), {p}, now)
      ensures p !in nodes && (p != home ==> Parent(p) in nodes && nodes[Parent(p)].mtime == now)
    {
      DetachedIsAfter(nodes, p, now);
      DetachKeeps(nodes, home, p, now);
      nodes := Detached(nodes, p, now);
    }

    // ---- Sizes ----

    /** The explicit-stack total. It leaves out no more than what is at or below one path for each failed call. */
    method ScanSize(root: Path) returns (total: nat)
      requires Valid() && home <= root
      modifies this`calls, this`hurt
      ensures Valid() && (Sound() ==> old(Sound())) && hurt == old(hurt)
      ensures total <= Size(nodes, root)
      ensures old(calls) <= calls && Measures(nodes, root, total, Failures(faults, old(calls), calls))
      ensures Sound() ==> total == Size(nodes, root)
    {
      hide *;
      ValidIsWellFormed();
      total := 0;
      var stack := [root];
      ghost var t := nodes;
      ghost var seen: set<Path>, missed: set<Path> := {}, {};
      ScanStart(t, root, Sound());
      NoCallYet(faults, calls);
      ghost var front: set<Path> := {root};
      while stack != []
        invariant Valid() && (Sound() ==> old(Sound())) && hurt == old(hurt)
        invariant old(calls) <= calls && |missed| <= Failures(faults, old(calls), calls)
        invariant Worklist(t, root, stack, [], front) && StackOfDirs(t, root, stack)
        invariant Scanning(t, root, Sound(), total, seen, front, missed)
        decreases Under(t, front), |stack|
      {
        Pop(t, root, stack, front);
        PopDir(t, root, stack);
        var cur := stack[|stack| - 1];
        stack := stack[..|stack| - 1];
        ghost var sound := Sound();
        OneCallMore(faults, old(calls), calls);
        var ok, entries := ScanDir(cur, {});
        WeakerScan(t, root, sound, Sound(), total, seen, front, missed);
        if !ok {
          ghost var known := missed;
          missed := if cur in t && t[cur].kind.Directory? then missed + {cur} else missed;
          ScanUnlisted(t, home, root, Sound(), total, seen, front, cur, known, missed);
          front := front - {cur};
          continue;
        }
        ScanExpand(t, home, root, Sound(), total, seen, stack, front, cur, entries, missed);
        front := front - {cur} + Children(t, cur);
        stack, total, seen, front, missed := ScanEntries(root, stack, entries, total, old(calls), seen, front, missed);
      }
      ScanEnd(t, root, Sound(), total, seen, front, missed);
      MeasuresMore(t, root, total, |missed|, Failures(faults, old(calls), calls));
    }

    /** One listed directory: its sub-directories go on the stack, and everything else into the total. */
    method ScanEntries(root: Path, stack0: seq<Path>, listing: seq<Path>, total0: nat, ghost start: nat,
                       ghost seen0: set<Path>, ghost front0: set<Path>, ghost missed0: set<Path>)
      returns (stack: seq<Path>, total: nat, ghost seen: set<Path>, ghost front: set<Path>, ghost missed: set<Path>)
      requires Valid() && home <= root && start <= calls && |missed0| <= Failures(faults, start, calls)
      requires Worklist(nodes, root, stack0, listing, front0) && StackOfDirs(nodes, root, stack0)
      requires Scanning(nodes, root, Sound(), total0, seen0, front0, missed0)
      modifies this`calls, this`hurt
      ensures Valid() && (Sound() ==> old(Sound())) && hurt == old(hurt)
      ensures old(calls) <= calls
      ensures start <= calls && |missed| <= Failures(faults, start, calls)
      ensures Worklist(nodes, root, stack, [], front) && StackOfDirs(nodes, root, stack)
      ensures Scanning(nodes, root, Sound(), total, seen, front, missed)
      ensures Under(nodes, front) <= Under(nodes, front0)
    {
      hide *;
      ValidIsWellFormed();
      var entries := listing;
      stack, total, seen, front, missed := stack0, total0, seen0, front0, missed0;
      while entries != []
        invariant Valid() && (Sound() ==> old(Sound())) && hurt == old(hurt)
        invariant old(calls) <= calls
        invariant start <= calls && |missed| <= Failures(faults, start, calls)
        invariant Worklist(nodes, root, stack, entries, front) && StackOfDirs(nodes, root, stack)
        invariant Scanning(nodes, root, Sound(), total, seen, front, missed)
        invariant Under(nodes, front) <= Under(nodes, front0)
        decreases |entries|
      {
        var e := entries[0];
        ghost var sound := Sound();
        Skip(nodes, root, stack, entries, front);
        OneCallMore(faults, start, calls);
        var probe := Stat(e, {});
        if probe.Found? && probe.entry.kind.Directory? {
          Push(nodes, root, stack, entries, front);
          stack := stack + [e];
        } else {
          OneCallMore(faults, start, calls);
          var reply := Stat(e, {});
          if probe.Found? && reply.Found? {
            WeakerScan(nodes, root, sound, Sound(), total, seen, front, missed);
            ScanCount(nodes, home, root, Sound(), total, seen, front, e, missed);
            seen := seen + {e};
            total := total + reply.entry.size;
          } else {
            WeakerScan(nodes, root, sound, Sound(), total, seen, front, missed);
            ScanDrop(nodes, root, Sound(), total, seen, front, e, missed, missed + {e});
            missed := missed + {e};
          }
          front := front - {e};
        }
        entries := entries[1..];
      }
    }

    // ---- Removal ----

    /** Deletes one file or link and returns the bytes freed, links counting zero. */
    method SafeUnlink(path: Path) returns (n: nat)
      requires Valid()
      modifies this`nodes, this`calls, this`hurt, this`unread
      ensures Valid() && (Sound() ==> old(Sound()))
      ensures old(calls) <= calls
      ensures old(unread) <= unread <= old(unread) + {path} && (Sound() ==> unread == old(unread))
      ensures Unlinked(old(nodes), nodes, path, now, Sound(), n, unread, hurt) && old(hurt) <= hurt
      ensures path in old(nodes) && old(nodes)[path].kind.Symlink? ==>
        (path in nodes <==> faults(old(calls)) || faults(old(calls) + 1))
      ensures path in old(nodes) && old(nodes)[path].kind.Regular? ==>
        && (path in nodes <==> faults(old(calls)) || faults(old(calls) + 1) || faults(old(calls) + 3))
        && n == if path in nodes || faults(old(calls) + 2) then 0 else old(nodes)[path].size
    {
      ghost var t := nodes;
      hide *;
      n := 0;
      var link := Stat(path, {path});
      if link.Failed? {
        NotUnlinked(t, path, now, Sound(), unread, hurt);
        return;
      }
      if link.Found? && link.entry.kind.Symlink? {
        var ok := Unlink(path);
        if ok {
          WasUnlinked(t, path, now, Sound(), 0, unread, hurt);
        } else {
          NotUnlinked(t, path, now, Sound(), unread, hurt);
        }
        return;
      }
      var file := Stat(path, {path});
      if !(file.Found? && file.entry.kind.Regular?) {
        NotUnlinked(t, path, now, Sound(), unread, hurt);
        return;
      }
      n := UnlinkFile(path);
    }

    /** A regular file: its size, 0 when it cannot be read, and the deletion. */
    method UnlinkFile(path: Path) returns (n: nat)
      requires Valid() && path in nodes && nodes[path].kind.Regular?
      modifies this`nodes, this`calls, this`hurt, this`unread
      ensures Valid() && (Sound() ==> old(Sound()))
      ensures old(calls) <= calls
      ensures old(unread) <= unread <= old(unread) + {path} && (Sound() ==> unread == old(unread))
      ensures Unlinked(old(nodes), nodes, path, now, Sound(), n, unread, hurt) && old(hurt) <= hurt
      ensures path in nodes <==> faults(old(calls) + 1)
      ensures n == if path in nodes || faults(old(calls)) then 0 else old(nodes)[path].size
    {
      ghost var t := nodes;
      hide *;
      var st := Stat(path, {path});
      var size := if st.Found? then st.entry.size else 0;
      unread := if st.Failed? then unread + {path} else unread;
      var ok := Unlink(path);
      n := if ok then size else 0;
      if ok {
        WasUnlinked(t, path, now, Sound(), n, unread, hurt);
      } else {
        NotUnlinked(t, path, now, Sound(), unread, hurt);
      }
    }

    /** Removes what may be removed at and below `path`, re-checking protection on every node, with room for `room`
      * nested calls. It runs out of room only below entries that deep, and always does when no call fails first. */
    method SafeRmTree(path: Path, room: nat) returns (freed: nat, over: bool)
      requires Valid()
      modifies this`nodes, this`pruned, this`calls, this`hurt, this`overrun, this`unread
      ensures Valid() && (Sound() ==> old(Sound())) && overrun == (old(overrun) || over)
      ensures old(calls) <= calls
      ensures Effect(old(Snapshot(nodes, pruned, unread, hurt)), Snapshot(nodes, pruned, unread, hurt),
                     Doomed(old(nodes), home, path), now, Sound(), freed)
      ensures room == 0 || NeverTouch(path, home) || faults(old(calls)) ==> nodes == old(nodes) && freed == 0
      ensures over ==> TooDeep(old(nodes), home, path, room) && home in hurt
      ensures Sound() ==> !TooDeep(old(nodes), home, path, room)
      decreases Below(nodes, path), 2
    {
      ghost var a := Snapshot(nodes, pruned, unread, hurt);
      ghost var may := Doomed(nodes, home, path);
      hide *;
      ValidIsWellFormed();
      freed, over := 0, room == 0;
      if over {
        Overrun();
        NoRoom(a.tree, home, path);
        Untried(a, hurt, home, path, home, now);
        return;
      }
      if NeverTouch(path, home) {
        NothingDue(a.tree, home, path);
        NoDescent(a.tree, home, path, room);
        NothingSpared(a.tree, hurt);
        NoEffect(a, hurt, may, now, Sound());
        return;
      }
      var link := Stat(path, {path});
      if link.Failed? {
        Untried(a, hurt, home, path, path, now);
        return;
      }
      if link.Found? && link.entry.kind.Symlink? {
        freed := SafeUnlink(path);
        LeafEffect(a, nodes, home, path, now, Sound(), freed, unread, hurt);
        WhatIsListed(a, nodes, path, freed, unread, hurt);
        NoDescent(a.tree, home, path, room);
        return;
      }
      var file := Stat(path, {path});
      if file.Failed? {
        Untried(a, hurt, home, path, path, now);
        return;
      }
      if file.Found? && file.entry.kind.Regular? {
        freed := SafeUnlink(path);
        LeafEffect(a, nodes, home, path, now, Sound(), freed, unread, hurt);
        NoDescent(a.tree, home, path, room);
        WhatIsListed(a, nodes, path, freed, unread, hurt);
        if freed > 0 {
          pruned := pruned + [path];
        }
        return;
      }
      var dir := Stat(path, {path});
      if dir.Found? && dir.entry.kind.Directory? {
        freed, over := EmptyDirectory(path, room);
      } else if dir.Failed? {
        Untried(a, hurt, home, path, path, now);
      } else {
        NothingDue(a.tree, home, path);
        NoDescent(a.tree, home, path, room);
        NothingSpared(a.tree, hurt);
        NoEffect(a, hurt, may, now, Sound());
      }
    }

    /** The call that finds no room: an exception no `except OSError` catches. */
    method Overrun()
      requires Valid()
      modifies this`overrun, this`hurt
      ensures Valid() && overrun && !Sound() && hurt == old(hurt) + {home}
    {
      overrun, hurt := true, hurt + {home};
    }

    /** The directory case: every child, then the directory itself if that emptied it. */
    method EmptyDirectory(path: Path, room: nat) returns (freed: nat, over: bool)
      requires Valid() && !NeverTouch(path, home) && home <= path && room > 0
      requires path in nodes && nodes[path].kind.Directory?
      modifies this`nodes, this`pruned, this`calls, this`hurt, this`overrun, this`unread
      ensures Valid() && (Sound() ==> old(Sound())) && overrun == (old(overrun) || over)
      ensures old(calls) <= calls
      ensures Effect(old(Snapshot(nodes, pruned, unread, hurt)), Snapshot(nodes, pruned, unread, hurt),
                     Doomed(old(nodes), home, path), now, Sound(), freed)
      ensures faults(old(calls)) ==> nodes == old(nodes) && freed == 0
      ensures over ==> TooDeep(old(nodes), home, path, room) && home in hurt
      ensures Sound() ==> !TooDeep(old(nodes), home, path, room)
      decreases Below(nodes, path), 1
    {
      ghost var a := Snapshot(nodes, pruned, unread, hurt);
      hide *;
      ValidIsWellFormed();
      DescentByChildren(a.tree, home, path, room);
      freed, over := 0, false;
      var listed, children := ScanDir(path, {path});
      if !listed {
        Untried(a, hurt, home, path, path, now);
        return;
      }
      freed, over := RemoveEach(path, children, room - 1);
      ghost var b, sound := Snapshot(nodes, pruned, unread, hurt), Sound();
      ValidIsWellFormed();
      if over {
        IsStruck(hurt, home, path);
        NotClosed(b.tree, path, now, hurt);
        FinishDirectory(a, b, nodes, hurt, home, path, now, Sound(), freed);
        return;
      }
      var ok := RmDir(path);
      WeakerEffect(a, b, b.hurt, DoomedAll(a.tree, home, Children(a.tree, path)), now, sound, Sound(), freed);
      FinishDirectory(a, b, nodes, hurt, home, path, now, Sound(), freed);
    }

    method RemoveEach(path: Path, entries: seq<Path>, room: nat) returns (freed: nat, over: bool)
      requires Valid() && path in nodes && home <= path
      requires Distinct(entries) && Elements(entries) == Children(nodes, path)
      modifies this`nodes, this`pruned, this`calls, this`hurt, this`overrun, this`unread
      ensures Valid() && (Sound() ==> old(Sound())) && overrun == (old(overrun) || over)
      ensures old(calls) <= calls
      ensures over ==> !Sound() && home in hurt
      ensures Effect(old(Snapshot(nodes, pruned, unread, hurt)), Snapshot(nodes, pruned, unread, hurt),
                     DoomedAll(old(nodes), home, Children(old(nodes), path)), now, Sound(), freed)
      ensures over ==> DeepRoots(old(nodes), home, Children(old(nodes), path), room)
      ensures Sound() ==> !DeepRoots(old(nodes), home, Children(old(nodes), path), room)
      decreases Below(nodes, path), 0
    {
      ghost var a := Snapshot(nodes, pruned, unread, hurt);
      ghost var kids := Children(nodes, path);
      hide *;
      freed, over := 0, false;
      var children := entries;
      ghost var done: set<Path>, front := {}, kids;
      Sweep.StartChildren(a, home, path, now, Sound());
      StartList(a.tree, path, children);
      NoneDeep(a.tree, home, room);
      while children != []
        invariant Valid() && (Sound() ==> old(Sound())) && overrun == old(overrun)
        invariant old(calls) <= calls
        invariant Worklist(a.tree, path, [], children, front) && front <= kids
        invariant Sweep.Sweeping(a, Snapshot(nodes, pruned, unread, hurt), home, kids, done, front, now, Sound(), freed)
        invariant Sound() ==> !DeepRoots(a.tree, home, done, room)
        decreases |children|
      {
        var c := children[0];
        ghost var b, sound := Snapshot(nodes, pruned, unread, hurt), Sound();
        Skip(a.tree, path, [], children, front);
        Sweep.Smaller(a, b, home, kids, done, front, now, sound, freed, path, c);
        var n;
        n, over := SafeRmTree(c, room);
        TakeOne(a, b, Snapshot(nodes, pruned, unread, hurt), home, kids, done, front, now, sound, Sound(), freed, c, n,
                room);
        freed, done, front, children := freed + n, done + {c}, front - {c}, children[1..];
        if over {
          Sweep.StruckListing(hurt, home, a.tree, path);
          Sweep.Finish(a, Snapshot(nodes, pruned, unread, hurt), home, kids, done, front, now, Sound(), freed);
          return;
        }
      }
      NoPaths(a.tree, path, front);
      Sweep.Finish(a, Snapshot(nodes, pruned, unread, hurt), home, kids, done, front, now, Sound(), freed);
    }

    // ---- Tiers ----

    /** Tier 1: everything under `.cache`. */
    method PruneCache() returns (freed: nat, fate: Fate)
      requires Valid()
      modifies this`nodes, this`pruned, this`calls, this`hurt, this`overrun, this`unguarded, this`unread
      ensures Valid() && (Sound() ==> old(Sound()) && fate.Completed?)
      ensures old(calls) <= calls
      ensures unguarded == old(unguarded) + if fate.ProbeFailed? then 1 else 0
      ensures overrun == (old(overrun) || fate.OutOfRoom?)
      ensures Effect(old(Snapshot(nodes, pruned, unread, hurt)), Snapshot(nodes, pruned, unread, hurt),
                     DoomedAll(old(nodes), home, Children(old(nodes), Cache(home))), now, Sound(), freed)
      ensures fate.OutOfRoom? ==> DeepRoots(old(nodes), home, Children(old(nodes), Cache(home)), frames)
      ensures Sound() ==> !DeepRoots(old(nodes), home, Children(old(nodes), Cache(home)), frames)
    {
      ghost var a := Snapshot(nodes, pruned, unread, hurt);
      ghost var roots := Children(nodes, Cache(home));
      hide *;
      ValidIsWellFormed();
      Prefixes(home);
      freed, fate := 0, Completed;
      var dir := Probe(Cache(home));
      if !(dir.Found? && dir.entry.kind.Directory?) {
        fate := if dir.Failed? then ProbeFailed else Completed;
        if dir.Failed? {
          Sweep.StruckListing(hurt, home, a.tree, Cache(home));
        } else {
          NoChildren(a.tree, home, Cache(home));
          NoneDeep(a.tree, home, frames);
          Sweep.NoneStruck(hurt);
        }
        Sweep.Nothing(a, hurt, home, roots, now, Sound());
        return;
      }
      var listed, entries := ScanDir(Cache(home), {Cache(home)});
      if !listed {
        Sweep.StruckListing(hurt, Cache(home), a.tree, Cache(home));
        Sweep.Nothing(a, hurt, home, roots, now, Sound());
        return;
      }
      var over;
      freed, over := PruneEach(Cache(home), entries);
      fate := if over then OutOfRoom else Completed;
    }

    /** One removal in a sweep over the roots of a tier. */
    method PruneRoot(ghost a: Snapshot, ghost roots: set<Path>, ghost done: set<Path>, ghost front: set<Path>,
                     ghost freed: int, e: Path) returns (n: nat, over: bool)
      requires Valid() && e in front && e in roots
      requires Sweep.Sweeping(a, Snapshot(nodes, pruned, unread, hurt), home, roots, done, front, now, Sound(), freed)
      requires Sound() ==> !DeepRoots(a.tree, home, done, frames)
      modifies this`nodes, this`pruned, this`calls, this`hurt, this`overrun, this`unread
      ensures Valid() && (Sound() ==> old(Sound())) && overrun == (old(overrun) || over)
      ensures old(calls) <= calls
      ensures over ==> !Sound() && home in hurt && DeepRoots(a.tree, home, roots, frames)
      ensures Sweep.Sweeping(a, Snapshot(nodes, pruned, unread, hurt), home, roots, done + {e}, front - {e}, now,
                             Sound(), freed + n)
      ensures Sound() ==> !DeepRoots(a.tree, home, done + {e}, frames)
    {
      ghost var b, sound := Snapshot(nodes, pruned, unread, hurt), Sound();
      hide *;
      n, over := SafeRmTree(e, frames);
      TakeOne(a, b, Snapshot(nodes, pruned, unread, hurt), home, roots, done, front, now, sound, Sound(), freed, e, n,
              frames);
    }

    /** Reads a listing to its end or to the first failure, pruning below each entry. */
    method PruneEach(dir: Path, listing: seq<Path>) returns (freed: nat, over: bool)
      requires Valid() && home <= dir
      requires Distinct(listing) && Elements(listing) == Children(nodes, dir)
      modifies this`nodes, this`pruned, this`calls, this`hurt, this`overrun, this`unread
      ensures Valid() && (Sound() ==> old(Sound())) && overrun == (old(overrun) || over)
      ensures old(calls) <= calls
      ensures over ==> !Sound() && home in hurt
      ensures Effect(old(Snapshot(nodes, pruned, unread, hurt)), Snapshot(nodes, pruned, unread, hurt),
                     DoomedAll(old(nodes), home, Children(old(nodes), dir)), now, Sound(), freed)
      ensures over ==> DeepRoots(old(nodes), home, Children(old(nodes), dir), frames)
      ensures Sound() ==> !DeepRoots(old(nodes), home, Children(old(nodes), dir), frames)
    {
      ghost var a := Snapshot(nodes, pruned, unread, hurt);
      ghost var roots := Children(nodes, dir);
      hide *;
      freed, over := 0, false;
      var entries := listing;
      ghost var done: set<Path>, front := {}, roots;
      Sweep.StartChildren(a, home, dir, now, Sound());
      StartList(a.tree, dir, entries);
      NoneDeep(a.tree, home, frames);
      while entries != [] && !over
        invariant Valid() && (Sound() ==> old(Sound()))
        invariant old(calls) <= calls
        invariant overrun == (old(overrun) || over)
            && (over ==> !Sound() && home in hurt && DeepRoots(a.tree, home, roots, frames))
        invariant Worklist(a.tree, dir, [], entries, front) && front <= roots
        invariant Sweep.Sweeping(a, Snapshot(nodes, pruned, unread, hurt), home, roots, done, front, now, Sound(),
            freed)
        invariant Sound() ==> !DeepRoots(a.tree, home, done, frames)
        decreases |entries|, !over
      {
        ghost var b, sound := Snapshot(nodes, pruned, unread, hurt), Sound();
        var hit := Fault({dir});
        if hit {
          Sweep.StruckListing(hurt, dir, a.tree, dir);
          Sweep.Weaker(a, b, hurt, home, roots, done, front, now, sound, Sound(), freed);
          break;
        }
        var e := entries[0];
        Skip(a.tree, dir, [], entries, front);
        var n;
        n, over := PruneRoot(a, roots, done, front, freed, e);
        freed, done := freed + n, done + {e};
        front, entries := front - {e}, entries[1..];
      }
      if entries == [] {
        NoPaths(a.tree, dir, front);
      } else if over {
        Sweep.StruckListing(hurt, home, a.tree, dir);
      }
      Sweep.Finish(a, Snapshot(nodes, pruned, unread, hurt), home, roots, done, front, now, Sound(), freed);
    }

    /** The entries of one directory whose mtime is at or before the cutoff. */
    method PruneStaleEntries(dir: Path, cutoff: int) returns (freed: nat, over: bool)
      requires Valid() && home <= dir && dir in nodes && nodes[dir].kind.Directory?
      modifies this`nodes, this`pruned, this`calls, this`hurt, this`overrun, this`unread
      ensures Valid() && (Sound() ==> old(Sound())) && overrun == (old(overrun) || over)
      ensures old(calls) <= calls
      ensures over ==> !Sound() && home in hurt
      ensures Effect(old(Snapshot(nodes, pruned, unread, hurt)), Snapshot(nodes, pruned, unread, hurt),
                     DoomedAll(old(nodes), home, StaleIn(old(nodes), dir, cutoff)), now, Sound(), freed)
      ensures over ==> DeepRoots(old(nodes), home, StaleIn(old(nodes), dir, cutoff), frames)
      ensures Sound() ==> !DeepRoots(old(nodes), home, StaleIn(old(nodes), dir, cutoff), frames)
    {
      ghost var a := Snapshot(nodes, pruned, unread, hurt);
      ghost var roots := StaleIn(nodes, dir, cutoff);
      hide *;
      ValidIsWellFormed();
      freed, over := 0, false;
      var listed, entries := ScanDir(dir, {dir});
      if !listed {
        StaleInAntichain(a.tree, dir, cutoff);
        Sweep.StruckCover(hurt, dir, a.tree, dir, roots);
        Sweep.Nothing(a, hurt, home, roots, now, Sound());
        return;
      }
      freed, over := PruneEachStale(dir, entries, cutoff);
    }

    method PruneEachStale(dir: Path, listing: seq<Path>, cutoff: int) returns (freed: nat, over: bool)
      requires Valid() && home <= dir
      requires Distinct(listing) && Elements(listing) == Children(nodes, dir)
      modifies this`nodes, this`pruned, this`calls, this`hurt, this`overrun, this`unread
      ensures Valid() && (Sound() ==> old(Sound())) && overrun == (old(overrun) || over)
      ensures old(calls) <= calls
      ensures over ==> !Sound() && home in hurt
      ensures Effect(old(Snapshot(nodes, pruned, unread, hurt)), Snapshot(nodes, pruned, unread, hurt),
                     DoomedAll(old(nodes), home, StaleIn(old(nodes), dir, cutoff)), now, Sound(), freed)
      ensures over ==> DeepRoots(old(nodes), home, StaleIn(old(nodes), dir, cutoff), frames)
      ensures Sound() ==> !DeepRoots(old(nodes), home, StaleIn(old(nodes), dir, cutoff), frames)
    {
      ghost var a := Snapshot(nodes, pruned, unread, hurt);
      ghost var roots, kids := StaleIn(nodes, dir, cutoff), Children(nodes, dir);
      hide *;
      freed, over := 0, false;
      var entries := listing;
      ghost var done: set<Path>, front := {}, kids;
      StaleInAntichain(a.tree, dir, cutoff);
      Sweep.StartBelow(a, home, dir, roots, now, Sound());
      StartList(a.tree, dir, entries);
      NoneDeep(a.tree, home, frames);
      while entries != [] && !over
        invariant Valid() && (Sound() ==> old(Sound()))
        invariant old(calls) <= calls
        invariant overrun == (old(overrun) || over)
            && (over ==> !Sound() && home in hurt && DeepRoots(a.tree, home, roots, frames))
        invariant Worklist(a.tree, dir, [], entries, front) && front <= kids
        invariant Sweep.Sweeping(a, Snapshot(nodes, pruned, unread, hurt), home, roots, done, front, now, Sound(),
            freed)
        invariant Sound() ==> !DeepRoots(a.tree, home, done, frames)
        decreases |entries|, !over
      {
        ghost var b, sound := Snapshot(nodes, pruned, unread, hurt), Sound();
        var hit := Fault({dir});
        if hit {
          Sweep.StruckCover(hurt, dir, a.tree, dir, roots);
          Sweep.Weaker(a, b, hurt, home, roots, done, front, now, sound, Sound(), freed);
          break;
        }
        var e := entries[0];
        Skip(a.tree, dir, [], entries, front);
        Sweep.Intact(a, b, home, roots, done, front, now, sound, freed, e, e);
        StaleEntryOf(a.tree, dir, cutoff, e);
        var st := Stat(e, {e});
        if st.Found? && st.entry.mtime <= cutoff {
          var n;
          n, over := PruneRoot(a, roots, done, front, freed, e);
          freed, done := freed + n, done + {e};
        } else {
          Sweep.PassOne(a, b, hurt, home, roots, done, front, now, sound, Sound(), freed, e);
        }
        front, entries := front - {e}, entries[1..];
      }
      if entries == [] {
        NoPaths(a.tree, dir, front);
      } else if over {
        Sweep.StruckCover(hurt, home, a.tree, dir, roots);
      }
      Sweep.Finish(a, Snapshot(nodes, pruned, unread, hurt), home, roots, done, front, now, Sound(), freed);
    }

    /** Tier 2: stale entries of every `.local/lib/python*` directory's `site-packages`. */
    method PruneSitePackages(cutoff: int) returns (freed: nat, fate: Fate)
      requires Valid()
      modifies this`nodes, this`pruned, this`calls, this`hurt, this`overrun, this`unguarded, this`unread
      ensures Valid() && (Sound() ==> old(Sound()) && fate.Completed?)
      ensures old(calls) <= calls
      ensures unguarded == old(unguarded) + if fate.ProbeFailed? then 1 else 0
      ensures overrun == (old(overrun) || fate.OutOfRoom?)
      ensures Effect(old(Snapshot(nodes, pruned, unread, hurt)), Snapshot(nodes, pruned, unread, hurt),
                     DoomedAll(old(nodes), home, SitePackageRoots(old(nodes), home, cutoff)), now, Sound(), freed)
      ensures fate.OutOfRoom? ==> DeepRoots(old(nodes), home, SitePackageRoots(old(nodes), home, cutoff), frames)
      ensures Sound() ==> !DeepRoots(old(nodes), home, SitePackageRoots(old(nodes), home, cutoff), frames)
    {
      ghost var a := Snapshot(nodes, pruned, unread, hurt);
      ghost var roots := SitePackageRoots(nodes, home, cutoff);
      hide *;
      ValidIsWellFormed();
      Prefixes(home);
      freed, fate := 0, Completed;
      var dir := Probe(Lib(home));
      fate := if dir.Failed? then ProbeFailed else Completed;
      var listed, entries := false, [];
      if dir.Found? && dir.entry.kind.Directory? {
        listed, entries := ScanDir(Lib(home), {Lib(home)});
      }
      if listed {
        var over;
        freed, over := PruneEachPython(entries, cutoff);
        fate := if over then OutOfRoom else Completed;
      } else {
        SitePackageCover(a.tree, home, cutoff);
        if dir.Failed? {
          Sweep.StruckCover(hurt, home, a.tree, Lib(home), roots);
        } else if dir.Found? && dir.entry.kind.Directory? {
          Sweep.StruckCover(hurt, Lib(home), a.tree, Lib(home), roots);
        } else {
          NoChildren(a.tree, home, Lib(home));
          NoSitePackages(a.tree, home, cutoff);
          NoneDeep(a.tree, home, frames);
          Sweep.NoneStruck(hurt);
        }
        Sweep.Nothing(a, hurt, home, roots, now, Sound());
      }
    }

    method PruneEachPython(listing: seq<Path>, cutoff: int) returns (freed: nat, over: bool)
      requires Valid()
      requires Distinct(listing) && Elements(listing) == Children(nodes, Lib(home))
      modifies this`nodes, this`pruned, this`calls, this`hurt, this`overrun, this`unread
      ensures Valid() && (Sound() ==> old(Sound())) && overrun == (old(overrun) || over)
      ensures old(calls) <= calls
      ensures over ==> !Sound() && home in hurt
      ensures Effect(old(Snapshot(nodes, pruned, unread, hurt)), Snapshot(nodes, pruned, unread, hurt),
                     DoomedAll(old(nodes), home, SitePackageRoots(old(nodes), home, cutoff)), now, Sound(), freed)
      ensures over ==> DeepRoots(old(nodes), home, SitePackageRoots(old(nodes), home, cutoff), frames)
      ensures Sound() ==> !DeepRoots(old(nodes), home, SitePackageRoots(old(nodes), home, cutoff), frames)
    {
      ghost var a := Snapshot(nodes, pruned, unread, hurt);
      ghost var roots, kids := SitePackageRoots(nodes, home, cutoff), Children(nodes, Lib(home));
      hide *;
      ValidIsWellFormed();
      freed, over := 0, false;
      var entries := listing;
      ghost var done: set<Path>, front := {}, kids;
      Prefixes(home);
      SitePackageCover(a.tree, home, cutoff);
      Sweep.StartPackages(a, home, cutoff, now, Sound());
      StartList(a.tree, Lib(home), entries);
      NoneDeep(a.tree, home, frames);
      var stop := false;
      while entries != [] && !stop
        invariant Valid() && (Sound() ==> old(Sound()) && !stop)
        invariant old(calls) <= calls
        invariant overrun == (old(overrun) || over)
            && (over ==> !Sound() && home in hurt && DeepRoots(a.tree, home, roots, frames))
        invariant Worklist(a.tree, Lib(home), [], entries, front) && front <= kids
        invariant Sweep.Sweeping(a, Snapshot(nodes, pruned, unread, hurt), home, roots, done, front, now, Sound(),
            freed)
        invariant Sound() ==> !DeepRoots(a.tree, home, done, frames)
        invariant over ==> stop
        invariant stop ==> Sweep.AllStruck(hurt, roots)
        decreases |entries|, !stop
      {
        ghost var b, sound := Snapshot(nodes, pruned, unread, hurt), Sound();
        stop := Fault({Lib(home)});
        if stop {
          Sweep.StruckCover(hurt, Lib(home), a.tree, Lib(home), roots);
          Sweep.Weaker(a, b, hurt, home, roots, done, front, now, sound, Sound(), freed);
        } else {
          var e := entries[0];
          Skip(a.tree, Lib(home), [], entries, front);
          Sweep.SamePython(a, b, home, cutoff, done, front, now, sound, freed, e);
          PackagesIntact(a, b, home, cutoff, done, front, now, sound, freed, e, frames);
          ghost var packages := PackagesBelow(a.tree, home, cutoff, e);
          var n;
          n, stop, over := PrunePython(e, cutoff);
          if stop {
            Sweep.StruckCover(hurt, if over then home else Lib(home), a.tree, Lib(home), roots);
          }
          Sweep.Weaker(a, b, b.hurt, home, roots, done, front, now, sound, Sound(), freed);
          ghost var before := done;
          done := Sweep.TakePackages(a, b, Snapshot(nodes, pruned, unread, hurt), home, cutoff, done, front, now,
              Sound(),
                                     freed, e, n);
          MoreRoots(a.tree, home, roots, before, packages, frames);
          freed, front, entries := freed + n, front - {e}, entries[1..];
        }
      }
      if entries == [] {
        NoPaths(a.tree, Lib(home), front);
      }
      Sweep.Finish(a, Snapshot(nodes, pruned, unread, hurt), home, roots, done, front, now, Sound(), freed);
    }

    /** One entry of `.local/lib` in the second tier.  An error while probing it ends the whole tier. */
    method PrunePython(e: Path, cutoff: int) returns (freed: nat, stop: bool, over: bool)
      requires Valid() && e in Children(nodes, Lib(home))
      modifies this`nodes, this`pruned, this`calls, this`hurt, this`overrun, this`unread
      ensures Valid() && (Sound() ==> old(Sound())) && overrun == (old(overrun) || over)
      ensures old(calls) <= calls
      ensures over ==> !Sound() && home in hurt
      ensures (Sound() ==> !stop) && (over ==> stop) && (stop && !over ==> Lib(home) in hurt)
      ensures Effect(old(Snapshot(nodes, pruned, unread, hurt)), Snapshot(nodes, pruned, unread, hurt),
                     DoomedAll(old(nodes), home, PackagesBelow(old(nodes), home, cutoff, e)), now, Sound(), freed)
      ensures over ==> DeepRoots(old(nodes), home, PackagesBelow(old(nodes), home, cutoff, e), frames)
      ensures Sound() ==> !DeepRoots(old(nodes), home, PackagesBelow(old(nodes), home, cutoff, e), frames)
    {
      ghost var a := Snapshot(nodes, pruned, unread, hurt);
      assert e in nodes;
      hide *;
      ValidIsWellFormed();
      var st := Stat(e, {Lib(home)});
      if st.Failed? || !IsPythonReply(e, st) {
        freed, stop, over := 0, st.Failed?, false;
        if st.Failed? {
          Sweep.StruckPackages(hurt, a.tree, home, cutoff, e);
        } else {
          NotPython(a.tree, home, cutoff, e, st);
          NoneDeep(a.tree, home, frames);
          Sweep.NoneStruck(hurt);
        }
        Sweep.Nothing(a, hurt, home, PackagesBelow(a.tree, home, cutoff, e), now, Sound());
      } else {
        IsPython(a.tree, home, cutoff, e, st);
        freed, stop, over := PrunePackages(e + ["site-packages"], cutoff);
      }
    }

    /** One `site-packages` directory, if it is one. */
    method PrunePackages(site: Path, cutoff: int) returns (freed: nat, stop: bool, over: bool)
      requires Valid() && Lib(home) <= site
      modifies this`nodes, this`pruned, this`calls, this`hurt, this`overrun, this`unread
      ensures Valid() && (Sound() ==> old(Sound())) && overrun == (old(overrun) || over)
      ensures old(calls) <= calls
      ensures over ==> !Sound() && home in hurt
      ensures (Sound() ==> !stop) && (over ==> stop) && (stop && !over ==> Lib(home) in hurt)
      ensures Effect(old(Snapshot(nodes, pruned, unread, hurt)), Snapshot(nodes, pruned, unread, hurt),
                     DoomedAll(old(nodes), home, StaleIn(old(nodes), site, cutoff)), now, Sound(), freed)
      ensures over ==> DeepRoots(old(nodes), home, StaleIn(old(nodes), site, cutoff), frames)
      ensures Sound() ==> !DeepRoots(old(nodes), home, StaleIn(old(nodes), site, cutoff), frames)
    {
      ghost var a := Snapshot(nodes, pruned, unread, hurt);
      hide *;
      ValidIsWellFormed();
      Prefixes(home);
      TransitivePrefix(home, Lib(home), site);
      freed, over := 0, false;
      var st := Stat(site, {Lib(home)});
      stop := st.Failed?;
      if st.Found? && st.entry.kind.Directory? {
        freed, over := PruneStaleEntries(site, cutoff);
        stop := over;
      } else {
        if st.Failed? {
          StaleInAntichain(a.tree, site, cutoff);
          Sweep.StruckCover(hurt, Lib(home), a.tree, site, StaleIn(a.tree, site, cutoff));
        } else {
          NoStaleIn(a.tree, home, site, cutoff);
          NoneDeep(a.tree, home, frames);
          Sweep.NoneStruck(hurt);
        }
        Sweep.Nothing(a, hurt, home, StaleIn(a.tree, site, cutoff), now, Sound());
      }
    }

    /** Tier 3: the other stale entries of `.local/lib`. */
    method PruneOtherLocalLib(cutoff: int) returns (freed: nat, fate: Fate)
      requires Valid()
      modifies this`nodes, this`pruned, this`calls, this`hurt, this`overrun, this`unguarded, this`unread
      ensures Valid() && (Sound() ==> old(Sound()) && fate.Completed?)
      ensures old(calls) <= calls
      ensures unguarded == old(unguarded) + if fate.ProbeFailed? then 1 else 0
      ensures overrun == (old(overrun) || fate.OutOfRoom?)
      ensures Effect(old(Snapshot(nodes, pruned, unread, hurt)), Snapshot(nodes, pruned, unread, hurt),
                     DoomedAll(old(nodes), home, OtherLibRoots(old(nodes), home, cutoff)), now, Sound(), freed)
      ensures fate.OutOfRoom? ==> DeepRoots(old(nodes), home, OtherLibRoots(old(nodes), home, cutoff), frames)
      ensures Sound() ==> !DeepRoots(old(nodes), home, OtherLibRoots(old(nodes), home, cutoff), frames)
    {
      ghost var a := Snapshot(nodes, pruned, unread, hurt);
      ghost var roots := OtherLibRoots(nodes, home, cutoff);
      hide *;
      ValidIsWellFormed();
      Prefixes(home);
      OtherLibWithin(nodes, home, cutoff);
      freed, fate := 0, Completed;
      var dir := Probe(Lib(home));
      fate := if dir.Failed? then ProbeFailed else Completed;
      var listed, entries := false, [];
      if dir.Found? && dir.entry.kind.Directory? {
        listed, entries := ScanDir(Lib(home), {Lib(home)});
      }
      if listed {
        var over;
        freed, over := PruneEachOther(entries, cutoff);
        fate := if over then OutOfRoom else Completed;
      } else {
        OtherLibCover(a.tree, home, cutoff);
        if dir.Failed? {
          Sweep.StruckCover(hurt, home, a.tree, Lib(home), roots);
        } else if dir.Found? && dir.entry.kind.Directory? {
          Sweep.StruckCover(hurt, Lib(home), a.tree, Lib(home), roots);
        } else {
          NoChildren(a.tree, home, Lib(home));
          NoneDeep(a.tree, home, frames);
          Sweep.NoneStruck(hurt);
        }
        Sweep.Nothing(a, hurt, home, roots, now, Sound());
      }
    }

    method PruneEachOther(listing: seq<Path>, cutoff: int) returns (freed: nat, over: bool)
      requires Valid()
      requires Distinct(listing) && Elements(listing) == Children(nodes, Lib(home))
      modifies this`nodes, this`pruned, this`calls, this`hurt, this`overrun, this`unread
      ensures Valid() && (Sound() ==> old(Sound())) && overrun == (old(overrun) || over)
      ensures old(calls) <= calls
      ensures over ==> !Sound() && home in hurt
      ensures Effect(old(Snapshot(nodes, pruned, unread, hurt)), Snapshot(nodes, pruned, unread, hurt),
                     DoomedAll(old(nodes), home, OtherLibRoots(old(nodes), home, cutoff)), now, Sound(), freed)
      ensures over ==> DeepRoots(old(nodes), home, OtherLibRoots(old(nodes), home, cutoff), frames)
      ensures Sound() ==> !DeepRoots(old(nodes), home, OtherLibRoots(old(nodes), home, cutoff), frames)
    {
      ghost var a := Snapshot(nodes, pruned, unread, hurt);
      ghost var roots, kids := OtherLibRoots(nodes, home, cutoff), Children(nodes, Lib(home));
      hide *;
      freed, over := 0, false;
      var entries := listing;
      ghost var done: set<Path>, front := {}, kids;
      Prefixes(home);
      LibRootsAntichain(a.tree, home, cutoff);
      OtherLibCover(a.tree, home, cutoff);
      Sweep.StartBelow(a, home, Lib(home), roots, now, Sound());
      StartList(a.tree, Lib(home), entries);
      NoneDeep(a.tree, home, frames);
      var stop := false;
      while entries != [] && !stop
        invariant Valid() && (Sound() ==> old(Sound()) && !stop) && (over ==> stop)
        invariant old(calls) <= calls
        invariant overrun == (old(overrun) || over)
            && (over ==> !Sound() && home in hurt && DeepRoots(a.tree, home, roots, frames))
        invariant stop ==> over || Sweep.AllStruck(hurt, roots)
        invariant Worklist(a.tree, Lib(home), [], entries, front) && front <= kids
        invariant Sweep.Sweeping(a, Snapshot(nodes, pruned, unread, hurt), home, roots, done, front, now, Sound(),
            freed)
        invariant Sound() ==> !DeepRoots(a.tree, home, done, frames)
        decreases |entries|, !stop
      {
        var e := entries[0];
        ghost var b, sound := Snapshot(nodes, pruned, unread, hurt), Sound();
        Skip(a.tree, Lib(home), [], entries, front);
        Sweep.SameOther(a, b, home, cutoff, done, front, now, sound, freed, e);
        var take;
        stop, take := LookAtOther(e, cutoff);
        if stop {
          Sweep.StruckCover(hurt, Lib(home), a.tree, Lib(home), roots);
          Sweep.Weaker(a, b, hurt, home, roots, done, front, now, sound, Sound(), freed);
        } else if take {
          Sweep.Weaker(a, b, b.hurt, home, roots, done, front, now, sound, Sound(), freed);
          var n;
          n, stop := PruneRoot(a, roots, done, front, freed, e);
          over := stop;
          freed, done := freed + n, done + {e};
          front, entries := front - {e}, entries[1..];
        } else {
          Sweep.PassOne(a, b, hurt, home, roots, done, front, now, sound, Sound(), freed, e);
          front, entries := front - {e}, entries[1..];
        }
      }
      if entries == [] {
        NoPaths(a.tree, Lib(home), front);
      } else if over {
        Sweep.StruckCover(hurt, home, a.tree, Lib(home), roots);
      }
      Sweep.Finish(a, Snapshot(nodes, pruned, unread, hurt), home, roots, done, front, now, Sound(), freed);
    }

    /** The next entry of `.local/lib` in the third tier: reading it, its kind, and its times. The first two errors end
      * the tier, the third one skips the entry. */
    method LookAtOther(e: Path, cutoff: int) returns (stop: bool, take: bool)
      requires Valid() && e in Children(nodes, Lib(home))
      modifies this`calls, this`hurt
      ensures old(calls) <= calls && old(hurt) <= hurt && (stop ==> Lib(home) in hurt)
      ensures take ==> !stop && hurt == old(hurt) && e in OtherLibRoots(nodes, home, cutoff)
      ensures !stop && !take ==> e in hurt || e !in OtherLibRoots(nodes, home, cutoff)
      ensures Valid() && (Sound() ==> old(Sound()) && !stop && (take || e !in OtherLibRoots(nodes, home, cutoff)))
    {
      hide Valid, Sound, OtherLibRoots;
      OtherLibEntry(nodes, home, cutoff, e);
      take := false;
      stop := Fault({Lib(home)});
      if stop {
        return;
      }
      var kind := Stat(e, {Lib(home)});
      stop := kind.Failed?;
      if stop || IsPythonReply(e, kind) {
        return;
      }
      var st := Stat(e, {e});
      take := st.Found? && st.entry.mtime <= cutoff;
    }

    /** Tier 4: everything stale under `.local` except a real `.local/bin`. */
    method PruneStaleLocal(cutoff: int) returns (freed: nat, fate: Fate)
      requires Valid()
      modifies this`nodes, this`pruned, this`calls, this`hurt, this`overrun, this`unguarded, this`unread
      ensures Valid() && (Sound() ==> old(Sound()) && fate.Completed?)
      ensures old(calls) <= calls
      ensures unguarded == old(unguarded) + if fate.ProbeFailed? then 1 else 0
      ensures overrun == (old(overrun) || fate.OutOfRoom?)
      ensures Effect(old(Snapshot(nodes, pruned, unread, hurt)), Snapshot(nodes, pruned, unread, hurt),
                     DoomedAll(old(nodes), home, StaleLocalRoots(old(nodes), home, cutoff)), now, Sound(), freed)
      ensures fate.OutOfRoom? ==> DeepRoots(old(nodes), home, StaleLocalRoots(old(nodes), home, cutoff), frames)
      ensures Sound() ==> !DeepRoots(old(nodes), home, StaleLocalRoots(old(nodes), home, cutoff), frames)
    {
      ghost var a := Snapshot(nodes, pruned, unread, hurt);
      ghost var roots := StaleLocalRoots(nodes, home, cutoff);
      hide *;
      ValidIsWellFormed();
      freed := 0;
      var dir := Probe(Local(home));
      fate := if dir.Failed? then ProbeFailed else Completed;
      if !(dir.Found? && dir.entry.kind.Directory?) {
        if dir.Failed? {
          StaleWalk.EscapeStrikes(a.tree, home, cutoff, hurt);
        } else {
          WalkStart(a.tree, home, cutoff);
          NoneDeep(a.tree, home, frames);
          Sweep.NoneStruck(hurt);
        }
        Sweep.Nothing(a, hurt, home, roots, now, Sound());
        return;
      }
      var stack, cur := [Local(home)], Local(home);
      ghost var done: set<Path>, front := {}, {Local(home)};
      StaleWalk.Begin(a, home, cutoff, now, Sound());
      NoneDeep(a.tree, home, frames);
      while stack != [] && fate.Completed?
        invariant Valid() && (Sound() ==> old(Sound()) && fate.Completed?)
        invariant old(calls) <= calls
        invariant unguarded == old(unguarded) + if fate.ProbeFailed? then 1 else 0
        invariant overrun == (old(overrun) || fate.OutOfRoom?)
        invariant fate.OutOfRoom? ==> DeepRoots(a.tree, home, roots, frames)
        invariant !fate.Completed? ==> home in hurt
        invariant StaleWalk.Walking(a, Snapshot(nodes, pruned, unread, hurt), home, cutoff, stack, cur, [], done,
            front, now,
                                    Sound(), freed)
        invariant Sound() ==> !DeepRoots(a.tree, home, done, frames)
        decreases Under(a.tree, front), |stack|, fate.Completed?
      {
        ghost var b, sound := Snapshot(nodes, pruned, unread, hurt), Sound();
        var d := stack[|stack| - 1];
        StaleWalk.Top(a, b, home, cutoff, stack, cur, done, front, now, sound, freed);
        var listed, entries := ScanDir(d, {d});
        StaleWalk.WeakerWalk(a, b, hurt, home, cutoff, stack, cur, [], done, front, now, sound, Sound(), freed);
        if listed {
          StaleWalk.Listed(a, Snapshot(nodes, pruned, unread, hurt), home, cutoff, stack, cur, entries, done, front,
              now, Sound(), freed);
          front := front - {d} + Children(a.tree, d);
          stack, cur := stack[..|stack| - 1], d;
          stack, freed, fate, done, front :=
            PruneLocalEntries(a, cur, cutoff, stack, entries, freed, done, front);
        } else {
          StaleWalk.Unlisted(a, Snapshot(nodes, pruned, unread, hurt), home, cutoff, stack, cur, done, front, now,
              Sound(), freed);
          front := front - {d};
          stack, cur := stack[..|stack| - 1], d;
        }
      }
      if !fate.Completed? {
        StaleWalk.EscapeStrikes(a.tree, home, cutoff, hurt);
      }
      StaleWalk.End(a, Snapshot(nodes, pruned, unread, hurt), home, cutoff, stack, cur, [], done, front, now, Sound(),
          freed);
    }

    /** One listed directory of the fourth tier.  An error while asking what an entry is escapes; the entries after it
      * are left. */
    method PruneLocalEntries(ghost a: Snapshot, cur: Path, cutoff: int, stack0: seq<Path>, listing: seq<Path>,
                             freed0: nat, ghost done0: set<Path>, ghost front0: set<Path>)
      returns (stack: seq<Path>, freed: nat, fate: Fate, ghost done: set<Path>, ghost front: set<Path>)
      requires Valid()
      requires StaleWalk.Walking(a, Snapshot(nodes, pruned, unread, hurt), home, cutoff, stack0, cur, listing, done0,
          front0,
                                 now, Sound(), freed0)
      requires Sound() ==> !DeepRoots(a.tree, home, done0, frames)
      modifies this`nodes, this`pruned, this`calls, this`hurt, this`overrun, this`unguarded, this`unread
      ensures Valid() && (Sound() ==> old(Sound()) && fate.Completed?)
      ensures old(calls) <= calls
      ensures unguarded == old(unguarded) + if fate.ProbeFailed? then 1 else 0
      ensures overrun == (old(overrun) || fate.OutOfRoom?)
      ensures StaleWalk.Walking(a, Snapshot(nodes, pruned, unread, hurt), home, cutoff, stack, cur, [], done, front,
          now,
                                Sound(), freed)
      ensures !fate.Completed? ==> home in hurt
      ensures fate.OutOfRoom? ==> DeepRoots(a.tree, home, StaleLocalRoots(a.tree, home, cutoff), frames)
      ensures Sound() ==> !DeepRoots(a.tree, home, done, frames)
      ensures Under(a.tree, front) <= Under(a.tree, front0)
    {
      ghost var roots := StaleLocalRoots(a.tree, home, cutoff);
      hide *;
      var entries := listing;
      stack, freed, fate, done, front := stack0, freed0, Completed, done0, front0;
      while entries != [] && fate.Completed?
        invariant Valid() && (Sound() ==> old(Sound()) && fate.Completed?)
        invariant old(calls) <= calls
        invariant unguarded == old(unguarded) + if fate.ProbeFailed? then 1 else 0
        invariant overrun == (old(overrun) || fate.OutOfRoom?)
        invariant fate.OutOfRoom? ==> DeepRoots(a.tree, home, roots, frames)
        invariant !fate.Completed? ==> home in hurt
        invariant StaleWalk.Walking(a, Snapshot(nodes, pruned, unread, hurt), home, cutoff, stack, cur, entries, done,
            front,
                                    now, Sound(), freed)
        invariant Sound() ==> !DeepRoots(a.tree, home, done, frames)
        invariant Under(a.tree, front) <= Under(a.tree, front0)
        decreases |entries|, fate.Completed?
      {
        var e := entries[0];
        ghost var b, sound := Snapshot(nodes, pruned, unread, hurt), Sound();
        StaleWalk.Entry(a, b, home, cutoff, stack, cur, entries, done, front, now, sound, freed);
        StaleWalk.EntryDepth(a, b, home, cutoff, stack, cur, entries, done, front, now, sound, freed, frames);
        var verdict := Judge(e, cutoff);
        ghost var felt := hurt;
        match verdict {
          case Escapes =>
            fate := ProbeFailed;
            StaleWalk.WeakerWalk(a, b, felt, home, cutoff, stack, cur, entries, done, front, now, sound, Sound(),
                freed);
          case Skipped =>
            StaleWalk.WeakerWalk(a, b, felt, home, cutoff, stack, cur, entries, done, front, now, sound, Sound(),
                freed);
            StaleWalk.Passed(a, b.(hurt := felt), home, cutoff, stack, cur, entries, done, front, now, Sound(), freed);
            front, entries := front - {e}, entries[1..];
          case Enter =>
            StaleWalk.WeakerWalk(a, b, felt, home, cutoff, stack, cur, entries, done, front, now, sound, Sound(),
                freed);
            StaleWalk.Entered(a, b.(hurt := felt), home, cutoff, stack, cur, entries, done, front, now, Sound(), freed);
            stack, entries := stack + [e], entries[1..];
          case Remove(isDir) =>
            var n, over := RemoveStale(e, isDir);
            StaleWalk.WeakerWalk(a, b, felt, home, cutoff, stack, cur, entries, done, front, now, sound, Sound(),
                freed);
            StaleWalk.Removed(a, b.(hurt := felt), Snapshot(nodes, pruned, unread, hurt), home, cutoff, stack, cur,
                entries, done, front,
                              now, Sound(), freed, n);
            StaleWalk.EntryIsRoot(a, b, home, cutoff, stack, cur, entries, done, front, now, sound, freed);
            OneMoreRoot(a.tree, home, roots, done, e, frames);
            fate := if over then OutOfRoom else Completed;
            freed, done, front, entries := freed + n, done + {e}, front - {e}, entries[1..];
        }
      }
      if !fate.Completed? {
        StaleWalk.EscapeStrikes(a.tree, home, cutoff, hurt);
      }
      front := StaleWalk.Abandon(a, Snapshot(nodes, pruned, unread, hurt), home, cutoff, stack, cur, entries, done,
          front,
                                 now, Sound(), freed);
    }

    /** A stale entry of the fourth tier: a directory goes through the recursive removal, anything else is unlinked. */
    method RemoveStale(e: Path, isDir: bool) returns (n: nat, over: bool)
      requires Valid() && e in nodes && !NeverTouch(e, home) && isDir == nodes[e].kind.Directory?
      modifies this`nodes, this`pruned, this`calls, this`hurt, this`overrun, this`unread
      ensures Valid() && (Sound() ==> old(Sound())) && overrun == (old(overrun) || over)
      ensures old(calls) <= calls
      ensures over ==> !Sound() && home in hurt
      ensures Effect(old(Snapshot(nodes, pruned, unread, hurt)), Snapshot(nodes, pruned, unread, hurt),
                     Doomed(old(nodes), home, e), now, Sound(), n)
      ensures over ==> TooDeep(old(nodes), home, e, frames) && home in hurt
      ensures Sound() ==> !TooDeep(old(nodes), home, e, frames)
    {
      ghost var b := Snapshot(nodes, pruned, unread, hurt);
      hide *;
      ValidIsWellFormed();
      over := false;
      RoomForOne();
      if isDir {
        n, over := SafeRmTree(e, frames);
      } else {
        n := SafeUnlink(e);
        LeafEffect(b, nodes, home, e, now, Sound(), n, unread, hurt);
        WhatIsListed(b, nodes, e, n, unread, hurt);
        NoDescent(b.tree, home, e, frames);
        if n > 0 {
          pruned := pruned + [e];
        }
      }
    }

    /** What the fourth tier does with one entry. */
    method Judge(e: Path, cutoff: int) returns (v: Verdict)
      requires Valid() && e in nodes
      modifies this`calls, this`hurt, this`unguarded
      ensures old(hurt) <= hurt && (v.Escapes? ==> home in hurt)
      ensures v.Skipped? ==> e in hurt || (!Descended(nodes, home, cutoff, e) && !StaleEntry(nodes, home, cutoff, e))
      ensures Valid() && (Sound() ==> old(Sound()) && !v.Escapes?)
      ensures old(calls) <= calls
      ensures unguarded == old(unguarded) + if v.Escapes? then 1 else 0
      ensures v.Skipped? && Sound() ==> !Descended(nodes, home, cutoff, e) && !StaleEntry(nodes, home, cutoff, e)
      ensures v.Enter? ==> Descended(nodes, home, cutoff, e)
      ensures v.Remove? ==> StaleEntry(nodes, home, cutoff, e) && v.isDir == nodes[e].kind.Directory?
      ensures v.Remove? ==> !NeverTouch(e, home)
    {
      hide Sound, NeverTouch, WellFormed, RealPrefixes;
      var kind := Probe(e);
      if kind.Failed? {
        return Escapes;
      }
      if (kind.Found? && kind.entry.kind.Directory? && e == Bin(home)) || NeverTouch(e, home) {
        return Skipped;
      }
      var st := Stat(e, {e});
      if !st.Found? {
        return Skipped;
      }
      var again := Probe(e);
      if again.Failed? {
        return Escapes;
      }
      if again.Found? && again.entry.kind.Directory? {
        v := if st.entry.mtime > cutoff then Enter else Remove(true);
      } else {
        v := if st.entry.mtime > cutoff then Skipped else Remove(false);
      }
    }

    // ---- The whole run ----

    /** Prunes tier by tier until the measured size fits the budget. Whatever fails, a tier runs only on a tree over the
      * budget, only removable nodes go, and every protected one stays. It raises exactly when a probe outside every
      * `try` fails, for instance the first call of all, or a tier meets a root too deep for the removal. */
    method EnforceQuota(budget: int, lock: LockOutcome) returns (out: Outcome, ghost trail: seq<Tree>)
      requires Valid()
      modifies this
      ensures Valid() && since == old(calls)
      ensures unguarded >= old(unguarded) && (out.Raised? <==> unguarded != old(unguarded) || overrun)
      ensures Sound() ==> out.Returned?
      ensures faults(old(calls)) ==> out.Raised?
      ensures trail != [] && Trail(trail, trail[0], nodes, hurt, home, budget, now, Sound())
      ensures trail[0] == old(nodes) || trail[0] == Locked(old(nodes), home, now, lock)
      ensures Size(trail[0], home) <= budget ==> nodes == trail[0]
      ensures overrun ==> RanTooDeep(trail, home, now, frames)
      ensures Sound() ==> !RanTooDeep(trail, home, now, frames)
      ensures nodes == old(nodes) || Safe(Locked(old(nodes), home, now, lock), nodes, home, now)
      ensures out.Returned? && !IsHome(old(nodes), home) ==>
        nodes == old(nodes) && out.report == Report(0, 0, [], false)
      ensures out.Returned? && IsHome(old(nodes), home) && lock.Busy? ==>
        nodes == Locked(old(nodes), home, now, lock) && out.report == Report(0, 0, [], true)
      ensures out.Returned? && IsHome(old(nodes), home) && !lock.Busy? ==>
        && trail[0] == Locked(old(nodes), home, now, lock)
        && Enforcement(trail[0], nodes, home, budget, now, Sound(), out.report, unread)
        && (out.report.before > budget ==> |trail| > 1)
        && Measured(trail[0], nodes, |trail| - 1, home, budget, out.report, Failures(faults, old(calls), calls))
      ensures forall p :: p in old(nodes) && Precious(home, p) ==> p in nodes
      ensures forall p :: p in old(nodes) && p !in nodes ==> MayGo(old(nodes), home, now, p)
      ensures nodes.Keys <= old(nodes).Keys + {home + [".quota-walker.lock"]}
      ensures lock.Busy? ==> old(nodes).Keys <= nodes.Keys
      ensures EachTakesTargets(trail, home, now, hurt)
      ensures |hurt| <= Failures(faults, old(calls), calls) + (if overrun then 1 else 0) && (Sound() ==> hurt == {})
      ensures out.Returned? && IsHome(old(nodes), home) && !lock.Busy? && out.report.before > budget ==>
        CacheIsCleared(old(nodes), nodes, home, hurt)
    {
      ghost var t := nodes;
      hide *;
      LockedIsNear(t, home, now, lock);
      BeginRun();
      out, trail := Raised, [nodes];
      TrailStarts(nodes, hurt, home, budget, now, Sound(), frames);
      var dir := Probe(home);
      TrailStarts(nodes, hurt, home, budget, now, Sound(), frames);
      TrailTakesTargets(trail, nodes, nodes, hurt, home, budget, now, Sound());
      WhetherHome(t, home, now, lock);
      HurtByFailures();
      if !(dir.Found? && dir.entry.kind.Directory?) {
        if !dir.Failed? {
          out := Returned(Report(0, 0, [], false));
        }
        return;
      }
      if !lock.NotOpened? {
        OpenLockFile();
      }
      Untouched(nodes, home, now);
      trail := [nodes];
      TrailStarts(nodes, hurt, home, budget, now, Sound(), frames);
      TrailTakesTargets(trail, nodes, nodes, hurt, home, budget, now, Sound());
      if lock.Busy? {
        out := Returned(Report(0, 0, [], true));
        return;
      }
      ghost var counted := calls;
      out, trail := RunTiers(budget);
      HurtByFailures();
      if out.Returned? {
        FewerFailures(faults, old(calls), counted, calls);
        MoreFailures(trail[0], nodes, |trail| - 1, home, budget, out.report, Failures(faults, counted, calls),
                     Failures(faults, old(calls), calls));
      }
      FittingIsLeftAlone(trail, trail[0], nodes, hurt, home, budget, now, Sound());
      OnlyWhatMayGo(t, nodes, home, now, lock);
      TrailTakesTargets(trail, trail[0], nodes, hurt, home, budget, now, Sound());
      TrailSpan(trail, trail[0], nodes, hurt, home, budget, now, Sound());
      if out.Returned? && out.report.before > budget {
        RunClearsCache(t, nodes, trail, home, now, hurt, lock);
      }
    }

    /** A run's own account of its calls. */
    method BeginRun()
      requires Valid()
      modifies this`since, this`overrun, this`hurt
      ensures Valid() && since == calls && !overrun && Sound() && hurt == {}
    {
      since, overrun, hurt := calls, false, {};
    }

    method OpenLockFile()
      requires Valid() && home in nodes && nodes[home].kind.Directory?
      modifies this`nodes
      ensures Valid() && nodes == WithLockFile(old(nodes), home, now)
    {
      LockFileKeeps(nodes, home, now);
      nodes := WithLockFile(nodes, home, now);
    }

    method RunTiers(budget: int) returns (out: Outcome, ghost trail: seq<Tree>)
      requires Valid() && !overrun
      modifies this`nodes, this`pruned, this`calls, this`hurt, this`overrun, this`unguarded, this`unread
      ensures Valid() && (Sound() ==> old(Sound()))
      ensures old(calls) <= calls
      ensures unguarded >= old(unguarded) && (out.Raised? <==> unguarded != old(unguarded) || overrun)
      ensures Sound() ==> out.Returned?
      ensures Trail(trail, old(nodes), nodes, hurt, home, budget, now, Sound()) && trail != [] && trail[0] == old(nodes)
      ensures overrun ==> RanTooDeep(trail, home, now, frames)
      ensures Sound() ==> !RanTooDeep(trail, home, now, frames)
      ensures Safe(old(nodes), nodes, home, now)
      ensures out.Returned? ==> Enforcement(old(nodes), nodes, home, budget, now, Sound(), out.report, unread)
      ensures out.Returned? && out.report.before > budget ==> |trail| > 1
      ensures out.Returned? ==>
        Measured(old(nodes), nodes, |trail| - 1, home, budget, out.report, Failures(faults, old(calls), calls))
    {
      ghost var a := Snapshot(nodes, [], {}, hurt);
      hide *;
      pruned, unread := [], {};
      ValidIsWellFormed();
      var before := ScanSize(home);
      ghost var start, mid := old(calls), calls;
      Beginning(a, home, budget, now, Sound(), before);
      trail := [nodes];
      TrailStarts(nodes, hurt, home, budget, now, Sound(), frames);
      TrailSpan(trail, nodes, nodes, hurt, home, budget, now, Sound());
      if before <= budget {
        out := Returned(Report(before, before, [], false));
        MeasuredAtOnce(nodes, home, budget, before, Failures(faults, start, mid));
        return;
      }
      var more: bool;
      out, more, trail := RunTier(a, 1, budget, before, trail, start, mid);
      if more {
        out, more, trail := RunTier(a, 2, budget, before, trail, start, mid);
      }
      if more {
        out, more, trail := RunTier(a, 3, budget, before, trail, start, mid);
      }
      if more {
        out, more, trail := RunTier(a, 4, budget, before, trail, start, mid);
      }
      TrailSpan(trail, a.tree, nodes, hurt, home, budget, now, Sound());
    }

    /** One tier and the measurement after it. */
    method RunTier(ghost a: Snapshot, k: nat, budget: int, before: nat, ghost trail0: seq<Tree>, ghost start: nat,
                   ghost mid: nat)
      returns (out: Outcome, more: bool, ghost trail: seq<Tree>)
      requires Valid() && 1 <= k <= 4 && !overrun && Size(nodes, home) > budget
      requires InProgress(a, Snapshot(nodes, pruned, unread, hurt), home, budget, now, Sound(), before, k - 1)
      requires Trail(trail0, a.tree, nodes, hurt, home, budget, now, Sound()) && |trail0| == k
      requires Sound() ==> !RanTooDeep(trail0, home, now, frames)
      requires start <= mid <= calls && Measures(a.tree, home, before, Failures(faults, start, mid))
      modifies this`nodes, this`pruned, this`calls, this`hurt, this`overrun, this`unguarded, this`unread
      ensures Valid() && (Sound() ==> old(Sound()))
      ensures old(calls) <= calls
      ensures trail == trail0 + [nodes] && Trail(trail, a.tree, nodes, hurt, home, budget, now, Sound())
      ensures overrun ==> RanTooDeep(trail, home, now, frames)
      ensures Sound() ==> !RanTooDeep(trail, home, now, frames)
      ensures more ==> k < 4 && InProgress(a, Snapshot(nodes, pruned, unread, hurt), home, budget, now, Sound(),
          before, k)
      ensures more ==> Size(nodes, home) > budget && !overrun && unguarded == old(unguarded)
      ensures unguarded >= old(unguarded)
      ensures !more ==> (out.Raised? <==> unguarded != old(unguarded) || overrun) && (Sound() ==> out.Returned?)
      ensures Safe(a.tree, nodes, home, now)
      ensures !more && out.Returned? ==>
        && Enforcement(a.tree, nodes, home, budget, now, Sound(), out.report, unread) && out.report.before == before
        && Measured(a.tree, nodes, k, home, budget, out.report, Failures(faults, start, calls))
    {
      ghost var b, sound := Snapshot(nodes, pruned, unread, hurt), Sound();
      hide *;
      ValidIsWellFormed();
      more, out := false, Raised;
      var n, fate := PruneTier(k);
      ghost var c, pruning := Snapshot(nodes, pruned, unread, hurt), Sound();
      ghost var may := DoomedAll(b.tree, home, RootsOf(b.tree, home, now - STALE_AGE_SECONDS, k));
      ValidIsWellFormed();
      var size, after := 0, 0;
      if fate.Completed? {
        ghost var first := calls;
        if k < 4 {
          size := ScanSize(home);
          more := size > budget;
        }
        if !more {
          ghost var second := calls;
          after := ScanSize(home);
          out := Returned(Report(before, after, pruned, false));
          MeasuredWithin(a.tree, home, before, faults, start, start, mid, calls);
          MeasuredWithin(nodes, home, after, faults, start, second, calls, calls);
          if k < 4 {
            MeasuredWithin(nodes, home, size, faults, start, first, second, calls);
          }
          MeasuredAfter(a.tree, nodes, k, home, budget, before, size, after, pruned, Failures(faults, start, calls));
        }
      }
      WeakerEffect(b, c, c.hurt, may, now, pruning, Sound(), n);
      WeakerProgress(a, b, home, budget, now, sound, Sound(), before, k - 1);
      TierDone(a, b, c, home, budget, now, Sound(), before, k, n);
      EffectIsTier(b, c, home, budget, now, Sound(), k, n);
      TrailGrows(trail0, a.tree, b.tree, nodes, b.hurt, hurt, home, budget, now, sound, Sound(), frames);
      trail := trail0 + [nodes];
      if more {
        TierWasNotEnough(a, b, c, home, budget, now, Sound(), before, k, size);
      } else if fate.Completed? {
        TierWasEnough(a, b, c, home, budget, now, Sound(), before, k, size, after);
      }
    }

    method PruneTier(k: nat) returns (freed: nat, fate: Fate)
      requires Valid() && 1 <= k <= 4
      modifies this`nodes, this`pruned, this`calls, this`hurt, this`overrun, this`unguarded, this`unread
      ensures Valid() && (Sound() ==> old(Sound()) && fate.Completed?)
      ensures old(calls) <= calls
      ensures unguarded == old(unguarded) + if fate.ProbeFailed? then 1 else 0
      ensures overrun == (old(overrun) || fate.OutOfRoom?)
      ensures Effect(old(Snapshot(nodes, pruned, unread, hurt)), Snapshot(nodes, pruned, unread, hurt),
                     DoomedAll(old(nodes), home, RootsOf(old(nodes), home, now - STALE_AGE_SECONDS, k)), now, Sound(),
                     freed)
      ensures fate.OutOfRoom? ==> DeepTier(old(nodes), home, now, k, frames)
      ensures Sound() ==> !DeepTier(old(nodes), home, now, k, frames)
    {
      hide Sound, Valid, Effect, DoomedAll, DeepRoots;
      var cutoff := now - STALE_AGE_SECONDS;
      match k {
        case 1 => freed, fate := PruneCache();
        case 2 => freed, fate := PruneSitePackages(cutoff);
        case 3 => freed, fate := PruneOtherLocalLib(cutoff);
        case _ => freed, fate := PruneStaleLocal(cutoff);
      }
    }
  }

  /** A run that raises: the first file-system call of the walk fails. */
  method ProbeRaises(home: Path) returns (out: Outcome)
    ensures out.Raised?
  {
    var tree := map[home := Entry(Directory, 0, 0)];
    var walker := new Walker(home, tree, 0, n => n == 0, 1);
    ghost var trail;
    out, trail := walker.EnforceQuota(0, NotOpened);
  }

  /** A home with one file in a directory of `.cache`. */
  function Nested(home: Path): Tree {
    map[home := Entry(Directory, 0, 0), Cache(home) := Entry(Directory, 0, 0),
        Cache(home) + ["d"] := Entry(Directory, 0, 0), Cache(home) + ["d", "f"] := Entry(Regular, 1, 0)]
  }

  lemma NestedIsWellFormed(home: Path)
    ensures WellFormed(Nested(home), home) && RealPrefixes(Nested(home), home)
  {
    var t, d, f := Nested(home), Cache(home) + ["d"], Cache(home) + ["d", "f"];
    assert Parent(f) == d && Parent(d) == Cache(home) && Parent(Cache(home)) == home;
    assert forall p :: p in t ==> p == home || p == Cache(home) || p == d || p == f;
  }

  lemma NestedIsTooDeep(home: Path)
    ensures DeepTier(Nested(home), home, 0, 1, 1)
  {
    var t, d, f := Nested(home), Cache(home) + ["d"], Cache(home) + ["d", "f"];
    assert !NeverTouch(d, home) by {
      assert d[|home|..] == [".cache", "d"];
    }
    forall x | d <= x && x < f
      ensures x in t && t[x].kind.Directory? && !NeverTouch(x, home)
    {
      assert x == d;
    }
    assert Reaches(t, home, d, f);
    assert d in Children(t, Cache(home));
  }

  lemma NestedHasBytes(home: Path)
    ensures Size(Nested(home), home) >= 1
  {
    var t, f := Nested(home), Cache(home) + ["d", "f"];
    assert f in Leaves(t, home);
    SumRemove(t, Leaves(t, home), f);
  }

  lemma NestedIsHome(home: Path)
    ensures IsHome(Nested(home), home)
  {
  }

  /** A run that raises although no call fails: the directory in `.cache` is deeper than the removal can go. */
  method DepthRaises(home: Path) returns (out: Outcome)
    ensures out.Raised?
  {
    NestedIsWellFormed(home);
    NestedIsTooDeep(home);
    NestedHasBytes(home);
    NestedIsHome(home);
    hide Nested, WellFormed, RealPrefixes, DeepTier, Enforced, Size, Safe, Trail, EachTakesTargets, CacheIsCleared,
      MayGo, Precious, Failures, IsHome;
    var walker := new Walker(home, Nested(home), 0, n => false, 1);
    ghost var trail;
    out, trail := walker.EnforceQuota(0, NotOpened);
    assert out.Returned? ==> walker.Sound();
    FirstTierTooDeep(trail, home, 0, 1);
  }
}
