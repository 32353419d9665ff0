/** What holds over whole interleavings of token rotation. */
module TokenTheorems {
  import opened Wrappers
  import opened Interleavings
  import opened TokenRotation

  ghost predicate NoClear(acts: seq<Action>) {
    forall i :: 0 <= i < |acts| ==> !(acts[i].Exchanged? && acts[i].reply.Rejected?)
  }

  lemma RunInv(c: Client, acts: seq<Action>)
    requires Init(c) && Runs(STEPS, c, acts)
    ensures Inv(RunTo(STEPS, c, acts))
    ensures NoClear(acts) ==> !RunTo(STEPS, c, acts).cleared
  {
    hide Inv, Step, Enabled;
    InitInv(c);
    forall t, a | Inv(t) && Enabled(t, a)
      ensures Inv(Step(t, a))
    {
      StepInv(t, a);
    }
    Invariant(STEPS, t => Inv(t), c, acts);
    if NoClear(acts) {
      NotCleared(c, acts);
    }
  }

  lemma {:induction false} NotCleared(c: Client, acts: seq<Action>)
    requires Runs(STEPS, c, acts) && NoClear(acts) && !c.cleared
    ensures !RunTo(STEPS, c, acts).cleared
    decreases |acts|
  {
    hide Step, Enabled;
    if acts != [] {
      ClearedOnlyByRejection(c, acts[0]);
      NotCleared(Step(c, acts[0]), acts[1..]);
    }
  }

  lemma ClearedOnlyByRejection(c: Client, a: Action)
    requires Enabled(c, a)
    ensures Step(c, a).cleared <==> c.cleared || (a.Exchanged? && a.reply.Rejected?)
    ensures c.retired <= Step(c, a).retired
  {
  }

  lemma RetiredGrows(c: Client, acts: seq<Action>)
    requires Runs(STEPS, c, acts)
    ensures c.retired <= RunTo(STEPS, c, acts).retired
  {
    hide Step, Enabled;
    forall t, a | Enabled(t, a)
      ensures t.retired <= Step(t, a).retired
    {
      ClearedOnlyByRejection(t, a);
    }
    Invariant(STEPS, (t: Client) => c.retired <= t.retired, c, acts);
  }

  /** Once a successor of `s` is stored, no call sends `s` again, however early it captured it. */
  lemma NoReuseOfRotatedSecret(c: Client, x: seq<Action>, y: seq<Action>, a: Action, s: Secret)
    requires Init(c) && Runs(STEPS, c, x + y) && NoClear(x + y)
    requires Runs(STEPS, c, x) && s in RunTo(STEPS, c, x).retired
    requires Enabled(RunTo(STEPS, c, x + y), a)
    ensures Sends(RunTo(STEPS, c, x + y), a) != Some(s)
  {
    RunInv(c, x + y);
    Concat(STEPS, c, x, y);
    RetiredGrows(RunTo(STEPS, c, x), y);
    if Sends(RunTo(STEPS, c, x + y), a).Some? {
      SendsCurrentOrCleared(RunTo(STEPS, c, x + y), a);
    }
  }

  /** What is sent is the in-memory secret, or there is none because a rejection cleared it. */
  lemma SendsCurrentOrCleared(c: Client, a: Action)
    requires Inv(c) && Enabled(c, a) && Sends(c, a).Some?
    ensures c.refresh == Sends(c, a) || (c.refresh.None? && c.cleared)
    ensures !c.cleared ==> Sends(c, a).value !in c.retired
  {
    assert Linked(c, c.calls[a.id].phase);
  }

  /** Without that hypothesis: a call about to compare a retired secret sends it exactly when the
      in-memory refresh token is gone. */
  lemma ReuseExactly(c: Client, id: int)
    requires Inv(c) && Enabled(c, Compare(id)) && c.calls[id].phase.secret in c.retired
    ensures Sends(c, Compare(id)) == Some(c.calls[id].phase.secret) <==> c.refresh.None?
  {
  }

  // A rejected exchange clears the pair; a call that had captured an older secret then sends it again.

  const LOGIN: Client :=
    Client(Some("a0"), Some("s0"), None, map[], Pair(Some("a0"), Some("s0")), {"s0"}, {}, false)

  /** Calls 1 and 2 have both captured the first secret. */
  const TWO_WAITING: Client :=
    LOGIN.(calls := map[1 := Call(Waiting("s0"), 1, 0), 2 := Call(Waiting("s0"), 1, 0)])

  /** Call 1 has rotated the pair and gone. */
  const ROTATION: Client :=
    Client(Some("a1"), Some("s1"), None, map[1 := Call(Done(BadHeader), 1, 1), 2 := Call(Waiting("s0"), 1, 0)],
           Pair(Some("a1"), Some("s1")), {"s0", "s1"}, {"s0"}, false)

  /** Call 3 was refused, and its exchange of the second secret was rejected. */
  const REJECTION: Client :=
    ROTATION.(token := None, refresh := None, cleared := true,
        calls := ROTATION.calls[3 := Call(Done(Unauthorized), 1, 1)])

  lemma ReachTwoWaiting() returns (acts: seq<Action>)
    ensures Leads(STEPS, LOGIN, acts, TWO_WAITING)
  {
    acts := [Start(1), Answer(1, true, true), Capture(1), Start(2), Answer(2, true, true), Capture(2)];
  }

  /** Call 1 holds the lock and a new pair. */
  const GRANT: Client :=
    TWO_WAITING.(lock := Some(1), issued := {"s0", "s1"},
                calls := TWO_WAITING.calls[1 := Call(Granted("s0", "a1", Some("s1")), 1, 1)])

  lemma ReachGrant() returns (acts: seq<Action>)
    ensures Leads(STEPS, TWO_WAITING, acts, GRANT)
  {
    hide Runs, RunTo, Leads;
    var c1 := Step(TWO_WAITING, Acquire(1));
    var c2 := Step(c1, Compare(1));
    One(STEPS, TWO_WAITING, Acquire(1));
    One(STEPS, c1, Compare(1));
    One(STEPS, c2, Exchanged(1, Rotated("a1", "s1")));
    var c3 := Step(c2, Exchanged(1, Rotated("a1", "s1")));
    assert c3.calls == GRANT.calls && c3.issued == GRANT.issued;
    acts := Onward(STEPS, TWO_WAITING, [Acquire(1)], c1, [Compare(1)], c2);
    acts := Onward(STEPS, TWO_WAITING, acts, c2, [Exchanged(1, Rotated("a1", "s1"))], GRANT);
  }

  /** Call 1 has stored the new pair in memory. */
  const STORED: Client :=
    GRANT.(token := Some("a1"), refresh := Some("s1"), retired := {"s0"},
           calls := GRANT.calls[1 := Call(RefreshSet("a1", Some("s1")), 1, 1)])

  lemma ReachStored() returns (acts: seq<Action>)
    ensures Leads(STEPS, GRANT, acts, STORED)
  {
    acts := [StoreToken(1), StoreRefresh(1)];
  }

  lemma ReachRotation() returns (acts: seq<Action>)
    ensures Leads(STEPS, STORED, acts, ROTATION)
  {
    acts := [Persist(1), Send(1, false)];
  }

  /** Call 3 is about to exchange the second secret. */
  const SECOND: Client := ROTATION.(lock := Some(3), calls := ROTATION.calls[3 := Call(Holding("s1"), 1, 0)])

  lemma ReachSecond() returns (acts: seq<Action>)
    ensures Leads(STEPS, ROTATION, acts, SECOND)
  {
    acts := [Start(3), Answer(3, true, true), Capture(3), Acquire(3)];
  }

  lemma ReachRejection() returns (acts: seq<Action>)
    ensures Leads(STEPS, SECOND, acts, REJECTION)
  {
    hide Runs, RunTo, Leads;
    var c1 := Step(SECOND, Compare(3));
    var c2 := Step(c1, Exchanged(3, Rejected));
    One(STEPS, SECOND, Compare(3));
    One(STEPS, c1, Exchanged(3, Rejected));
    One(STEPS, c2, ClearToken(3));
    assert Step(c2, ClearToken(3)).calls == REJECTION.calls;
    acts := Onward(STEPS, SECOND, [Compare(3)], c1, [Exchanged(3, Rejected)], c2);
    acts := Onward(STEPS, SECOND, acts, c2, [ClearToken(3)], REJECTION);
  }

  /** Call 2 has waited through all of it. */
  const STALE: Client := REJECTION.(lock := Some(2), calls := REJECTION.calls[2 := Call(Holding("s0"), 1, 0)])

  lemma ReachStale() returns (acts: seq<Action>)
    ensures Leads(STEPS, REJECTION, acts, STALE)
  {
    acts := [Acquire(2)];
  }

  lemma ReuseAfterRejection() returns (acts: seq<Action>, a: Action)
    ensures Init(LOGIN) && Runs(STEPS, LOGIN, acts) && Enabled(RunTo(STEPS, LOGIN, acts), a)
    ensures Sends(RunTo(STEPS, LOGIN, acts), a).Some?
        && Sends(RunTo(STEPS, LOGIN, acts), a).value in RunTo(STEPS, LOGIN, acts).retired
  {
    var waiting := ReachTwoWaiting();
    acts := AfterTwoWaiting(waiting);
    a := Compare(2);
    assert Runs(STEPS, LOGIN, acts) && RunTo(STEPS, LOGIN, acts) == STALE;
  }

  lemma AfterTwoWaiting(waiting: seq<Action>) returns (acts: seq<Action>)
    requires Leads(STEPS, LOGIN, waiting, TWO_WAITING)
    ensures Leads(STEPS, LOGIN, acts, STALE)
  {
    hide *;
    var next := ReachGrant();
    acts := Onward(STEPS, LOGIN, waiting, TWO_WAITING, next, GRANT);
    next := ReachStored();
    acts := Onward(STEPS, LOGIN, acts, GRANT, next, STORED);
    next := ReachRotation();
    acts := Onward(STEPS, LOGIN, acts, STORED, next, ROTATION);
    next := ReachSecond();
    acts := Onward(STEPS, LOGIN, acts, ROTATION, next, SECOND);
    next := ReachRejection();
    acts := Onward(STEPS, LOGIN, acts, SECOND, next, REJECTION);
    next := ReachStale();
    acts := Onward(STEPS, LOGIN, acts, REJECTION, next, STALE);
  }

  /** What a call resends its request with is the access token in memory, and stays it until the answer: the call holds
    * the lock all that time. */
  lemma ResendsTheCurrentToken(c: Client, acts: seq<Action>, id: int)
    requires Init(c) && Runs(STEPS, c, acts) && id in RunTo(STEPS, c, acts).calls
    ensures var d := RunTo(STEPS, c, acts);
            && (d.calls[id].phase.Retrying? ==> d.lock == Some(id) && d.token == Some(d.calls[id].phase.access))
            && (Enabled(d, Send(id, true)) ==>
                  var e := Step(d, Send(id, true));
                  e.calls[id].phase.Retrying? && Some(e.calls[id].phase.access) == d.token == e.token)
  {
    hide Agree, Counted;
    RunInv(c, acts);
    assert LockOk(RunTo(STEPS, c, acts), id) && Linked(RunTo(STEPS, c, acts), RunTo(STEPS, c, acts).calls[id].phase);
  }

  /** Whenever no call holds the lock, memory holds the pair the callback last recorded. */
  lemma MemoryMatchesStore(c: Client, acts: seq<Action>)
    requires Init(c) && Runs(STEPS, c, acts) && NoClear(acts)
    ensures RunTo(STEPS, c, acts).lock.None? ==>
      RunTo(STEPS, c, acts).store == Pair(RunTo(STEPS, c, acts).token, RunTo(STEPS, c, acts).refresh)
  {
    RunInv(c, acts);
  }

  /** Each call sends its request at most twice and exchanges at most once, and at most one call is
      between taking and releasing the lock. */
  lemma BoundedSends(c: Client, acts: seq<Action>, i: int, j: int)
    requires Init(c) && Runs(STEPS, c, acts) && i in RunTo(STEPS, c, acts).calls && j in RunTo(STEPS, c, acts).calls
    ensures RunTo(STEPS, c, acts).calls[i].sends <= 2 && RunTo(STEPS, c, acts).calls[i].exchanges <= 1
    ensures InLock(RunTo(STEPS, c, acts).calls[i].phase) && InLock(RunTo(STEPS, c, acts).calls[j].phase) ==> i == j
  {
    RunInv(c, acts);
    var d := RunTo(STEPS, c, acts);
    assert LockOk(d, i) && LockOk(d, j) && Counted(d.calls[i]);
  }

  ghost predicate NoEmptyToken(c: Client) {
    forall id :: id in c.calls ==> c.calls[id].phase != Done(EmptyToken)
  }

  lemma StepNoEmptyToken(c: Client, a: Action)
    requires Inv(c) && Enabled(c, a) && NoEmptyToken(c)
    ensures NoEmptyToken(Step(c, a))
  {
    if a.Compare? {
      assert Linked(c, c.calls[a.id].phase);
    }
  }

  /** "racing refresh left empty token" is never returned, rejections included. */
  lemma {:induction false} EmptyTokenUnreachable(c: Client, acts: seq<Action>)
    requires Inv(c) && Runs(STEPS, c, acts) && NoEmptyToken(c)
    ensures NoEmptyToken(RunTo(STEPS, c, acts))
    decreases |acts|
  {
    if acts != [] {
      StepInv(c, acts[0]);
      StepNoEmptyToken(c, acts[0]);
      EmptyTokenUnreachable(Step(c, acts[0]), acts[1..]);
    }
  }
}
