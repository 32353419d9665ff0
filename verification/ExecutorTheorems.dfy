/** What every run of the resilient walk satisfies. */
module ExecutorTheorems {
  import opened Wrappers
  import opened Policy
  import opened Executor

  // ---- One outcome per chain and world ----

  /** The walk has one ending: the position, the result and the record are determined. */
  lemma EndingIsUnique(w: World, chain: seq<string>, n: nat, r: ExecutionResult, log: Log,
                       n2: nat, r2: ExecutionResult, log2: Log)
    requires EndsAt(w, chain, n, r, log) && EndsAt(w, chain, n2, r2, log2)
    ensures n == n2 && r == r2 && log == log2
  {
    hide Attempts, TurnAt, Finalised, Exhausted;
    if n < n2 || n2 < n {
      assert false;
    }
  }

  /** Attempts with nothing but the policy to end them. */
  function Uncapped(w: World, chain: seq<string>, i: nat, attempt: nat): Turn
    requires i < |chain| && 1 <= attempt
    decreases if attempt == 1 then 1 else 0
  {
    var r := ResultOf(w.run(i, attempt), chain[i], attempt);
    var e := AttemptFailed(r.platform, attempt, r.status);
    var d := Decide(r.status, attempt, chain[i], NextPlatform(chain, i));
    if r.status.ExecutionSucceeded? then Turn(r, Success, [], [RanAt(i, attempt)], 1, 0, 0, None)
    else if d.action.Stop? then Turn(r, Halt(d), [e], [RanAt(i, attempt)], 1, 0, 0, None)
    else if d.action.Retry? then
      var t := Uncapped(w, chain, i, attempt + 1);
      t.(events := [e] + t.events, calls := [RanAt(i, attempt)] + t.calls, runs := t.runs + 1, retries := t.retries + 1)
    else Depart(r, d, chain, i, e, RanAt(i, attempt))
  }

  lemma CapNeverBites(w: World, chain: seq<string>, i: nat)
    requires i < |chain|
    ensures Attempts(w, chain, i, 1) == Uncapped(w, chain, i, 1)
  {
    hide Decide;
    assert Attempts(w, chain, i, 2) == Uncapped(w, chain, i, 2);
  }

  /** Where the walk from position `i` ends. */
  function Resolve(w: World, chain: seq<string>, i: nat): (n: nat)
    requires i <= |chain|
    ensures i <= n <= |chain| && (n < |chain| ==> !TurnAt(w, chain, n).verdict.Leave?)
    ensures forall j | i <= j < n :: TurnAt(w, chain, j).verdict.Leave?
    decreases |chain| - i
  {
    if i == |chain| || !TurnAt(w, chain, i).verdict.Leave? then i else Resolve(w, chain, i + 1)
  }

  /** Every chain has an ending, for every world. */
  lemma EveryRunEnds(w: World, chain: seq<string>) returns (n: nat, r: ExecutionResult, log: Log)
    ensures EndsAt(w, chain, n, r, log) && n == Resolve(w, chain, 0)
  {
    hide Attempts, TurnAt;
    n := Resolve(w, chain, 0);
    if n == |chain| {
      r := Exhausted(w, chain);
      log := Closed(LogAfter(w, chain, n), Closing(false, r.status));
    } else {
      r := Finalised(w, chain, n);
      log := Closed(LogAfter(w, chain, n + 1), Closing(TurnAt(w, chain, n).verdict.Success?, r.status));
    }
  }

  // ---- Nothing beyond the end is touched ----

  ghost predicate SameUpTo(w: World, v: World, n: nat) {
    && w.adapters == v.adapters
    && forall i: nat | i < n :: w.probe(i) == v.probe(i) && forall a: nat :: w.run(i, a) == v.run(i, a)
  }

  lemma SameTurn(w: World, v: World, chain: seq<string>, n: nat, i: nat)
    requires SameUpTo(w, v, n) && i < n && i < |chain|
    ensures TurnAt(w, chain, i) == TurnAt(v, chain, i)
  {
    hide Decide;
    assert w.probe(i) == v.probe(i) && w.run(i, 1) == v.run(i, 1) && w.run(i, 2) == v.run(i, 2);
    assert Attempts(w, chain, i, 2) == Attempts(v, chain, i, 2);
  }

  lemma {:induction false} SamePrefix(w: World, v: World, chain: seq<string>, m: nat, n: nat)
    requires SameUpTo(w, v, m) && n <= m && n <= |chain|
    ensures Attempted(w, chain, n) == Attempted(v, chain, n) && Carry(w, chain, n) == Carry(v, chain, n)
    ensures LogAfter(w, chain, n) == LogAfter(v, chain, n) && (Passes(w, chain, n) ==> Passes(v, chain, n))
  {
    hide TurnAt;
    if n > 0 {
      SamePrefix(w, v, chain, m, n - 1);
      SameTurn(w, v, chain, m, n - 1);
    }
  }

  /** A run that ends at position `n` depends on no adapter beyond it: whatever those would answer, and whether or not
    * they would raise, the result and the record are the same. */
  lemma LaterAnswersDoNotMatter(w: World, v: World, chain: seq<string>, n: nat, r: ExecutionResult, log: Log)
    requires EndsAt(w, chain, n, r, log) && SameUpTo(w, v, n + 1)
    ensures EndsAt(v, chain, n, r, log)
  {
    hide TurnAt;
    SamePrefix(w, v, chain, n + 1, n);
    if n < |chain| {
      SameTurn(w, v, chain, n + 1, n);
      SamePrefix(w, v, chain, n + 1, n + 1);
    } else if n > 0 {
      SameTurn(w, v, chain, n + 1, n - 1);
    }
  }

  // ---- Which adapters were called ----

  /** A missing adapter is not called; the others are preflighted once, and run only after a passed preflight. */
  lemma TurnCalls(w: World, chain: seq<string>, i: nat)
    requires i < |chain|
    ensures TurnAt(w, chain, i).calls ==
            if chain[i] !in w.adapters then []
            else if !Ready(w, chain, i) then [Probed(i)]
            else [Probed(i), RanAt(i, 1)] + if TurnAt(w, chain, i).retries == 1 then [RanAt(i, 2)] else []
    ensures TurnAt(w, chain, i).retries <= 1
  {
    hide HintKey;
    if Ready(w, chain, i) {
      assert Attempts(w, chain, i, 2).calls == [RanAt(i, 2)] && Attempts(w, chain, i, 2).retries == 0;
      assert [Probed(i)] + [RanAt(i, 1)] == [Probed(i), RanAt(i, 1)];
      assert [Probed(i)] + ([RanAt(i, 1)] + [RanAt(i, 2)]) == [Probed(i), RanAt(i, 1)] + [RanAt(i, 2)];
    }
  }

  /** The calls made at the first `n` positions are about those positions, and say which were preflighted and run. */
  ghost predicate CallsTell(w: World, chain: seq<string>, n: nat, calls: seq<Touch>)
    requires n <= |chain|
  {
    && (forall t | t in calls :: t.position < n)
    && (forall i: nat | i < n :: Probed(i) in calls <==> chain[i] in w.adapters)
    && (forall i: nat | i < n :: RanAt(i, 1) in calls <==> Ready(w, chain, i))
  }

  lemma {:induction false} LogCallsTell(w: World, chain: seq<string>, n: nat)
    requires n <= |chain|
    ensures CallsTell(w, chain, n, LogAfter(w, chain, n).calls)
  {
    hide TurnAt, Ready, CallsTell;
    if n == 0 {
      NoCallsTell(w, chain);
    } else {
      LogCallsTell(w, chain, n - 1);
      CallsTellMore(w, chain, n - 1, LogAfter(w, chain, n - 1).calls);
    }
  }

  lemma NoCallsTell(w: World, chain: seq<string>)
    ensures CallsTell(w, chain, 0, [])
  {
  }

  lemma CallsTellMore(w: World, chain: seq<string>, n: nat, calls: seq<Touch>)
    requires n < |chain| && CallsTell(w, chain, n, calls)
    ensures CallsTell(w, chain, n + 1, calls + TurnAt(w, chain, n).calls)
  {
    hide TurnAt, Ready;
    TurnCalls(w, chain, n);
    ReadyIsRegistered(w, chain, n);
  }

  lemma ReadyIsRegistered(w: World, chain: seq<string>, i: nat)
    requires i < |chain|
    ensures Ready(w, chain, i) ==> chain[i] in w.adapters
  {
  }

  /** A run that ends at position `n` calls the adapters of the positions it visits and no other: each registered one is
    * preflighted, each whose preflight passes is run. */
  lemma OnlyVisitedAreCalled(w: World, chain: seq<string>, n: nat, r: ExecutionResult, log: Log)
    requires EndsAt(w, chain, n, r, log)
    ensures CallsTell(w, chain, Visited(chain, n), log.calls)
    ensures forall t | t in log.calls :: t.position <= n && t.position < |chain|
  {
    hide TurnAt, LogAfter, Finalised, Exhausted, Passes;
    LogCallsTell(w, chain, Visited(chain, n));
  }

  function RunCount(calls: seq<Touch>): nat {
    if calls == [] then 0 else RunCount(calls[..|calls| - 1]) + if calls[|calls| - 1].RanAt? then 1 else 0
  }

  lemma {:induction false} RunCountConcat(x: seq<Touch>, y: seq<Touch>)
    ensures RunCount(x + y) == RunCount(x) + RunCount(y)
  {
    if y == [] {
      assert x + y == x;
    } else {
      RunCountConcat(x, y[..|y| - 1]);
      assert (x + y)[..|x + y| - 1] == x + y[..|y| - 1];
    }
  }

  lemma TurnRuns(w: World, chain: seq<string>, i: nat)
    requires i < |chain|
    ensures TurnAt(w, chain, i).runs == RunCount(TurnAt(w, chain, i).calls)
  {
    hide TurnAt, RunCount, Ready;
    TurnCalls(w, chain, i);
    TurnAccount(w, chain, i);
    AtMostOneRetry(w, chain, i);
    ReadyIsRegistered(w, chain, i);
    ShortCounts(i);
  }

  /** The run counter counts the runs among the calls. */
  lemma {:induction false} RunsAreCalls(w: World, chain: seq<string>, n: nat)
    requires n <= |chain|
    ensures LogAfter(w, chain, n).runs == RunCount(LogAfter(w, chain, n).calls)
  {
    hide TurnAt;
    if n > 0 {
      RunsAreCalls(w, chain, n - 1);
      RunCountConcat(LogAfter(w, chain, n - 1).calls, TurnAt(w, chain, n - 1).calls);
      TurnRuns(w, chain, n - 1);
    }
  }

  lemma ShortCounts(i: nat)
    ensures RunCount([]) == 0 && RunCount([Probed(i)]) == 0
    ensures RunCount([Probed(i), RanAt(i, 1)] + []) == 1
    ensures RunCount([Probed(i), RanAt(i, 1)] + [RanAt(i, 2)]) == 2
  {
    RunCountConcat([Probed(i), RanAt(i, 1)], []);
    RunCountConcat([Probed(i), RanAt(i, 1)], [RanAt(i, 2)]);
    assert [Probed(i), RanAt(i, 1)] == [Probed(i)] + [RanAt(i, 1)];
    RunCountConcat([Probed(i)], [RanAt(i, 1)]);
  }

  // ---- What was attempted ----

  /** How many positions the walk visits when it ends at `n`. */
  function Visited(chain: seq<string>, n: nat): nat {
    if n < |chain| then n + 1 else |chain|
  }

  lemma {:induction false} AttemptedIsPrefix(w: World, chain: seq<string>, n: nat)
    requires n <= |chain| && Distinct(chain)
    ensures Attempted(w, chain, n) == chain[..n]
  {
    if n > 0 {
      AttemptedIsPrefix(w, chain, n - 1);
      assert chain[..n] == chain[..n - 1] + [chain[n - 1]];
    }
  }

  /** On a chain that names no platform twice, the platforms reported as attempted are the ones visited. */
  lemma AttemptedIsVisited(w: World, chain: seq<string>, n: nat, r: ExecutionResult, log: Log)
    requires EndsAt(w, chain, n, r, log) && Distinct(chain)
    ensures r.attempted == chain[..Visited(chain, n)]
  {
    hide TurnAt;
    AttemptedIsPrefix(w, chain, Visited(chain, n));
  }

  // ---- No silent fallback ----

  /** How one position relates to the policy. */
  lemma TurnFollowsPolicy(w: World, chain: seq<string>, i: nat)
    requires i < |chain|
    ensures var t := TurnAt(w, chain, i);
            && (UserFixable(t.result.status) ==>
                  if NextPlatform(chain, i) == Some("opencode")
                  then t.verdict.Leave? && t.hint == Some(HintKey(t.result.status, chain[i]))
                  else t.verdict.Halt?)
            && (t.verdict.Leave? ==> !t.result.status.ExecutionSucceeded?)
            && (t.verdict.Leave? ==> (t.hint.Some? <==> UserFixable(t.result.status)))
            && (t.verdict.Success? <==> t.result.status.ExecutionSucceeded? && Ready(w, chain, i))
  {
    hide HintKey;
    var next := NextPlatform(chain, i);
    if Ready(w, chain, i) {
      var r := ResultOf(w.run(i, 1), chain[i], 1);
      if Decide(r.status, 1, chain[i], next).action.Retry? {
        assert TurnAt(w, chain, i).result == ResultOf(w.run(i, 2), chain[i], 2);
      } else {
        assert TurnAt(w, chain, i).result == r;
      }
    }
  }

  /** The adapter exists and its preflight passes. */
  predicate Ready(w: World, chain: seq<string>, i: nat)
    requires i < |chain|
  {
    chain[i] in w.adapters && w.probe(i).PreflightOk?
  }

  /** A failure the user can repair ends the run where it shows, unless the local floor comes next: that position is the
    * last one any adapter is called at. */
  lemma NoSilentFallback(w: World, chain: seq<string>, n: nat, r: ExecutionResult, log: Log, i: nat)
    requires EndsAt(w, chain, n, r, log)
    requires i < Visited(chain, n) && UserFixable(TurnAt(w, chain, i).result.status)
    ensures i == n <==> NextPlatform(chain, i) != Some("opencode")
    ensures i == n ==> r.status == TurnAt(w, chain, i).result.status && Truthy(r.hint)
    ensures i == n ==> log.events[|log.events| - 1] == Failed
    ensures i == n ==> log.calls != [] && log.calls[|log.calls| - 1].position == i
    ensures i == n ==> forall t | t in log.calls :: t.position <= i
  {
    hide TurnAt, Attempted, HintKey, Ready, CallsTell;
    TurnFollowsPolicy(w, chain, i);
    OnlyVisitedAreCalled(w, chain, n, r, log);
    if i == n {
      HaltHint(w, chain, n);
      TurnCalls(w, chain, n);
      FixableIsRegistered(w, chain, n);
    }
  }

  lemma FixableIsRegistered(w: World, chain: seq<string>, i: nat)
    requires i < |chain| && UserFixable(TurnAt(w, chain, i).result.status)
    ensures chain[i] in w.adapters
  {
  }

  lemma HaltHint(w: World, chain: seq<string>, n: nat)
    requires n < |chain| && TurnAt(w, chain, n).verdict.Halt? && UserFixable(TurnAt(w, chain, n).result.status)
    ensures TurnAt(w, chain, n).verdict.decision.hint == Some(HintKey(TurnAt(w, chain, n).result.status, chain[n]))
    ensures Truthy(TurnAt(w, chain, n).verdict.decision.hint)
  {
    hide Wire;
  }

  /** No adapter puts a hint on its own result. */
  ghost predicate HintFree(w: World) {
    forall i, a :: w.run(i, a).Ran? ==> !Truthy(w.run(i, a).result.hint)
  }

  lemma {:induction false} CarriedHint(w: World, chain: seq<string>, n: nat) returns (i: nat)
    requires n <= |chain| && Passes(w, chain, n)
    ensures Truthy(Carry(w, chain, n)) ==>
      i < n && UserFixable(TurnAt(w, chain, i).result.status) && NextPlatform(chain, i) == Some("opencode")
      && Carry(w, chain, n) == Some(HintKey(TurnAt(w, chain, i).result.status, chain[i]))
    ensures forall j | (if Truthy(Carry(w, chain, n)) then i + 1 else 0) <= j < n ::
              !UserFixable(TurnAt(w, chain, j).result.status)
  {
    hide TurnAt, HintKey;
    i := 0;
    if n > 0 {
      TurnFollowsPolicy(w, chain, n - 1);
      var t := TurnAt(w, chain, n - 1);
      if UserFixable(t.result.status) {
        KeyIsTruthy(t.result.status, chain[n - 1]);
        i := n - 1;
      } else {
        i := CarriedHint(w, chain, n - 1);
      }
    }
  }

  lemma KeyIsTruthy(s: Status, platform: string)
    ensures Truthy(Some(HintKey(s, platform)))
  {
    hide Wire;
  }

  lemma SuccessHint(w: World, chain: seq<string>, n: nat, r: ExecutionResult, log: Log)
    requires EndsAt(w, chain, n, r, log) && n < |chain| && r.status.ExecutionSucceeded? && HintFree(w)
    ensures TurnAt(w, chain, n).verdict.Success? ==>
              r.hint == if Truthy(Carry(w, chain, n)) then Carry(w, chain, n) else TurnAt(w, chain, n).result.hint
    ensures TurnAt(w, chain, n).verdict.Success? ==> !Truthy(TurnAt(w, chain, n).result.hint)
  {
    hide Decide, LogAfter, Attempted, Carry;
    assert TurnAt(w, chain, n).verdict.Success? ==> Ready(w, chain, n);
  }

  /** A run that succeeds carries a hint exactly when it passed over a platform whose failure the user can repair; the
    * local floor then came right after that platform, and the hint names the last such failure. */
  lemma HintOnSuccess(w: World, chain: seq<string>, n: nat, r: ExecutionResult, log: Log)
    requires EndsAt(w, chain, n, r, log) && n < |chain| && TurnAt(w, chain, n).verdict.Success? && HintFree(w)
    ensures Truthy(r.hint) <==> exists i :: 0 <= i < n && UserFixable(TurnAt(w, chain, i).result.status)
    ensures forall i | 0 <= i < n && UserFixable(TurnAt(w, chain, i).result.status) ::
              && chain[i + 1] == "opencode"
              && (Distinct(chain) ==> r.hint == Some(HintKey(TurnAt(w, chain, i).result.status, chain[i])))
  {
    hide TurnAt, HintKey, LogAfter, Attempted;
    TurnFollowsPolicy(w, chain, n);
    SuccessHint(w, chain, n, r, log);
    var k := CarriedHint(w, chain, n);
    forall i | 0 <= i < n && UserFixable(TurnAt(w, chain, i).result.status)
      ensures chain[i + 1] == "opencode" && i <= k && Truthy(Carry(w, chain, n))
      ensures Distinct(chain) ==> i == k
    {
      TurnFollowsPolicy(w, chain, i);
    }
  }

  // ---- Accounting ----

  /** Positions before `n` that satisfy a condition. */
  function Count(n: nat, here: nat -> bool): nat
  {
    if n == 0 then 0 else Count(n - 1, here) + if here(n - 1) then 1 else 0
  }

  function Missing(w: World, chain: seq<string>, n: nat): nat {
    Count(n, (i: nat) => i < |chain| && chain[i] !in w.adapters)
  }

  function ReadyCount(w: World, chain: seq<string>, n: nat): nat {
    Count(n, (i: nat) => i < |chain| && Ready(w, chain, i))
  }

  /** Positions whose preflight fails with a status the policy would retry: they are left without a fallback. */
  predicate RetriedPreflight(w: World, chain: seq<string>, i: nat)
    requires i < |chain|
  {
    chain[i] in w.adapters && !w.probe(i).PreflightOk? && Transient(ProbeStatus(w.probe(i)))
  }

  predicate Transient(s: Status) {
    s.RetryableNetworkFailure? || s.Timeout? || s.UnknownFailure?
  }

  function Unrecorded(w: World, chain: seq<string>, n: nat): nat {
    Count(n, (i: nat) => i < |chain| && RetriedPreflight(w, chain, i))
  }

  lemma TurnAccount(w: World, chain: seq<string>, i: nat)
    requires i < |chain|
    ensures var t := TurnAt(w, chain, i);
            && t.fallbacks + (if chain[i] !in w.adapters then 1 else 0)
               + (if RetriedPreflight(w, chain, i) then 1 else 0)
               == (if t.verdict.Leave? then 1 else 0)
            && t.runs == t.retries + (if Ready(w, chain, i) then 1 else 0) && t.retries <= t.runs
  {
    hide HintKey;
    assert Ready(w, chain, i) ==> Attempts(w, chain, i, 2).runs == 1;
  }

  /** Every position passed over is a recorded fallback, a missing adapter, or a preflight the policy would have
    * retried; adapters run once per retry and once per passed preflight, at most twice per platform. */
  lemma {:induction false} PassedAccount(w: World, chain: seq<string>, n: nat)
    requires n <= |chain| && Passes(w, chain, n)
    ensures LogAfter(w, chain, n).fallbacks + Missing(w, chain, n) + Unrecorded(w, chain, n) == n
    ensures LogAfter(w, chain, n).runs == LogAfter(w, chain, n).retries + ReadyCount(w, chain, n)
    ensures LogAfter(w, chain, n).retries <= ReadyCount(w, chain, n) <= n
  {
    hide TurnAt;
    if n > 0 {
      PassedAccount(w, chain, n - 1);
      TurnAccount(w, chain, n - 1);
      AtMostOneRetry(w, chain, n - 1);
    }
  }

  lemma AtMostOneRetry(w: World, chain: seq<string>, i: nat)
    requires i < |chain|
    ensures TurnAt(w, chain, i).retries <= if Ready(w, chain, i) then 1 else 0
  {
    hide HintKey;
    assert Attempts(w, chain, i, 2).retries == 0;
  }

  lemma RunAccount(w: World, chain: seq<string>, n: nat, r: ExecutionResult, log: Log)
    requires EndsAt(w, chain, n, r, log)
    ensures log.fallbacks + Missing(w, chain, n) + Unrecorded(w, chain, n) == n
    ensures log.runs == log.retries + ReadyCount(w, chain, Visited(chain, n)) && log.runs == RunCount(log.calls)
    ensures log.retries <= ReadyCount(w, chain, Visited(chain, n)) && log.runs <= 2 * |chain|
  {
    hide TurnAt, Finalised, Exhausted;
    PassedAccount(w, chain, n);
    RunsAreCalls(w, chain, Visited(chain, n));
    if n < |chain| {
      TurnAccount(w, chain, n);
      AtMostOneRetry(w, chain, n);
      TurnFollowsPolicy(w, chain, n);
    }
  }

  // ---- The trace ----

  datatype Phase = Fresh | Walking | Failing | Ended | Broken

  /** The order in which the webhook events may come: one `Started`, failures, a fallback only right after a failure,
    * one terminal event. */
  function Next(p: Phase, e: Event): Phase {
    match (p, e)
    case (Fresh, Started) => Walking
    case (Walking, AttemptFailed(_, _, _)) => Failing
    case (Failing, AttemptFailed(_, _, _)) => Failing
    case (Failing, FallbackTriggered(_, _)) => Walking
    case (Walking, Succeeded) => Ended
    case (Failing, Succeeded) => Ended
    case (Walking, Failed) => Ended
    case (Failing, Failed) => Ended
    case _ => Broken
  }

  function Parse(p: Phase, es: seq<Event>): (q: Phase)
    ensures es == [] ==> q == p
    decreases |es|
  {
    if es == [] then p else Parse(Next(p, es[0]), es[1..])
  }

  lemma {:induction false} ParseAppend(p: Phase, xs: seq<Event>, ys: seq<Event>)
    ensures Parse(p, xs + ys) == Parse(Parse(p, xs), ys)
    decreases |xs|
  {
    if xs == [] {
      assert xs + ys == ys;
    } else {
      assert (xs + ys)[1..] == xs[1..] + ys;
      ParseAppend(Next(p, xs[0]), xs[1..], ys);
    }
  }

  lemma ParseOneOrTwo(p: Phase, e: Event, f: Event)
    ensures Parse(p, [e]) == Next(p, e) && Parse(p, [e, f]) == Next(Next(p, e), f)
  {
    assert [e, f][1..] == [f];
    assert Parse(Next(p, e), [f]) == Next(Next(p, e), f);
  }

  lemma ParseDeparture(p: Phase, e: Event, chain: seq<string>, i: nat, r: ExecutionResult, d: Decision, call: Touch)
    requires i < |chain| && (p.Walking? || p.Failing?) && e.AttemptFailed?
    ensures Parse(p, [e]).Failing?
    ensures var q := Parse(p, Depart(r, d, chain, i, e, call).events); q.Failing? || q.Walking?
  {
    ParseOneOrTwo(p, e, FallbackTriggered(chain[i], NextPlatform(chain, i)));
  }

  lemma ParseTurn(w: World, chain: seq<string>, i: nat, p: Phase)
    requires i < |chain| && (p.Walking? || p.Failing?)
    ensures var q := Parse(p, TurnAt(w, chain, i).events);
            && (q.Walking? || q.Failing?) && (TurnAt(w, chain, i).verdict.Halt? ==> q.Failing?)
  {
    hide Attempts, Decide, HintKey, ResultOf, Parse, Depart;
    if Ready(w, chain, i) {
      ParseAttempts(w, chain, i, 1, p);
    } else if chain[i] in w.adapters {
      var r := Synthetic(ProbeStatus(w.probe(i)), chain[i]);
      var d := Decide(r.status, 1, chain[i], NextPlatform(chain, i));
      ParseDeparture(p, AttemptFailed(chain[i], 0, r.status), chain, i, r, d, Probed(i));
      var e := AttemptFailed(chain[i], 0, r.status);
      assert d.action.Stop? || TurnAt(w, chain, i) == Depart(r, d, chain, i, e, Probed(i));
    }
  }

  lemma {:induction false} ParseAttempts(w: World, chain: seq<string>, i: nat, attempt: nat, p: Phase)
    requires i < |chain| && 1 <= attempt <= ATTEMPT_CAP && (p.Walking? || p.Failing?)
    ensures var q := Parse(p, Attempts(w, chain, i, attempt).events);
            && (q.Walking? || q.Failing?) && (Attempts(w, chain, i, attempt).verdict.Halt? ==> q.Failing?)
    decreases ATTEMPT_CAP - attempt
  {
    hide Decide, HintKey, ResultOf, Parse, Depart;
    var r := ResultOf(w.run(i, attempt), chain[i], attempt);
    var e := AttemptFailed(r.platform, attempt, r.status);
    var d := Decide(r.status, attempt, chain[i], NextPlatform(chain, i));
    ParseDeparture(p, e, chain, i, r, d, RanAt(i, attempt));
    if attempt < ATTEMPT_CAP {
      ParseAttempts(w, chain, i, attempt + 1, Failing);
      ParseAppend(p, [e], Attempts(w, chain, i, attempt + 1).events);
    }
  }

  lemma {:induction false} ParseLog(w: World, chain: seq<string>, n: nat)
    requires n <= |chain|
    ensures var q := Parse(Fresh, LogAfter(w, chain, n).events);
            && (q.Walking? || q.Failing?)
            && (n > 0 && TurnAt(w, chain, n - 1).verdict.Halt? ==> q.Failing?)
  {
    hide TurnAt;
    if n > 0 {
      ParseLog(w, chain, n - 1);
      var before := LogAfter(w, chain, n - 1).events;
      ParseTurn(w, chain, n - 1, Parse(Fresh, before));
      ParseAppend(Fresh, before, TurnAt(w, chain, n - 1).events);
    }
  }

  /** A preflight that fails with the status of a success: no helper does that. */
  predicate FalseSuccess(w: World, chain: seq<string>, n: nat) {
    n < |chain| && chain[n] in w.adapters && w.probe(n) == PreflightFailed(Some(ExecutionSucceeded))
  }

  /** Every run's trace is a `Started`, failures with fallbacks only directly after one, and one terminal event, which
    * says whether the run succeeded. The exception is a preflight that fails claiming success: that run returns a
    * success and closes with no event. */
  lemma TraceIsWellFormed(w: World, chain: seq<string>, n: nat, r: ExecutionResult, log: Log)
    requires EndsAt(w, chain, n, r, log)
    ensures Parse(Fresh, log.events) == if FalseSuccess(w, chain, n) then Failing else Ended
    ensures r.status.ExecutionSucceeded? <==> log.events[|log.events| - 1] == Succeeded || FalseSuccess(w, chain, n)
  {
    hide TurnAt, LogAfter, Attempted, Carry;
    var m := Visited(chain, n);
    ParseLog(w, chain, m);
    if n < |chain| {
      TurnFollowsPolicy(w, chain, n);
      HaltStatus(w, chain, n);
      ParseAppend(Fresh, LogAfter(w, chain, m).events, Closing(TurnAt(w, chain, n).verdict.Success?, r.status));
    } else {
      if n > 0 {
        TurnFollowsPolicy(w, chain, n - 1);
      }
      ParseAppend(Fresh, LogAfter(w, chain, m).events, Closing(false, r.status));
    }
  }

  lemma HaltStatus(w: World, chain: seq<string>, n: nat)
    requires n < |chain| && !TurnAt(w, chain, n).verdict.Leave?
    ensures var t := TurnAt(w, chain, n);
            FalseSuccess(w, chain, n) <==> t.verdict.Halt? && t.result.status.ExecutionSucceeded?
  {
    hide HintKey;
  }
}
