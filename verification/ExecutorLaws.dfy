/** What each answer of an adapter does to a run, in the run's own result, events and calls. */
module ExecutorLaws {
  import opened Wrappers
  import opened Policy
  import opened Executor
  import opened ExecutorTheorems

  /** These events come one right after the other. */
  ghost predicate InTrace(events: seq<Event>, part: seq<Event>) {
    exists k :: StartsAt(events, part, k)
  }

  ghost predicate StartsAt(events: seq<Event>, part: seq<Event>, k: nat) {
    k + |part| <= |events| && events[k..k + |part|] == part
  }

  lemma TraceExtends(events: seq<Event>, more: seq<Event>, part: seq<Event>)
    requires InTrace(events, part)
    ensures InTrace(events + more, part)
  {
    var k: nat :| StartsAt(events, part, k);
    assert (events + more)[k..k + |part|] == part;
    assert StartsAt(events + more, part, k);
  }

  lemma {:induction false} TurnInLog(w: World, chain: seq<string>, n: nat, i: nat)
    requires i < n <= |chain|
    ensures InTrace(LogAfter(w, chain, n).events, TurnAt(w, chain, i).events)
  {
    hide TurnAt, InTrace;
    var before, mine := LogAfter(w, chain, n - 1).events, TurnAt(w, chain, n - 1).events;
    if i == n - 1 {
      Last(before, mine);
    } else {
      TurnInLog(w, chain, n - 1, i);
      TraceExtends(before, mine, TurnAt(w, chain, i).events);
    }
  }

  lemma Last(before: seq<Event>, part: seq<Event>)
    ensures InTrace(before + part, part)
  {
    assert StartsAt(before + part, part, |before|);
  }

  /** The events of a visited position are in the trace together, and those of the last one right before the end. */
  lemma TurnInTrace(w: World, chain: seq<string>, n: nat, r: ExecutionResult, log: Log, i: nat)
    requires EndsAt(w, chain, n, r, log) && i < Visited(chain, n)
    ensures InTrace(log.events, TurnAt(w, chain, i).events)
    ensures i < n <==> TurnAt(w, chain, i).verdict.Leave?
    ensures i == n && TurnAt(w, chain, i).verdict.Halt? && !r.status.ExecutionSucceeded? ==>
              InTrace(log.events, TurnAt(w, chain, i).events + [Failed])
  {
    hide TurnAt, InTrace;
    var m := Visited(chain, n);
    TurnInLog(w, chain, m, i);
    var closing := log.events[|LogAfter(w, chain, m).events|..];
    assert log.events == LogAfter(w, chain, m).events + closing;
    TraceExtends(LogAfter(w, chain, m).events, closing, TurnAt(w, chain, i).events);
    if i == n && TurnAt(w, chain, i).verdict.Halt? && !r.status.ExecutionSucceeded? {
      var before, mine := LogAfter(w, chain, n).events, TurnAt(w, chain, n).events;
      assert log.events == before + (mine + [Failed]);
      Last(before, mine + [Failed]);
    }
  }

  // ---- A platform without an adapter ----

  /** It is passed over in silence; only as the last one does it give the run its status. */
  lemma MissingAdapter(w: World, chain: seq<string>, n: nat, r: ExecutionResult, log: Log, i: nat)
    requires EndsAt(w, chain, n, r, log) && i < Visited(chain, n) && chain[i] !in w.adapters
    ensures i < n && Probed(i) !in log.calls
    ensures i == |chain| - 1 ==> r.status == ProviderUnavailable && r.platform == chain[i]
  {
    hide LogAfter, Attempts, Carry, Attempted;
    TurnInTrace(w, chain, n, r, log, i);
    OnlyVisitedAreCalled(w, chain, n, r, log);
  }

  // ---- A preflight that does not pass ----

  /** What a preflight reports: one that raises, or fails without saying why, counts as a missing provider. */
  ghost predicate Reports(p: Probe, s: Status) {
    || (p == PreflightRaised && s == ProviderUnavailable)
    || (p == PreflightFailed(None) && s == ProviderUnavailable)
    || p == PreflightFailed(Some(s))
  }

  ghost predicate Refused(w: World, chain: seq<string>, i: nat, s: Status) {
    i < |chain| && chain[i] in w.adapters && Reports(w.probe(i), s)
  }

  ghost function After(chain: seq<string>, i: nat): Option<string> {
    if i + 1 < |chain| then Some(chain[i + 1]) else None
  }

  lemma RefusedTurn(w: World, chain: seq<string>, i: nat, s: Status)
    requires Refused(w, chain, i, s)
    ensures TurnAt(w, chain, i).result == ExecutionResult(s, chain[i], [chain[i]], 0, None)
    ensures TurnAt(w, chain, i).calls == [Probed(i)]
    ensures var t, e, d := TurnAt(w, chain, i), AttemptFailed(chain[i], 0, s), Decide(s, 1, chain[i], After(chain, i));
            && t.events == (if d.action.Fallback? then [e, FallbackTriggered(chain[i], After(chain, i))] else [e])
            && t.verdict == (if d.action.Stop? then Halt(d) else Leave)
  {
    hide Decide;
  }

  /** An unavailable or exhausted provider, a raising preflight included, is passed over with a recorded fallback. */
  lemma UnavailableFallsBack(w: World, chain: seq<string>, n: nat, r: ExecutionResult, log: Log, i: nat, s: Status)
    requires EndsAt(w, chain, n, r, log) && i < Visited(chain, n) && Refused(w, chain, i, s)
    requires s == ProviderUnavailable || s == QuotaExhausted
    ensures i < n && RanAt(i, 1) !in log.calls
    ensures InTrace(log.events, [AttemptFailed(chain[i], 0, s), FallbackTriggered(chain[i], After(chain, i))])
    ensures i == |chain| - 1 ==> r.status == s && r.platform == chain[i]
  {
    hide TurnAt, LogAfter, Attempted, Carry, InTrace;
    RefusedTurn(w, chain, i, s);
    TurnInTrace(w, chain, n, r, log, i);
    OnlyVisitedAreCalled(w, chain, n, r, log);
    RefusedIsNotReady(w, chain, i, s);
  }

  lemma RefusedIsNotReady(w: World, chain: seq<string>, i: nat, s: Status)
    requires Refused(w, chain, i, s)
    ensures !Ready(w, chain, i)
  {
  }

  /** A run whose preflight raises anywhere goes on to the next platform. */
  lemma RaisingPreflightFallsBack(w: World, chain: seq<string>, n: nat, r: ExecutionResult, log: Log, i: nat)
    requires EndsAt(w, chain, n, r, log) && i < Visited(chain, n) && chain[i] in w.adapters
    requires w.probe(i) == PreflightRaised || w.probe(i) == PreflightFailed(None)
    ensures i < n
    ensures InTrace(log.events,
                    [AttemptFailed(chain[i], 0, ProviderUnavailable), FallbackTriggered(chain[i], After(chain, i))])
    ensures i == |chain| - 1 ==> r.status == ProviderUnavailable
  {
    UnavailableFallsBack(w, chain, n, r, log, i, ProviderUnavailable);
  }

  /** A preflight failure the user can repair falls through to the local floor, or ends the run with its status and its
    * key. */
  lemma RepairableRefusal(w: World, chain: seq<string>, n: nat, r: ExecutionResult, log: Log, i: nat, s: Status)
    requires EndsAt(w, chain, n, r, log) && i < Visited(chain, n) && Refused(w, chain, i, s)
    requires s == NeedsAuth || s == WorkspaceUntrusted || s == ApiDisabled
    ensures After(chain, i) == Some("opencode") ==>
              i < n && InTrace(log.events,
                               [AttemptFailed(chain[i], 0, s), FallbackTriggered(chain[i], After(chain, i))])
    ensures After(chain, i) != Some("opencode") ==>
              && i == n && r.status == s && r.platform == chain[i] && r.hint == Some(HintKey(s, chain[i]))
              && InTrace(log.events, [AttemptFailed(chain[i], 0, s), Failed])
  {
    hide TurnAt, LogAfter, Attempted, Carry, InTrace, HintKey;
    RefusedTurn(w, chain, i, s);
    TurnInTrace(w, chain, n, r, log, i);
    KeyIsTruthy(s, chain[i]);
    assert [AttemptFailed(chain[i], 0, s)] + [Failed] == [AttemptFailed(chain[i], 0, s), Failed];
  }

  /** The remaining statuses: transient ones pass over the platform with no fallback recorded, a workflow failure ends
    * the run, and so does a preflight that fails claiming success. */
  lemma OtherRefusal(w: World, chain: seq<string>, n: nat, r: ExecutionResult, log: Log, i: nat, s: Status)
    requires EndsAt(w, chain, n, r, log) && i < Visited(chain, n) && Refused(w, chain, i, s)
    ensures s == RetryableNetworkFailure || s == Timeout || s == UnknownFailure ==>
              i < n && InTrace(log.events, [AttemptFailed(chain[i], 0, s)])
    ensures s == WorkflowFailed ==>
              i == n && r.status == s && r.hint == Some("cli.errors.workflow_failed")
              && InTrace(log.events, [AttemptFailed(chain[i], 0, s), Failed])
    ensures s == ExecutionSucceeded ==> i == n && r.status == s && r.platform == chain[i]
  {
    hide TurnAt, LogAfter, Attempted, Carry, InTrace;
    RefusedTurn(w, chain, i, s);
    TurnInTrace(w, chain, n, r, log, i);
    assert [AttemptFailed(chain[i], 0, s)] + [Failed] == [AttemptFailed(chain[i], 0, s), Failed];
  }

  // ---- The runs of an adapter ----

  /** What the `a`-th run at position `i` came to; an exception comes to its classification. */
  ghost predicate Comes(w: World, chain: seq<string>, i: nat, a: nat, r: ExecutionResult) {
    i < |chain| &&
    match w.run(i, a)
    case Ran(result) => r == result
    case Threw(s) => r == ExecutionResult(s, chain[i], [chain[i]], a, None)
  }

  predicate Again(s: Status) {
    s == RetryableNetworkFailure || s == Timeout || s == UnknownFailure
  }

  predicate GoesOn(s: Status, next: Option<string>) {
    || s == QuotaExhausted || s == ProviderUnavailable || s == RetryableNetworkFailure || s == Timeout
    || ((s == NeedsAuth || s == WorkspaceUntrusted || s == ApiDisabled) && next == Some("opencode"))
  }

  /** An attempt after which there is no other. */
  lemma LastAttempt(w: World, chain: seq<string>, i: nat, a: nat, r: ExecutionResult)
    requires Comes(w, chain, i, a, r) && (a == 2 || (a == 1 && !Again(r.status)))
    ensures var t, e := Attempts(w, chain, i, a), AttemptFailed(r.platform, a, r.status);
            && t.result == r && t.calls == [RanAt(i, a)]
            && (t.verdict.Success? <==> r.status.ExecutionSucceeded?)
            && (t.verdict.Leave? <==> GoesOn(r.status, After(chain, i)))
            && t.events == (if r.status.ExecutionSucceeded? then [] else [e])
                           + (if t.verdict.Leave? then [FallbackTriggered(chain[i], After(chain, i))] else [])
  {
    hide HintKey;
  }

  lemma FirstOfTwo(w: World, chain: seq<string>, i: nat, r: ExecutionResult)
    requires Comes(w, chain, i, 1, r) && Again(r.status)
    ensures var t, u := Attempts(w, chain, i, 1), Attempts(w, chain, i, 2);
            && t.result == u.result && t.verdict == u.verdict && t.calls == [RanAt(i, 1)] + u.calls
            && t.events == [AttemptFailed(r.platform, 1, r.status)] + u.events
  {
    hide HintKey;
  }

  /** The turn at a position whose preflight passes, run by run. */
  lemma RunTurn(w: World, chain: seq<string>, i: nat, r1: ExecutionResult, r2: ExecutionResult)
    requires i < |chain| && Ready(w, chain, i) && Comes(w, chain, i, 1, r1) && Comes(w, chain, i, 2, r2)
    ensures var t, two := TurnAt(w, chain, i), Again(r1.status);
            var last := if two then r2 else r1;
            var e1, e2 := AttemptFailed(r1.platform, 1, r1.status), AttemptFailed(r2.platform, 2, r2.status);
            var f := FallbackTriggered(chain[i], After(chain, i));
            && t.result == last
            && t.calls == [Probed(i), RanAt(i, 1)] + (if two then [RanAt(i, 2)] else [])
            && (t.verdict.Success? <==> last.status.ExecutionSucceeded?)
            && (t.verdict.Leave? <==> GoesOn(last.status, After(chain, i)))
            && t.events == (if two then [e1] else [])
                           + (if last.status.ExecutionSucceeded? then [] else if two then [e2] else [e1])
                           + (if t.verdict.Leave? then [f] else [])
  {
    hide Attempts, Again, GoesOn, Comes, Decide;
    if Again(r1.status) {
      FirstOfTwo(w, chain, i, r1);
      LastAttempt(w, chain, i, 2, r2);
    } else {
      LastAttempt(w, chain, i, 1, r1);
    }
  }

  /** What the runs at a visited position do to the whole: when there is a second one, when the walk goes on, and how it
    * ends there otherwise. */
  lemma RunOutcome(w: World, chain: seq<string>, n: nat, r: ExecutionResult, log: Log, i: nat,
                   r1: ExecutionResult, r2: ExecutionResult)
    requires EndsAt(w, chain, n, r, log) && i < Visited(chain, n) && Ready(w, chain, i)
    requires Comes(w, chain, i, 1, r1) && Comes(w, chain, i, 2, r2)
    ensures var last := if Again(r1.status) then r2 else r1;
            && (i < n <==> GoesOn(last.status, After(chain, i)))
            && (i == n || i == |chain| - 1 ==> r.status == last.status && r.platform == last.platform)
            && (i == n && last.status.ExecutionSucceeded? ==>
                  && r.attemptCount == (if last.attemptCount < 1 then 1 else last.attemptCount)
                  && log.events[|log.events| - 1] == Succeeded)
            && (i == n && !last.status.ExecutionSucceeded? ==>
                  && log.events[|log.events| - 1] == Failed
                  && r.attemptCount == last.attemptCount
                  && (if last.hint == None || last.hint == Some("") then r.hint.Some? && r.hint.value != ""
                      else r.hint == last.hint))
    ensures Again(r1.status) ==> InTrace(log.events, [AttemptFailed(r1.platform, 1, r1.status)])
    ensures Again(r1.status) && i < n ==>
              InTrace(log.events, [AttemptFailed(r1.platform, 1, r1.status), AttemptFailed(r2.platform, 2, r2.status),
                                   FallbackTriggered(chain[i], After(chain, i))])
    ensures !Again(r1.status) && i < n ==>
              InTrace(log.events,
                      [AttemptFailed(r1.platform, 1, r1.status), FallbackTriggered(chain[i], After(chain, i))])
  {
    hide TurnAt, LogAfter, Attempted, Carry, InTrace, Ready, Comes, HintKey;
    RunTurn(w, chain, i, r1, r2);
    TurnInTrace(w, chain, n, r, log, i);
    HaltsWithHint(w, chain, i);
    if Again(r1.status) {
      FirstOf(log.events, TurnAt(w, chain, i).events, AttemptFailed(r1.platform, 1, r1.status));
    }
    var f := FallbackTriggered(chain[i], After(chain, i));
    var e1, e2 := AttemptFailed(r1.platform, 1, r1.status), AttemptFailed(r2.platform, 2, r2.status);
    assert [e1] + [e2] + [f] == [e1, e2, f] && [] + [e1] + [f] == [e1, f];
  }

  lemma HaltsWithHint(w: World, chain: seq<string>, i: nat)
    requires i < |chain| && Ready(w, chain, i)
    ensures TurnAt(w, chain, i).verdict.Halt? ==> Truthy(TurnAt(w, chain, i).verdict.decision.hint)
    ensures TurnAt(w, chain, i).verdict.Halt? ==> !TurnAt(w, chain, i).result.status.ExecutionSucceeded?
  {
    hide HintKey;
  }

  lemma FirstOf(events: seq<Event>, part: seq<Event>, e: Event)
    requires InTrace(events, part) && part != [] && part[0] == e
    ensures InTrace(events, [e])
  {
    var k: nat :| StartsAt(events, part, k);
    assert events[k..k + |part|][0] == e;
    assert events[k..k + 1] == [e];
    assert StartsAt(events, [e], k);
  }

  /** A second run is made exactly when the first one failed in a way that may pass, and a third one never. */
  lemma SecondRun(w: World, chain: seq<string>, n: nat, r: ExecutionResult, log: Log, i: nat, r1: ExecutionResult,
                  r2: ExecutionResult)
    requires EndsAt(w, chain, n, r, log) && i < Visited(chain, n) && Ready(w, chain, i)
    requires Comes(w, chain, i, 1, r1) && Comes(w, chain, i, 2, r2)
    ensures RanAt(i, 2) in log.calls <==> Again(r1.status)
    ensures forall a | RanAt(i, a) in log.calls :: a == 1 || a == 2
  {
    hide TurnAt, LogAfter, Ready, Comes;
    RunTurn(w, chain, i, r1, r2);
    CallsAt(w, chain, Visited(chain, n), i);
  }

  /** The calls about one position are those made there. */
  lemma {:induction false} CallsAt(w: World, chain: seq<string>, n: nat, i: nat)
    requires n <= |chain| && i < n
    ensures forall t: Touch | t.position == i :: t in LogAfter(w, chain, n).calls <==> t in TurnAt(w, chain, i).calls
  {
    hide TurnAt, Ready;
    TurnCalls(w, chain, n - 1);
    if i < n - 1 {
      CallsAt(w, chain, n - 1, i);
    } else {
      LogCallsTell(w, chain, n - 1);
    }
  }

  // ---- Results ----

  /** A chain without platforms. */
  lemma EmptyChain(w: World, n: nat, r: ExecutionResult, log: Log)
    requires EndsAt(w, [], n, r, log)
    ensures r == ExecutionResult(ProviderUnavailable, "(none)", [], 0, None)
    ensures log.events == [Started, Failed] && log.calls == []
  {
  }

  lemma {:induction false} AttemptedHas(w: World, chain: seq<string>, n: nat, p: string)
    requires n <= |chain|
    ensures p in Attempted(w, chain, n) <==> p in chain[..n]
  {
    if n > 0 {
      AttemptedHas(w, chain, n - 1, p);
      assert chain[..n] == chain[..n - 1] + [chain[n - 1]];
    }
  }

  /** The platforms reported as attempted are those visited; a run past the end counts them. */
  lemma AttemptedAreVisited(w: World, chain: seq<string>, n: nat, r: ExecutionResult, log: Log)
    requires EndsAt(w, chain, n, r, log)
    ensures forall p :: p in r.attempted <==> p in chain[..Visited(chain, n)]
    ensures n == |chain| ==> r.attemptCount == |r.attempted|
  {
    hide TurnAt, LogAfter, Carry, Attempted;
    forall p
      ensures p in r.attempted <==> p in chain[..Visited(chain, n)]
    {
      AttemptedHas(w, chain, Visited(chain, n), p);
    }
  }

  /** A visit is reported, unless it came to a run and the platform had been visited before. */
  ghost predicate Reported(w: World, chain: seq<string>, i: nat) {
    i < |chain| && !(chain[i] in w.adapters && w.probe(i).PreflightOk? && chain[i] in chain[..i])
  }

  lemma {:induction false} AttemptedCount(w: World, chain: seq<string>, n: nat)
    requires n <= |chain|
    ensures |Attempted(w, chain, n)| == |set i: nat | i < n && Reported(w, chain, i)|
    ensures (forall i: nat | i < n :: chain[i] in w.adapters && w.probe(i).PreflightOk?) ==>
              Distinct(Attempted(w, chain, n))
  {
    if n > 0 {
      AttemptedCount(w, chain, n - 1);
      AttemptedHas(w, chain, n - 1, chain[n - 1]);
      var before, now := set i: nat | i < n - 1 && Reported(w, chain, i), set i: nat | i < n && Reported(w, chain, i);
      assert now == before + if Reported(w, chain, n - 1) then {n - 1} else {};
    }
  }

  /** Every visit is reported as attempted but for a further run of a platform; where all preflights pass, each platform
    * is reported once. */
  lemma ReportedOnce(w: World, chain: seq<string>, n: nat, r: ExecutionResult, log: Log)
    requires EndsAt(w, chain, n, r, log)
    ensures |r.attempted| == |set i: nat | i < Visited(chain, n) && Reported(w, chain, i)|
    ensures (forall i: nat | i < Visited(chain, n) :: chain[i] in w.adapters && w.probe(i).PreflightOk?) ==>
              Distinct(r.attempted)
  {
    hide TurnAt, LogAfter, Carry, Attempted;
    AttemptedCount(w, chain, Visited(chain, n));
  }

  /** A run past the end carries the key of the last repairable failure it passed over, or the last result's own
    * hint. */
  lemma HintOnExhaustion(w: World, chain: seq<string>, n: nat, r: ExecutionResult, log: Log)
    requires EndsAt(w, chain, n, r, log) && n == |chain| && chain != [] && HintFree(w)
    ensures Truthy(r.hint) <==> exists i :: 0 <= i < n && UserFixable(TurnAt(w, chain, i).result.status)
    ensures forall i | 0 <= i < n && UserFixable(TurnAt(w, chain, i).result.status) && Distinct(chain) ::
              r.hint == Some(HintKey(TurnAt(w, chain, i).result.status, chain[i]))
  {
    hide TurnAt, HintKey, LogAfter, Attempted, Carry;
    var k := CarriedHint(w, chain, n);
    NoHintOfItsOwn(w, chain, n - 1);
    forall i | 0 <= i < n && UserFixable(TurnAt(w, chain, i).result.status)
      ensures i <= k && Truthy(Carry(w, chain, n))
      ensures Distinct(chain) ==> i == k
    {
      TurnFollowsPolicy(w, chain, i);
    }
  }

  lemma NoHintOfItsOwn(w: World, chain: seq<string>, i: nat)
    requires i < |chain| && HintFree(w)
    ensures !Truthy(TurnAt(w, chain, i).result.hint)
  {
    hide HintKey, Decide;
  }
}
