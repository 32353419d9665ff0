/** The resilient walk over a platform chain, its result and its event trace. */
module Executor {
  import opened Wrappers
  import opened Policy

  datatype ExecutionResult =
    ExecutionResult(status: Status, platform: string, attempted: seq<string>, attemptCount: nat, hint: Option<string>)

  datatype Probe = PreflightOk | PreflightRaised | PreflightFailed(status: Option<Status>)

  /** What a call of an adapter's `run` does; an exception comes with its classification. */
  datatype Run = Ran(result: ExecutionResult) | Threw(classified: Status)

  /** The registered adapters, and how each answers at each position of the chain. */
  datatype World = World(adapters: set<string>, probe: nat -> Probe, run: (nat, nat) -> Run)

  datatype Event =
    | Started
    | AttemptFailed(platform: string, attempt: nat, status: Status)
    | FallbackTriggered(source: string, target: Option<string>)
    | Succeeded
    | Failed

  /** A call of an adapter: its preflight, or one of its runs. */
  datatype Touch = Probed(position: nat) | RanAt(position: nat, attempt: nat)

  const ATTEMPT_CAP: nat := 2

  predicate Truthy(h: Option<string>) {
    h.Some? && h.value != ""
  }

  function NextPlatform(chain: seq<string>, i: nat): Option<string> {
    if i + 1 < |chain| then Some(chain[i + 1]) else None
  }

  /** A result made up for a platform that was not run. */
  function Synthetic(s: Status, platform: string): ExecutionResult {
    ExecutionResult(s, platform, [platform], 0, None)
  }

  function ResultOf(r: Run, platform: string, attempt: nat): ExecutionResult {
    match r
    case Ran(result) => result
    case Threw(status) => ExecutionResult(status, platform, [platform], attempt, None)
  }

  function ProbeStatus(p: Probe): Status {
    match p
    case PreflightFailed(Some(s)) => s
    case _ => ProviderUnavailable
  }

  // ---- One position of the chain ----

  datatype Verdict = Success | Halt(decision: Decision) | Leave

  /** What happens at one position: the last result there, how the walk goes on, and the bookkeeping. */
  datatype Turn = Turn(result: ExecutionResult, verdict: Verdict, events: seq<Event>, calls: seq<Touch>, runs: nat,
                       retries: nat, fallbacks: nat, hint: Option<string>)

  /** Leaving a platform on a decision. */
  function Depart(r: ExecutionResult, d: Decision, chain: seq<string>, i: nat, e: Event, call: Touch): (t: Turn)
    requires i < |chain|
    ensures t.verdict.Leave? && (t.fallbacks == 1 <==> d.action.Fallback?)
  {
    var runs := if call.RanAt? then 1 else 0;
    if d.action.Fallback? then
      Turn(r, Leave, [e, FallbackTriggered(chain[i], NextPlatform(chain, i))], [call], runs, 0, 1, d.hint)
    else Turn(r, Leave, [e], [call], runs, 0, 0, None)
  }

  function Attempts(w: World, chain: seq<string>, i: nat, attempt: nat): Turn
    requires i < |chain| && 1 <= attempt <= ATTEMPT_CAP
    decreases ATTEMPT_CAP - attempt
  {
    var r := ResultOf(w.run(i, attempt), chain[i], attempt);
    var e := AttemptFailed(r.platform, attempt, r.status);
    var d := Decide(r.status, attempt, chain[i], NextPlatform(chain, i));
    if r.status.ExecutionSucceeded? then Turn(r, Success, [], [RanAt(i, attempt)], 1, 0, 0, None)
    else if d.action.Stop? then Turn(r, Halt(d), [e], [RanAt(i, attempt)], 1, 0, 0, None)
    else if d.action.Retry? && attempt < ATTEMPT_CAP then
      var t := Attempts(w, chain, i, attempt + 1);
      t.(events := [e] + t.events, calls := [RanAt(i, attempt)] + t.calls, runs := t.runs + 1, retries := t.retries + 1)
    else Depart(r, d, chain, i, e, RanAt(i, attempt))
  }

  function TurnAt(w: World, chain: seq<string>, i: nat): Turn
    requires i < |chain|
  {
    if chain[i] !in w.adapters then
      Turn(Synthetic(ProviderUnavailable, chain[i]), Leave, [], [], 0, 0, 0, None)
    else if w.probe(i).PreflightOk? then var t := Attempts(w, chain, i, 1); t.(calls := [Probed(i)] + t.calls)
    else
      var r := Synthetic(ProbeStatus(w.probe(i)), chain[i]);
      var e := AttemptFailed(chain[i], 0, r.status);
      var d := Decide(r.status, 1, chain[i], NextPlatform(chain, i));
      if d.action.Stop? then Turn(r, Halt(d), [e], [Probed(i)], 0, 0, 0, None)
      else Depart(r, d, chain, i, e, Probed(i))
  }

  // ---- The whole walk, position by position ----

  /** Positions before `n` that the walk leaves behind. */
  ghost predicate Passes(w: World, chain: seq<string>, n: nat)
    requires n <= |chain|
  {
    forall i :: 0 <= i < n ==> TurnAt(w, chain, i).verdict.Leave?
  }

  function Attempted(w: World, chain: seq<string>, n: nat): seq<string>
    requires n <= |chain|
  {
    if n == 0 then [] else
      var before := Attempted(w, chain, n - 1);
      if chain[n - 1] in w.adapters && w.probe(n - 1).PreflightOk? && chain[n - 1] in before
      then before else before + [chain[n - 1]]
  }

  /** The hint of the last decision to fall through with one. */
  function Carry(w: World, chain: seq<string>, n: nat): Option<string>
    requires n <= |chain|
  {
    if n == 0 then None
    else if Truthy(TurnAt(w, chain, n - 1).hint) then TurnAt(w, chain, n - 1).hint
    else Carry(w, chain, n - 1)
  }

  /** What one call leaves on record: the webhook events, the calls of adapters, and three counters. */
  datatype Log = Log(events: seq<Event>, calls: seq<Touch>, runs: nat, retries: nat, fallbacks: nat)

  function Add(log: Log, t: Turn): Log {
    Log(log.events + t.events, log.calls + t.calls, log.runs + t.runs, log.retries + t.retries,
        log.fallbacks + t.fallbacks)
  }

  function LogAfter(w: World, chain: seq<string>, n: nat): Log
    requires n <= |chain|
  {
    if n == 0 then Log([Started], [], 0, 0, 0) else Add(LogAfter(w, chain, n - 1), TurnAt(w, chain, n - 1))
  }

  // ---- Results ----

  function Finalised(w: World, chain: seq<string>, n: nat): ExecutionResult
    requires n < |chain| && !TurnAt(w, chain, n).verdict.Leave?
  {
    var t := TurnAt(w, chain, n);
    var r := t.result.(attempted := Attempted(w, chain, n + 1));
    if t.verdict.Success? then
      r.(attemptCount := if r.attemptCount < 1 then 1 else r.attemptCount,
         hint := if Truthy(Carry(w, chain, n)) && !Truthy(r.hint) then Carry(w, chain, n) else r.hint)
    else r.(hint := if Truthy(t.verdict.decision.hint) && !Truthy(r.hint) then t.verdict.decision.hint else r.hint)
  }

  function Exhausted(w: World, chain: seq<string>): ExecutionResult {
    if chain == [] then ExecutionResult(ProviderUnavailable, "(none)", [], 0, None) else
      var n := |chain|;
      var last := TurnAt(w, chain, n - 1).result;
      ExecutionResult(last.status, last.platform, Attempted(w, chain, n), |Attempted(w, chain, n)|,
                      if Truthy(Carry(w, chain, n)) then Carry(w, chain, n) else last.hint)
  }

  /** The event that closes a run; a failure whose status says success closes it with none. */
  function Closing(success: bool, s: Status): seq<Event> {
    if success then [Succeeded] else if s.ExecutionSucceeded? then [] else [Failed]
  }

  // ---- The recursion gate ----

  ghost predicate Distinct(xs: seq<string>) {
    forall i, j :: 0 <= i < j < |xs| ==> xs[i] != xs[j]
  }

  predicate Accepted(lineage: seq<string>) {
    |lineage| < MAX_FALLBACK_DEPTH && |set x | x in lineage| == |lineage|
  }

  lemma {:induction false} MembersCount(xs: seq<string>)
    ensures |set x | x in xs| <= |xs|
    ensures |set x | x in xs| == |xs| <==> Distinct(xs)
  {
    if xs != [] {
      var init, last := xs[..|xs| - 1], xs[|xs| - 1];
      MembersCount(init);
      assert xs == init + [last];
      assert (set x | x in xs) == (set x | x in init) + {last};
      if last in init {
        var k :| 0 <= k < |init| && init[k] == last;
        assert xs[k] == xs[|xs| - 1];
        assert (set x | x in xs) == (set x | x in init);
      } else {
        assert Distinct(xs) ==> Distinct(init) by {
          assert forall i | 0 <= i < |init| :: init[i] == xs[i];
        }
        assert Distinct(init) ==> Distinct(xs);
      }
    }
  }

  function Refusal(lineage: seq<string>, chain: seq<string>): ExecutionResult {
    ExecutionResult(ProviderUnavailable, if chain != [] then chain[0] else "(none)", [], 0,
                    Some(if |lineage| >= MAX_FALLBACK_DEPTH then "cli.errors.recursion_depth_exceeded"
                         else "cli.errors.recursion_cycle"))
  }

  lemma GateTells(lineage: seq<string>)
    ensures Accepted(lineage) <==> |lineage| < 3 && Distinct(lineage)
    ensures Accepted(lineage) <==> !(|lineage| >= MAX_FALLBACK_DEPTH || |lineage| != |set x | x in lineage|)
  {
    MembersCount(lineage);
  }

  lemma RefusalTells(lineage: seq<string>, chain: seq<string>)
    ensures var r := Refusal(lineage, chain);
            && r.status == ProviderUnavailable && r.attempted == [] && r.attemptCount == 0
            && r.platform == (if chain == [] then "(none)" else chain[0])
            && r.hint == Some(if |lineage| >= 3 then "cli.errors.recursion_depth_exceeded"
                              else "cli.errors.recursion_cycle")
  {
  }

  function Closed(log: Log, closing: seq<Event>): Log {
    log.(events := log.events + closing)
  }

  /** What a call that ends at position `n` returns and leaves on record. */
  ghost predicate EndsAt(w: World, chain: seq<string>, n: nat, r: ExecutionResult, log: Log) {
    && n <= |chain| && Passes(w, chain, n)
    && if n == |chain| then r == Exhausted(w, chain) && log == Closed(LogAfter(w, chain, n), Closing(false, r.status))
       else
         var t := TurnAt(w, chain, n);
         && !t.verdict.Leave? && r == Finalised(w, chain, n)
         && log == Closed(LogAfter(w, chain, n + 1), Closing(t.verdict.Success?, r.status))
  }

  /** Two turns that differ in their bookkeeping only. */
  ghost predicate SameOutcome(t: Turn, u: Turn) {
    t.result == u.result && t.verdict == u.verdict && t.hint == u.hint
  }

  // ---- The loops ----

  class ResilientExecutor {
    const world: World
    var events: seq<Event>
    /** The calls of adapters this request has made. */
    ghost var calls: seq<Touch>
    var runs: nat
    var retries: nat
    var fallbacks: nat

    constructor (world: World)
      ensures this.world == world
    {
      this.world := world;
      events, calls, runs, retries, fallbacks := [], [], 0, 0, 0;
    }

    ghost function Record(): Log
      reads this
    {
      Log(events, calls, runs, retries, fallbacks)
    }

    method Emit(e: Event)
      modifies this`events
      ensures events == old(events) + [e]
    {
      events := events + [e];
    }

    /** The call of an adapter's preflight. */
    method Preflight(i: nat) returns (p: Probe)
      modifies this`calls
      ensures p == world.probe(i) && calls == old(calls) + [Probed(i)]
    {
      p, calls := world.probe(i), calls + [Probed(i)];
    }

    /** The call of an adapter's run. */
    method RunAdapter(chain: seq<string>, i: nat, attempt: nat) returns (r: ExecutionResult)
      requires i < |chain|
      modifies this`calls, this`runs
      ensures r == ResultOf(world.run(i, attempt), chain[i], attempt)
      ensures calls == old(calls) + [RanAt(i, attempt)] && runs == old(runs) + 1
    {
      r, calls, runs := ResultOf(world.run(i, attempt), chain[i], attempt), calls + [RanAt(i, attempt)], runs + 1;
    }

    method Execute(chain: seq<string>, lineage: seq<string>) returns (r: ExecutionResult, ghost n: nat)
      modifies this
      ensures Accepted(lineage) <==> |lineage| < 3 && Distinct(lineage)
      ensures Accepted(lineage) ==> EndsAt(world, chain, n, r, Record())
      ensures !Accepted(lineage) ==>
        && Record() == Log([Started, Failed], [], 0, 0, 0)
        && r.status == ProviderUnavailable && r.attempted == [] && r.attemptCount == 0
        && r.platform == (if chain == [] then "(none)" else chain[0])
        && r.hint == Some(if |lineage| >= 3 then "cli.errors.recursion_depth_exceeded"
                          else "cli.errors.recursion_cycle")
    {
      hide Accepted, Refusal, EndsAt, Distinct;
      GateTells(lineage);
      RefusalTells(lineage, chain);
      events, calls, runs, retries, fallbacks, n := [], [], 0, 0, 0, 0;
      Emit(Started);
      if |lineage| >= MAX_FALLBACK_DEPTH || |lineage| != |set x | x in lineage| {
        r := Refusal(lineage, chain);
        Emit(Failed);
        return;
      }
      r, n := Walk(chain);
    }

    method Walk(chain: seq<string>) returns (r: ExecutionResult, ghost n: nat)
      requires Record() == Log([Started], [], 0, 0, 0)
      modifies this
      ensures EndsAt(world, chain, n, r, Record())
    {
      hide TurnAt, Attempts, Decide, NextPlatform;
      var attempted: seq<string>, carry: Option<string>, last: Option<ExecutionResult> := [], None, None;
      var index := 0;
      while index < |chain|
        invariant index <= |chain| && Passes(world, chain, index)
        invariant attempted == Attempted(world, chain, index) && carry == Carry(world, chain, index)
        invariant last == if index == 0 then None else Some(TurnAt(world, chain, index - 1).result)
        invariant Record() == LogAfter(world, chain, index)
        decreases |chain| - index
      {
        n := index;
        var result, verdict, hint, ran := Visit(chain, index);
        if !ran || chain[index] !in attempted {
          attempted := attempted + [chain[index]];
        }
        last := Some(result);
        match verdict {
          case Success =>
            r := FinaliseSuccess(result, attempted, carry);
            return;
          case Halt(d) =>
            r := FinaliseStop(result, d, attempted);
            return;
          case Leave =>
            carry := if Truthy(hint) then hint else carry;
            index := index + 1;
        }
      }
      n := |chain|;
      if last == None {
        r := ExecutionResult(ProviderUnavailable, "(none)", [], 0, None);
      } else {
        var f := last.value;
        r := ExecutionResult(f.status, f.platform, attempted, |attempted|, if Truthy(carry) then carry else f.hint);
      }
      EmitFailed(r.status);
    }

    /** The missing adapter, the failed preflight, or the attempts, at one position; `ran` says whether it came to the
      * last. */
    method Visit(chain: seq<string>, index: nat)
      returns (result: ExecutionResult, verdict: Verdict, hint: Option<string>, ran: bool)
      requires index < |chain|
      modifies this
      ensures result == TurnAt(world, chain, index).result
      ensures verdict == TurnAt(world, chain, index).verdict
      ensures hint == TurnAt(world, chain, index).hint
      ensures ran <==> chain[index] in world.adapters && world.probe(index).PreflightOk?
      ensures Record() == Add(old(Record()), TurnAt(world, chain, index))
    {
      var platform := chain[index];
      verdict, hint, ran := Leave, None, false;
      if platform !in world.adapters {
        result := Synthetic(ProviderUnavailable, platform);
        return;
      }
      var probe := Preflight(index);
      if !probe.PreflightOk? {
        result := Synthetic(ProbeStatus(probe), platform);
        Emit(AttemptFailed(platform, 0, result.status));
        var d := Decide(result.status, 1, platform, NextPlatform(chain, index));
        if d.action.Stop? {
          verdict := Halt(d);
          return;
        }
        hint := Drop(chain, index, d);
        return;
      }
      ran := true;
      result, verdict, hint := RunPlatform(chain, index);
    }

    /** Recording a fallback, and the hint it carries on. */
    method Drop(chain: seq<string>, index: nat, d: Decision) returns (hint: Option<string>)
      requires index < |chain|
      modifies this`events, this`fallbacks
      ensures hint == if d.action.Fallback? then d.hint else None
      ensures fallbacks == old(fallbacks) + if d.action.Fallback? then 1 else 0
      ensures events == old(events) +
              if d.action.Fallback? then [FallbackTriggered(chain[index], NextPlatform(chain, index))] else []
    {
      hint := None;
      if d.action.Fallback? {
        fallbacks, hint := fallbacks + 1, d.hint;
        Emit(FallbackTriggered(chain[index], NextPlatform(chain, index)));
      }
    }

    method RunPlatform(chain: seq<string>, index: nat)
      returns (result: ExecutionResult, verdict: Verdict, hint: Option<string>)
      requires index < |chain|
      modifies this
      ensures result == Attempts(world, chain, index, 1).result
      ensures verdict == Attempts(world, chain, index, 1).verdict
      ensures hint == Attempts(world, chain, index, 1).hint
      ensures Record() == Add(old(Record()), Attempts(world, chain, index, 1))
    {
      hide Attempts, Add;
      ghost var whole, before := Attempts(world, chain, index, 1), Record();
      var ended;
      result, ended, hint := Attempt(chain, index, 1);
      var attempt := 2;
      while ended == None
        invariant 1 <= attempt
        invariant match ended
                  case None => attempt <= ATTEMPT_CAP && SameOutcome(whole, Attempts(world, chain, index, attempt))
                               && Add(before, whole) == Add(Record(), Attempts(world, chain, index, attempt))
                  case Some(v) => result == whole.result && v == whole.verdict && hint == whole.hint
                                  && Record() == Add(before, whole)
        decreases ended == None, ATTEMPT_CAP - attempt
      {
        result, ended, hint := Attempt(chain, index, attempt);
        attempt := attempt + 1;
      }
      verdict := ended.value;
    }

    /** One attempt; no verdict means another one is due. */
    method Attempt(chain: seq<string>, index: nat, attempt: nat)
      returns (result: ExecutionResult, verdict: Option<Verdict>, hint: Option<string>)
      requires index < |chain| && 1 <= attempt <= ATTEMPT_CAP
      modifies this
      ensures var t := Attempts(world, chain, index, attempt);
              match verdict
              case Some(v) =>
                result == t.result && v == t.verdict && hint == t.hint && Record() == Add(old(Record()), t)
              case None =>
                attempt < ATTEMPT_CAP && SameOutcome(t, Attempts(world, chain, index, attempt + 1))
                && Add(old(Record()), t) == Add(Record(), Attempts(world, chain, index, attempt + 1))
    {
      hide Decide, ResultOf;
      result := RunAdapter(chain, index, attempt);
      if result.status.ExecutionSucceeded? {
        return result, Some(Success), None;
      }
      Emit(AttemptFailed(result.platform, attempt, result.status));
      var d := Decide(result.status, attempt, chain[index], NextPlatform(chain, index));
      if d.action.Stop? {
        return result, Some(Halt(d)), None;
      }
      if d.action.Retry? && attempt < ATTEMPT_CAP {
        retries := retries + 1;
        return result, None, None;
      }
      verdict := Some(Leave);
      hint := Drop(chain, index, d);
    }

    method EmitFailed(s: Status)
      modifies this`events
      ensures Record() == Closed(old(Record()), Closing(false, s))
    {
      if !s.ExecutionSucceeded? {
        Emit(Failed);
      }
    }

    method FinaliseStop(result: ExecutionResult, d: Decision, attempted: seq<string>) returns (r: ExecutionResult)
      modifies this`events
      ensures r == result.(attempted := attempted,
                           hint := if Truthy(d.hint) && !Truthy(result.hint) then d.hint else result.hint)
      ensures Record() == Closed(old(Record()), Closing(false, r.status))
    {
      r := result.(attempted := attempted);
      if Truthy(d.hint) && !Truthy(r.hint) {
        r := r.(hint := d.hint);
      }
      EmitFailed(r.status);
    }

    method FinaliseSuccess(result: ExecutionResult, attempted: seq<string>, carry: Option<string>)
      returns (r: ExecutionResult)
      modifies this`events
      ensures r == result.(attempted := attempted,
                           attemptCount := if result.attemptCount < 1 then 1 else result.attemptCount,
                           hint := if Truthy(carry) && !Truthy(result.hint) then carry else result.hint)
      ensures Record() == Closed(old(Record()), [Succeeded])
    {
      r := result.(attempted := attempted, attemptCount := if result.attemptCount < 1 then 1 else result.attemptCount);
      if Truthy(carry) && !Truthy(r.hint) {
        r := r.(hint := carry);
      }
      Emit(Succeeded);
    }
  }
}
