/** Trees of dispatched requests under the recursion gate. */
module Dispatch {
  import opened Executor
  import opened ExecutorTheorems
  import opened Policy

  /** A request made on behalf of an agent, with the requests that agent dispatches while it runs. A child's lineage is
    * its parent's, extended by the dispatching agent. */
  datatype Request = Request(agent: string, world: World, chain: seq<string>, dispatches: seq<Request>)

  /** Executions the gate accepts in the tree below a request; a refused request runs nothing and dispatches nothing. */
  function Executions(t: Request, lineage: seq<string>): nat
    decreases t, |t.dispatches| + 1
  {
    if !Accepted(lineage) then 0 else 1 + ExecutionsOfAll(t, lineage + [t.agent], |t.dispatches|)
  }

  function ExecutionsOfAll(t: Request, lineage: seq<string>, n: nat): nat
    requires n <= |t.dispatches|
    decreases t, n
  {
    if n == 0 then 0 else ExecutionsOfAll(t, lineage, n - 1) + Executions(t.dispatches[n - 1], lineage)
  }

  /** Calls of an adapter's `run` in one accepted execution. */
  function OwnRuns(t: Request): nat {
    LogAfter(t.world, t.chain, Visited(t.chain, Resolve(t.world, t.chain, 0))).runs
  }

  function AdapterRuns(t: Request, lineage: seq<string>): nat
    decreases t, |t.dispatches| + 1
  {
    if !Accepted(lineage) then 0 else OwnRuns(t) + AdapterRunsOfAll(t, lineage + [t.agent], |t.dispatches|)
  }

  function AdapterRunsOfAll(t: Request, lineage: seq<string>, n: nat): nat
    requires n <= |t.dispatches|
    decreases t, n
  {
    if n == 0 then 0 else AdapterRunsOfAll(t, lineage, n - 1) + AdapterRuns(t.dispatches[n - 1], lineage)
  }

  ghost predicate Bounded(t: Request, branching: nat, length: nat) {
    && |t.dispatches| <= branching && |t.chain| <= length
    && forall i | 0 <= i < |t.dispatches| :: Bounded(t.dispatches[i], branching, length)
  }

  // ---- Lineages ----

  /** The gate lets through exactly the lineages of fewer than three agents in which no agent appears twice. */
  lemma GateIsExact(lineage: seq<string>)
    ensures Accepted(lineage) <==> |lineage| < 3 && Distinct(lineage)
  {
    MembersCount(lineage);
  }

  /** A dispatch is let through exactly when its parent was, the tree is not yet two deep, and the dispatching agent has
    * not dispatched above. */
  lemma GateExtends(lineage: seq<string>, agent: string)
    ensures Accepted(lineage + [agent]) <==>
              Accepted(lineage) && |lineage| + 1 < 3 && agent !in lineage
  {
    var child := lineage + [agent];
    GateIsExact(lineage);
    GateIsExact(child);
    assert Distinct(child) ==> Distinct(lineage) && agent !in lineage by {
      assert child[|lineage|] == agent;
      assert forall i | 0 <= i < |lineage| :: child[i] == lineage[i];
    }
  }

  /** The gate looks at who dispatched, not at who is dispatched to: an agent that dispatches to itself runs once more,
    * and only what that second run dispatches is refused. */
  lemma SelfDispatchRunsTwice(agent: string, w: World, chain: seq<string>, rest: seq<Request>)
    ensures var again := Request(agent, w, chain, rest);
            Executions(Request(agent, w, chain, [again]), []) == 2
  {
    var again := Request(agent, w, chain, rest);
    var top := Request(agent, w, chain, [again]);
    GateIsExact([]);
    GateExtends([], agent);
    assert [] + [agent] == [agent];
    GateExtends([agent], agent);
    RefusedRunNothing(again, [agent] + [agent], |rest|);
    assert ExecutionsOfAll(top, [agent], 0) == 0;
    assert ExecutionsOfAll(top, [agent], 1) == Executions(again, [agent]);
  }

  lemma {:induction false} RefusedRunNothing(t: Request, lineage: seq<string>, n: nat)
    requires n <= |t.dispatches| && !Accepted(lineage)
    ensures ExecutionsOfAll(t, lineage, n) == 0 && AdapterRunsOfAll(t, lineage, n) == 0
  {
    if n > 0 {
      RefusedRunNothing(t, lineage, n - 1);
    }
  }

  // ---- Bounds ----

  function Nodes(levels: nat, b: nat): nat {
    if levels == 0 then 0 else 1 + b * Nodes(levels - 1, b)
  }

  lemma OwnRunsBound(t: Request)
    ensures OwnRuns(t) <= 2 * |t.chain|
  {
    hide TurnAt, LogAfter, Attempted;
    var n, r, log := EveryRunEnds(t.world, t.chain);
    RunAccount(t.world, t.chain, n, r, log);
  }

  lemma Level(levels: nat, b: nat, n: nat)
    requires 0 < levels && n <= b
    ensures 1 + n * Nodes(levels - 1, b) <= Nodes(levels, b)
  {
    assert n * Nodes(levels - 1, b) <= b * Nodes(levels - 1, b);
  }

  lemma Distribute(k: nat, x: nat)
    ensures k * (1 + x) == k + k * x
  {
  }

  lemma {:induction false} SubtreeBound(t: Request, lineage: seq<string>, b: nat, c: nat)
    requires Bounded(t, b, c) && |lineage| <= MAX_FALLBACK_DEPTH
    ensures Executions(t, lineage) <= Nodes(MAX_FALLBACK_DEPTH - |lineage|, b)
    ensures AdapterRuns(t, lineage) <= 2 * c * Executions(t, lineage)
    decreases t, |t.dispatches| + 1
  {
    hide Accepted, OwnRuns, ExecutionsOfAll, AdapterRunsOfAll;
    if Accepted(lineage) {
      GateIsExact(lineage);
      OwnRunsBound(t);
      SubtreesBound(t, lineage + [t.agent], b, c, |t.dispatches|);
      Level(MAX_FALLBACK_DEPTH - |lineage|, b, |t.dispatches|);
      Distribute(2 * c, ExecutionsOfAll(t, lineage + [t.agent], |t.dispatches|));
    }
  }

  lemma {:induction false} SubtreesBound(t: Request, lineage: seq<string>, b: nat, c: nat, n: nat)
    requires Bounded(t, b, c) && |lineage| <= MAX_FALLBACK_DEPTH && n <= |t.dispatches|
    ensures ExecutionsOfAll(t, lineage, n) <= n * Nodes(MAX_FALLBACK_DEPTH - |lineage|, b)
    ensures AdapterRunsOfAll(t, lineage, n) <= 2 * c * ExecutionsOfAll(t, lineage, n)
    decreases t, n
  {
    hide Executions, AdapterRuns, Nodes, Accepted, OwnRuns;
    if n > 0 {
      SubtreesBound(t, lineage, b, c, n - 1);
      SubtreeBound(t.dispatches[n - 1], lineage, b, c);
      var each := Nodes(MAX_FALLBACK_DEPTH - |lineage|, b);
      assert n * each == (n - 1) * each + each;
      assert 2 * c * ExecutionsOfAll(t, lineage, n)
          == 2 * c * ExecutionsOfAll(t, lineage, n - 1) + 2 * c * Executions(t.dispatches[n - 1], lineage);
    }
  }

  /** From a request with no lineage, however the agents go on dispatching. */
  lemma TreeBound(t: Request, b: nat, c: nat)
    requires Bounded(t, b, c)
    ensures Executions(t, []) <= 1 + b + b * b
    ensures AdapterRuns(t, []) <= 2 * c * (1 + b + b * b)
  {
    hide Executions, AdapterRuns, Bounded, Accepted;
    SubtreeBound(t, [], b, c);
    assert Nodes(3, b) == 1 + b * Nodes(2, b) && Nodes(2, b) == 1 + b * Nodes(1, b) && Nodes(1, b) == 1;
    assert b * (1 + b) == b + b * b;
    assert 2 * c * Executions(t, []) <= 2 * c * (1 + b + b * b);
  }

  // ---- The bound is met ----

  /** Every request of the tree runs adapters `r` times. */
  ghost predicate Uniform(t: Request, r: nat) {
    OwnRuns(t) == r && forall i | 0 <= i < |t.dispatches| :: Uniform(t.dispatches[i], r)
  }

  /** Adapters are run by the accepted executions and by nothing else. */
  lemma {:induction false} RunsOfExecutions(t: Request, lineage: seq<string>, r: nat)
    requires Uniform(t, r)
    ensures AdapterRuns(t, lineage) == r * Executions(t, lineage)
    decreases t, |t.dispatches| + 1
  {
    hide Accepted, OwnRuns, ExecutionsOfAll, AdapterRunsOfAll;
    if Accepted(lineage) {
      RunsOfAll(t, lineage + [t.agent], r, |t.dispatches|);
      Distribute(r, ExecutionsOfAll(t, lineage + [t.agent], |t.dispatches|));
    }
  }

  lemma {:induction false} RunsOfAll(t: Request, lineage: seq<string>, r: nat, n: nat)
    requires Uniform(t, r) && n <= |t.dispatches|
    ensures AdapterRunsOfAll(t, lineage, n) == r * ExecutionsOfAll(t, lineage, n)
    decreases t, n
  {
    hide Executions, AdapterRuns, Accepted, OwnRuns;
    if n > 0 {
      RunsOfAll(t, lineage, r, n - 1);
      RunsOfExecutions(t.dispatches[n - 1], lineage, r);
      assert r * ExecutionsOfAll(t, lineage, n)
          == r * ExecutionsOfAll(t, lineage, n - 1) + r * Executions(t.dispatches[n - 1], lineage);
    }
  }

  /** A tree in which each agent dispatches `b` times to the next one. */
  function Fan(agents: seq<string>, w: World, chain: seq<string>, b: nat): Request
    requires agents != []
    decreases |agents|
  {
    Request(agents[0], w, chain, if |agents| == 1 then [] else seq(b, _ => Fan(agents[1..], w, chain, b)))
  }

  lemma {:induction false} AllAlike(t: Request, lineage: seq<string>, k: nat, n: nat)
    requires n <= |t.dispatches| && forall i | 0 <= i < n :: Executions(t.dispatches[i], lineage) == k
    ensures ExecutionsOfAll(t, lineage, n) == n * k
  {
    hide Executions;
    if n > 0 {
      AllAlike(t, lineage, k, n - 1);
      assert n * k == (n - 1) * k + k;
    }
  }

  /** With three agents that dispatch `b` times each down to a last one, exactly as many executions as the bound
    * allows: the fourth level is refused. */
  lemma BoundIsMet(x: string, y: string, z: string, last: string, w: World, chain: seq<string>, b: nat)
    requires x != y
    ensures Executions(Fan([x, y, z, last], w, chain, b), []) == 1 + b + b * b
  {
    hide Accepted, Executions, Fan;
    assert [x] + [y, z, last] == [x, y, z, last] && [y] + [z, last] == [y, z, last] && [z] + [last] == [z, last];
    assert [] + [x] == [x] && [x] + [y] == [x, y] && [x, y] + [z] == [x, y, z];
    FanOf(x, [y, z, last], [], w, chain, b);
    FanOf(y, [z, last], [x], w, chain, b);
    FanOf(z, [last], [x, y], w, chain, b);
    Gates(x, y, z);
    RefusedRuns(Fan([last], w, chain, b), [x, y, z]);
    assert b * (1 + b * 1) == b + b * b && b * 0 == 0;
  }

  lemma Gates(x: string, y: string, z: string)
    requires x != y
    ensures Accepted([]) && Accepted([x]) && Accepted([x, y]) && !Accepted([x, y, z])
  {
    GateIsExact([]);
    GateIsExact([x]);
    GateIsExact([x, y]);
    GateIsExact([x, y, z]);
  }

  lemma RefusedRuns(t: Request, lineage: seq<string>)
    requires !Accepted(lineage)
    ensures Executions(t, lineage) == 0
  {
  }

  lemma FanOf(agent: string, agents: seq<string>, lineage: seq<string>, w: World, chain: seq<string>, b: nat)
    requires agents != []
    ensures Accepted(lineage) ==>
              Executions(Fan([agent] + agents, w, chain, b), lineage)
              == 1 + b * Executions(Fan(agents, w, chain, b), lineage + [agent])
  {
    hide Accepted;
    var t := Fan([agent] + agents, w, chain, b);
    assert ([agent] + agents)[1..] == agents;
    assert |t.dispatches| == b && forall i | 0 <= i < b :: t.dispatches[i] == Fan(agents, w, chain, b);
    AllAlike(t, lineage + [agent], Executions(Fan(agents, w, chain, b), lineage + [agent]), b);
  }
}
