/** Runs of a protocol whose participants' atomic steps come in any order. */
module Interleavings {

  /** Which steps a state allows, and where each leads. */
  datatype Protocol<!S, !A> = Protocol(enabled: (S, A) -> bool, step: (S, A) -> S)

  ghost predicate Runs<S, A>(p: Protocol<S, A>, s: S, acts: seq<A>)
    decreases |acts|
  {
    acts == [] || (p.enabled(s, acts[0]) && Runs(p, p.step(s, acts[0]), acts[1..]))
  }

  ghost function RunTo<S, A>(p: Protocol<S, A>, s: S, acts: seq<A>): S
    requires Runs(p, s, acts)
    decreases |acts|
  {
    if acts == [] then s else RunTo(p, p.step(s, acts[0]), acts[1..])
  }

  /** What every step keeps, every run keeps. */
  lemma {:induction false} Invariant<S, A>(p: Protocol<S, A>, inv: S -> bool, s: S, acts: seq<A>)
    requires inv(s) && Runs(p, s, acts)
    requires forall t, a | inv(t) && p.enabled(t, a) :: inv(p.step(t, a))
    ensures inv(RunTo(p, s, acts))
    decreases |acts|
  {
    if acts != [] {
      Invariant(p, inv, p.step(s, acts[0]), acts[1..]);
    }
  }

  /** One run and then another. */
  lemma {:induction false} Concat<S, A>(p: Protocol<S, A>, s: S, x: seq<A>, y: seq<A>)
    ensures Runs(p, s, x + y) <==> Runs(p, s, x) && Runs(p, RunTo(p, s, x), y)
    ensures Runs(p, s, x + y) ==> RunTo(p, s, x + y) == RunTo(p, RunTo(p, s, x), y)
    decreases |x|
  {
    if x == [] {
      assert x + y == y;
    } else {
      assert (x + y)[1..] == x[1..] + y;
      if p.enabled(s, x[0]) {
        Concat(p, p.step(s, x[0]), x[1..], y);
      }
    }
  }

  ghost predicate Leads<S, A>(p: Protocol<S, A>, s: S, acts: seq<A>, t: S) {
    Runs(p, s, acts) && RunTo(p, s, acts) == t
  }

  lemma One<S, A>(p: Protocol<S, A>, s: S, a: A)
    requires p.enabled(s, a)
    ensures Leads(p, s, [a], p.step(s, a))
  {
    assert [a][1..] == [];
  }

  lemma Onward<S, A>(p: Protocol<S, A>, s: S, x: seq<A>, t: S, y: seq<A>, u: S) returns (acts: seq<A>)
    requires Leads(p, s, x, t) && Leads(p, t, y, u)
    ensures Leads(p, s, acts, u)
  {
    acts := x + y;
    Concat(p, s, x, y);
  }

  /** A run and one step more. */
  lemma OneMore<S, A>(p: Protocol<S, A>, s: S, x: seq<A>, t: S, a: A) returns (acts: seq<A>)
    requires Leads(p, s, x, t) && p.enabled(t, a)
    ensures Leads(p, s, acts, p.step(t, a))
  {
    One(p, t, a);
    acts := Onward(p, s, x, t, [a], p.step(t, a));
  }
}
