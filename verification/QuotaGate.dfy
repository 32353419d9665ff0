/** The watermark in front of the quota walker: when a turn walks, and what it remembers. */
module QuotaGate {
  import opened Wrappers
  import opened QuotaRun
  import TenantHome

  const MIN_INTERVAL_S: int := 10 * 60
  const MIN_DELTA_CHUNKS: int := 10

  datatype Mark = Mark(ts: int, chunks: int)

  predicate ShouldWalk(marks: map<string, Mark>, tenant: string, clock: int, chunks: int) {
    tenant !in marks
    || clock - marks[tenant].ts >= MIN_INTERVAL_S
    || chunks - marks[tenant].chunks >= MIN_DELTA_CHUNKS
  }

  /** One turn of a tenant: the gate is read at `clock`, and a walk that completes unskipped is recorded at
    * `clockAfter`. */
  datatype Turn = Turn(tenant: string, clock: int, clockAfter: int, chunks: int, completes: bool)

  predicate Walked(marks: map<string, Mark>, t: Turn) {
    ShouldWalk(marks, t.tenant, t.clock, t.chunks) && t.completes
  }

  function MarksAfter(marks: map<string, Mark>, t: Turn): map<string, Mark> {
    if Walked(marks, t) then marks[t.tenant := Mark(t.clockAfter, t.chunks)] else marks
  }

  class Gate {
    var lastWalk: map<string, Mark>

    constructor ()
      ensures lastWalk == map[]
    {
      lastWalk := map[];
    }

    /** Walks when the watermark says so, and swallows what the walk raises; a skipped or failed walk leaves the
      * watermark alone. */
    method MaybeEnforce(walker: TenantHome.Walker, tenant: string, chunks: int, budget: int, lock: LockOutcome,
                        clock: int, clockAfter: int)
      returns (out: Option<Report>)
      requires walker.Valid()
      modifies this, walker
      ensures walker.Valid()
      ensures walker.nodes == old(walker.nodes)
        || Safe(Locked(old(walker.nodes), walker.home, walker.now, lock), walker.nodes, walker.home, walker.now)
      ensures var due := tenant !in old(lastWalk)
                || clock - old(lastWalk)[tenant].ts >= 600 || chunks - old(lastWalk)[tenant].chunks >= 10;
              && (due <==> ShouldWalk(old(lastWalk), tenant, clock, chunks))
              && (out.None? <==> !due || walker.unguarded != old(walker.unguarded) || walker.overrun)
              && (due && walker.Sound() ==> out.Some?)
              && (!due ==> walker.nodes == old(walker.nodes) && walker.calls == old(walker.calls))
      ensures var completes := out.Some? && !out.value.skipped;
              && lastWalk == MarksAfter(old(lastWalk), Turn(tenant, clock, clockAfter, chunks, completes))
              && lastWalk == if completes then old(lastWalk)[tenant := Mark(clockAfter, chunks)] else old(lastWalk)
    {
      hide Safe, Trail, Enforcement, RanTooDeep, Locked, IsHome;
      if !ShouldWalk(lastWalk, tenant, clock, chunks) {
        return None;
      }
      var outcome;
      ghost var trail;
      outcome, trail := walker.EnforceQuota(budget, lock);
      match outcome {
        case Raised => out := None;
        case Returned(report) =>
          out := Some(report);
          if !report.skipped {
            lastWalk := lastWalk[tenant := Mark(clockAfter, chunks)];
          }
      }
    }
  }

  // ---- How often one tenant is walked ----

  /** Recorded walks of one tenant over a series of turns of any tenants. */
  ghost function Walks(marks: map<string, Mark>, tenant: string, turns: seq<Turn>): nat
    decreases |turns|
  {
    if turns == [] then 0 else
      (if turns[0].tenant == tenant && Walked(marks, turns[0]) then 1 else 0)
      + Walks(MarksAfter(marks, turns[0]), tenant, turns[1..])
  }

  /** The tenant's turns follow one another, with clock and counter never running back. */
  ghost predicate Monotone(start: Mark, tenant: string, turns: seq<Turn>) {
    && (forall i :: 0 <= i < |turns| && turns[i].tenant == tenant ==>
          start.ts <= turns[i].clock <= turns[i].clockAfter && start.chunks <= turns[i].chunks)
    && (forall i, j :: 0 <= i < j < |turns| && turns[i].tenant == tenant && turns[j].tenant == tenant ==>
          turns[i].clockAfter <= turns[j].clock && turns[i].chunks <= turns[j].chunks)
  }

  ghost predicate Before(tenant: string, turns: seq<Turn>, end: Mark) {
    forall i :: 0 <= i < |turns| && turns[i].tenant == tenant ==>
      turns[i].clockAfter <= end.ts && turns[i].chunks <= end.chunks
  }

  lemma OneWalkCosts(seconds: int, chunks: int)
    requires 0 <= seconds && 0 <= chunks && (seconds >= MIN_INTERVAL_S || chunks >= MIN_DELTA_CHUNKS)
    ensures MIN_INTERVAL_S * MIN_DELTA_CHUNKS <= MIN_DELTA_CHUNKS * seconds + MIN_INTERVAL_S * chunks
  {
  }

  lemma RestIsMonotone(start: Mark, tenant: string, turns: seq<Turn>, end: Mark)
    requires turns != [] && Monotone(start, tenant, turns) && Before(tenant, turns, end)
    ensures Monotone(start, tenant, turns[1..]) && Before(tenant, turns[1..], end)
    ensures turns[0].tenant == tenant ==> Monotone(Mark(turns[0].clockAfter, turns[0].chunks), tenant, turns[1..])
  {
    assert forall i :: 0 <= i < |turns| - 1 ==> turns[1..][i] == turns[i + 1];
  }

  /** After a recorded walk, each further one of the same tenant costs ten minutes or ten chunks, whatever turns of
    * other tenants come in between. */
  lemma {:induction false} WalksAreRare(marks: map<string, Mark>, tenant: string, turns: seq<Turn>, end: Mark)
    requires tenant in marks && Monotone(marks[tenant], tenant, turns) && Before(tenant, turns, end)
    requires marks[tenant].ts <= end.ts && marks[tenant].chunks <= end.chunks
    ensures MIN_INTERVAL_S * MIN_DELTA_CHUNKS * Walks(marks, tenant, turns)
         <= MIN_DELTA_CHUNKS * (end.ts - marks[tenant].ts) + MIN_INTERVAL_S * (end.chunks - marks[tenant].chunks)
    decreases |turns|
  {
    hide Monotone, Before;
    if turns != [] {
      var t, mark := turns[0], marks[tenant];
      RestIsMonotone(mark, tenant, turns, end);
      if t.tenant == tenant {
        FirstTurn(mark, tenant, turns, end);
      }
      WalksAreRare(MarksAfter(marks, t), tenant, turns[1..], end);
      if t.tenant == tenant && Walked(marks, t) {
        OneWalkCosts(t.clockAfter - mark.ts, t.chunks - mark.chunks);
      }
    }
  }

  lemma FirstTurn(start: Mark, tenant: string, turns: seq<Turn>, end: Mark)
    requires turns != [] && Monotone(start, tenant, turns) && Before(tenant, turns, end) && turns[0].tenant == tenant
    ensures start.ts <= turns[0].clock <= turns[0].clockAfter <= end.ts
    ensures start.chunks <= turns[0].chunks <= end.chunks
  {
  }
}
