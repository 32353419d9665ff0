/** The tenant feature-flag cache, filled by concurrent calls that fetch without holding its lock. */
module FlagCache {
  import opened Wrappers
  import opened Interleavings

  type Flags = map<string, bool>

  /** A cached blob, the time its fetch was begun, and the call that fetched it. */
  datatype Entry = Entry(at: real, flags: Flags, source: int)

  /** `Served` tells whose fetch the flags came from: the call's own, or that of the entry it found. */
  datatype Phase = Begun | Fetching | Fetched(flags: Flags, when: real) | Served(flags: Flags, source: int)

  datatype Call = Call(tenant: string, begun: real, phase: Phase)

  /** The clock, the dictionary, the calls, and what each call fetched, and when, once it has. */
  datatype State = State(now: real, cache: map<string, Entry>, calls: map<int, Call>, fetched: map<int, (Flags, real)>)

  const TTL: real := 60.0

  datatype Action =
    | Tick(seconds: real)
    | Start(id: int, tenant: string)
    | Look(id: int)
    | Fetch(id: int, flags: Flags)
    | Store(id: int)
    | Reset

  predicate Enabled(s: State, a: Action) {
    match a
    case Tick(seconds) => 0.0 <= seconds
    case Start(id, tenant) => id !in s.calls && tenant != ""
    case Look(id) => id in s.calls && s.calls[id].phase.Begun?
    case Fetch(id, _) => id in s.calls && s.calls[id].phase.Fetching?
    case Store(id) => id in s.calls && s.calls[id].phase.Fetched?
    case Reset => true
  }

  /** The cached entry counts if it was begun less than the time to live before this call was. */
  predicate Hit(s: State, id: int)
    requires id in s.calls
  {
    s.calls[id].tenant in s.cache && s.calls[id].begun - s.cache[s.calls[id].tenant].at < TTL
  }

  function Move(s: State, id: int, p: Phase): State
    requires id in s.calls
  {
    s.(calls := s.calls[id := s.calls[id].(phase := p)])
  }

  function Step(s: State, a: Action): State
    requires Enabled(s, a)
  {
    match a
    case Tick(seconds) => s.(now := s.now + seconds)
    case Start(id, tenant) => s.(calls := s.calls[id := Call(tenant, s.now, Begun)])
    case Look(id) =>
      if Hit(s, id) then
        var e := s.cache[s.calls[id].tenant];
        Move(s, id, Served(e.flags, e.source))
      else Move(s, id, Fetching)
    case Fetch(id, flags) => Move(s, id, Fetched(flags, s.now)).(fetched := s.fetched[id := (flags, s.now)])
    case Store(id) =>
      var c := s.calls[id];
      Move(s, id, Served(c.phase.flags, id)).(cache := s.cache[c.tenant := Entry(c.begun, c.phase.flags, id)])
    case Reset => s.(cache := map[])
  }

  ghost predicate Init(s: State) {
    s.cache == map[] && s.calls == map[] && s.fetched == map[]
  }

  // ---- The invariant ----

  /** Call `source` fetched these flags for this tenant, after it was begun and no later than now. */
  ghost predicate FetchedBy(s: State, source: int, tenant: string, flags: Flags) {
    && source in s.calls && source in s.fetched && s.calls[source].tenant == tenant
    && s.fetched[source].0 == flags && s.calls[source].begun <= s.fetched[source].1 <= s.now
  }

  ghost predicate EntryOk(s: State, tenant: string)
    requires tenant in s.cache
  {
    var e := s.cache[tenant];
    FetchedBy(s, e.source, tenant, e.flags) && e.at == s.calls[e.source].begun
  }

  ghost predicate CallOk(s: State, id: int)
    requires id in s.calls
  {
    var c := s.calls[id];
    && c.begun <= s.now
    && (c.phase.Fetched? ==> FetchedBy(s, id, c.tenant, c.phase.flags))
    && (c.phase.Begun? || c.phase.Fetching? ==> id !in s.fetched)
    && (c.phase.Served? ==>
          && FetchedBy(s, c.phase.source, c.tenant, c.phase.flags)
          && (c.phase.source != id ==> c.begun - s.calls[c.phase.source].begun < TTL))
  }

  ghost predicate Inv(s: State) {
    && (forall t | t in s.cache :: EntryOk(s, t))
    && (forall id | id in s.calls :: CallOk(s, id))
    && (forall id | id in s.fetched :: id in s.calls)
  }

  lemma InitInv(s: State)
    requires Init(s)
    ensures Inv(s)
  {
  }

  /** What was fetched stays fetched. */
  lemma FetchedStays(s: State, a: Action, source: int, tenant: string, flags: Flags)
    requires Enabled(s, a) && FetchedBy(s, source, tenant, flags) && CallOk(s, source) && (a.Fetch? ==> a.id != source)
    ensures FetchedBy(Step(s, a), source, tenant, flags) && Step(s, a).calls[source].begun == s.calls[source].begun
  {
  }

  lemma EntriesKept(s: State, a: Action)
    requires Inv(s) && Enabled(s, a)
    ensures forall t | t in Step(s, a).cache :: EntryOk(Step(s, a), t)
  {
    hide Step, FetchedBy;
    forall t | t in Step(s, a).cache
      ensures EntryOk(Step(s, a), t)
    {
      if t in s.cache && !(a.Store? && s.calls[a.id].tenant == t) {
        assert EntryOk(s, t);
        EntrySame(s, a, t);
      } else {
        NewEntry(s, a, t);
      }
    }
  }

  lemma EntrySame(s: State, a: Action, t: string)
    requires Inv(s) && Enabled(s, a) && t in s.cache && t in Step(s, a).cache
    requires !(a.Store? && s.calls[a.id].tenant == t)
    ensures EntryOk(Step(s, a), t)
  {
    var e := s.cache[t];
    assert EntryOk(s, t) && CallOk(s, e.source);
    FetchedStays(s, a, e.source, t, e.flags);
  }

  lemma NewEntry(s: State, a: Action, t: string)
    requires Inv(s) && Enabled(s, a) && t in Step(s, a).cache
    requires t !in s.cache || (a.Store? && s.calls[a.id].tenant == t)
    ensures EntryOk(Step(s, a), t)
  {
    assert CallOk(s, a.id);
    FetchedStays(s, a, a.id, t, s.calls[a.id].phase.flags);
  }

  lemma CallKept(s: State, a: Action, id: int)
    requires Inv(s) && Enabled(s, a) && id in Step(s, a).calls
    ensures CallOk(Step(s, a), id)
  {
    if id in s.calls {
      assert CallOk(s, id);
      var c := s.calls[id];
      if c.phase.Served? {
        assert CallOk(s, c.phase.source);
        FetchedStays(s, a, c.phase.source, c.tenant, c.phase.flags);
      } else if c.phase.Fetched? {
        FetchedStays(s, a, id, c.tenant, c.phase.flags);
      } else if a == Look(id) && Hit(s, id) {
        var e := s.cache[c.tenant];
        assert EntryOk(s, c.tenant) && CallOk(s, e.source);
        FetchedStays(s, a, e.source, c.tenant, e.flags);
      }
    }
  }

  lemma StepInv(s: State, a: Action)
    requires Inv(s) && Enabled(s, a)
    ensures Inv(Step(s, a))
  {
    EntriesKept(s, a);
    forall id | id in Step(s, a).calls
      ensures CallOk(Step(s, a), id)
    {
      CallKept(s, a, id);
    }
  }

  // ---- Whole runs ----

  const STEPS: Protocol<State, Action> :=
    Protocol((s, a) => Enabled(s, a), (s, a) => if Enabled(s, a) then Step(s, a) else s)

  /** Under every interleaving, with slow fetches overwriting newer entries and resets at any moment: the flags a call
    * serves were fetched for its own tenant, by itself or by a call begun less than the time to live before it, and the
    * fetch ended after that call began. */
  lemma BoundedStaleness(s0: State, acts: seq<Action>, id: int)
    requires Init(s0) && Runs(STEPS, s0, acts) && id in RunTo(STEPS, s0, acts).calls
        && RunTo(STEPS, s0, acts).calls[id].phase.Served?
    ensures var s := RunTo(STEPS, s0, acts);
            var c := s.calls[id];
            && c.phase.source in s.calls && c.phase.source in s.fetched
            && s.calls[c.phase.source].tenant == c.tenant && s.fetched[c.phase.source].0 == c.phase.flags
            && s.calls[c.phase.source].begun <= s.fetched[c.phase.source].1
            && c.begun - s.calls[c.phase.source].begun < 60.0
  {
    hide Inv, Step, Enabled;
    InitInv(s0);
    forall t, a | Inv(t) && Enabled(t, a)
      ensures Inv(Step(t, a))
    {
      StepInv(t, a);
    }
    Invariant(STEPS, t => Inv(t), s0, acts);
    ServedInTime(RunTo(STEPS, s0, acts), id);
  }

  lemma ServedInTime(s: State, id: int)
    requires Inv(s) && id in s.calls && s.calls[id].phase.Served?
    ensures var c := s.calls[id];
            && FetchedBy(s, c.phase.source, c.tenant, c.phase.flags)
            && c.begun - s.calls[c.phase.source].begun < TTL
  {
    assert CallOk(s, id);
  }

  // ---- The dictionary ----

  class FlagStore {
    var cache: map<string, Entry>

    /** The state of the machine this object is in. */
    ghost var at: State

    ghost predicate Valid()
      reads this
    {
      Inv(at) && cache == at.cache
    }

    constructor (now: real)
      ensures Valid() && Init(at) && at.now == now
    {
      cache, at := map[], State(now, map[], map[], map[]);
      new;
      InitInv(at);
    }

    /** Time passing, a call beginning, or a fetch coming back: outside the lock. */
    method Elsewhere(ghost a: Action)
      requires Valid() && Enabled(at, a) && (a.Tick? || a.Start? || a.Fetch?)
      modifies this`at
      ensures at == Step(old(at), a) && Valid()
      ensures a.Tick? ==> at.now == old(at).now + a.seconds && at.calls == old(at).calls
      ensures a.Start? ==> at.calls == old(at).calls[a.id := Call(a.tenant, at.now, Begun)]
      ensures a.Fetch? ==> at.calls[a.id].phase == Fetched(a.flags, at.now) && at.fetched[a.id] == (a.flags, at.now)
    {
      hide Inv;
      StepInv(at, a);
      at := Step(at, a);
    }

    /** The cache emptied under the lock. */
    method ResetCache()
      requires Valid()
      modifies this
      ensures at == Step(old(at), Reset) && Valid()
      ensures cache == map[] && at.calls == old(at).calls
    {
      hide Inv;
      StepInv(at, Reset);
      at := Step(at, Reset);
      cache := map[];
    }

    /** The first locked section: a flag from the cache, or None when a fetch is due. */
    method Lookup(id: int, tenant: string, begun: real, flag: string, fallback: bool) returns (r: Option<bool>)
      requires Valid() && Enabled(at, Look(id)) && at.calls[id] == Call(tenant, begun, Begun)
      modifies this`at
      ensures at == Step(old(at), Look(id)) && Valid()
      ensures r.Some? <==> at.calls[id].phase.Served?
      ensures r.Some? <==> tenant in cache && begun - cache[tenant].at < 60.0
      ensures r.Some? ==> at.calls[id].phase.flags == cache[tenant].flags
      ensures r.Some? ==>
                var flags := at.calls[id].phase.flags; r.value == if flag in flags then flags[flag] else fallback
      ensures r.Some? ==> var source := at.calls[id].phase.source;
                FetchedBy(at, source, tenant, at.calls[id].phase.flags) && begun - at.calls[source].begun < TTL
    {
      assert tenant in cache ==> EntryOk(at, tenant) && CallOk(at, cache[tenant].source);
      hide Inv;
      StepInv(at, Look(id));
      ghost var before := at;
      at := Step(at, Look(id));
      if tenant in cache && begun - cache[tenant].at < TTL {
        var flags := cache[tenant].flags;
        FetchedStays(before, Look(id), cache[tenant].source, tenant, flags);
        r := Some(if flag in flags then flags[flag] else fallback);
      } else {
        r := None;
      }
    }

    /** The second locked section: the call's own fetch replaces whatever is there. */
    method Remember(id: int, tenant: string, begun: real, flags: Flags)
      requires Valid() && Enabled(at, Store(id))
      requires at.calls[id].tenant == tenant && at.calls[id].begun == begun && at.calls[id].phase.flags == flags
      modifies this
      ensures at == Step(old(at), Store(id)) && Valid()
      ensures cache == old(cache)[tenant := Entry(begun, flags, id)] && at.calls[id].phase == Served(flags, id)
    {
      hide Inv;
      StepInv(at, Store(id));
      at := Step(at, Store(id));
      cache := cache[tenant := Entry(begun, flags, id)];
    }

    /** `is_enabled` as a whole, with no other call in between: a blob begun less than a minute before answers, and any
      * other call fetches, answers from what it fetched and leaves that in the cache. */
    method IsEnabled(id: int, tenant: string, flag: string, fallback: bool, now: real, fetched: Flags)
      returns (r: bool)
      requires Valid() && id !in at.calls && now == at.now
      modifies this
      ensures Valid()
      ensures tenant == "" ==> r == fallback && cache == old(cache)
      ensures tenant != "" ==>
                var hit := tenant in old(cache) && now - old(cache)[tenant].at < 60.0;
                var flags := if hit then old(cache)[tenant].flags else fetched;
                && r == (if flag in flags then flags[flag] else fallback)
                && cache == if hit then old(cache) else old(cache)[tenant := Entry(now, fetched, id)]
    {
      hide Inv;
      if tenant == "" {
        return fallback;
      }
      Elsewhere(Start(id, tenant));
      var cached := Lookup(id, tenant, now, flag, fallback);
      if cached.Some? {
        return cached.value;
      }
      Elsewhere(Fetch(id, fetched));
      Remember(id, tenant, now, fetched);
      r := if flag in fetched then fetched[flag] else fallback;
    }
  }
}
