/** The shared preflight helpers: two process-wide memos, and verdicts cached in Redis that many workers share. */
module Preflight {
  import opened Wrappers
  import opened Policy
  import opened Executor
  import opened ExecutorTheorems

  /** The statuses a helper may fail with. */
  predicate HelperStatus(s: Status) {
    s.ProviderUnavailable? || s.WorkspaceUntrusted? || s.NeedsAuth? || s.ApiDisabled?
  }

  /** A verdict of an adapter whose preflight is made of the helpers. */
  predicate HelperVerdict(p: Probe) {
    p.PreflightFailed? ==> p.status.Some? && HelperStatus(p.status.value)
  }

  function Checked(ok: bool, s: Status): Probe {
    if ok then PreflightOk else PreflightFailed(Some(s))
  }

  /** An adapter's preflight: its checks in order, up to the first that fails. */
  function Composed(checks: seq<Probe>): Probe {
    if checks == [] then PreflightOk else if checks[0].PreflightOk? then Composed(checks[1..]) else checks[0]
  }

  lemma {:induction false} ComposedIsHelperVerdict(checks: seq<Probe>)
    requires forall i | 0 <= i < |checks| :: HelperVerdict(checks[i])
    ensures HelperVerdict(Composed(checks))
    ensures Composed(checks).PreflightOk? <==> forall i | 0 <= i < |checks| :: checks[i].PreflightOk?
  {
    if checks != [] {
      ComposedIsHelperVerdict(checks[1..]);
      assert forall i | 1 <= i < |checks| :: checks[i] == checks[1..][i - 1];
    }
  }

  /** The verdict is that of the first check that fails. */
  lemma {:induction false} FirstFailureDecides(checks: seq<Probe>, k: nat)
    requires k < |checks| && !checks[k].PreflightOk? && forall i | 0 <= i < k :: checks[i].PreflightOk?
    ensures Composed(checks) == checks[k]
  {
    if k > 0 {
      assert forall i | 0 <= i < k - 1 :: checks[1..][i] == checks[i + 1];
      FirstFailureDecides(checks[1..], k - 1);
    }
  }

  /** With such adapters every position passed over is a recorded fallback or a missing adapter, and every trace is
    * closed by the event that tells how the run ended. */
  lemma HelperAccount(w: World, chain: seq<string>, n: nat, r: ExecutionResult, log: Log)
    requires EndsAt(w, chain, n, r, log)
    requires forall i: nat | i < |chain| && chain[i] in w.adapters :: HelperVerdict(w.probe(i))
    ensures log.fallbacks + Missing(w, chain, n) == n
    ensures log.runs == log.retries + ReadyCount(w, chain, Visited(chain, n))
    ensures Parse(Fresh, log.events) == Ended
    ensures r.status.ExecutionSucceeded? <==> log.events[|log.events| - 1] == Succeeded
  {
    hide EndsAt, Missing, ReadyCount, Parse;
    EndsInRange(w, chain, n, r, log);
    RunAccount(w, chain, n, r, log);
    NothingUnrecorded(w, chain, n);
    TraceIsWellFormed(w, chain, n, r, log);
    assert n < |chain| && chain[n] in w.adapters ==> HelperVerdict(w.probe(n));
  }

  lemma EndsInRange(w: World, chain: seq<string>, n: nat, r: ExecutionResult, log: Log)
    requires EndsAt(w, chain, n, r, log)
    ensures n <= |chain|
  {
  }

  lemma {:induction false} NothingUnrecorded(w: World, chain: seq<string>, n: nat)
    requires n <= |chain|
    requires forall i: nat | i < |chain| && chain[i] in w.adapters :: HelperVerdict(w.probe(i))
    ensures Unrecorded(w, chain, n) == 0
  {
    if n > 0 {
      NothingUnrecorded(w, chain, n - 1);
      if chain[n - 1] in w.adapters {
        assert HelperVerdict(w.probe(n - 1));
      }
    }
  }

  // ---- The memos ----

  /** A memo after one lookup: only a first one is remembered. */
  function Remember<T>(memo: map<string, T>, name: string, found: T): map<string, T> {
    if name in memo then memo else memo[name := found]
  }

  /** A memo after a series of lookups, each with what a fresh look would find by then. */
  function AfterLookups<T>(memo: map<string, T>, lookups: seq<(string, T)>): map<string, T>
    decreases |lookups|
  {
    if lookups == [] then memo else AfterLookups(Remember(memo, lookups[0].0, lookups[0].1), lookups[1..])
  }

  /** The first lookup of a name decides for good: whatever is looked up after it, and whatever would be found by then,
    * the memo keeps answering what the first one found. */
  lemma {:induction false} FirstLookupDecides<T>(memo: map<string, T>, name: string, found: T, later: seq<(string, T)>)
    requires name !in memo
    ensures var m := AfterLookups(Remember(memo, name, found), later); name in m && m[name] == found
  {
    KnownStays(Remember(memo, name, found), name, later);
  }

  lemma {:induction false} KnownStays<T>(memo: map<string, T>, name: string, later: seq<(string, T)>)
    requires name in memo
    ensures name in AfterLookups(memo, later) && AfterLookups(memo, later)[name] == memo[name]
    decreases |later|
  {
    if later != [] {
      KnownStays(Remember(memo, later[0].0, later[0].1), name, later[1..]);
    }
  }

  class Memos {
    var which: map<string, Option<string>>
    var trusted: map<string, bool>

    constructor ()
      ensures which == map[] && trusted == map[]
    {
      which, trusted := map[], map[];
    }

    /** The first lookup of a name decides for the life of the process. */
    method CheckBinaryOnPath(name: string, found: Option<string>) returns (r: Probe)
      modifies this`which
      ensures name in which && r == Checked(which[name].Some?, ProviderUnavailable) && HelperVerdict(r)
      ensures which == Remember(old(which), name, found)
    {
      if name !in which {
        which := which[name := found];
      }
      r := if which[name].None? then PreflightFailed(Some(ProviderUnavailable)) else PreflightOk;
    }

    /** `there` is None when the file system call raises. */
    method CheckWorkspaceTrustFile(path: string, there: Option<bool>) returns (r: Probe)
      modifies this`trusted
      ensures path in trusted && r == Checked(trusted[path], WorkspaceUntrusted) && HelperVerdict(r)
      ensures trusted == Remember(old(trusted), path, there == Some(true))
    {
      var present: bool;
      if path in trusted {
        present := trusted[path];
      } else {
        present := there.Some? && there.value;
        trusted := trusted[path := present];
      }
      r := if !present then PreflightFailed(Some(WorkspaceUntrusted)) else PreflightOk;
    }
  }

  /** What the vault answers: nothing, an exception, or how many fields the credentials have. */
  datatype Fetch = NoCredentials | FetchRaised | Credentials(fields: nat)

  function CheckCredentialsPresent(f: Fetch): (r: Probe)
    ensures HelperVerdict(r) && (r.PreflightOk? <==> f.Credentials? && f.fields > 0)
    ensures r.PreflightFailed? ==> r.status == Some(NeedsAuth)
  {
    Checked(f.Credentials? && f.fields > 0, NeedsAuth)
  }

  // ---- Redis ----

  /** A verdict some worker wrote: under which key, which way, when, and for how long. */
  datatype Write = Write(key: string, ok: bool, at: real, ttl: nat)

  datatype Entry = Entry(value: string, at: real, ttl: nat)

  function Digit(ok: bool): string {
    if ok then "1" else "0"
  }

  /** What other workers do to the store while this one is between two calls of its own. */
  datatype Op =
    | Tick(seconds: real)
    | OtherWrites(key: string, ok: bool, ttl: nat)
    | OtherJunk(key: string, value: string, ttl: nat)

  /** The last verdict written under a key. */
  function LastWrite(log: seq<Write>, key: string): Option<Write> {
    if log == [] then None
    else if log[|log| - 1].key == key then Some(log[|log| - 1])
    else LastWrite(log[..|log| - 1], key)
  }

  lemma LastWriteAppend(log: seq<Write>, w: Write, key: string)
    ensures LastWrite(log + [w], key) == if w.key == key then Some(w) else LastWrite(log, key)
  {
    assert (log + [w])[..|log|] == log;
  }

  /** The last verdict written under a key says `ok`, and its time to live is not over. */
  ghost predicate Live(log: seq<Write>, key: string, ok: bool, now: real) {
    var w := LastWrite(log, key);
    w.Some? && w.value.ok == ok && w.value.at <= now < w.value.at + w.value.ttl as real
  }

  /** The store answers a read of the key with one of these values. */
  predicate Holds(store: map<string, Entry>, key: string, now: real, values: set<string>) {
    key in store && now < store[key].at + store[key].ttl as real && store[key].value in values
  }

  class Redis {
    var now: real
    var store: map<string, Entry>
    ghost var log: seq<Write>

    /** Every entry that reads as a verdict is the last one a worker wrote under its key, and none is from the
      * future. */
    ghost predicate Valid()
      reads this
    {
      forall k | k in store :: Backed(k, store[k])
    }

    ghost predicate Backed(k: string, e: Entry)
      reads this
    {
      e.at <= now && forall ok | e.value == Digit(ok) :: LastWrite(log, k) == Some(Write(k, ok, e.at, e.ttl))
    }

    constructor (now: real)
      ensures Valid() && this.now == now && store == map[] && log == []
    {
      this.now, store, log := now, map[], [];
    }

    /** An entry is gone once its time to live is over. */
    method Get(key: string) returns (value: Option<string>)
      requires Valid()
      ensures value == if key in store && now < store[key].at + store[key].ttl as real then Some(store[key].value)
                       else None
      ensures forall ok | value == Some(Digit(ok)) :: Live(log, key, ok, now)
    {
      value := None;
      if key in store && now < store[key].at + store[key].ttl as real {
        value := Some(store[key].value);
        assert Backed(key, store[key]);
      }
    }

    method SetEx(key: string, ttl: nat, ok: bool)
      requires Valid()
      modifies this`store, this`log
      ensures Valid() && log == old(log) + [Write(key, ok, now, ttl)]
      ensures store == old(store)[key := Entry(Digit(ok), now, ttl)]
    {
      ghost var w := Write(key, ok, now, ttl);
      forall k | k in store
        ensures k != key ==> LastWrite(log + [w], k) == LastWrite(log, k)
      {
        assert Backed(k, store[k]);
        LastWriteAppend(log, w, k);
      }
      LastWriteAppend(log, w, key);
      store, log := store[key := Entry(Digit(ok), now, ttl)], log + [w];
    }

    method Others(ops: seq<Op>)
      requires Valid() && forall i | 0 <= i < |ops| && ops[i].Tick? :: 0.0 <= ops[i].seconds
      requires forall i | 0 <= i < |ops| && ops[i].OtherJunk? :: ops[i].value != "0" && ops[i].value != "1"
      modifies this
      ensures Valid() && old(log) <= log && old(now) <= now
      ensures ops == [] ==> store == old(store)
    {
      for i := 0 to |ops|
        invariant Valid() && old(log) <= log && old(now) <= now
        invariant i == 0 ==> store == old(store)
      {
        match ops[i] {
          case Tick(seconds) => now := now + seconds;
          case OtherWrites(key, ok, ttl) => SetEx(key, ttl, ok);
          case OtherJunk(key, value, ttl) => store := store[key := Entry(value, now, ttl)];
        }
      }
    }

    /** A verdict from the cache, or else from a probe, which is then cached; `others` is what the other workers do
      * between the two. A cached verdict is that of the last write under the same key, whose time to live is not over;
      * an uncached one is the probe's, and it is what the cache holds afterwards unless the write failed. */
    method CheckCached(key: string, failure: Status, ttl: nat, getRaises: bool, ok: bool, others: seq<Op>,
                       setRaises: bool)
      returns (r: Probe, ghost cached: bool)
      requires Valid() && HelperStatus(failure)
      requires forall i | 0 <= i < |others| && others[i].Tick? :: 0.0 <= others[i].seconds
      requires forall i | 0 <= i < |others| && others[i].OtherJunk? :: others[i].value != "0" && others[i].value != "1"
      modifies this
      ensures Valid() && HelperVerdict(r) && old(log) <= log
      ensures r == Checked(r.PreflightOk?, failure)
      ensures cached ==> now == old(now) && log == old(log) && store == old(store)
      ensures cached ==> Live(log, key, r.PreflightOk?, now)
      ensures !cached ==> r.PreflightOk? == ok
      ensures cached <==> !getRaises && Holds(old(store), key, old(now), {"0", "1"})
      ensures cached ==> (r.PreflightOk? <==> old(store)[key].value == "1")
      ensures !cached && !setRaises ==> key in store && store[key] == Entry(if ok then "1" else "0", now, ttl)
      ensures !cached && setRaises && others == [] ==> store == old(store)
    {
      var value: Option<string> := None;
      if !getRaises {
        value := Get(key);
      }
      cached := true;
      if value == Some("1") {
        assert value == Some(Digit(true));
        return PreflightOk, true;
      }
      if value == Some("0") {
        assert value == Some(Digit(false));
        return PreflightFailed(Some(failure)), true;
      }
      cached := false;
      Others(others);
      if !setRaises {
        SetEx(key, ttl, ok);
      }
      r := if ok then PreflightOk else PreflightFailed(Some(failure));
    }

    /** `probe` is None when the probe raises, which counts as a disabled API. */
    method CheckCloudApiEnabled(tenant: string, platform: string, ttl: nat, getRaises: bool, probe: Option<bool>,
                                others: seq<Op>, setRaises: bool) returns (r: Probe, ghost cached: bool)
      requires Valid()
      requires forall i | 0 <= i < |others| && others[i].Tick? :: 0.0 <= others[i].seconds
      requires forall i | 0 <= i < |others| && others[i].OtherJunk? :: others[i].value != "0" && others[i].value != "1"
      modifies this
      ensures Valid() && HelperVerdict(r) && old(log) <= log && r == Checked(r.PreflightOk?, ApiDisabled)
      ensures var key := "cli_orchestrator:preflight:cloud_api:" + tenant + ":" + platform;
              && (cached <==> !getRaises && Holds(old(store), key, old(now), {"0", "1"}))
              && (cached ==> Live(log, key, r.PreflightOk?, now))
      ensures !cached ==> (r.PreflightOk? <==> probe == Some(true))
    {
      r, cached := CheckCached(CloudKey(tenant, platform), ApiDisabled, ttl, getRaises, probe == Some(true), others,
                               setRaises);
    }

    /** `lastSeen` is None when no heartbeat is on record, it does not read as a number, or the probe raises. */
    method CheckTemporalQueueReachable(queue: string, ttl: nat, getRaises: bool, lastSeen: Option<real>, clock: real,
                                       others: seq<Op>, setRaises: bool) returns (r: Probe, ghost cached: bool)
      requires Valid()
      requires forall i | 0 <= i < |others| && others[i].Tick? :: 0.0 <= others[i].seconds
      requires forall i | 0 <= i < |others| && others[i].OtherJunk? :: others[i].value != "0" && others[i].value != "1"
      modifies this
      ensures Valid() && HelperVerdict(r) && old(log) <= log && r == Checked(r.PreflightOk?, ProviderUnavailable)
      ensures var key := "cli_orchestrator:preflight:temporal_queue:" + queue;
              && (cached <==> !getRaises && Holds(old(store), key, old(now), {"0", "1"}))
              && (cached ==> Live(log, key, r.PreflightOk?, now))
      ensures !cached ==> (r.PreflightOk? <==> lastSeen.Some? && 0.0 <= clock - lastSeen.value <= 60.0)
    {
      var recent := lastSeen.Some? && clock - lastSeen.value >= 0.0 && clock - lastSeen.value <= 60.0;
      r, cached := CheckCached(QueueKey(queue), ProviderUnavailable, ttl, getRaises, recent, others, setRaises);
    }
  }

  // ---- Keys ----

  const CLOUD: string := "cli_orchestrator:preflight:cloud_api:"
  const QUEUE: string := "cli_orchestrator:preflight:temporal_queue:"

  function CloudKey(tenant: string, platform: string): string {
    CLOUD + tenant + ":" + platform
  }

  function QueueKey(queue: string): string {
    QUEUE + queue
  }

  /** Two tenants without a colon in their identifiers never share a cloud verdict, nor do two platforms of one, and no
    * cloud verdict is ever taken for a queue's. */
  lemma KeysAreApart(t: string, p: string, t2: string, p2: string, queue: string)
    requires ':' !in t && ':' !in t2
    ensures CloudKey(t, p) == CloudKey(t2, p2) <==> t == t2 && p == p2
    ensures CloudKey(t, p) != QueueKey(queue)
  {
    hide CLOUD;
    if CloudKey(t, p) == CloudKey(t2, p2) {
      var c := |CLOUD|;
      assert CloudKey(t, p)[c..] == t + ":" + p && CloudKey(t2, p2)[c..] == t2 + ":" + p2;
      FirstColon(t, p, t2, p2);
    }
    assert CloudKey(t, p)[27] == 'c' && QueueKey(queue)[27] == 't' by {
      Prefixes();
      assert CloudKey(t, p)[27] == CLOUD[27] && QueueKey(queue)[27] == QUEUE[27];
    }
  }

  lemma Prefixes()
    ensures |CLOUD| > 27 && CLOUD[27] == 'c' && |QUEUE| > 27 && QUEUE[27] == 't'
  {
  }

  lemma FirstColon(t: string, p: string, t2: string, p2: string)
    requires ':' !in t && ':' !in t2 && t + ":" + p == t2 + ":" + p2
    ensures t == t2 && p == p2
  {
    var s := t + ":" + p;
    assert s[|t|] == ':' && s[|t2|] == ':';
    assert forall i | 0 <= i < |t| :: s[i] == t[i] && s[i] != ':';
    assert forall i | 0 <= i < |t2| :: s[i] == t2[i] && s[i] != ':';
    assert s[..|t|] == t && s[|t| + 1..] == p;
    assert s[..|t2|] == t2 && s[|t2| + 1..] == p2;
  }
}
