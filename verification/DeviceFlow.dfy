/** Polling for a device-flow token: section 3.5 of RFC 8628. */
module DeviceFlow {
  import opened Wrappers

  /** What one poll came to; `Broken` is a reply or a transport error outside the protocol. */
  datatype Reply = Pending | Approved(token: string) | Denied | Expired | SlowDown | Broken

  datatype Outcome = Token(token: string) | FlowDenied | FlowExpired | PollFailed

  /** What the token endpoint answered: nothing, or whether the status is a success and the body's two fields. */
  datatype Answer = NoAnswer | Answer(success: bool, accessToken: Option<string>, error: Option<string>)

  /** The decoding of one answer; a success without a token and an unknown error are outside the protocol. */
  function Classify(a: Answer): (r: Reply)
    ensures r.Approved? <==> a.Answer? && a.success && a.accessToken.Some?
    ensures r.Pending? <==> a.Answer? && !a.success && a.error == Some("authorization_pending")
    ensures r.SlowDown? <==> a.Answer? && !a.success && a.error == Some("slow_down")
    ensures r.Expired? <==> a.Answer? && !a.success && a.error == Some("expired_token")
    ensures r.Denied? <==> a.Answer? && !a.success && a.error == Some("access_denied")
    ensures r.Approved? ==> r.token == a.accessToken.value
  {
    if a.NoAnswer? then Broken
    else if a.success then if a.accessToken.Some? then Approved(a.accessToken.value) else Broken
    else if a.error == Some("authorization_pending") then Pending
    else if a.error == Some("slow_down") then SlowDown
    else if a.error == Some("expired_token") then Expired
    else if a.error == Some("access_denied") then Denied
    else Broken
  }

  function Replies(answers: nat -> Answer): nat -> Reply {
    (k: nat) => Classify(answers(k))
  }

  /** Replies after which the client polls again. */
  predicate GoesOn(r: Reply) {
    r.Pending? || r.SlowDown?
  }

  /** How many of the first `n` replies asked the client to slow down. */
  function SlowDowns(replies: nat -> Reply, n: nat): nat {
    if n == 0 then 0 else SlowDowns(replies, n - 1) + if replies(n - 1).SlowDown? then 1 else 0
  }

  function Interval(code: nat): (i: nat)
    ensures 0 < i
  {
    if code < 1 then 1 else code
  }

  /** What section 3.5 demands before poll `k`: the interval, and five seconds more for each `slow_down` so far. */
  function Demanded(code: nat, replies: nat -> Reply, k: nat): nat {
    Interval(code) + 5 * SlowDowns(replies, k)
  }

  function TotalDemanded(code: nat, replies: nat -> Reply, n: nat): nat {
    if n == 0 then 0 else TotalDemanded(code, replies, n - 1) + Demanded(code, replies, n - 1)
  }

  /** The polls that fit: the smallest number of intervals that reaches the lifetime. */
  function Ceiling(expiresIn: nat, interval: nat): nat
    requires 0 < interval
  {
    (expiresIn + interval - 1) / interval
  }

  function ResultOf(r: Reply): Outcome
    requires !GoesOn(r)
  {
    match r
    case Approved(token) => Token(token)
    case Denied => FlowDenied
    case Expired => FlowExpired
    case Broken => PollFailed
  }

  /** The pacing of the polls made by the time `now`: each wait as demanded, the waits before the last one within the
    * lifetime, no more of them than the lifetime has room for, and no time passing but the waits and the lateness. */
  ghost predicate Paced(code: nat, expiresIn: nat, replies: nat -> Reply, late: nat -> real, start: real,
                        slept: seq<nat>, now: real) {
    && (forall k | 0 <= k < |slept| :: slept[k] == Demanded(code, replies, k))
    && (|slept| > 0 ==> TotalDemanded(code, replies, |slept| - 1) < expiresIn)
    && |slept| <= Ceiling(expiresIn, Interval(code))
    && start + TotalDemanded(code, replies, |slept|) as real <= now
    && ((forall k: nat :: late(k) == 0.0) ==> now == start + TotalDemanded(code, replies, |slept|) as real)
  }

  /** How a flow that made `n` polls ends: every reply but the last one kept it going, the last one or the deadline
    * ended it, and every decoded reply was reported once, in order. */
  ghost predicate Ended(replies: nat -> Reply, n: nat, r: Outcome, ticks: seq<Reply>) {
    && (forall k | 0 <= k < n - 1 :: GoesOn(replies(k)))
    && r == (if n == 0 || GoesOn(replies(n - 1)) then FlowExpired else ResultOf(replies(n - 1)))
    && |ticks| == n - (if r == PollFailed then 1 else 0)
    && forall k | 0 <= k < |ticks| :: ticks[k] == replies(k)
  }

  lemma NothingPaced(code: nat, expiresIn: nat, replies: nat -> Reply, late: nat -> real, now: real)
    ensures Paced(code, expiresIn, replies, late, now, [], now)
  {
  }

  lemma PacedSleep(code: nat, expiresIn: nat, replies: nat -> Reply, late: nat -> real, start: real,
                   slept: seq<nat>, now: real)
    requires Paced(code, expiresIn, replies, late, start, slept, now)
    requires now < start + expiresIn as real && 0.0 <= late(|slept|)
    ensures |slept| < Ceiling(expiresIn, Interval(code))
    ensures var wait := Demanded(code, replies, |slept|);
            Paced(code, expiresIn, replies, late, start, slept + [wait], now + wait as real + late(|slept|))
  {
    hide Ceiling, Demanded;
    var n := |slept|;
    AtLeast(code, replies, n);
    assert TotalDemanded(code, replies, n) < expiresIn;
    RoomForOne(expiresIn, Interval(code), n, TotalDemanded(code, replies, n));
  }

  /** The polls made, seen from outside: how long the client slept before each, and the outcomes it reported. */
  class DeviceFlow {
    var slept: seq<nat>
    var ticks: seq<Reply>
    var now: real

    constructor (now: real)
      ensures this.now == now && slept == [] && ticks == []
    {
      this.now, slept, ticks := now, [], [];
    }

    method Sleep(seconds: nat, late: real)
      requires 0.0 <= late
      modifies this`slept, this`now
      ensures slept == old(slept) + [seconds] && now == old(now) + seconds as real + late
    {
      slept, now := slept + [seconds], now + seconds as real + late;
    }

    /** The loop. `late(k)` is how much longer than asked sleep `k` and its poll took together. */
    method Complete(code: nat, expiresIn: nat, answers: nat -> Answer, late: nat -> real) returns (r: Outcome)
      requires slept == [] && ticks == [] && forall k: nat :: 0.0 <= late(k)
      modifies this
      ensures Paced(code, expiresIn, Replies(answers), late, old(now), slept, now)
      ensures Ended(Replies(answers), |slept|, r, ticks)
      ensures |slept| == 0 || GoesOn(Replies(answers)(|slept| - 1)) ==> old(now) + expiresIn as real <= now
      ensures slept == [] <==> expiresIn == 0
    {
      hide Paced, TotalDemanded, Ceiling;
      var interval := if code < 1 then 1 else code;
      var deadline := now + expiresIn as real;
      ghost var start, replies := now, Replies(answers);
      NothingPaced(code, expiresIn, replies, late, start);
      while now < deadline
        invariant interval == Demanded(code, replies, |slept|)
        invariant Paced(code, expiresIn, replies, late, start, slept, now)
        invariant forall k | 0 <= k < |slept| :: GoesOn(replies(k))
        invariant |ticks| == |slept| && forall k | 0 <= k < |ticks| :: ticks[k] == replies(k)
        invariant if slept == [] then now == start else 0 < expiresIn
        decreases Ceiling(expiresIn, Interval(code)) - |slept|
      {
        PacedSleep(code, expiresIn, replies, late, start, slept, now);
        Sleep(interval, late(|slept|));
        var outcome := Classify(answers(|slept| - 1));
        if outcome.Broken? {
          r := PollFailed;
          return;
        }
        ticks := ticks + [outcome];
        match outcome {
          case Approved(token) =>
            r := Token(token);
            return;
          case Pending =>
          case SlowDown =>
            interval := interval + 5;
          case Denied =>
            r := FlowDenied;
            return;
          case Expired =>
            r := FlowExpired;
            return;
        }
      }
      r := FlowExpired;
    }
  }

  /** The server refused a poll with this error. */
  predicate Refused(a: Answer, error: string) {
    a.Answer? && !a.success && a.error == Some(error)
  }

  /** A flow that ends after its last poll ends as that answer says; what else ends it is the deadline, or an answer
    * outside the protocol. */
  predicate EndsAsAnswered(r: Outcome, last: Answer) {
    && (r.Token? <==> last.Answer? && last.success && last.accessToken.Some?)
    && (r.Token? ==> last.accessToken == Some(r.token))
    && (r.FlowDenied? <==> Refused(last, "access_denied"))
    && (r.FlowExpired? <==>
          Refused(last, "expired_token") || Refused(last, "slow_down") || Refused(last, "authorization_pending"))
  }

  /** The waits, told by the answers: the code's interval first, at least one second, and five more after each
    * `slow_down`. */
  lemma WaitsFollowAnswers(code: nat, expiresIn: nat, answers: nat -> Answer, late: nat -> real, start: real,
                           slept: seq<nat>, now: real)
    requires Paced(code, expiresIn, Replies(answers), late, start, slept, now)
    ensures slept != [] ==> slept[0] == if code == 0 then 1 else code
    ensures forall k | 0 <= k < |slept| - 1 ::
              slept[k + 1] == slept[k] + if Refused(answers(k), "slow_down") then 5 else 0
  {
    forall k | 0 <= k < |slept| - 1
      ensures slept[k + 1] == slept[k] + if Refused(answers(k), "slow_down") then 5 else 0
    {
      assert slept[k] == Demanded(code, Replies(answers), k);
      assert slept[k + 1] == Demanded(code, Replies(answers), k + 1);
    }
  }

  /** The end, told by the last answer. */
  lemma LastAnswerDecides(answers: nat -> Answer, n: nat, r: Outcome, ticks: seq<Reply>)
    requires Ended(Replies(answers), n, r, ticks)
    ensures if n == 0 then r == FlowExpired else EndsAsAnswered(r, answers(n - 1))
    ensures forall k | 0 <= k < |ticks| :: ticks[k] == Classify(answers(k))
    ensures n > 0 ==> forall k | 0 <= k < n - 1 ::
              Refused(answers(k), "slow_down") || Refused(answers(k), "authorization_pending")
  {
    assert forall k | 0 <= k < n :: Replies(answers)(k) == Classify(answers(k));
  }

  lemma {:induction false} AtLeast(code: nat, replies: nat -> Reply, n: nat)
    ensures n * Interval(code) <= TotalDemanded(code, replies, n)
  {
    if n > 0 {
      AtLeast(code, replies, n - 1);
      assert n * Interval(code) == (n - 1) * Interval(code) + Interval(code);
    }
  }

  lemma CeilingTimes(expiresIn: nat, interval: nat)
    requires 0 < interval
    ensures expiresIn <= Ceiling(expiresIn, interval) * interval <= expiresIn + interval - 1
  {
    var total := expiresIn + interval - 1;
    assert total == total / interval * interval + total % interval;
  }

  lemma TimesMonotone(a: nat, b: nat, i: nat)
    requires a <= b
    ensures a * i <= b * i
  {
  }

  lemma RoomForOne(expiresIn: nat, interval: nat, n: nat, total: nat)
    requires 0 < interval && n * interval <= total < expiresIn
    ensures n < Ceiling(expiresIn, interval)
  {
    hide Ceiling;
    CeilingTimes(expiresIn, interval);
    if Ceiling(expiresIn, interval) <= n {
      TimesMonotone(Ceiling(expiresIn, interval), n, interval);
      assert false;
    }
  }

  /** The demanded waits only grow. */
  lemma {:induction false} DemandGrows(code: nat, replies: nat -> Reply, j: nat, k: nat)
    requires j <= k
    ensures Demanded(code, replies, j) <= Demanded(code, replies, k)
    ensures SlowDowns(replies, k) <= k
  {
    if k > 0 {
      DemandGrows(code, replies, if j < k then j else k - 1, k - 1);
    }
  }

  /** Twice the total of the first `n` waits when each reply adds five seconds. */
  function Series(i: nat, n: nat): int {
    2 * n * i + 5 * n * (n - 1)
  }

  lemma SeriesGrows(i: nat, n: nat)
    requires n > 0
    ensures Series(i, n) == Series(i, n - 1) + 2 * i + 10 * (n - 1)
  {
    assert 2 * n * i == 2 * (n - 1) * i + 2 * i;
    FiveTimes(n);
  }

  lemma FiveTimes(n: int)
    ensures 5 * n * (n - 1) == 5 * (n - 1) * (n - 2) + 10 * (n - 1)
  {
  }

  /** Every reply so far was `slow_down`: the waits form an arithmetic series. */
  lemma {:induction false} AllSlow(code: nat, replies: nat -> Reply, n: nat)
    requires forall k | 0 <= k < n :: replies(k).SlowDown?
    ensures SlowDowns(replies, n) == n
    ensures 2 * TotalDemanded(code, replies, n) == Series(Interval(code), n)
  {
    hide Series, Interval;
    if n > 0 {
      AllSlow(code, replies, n - 1);
      SeriesGrows(Interval(code), n);
    } else {
      NoSeries(Interval(code));
    }
  }

  lemma NoSeries(i: nat)
    ensures Series(i, 0) == 0
  {
  }

  /** A flow whose server answers `slow_down` every time: the waits before its last poll, an arithmetic series, add up
    * to less than the lifetime. */
  lemma SlowServerBound(code: nat, expiresIn: nat, replies: nat -> Reply, late: nat -> real, start: real,
                        slept: seq<nat>, now: real)
    requires Paced(code, expiresIn, replies, late, start, slept, now) && slept != []
    requires forall k | 0 <= k < |slept| :: replies(k).SlowDown?
    ensures var n := |slept|; 2 * (n - 1) * Interval(code) + 5 * (n - 1) * (n - 2) < 2 * expiresIn
  {
    hide Ceiling;
    AllSlow(code, replies, |slept| - 1);
  }

  lemma {:induction false} NeverSlow(code: nat, replies: nat -> Reply, n: nat)
    requires forall k | 0 <= k < n :: !replies(k).SlowDown?
    ensures SlowDowns(replies, n) == 0 && TotalDemanded(code, replies, n) == n * Interval(code)
  {
    if n > 0 {
      NeverSlow(code, replies, n - 1);
      assert n * Interval(code) == (n - 1) * Interval(code) + Interval(code);
    }
  }

  /** The bound on the number of polls is met: a flow whose server stays pending until the code expires, with no time
    * lost, polls exactly that often. */
  lemma PatientServerCount(code: nat, expiresIn: nat, replies: nat -> Reply, late: nat -> real, start: real,
                           slept: seq<nat>, now: real)
    requires Paced(code, expiresIn, replies, late, start, slept, now) && start + expiresIn as real <= now
    requires forall k: nat :: late(k) == 0.0
    requires forall k | 0 <= k < |slept| :: replies(k).Pending?
    ensures |slept| == Ceiling(expiresIn, Interval(code))
  {
    hide Ceiling, TotalDemanded, Interval;
    var n, i := |slept|, Interval(code);
    NeverSlow(code, replies, n);
    assert expiresIn <= n * i;
    CeilingTimes(expiresIn, i);
    if n < Ceiling(expiresIn, i) {
      TimesMonotone(n + 1, Ceiling(expiresIn, i), i);
      assert false;
    }
  }
}
