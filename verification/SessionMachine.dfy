/** Callers sharing persistent sessions: one lock a session, one process that answers its messages in order. */
module SessionMachine {
  import opened Wrappers
  import opened Interleavings

  /** A line a process wrote: a result event, or anything the reader skips. The result of message `m` is named by
    * `m`. */
  datatype Line = Result(message: int) | Noise

  /** One session's process and lock, and its history: the messages written to it, and how many results were read. */
  datatype Session = Session(inbox: seq<int>, outbox: seq<Line>, alive: bool, lock: Option<int>, written: seq<int>,
                             read: nat)

  datatype Outcome = Success(message: int) | Failure | Cancelled

  /** Where a call of `send_message` stands; `Killing` still holds the session's lock. */
  datatype Phase =
    | Looking
    | Creating
    | Queued(sid: nat)
    | Locked(sid: nat)
    | Reading(sid: nat)
    | Killing(sid: nat)
    | Done(outcome: Outcome)

  datatype Call = Call(tenant: string, phase: Phase)

  /** The dictionary of sessions by tenant, every session ever created, and the calls; a call's identity is its
    * message. */
  datatype State = State(current: map<string, nat>, sessions: seq<Session>, calls: map<int, Call>)

  datatype Action =
    | Send(id: int, tenant: string)
    | Look(id: int)
    | Create(id: int, ok: bool)
    | Acquire(id: int)
    | WriteMessage(id: int)
    | WriteRaises(id: int, delivered: bool)
    | ReadLine(id: int)
    | ReadEof(id: int)
    | ReadRaises(id: int)
    | TimeOut(id: int)
    | Kill(id: int)
    | Cancel(id: int)
    | Evict(tenant: string)
    | Chatter(sid: nat)
    | Answer(sid: nat)
    | Die(sid: nat)

  predicate InSession(p: Phase) {
    p.Queued? || p.Locked? || p.Reading? || p.Killing?
  }

  predicate HoldsLock(p: Phase) {
    p.Locked? || p.Reading? || p.Killing?
  }

  /** The call is known and stands in a session that exists. */
  predicate InPlace(s: State, id: int) {
    id in s.calls && (InSession(s.calls[id].phase) ==> s.calls[id].phase.sid < |s.sessions|)
  }

  function At(s: State, id: int): Session
    requires InPlace(s, id) && InSession(s.calls[id].phase)
  {
    s.sessions[s.calls[id].phase.sid]
  }

  predicate CallEnabled(s: State, a: Action, id: int)
    requires InPlace(s, id)
  {
    var p := s.calls[id].phase;
    match a
    case Look(_) => p.Looking?
    case Create(_, _) => p.Creating?
    case Acquire(_) => p.Queued? && At(s, id).lock.None?
    case WriteMessage(_) => p.Locked?
    case WriteRaises(_, _) => p.Locked?
    case ReadLine(_) => p.Reading? && At(s, id).outbox != []
    case ReadEof(_) => p.Reading? && At(s, id).outbox == [] && !At(s, id).alive
    case ReadRaises(_) => p.Reading?
    case TimeOut(_) => p.Reading?
    case Kill(_) => p.Killing?
    case Cancel(_) => !p.Done?
    case _ => false
  }

  predicate Enabled(s: State, a: Action) {
    match a
    case Send(id, _) => id !in s.calls
    case Evict(_) => true
    case Chatter(sid) => sid < |s.sessions| && s.sessions[sid].alive
    case Answer(sid) => sid < |s.sessions| && s.sessions[sid].alive && s.sessions[sid].inbox != []
    case Die(sid) => sid < |s.sessions|
    case _ => InPlace(s, a.id) && CallEnabled(s, a, a.id)
  }

  function Move(s: State, id: int, p: Phase): State
    requires id in s.calls
  {
    s.(calls := s.calls[id := s.calls[id].(phase := p)])
  }

  function Put(s: State, sid: nat, x: Session): State
    requires sid < |s.sessions|
  {
    s.(sessions := s.sessions[sid := x])
  }

  /** The call returns, releasing the lock if it held it. */
  function Return(s: State, id: int, o: Outcome): State
    requires InPlace(s, id)
  {
    var p := s.calls[id].phase;
    var s' := Move(s, id, Done(o));
    if HoldsLock(p) then Put(s', p.sid, At(s, id).(lock := None)) else s'
  }

  /** A session of the tenant whose process still runs is shared; otherwise a new one replaces it. */
  function LookStep(s: State, id: int): State
    requires InPlace(s, id)
  {
    var t := s.calls[id].tenant;
    if t in s.current && s.current[t] < |s.sessions| && s.sessions[s.current[t]].alive
    then Move(s, id, Queued(s.current[t])) else Move(s, id, Creating)
  }

  function CreateStep(s: State, id: int, ok: bool): State
    requires InPlace(s, id)
  {
    if !ok then Return(s, id, Failure) else
      Move(s, id, Queued(|s.sessions|)).(
        current := s.current[s.calls[id].tenant := |s.sessions|],
        sessions := s.sessions + [Session([], [], true, None, [], 0)])
  }

  function Deliver(x: Session, message: int): Session {
    x.(inbox := x.inbox + [message], written := x.written + [message])
  }

  function ReadLineStep(s: State, id: int): State
    requires InPlace(s, id) && s.calls[id].phase.Reading? && At(s, id).outbox != []
  {
    var x := At(s, id);
    var line := x.outbox[0];
    var s' := Put(s, s.calls[id].phase.sid, x.(outbox := x.outbox[1..],
        read := x.read + if line.Result? then 1 else 0));
    if line.Result? then Return(s', id, Success(line.message)) else s'
  }

  function CallStep(s: State, a: Action, id: int): State
    requires InPlace(s, id) && CallEnabled(s, a, id)
  {
    var p := s.calls[id].phase;
    match a
    case Look(_) => LookStep(s, id)
    case Create(_, ok) => CreateStep(s, id, ok)
    case Acquire(_) => Put(Move(s, id, Locked(p.sid)), p.sid, At(s, id).(lock := Some(id)))
    case WriteMessage(_) => Put(Move(s, id, Reading(p.sid)), p.sid, Deliver(At(s, id), id))
    case WriteRaises(_, delivered) =>
      Put(Move(s, id, Killing(p.sid)), p.sid, if delivered then Deliver(At(s, id), id) else At(s, id))
    case ReadLine(_) => ReadLineStep(s, id)
    case ReadEof(_) => Move(s, id, Killing(p.sid))
    case ReadRaises(_) => Move(s, id, Killing(p.sid))
    case TimeOut(_) => Return(s, id, Failure)
    case Kill(_) => Return(s, id, Failure).(current := s.current - {s.calls[id].tenant})
    case _ => Return(s, id, Cancelled)
  }

  function Step(s: State, a: Action): State
    requires Enabled(s, a)
  {
    match a
    case Send(id, tenant) => s.(calls := s.calls[id := Call(tenant, Looking)])
    case Evict(tenant) => s.(current := s.current - {tenant})
    case Chatter(sid) => Put(s, sid, s.sessions[sid].(outbox := s.sessions[sid].outbox + [Noise]))
    case Answer(sid) =>
      var x := s.sessions[sid];
      Put(s, sid, x.(inbox := x.inbox[1..], outbox := x.outbox + [Result(x.inbox[0])]))
    case Die(sid) => Put(s, sid, s.sessions[sid].(alive := false))
    case _ => CallStep(s, a, a.id)
  }

  const STEPS: Protocol<State, Action> :=
    Protocol((s, a) => Enabled(s, a), (s, a) => if Enabled(s, a) then Step(s, a) else s)

  ghost predicate Init(s: State) {
    s == State(map[], [], map[])
  }

  // ---- The invariant ----

  function Results(lines: seq<Line>): seq<int> {
    if lines == [] then [] else (if lines[0].Result? then [lines[0].message] else []) + Results(lines[1..])
  }

  /** What was written and not yet answered to a reader is on its way, in order. */
  ghost predicate InOrder(x: Session) {
    x.read <= |x.written| && Results(x.outbox) + x.inbox == x.written[x.read..]
  }

  ghost predicate Place(s: State, id: int)
    requires id in s.calls
  {
    var p := s.calls[id].phase;
    InSession(p) ==>
      && p.sid < |s.sessions|
      && (HoldsLock(p) <==> s.sessions[p.sid].lock == Some(id))
      && (p.Reading? ==> var w := s.sessions[p.sid].written; w != [] && w[|w| - 1] == id)
      && (p.Queued? || p.Locked? ==> id !in s.sessions[p.sid].written)
  }

  ghost predicate Placed(s: State) {
    forall id | id in s.calls :: Place(s, id)
  }

  /** Only calls write, each its own message, and a lock is held by a call in that session. */
  ghost predicate Owned(s: State, sid: nat)
    requires sid < |s.sessions|
  {
    var x := s.sessions[sid];
    && (x.lock.Some? ==> x.lock.value in s.calls && HoldsLock(s.calls[x.lock.value].phase))
    && (x.lock.Some? ==> s.calls[x.lock.value].phase.sid == sid)
    && (forall m | m in x.written ::
          m in s.calls && (s.calls[m].phase.Done? || (InSession(s.calls[m].phase) && s.calls[m].phase.sid == sid)))
    && (forall i, j | 0 <= i < j < |x.written| :: x.written[i] != x.written[j])
  }

  predicate Succeeded(calls: map<int, Call>, m: int) {
    m in calls && calls[m].phase.Done? && calls[m].phase.outcome.Success?
  }

  function Successes(calls: map<int, Call>, written: seq<int>): (n: nat)
    ensures n <= |written|
  {
    if written == [] then 0 else
      Successes(calls, written[..|written| - 1]) + if Succeeded(calls, written[|written| - 1]) then 1 else 0
  }

  /** Results are read by the calls that succeed. */
  ghost predicate Tallied(s: State, sid: nat)
    requires sid < |s.sessions|
  {
    s.sessions[sid].read == Successes(s.calls, s.sessions[sid].written)
  }

  ghost predicate SessionOk(s: State, sid: nat)
    requires sid < |s.sessions|
  {
    InOrder(s.sessions[sid]) && Owned(s, sid) && Tallied(s, sid)
  }

  ghost predicate Inv(s: State) {
    Placed(s) && forall sid | 0 <= sid < |s.sessions| :: SessionOk(s, sid)
  }

  lemma InitInv(s: State)
    requires Init(s)
    ensures Inv(s)
  {
  }

  // ---- Every step keeps it ----

  lemma {:induction false} ResultsAppend(lines: seq<Line>, line: Line)
    ensures Results(lines + [line]) == Results(lines) + if line.Result? then [line.message] else []
  {
    if lines == [] {
      assert lines + [line] == [line];
    } else {
      ResultsAppend(lines[1..], line);
      assert (lines + [line])[1..] == lines[1..] + [line];
    }
  }

  lemma SuccessesAppend(calls: map<int, Call>, written: seq<int>, m: int)
    ensures Successes(calls, written + [m]) == Successes(calls, written) + if Succeeded(calls, m) then 1 else 0
  {
    assert (written + [m])[..|written|] == written;
  }

  lemma {:induction false} SuccessesSame(calls: map<int, Call>, calls': map<int, Call>, written: seq<int>)
    requires forall m | m in written :: Succeeded(calls, m) == Succeeded(calls', m)
    ensures Successes(calls, written) == Successes(calls', written)
  {
    if written != [] {
      SuccessesSame(calls, calls', written[..|written| - 1]);
    }
  }

  lemma {:induction false} AllSucceeded(calls: map<int, Call>, written: seq<int>)
    ensures Successes(calls, written) == |written| <==> forall m | m in written :: Succeeded(calls, m)
  {
    if written != [] {
      var init, last := written[..|written| - 1], written[|written| - 1];
      AllSucceeded(calls, init);
      assert written == init + [last];
    }
  }

  /** What one call may do to itself and to its session. */
  ghost predicate Fair(s: State, id: int, sid: nat, p: Phase, x: Session)
    requires id in s.calls && sid < |s.sessions|
  {
    var was, w := s.sessions[sid], s.sessions[sid].written;
    && !s.calls[id].phase.Done?
    && (InSession(s.calls[id].phase) ==> s.calls[id].phase.sid == sid)
    && (InSession(p) ==> p.sid == sid) && (p.Looking? || p.Creating? ==> !InSession(s.calls[id].phase))
    && (x.lock == was.lock || (was.lock == None && x.lock == Some(id)) || (was.lock == Some(id) && x.lock == None))
    && (InSession(p) ==> (HoldsLock(p) <==> x.lock == Some(id)))
    && (x.lock == Some(id) ==> HoldsLock(p))
    && (x.written == w || (x.written == w + [id] && id !in w && was.lock == Some(id)))
    && (id in x.written ==> p.Done? || InSession(p))
    && (p.Reading? ==> x.written != [] && x.written[|x.written| - 1] == id)
    && (p.Queued? || p.Locked? ==> id !in x.written)
    && InOrder(x)
  }

  function Update(s: State, id: int, sid: nat, p: Phase, x: Session): State
    requires id in s.calls && sid < |s.sessions|
  {
    Put(Move(s, id, p), sid, x)
  }

  lemma UpdatePlaced(s: State, id: int, sid: nat, p: Phase, x: Session)
    requires Inv(s) && id in s.calls && sid < |s.sessions| && Fair(s, id, sid, p, x)
    ensures Placed(Update(s, id, sid, p, x))
  {
    hide InOrder, Tallied, Successes;
    var t := Update(s, id, sid, p, x);
    assert SessionOk(s, sid);
    forall other | other in t.calls
      ensures Place(t, other)
    {
      assert Place(s, other);
    }
  }

  lemma UpdateOwned(s: State, id: int, sid: nat, p: Phase, x: Session, other: nat)
    requires Inv(s) && id in s.calls && sid < |s.sessions| && Fair(s, id, sid, p, x) && other < |s.sessions|
    ensures Owned(Update(s, id, sid, p, x), other)
  {
    hide InOrder, Tallied, Successes;
    assert SessionOk(s, other) && SessionOk(s, sid);
    assert Place(s, id);
  }

  /** How a call's own message and the tally move together. */
  ghost predicate Balanced(s: State, id: int, sid: nat, p: Phase, x: Session)
    requires id in s.calls && sid < |s.sessions|
  {
    var w := s.sessions[sid].written;
    if p.Done? && p.outcome.Success? then
      w != [] && w[|w| - 1] == id && x.written == w && x.read == s.sessions[sid].read + 1
    else x.read == s.sessions[sid].read
  }

  lemma UpdateTallied(s: State, id: int, sid: nat, p: Phase, x: Session, other: nat)
    requires Inv(s) && id in s.calls && sid < |s.sessions| && Fair(s, id, sid, p, x) && other < |s.sessions|
    requires Balanced(s, id, sid, p, x)
    ensures Tallied(Update(s, id, sid, p, x), other)
  {
    hide InOrder, Successes;
    var t, w := Update(s, id, sid, p, x), s.sessions[other].written;
    assert SessionOk(s, other) && SessionOk(s, sid);
    var success := p.Done? && p.outcome.Success?;
    if success && other == sid {
      var init := w[..|w| - 1];
      assert w == init + [id];
      SuccessesSame(s.calls, t.calls, init);
      SuccessesAppend(s.calls, init, id);
      SuccessesAppend(t.calls, init, id);
    } else {
      assert success ==> id !in w;
      SuccessesSame(s.calls, t.calls, w);
      SuccessesAppend(t.calls, w, id);
    }
  }

  lemma UpdateInv(s: State, id: int, sid: nat, p: Phase, x: Session)
    requires Inv(s) && id in s.calls && sid < |s.sessions| && Fair(s, id, sid, p, x) && Balanced(s, id, sid, p, x)
    ensures Inv(Update(s, id, sid, p, x))
  {
    hide Owned, Tallied, InOrder, Placed, Balanced;
    var t := Update(s, id, sid, p, x);
    UpdatePlaced(s, id, sid, p, x);
    forall other | 0 <= other < |t.sessions|
      ensures SessionOk(t, other)
    {
      assert SessionOk(s, other);
      UpdateOwned(s, id, sid, p, x, other);
      UpdateTallied(s, id, sid, p, x, other);
    }
  }

  const NEW_SESSION := Session([], [], true, None, [], 0)

  lemma ExtendInv(s: State)
    requires Inv(s)
    ensures Inv(s.(sessions := s.sessions + [NEW_SESSION]))
  {
    var t := s.(sessions := s.sessions + [NEW_SESSION]);
    forall id | id in t.calls
      ensures Place(t, id)
    {
      assert Place(s, id);
    }
    forall sid | 0 <= sid < |t.sessions|
      ensures SessionOk(t, sid)
    {
      if sid < |s.sessions| {
        assert SessionOk(s, sid);
      }
    }
  }

  /** A call outside every session goes on, ends, or queues for a session it has not written to. */
  lemma MoveInv(s: State, id: int, p: Phase)
    requires Inv(s) && id in s.calls && !InSession(s.calls[id].phase) && !s.calls[id].phase.Done?
    requires p.Creating? || (p.Done? && !p.outcome.Success?) || (p.Queued? && p.sid < |s.sessions|)
    ensures Inv(Move(s, id, p))
  {
    hide InOrder, Successes;
    var t := Move(s, id, p);
    forall other | other in t.calls
      ensures Place(t, other)
    {
      assert Place(s, other);
      assert p.Queued? ==> SessionOk(s, p.sid);
    }
    forall sid | 0 <= sid < |t.sessions|
      ensures SessionOk(t, sid)
    {
      assert SessionOk(s, sid);
      SuccessesSame(s.calls, t.calls, s.sessions[sid].written);
    }
  }

  /** A step of a process: it may answer, chatter or die, and owns nothing else. */
  lemma ProcessInv(s: State, sid: nat, x: Session)
    requires Inv(s) && sid < |s.sessions| && InOrder(x)
    requires x.lock == s.sessions[sid].lock && x.written == s.sessions[sid].written && x.read == s.sessions[sid].read
    ensures Inv(Put(s, sid, x))
  {
    hide InOrder, Successes;
    var t := Put(s, sid, x);
    forall id | id in t.calls
      ensures Place(t, id)
    {
      assert Place(s, id);
    }
    forall other | 0 <= other < |t.sessions|
      ensures SessionOk(t, other)
    {
      assert SessionOk(s, other) && SessionOk(s, sid);
    }
  }

  lemma AnswerInOrder(x: Session)
    requires InOrder(x) && x.inbox != []
    ensures InOrder(x.(inbox := x.inbox[1..], outbox := x.outbox + [Result(x.inbox[0])]))
  {
    ResultsAppend(x.outbox, Result(x.inbox[0]));
    assert x.inbox == [x.inbox[0]] + x.inbox[1..];
  }

  lemma ChatterInOrder(x: Session)
    requires InOrder(x)
    ensures InOrder(x.(outbox := x.outbox + [Noise]))
  {
    ResultsAppend(x.outbox, Noise);
    assert Results(x.outbox) + [] == Results(x.outbox);
  }

  lemma DeliverInOrder(x: Session, m: int)
    requires InOrder(x)
    ensures InOrder(Deliver(x, m))
  {
    assert (x.written + [m])[x.read..] == x.written[x.read..] + [m];
  }

  /** The next line that matters to a reader is the result of the oldest message whose result was not read. */
  lemma ReadInOrder(x: Session)
    requires InOrder(x) && x.outbox != []
    ensures InOrder(x.(outbox := x.outbox[1..], read := x.read + if x.outbox[0].Result? then 1 else 0))
    ensures x.outbox[0].Result? ==> x.read < |x.written| && x.outbox[0].message == x.written[x.read]
  {
    var rest := Results(x.outbox[1..]);
    if x.outbox[0].Result? {
      assert Results(x.outbox) == [x.outbox[0].message] + rest;
      assert x.written[x.read..][0] == x.outbox[0].message;
      assert x.written[x.read..][1..] == x.written[x.read + 1..];
      assert ([x.outbox[0].message] + rest + x.inbox)[1..] == rest + x.inbox;
    } else {
      assert [] + rest == rest;
    }
  }

  lemma LockFree(x: Session, l: Option<int>)
    requires InOrder(x)
    ensures InOrder(x.(lock := l))
  {
  }

  lemma CurrentFree(s: State, current: map<string, nat>)
    requires Inv(s)
    ensures Inv(s.(current := current))
  {
    hide InOrder, Successes;
    var t := s.(current := current);
    assert forall id | id in t.calls :: Place(s, id) ==> Place(t, id);
    assert forall sid | 0 <= sid < |t.sessions| :: SessionOk(s, sid) ==> SessionOk(t, sid);
  }

  /** A call that leaves its session without a result. */
  lemma ReturnInv(s: State, id: int, o: Outcome)
    requires Inv(s) && InPlace(s, id) && InSession(s.calls[id].phase) && !o.Success?
    ensures Inv(Return(s, id, o))
  {
    hide InOrder, Successes, Inv;
    var sid, x := s.calls[id].phase.sid, At(s, id);
    InvMeans(s, id, sid);
    var x' := if HoldsLock(s.calls[id].phase) then x.(lock := None) else x;
    LockFree(x, None);
    UpdateInv(s, id, sid, Done(o), x');
    assert Put(Move(s, id, Done(o)), sid, x) == Move(s, id, Done(o));
  }

  lemma InvMeans(s: State, id: int, sid: nat)
    requires Inv(s) && id in s.calls && sid < |s.sessions|
    ensures Place(s, id) && SessionOk(s, sid)
  {
  }

  lemma KillingInv(s: State, id: int)
    requires Inv(s) && InPlace(s, id) && s.calls[id].phase.Reading?
    ensures Inv(Move(s, id, Killing(s.calls[id].phase.sid)))
  {
    hide InOrder, Successes, Inv;
    var sid, x := s.calls[id].phase.sid, At(s, id);
    InvMeans(s, id, sid);
    UpdateInv(s, id, sid, Killing(sid), x);
    assert Put(Move(s, id, Killing(sid)), sid, x) == Move(s, id, Killing(sid));
  }

  lemma WriteInv(s: State, id: int, delivered: bool, p: Phase)
    requires Inv(s) && InPlace(s, id) && s.calls[id].phase.Locked?
    requires p == Killing(s.calls[id].phase.sid) || (delivered && p == Reading(s.calls[id].phase.sid))
    ensures Inv(Update(s, id, s.calls[id].phase.sid, p, if delivered then Deliver(At(s, id), id) else At(s, id)))
  {
    hide InOrder, Successes, Inv, Deliver;
    var sid, x := s.calls[id].phase.sid, At(s, id);
    InvMeans(s, id, sid);
    DeliverInOrder(x, id);
    DeliverOnly(x, id);
    UpdateInv(s, id, sid, p, if delivered then Deliver(x, id) else x);
  }

  lemma AcquireInv(s: State, id: int)
    requires Inv(s) && InPlace(s, id) && CallEnabled(s, Acquire(id), id)
    ensures Inv(CallStep(s, Acquire(id), id))
  {
    hide InOrder, Successes, Inv;
    var sid, x := s.calls[id].phase.sid, At(s, id);
    InvMeans(s, id, sid);
    LockFree(x, Some(id));
    UpdateInv(s, id, sid, Locked(sid), x.(lock := Some(id)));
  }

  /** What a line read does: a skipped line leaves the reader waiting, a result ends the call. */
  lemma ReadInv(s: State, id: int)
    requires Inv(s) && InPlace(s, id) && CallEnabled(s, ReadLine(id), id)
    ensures Inv(ReadLineStep(s, id))
  {
    hide InOrder, Successes, Inv, Results;
    var sid, x := s.calls[id].phase.sid, At(s, id);
    InvMeans(s, id, sid);
    ReadInOrder(x);
    var x' := x.(outbox := x.outbox[1..], read := x.read + if x.outbox[0].Result? then 1 else 0);
    if x.outbox[0].Result? {
      LockFree(x', None);
      UpdateInv(s, id, sid, Done(Success(x.outbox[0].message)), x'.(lock := None));
      assert s.sessions[sid := x'][sid := x'.(lock := None)] == s.sessions[sid := x'.(lock := None)];
    } else {
      ProcessInv(s, sid, x');
    }
  }

  lemma LookInv(s: State, id: int)
    requires Inv(s) && InPlace(s, id) && s.calls[id].phase.Looking?
    ensures Inv(LookStep(s, id))
  {
    hide Inv;
    var t := s.calls[id].tenant;
    if t in s.current && s.current[t] < |s.sessions| {
      MoveInv(s, id, Queued(s.current[t]));
    }
    MoveInv(s, id, Creating);
  }

  lemma CreateInv(s: State, id: int, ok: bool)
    requires Inv(s) && InPlace(s, id) && s.calls[id].phase.Creating?
    ensures Inv(CreateStep(s, id, ok))
  {
    hide Inv;
    if ok {
      ExtendInv(s);
      var t := s.(sessions := s.sessions + [NEW_SESSION]);
      MoveInv(t, id, Queued(|s.sessions|));
      CurrentFree(Move(t, id, Queued(|s.sessions|)), s.current[s.calls[id].tenant := |s.sessions|]);
    } else {
      MoveInv(s, id, Done(Failure));
    }
  }

  lemma CallInv(s: State, a: Action, id: int)
    requires Inv(s) && InPlace(s, id) && CallEnabled(s, a, id)
    ensures Inv(CallStep(s, a, id))
  {
    hide Inv, LookStep, CreateStep, ReadLineStep, Deliver, Return;
    match a
    case Look(_) => LookInv(s, id);
    case Create(_, ok) => CreateInv(s, id, ok);
    case Acquire(_) => AcquireInv(s, id);
    case WriteMessage(_) => WriteInv(s, id, true, Reading(s.calls[id].phase.sid));
    case WriteRaises(_, delivered) => WriteInv(s, id, delivered, Killing(s.calls[id].phase.sid));
    case ReadLine(_) => ReadInv(s, id);
    case ReadEof(_) => KillingInv(s, id);
    case ReadRaises(_) => KillingInv(s, id);
    case TimeOut(_) => ReturnInv(s, id, Failure);
    case Kill(_) =>
      ReturnInv(s, id, Failure);
      CurrentFree(Return(s, id, Failure), Return(s, id, Failure).current - {s.calls[id].tenant});
      ReturnCurrent(s, id, Failure);
    case Cancel(_) =>
      if InSession(s.calls[id].phase) {
        ReturnInv(s, id, Cancelled);
      } else {
        MoveInv(s, id, Done(Cancelled));
        ReturnOutside(s, id);
      }
  }

  lemma ReturnCurrent(s: State, id: int, o: Outcome)
    requires InPlace(s, id)
    ensures Return(s, id, o).current == s.current
  {
  }

  lemma ReturnOutside(s: State, id: int)
    requires InPlace(s, id) && !InSession(s.calls[id].phase)
    ensures Return(s, id, Cancelled) == Move(s, id, Done(Cancelled))
  {
  }

  lemma SendInv(s: State, id: int, tenant: string)
    requires Inv(s) && id !in s.calls
    ensures Inv(s.(calls := s.calls[id := Call(tenant, Looking)]))
  {
    hide InOrder, Successes;
    var t := s.(calls := s.calls[id := Call(tenant, Looking)]);
    forall other | other in t.calls
      ensures Place(t, other)
    {
      assert other != id ==> Place(s, other);
    }
    forall sid | 0 <= sid < |t.sessions|
      ensures SessionOk(t, sid)
    {
      assert SessionOk(s, sid);
      SuccessesSame(s.calls, t.calls, s.sessions[sid].written);
    }
  }

  lemma StepInv(s: State, a: Action)
    requires Inv(s) && Enabled(s, a)
    ensures Inv(Step(s, a))
  {
    hide Inv, CallStep, CallEnabled, InOrder;
    match a
    case Send(id, tenant) => SendInv(s, id, tenant);
    case Evict(tenant) => CurrentFree(s, s.current - {tenant});
    case Chatter(sid) =>
      SessionInOrder(s, sid);
      ChatterInOrder(s.sessions[sid]);
      ProcessInv(s, sid, s.sessions[sid].(outbox := s.sessions[sid].outbox + [Noise]));
    case Answer(sid) =>
      SessionInOrder(s, sid);
      var x := s.sessions[sid];
      AnswerInOrder(x);
      ProcessInv(s, sid, x.(inbox := x.inbox[1..], outbox := x.outbox + [Result(x.inbox[0])]));
    case Die(sid) =>
      SessionInOrder(s, sid);
      DeadInOrder(s.sessions[sid]);
      ProcessInv(s, sid, s.sessions[sid].(alive := false));
    case _ => CallInv(s, a, a.id);
  }

  lemma SessionInOrder(s: State, sid: nat)
    requires Inv(s) && sid < |s.sessions|
    ensures InOrder(s.sessions[sid])
  {
    assert SessionOk(s, sid);
  }

  lemma DeadInOrder(x: Session)
    requires InOrder(x)
    ensures InOrder(x.(alive := false))
  {
  }

  lemma DeliverOnly(x: Session, m: int)
    ensures Deliver(x, m).written == x.written + [m] && Deliver(x, m).lock == x.lock && Deliver(x, m).read == x.read
  {
  }
}
