/** Which message's result a successful send returns. */
module SessionTheorems {
  import opened Wrappers
  import opened Interleavings
  import opened SessionMachine

  lemma RunInv(s: State, acts: seq<Action>)
    requires Init(s) && Runs(STEPS, s, acts)
    ensures Inv(RunTo(STEPS, s, acts))
  {
    hide Inv, Step, Enabled;
    InitInv(s);
    forall t, a | Inv(t) && Enabled(t, a)
      ensures Inv(Step(t, a))
    {
      StepInv(t, a);
    }
    Invariant(STEPS, t => Inv(t), s, acts);
  }

  /** The messages written to the caller's session before its own. */
  function Earlier(s: State, id: int): seq<int>
    requires InPlace(s, id) && InSession(s.calls[id].phase)
  {
    var w := At(s, id).written;
    if w == [] then [] else w[..|w| - 1]
  }

  ghost predicate EarlierSucceeded(s: State, id: int)
    requires InPlace(s, id) && InSession(s.calls[id].phase)
  {
    forall m | m in Earlier(s, id) :: Succeeded(s.calls, m)
  }

  lemma PairingInState(s: State, id: int)
    requires Inv(s) && Enabled(s, ReadLine(id)) && At(s, id).outbox[0].Result?
    ensures At(s, id).outbox[0].message == id <==> EarlierSucceeded(s, id)
  {
    hide Results, Successes;
    var sid, x := s.calls[id].phase.sid, At(s, id);
    InvMeans(s, id, sid);
    ReadInOrder(x);
    var w, earlier := x.written, Earlier(s, id);
    assert w == earlier + [id];
    SuccessesAppend(s.calls, earlier, id);
    AllSucceeded(s.calls, earlier);
    assert x.read <= |earlier|;
    assert w[x.read] == id <==> x.read == |earlier|;
  }

  /** In every interleaving, a send that succeeds returns the result of its own message exactly when every message
    * written to that session before it was a send that succeeded. */
  lemma PairingIsExact(s0: State, acts: seq<Action>, id: int)
    requires Init(s0) && Runs(STEPS, s0, acts) && Enabled(RunTo(STEPS, s0, acts), ReadLine(id))
    requires At(RunTo(STEPS, s0, acts), id).outbox[0].Result?
    ensures var s := RunTo(STEPS, s0, acts);
            && Step(s, ReadLine(id)).calls[id].phase == Done(Success(At(s, id).outbox[0].message))
            && (At(s, id).outbox[0].message == id <==> EarlierSucceeded(s, id))
  {
    hide Inv, Results, Successes;
    RunInv(s0, acts);
    PairingInState(RunTo(STEPS, s0, acts), id);
  }

  /** Whatever came before, the result is that of the oldest message whose result nobody has read: never invented, never
    * out of turn. */
  lemma ResultsComeInTurn(s0: State, acts: seq<Action>, id: int)
    requires Init(s0) && Runs(STEPS, s0, acts) && Enabled(RunTo(STEPS, s0, acts), ReadLine(id))
    requires At(RunTo(STEPS, s0, acts), id).outbox[0].Result?
    ensures var x := At(RunTo(STEPS, s0, acts), id);
            x.read < |x.written| && x.outbox[0].message == x.written[x.read]
                && x.read == Successes(RunTo(STEPS, s0, acts).calls, x.written)
  {
    hide Inv, Results, Successes;
    RunInv(s0, acts);
    var s := RunTo(STEPS, s0, acts);
    InvMeans(s, id, s.calls[id].phase.sid);
    ReadInOrder(At(s, id));
  }

  /** Two calls hold no session's lock together. */
  lemma OneReaderAtATime(s0: State, acts: seq<Action>, a: int, b: int)
    requires Init(s0) && Runs(STEPS, s0, acts) && a in RunTo(STEPS, s0, acts).calls && b in RunTo(STEPS, s0, acts).calls
    requires var s := RunTo(STEPS, s0, acts);
             HoldsLock(s.calls[a].phase) && HoldsLock(s.calls[b].phase) && s.calls[a].phase.sid == s.calls[b].phase.sid
    ensures a == b
  {
    hide SessionOk;
    RunInv(s0, acts);
    assert Place(RunTo(STEPS, s0, acts), a) && Place(RunTo(STEPS, s0, acts), b);
  }

  /** A call that is over stays so, and a message once written stays in its place: a session that lost a result to a
    * call that did not succeed gives every later sender the result of another message. */
  lemma DoneStaysDone(s: State, a: Action, m: int)
    requires Inv(s) && Enabled(s, a) && m in s.calls && s.calls[m].phase.Done?
    ensures m in Step(s, a).calls && Step(s, a).calls[m] == s.calls[m]
  {
    hide Inv, InOrder, Results;
  }

  lemma WrittenStays(s: State, a: Action, sid: nat)
    requires Inv(s) && Enabled(s, a) && sid < |s.sessions|
    ensures sid < |Step(s, a).sessions| && s.sessions[sid].written <= Step(s, a).sessions[sid].written
  {
    hide Inv, InOrder, Results;
  }

  lemma {:induction false} LostForGood(s: State, acts: seq<Action>, sid: nat, m: int)
    requires Inv(s) && Runs(STEPS, s, acts) && sid < |s.sessions| && m in s.sessions[sid].written
    requires m in s.calls && s.calls[m].phase.Done? && !Succeeded(s.calls, m)
    ensures var t := RunTo(STEPS, s, acts);
            forall id | Enabled(t, ReadLine(id)) && t.calls[id].phase.sid == sid && At(t, id).outbox[0].Result? ::
              At(t, id).outbox[0].message != id
    decreases |acts|
  {
    hide Inv, Step;
    if acts == [] {
      forall id | Enabled(s, ReadLine(id)) && s.calls[id].phase.sid == sid && At(s, id).outbox[0].Result?
        ensures At(s, id).outbox[0].message != id
      {
        PairingInState(s, id);
        InvMeans(s, id, sid);
        assert m != id && m in Earlier(s, id);
      }
    } else {
      StepInv(s, acts[0]);
      DoneStaysDone(s, acts[0], m);
      WrittenStays(s, acts[0], sid);
      LostForGood(Step(s, acts[0]), acts[1..], sid, m);
    }
  }

  /** A send that gives up waiting leaves its session running and in the dictionary, and its answer behind for the next
    * sender there. */
  lemma TimeoutPoisonsTheSession(s: State, m: int, acts: seq<Action>, id: int)
    requires Inv(s) && Enabled(s, TimeOut(m)) && Runs(STEPS, Step(s, TimeOut(m)), acts)
    ensures var t := Step(s, TimeOut(m));
            t.current == s.current && |t.sessions| == |s.sessions|
            && t.sessions[s.calls[m].phase.sid].alive == s.sessions[s.calls[m].phase.sid].alive
    ensures var t := RunTo(STEPS, Step(s, TimeOut(m)), acts);
            Enabled(t, ReadLine(id)) && t.calls[id].phase.sid == s.calls[m].phase.sid && At(t, id).outbox[0].Result? ==>
              At(t, id).outbox[0].message != id
  {
    hide Inv;
    StepInv(s, TimeOut(m));
    var sid := s.calls[m].phase.sid;
    InvMeans(s, m, sid);
    hide SessionOk, Runs, RunTo;
    LostForGood(Step(s, TimeOut(m)), acts, sid, m);
  }

  lemma On(s0: State, acts: seq<Action>, s: State, a: Action, s': State) returns (acts': seq<Action>)
    requires Leads(STEPS, s0, acts, s) && Enabled(s, a) && Step(s, a) == s'
    ensures Leads(STEPS, s0, acts', s')
  {
    hide Step, Enabled;
    One(STEPS, s, a);
    acts' := Onward(STEPS, s0, acts, s, [a], s');
  }

  lemma Stay(s: State)
    ensures Leads(STEPS, s, [], s)
  {
  }

  /** One session that was sent a message, and a sender that gave up on it. */
  function TimedOut(t: string): State {
    State(map[t := 0], [Session([1], [], true, None, [1], 0)], map[1 := Call(t, Done(Failure))])
  }

  lemma FirstSendTimesOut(s0: State, t: string) returns (acts: seq<Action>)
    requires Init(s0)
    ensures Leads(STEPS, s0, acts, TimedOut(t))
  {
    hide Leads;
    Stay(s0);
    var s1 := State(map[], [], map[1 := Call(t, Looking)]);
    acts := On(s0, [], s0, Send(1, t), s1);
    var s2 := State(map[], [], map[1 := Call(t, Creating)]);
    acts := On(s0, acts, s1, Look(1), s2);
    var s3 := State(map[t := 0], [NEW_SESSION], map[1 := Call(t, Queued(0))]);
    acts := On(s0, acts, s2, Create(1, true), s3);
    var s4 := State(map[t := 0], [NEW_SESSION.(lock := Some(1))], map[1 := Call(t, Locked(0))]);
    acts := On(s0, acts, s3, Acquire(1), s4);
    acts := FirstWrite(s0, acts, t, s4);
  }

  lemma FirstWrite(s0: State, before: seq<Action>, t: string, s4: State) returns (acts: seq<Action>)
    requires s4 == State(map[t := 0], [NEW_SESSION.(lock := Some(1))], map[1 := Call(t, Locked(0))])
        && Leads(STEPS, s0, before, s4)
    ensures Leads(STEPS, s0, acts, TimedOut(t))
  {
    hide Leads;
    var x := Session([1], [], true, Some(1), [1], 0);
    assert Deliver(s4.sessions[0], 1) == x by {
      assert [] + [1] == [1];
    }
    var s5 := State(map[t := 0], [x], map[1 := Call(t, Reading(0))]);
    acts := On(s0, before, s4, WriteMessage(1), s5);
    acts := On(s0, acts, s5, TimeOut(1), TimedOut(t));
  }

  function SecondCall(t: string, p: Phase): map<int, Call> {
    map[1 := Call(t, Done(Failure)), 2 := Call(t, p)]
  }

  lemma SecondSendQueues(s0: State, before: seq<Action>, t: string) returns (acts: seq<Action>, s: State)
    requires Leads(STEPS, s0, before, TimedOut(t))
    ensures s == State(map[t := 0], [Session([1], [], true, Some(2), [1], 0)], SecondCall(t, Locked(0)))
        && Leads(STEPS, s0, acts, s)
  {
    hide Leads;
    var x := Session([1], [], true, None, [1], 0);
    var s1 := State(map[t := 0], [x], SecondCall(t, Looking));
    acts := On(s0, before, TimedOut(t), Send(2, t), s1);
    var s2 := State(map[t := 0], [x], SecondCall(t, Queued(0)));
    acts := On(s0, acts, s1, Look(2), s2);
    s := State(map[t := 0], [x.(lock := Some(2))], SecondCall(t, Locked(0)));
    acts := On(s0, acts, s2, Acquire(2), s);
  }

  lemma SecondSendReads(s0: State, before: seq<Action>, t: string, s: State) returns (acts: seq<Action>, last: State)
    requires s == State(map[t := 0], [Session([1], [], true, Some(2), [1], 0)], SecondCall(t, Locked(0)))
        && Leads(STEPS, s0, before, s)
    ensures Leads(STEPS, s0, acts, last) && last.calls == SecondCall(t, Done(Success(1)))
  {
    hide Leads;
    var x := Session([1, 2], [], true, Some(2), [1, 2], 0);
    assert Deliver(s.sessions[0], 2) == x by {
      assert [1] + [2] == [1, 2];
    }
    var s1 := State(map[t := 0], [x], SecondCall(t, Reading(0)));
    acts := On(s0, before, s, WriteMessage(2), s1);
    var s2 := State(map[t := 0], [Session([2], [Result(1)], true, Some(2), [1, 2], 0)], SecondCall(t, Reading(0)));
    assert x.inbox[1..] == [2] && [] + [Result(1)] == [Result(1)];
    assert Step(s1, Answer(0)).sessions[0] == s2.sessions[0];
    acts := On(s0, acts, s1, Answer(0), s2);
    last := State(map[t := 0], [Session([2], [], true, None, [1, 2], 1)], SecondCall(t, Done(Success(1))));
    assert Step(s2, ReadLine(2)).sessions[0] == last.sessions[0] && Step(s2, ReadLine(2)).calls == last.calls;
    acts := On(s0, acts, s2, ReadLine(2), last);
  }

  /** After a send that timed out, the next one on that session succeeds with the answer to the first message. */
  lemma NextSendGetsTheFirstAnswer(s0: State, t: string) returns (acts: seq<Action>)
    requires Init(s0)
    ensures Runs(STEPS, s0, acts) && RunTo(STEPS, s0, acts).calls == SecondCall(t, Done(Success(1)))
  {
    hide Step, Enabled;
    acts := FirstSendTimesOut(s0, t);
    var s: State;
    acts, s := SecondSendQueues(s0, acts, t);
    acts, s := SecondSendReads(s0, acts, t, s);
  }
}
