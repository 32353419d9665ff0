/** The session manager's dictionary, locks and pipes, in the sections of `send_message` between two awaits. */
module Sessions {
  import opened Wrappers
  import opened SessionMachine
  import opened SessionTheorems

  class SessionManager {
    var sessions: map<string, nat>
    var locks: seq<Option<int>>
    /** What each session's process has written and nobody has read. */
    var pipes: seq<seq<Line>>
    /** What each process was sent and has not answered. */
    var inboxes: seq<seq<int>>

    /** The state of the machine this object is in. */
    ghost var at: State

    ghost predicate Valid()
      reads this
    {
      Inv(at) && sessions == at.current && Mirrors(locks, pipes, inboxes, at)
    }

    constructor ()
      ensures Valid() && Init(at)
    {
      sessions, locks, pipes, inboxes, at := map[], [], [], [], State(map[], [], map[]);
      new;
      InitInv(at);
    }

    // ---- The sections ----

    /** The session to use, if the tenant has one whose process still runs. */
    method Lookup(id: int, tenant: string, running: nat -> bool) returns (sid: Option<nat>)
      requires Valid() && Enabled(at, Look(id)) && at.calls[id].tenant == tenant
      requires forall k: nat :: running(k) <==> k < |at.sessions| && at.sessions[k].alive
      modifies this`at
      ensures at == Step(old(at), Look(id)) && Valid()
      ensures at.calls[id].phase == if sid.Some? then Queued(sid.value) else Creating
      ensures sid == if tenant in sessions && running(sessions[tenant]) then Some(sessions[tenant]) else None
    {
      hide Inv;
      StepInv(at, Look(id));
      at := Step(at, Look(id));
      sid := if tenant in sessions && running(sessions[tenant]) then Some(sessions[tenant]) else None;
    }

    method CreateSession(id: int, tenant: string, ok: bool) returns (sid: Option<nat>)
      requires Valid() && Enabled(at, Create(id, ok)) && at.calls[id].tenant == tenant
      modifies this
      ensures at == Step(old(at), Create(id, ok)) && Valid()
      ensures sid == if ok then Some(|old(locks)|) else None
      ensures sessions == if ok then old(sessions)[tenant := |old(locks)|] else old(sessions)
      ensures locks == if ok then old(locks) + [None] else old(locks)
      ensures pipes == if ok then old(pipes) + [[]] else old(pipes)
      ensures at.calls[id].phase == if ok then Queued(|old(locks)|) else Done(Failure)
    {
      hide Inv;
      StepInv(at, Create(id, ok));
      at := Step(at, Create(id, ok));
      sid := None;
      if ok {
        sid := Some(|locks|);
        sessions := sessions[tenant := |locks|];
        locks, pipes, inboxes := locks + [None], pipes + [[]], inboxes + [[]];
      }
    }

    method EnterLock(id: int, sid: nat)
      requires Valid() && Enabled(at, Acquire(id)) && at.calls[id].phase.sid == sid
      modifies this
      ensures at == Step(old(at), Acquire(id)) && Valid()
      ensures old(locks)[sid] == None && locks == old(locks)[sid := Some(id)]
      ensures sessions == old(sessions) && at.calls[id].phase == Locked(sid)
    {
      hide Inv;
      StepInv(at, Acquire(id));
      at := Step(at, Acquire(id));
      locks := locks[sid := Some(id)];
    }

    /** The line written to the process: the message now waits for its answer. */
    method Write(id: int, sid: nat)
      requires Valid() && Enabled(at, WriteMessage(id)) && at.calls[id].phase.sid == sid
      modifies this`at, this`inboxes
      ensures at == Step(old(at), WriteMessage(id)) && Valid() && at.calls[id].phase == Reading(sid)
      ensures inboxes == old(inboxes)[sid := old(inboxes)[sid] + [id]]
    {
      hide Inv;
      StepInv(at, WriteMessage(id));
      at := Step(at, WriteMessage(id));
      inboxes := inboxes[sid := inboxes[sid] + [id]];
    }

    /** A write that raises, whether or not the process got the message. */
    method WriteFails(id: int, sid: nat, delivered: bool)
      requires Valid() && Enabled(at, WriteRaises(id, delivered)) && at.calls[id].phase.sid == sid
      modifies this`at, this`inboxes
      ensures at == Step(old(at), WriteRaises(id, delivered)) && Valid()
      ensures at.calls == old(at).calls[id := Call(old(at).calls[id].tenant, Killing(sid))]
      ensures inboxes == if delivered then old(inboxes)[sid := old(inboxes)[sid] + [id]] else old(inboxes)
    {
      hide Inv;
      StepInv(at, WriteRaises(id, delivered));
      at := Step(at, WriteRaises(id, delivered));
      inboxes := if delivered then inboxes[sid := inboxes[sid] + [id]] else inboxes;
    }

    /** A line of the process: the answer to its oldest message, or anything else. */
    method ProcessWrites(sid: nat, answer: bool)
      requires Valid() && Enabled(at, if answer then Answer(sid) else Chatter(sid))
      modifies this
      ensures at == Step(old(at), if answer then Answer(sid) else Chatter(sid)) && Valid()
      ensures sessions == old(sessions) && locks == old(locks)
      ensures pipes == old(pipes)[sid := old(pipes)[sid] + [if answer then Result(old(inboxes)[sid][0]) else Noise]]
    {
      hide Inv;
      StepInv(at, if answer then Answer(sid) else Chatter(sid));
      at := Step(at, if answer then Answer(sid) else Chatter(sid));
      pipes := pipes[sid := pipes[sid] + [if answer then Result(inboxes[sid][0]) else Noise]];
      inboxes := if answer then inboxes[sid := inboxes[sid][1..]] else inboxes;
    }

    /** A line that carries a result ends the call with it; the result is the caller's own exactly when every earlier
      * message of the session was a send that succeeded. Another line is skipped. */
    method Read(id: int, sid: nat) returns (response: Option<int>)
      requires Valid() && Enabled(at, ReadLine(id)) && at.calls[id].phase.sid == sid
      modifies this
      ensures at == Step(old(at), ReadLine(id)) && Valid()
      ensures sessions == old(sessions) && pipes == old(pipes)[sid := old(pipes)[sid][1..]]
      ensures match response
              case Some(m) =>
                && old(pipes)[sid][0] == Result(m) && (m == id <==> EarlierSucceeded(old(at), id))
                && at.calls == old(at).calls[id := Call(old(at).calls[id].tenant, Done(Success(m)))]
                && locks == old(locks)[sid := None]
              case None => at.calls == old(at).calls && locks == old(locks) && old(pipes)[sid][0].Noise?
    {
      hide Inv, Results, Successes, EarlierSucceeded;
      StepInv(at, ReadLine(id));
      ReadingHoldsLock(at, id);
      var line := pipes[sid][0];
      if line.Result? {
        PairingInState(at, id);
      }
      at := Step(at, ReadLine(id));
      pipes := pipes[sid := pipes[sid][1..]];
      response := None;
      if line.Result? {
        response := Some(line.message);
        locks := locks[sid := None];
      }
    }

    /** The pipe's end, or a read that raises. */
    method ReadFails(id: int, sid: nat, eof: bool)
      requires Valid() && Enabled(at, if eof then ReadEof(id) else ReadRaises(id)) && at.calls[id].phase.sid == sid
      modifies this`at
      ensures at == Step(old(at), if eof then ReadEof(id) else ReadRaises(id)) && Valid()
      ensures at.calls == old(at).calls[id := Call(old(at).calls[id].tenant, Killing(sid))]
    {
      hide Inv;
      StepInv(at, if eof then ReadEof(id) else ReadRaises(id));
      at := Step(at, if eof then ReadEof(id) else ReadRaises(id));
    }

    /** A reader that gives up, or is cancelled, frees the lock and leaves the session in the dictionary. */
    method GiveUp(id: int, sid: nat, cancelled: bool)
      requires Valid() && InPlace(at, id) && at.calls[id].phase == Reading(sid)
      modifies this
      ensures at == Step(old(at), if cancelled then Cancel(id) else TimeOut(id)) && Valid()
      ensures var o := if cancelled then Cancelled else Failure;
              at.calls == old(at).calls[id := Call(old(at).calls[id].tenant, Done(o))]
      ensures sessions == old(sessions) && locks == old(locks)[sid := None] && id in at.sessions[sid].written
    {
      hide Inv;
      InvMeans(at, id, sid);
      hide InOrder, Successes, Results;
      var a := if cancelled then Cancel(id) else TimeOut(id);
      StepInv(at, a);
      at := Step(at, a);
      locks := locks[sid := None];
    }

    /** `_kill_session` and the failure it ends in: whatever session the tenant has by then is forgotten. */
    method KillAndFail(id: int, sid: nat, tenant: string)
      requires Valid() && Enabled(at, Kill(id)) && at.calls[id].phase.sid == sid && at.calls[id].tenant == tenant
      modifies this
      ensures at == Step(old(at), Kill(id)) && Valid()
      ensures at.calls == old(at).calls[id := Call(tenant, Done(Failure))]
      ensures sessions == old(sessions) - {tenant} && locks == old(locks)[sid := None]
    {
      hide Inv;
      StepInv(at, Kill(id));
      at := Step(at, Kill(id));
      sessions := sessions - {tenant};
      locks := locks[sid := None];
    }

    /** A send whose read fails: the tenant's session is forgotten, the lock freed, and the next message of the tenant
      * starts a new session. */
    method BrokenRead(id: int, sid: nat, tenant: string, eof: bool)
      requires Valid() && Enabled(at, if eof then ReadEof(id) else ReadRaises(id))
      requires at.calls[id].phase.sid == sid && at.calls[id].tenant == tenant
      modifies this
      ensures Valid() && at.calls == old(at).calls[id := Call(tenant, Done(Failure))]
      ensures sessions == old(sessions) - {tenant} && locks == old(locks)[sid := None] && pipes == old(pipes)
      ensures forall other | other in at.calls && Enabled(at, Look(other)) && at.calls[other].tenant == tenant ::
                Step(at, Look(other)).calls[other].phase == Creating
    {
      hide Inv;
      ReadFails(id, sid, eof);
      KillAndFail(id, sid, tenant);
    }

    method BrokenWrite(id: int, sid: nat, tenant: string, delivered: bool)
      requires Valid() && Enabled(at, WriteRaises(id, delivered))
      requires at.calls[id].phase.sid == sid && at.calls[id].tenant == tenant
      modifies this
      ensures Valid() && at.calls == old(at).calls[id := Call(tenant, Done(Failure))]
      ensures sessions == old(sessions) - {tenant} && locks == old(locks)[sid := None] && pipes == old(pipes)
      ensures forall other | other in at.calls && Enabled(at, Look(other)) && at.calls[other].tenant == tenant ::
                Step(at, Look(other)).calls[other].phase == Creating
    {
      hide Inv;
      WriteFails(id, sid, delivered);
      KillAndFail(id, sid, tenant);
    }

    /** A session found idle or dead by the cleanup, or stopped from outside: forgotten, while its readers go on. */
    method KillSession(tenant: string)
      requires Valid()
      modifies this`at, this`sessions
      ensures at == Step(old(at), Evict(tenant)) && Valid()
      ensures sessions == old(sessions) - {tenant} && at.calls == old(at).calls && at.sessions == old(at).sessions
    {
      hide Inv;
      StepInv(at, Evict(tenant));
      at := Step(at, Evict(tenant));
      sessions := sessions - {tenant};
    }

    // ---- The read loop, and a send from end to end with no other caller in between ----

    /** Lines are skipped up to the first result; a pipe that runs dry ends in the timeout. */
    method AwaitResult(id: int, sid: nat) returns (response: Option<int>)
      requires Valid() && InPlace(at, id) && at.calls[id].phase == Reading(sid)
      modifies this
      ensures Valid() && sessions == old(sessions) && id in at.calls
      ensures response == FirstResult(old(pipes)[sid])
      ensures response.Some? ==> (response.value == id <==> EarlierSucceeded(old(at), id))
      ensures at.calls[id].phase == Done(if response.Some? then Success(response.value) else Failure)
      ensures forall other | other in old(at).calls && other != id ::
                other in at.calls && at.calls[other] == old(at).calls[other]
    {
      hide Inv, Step, EarlierSucceeded;
      ghost var start, lines := at, pipes[sid];
      response := None;
      while pipes[sid] != []
        invariant Valid() && sessions == old(sessions) && sid < |pipes| && at.calls == start.calls && InPlace(at, id)
        invariant response == None && FirstResult(pipes[sid]) == FirstResult(lines)
        invariant EarlierSucceeded(at, id) == EarlierSucceeded(start, id)
        decreases |pipes[sid]|
      {
        ghost var before, rest := at, pipes[sid];
        assert FirstResult(rest) == if rest[0].Result? then Some(rest[0].message) else FirstResult(rest[1..]);
        response := Read(id, sid);
        if response.Some? {
          return;
        }
        NoiseLeavesEarlier(before, id);
      }
      assert FirstResult(lines) == None;
      GiveUp(id, sid, false);
    }

    /** The locked part: the message written and, when the process answers in time, the first result on the pipe
      * returned. */
    method Converse(id: int, sid: nat, answered: bool) returns (response: Option<int>)
      requires Valid() && Enabled(at, Acquire(id)) && at.calls[id].phase == Queued(sid)
      requires at.sessions[sid].alive
      modifies this
      ensures Valid() && id in at.calls
      ensures at.calls[id].phase == Done(if response.Some? then Success(response.value) else Failure)
      ensures answered ==> response.Some?
      ensures response.Some? ==> (response.value == id <==> AllAnswered(old(at), sid))
    {
      hide Inv, Step, Enabled, EarlierSucceeded, AllAnswered;
      EarlierIsAll(at, id, sid);
      EnterLock(id, sid);
      Write(id, sid);
      if answered {
        ProcessWrites(sid, true);
        HasResult(pipes[sid], |pipes[sid]| - 1);
      }
      response := AwaitResult(id, sid);
    }

    /** `send_message` as a whole, with no other caller in between: a session is reused or created. The result is the
      * message's own exactly when the session is new or every earlier message of it was a send that succeeded. */
    method SendMessage(id: int, tenant: string, running: nat -> bool, createOk: bool, answered: bool)
      returns (response: Option<int>)
      requires Valid() && Enabled(at, Look(id)) && at.calls[id].tenant == tenant
      requires forall k: nat :: running(k) <==> k < |at.sessions| && at.sessions[k].alive
      requires forall k | 0 <= k < |locks| :: locks[k] == None
      modifies this
      ensures Valid() && id in at.calls
      ensures at.calls[id].phase == Done(if response.Some? then Success(response.value) else Failure)
      ensures var reused := tenant in old(sessions) && running(old(sessions)[tenant]);
              && (response.Some? ==> reused || createOk)
              && (answered && (reused || createOk) ==> response.Some?)
              && (response.Some? ==>
                    (response.value == id <==> !reused || AllAnswered(old(at), old(sessions)[tenant])))
    {
      hide Inv, AllAnswered;
      Finding(at, id, createOk);
      var sid := Lookup(id, tenant, running);
      if sid == None {
        sid := CreateSession(id, tenant, createOk);
        if sid == None {
          return None;
        }
      }
      response := Converse(id, sid.value, answered);
    }
  }

  /** Joining the queue of a session changes nothing about what it answered; a new one has answered all it was sent. */
  lemma Finding(s: State, id: int, ok: bool)
    requires Inv(s) && Enabled(s, Look(id))
    ensures var t := Step(s, Look(id));
            && (t.calls[id].phase.Queued? ==>
                  (AllAnswered(t, t.calls[id].phase.sid) <==> AllAnswered(s, t.calls[id].phase.sid)))
            && (t.calls[id].phase.Creating? && ok ==> AllAnswered(Step(t, Create(id, ok)), |s.sessions|))
  {
    hide Inv;
  }

  /** Once the message is written, the earlier ones are all those that were there before. */
  lemma EarlierIsAll(s: State, id: int, sid: nat)
    requires Inv(s) && Enabled(s, Acquire(id)) && s.calls[id].phase == Queued(sid) && s.sessions[sid].alive
    ensures var t := Step(s, Acquire(id));
            && Enabled(t, WriteMessage(id)) && t.calls[id].phase == Locked(sid)
            && var u := Step(t, WriteMessage(id));
            && InPlace(u, id) && u.calls[id].phase == Reading(sid) && Enabled(u, Answer(sid))
            && EarlierSucceeded(u, id) == AllAnswered(s, sid)
            && var v := Step(u, Answer(sid));
            && InPlace(v, id) && v.calls == u.calls && EarlierSucceeded(v, id) == AllAnswered(s, sid)
  {
    hide Inv;
    var t := Step(s, Acquire(id));
    var u := Step(t, WriteMessage(id));
    assert Earlier(u, id) == s.sessions[sid].written;
    assert Earlier(Step(u, Answer(sid)), id) == s.sessions[sid].written;
  }

  /** Every message written to the session was a send that succeeded. */
  ghost predicate AllAnswered(s: State, sid: nat) {
    sid < |s.sessions| && forall m | m in s.sessions[sid].written :: Succeeded(s.calls, m)
  }

  lemma {:induction false} HasResult(lines: seq<Line>, i: nat)
    requires i < |lines| && lines[i].Result?
    ensures FirstResult(lines).Some?
  {
    if i > 0 {
      HasResult(lines[1..], i - 1);
    }
  }

  /** The first result among the lines of a pipe. */
  function FirstResult(lines: seq<Line>): Option<int> {
    if lines == [] then None else if lines[0].Result? then Some(lines[0].message) else FirstResult(lines[1..])
  }

  ghost predicate Mirrors(locks: seq<Option<int>>, pipes: seq<seq<Line>>, inboxes: seq<seq<int>>, s: State) {
    && |locks| == |pipes| == |inboxes| == |s.sessions|
    && (forall k | 0 <= k < |locks| :: locks[k] == s.sessions[k].lock)
    && (forall k | 0 <= k < |pipes| :: pipes[k] == s.sessions[k].outbox)
    && forall k | 0 <= k < |inboxes| :: inboxes[k] == s.sessions[k].inbox
  }

  lemma NoiseLeavesEarlier(s: State, id: int)
    requires Inv(s) && Enabled(s, ReadLine(id)) && At(s, id).outbox[0].Noise?
    ensures var t := Step(s, ReadLine(id));
            t.calls == s.calls && InPlace(t, id) && EarlierSucceeded(t, id) == EarlierSucceeded(s, id)
  {
    hide Inv;
  }

  lemma ReadingHoldsLock(s: State, id: int)
    requires Inv(s) && InPlace(s, id) && s.calls[id].phase.Reading?
    ensures At(s, id).lock == Some(id)
  {
    InvMeans(s, id, s.calls[id].phase.sid);
  }
}
