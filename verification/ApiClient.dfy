/** The client object: its mutex-guarded fields, and the atomic sections of one call. */
module ApiClient {
  import opened Wrappers
  import opened TokenRotation

  class ApiClient {
    var token: Option<Access>
    var refreshToken: Option<Secret>
    var refreshLock: Option<int>
    var calls: map<int, Call>
    var store: Pair
    ghost var issued: set<Secret>
    ghost var retired: set<Secret>
    ghost var cleared: bool

    ghost function View(): Client
      reads this
    {
      Client(token, refreshToken, refreshLock, calls, store, issued, retired, cleared)
    }

    ghost predicate Ready'(a: Action)
      reads this
    {
      Inv(View()) && Enabled(View(), a)
    }

    constructor (access: Option<Access>, refresh: Option<Secret>)
      ensures Init(View()) && Inv(View())
      ensures token == access && refreshToken == refresh && calls == map[]
    {
      token, refreshToken, refreshLock, calls := access, refresh, None, map[];
      store := Pair(access, refresh);
      issued, retired, cleared := if refresh.Some? then {refresh.value} else {}, {}, false;
    }

    method Enter(id: int, p: Phase)
      requires id in calls
      modifies this`calls
      ensures calls == old(calls)[id := old(calls)[id].(phase := p)]
    {
      calls := calls[id := calls[id].(phase := p)];
    }

    method SetToken(value: Option<Access>)
      modifies this`token
      ensures token == value
    {
      token := value;
    }

    method SetRefreshToken(value: Option<Secret>)
      modifies this`refreshToken
      ensures refreshToken == value
    {
      refreshToken := value;
    }

    /** The request goes out with whatever access token is current. */
    method Begin(id: int)
      requires Ready'(Start(id))
      modifies this
      ensures View() == Step(old(View()), Start(id)) && Inv(View())
      ensures calls == old(calls)[id := Call(Sent, 1, 0)] && token == old(token) && refreshToken == old(refreshToken)
    {
      StepInv(View(), Start(id));
      calls := calls[id := Call(Sent, 1, 0)];
    }

    method OnReply(id: int, unauthorized: bool, cloneable: bool)
      requires Ready'(Answer(id, unauthorized, cloneable))
      modifies this
      ensures View() == Step(old(View()), Answer(id, unauthorized, cloneable)) && Inv(View())
      ensures calls[id].phase == if unauthorized && cloneable then Refused else Done(Replied)
    {
      StepInv(View(), Answer(id, unauthorized, cloneable));
      if !unauthorized || !cloneable {
        Enter(id, Done(Replied));
      } else {
        Enter(id, Refused);
      }
    }

    method CaptureSecret(id: int)
      requires Ready'(Capture(id))
      modifies this
      ensures View() == Step(old(View()), Capture(id)) && Inv(View())
      ensures calls[id].phase == if refreshToken.Some? then Waiting(refreshToken.value) else Done(Replied)
    {
      StepInv(View(), Capture(id));
      match refreshToken {
        case None => Enter(id, Done(Replied));
        case Some(secret) => Enter(id, Waiting(secret));
      }
    }

    method LockRefresh(id: int)
      requires Ready'(Acquire(id))
      modifies this
      ensures View() == Step(old(View()), Acquire(id)) && Inv(View())
      ensures old(refreshLock) == None && refreshLock == Some(id)
      ensures calls[id].phase == Holding(old(calls[id].phase).secret)
    {
      StepInv(View(), Acquire(id));
      refreshLock := Some(id);
      Enter(id, Holding(calls[id].phase.secret));
    }

    /** Reuses the winner's token when the secret changed under the caller, else sends the secret. */
    method CompareSecret(id: int) returns (sent: Option<Secret>)
      requires Ready'(Compare(id))
      modifies this
      ensures View() == Step(old(View()), Compare(id)) && Inv(View())
      ensures sent == Sends(old(View()), Compare(id))
      ensures var secret := old(calls[id].phase).secret;
              && sent == (if refreshToken == None || refreshToken == Some(secret) then Some(secret) else None)
              && calls[id].phase == (if sent.Some? then Exchanging(secret) else TokenRotation.Ready(old(token).value))
      ensures sent == None ==> old(token).Some?
      ensures calls[id].sends == 1 && calls[id].exchanges == if sent.Some? then 1 else 0
      ensures token == old(token) && refreshToken == old(refreshToken) && store == old(store)
    {
      StepInv(View(), Compare(id));
      var secret := calls[id].phase.secret;
      sent := None;
      if refreshToken.Some? && refreshToken != Some(secret) {
        match token {
          case Some(access) => Enter(id, TokenRotation.Ready(access));
          case None =>
            // "racing refresh left empty token" cannot happen
            assert false;
        }
      } else {
        sent := Some(secret);
        calls := calls[id := Call(Exchanging(secret), calls[id].sends, calls[id].exchanges + 1)];
      }
    }

    method OnExchange(id: int, reply: Reply)
      requires Ready'(Exchanged(id, reply))
      modifies this
      ensures View() == Step(old(View()), Exchanged(id, reply)) && Inv(View())
      ensures var p := old(calls[id].phase);
              calls[id].phase == match reply
                                 case Rotated(access, next) => Granted(p.secret, access, Some(next))
                                 case Grace(access) => Granted(p.secret, access, None)
                                 case Rejected => Clearing
                                 case Lost => Done(ExchangeFailed)
      ensures refreshToken == if reply.Rejected? then None else old(refreshToken)
      ensures token == old(token) && store == old(store)
      ensures refreshLock == if reply.Lost? then None else old(refreshLock)
    {
      StepInv(View(), Exchanged(id, reply));
      var secret := calls[id].phase.secret;
      match reply {
        case Rotated(access, next) => {
          Enter(id, Granted(secret, access, Some(next)));
          issued := issued + {next};
        }
        case Grace(access) => Enter(id, Granted(secret, access, None));
        case Rejected => {
          SetRefreshToken(None);
          Enter(id, Clearing);
          cleared := true;
        }
        case Lost => {
          Enter(id, Done(ExchangeFailed));
          refreshLock := None;
        }
      }
    }

    method WriteToken(id: int)
      requires Ready'(StoreToken(id))
      modifies this
      ensures View() == Step(old(View()), StoreToken(id)) && Inv(View())
      ensures token == Some(old(calls[id].phase).access) && refreshToken == old(refreshToken) && store == old(store)
    {
      StepInv(View(), StoreToken(id));
      var p := calls[id].phase;
      SetToken(Some(p.access));
      Enter(id, TokenSet(p.secret, p.access, p.successor));
    }

    method WriteRefresh(id: int)
      requires Ready'(StoreRefresh(id))
      modifies this
      ensures View() == Step(old(View()), StoreRefresh(id)) && Inv(View())
      ensures var p := old(calls[id].phase);
              && refreshToken == (if p.successor.Some? then p.successor else old(refreshToken))
              && (p.successor.Some? ==> p.secret in retired)
      ensures token == old(token) && store == old(store)
    {
      StepInv(View(), StoreRefresh(id));
      var p := calls[id].phase;
      if p.successor.Some? {
        SetRefreshToken(p.successor);
        retired := retired + {p.secret};
      }
      Enter(id, RefreshSet(p.access, p.successor));
    }

    /** The callback: always the access token, the refresh token only when there is a new one. */
    method FirePersist(id: int)
      requires Ready'(Persist(id))
      modifies this
      ensures View() == Step(old(View()), Persist(id)) && Inv(View())
      ensures var p := old(calls[id].phase);
              store == Pair(Some(p.access), if p.successor.Some? then p.successor else old(store).refresh)
      ensures token == old(token) && refreshToken == old(refreshToken)
    {
      StepInv(View(), Persist(id));
      var p := calls[id].phase;
      store := store.(access := Some(p.access));
      if p.successor.Some? {
        store := store.(refresh := p.successor);
      }
      Enter(id, TokenRotation.Ready(p.access));
    }

    method ClearAccess(id: int)
      requires Ready'(ClearToken(id))
      modifies this
      ensures View() == Step(old(View()), ClearToken(id)) && Inv(View())
      ensures token == None && refreshToken == old(refreshToken) && store == old(store)
      ensures calls[id].phase == Done(Unauthorized) && refreshLock == None
    {
      StepInv(View(), ClearToken(id));
      SetToken(None);
      Enter(id, Done(Unauthorized));
      refreshLock := None;
    }

    method SendRetry(id: int, headerOk: bool)
      requires Ready'(Send(id, headerOk))
      modifies this
      ensures View() == Step(old(View()), Send(id, headerOk)) && Inv(View())
      ensures calls[id].phase == if headerOk then Retrying(old(calls[id].phase).access) else Done(BadHeader)
      ensures calls[id].sends == if headerOk then 2 else 1
      ensures headerOk ==> token == Some(calls[id].phase.access) && refreshLock == Some(id)
      ensures !headerOk ==> refreshLock == None
      ensures token == old(token) && refreshToken == old(refreshToken) && store == old(store)
    {
      StepInv(View(), Send(id, headerOk));
      if headerOk {
        calls := calls[id := Call(Retrying(calls[id].phase.access), calls[id].sends + 1, calls[id].exchanges)];
      } else {
        Enter(id, Done(BadHeader));
        refreshLock := None;
      }
    }

    method OnRetryReply(id: int)
      requires Ready'(Retried(id))
      modifies this
      ensures View() == Step(old(View()), Retried(id)) && Inv(View())
      ensures calls[id].phase == Done(Replied) && refreshLock == None
      ensures token == old(token) && refreshToken == old(refreshToken) && store == old(store)
    {
      StepInv(View(), Retried(id));
      Enter(id, Done(Replied));
      refreshLock := None;
    }

    /** The future is dropped at an await point; the guard, if held, goes with it. */
    method Drop(id: int)
      requires Ready'(Cancel(id))
      modifies this
      ensures View() == Step(old(View()), Cancel(id)) && Inv(View())
      ensures calls[id].phase == Done(Cancelled) && refreshLock != Some(id)
      ensures token == old(token) && refreshToken == old(refreshToken) && store == old(store)
    {
      StepInv(View(), Cancel(id));
      if InLock(calls[id].phase) {
        refreshLock := None;
      }
      Enter(id, Done(Cancelled));
    }

    // ---- One refresh from end to end, with no other call in between ----

    /** The lock is taken and the captured secret is the one in memory: it is exchanged, and the answer decides. */
    method ExchangeUndisturbed(id: int, reply: Reply, headerOk: bool) returns (o: Outcome)
      requires Ready'(Acquire(id)) && refreshToken == Some(calls[id].phase.secret)
      requires reply.Rotated? ==> reply.refresh !in issued
      modifies this
      ensures Inv(View()) && refreshLock == None && Ended(old(calls), calls, id, o)
      ensures o == OutcomeOf(reply, headerOk)
      ensures Pair(token, refreshToken) == Refreshed(old(Pair(token, refreshToken)), reply)
      ensures store == if reply.Rejected? then old(store) else Refreshed(old(store), reply)
    {
      hide Inv;
      LockRefresh(id);
      var sent := CompareSecret(id);
      o := TakeAnswer(id, reply, headerOk);
    }

    method TakeAnswer(id: int, reply: Reply, headerOk: bool) returns (o: Outcome)
      requires Ready'(Exchanged(id, reply)) && refreshToken == Some(calls[id].phase.secret)
      modifies this
      ensures Inv(View()) && refreshLock == None && Ended(old(calls), calls, id, o)
      ensures o == OutcomeOf(reply, headerOk)
      ensures Pair(token, refreshToken) == Refreshed(old(Pair(token, refreshToken)), reply)
      ensures store == if reply.Rejected? then old(store) else Refreshed(old(store), reply)
    {
      hide Inv;
      OnExchange(id, reply);
      match reply {
        case Lost => return ExchangeFailed;
        case Rejected =>
          ClearAccess(id);
          return Unauthorized;
        case _ => o := KeepPair(id, headerOk);
      }
    }

    /** The writes after a successful exchange, and the retry. */
    method KeepPair(id: int, headerOk: bool) returns (o: Outcome)
      requires Ready'(StoreToken(id))
      modifies this
      ensures Inv(View()) && refreshLock == None && Ended(old(calls), calls, id, o)
      ensures o == if headerOk then Replied else BadHeader
      ensures var p := old(calls[id].phase);
              && token == Some(p.access)
              && refreshToken == (if p.successor.Some? then p.successor else old(refreshToken))
              && store == Pair(Some(p.access), if p.successor.Some? then p.successor else old(store).refresh)
    {
      hide Inv;
      StorePair(id);
      o := Retry(id, headerOk);
    }

    method StorePair(id: int)
      requires Ready'(StoreToken(id))
      modifies this
      ensures Inv(View()) && refreshLock == old(refreshLock) && id in calls
      ensures var p := old(calls[id].phase);
              && calls == old(calls)[id := old(calls[id]).(phase := TokenRotation.Ready(p.access))]
              && token == Some(p.access)
              && refreshToken == (if p.successor.Some? then p.successor else old(refreshToken))
              && store == Pair(Some(p.access), if p.successor.Some? then p.successor else old(store).refresh)
    {
      hide Inv;
      WriteToken(id);
      WriteRefresh(id);
      FirePersist(id);
    }

    method Retry(id: int, headerOk: bool) returns (o: Outcome)
      requires Ready'(Send(id, headerOk))
      modifies this
      ensures Inv(View()) && refreshLock == None && Ended(old(calls), calls, id, o)
      ensures o == if headerOk then Replied else BadHeader
      ensures token == old(token) && refreshToken == old(refreshToken) && store == old(store)
    {
      hide Inv;
      SendRetry(id, headerOk);
      o := BadHeader;
      if headerOk {
        OnRetryReply(id);
        o := Replied;
      }
    }

    /** The loser of a race: another call has rotated the pair, so nothing is exchanged and the request goes out again
      * with the access token in memory. */
    method ReuseRotated(id: int) returns (bearer: Access)
      requires Ready'(Acquire(id)) && refreshToken.Some? && refreshToken != Some(calls[id].phase.secret)
      modifies this
      ensures Inv(View()) && refreshLock == None && Ended(old(calls), calls, id, Replied)
      ensures old(token) == Some(bearer) && calls[id].exchanges == old(calls[id].exchanges)
      ensures token == old(token) && refreshToken == old(refreshToken) && store == old(store)
    {
      hide Inv;
      LockRefresh(id);
      var sent := CompareSecret(id);
      bearer := token.value;
      SendRetry(id, true);
      OnRetryReply(id);
    }

    /** `maybe_refresh_and_retry` as a whole: without a 401, a cloneable body and a refresh secret the first answer
      * stands; otherwise one exchange decides what memory and store hold and how the call ends. */
    method RefreshAndRetry(id: int, unauthorized: bool, cloneable: bool, reply: Reply, headerOk: bool)
      returns (o: Outcome)
      requires Ready'(Answer(id, unauthorized, cloneable)) && refreshLock == None
      requires reply.Rotated? ==> reply.refresh !in issued
      modifies this
      ensures Inv(View()) && refreshLock == None && Ended(old(calls), calls, id, o)
      ensures var exchanged := unauthorized && cloneable && old(refreshToken).Some?;
              && o == (if exchanged then OutcomeOf(reply, headerOk) else Replied)
              && Pair(token, refreshToken)
                 == (if exchanged then Refreshed(old(Pair(token, refreshToken)), reply)
                     else old(Pair(token, refreshToken)))
              && store == (if exchanged && !reply.Rejected? then Refreshed(old(store), reply) else old(store))
    {
      hide Inv;
      OnReply(id, unauthorized, cloneable);
      if !unauthorized || !cloneable {
        return Replied;
      }
      var secret := refreshToken;
      CaptureSecret(id);
      if secret == None {
        return Replied;
      }
      o := ExchangeUndisturbed(id, reply, headerOk);
    }
  }

  /** One call has ended so, and the others are where they were. */
  predicate Ended(before: map<int, Call>, after: map<int, Call>, id: int, o: Outcome) {
    id in after && after[id].phase == Done(o) && after == before[id := after[id]]
  }

  /** What an exchange leaves of a pair of credentials. */
  function Refreshed(pair: Pair, reply: Reply): Pair {
    match reply
    case Rotated(access, refresh) => Pair(Some(access), Some(refresh))
    case Grace(access) => Pair(Some(access), pair.refresh)
    case Rejected => Pair(None, None)
    case Lost => pair
  }

  /** How a call ends after its exchange. */
  function OutcomeOf(reply: Reply, headerOk: bool): Outcome {
    match reply
    case Rejected => Unauthorized
    case Lost => ExchangeFailed
    case _ => if headerOk then Replied else BadHeader
  }
}
