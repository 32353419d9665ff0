/** Access and refresh token rotation by concurrent calls of one client, as interleaved atomic steps.

    A step ends wherever another call could run: at every lock, request or field access that a
    concurrent call can observe.  The server is arbitrary, except that it never issues an old
    refresh secret again. */
module TokenRotation {
  import opened Wrappers
  import opened Interleavings

  type Secret = string
  type Access = string

  /** What the exchange answered: a new pair, an access token alone, 400 or 401, or nothing usable. */
  datatype Reply = Rotated(access: Access, refresh: Secret) | Grace(access: Access) | Rejected | Lost

  datatype Outcome = Replied | Unauthorized | ExchangeFailed | EmptyToken | BadHeader | Cancelled

  datatype Phase =
    | Sent
    | Refused
    | Waiting(secret: Secret)
    | Holding(secret: Secret)
    | Exchanging(secret: Secret)
    | Granted(secret: Secret, access: Access, successor: Option<Secret>)
    | TokenSet(secret: Secret, access: Access, successor: Option<Secret>)
    | RefreshSet(access: Access, successor: Option<Secret>)
    | Clearing
    | Ready(access: Access)
    | Retrying(access: Access)
    | Done(outcome: Outcome)

  datatype Call = Call(phase: Phase, sends: nat, exchanges: nat)

  datatype Pair = Pair(access: Option<Access>, refresh: Option<Secret>)

  /** The client's fields, its calls in flight, and history: the pair the persistence callback has
      recorded, every secret seen so far, those with a stored successor, and whether a 400 or 401
      ever cleared the pair. */
  datatype Client = Client(token: Option<Access>, refresh: Option<Secret>, lock: Option<int>, calls: map<int, Call>,
                           store: Pair, issued: set<Secret>, retired: set<Secret>, cleared: bool)

  datatype Action =
    | Start(id: int)
    | Answer(id: int, unauthorized: bool, cloneable: bool)
    | Capture(id: int)
    | Acquire(id: int)
    | Compare(id: int)
    | Exchanged(id: int, reply: Reply)
    | StoreToken(id: int)
    | StoreRefresh(id: int)
    | Persist(id: int)
    | ClearToken(id: int)
    | Send(id: int, headerOk: bool)
    | Retried(id: int)
    | Cancel(id: int)

  predicate InLock(p: Phase) {
    p.Holding? || p.Exchanging? || p.Granted? || p.TokenSet? || p.RefreshSet? || p.Clearing? || p.Ready? || p.Retrying?
  }

  predicate Awaiting(p: Phase) {
    p.Sent? || p.Waiting? || p.Exchanging? || p.Retrying?
  }

  predicate Enabled(c: Client, a: Action) {
    if a.Start? then a.id !in c.calls else
      a.id in c.calls &&
      var p := c.calls[a.id].phase;
      match a
      case Start(_) => false
      case Answer(_, _, _) => p.Sent?
      case Capture(_) => p.Refused?
      case Acquire(_) => p.Waiting? && c.lock.None?
      case Compare(_) => p.Holding?
      case Exchanged(_, reply) => p.Exchanging? && (reply.Rotated? ==> reply.refresh !in c.issued)
      case StoreToken(_) => p.Granted?
      case StoreRefresh(_) => p.TokenSet?
      case Persist(_) => p.RefreshSet?
      case ClearToken(_) => p.Clearing?
      case Send(_, _) => p.Ready?
      case Retried(_) => p.Retrying?
      case Cancel(_) => Awaiting(p)
  }

  /** Another call rotated the pair after `secret` was captured. */
  predicate AlreadyRotated(refresh: Option<Secret>, secret: Secret) {
    refresh.Some? && refresh.value != secret
  }

  function Move(c: Client, id: int, p: Phase): Client
    requires id in c.calls
  {
    c.(calls := c.calls[id := c.calls[id].(phase := p)])
  }

  /** The call ends, releasing the lock if it held it. */
  function End(c: Client, id: int, o: Outcome): Client
    requires id in c.calls
  {
    Move(c, id, Done(o)).(lock := if InLock(c.calls[id].phase) then None else c.lock)
  }

  function CompareStep(c: Client, id: int, secret: Secret): Client
    requires id in c.calls
  {
    if AlreadyRotated(c.refresh, secret) then
      if c.token.Some? then Move(c, id, Ready(c.token.value)) else End(c, id, EmptyToken)
    else
      c.(calls := c.calls[id := Call(Exchanging(secret), c.calls[id].sends, c.calls[id].exchanges + 1)])
  }

  function ExchangedStep(c: Client, id: int, secret: Secret, reply: Reply): Client
    requires id in c.calls
  {
    match reply
    case Rotated(access, successor) =>
      Move(c, id, Granted(secret, access, Some(successor))).(issued := c.issued + {successor})
    case Grace(access) => Move(c, id, Granted(secret, access, None))
    case Rejected => Move(c, id, Clearing).(refresh := None, cleared := true)
    case Lost => End(c, id, ExchangeFailed)
  }

  function Step(c: Client, a: Action): Client
    requires Enabled(c, a)
  {
    if a.Start? then c.(calls := c.calls[a.id := Call(Sent, 1, 0)]) else
      var call := c.calls[a.id];
      var p := call.phase;
      match a
      case Answer(id, unauthorized, cloneable) =>
        if unauthorized && cloneable then Move(c, id, Refused) else End(c, id, Replied)
      case Capture(id) =>
        if c.refresh.Some? then Move(c, id, Waiting(c.refresh.value)) else End(c, id, Replied)
      case Acquire(id) => Move(c, id, Holding(p.secret)).(lock := Some(id))
      case Compare(id) => CompareStep(c, id, p.secret)
      case Exchanged(id, reply) => ExchangedStep(c, id, p.secret, reply)
      case StoreToken(id) => Move(c, id, TokenSet(p.secret, p.access, p.successor)).(token := Some(p.access))
      case StoreRefresh(id) =>
        var c' := Move(c, id, RefreshSet(p.access, p.successor));
        if p.successor.Some? then c'.(refresh := p.successor, retired := c.retired + {p.secret}) else c'
      case Persist(id) =>
        var kept := if p.successor.Some? then p.successor else c.store.refresh;
        Move(c, id, Ready(p.access)).(store := Pair(Some(p.access), kept))
      case ClearToken(id) => End(c, id, Unauthorized).(token := None)
      case Send(id, headerOk) =>
        if headerOk then c.(calls := c.calls[id := Call(Retrying(p.access), call.sends + 1, call.exchanges)])
        else End(c, id, BadHeader)
      case Retried(id) => End(c, id, Replied)
      case Cancel(id) => End(c, id, Cancelled)
  }

  /** The secret a step sends to the refresh endpoint. */
  function Sends(c: Client, a: Action): Option<Secret>
    requires Enabled(c, a)
  {
    if a.Compare? && !AlreadyRotated(c.refresh, c.calls[a.id].phase.secret)
    then Some(c.calls[a.id].phase.secret) else None
  }

  const STEPS: Protocol<Client, Action> :=
    Protocol((s, a) => Enabled(s, a), (s, a) => if Enabled(s, a) then Step(s, a) else s)

  /** A client as set up at start: memory and store hold the same pair, and nothing is in flight. */
  predicate Init(c: Client) {
    && c.calls == map[] && c.lock.None? && !c.cleared && c.retired == {}
    && c.store == Pair(c.token, c.refresh)
    && (c.refresh.Some? ==> c.refresh.value in c.issued)
  }

  // ---- What every step keeps ----

  predicate HasSecret(p: Phase) {
    p.Waiting? || p.Holding? || p.Exchanging? || p.Granted? || p.TokenSet?
  }

  /** At most one retry and at most one exchange. */
  ghost predicate Counted(call: Call) {
    var p := call.phase;
    && call.sends <= 2 && call.exchanges <= 1
    && (!p.Retrying? && !p.Done? ==> call.sends == 1) && (p.Retrying? ==> call.sends == 2)
    && (p.Exchanging? || p.Granted? || p.TokenSet? || p.RefreshSet? || p.Clearing? ==> call.exchanges == 1)
    && (p.Sent? || p.Refused? || p.Waiting? || p.Holding? ==> call.exchanges == 0)
  }

  /** How a call's captured or received credentials relate to the client's fields. */
  ghost predicate Linked(c: Client, p: Phase) {
    && (HasSecret(p) ==> p.secret in c.issued && (c.refresh.None? ==> c.cleared))
    && ((p.Waiting? || p.Holding?) && AlreadyRotated(c.refresh, p.secret) ==> c.retired != {})
    && (p.Exchanging? || p.Granted? || p.TokenSet? ==> c.refresh.None? || c.refresh.value == p.secret)
    && ((p.Granted? || p.TokenSet?) && p.successor.Some? ==>
          p.successor.value in c.issued && p.successor.value !in c.retired + {p.secret})
    && (p.TokenSet? || p.RefreshSet? || p.Ready? || p.Retrying? ==> c.token == Some(p.access))
    && (p.Clearing? ==> c.refresh.None? && c.cleared)
  }

  /** How memory and store differ while the lock holder is between its writes. */
  ghost predicate Agree(c: Client) {
    if c.lock.Some? && c.lock.value in c.calls then
      var p := c.calls[c.lock.value].phase;
      if p.TokenSet? then c.token == Some(p.access) && c.refresh == c.store.refresh
      else if p.RefreshSet? then
        c.token == Some(p.access) && c.refresh == (if p.successor.Some? then p.successor else c.store.refresh)
      else c.store == Pair(c.token, c.refresh)
    else c.store == Pair(c.token, c.refresh)
  }

  ghost predicate Inv(c: Client) {
    && (forall id :: id in c.calls ==> LockOk(c, id) && Counted(c.calls[id]) && Linked(c, c.calls[id].phase))
    && (c.lock.Some? ==> c.lock.value in c.calls)
    && c.retired <= c.issued
    && (c.refresh.Some? ==> c.refresh.value in c.issued && c.refresh.value !in c.retired)
    && (c.retired != {} && c.refresh.Some? ==> c.token.Some?)
    && (!c.cleared ==> Agree(c))
  }

  lemma InitInv(c: Client)
    requires Init(c)
    ensures Inv(c)
  {
  }

  ghost predicate LockOk(c: Client, id: int)
    requires id in c.calls
  {
    InLock(c.calls[id].phase) <==> c.lock == Some(id)
  }

  lemma OwnLock(c: Client, a: Action)
    requires Inv(c) && Enabled(c, a)
    ensures LockOk(Step(c, a), a.id)
  {
    hide Linked, Agree, Counted;
    if !a.Start? {
      assert LockOk(c, a.id);
    }
  }

  /** What the invariant says of one call and of the secrets. */
  lemma InvAt(c: Client, id: int)
    requires Inv(c) && id in c.calls
    ensures LockOk(c, id) && Counted(c.calls[id]) && Linked(c, c.calls[id].phase)
    ensures c.retired <= c.issued
    ensures c.refresh.Some? ==> c.refresh.value in c.issued && c.refresh.value !in c.retired
    ensures c.retired != {} && c.refresh.Some? ==> c.token.Some?
  {
    hide LockOk, Counted, Linked, Agree;
  }

  lemma OwnCounted(c: Client, a: Action)
    requires Inv(c) && Enabled(c, a)
    ensures Counted(Step(c, a).calls[a.id])
  {
    hide Linked, Agree, LockOk, Inv;
    if !a.Start? {
      InvAt(c, a.id);
    }
  }

  lemma OwnLinked(c: Client, a: Action)
    requires Inv(c) && Enabled(c, a)
    ensures Linked(Step(c, a), Step(c, a).calls[a.id].phase)
  {
    hide Counted, Agree, LockOk, Inv;
    if !a.Start? {
      InvAt(c, a.id);
    }
  }

  lemma OtherOk(c: Client, a: Action, id: int)
    requires Inv(c) && Enabled(c, a) && id in c.calls && id != a.id
    ensures id in Step(c, a).calls && Step(c, a).calls[id] == c.calls[id]
    ensures LockOk(Step(c, a), id) && Linked(Step(c, a), c.calls[id].phase)
  {
    hide Counted, Agree;
    assert !a.Start? ==> LockOk(c, a.id) && Linked(c, c.calls[a.id].phase);
    assert LockOk(c, id) && Linked(c, c.calls[id].phase);
  }

  lemma SecretsOk(c: Client, a: Action)
    requires Inv(c) && Enabled(c, a)
    ensures var c' := Step(c, a);
            && c'.retired <= c'.issued
            && (c'.refresh.Some? ==> c'.refresh.value in c'.issued && c'.refresh.value !in c'.retired)
            && (c'.retired != {} && c'.refresh.Some? ==> c'.token.Some?)
            && (c'.lock.Some? ==> c'.lock.value in c'.calls)
  {
    hide Counted, Agree;
    if !a.Start? {
      assert Linked(c, c.calls[a.id].phase);
    }
  }

  lemma AgreeOk(c: Client, a: Action)
    requires Inv(c) && Enabled(c, a)
    ensures !Step(c, a).cleared ==> Agree(Step(c, a))
  {
    hide Counted;
    if !a.Start? {
      assert LockOk(c, a.id) && Linked(c, c.calls[a.id].phase);
    }
  }

  lemma StepInv(c: Client, a: Action)
    requires Inv(c) && Enabled(c, a)
    ensures Inv(Step(c, a))
  {
    hide Step, Linked, Counted, Agree, LockOk;
    var c' := Step(c, a);
    forall id | id in c'.calls
      ensures LockOk(c', id) && Counted(c'.calls[id]) && Linked(c', c'.calls[id].phase)
    {
      if id == a.id {
        OwnLock(c, a);
        OwnCounted(c, a);
        OwnLinked(c, a);
      } else {
        StepKeepsOthers(c, a, id);
        OtherOk(c, a, id);
      }
    }
    SecretsOk(c, a);
    AgreeOk(c, a);
  }

  lemma StepKeepsOthers(c: Client, a: Action, id: int)
    requires Enabled(c, a) && id in Step(c, a).calls && id != a.id
    ensures id in c.calls
  {
  }
}
