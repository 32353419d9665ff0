/** The batching event emitter as interleaved atomic steps of its producers, its one flusher and `close`. */
module EmitterMachine {
  import opened Wrappers
  import opened Interleavings
  import opened Batching

  const HIGH_WATER: nat := 1000

  /** What a post met: no HTTP client any more, a 2xx answer, another answer, or an exception. */
  datatype Reply = NoClient | Ok | NotOk | Raised

  datatype Post = Post(batch: Batch, reply: Reply)

  /** One pass of the flusher: the chunks it took off the queue and the batches it made of them. */
  datatype Flush = Flush(drained: seq<Item>, made: seq<Batch>)

  /** Where the flusher stands. `last` marks the pass after `close` was noticed; `Holding` keeps the chunk that did not
    * fit while the batch before it is posted. */
  datatype Phase =
    | Checking
    | Waiting
    | Draining(last: bool)
    | Holding(last: bool, item: Item)
    | Tail(last: bool)
    | Exited

  datatype Counters = Counters(emitted: nat, batches: nat, errors: nat, dropped: nat)

  /** The emitter's fields and threads, then history: everything offered, dropped, queued and posted, the current and
    * the earlier flushes, how much was queued when `close` began, and whether the client was closed under the
    * flusher. */
  datatype State = State(
    queue: seq<Item>, passed: seq<Option<Item>>, stopped: bool, client: bool, phase: Phase, open: Batch,
    counters: Counters,
    offered: seq<Item>, dropped: seq<Item>, queued: seq<Item>, posts: seq<Post>,
    flush: Flush, flushes: seq<Flush>, cut: nat, hurried: bool)

  datatype Action =
    | Offer(producer: nat, kind: string, chunk: string)
    | Put(producer: nat)
    | Check
    | Wake
    | Get
    | PostFull(reply: Reply)
    | PostTail(reply: Reply)
    | Stop
    | CloseClient

  predicate Droppable(kind: string) {
    kind == "reasoning" || kind == "stdout" || kind == "text"
  }

  predicate CanAnswer(s: State, reply: Reply) {
    if s.client then reply != NoClient else reply.NoClient? || reply.Raised?
  }

  predicate Enabled(s: State, a: Action) {
    match a
    case Offer(p, _, _) => p < |s.passed| && s.passed[p].None?
    case Put(p) => p < |s.passed| && s.passed[p].Some?
    case Check => s.phase.Checking?
    case Wake => s.phase.Waiting?
    case Get => s.phase.Draining?
    case PostFull(reply) => s.phase.Holding? && CanAnswer(s, reply)
    case PostTail(reply) => s.phase.Tail? && CanAnswer(s, reply)
    case Stop => true
    case CloseClient => s.stopped
  }

  function Kind(kind: string): string {
    if kind == "" then "stdout" else kind
  }

  /** The check of the queue's depth; what passes it is put in the queue in a step of its own. */
  function OfferStep(s: State, p: nat, kind: string, chunk: string): State
    requires p < |s.passed|
  {
    if chunk == "" then s else
      var x := Item(p, |s.offered|, Kind(kind), chunk);
      var s' := s.(offered := s.offered + [x]);
      if |s.queue| > HIGH_WATER && Droppable(x.kind) then
        s'.(dropped := s.dropped + [x], counters := s.counters.(dropped := s.counters.dropped + 1))
      else s'.(passed := s.passed[p := Some(x)])
  }

  function PutStep(s: State, p: nat): State
    requires p < |s.passed| && s.passed[p].Some?
  {
    s.(passed := s.passed[p := None], queue := s.queue + [s.passed[p].value], queued := s.queued + [s.passed[p].value])
  }

  function GetStep(s: State): State
    requires s.phase.Draining?
  {
    if s.queue == [] then s.(phase := Tail(s.phase.last))
    else if MustClose(s.open, s.queue[0]) then s.(phase := Holding(s.phase.last, s.queue[0]), queue := s.queue[1..])
    else s.(open := s.open + [s.queue[0]], flush := s.flush.(drained := s.flush.drained + [s.queue[0]]),
            queue := s.queue[1..])
  }

  function Tally(c: Counters, b: Batch, reply: Reply): Counters {
    match reply
    case NoClient => c
    case Ok => c.(emitted := c.emitted + |b|, batches := c.batches + 1)
    case _ => c.(errors := c.errors + 1)
  }

  /** Posting the open batch, whatever comes of it. */
  function PostOpen(s: State, reply: Reply): State {
    s.(posts := s.posts + [Post(s.open, reply)], counters := Tally(s.counters, s.open, reply),
       flush := s.flush.(made := s.flush.made + [s.open]), open := [])
  }

  function PostFullStep(s: State, reply: Reply): State
    requires s.phase.Holding?
  {
    var s' := PostOpen(s, reply);
    s'.(phase := Draining(s.phase.last), open := [s.phase.item],
        flush := s'.flush.(drained := s'.flush.drained + [s.phase.item]))
  }

  function PostTailStep(s: State, reply: Reply): State
    requires s.phase.Tail?
  {
    var s' := if s.open == [] then s else PostOpen(s, reply);
    s'.(phase := if s.phase.last then Exited else Checking, flushes := s'.flushes + [s'.flush], flush := Flush([], []))
  }

  function Step(s: State, a: Action): State
    requires Enabled(s, a)
  {
    match a
    case Offer(p, kind, chunk) => OfferStep(s, p, kind, chunk)
    case Put(p) => PutStep(s, p)
    case Check => s.(phase := if s.stopped then Draining(true) else Waiting)
    case Wake => s.(phase := Draining(false))
    case Get => GetStep(s)
    case PostFull(reply) => PostFullStep(s, reply)
    case PostTail(reply) => PostTailStep(s, reply)
    case Stop => if s.stopped then s else s.(stopped := true, cut := |s.queued|)
    case CloseClient => s.(client := false, hurried := s.hurried || (s.client && !s.phase.Exited?))
  }

  const STEPS: Protocol<State, Action> :=
    Protocol((s, a) => Enabled(s, a), (s, a) => if Enabled(s, a) then Step(s, a) else s)

  ghost predicate Init(s: State, producers: nat) {
    s == State([], seq(producers, _ => None), false, true, Checking, [], Counters(0, 0, 0, 0),
               [], [], [], [], Flush([], []), [], 0, false)
  }

  // ---- The invariant ----

  function Held(p: Phase): seq<Item> {
    if p.Holding? then [p.item] else []
  }

  function Batches(posts: seq<Post>): seq<Batch> {
    seq(|posts|, i requires 0 <= i < |posts| => posts[i].batch)
  }

  /** Every chunk taken off the queue and posted, in order. */
  function Posted(posts: seq<Post>): seq<Item> {
    Flatten(Batches(posts))
  }

  function InFlight(passed: seq<Option<Item>>): multiset<Item> {
    if passed == [] then multiset{} else
      InFlight(passed[..|passed| - 1]) + One(passed[|passed| - 1])
  }

  /** How many droppable chunks a sequence holds. */
  function Load(xs: seq<Item>): nat {
    if xs == [] then 0 else Load(xs[..|xs| - 1]) + if Droppable(xs[|xs| - 1].kind) then 1 else 0
  }

  function PassedLoad(passed: seq<Option<Item>>): (n: nat)
    ensures n <= |passed|
  {
    if passed == [] then 0 else
      PassedLoad(passed[..|passed| - 1])
      + if passed[|passed| - 1].Some? && Droppable(passed[|passed| - 1].value.kind) then 1 else 0
  }

  /** Chunks in accepted posts, and how many posts went each way. */
  function Totals(posts: seq<Post>): Counters {
    if posts == [] then Counters(0, 0, 0, 0)
    else Tally(Totals(posts[..|posts| - 1]), posts[|posts| - 1].batch, posts[|posts| - 1].reply)
  }

  ghost predicate Conserved(s: State) {
    Posted(s.posts) + s.open + Held(s.phase) + s.queue == s.queued
  }

  ghost predicate Classified(s: State) {
    Balanced(s.offered, s.dropped, s.passed, s.queued) && Numbered(s.offered)
  }

  ghost predicate Balanced(offered: seq<Item>, dropped: seq<Item>, passed: seq<Option<Item>>, queued: seq<Item>) {
    multiset(offered) == multiset(dropped) + InFlight(passed) + multiset(queued)
  }

  ghost predicate Numbered(offered: seq<Item>) {
    forall i | 0 <= i < |offered| :: offered[i].number == i
  }

  ghost predicate DropsOk(s: State) {
    forall x | x in s.dropped :: Droppable(x.kind)
  }

  ghost predicate Shallow(s: State) {
    Load(s.queue) + PassedLoad(s.passed) <= HIGH_WATER + |s.passed|
  }

  ghost predicate Ordered(s: State) {
    && (forall p | 0 <= p < |s.passed| && s.passed[p].Some? ::
          s.passed[p].value.producer == p && s.passed[p].value.number < |s.offered|)
    && (forall i | 0 <= i < |s.queued| :: s.queued[i].number < |s.offered| && s.queued[i].producer < |s.passed|)
    && (forall i, p | 0 <= i < |s.queued| && 0 <= p < |s.passed| && s.passed[p].Some? && s.queued[i].producer == p ::
          s.queued[i].number < s.passed[p].value.number)
    && forall i, j | 0 <= i < j < |s.queued| && s.queued[i].producer == s.queued[j].producer ::
          s.queued[i].number < s.queued[j].number
  }

  ghost predicate Counted(s: State) {
    s.counters == Totals(s.posts).(dropped := |s.dropped|)
  }

  ghost predicate Batched(s: State) {
    && (forall f | f in s.flushes :: f.made == Finish(Greedy(f.drained)))
    && Greedy(s.flush.drained) == Progress(s.flush.made, s.open)
    && (s.phase.Holding? ==> MustClose(s.open, s.phase.item))
    && (s.phase.Checking? || s.phase.Waiting? || s.phase.Exited? ==> s.flush == Flush([], []))
  }

  function Made(flushes: seq<Flush>): seq<Batch> {
    if flushes == [] then [] else Made(flushes[..|flushes| - 1]) + flushes[|flushes| - 1].made
  }

  /** The batches posted are those the flushes made. */
  ghost predicate Recorded(s: State) {
    Batches(s.posts) == Made(s.flushes) + s.flush.made
  }

  ghost predicate Stopping(s: State) {
    && (!s.stopped ==> s.cut == 0 && s.client && !s.phase.Exited?)
    && s.cut <= |s.queued|
    && (s.phase.Draining? || s.phase.Holding? || s.phase.Tail? ==> s.phase.last ==> s.stopped)
    && (s.phase.Exited? || s.phase == Tail(true) ==> |s.queue| + s.cut <= |s.queued|)
  }

  ghost predicate Undisturbed(s: State) {
    && (!s.hurried ==> s.client || s.phase.Exited?)
    && (!s.hurried ==> forall q | q in s.posts :: q.reply != NoClient)
  }

  ghost predicate Inv(s: State) {
    && Conserved(s) && Classified(s) && DropsOk(s) && Shallow(s) && Ordered(s)
    && Counted(s) && Batched(s) && Recorded(s) && Stopping(s) && Undisturbed(s)
  }

  // ---- It holds at first, and every step keeps it ----

  lemma {:induction false} NoneInFlight(n: nat)
    ensures InFlight(seq(n, _ => None)) == multiset{} && PassedLoad(seq(n, _ => None)) == 0
  {
    if n > 0 {
      NoneInFlight(n - 1);
      assert seq<Option<Item>>(n, _ => None)[..n - 1] == seq<Option<Item>>(n - 1, _ => None);
    }
  }

  lemma InitInv(s: State, producers: nat)
    requires Init(s, producers)
    ensures Inv(s)
  {
    NoneInFlight(producers);
  }

  lemma {:induction false} InFlightUpdate(passed: seq<Option<Item>>, p: nat, x: Option<Item>)
    requires p < |passed|
    ensures InFlight(passed[p := x]) + One(passed[p]) == InFlight(passed) + One(x)
    ensures PassedLoad(passed[p := x]) + Cost(passed[p]) == PassedLoad(passed) + Cost(x)
  {
    hide InFlight, PassedLoad, One, Cost;
    var n := |passed| - 1;
    var init, last := passed[..n], passed[n];
    assert passed == init + [last];
    InFlightAppend(init, last);
    if p < n {
      InFlightUpdate(init, p, x);
      InFlightAppend(init[p := x], last);
      assert passed[p := x] == init[p := x] + [last];
      var rest := InFlight(init[p := x]);
      assert rest + One(last) + One(passed[p]) == (rest + One(passed[p])) + One(last);
    } else {
      InFlightAppend(init, x);
      assert passed[p := x] == init + [x];
    }
  }

  lemma InFlightAppend(passed: seq<Option<Item>>, x: Option<Item>)
    ensures InFlight(passed + [x]) == InFlight(passed) + One(x)
    ensures PassedLoad(passed + [x]) == PassedLoad(passed) + Cost(x)
  {
    assert (passed + [x])[..|passed|] == passed;
  }

  function One(x: Option<Item>): multiset<Item> {
    if x.Some? then multiset{x.value} else multiset{}
  }

  function Cost(x: Option<Item>): nat {
    if x.Some? && Droppable(x.value.kind) then 1 else 0
  }

  lemma {:induction false} LoadTail(xs: seq<Item>)
    requires xs != []
    ensures Load(xs[1..]) <= Load(xs)
  {
    if |xs| > 1 {
      LoadTail(xs[..|xs| - 1]);
      assert xs[1..][..|xs| - 2] == xs[..|xs| - 1][1..];
    }
  }

  lemma {:induction false} LoadBound(xs: seq<Item>)
    ensures Load(xs) <= |xs|
  {
    if xs != [] {
      LoadBound(xs[..|xs| - 1]);
    }
  }

  lemma LoadAppend(xs: seq<Item>, x: Item)
    ensures Load(xs + [x]) == Load(xs) + Cost(Some(x))
  {
    assert (xs + [x])[..|xs|] == xs;
  }

  lemma PostedAppend(posts: seq<Post>, q: Post)
    ensures Posted(posts + [q]) == Posted(posts) + q.batch
    ensures Totals(posts + [q]) == Tally(Totals(posts), q.batch, q.reply)
  {
    assert Batches(posts + [q]) == Batches(posts) + [q.batch];
    FlattenAppend(Batches(posts), q.batch);
    assert (posts + [q])[..|posts|] == posts;
  }

  lemma GreedyAppend(items: seq<Item>, x: Item)
    ensures Greedy(items + [x]) == AddItem(Greedy(items), x)
  {
    assert (items + [x])[..|items|] == items;
  }

  lemma Regroup(posted: seq<Item>, open: seq<Item>, x: Item, rest: seq<Item>)
    ensures posted + open + [] + ([x] + rest) == posted + open + [x] + rest
    ensures posted + (open + [x]) + [] + rest == posted + open + [x] + rest
  {
  }

  lemma ConservedGet(s: State)
    requires Conserved(s) && Enabled(s, Get)
    ensures Conserved(GetStep(s))
  {
    hide Posted, MustClose;
    if s.queue != [] {
      Regroup(Posted(s.posts), s.open, s.queue[0], s.queue[1..]);
      assert s.queue == [s.queue[0]] + s.queue[1..];
    }
  }

  lemma ConservedPost(s: State, reply: Reply)
    requires Conserved(s)
    ensures Enabled(s, PostFull(reply)) ==> Conserved(PostFullStep(s, reply))
    ensures Enabled(s, PostTail(reply)) ==> Conserved(PostTailStep(s, reply))
  {
    hide Posted, Tally, Totals;
    PostedAppend(s.posts, Post(s.open, reply));
    var posted := Posted(s.posts);
    assert posted + s.open + Held(s.phase) + s.queue == (posted + s.open) + [] + Held(s.phase) + s.queue;
    assert posted + s.open + [] + s.queue == posted + s.open + s.queue;
  }

  lemma ConservedOk(s: State, a: Action)
    requires Conserved(s) && Enabled(s, a)
    ensures Conserved(Step(s, a))
  {
    hide Posted, GetStep, PostFullStep, PostTailStep;
    match a
    case PostFull(reply) => ConservedPost(s, reply);
    case PostTail(reply) => ConservedPost(s, reply);
    case Get => ConservedGet(s);
    case Put(p) =>
      var x := s.passed[p].value;
      assert Posted(s.posts) + s.open + Held(s.phase) + (s.queue + [x]) == s.queued + [x];
    case _ =>
  }

  lemma BalancedOffer(offered: seq<Item>, dropped: seq<Item>, passed: seq<Option<Item>>, queued: seq<Item>, p: nat,
                      x: Item)
    requires Balanced(offered, dropped, passed, queued) && p < |passed| && passed[p].None?
    ensures Balanced(offered + [x], dropped + [x], passed, queued)
    ensures Balanced(offered + [x], dropped, passed[p := Some(x)], queued)
  {
    hide InFlight, PassedLoad;
    InFlightUpdate(passed, p, Some(x));
    var f, f' := InFlight(passed), InFlight(passed[p := Some(x)]);
    assert f' + One(None) == f';
    assert multiset(offered + [x]) == multiset(offered) + multiset{x};
    assert multiset(dropped + [x]) == multiset(dropped) + multiset{x};
  }

  lemma BalancedPut(offered: seq<Item>, dropped: seq<Item>, passed: seq<Option<Item>>, queued: seq<Item>, p: nat)
    requires Balanced(offered, dropped, passed, queued) && p < |passed| && passed[p].Some?
    ensures Balanced(offered, dropped, passed[p := None], queued + [passed[p].value])
  {
    hide InFlight, PassedLoad, Cost;
    InFlightUpdate(passed, p, None);
    var x, others := One(passed[p]), InFlight(passed[p := None]);
    assert others + x == InFlight(passed);
    assert multiset(queued + [passed[p].value]) == multiset(queued) + x;
    assert multiset(dropped) + others + (multiset(queued) + x) == multiset(dropped) + (others + x) + multiset(queued);
  }

  lemma ClassifiedOk(s: State, a: Action)
    requires Classified(s) && Enabled(s, a)
    ensures Classified(Step(s, a))
  {
    hide Balanced, Kind, Droppable, MustClose, Tally;
    match a
    case Offer(p, kind, chunk) =>
      BalancedOffer(s.offered, s.dropped, s.passed, s.queued, p, Item(p, |s.offered|, Kind(kind), chunk));
    case Put(p) => BalancedPut(s.offered, s.dropped, s.passed, s.queued, p);
    case _ =>
  }

  lemma DropsKept(s: State, a: Action)
    requires DropsOk(s) && Enabled(s, a)
    ensures DropsOk(Step(s, a))
  {
  }

  lemma ShallowOk(s: State, a: Action)
    requires Shallow(s) && Enabled(s, a)
    ensures Shallow(Step(s, a))
  {
    hide InFlight, PassedLoad, Load, One;
    match a
    case Offer(p, kind, chunk) =>
      InFlightUpdate(s.passed, p, Some(Item(p, |s.offered|, Kind(kind), chunk)));
      LoadBound(s.queue);
    case Put(p) =>
      InFlightUpdate(s.passed, p, None);
      LoadAppend(s.queue, s.passed[p].value);
    case Get => if s.queue != [] { LoadTail(s.queue); }
    case _ =>
  }

  lemma OrderedPut(s: State, p: nat)
    requires Ordered(s) && Enabled(s, Put(p))
    ensures Ordered(PutStep(s, p))
  {
  }

  lemma OrderedOffer(s: State, p: nat, kind: string, chunk: string)
    requires Ordered(s) && Enabled(s, Offer(p, kind, chunk))
    ensures Ordered(OfferStep(s, p, kind, chunk))
  {
    hide Kind, Droppable;
  }

  lemma OrderedOk(s: State, a: Action)
    requires Ordered(s) && Enabled(s, a)
    ensures Ordered(Step(s, a))
  {
    hide OfferStep, PutStep, GetStep, PostFullStep, PostTailStep, Ordered;
    match a
    case Offer(p, kind, chunk) => OrderedOffer(s, p, kind, chunk);
    case Put(p) => OrderedPut(s, p);
    case _ => FlusherApart(s, a);
  }

  /** The flusher and `close` touch neither the producers nor what was queued so far. */
  lemma FlusherApart(s: State, a: Action)
    requires Enabled(s, a) && !a.Offer? && !a.Put?
    ensures var t := Step(s, a);
            && t.passed == s.passed && t.queued == s.queued && t.offered == s.offered && t.dropped == s.dropped
            && (Ordered(s) ==> Ordered(t))
  {
  }

  lemma CountedOk(s: State, a: Action)
    requires Counted(s) && Enabled(s, a)
    ensures Counted(Step(s, a))
  {
    hide Totals, MustClose, Droppable;
    match a
    case PostFull(reply) => PostedAppend(s.posts, Post(s.open, reply));
    case PostTail(reply) => PostedAppend(s.posts, Post(s.open, reply));
    case _ =>
  }

  lemma BatchedOk(s: State, a: Action)
    requires Batched(s) && Enabled(s, a)
    ensures Batched(Step(s, a))
  {
    hide Greedy, OfferStep, PutStep, Tally;
    match a
    case Offer(p, kind, chunk) => OfferApart(s, p, kind, chunk);
    case Put(p) => PutApart(s, p);
    case Get => if s.queue != [] { GreedyAppend(s.flush.drained, s.queue[0]); }
    case PostFull(reply) => GreedyAppend(s.flush.drained, s.phase.item);
    case PostTail(reply) => NothingDrained();
    case _ =>
  }

  /** Producers do not touch the flusher's side. */
  lemma OfferApart(s: State, p: nat, kind: string, chunk: string)
    requires p < |s.passed|
    ensures var t := OfferStep(s, p, kind, chunk);
            t.phase == s.phase && t.open == s.open && t.flush == s.flush && t.flushes == s.flushes && t.posts == s.posts
  {
  }

  lemma PutApart(s: State, p: nat)
    requires p < |s.passed| && s.passed[p].Some?
    ensures var t := PutStep(s, p);
            t.phase == s.phase && t.open == s.open && t.flush == s.flush && t.flushes == s.flushes && t.posts == s.posts
  {
  }

  lemma RecordedOk(s: State, a: Action)
    requires Recorded(s) && Enabled(s, a)
    ensures Recorded(Step(s, a))
  {
    hide Made, Batches, OfferStep, PutStep, MustClose, Tally;
    match a
    case Offer(p, kind, chunk) => OfferApart(s, p, kind, chunk);
    case Put(p) => PutApart(s, p);
    case PostFull(reply) => BatchesAppend(s.posts, Post(s.open, reply));
    case PostTail(reply) =>
      MadeAppend(s.flushes, s.flush);
      MadeAppend(s.flushes, Flush(s.flush.drained, s.flush.made + [s.open]));
      BatchesAppend(s.posts, Post(s.open, reply));
    case _ =>
  }

  lemma BatchesAppend(posts: seq<Post>, q: Post)
    ensures Batches(posts + [q]) == Batches(posts) + [q.batch]
  {
  }

  lemma MadeAppend(flushes: seq<Flush>, f: Flush)
    ensures Made(flushes + [f]) == Made(flushes) + f.made
  {
    assert (flushes + [f])[..|flushes|] == flushes;
  }

  lemma NothingDrained()
    ensures Greedy([]) == Progress([], [])
  {
  }

  lemma StoppingOk(s: State, a: Action)
    requires Stopping(s) && Conserved(s) && Enabled(s, a)
    ensures Stopping(Step(s, a))
  {
    hide Posted, MustClose, Tally, Droppable;
    assert |s.queue| <= |s.queued|;
  }

  lemma ClientKept(s: State, a: Action)
    requires Undisturbed(s) && Enabled(s, a)
    ensures Undisturbed(Step(s, a))
  {
    hide MustClose, Droppable;
  }

  lemma StepInv(s: State, a: Action)
    requires Inv(s) && Enabled(s, a)
    ensures Inv(Step(s, a))
  {
    hide *;
    InvParts(s);
    ConservedOk(s, a);
    ClassifiedOk(s, a);
    DropsKept(s, a);
    ShallowOk(s, a);
    OrderedOk(s, a);
    CountedOk(s, a);
    BatchedOk(s, a);
    RecordedOk(s, a);
    StoppingOk(s, a);
    ClientKept(s, a);
    InvParts(Step(s, a));
  }

  lemma SameProducers(s: State, a: Action)
    requires Enabled(s, a)
    ensures |Step(s, a).passed| == |s.passed|
  {
  }

  lemma InvParts(s: State)
    ensures Inv(s) <==> Conserved(s) && Classified(s) && DropsOk(s) && Shallow(s) && Ordered(s)
                        && Counted(s) && Batched(s) && Recorded(s) && Stopping(s) && Undisturbed(s)
  {
  }
}
