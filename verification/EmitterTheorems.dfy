/** What holds over every interleaving of producers, flusher and `close`. */
module EmitterTheorems {
  import opened Wrappers
  import opened Interleavings
  import opened Batching
  import opened EmitterMachine

  /** The state is one some interleaving leads to. */
  ghost predicate Reachable(s: State, producers: nat, acts: seq<Action>) {
    exists s0 :: Init(s0, producers) && Runs(STEPS, s0, acts) && s == RunTo(STEPS, s0, acts)
  }

  lemma ReachableInv(s: State, producers: nat, acts: seq<Action>)
    requires Reachable(s, producers, acts)
    ensures Inv(s) && |s.passed| == producers
  {
    hide Inv, Step, Enabled;
    var s0 :| Init(s0, producers) && Runs(STEPS, s0, acts) && s == RunTo(STEPS, s0, acts);
    InitInv(s0, producers);
    forall t, a | Inv(t) && |t.passed| == producers && Enabled(t, a)
      ensures Inv(Step(t, a)) && |Step(t, a).passed| == producers
    {
      StepInv(t, a);
      SameProducers(t, a);
    }
    Invariant(STEPS, t => Inv(t) && |t.passed| == producers, s0, acts);
  }

  // ---- Conservation ----

  /** Posted batches in order, then the open batch, then the chunk in hand, then the queue, are what was queued. */
  lemma NothingLostOrReordered(s: State, producers: nat, acts: seq<Action>)
    requires Reachable(s, producers, acts)
    ensures Posted(s.posts) + s.open + Held(s.phase) + s.queue == s.queued
  {
    hide *;
    ReachableInv(s, producers, acts);
    InvParts(s);
    ConservedMeans(s);
  }

  lemma ConservedMeans(s: State)
    requires Conserved(s)
    ensures Posted(s.posts) + s.open + Held(s.phase) + s.queue == s.queued
  {
  }

  lemma {:induction false} OfferedOnce(offered: seq<Item>, x: Item)
    requires Numbered(offered) && x in offered
    ensures multiset(offered)[x] == 1
  {
    var init, last := offered[..|offered| - 1], offered[|offered| - 1];
    assert offered == init + [last];
    if x in init {
      OfferedOnce(init, x);
      assert x.number < |init|;
    } else {
      assert multiset(init)[x] == 0;
    }
  }

  /** Every offered chunk is in exactly one place: dropped, about to be queued, queued, in hand, in the open batch or
    * posted. */
  lemma EachOfferInOnePlace(s: State, producers: nat, acts: seq<Action>, x: Item)
    requires Reachable(s, producers, acts) && x in s.offered
    ensures multiset(s.dropped)[x] + InFlight(s.passed)[x] + multiset(s.queue)[x] + multiset(Held(s.phase))[x]
            + multiset(s.open)[x] + multiset(Posted(s.posts))[x] == 1
  {
    hide *;
    ReachableInv(s, producers, acts);
    InvParts(s);
    ConservedMeans(s);
    ClassifiedMeans(s, x);
    SplitCount(Posted(s.posts), s.open, Held(s.phase), s.queue, s.queued, x);
  }

  lemma ClassifiedMeans(s: State, x: Item)
    requires Classified(s) && x in s.offered
    ensures multiset(s.dropped)[x] + InFlight(s.passed)[x] + multiset(s.queued)[x] == 1
  {
    OfferedOnce(s.offered, x);
  }

  lemma SplitCount(a: seq<Item>, b: seq<Item>, c: seq<Item>, d: seq<Item>, all: seq<Item>, x: Item)
    requires a + b + c + d == all
    ensures multiset(all)[x] == multiset(a)[x] + multiset(b)[x] + multiset(c)[x] + multiset(d)[x]
  {
    assert multiset(a + b + c + d) == multiset(a) + multiset(b) + multiset(c) + multiset(d);
  }

  // ---- The drop policy ----

  /** Only reasoning, stdout and text are ever dropped. */
  lemma StructureIsNeverDropped(s: State, producers: nat, acts: seq<Action>, x: Item)
    requires Reachable(s, producers, acts) && x in s.dropped
    ensures x.kind in {"reasoning", "stdout", "text"}
    ensures x.kind !in {"lifecycle", "lifecycle_error", "tool_use", "tool_result"}
  {
    hide Conserved, Classified, Shallow, Ordered, Counted, Batched, Recorded, Stopping, Undisturbed;
    ReachableInv(s, producers, acts);
  }

  /** An emitter whose queue never held more than a thousand chunks has dropped nothing. */
  ghost predicate NeverFull(s: State, acts: seq<Action>)
    decreases |acts|
  {
    |s.queue| <= 1000
    && (acts != [] && Enabled(s, acts[0]) ==> NeverFull(Step(s, acts[0]), acts[1..]))
  }

  lemma NoDropBelow(s: State, a: Action)
    requires Enabled(s, a) && |s.queue| <= 1000
    ensures Step(s, a).dropped == s.dropped && Step(s, a).counters.dropped == s.counters.dropped
  {
    hide MustClose, Droppable, Kind;
  }

  lemma {:induction false} NothingDroppedUnlessFull(s: State, acts: seq<Action>)
    requires Runs(STEPS, s, acts) && NeverFull(s, acts)
    ensures RunTo(STEPS, s, acts).dropped == s.dropped && RunTo(STEPS, s, acts).counters.dropped == s.counters.dropped
    decreases |acts|
  {
    if acts != [] {
      NoDropBelow(s, acts[0]);
      hide Step, Enabled;
      NothingDroppedUnlessFull(Step(s, acts[0]), acts[1..]);
    }
  }

  /** Above that depth a reasoning, stdout or text chunk is dropped and counted; any other one, and any one below it, is
    * handed on as offered. */
  lemma OfferDecides(s: State, p: nat, kind: string, chunk: string)
    requires Enabled(s, Offer(p, kind, chunk)) && chunk != ""
    ensures var t, k := Step(s, Offer(p, kind, chunk)), if kind == "" then "stdout" else kind;
            var x := Item(p, |s.offered|, k, chunk);
            && t.offered == s.offered + [x] && t.queue == s.queue
            && (if |s.queue| > 1000 && k in {"reasoning", "stdout", "text"}
                then t.dropped == s.dropped + [x] && t.passed == s.passed
                     && t.counters.dropped == s.counters.dropped + 1
                else t.dropped == s.dropped && t.passed == s.passed[p := Some(x)] && t.counters == s.counters)
  {
  }

  ghost predicate OnlyDroppable(acts: seq<Action>) {
    forall i | 0 <= i < |acts| && acts[i].Offer? :: Droppable(Kind(acts[i].kind))
  }

  lemma {:induction false} OfferedKinds(s: State, acts: seq<Action>)
    requires Runs(STEPS, s, acts) && OnlyDroppable(acts)
    requires forall x | x in s.offered :: Droppable(x.kind)
    ensures forall x | x in RunTo(STEPS, s, acts).offered :: Droppable(x.kind)
    decreases |acts|
  {
    if acts != [] {
      hide Droppable, Kind, Step, Enabled;
      OfferedNext(s, acts[0]);
      OfferedKinds(Step(s, acts[0]), acts[1..]);
    }
  }

  lemma OfferedNext(s: State, a: Action)
    requires Enabled(s, a)
    ensures var more := Step(s, a).offered;
            || more == s.offered
            || (a.Offer? && more == s.offered + [Item(a.producer, |s.offered|, Kind(a.kind), a.chunk)])
  {
    hide Droppable, Kind, MustClose, Tally;
  }

  lemma {:induction false} FullLoad(xs: seq<Item>)
    requires forall x | x in xs :: Droppable(x.kind)
    ensures Load(xs) == |xs|
  {
    if xs != [] {
      FullLoad(xs[..|xs| - 1]);
    }
  }

  /** With `producers` threads, the queue never holds more droppable chunks than the high-water mark plus one a thread;
    * when nothing else is offered, that bounds its depth. */
  lemma DepthIsBounded(s: State, producers: nat, acts: seq<Action>)
    requires Reachable(s, producers, acts)
    ensures Load(s.queue) <= 1000 + producers
    ensures OnlyDroppable(acts) ==> |s.queue| <= 1000 + producers
  {
    hide *;
    ReachableInv(s, producers, acts);
    InvParts(s);
    ShallowMeans(s);
    if OnlyDroppable(acts) {
      QueueIsDroppable(s, producers, acts);
      FullLoad(s.queue);
    }
  }

  lemma ShallowMeans(s: State)
    requires Shallow(s)
    ensures Load(s.queue) <= 1000 + |s.passed|
  {
  }

  lemma QueueIsDroppable(s: State, producers: nat, acts: seq<Action>)
    requires Reachable(s, producers, acts) && OnlyDroppable(acts)
    ensures forall x | x in s.queue :: Droppable(x.kind)
  {
    hide Droppable, Inv, Posted, InFlight;
    var s0 :| Init(s0, producers) && Runs(STEPS, s0, acts) && s == RunTo(STEPS, s0, acts);
    OfferedKinds(s0, acts);
    ReachableInv(s, producers, acts);
    InvParts(s);
    forall x | x in s.queue
      ensures x in s.offered
    {
      assert x in s.queued;
      assert x in multiset(s.offered);
    }
  }

  // ---- Order ----

  /** One producer's chunks are posted in the order it offered them. */
  lemma PostedInOrder(s: State, producers: nat, acts: seq<Action>, i: nat, j: nat)
    requires Reachable(s, producers, acts) && i < j < |Posted(s.posts)|
    ensures var p := Posted(s.posts); p[i].producer == p[j].producer ==> p[i].number < p[j].number
  {
    hide *;
    ReachableInv(s, producers, acts);
    InvParts(s);
    ConservedMeans(s);
    assert s.queued[i] == Posted(s.posts)[i] && s.queued[j] == Posted(s.posts)[j];
    OrderedMeans(s, i, j);
  }

  lemma OrderedMeans(s: State, i: nat, j: nat)
    requires Ordered(s) && i < j < |s.queued|
    ensures s.queued[i].producer == s.queued[j].producer ==> s.queued[i].number < s.queued[j].number
  {
  }

  // ---- Batches ----

  lemma BatchedMeans(s: State, f: Flush)
    requires Batched(s) && f in s.flushes
    ensures f.made == Finish(Greedy(f.drained))
  {
  }

  /** Whatever interleaving filled the queue, every flush posts as few batches as any sendable split of what it took. */
  lemma EveryFlushIsMinimal(s: State, producers: nat, acts: seq<Action>, f: Flush, p: seq<Batch>)
    requires Reachable(s, producers, acts) && f in s.flushes && Splits(p, f.drained)
    ensures Splits(f.made, f.drained) && |f.made| <= |p|
    ensures |f.made| <= 1 + |f.drained| / 32 + Bytes(f.drained) / 8192
  {
    hide *;
    ReachableInv(s, producers, acts);
    InvParts(s);
    BatchedMeans(s, f);
    GreedySplits(f.drained);
    GreedyIsMinimal(f.drained, p);
    BatchBound(f.drained);
  }

  lemma {:induction false} MadeFits(flushes: seq<Flush>, b: Batch)
    requires forall f | f in flushes :: f.made == Finish(Greedy(f.drained))
    requires b in Made(flushes)
    ensures Fits(b)
  {
    hide Fits, Greedy, Finish;
    var last := flushes[|flushes| - 1];
    if b in last.made {
      GreedySplits(last.drained);
    } else {
      MadeFits(flushes[..|flushes| - 1], b);
    }
  }

  /** Every batch ever posted respects both caps, or is one oversized chunk. */
  lemma EveryPostFits(s: State, producers: nat, acts: seq<Action>, q: Post)
    requires Reachable(s, producers, acts) && q in s.posts
    ensures 0 < |q.batch| <= 32 && (TextLength(q.batch) + 64 * |q.batch| <= 16384 || |q.batch| == 1)
  {
    PostFits(s, producers, acts, q);
    RoughBytes(q.batch);
  }

  lemma PostFits(s: State, producers: nat, acts: seq<Action>, q: Post)
    requires Reachable(s, producers, acts) && q in s.posts
    ensures Fits(q.batch)
  {
    hide Inv, Fits, Greedy, Finish, Made;
    ReachableInv(s, producers, acts);
    InvParts(s);
    assert q.batch in Batches(s.posts) by {
      var i :| 0 <= i < |s.posts| && s.posts[i] == q;
      assert Batches(s.posts)[i] == q.batch;
    }
    GreedyIsSound(s.flush.drained);
    if q.batch in Made(s.flushes) {
      MadeFits(s.flushes, q.batch);
    }
  }

  // ---- Closing ----

  lemma StoppingMeans(s: State)
    requires Stopping(s) && s.phase.Exited?
    ensures |s.queue| + s.cut <= |s.queued|
  {
  }

  lemma UndisturbedMeans(s: State)
    requires Undisturbed(s) && !s.hurried
    ensures forall q | q in s.posts :: q.reply != NoClient
  {
  }

  lemma ExitedIsEmpty(s: State)
    requires Batched(s) && s.phase.Exited?
    ensures s.open == [] && Held(s.phase) == []
  {
    assert Greedy([]) == Progress([], []);
  }

  /** After a `close` that joined the flusher, everything queued before it began was posted, once and in order, to a
    * client that was still open; what is left in the queue was put there later and is never sent. */
  lemma JoinedCloseSendsEverything(s: State, producers: nat, acts: seq<Action>)
    requires Reachable(s, producers, acts) && s.phase.Exited?
    ensures s.queued == Posted(s.posts) + s.queue && s.cut <= |Posted(s.posts)|
    ensures s.queued[..s.cut] == Posted(s.posts)[..s.cut]
    ensures !s.hurried ==> forall q | q in s.posts :: q.reply != NoClient
  {
    hide *;
    ReachableInv(s, producers, acts);
    InvParts(s);
    ConservedMeans(s);
    StoppingMeans(s);
    ExitedIsEmpty(s);
    if !s.hurried {
      UndisturbedMeans(s);
    }
  }

  /** Chunks in posts that were not accepted. */
  function Failed(posts: seq<Post>): nat {
    if posts == [] then 0 else
      Failed(posts[..|posts| - 1]) + if posts[|posts| - 1].reply.Ok? then 0 else |posts[|posts| - 1].batch|
  }

  lemma {:induction false} PostedSize(posts: seq<Post>)
    ensures |Posted(posts)| == Totals(posts).emitted + Failed(posts)
  {
    if posts == [] {
      assert Batches(posts) == [];
    } else {
      var init, q := posts[..|posts| - 1], posts[|posts| - 1];
      PostedSize(init);
      assert posts == init + [q];
      PostedAppend(init, q);
    }
  }

  lemma CountedMeans(s: State)
    requires Counted(s)
    ensures s.counters.emitted == Totals(s.posts).emitted && s.counters.dropped == |s.dropped|
  {
  }

  /** The counters `close` returns add up: emitted, failed, dropped, still queued and still in a producer's hands. */
  lemma CountersAddUp(s: State, producers: nat, acts: seq<Action>)
    requires Reachable(s, producers, acts) && s.phase.Exited?
    ensures s.counters.emitted + Failed(s.posts) + s.counters.dropped + |s.queue| + |InFlight(s.passed)| == |s.offered|
  {
    hide *;
    ReachableInv(s, producers, acts);
    InvParts(s);
    CountedMeans(s);
    PostedSize(s.posts);
    JoinedCloseSendsEverything(s, producers, acts);
    BalancedSize(s);
  }

  lemma BalancedSize(s: State)
    requires Classified(s)
    ensures |s.offered| == |s.dropped| + |InFlight(s.passed)| + |s.queued|
  {
    assert |multiset(s.offered)| == |multiset(s.dropped)| + |InFlight(s.passed)| + |multiset(s.queued)|;
  }

  // ---- One flush ----

  /** What was queued since `s0`. */
  function Since(s0: State, s: State): seq<Item> {
    if |s0.queued| <= |s.queued| then s.queued[|s0.queued|..] else []
  }

  /** `s` is a moment of the flush that began in `s0`; producers may have put more in the queue meanwhile. */
  ghost predicate Flushing(s0: State, s: State) {
    && s.flush.drained + Held(s.phase) + s.queue == s0.queue + Since(s0, s)
    && Batches(s.posts) == Batches(s0.posts) + s.flush.made
    && s0.queued <= s.queued && s.dropped == s0.dropped && s.client == s0.client
    && s0.phase.Draining?
    && (s.phase.Draining? || s.phase.Holding? || s.phase.Tail?) && s.phase.last == s0.phase.last
    && (s.phase.Tail? ==> s.queue == [])
  }

  lemma SameQueued(s0: State, s: State, t: State)
    requires s.queued == t.queued
    ensures Since(s0, s) == Since(s0, t)
  {
  }

  lemma FlushingGet(s0: State, s: State)
    requires Flushing(s0, s) && s.phase.Draining?
    ensures Flushing(s0, GetStep(s))
    ensures GetStep(s).phase.Tail? || |GetStep(s).queue| < |s.queue|
  {
    hide MustClose, Batches, Since;
    assert Since(s0, GetStep(s)) == Since(s0, s) by {
      SameQueued(s0, s, GetStep(s));
    }
    if s.queue != [] {
      var x, rest := s.queue[0], s.queue[1..];
      assert s.queue == [x] + rest;
      assert s.flush.drained + [] + ([x] + rest) == s.flush.drained + [x] + rest
          == (s.flush.drained + [x]) + [] + rest;
    }
  }

  lemma FlushingStarts(s: State)
    requires s.phase.Draining? && s.flush == Flush([], [])
    ensures Flushing(s, s)
  {
    assert Since(s, s) == [];
    assert [] + [] + s.queue == s.queue + [];
  }

  lemma FlushingPhase(s0: State, s: State)
    requires Flushing(s0, s)
    ensures (s.phase.Draining? || s.phase.Holding? || s.phase.Tail?) && (s.phase.Tail? ==> s.queue == [])
  {
  }

  lemma SameClient(s0: State, s: State)
    requires Flushing(s0, s)
    ensures s.client == s0.client
  {
  }

  lemma SinceMeans(s0: State, s: State)
    requires s0.queued <= s.queued
    ensures Since(s0, s) == s.queued[|s0.queued|..]
  {
  }

  /** A producer's put in the middle of the flush. */
  lemma FlushingPut(s0: State, s: State, p: nat)
    requires Flushing(s0, s) && s.phase.Draining? && Enabled(s, Put(p))
    ensures Flushing(s0, PutStep(s, p)) && PutStep(s, p).phase == s.phase
  {
    hide Batches;
    var x := s.passed[p].value;
    assert Since(s0, PutStep(s, p)) == Since(s0, s) + [x];
    assert s.flush.drained + [] + (s.queue + [x]) == (s.flush.drained + [] + s.queue) + [x];
    assert s0.queue + (Since(s0, s) + [x]) == (s0.queue + Since(s0, s)) + [x];
  }

  lemma FlushingFull(s0: State, s: State, reply: Reply)
    requires Flushing(s0, s) && s.phase.Holding?
    ensures Flushing(s0, PostFullStep(s, reply))
    ensures PostFullStep(s, reply).phase.Draining? && PostFullStep(s, reply).queue == s.queue
  {
    hide Tally, Batches;
    BatchesAppend(s.posts, Post(s.open, reply));
    assert s.flush.drained + [s.phase.item] + s.queue == (s.flush.drained + [s.phase.item]) + [] + s.queue;
  }

  lemma FlushingTail(s0: State, s: State, reply: Reply)
    requires Flushing(s0, s) && s.phase.Tail? && Batched(s)
    ensures var s' := PostTailStep(s, reply);
            && Batches(s'.posts) == Batches(s0.posts) + Finish(Greedy(s0.queue + Since(s0, s')))
            && s'.phase == (if s0.phase.last then Exited else Checking) && s'.queue == []
            && s0.queued <= s'.queued && s'.dropped == s0.dropped
  {
    hide Tally, Batches, Greedy;
    BatchesAppend(s.posts, Post(s.open, reply));
    assert s.flush.drained + [] + [] == s.flush.drained;
  }
}
