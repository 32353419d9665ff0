/** The emitter object: its queue, counters and flusher, in the atomic sections other threads can fall between. */
module Emitter {
  import opened Wrappers
  import opened Batching
  import opened EmitterMachine
  import opened EmitterTheorems

  class SessionEventEmitter {
    var q: seq<Item>
    var passed: seq<Option<Item>>
    var stop: bool
    var http: bool
    var phase: Phase
    var batch: Batch
    var batchBytes: nat
    var emittedTotal: nat
    var batchesSent: nat
    var httpErrors: nat
    var droppedTotal: nat
    /** Offers so far; the number stands for the chunk's time stamp. */
    var offers: nat

    /** The state of the machine this object is in, with its history. */
    ghost var at: State

    ghost predicate Valid()
      reads this
    {
      Inv(at) && Queues() && Flusher() && Counts()
    }

    ghost predicate Queues()
      reads this
    {
      at.queue == q && at.passed == passed && at.stopped == stop && at.client == http && |at.offered| == offers
    }

    ghost predicate Flusher()
      reads this
    {
      at.phase == phase && at.open == batch && Bytes(batch) == batchBytes
    }

    ghost predicate Counts()
      reads this
    {
      at.counters == Counters(emittedTotal, batchesSent, httpErrors, droppedTotal)
    }

    constructor (producers: nat)
      ensures Init(at, producers) && Valid()
    {
      q, passed, stop, http, phase := [], seq(producers, _ => None), false, true, Checking;
      batch, batchBytes, emittedTotal, batchesSent, httpErrors, droppedTotal, offers := [], 0, 0, 0, 0, 0, 0;
      at := State([], seq(producers, _ => None), false, true, Checking, [], Counters(0, 0, 0, 0),
                  [], [], [], [], Flush([], []), [], 0, false);
      new;
      InitInv(at, producers);
    }

    /** The first half of `emit_chunk`: the depth check, and the drop it may end in. */
    method Admit(producer: nat, kind: string, chunk: string)
      requires Valid() && Enabled(at, Offer(producer, kind, chunk))
      modifies this
      ensures at == Step(old(at), Offer(producer, kind, chunk)) && Valid()
      ensures q == old(q) && batch == old(batch) && phase == old(phase)
      ensures chunk == "" ==> passed == old(passed) && droppedTotal == old(droppedTotal)
      ensures chunk != "" ==>
                var item := Item(producer, old(offers), if kind == "" then "stdout" else kind, chunk);
                if |old(q)| > 1000 && item.kind in {"reasoning", "stdout", "text"}
                then droppedTotal == old(droppedTotal) + 1 && passed == old(passed)
                else droppedTotal == old(droppedTotal) && passed == old(passed)[producer := Some(item)]
    {
      hide Inv, Bytes;
      StepInv(at, Offer(producer, kind, chunk));
      at := Step(at, Offer(producer, kind, chunk));
      if chunk == "" {
        return;
      }
      var item := Item(producer, offers, if kind == "" then "stdout" else kind, chunk);
      offers := offers + 1;
      if |q| > HIGH_WATER {
        if item.kind == "reasoning" || item.kind == "stdout" || item.kind == "text" {
          droppedTotal := droppedTotal + 1;
          return;
        }
      }
      passed := passed[producer := Some(item)];
    }

    /** The second half: the put. */
    method Enqueue(producer: nat)
      requires Valid() && Enabled(at, Put(producer))
      modifies this
      ensures at == Step(old(at), Put(producer)) && Valid()
      ensures q == old(q) + [old(passed)[producer].value] && passed == old(passed)[producer := None]
    {
      hide Inv, Bytes;
      StepInv(at, Put(producer));
      at := Step(at, Put(producer));
      q := q + [passed[producer].value];
      passed := passed[producer := None];
    }

    method CheckStop()
      requires Valid() && Enabled(at, Check)
      modifies this
      ensures at == Step(old(at), Check) && Valid()
      ensures phase == if stop then Draining(true) else Waiting
    {
      hide Inv, Bytes;
      StepInv(at, Check);
      at := Step(at, Check);
      phase := if stop then Draining(true) else Waiting;
    }

    method WakeUp()
      requires Valid() && Enabled(at, Wake)
      modifies this
      ensures at == Step(old(at), Wake) && Valid()
      ensures phase == Draining(false)
    {
      hide Inv, Bytes;
      StepInv(at, Wake);
      at := Step(at, Wake);
      phase := Draining(false);
    }

    /** Taking one chunk off the queue, unless it is empty, and adding it to the batch, unless it does not fit. */
    method GetNowait()
      requires Valid() && Enabled(at, Get)
      modifies this
      ensures at == Step(old(at), Get) && Valid() && at.queued == old(at.queued)
      ensures old(phase).Draining?
      ensures old(q) == [] ==> q == [] && batch == old(batch) && phase == Tail(old(phase).last)
      ensures old(q) != [] ==>
                var item := old(q)[0];
                && q == old(q)[1..]
                && (if old(batch) != [] && (|old(batch)| >= 32 || old(batchBytes) + |item.chunk| + 64 > 16384)
                    then phase == Holding(old(phase).last, item) && batch == old(batch)
                    else phase == old(phase) && batch == old(batch) + [item]
                         && batchBytes == old(batchBytes) + |item.chunk| + 64)
    {
      hide Inv, Bytes;
      StepInv(at, Get);
      at := Step(at, Get);
      if q == [] {
        phase := Tail(phase.last);
        return;
      }
      var item := q[0];
      q := q[1..];
      var itemBytes := |item.chunk| + 64;
      if batch != [] && (|batch| >= MAX_CHUNKS || batchBytes + itemBytes > MAX_BYTES) {
        phase := Holding(phase.last, item);
        return;
      }
      BytesAppend(batch, item);
      batch, batchBytes := batch + [item], batchBytes + itemBytes;
    }

    /** `_post_batch`: the counters for whatever the post met. */
    method PostBatch(reply: Reply)
      modifies this`emittedTotal, this`batchesSent, this`httpErrors
      ensures Counters(emittedTotal, batchesSent, httpErrors, droppedTotal)
           == Tally(Counters(old(emittedTotal), old(batchesSent), old(httpErrors), droppedTotal), batch, reply)
      ensures batchesSent == old(batchesSent) + if reply.Ok? then 1 else 0
      ensures emittedTotal == old(emittedTotal) + if reply.Ok? then |batch| else 0
      ensures httpErrors == old(httpErrors) + if reply.NotOk? || reply.Raised? then 1 else 0
    {
      match reply {
        case NoClient =>
        case Ok => batchesSent, emittedTotal := batchesSent + 1, emittedTotal + |batch|;
        case _ => httpErrors := httpErrors + 1;
      }
    }

    method FlushFull(reply: Reply)
      requires Valid() && Enabled(at, PostFull(reply))
      modifies this
      ensures at == Step(old(at), PostFull(reply)) && Valid() && at.queued == old(at.queued)
      ensures old(phase).Holding? && batch == [old(phase).item] && batchBytes == |old(phase).item.chunk| + 64
          && q == old(q)
      ensures old(phase).Holding? && phase == Draining(old(phase).last)
      ensures at.posts == old(at.posts) + [Post(old(batch), reply)]
    {
      hide Inv, Bytes, Tally, CanAnswer, OfferStep, PutStep, GetStep, PostTailStep;
      StepInv(at, PostFull(reply));
      at := Step(at, PostFull(reply));
      PostBatch(reply);
      BytesAppend([], phase.item);
      assert [] + [phase.item] == [phase.item];
      batch, batchBytes, phase := [phase.item], |phase.item.chunk| + 64, Draining(phase.last);
    }

    method FlushTail(reply: Reply)
      requires Valid() && Enabled(at, PostTail(reply))
      modifies this
      ensures at == Step(old(at), PostTail(reply)) && Valid() && at.queued == old(at.queued)
      ensures batch == [] && batchBytes == 0 && q == old(q)
      ensures old(phase).Tail? && phase == if old(phase).last then Exited else Checking
      ensures at.posts == old(at.posts) + if old(batch) == [] then [] else [Post(old(batch), reply)]
    {
      hide Inv, Tally, CanAnswer, OfferStep, PutStep, GetStep, PostFullStep;
      StepInv(at, PostTail(reply));
      at := Step(at, PostTail(reply));
      if batch != [] {
        PostBatch(reply);
        batch, batchBytes := [], 0;
      }
      phase := if phase.last then Exited else Checking;
    }

    method BeginClose()
      requires Valid()
      modifies this
      ensures at == Step(old(at), Stop) && Valid()
      ensures stop && (!old(stop) ==> at.cut == |at.queued|) && q == old(q) && phase == old(phase)
    {
      hide Inv, Bytes;
      StepInv(at, Stop);
      at := Step(at, Stop);
      stop := true;
    }

    /** The end of `close`: after the flusher was joined, after the join timed out, or without waiting. */
    method CloseHttp()
      requires Valid() && Enabled(at, CloseClient)
      modifies this
      ensures at == Step(old(at), CloseClient) && Valid()
      ensures !http && q == old(q) && phase == old(phase)
    {
      hide Inv, Bytes;
      StepInv(at, CloseClient);
      at := Step(at, CloseClient);
      http := false;
    }

    /** `_flush_once`: before its k-th look at the queue the producers in `puts[k]` put what they have in hand. The
      * whole queue and everything put meanwhile goes out, in order, in the fewest batches. */
    method FlushOnce(puts: seq<seq<nat>>, reply: nat -> Reply)
      requires Valid() && phase.Draining? && at.flush == Flush([], [])
      requires forall k: nat :: CanAnswer(at, reply(k))
      modifies this
      ensures Valid() && q == [] && old(at.queued) <= at.queued && at.dropped == old(at.dropped)
      ensures Batches(at.posts)
           == Batches(old(at.posts)) + Finish(Greedy(old(q) + at.queued[|old(at.queued)|..]))
      ensures phase == if old(phase).last then Exited else Checking
      ensures puts == [] ==> at.queued == old(at.queued)
    {
      hide Inv, Counts, OfferStep, PutStep, GetStep, PostFullStep, PostTailStep, Batched, Batches, Greedy, Finish,
        Bytes, Conserved, Classified, Tally, Flushing, Since;
      ghost var before := at;
      FlushingStarts(at);
      var k, turn := 0, 0;
      while phase.Draining?
        invariant Valid() && Flushing(before, at) && (phase.Draining? || phase.Tail?)
        invariant turn <= |puts| && (phase.Tail? ==> q == [])
        invariant puts == [] ==> at.queued == before.queued
        decreases |puts| - turn, |q|, phase.Draining?
      {
        if turn < |puts| {
          Arrive(puts[turn], before);
          turn := turn + 1;
        }
        FlushingGet(before, at);
        GetNowait();
        FlushingPhase(before, at);
        if phase.Holding? {
          FlushingFull(before, at, reply(k));
          SameClient(before, at);
          FlushFull(reply(k));
          k := k + 1;
        }
      }
      SameClient(before, at);
      InvParts(at);
      FlushingTail(before, at, reply(k));
      FlushTail(reply(k));
      SinceMeans(before, at);
    }

    /** Producers whose chunk has passed the check put it in the queue. */
    method Arrive(producers: seq<nat>, ghost before: State)
      requires Valid() && phase.Draining? && Flushing(before, at)
      modifies this
      ensures Valid() && phase == old(phase) && Flushing(before, at)
    {
      hide Inv, Counts, PutStep, Flushing;
      for i := 0 to |producers|
        invariant Valid() && phase == old(phase) && Flushing(before, at)
      {
        var p := producers[i];
        if p < |passed| && passed[p].Some? {
          FlushingPut(before, at, p);
          Enqueue(p);
        }
      }
    }

    /** A chunk emitted below the high-water mark leaves with the next flush, behind everything queued before it. */
    method EmitAndFlush(producer: nat, kind: string, chunk: string, reply: nat -> Reply)
      requires Valid() && phase.Checking? && at.flush == Flush([], [])
      requires Enabled(at, Offer(producer, kind, chunk)) && chunk != "" && |q| <= 1000
      requires forall k: nat :: CanAnswer(at, reply(k))
      modifies this
      ensures Valid() && q == [] && at.dropped == old(at.dropped)
      ensures var item := Item(producer, old(offers), if kind == "" then "stdout" else kind, chunk);
              Batches(at.posts) == Batches(old(at.posts)) + Finish(Greedy(old(q) + [item]))
    {
      hide Inv, Greedy, Finish, Batches, Bytes;
      Admit(producer, kind, chunk);
      Enqueue(producer);
      CheckStop();
      if phase.Waiting? {
        WakeUp();
      }
      assert at.queued[|at.queued|..] == [];
      ghost var all := q;
      assert all + [] == all;
      FlushOnce([], reply);
    }
  }
}
