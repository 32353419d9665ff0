/** Splitting a queue of chunks into batches under a count cap and a byte cap. */
module Batching {

  /** A queued chunk: which producer thread offered it, as the how-manieth offer, its kind and its text. */
  datatype Item = Item(producer: nat, number: nat, kind: string, chunk: string)

  type Batch = seq<Item>

  const MAX_CHUNKS: nat := 32
  const MAX_BYTES: nat := 16384

  /** The rough size the caps are measured in: the text and a fixed overhead. */
  function Weight(x: Item): nat {
    |x.chunk| + 64
  }

  function Bytes(b: Batch): nat {
    if b == [] then 0 else Bytes(b[..|b| - 1]) + Weight(b[|b| - 1])
  }

  function Flatten(p: seq<Batch>): seq<Item> {
    if p == [] then [] else Flatten(p[..|p| - 1]) + p[|p| - 1]
  }

  function TextLength(b: Batch): nat {
    if b == [] then 0 else TextLength(b[..|b| - 1]) + |b[|b| - 1].chunk|
  }

  /** The rough size of a batch: its text, and 64 for each chunk. */
  lemma {:induction false} RoughBytes(b: Batch)
    ensures Bytes(b) == TextLength(b) + 64 * |b|
  {
    if b != [] {
      RoughBytes(b[..|b| - 1]);
    }
  }

  // ---- What a batch may be ----

  predicate Fits(b: Batch) {
    0 < |b| <= MAX_CHUNKS && (Bytes(b) <= MAX_BYTES || |b| == 1)
  }

  /** A split of `items`, in order, into batches that may be sent. */
  ghost predicate Splits(p: seq<Batch>, items: seq<Item>) {
    Flatten(p) == items && forall i | 0 <= i < |p| :: Fits(p[i])
  }

  // ---- The greedy split ----

  /** Batches already closed, the open one, and its running size. */
  datatype Progress = Progress(closed: seq<Batch>, open: Batch)

  predicate MustClose(open: Batch, x: Item) {
    open != [] && (|open| >= MAX_CHUNKS || Bytes(open) + Weight(x) > MAX_BYTES)
  }

  function AddItem(g: Progress, x: Item): Progress {
    if MustClose(g.open, x) then Progress(g.closed + [g.open], [x]) else Progress(g.closed, g.open + [x])
  }

  function Greedy(items: seq<Item>): Progress {
    if items == [] then Progress([], []) else AddItem(Greedy(items[..|items| - 1]), items[|items| - 1])
  }

  function Finish(g: Progress): seq<Batch> {
    if g.open == [] then g.closed else g.closed + [g.open]
  }

  // ---- It is a split ----

  ghost predicate Sound(g: Progress, items: seq<Item>) {
    && (forall i | 0 <= i < |g.closed| :: Fits(g.closed[i]))
    && (if items == [] then g.open == [] else Fits(g.open))
    && Flatten(g.closed) + g.open == items
  }

  lemma {:induction false} GreedyIsSound(items: seq<Item>)
    ensures Sound(Greedy(items), items)
  {
    hide Sound, AddItem;
    if items == [] {
      EmptyIsSound();
    } else {
      GreedyIsSound(items[..|items| - 1]);
      AddIsSound(Greedy(items[..|items| - 1]), items[..|items| - 1], items[|items| - 1]);
      assert items == items[..|items| - 1] + [items[|items| - 1]];
    }
  }

  lemma EmptyIsSound()
    ensures Sound(Progress([], []), [])
  {
  }

  lemma AddIsSound(g: Progress, items: seq<Item>, x: Item)
    requires Sound(g, items)
    ensures Sound(AddItem(g, x), items + [x])
  {
    hide Bytes, Flatten;
    BytesAppend(g.open, x);
    FlattenAppend(g.closed, g.open);
    if !MustClose(g.open, x) {
      assert Flatten(g.closed) + (g.open + [x]) == (Flatten(g.closed) + g.open) + [x];
    }
  }

  lemma BytesAppend(b: Batch, x: Item)
    ensures Bytes(b + [x]) == Bytes(b) + Weight(x) && Bytes([]) == 0
  {
    assert (b + [x])[..|b|] == b;
  }

  lemma FlattenAppend(p: seq<Batch>, b: Batch)
    ensures Flatten(p + [b]) == Flatten(p) + b
  {
    assert (p + [b])[..|p|] == p;
  }

  lemma GreedySplits(items: seq<Item>)
    ensures Splits(Finish(Greedy(items)), items)
  {
    hide Greedy, Fits, Flatten;
    GreedyIsSound(items);
    FlattenAppend(Greedy(items).closed, Greedy(items).open);
  }

  // ---- No split is shorter ----

  lemma {:induction false} BytesSuffix(b: Batch, k: nat)
    requires k <= |b|
    ensures Bytes(b[k..]) <= Bytes(b)
  {
    if k < |b| {
      var init := b[..|b| - 1];
      BytesSuffix(init, k);
      assert b[k..][..|b| - k - 1] == init[k..];
    } else {
      assert b[k..] == [];
    }
  }

  /** Dropping the last item of a split's last batch. */
  lemma TrimSplit(p: seq<Batch>, init: seq<Item>, x: Item) returns (q: seq<Batch>)
    requires Splits(p, init + [x])
    ensures p != [] && p[|p| - 1] != [] && p[|p| - 1][|p[|p| - 1]| - 1] == x
    ensures Splits(q, init)
    ensures var last := p[|p| - 1];
            if |last| == 1 then |q| == |p| - 1
            else |q| == |p| && q[|q| - 1] == last[..|last| - 1]
  {
    assert p != [] by {
      assert Flatten([]) == [];
    }
    var front, last := p[..|p| - 1], p[|p| - 1];
    assert Fits(last);
    assert (Flatten(front) + last)[|init|] == x;
    var cut := last[..|last| - 1];
    assert Flatten(front) + cut == init by {
      assert (Flatten(front) + last)[..|init|] == init;
    }
    if |last| == 1 {
      q := front;
    } else {
      q := front + [cut];
      FlattenAppend(front, cut);
    }
  }

  lemma {:induction false} LastIsSuffix(p: seq<Batch>, items: seq<Item>)
    requires Flatten(p) == items && p != []
    ensures |p[|p| - 1]| <= |items| && items[|items| - |p[|p| - 1]|..] == p[|p| - 1]
  {
  }

  /** The greedy split never uses more batches than another one, and while it uses as many its last batch is the
    * smaller. */
  lemma {:induction false} GreedyIsAhead(items: seq<Item>, p: seq<Batch>)
    requires Splits(p, items)
    ensures |Finish(Greedy(items))| <= |p|
    ensures items != [] && |Finish(Greedy(items))| == |p| ==> |Greedy(items).open| <= |p[|p| - 1]|
  {
    hide Bytes, Flatten, Splits;
    if items != [] {
      var init, x := items[..|items| - 1], items[|items| - 1];
      assert items == init + [x];
      var q := TrimSplit(p, init, x);
      GreedyIsAhead(init, q);
      if |q| == |p| && |Finish(Greedy(init))| == |p| && init != [] {
        OpenHasRoom(init, x, p, q);
      }
      GreedyIsSound(init);
    }
  }

  lemma SuffixOfSuffix(whole: seq<Item>, before: seq<Item>, short: seq<Item>, long: seq<Item>)
    requires whole == before + short && |short| <= |long| <= |whole| && whole[|whole| - |long|..] == long
    ensures long[|long| - |short|..] == short
  {
  }

  lemma OpenHasRoom(init: seq<Item>, x: Item, p: seq<Batch>, q: seq<Batch>)
    requires Splits(p, init + [x]) && Splits(q, init) && init != []
    requires |q| == |p| > 0 && |p[|p| - 1]| > 1 && q[|q| - 1] == p[|p| - 1][..|p[|p| - 1]| - 1]
    requires p[|p| - 1][|p[|p| - 1]| - 1] == x
    requires |Greedy(init).open| <= |q[|q| - 1]|
    ensures !MustClose(Greedy(init).open, x)
  {
    hide Bytes, Flatten, Greedy;
    var open, last, cut := Greedy(init).open, p[|p| - 1], q[|q| - 1];
    GreedyIsSound(init);
    LastIsSuffix(q, init);
    SuffixOfSuffix(init, Flatten(Greedy(init).closed), open, cut);
    BytesSuffix(cut, |cut| - |open|);
    assert last == cut + [x];
    BytesAppend(cut, x);
    assert Fits(last);
  }

  /** Greedy batching is optimal: no split of the same items in order into sendable batches has fewer of them. */
  lemma GreedyIsMinimal(items: seq<Item>, p: seq<Batch>)
    requires Splits(p, items)
    ensures |Finish(Greedy(items))| <= |p|
  {
    GreedyIsAhead(items, p);
  }

  // ---- How many batches ----

  /** Why batches were closed: `full` of them on the count cap, `heavy` on the byte cap. */
  lemma {:induction false} WhyClosed(items: seq<Item>) returns (full: nat, heavy: nat)
    ensures |Greedy(items).closed| == full + heavy
    ensures MAX_CHUNKS * full + |Greedy(items).open| <= |items|
    ensures MAX_BYTES * heavy + Bytes(Greedy(items).open) <= 2 * Bytes(items)
  {
    full, heavy := 0, 0;
    if items != [] {
      var init, x := items[..|items| - 1], items[|items| - 1];
      var open := Greedy(init).open;
      full, heavy := WhyClosed(init);
      BytesAppend(open, x);
      assert Bytes([x]) == Weight(x) by {
        BytesAppend([], x);
        assert [] + [x] == [x];
      }
      if open != [] && |open| >= MAX_CHUNKS {
        full := full + 1;
      } else if MustClose(open, x) {
        heavy := heavy + 1;
      }
    }
  }

  lemma BatchBound(items: seq<Item>)
    ensures |Finish(Greedy(items))| <= 1 + |items| / 32 + Bytes(items) / 8192
  {
    var full, heavy := WhyClosed(items);
    assert full <= |items| / 32 && heavy <= Bytes(items) / 8192;
  }
}
