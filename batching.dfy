/**
 * The `for i in range(0, n, size): xs[i:i + size]` pattern shared by the
 * vector store (500 records per insert) and the OpenAI embedder (100 texts
 * per request).
 */
module Batching {
  import opened Text

  /** The slices xs[i:i+size], xs[i+size:i+2*size], ... up to the end of xs. */
  function BatchesFrom<T>(xs: seq<T>, i: nat, size: nat): seq<seq<T>>
    requires size > 0
    decreases |xs| - i
  {
    if i >= |xs| then [] else [xs[i..Min(i + size, |xs|)]] + BatchesFrom(xs, i + size, size)
  }

  /** The first batch from i, then the batches from i + size. */
  lemma BatchesFromStep<T>(xs: seq<T>, i: nat, size: nat)
    requires size > 0 && i < |xs|
    ensures BatchesFrom(xs, i, size) == [xs[i..Min(i + size, |xs|)]] + BatchesFrom(xs, i + size, size)
  {
  }

  /**
   * One turn of a loop that hands xs over batch by batch: if `done` plus the
   * batches still to come spell out `base + xs`, handing over the next batch
   * keeps it so, and likewise for the log of handed-over batches.
   */
  lemma BatchLoopStep<T>(done: seq<T>, log: seq<seq<T>>, xs: seq<T>, i: nat, size: nat, base: seq<T>, baseLog: seq<seq<T>>)
    requires size > 0 && i < |xs|
    requires done + Flatten(BatchesFrom(xs, i, size)) == base + xs
    requires log + BatchesFrom(xs, i, size) == baseLog + BatchesFrom(xs, 0, size)
    ensures var batch := xs[i..Min(i + size, |xs|)];
      && (done + batch) + Flatten(BatchesFrom(xs, i + size, size)) == base + xs
      && (log + [batch]) + BatchesFrom(xs, i + size, size) == baseLog + BatchesFrom(xs, 0, size)
  {
    var batch := xs[i..Min(i + size, |xs|)];
    var rest := BatchesFrom(xs, i + size, size);
    BatchesFromStep(xs, i, size);
    assert (done + batch) + Flatten(rest) == base + xs by {
      FlattenCons(batch, rest);
      assert (done + batch) + Flatten(rest) == done + (batch + Flatten(rest));
    }
    assert (log + [batch]) + rest == baseLog + BatchesFrom(xs, 0, size) by {
      assert (log + [batch]) + rest == log + ([batch] + rest);
    }
  }

  function Batches<T>(xs: seq<T>, size: nat): seq<seq<T>>
    requires size > 0
  {
    BatchesFrom(xs, 0, size)
  }

  function Flatten<T>(bs: seq<seq<T>>): seq<T> {
    if bs == [] then [] else bs[0] + Flatten(bs[1..])
  }

  /** The concatenation, in order, of f(x) for every x of xs. */
  function ConcatMap<T, U>(f: T -> seq<U>, xs: seq<T>): seq<U> {
    if xs == [] then [] else ConcatMap(f, xs[..|xs| - 1]) + f(xs[|xs| - 1])
  }

  lemma {:induction false} ConcatMapAppend<T, U>(f: T -> seq<U>, a: seq<T>, b: seq<T>)
    ensures ConcatMap(f, a + b) == ConcatMap(f, a) + ConcatMap(f, b)
    decreases |b|
  {
    if b == [] {
      assert a + b == a;
    } else {
      var b' := b[..|b| - 1];
      assert (a + b)[..|a + b| - 1] == a + b' && (a + b)[|a + b| - 1] == b[|b| - 1];
      ConcatMapAppend(f, a, b');
    }
  }

  /** An element that maps to nothing can be dropped from the list. */
  lemma ConcatMapSkip<T, U>(f: T -> seq<U>, xs: seq<T>, i: nat)
    requires i < |xs| && f(xs[i]) == []
    ensures ConcatMap(f, xs) == ConcatMap(f, xs[..i] + xs[i + 1..])
  {
    var pre, post, x := xs[..i], xs[i + 1..], xs[i];
    assert xs == pre + [x] + post;
    assert ConcatMap(f, [x]) == [] by {
      assert [x][..0] == [];
    }
    ConcatMapAppend(f, pre, [x]);
    ConcatMapAppend(f, pre + [x], post);
    ConcatMapAppend(f, pre, post);
  }

  /** A single element makes a single batch, so batching it maps it in one call. */
  lemma FlattenMapSingle<A, B>(f: seq<A> -> seq<B>, x: A, size: nat)
    requires size > 0
    ensures Flatten(MapAll(f, Batches([x], size))) == f([x])
  {
    assert BatchesFrom([x], size, size) == [];
    assert [x][0..Min(size, 1)] == [x];
    assert Batches([x], size) == [[x]];
    assert Flatten(MapAll(f, [[x]])) == f([x]) + Flatten([]);
  }

  lemma {:induction false} FlattenBatchesFrom<T>(xs: seq<T>, i: nat, size: nat)
    requires size > 0 && i <= |xs|
    ensures Flatten(BatchesFrom(xs, i, size)) == xs[i..]
    decreases |xs| - i
  {
    if i < |xs| {
      var j := Min(i + size, |xs|);
      if i + size < |xs| {
        FlattenBatchesFrom(xs, i + size, size);
      }
      assert xs[i..] == xs[i..j] + xs[j..];
    }
  }

  /** Every element is sent exactly once, in order: the batches concatenate back to the input. */
  lemma BatchesPartition<T>(xs: seq<T>, size: nat)
    requires size > 0
    ensures Flatten(Batches(xs, size)) == xs
  {
    FlattenBatchesFrom(xs, 0, size);
  }

  lemma {:induction false} BatchesFromBounds<T>(xs: seq<T>, i: nat, size: nat)
    requires size > 0
    ensures forall b :: b in BatchesFrom(xs, i, size) ==> 0 < |b| <= size
    decreases |xs| - i
  {
    if i < |xs| {
      BatchesFromBounds(xs, i + size, size);
    }
  }

  /** No batch is empty and none holds more than `size` elements. */
  lemma BatchesBounded<T>(xs: seq<T>, size: nat)
    requires size > 0
    ensures forall b :: b in Batches(xs, size) ==> 0 < |b| <= size
  {
    BatchesFromBounds(xs, 0, size);
  }

  lemma {:induction false} BatchesFromAt<T>(xs: seq<T>, i: nat, size: nat, j: nat)
    requires size > 0
    requires j < |BatchesFrom(xs, i, size)|
    ensures i + j * size < |xs|
    ensures BatchesFrom(xs, i, size)[j] == xs[i + j * size .. Min(i + j * size + size, |xs|)]
    decreases j
  {
    var rest := BatchesFrom(xs, i + size, size);
    assert BatchesFrom(xs, i, size) == [xs[i..Min(i + size, |xs|)]] + rest;
    if j == 0 {
      assert j * size == 0;
    } else {
      BatchesFromAt(xs, i + size, size, j - 1);
      assert i + size + (j - 1) * size == i + j * size;
      assert BatchesFrom(xs, i, size)[j] == rest[j - 1];
    }
  }

  /** Batch j is exactly the slice [j*size, min(j*size + size, n)). */
  lemma BatchAt<T>(xs: seq<T>, size: nat, j: nat)
    requires size > 0 && j < |Batches(xs, size)|
    ensures j * size < |xs|
    ensures Batches(xs, size)[j] == xs[j * size .. Min(j * size + size, |xs|)]
  {
    BatchesFromAt(xs, 0, size, j);
  }

  lemma {:induction false} BatchesFromCount<T>(xs: seq<T>, i: nat, size: nat)
    requires size > 0 && i <= |xs|
    ensures |BatchesFrom(xs, i, size)| == (|xs| - i + size - 1) / size
    decreases |xs| - i
  {
    var r := |xs| - i;
    if i == |xs| {
      DivIsQuotient(size - 1, size, 0);
    } else if i + size >= |xs| {
      DivIsQuotient(r + size - 1, size, 1);
    } else {
      BatchesFromCount(xs, i + size, size);
      assert |BatchesFrom(xs, i, size)| == 1 + (r - 1) / size;
      var q := (r - 1) / size;
      assert r - 1 == q * size + (r - 1) % size;
      assert (q + 1) * size == q * size + size;
      DivIsQuotient(r + size - 1, size, q + 1);
    }
  }

  /** There are ceil(n / size) batches. */
  lemma BatchCount<T>(xs: seq<T>, size: nat)
    requires size > 0
    ensures |Batches(xs, size)| == (|xs| + size - 1) / size
  {
    BatchesFromCount(xs, 0, size);
  }

  lemma {:induction false} MulMonotone(a: int, b: int, d: nat)
    requires a <= b
    ensures a * d <= b * d
    decreases b - a
  {
    if a < b {
      MulMonotone(a, b - 1, d);
      assert (b - 1) * d + d == b * d;
    }
  }

  /** Division is determined by the bracket q*d <= x < q*d + d. */
  lemma DivIsQuotient(x: int, d: int, q: int)
    requires d > 0 && q * d <= x < q * d + d
    ensures x / d == q
  {
    var r := x / d;
    if r < q {
      MulMonotone(r + 1, q, d);
    } else if r > q {
      MulMonotone(q + 1, r, d);
    }
  }

  /** [f(x) for x in xs]. */
  function MapAll<A, B>(f: A -> B, xs: seq<A>): (ys: seq<B>)
    ensures |ys| == |xs| && forall i :: 0 <= i < |xs| ==> ys[i] == f(xs[i])
  {
    seq(|xs|, i requires 0 <= i < |xs| => f(xs[i]))
  }

  lemma MapAllAppend<A, B>(f: A -> B, xs: seq<A>, ys: seq<A>)
    ensures MapAll(f, xs + ys) == MapAll(f, xs) + MapAll(f, ys)
  {
  }

  lemma MapAllCons<A, B>(f: A -> B, x: A, xs: seq<A>)
    ensures MapAll(f, [x] + xs) == [f(x)] + MapAll(f, xs)
  {
    assert MapAll(f, [x] + xs)[1..] == MapAll(f, xs);
  }

  lemma FlattenCons<T>(b: seq<T>, bs: seq<seq<T>>)
    ensures Flatten([b] + bs) == b + Flatten(bs)
  {
    assert ([b] + bs)[1..] == bs;
  }

  /** Mapping a length-preserving f over the batches and concatenating keeps the total length. */
  lemma {:induction false} FlattenMapLength<T, U>(f: seq<T> -> seq<U>, bs: seq<seq<T>>)
    requires forall b :: |f(b)| == |b|
    ensures |Flatten(MapAll(f, bs))| == |Flatten(bs)|
  {
    if bs != [] {
      assert bs == [bs[0]] + bs[1..];
      MapAllCons(f, bs[0], bs[1..]);
      FlattenCons(f(bs[0]), MapAll(f, bs[1..]));
      FlattenMapLength(f, bs[1..]);
    }
  }

  /** Mapping g elementwise over each batch and concatenating is mapping g over the concatenation. */
  lemma {:induction false} FlattenMapElementwise<T, U>(f: seq<T> -> seq<U>, g: T -> U, bs: seq<seq<T>>)
    requires forall b :: f(b) == MapAll(g, b)
    ensures Flatten(MapAll(f, bs)) == MapAll(g, Flatten(bs))
  {
    if bs != [] {
      assert bs == [bs[0]] + bs[1..];
      MapAllCons(f, bs[0], bs[1..]);
      FlattenCons(f(bs[0]), MapAll(f, bs[1..]));
      FlattenMapElementwise(f, g, bs[1..]);
      assert MapAll(g, bs[0] + Flatten(bs[1..])) == MapAll(g, bs[0]) + MapAll(g, Flatten(bs[1..]));
    }
  }
}
