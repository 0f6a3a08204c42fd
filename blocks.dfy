/** Sequences of blocks joined end to end: the shape shared by the hourly
    lists (days of 24 values, weeks of 7 days, years of 53 weeks) and by the
    sweep (variants grouped by loop level). */
module Blocks {

  /** Blocks joined end to end, in order. */
  function Concat<T>(blocks: seq<seq<T>>): seq<T>
  {
    if blocks == [] then [] else Concat(blocks[..|blocks| - 1]) + blocks[|blocks| - 1]
  }

  /** A chunk repeated n times. */
  function Repeat<T>(c: seq<T>, n: nat): (r: seq<T>)
    ensures |r| == n * |c|
  {
    if n == 0 then [] else Repeat(c, n - 1) + c
  }

  /** Blocks that are all the same chunk concatenate to that chunk repeated. */
  lemma {:induction false} ConcatConst<T>(blocks: seq<seq<T>>, c: seq<T>)
    requires forall j :: 0 <= j < |blocks| ==> blocks[j] == c
    ensures Concat(blocks) == Repeat(c, |blocks|)
    decreases |blocks|
  {
    if blocks != [] {
      ConcatConst(blocks[..|blocks| - 1], c);
    }
  }

  lemma {:induction false} ConcatAppend<T>(a: seq<seq<T>>, b: seq<seq<T>>)
    ensures Concat(a + b) == Concat(a) + Concat(b)
    decreases |b|
  {
    if b != [] {
      var init := b[..|b| - 1];
      assert (a + b)[..|a + b| - 1] == a + init;
      assert (a + b)[|a + b| - 1] == b[|b| - 1];
      ConcatAppend(a, init);
      calc {
        Concat(a + b);
        Concat(a + init) + b[|b| - 1];
        Concat(a) + Concat(init) + b[|b| - 1];
        Concat(a) + (Concat(init) + b[|b| - 1]);
      }
    } else {
      assert a + b == a;
    }
  }

  lemma {:induction false} ConcatLength<T>(blocks: seq<seq<T>>, k: nat)
    requires forall j :: 0 <= j < |blocks| ==> |blocks[j]| == k
    ensures |Concat(blocks)| == k * |blocks|
    decreases |blocks|
  {
    if blocks != [] {
      ConcatLength(blocks[..|blocks| - 1], k);
    }
  }

  /** In blocks of uniform length k, value k * q + r is value r of block q. */
  lemma {:induction false} ConcatAt<T>(blocks: seq<seq<T>>, k: nat, q: int, r: int)
    requires forall j :: 0 <= j < |blocks| ==> |blocks[j]| == k
    requires 0 <= q < |blocks| && 0 <= r < k
    ensures |Concat(blocks)| == k * |blocks|
    ensures k * q + r < |Concat(blocks)| && Concat(blocks)[k * q + r] == blocks[q][r]
    decreases |blocks|
  {
    ConcatLength(blocks, k);
    var init := blocks[..|blocks| - 1];
    ConcatLength(init, k);
    assert k * q + r < k * |blocks| by {
      assert k * q + r < k * q + k == k * (q + 1);
      MulMono(k, q + 1, |blocks|);
    }
    if q < |blocks| - 1 {
      ConcatAt(init, k, q, r);
    } else {
      assert k * q == k * |init|;
    }
  }

  /** Every element of the concatenation comes from one of the blocks. */
  lemma {:induction false} ConcatMember<T>(blocks: seq<seq<T>>, x: T) returns (k: nat)
    requires x in Concat(blocks)
    ensures k < |blocks| && x in blocks[k]
    decreases |blocks|
  {
    var init := blocks[..|blocks| - 1];
    if x in blocks[|blocks| - 1] {
      k := |blocks| - 1;
    } else {
      k := ConcatMember(init, x);
    }
  }

  /** Splitting the blocks around block k: the first k+1 blocks are the
      first k followed by block k, and the rest follow them. */
  lemma {:induction false} ConcatSplit<T>(blocks: seq<seq<T>>, k: nat)
    requires k < |blocks|
    ensures Concat(blocks[..k + 1]) == Concat(blocks[..k]) + blocks[k]
    ensures Concat(blocks) == Concat(blocks[..k + 1]) + Concat(blocks[k + 1..])
  {
    var front, back := blocks[..k + 1], blocks[k + 1..];
    assert front[..|front| - 1] == blocks[..k] && front[|front| - 1] == blocks[k];
    assert front + back == blocks;
    ConcatAppend(front, back);
  }

  lemma MulMono(k: nat, a: int, b: int)
    requires a <= b
    ensures k * a <= k * b
  {
  }
}
