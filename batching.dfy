/** How a sync pass cuts the queue snapshot into batches: `slice(i, i + B)` for
    i = 0, B, 2B, ... while i is below the snapshot's length. */
module Batching {

  function Min(a: int, b: int): int
  {
    if a <= b then a else b
  }

  /** The rest of `s` from index `i` on; empty once `i` has passed the end, as
      `slice` is. */
  function Drop<T>(s: seq<T>, i: nat): (r: seq<T>)
    ensures |r| == if i <= |s| then |s| - i else 0
  {
    if i <= |s| then s[i..] else []
  }

  /** The batches of `s` for batch size `b`, first to last. */
  function Batches<T>(s: seq<T>, b: nat): (bs: seq<seq<T>>)
    requires b >= 1
    ensures bs == [] <==> s == []
    decreases |s|
  {
    if s == [] then [] else [s[..Min(b, |s|)]] + Batches(s[Min(b, |s|)..], b)
  }

  function Flatten<T>(bs: seq<seq<T>>): seq<T>
  {
    if bs == [] then [] else bs[0] + Flatten(bs[1..])
  }

  /** One step of the loop: the batch taken at index `i` and the batches of
      everything after it. */
  lemma BatchesFrom<T>(s: seq<T>, i: nat, b: nat)
    requires b >= 1 && i < |s|
    ensures Batches(Drop(s, i), b) == [s[i..Min(i + b, |s|)]] + Batches(Drop(s, i + b), b)
  {
    var t := s[i..];
    assert t[..Min(b, |t|)] == s[i..Min(i + b, |s|)];
    assert t[Min(b, |t|)..] == Drop(s, i + b);
  }

  /** Concatenating the batches gives back the snapshot: they are consecutive,
      cover it, and keep its order. */
  lemma {:induction false} BatchesFlatten<T>(s: seq<T>, b: nat)
    requires b >= 1
    ensures Flatten(Batches(s, b)) == s
    decreases |s|
  {
    if s != [] {
      var k := Min(b, |s|);
      BatchesFlatten(s[k..], b);
      assert Batches(s, b)[1..] == Batches(s[k..], b);
      assert s == s[..k] + s[k..];
    }
  }

  /** Every batch is non-empty and holds at most `b` items; every batch but the
      last holds exactly `b`. */
  lemma {:induction false} BatchSizes<T>(s: seq<T>, b: nat)
    requires b >= 1
    ensures forall j :: 0 <= j < |Batches(s, b)| ==> 1 <= |Batches(s, b)[j]| <= b
    ensures forall j :: 0 <= j < |Batches(s, b)| - 1 ==> |Batches(s, b)[j]| == b
    decreases |s|
  {
    if s != [] {
      var k := Min(b, |s|);
      var bs := Batches(s, b);
      BatchSizes(s[k..], b);
      assert bs[1..] == Batches(s[k..], b);
      forall j | 0 <= j < |bs|
        ensures 1 <= |bs[j]| <= b && (j < |bs| - 1 ==> |bs[j]| == b)
      {
        if j > 0 {
          assert bs[j] == Batches(s[k..], b)[j - 1];
        } else if j < |bs| - 1 {
          assert s[k..] != [];
        }
      }
    }
  }

  lemma MulSign(d: int, b: int)
    requires b >= 1
    ensures d >= 1 ==> d * b >= b
    ensures d <= -1 ==> d * b <= 0 - b
  {
  }

  lemma DivStep(n: nat, b: nat)
    requires b >= 1
    ensures (n + b) / b == n / b + 1
  {
    var q, r := n / b, n % b;
    var q2, r2 := (n + b) / b, (n + b) % b;
    assert q * b + r + b == q2 * b + r2;
    var d := q2 - q - 1;
    assert d * b == r - r2 by {
      assert q2 * b == (q + 1 + d) * b == q * b + b + d * b;
    }
    MulSign(d, b);
  }

  lemma DivSmall(n: nat, b: nat)
    requires n < b
    ensures n / b == 0
  {
  }

  /** There are ceil(n / b) batches. */
  lemma {:induction false} BatchCount<T>(s: seq<T>, b: nat)
    requires b >= 1
    ensures |Batches(s, b)| == (|s| + b - 1) / b
    decreases |s|
  {
    if s != [] {
      var k := Min(b, |s|);
      BatchCount(s[k..], b);
      DivStep(|s| - 1, b);
      if |s| <= b {
        assert s[k..] == [];
        DivSmall(|s| - 1, b);
      }
    }
  }
}
