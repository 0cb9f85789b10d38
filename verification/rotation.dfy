/** The client's candidate list and its rotate-on-failure policy (main.go:73-75).
    A failed endpoint is taken off the head and appended to the tail, so no
    endpoint is ever dropped and the list cycles through every endpoint. */
module Rotation {

  /** An endpoint is an opaque "host:port" address. */
  type Endpoint = string

  /** One rotation: the head moves to the tail, everything else moves up one place. */
  function Rotate(addrs: seq<Endpoint>): (r: seq<Endpoint>)
    requires |addrs| > 0
    ensures |r| == |addrs|
    ensures r[|r| - 1] == addrs[0]
    ensures forall i :: 0 <= i < |r| - 1 ==> r[i] == addrs[i + 1]
  {
    var bad := addrs[0];
    addrs[1..] + [bad]
  }

  /** Rotation never drops or duplicates an endpoint: the list is permuted. */
  lemma RotateKeepsEndpoints(addrs: seq<Endpoint>)
    requires |addrs| > 0
    ensures multiset(Rotate(addrs)) == multiset(addrs)
  {
    assert addrs == [addrs[0]] + addrs[1..];
  }

  /** The candidate list after k failed probes, i.e. after k rotations in a row. */
  function RotateN(addrs: seq<Endpoint>, k: nat): (r: seq<Endpoint>)
    requires |addrs| > 0
    ensures |r| == |addrs|
  {
    if k == 0 then addrs else Rotate(RotateN(addrs, k - 1))
  }

  /** Any number of rotations keeps exactly the same endpoints. */
  lemma {:induction false} RotateNKeepsEndpoints(addrs: seq<Endpoint>, k: nat)
    requires |addrs| > 0
    ensures multiset(RotateN(addrs, k)) == multiset(addrs)
  {
    if k > 0 {
      RotateNKeepsEndpoints(addrs, k - 1);
      RotateKeepsEndpoints(RotateN(addrs, k - 1));
    }
  }

  /** For up to one full cycle, k rotations move the first k endpoints, in order, behind the others. */
  lemma {:induction false} RotateNSplit(addrs: seq<Endpoint>, k: nat)
    requires 0 < |addrs| && k <= |addrs|
    ensures RotateN(addrs, k) == addrs[k..] + addrs[..k]
  {
    if k > 0 {
      RotateNSplit(addrs, k - 1);
      var p := RotateN(addrs, k - 1);
      assert p[0] == addrs[k - 1];
      assert p[1..] == addrs[k..] + addrs[..k - 1];
      assert addrs[..k] == addrs[..k - 1] + [addrs[k - 1]];
    }
  }

  /** N rotations of a list of N endpoints restore the original list. */
  lemma FullCycle(addrs: seq<Endpoint>)
    requires |addrs| > 0
    ensures RotateN(addrs, |addrs|) == addrs
  {
    RotateNSplit(addrs, |addrs|);
    assert addrs[|addrs|..] + addrs[..|addrs|] == addrs;
  }

  /** Rotating a + b times is rotating a times and then b times more. */
  lemma {:induction false} RotateNAdd(addrs: seq<Endpoint>, a: nat, b: nat)
    requires |addrs| > 0
    ensures RotateN(addrs, a + b) == RotateN(RotateN(addrs, a), b)
  {
    if b > 0 {
      var c: nat := b - 1;
      RotateNAdd(addrs, a, c);
      calc {
        RotateN(addrs, a + b);
        Rotate(RotateN(addrs, a + c));
        Rotate(RotateN(RotateN(addrs, a), c));
        RotateN(RotateN(addrs, a), b);
      }
    }
  }

  /** The number of rotations in q full cycles of a list of n endpoints. */
  function Cycles(q: nat, n: nat): (m: nat)
    ensures m == q * n
  {
    if q == 0 then 0 else n + Cycles(q - 1, n)
  }

  /** Whole cycles of rotations change nothing. */
  lemma {:induction false} RotateNCycles(addrs: seq<Endpoint>, q: nat, r: nat, k: nat)
    requires |addrs| > 0 && k == Cycles(q, |addrs|) + r
    ensures RotateN(addrs, k) == RotateN(addrs, r)
    decreases q
  {
    if q > 0 {
      var rest := Cycles(q - 1, |addrs|) + r;
      RotateNAdd(addrs, |addrs|, rest);
      FullCycle(addrs);
      RotateNCycles(addrs, q - 1, r, rest);
    }
  }

  /** Rotation is cyclic: only the number of rotations modulo N matters. */
  lemma RotateNMod(addrs: seq<Endpoint>, k: nat)
    requires |addrs| > 0
    ensures RotateN(addrs, k) == RotateN(addrs, k % |addrs|)
  {
    var n := |addrs|;
    RotateNCycles(addrs, k / n, k % n, k);
  }

  /** After k rotations the connection target is the endpoint at position k mod N of the original list. */
  lemma HeadAfter(addrs: seq<Endpoint>, k: nat)
    requires |addrs| > 0
    ensures RotateN(addrs, k)[0] == addrs[k % |addrs|]
  {
    RotateNMod(addrs, k);
    RotateNSplit(addrs, k % |addrs|);
  }

  /** A persistently failing endpoint is tried again exactly one full cycle later. */
  lemma RetriedAfterCycle(addrs: seq<Endpoint>, k: nat)
    requires |addrs| > 0
    ensures RotateN(addrs, k + |addrs|) == RotateN(addrs, k)
  {
    RotateNAdd(addrs, |addrs|, k);
    FullCycle(addrs);
    assert |addrs| + k == k + |addrs|;
  }

  /** The heads (connection targets) of the lists RotateN(addrs, k), ..., RotateN(addrs, k + n - 1). */
  function Heads(addrs: seq<Endpoint>, k: nat, n: nat): (r: seq<Endpoint>)
    requires |addrs| > 0
    ensures |r| == n
    decreases n
  {
    if n == 0 then [] else [RotateN(addrs, k)[0]] + Heads(addrs, k + 1, n - 1)
  }

  lemma {:induction false} HeadsAt(addrs: seq<Endpoint>, k: nat, n: nat, j: nat)
    requires |addrs| > 0 && j < n
    ensures Heads(addrs, k, n)[j] == RotateN(addrs, k + j)[0]
    decreases n
  {
    if j > 0 {
      HeadsAt(addrs, k + 1, n - 1, j - 1);
      assert Heads(addrs, k, n)[j] == Heads(addrs, k + 1, n - 1)[j - 1];
      assert k + 1 + (j - 1) == k + j;
    }
  }

  /** Cyclic fairness: the targets tried over any N consecutive rotations are the
      list itself, rotated; so every endpoint is the target exactly as often as it
      occurs in the list, and none is starved. */
  lemma HeadsOverCycle(addrs: seq<Endpoint>, k: nat)
    requires |addrs| > 0
    ensures Heads(addrs, k, |addrs|) == RotateN(addrs, k)
    ensures multiset(Heads(addrs, k, |addrs|)) == multiset(addrs)
  {
    RotateNKeepsEndpoints(addrs, k);
    var n := |addrs|;
    var rk := RotateN(addrs, k);
    forall j | 0 <= j < n
      ensures Heads(addrs, k, n)[j] == rk[j]
    {
      HeadsAt(addrs, k, n, j);
      RotateNAdd(addrs, k, j);
      RotateNSplit(rk, j);
    }
  }
}
