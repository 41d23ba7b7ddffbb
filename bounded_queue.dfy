/** Bounded FIFO queues: a deque created with `maxlen == cap` keeps only its
    `cap` newest elements, dropping the oldest ones when it is extended. */
module BoundedQueue {

  /** The newest `cap` elements of `s`, oldest first (all of `s` when it is short). */
  function Bounded<T>(s: seq<T>, cap: nat): (r: seq<T>)
    ensures |r| == if |s| <= cap then |s| else cap
  {
    if |s| <= cap then s else s[|s| - cap..]
  }

  /** What `extend(xs)` leaves in a bounded deque that held `q`. */
  function Extend<T>(q: seq<T>, xs: seq<T>, cap: nat): (r: seq<T>)
    ensures |r| <= cap
  {
    Bounded(q + xs, cap)
  }

  /** One `append` on a deque with `maxlen == cap`: when it is full, the
      oldest element is dropped to make room; with capacity 0 nothing stays. */
  function Append<T>(q: seq<T>, x: T, cap: nat): (r: seq<T>)
    requires |q| <= cap
    ensures |r| <= cap
  {
    if |q| < cap then q + [x]
    else if cap == 0 then []
    else q[1..] + [x]
  }

  /** `extend` as the deque performs it: one `append` per element, in order. */
  function AppendEach<T>(q: seq<T>, xs: seq<T>, cap: nat): (r: seq<T>)
    requires |q| <= cap
    ensures |r| <= cap
    decreases |xs|
  {
    if xs == [] then q else AppendEach(Append(q, xs[0], cap), xs[1..], cap)
  }

  /** Trimming twice to the same capacity is trimming once. */
  lemma BoundedOfBounded<T>(a: seq<T>, b: seq<T>, cap: nat)
    ensures Bounded(Bounded(a, cap) + b, cap) == Bounded(a + b, cap)
  {
    if |a| > cap {
      var a' := a[|a| - cap..];
      var r1 := Bounded(a' + b, cap);
      var r2 := Bounded(a + b, cap);
      assert |r1| == |r2|;
      forall i | 0 <= i < |r1| ensures r1[i] == r2[i] {
        if |a' + b| <= cap {
          assert r1[i] == (a' + b)[i];
          assert r2[i] == (a + b)[|a| - cap + i];
        } else {
          assert r1[i] == (a' + b)[|a' + b| - cap + i];
          assert r2[i] == (a + b)[|a + b| - cap + i];
        }
      }
    }
  }

  /** A single `append` keeps exactly the newest `cap` elements. */
  lemma AppendIsBounded<T>(q: seq<T>, x: T, cap: nat)
    requires |q| <= cap
    ensures Append(q, x, cap) == Bounded(q + [x], cap)
  {
    if |q| == cap && cap > 0 {
      assert (q + [x])[1..] == q[1..] + [x];
    }
  }

  /** Appending element by element, with eviction at every step, leaves the
      deque holding the newest `min(|q| + |xs|, cap)` elements of `q + xs`. */
  lemma {:induction false} AppendEachIsExtend<T>(q: seq<T>, xs: seq<T>, cap: nat)
    requires |q| <= cap
    ensures AppendEach(q, xs, cap) == Extend(q, xs, cap)
    decreases |xs|
  {
    if xs == [] {
      assert q + xs == q;
    } else {
      var q' := Append(q, xs[0], cap);
      AppendEachIsExtend(q', xs[1..], cap);
      AppendIsBounded(q, xs[0], cap);
      BoundedOfBounded(q + [xs[0]], xs[1..], cap);
      assert q + [xs[0]] + xs[1..] == q + xs;
    }
  }

  /** Extending keeps the newest elements of the old contents followed by the
      new ones: element `i` of the result is element `i + |q| + |xs| - |r|` of `q + xs`. */
  lemma ExtendKeepsNewest<T>(q: seq<T>, xs: seq<T>, cap: nat)
    ensures var r := Extend(q, xs, cap);
      |r| == (if |q| + |xs| <= cap then |q| + |xs| else cap) &&
      forall i :: 0 <= i < |r| ==> r[i] == (q + xs)[|q| + |xs| - |r| + i]
  {
  }

  /** Extending a deque by nothing leaves it as it was. */
  lemma ExtendByNothing<T>(q: seq<T>, cap: nat)
    requires |q| <= cap
    ensures Extend(q, [], cap) == q
  {
    assert q + [] == q;
  }

  /** `n` empty queues. */
  function Empties<T>(n: nat): (r: seq<seq<T>>)
    ensures |r| == n && forall i :: 0 <= i < n ==> r[i] == []
  {
    seq(n, _ => [])
  }
}
