/** Sums of a weight over a sequence, the shape of every `reduce` in the services. */
module Sums {
  function Sum<T>(s: seq<T>, w: T -> int): int {
    if s == [] then 0 else w(s[0]) + Sum(s[1..], w)
  }

  function SumReal<T>(s: seq<T>, w: T -> real): real {
    if s == [] then 0.0 else w(s[0]) + SumReal(s[1..], w)
  }

  lemma {:induction false} SumConcat<T>(s: seq<T>, t: seq<T>, w: T -> int)
    ensures Sum(s + t, w) == Sum(s, w) + Sum(t, w)
  {
    if s == [] {
      assert s + t == t;
    } else {
      assert (s + t)[1..] == s[1..] + t;
      SumConcat(s[1..], t, w);
    }
  }

  lemma SumAppend<T>(s: seq<T>, x: T, w: T -> int)
    ensures Sum(s + [x], w) == Sum(s, w) + w(x)
  {
    SumConcat(s, [x], w);
    assert Sum([x], w) == w(x) + Sum([], w);
  }

  function Without<T>(s: seq<T>, i: nat): seq<T>
    requires i < |s|
  {
    s[..i] + s[i + 1..]
  }

  lemma WithoutHolds<T>(s: seq<T>, i: nat)
    requires i < |s|
    ensures multiset(Without(s, i)) == multiset(s) - multiset{s[i]}
  {
    assert s == s[..i] + ([s[i]] + s[i + 1..]);
  }

  lemma SumWithout<T>(s: seq<T>, i: nat, w: T -> int)
    requires i < |s|
    ensures Sum(s, w) == Sum(Without(s, i), w) + w(s[i])
  {
    hide Sum;
    var front, back := s[..i], s[i + 1..];
    assert s == (front + [s[i]]) + back;
    SumConcat(front + [s[i]], back, w);
    SumConcat(front, back, w);
    SumAppend(front, s[i], w);
  }

  /** The order of the summands makes no difference. */
  lemma {:induction false} SumPermuted<T>(s: seq<T>, t: seq<T>, w: T -> int)
    requires multiset(s) == multiset(t)
    ensures Sum(s, w) == Sum(t, w)
    decreases |s|
  {
    if s == [] {
      assert |multiset(t)| == 0;
    } else {
      assert s[0] in multiset(t);
      var i :| 0 <= i < |t| && t[i] == s[0];
      assert |Without(s, 0)| < |s|;
      hide Sum, Without;
      WithoutHolds(s, 0);
      WithoutHolds(t, i);
      SumPermuted(Without(s, 0), Without(t, i), w);
      SumWithout(s, 0, w);
      SumWithout(t, i, w);
    }
  }

  lemma {:induction false} SumRealAppend<T>(s: seq<T>, x: T, w: T -> real)
    ensures SumReal(s + [x], w) == SumReal(s, w) + w(x)
  {
    if s == [] {
      assert s + [x] == [x];
    } else {
      assert (s + [x])[1..] == s[1..] + [x];
      SumRealAppend(s[1..], x, w);
    }
  }

  lemma SumUpdate<T>(s: seq<T>, i: nat, x: T, w: T -> int)
    requires i < |s|
    ensures Sum(s[i := x], w) == Sum(s, w) - w(s[i]) + w(x)
  {
    hide Sum;
    var front, back := s[..i], s[i + 1..];
    assert s == (front + [s[i]]) + back;
    assert s[i := x] == (front + [x]) + back;
    SumConcat(front + [s[i]], back, w);
    SumConcat(front + [x], back, w);
    SumAppend(front, s[i], w);
    SumAppend(front, x, w);
  }

  /** Weights that agree on the members give equal sums. */
  lemma {:induction false} SumSame<T>(s: seq<T>, w: T -> int, v: T -> int)
    requires forall x :: x in s ==> w(x) == v(x)
    ensures Sum(s, w) == Sum(s, v)
  {
    if s != [] {
      SumSame(s[1..], w, v);
    }
  }

  lemma {:induction false} SumZero<T>(s: seq<T>, w: T -> int)
    requires forall x :: x in s ==> w(x) == 0
    ensures Sum(s, w) == 0
  {
    if s != [] {
      SumZero(s[1..], w);
    }
  }

  /** A weight that is a - b on the members splits into two sums. */
  lemma {:induction false} SumMinus<T>(s: seq<T>, w: T -> int, a: T -> int, b: T -> int)
    requires forall x :: x in s ==> w(x) == a(x) - b(x)
    ensures Sum(s, w) == Sum(s, a) - Sum(s, b)
  {
    if s != [] {
      SumMinus(s[1..], w, a, b);
    }
  }

  lemma {:induction false} SumRealMinus<T>(s: seq<T>, w: T -> real, a: T -> real, b: T -> real)
    requires forall x :: x in s ==> w(x) == a(x) - b(x)
    ensures SumReal(s, w) == SumReal(s, a) - SumReal(s, b)
  {
    if s != [] {
      SumRealMinus(s[1..], w, a, b);
    }
  }

  lemma {:induction false} SumNonNegative<T>(s: seq<T>, w: T -> int)
    requires forall x :: x in s ==> w(x) >= 0
    ensures Sum(s, w) >= 0
  {
    if s != [] {
      SumNonNegative(s[1..], w);
    }
  }

  /** Mapping first and summing afterwards is summing the composed weight. */
  lemma {:induction false} SumMapped<S, T>(s: seq<S>, t: seq<T>, v: S -> int, w: T -> int)
    requires |s| == |t|
    requires forall i :: 0 <= i < |s| ==> v(s[i]) == w(t[i])
    ensures Sum(s, v) == Sum(t, w)
  {
    if s != [] {
      SumMapped(s[1..], t[1..], v, w);
    }
  }

  lemma {:induction false} SumNegated<S, T>(s: seq<S>, t: seq<T>, v: S -> int, w: T -> int)
    requires |s| == |t|
    requires forall i :: 0 <= i < |s| ==> v(s[i]) == -w(t[i])
    ensures Sum(s, v) == -Sum(t, w)
  {
    if s != [] {
      SumNegated(s[1..], t[1..], v, w);
    }
  }

  /** Rounding each summand moves the sum by at most half a cent per summand. */
  lemma {:induction false} SumRounded<S, T>(s: seq<S>, t: seq<T>, v: S -> real, w: T -> int)
    requires |s| == |t|
    requires forall i :: 0 <= i < |s| ==> -0.5 <= w(t[i]) as real - v(s[i]) <= 0.5
    ensures -0.5 * |s| as real <= Sum(t, w) as real - SumReal(s, v) <= 0.5 * |s| as real
  {
    if s != [] {
      SumRounded(s[1..], t[1..], v, w);
    }
  }

  lemma {:induction false} SumExact<S, T>(s: seq<S>, t: seq<T>, v: S -> real, w: T -> int)
    requires |s| == |t|
    requires forall i :: 0 <= i < |s| ==> w(t[i]) as real == v(s[i])
    ensures Sum(t, w) as real == SumReal(s, v)
  {
    if s != [] {
      SumExact(s[1..], t[1..], v, w);
    }
  }

  lemma SumOfThree<T>(x: T, y: T, z: T, w: T -> int)
    ensures Sum([x, y, z], w) == w(x) + w(y) + w(z)
  {
    SumAppend([x, y], z, w);
    SumAppend([x], y, w);
    assert [x, y, z] == [x, y] + [z] && [x, y] == [x] + [y];
  }

  lemma SumRealOfThree<T>(x: T, y: T, z: T, w: T -> real)
    ensures SumReal([x, y, z], w) == w(x) + w(y) + w(z)
  {
    SumRealAppend([x, y], z, w);
    SumRealAppend([x], y, w);
    assert [x, y, z] == [x, y] + [z] && [x, y] == [x] + [y];
  }

  lemma {:induction false} SumRealConcat<T>(s: seq<T>, t: seq<T>, w: T -> real)
    ensures SumReal(s + t, w) == SumReal(s, w) + SumReal(t, w)
  {
    if s == [] {
      assert s + t == t;
    } else {
      assert (s + t)[1..] == s[1..] + t;
      SumRealConcat(s[1..], t, w);
    }
  }

  lemma {:induction false} SumRealZero<T>(s: seq<T>, w: T -> real)
    requires forall x :: x in s ==> w(x) == 0.0
    ensures SumReal(s, w) == 0.0
  {
    if s != [] {
      SumRealZero(s[1..], w);
    }
  }

  lemma {:induction false} SumRealMapped<S, T>(s: seq<S>, t: seq<T>, v: S -> real, w: T -> real)
    requires |s| == |t|
    requires forall i :: 0 <= i < |s| ==> v(s[i]) == w(t[i])
    ensures SumReal(s, v) == SumReal(t, w)
  {
    if s != [] {
      SumRealMapped(s[1..], t[1..], v, w);
    }
  }
}
