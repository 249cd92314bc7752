/**
 * Counting the elements of a sequence that satisfy a predicate: the
 * `xs.filter(p).length` idiom that every count in the record engine uses.
 */
module Counting {

  /** Number of elements of `s` for which `p` holds (`s.filter(p).length`). */
  function Count<T>(s: seq<T>, p: T -> bool): (c: nat)
    ensures c <= |s|
  {
    if |s| == 0 then 0 else (if p(s[0]) then 1 else 0) + Count(s[1..], p)
  }

  /** Counting distributes over concatenation. */
  lemma {:induction false} CountAppend<T>(a: seq<T>, b: seq<T>, p: T -> bool)
    ensures Count(a + b, p) == Count(a, p) + Count(b, p)
    decreases |a|
  {
    if |a| == 0 {
      assert a + b == b;
    } else {
      assert (a + b)[1..] == a[1..] + b;
      CountAppend(a[1..], b, p);
    }
  }

  /** Counting a one-element extension at the end. */
  lemma CountSnoc<T>(a: seq<T>, x: T, p: T -> bool)
    ensures Count(a + [x], p) == Count(a, p) + (if p(x) then 1 else 0)
  {
    CountAppend(a, [x], p);
  }

  /** The count is zero exactly when no element satisfies `p`. */
  lemma {:induction false} CountZero<T>(s: seq<T>, p: T -> bool)
    ensures Count(s, p) == 0 <==> forall i :: 0 <= i < |s| ==> !p(s[i])
    decreases |s|
  {
    if |s| > 0 {
      CountZero(s[1..], p);
      forall i | 0 < i < |s| ensures s[i] == s[1..][i - 1] {}
    }
  }

  /** The count equals the length exactly when every element satisfies `p`. */
  lemma {:induction false} CountFull<T>(s: seq<T>, p: T -> bool)
    ensures Count(s, p) == |s| <==> forall i :: 0 <= i < |s| ==> p(s[i])
    decreases |s|
  {
    if |s| > 0 {
      CountFull(s[1..], p);
      forall i | 0 < i < |s| ensures s[i] == s[1..][i - 1] {}
    }
  }

  /** The count depends only on the multiset of elements, not on their order. */
  lemma {:induction false} CountPermutation<T>(s: seq<T>, t: seq<T>, p: T -> bool)
    requires multiset(s) == multiset(t)
    ensures Count(s, p) == Count(t, p)
    decreases |s|
  {
    if |s| == 0 {
      assert |multiset(t)| == 0;
    } else {
      var x := s[0];
      assert x in multiset(t);
      var j :| 0 <= j < |t| && t[j] == x;
      var rest := t[..j] + t[j + 1..];
      assert t == t[..j] + [x] + t[j + 1..];
      CountAppend(t[..j] + [x], t[j + 1..], p);
      CountAppend(t[..j], [x], p);
      CountAppend(t[..j], t[j + 1..], p);
      assert s == [x] + s[1..];
      calc {
        multiset(s[1..]);
        multiset(s) - multiset{x};
        multiset(t[..j] + [x] + t[j + 1..]) - multiset{x};
        multiset(t[..j]) + multiset(t[j + 1..]);
        multiset(rest);
      }
      CountPermutation(s[1..], rest, p);
    }
  }

  /**
   * If, position by position, `p` on `s` implies `q` on `t`, then `t` has at
   * least as many `q` elements as `s` has `p` elements.
   */
  lemma {:induction false} CountMonotone<T>(s: seq<T>, t: seq<T>, p: T -> bool, q: T -> bool)
    requires |s| == |t|
    requires forall i :: 0 <= i < |s| && p(s[i]) ==> q(t[i])
    ensures Count(s, p) <= Count(t, q)
    decreases |s|
  {
    if |s| > 0 {
      forall i | 0 <= i < |s| - 1 && p(s[1..][i]) ensures q(t[1..][i]) {
        assert s[1..][i] == s[i + 1] && t[1..][i] == t[i + 1];
      }
      CountMonotone(s[1..], t[1..], p, q);
    }
  }

  /** A predicate and its complement split the sequence between them. */
  lemma {:induction false} CountComplement<T>(s: seq<T>, p: T -> bool, q: T -> bool)
    requires forall x :: q(x) == !p(x)
    ensures Count(s, p) + Count(s, q) == |s|
    decreases |s|
  {
    if |s| > 0 {
      CountComplement(s[1..], p, q);
    }
  }
}
