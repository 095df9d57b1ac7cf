/** Small sequence vocabulary shared by the scorer and its order lemmas:
    the optional one-element list that each `if (...) list.push(x)` adds,
    an order-preserving filter, and the regrouping facts about `+` that
    the proofs need. */
module Sequences {

  /** `[x]` unless the condition holds: what `if (!met) list.push(x)` appends. */
  function Unless<T>(met: bool, x: T): (r: seq<T>)
    ensures r == [] <==> met
    ensures !met ==> r == [x]
  {
    if met then [] else [x]
  }

  /** The elements of `s` that satisfy `keep`, in their order in `s`. */
  function Filter<T>(s: seq<T>, keep: T -> bool): (r: seq<T>)
    ensures |r| <= |s|
  {
    if s == [] then [] else Unless(!keep(s[0]), s[0]) + Filter(s[1..], keep)
  }

  lemma {:induction false} FilterMembership<T>(s: seq<T>, keep: T -> bool, x: T)
    ensures x in Filter(s, keep) <==> x in s && keep(x)
  {
    if s != [] {
      FilterMembership(s[1..], keep, x);
      assert s == [s[0]] + s[1..];
    }
  }

  lemma {:induction false} FilterAppend<T>(a: seq<T>, b: seq<T>, keep: T -> bool)
    ensures Filter(a + b, keep) == Filter(a, keep) + Filter(b, keep)
  {
    if a != [] {
      assert (a + b)[1..] == a[1..] + b;
      FilterAppend(a[1..], b, keep);
    } else {
      assert a + b == b;
    }
  }

  /** A filter whose condition holds for all of `s` or for none of it
      keeps all of `s` or none of it. */
  lemma {:induction false} FilterUniform<T>(s: seq<T>, keep: T -> bool, all: bool)
    requires forall x :: x in s ==> keep(x) == all
    ensures Filter(s, keep) == if all then s else []
  {
    if s != [] {
      assert forall x :: x in s[1..] ==> x in s;
      FilterUniform(s[1..], keep, all);
      assert s == [s[0]] + s[1..];
    }
  }

  lemma FilterOfFiveBlocks<T>(a: seq<T>, b: seq<T>, c: seq<T>, d: seq<T>, e: seq<T>, keep: T -> bool)
    ensures Filter(a + (b + (c + (d + e))), keep)
      == Filter(a, keep) + (Filter(b, keep) + (Filter(c, keep) + (Filter(d, keep) + Filter(e, keep))))
  {
    FilterAppend(a, b + (c + (d + e)), keep);
    FilterAppend(b, c + (d + e), keep);
    FilterAppend(c, d + e, keep);
    FilterAppend(d, e, keep);
  }

  lemma FilterOfOne<T>(a: T, keep: T -> bool)
    ensures Filter([a], keep) == Unless(!keep(a), a)
  {
    assert [a][1..] == [];
  }

  lemma FilterOfTwo<T>(a: T, b: T, keep: T -> bool)
    ensures Filter([a, b], keep) == Unless(!keep(a), a) + Unless(!keep(b), b)
  {
    FilterOfOne(b, keep);
    assert [a, b][1..] == [b];
  }

  lemma FilterOfThree<T>(a: T, b: T, c: T, keep: T -> bool)
    ensures Filter([a, b, c], keep) == Unless(!keep(a), a) + (Unless(!keep(b), b) + Unless(!keep(c), c))
  {
    FilterOfTwo(b, c, keep);
    assert [a, b, c][1..] == [b, c];
  }

  lemma FilterOfFour<T>(a: T, b: T, c: T, d: T, keep: T -> bool)
    ensures Filter([a, b, c, d], keep)
      == Unless(!keep(a), a) + (Unless(!keep(b), b) + (Unless(!keep(c), c) + Unless(!keep(d), d)))
  {
    FilterOfThree(b, c, d, keep);
    assert [a, b, c, d][1..] == [b, c, d];
  }

  lemma FilterOfFive<T>(a: T, b: T, c: T, d: T, e: T, keep: T -> bool)
    ensures Filter([a, b, c, d, e], keep)
      == Unless(!keep(a), a) + (Unless(!keep(b), b) + (Unless(!keep(c), c)
       + (Unless(!keep(d), d) + Unless(!keep(e), e))))
  {
    FilterOfFour(b, c, d, e, keep);
    assert [a, b, c, d, e][1..] == [b, c, d, e];
  }

  lemma AppendNests4<T>(a: seq<T>, b: seq<T>, c: seq<T>, d: seq<T>)
    ensures a + b + c + d == a + (b + (c + d))
  {
  }

  lemma AppendAssociates4<T>(c: seq<T>, a: seq<T>, b: seq<T>, d: seq<T>, e: seq<T>)
    ensures c + a + b + d + e == c + (a + b + d + e)
  {
  }

  lemma AppendAssociates5<T>(c: seq<T>, a: seq<T>, b: seq<T>, d: seq<T>, e: seq<T>, f: seq<T>)
    ensures c + a + b + d + e + f == c + (a + (b + (d + (e + f))))
  {
  }
}
