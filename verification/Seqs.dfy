/** Facts about sequences that the solver is better told than left to find. */
module Seqs {
  lemma Assoc<T>(a: seq<T>, b: seq<T>, c: seq<T>)
    ensures (a + b) + c == a + (b + c)
  {
  }

  lemma Counts<T>(a: seq<T>, b: seq<T>, e: T)
    ensures multiset(a + b)[e] == multiset(a)[e] + multiset(b)[e]
  {
  }

  /** s around one of its elements. */
  lemma Around<T>(s: seq<T>, e: T) returns (x: seq<T>, y: seq<T>)
    requires e in multiset(s)
    ensures s == x + ([e] + y) && multiset(s) == multiset(x + y) + multiset{e}
  {
    var i :| 0 <= i < |s| && s[i] == e;
    x, y := s[..i], s[i + 1..];
    assert s == x + ([e] + y);
  }

  /** What is left of two lists of the same elements when one element is taken out. */
  lemma LeftAlike<T>(a: seq<T>, b: seq<T>, e: T, x: seq<T>, y: seq<T>)
    requires multiset(a) + multiset{e} == multiset(b) && multiset(b) == multiset(x + y) + multiset{e}
    ensures multiset(a) == multiset(x + y)
  {
    assert multiset(a) == multiset(b) - multiset{e} && multiset(x + y) == multiset(b) - multiset{e};
  }

  /** An element at two places counts twice. */
  lemma Twice<T>(s: seq<T>, i: nat, j: nat)
    requires i < j < |s| && s[i] == s[j]
    ensures multiset(s)[s[i]] >= 2
  {
    assert s == s[..j] + [s[j]] + s[j + 1..];
    assert s[i] in s[..j];
  }

  lemma Swapped<T>(a: T, b: T, c: T)
    ensures multiset([a, c, b]) == multiset([a, b, c])
  {
    assert multiset([a, c, b]) == multiset{a, b, c} && multiset([a, b, c]) == multiset{a, b, c};
  }

  /** What f makes of each element, one after the other. */
  function Each<T, U>(f: T -> seq<U>, s: seq<T>): seq<U>
  {
    if s == [] then [] else Each(f, s[..|s| - 1]) + f(s[|s| - 1])
  }

  lemma EachLast<T, U>(f: T -> seq<U>, front: seq<T>, last: T)
    ensures Each(f, front + [last]) == Each(f, front) + f(last)
  {
    assert (front + [last])[..|front|] == front;
  }

  lemma {:induction false} EachAppend<T, U>(f: T -> seq<U>, a: seq<T>, b: seq<T>)
    ensures Each(f, a + b) == Each(f, a) + Each(f, b)
    decreases |b|
  {
    if b == [] {
      assert a + b == a;
    } else {
      var front, last := b[..|b| - 1], b[|b| - 1];
      EachAppend(f, a, front);
      assert b == front + [last];
      Assoc(a, front, [last]);
      EachLast(f, front, last);
      EachLast(f, a + front, last);
      Assoc(Each(f, a), Each(f, front), f(last));
    }
  }
}
