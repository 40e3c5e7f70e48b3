/** `Array.prototype.filter` on sequences: keeps, in order, the elements the test accepts. */
module Seqs {

  function Filter<T(!new)>(s: seq<T>, f: T -> bool): (r: seq<T>)
    ensures |r| <= |s|
  {
    if s == [] then []
    else Filter(s[..|s| - 1], f) + (if f(s[|s| - 1]) then [s[|s| - 1]] else [])
  }

  /** What `Filter` keeps: exactly the elements that pass the test. */
  lemma {:induction false} FilterMembers<T(!new)>(s: seq<T>, f: T -> bool)
    decreases |s|
    ensures forall x :: x in Filter(s, f) <==> x in s && f(x)
  {
    if s != [] {
      FilterMembers(s[..|s| - 1], f);
      assert s == s[..|s| - 1] + [s[|s| - 1]];
    }
  }

  /** Filtering one more element appends it exactly when the test accepts it. */
  lemma FilterSnoc<T(!new)>(s: seq<T>, x: T, f: T -> bool)
    ensures Filter(s + [x], f) == Filter(s, f) + (if f(x) then [x] else [])
  {
    assert (s + [x])[..|s + [x]| - 1] == s;
  }

  /** Filtering distributes over concatenation. */
  lemma {:induction false} FilterAppend<T(!new)>(a: seq<T>, b: seq<T>, f: T -> bool)
    decreases |b|
    ensures Filter(a + b, f) == Filter(a, f) + Filter(b, f)
  {
    if b == [] {
      assert a + b == a;
    } else {
      var x := b[|b| - 1];
      FilterAppend(a, b[..|b| - 1], f);
      assert a + b == (a + b[..|b| - 1]) + [x];
      FilterSnoc(a + b[..|b| - 1], x, f);
      assert b == b[..|b| - 1] + [x];
      FilterSnoc(b[..|b| - 1], x, f);
      AppendAssoc(Filter(a, f), Filter(b[..|b| - 1], f), if f(x) then [x] else []);
    }
  }

  /** Nothing passes, nothing is kept. */
  lemma {:induction false} FilterNone<T(!new)>(s: seq<T>, f: T -> bool)
    requires forall i :: 0 <= i < |s| ==> !f(s[i])
    decreases |s|
    ensures Filter(s, f) == []
  {
    if s != [] {
      FilterNone(s[..|s| - 1], f);
    }
  }

  lemma AppendAssoc<T>(a: seq<T>, b: seq<T>, c: seq<T>)
    ensures a + b + c == a + (b + c)
  {
  }
}
