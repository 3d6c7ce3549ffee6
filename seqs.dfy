/** Order-preserving filtering, the `for ...: if ...: append` idiom the plot
    code uses throughout. */
module Seqs {
  /** The elements of `s` that satisfy `f`, in their original order. */
  function Filter<T>(f: T -> bool, s: seq<T>): (r: seq<T>)
    ensures |r| <= |s|
    decreases |s|
  {
    if s == [] then [] else Filter(f, s[..|s| - 1]) + (if f(s[|s| - 1]) then [s[|s| - 1]] else [])
  }

  /** What `append` inside the loop does to the filtered prefix. */
  lemma FilterSnoc<T>(f: T -> bool, s: seq<T>, i: int)
    requires 0 <= i < |s|
    ensures Filter(f, s[..i + 1]) == Filter(f, s[..i]) + (if f(s[i]) then [s[i]] else [])
  {
    assert s[..i + 1][..i] == s[..i];
  }

  lemma {:induction false} FilterSound<T>(f: T -> bool, s: seq<T>)
    ensures forall x :: x in Filter(f, s) ==> x in s && f(x)
    decreases |s|
  {
    if s != [] {
      FilterSound(f, s[..|s| - 1]);
    }
  }

  lemma {:induction false} FilterComplete<T>(f: T -> bool, s: seq<T>)
    ensures forall x :: x in s && f(x) ==> x in Filter(f, s)
    decreases |s|
  {
    if s != [] {
      var init := s[..|s| - 1];
      FilterComplete(f, init);
      assert s == init + [s[|s| - 1]];
    }
  }

  /** Filtering keeps order: the filter of a concatenation is the
      concatenation of the filters. */
  lemma {:induction false} FilterConcat<T>(f: T -> bool, a: seq<T>, b: seq<T>)
    ensures Filter(f, a + b) == Filter(f, a) + Filter(f, b)
    decreases |b|
  {
    if b == [] {
      assert a + b == a;
    } else {
      var init := b[..|b| - 1];
      FilterConcat(f, a, init);
      assert (a + b)[..|a + b| - 1] == a + init;
    }
  }

  /** Filtering twice by the same test changes nothing more. */
  lemma {:induction false} FilterIdempotent<T>(f: T -> bool, s: seq<T>)
    ensures Filter(f, Filter(f, s)) == Filter(f, s)
    decreases |s|
  {
    if s != [] {
      var init := s[..|s| - 1];
      FilterIdempotent(f, init);
      var last := if f(s[|s| - 1]) then [s[|s| - 1]] else [];
      FilterConcat(f, Filter(f, init), last);
      if f(s[|s| - 1]) {
        assert Filter(f, last) == Filter(f, last[..0]) + last;
      }
    }
  }

  /** Nothing is dropped exactly when every element passes. */
  lemma {:induction false} FilterAll<T>(f: T -> bool, s: seq<T>)
    ensures Filter(f, s) == s <==> forall i :: 0 <= i < |s| ==> f(s[i])
    decreases |s|
  {
    if s != [] {
      var init := s[..|s| - 1];
      FilterAll(f, init);
      if !f(s[|s| - 1]) {
        assert |Filter(f, s)| < |s|;
      } else if Filter(f, s) == s {
        assert Filter(f, init) + [s[|s| - 1]] == init + [s[|s| - 1]];
        assert Filter(f, init) == init;
      }
    }
  }
}
