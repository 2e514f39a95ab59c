/** Ordering runs by one phase's answer string, in place, as the runner does
    before it reads off a median. */
module Sorting {
  import opened Day

  /** Go's `<` on strings: lexicographic, and a proper prefix comes first.
      Characters compare by code point, which orders UTF-8 text the way
      Go's byte-wise comparison does. */
  predicate StrLess(a: string, b: string) {
    if |a| == 0 then |b| > 0
    else if |b| == 0 then false
    else if a[0] != b[0] then a[0] < b[0]
    else StrLess(a[1..], b[1..])
  }

  lemma {:induction false} StrLessIrreflexive(a: string)
    ensures !StrLess(a, a)
  {
    if |a| > 0 {
      StrLessIrreflexive(a[1..]);
    }
  }

  lemma {:induction false} StrLessAsymmetric(a: string, b: string)
    requires StrLess(a, b)
    ensures !StrLess(b, a)
  {
    if |a| > 0 && |b| > 0 && a[0] == b[0] {
      StrLessAsymmetric(a[1..], b[1..]);
    }
  }

  lemma {:induction false} StrLessTransitive(a: string, b: string, c: string)
    requires StrLess(a, b) && StrLess(b, c)
    ensures StrLess(a, c)
  {
    if |a| > 0 && |b| > 0 && |c| > 0 && a[0] == b[0] && b[0] == c[0] {
      StrLessTransitive(a[1..], b[1..], c[1..]);
    }
  }

  lemma {:induction false} StrLessTotal(a: string, b: string)
    requires a != b
    ensures StrLess(a, b) || StrLess(b, a)
  {
    if |a| > 0 && |b| > 0 && a[0] == b[0] {
      assert a == [a[0]] + a[1..] && b == [b[0]] + b[1..];
      StrLessTotal(a[1..], b[1..]);
    }
  }

  /** Neither key is less than the other's successor: "not after" is transitive. */
  lemma NotLessTransitive(a: string, b: string, c: string)
    requires !StrLess(b, a) && !StrLess(c, b)
    ensures !StrLess(c, a)
  {
    if StrLess(c, a) {
      if a == b {
      } else if b == c {
      } else {
        StrLessTotal(a, b);
        StrLessTotal(b, c);
        StrLessTransitive(a, b, c);
        StrLessTransitive(c, a, b);
        assert false;
      }
    }
  }

  /** No run is followed by one whose phase-`p` answer is smaller. */
  predicate SortedBy(s: seq<DayResult>, p: Part) {
    forall i, j :: 0 <= i < j < |s| ==> !StrLess(Answer(s[j], p), Answer(s[i], p))
  }

  /** `x` placed into `s` after every run whose key is not greater than its own. */
  function Insert(s: seq<DayResult>, x: DayResult, p: Part): seq<DayResult> {
    if s == [] then [x]
    else if StrLess(Answer(x, p), Answer(s[|s| - 1], p)) then Insert(s[..|s| - 1], x, p) + [s[|s| - 1]]
    else s + [x]
  }

  /** Insertion sort by the phase-`p` answer, the order the in-place sort produces. */
  function SortBy(s: seq<DayResult>, p: Part): seq<DayResult> {
    if s == [] then [] else Insert(SortBy(s[..|s| - 1], p), s[|s| - 1], p)
  }

  lemma {:induction false} InsertPermutes(s: seq<DayResult>, x: DayResult, p: Part)
    ensures multiset(Insert(s, x, p)) == multiset(s) + multiset{x}
    ensures |Insert(s, x, p)| == |s| + 1
  {
    if s != [] && StrLess(Answer(x, p), Answer(s[|s| - 1], p)) {
      InsertPermutes(s[..|s| - 1], x, p);
      assert s == s[..|s| - 1] + [s[|s| - 1]];
    }
  }

  lemma {:induction false} InsertKeepsSorted(s: seq<DayResult>, x: DayResult, p: Part)
    requires SortedBy(s, p)
    ensures SortedBy(Insert(s, x, p), p)
  {
    if s == [] {
    } else {
      var init, last := s[..|s| - 1], s[|s| - 1];
      if StrLess(Answer(x, p), Answer(last, p)) {
        assert SortedBy(init, p);
        InsertKeepsSorted(init, x, p);
        InsertPermutes(init, x, p);
        var r := Insert(init, x, p);
        forall i | 0 <= i < |r|
          ensures !StrLess(Answer(last, p), Answer(r[i], p))
        {
          assert r[i] in multiset(init) + multiset{x};
          if r[i] == x {
            StrLessAsymmetric(Answer(x, p), Answer(last, p));
          } else {
            assert r[i] in init;
          }
        }
      } else {
        forall i | 0 <= i < |s|
          ensures !StrLess(Answer(x, p), Answer(s[i], p))
        {
          if i < |s| - 1 {
            NotLessTransitive(Answer(s[i], p), Answer(last, p), Answer(x, p));
          }
        }
      }
    }
  }

  /** The sort is a permutation of its input. */
  lemma {:induction false} SortByPermutes(s: seq<DayResult>, p: Part)
    ensures multiset(SortBy(s, p)) == multiset(s)
    ensures |SortBy(s, p)| == |s|
  {
    if s != [] {
      SortByPermutes(s[..|s| - 1], p);
      InsertPermutes(SortBy(s[..|s| - 1], p), s[|s| - 1], p);
      assert s == s[..|s| - 1] + [s[|s| - 1]];
    }
  }

  /** The sort orders runs by their phase-`p` answer. */
  lemma {:induction false} SortBySorts(s: seq<DayResult>, p: Part)
    ensures SortedBy(SortBy(s, p), p)
  {
    if s != [] {
      SortBySorts(s[..|s| - 1], p);
      InsertKeepsSorted(SortBy(s[..|s| - 1], p), s[|s| - 1], p);
    }
  }

  /** One step left: `x` passes the run before it, whose key is greater. */
  lemma InsertStep(sorted: seq<DayResult>, j: nat, x: DayResult, p: Part)
    requires 0 < j <= |sorted|
    requires StrLess(Answer(x, p), Answer(sorted[j - 1], p))
    ensures Insert(sorted[..j], x, p) + sorted[j..] == Insert(sorted[..j - 1], x, p) + sorted[j - 1..]
  {
    assert sorted[..j][..j - 1] == sorted[..j - 1];
    assert sorted[j - 1..] == [sorted[j - 1]] + sorted[j..];
  }

  /** `x` stops once the run before it has a key that is not greater. */
  lemma InsertStop(sorted: seq<DayResult>, j: nat, x: DayResult, p: Part)
    requires j <= |sorted|
    requires j > 0 ==> !StrLess(Answer(x, p), Answer(sorted[j - 1], p))
    ensures Insert(sorted[..j], x, p) == sorted[..j] + [x]
  {
  }

  /** Moves the run at index `i` left past every greater run before it. */
  method InsertLast(a: array<DayResult>, i: nat, p: Part)
    requires i < a.Length
    modifies a
    ensures a[..i + 1] == Insert(old(a[..i]), old(a[i]), p)
    ensures a[i + 1..] == old(a[i + 1..])
  {
    ghost var sorted := a[..i];
    ghost var x := a[i];
    ghost var rest := a[i + 1..];
    var j := i;
    assert sorted[..j] == sorted && sorted[j..] == [];
    assert a[..] == sorted + [x] + rest;
    while j > 0 && StrLess(Answer(a[j], p), Answer(a[j - 1], p))
      invariant 0 <= j <= i
      invariant a[..] == sorted[..j] + [x] + sorted[j..] + rest
      invariant Insert(sorted, x, p) == Insert(sorted[..j], x, p) + sorted[j..]
    {
      assert a[j] == a[..][j] == x;
      assert a[j - 1] == a[..][j - 1] == sorted[j - 1];
      InsertStep(sorted, j, x, p);
      SwapStep(a[..], sorted, j, x, rest);
      a[j - 1], a[j] := a[j], a[j - 1];
      j := j - 1;
    }
    InsertStop(sorted, j, x, p);
  }

  /** Swapping `x` with the run before it moves it one place left. */
  lemma SwapStep(s: seq<DayResult>, sorted: seq<DayResult>, j: nat, x: DayResult, rest: seq<DayResult>)
    requires 0 < j <= |sorted|
    requires s == sorted[..j] + [x] + sorted[j..] + rest
    ensures s[j - 1 := x][j := s[j - 1]] == sorted[..j - 1] + [x] + sorted[j - 1..] + rest
  {
    var t := s[j - 1 := x][j := s[j - 1]];
    var u := sorted[..j - 1] + [x] + sorted[j - 1..] + rest;
    assert |t| == |u|;
    forall k | 0 <= k < |t|
      ensures t[k] == u[k]
    {
      if k < j - 1 {
      } else if k == j - 1 {
      } else if k == j {
      } else {
      }
    }
  }

  /** Orders the runs in `a` by their phase-`p` answer, in place, by
      insertion: each run moves left past every run whose answer is greater. */
  method SortByAnswer(a: array<DayResult>, p: Part)
    modifies a
    ensures a[..] == SortBy(old(a[..]), p)
  {
    ghost var orig := a[..];
    var i := 0;
    while i < a.Length
      invariant 0 <= i <= a.Length
      invariant a[..i] == SortBy(orig[..i], p)
      invariant a[i..] == orig[i..]
    {
      assert orig[..i + 1][..i] == orig[..i];
      InsertLast(a, i, p);
      i := i + 1;
    }
    assert orig[..a.Length] == orig;
  }

  /** Runs whose phase-`p` answers all agree keep the order they ran in. */
  lemma {:induction false} SortByKeepsTies(s: seq<DayResult>, p: Part)
    requires forall i :: 0 <= i < |s| ==> Answer(s[i], p) == Answer(s[0], p)
    ensures SortBy(s, p) == s
  {
    if s != [] {
      var init := s[..|s| - 1];
      SortByKeepsTies(init, p);
      StrLessIrreflexive(Answer(s[0], p));
      assert s == init + [s[|s| - 1]];
    }
  }
}
