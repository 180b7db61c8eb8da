/** Sequence helpers shared by the handlers: the `filter` of JavaScript arrays
    and the facts about it that the handlers rely on. */
module Seqs {

  /** No element occurs twice. */
  predicate NoDup<T(==)>(s: seq<T>) {
    forall i, j :: 0 <= i < |s| && 0 <= j < |s| && i != j ==> s[i] != s[j]
  }

  /** `r` is obtained from `s` by deleting some elements, keeping the order of the rest. */
  predicate IsSubsequence<T(==)>(r: seq<T>, s: seq<T>)
    decreases |s|
  {
    if r == [] then true
    else if s == [] then false
    else if r[0] == s[0] then IsSubsequence(r[1..], s[1..])
    else IsSubsequence(r, s[1..])
  }

  /** `Array.prototype.filter`: the elements of `s` that `keep` accepts, in order. */
  function Filter<T(==,!new)>(s: seq<T>, keep: T -> bool): (r: seq<T>)
    ensures |r| <= |s|
    ensures forall x :: x in r <==> x in s && keep(x)
  {
    if s == [] then []
    else
      assert s == [s[0]] + s[1..];
      (if keep(s[0]) then [s[0]] else []) + Filter(s[1..], keep)
  }

  /** Filtering keeps every accepted element as often as it occurred, and no rejected one. */
  lemma {:induction false} FilterCounts<T(!new)>(s: seq<T>, keep: T -> bool, x: T)
    ensures multiset(Filter(s, keep))[x] == if keep(x) then multiset(s)[x] else 0
  {
    if s != [] {
      FilterCounts(s[1..], keep, x);
      assert s == [s[0]] + s[1..];
    }
  }

  /** Filtering keeps the relative order of what it keeps. */
  lemma {:induction false} FilterIsSubsequence<T(!new)>(s: seq<T>, keep: T -> bool)
    ensures IsSubsequence(Filter(s, keep), s)
  {
    if s != [] {
      FilterIsSubsequence(s[1..], keep);
      var rest := Filter(s[1..], keep);
      if keep(s[0]) {
        assert Filter(s, keep) == [s[0]] + rest;
        assert ([s[0]] + rest)[1..] == rest;
      } else {
        assert Filter(s, keep) == rest;
        if rest != [] {
          assert rest[0] in rest;
        }
      }
    }
  }

  lemma NoDupTail<T>(s: seq<T>)
    requires s != [] && NoDup(s)
    ensures NoDup(s[1..]) && s[0] !in s[1..]
  {
  }

  lemma NoDupCons<T>(x: T, s: seq<T>)
    requires NoDup(s) && x !in s
    ensures NoDup([x] + s)
  {
  }

  lemma NoDupSnoc<T>(s: seq<T>, x: T)
    requires NoDup(s) && x !in s
    ensures NoDup(s + [x])
  {
  }

  /** Filtering a duplicate-free sequence gives a duplicate-free sequence. */
  lemma {:induction false} FilterNoDup<T(!new)>(s: seq<T>, keep: T -> bool)
    requires NoDup(s)
    ensures NoDup(Filter(s, keep))
  {
    if s != [] {
      NoDupTail(s);
      FilterNoDup(s[1..], keep);
      if keep(s[0]) {
        NoDupCons(s[0], Filter(s[1..], keep));
      }
    }
  }

  /** Filtering with a test that accepts everything present changes nothing. */
  lemma {:induction false} FilterAll<T(!new)>(s: seq<T>, keep: T -> bool)
    requires forall i :: 0 <= i < |s| ==> keep(s[i])
    ensures Filter(s, keep) == s
  {
    if s != [] {
      FilterAll(s[1..], keep);
      assert s == [s[0]] + s[1..];
    }
  }

  /** Filtering distributes over appending one element at the end. */
  lemma {:induction false} FilterSnoc<T(!new)>(s: seq<T>, x: T, keep: T -> bool)
    ensures Filter(s + [x], keep) == Filter(s, keep) + (if keep(x) then [x] else [])
  {
    if s == [] {
      assert [] + [x] == [x];
      assert [x][1..] == [];
    } else {
      var head := if keep(s[0]) then [s[0]] else [];
      FilterSnoc(s[1..], x, keep);
      assert (s + [x])[1..] == s[1..] + [x];
      assert Filter(s + [x], keep) == head + Filter(s[1..] + [x], keep);
      assert Filter(s, keep) == head + Filter(s[1..], keep);
    }
  }

  /** `r` is `s` with every `x` removed: the other elements keep their order and
      their number of occurrences. */
  ghost predicate RemovedFrom<T(!new)>(r: seq<T>, s: seq<T>, x: T) {
    && x !in r
    && (forall y :: y != x ==> (y in r <==> y in s))
    && IsSubsequence(r, s)
    && (forall y :: y != x ==> multiset(r)[y] == multiset(s)[y])
  }

  /** The element `x` removed everywhere: `ids.filter(id => id !== x)`. */
  function Without<T(==,!new)>(s: seq<T>, x: T): (r: seq<T>)
    ensures x !in r
    ensures forall y :: y != x ==> (y in r <==> y in s)
    ensures NoDup(s) ==> NoDup(r)
    ensures x !in s ==> r == s
    ensures IsSubsequence(r, s)
    ensures forall y :: y != x ==> multiset(r)[y] == multiset(s)[y]
  {
    var keep := y => y != x;
    FilterIsSubsequence(s, keep);
    assert forall y :: y != x ==> multiset(Filter(s, keep))[y] == multiset(s)[y] by {
      forall y | y != x ensures multiset(Filter(s, keep))[y] == multiset(s)[y] {
        FilterCounts(s, keep, y);
      }
    }
    assert NoDup(s) ==> NoDup(Filter(s, keep)) by {
      if NoDup(s) { FilterNoDup(s, keep); }
    }
    assert x !in s ==> Filter(s, keep) == s by {
      if x !in s { FilterAll(s, keep); }
    }
    Filter(s, keep)
  }
}
