/** The JavaScript array operations the stores use (`find`, `findIndex`,
    `filter`), over a sequence of records whose identifier is given by `key`.
    Identifiers are compared as `record.id === parseInt(id)`: the caller's id
    is the result of `parseInt`, with `None` standing for NaN, which is equal
    to nothing. */
module Collections {
  import opened Remote

  /** `stored === parseInt(id)` */
  predicate SameId(stored: int, id: Option<int>) {
    id == Some(stored)
  }

  /** `r` is `s` with some elements dropped and the rest in their original order. */
  ghost predicate Subsequence<T>(r: seq<T>, s: seq<T>)
    decreases |s|
  {
    r == [] || (s != [] && ((r[0] == s[0] && Subsequence(r[1..], s[1..])) || Subsequence(r, s[1..])))
  }

  /** `Array.prototype.findIndex`: the first index whose record has the id, or -1. */
  function FindIndex<T>(s: seq<T>, key: T -> int, id: Option<int>): (i: int)
    ensures -1 <= i < |s|
    ensures i == -1 <==> forall j :: 0 <= j < |s| ==> !SameId(key(s[j]), id)
    ensures 0 <= i ==> SameId(key(s[i]), id) && forall j :: 0 <= j < i ==> !SameId(key(s[j]), id)
  {
    if s == [] then -1
    else if SameId(key(s[0]), id) then 0
    else
      var k := FindIndex(s[1..], key, id);
      if k == -1 then -1 else k + 1
  }

  /** `Array.prototype.find`: the first record with the id, if any. */
  function Find<T>(s: seq<T>, key: T -> int, id: Option<int>): (r: Option<T>)
    ensures r.None? <==> forall x :: x in s ==> !SameId(key(x), id)
    ensures r.Some? ==> exists i :: 0 <= i < |s| && s[i] == r.value && SameId(key(r.value), id) &&
                                    forall j :: 0 <= j < i ==> !SameId(key(s[j]), id)
  {
    var i := FindIndex(s, key, id);
    if i == -1 then None else Some(s[i])
  }

  /** `Array.prototype.filter`: the elements that satisfy `keep`, in order. */
  function Filter<T>(s: seq<T>, keep: T -> bool): (r: seq<T>)
    ensures |r| <= |s|
    ensures forall x :: x in r ==> x in s && keep(x)
    ensures forall x :: x in s && keep(x) ==> x in r
  {
    if s == [] then []
    else if keep(s[0]) then [s[0]] + Filter(s[1..], keep)
    else Filter(s[1..], keep)
  }

  /** The records whose id differs from `id`: `s.filter(x => x.id !== parseInt(id))`. */
  function Without<T>(s: seq<T>, key: T -> int, id: Option<int>): (r: seq<T>)
    ensures forall x :: x in r ==> x in s && !SameId(key(x), id)
    ensures forall x :: x in s && !SameId(key(x), id) ==> x in r
    ensures Subsequence(r, s)
  {
    FilterKeepsOrder(s, x => !SameId(key(x), id));
    Filter(s, x => !SameId(key(x), id))
  }

  /** The survivors of a filter keep their order in the input. */
  lemma {:induction false} FilterKeepsOrder<T>(s: seq<T>, keep: T -> bool)
    ensures Subsequence(Filter(s, keep), s)
  {
    if s != [] {
      FilterKeepsOrder(s[1..], keep);
      var r := Filter(s, keep);
      if keep(s[0]) {
        assert r[0] == s[0] && r[1..] == Filter(s[1..], keep);
      } else {
        assert r == Filter(s[1..], keep);
      }
    }
  }

  /** Filtering keeps every element that passes, with its multiplicity, and nothing else. */
  lemma {:induction false} FilterCounts<T>(s: seq<T>, keep: T -> bool, x: T)
    ensures multiset(Filter(s, keep))[x] == if keep(x) then multiset(s)[x] else 0
  {
    if s != [] {
      var rest := s[1..];
      FilterCounts(rest, keep, x);
      assert multiset(s) == multiset{s[0]} + multiset(rest) by {
        assert s == [s[0]] + rest;
      }
      if keep(s[0]) {
        assert Filter(s, keep) == [s[0]] + Filter(rest, keep);
      } else {
        assert Filter(s, keep) == Filter(rest, keep);
      }
    }
  }

  /** Filtering commutes with concatenation, so the order of the survivors is the input's order. */
  lemma {:induction false} FilterConcat<T>(a: seq<T>, b: seq<T>, keep: T -> bool)
    ensures Filter(a + b, keep) == Filter(a, keep) + Filter(b, keep)
  {
    if a != [] {
      FilterConcat(a[1..], b, keep);
      assert (a + b)[0] == a[0] && (a + b)[1..] == a[1..] + b;
      if keep(a[0]) {
        assert Filter(a + b, keep) == [a[0]] + Filter(a[1..] + b, keep);
      } else {
        assert Filter(a + b, keep) == Filter(a[1..] + b, keep);
      }
    } else {
      assert a + b == b;
    }
  }

  /** Filtering by `p` and by its negation splits `s` into two parts that together hold every element once. */
  lemma {:induction false} FilterComplement<T>(s: seq<T>, p: T -> bool, q: T -> bool)
    requires forall x :: q(x) == !p(x)
    ensures multiset(Filter(s, p)) + multiset(Filter(s, q)) == multiset(s)
  {
    if s != [] {
      var rest := s[1..];
      FilterComplement(rest, p, q);
      assert multiset(s) == multiset{s[0]} + multiset(rest) by {
        assert s == [s[0]] + rest;
      }
      if p(s[0]) {
        assert Filter(s, p) == [s[0]] + Filter(rest, p) && Filter(s, q) == Filter(rest, q);
      } else {
        assert Filter(s, p) == Filter(rest, p) && Filter(s, q) == [s[0]] + Filter(rest, q);
      }
    }
  }

  /** Filtering twice is filtering once by the conjunction. */
  lemma {:induction false} FilterFilter<T>(s: seq<T>, p: T -> bool, q: T -> bool, both: T -> bool)
    requires forall x :: both(x) == (p(x) && q(x))
    ensures Filter(Filter(s, p), q) == Filter(s, both)
  {
    if s != [] {
      FilterFilter(s[1..], p, q, both);
    }
  }

  /** Deleting an id that no record has (NaN included) leaves the records as they were. */
  lemma WithoutUnknownId<T>(s: seq<T>, key: T -> int, id: Option<int>)
    requires FindIndex(s, key, id) == -1
    ensures Without(s, key, id) == s
  {
    FilterKeepsAll(s, x => !SameId(key(x), id));
  }

  /** A filter that keeps everything changes nothing. */
  lemma {:induction false} FilterKeepsAll<T>(s: seq<T>, keep: T -> bool)
    requires forall x :: x in s ==> keep(x)
    ensures Filter(s, keep) == s
  {
    if s != [] {
      FilterKeepsAll(s[1..], keep);
    }
  }
}
