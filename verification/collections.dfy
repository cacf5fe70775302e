/**
 * JavaScript's `Array.prototype.filter` on immutable sequences, and the
 * facts about it that both screens rely on: it keeps order, it keeps
 * exactly the elements that pass, and filtering by a predicate and by its
 * negation splits a sequence into two parts that together are a
 * permutation of it.
 */
module Collections {

  /** `s.filter(p)` */
  function Filter<T>(s: seq<T>, p: T -> bool): (r: seq<T>)
    ensures |r| <= |s|
    ensures forall x :: x in r ==> x in s && p(x)
  {
    if s == [] then []
    else (if p(s[0]) then [s[0]] else []) + Filter(s[1..], p)
  }

  /** `t` is `s` with some elements dropped, the rest kept in order. */
  ghost predicate SubsequenceOf<T>(t: seq<T>, s: seq<T>)
  {
    if t == [] then true
    else if s == [] then false
    else if t[0] == s[0] then SubsequenceOf(t[1..], s[1..])
    else SubsequenceOf(t, s[1..])
  }

  lemma {:induction false} FilterAppend<T>(a: seq<T>, b: seq<T>, p: T -> bool)
    ensures Filter(a + b, p) == Filter(a, p) + Filter(b, p)
  {
    if a != [] {
      var head := if p(a[0]) then [a[0]] else [];
      assert (a + b)[0] == a[0];
      assert (a + b)[1..] == a[1..] + b;
      FilterAppend(a[1..], b, p);
      calc {
        Filter(a + b, p);
        head + Filter(a[1..] + b, p);
        head + (Filter(a[1..], p) + Filter(b, p));
        (head + Filter(a[1..], p)) + Filter(b, p);
        Filter(a, p) + Filter(b, p);
      }
    } else {
      assert a + b == b;
    }
  }

  /** Filtering keeps everything when everything passes. */
  lemma {:induction false} FilterAll<T>(s: seq<T>, p: T -> bool)
    requires forall x :: x in s ==> p(x)
    ensures Filter(s, p) == s
  {
    if s != [] {
      assert s[0] in s;
      assert forall x :: x in s[1..] ==> x in s;
      FilterAll(s[1..], p);
    }
  }

  lemma FilterIdempotent<T>(s: seq<T>, p: T -> bool)
    ensures Filter(Filter(s, p), p) == Filter(s, p)
  {
    FilterAll(Filter(s, p), p);
  }

  /** Each value occurs in the filtered sequence as often as in the input
      when it passes, and not at all otherwise. */
  lemma {:induction false} FilterCount<T>(s: seq<T>, p: T -> bool, x: T)
    ensures multiset(Filter(s, p))[x] == if p(x) then multiset(s)[x] else 0
  {
    if s != [] {
      FilterCount(s[1..], p, x);
      assert s == [s[0]] + s[1..];
    }
  }

  lemma {:induction false} FilterSubsequence<T>(s: seq<T>, p: T -> bool)
    ensures SubsequenceOf(Filter(s, p), s)
  {
    if s != [] {
      FilterSubsequence(s[1..], p);
      var rest := Filter(s[1..], p);
      if p(s[0]) {
        assert Filter(s, p)[1..] == rest;
      } else {
        assert Filter(s, p) == rest;
        if rest != [] {
          assert rest[0] in rest;
          assert rest[0] != s[0];
        }
      }
    }
  }

  /** Filtering by `p` and by its negation splits `s`: the two parts together
      are a permutation of `s`, so their lengths add up to `|s|`. */
  lemma {:induction false} FilterPartition<T>(s: seq<T>, p: T -> bool, q: T -> bool)
    requires forall x :: q(x) == !p(x)
    ensures multiset(Filter(s, p)) + multiset(Filter(s, q)) == multiset(s)
    ensures |Filter(s, p)| + |Filter(s, q)| == |s|
  {
    if s != [] {
      FilterPartition(s[1..], p, q);
      assert s == [s[0]] + s[1..];
    }
  }

  /** The predicate `x => idOf(x) !== id` of a delete-by-id filter. */
  function Differs<T>(idOf: T -> string, id: string): T -> bool {
    x => idOf(x) != id
  }

  /** `s.filter(x => x.id !== id)`, with `idOf` reading the id. */
  function RemoveId<T>(s: seq<T>, idOf: T -> string, id: string): (r: seq<T>)
    ensures forall x :: x in r ==> x in s && idOf(x) != id
  {
    Filter(s, Differs(idOf, id))
  }

  /** Removing by id drops every element with that id, keeps every other
      element as often as it occurred and in the same order, changes nothing
      when the id is absent, and removing twice is removing once. */
  lemma RemoveIdSpec<T>(s: seq<T>, idOf: T -> string, id: string)
    ensures forall x :: multiset(RemoveId(s, idOf, id))[x] ==
                        (if idOf(x) == id then 0 else multiset(s)[x])
    ensures SubsequenceOf(RemoveId(s, idOf, id), s)
    ensures (forall x :: x in s ==> idOf(x) != id) ==> RemoveId(s, idOf, id) == s
    ensures RemoveId(RemoveId(s, idOf, id), idOf, id) == RemoveId(s, idOf, id)
  {
    var p := Differs(idOf, id);
    forall x ensures multiset(RemoveId(s, idOf, id))[x] ==
      if idOf(x) == id then 0 else multiset(s)[x]
    {
      FilterCount(s, p, x);
    }
    FilterSubsequence(s, p);
    if forall x :: x in s ==> idOf(x) != id {
      FilterAll(s, p);
    }
    FilterIdempotent(s, p);
  }

  /** Removing the id of an element just appended, when no earlier element
      has that id, gives back the sequence before the append. */
  lemma RemoveIdUndoesAppend<T>(s: seq<T>, x: T, idOf: T -> string)
    requires forall y :: y in s ==> idOf(y) != idOf(x)
    ensures RemoveId(s + [x], idOf, idOf(x)) == s
  {
    var p := Differs(idOf, idOf(x));
    FilterAppend(s, [x], p);
    FilterAll(s, p);
    assert Filter([x], p) == [];
  }
}
