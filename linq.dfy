/** The query operators the store's code is written with (Where, Count, Any,
    FirstOrDefault, SingleOrDefault), as pure functions over sequences.
    A table of the store is a sequence in insertion order. */
module Linq {

  datatype Option<T> = None | Some(value: T)

  datatype Result<T, E> = Ok(value: T) | Err(error: E)

  /** What SingleOrDefault finds: no match, exactly one match (at `index`),
      or more than one match (the operator then throws). */
  datatype Single = NoMatch | One(index: nat) | Many

  /** Where: the elements that satisfy `p`, in their original order. */
  function Where<T(!new)>(s: seq<T>, p: T -> bool): (r: seq<T>)
    ensures |r| <= |s|
    ensures forall x :: x in r <==> x in s && p(x)
  {
    if s == [] then []
    else if p(s[0]) then [s[0]] + Where(s[1..], p)
    else Where(s[1..], p)
  }

  /** Select: `f` applied to every element, in order. */
  function Select<T, U>(s: seq<T>, f: T -> U): (r: seq<U>)
    ensures |r| == |s| && forall i :: 0 <= i < |s| ==> r[i] == f(s[i])
  {
    seq(|s|, i requires 0 <= i < |s| => f(s[i]))
  }

  /** Count(p): how many elements satisfy `p`. */
  function Count<T>(s: seq<T>, p: T -> bool): (n: nat)
    ensures n <= |s|
  {
    if s == [] then 0 else (if p(s[0]) then 1 else 0) + Count(s[1..], p)
  }

  /** A count is zero exactly when no element satisfies the predicate. */
  lemma {:induction false} CountZeroIff<T>(s: seq<T>, p: T -> bool)
    ensures Count(s, p) == 0 <==> forall i :: 0 <= i < |s| ==> !p(s[i])
  {
    if s != [] {
      CountZeroIff(s[1..], p);
      assert forall i :: 1 <= i < |s| ==> s[i] == s[1..][i - 1];
    }
  }

  /** Counting over a concatenation adds the counts. */
  lemma {:induction false} CountAppend<T>(s: seq<T>, t: seq<T>, p: T -> bool)
    ensures Count(s + t, p) == Count(s, p) + Count(t, p)
  {
    if s == [] {
      assert s + t == t;
    } else {
      assert (s + t)[1..] == s[1..] + t;
      CountAppend(s[1..], t, p);
    }
  }

  /** FirstOrDefault(p): the index of the first element satisfying `p`, if any. */
  function FirstOrDefault<T>(s: seq<T>, p: T -> bool): (r: Option<nat>)
    ensures r.None? <==> forall i :: 0 <= i < |s| ==> !p(s[i])
    ensures r.Some? ==> r.value < |s| && p(s[r.value]) &&
                        forall j :: 0 <= j < r.value ==> !p(s[j])
  {
    if s == [] then None
    else if p(s[0]) then Some(0)
    else match FirstOrDefault(s[1..], p)
      case None => None
      case Some(k) => Some(k + 1)
  }

  /** SingleOrDefault(p): characterised by how many elements satisfy `p`. */
  function SingleOrDefault<T>(s: seq<T>, p: T -> bool): (r: Single)
    ensures r.NoMatch? <==> forall i :: 0 <= i < |s| ==> !p(s[i])
    ensures r.One? ==> r.index < |s| && p(s[r.index]) &&
                       forall j :: 0 <= j < |s| && j != r.index ==> !p(s[j])
    ensures r.Many? ==> exists i, j :: 0 <= i < j < |s| && p(s[i]) && p(s[j])
  {
    if s == [] then NoMatch
    else
      var rest := SingleOrDefault(s[1..], p);
      if p(s[0]) then
        (match rest
          case NoMatch => One(0)
          case One(k) => assert p(s[k + 1]); Many
          case Many => Many)
      else
        (match rest
          case NoMatch => NoMatch
          case One(k) => One(k + 1)
          case Many => Many)
  }

  /** FirstOrDefault depends only on which elements satisfy the predicate. */
  lemma FirstOrDefaultAgrees<T>(s: seq<T>, p: T -> bool, q: T -> bool)
    requires forall i :: 0 <= i < |s| ==> p(s[i]) == q(s[i])
    ensures FirstOrDefault(s, p) == FirstOrDefault(s, q)
  {
  }

  /** The values of a Select are exactly the images of the elements. */
  lemma SelectMembers<T, U>(s: seq<T>, f: T -> U)
    ensures forall y :: y in Select(s, f) <==> exists x :: x in s && y == f(x)
  {
    var r := Select(s, f);
    forall y | y in r ensures exists x :: x in s && y == f(x) {
      var i :| 0 <= i < |r| && r[i] == y;
      assert s[i] in s;
    }
    forall x | x in s ensures f(x) in r {
      var i :| 0 <= i < |s| && s[i] == x;
      assert r[i] == f(x);
    }
  }

  /** Two sequences with the same multiset have the same length and members. */
  lemma SameMultisetMembers<T>(r: seq<T>, s: seq<T>)
    requires multiset(r) == multiset(s)
    ensures |r| == |s|
    ensures forall x :: x in r <==> x in s
  {
    assert |multiset(r)| == |multiset(s)|;
    forall x ensures x in r <==> x in s {
      assert x in r <==> x in multiset(r);
      assert x in s <==> x in multiset(s);
    }
  }
}
