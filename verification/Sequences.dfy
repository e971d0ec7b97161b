/** Options, and the two sequence operations the post-processing pipeline is described with. */
module Sequences {

  datatype Option<+T> = None | Some(value: T)

  function Last<T>(s: seq<T>): T
    requires s != []
  {
    s[|s| - 1]
  }

  function Front<T>(s: seq<T>): seq<T>
    requires s != []
  {
    s[..|s| - 1]
  }

  /** The elements of `s` that satisfy `p`, in their order in `s`. */
  function Filter<T>(s: seq<T>, p: T -> bool): seq<T> {
    if s == [] then []
    else if p(Last(s)) then Filter(Front(s), p) + [Last(s)]
    else Filter(Front(s), p)
  }

  function Map<S, T>(s: seq<S>, f: S -> T): (r: seq<T>)
    ensures |r| == |s| && forall i :: 0 <= i < |s| ==> r[i] == f(s[i])
  {
    seq(|s|, i requires 0 <= i < |s| => f(s[i]))
  }

  lemma {:induction false} FilterMembers<T>(s: seq<T>, p: T -> bool)
    ensures forall x :: x in Filter(s, p) <==> x in s && p(x)
  {
    if s != [] {
      FilterMembers(Front(s), p);
      assert s == Front(s) + [Last(s)];
    }
  }

  lemma FilterSnoc<T>(s: seq<T>, x: T, p: T -> bool)
    ensures Filter(s + [x], p) == if p(x) then Filter(s, p) + [x] else Filter(s, p)
  {
    assert Front(s + [x]) == s;
  }

  lemma {:induction false} FilterCommutes<T>(s: seq<T>, p: T -> bool, q: T -> bool)
    ensures Filter(Filter(s, p), q) == Filter(Filter(s, q), p)
  {
    if s != [] {
      FilterCommutes(Front(s), p, q);
      FilterSnoc(Filter(Front(s), p), Last(s), q);
      FilterSnoc(Filter(Front(s), q), Last(s), p);
    }
  }

  lemma {:induction false} FilterAll<T>(s: seq<T>, p: T -> bool)
    requires forall x :: x in s ==> p(x)
    ensures Filter(s, p) == s
  {
    if s != [] {
      assert s == Front(s) + [Last(s)] && Last(s) in s;
      FilterAll(Front(s), p);
    }
  }

  /** Mapping commutes with filtering when the predicate cannot see the mapping. */
  lemma {:induction false} FilterMap<T>(s: seq<T>, f: T -> T, p: T -> bool)
    requires forall x :: x in s ==> p(f(x)) == p(x)
    ensures Filter(Map(s, f), p) == Map(Filter(s, p), f)
  {
    if s != [] {
      FilterMap(Front(s), f, p);
      assert Map(s, f) == Map(Front(s), f) + [f(Last(s))];
      FilterSnoc(Map(Front(s), f), f(Last(s)), p);
    }
  }

  /** The values present in `s`, in order. */
  function Somes<T>(s: seq<Option<T>>): seq<T> {
    if s == [] then []
    else
      match Last(s)
      case None => Somes(Front(s))
      case Some(x) => Somes(Front(s)) + [x]
  }

  lemma SomesSnoc<T>(s: seq<Option<T>>, x: Option<T>)
    ensures Somes(s + [x]) == if x.Some? then Somes(s) + [x.value] else Somes(s)
  {
    assert Front(s + [x]) == s;
  }

  lemma {:induction false} SomesFilter<T>(s: seq<Option<T>>, t: seq<Option<T>>, p: T -> bool)
    requires |s| == |t|
    requires forall i :: 0 <= i < |s| ==> t[i] == if s[i].Some? && p(s[i].value) then s[i] else None
    ensures Somes(t) == Filter(Somes(s), p)
  {
    if s != [] {
      SomesFilter(Front(s), Front(t), p);
      if Last(s).Some? {
        FilterSnoc(Somes(Front(s)), Last(s).value, p);
      }
    }
  }

  lemma {:induction false} SomesMap<T>(s: seq<Option<T>>, t: seq<Option<T>>, f: T -> T)
    requires |s| == |t|
    requires forall i :: 0 <= i < |s| ==> t[i] == if s[i].Some? then Some(f(s[i].value)) else None
    ensures Somes(t) == Map(Somes(s), f)
  {
    if s != [] {
      SomesMap(Front(s), Front(t), f);
    }
  }
}
