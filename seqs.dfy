/** List operations the scripts express as comprehensions or counting loops. */
module Seqs {

  /** `[x for x in s if keep(x)]`. */
  function Filter<T>(s: seq<T>, keep: T -> bool): (r: seq<T>)
    ensures |r| <= |s|
  {
    if s == [] then []
    else if keep(s[|s| - 1]) then Filter(s[..|s| - 1], keep) + [s[|s| - 1]]
    else Filter(s[..|s| - 1], keep)
  }

  /** The filtered list holds exactly the kept elements of `s`. */
  lemma {:induction false} FilterMembers<T>(s: seq<T>, keep: T -> bool)
    ensures forall x :: x in Filter(s, keep) <==> x in s && keep(x)
  {
    if s != [] {
      var init := s[..|s| - 1];
      FilterMembers(init, keep);
      assert s == init + [s[|s| - 1]];
    }
  }

  /** `sum(1 for x in s if p(x))`. */
  function Count<T>(s: seq<T>, p: T -> bool): (n: nat)
    ensures n <= |s|
  {
    if s == [] then 0 else Count(s[..|s| - 1], p) + (if p(s[|s| - 1]) then 1 else 0)
  }

  /** Counting is the length of the filtered list. */
  lemma {:induction false} CountIsFilterLength<T>(s: seq<T>, p: T -> bool)
    ensures Count(s, p) == |Filter(s, p)|
  {
    if s != [] {
      CountIsFilterLength(s[..|s| - 1], p);
    }
  }

  /** Concatenation of a list of lists. */
  function Flatten<T>(ss: seq<seq<T>>): seq<T> {
    if ss == [] then [] else Flatten(ss[..|ss| - 1]) + ss[|ss| - 1]
  }

  lemma FilterAppend<T>(s: seq<T>, x: T, keep: T -> bool)
    ensures Filter(s + [x], keep) == Filter(s, keep) + (if keep(x) then [x] else [])
  {
    assert (s + [x])[..|s|] == s;
  }

  /** Filtering one more element of `s`. */
  lemma FilterStep<T>(s: seq<T>, i: nat, keep: T -> bool)
    requires i < |s|
    ensures Filter(s[..i + 1], keep) == Filter(s[..i], keep) + (if keep(s[i]) then [s[i]] else [])
  {
    assert s[..i + 1] == s[..i] + [s[i]];
    FilterAppend(s[..i], s[i], keep);
  }

  lemma CountAppend<T>(s: seq<T>, x: T, p: T -> bool)
    ensures Count(s + [x], p) == Count(s, p) + (if p(x) then 1 else 0)
  {
    assert (s + [x])[..|s|] == s;
  }

  lemma FlattenAppend<T>(ss: seq<seq<T>>, t: seq<T>)
    ensures Flatten(ss + [t]) == Flatten(ss) + t
  {
    assert (ss + [t])[..|ss|] == ss;
  }

  lemma {:induction false} FlattenCons<T>(t: seq<T>, ss: seq<seq<T>>)
    ensures Flatten([t] + ss) == t + Flatten(ss)
  {
    if ss != [] {
      var init := ss[..|ss| - 1];
      var last := ss[|ss| - 1];
      assert [t] + ss == ([t] + init) + [last];
      FlattenAppend([t] + init, last);
      FlattenCons(t, init);
      FlattenAppend(init, last);
    } else {
      assert [t] + ss == [] + [t];
      FlattenAppend([], t);
    }
  }

  lemma {:induction false} FilterCons<T>(x: T, s: seq<T>, keep: T -> bool)
    ensures Filter([x] + s, keep) == (if keep(x) then [x] else []) + Filter(s, keep)
  {
    if s != [] {
      var init := s[..|s| - 1];
      var y := s[|s| - 1];
      assert [x] + s == ([x] + init) + [y];
      assert ([x] + s)[..|s|] == [x] + init;
      FilterCons(x, init, keep);
    }
  }

  /** Nothing is kept from a list none of whose elements is wanted. */
  lemma FilterNone<T>(s: seq<T>, keep: T -> bool)
    requires forall i :: 0 <= i < |s| ==> !keep(s[i])
    ensures Filter(s, keep) == []
  {
  }

  /** Counting two complementary properties accounts for every element once. */
  lemma {:induction false} CountSplit<T>(s: seq<T>, p: T -> bool, q: T -> bool)
    requires forall i :: 0 <= i < |s| ==> (p(s[i]) <==> !q(s[i]))
    ensures Count(s, p) + Count(s, q) == |s|
  {
    if s != [] {
      CountSplit(s[..|s| - 1], p, q);
    }
  }

  /** Counting is monotone in the property. */
  lemma {:induction false} CountMonotone<T>(s: seq<T>, p: T -> bool, q: T -> bool)
    requires forall i :: 0 <= i < |s| && p(s[i]) ==> q(s[i])
    ensures Count(s, p) <= Count(s, q)
  {
    if s != [] {
      CountMonotone(s[..|s| - 1], p, q);
    }
  }
}
