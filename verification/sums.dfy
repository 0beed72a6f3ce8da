// Totals over sequences. Every conservation result of the project is a statement
// that such a total does not move, so the few laws that say how a total moves
// when a row is added, removed or replaced live here.
module Sums {

  function Sum<T>(f: T -> int, s: seq<T>): int {
    if s == [] then 0 else f(s[0]) + Sum(f, s[1..])
  }

  /** The rows of s that satisfy keep, in order. */
  function Filter<T>(keep: T -> bool, s: seq<T>): (r: seq<T>)
    ensures |r| <= |s|
  {
    if s == [] then []
    else (if keep(s[0]) then [s[0]] else []) + Filter(keep, s[1..])
  }

  /** The position of the first row that matches, or |s|. */
  function FirstWhere<T>(wanted: T -> bool, s: seq<T>): (i: nat)
    ensures i <= |s|
    ensures i < |s| ==> wanted(s[i])
    ensures forall j :: 0 <= j < i ==> !wanted(s[j])
  {
    if s == [] || wanted(s[0]) then 0 else 1 + FirstWhere(wanted, s[1..])
  }

  lemma FirstIs<T>(wanted: T -> bool, s: seq<T>, i: nat)
    requires i <= |s| && (i < |s| ==> wanted(s[i]))
    requires forall j :: 0 <= j < i ==> !wanted(s[j])
    ensures FirstWhere(wanted, s) == i
  {
  }

  lemma {:induction false} SumConcat<T>(f: T -> int, s: seq<T>, t: seq<T>)
    ensures Sum(f, s + t) == Sum(f, s) + Sum(f, t)
  {
    if s == [] {
      assert s + t == t;
    } else {
      assert (s + t)[1..] == s[1..] + t;
      SumConcat(f, s[1..], t);
    }
  }

  lemma SumAppend<T>(f: T -> int, s: seq<T>, x: T)
    ensures Sum(f, s + [x]) == Sum(f, s) + f(x)
  {
    SumConcat(f, s, [x]);
    assert [x][1..] == [];
  }

  lemma SumRemove<T>(f: T -> int, s: seq<T>, i: nat)
    requires i < |s|
    ensures Sum(f, s[..i] + s[i + 1..]) == Sum(f, s) - f(s[i])
  {
    assert s == s[..i] + s[i..];
    SumConcat(f, s[..i], s[i..]);
    assert s[i..][1..] == s[i + 1..];
    SumConcat(f, s[..i], s[i + 1..]);
  }

  lemma SumUpdate<T>(f: T -> int, s: seq<T>, i: nat, x: T)
    requires i < |s|
    ensures Sum(f, s[i := x]) == Sum(f, s) - f(s[i]) + f(x)
  {
    var t := s[i := x];
    SumRemove(f, s, i);
    SumRemove(f, t, i);
    assert s[..i] + s[i + 1..] == t[..i] + t[i + 1..];
  }

  lemma {:induction false} SumFilter<T>(f: T -> int, keep: T -> bool, s: seq<T>)
    requires forall x :: x in s && !keep(x) ==> f(x) == 0
    ensures Sum(f, Filter(keep, s)) == Sum(f, s)
  {
    if s == [] {
    } else {
      assert forall x :: x in s[1..] ==> x in s;
      SumFilter(f, keep, s[1..]);
      SumConcat(f, if keep(s[0]) then [s[0]] else [], Filter(keep, s[1..]));
      assert [s[0]][1..] == [];
    }
  }

  lemma {:induction false} SumBounds<T>(f: T -> int, s: seq<T>, i: nat)
    requires i < |s|
    requires forall x :: x in s ==> 0 <= f(x)
    ensures 0 <= f(s[i]) <= Sum(f, s)
  {
    SumNonNegative(f, s[1..]);
    if i > 0 {
      assert forall x :: x in s[1..] ==> x in s;
      SumBounds(f, s[1..], i - 1);
    }
  }

  lemma {:induction false} SumNonNegative<T>(f: T -> int, s: seq<T>)
    requires forall x :: x in s ==> 0 <= f(x)
    ensures 0 <= Sum(f, s)
  {
    if s == [] {
    } else {
      assert forall x :: x in s[1..] ==> x in s;
      SumNonNegative(f, s[1..]);
    }
  }

  lemma {:induction false} SumEqual<T>(f: T -> int, g: T -> int, s: seq<T>)
    requires forall x :: x in s ==> f(x) == g(x)
    ensures Sum(f, s) == Sum(g, s)
  {
    if s == [] {
    } else {
      assert forall x :: x in s[1..] ==> x in s;
      SumEqual(f, g, s[1..]);
    }
  }

  /** A positive total has a row that contributes to it. */
  lemma {:induction false} SumPositive<T>(f: T -> int, s: seq<T>) returns (i: nat)
    requires forall x :: x in s ==> 0 <= f(x)
    requires Sum(f, s) > 0
    ensures i < |s| && f(s[i]) > 0
  {
    if f(s[0]) > 0 {
      i := 0;
    } else {
      assert forall x :: x in s[1..] ==> x in s;
      var k := SumPositive(f, s[1..]);
      i := k + 1;
    }
  }

  /** Exactly the rows of s that satisfy keep are kept. */
  lemma {:induction false} FilterMembers<T>(keep: T -> bool, s: seq<T>)
    ensures forall x :: x in Filter(keep, s) ==> x in s && keep(x)
    ensures forall x :: x in s && keep(x) ==> x in Filter(keep, s)
  {
    if s == [] {
    } else {
      FilterMembers(keep, s[1..]);
      assert forall x :: x in s <==> x == s[0] || x in s[1..];
    }
  }

  lemma {:induction false} FilterConcat<T>(keep: T -> bool, s: seq<T>, t: seq<T>)
    ensures Filter(keep, s + t) == Filter(keep, s) + Filter(keep, t)
  {
    if s == [] {
      assert s + t == t;
    } else {
      var head := if keep(s[0]) then [s[0]] else [];
      FilterConcat(keep, s[1..], t);
      calc {
        Filter(keep, s + t);
        { assert (s + t)[0] == s[0] && (s + t)[1..] == s[1..] + t; }
        head + Filter(keep, s[1..] + t);
        head + (Filter(keep, s[1..]) + Filter(keep, t));
        (head + Filter(keep, s[1..])) + Filter(keep, t);
        Filter(keep, s) + Filter(keep, t);
      }
    }
  }

  lemma {:induction false} FilterEqual<T>(keep: T -> bool, other: T -> bool, s: seq<T>)
    requires forall x :: x in s ==> keep(x) == other(x)
    ensures Filter(keep, s) == Filter(other, s)
  {
    if s == [] {
    } else {
      assert forall x :: x in s[1..] ==> x in s;
      FilterEqual(keep, other, s[1..]);
    }
  }

  lemma {:induction false} FilterAll<T>(keep: T -> bool, s: seq<T>)
    requires forall x :: x in s ==> keep(x)
    ensures Filter(keep, s) == s
  {
    if s == [] {
    } else {
      assert forall x :: x in s[1..] ==> x in s;
      FilterAll(keep, s[1..]);
    }
  }

  lemma FilterAround<T>(keep: T -> bool, front: seq<T>, x: T, back: seq<T>)
    requires !keep(x)
    requires (forall y :: y in front ==> keep(y)) && (forall y :: y in back ==> keep(y))
    ensures Filter(keep, front + ([x] + back)) == front + back
  {
    var rest := [x] + back;
    FilterConcat(keep, front, rest);
    FilterAll(keep, front);
    FilterAll(keep, back);
    assert Filter(keep, rest) == back by {
      assert rest[0] == x && rest[1..] == back;
    }
  }

  lemma MultisetHead<T>(s: seq<T>)
    requires s != []
    ensures multiset(s) == multiset(s[1..]) + multiset{s[0]}
  {
    assert s == [s[0]] + s[1..];
  }

  lemma MultisetWithout<T>(s: seq<T>, k: nat)
    requires k < |s|
    ensures multiset(s) == multiset(s[..k] + s[k + 1..]) + multiset{s[k]}
    ensures multiset(s[..k] + s[k + 1..]) == multiset(s) - multiset{s[k]}
  {
    assert s == s[..k] + [s[k]] + s[k + 1..];
  }

  /** Taking out a row that is filtered out anyway changes nothing. */
  lemma {:induction false} FilterWithout<T>(keep: T -> bool, s: seq<T>, k: nat)
    requires k < |s| && !keep(s[k])
    ensures Filter(keep, s[..k] + s[k + 1..]) == Filter(keep, s)
  {
    var t := s[..k] + s[k + 1..];
    if k == 0 {
      assert t == s[1..];
    } else {
      FilterWithout(keep, s[1..], k - 1);
      assert t[0] == s[0] && t[1..] == s[1..][..k - 1] + s[1..][k..];
    }
  }

  /** Filtering on what exactly one row fails takes out that row. */
  lemma FilterOneOut<T>(keep: T -> bool, s: seq<T>, i: nat)
    requires i < |s| && !keep(s[i])
    requires forall j :: 0 <= j < |s| && j != i ==> keep(s[j])
    ensures Filter(keep, s) == s[..i] + s[i + 1..]
  {
    var front, back := s[..i], s[i + 1..];
    assert s == front + ([s[i]] + back);
    forall y | y in front || y in back
      ensures keep(y)
    {
      var j :| 0 <= j < |s| && j != i && s[j] == y;
    }
    FilterAround(keep, front, s[i], back);
  }
}
