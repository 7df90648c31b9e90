/** Sums, filters and splices over sequences, shared by every state machine of the project. */
module Sequences {

  function Sum<T>(f: T -> int, s: seq<T>): int {
    if s == [] then 0 else Sum(f, s[..|s| - 1]) + f(s[|s| - 1])
  }

  lemma SumAppend<T>(f: T -> int, s: seq<T>, x: T)
    ensures Sum(f, s + [x]) == Sum(f, s) + f(x)
  {
    assert (s + [x])[..|s|] == s;
  }

  lemma SumShort<T>(f: T -> int, x: T, y: T)
    ensures Sum(f, []) == 0 && Sum(f, [x]) == f(x) && Sum(f, [x] + [y]) == f(x) + f(y)
  {
    SumAppend(f, [], x);
    assert [] + [x] == [x];
    SumAppend(f, [x], y);
  }

  lemma {:induction false} SumConcat<T>(f: T -> int, s: seq<T>, t: seq<T>)
    ensures Sum(f, s + t) == Sum(f, s) + Sum(f, t)
  {
    if t == [] {
      assert s + t == s;
    } else {
      var n := |t| - 1;
      assert s + t == (s + t[..n]) + [t[n]];
      SumAppend(f, s + t[..n], t[n]);
      SumConcat(f, s, t[..n]);
    }
  }

  lemma {:induction false} SumNonNegative<T>(f: T -> int, s: seq<T>)
    requires forall x :: x in s ==> f(x) >= 0
    ensures Sum(f, s) >= 0
    ensures forall x :: x in s ==> f(x) <= Sum(f, s)
  {
    if s != [] {
      SumNonNegative(f, s[..|s| - 1]);
    }
  }

  lemma {:induction false} SumNonPositive<T>(f: T -> int, s: seq<T>)
    requires forall x :: x in s ==> f(x) <= 0
    ensures Sum(f, s) <= 0
  {
    if s != [] {
      SumNonPositive(f, s[..|s| - 1]);
    }
  }

  lemma {:induction false} SumZero<T>(f: T -> int, s: seq<T>)
    requires forall x :: x in s ==> f(x) == 0
    ensures Sum(f, s) == 0
  {
    if s != [] {
      SumZero(f, s[..|s| - 1]);
    }
  }

  lemma {:induction false} SumAtMost<T>(f: T -> int, g: T -> int, s: seq<T>)
    requires forall x :: x in s ==> f(x) <= g(x)
    ensures Sum(f, s) <= Sum(g, s)
  {
    if s != [] {
      SumAtMost(f, g, s[..|s| - 1]);
    }
  }

  function Filter<T>(p: T -> bool, s: seq<T>): seq<T> {
    if s == [] then [] else
      Filter(p, s[..|s| - 1]) + if p(s[|s| - 1]) then [s[|s| - 1]] else []
  }

  lemma FilterAppend<T>(p: T -> bool, s: seq<T>, x: T)
    ensures Filter(p, s + [x]) == Filter(p, s) + if p(x) then [x] else []
  {
    assert (s + [x])[..|s|] == s;
  }

  lemma {:induction false} FilterConcat<T>(p: T -> bool, s: seq<T>, t: seq<T>)
    ensures Filter(p, s + t) == Filter(p, s) + Filter(p, t)
  {
    if t == [] {
      assert s + t == s;
    } else {
      var n := |t| - 1;
      assert s + t == (s + t[..n]) + [t[n]];
      FilterAppend(p, s + t[..n], t[n]);
      FilterConcat(p, s, t[..n]);
    }
  }

  lemma {:induction false} FilterMembers<T>(p: T -> bool, s: seq<T>, x: T)
    ensures x in Filter(p, s) <==> x in s && p(x)
  {
    if s != [] {
      FilterMembers(p, s[..|s| - 1], x);
      assert s == s[..|s| - 1] + [s[|s| - 1]];
    }
  }

  lemma {:induction false} FilterNone<T>(p: T -> bool, s: seq<T>)
    requires forall x :: x in s ==> !p(x)
    ensures Filter(p, s) == []
  {
    if s != [] {
      FilterNone(p, s[..|s| - 1]);
    }
  }

  /** `s` with its `i`-th element replaced by the sequence `ys`, which may be empty. */
  function Splice<T>(s: seq<T>, i: nat, ys: seq<T>): seq<T>
    requires i < |s|
  {
    s[..i] + ys + s[i + 1..]
  }

  lemma SpliceMembers<T>(s: seq<T>, i: nat, ys: seq<T>)
    requires i < |s|
    ensures forall x :: x in ys ==> x in Splice(s, i, ys)
    ensures forall x :: x in Splice(s, i, ys) ==> x in s || x in ys
    ensures forall x :: x in s && x != s[i] ==> x in Splice(s, i, ys)
  {
    forall x | x in ys ensures x in Splice(s, i, ys) {
      var k :| 0 <= k < |ys| && ys[k] == x;
      assert Splice(s, i, ys)[i + k] == x;
    }
    forall x | x in s && x != s[i] ensures x in Splice(s, i, ys) {
      var k :| 0 <= k < |s| && s[k] == x;
      if k < i {
        assert Splice(s, i, ys)[k] == x;
      } else {
        assert Splice(s, i, ys)[k - 1 + |ys|] == x;
      }
    }
  }

  lemma SumSplice<T>(f: T -> int, s: seq<T>, i: nat, ys: seq<T>)
    requires i < |s|
    ensures Sum(f, Splice(s, i, ys)) == Sum(f, s) - f(s[i]) + Sum(f, ys)
  {
    assert s == s[..i] + [s[i]] + s[i + 1..];
    SumConcat(f, s[..i] + [s[i]], s[i + 1..]);
    SumAppend(f, s[..i], s[i]);
    SumConcat(f, s[..i] + ys, s[i + 1..]);
    SumConcat(f, s[..i], ys);
  }

  /** The sum over a sequence of at most two. */
  function Few<T>(f: T -> int, items: seq<T>): int
    requires |items| <= 2
  {
    (if |items| > 0 then f(items[0]) else 0) + (if |items| > 1 then f(items[1]) else 0)
  }

  lemma SumPut<T>(f: T -> int, s: seq<T>, i: nat, items: seq<T>)
    requires i < |s| && |items| <= 2
    ensures Sum(f, Splice(s, i, items)) == Sum(f, s) - f(s[i]) + Few(f, items)
  {
    SumSplice(f, s, i, items);
    SumFew(f, items);
  }

  lemma SumFew<T>(f: T -> int, items: seq<T>)
    requires |items| <= 2
    ensures Sum(f, items) == Few(f, items)
  {
    if |items| == 1 {
      SumShort(f, items[0], items[0]);
      assert items == [items[0]];
    } else if |items| == 2 {
      SumShort(f, items[0], items[1]);
      assert items == [items[0]] + [items[1]];
    }
  }

  lemma FilterSplice<T>(p: T -> bool, s: seq<T>, i: nat, ys: seq<T>)
    requires i < |s|
    ensures Filter(p, s) ==
      Filter(p, s[..i]) + (if p(s[i]) then [s[i]] else []) + Filter(p, s[i + 1..])
    ensures Filter(p, Splice(s, i, ys)) ==
      Filter(p, s[..i]) + Filter(p, ys) + Filter(p, s[i + 1..])
  {
    assert s == s[..i] + [s[i]] + s[i + 1..];
    FilterConcat(p, s[..i] + [s[i]], s[i + 1..]);
    FilterAppend(p, s[..i], s[i]);
    FilterConcat(p, s[..i] + ys, s[i + 1..]);
    FilterConcat(p, s[..i], ys);
  }
}
