/** Tables are sequences of rows in storage order. These are the queries the services run on
    them: find the first match, filter, fold a column, and sort. A query is given by a named
    function that returns its row predicate or column. */
module Sequences {

  // ---- find the first match ----

  /** The index of the first element satisfying `p`, or `|s|` when there is none. */
  function IndexWhere<T>(p: T -> bool, s: seq<T>): (i: nat)
    ensures i <= |s|
    ensures i < |s| ==> p(s[i])
  {
    if s == [] || p(s[0]) then 0 else 1 + IndexWhere(p, s[1..])
  }

  lemma {:induction false} IndexWhereFirst<T>(p: T -> bool, s: seq<T>)
    ensures forall j :: 0 <= j < IndexWhere(p, s) ==> !p(s[j])
  {
    if s != [] && !p(s[0]) {
      IndexWhereFirst(p, s[1..]);
      assert forall j :: 1 <= j < |s| ==> s[j] == s[1..][j - 1];
    }
  }

  lemma {:induction false} IndexWhereUnique<T>(p: T -> bool, s: seq<T>, i: nat)
    requires i < |s| && p(s[i])
    requires forall j :: 0 <= j < |s| && j != i ==> !p(s[j])
    ensures IndexWhere(p, s) == i
  {
    IndexWhereFirst(p, s);
  }

  lemma {:induction false} IndexWhereNone<T>(p: T -> bool, s: seq<T>)
    requires forall j :: 0 <= j < |s| ==> !p(s[j])
    ensures IndexWhere(p, s) == |s|
  {
  }

  lemma {:induction false} IndexWhereAppend<T>(p: T -> bool, s: seq<T>, x: T)
    ensures IndexWhere(p, s) < |s| ==> IndexWhere(p, s + [x]) == IndexWhere(p, s)
    ensures IndexWhere(p, s) == |s| ==> IndexWhere(p, s + [x]) == if p(x) then |s| else |s| + 1
  {
    var i, k := IndexWhere(p, s), IndexWhere(p, s + [x]);
    IndexWhereFirst(p, s);
    IndexWhereFirst(p, s + [x]);
    assert forall j :: 0 <= j < |s| ==> (s + [x])[j] == s[j];
    assert (s + [x])[|s|] == x;
    if i < |s| {
      assert p((s + [x])[i]);
    }
  }

  lemma {:induction false} IndexWhereUpdate<T>(p: T -> bool, s: seq<T>, i: nat, x: T)
    requires i < |s| && p(x) == p(s[i])
    ensures IndexWhere(p, s[i := x]) == IndexWhere(p, s)
  {
    var u := s[i := x];
    assert forall j :: 0 <= j < |s| ==> p(u[j]) == p(s[j]);
    var a, b := IndexWhere(p, s), IndexWhere(p, u);
    IndexWhereFirst(p, s);
    IndexWhereFirst(p, u);
    assert a < |s| ==> p(u[a]);
    assert b < |s| ==> p(s[b]);
  }

  // ---- filter ----

  function Keep<T>(p: T -> bool, s: seq<T>): (r: seq<T>)
    ensures |r| <= |s|
  {
    if s == [] then [] else if p(s[0]) then [s[0]] + Keep(p, s[1..]) else Keep(p, s[1..])
  }

  lemma {:induction false} KeepCons<T>(p: T -> bool, x: T, s: seq<T>)
    ensures Keep(p, [x] + s) == if p(x) then [x] + Keep(p, s) else Keep(p, s)
  {
  }

  lemma {:induction false} KeepMember<T>(p: T -> bool, s: seq<T>, x: T)
    ensures x in Keep(p, s) <==> x in s && p(x)
  {
    if s == [] {
    } else {
      KeepMember(p, s[1..], x);
      assert s == [s[0]] + s[1..];
    }
  }

  lemma {:induction false} KeepAppend<T>(p: T -> bool, a: seq<T>, b: seq<T>)
    ensures Keep(p, a + b) == Keep(p, a) + Keep(p, b)
  {
    if a == [] {
      assert a + b == b;
    } else {
      var whole, rest := a + b, a[1..];
      assert whole[0] == a[0] && whole[1..] == rest + b;
      KeepAppend(p, rest, b);
      if p(a[0]) {
        calc {
          Keep(p, whole);
          [a[0]] + Keep(p, whole[1..]);
          [a[0]] + (Keep(p, rest) + Keep(p, b));
          ([a[0]] + Keep(p, rest)) + Keep(p, b);
          Keep(p, a) + Keep(p, b);
        }
      } else {
        assert Keep(p, whole) == Keep(p, whole[1..]);
      }
    }
  }

  lemma {:induction false} KeepAll<T>(p: T -> bool, s: seq<T>)
    requires forall x :: x in s ==> p(x)
    ensures Keep(p, s) == s
  {
    if s == [] {
    } else {
      KeepAll(p, s[1..]);
    }
  }

  lemma {:induction false} KeepNone<T>(p: T -> bool, s: seq<T>)
    requires forall x :: x in s ==> !p(x)
    ensures Keep(p, s) == []
  {
    if s == [] {
    } else {
      KeepNone(p, s[1..]);
    }
  }

  lemma {:induction false} KeepSame<T>(p: T -> bool, q: T -> bool, s: seq<T>)
    requires forall x :: x in s ==> p(x) == q(x)
    ensures Keep(p, s) == Keep(q, s)
  {
    if s == [] {
    } else {
      KeepSame(p, q, s[1..]);
    }
  }

  lemma {:induction false} KeepMultiset<T>(p: T -> bool, s: seq<T>, x: T)
    ensures multiset(Keep(p, s))[x] == if p(x) then multiset(s)[x] else 0
  {
    if s == [] {
    } else {
      KeepMultiset(p, s[1..], x);
      assert s == [s[0]] + s[1..];
    }
  }

  // ---- fold a column ----

  function SumBy<T>(f: T -> int, s: seq<T>): int {
    if s == [] then 0 else f(s[0]) + SumBy(f, s[1..])
  }

  lemma {:induction false} SumByAppend<T>(f: T -> int, a: seq<T>, b: seq<T>)
    ensures SumBy(f, a + b) == SumBy(f, a) + SumBy(f, b)
  {
    if a == [] {
      assert a + b == b;
    } else {
      SumByAppend(f, a[1..], b);
      assert a + b == [a[0]] + (a[1..] + b);
    }
  }

  lemma {:induction false} SumByAdd<T>(f: T -> int, s: seq<T>, x: T)
    ensures SumBy(f, s + [x]) == SumBy(f, s) + f(x)
  {
    SumByAppend(f, s, [x]);
    assert SumBy(f, [x]) == f(x) + SumBy(f, []);
  }

  lemma {:induction false} SumByUpdate<T>(f: T -> int, s: seq<T>, i: nat, x: T)
    requires i < |s|
    ensures SumBy(f, s[i := x]) == SumBy(f, s) - f(s[i]) + f(x)
  {
    if i == 0 {
      assert s[i := x] == [x] + s[1..];
    } else {
      SumByUpdate(f, s[1..], i - 1, x);
      assert s[i := x] == [s[0]] + s[1..][i - 1 := x];
    }
  }

  lemma {:induction false} SumBySame<T>(f: T -> int, g: T -> int, s: seq<T>)
    requires forall x :: x in s ==> f(x) == g(x)
    ensures SumBy(f, s) == SumBy(g, s)
  {
    if s == [] {
    } else {
      SumBySame(f, g, s[1..]);
    }
  }

  lemma {:induction false} SumByZero<T>(f: T -> int, s: seq<T>)
    requires forall x :: x in s ==> f(x) == 0
    ensures SumBy(f, s) == 0
  {
    if s == [] {
    } else {
      SumByZero(f, s[1..]);
    }
  }

  lemma {:induction false} SumByNonNegative<T>(f: T -> int, s: seq<T>)
    requires forall x :: x in s ==> 0 <= f(x)
    ensures 0 <= SumBy(f, s)
    ensures forall x :: x in s ==> f(x) <= SumBy(f, s)
  {
    if s == [] {
    } else {
      SumByNonNegative(f, s[1..]);
    }
  }
}
