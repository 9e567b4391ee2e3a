/** JavaScript's `sort` with a numeric key: a stable sort, characterised without an algorithm. */
module Sorting {
  import opened Sequences

  ghost predicate Sorted<T>(key: T -> real, s: seq<T>) {
    forall i, j :: 0 <= i < j < |s| ==> key(s[i]) <= key(s[j])
  }

  function HasKey<T>(key: T -> real, k: real): T -> bool { (x: T) => key(x) == k }

  function Insert<T>(key: T -> real, x: T, s: seq<T>): seq<T> {
    if s == [] || key(x) <= key(s[0]) then [x] + s else [s[0]] + Insert(key, x, s[1..])
  }

  function Sort<T>(key: T -> real, s: seq<T>): seq<T> {
    if s == [] then [] else Insert(key, s[0], Sort(key, s[1..]))
  }

  lemma {:induction false} InsertMultiset<T>(key: T -> real, x: T, s: seq<T>)
    ensures multiset(Insert(key, x, s)) == multiset{x} + multiset(s)
  {
    if s == [] || key(x) <= key(s[0]) {
    } else {
      InsertMultiset(key, x, s[1..]);
      assert s == [s[0]] + s[1..];
    }
  }

  lemma {:induction false} InsertSorted<T>(key: T -> real, x: T, s: seq<T>)
    requires Sorted(key, s)
    ensures Sorted(key, Insert(key, x, s))
  {
    if s == [] || key(x) <= key(s[0]) {
    } else {
      var rest := s[1..];
      InsertSorted(key, x, rest);
      var r := Insert(key, x, rest);
      forall j | 0 <= j < |r| ensures key(s[0]) <= key(r[j]) {
        InsertMultiset(key, x, rest);
        assert r[j] in multiset(r);
        assert r[j] == x || r[j] in rest;
      }
    }
  }

  lemma {:induction false} SortSorted<T>(key: T -> real, s: seq<T>)
    ensures Sorted(key, Sort(key, s))
    ensures multiset(Sort(key, s)) == multiset(s)
  {
    if s == [] {
    } else {
      SortSorted(key, s[1..]);
      InsertSorted(key, s[0], Sort(key, s[1..]));
      InsertMultiset(key, s[0], Sort(key, s[1..]));
      assert s == [s[0]] + s[1..];
    }
  }

  lemma {:induction false} InsertStable<T>(key: T -> real, x: T, s: seq<T>, k: real)
    requires Sorted(key, s)
    ensures Keep(HasKey(key, k), Insert(key, x, s)) == Keep(HasKey(key, k), [x] + s)
  {
    if s == [] || key(x) <= key(s[0]) {
    } else {
      var p, rest := HasKey(key, k), s[1..];
      InsertStable(key, x, rest, k);
      assert s == [s[0]] + rest;
      KeepCons(p, s[0], Insert(key, x, rest));
      KeepCons(p, x, rest);
      KeepCons(p, x, s);
      KeepCons(p, s[0], rest);
    }
  }

  /** Elements with equal keys keep their order. */
  lemma {:induction false} SortStable<T>(key: T -> real, s: seq<T>, k: real)
    ensures Keep(HasKey(key, k), Sort(key, s)) == Keep(HasKey(key, k), s)
  {
    if s == [] {
    } else {
      SortStable(key, s[1..], k);
      SortSorted(key, s[1..]);
      InsertStable(key, s[0], Sort(key, s[1..]), k);
      assert s == [s[0]] + s[1..];
      KeepCons(HasKey(key, k), s[0], s[1..]);
      KeepCons(HasKey(key, k), s[0], Sort(key, s[1..]));
    }
  }

  lemma {:induction false} SameHead<T>(key: T -> real, a: seq<T>, b: seq<T>)
    requires Sorted(key, a) && Sorted(key, b) && a != [] && b != []
    requires forall k :: Keep(HasKey(key, k), a) == Keep(HasKey(key, k), b)
    ensures a[0] == b[0]
  {
    var p, q := HasKey(key, key(a[0])), HasKey(key, key(b[0]));
    assert Keep(p, a)[0] == a[0] && Keep(q, b)[0] == b[0];
    assert Keep(p, b)[0] == a[0] && Keep(q, a)[0] == b[0];
    KeepMember(p, b, a[0]);
    KeepMember(q, a, b[0]);
    var i :| 0 <= i < |b| && b[i] == a[0];
    var j :| 0 <= j < |a| && a[j] == b[0];
    assert key(b[0]) <= key(b[i]) && key(a[0]) <= key(a[j]);
    assert key(a[0]) == key(b[0]);
  }

  /** A sorted list is determined by its elements of each key, in order. */
  lemma {:induction false} SortedUnique<T>(key: T -> real, a: seq<T>, b: seq<T>)
    requires Sorted(key, a) && Sorted(key, b)
    requires forall k :: Keep(HasKey(key, k), a) == Keep(HasKey(key, k), b)
    ensures a == b
  {
    if a != [] {
      assert Keep(HasKey(key, key(a[0])), a) != [];
      assert Keep(HasKey(key, key(a[0])), b) != [];
    }
    if b != [] {
      assert Keep(HasKey(key, key(b[0])), b) != [];
      assert Keep(HasKey(key, key(b[0])), a) != [];
    }
    if a != [] && b != [] {
      SameHead(key, a, b);
      forall k ensures Keep(HasKey(key, k), a[1..]) == Keep(HasKey(key, k), b[1..]) {
        var p := HasKey(key, k);
        assert a == [a[0]] + a[1..] && b == [b[0]] + b[1..];
        KeepCons(p, a[0], a[1..]);
        KeepCons(p, b[0], b[1..]);
        assert Keep(p, a) == Keep(p, b);
        if p(a[0]) {
          assert Keep(p, a)[1..] == Keep(p, a[1..]) && Keep(p, b)[1..] == Keep(p, b[1..]);
        }
      }
      SortedUnique(key, a[1..], b[1..]);
    }
  }

  /** Sorting a sorted list changes nothing. */
  lemma {:induction false} SortFixed<T>(key: T -> real, s: seq<T>)
    requires Sorted(key, s)
    ensures Sort(key, s) == s
  {
    SortSorted(key, s);
    forall k ensures Keep(HasKey(key, k), Sort(key, s)) == Keep(HasKey(key, k), s) {
      SortStable(key, s, k);
    }
    SortedUnique(key, Sort(key, s), s);
  }
}
