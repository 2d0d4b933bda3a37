/** Sorting by a numeric key without disturbing equals, and what such a sort determines. */
module StableSort {

  function Filter<T>(f: T -> bool, s: seq<T>): seq<T> {
    if s == [] then []
    else if f(s[0]) then [s[0]] + Filter(f, s[1..])
    else Filter(f, s[1..])
  }

  lemma {:induction false} FilterConcat<T>(f: T -> bool, a: seq<T>, b: seq<T>)
    ensures Filter(f, a + b) == Filter(f, a) + Filter(f, b)
  {
    if a == [] {
      assert a + b == b;
    } else {
      assert (a + b)[1..] == a[1..] + b;
      FilterConcat(f, a[1..], b);
    }
  }

  lemma {:induction false} FilterMembers<T>(f: T -> bool, s: seq<T>)
    ensures forall x :: x in Filter(f, s) <==> x in s && f(x)
    ensures |Filter(f, s)| <= |s|
  {
    if s != [] {
      FilterMembers(f, s[1..]);
    }
  }

  predicate SortedBy<T(!new)>(key: T -> nat, s: seq<T>) {
    forall i, j :: 0 <= i < j < |s| ==> key(s[i]) <= key(s[j])
  }

  /** The elements of `s` with one key, in their order in `s`. */
  function WithKey<T>(key: T -> nat, k: nat, s: seq<T>): seq<T> {
    Filter((x: T) => key(x) == k, s)
  }

  lemma WithKeyCons<T(!new)>(key: T -> nat, k: nat, x: T, s: seq<T>)
    ensures WithKey(key, k, [x] + s) == (if key(x) == k then [x] else []) + WithKey(key, k, s)
  {
  }

  /** `b` holds the elements of `a`, those with equal keys in the same order. */
  ghost predicate KeepsEquals<T(!new)>(key: T -> nat, a: seq<T>, b: seq<T>) {
    forall k :: WithKey(key, k, a) == WithKey(key, k, b)
  }

  function Insert<T>(key: T -> nat, x: T, s: seq<T>): seq<T> {
    if s == [] || key(x) <= key(s[0]) then [x] + s else [s[0]] + Insert(key, x, s[1..])
  }

  function Sort<T>(key: T -> nat, s: seq<T>): seq<T> {
    if s == [] then [] else Insert(key, s[0], Sort(key, s[1..]))
  }

  lemma {:induction false} InsertSorted<T(!new)>(key: T -> nat, x: T, s: seq<T>)
    requires SortedBy(key, s)
    ensures SortedBy(key, Insert(key, x, s))
    ensures forall y :: y in Insert(key, x, s) <==> y == x || y in s
    ensures forall k :: WithKey(key, k, Insert(key, x, s)) == WithKey(key, k, [x] + s)
  {
    if s != [] && key(x) > key(s[0]) {
      InsertSorted(key, x, s[1..]);
      var rest := Insert(key, x, s[1..]);
      forall k ensures WithKey(key, k, [s[0]] + rest) == WithKey(key, k, [x] + s) {
        WithKeyCons(key, k, s[0], rest);
        WithKeyCons(key, k, x, s[1..]);
        WithKeyCons(key, k, x, s);
        WithKeyCons(key, k, s[0], s[1..]);
        assert [s[0]] + s[1..] == s;
        assert WithKey(key, k, rest) == WithKey(key, k, [x] + s[1..]);
      }
      forall j | 0 <= j < |rest| ensures key(s[0]) <= key(rest[j]) {
        assert rest[j] in rest;
      }
    }
  }

  /** The sort is ordered and stable. */
  lemma {:induction false} SortIsStable<T(!new)>(key: T -> nat, s: seq<T>)
    ensures SortedBy(key, Sort(key, s)) && KeepsEquals(key, s, Sort(key, s))
  {
    if s != [] {
      var rest := Sort(key, s[1..]);
      SortIsStable(key, s[1..]);
      InsertSorted(key, s[0], rest);
      forall k ensures WithKey(key, k, s) == WithKey(key, k, Sort(key, s)) {
        assert ([s[0]] + rest)[1..] == rest;
        assert WithKey(key, k, s[1..]) == WithKey(key, k, rest);
      }
    }
  }

  lemma {:induction false} WithKeyFirst<T(!new)>(key: T -> nat, s: seq<T>)
    requires s != []
    ensures WithKey(key, key(s[0]), s) != [] && WithKey(key, key(s[0]), s)[0] == s[0]
  {
  }

  lemma FirstKeyLeast<T(!new)>(key: T -> nat, a: seq<T>, b: seq<T>)
    requires SortedBy(key, a) && SortedBy(key, b) && KeepsEquals(key, a, b) && a != [] && b != []
    ensures key(a[0]) <= key(b[0])
  {
    var k := key(b[0]);
    WithKeyFirst(key, b);
    FilterMembers((x: T) => key(x) == k, a);
    FilterMembers((x: T) => key(x) == k, b);
    assert WithKey(key, k, a) == WithKey(key, k, b);
    assert b[0] in a;
  }

  /** Order plus stability leave no choice. */
  lemma {:induction false} StableUnique<T(!new)>(key: T -> nat, a: seq<T>, b: seq<T>)
    requires SortedBy(key, a) && SortedBy(key, b) && KeepsEquals(key, a, b)
    ensures a == b
    decreases |a|
  {
    if a == [] {
      if b != [] {
        WithKeyFirst(key, b);
      }
    } else if b == [] {
      WithKeyFirst(key, a);
    } else {
      FirstKeyLeast(key, a, b);
      FirstKeyLeast(key, b, a);
      WithKeyFirst(key, a);
      WithKeyFirst(key, b);
      var k0 := key(a[0]);
      assert WithKey(key, k0, a) == WithKey(key, k0, b);
      forall k ensures WithKey(key, k, a[1..]) == WithKey(key, k, b[1..]) {
        assert WithKey(key, k, a) == WithKey(key, k, b);
        WithKeyCons(key, k, a[0], a[1..]);
        WithKeyCons(key, k, b[0], b[1..]);
        assert [a[0]] + a[1..] == a && [b[0]] + b[1..] == b;
        assert k == k0 ==> WithKey(key, k, a[1..]) == WithKey(key, k, a)[1..];
        assert k == k0 ==> WithKey(key, k, b[1..]) == WithKey(key, k, b)[1..];
        if k != k0 {
          assert WithKey(key, k, a) == [] + WithKey(key, k, a[1..]) == WithKey(key, k, a[1..]);
          assert WithKey(key, k, b) == [] + WithKey(key, k, b[1..]) == WithKey(key, k, b[1..]);
        }
      }
      StableUnique(key, a[1..], b[1..]);
    }
  }

  /** Sorting after every push gives what sorting once at the end gives. */
  lemma PushThenSort<T(!new)>(key: T -> nat, s: seq<T>, x: T)
    ensures Sort(key, Sort(key, s) + [x]) == Sort(key, s + [x])
  {
    SortIsStable(key, s);
    SortIsStable(key, s + [x]);
    SortIsStable(key, Sort(key, s) + [x]);
    forall k ensures WithKey(key, k, Sort(key, Sort(key, s) + [x])) == WithKey(key, k, Sort(key, s + [x])) {
      assert WithKey(key, k, s) == WithKey(key, k, Sort(key, s));
      FilterConcat((y: T) => key(y) == k, s, [x]);
      FilterConcat((y: T) => key(y) == k, Sort(key, s), [x]);
      assert WithKey(key, k, Sort(key, s) + [x]) == WithKey(key, k, Sort(key, Sort(key, s) + [x]));
      assert WithKey(key, k, s + [x]) == WithKey(key, k, Sort(key, s + [x]));
    }
    StableUnique(key, Sort(key, Sort(key, s) + [x]), Sort(key, s + [x]));
  }
}
