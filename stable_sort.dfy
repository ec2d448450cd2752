/** A stable sort of a sequence by a numeric key, ascending: the behaviour
    `Array.prototype.sort` is required to have (stability is part of the
    ECMAScript 2019 language specification, section 22.1.3.27) when given
    the comparator `(a, b) => key(a) - key(b)`. Insertion sort is one
    algorithm with that behaviour; only its result is modelled. */
module StableSort {

  predicate SortedBy<T>(s: seq<T>, key: T -> real)
  {
    forall i, j | 0 <= i < j < |s| :: key(s[i]) <= key(s[j])
  }

  /** The elements of `s` whose key is `d`, in the order of `s`. */
  function WithKey<T>(s: seq<T>, key: T -> real, d: real): seq<T>
  {
    if s == [] then []
    else (if key(s[0]) == d then [s[0]] else []) + WithKey(s[1..], key, d)
  }

  /** `x` placed before the first element whose key is not below its own. */
  function Insert<T>(x: T, s: seq<T>, key: T -> real): seq<T>
  {
    if s == [] || key(x) <= key(s[0]) then [x] + s
    else [s[0]] + Insert(x, s[1..], key)
  }

  function SortBy<T>(s: seq<T>, key: T -> real): seq<T>
  {
    if s == [] then [] else Insert(s[0], SortBy(s[1..], key), key)
  }

  /** Putting `a` in front of a sorted sequence keeps it sorted when no
      key in the sequence is below `a`'s. */
  lemma SortedCons<T>(a: T, t: seq<T>, key: T -> real)
    requires SortedBy(t, key)
    requires forall y | y in t :: key(a) <= key(y)
    ensures SortedBy([a] + t, key)
  {
    forall i, j | 0 <= i < j < |[a] + t|
      ensures key(([a] + t)[i]) <= key(([a] + t)[j])
    {
      if i == 0 {
        assert ([a] + t)[j] == t[j - 1];
        assert t[j - 1] in t;
      } else {
        assert ([a] + t)[i] == t[i - 1] && ([a] + t)[j] == t[j - 1];
      }
    }
  }

  lemma {:induction false} InsertPermutes<T>(x: T, s: seq<T>, key: T -> real)
    ensures multiset(Insert(x, s, key)) == multiset{x} + multiset(s)
    decreases |s|
  {
    if s != [] && key(s[0]) < key(x) {
      InsertPermutes(x, s[1..], key);
      assert s == [s[0]] + s[1..];
    }
  }

  /** A lower bound on the keys of `x` and of `s` bounds the keys of the
      insertion. */
  lemma {:induction false} InsertBelow<T>(x: T, s: seq<T>, key: T -> real, b: real)
    requires b <= key(x) && forall y | y in s :: b <= key(y)
    ensures forall y | y in Insert(x, s, key) :: b <= key(y)
    decreases |s|
  {
    if s != [] && key(s[0]) < key(x) {
      assert forall y | y in s[1..] :: y in s;
      InsertBelow(x, s[1..], key, b);
    }
  }

  lemma {:induction false} InsertSorted<T>(x: T, s: seq<T>, key: T -> real)
    requires SortedBy(s, key)
    ensures SortedBy(Insert(x, s, key), key)
    decreases |s|
  {
    if s == [] || key(x) <= key(s[0]) {
      forall y | y in s
        ensures key(x) <= key(y)
      {
        var k :| 0 <= k < |s| && s[k] == y;
        assert key(s[0]) <= key(s[k]);
      }
      SortedCons(x, s, key);
    } else {
      assert SortedBy(s[1..], key) by {
        forall i, j | 0 <= i < j < |s[1..]|
          ensures key(s[1..][i]) <= key(s[1..][j])
        {
          assert s[1..][i] == s[i + 1] && s[1..][j] == s[j + 1];
        }
      }
      InsertSorted(x, s[1..], key);
      forall y | y in s[1..]
        ensures key(s[0]) <= key(y)
      {
        var k :| 0 <= k < |s[1..]| && s[1..][k] == y;
        assert key(s[0]) <= key(s[k + 1]);
      }
      InsertBelow(x, s[1..], key, key(s[0]));
      SortedCons(s[0], Insert(x, s[1..], key), key);
    }
  }

  lemma {:induction false} InsertWithKey<T>(x: T, s: seq<T>, key: T -> real, d: real)
    ensures WithKey(Insert(x, s, key), key, d) == (if key(x) == d then [x] else []) + WithKey(s, key, d)
    decreases |s|
  {
    var own: seq<T> := if key(x) == d then [x] else [];
    if s == [] || key(x) <= key(s[0]) {
      var t := [x] + s;
      assert t[0] == x && t[1..] == s;
      assert WithKey(t, key, d) == own + WithKey(s, key, d);
    } else {
      var rest := Insert(x, s[1..], key);
      var t := [s[0]] + rest;
      assert t[0] == s[0] && t[1..] == rest;
      var first: seq<T> := if key(s[0]) == d then [s[0]] else [];
      assert WithKey(t, key, d) == first + WithKey(rest, key, d);
      assert WithKey(s, key, d) == first + WithKey(s[1..], key, d);
      InsertWithKey(x, s[1..], key, d);
      assert first == [] || own == [];
    }
  }

  /** Selecting by key distributes over concatenation. */
  lemma {:induction false} WithKeyAppend<T>(a: seq<T>, b: seq<T>, key: T -> real, d: real)
    ensures WithKey(a + b, key, d) == WithKey(a, key, d) + WithKey(b, key, d)
    decreases |a|
  {
    if a == [] {
      assert a + b == b;
    } else {
      var first: seq<T> := if key(a[0]) == d then [a[0]] else [];
      assert (a + b)[0] == a[0] && (a + b)[1..] == a[1..] + b;
      assert WithKey(a + b, key, d) == first + WithKey(a[1..] + b, key, d);
      WithKeyAppend(a[1..], b, key, d);
      assert WithKey(a, key, d) == first + WithKey(a[1..], key, d);
    }
  }

  /** The result is the input rearranged into ascending key order. */
  lemma {:induction false} SortBySortsAndPermutes<T>(s: seq<T>, key: T -> real)
    ensures SortedBy(SortBy(s, key), key)
    ensures multiset(SortBy(s, key)) == multiset(s)
    ensures |SortBy(s, key)| == |s|
    decreases |s|
  {
    if s != [] {
      SortBySortsAndPermutes(s[1..], key);
      InsertSorted(s[0], SortBy(s[1..], key), key);
      InsertPermutes(s[0], SortBy(s[1..], key), key);
      assert s == [s[0]] + s[1..];
      assert |multiset(SortBy(s, key))| == |s|;
    }
  }

  /** Stability: elements with equal keys keep their relative order. */
  lemma {:induction false} SortByStable<T>(s: seq<T>, key: T -> real, d: real)
    ensures WithKey(SortBy(s, key), key, d) == WithKey(s, key, d)
    decreases |s|
  {
    if s != [] {
      SortByStable(s[1..], key, d);
      InsertWithKey(s[0], SortBy(s[1..], key), key, d);
    }
  }
}
