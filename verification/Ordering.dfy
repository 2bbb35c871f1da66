/** Strict total orders, sorting by them, and the lexicographic order of sequences. */
module Ordering {
  ghost predicate StrictTotal<T(!new)>(order: (T, T) -> bool) {
    && (forall a :: !order(a, a))
    && (forall a, b :: a == b || order(a, b) || order(b, a))
    && (forall a, b, c :: order(a, b) && order(b, c) ==> order(a, c))
  }

  predicate Distinct<T(==)>(keys: seq<T>) {
    forall i, j :: 0 <= i < j < |keys| ==> keys[i] != keys[j]
  }

  predicate Sorted<T>(order: (T, T) -> bool, keys: seq<T>) {
    forall i, j :: 0 <= i < j < |keys| ==> order(keys[i], keys[j])
  }

  function Insert<T(!new)>(order: (T, T) -> bool, key: T, keys: seq<T>): (inserted: seq<T>)
    ensures forall x :: x in inserted <==> x == key || x in keys
  {
    if keys == [] then [key]
    else if order(key, keys[0]) then [key] + keys
    else [keys[0]] + Insert(order, key, keys[1..])
  }

  function Sort<T(!new)>(order: (T, T) -> bool, keys: seq<T>): (sorted: seq<T>)
    ensures forall x :: x in sorted <==> x in keys
  {
    if keys == [] then [] else Insert(order, keys[0], Sort(order, keys[1..]))
  }

  lemma {:induction false} InsertSorts<T(!new)>(order: (T, T) -> bool, key: T, keys: seq<T>)
    requires StrictTotal(order) && Sorted(order, keys) && key !in keys
    ensures Sorted(order, Insert(order, key, keys))
  {
    if keys == [] || order(key, keys[0]) {
    } else {
      InsertSorts(order, key, keys[1..]);
      var rest := Insert(order, key, keys[1..]);
      forall j | 0 <= j < |rest| ensures order(keys[0], rest[j]) {
        assert rest[j] in rest;
        if rest[j] != key {
          assert rest[j] in keys[1..];
          var i :| 0 <= i < |keys[1..]| && keys[1..][i] == rest[j];
          assert keys[i + 1] == rest[j];
        }
      }
    }
  }

  lemma {:induction false} SortSorts<T(!new)>(order: (T, T) -> bool, keys: seq<T>)
    requires StrictTotal(order) && Distinct(keys)
    ensures Sorted(order, Sort(order, keys))
  {
    if keys == [] {
    } else {
      SortSorts(order, keys[1..]);
      assert keys[0] !in keys[1..];
      InsertSorts(order, keys[0], Sort(order, keys[1..]));
    }
  }

  /** An order that ties some elements, as one by a key does. */
  ghost predicate StrictWeak<T(!new)>(order: (T, T) -> bool) {
    && (forall a, b :: order(a, b) ==> !order(b, a))
    && (forall a, b, c :: !order(b, a) && !order(c, b) ==> !order(c, a))
  }

  predicate Ascending<T>(order: (T, T) -> bool, keys: seq<T>) {
    forall i, j :: 0 <= i < j < |keys| ==> !order(keys[j], keys[i])
  }

  lemma {:induction false} InsertAdds<T(!new)>(order: (T, T) -> bool, key: T, keys: seq<T>)
    ensures multiset(Insert(order, key, keys)) == multiset(keys) + multiset{key}
  {
    if keys != [] {
      assert keys == [keys[0]] + keys[1..];
      if !order(key, keys[0]) { InsertAdds(order, key, keys[1..]); }
    }
  }

  /** An element that is not above the first is above none. */
  lemma BelowAll<T(!new)>(order: (T, T) -> bool, key: T, keys: seq<T>, x: T)
    requires StrictWeak(order) && Ascending(order, keys) && keys != [] && !order(keys[0], key) && x in keys
    ensures !order(x, key)
  {
    var j :| 0 <= j < |keys| && keys[j] == x;
    assert j == 0 || !order(keys[j], keys[0]);
  }

  lemma AscendsBehind<T(!new)>(order: (T, T) -> bool, first: T, rest: seq<T>)
    requires Ascending(order, rest) && forall x :: x in rest ==> !order(x, first)
    ensures Ascending(order, [first] + rest)
  {
  }

  lemma {:induction false} InsertAscends<T(!new)>(order: (T, T) -> bool, key: T, keys: seq<T>)
    requires StrictWeak(order) && Ascending(order, keys)
    ensures Ascending(order, Insert(order, key, keys))
  {
    if keys == [] {
    } else if order(key, keys[0]) {
      forall x | x in keys ensures !order(x, key) { BelowAll(order, key, keys, x); }
      AscendsBehind(order, key, keys);
    } else {
      InsertAscends(order, key, keys[1..]);
      var rest := Insert(order, key, keys[1..]);
      assert !order(keys[0], keys[0]);
      forall x | x in rest ensures !order(x, keys[0]) {
        if x != key { BelowAll(order, keys[0], keys, x); }
      }
      AscendsBehind(order, keys[0], rest);
    }
  }

  /** Sorting by a key leaves the same elements, no later one below an earlier one. */
  lemma {:induction false} SortAscends<T(!new)>(order: (T, T) -> bool, keys: seq<T>)
    requires StrictWeak(order)
    ensures Ascending(order, Sort(order, keys)) && multiset(Sort(order, keys)) == multiset(keys)
  {
    if keys != [] {
      SortAscends(order, keys[1..]);
      InsertAscends(order, keys[0], Sort(order, keys[1..]));
      InsertAdds(order, keys[0], Sort(order, keys[1..]));
      assert keys == [keys[0]] + keys[1..];
    }
  }

  lemma EmptyTogether<T(!new)>(a: seq<T>, b: seq<T>)
    requires forall x :: x in a <==> x in b
    ensures a == [] <==> b == []
  {
    if a != [] { assert a[0] in a; }
    if b != [] { assert b[0] in b; }
  }

  lemma HeadIsLeast<T(!new)>(order: (T, T) -> bool, keys: seq<T>, x: T)
    requires Sorted(order, keys) && x in keys
    ensures x == keys[0] || order(keys[0], x)
  {
  }

  /** A sorted list is determined by its elements. */
  lemma {:induction false} SortedIsUnique<T(!new)>(order: (T, T) -> bool, a: seq<T>, b: seq<T>)
    requires StrictTotal(order) && Sorted(order, a) && Sorted(order, b)
    requires forall x :: x in a <==> x in b
    ensures a == b
  {
    EmptyTogether(a, b);
    if a != [] {
      HeadIsLeast(order, a, b[0]);
      HeadIsLeast(order, b, a[0]);
      assert a[0] == b[0];
      forall x ensures x in a[1..] <==> x in b[1..] {
        assert x in a <==> x == a[0] || x in a[1..];
        assert x in b <==> x == b[0] || x in b[1..];
        assert a[0] !in a[1..] && b[0] !in b[1..];
      }
      SortedIsUnique(order, a[1..], b[1..]);
    }
  }

  /** By element, a proper prefix first. */
  predicate Lexicographic<T(==)>(less: (T, T) -> bool, a: seq<T>, b: seq<T>) {
    b != [] && (a == [] || less(a[0], b[0]) || (a[0] == b[0] && Lexicographic(less, a[1..], b[1..])))
  }

  lemma {:induction false} LexicographicIrreflexive<T(!new)>(less: (T, T) -> bool, a: seq<T>)
    requires StrictTotal(less)
    ensures !Lexicographic(less, a, a)
  {
    if a != [] { LexicographicIrreflexive(less, a[1..]); }
  }

  lemma {:induction false} LexicographicTotal<T(!new)>(less: (T, T) -> bool, a: seq<T>, b: seq<T>)
    requires StrictTotal(less)
    ensures a == b || Lexicographic(less, a, b) || Lexicographic(less, b, a)
  {
    if a != [] && b != [] {
      LexicographicTotal(less, a[1..], b[1..]);
      assert a == [a[0]] + a[1..] && b == [b[0]] + b[1..];
    }
  }

  lemma {:induction false} LexicographicTransitive<T(!new)>(less: (T, T) -> bool, a: seq<T>, b: seq<T>, c: seq<T>)
    requires StrictTotal(less) && Lexicographic(less, a, b) && Lexicographic(less, b, c)
    ensures Lexicographic(less, a, c)
  {
    if a != [] && a[0] == b[0] == c[0] { LexicographicTransitive(less, a[1..], b[1..], c[1..]); }
  }
}
