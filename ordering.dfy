/**
 * `orderBy('name')`: names compared character by character on code points,
 * and a stable insertion sort on a name key.
 */
module Ordering {

  /** `a` sorts before or equal to `b`. */
  predicate NameLe(a: string, b: string)
    decreases |a|
  {
    if a == [] then true
    else if b == [] then false
    else if a[0] != b[0] then a[0] < b[0]
    else NameLe(a[1..], b[1..])
  }

  lemma {:induction false} NameLeTotal(a: string, b: string)
    ensures NameLe(a, b) || NameLe(b, a)
    decreases |a|
  {
    if a != [] && b != [] && a[0] == b[0] {
      NameLeTotal(a[1..], b[1..]);
    }
  }

  lemma {:induction false} NameLeTransitive(a: string, b: string, c: string)
    requires NameLe(a, b) && NameLe(b, c)
    ensures NameLe(a, c)
    decreases |a|
  {
    if a != [] && b != [] && c != [] && a[0] == b[0] && b[0] == c[0] {
      NameLeTransitive(a[1..], b[1..], c[1..]);
    }
  }

  predicate SortedByName<T>(s: seq<T>, name: T -> string) {
    forall i, j :: 0 <= i < j < |s| ==> NameLe(name(s[i]), name(s[j]))
  }

  /** Inserts `x` before the first element whose name sorts after it. */
  function InsertByName<T>(x: T, s: seq<T>, name: T -> string): (r: seq<T>)
    requires SortedByName(s, name)
    ensures multiset(r) == multiset(s) + multiset{x}
    ensures SortedByName(r, name)
  {
    if s == [] then [x]
    else if NameLe(name(x), name(s[0])) then
      InsertLeadingSorted(x, s, name);
      [x] + s
    else
      SortedTail(s, name);
      HeadBeforeTail(s, name);
      var tail := InsertByName(x, s[1..], name);
      assert s == [s[0]] + s[1..];
      assert multiset([s[0]] + tail) == multiset{s[0]} + multiset(tail);
      NameLeTotal(name(x), name(s[0]));
      ConsSorted(s[0], tail, name);
      [s[0]] + tail
  }

  /** In a sorted list the head sorts before everything after it. */
  lemma HeadBeforeTail<T>(s: seq<T>, name: T -> string)
    requires s != [] && SortedByName(s, name)
    ensures forall z :: z in multiset(s[1..]) ==> NameLe(name(s[0]), name(z))
  {
    forall z | z in multiset(s[1..]) ensures NameLe(name(s[0]), name(z)) {
      var k :| 0 <= k < |s[1..]| && s[1..][k] == z;
      assert s[k + 1] == z;
    }
  }

  lemma {:induction false} InsertLeadingSorted<T>(x: T, s: seq<T>, name: T -> string)
    requires SortedByName(s, name) && s != [] && NameLe(name(x), name(s[0]))
    ensures SortedByName([x] + s, name)
  {
    var r := [x] + s;
    forall i, j | 0 <= i < j < |r| ensures NameLe(name(r[i]), name(r[j])) {
      if i == 0 && j > 1 {
        NameLeTransitive(name(x), name(s[0]), name(s[j - 1]));
      }
    }
  }

  /** Putting `y` in front of a sorted `tail` whose elements all sort after it keeps it sorted. */
  lemma {:induction false} ConsSorted<T>(y: T, tail: seq<T>, name: T -> string)
    requires SortedByName(tail, name)
    requires forall z :: z in multiset(tail) ==> NameLe(name(y), name(z))
    ensures SortedByName([y] + tail, name)
  {
    var r := [y] + tail;
    forall i, j | 0 <= i < j < |r| ensures NameLe(name(r[i]), name(r[j])) {
      if i == 0 {
        assert r[j] == tail[j - 1] && tail[j - 1] in multiset(tail);
      }
    }
  }

  /** Stable insertion sort by name: a permutation of `s` in name order. */
  function SortByName<T>(s: seq<T>, name: T -> string): (r: seq<T>)
    ensures multiset(r) == multiset(s)
    ensures SortedByName(r, name)
  {
    if s == [] then []
    else
      assert s == [s[0]] + s[1..];
      InsertByName(s[0], SortByName(s[1..], name), name)
  }

  /** No two elements share a key. */
  predicate KeysDistinct<T>(s: seq<T>, key: T -> int) {
    forall i, j :: 0 <= i < j < |s| ==> key(s[i]) != key(s[j])
  }

  lemma {:induction false} ConsKeysDistinct<T>(h: T, tail: seq<T>, key: T -> int)
    requires KeysDistinct(tail, key)
    requires forall z :: z in multiset(tail) ==> key(z) != key(h)
    ensures KeysDistinct([h] + tail, key)
  {
    var r := [h] + tail;
    forall i, j | 0 <= i < j < |r| ensures key(r[i]) != key(r[j]) {
      if i == 0 {
        assert r[j] == tail[j - 1] && tail[j - 1] in multiset(tail);
      } else {
        assert r[i] == tail[i - 1] && r[j] == tail[j - 1];
      }
    }
  }

  /** The rest of a list with distinct keys has distinct keys, none of them the head's. */
  lemma TailKeysDistinct<T>(s: seq<T>, key: T -> int)
    requires s != [] && KeysDistinct(s, key)
    ensures KeysDistinct(s[1..], key)
    ensures forall z :: z in multiset(s[1..]) ==> key(z) != key(s[0])
  {
    forall z | z in multiset(s[1..]) ensures key(z) != key(s[0]) {
      var k :| 0 <= k < |s[1..]| && s[1..][k] == z;
      assert s[k + 1] == z;
    }
  }

  lemma SortedTail<T>(s: seq<T>, name: T -> string)
    requires s != [] && SortedByName(s, name)
    ensures SortedByName(s[1..], name)
  {
  }

  /** Inserting an element whose key is new keeps the keys distinct. */
  lemma {:induction false} InsertKeepsKeysDistinct<T>(x: T, s: seq<T>, name: T -> string, key: T -> int)
    requires SortedByName(s, name) && KeysDistinct(s, key)
    requires forall z :: z in multiset(s) ==> key(z) != key(x)
    ensures KeysDistinct(InsertByName(x, s, name), key)
  {
    if s != [] && !NameLe(name(x), name(s[0])) {
      TailKeysDistinct(s, key);
      SortedTail(s, name);
      assert s == [s[0]] + s[1..];
      InsertKeepsKeysDistinct(x, s[1..], name, key);
      var tail := InsertByName(x, s[1..], name);
      assert multiset(tail) == multiset(s[1..]) + multiset{x};
      assert key(s[0]) != key(x) by { assert s[0] in multiset(s); }
      ConsKeysDistinct(s[0], tail, key);
    } else if s != [] {
      ConsKeysDistinct(x, s, key);
    }
  }

  /** Sorting by name neither duplicates nor merges rows: distinct keys stay distinct. */
  lemma {:induction false} SortKeepsKeysDistinct<T>(s: seq<T>, name: T -> string, key: T -> int)
    requires KeysDistinct(s, key)
    ensures KeysDistinct(SortByName(s, name), key)
  {
    if s != [] {
      assert s == [s[0]] + s[1..];
      TailKeysDistinct(s, key);
      SortKeepsKeysDistinct(s[1..], name, key);
      var sorted := SortByName(s[1..], name);
      InsertKeepsKeysDistinct(s[0], sorted, name, key);
    }
  }
}
