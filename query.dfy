/**
 * The two query shapes the controllers use on a table keyed by primary key:
 * `where(...)->orderByDesc('id')->get()` and the rows of a list of keys.
 */
module Query {
  import opened Common

  predicate StrictlyDecreasing(ids: seq<Id>) {
    forall i, j :: 0 <= i < j < |ids| ==> ids[i] > ids[j]
  }

  /** The keys below `bound` whose row satisfies `keep`, largest first. */
  function KeysDesc<T>(m: map<Id, T>, keep: T -> bool, bound: nat): (ids: seq<Id>)
    ensures StrictlyDecreasing(ids)
    ensures forall k :: k in ids <==> k in m && k < bound && keep(m[k])
    ensures (forall k :: k in m && k < bound ==> !keep(m[k])) ==> ids == []
    decreases bound
  {
    if bound <= 1 then []
    else
      var rest := KeysDesc(m, keep, bound - 1);
      var k: Id := bound - 1;
      assert forall i :: 0 <= i < |rest| ==> rest[i] < k by {
        forall i | 0 <= i < |rest| ensures rest[i] < k {
          assert rest[i] in rest;
        }
      }
      if k in m && keep(m[k]) then [k] + rest else rest
  }

  /** The rows of `m` at the keys `ids`, in that order. */
  function Rows<T>(m: map<Id, T>, ids: seq<Id>): (rows: seq<T>)
    requires forall k :: k in ids ==> k in m
    ensures |rows| == |ids|
    ensures forall i :: 0 <= i < |ids| ==> rows[i] == m[ids[i]]
  {
    seq(|ids|, i requires 0 <= i < |ids| => m[ids[i]])
  }

  /** `where(keep)->orderByDesc('id')->get()` on a table whose rows are stored under
      their own id (`idOf`), every id below `bound`. */
  function Select<T(!new)>(m: map<Id, T>, keep: T -> bool, bound: nat, idOf: T -> Id): (rows: seq<T>)
    requires forall k :: k in m ==> idOf(m[k]) == k && k < bound
    ensures forall x :: x in rows <==> idOf(x) in m && m[idOf(x)] == x && keep(x)
    ensures forall i, j :: 0 <= i < j < |rows| ==> idOf(rows[i]) > idOf(rows[j])
    ensures (forall k :: k in m ==> !keep(m[k])) ==> rows == []
  {
    var ids := KeysDesc(m, keep, bound);
    var rows := Rows(m, ids);
    RowsSound(m, keep, idOf, ids, rows);
    RowsComplete(m, keep, idOf, ids, rows);
    rows
  }

  /** Each row read at a kept key is a kept row stored under its own id, in key order. */
  lemma RowsSound<T>(m: map<Id, T>, keep: T -> bool, idOf: T -> Id, ids: seq<Id>, rows: seq<T>)
    requires forall k :: k in m ==> idOf(m[k]) == k
    requires forall k :: k in ids ==> k in m && keep(m[k])
    requires StrictlyDecreasing(ids)
    requires |rows| == |ids| && forall i :: 0 <= i < |ids| ==> rows[i] == m[ids[i]]
    ensures forall x :: x in rows ==> idOf(x) in m && m[idOf(x)] == x && keep(x)
    ensures forall i, j :: 0 <= i < j < |rows| ==> idOf(rows[i]) > idOf(rows[j])
  {
    forall x | x in rows ensures idOf(x) in m && m[idOf(x)] == x && keep(x) {
      var i :| 0 <= i < |rows| && rows[i] == x;
      assert ids[i] in ids;
    }
    forall i, j | 0 <= i < j < |rows| ensures idOf(rows[i]) > idOf(rows[j]) {
      assert ids[i] in ids && ids[j] in ids;
    }
  }

  /** Every kept row is read at some key. */
  lemma RowsComplete<T>(m: map<Id, T>, keep: T -> bool, idOf: T -> Id, ids: seq<Id>, rows: seq<T>)
    requires forall k :: k in m && keep(m[k]) ==> k in ids
    requires forall k :: k in ids ==> k in m
    requires |rows| == |ids| && forall i :: 0 <= i < |ids| ==> rows[i] == m[ids[i]]
    ensures forall x :: idOf(x) in m && m[idOf(x)] == x && keep(x) ==> x in rows
  {
    forall x | idOf(x) in m && m[idOf(x)] == x && keep(x) ensures x in rows {
      var i :| 0 <= i < |ids| && ids[i] == idOf(x);
      assert rows[i] == x;
    }
  }
}
