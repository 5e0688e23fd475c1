/** Operations shared by every table of the model: a table is a sequence of
    rows, each identified by the column `key` selects (the generated id, or
    another unique column). */
module Rows {
  import opened JsCore

  /** No two rows share an id (the primary key). */
  ghost predicate UniqueKeys<T, K>(rows: seq<T>, key: T -> K)
  {
    forall i, j :: 0 <= i < |rows| && 0 <= j < |rows| && i != j ==> key(rows[i]) != key(rows[j])
  }

  /** Every id is below the next id the database will generate. */
  ghost predicate KeysBelow<T>(rows: seq<T>, key: T -> nat, bound: nat)
  {
    forall i :: 0 <= i < |rows| ==> key(rows[i]) < bound
  }

  /** `SELECT * FROM t WHERE id = $1`, first row: the index of the first row
      whose key is `id`. */
  function Find<T, K(==)>(rows: seq<T>, key: T -> K, id: K): (r: Option<nat>)
    ensures r.Some? ==> r.value < |rows| && key(rows[r.value]) == id
    ensures r.Some? ==> forall i :: 0 <= i < r.value ==> key(rows[i]) != id
    ensures r.None? <==> forall i :: 0 <= i < |rows| ==> key(rows[i]) != id
  {
    if rows == [] then None
    else if key(rows[0]) == id then Some(0)
    else
      var r := Find(rows[1..], key, id);
      assert forall i :: 1 <= i < |rows| ==> rows[i] == rows[1..][i - 1];
      if r.None? then None else Some(r.value + 1)
  }

  /** `DELETE FROM t WHERE id = $1`: the rows with another id, in their order. */
  function Without<T(==,!new), K(==)>(rows: seq<T>, key: T -> K, id: K): (r: seq<T>)
    ensures |r| <= |rows|
    ensures forall x :: x in r <==> x in rows && key(x) != id
  {
    if rows == [] then []
    else if key(rows[0]) == id then Without(rows[1..], key, id)
    else [rows[0]] + Without(rows[1..], key, id)
  }

  /** The delete removes a row (its rowCount is not 0) exactly when some row
      has that id. */
  lemma {:induction false} WithoutShrinksIffFound<T(!new), K>(rows: seq<T>, key: T -> K, id: K)
    ensures |Without(rows, key, id)| == |rows| <==> Find(rows, key, id).None?
  {
    if rows != [] {
      WithoutShrinksIffFound(rows[1..], key, id);
      assert Find(rows, key, id).None? <==> key(rows[0]) != id && Find(rows[1..], key, id).None? by {
        assert forall i :: 1 <= i < |rows| ==> rows[i] == rows[1..][i - 1];
      }
    }
  }

  /** Deleting rows keeps ids unique. */
  lemma {:induction false} WithoutKeepsUniqueKeys<T(!new), K>(rows: seq<T>, key: T -> K, id: K)
    requires UniqueKeys(rows, key)
    ensures UniqueKeys(Without(rows, key, id), key)
  {
    if rows != [] {
      var rest := rows[1..];
      assert UniqueKeys(rest, key) by {
        assert forall i :: 0 <= i < |rest| ==> rest[i] == rows[i + 1];
      }
      WithoutKeepsUniqueKeys(rest, key, id);
      if key(rows[0]) != id {
        var w := Without(rest, key, id);
        var all := [rows[0]] + w;
        forall i, j | 0 <= i < |all| && 0 <= j < |all| && i != j
          ensures key(all[i]) != key(all[j])
        {
          if i == 0 || j == 0 {
            var other := if i == 0 then all[j] else all[i];
            assert other in w;
            var k :| 0 <= k < |rest| && rest[k] == other;
            assert rows[k + 1] == other;
          } else {
            assert all[i] == w[i - 1] && all[j] == w[j - 1];
          }
        }
      }
    }
  }

  /** Deleting rows, by any key, keeps every id below the bound. */
  lemma WithoutKeepsKeysBelow<T(!new), K>(rows: seq<T>, key: T -> nat, other: T -> K, id: K, bound: nat)
    requires KeysBelow(rows, key, bound)
    ensures KeysBelow(Without(rows, other, id), key, bound)
  {
    var w := Without(rows, other, id);
    forall i | 0 <= i < |w|
      ensures key(w[i]) < bound
    {
      assert w[i] in rows;
    }
  }

  /** Appending a row with a fresh id keeps ids unique. */
  lemma AppendKeepsUniqueKeys<T>(rows: seq<T>, key: T -> nat, x: T, bound: nat)
    requires UniqueKeys(rows, key) && KeysBelow(rows, key, bound) && key(x) == bound
    ensures UniqueKeys(rows + [x], key) && KeysBelow(rows + [x], key, bound + 1)
  {
  }

  /** Appending a row whose key no row has keeps that key unique (the
      database's unique constraint lets exactly such inserts through). */
  lemma AppendNewKeyKeepsUnique<T, K>(rows: seq<T>, key: T -> K, x: T)
    requires UniqueKeys(rows, key) && forall i :: 0 <= i < |rows| ==> key(rows[i]) != key(x)
    ensures UniqueKeys(rows + [x], key)
  {
  }

  /** Overwriting a row with one that has the same key keeps keys unique. */
  lemma ReplaceKeepsUniqueKeys<T, K>(rows: seq<T>, key: T -> K, k: nat, x: T)
    requires UniqueKeys(rows, key) && k < |rows| && key(x) == key(rows[k])
    ensures UniqueKeys(rows[k := x], key)
  {
  }
}
