/**
  Python and pandas values shared by the scorer and the trainer: an Option
  for absent values, the cells of a table row, the meaning of a dict display
  (later keys override earlier ones) and the selection of columns from a
  one-row table.
 */
module PyData {

  datatype Option<+T> = None | Some(value: T)

  /** One cell of a pandas row: an integer, a float (modelled as a real) or a string. */
  datatype Cell = IntCell(i: int) | RealCell(r: real) | TextCell(s: string)

  /**
    The dict built by a Python dict display `{k0: v0, k1: v1, ...}`: the
    entries are inserted left to right, so a key written twice keeps the
    value of its LAST occurrence.
   */
  function DictLiteral<K(==,!new), V>(entries: seq<(K, V)>): (d: map<K, V>)
    ensures |entries| > 0 ==> entries[|entries| - 1].0 in d && d[entries[|entries| - 1].0] == entries[|entries| - 1].1
  {
    if entries == [] then map[]
    else
      var last := entries[|entries| - 1];
      DictLiteral(entries[..|entries| - 1])[last.0 := last.1]
  }

  /** One step of building a dict display: the dict of all but the last entry, then the last entry. */
  lemma DictLiteralUnroll<K(!new), V>(entries: seq<(K, V)>)
    requires entries != []
    ensures DictLiteral(entries) == DictLiteral(entries[..|entries| - 1])[entries[|entries| - 1].0 := entries[|entries| - 1].1]
  {
  }

  /** A key is in the dict exactly when some entry carries it. */
  lemma {:induction false} DictLiteralKeys<K(!new), V>(entries: seq<(K, V)>, k: K)
    ensures k in DictLiteral(entries) <==> exists i :: 0 <= i < |entries| && entries[i].0 == k
  {
    if entries != [] {
      var init := entries[..|entries| - 1];
      DictLiteralKeys(init, k);
      assert forall i :: 0 <= i < |init| ==> init[i] == entries[i];
    }
  }

  /** The last entry written with a key gives that key's value. */
  lemma {:induction false} DictLiteralLastWins<K(!new), V>(entries: seq<(K, V)>, i: int)
    requires 0 <= i < |entries| && LastWith(entries, i)
    ensures entries[i].0 in DictLiteral(entries) && DictLiteral(entries)[entries[i].0] == entries[i].1
  {
    if i < |entries| - 1 {
      var init := entries[..|entries| - 1];
      assert init[i] == entries[i];
      assert LastWith(init, i) by {
        forall j | i < j < |init| ensures init[j].0 != init[i].0 {
          assert init[j] == entries[j];
        }
      }
      DictLiteralLastWins(init, i);
      assert entries[|entries| - 1].0 != entries[i].0;
    }
  }

  /** Entry `i` is the last entry of `entries` with its key. */
  predicate LastWith<K(==,!new), V>(entries: seq<(K, V)>, i: int)
    requires 0 <= i < |entries|
  {
    forall j :: i < j < |entries| ==> entries[j].0 != entries[i].0
  }

  /**
    `df[columns]` on a one-row table keyed by column name: the row's values
    in the order of `columns`.
   */
  function Select<K(==), V>(cells: map<K, V>, columns: seq<K>): seq<V>
    requires forall c :: c in columns ==> c in cells
  {
    seq(|columns|, i requires 0 <= i < |columns| => cells[columns[i]])
  }
}
