/**
  The column labels of the transaction table, as the trainer reads them
  from the downloaded file and as the scorer writes them into its one-row
  table, and the column lists both programs build from them. A column is
  named by a constructor; `Label` gives its pandas name.
 */
module Schema {

  datatype Column =
    | Step | Type | Amount | NameOrig | OldbalanceOrg | NewbalanceOrig | NameDest
    | OldbalanceDest | NewbalanceDest | IsFraud | IsFlaggedFraud | ActualAmount

  function Label(c: Column): string {
    match c
    case Step => "step"
    case Type => "type"
    case Amount => "amount"
    case NameOrig => "nameOrig"
    case OldbalanceOrg => "oldbalanceOrg"
    case NewbalanceOrig => "newbalanceOrig"
    case NameDest => "nameDest"
    case OldbalanceDest => "oldbalanceDest"
    case NewbalanceDest => "newbalanceDest"
    case IsFraud => "isFraud"
    case IsFlaggedFraud => "isFlaggedFraud"
    case ActualAmount => "actualAmount"
  }

  /** The derived `actualAmount` column: how far the sender's balance dropped. */
  function ActualAmountOf(oldbalanceOrg: real, newbalanceOrig: real): real {
    oldbalanceOrg - newbalanceOrig
  }

  /** The columns of `columns` from position `k` on that are not in `drop`, in their order. */
  function KeptFrom(columns: seq<Column>, drop: set<Column>, k: nat): (kept: seq<Column>)
    decreases |columns| - k
  {
    if k >= |columns| then []
    else (if columns[k] in drop then [] else [columns[k]]) + KeptFrom(columns, drop, k + 1)
  }

  /**
    The column labels left after `DataFrame.drop(drop, axis=1)`: the labels
    of `columns` not in `drop`, in their original order (`WithoutMembers`,
    `WithoutKeepsOrder`).
   */
  function Without(columns: seq<Column>, drop: set<Column>): seq<Column> {
    KeptFrom(columns, drop, 0)
  }

  /** `a` is `b` with some elements left out, the rest in their order. */
  predicate IsSubsequence(a: seq<Column>, b: seq<Column>)
    decreases |b|
  {
    a == [] || (b != [] && ((a[0] == b[0] && IsSubsequence(a[1..], b[1..])) || IsSubsequence(a, b[1..])))
  }

  /** From position `k` on, a column survives exactly when it was there and is not dropped. */
  lemma {:induction false} KeptFromMembers(columns: seq<Column>, drop: set<Column>, k: nat)
    requires k <= |columns|
    ensures forall c :: c in KeptFrom(columns, drop, k) <==> c in columns[k..] && c !in drop
    ensures (forall c :: c in columns ==> c !in drop) ==> KeptFrom(columns, drop, k) == columns[k..]
    decreases |columns| - k
  {
    if k < |columns| {
      KeptFromMembers(columns, drop, k + 1);
      assert columns[k..] == [columns[k]] + columns[k + 1..];
    }
  }

  /** From position `k` on, the kept columns appear in `columns` in the same order. */
  lemma {:induction false} KeptFromSubsequence(columns: seq<Column>, drop: set<Column>, k: nat)
    requires k <= |columns|
    ensures IsSubsequence(KeptFrom(columns, drop, k), columns[k..])
    decreases |columns| - k
  {
    if k < |columns| {
      KeptFromSubsequence(columns, drop, k + 1);
      var rest := KeptFrom(columns, drop, k + 1);
      var b := columns[k..];
      assert b[0] == columns[k] && b[1..] == columns[k + 1..];
      if columns[k] in drop {
        assert KeptFrom(columns, drop, k) == rest;
      } else {
        var a := [columns[k]] + rest;
        assert KeptFrom(columns, drop, k) == a;
        assert a[0] == b[0] && a[1..] == rest;
      }
    }
  }

  /** A column survives the drop exactly when it was there and is not dropped; nothing else changes. */
  lemma WithoutMembers(columns: seq<Column>, drop: set<Column>)
    ensures forall c :: c in Without(columns, drop) <==> c in columns && c !in drop
    ensures (forall c :: c in columns ==> c !in drop) ==> Without(columns, drop) == columns
  {
    KeptFromMembers(columns, drop, 0);
    assert columns[0..] == columns;
  }

  /** The columns left after a drop keep the order they had. */
  lemma WithoutKeepsOrder(columns: seq<Column>, drop: set<Column>)
    ensures IsSubsequence(Without(columns, drop), columns)
  {
    KeptFromSubsequence(columns, drop, 0);
    assert columns[0..] == columns;
  }

  /** The header of the downloaded transaction table. */
  const RawColumns: seq<Column> :=
    [Step, Type, Amount, NameOrig, OldbalanceOrg, NewbalanceOrig, NameDest, OldbalanceDest, NewbalanceDest,
     IsFraud, IsFlaggedFraud]

  /** The trainer drops the two account names and the existing flag. */
  const DroppedColumns: set<Column> := {NameOrig, NameDest, IsFlaggedFraud}

  /** The column the trainer learns to predict. */
  const LabelColumn: Column := IsFraud

  /** The trainer's columns after the drop, with `actualAmount` appended at the end. */
  function ProcessedColumns(): seq<Column> {
    Without(RawColumns, DroppedColumns) + [ActualAmount]
  }

  /** The trainer's feature columns: every processed column but the label. */
  function TrainingColumns(): seq<Column> {
    Without(ProcessedColumns(), {LabelColumn})
  }

  /** The scorer's one-row table, column by column. */
  const ScoringColumns: seq<Column> :=
    [Step, Type, Amount, OldbalanceOrg, NewbalanceOrig, OldbalanceDest, NewbalanceDest, ActualAmount]

  /** Dropping leaves the other columns in their order; `actualAmount` comes last. */
  lemma ProcessedColumnsOrder()
    ensures ProcessedColumns() ==
      [Step, Type, Amount, OldbalanceOrg, NewbalanceOrig, OldbalanceDest, NewbalanceDest, IsFraud, ActualAmount]
  {
    assert Without(RawColumns, DroppedColumns) ==
      [Step, Type, Amount, OldbalanceOrg, NewbalanceOrig, OldbalanceDest, NewbalanceDest, IsFraud]
    by {
      assert KeptFrom(RawColumns, DroppedColumns, 6) == [OldbalanceDest, NewbalanceDest, IsFraud];
    }
  }

  /**
    Both of the trainer's drops name columns the table has, so neither
    reaches the KeyError `DataFrame.drop` raises for an absent label.
   */
  lemma DropsArePresent()
    ensures forall c :: c in DroppedColumns ==> c in RawColumns
    ensures LabelColumn in ProcessedColumns()
  {
    ProcessedColumnsOrder();
  }

  /** The trainer's features are the scorer's columns in the scorer's order, and never the label. */
  lemma TrainingColumnsMatchScoring()
    ensures TrainingColumns() == ScoringColumns
    ensures LabelColumn !in TrainingColumns()
  {
    ProcessedColumnsOrder();
    WithoutMembers(ProcessedColumns(), {LabelColumn});
    LabelDrop();
  }

  /** Dropping the label from the processed header, column by column. */
  lemma LabelDrop()
    ensures Without([Step, Type, Amount, OldbalanceOrg, NewbalanceOrig, OldbalanceDest, NewbalanceDest, IsFraud, ActualAmount],
                    {LabelColumn}) == ScoringColumns
  {
    assert KeptFrom([Step, Type, Amount, OldbalanceOrg, NewbalanceOrig, OldbalanceDest, NewbalanceDest, IsFraud, ActualAmount],
                    {LabelColumn}, 7) == [ActualAmount];
    assert KeptFrom([Step, Type, Amount, OldbalanceOrg, NewbalanceOrig, OldbalanceDest, NewbalanceDest, IsFraud, ActualAmount],
                    {LabelColumn}, 5) == [OldbalanceDest, NewbalanceDest, ActualAmount];
    assert KeptFrom([Step, Type, Amount, OldbalanceOrg, NewbalanceOrig, OldbalanceDest, NewbalanceDest, IsFraud, ActualAmount],
                    {LabelColumn}, 2) == [Amount, OldbalanceOrg, NewbalanceOrig, OldbalanceDest, NewbalanceDest, ActualAmount];
  }
}
