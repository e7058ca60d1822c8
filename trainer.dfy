/**
  The trainer's row preprocessing (`load_and_preprocess`) and its split of
  the table into features and label. Each downloaded row loses the two
  account names and the existing flag column, has its type label replaced
  by a code from a dict display, and gains the sender's balance drop as
  `actualAmount`; the features are every remaining column but `isFraud`.
 */
module Trainer {
  import opened PyData
  import opened Schema

  /** One row of the downloaded transaction table, fields in the table's column order. */
  datatype RawRow = RawRow(step: int, typeName: string, amount: real, nameOrig: string,
                           oldbalanceOrg: real, newbalanceOrig: real, nameDest: string,
                           oldbalanceDest: real, newbalanceDest: real,
                           isFraud: int, isFlaggedFraud: int)

  /** The trainer's dict display, with `PAYMENT` written twice. */
  const TypeEntries: seq<(string, int)> :=
    [("CASH_OUT", 0), ("TRANSFER", 1), ("PAYMENT", 2), ("CASH_IN", 3), ("DEBIT", 4), ("PAYMENT", 5)]

  function TypeTable(): map<string, int> { DictLiteral(TypeEntries) }

  /**
    `Series.map(table).fillna(0)`: an exact-match lookup, 0 for anything the
    table lacks. The codes are those of the effective table, never 2, and
    a label gets a code other than 0 exactly when it is written as one of
    the four table keys besides CASH_OUT.
   */
  function TypeCode(name: string): (code: int)
    ensures code in {0, 1, 3, 4, 5}
    ensures code != 0 <==> name in ["TRANSFER", "PAYMENT", "CASH_IN", "DEBIT"]
  {
    TypeTableContents();
    if name in TypeTable() then TypeTable()[name] else 0
  }

  /** A preprocessed row, fields in the column order of the resulting table. */
  datatype Row = Row(step: int, typeCode: int, amount: real, oldbalanceOrg: real, newbalanceOrig: real,
                     oldbalanceDest: real, newbalanceDest: real, isFraud: int, actualAmount: real)

  /** A downloaded row keyed by column. */
  function RawCells(r: RawRow): map<Column, Cell> {
    map[Step := IntCell(r.step), Type := TextCell(r.typeName), Amount := RealCell(r.amount),
        NameOrig := TextCell(r.nameOrig), OldbalanceOrg := RealCell(r.oldbalanceOrg),
        NewbalanceOrig := RealCell(r.newbalanceOrig), NameDest := TextCell(r.nameDest),
        OldbalanceDest := RealCell(r.oldbalanceDest), NewbalanceDest := RealCell(r.newbalanceDest),
        IsFraud := IntCell(r.isFraud), IsFlaggedFraud := IntCell(r.isFlaggedFraud)]
  }

  /** A preprocessed row keyed by column. */
  function RowCells(p: Row): map<Column, Cell> {
    map[Step := IntCell(p.step), Type := IntCell(p.typeCode), Amount := RealCell(p.amount),
        OldbalanceOrg := RealCell(p.oldbalanceOrg), NewbalanceOrig := RealCell(p.newbalanceOrig),
        OldbalanceDest := RealCell(p.oldbalanceDest), NewbalanceDest := RealCell(p.newbalanceDest),
        IsFraud := IntCell(p.isFraud), ActualAmount := RealCell(p.actualAmount)]
  }

  /**
    One row through the preprocessing: the dropped columns are gone, `type`
    holds the code, the new `actualAmount` is the sender's balance drop,
    and every other column keeps its value.
   */
  function EncodeRow(r: RawRow, code: int): (p: Row)
    ensures RowCells(p) ==
      (RawCells(r) - DroppedColumns)[Type := IntCell(code)][ActualAmount := RealCell(ActualAmountOf(r.oldbalanceOrg, r.newbalanceOrig))]
  {
    Row(r.step, code, r.amount, r.oldbalanceOrg, r.newbalanceOrig, r.oldbalanceDest, r.newbalanceDest,
        r.isFraud, ActualAmountOf(r.oldbalanceOrg, r.newbalanceOrig))
  }

  /** The column-wise steps applied to every row, with `code` as the type encoding. */
  function PreprocessWith(rows: seq<RawRow>, code: string -> int): (out: seq<Row>)
    ensures |out| == |rows|
    ensures forall i :: 0 <= i < |rows| ==> out[i] == EncodeRow(rows[i], code(rows[i].typeName))
  {
    if rows == [] then []
    else [EncodeRow(rows[0], code(rows[0].typeName))] + PreprocessWith(rows[1..], code)
  }

  /** `load_and_preprocess` once the table is read: row count and row order are kept. */
  function Preprocess(rows: seq<RawRow>): (out: seq<Row>)
    ensures |out| == |rows|
    ensures forall i :: 0 <= i < |rows| ==> out[i] == EncodeRow(rows[i], TypeCode(rows[i].typeName))
  {
    PreprocessWith(rows, TypeCode)
  }

  /**
    One row of `X`: the preprocessed row's values in the training columns'
    order, which is every column but `isFraud`, in the scorer's order.
   */
  function FeatureRow(p: Row): (x: seq<Cell>)
    ensures x ==
      [IntCell(p.step), IntCell(p.typeCode), RealCell(p.amount), RealCell(p.oldbalanceOrg), RealCell(p.newbalanceOrig),
       RealCell(p.oldbalanceDest), RealCell(p.newbalanceDest), RealCell(p.actualAmount)]
  {
    TrainingColumnsMatchScoring();
    ScoringCells(p);
    Select(RowCells(p), TrainingColumns())
  }

  /**
    `X = df.drop('isFraud', axis=1)` and `y = df['isFraud']`: one entry per
    row, in row order; row `i` of `X` is every value of row `i` but its
    label, and `y[i]` is that label.
   */
  function SplitXY(rows: seq<Row>): (xy: (seq<seq<Cell>>, seq<int>))
    ensures |xy.0| == |rows| && |xy.1| == |rows|
    ensures forall i :: 0 <= i < |rows| ==>
      xy.0[i] == [IntCell(rows[i].step), IntCell(rows[i].typeCode), RealCell(rows[i].amount),
                  RealCell(rows[i].oldbalanceOrg), RealCell(rows[i].newbalanceOrig), RealCell(rows[i].oldbalanceDest),
                  RealCell(rows[i].newbalanceDest), RealCell(rows[i].actualAmount)]
    ensures forall i :: 0 <= i < |rows| ==> xy.1[i] == rows[i].isFraud
  {
    (seq(|rows|, i requires 0 <= i < |rows| => FeatureRow(rows[i])),
     seq(|rows|, i requires 0 <= i < |rows| => rows[i].isFraud))
  }

  // ---------------------------------------------------------------------
  // Properties

  /** The later `PAYMENT` entry overrides the earlier one: the effective table maps PAYMENT to 5. */
  lemma TypeTableContents()
    ensures TypeTable() == map["CASH_OUT" := 0, "TRANSFER" := 1, "CASH_IN" := 3, "DEBIT" := 4, "PAYMENT" := 5]
  {
    var e := TypeEntries;
    DictLiteralUnroll(e);
    DictLiteralUnroll(e[..5]);
    DictLiteralUnroll(e[..4]);
    DictLiteralUnroll(e[..3]);
    DictLiteralUnroll(e[..2]);
    DictLiteralUnroll(e[..1]);
    assert e[..5][..4] == e[..4] && e[..4][..3] == e[..3] && e[..3][..2] == e[..2]
        && e[..2][..1] == e[..1] && e[..1][..0] == [];
  }

  /**
    The trainer's codes, and the fallback: every label outside the table,
    including a known label in another letter case, gets the code of CASH_OUT.
   */
  lemma TypeCodes(name: string)
    ensures TypeCode("CASH_OUT") == 0 && TypeCode("TRANSFER") == 1 && TypeCode("PAYMENT") == 5
    ensures TypeCode("CASH_IN") == 3 && TypeCode("DEBIT") == 4
    ensures name !in ["CASH_OUT", "TRANSFER", "PAYMENT", "CASH_IN", "DEBIT"] ==> TypeCode(name) == 0
    ensures TypeCode("transfer") == TypeCode("CASH_OUT") != TypeCode("TRANSFER")
  {
    TypeTableContents();
  }

  /** The preprocessed row has a value in exactly the processed columns. */
  lemma RowCellsColumns(p: Row)
    ensures forall c :: c in RowCells(p) <==> c in ProcessedColumns()
  {
    ProcessedColumnsOrder();
  }

  /** Every preprocessed row carries the sender's balance drop and a code the table can produce. */
  lemma PreprocessRows(rows: seq<RawRow>)
    ensures forall i :: 0 <= i < |rows| ==>
      Preprocess(rows)[i].actualAmount == rows[i].oldbalanceOrg - rows[i].newbalanceOrig
      && Preprocess(rows)[i].typeCode in {0, 1, 3, 4, 5}
  {
    TypeTableContents();
  }

  /** The scorer's columns picked from a preprocessed row. */
  lemma ScoringCells(p: Row)
    ensures Select(RowCells(p), ScoringColumns) ==
      [IntCell(p.step), IntCell(p.typeCode), RealCell(p.amount), RealCell(p.oldbalanceOrg), RealCell(p.newbalanceOrig),
       RealCell(p.oldbalanceDest), RealCell(p.newbalanceDest), RealCell(p.actualAmount)]
  {
  }
}
