/**
  What the scorer hands the classifier, compared with what the trainer
  trained it on. The two programs build the same eight columns in the same
  order and compute `actualAmount` alike, but encode the transaction type
  with different tables: the trainer's dict display writes `PAYMENT`
  twice, and its later entry, 5, wins over the 2 the scorer uses.
 */
module Parity {
  import opened PyData
  import opened Schema
  import Scorer
  import Trainer

  /** The scorer's numbers for a downloaded row. */
  function RawAmounts(r: Trainer.RawRow): Scorer.Amounts {
    Scorer.Amounts(r.amount, r.oldbalanceOrg, r.newbalanceOrig, r.oldbalanceDest, r.newbalanceDest)
  }

  /** The row of `X` that preprocessing makes from `r` when its type is encoded as `code`. */
  function TrainingRow(r: Trainer.RawRow, code: int): seq<Cell> {
    Trainer.FeatureRow(Trainer.EncodeRow(r, code))
  }

  /** The training row of `r`, column by column. */
  lemma TrainingRowValues(r: Trainer.RawRow, code: int)
    ensures TrainingRow(r, code) ==
      [IntCell(r.step), IntCell(code), RealCell(r.amount), RealCell(r.oldbalanceOrg),
       RealCell(r.newbalanceOrig), RealCell(r.oldbalanceDest), RealCell(r.newbalanceDest),
       RealCell(ActualAmountOf(r.oldbalanceOrg, r.newbalanceOrig))]
  {
  }

  /** Row `i` of the trainer's `X` is the training row of downloaded row `i`, type encoded by the trainer's table. */
  lemma TrainingRowInX(rows: seq<Trainer.RawRow>, i: int)
    requires 0 <= i < |rows|
    ensures |Trainer.SplitXY(Trainer.Preprocess(rows)).0| == |rows|
    ensures Trainer.SplitXY(Trainer.Preprocess(rows)).0[i] == TrainingRow(rows[i], Trainer.TypeCode(rows[i].typeName))
  {
  }

  /**
    The two tables agree on CASH_OUT, TRANSFER, CASH_IN and DEBIT, and
    disagree on PAYMENT: the scorer sends 2, the trainer learned 5.
   */
  lemma TypeCodeParity(c: int)
    requires 0 <= c < |Scorer.KnownLabels|
    ensures Scorer.EncodeType(Scorer.KnownLabels[c]) == Some(c)
    ensures Trainer.TypeCode(Scorer.KnownLabels[c]) == (if Scorer.KnownLabels[c] == "PAYMENT" then 5 else c)
  {
    Scorer.EncodeKnownLabel(c);
    Trainer.TypeCodes(Scorer.KnownLabels[c]);
  }

  /**
    Given the same type code, the training row and the scoring row are
    the same row exactly when the step is 1, the step the scorer always
    sends: the amount, the four balances and `actualAmount` always agree.
   */
  lemma RowParity(r: Trainer.RawRow, code: int)
    ensures TrainingRow(r, code) == Scorer.FeatureRow(RawAmounts(r), code) <==> r.step == 1
  {
    TrainingRowValues(r, code);
    if TrainingRow(r, code) == Scorer.FeatureRow(RawAmounts(r), code) {
      assert TrainingRow(r, code)[0] == IntCell(1);
    }
  }

  /**
    As written, a PAYMENT row of step 1 is trained as the scorer would
    build it for type code 5, but the scorer sends code 2, a code no
    training row carries: the two rows differ.
   */
  lemma PaymentDrift(r: Trainer.RawRow)
    requires r.step == 1 && r.typeName == "PAYMENT"
    ensures Scorer.EncodeType(r.typeName) == Some(2) && Trainer.TypeCode(r.typeName) == 5
    ensures TrainingRow(r, Trainer.TypeCode(r.typeName)) == Scorer.FeatureRow(RawAmounts(r), 5)
    ensures TrainingRow(r, Trainer.TypeCode(r.typeName)) != Scorer.FeatureRow(RawAmounts(r), 2)
  {
    TypeCodeParity(2);
    RowParity(r, 5);
    assert Scorer.FeatureRow(RawAmounts(r), 5)[1] != Scorer.FeatureRow(RawAmounts(r), 2)[1];
  }

  /**
    The evidently intended trainer encoding: the scorer's table, matched
    exactly as `Series.map` does, with 0 for anything else.
   */
  function CorrectedTypeCode(name: string): int {
    if name in Scorer.TypeTable() then Scorer.TypeTable()[name] else 0
  }

  /**
    The corrected encoding gives every known label the scorer's code, and
    differs from the trainer's as written only on PAYMENT.
   */
  lemma CorrectedTypeCodes(name: string)
    ensures name in Scorer.KnownLabels ==> Scorer.EncodeType(name) == Some(CorrectedTypeCode(name))
    ensures name != "PAYMENT" ==> CorrectedTypeCode(name) == Trainer.TypeCode(name)
    ensures CorrectedTypeCode("PAYMENT") == 2 != Trainer.TypeCode("PAYMENT")
  {
    Scorer.TypeTableContents();
    Trainer.TypeCodes(name);
    if name in Scorer.KnownLabels {
      var c :| 0 <= c < |Scorer.KnownLabels| && Scorer.KnownLabels[c] == name;
      Scorer.EncodeKnownLabel(c);
    }
  }

  /**
    With the corrected table every row of step 1 labelled with one of the
    five known types, PAYMENT included, is scored on exactly the row it
    was trained on.
   */
  lemma CorrectedRowParity(rows: seq<Trainer.RawRow>, i: int)
    requires 0 <= i < |rows| && rows[i].step == 1 && rows[i].typeName in Scorer.KnownLabels
    ensures |Trainer.SplitXY(Trainer.PreprocessWith(rows, CorrectedTypeCode)).0| == |rows|
    ensures Scorer.EncodeType(rows[i].typeName) == Some(CorrectedTypeCode(rows[i].typeName))
    ensures Trainer.SplitXY(Trainer.PreprocessWith(rows, CorrectedTypeCode)).0[i]
         == Scorer.FeatureRow(RawAmounts(rows[i]), CorrectedTypeCode(rows[i].typeName))
  {
    CorrectedTypeCodes(rows[i].typeName);
    RowParity(rows[i], CorrectedTypeCode(rows[i].typeName));
  }
}
