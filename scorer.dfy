/**
  The scoring endpoint `POST /predict`: one request in, one response out.
  The handler checks, in this order, that the request has a JSON content
  type, that no required field is missing, that the five numbers convert
  with `float`, that the balances agree with the amount, and that the
  transaction type is known; only then does it build the feature row and ask the loaded
  classifier, or a fixed heuristic when none was loaded.
 */
module Scorer {
  import opened PyData
  import opened Schema

  // ---------------------------------------------------------------------
  // Requests, responses and the classifier

  /** A JSON value as the handler sees it; the contents of lists and objects never matter. */
  datatype Json = JInt(i: int) | JFloat(x: real) | JStr(s: string) | JBool(b: bool) | JNull | JList | JDict

  /** The request: a body without a JSON content type, or a JSON object. */
  datatype Request = NonJson | JsonBody(data: map<string, Json>)

  /** The two exception classes the handler tells apart. */
  datatype Exception = ValueError(msg: string) | OtherError(msg: string)

  datatype FloatResult = Number(x: real) | Raise(e: Exception)

  /** The five balances and the amount, after conversion. */
  datatype Amounts = Amounts(amount: real, oldbalanceOrg: real, newbalanceOrig: real,
                             oldbalanceDest: real, newbalanceDest: real)

  /** `predict_proba(row)[0]`: the probability of class 0 (safe) and of class 1 (fraud). */
  datatype Probabilities = Probabilities(safe: real, fraud: real)

  /**
    The loaded classifier, seen only through `predict` and `predict_proba`
    on a one-row table, given as the row's values in column order.
   */
  datatype Classifier = Classifier(predict: seq<Cell> -> int, predictProba: seq<Cell> -> Probabilities)

  /**
    What the handler returns: an error status with its message, or a 200
    body with the score; `reason` is present on the balance-rule answer
    and `amountVerified` on every other score.
   */
  datatype Response =
    | Failure(status: int, message: string)
    | Scored(prediction: int, isFraud: bool, fraudProbability: real, safeProbability: real,
             confidence: real, ruleBasedFlag: bool, reason: Option<string>, amountVerified: Option<bool>)

  const RequiredFields: seq<string> :=
    ["type", "amount", "oldbalanceOrg", "newbalanceOrig", "oldbalanceDest", "newbalanceDest"]

  /** The fields converted with `float`, in the order the handler converts them. */
  const NumericFields: seq<string> :=
    ["amount", "oldbalanceOrg", "newbalanceOrig", "oldbalanceDest", "newbalanceDest"]

  const Tolerance: real := 0.01
  const LargeAmount: real := 100000.0
  const MismatchReason: string := "Amount mismatch between sender and receiver"

  // ---------------------------------------------------------------------
  // Field validation

  /**
    The first of `fields` that `data` lacks, or None when all are present:
    the loop over the required fields that returns on the first miss.
   */
  function FirstMissing(data: map<string, Json>, fields: seq<string>): (missing: Option<string>)
    ensures missing == None <==> forall f :: f in fields ==> f in data
    ensures missing.Some? ==>
      exists i :: 0 <= i < |fields| && fields[i] == missing.value && missing.value !in data
        && forall j :: 0 <= j < i ==> fields[j] in data
  {
    if fields == [] then None
    else if fields[0] !in data then Some(fields[0])
    else
      var rest := FirstMissing(data, fields[1..]);
      assert forall f :: f in fields <==> f == fields[0] || f in fields[1..];
      if rest.Some? then
        var i :| 0 <= i < |fields[1..]| && fields[1..][i] == rest.value && rest.value !in data
                 && forall j :: 0 <= j < i ==> fields[1..][j] in data;
        assert fields[i + 1] == rest.value;
        rest
      else rest
  }

  // ---------------------------------------------------------------------
  // Number conversion

  /** The name Python gives the type of a JSON value. */
  function TypeName(v: Json): string {
    match v
    case JInt(_) => "int"
    case JFloat(_) => "float"
    case JStr(_) => "str"
    case JBool(_) => "bool"
    case JNull => "NoneType"
    case JList => "list"
    case JDict => "dict"
  }

  /**
    Python's `float(v)`. Numbers and booleans convert; a string converts
    when `parseStr` accepts it and raises ValueError otherwise; null, lists
    and objects raise TypeError, which the handler treats as any other error.
   */
  function Float(v: Json, parseStr: string -> Option<real>): (r: FloatResult)
    ensures r.Number? <==> v.JInt? || v.JFloat? || v.JBool? || (v.JStr? && parseStr(v.s).Some?)
    ensures r.Raise? && r.e.ValueError? <==> v.JStr? && parseStr(v.s).None?
    ensures r.Raise? && r.e.OtherError? <==> v.JNull? || v.JList? || v.JDict?
    ensures v.JInt? ==> r == Number(v.i as real)
    ensures v.JFloat? ==> r == Number(v.x)
    ensures v.JBool? ==> r == Number(if v.b then 1.0 else 0.0)
    ensures v.JStr? && parseStr(v.s).Some? ==> r == Number(parseStr(v.s).value)
  {
    match v
    case JInt(i) => Number(i as real)
    case JFloat(x) => Number(x)
    case JBool(b) => Number(if b then 1.0 else 0.0)
    case JStr(s) =>
      (match parseStr(s)
       case Some(x) => Number(x)
       case None => Raise(ValueError("could not convert string to float: '" + s + "'")))
    case _ => Raise(OtherError("float() argument must be a string or a real number, not '" + TypeName(v) + "'"))
  }

  datatype Converted = Converted(xs: seq<real>) | Raised(e: Exception)

  /**
    The outcomes of converting the numeric fields one statement after
    another: the first exception stops the sequence and is the outcome;
    otherwise every number is kept, in order.
   */
  function ConvertAll(rs: seq<FloatResult>): (r: Converted)
    ensures r.Converted? ==> |r.xs| == |rs| && forall i :: 0 <= i < |rs| ==> rs[i] == Number(r.xs[i])
    ensures r.Raised? ==> exists i :: 0 <= i < |rs| && FirstRaise(rs, i) && rs[i] == Raise(r.e)
  {
    if rs == [] then Converted([])
    else if rs[0].Raise? then
      assert FirstRaise(rs, 0);
      Raised(rs[0].e)
    else
      var rest := ConvertAll(rs[1..]);
      if rest.Raised? then
        var i :| 0 <= i < |rs[1..]| && FirstRaise(rs[1..], i) && rs[1..][i] == Raise(rest.e);
        assert forall j :: 0 <= j < i ==> rs[1..][j] == rs[j + 1];
        assert FirstRaise(rs, i + 1);
        rest
      else
        Converted([rs[0].x] + rest.xs)
  }

  /** `rs[i]` is the first outcome that raises. */
  predicate FirstRaise(rs: seq<FloatResult>, i: int)
    requires 0 <= i < |rs|
  {
    rs[i].Raise? && forall j :: 0 <= j < i ==> rs[j].Number?
  }

  // ---------------------------------------------------------------------
  // Balance-consistency rule

  function Abs(x: real): real { if x < 0.0 then -x else x }

  /**
    Both balance changes match the amount within the fixed absolute
    tolerance: each new balance lies strictly within one cent of the
    balance the amount implies.
   */
  predicate AmountVerified(t: Amounts): (ok: bool)
    ensures ok <==>
      && t.oldbalanceOrg - t.amount - Tolerance < t.newbalanceOrig < t.oldbalanceOrg - t.amount + Tolerance
      && t.oldbalanceDest + t.amount - Tolerance < t.newbalanceDest < t.oldbalanceDest + t.amount + Tolerance
  {
    var senderDiff := t.oldbalanceOrg - t.newbalanceOrig;
    var receiverDiff := t.newbalanceDest - t.oldbalanceDest;
    Abs(senderDiff - t.amount) < Tolerance && Abs(receiverDiff - t.amount) < Tolerance
  }

  /** The answer given, without consulting the type or the classifier, when the balances disagree. */
  const MismatchResponse: Response :=
    Scored(1, true, 100.0, 0.0, 100.0, true, Some(MismatchReason), None)

  // ---------------------------------------------------------------------
  // Transaction type

  /** `str.upper` on ASCII letters. */
  function UpperChar(c: char): char {
    if 'a' <= c <= 'z' then (c as int - 32) as char else c
  }

  /** `str.upper` on ASCII text: no lower-case letter is left, and nothing else changes. */
  function Upper(s: string): (u: string)
    ensures |u| == |s|
    ensures forall i :: 0 <= i < |s| ==> !('a' <= u[i] <= 'z')
    ensures forall i :: 0 <= i < |s| && !('a' <= s[i] <= 'z') ==> u[i] == s[i]
    ensures forall i :: 0 <= i < |s| && 'a' <= s[i] <= 'z' ==> u[i] as int == s[i] as int - ('a' as int - 'A' as int)
  {
    seq(|s|, i requires 0 <= i < |s| => UpperChar(s[i]))
  }

  const TypeEntries: seq<(string, int)> :=
    [("CASH_OUT", 0), ("TRANSFER", 1), ("PAYMENT", 2), ("CASH_IN", 3), ("DEBIT", 4)]

  /** The handler's type table. */
  function TypeTable(): map<string, int> { DictLiteral(TypeEntries) }

  /** The known labels, indexed by their code. */
  const KnownLabels: seq<string> := ["CASH_OUT", "TRANSFER", "PAYMENT", "CASH_IN", "DEBIT"]

  /**
    The code of a type label after upper-casing, or None when it is not a
    known label: encoding fails exactly off the known labels, and a code
    names the label it came from.
   */
  function EncodeType(name: string): (code: Option<int>)
    ensures code.None? <==> Upper(name) !in KnownLabels
    ensures code.Some? ==> 0 <= code.value < |KnownLabels| && KnownLabels[code.value] == Upper(name)
  {
    TypeTableContents();
    var u := Upper(name);
    if u in TypeTable() then Some(TypeTable()[u]) else None
  }

  // ---------------------------------------------------------------------
  // Feature row and scoring

  /**
    The one-row table the handler builds for a verified transaction, keyed
    by column name: step fixed at 1, `actualAmount` the sender's balance drop.
   */
  function TransactionCells(t: Amounts, code: int): map<Column, Cell> {
    map[Step := IntCell(1), Type := IntCell(code), Amount := RealCell(t.amount),
        OldbalanceOrg := RealCell(t.oldbalanceOrg), NewbalanceOrig := RealCell(t.newbalanceOrig),
        OldbalanceDest := RealCell(t.oldbalanceDest), NewbalanceDest := RealCell(t.newbalanceDest),
        ActualAmount := RealCell(ActualAmountOf(t.oldbalanceOrg, t.newbalanceOrig))]
  }

  /**
    The table after `transaction[cols]`: its values are [1, code, amount,
    oldbalanceOrg, newbalanceOrig, oldbalanceDest, newbalanceDest,
    oldbalanceOrg - newbalanceOrig], in that order.
   */
  function FeatureRow(t: Amounts, code: int): (f: seq<Cell>)
    ensures f ==
      [IntCell(1), IntCell(code), RealCell(t.amount), RealCell(t.oldbalanceOrg), RealCell(t.newbalanceOrig),
       RealCell(t.oldbalanceDest), RealCell(t.newbalanceDest),
       RealCell(ActualAmountOf(t.oldbalanceOrg, t.newbalanceOrig))]
  {
    Select(TransactionCells(t, code), ScoringColumns)
  }

  function Max(a: real, b: real): real { if a >= b then a else b }

  /**
    The score when a classifier is loaded: fraud exactly when it predicts a
    non-zero class, its probabilities in percent, and the larger of the two
    as the confidence; not rule-based, amount verified.
   */
  function ModelScore(m: Classifier, f: seq<Cell>): (r: Response)
    ensures r.Scored? && r.prediction == (if r.isFraud then 1 else 0) && (r.isFraud <==> m.predict(f) != 0)
    ensures r.fraudProbability == 100.0 * m.predictProba(f).fraud && r.safeProbability == 100.0 * m.predictProba(f).safe
    ensures r.confidence >= r.fraudProbability && r.confidence >= r.safeProbability
    ensures r.confidence == r.fraudProbability || r.confidence == r.safeProbability
    ensures !r.ruleBasedFlag && r.reason == None && r.amountVerified == Some(true)
  {
    var p := m.predictProba(f);
    var isFraud := m.predict(f) != 0;
    Scored(if isFraud then 1 else 0, isFraud, p.fraud * 100.0, p.safe * 100.0,
           Max(p.safe, p.fraud) * 100.0, false, None, Some(true))
  }

  /**
    The score when no classifier is loaded: fraud exactly above 100000,
    scored 95 or 5 with the complement as the safe probability, confidence
    95, rule-based, amount verified.
   */
  function FallbackScore(amount: real): (r: Response)
    ensures r.Scored? && r.prediction == (if r.isFraud then 1 else 0) && (r.isFraud <==> amount > 100000.0)
    ensures r.fraudProbability == (if r.isFraud then 95.0 else 5.0)
    ensures r.fraudProbability + r.safeProbability == 100.0 && r.confidence == 95.0
    ensures r.ruleBasedFlag && r.reason == None && r.amountVerified == Some(true)
  {
    var isFraud := amount > LargeAmount;
    var fraudProb := if isFraud then 95.0 else 5.0;
    var safeProb := 100.0 - fraudProb;
    Scored(if isFraud then 1 else 0, isFraud, fraudProb, safeProb, Max(fraudProb, safeProb), true, None, Some(true))
  }

  /**
    Everything after the numbers converted: the balance rule decides first,
    whatever the type and the classifier; then a non-string type is a 500
    and an unknown one a 400; otherwise the row is scored, by the
    classifier when one is loaded.
   */
  function Score(t: Amounts, typeValue: Json, model: Option<Classifier>): (r: Response)
    ensures r == MismatchResponse <==> !AmountVerified(t)
    ensures r.Failure? <==> AmountVerified(t) && (!typeValue.JStr? || Upper(typeValue.s) !in KnownLabels)
    ensures r.Failure? ==> (r.status == 400 <==> typeValue.JStr?) && (r.status == 400 || r.status == 500)
    ensures r.Scored? && r != MismatchResponse ==>
      r.reason == None && r.amountVerified == Some(true) && (r.ruleBasedFlag <==> model.None?)
  {
    if !AmountVerified(t) then MismatchResponse
    else if !typeValue.JStr? then Failure(500, "'" + TypeName(typeValue) + "' object has no attribute 'upper'")
    else
      match EncodeType(typeValue.s)
      case None => Failure(400, "Invalid transaction type")
      case Some(code) =>
        var f := FeatureRow(t, code);
        match model
        case Some(m) => ModelScore(m, f)
        case None => FallbackScore(t.amount)
  }

  /** `float` applied to the numeric fields, in the order the handler converts them. */
  function Conversions(data: map<string, Json>, parseStr: string -> Option<real>): seq<FloatResult>
    requires forall f :: f in NumericFields ==> f in data
  {
    seq(|NumericFields|, i requires 0 <= i < |NumericFields| => Float(data[NumericFields[i]], parseStr))
  }

  /**
    The handler. `model` is the classifier loaded at startup, if any;
    `parseStr` is the string grammar `float` accepts.
   */
  function Predict(req: Request, model: Option<Classifier>, parseStr: string -> Option<real>): (r: Response)
    ensures r.Failure? ==> r.status == 400 || r.status == 500
    ensures r.Scored? ==> r.prediction == (if r.isFraud then 1 else 0)
    ensures r.Scored? ==> (r.reason.Some? <==> r.amountVerified.None?)
    ensures r.Scored? && r.amountVerified.Some? ==> r.amountVerified.value
    ensures r.Scored? && r.reason.Some? ==> r == MismatchResponse
    ensures r.Scored? && r.reason.None? ==> (r.ruleBasedFlag <==> model.None?)
  {
    match req
    case NonJson => Failure(400, "Request must be JSON")
    case JsonBody(data) =>
      match FirstMissing(data, RequiredFields)
      case Some(field) => Failure(400, "Missing field: " + field)
      case None =>
        match ConvertAll(Conversions(data, parseStr))
        case Raised(ValueError(msg)) => Failure(400, "Invalid input value: " + msg)
        case Raised(OtherError(msg)) => Failure(500, msg)
        case Converted(xs) =>
          Score(Amounts(xs[0], xs[1], xs[2], xs[3], xs[4]), data["type"], model)
  }

  // ---------------------------------------------------------------------
  // Properties of the type encoding

  /** Upper-casing twice is upper-casing once. */
  lemma UpperIdempotent(s: string)
    ensures Upper(Upper(s)) == Upper(s)
  {
  }

  /** Upper-casing leaves a string without lower-case ASCII letters as it is. */
  lemma UpperFixesUpperCase(s: string)
    requires forall i :: 0 <= i < |s| ==> !('a' <= s[i] <= 'z')
    ensures Upper(s) == s
  {
  }

  /** The handler's table maps the i-th known label to i and holds nothing else. */
  lemma TypeTableContents()
    ensures TypeTable() == map["CASH_OUT" := 0, "TRANSFER" := 1, "PAYMENT" := 2, "CASH_IN" := 3, "DEBIT" := 4]
    ensures forall k :: k in TypeTable() <==> k in KnownLabels
    ensures forall c :: 0 <= c < |KnownLabels| ==> TypeTable()[KnownLabels[c]] == c
  {
    var e := TypeEntries;
    DictLiteralUnroll(e);
    DictLiteralUnroll(e[..4]);
    DictLiteralUnroll(e[..3]);
    DictLiteralUnroll(e[..2]);
    DictLiteralUnroll(e[..1]);
    assert e[..4][..3] == e[..3] && e[..3][..2] == e[..2] && e[..2][..1] == e[..1] && e[..1][..0] == [];
  }

  /** Every known label encodes to its index. */
  lemma EncodeKnownLabel(c: int)
    requires 0 <= c < |KnownLabels|
    ensures EncodeType(KnownLabels[c]) == Some(c)
  {
    var s := KnownLabels[c];
    assert forall i :: 0 <= i < |s| ==> !('a' <= s[i] <= 'z');
    UpperFixesUpperCase(s);
    TypeTableContents();
  }

  /** Matching ignores letter case: a label and its upper-case form encode alike. */
  lemma EncodeTypeIgnoresCase(name: string)
    ensures EncodeType(Upper(name)) == EncodeType(name)
  {
    UpperIdempotent(name);
  }

  lemma CashOutAnyCase()
    ensures EncodeType("cash_out") == EncodeType("CASH_OUT") == Some(0)
  {
    assert Upper("cash_out") == "CASH_OUT";
    EncodeTypeIgnoresCase("cash_out");
    EncodeKnownLabel(0);
  }

  // ---------------------------------------------------------------------
  // Properties of the handler

  /**
    The request's fields are named as the table's columns: the type, then
    the five numbers, each converted number landing in the column of the
    same name in the classifier's row.
   */
  lemma RequestFieldsAreColumns()
    ensures RequiredFields == [Label(Type)] + NumericFields
    ensures |NumericFields| == 5 && forall i :: 0 <= i < 5 ==> NumericFields[i] == Label(ScoringColumns[i + 2])
  {
  }

  /** The request body carries the five numbers of `t`, each converting with `float`. */
  predicate Carries(data: map<string, Json>, parseStr: string -> Option<real>, t: Amounts) {
    && (forall f :: f in RequiredFields ==> f in data)
    && Float(data["amount"], parseStr) == Number(t.amount)
    && Float(data["oldbalanceOrg"], parseStr) == Number(t.oldbalanceOrg)
    && Float(data["newbalanceOrig"], parseStr) == Number(t.newbalanceOrig)
    && Float(data["oldbalanceDest"], parseStr) == Number(t.oldbalanceDest)
    && Float(data["newbalanceDest"], parseStr) == Number(t.newbalanceDest)
  }

  /** Once every field is present and converts, the handler goes on to `Score` with those numbers. */
  lemma ConvertedRequestIsScored(data: map<string, Json>, model: Option<Classifier>,
                                 parseStr: string -> Option<real>, t: Amounts)
    requires Carries(data, parseStr, t)
    ensures Predict(JsonBody(data), model, parseStr) == Score(t, data["type"], model)
  {
    var rs := Conversions(data, parseStr);
    var xs := [t.amount, t.oldbalanceOrg, t.newbalanceOrig, t.oldbalanceDest, t.newbalanceDest];
    assert NumericFields == ["amount", "oldbalanceOrg", "newbalanceOrig", "oldbalanceDest", "newbalanceDest"];
    ConvertAllNumbers(rs, xs);
  }

  /** When every value converts, the conversion yields exactly those numbers. */
  lemma {:induction false} ConvertAllNumbers(rs: seq<FloatResult>, xs: seq<real>)
    requires |xs| == |rs| && forall i :: 0 <= i < |rs| ==> rs[i] == Number(xs[i])
    ensures ConvertAll(rs) == Converted(xs)
  {
    if rs != [] {
      ConvertAllNumbers(rs[1..], xs[1..]);
      assert xs == [xs[0]] + xs[1..];
    }
  }

  /** When the `i`-th conversion is the first to raise, its exception is the outcome. */
  lemma {:induction false} ConvertAllFirstRaise(rs: seq<FloatResult>, i: int)
    requires 0 <= i < |rs| && FirstRaise(rs, i)
    ensures ConvertAll(rs) == Raised(rs[i].e)
  {
    if i > 0 {
      assert rs[1..][i - 1] == rs[i];
      assert FirstRaise(rs[1..], i - 1) by {
        forall j | 0 <= j < i - 1 ensures rs[1..][j].Number? {
          assert rs[1..][j] == rs[j + 1];
        }
      }
      ConvertAllFirstRaise(rs[1..], i - 1);
    }
  }

  lemma NotJsonRejected(model: Option<Classifier>, parseStr: string -> Option<real>)
    ensures Predict(NonJson, model, parseStr) == Failure(400, "Request must be JSON")
  {
  }

  /**
    A request lacking a required field is refused with 400 naming the first
    missing field in list order, before any conversion or rule.
   */
  lemma MissingFieldRejected(data: map<string, Json>, model: Option<Classifier>, parseStr: string -> Option<real>)
    requires exists f :: f in RequiredFields && f !in data
    ensures exists i :: (0 <= i < |RequiredFields| && RequiredFields[i] !in data
      && (forall j :: 0 <= j < i ==> RequiredFields[j] in data)
      && Predict(JsonBody(data), model, parseStr) == Failure(400, "Missing field: " + RequiredFields[i]))
  {
    var missing := FirstMissing(data, RequiredFields);
    var i :| 0 <= i < |RequiredFields| && RequiredFields[i] == missing.value && missing.value !in data
             && forall j :: 0 <= j < i ==> RequiredFields[j] in data;
  }

  /**
    When every field is present but a number does not convert, the first
    failing field decides: a ValueError gives 400 "Invalid input value",
    any other exception 500; no score is produced.
   */
  lemma ConversionErrorRejected(data: map<string, Json>, model: Option<Classifier>,
                                parseStr: string -> Option<real>, i: int)
    requires forall f :: f in RequiredFields ==> f in data
    requires 0 <= i < |NumericFields| && FirstRaise(Conversions(data, parseStr), i)
    ensures var e := Float(data[NumericFields[i]], parseStr).e;
      Predict(JsonBody(data), model, parseStr) ==
        (if e.ValueError? then Failure(400, "Invalid input value: " + e.msg) else Failure(500, e.msg))
  {
    ConvertAllFirstRaise(Conversions(data, parseStr), i);
  }

  /**
    The balance rule decides before the type is read and whatever the
    classifier: with inconsistent balances the answer is the rule's fraud
    verdict, even for an unknown or non-string type; with consistent ones it
    never is.
   */
  lemma BalanceRuleDecides(data: map<string, Json>, model: Option<Classifier>,
                           parseStr: string -> Option<real>, t: Amounts)
    requires Carries(data, parseStr, t)
    ensures Predict(JsonBody(data), model, parseStr) == MismatchResponse <==> !AmountVerified(t)
  {
    ConvertedRequestIsScored(data, model, parseStr, t);
  }

  /** A consistent request whose type is not a known label, after upper-casing, is refused with 400. */
  lemma UnknownTypeRejected(data: map<string, Json>, model: Option<Classifier>,
                            parseStr: string -> Option<real>, t: Amounts)
    requires Carries(data, parseStr, t) && AmountVerified(t)
    requires data["type"].JStr? && Upper(data["type"].s) !in KnownLabels
    ensures Predict(JsonBody(data), model, parseStr) == Failure(400, "Invalid transaction type")
  {
    ConvertedRequestIsScored(data, model, parseStr, t);
  }

  /** A request body whose five numbers are given as JSON integers. */
  function IntBody(typeValue: Json, amount: int, oldbalanceOrg: int, newbalanceOrig: int,
                   oldbalanceDest: int, newbalanceDest: int): map<string, Json>
  {
    map["type" := typeValue, "amount" := JInt(amount), "oldbalanceOrg" := JInt(oldbalanceOrg),
        "newbalanceOrig" := JInt(newbalanceOrig), "oldbalanceDest" := JInt(oldbalanceDest),
        "newbalanceDest" := JInt(newbalanceDest)]
  }

  /** A request of unknown type "WIRE" whose balances do not move is answered by the balance rule, whatever the classifier. */
  lemma UnknownTypeInconsistentBalances(model: Option<Classifier>, parseStr: string -> Option<real>)
    ensures Predict(JsonBody(IntBody(JStr("WIRE"), 100, 1000, 1000, 0, 0)), model, parseStr) == MismatchResponse
  {
    var data := IntBody(JStr("WIRE"), 100, 1000, 1000, 0, 0);
    var t := Amounts(100.0, 1000.0, 1000.0, 0.0, 0.0);
    assert Carries(data, parseStr, t);
    assert !AmountVerified(t);
    BalanceRuleDecides(data, model, parseStr, t);
  }

  /** The same type with balances that move by the amount is refused as an invalid type, whatever the classifier. */
  lemma UnknownTypeConsistentBalances(model: Option<Classifier>, parseStr: string -> Option<real>)
    ensures Predict(JsonBody(IntBody(JStr("WIRE"), 100, 1000, 900, 0, 100)), model, parseStr)
      == Failure(400, "Invalid transaction type")
  {
    var data := IntBody(JStr("WIRE"), 100, 1000, 900, 0, 100);
    var t := Amounts(100.0, 1000.0, 900.0, 0.0, 100.0);
    assert Carries(data, parseStr, t);
    assert Upper("WIRE") == "WIRE";
    UnknownTypeRejected(data, model, parseStr, t);
  }

  /**
    Without a classifier a consistent, well-typed request is fraud exactly
    when the amount exceeds 100000, scored 95 or 5 with the complement as
    the safe probability, confidence 95, flagged as rule-based.
   */
  lemma FallbackPath(data: map<string, Json>, parseStr: string -> Option<real>, t: Amounts)
    requires Carries(data, parseStr, t) && AmountVerified(t)
    requires data["type"].JStr? && EncodeType(data["type"].s).Some?
    ensures var r := Predict(JsonBody(data), None, parseStr);
      && r.Scored?
      && (r.isFraud <==> t.amount > 100000.0)
      && r.prediction == (if r.isFraud then 1 else 0)
      && r.fraudProbability == (if r.isFraud then 95.0 else 5.0)
      && r.safeProbability == 100.0 - r.fraudProbability
      && r.confidence == 95.0
      && r.ruleBasedFlag && r.reason == None && r.amountVerified == Some(true)
  {
    ConvertedRequestIsScored(data, None, parseStr, t);
  }

  /**
    With a classifier, a consistent, well-typed request is scored by that
    classifier on exactly the row [1, code, amount, oldbalanceOrg,
    newbalanceOrig, oldbalanceDest, newbalanceDest, oldbalanceOrg -
    newbalanceOrig]; probabilities are reported in percent.
   */
  lemma ModelPath(data: map<string, Json>, m: Classifier, parseStr: string -> Option<real>, t: Amounts)
    requires Carries(data, parseStr, t) && AmountVerified(t)
    requires data["type"].JStr? && EncodeType(data["type"].s).Some?
    ensures var code := EncodeType(data["type"].s).value;
      var f := [IntCell(1), IntCell(code), RealCell(t.amount), RealCell(t.oldbalanceOrg), RealCell(t.newbalanceOrig),
                RealCell(t.oldbalanceDest), RealCell(t.newbalanceDest),
                RealCell(ActualAmountOf(t.oldbalanceOrg, t.newbalanceOrig))];
      var r := Predict(JsonBody(data), Some(m), parseStr);
      && r.Scored?
      && (r.isFraud <==> m.predict(f) != 0)
      && r.prediction == (if r.isFraud then 1 else 0)
      && r.fraudProbability == 100.0 * m.predictProba(f).fraud
      && r.safeProbability == 100.0 * m.predictProba(f).safe
      && r.confidence == 100.0 * Max(m.predictProba(f).safe, m.predictProba(f).fraud)
      && !r.ruleBasedFlag && r.reason == None && r.amountVerified == Some(true)
  {
    ConvertedRequestIsScored(data, Some(m), parseStr, t);
  }

  /** `predict_proba` gives a probability distribution over the two classes. */
  predicate IsDistribution(p: Probabilities) {
    0.0 <= p.safe && 0.0 <= p.fraud && p.safe + p.fraud == 1.0
  }

  /**
    When `predict_proba` gives a distribution, the two reported percentages
    add to 100 and the confidence lies between 50 and 100.
   */
  lemma ConfidenceBounds(m: Classifier, f: seq<Cell>)
    ensures IsDistribution(m.predictProba(f)) ==>
      var r := ModelScore(m, f);
      && r.fraudProbability + r.safeProbability == 100.0
      && 50.0 <= r.confidence <= 100.0
  {
  }

  /** The examples of large and small transfers without a classifier. */
  lemma FallbackExamples()
    ensures FallbackScore(150000.0).isFraud && FallbackScore(150000.0).fraudProbability == 95.0
    ensures !FallbackScore(500.0).isFraud && FallbackScore(500.0).fraudProbability == 5.0
    ensures !FallbackScore(100000.0).isFraud
  {
  }

  /**
    An exact transfer passes the rule; a mismatch of one cent on either
    side fails it, however large the amount: the tolerance is absolute.
   */
  lemma ToleranceIsAbsolute(amount: real, sender: real, receiver: real)
    ensures AmountVerified(Amounts(amount, sender, sender - amount, receiver, receiver + amount))
    ensures !AmountVerified(Amounts(amount, sender, sender - amount - Tolerance, receiver, receiver + amount))
    ensures !AmountVerified(Amounts(amount, sender, sender - amount, receiver, receiver + amount + Tolerance))
  {
  }
}
