# Online payment fraud detection: the scoring endpoint and the trainer's preprocessing

The system scores single payment transactions. A Flask service exposes
`POST /predict`: it validates a JSON body, converts the five monetary
fields with `float`, applies a balance-consistency rule, encodes the
transaction type, builds an eight-column feature row and asks a
RandomForest classifier loaded at startup, or a fixed heuristic when no
classifier could be loaded. A separate training script reads the PaySim
transaction table, drops three columns, encodes the type with a dict,
derives `actualAmount`, and splits the table into features `X` and label
`y`.

This Dafny project models both as pure functions and proves what they
promise:

- `schema.dfy` (module `Schema`): the table's columns, `DataFrame.drop`
  on a column list, and the column orders both programs build.
- `pydata.dfy` (module `PyData`): `Option`, table cells, the meaning of a
  Python dict display (a repeated key keeps its last value) and
  `df[columns]` on a one-row table.
- `scorer.dfy` (module `Scorer`): the request handler `predict`, from
  request to response, with the loaded classifier as an optional oracle.
- `trainer.dfy` (module `Trainer`): `load_and_preprocess` once the table is
  read, and the split into `X` and `y`.
- `parity.dfy` (module `Parity`): the row the scorer hands the classifier
  against the row the trainer trained it on.

The handler's checks run in a fixed order, and the model keeps it:
JSON content type, then the required fields in list order, then the five
conversions, then the balance rule, and only then the type. So an
unknown type is refused with 400 only when every number converts and the
balances agree. With inconsistent balances the answer is the rule's
fraud verdict (`Scorer.UnknownTypeInconsistentBalances`). A type that is not a string passes the balance
rule and then fails on `.upper()`, which the catch-all turns into a 500.

## Model

| member | source | states |
|---|---|---|
| `Scorer.Predict` | Online-Payment-Fraud-Detection-main/fraud/backend/app.py:18-115 | every refusal is a 400 or a 500; every score has `prediction` equal to `int(isFraud)`; `reason` is present exactly when `amountVerified` is absent; `amountVerified`, when present, is true; a score with a reason is exactly the balance-rule answer; any other score is rule-based exactly when no classifier is loaded |
| `Scorer.NotJsonRejected` | Online-Payment-Fraud-Detection-main/fraud/backend/app.py:20-21 | a request without a JSON content type gets 400 "Request must be JSON" |
| `Scorer.FirstMissing` | Online-Payment-Fraud-Detection-main/fraud/backend/app.py:28-30 | the result is absent exactly when every field is present; otherwise it is a missing field and every field listed before it is present |
| `Scorer.MissingFieldRejected` | Online-Payment-Fraud-Detection-main/fraud/backend/app.py:25-30 | when a required field is missing, the answer is 400 "Missing field: f" for the first missing `f` in the list order, before any conversion |
| `Scorer.Float` | Online-Payment-Fraud-Detection-main/fraud/backend/app.py:33-37 | `float` of a JSON value: an integer or a float converts to its own value, a boolean to 1.0 or 0.0, a string to the value its text parses to; a string whose text does not parse raises ValueError; null, a list or an object raises a non-ValueError exception |
| `Scorer.ConvertAll` | Online-Payment-Fraud-Detection-main/fraud/backend/app.py:32-37 | if no statement raises, every number is kept in order; otherwise the exception raised is that of the first statement that raises |
| `Scorer.ConvertAllNumbers` | Online-Payment-Fraud-Detection-main/fraud/backend/app.py:32-37 | when every conversion succeeds, the outcome is exactly those numbers, in order |
| `Scorer.ConvertAllFirstRaise` | Online-Payment-Fraud-Detection-main/fraud/backend/app.py:32-37 | when the `i`-th conversion is the first to raise, its exception is the outcome and the later statements do not matter |
| `Scorer.ConversionErrorRejected` | Online-Payment-Fraud-Detection-main/fraud/backend/app.py:112-115 | with every field present, the first failing conversion decides: a ValueError gives 400 "Invalid input value: " plus its message; any other exception gives 500 with its message |
| `Scorer.ConvertedRequestIsScored` | Online-Payment-Fraud-Detection-main/fraud/backend/app.py:32-37 | once all fields are present and convert, the response depends only on the five numbers, the type value and the classifier |
| `Scorer.AmountVerified` | Online-Payment-Fraud-Detection-main/fraud/backend/app.py:40-43 | the rule holds exactly when the new sender balance lies strictly within one cent of oldbalanceOrg − amount and the new receiver balance strictly within one cent of oldbalanceDest + amount |
| `Scorer.BalanceRuleDecides` | Online-Payment-Fraud-Detection-main/fraud/backend/app.py:39-55 | the answer is the fixed balance-rule answer (1, true, 100, 0, 100, rule-based, reason) exactly when the balances fail the rule, whatever the type and the classifier |
| `Scorer.ToleranceIsAbsolute` | Online-Payment-Fraud-Detection-main/fraud/backend/app.py:43 | an exact transfer passes the rule, and a one-cent mismatch on either side fails it, for any amount |
| `Scorer.UnknownTypeRejected` | Online-Payment-Fraud-Detection-main/fraud/backend/app.py:66-68 | a consistent request whose upper-cased type is not a known label gets 400 "Invalid transaction type" |
| `Scorer.UnknownTypeInconsistentBalances` | Online-Payment-Fraud-Detection-main/fraud/backend/app.py:43-55 | type "WIRE" with balances that do not move is answered by the balance rule, not refused, with or without a classifier |
| `Scorer.UnknownTypeConsistentBalances` | Online-Payment-Fraud-Detection-main/fraud/backend/app.py:57-68 | type "WIRE" with balances that move by the amount is refused with 400 "Invalid transaction type", with or without a classifier |
| `Scorer.Upper` | Online-Payment-Fraud-Detection-main/fraud/backend/app.py:66 | upper-casing keeps the length, turns every ASCII lower-case letter into its upper-case letter, leaves no lower-case letter and changes no other character |
| `Scorer.UpperIdempotent` | Online-Payment-Fraud-Detection-main/fraud/backend/app.py:66 | upper-casing twice is upper-casing once |
| `Scorer.UpperFixesUpperCase` | Online-Payment-Fraud-Detection-main/fraud/backend/app.py:66 | a string without lower-case letters is left as it is |
| `Scorer.TypeTableContents` | Online-Payment-Fraud-Detection-main/fraud/backend/app.py:58-64 | the handler's table is CASH_OUT 0, TRANSFER 1, PAYMENT 2, CASH_IN 3, DEBIT 4 and nothing else |
| `Scorer.EncodeType` | Online-Payment-Fraud-Detection-main/fraud/backend/app.py:58-68 | encoding fails exactly when the upper-cased label is not one of the five known labels; a code is the index of the upper-cased label among them |
| `Scorer.EncodeKnownLabel` | Online-Payment-Fraud-Detection-main/fraud/backend/app.py:58-68 | the `c`-th known label encodes to `c` |
| `Scorer.EncodeTypeIgnoresCase` | Online-Payment-Fraud-Detection-main/fraud/backend/app.py:66-67 | a label and its upper-cased form encode alike |
| `Scorer.CashOutAnyCase` | Online-Payment-Fraud-Detection-main/fraud/backend/app.py:66-67 | "cash_out" and "CASH_OUT" both encode to 0 |
| `Scorer.FeatureRow` | Online-Payment-Fraud-Detection-main/fraud/backend/app.py:70-83 | the classifier's row is [1, code, amount, oldbalanceOrg, newbalanceOrig, oldbalanceDest, newbalanceDest, oldbalanceOrg − newbalanceOrig] in that column order |
| `Scorer.RequestFieldsAreColumns` | Online-Payment-Fraud-Detection-main/fraud/backend/app.py:26-27 | the required fields are `type` and then the five numeric fields, and each numeric field is the name of the column its number fills in the classifier's row |
| `Scorer.ModelScore` | Online-Payment-Fraud-Detection-main/fraud/backend/app.py:86-93 | with a classifier: fraud exactly when it predicts a non-zero class, `prediction` its integer, both probabilities in percent, the confidence the larger of the two, not rule-based, amount verified |
| `Scorer.ModelPath` | Online-Payment-Fraud-Detection-main/fraud/backend/app.py:86-93 | with a classifier, a consistent, well-typed request is fraud exactly when the classifier predicts non-zero on that row; the probabilities and confidence are its own, in percent; not rule-based; amount verified |
| `Scorer.ConfidenceBounds` | Online-Payment-Fraud-Detection-main/fraud/backend/app.py:89-91 | when `predict_proba` gives a probability distribution, the two percentages add to 100 and the confidence lies in [50, 100] |
| `Scorer.FallbackScore` | Online-Payment-Fraud-Detection-main/fraud/backend/app.py:94-100 | without a classifier: fraud exactly when the amount exceeds 100000, fraud probability 95 or 5, the two adding to 100, confidence 95, rule-based, amount verified |
| `Scorer.Score` | Online-Payment-Fraud-Detection-main/fraud/backend/app.py:39-110 | the balance-rule answer comes exactly when the rule fails, whatever the type and the classifier; otherwise a non-string type is a 500 and an unknown one a 400; every other answer is amount-verified, without reason, and rule-based exactly when no classifier is loaded |
| `Scorer.FallbackPath` | Online-Payment-Fraud-Detection-main/fraud/backend/app.py:94-100 | without a classifier, a consistent, well-typed request is fraud exactly when the amount exceeds 100000; fraud 95 or 5, safe the complement, confidence 95, rule-based, amount verified |
| `Scorer.FallbackExamples` | Online-Payment-Fraud-Detection-main/fraud/backend/app.py:96-99 | 150000 is flagged at 95; 500 and exactly 100000 are not flagged |
| `PyData.DictLiteral` | Online-Payment-Fraud-Detection-main/fraud/backend/model_train.py:36-43 | the last entry of a dict display is in the dict with its own value |
| `PyData.DictLiteralKeys` | Online-Payment-Fraud-Detection-main/fraud/backend/model_train.py:36-43 | a key is in the dict exactly when some entry carries it |
| `PyData.DictLiteralLastWins` | Online-Payment-Fraud-Detection-main/fraud/backend/model_train.py:36-43 | a key maps to the value of its last entry |
| `Schema.KeptFromMembers` | Online-Payment-Fraud-Detection-main/fraud/backend/model_train.py:33 | from any position on, a column survives the drop exactly when it is there and not dropped; with nothing dropped the columns are unchanged |
| `Schema.WithoutMembers` | Online-Payment-Fraud-Detection-main/fraud/backend/model_train.py:33 | `Schema.Without` (`DataFrame.drop`): a column survives exactly when it was there and is not dropped; a drop of nothing present leaves the columns unchanged |
| `Schema.WithoutKeepsOrder` | Online-Payment-Fraud-Detection-main/fraud/backend/model_train.py:33 | `Schema.Without` keeps the surviving columns in their original order: the result is a subsequence of the columns |
| `Schema.DropsArePresent` | Online-Payment-Fraud-Detection-main/fraud/backend/model_train.py:33-52 | the three columns dropped at load time are in the downloaded header, and `isFraud` is among the processed columns, so neither drop reaches the KeyError pandas raises for an absent label |
| `Schema.ProcessedColumnsOrder` | Online-Payment-Fraud-Detection-main/fraud/backend/model_train.py:33-46 | after the drop the columns are step, type, amount, the four balances, isFraud, and `actualAmount` last |
| `Schema.TrainingColumnsMatchScoring` | Online-Payment-Fraud-Detection-main/fraud/backend/model_train.py:52 | the columns of `X` are the scorer's eight columns in the scorer's order, and never the label |
| `Trainer.TypeTableContents` | Online-Payment-Fraud-Detection-main/fraud/backend/model_train.py:36-43 | the effective table maps PAYMENT to 5, the later of its two entries, and holds the other four labels |
| `Trainer.TypeCode` | Online-Payment-Fraud-Detection-main/fraud/backend/model_train.py:36-43 | `map` then `fillna(0)`: every code is one of 0, 1, 3, 4, 5, never 2; a label gets a non-zero code exactly when it is written TRANSFER, PAYMENT, CASH_IN or DEBIT |
| `Trainer.TypeCodes` | Online-Payment-Fraud-Detection-main/fraud/backend/model_train.py:36-43 | the codes are 0, 1, 5, 3, 4; any other label, including a known label in lower case, becomes 0 |
| `Trainer.EncodeRow` | Online-Payment-Fraud-Detection-main/fraud/backend/model_train.py:33-46 | a preprocessed row is the downloaded row without the three dropped columns, with the type replaced by its code and `actualAmount` = oldbalanceOrg − newbalanceOrig added; every other column keeps its value |
| `Trainer.RowCellsColumns` | Online-Payment-Fraud-Detection-main/fraud/backend/model_train.py:33-46 | a preprocessed row has a value in exactly the processed columns |
| `Trainer.PreprocessWith` | Online-Payment-Fraud-Detection-main/fraud/backend/model_train.py:33-46 | preprocessing keeps the row count and order and treats each row on its own |
| `Trainer.Preprocess` | Online-Payment-Fraud-Detection-main/fraud/backend/model_train.py:28-48 | the same, with the trainer's type table |
| `Trainer.PreprocessRows` | Online-Payment-Fraud-Detection-main/fraud/backend/model_train.py:36-46 | every preprocessed row has `actualAmount` equal to oldbalanceOrg − newbalanceOrig and a type code in {0, 1, 3, 4, 5}: never 2 |
| `Trainer.FeatureRow` | Online-Payment-Fraud-Detection-main/fraud/backend/model_train.py:52 | a row of `X` is the preprocessed row's values without `isFraud`, in the order step, type, amount, the four balances, actualAmount |
| `Trainer.SplitXY` | Online-Payment-Fraud-Detection-main/fraud/backend/model_train.py:52-53 | `X` and `y` have one entry per row, in row order; row `i` of `X` is [step, type code, amount, the four balances, actualAmount] of row `i`, and `y[i]` is its `isFraud` |
| `Parity.TrainingRowValues` | Online-Payment-Fraud-Detection-main/fraud/backend/model_train.py:33-52 | the training row of a downloaded row is [step, code, amount, the four balances, oldbalanceOrg − newbalanceOrig] |
| `Parity.TrainingRowInX` | Online-Payment-Fraud-Detection-main/fraud/backend/model_train.py:28-53 | row `i` of the trainer's `X` is the training row of downloaded row `i` with the trainer's type code |
| `Parity.TypeCodeParity` | Online-Payment-Fraud-Detection-main/fraud/backend/model_train.py:36-43 | trainer and scorer agree on the codes of CASH_OUT, TRANSFER, CASH_IN and DEBIT, and disagree on PAYMENT: 5 against 2 |
| `Parity.RowParity` | Online-Payment-Fraud-Detection-main/fraud/backend/app.py:70-83 | with the same type code, the training row and the scoring row are equal exactly when the step is 1: amounts, balances and `actualAmount` always agree |
| `Parity.PaymentDrift` | Online-Payment-Fraud-Detection-main/fraud/backend/model_train.py:39-42 | a step-1 PAYMENT row is trained as the row the scorer builds for code 5, and differs from the code-2 row the scorer actually sends |
| `Parity.CorrectedTypeCodes` | Online-Payment-Fraud-Detection-main/fraud/backend/model_train.py:36-43 | the corrected table gives every known label the scorer's code and differs from the table as written only on PAYMENT |
| `Parity.CorrectedRowParity` | Online-Payment-Fraud-Detection-main/fraud/backend/model_train.py:36-53 | with the corrected table, every step-1 row of a known type, PAYMENT included, is scored on exactly its row of `X` |

## Left out

- The Flask application, CORS, `jsonify` and `app.run`: the handler is a function from a request to a response.
- Loading the classifier with `joblib` and saving it after training: the classifier is a parameter, present or absent.
- RandomForest training and prediction, `train_test_split` and the evaluation report: the classifier is an abstract pair of functions, total on every row. Its `predict` is not tied to its `predict_proba`, and an exception raised inside it is not modelled.
- Downloading the dataset with `kagglehub`, the directory walk and `pd.read_csv`: preprocessing starts from the rows. Their column order is the PaySim header, which the source does not state.
- Floating point: JSON numbers and balances are exact reals, so rounding, NaN, infinities and the overflow of huge integers in `float` are not modelled.
- Schema.WithoutMembers: `Schema.Without` treats a dropped label that is not a column as a no-op, where `DataFrame.drop` raises KeyError; the KeyError path is not modelled, and `Schema.DropsArePresent` shows that neither of the trainer's drops can take it.
- Scorer.ToleranceIsAbsolute: holds for exact reals; with IEEE doubles a one-cent difference on a large amount may round.
- Scorer.Upper: models `str.upper` on ASCII letters only; letters outside ASCII (and characters that change length, such as "ß") are left alone. So labels Python accepts through non-ASCII case mappings, such as "caſh_out" (U+017F upper-cases to "S") or "cash_ın" (U+0131 upper-cases to "I"), are refused by the model with 400 "Invalid transaction type".
- The grammar of strings that `float` accepts is a parameter (`parseStr`). The ValueError message quotes the string without Python's `repr` escaping.
- The 500 message for a non-string `type` follows Python's AttributeError wording for the JSON value's type.
- Request bodies that are JSON but not an object (a list, a number) and malformed JSON are not modelled; a JSON body is a map from field names to values.
- The contents of JSON lists and objects are not modelled; only their kind matters to the handler.
- `train_and_save_model` beyond the `X`/`y` split, `download_dataset` and the script's main block are not part of this model.

## Findings

| source | as written | input that shows it | evidently intended | confidence | as-written member | corrected member |
|---|---|---|---|---|---|---|
| Online-Payment-Fraud-Detection-main/fraud/backend/model_train.py:36-43 | the type dict lists `'PAYMENT'` twice, 2 and then 5; the later entry wins, so PAYMENT rows are trained with code 5 and no training row has code 2 | a downloaded row of type "PAYMENT", step 1: trained as [1, 5, …], while the scorer sends [1, 2, …] for the same transaction | PAYMENT encoded as 2, as the scorer does | high; not executed | `Parity.PaymentDrift` | `Parity.CorrectedRowParity` |
