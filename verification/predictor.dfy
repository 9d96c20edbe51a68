/**
 The predict action (app.py:67-103): encode the answers, align the row with
 the classifier's feature list, classify it, and render the label.

 The pre-trained classifier is loaded from a file the model cannot see; it
 stands here as a value carrying its ordered `feature_names_in_` and its
 `predict`, an arbitrary function from an aligned row to an integer label.
 */
module Predictor {
  import opened Results
  import opened Domains
  import opened Engagement
  import opened Frames
  import opened Encoding
  import opened Labels

  datatype Classifier = Classifier(featureNames: seq<string>, predict: Row -> int)

  /** What one press of the predict button produces. */
  datatype Prediction = Prediction(features: Row, outcome: int, text: string)

  /** The dictionary has no repeated label, so `reindex` never raises on it. */
  lemma EncodedRowReindexes(row: Row, names: seq<string>)
    requires Columns(row) == EncodedColumns
    ensures Reindex(row, names).Success?
  {
    EncodedColumnsDistinct();
  }

  /** The pipeline over an encoded row, whichever literals built it. */
  function Classify(m: Classifier, row: Row): (r: Prediction)
    requires Columns(row) == EncodedColumns
    ensures Columns(r.features) == m.featureNames
    ensures forall i :: 0 <= i < |m.featureNames| ==>
      (m.featureNames[i] in EncodedColumns ==> Lookup(row, m.featureNames[i]) == Some(r.features[i].value)) &&
      (m.featureNames[i] !in EncodedColumns ==> r.features[i].value == Num(0))
    ensures r.outcome == m.predict(r.features)
    ensures r.outcome == 0 ==> r.text == FailText
    ensures r.outcome == 1 ==> r.text == PassText
    ensures r.outcome != 0 && r.outcome != 1 ==> ParseDecimal(r.text) == Some(r.outcome)
    ensures r.outcome != 0 && r.outcome != 1 ==> CanonicalDecimal(r.text)
  {
    EncodedColumnsDistinct();
    var features := Reindex(row, m.featureNames).value;
    var outcome := m.predict(features);
    ShownTextCases(outcome);
    Prediction(features, outcome, ShownText(outcome))
  }

  /**
   The predict action as the program performs it: the classifier sees a row
   whose columns are its own feature names in its own order, each holding the
   encoded value of that name or 0, and the text shown is the rendering of the
   label it returns.
   */
  function Predict(m: Classifier, p: Profile): (r: Prediction)
    ensures Columns(r.features) == m.featureNames
    ensures forall i :: 0 <= i < |m.featureNames| ==>
      (m.featureNames[i] in EncodedColumns ==> Lookup(Encode(p), m.featureNames[i]) == Some(r.features[i].value)) &&
      (m.featureNames[i] !in EncodedColumns ==> r.features[i].value == Num(0))
    ensures r.outcome == m.predict(r.features)
    ensures r.outcome == 0 ==> r.text == FailText
    ensures r.outcome == 1 ==> r.text == PassText
    ensures r.outcome != 0 && r.outcome != 1 ==> ParseDecimal(r.text) == Some(r.outcome)
    ensures r.outcome != 0 && r.outcome != 1 ==> CanonicalDecimal(r.text)
  {
    Classify(m, Encode(p))
  }

  /** The predict action with the three comparison literals corrected. */
  function PredictIntended(m: Classifier, p: Profile): (r: Prediction)
    ensures Columns(r.features) == m.featureNames
    ensures forall i :: 0 <= i < |m.featureNames| ==>
      (m.featureNames[i] in EncodedColumns ==> Lookup(EncodeIntended(p), m.featureNames[i]) == Some(r.features[i].value)) &&
      (m.featureNames[i] !in EncodedColumns ==> r.features[i].value == Num(0))
    ensures r.outcome == m.predict(r.features)
    ensures r.outcome == 0 ==> r.text == FailText
    ensures r.outcome == 1 ==> r.text == PassText
    ensures r.outcome != 0 && r.outcome != 1 ==> ParseDecimal(r.text) == Some(r.outcome)
    ensures r.outcome != 0 && r.outcome != 1 ==> CanonicalDecimal(r.text)
  {
    Classify(m, EncodeIntended(p))
  }

  /**
   When the classifier's feature list is exactly the dictionary's columns, the
   alignment hands the dictionary over unchanged.
   */
  lemma MatchingFeaturesPassRowUnchanged(m: Classifier, p: Profile)
    requires m.featureNames == EncodedColumns
    ensures Predict(m, p).features == Encode(p)
  {
  }

  /** Aligning the classifier's input a second time would change nothing. */
  lemma PredictInputIsAligned(m: Classifier, p: Profile)
    ensures Reindex(Predict(m, p).features, m.featureNames) == Success(Predict(m, p).features)
  {
  }
}
