/**
 * The rule-based part of the face detector: searching the label list returned
 * by the vision service, scaling a label's confidence from percent to [0,1],
 * the counterfeit rule and the face score. Every call site searches on the
 * label's 'Name', so the key is fixed. Exact rationals stand for the floats.
 */
module FaceDetector {
  import opened Wrappers

  /** One entry of the label list: its 'Name' and its 'Confidence' in percent. */
  datatype Label = Label(name: string, confidence: real)

  /** One entry of the comparison's 'FaceMatches' list. */
  datatype FaceMatch = FaceMatch(similarity: real)

  /** The confidence taken when no usable label is found, before scaling: 1e-1. */
  const DefaultConfidence: real := 0.1
  const PercentScale: real := 100.0
  const CounterfeitThreshold: real := 0.50

  /** Every label's confidence is a percentage. */
  predicate ConfidencesInRange(labels: seq<Label>)
  {
    forall i :: 0 <= i < |labels| ==> 0.0 <= labels[i].confidence <= 100.0
  }

  /** The index of the first label named `value`, or None when there is none. */
  function TryIndex(entries: seq<Label>, value: string): (idx: Option<nat>)
    ensures idx.Some? ==> idx.value < |entries| && entries[idx.value].name == value
    ensures idx.Some? ==> forall j :: 0 <= j < idx.value ==> entries[j].name != value
    ensures idx.None? <==> forall j :: 0 <= j < |entries| ==> entries[j].name != value
  {
    if entries == [] then None
    else if entries[0].name == value then Some(0)
    else
      match TryIndex(entries[1..], value)
      case None => None
      case Some(i) => Some(i + 1)
  }

  /**
   * The scaled confidence of the first label named `value`. The source tests
   * the index for truth, so a match at index 0 counts as no match.
   */
  function GetConfidence(entries: seq<Label>, value: string): (c: real)
    ensures c == DefaultConfidence / PercentScale
         || exists i :: 0 < i < |entries| && entries[i].name == value && c == entries[i].confidence / PercentScale
  {
    var idx := TryIndex(entries, value);
    var confidence := if idx.Some? && idx.value != 0 then entries[idx.value].confidence else DefaultConfidence;
    confidence / PercentScale
  }

  /** A first match past index 0 yields its confidence divided by 100. */
  lemma GetConfidenceFound(entries: seq<Label>, value: string, i: nat)
    requires 0 < i < |entries| && entries[i].name == value
    requires forall j :: 0 <= j < i ==> entries[j].name != value
    ensures GetConfidence(entries, value) == entries[i].confidence / 100.0
  {
    var idx := TryIndex(entries, value);
    assert idx.Some?;
    assert idx.value == i;
  }

  /** No match yields 0.001. */
  lemma GetConfidenceAbsent(entries: seq<Label>, value: string)
    requires forall j :: 0 <= j < |entries| ==> entries[j].name != value
    ensures GetConfidence(entries, value) == 0.001
  {
  }

  /** A match at index 0 is treated as absent and also yields 0.001. */
  lemma GetConfidenceIndexZero(entries: seq<Label>, value: string)
    requires |entries| > 0 && entries[0].name == value
    ensures GetConfidence(entries, value) == 0.001
  {
  }

  /** Percentages scale into [0,1]. */
  lemma GetConfidenceBounds(entries: seq<Label>, value: string)
    requires ConfidencesInRange(entries)
    ensures 0.0 <= GetConfidence(entries, value) <= 1.0
  {
  }

  /** 1 when an Electronics, Monitor or Phone label scores strictly above 0.50, else 0. */
  function CounterfeitConfidence(labels: seq<Label>): (r: int)
    ensures r == 0 || r == 1
    ensures r == 1 <==> (|| GetConfidence(labels, "Electronics") > 0.50
                         || GetConfidence(labels, "Monitor") > 0.50
                         || GetConfidence(labels, "Phone") > 0.50)
  {
    var elecConf := GetConfidence(labels, "Electronics");
    var monConf := GetConfidence(labels, "Monitor");
    var phoneConf := GetConfidence(labels, "Phone");
    if elecConf > CounterfeitThreshold || monConf > CounterfeitThreshold || phoneConf > CounterfeitThreshold then 1 else 0
  }

  /** The Human and Face scaled confidences combined; a probability when the confidences are percentages. */
  function HumanFaceConfidence(labels: seq<Label>): (h: real)
    ensures ConfidencesInRange(labels) ==> 0.0 <= h <= 1.0
  {
    var human := GetConfidence(labels, "Human");
    var face := GetConfidence(labels, "Face");
    if ConfidencesInRange(labels) then
      GetConfidenceBounds(labels, "Human");
      GetConfidenceBounds(labels, "Face");
      ProductBounds(human, face, human * face);
      human * face
    else human * face
  }

  /** The presence score: zero when the counterfeit rule fires, the human-face confidence otherwise. */
  function DetectionScore(labels: seq<Label>): (score: real)
    ensures CounterfeitConfidence(labels) == 1 ==> score == 0.0
    ensures CounterfeitConfidence(labels) == 0 ==> score == HumanFaceConfidence(labels)
  {
    (1 - CounterfeitConfidence(labels)) as real * HumanFaceConfidence(labels)
  }

  /** The human-face confidence is the product of the Human and Face scaled confidences, each in [0,1]. */
  lemma HumanFaceConfidenceBounds(labels: seq<Label>)
    requires ConfidencesInRange(labels)
    ensures 0.0 <= HumanFaceConfidence(labels) <= GetConfidence(labels, "Human") <= 1.0
    ensures HumanFaceConfidence(labels) <= GetConfidence(labels, "Face")
  {
    var h := GetConfidence(labels, "Human");
    var f := GetConfidence(labels, "Face");
    GetConfidenceBounds(labels, "Human");
    GetConfidenceBounds(labels, "Face");
    ProductBounds(h, f, HumanFaceConfidence(labels));
  }

  lemma ProductBounds(a: real, b: real, product: real)
    requires 0.0 <= a <= 1.0 && 0.0 <= b <= 1.0 && product == a * b
    ensures 0.0 <= product <= a && product <= b
  {
    assert 0.0 <= a * b;
    assert a * b <= a * 1.0;
    assert a * b <= 1.0 * b;
  }

  /** With confidences in percent, the score lies in [0,1]. */
  lemma DetectionScoreBounds(labels: seq<Label>)
    requires ConfidencesInRange(labels)
    ensures 0.0 <= DetectionScore(labels) <= 1.0
  {
    HumanFaceConfidenceBounds(labels);
  }

  /**
   * A score above `threshold` (at least 0.001) needs a Human and a Face label, each
   * past index 0 and each more than `threshold` percent-scaled confident, and the
   * counterfeit rule must not fire (a counterfeit label at index 0 goes unseen).
   */
  lemma ScoreAboveNeedsHumanAndFace(labels: seq<Label>, threshold: real)
    requires ConfidencesInRange(labels)
    requires threshold >= 0.001 && DetectionScore(labels) > threshold
    ensures CounterfeitConfidence(labels) == 0
    ensures exists i :: 0 < i < |labels| && labels[i].name == "Human" && labels[i].confidence / 100.0 > threshold
    ensures exists j :: 0 < j < |labels| && labels[j].name == "Face" && labels[j].confidence / 100.0 > threshold
  {
    HumanFaceConfidenceBounds(labels);
    var h := GetConfidence(labels, "Human");
    var f := GetConfidence(labels, "Face");
    assert h > threshold && f > threshold;
  }

  /** The score of a detect-labels call; a client error (None) scores 0. */
  function DetectFaceFromBytes(response: Option<seq<Label>>): (score: real)
    ensures response.None? ==> score == 0.0
    ensures response.Some? ==> score == DetectionScore(response.value)
  {
    match response
    case None => 0.0
    case Some(labels) => DetectionScore(labels)
  }

  /** A comparison matches iff the service answered with a non-empty FaceMatches list. */
  function CompareFaceFromBytes(response: Option<seq<FaceMatch>>): (matched: bool)
    ensures matched <==> response.Some? && |response.value| > 0
  {
    match response
    case None => false
    case Some(matches) => |matches| > 0
  }
}
