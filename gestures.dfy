/**
 A model of the hand-gesture classifier `detect_gesture`.

 The classifier reads ten landmarks of one detected hand (five finger tips,
 four finger MCP knuckles and the thumb IP joint), derives whether each finger
 and the thumb is extended and whether thumb tip and index tip are pinched
 together, and then runs a first-match-wins chain of nine rules with an
 "Unknown" fallback.
 */
module Gestures {

  /** One landmark as delivered by the hand detector: normalized image
      coordinates `x`, `y` and a depth `z` that the classifier never reads. */
  datatype Landmark = Landmark(x: real, y: real, z: real)

  /** Which index of the landmark sequence holds which anatomical point.
      This replaces the detector library's `HandLandmark` enumeration. */
  datatype Schema = Schema(
    thumbIp: nat, thumbTip: nat,
    indexMcp: nat, indexTip: nat,
    middleMcp: nat, middleTip: nat,
    ringMcp: nat, ringTip: nat,
    pinkyMcp: nat, pinkyTip: nat)

  /** The indices MediaPipe's hand model uses. */
  const MediaPipe: Schema := Schema(
    thumbIp := 3, thumbTip := 4,
    indexMcp := 5, indexTip := 8,
    middleMcp := 9, middleTip := 12,
    ringMcp := 13, ringTip := 16,
    pinkyMcp := 17, pinkyTip := 20)

  /** MediaPipe reports 21 landmarks per hand. */
  const MediaPipeLandmarkCount: nat := 21

  /** The closed vocabulary of results. */
  datatype Gesture =
    | OpenPalm | Fist | ThumbsUp | Peace | Pinky | OK
    | RockNRoll | LShape | Pointing | Unknown

  /** The string the classifier returns for each gesture. */
  function Label(g: Gesture): string
  {
    match g
    case OpenPalm => "Open Palm"
    case Fist => "Fist"
    case ThumbsUp => "Thumbs Up"
    case Peace => "Peace"
    case Pinky => "Pinky"
    case OK => "OK"
    case RockNRoll => "Rock'n Roll"
    case LShape => "L shape"
    case Pointing => "Pointing"
    case Unknown => "Unknown"
  }

  /** Every string the classifier can return. */
  const Labels: set<string> := {
    "Open Palm", "Fist", "Thumbs Up", "Peace", "Pinky", "OK",
    "Rock'n Roll", "L shape", "Pointing", "Unknown" }

  // ---------------------------------------------------------------------------
  // Landmark extraction
  // ---------------------------------------------------------------------------

  /** The schema indices in the order the classifier subscripts the landmark
      sequence: the five tips, the four MCPs, then the thumb IP. */
  function Accessed(s: Schema): seq<nat>
  {
    [s.thumbTip, s.indexTip, s.middleTip, s.ringTip, s.pinkyTip,
     s.indexMcp, s.middleMcp, s.ringMcp, s.pinkyMcp,
     s.thumbIp]
  }

  /** A sequence of `n` landmarks holds every point the schema names. */
  predicate Covers(s: Schema, n: nat)
  {
    s.thumbTip < n && s.indexTip < n && s.middleTip < n && s.ringTip < n && s.pinkyTip < n &&
    s.indexMcp < n && s.middleMcp < n && s.ringMcp < n && s.pinkyMcp < n &&
    s.thumbIp < n
  }

  /** The position in `idx` of the first index that is not below `n`, if any. */
  function FirstOutOfRange(idx: seq<nat>, n: nat): (r: Option<nat>)
    ensures r.None? <==> forall k :: 0 <= k < |idx| ==> idx[k] < n
    ensures r.Some? ==> r.value < |idx| && idx[r.value] >= n
    ensures r.Some? ==> forall k :: 0 <= k < r.value ==> idx[k] < n
  {
    if idx == [] then None
    else if idx[0] >= n then Some(0)
    else match FirstOutOfRange(idx[1..], n)
      case None => None
      case Some(k) => Some(k + 1)
  }

  // ---------------------------------------------------------------------------
  // Derived features
  // ---------------------------------------------------------------------------

  /** A finger is extended when its tip is higher in the image (smaller y)
      than its MCP knuckle. */
  predicate Extended(tip: Landmark, mcp: Landmark)
  {
    tip.y < mcp.y
  }

  /** The thumb is extended when its tip lies left of (smaller x than) its IP joint. */
  predicate ThumbExtended(thumbTip: Landmark, thumbIp: Landmark)
  {
    thumbTip.x < thumbIp.x
  }

  /** Absolute value, as Python's `abs` on a number. */
  function Abs(d: real): real
  {
    if d < 0.0 then -d else d
  }

  /** The per-axis pinch threshold in normalized coordinate units. */
  const PinchThreshold: real := 0.05

  /** Thumb tip and index tip are pinched when both axis distances are
      strictly below the threshold. */
  predicate Pinched(thumbTip: Landmark, indexTip: Landmark)
  {
    Abs(thumbTip.x - indexTip.x) < PinchThreshold &&
    Abs(thumbTip.y - indexTip.y) < PinchThreshold
  }

  /** Which of the four non-thumb fingers is extended. */
  datatype Fingers = Fingers(index: bool, middle: bool, ring: bool, pinky: bool)

  predicate AllExtended(fx: Fingers)
  {
    fx.index && fx.middle && fx.ring && fx.pinky
  }

  predicate AnyExtended(fx: Fingers)
  {
    fx.index || fx.middle || fx.ring || fx.pinky
  }

  /** Everything the rule chain looks at. */
  datatype Features = Features(fingers: Fingers, thumb: bool, pinched: bool)

  /** Reads the ten landmarks and computes the features from them. */
  function Extract(lm: seq<Landmark>, s: Schema): Features
    requires Covers(s, |lm|)
  {
    var fingers := Fingers(
      Extended(lm[s.indexTip], lm[s.indexMcp]),
      Extended(lm[s.middleTip], lm[s.middleMcp]),
      Extended(lm[s.ringTip], lm[s.ringMcp]),
      Extended(lm[s.pinkyTip], lm[s.pinkyMcp]));
    Features(fingers,
             ThumbExtended(lm[s.thumbTip], lm[s.thumbIp]),
             Pinched(lm[s.thumbTip], lm[s.indexTip]))
  }

  // ---------------------------------------------------------------------------
  // The rule chain
  // ---------------------------------------------------------------------------

  /** The if/elif chain, first match wins. The postconditions give, for each
      gesture, the exact feature combinations that produce it once the
      precedence of the earlier rules is taken into account; `Matches` names
      the condition of an earlier rule that must fail. */
  function Decide(f: Features): (r: Gesture)
    ensures r == OpenPalm <==> AllExtended(f.fingers) && f.thumb
    ensures r == Fist <==> !AnyExtended(f.fingers) && !f.thumb
    ensures r == ThumbsUp <==> !AnyExtended(f.fingers) && f.thumb
    ensures r == Peace <==>
      f.fingers.index && f.fingers.middle && !f.fingers.ring && !f.fingers.pinky
    ensures r == Pinky <==>
      !f.fingers.index && !f.fingers.middle && !f.fingers.ring && f.fingers.pinky && !f.thumb
    ensures r == OK <==>
      f.pinched && AnyExtended(f.fingers) && !Matches(OpenPalm, f) &&
      !Matches(Peace, f) && !Matches(Pinky, f)
    ensures r == RockNRoll <==>
      f.fingers.index && !f.fingers.middle && !f.fingers.ring && f.fingers.pinky && !f.pinched
    ensures r == LShape <==>
      f.fingers.index && !f.fingers.middle && !f.fingers.ring && !f.fingers.pinky &&
      f.thumb && !f.pinched
    ensures r == Pointing <==>
      f.fingers.index && !f.fingers.middle && !f.fingers.ring && !f.fingers.pinky &&
      !f.thumb && !f.pinched
    ensures r == Unknown <==>
      !f.pinched && AnyExtended(f.fingers) && !Matches(OpenPalm, f) &&
      !Matches(Peace, f) && !Matches(Pinky, f) &&
      !Matches(RockNRoll, f) && !Matches(LShape, f) && !Matches(Pointing, f)
  {
    var fx, thumb := f.fingers, f.thumb;
    if AllExtended(fx) && thumb then OpenPalm
    else if !AnyExtended(fx) && !thumb then Fist
    else if thumb && !AnyExtended(fx) then ThumbsUp
    else if fx.index && fx.middle && !fx.ring && !fx.pinky then Peace
    else if !fx.index && !fx.middle && !fx.ring && fx.pinky && !thumb then Pinky
    else if f.pinched then OK
    else if fx.index && !fx.middle && !fx.ring && fx.pinky then RockNRoll
    else if fx.index && !fx.middle && !fx.ring && !fx.pinky && thumb then LShape
    else if fx.index && !fx.middle && !fx.ring && !fx.pinky && !thumb then Pointing
    else Unknown
  }

  /** The classifier on a landmark sequence that holds every schema point. */
  function DetectGesture(lm: seq<Landmark>, s: Schema): Gesture
    requires Covers(s, |lm|)
  {
    Decide(Extract(lm, s))
  }

  /** The classifier's string result. */
  function DetectLabel(lm: seq<Landmark>, s: Schema): string
    requires Covers(s, |lm|)
  {
    Label(DetectGesture(lm, s))
  }

  // ---------------------------------------------------------------------------
  // The missing-landmark error path
  // ---------------------------------------------------------------------------

  datatype Option<T> = None | Some(value: T)

  datatype Result<T, E> = Ok(value: T) | Err(error: E)

  /** The one failure: a schema index that the landmark sequence does not reach. */
  datatype Error = MissingLandmark(index: nat)

  /** The classifier on any landmark sequence: when a schema point is missing
      it fails with the first index, in subscript order, that is out of range. */
  function TryDetectGesture(lm: seq<Landmark>, s: Schema): (r: Result<Gesture, Error>)
    ensures r.Ok? <==> Covers(s, |lm|)
    ensures r.Ok? ==> r.value == DetectGesture(lm, s)
    ensures r.Err? ==>
              exists k :: 0 <= k < |Accessed(s)| && Accessed(s)[k] == r.error.index &&
                          r.error.index >= |lm| && forall j :: 0 <= j < k ==> Accessed(s)[j] < |lm|
  {
    match FirstOutOfRange(Accessed(s), |lm|)
    case None =>
      assert Covers(s, |lm|) by {
        var a := Accessed(s);
        assert a[0] < |lm| && a[1] < |lm| && a[2] < |lm| && a[3] < |lm| && a[4] < |lm|;
        assert a[5] < |lm| && a[6] < |lm| && a[7] < |lm| && a[8] < |lm| && a[9] < |lm|;
      }
      Ok(DetectGesture(lm, s))
    case Some(k) =>
      Err(MissingLandmark(Accessed(s)[k]))
  }

  // ---------------------------------------------------------------------------
  // The chain as an ordered rule table
  // ---------------------------------------------------------------------------

  /** The rules in order of precedence; `Unknown` is the fallback, not a rule. */
  const Rules: seq<Gesture> := [OpenPalm, Fist, ThumbsUp, Peace, Pinky, OK, RockNRoll, LShape, Pointing]

  /** The condition of the rule that yields `g`, as each branch of the chain
      states it on its own. */
  predicate Matches(g: Gesture, f: Features)
  {
    var fx, thumb := f.fingers, f.thumb;
    match g
    case OpenPalm => AllExtended(fx) && thumb
    case Fist => !AnyExtended(fx) && !thumb
    case ThumbsUp => thumb && !AnyExtended(fx)
    case Peace => fx.index && fx.middle && !fx.ring && !fx.pinky
    case Pinky => !fx.index && !fx.middle && !fx.ring && fx.pinky && !thumb
    case OK => f.pinched
    case RockNRoll => fx.index && !fx.middle && !fx.ring && fx.pinky
    case LShape => fx.index && !fx.middle && !fx.ring && !fx.pinky && thumb
    case Pointing => fx.index && !fx.middle && !fx.ring && !fx.pinky && !thumb
    case Unknown => true
  }

  /** The position of the first rule in `rules` that matches, or `|rules|`. */
  function FirstMatchIndex(rules: seq<Gesture>, f: Features): (k: nat)
    ensures k <= |rules|
    ensures forall j :: 0 <= j < k ==> !Matches(rules[j], f)
    ensures k < |rules| ==> Matches(rules[k], f)
  {
    if rules == [] then 0
    else if Matches(rules[0], f) then 0
    else 1 + FirstMatchIndex(rules[1..], f)
  }

  /** First-match-wins evaluation of a rule table with an `Unknown` fallback. */
  function FirstMatch(rules: seq<Gesture>, f: Features): Gesture
  {
    var k := FirstMatchIndex(rules, f);
    if k < |rules| then rules[k] else Unknown
  }
}
