/**
 Properties of the gesture classifier: its vocabulary, the exact landmark
 conditions of the first rules, strict boundaries, rule precedence, agreement
 with the ordered rule table, and independence from the landmarks it does not read.
 */
module GestureProperties {
  import opened Gestures

  // ---------------------------------------------------------------------------
  // Vocabulary
  // ---------------------------------------------------------------------------

  /** The classifier always returns one of the ten labels; distinct gestures
      have distinct labels, so a label names exactly one gesture. */
  lemma LabelInVocabulary(lm: seq<Landmark>, s: Schema)
    requires Covers(s, |lm|)
    ensures DetectLabel(lm, s) in Labels
    ensures forall g :: Label(g) == DetectLabel(lm, s) ==> g == DetectGesture(lm, s)
  {
  }

  /** "Unknown" is the fallback: it is returned exactly when no rule of the
      table matches. */
  lemma UnknownIsFallback(lm: seq<Landmark>, s: Schema)
    requires Covers(s, |lm|)
    ensures DetectLabel(lm, s) == "Unknown" <==>
              forall k :: 0 <= k < |Rules| ==> !Matches(Rules[k], Extract(lm, s))
  {
    var f := Extract(lm, s);
    DecideIsFirstMatch(f);
    assert Unknown !in Rules;
  }

  // ---------------------------------------------------------------------------
  // Exact conditions stated on the landmarks
  // ---------------------------------------------------------------------------

  /** All four finger tips above their MCPs. */
  predicate AllTipsAbove(lm: seq<Landmark>, s: Schema)
    requires Covers(s, |lm|)
  {
    lm[s.indexTip].y < lm[s.indexMcp].y && lm[s.middleTip].y < lm[s.middleMcp].y &&
    lm[s.ringTip].y < lm[s.ringMcp].y && lm[s.pinkyTip].y < lm[s.pinkyMcp].y
  }

  /** No finger tip above its MCP. */
  predicate NoTipAbove(lm: seq<Landmark>, s: Schema)
    requires Covers(s, |lm|)
  {
    lm[s.indexTip].y >= lm[s.indexMcp].y && lm[s.middleTip].y >= lm[s.middleMcp].y &&
    lm[s.ringTip].y >= lm[s.ringMcp].y && lm[s.pinkyTip].y >= lm[s.pinkyMcp].y
  }

  lemma OpenPalmExactly(lm: seq<Landmark>, s: Schema)
    requires Covers(s, |lm|)
    ensures DetectGesture(lm, s) == OpenPalm <==>
              AllTipsAbove(lm, s) && lm[s.thumbTip].x < lm[s.thumbIp].x
  {
  }

  lemma FistExactly(lm: seq<Landmark>, s: Schema)
    requires Covers(s, |lm|)
    ensures DetectGesture(lm, s) == Fist <==>
              NoTipAbove(lm, s) && lm[s.thumbTip].x >= lm[s.thumbIp].x
  {
  }

  lemma ThumbsUpExactly(lm: seq<Landmark>, s: Schema)
    requires Covers(s, |lm|)
    ensures DetectGesture(lm, s) == ThumbsUp <==>
              NoTipAbove(lm, s) && lm[s.thumbTip].x < lm[s.thumbIp].x
  {
  }

  /** Peace depends on the four fingers only, whatever the thumb and the pinch. */
  lemma PeaceExactly(lm: seq<Landmark>, s: Schema)
    requires Covers(s, |lm|)
    ensures DetectGesture(lm, s) == Peace <==>
              lm[s.indexTip].y < lm[s.indexMcp].y && lm[s.middleTip].y < lm[s.middleMcp].y &&
              lm[s.ringTip].y >= lm[s.ringMcp].y && lm[s.pinkyTip].y >= lm[s.pinkyMcp].y
  {
  }

  /** No rule before Peace can match a Peace pose, so Peace is never shadowed. */
  lemma PeaceNotShadowed(f: Features)
    requires Matches(Peace, f)
    ensures forall k :: 0 <= k < 3 ==> !Matches(Rules[k], f)
    ensures Decide(f) == Peace
  {
  }

  // ---------------------------------------------------------------------------
  // Strict boundaries
  // ---------------------------------------------------------------------------

  /** A tip level with its MCP is not extended, and a thumb tip level with
      the thumb IP is not extended, each whatever the other landmarks are. */
  lemma LevelMeansNotExtended(lm: seq<Landmark>, s: Schema)
    requires Covers(s, |lm|)
    ensures lm[s.indexTip].y == lm[s.indexMcp].y ==> !Extract(lm, s).fingers.index
    ensures lm[s.middleTip].y == lm[s.middleMcp].y ==> !Extract(lm, s).fingers.middle
    ensures lm[s.ringTip].y == lm[s.ringMcp].y ==> !Extract(lm, s).fingers.ring
    ensures lm[s.pinkyTip].y == lm[s.pinkyMcp].y ==> !Extract(lm, s).fingers.pinky
    ensures lm[s.thumbTip].x == lm[s.thumbIp].x ==> !Extract(lm, s).thumb
  {
  }

  /** A hand whose every tip is level with its base joint is a Fist. */
  lemma LevelHandIsFist(lm: seq<Landmark>, s: Schema)
    requires Covers(s, |lm|)
    requires lm[s.indexTip].y == lm[s.indexMcp].y && lm[s.middleTip].y == lm[s.middleMcp].y
    requires lm[s.ringTip].y == lm[s.ringMcp].y && lm[s.pinkyTip].y == lm[s.pinkyMcp].y
    requires lm[s.thumbTip].x == lm[s.thumbIp].x
    ensures DetectGesture(lm, s) == Fist
  {
  }

  /** A thumb tip level with the thumb IP never gives the thumb-extended gestures. */
  lemma LevelThumbNotExtended(lm: seq<Landmark>, s: Schema)
    requires Covers(s, |lm|)
    requires lm[s.thumbTip].x == lm[s.thumbIp].x
    ensures DetectGesture(lm, s) !in {OpenPalm, ThumbsUp, LShape}
  {
  }

  /** An axis distance of exactly the threshold, on either axis, is not a pinch. */
  lemma PinchBoundaryExcluded(thumbTip: Landmark, indexTip: Landmark)
    requires Abs(thumbTip.x - indexTip.x) == 0.05 || Abs(thumbTip.y - indexTip.y) == 0.05
    ensures !Pinched(thumbTip, indexTip)
  {
  }

  /** On the landmarks: a pinch at exactly the threshold never yields "OK". */
  lemma PinchBoundaryNotOK(lm: seq<Landmark>, s: Schema)
    requires Covers(s, |lm|)
    requires Abs(lm[s.thumbTip].x - lm[s.indexTip].x) == 0.05 ||
             Abs(lm[s.thumbTip].y - lm[s.indexTip].y) == 0.05
    ensures DetectGesture(lm, s) != OK
  {
  }

  // ---------------------------------------------------------------------------
  // Precedence
  // ---------------------------------------------------------------------------

  /** "OK" needs rules 1-5 to fail and both axis distances below the threshold. */
  lemma OKOnlyAfterEarlierRules(lm: seq<Landmark>, s: Schema)
    requires Covers(s, |lm|)
    requires DetectGesture(lm, s) == OK
    ensures forall k :: 0 <= k < 5 ==> !Matches(Rules[k], Extract(lm, s))
    ensures Abs(lm[s.thumbTip].x - lm[s.indexTip].x) < 0.05
    ensures Abs(lm[s.thumbTip].y - lm[s.indexTip].y) < 0.05
  {
  }

  /** A Pinky pose that is also pinched is classified "Pinky": rule 5 comes before rule 6. */
  lemma PinkyBeatsPinch(f: Features)
    requires Matches(Pinky, f) && f.pinched
    ensures Decide(f) == Pinky
  {
  }

  /** A pinched pose that no rule before OK matches is "OK", whatever rules
      7-9 would say. */
  lemma PinchBeatsLaterRules(f: Features)
    requires f.pinched
    requires forall k :: 0 <= k < 5 ==> !Matches(Rules[k], f)
    ensures Decide(f) == OK
  {
    assert !Matches(Rules[0], f) && !Matches(Rules[1], f) && !Matches(Rules[2], f);
    assert !Matches(Rules[3], f) && !Matches(Rules[4], f);
  }

  /** Rock'n Roll, L shape and Pointing need the index extended, middle and ring
      not extended and no pinch; L shape and Pointing also need the pinky not
      extended, and of those two the thumb decides. */
  lemma IndexFamily(f: Features)
    requires Decide(f) in {RockNRoll, LShape, Pointing}
    ensures f.fingers.index && !f.fingers.middle && !f.fingers.ring && !f.pinched
    ensures Decide(f) == RockNRoll <==> f.fingers.pinky
    ensures Decide(f) == LShape <==> !f.fingers.pinky && f.thumb
    ensures Decide(f) == Pointing <==> !f.fingers.pinky && !f.thumb
  {
  }

  /** Flipping only the thumb turns L shape into Pointing and back. */
  lemma LShapePointingDifferByThumb(f: Features)
    requires Decide(f) in {LShape, Pointing}
    ensures Decide(f.(thumb := !f.thumb)) in {LShape, Pointing}
    ensures Decide(f.(thumb := !f.thumb)) != Decide(f)
  {
  }

  // ---------------------------------------------------------------------------
  // Agreement with the ordered rule table
  // ---------------------------------------------------------------------------

  /** The if/elif chain evaluates the rule table first-match-wins. */
  lemma DecideIsFirstMatch(f: Features)
    ensures Decide(f) == FirstMatch(Rules, f)
  {
    var k := FirstMatchIndex(Rules, f);
    assert k <= 9;
    if k == 0 {
    } else if k == 1 {
      assert !Matches(Rules[0], f);
    } else if k == 2 {
      assert !Matches(Rules[0], f) && !Matches(Rules[1], f);
    } else if k == 3 {
      assert !Matches(Rules[0], f) && !Matches(Rules[1], f) && !Matches(Rules[2], f);
    } else if k == 4 {
      assert !Matches(Rules[0], f) && !Matches(Rules[1], f) && !Matches(Rules[2], f);
      assert !Matches(Rules[3], f);
    } else {
      assert !Matches(Rules[0], f) && !Matches(Rules[1], f) && !Matches(Rules[2], f);
      assert !Matches(Rules[3], f) && !Matches(Rules[4], f);
      if k > 5 {
        assert !Matches(Rules[5], f);
      }
      if k > 6 {
        assert !Matches(Rules[6], f);
      }
      if k > 7 {
        assert !Matches(Rules[7], f);
      }
      if k > 8 {
        assert !Matches(Rules[8], f);
      }
    }
  }

  /** First-match-wins picks the earliest matching rule: if rule `k` matches
      and no earlier one does, the table yields rule `k`'s gesture. */
  lemma FirstMatchIsEarliest(rules: seq<Gesture>, f: Features, k: nat)
    requires k < |rules| && Matches(rules[k], f)
    requires forall j :: 0 <= j < k ==> !Matches(rules[j], f)
    ensures FirstMatch(rules, f) == rules[k]
  {
  }

  // ---------------------------------------------------------------------------
  // Nothing else matters
  // ---------------------------------------------------------------------------

  /** Two landmark sequences agree on everything the classifier reads:
      the y of the four finger tips and MCPs, the x and y of the thumb tip
      and index tip, and the x of the thumb IP. */
  predicate SameRelevant(s: Schema, a: seq<Landmark>, b: seq<Landmark>)
    requires Covers(s, |a|) && Covers(s, |b|)
  {
    a[s.indexTip].y == b[s.indexTip].y && a[s.indexMcp].y == b[s.indexMcp].y &&
    a[s.middleTip].y == b[s.middleTip].y && a[s.middleMcp].y == b[s.middleMcp].y &&
    a[s.ringTip].y == b[s.ringTip].y && a[s.ringMcp].y == b[s.ringMcp].y &&
    a[s.pinkyTip].y == b[s.pinkyTip].y && a[s.pinkyMcp].y == b[s.pinkyMcp].y &&
    a[s.thumbTip].x == b[s.thumbTip].x && a[s.thumbTip].y == b[s.thumbTip].y &&
    a[s.indexTip].x == b[s.indexTip].x &&
    a[s.thumbIp].x == b[s.thumbIp].x
  }

  lemma OnlyRelevantCoordinatesMatter(s: Schema, a: seq<Landmark>, b: seq<Landmark>)
    requires Covers(s, |a|) && Covers(s, |b|)
    requires SameRelevant(s, a, b)
    ensures DetectGesture(a, s) == DetectGesture(b, s)
  {
  }

  /** Replacing a landmark the schema does not name leaves the result unchanged. */
  lemma UnreadLandmarkIrrelevant(s: Schema, lm: seq<Landmark>, i: nat, p: Landmark)
    requires Covers(s, |lm|) && i < |lm|
    requires i !in Accessed(s)
    ensures DetectGesture(lm[i := p], s) == DetectGesture(lm, s)
  {
  }

  /** Changing every depth leaves the result unchanged. */
  lemma DepthIrrelevant(s: Schema, a: seq<Landmark>, b: seq<Landmark>)
    requires Covers(s, |a|) && |a| == |b|
    requires forall i :: 0 <= i < |a| ==> a[i].x == b[i].x && a[i].y == b[i].y
    ensures DetectGesture(a, s) == DetectGesture(b, s)
  {
  }

  // ---------------------------------------------------------------------------
  // Concrete MediaPipe scenarios
  // ---------------------------------------------------------------------------

  /** A MediaPipe hand with every landmark at the centre of the image, then
      the given tips moved. `up` lifts a finger tip above its MCP; `left`
      moves the thumb tip left of the thumb IP. */
  function ScenarioPose(index: bool, middle: bool, ring: bool, pinky: bool, left: bool): (lm: seq<Landmark>)
    ensures |lm| == MediaPipeLandmarkCount
  {
    var centre := seq(MediaPipeLandmarkCount, _ => Landmark(0.5, 0.5, 0.0));
    var tipY := (up: bool) => if up then 0.2 else 0.7;
    centre[MediaPipe.indexTip := Landmark(0.5, tipY(index), 0.0)]
          [MediaPipe.middleTip := Landmark(0.6, tipY(middle), 0.0)]
          [MediaPipe.ringTip := Landmark(0.7, tipY(ring), 0.0)]
          [MediaPipe.pinkyTip := Landmark(0.8, tipY(pinky), 0.0)]
          [MediaPipe.thumbTip := Landmark(if left then 0.3 else 0.9, 0.5, 0.0)]
  }

  lemma ScenarioOpenPalm()
    ensures DetectLabel(ScenarioPose(true, true, true, true, true), MediaPipe) == "Open Palm"
  {
  }

  lemma ScenarioFist()
    ensures DetectLabel(ScenarioPose(false, false, false, false, false), MediaPipe) == "Fist"
  {
  }

  lemma ScenarioPeace(left: bool)
    ensures DetectLabel(ScenarioPose(true, true, false, false, left), MediaPipe) == "Peace"
  {
  }

  /** Every gesture, including each rule behind the earlier ones and the
      fallback, is produced by some complete MediaPipe hand. */
  lemma EveryGestureReachable(g: Gesture)
    ensures exists lm: seq<Landmark> :: |lm| == MediaPipeLandmarkCount && DetectGesture(lm, MediaPipe) == g
  {
    var lm := match g
      case OpenPalm => ScenarioPose(true, true, true, true, true)
      case Fist => ScenarioPose(false, false, false, false, false)
      case ThumbsUp => ScenarioPose(false, false, false, false, true)
      case Peace => ScenarioPose(true, true, false, false, false)
      case Pinky => ScenarioPose(false, false, false, true, false)
      case OK => ScenarioPose(true, false, false, false, false)[MediaPipe.thumbTip := Landmark(0.51, 0.21, 0.0)]
      case RockNRoll => ScenarioPose(true, false, false, true, false)
      case LShape => ScenarioPose(true, false, false, false, true)
      case Pointing => ScenarioPose(true, false, false, false, false)
      case Unknown => ScenarioPose(false, true, false, false, false);
    assert |lm| == MediaPipeLandmarkCount && DetectGesture(lm, MediaPipe) == g;
  }

  /** A MediaPipe hand with only 20 landmarks lacks the pinky tip, the first
      and only index out of range. */
  lemma ScenarioMissingPinkyTip()
    ensures TryDetectGesture(ScenarioPose(true, true, true, true, true)[..20], MediaPipe)
            == Err(MissingLandmark(20))
  {
  }
}
