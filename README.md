# Hand-gesture classifier, modelled in Dafny

This project models `detect_gesture` from `gestures.py`. The function takes the
landmark sequence of one detected hand and the detector's naming scheme for the
landmark indices. It returns one label from a closed vocabulary: "Open Palm",
"Fist", "Thumbs Up", "Peace", "Pinky", "OK", "Rock'n Roll", "L shape", "Pointing"
or "Unknown".

The model follows the source's three steps:

- **Extraction** (`Gestures.Extract`) reads the five finger tips, the four MCP
  knuckles and the thumb IP joint. A `Schema` record of indices stands in for
  the detector library's `HandLandmark` enumeration. `Gestures.MediaPipe` holds
  MediaPipe's values (thumb IP 3, thumb tip 4, index MCP 5, index tip 8,
  middle MCP 9, middle tip 12, ring MCP 13, ring tip 16, pinky MCP 17,
  pinky tip 20; 21 landmarks per hand).
- **Features** (`Extended`, `ThumbExtended`, `Pinched`, gathered in `Features`):
  - A finger is extended when `tip.y < mcp.y`.
  - The thumb is extended when `thumb_tip.x < thumb_ip.x`.
  - Thumb tip and index tip are pinched when both `|Δx|` and `|Δy|` are below 0.05.
  - The source's dictionary of finger booleans becomes the fixed-field `Fingers` record.
- **Rules** (`Gestures.Decide`) are the first-match-wins `if/elif` chain with the
  "Unknown" fallback, in the source's order. `Gestures.Rules` and
  `Gestures.FirstMatch` give the same chain as an ordered rule table.
  `GestureProperties.DecideIsFirstMatch` proves that the two agree.

Coordinates are `real`. The classifier only compares and subtracts them.

`Gestures.DetectGesture` requires every schema index to be inside the landmark
sequence (`Covers`). In the source, a missing landmark is an out-of-range
subscript, which raises an error. `Gestures.TryDetectGesture` models that path.
It is total: it returns `Err(MissingLandmark(i))`, where `i` is the first index
out of range in the order the source subscripts the sequence (tips, then MCPs,
then the thumb IP). Otherwise it returns `Ok` with the classifier's result.

Known limitation, kept as the source has it: the extension tests are not
rotation-invariant. They assume an upright hand with the image y axis pointing
down, and a mirrored (selfie-style) frame for the thumb.

Files:

- `gestures.dfy` (module `Gestures`): the data model, the features, the rule
  chain, the error path and the rule table.
- `gesture_properties.dfy` (module `GestureProperties`): the properties.

## Model

| member | source | states |
|---|---|---|
| `Gestures.Decide` | gestures.py:18-37 | for each of the ten gestures, exactly which combinations of finger, thumb and pinch features produce it once earlier rules take precedence: Open Palm iff all fingers and thumb extended; Fist iff no finger and no thumb; Thumbs Up iff no finger but the thumb; Peace iff index and middle up and ring and pinky down, whatever the thumb; Pinky, OK, Rock'n Roll, L shape, Pointing and Unknown with the earlier rules excluded |
| `Gestures.TryDetectGesture` | gestures.py:1-16 | succeeds exactly when the sequence holds every schema index, and then gives the classifier's result; otherwise fails with a missing index that is out of range and is the first such in the source's subscript order |
| `Gestures.FirstOutOfRange` | gestures.py:2-16 | finds the first subscript, in access order, that the landmark sequence does not reach, or none exactly when all are reachable |
| `Gestures.FirstMatchIndex` | gestures.py:18-37 | the position of the first rule whose condition holds: no earlier rule matches, and the rule at that position matches unless none does |
| `GestureProperties.LabelInVocabulary` | gestures.py:18-37 | the returned string is one of the ten labels and names exactly one gesture |
| `GestureProperties.UnknownIsFallback` | gestures.py:36-37 | "Unknown" is returned exactly when none of the nine rules matches |
| `GestureProperties.OpenPalmExactly` | gestures.py:15-19 | "Open Palm" exactly when all four tips are above their MCPs and the thumb tip is left of the thumb IP |
| `GestureProperties.FistExactly` | gestures.py:15-21 | "Fist" exactly when no tip is above its MCP and the thumb tip is not left of the thumb IP |
| `GestureProperties.ThumbsUpExactly` | gestures.py:15-23 | "Thumbs Up" exactly when no tip is above its MCP and the thumb tip is left of the thumb IP |
| `GestureProperties.PeaceExactly` | gestures.py:15-25 | "Peace" exactly when index and middle tips are above their MCPs and ring and pinky tips are not, whatever the thumb |
| `GestureProperties.PeaceNotShadowed` | gestures.py:18-25 | no rule before Peace matches a Peace pose, so such a pose is always "Peace" |
| `GestureProperties.LevelMeansNotExtended` | gestures.py:15-16 | each finger whose tip is level with its MCP is not extended, and a thumb tip level with the thumb IP is not extended, one landmark at a time whatever the others are |
| `GestureProperties.LevelHandIsFist` | gestures.py:15-21 | a hand whose four tips are level with their MCPs and whose thumb tip is level with the thumb IP is a "Fist" |
| `GestureProperties.LevelThumbNotExtended` | gestures.py:16-33 | a thumb tip level with the thumb IP never gives "Open Palm", "Thumbs Up" or "L shape" |
| `GestureProperties.PinchBoundaryExcluded` | gestures.py:28 | an axis distance of exactly 0.05, on either axis, is not a pinch |
| `GestureProperties.PinchBoundaryNotOK` | gestures.py:28-29 | a thumb/index distance of exactly 0.05 on either axis, in either direction, never yields "OK" |
| `GestureProperties.OKOnlyAfterEarlierRules` | gestures.py:18-29 | "OK" only when rules 1-5 all fail and both axis distances are below 0.05 |
| `GestureProperties.PinkyBeatsPinch` | gestures.py:26-29 | a Pinky pose that is also pinched is "Pinky" |
| `GestureProperties.PinchBeatsLaterRules` | gestures.py:26-35 | a pinched pose that rules 1-5 do not match is "OK", whatever rules 7-9 would say |
| `GestureProperties.IndexFamily` | gestures.py:30-35 | "Rock'n Roll", "L shape" and "Pointing" need index up, middle and ring down and no pinch; the pinky separates Rock'n Roll from the other two, and the thumb separates L shape from Pointing |
| `GestureProperties.LShapePointingDifferByThumb` | gestures.py:32-35 | flipping only the thumb turns "L shape" into "Pointing" and back |
| `GestureProperties.DecideIsFirstMatch` | gestures.py:18-37 | the if/elif chain equals first-match-wins evaluation of the ordered rule table |
| `GestureProperties.FirstMatchIsEarliest` | gestures.py:18-37 | first-match-wins evaluation returns the gesture of the earliest matching rule |
| `GestureProperties.OnlyRelevantCoordinatesMatter` | gestures.py:2-16 | two landmark sequences that agree on the finger tip and MCP y, the thumb tip and index tip x and y, and the thumb IP x get the same gesture |
| `GestureProperties.UnreadLandmarkIrrelevant` | gestures.py:2-16 | replacing a landmark the schema does not name leaves the gesture unchanged |
| `GestureProperties.DepthIrrelevant` | gestures.py:2-16 | changing any landmark's z leaves the gesture unchanged |
| `GestureProperties.ScenarioOpenPalm` | gestures.py:18-19 | a MediaPipe hand with all tips raised and the thumb to the left is "Open Palm" |
| `GestureProperties.ScenarioFist` | gestures.py:20-21 | a MediaPipe hand with all tips lowered and the thumb to the right is "Fist" |
| `GestureProperties.ScenarioPeace` | gestures.py:24-25 | a MediaPipe hand with only index and middle raised is "Peace" for either thumb position |
| `GestureProperties.EveryGestureReachable` | gestures.py:18-37 | each of the ten gestures, including each rule behind the earlier ones and the "Unknown" fallback, is returned for some complete 21-landmark MediaPipe hand |
| `GestureProperties.ScenarioMissingPinkyTip` | gestures.py:7 | a MediaPipe hand of 20 landmarks fails with the pinky tip (index 20) missing |

## Left out

- The webcam capture, rendering, menu and goodbye screen in `main.py`, and the capture loop in `client.py`: all I/O and UI around the hand detector.
- `output_code` in `main.py`: it calls the external detector and wraps the classifier's per-hand results in a list, or `None` when the frame cannot be read or no hand is found. Only the classifier itself is modelled.
- The hand detector and its `HandLandmark` enumeration: a foreign library. They are replaced by the `Schema` record and the `MediaPipe` constant.
- Floating point: coordinates and the 0.05 threshold are exact reals. Rounding in the subtraction `tip.x - index.x`, and the binary value of the literal 0.05, are not modelled. Near the threshold a float result can differ from the exact one. The model also assumes finite, ordered coordinates: a NaN coordinate makes both `<` and `>=` false in the source, so the `>=` conditions in `FistExactly`, `ThumbsUpExactly` and `PeaceExactly` describe only non-NaN values.
- Negative subscripts: Python would accept a negative index from the end of the sequence. Schema indices are `nat` here, as the detector's enumeration values are.
