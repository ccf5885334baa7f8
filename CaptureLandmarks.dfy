/**
 * The recording script: the layout of one frame's feature vector, the capture loop that
 * collects timestamped frames, the rule that fewer than two frames are not saved, and the
 * payload and file name of a saved clip. The camera, the landmark detector, the clock and the
 * keyboard are inputs: one `Tick` per pass of the loop.
 */
module CaptureLandmarks {
  import opened Wrappers

  /** One detected point, in the detector's normalised coordinates. */
  datatype Landmark = Landmark(x: real, y: real, z: real)

  /** The detector's output for one frame; a part that was not detected is None. */
  datatype Results = Results(
    leftHand: Option<seq<Landmark>>,
    rightHand: Option<seq<Landmark>>,
    pose: Option<seq<Landmark>>,
    face: Option<seq<Landmark>>)

  const HandSize: nat := 21 * 3
  const PoseSize: nat := 33 * 3
  const FaceSize: nat := 468 * 3

  function Zeros(n: nat): (r: seq<real>)
    ensures |r| == n && forall i :: 0 <= i < n ==> r[i] == 0.0
  {
    seq(n, i => 0.0)
  }

  /** The coordinates of the points, three per point in the order x, y, z. */
  function Flatten(points: seq<Landmark>): (r: seq<real>)
    ensures |r| == 3 * |points|
    ensures forall i :: 0 <= i < |points| ==>
      r[3 * i] == points[i].x && r[3 * i + 1] == points[i].y && r[3 * i + 2] == points[i].z
  {
    if points == [] then []
    else
      var rest := Flatten(points[1..]);
      var r := [points[0].x, points[0].y, points[0].z] + rest;
      assert forall i :: 1 <= i < |points| ==> r[3 * i] == rest[3 * (i - 1)];
      r
  }

  /** `lm_list`: a detected part's coordinates, or `n` zeros in its place. */
  function PartList(part: Option<seq<Landmark>>, n: nat): (r: seq<real>)
    ensures part.None? ==> r == Zeros(n)
    ensures part.Some? ==> r == Flatten(part.value) && |r| == 3 * |part.value|
  {
    match part
    case None => Zeros(n)
    case Some(points) => Flatten(points)
  }

  /** `landmarks_to_list`: left hand, right hand, pose and face, one after another. */
  function LandmarksToList(results: Results): (feat: seq<real>)
    ensures |feat| == |PartList(results.leftHand, HandSize)| + |PartList(results.rightHand, HandSize)|
                      + |PartList(results.pose, PoseSize)| + |PartList(results.face, FaceSize)|
  {
    PartList(results.leftHand, HandSize) + PartList(results.rightHand, HandSize)
      + PartList(results.pose, PoseSize) + PartList(results.face, FaceSize)
  }

  /** The four parts sit at fixed offsets when each has its expected size. */
  predicate StandardSizes(results: Results)
  {
    && (results.leftHand.Some? ==> |results.leftHand.value| == 21)
    && (results.rightHand.Some? ==> |results.rightHand.value| == 21)
    && (results.pose.Some? ==> |results.pose.value| == 33)
    && (results.face.Some? ==> |results.face.value| == 468)
  }

  /**
   * With the expected number of points per part the vector has 1629 entries, and each part
   * occupies its own slice: 0..63, 63..126, 126..225 and 225..1629.
   */
  lemma FeatureLayout(results: Results)
    requires StandardSizes(results)
    ensures var feat := LandmarksToList(results);
      && |feat| == 1629
      && feat[..63] == PartList(results.leftHand, HandSize)
      && feat[63..126] == PartList(results.rightHand, HandSize)
      && feat[126..225] == PartList(results.pose, PoseSize)
      && feat[225..] == PartList(results.face, FaceSize)
  {
    var lh, rh := PartList(results.leftHand, HandSize), PartList(results.rightHand, HandSize);
    var pose, face := PartList(results.pose, PoseSize), PartList(results.face, FaceSize);
    var feat := LandmarksToList(results);
    assert feat == lh + rh + pose + face;
    assert feat[..63] == lh;
    assert feat[63..126] == rh;
    assert feat[126..225] == pose;
    assert feat[225..] == face;
  }

  /** A frame where nothing was detected is 1629 zeros. */
  lemma NothingDetected()
    ensures LandmarksToList(Results(None, None, None, None)) == Zeros(1629)
  {
    var feat := LandmarksToList(Results(None, None, None, None));
    assert |feat| == 1629;
    assert forall i :: 0 <= i < 1629 ==> feat[i] == 0.0;
  }

  /** The first hand point's coordinates open the vector when the left hand is detected. */
  lemma LeftHandFirst(results: Results)
    requires results.leftHand.Some? && |results.leftHand.value| > 0
    ensures var p := results.leftHand.value[0]; var feat := LandmarksToList(results);
      feat[0] == p.x && feat[1] == p.y && feat[2] == p.z
  {
  }

  // ---------------------------------------------------------------------------------------
  // The capture loop

  /**
   * One pass of the capture loop as the outside world answers it: the clock at the loop
   * test, the camera read (None when `cap.read()` fails) with the detector's results, the
   * clock when the frame is stored, and the key code from `cv2.waitKey(1)` (-1 for none).
   */
  datatype Tick = Tick(checkTime: real, read: Option<Results>, frameTime: real, key: int)

  /** One stored frame: its time and its feature vector. */
  datatype Frame = Frame(t: real, feat: seq<real>)

  /** The frame stored for a successful read: `{"t": time.time(), "feat": landmarks_to_list(results)}`. */
  function FrameOf(tick: Tick): Frame
    requires tick.read.Some?
  {
    Frame(tick.frameTime, LandmarksToList(tick.read.value))
  }

  /** `cv2.waitKey(1) & 0xFF == 27`: the low byte of the key code is Escape's (Python's `&` on a negative code as well). */
  predicate IsEscape(key: int)
  {
    key % 256 == 27
  }

  lemma EscapeCodes()
    ensures !IsEscape(-1) && IsEscape(27) && IsEscape(27 + 256)
  {
  }

  /**
   * The frames the loop collects: it stops when the clock reaches the duration, when a read
   * fails (also when the camera has nothing more), or, with the preview on, after storing
   * the frame on which Escape was pressed.
   */
  function Collected(ticks: seq<Tick>, start: real, duration: real, preview: bool): (frames: seq<Frame>)
    ensures |frames| <= |ticks|
  {
    if ticks == [] || !(ticks[0].checkTime - start < duration) || ticks[0].read.None? then []
    else
      var frame := FrameOf(ticks[0]);
      if preview && IsEscape(ticks[0].key) then [frame]
      else [frame] + Collected(ticks[1..], start, duration, preview)
  }

  /**
   * Frame k comes from the k-th read, which succeeded before the duration was over; it holds
   * that read's time and its feature vector.
   */
  lemma {:induction false} CollectedFrames(ticks: seq<Tick>, start: real, duration: real, preview: bool)
    ensures var frames := Collected(ticks, start, duration, preview);
      forall k :: 0 <= k < |frames| ==>
        && ticks[k].checkTime - start < duration && ticks[k].read.Some?
        && frames[k] == Frame(ticks[k].frameTime, LandmarksToList(ticks[k].read.value))
  {
    if ticks != [] {
      CollectedFrames(ticks[1..], start, duration, preview);
    }
  }

  /** A recording whose duration has already passed at the first test collects nothing. */
  lemma NoTimeNoFrames(ticks: seq<Tick>, start: real, duration: real, preview: bool)
    requires ticks != [] && ticks[0].checkTime - start >= duration
    ensures Collected(ticks, start, duration, preview) == []
  {
  }

  /** With the preview on, Escape on the first frame ends the recording with that one frame. */
  lemma EscapeOnFirstFrame(ticks: seq<Tick>, start: real, duration: real)
    requires ticks != [] && ticks[0].checkTime - start < duration && ticks[0].read.Some?
    requires IsEscape(ticks[0].key)
    ensures |Collected(ticks, start, duration, true)| == 1
  {
  }

  /** Without the preview, keys are never read: the frames do not depend on them. */
  lemma {:induction false} KeysIgnoredWithoutPreview(ticks: seq<Tick>, others: seq<Tick>, start: real, duration: real)
    requires |ticks| == |others|
    requires forall k :: 0 <= k < |ticks| ==> others[k] == ticks[k].(key := others[k].key)
    ensures Collected(ticks, start, duration, false) == Collected(others, start, duration, false)
  {
    if ticks != [] {
      assert others[0] == ticks[0].(key := others[0].key);
      KeysIgnoredWithoutPreview(ticks[1..], others[1..], start, duration);
    }
  }

  /** The saved clip: the sign (its `label`), the timestamp, the frame count and the frames. */
  datatype Payload = Payload(sign: string, timestamp: string, nFrames: nat, frames: seq<Frame>)

  /** `os.path.join` of two POSIX path parts. */
  function PathJoin(a: string, b: string): (p: string)
    ensures b != [] && b[0] == '/' ==> p == b
    ensures (b == [] || b[0] != '/') && a != [] && a[|a| - 1] != '/' ==> p == a + "/" + b
  {
    if b != [] && b[0] == '/' then b
    else if a == [] || a[|a| - 1] == '/' then a + b
    else a + "/" + b
  }

  /** The clip's file: `<sign>_<timestamp>.json` in the sign's folder under `outDir`. */
  function ClipPath(outDir: string, sign: string, timestamp: string): string
  {
    PathJoin(PathJoin(outDir, sign), sign + "_" + timestamp + ".json")
  }

  /** For a relative sign and an output folder without a trailing slash, the path is `out/sign/sign_ts.json`. */
  lemma ClipPathShape(outDir: string, sign: string, timestamp: string)
    requires outDir != [] && outDir[|outDir| - 1] != '/'
    requires sign != [] && sign[0] != '/' && sign[|sign| - 1] != '/'
    ensures ClipPath(outDir, sign, timestamp) == outDir + "/" + sign + "/" + sign + "_" + timestamp + ".json"
  {
    var dir := outDir + "/" + sign;
    assert PathJoin(outDir, sign) == dir;
    assert dir[|dir| - 1] == sign[|sign| - 1];
    var name := sign + "_" + timestamp + ".json";
    assert name[0] == sign[0];
    assert PathJoin(dir, name) == dir + "/" + name;
  }

  /** One pass of the loop, from the `i`-th tick on. */
  lemma CollectedFrom(ticks: seq<Tick>, i: nat, start: real, duration: real, preview: bool)
    requires i < |ticks|
    ensures var t := ticks[i]; var rest := Collected(ticks[i..], start, duration, preview);
      && (!(t.checkTime - start < duration) || t.read.None? ==> rest == [])
      && (t.checkTime - start < duration && t.read.Some? ==>
            && (preview && IsEscape(t.key) ==> rest == [FrameOf(t)])
            && (!(preview && IsEscape(t.key)) ==> rest == [FrameOf(t)] + Collected(ticks[i + 1..], start, duration, preview)))
  {
    assert ticks[i..][0] == ticks[i];
    assert ticks[i..][1..] == ticks[i + 1..];
  }

  /** A pass that ends the loop before storing: the frames so far are all the loop collects. */
  lemma StopBefore(ticks: seq<Tick>, i: nat, frames: seq<Frame>, start: real, duration: real, preview: bool)
    requires i < |ticks| && frames + Collected(ticks[i..], start, duration, preview) == Collected(ticks, start, duration, preview)
    requires !(ticks[i].checkTime - start < duration) || ticks[i].read.None?
    ensures frames == Collected(ticks, start, duration, preview)
  {
    CollectedFrom(ticks, i, start, duration, preview);
    assert frames + [] == frames;
  }

  /** A pass that stores a frame: the loop ends there on Escape, and goes on from the next tick otherwise. */
  lemma StoreFrame(ticks: seq<Tick>, i: nat, frames: seq<Frame>, start: real, duration: real, preview: bool)
    requires i < |ticks| && frames + Collected(ticks[i..], start, duration, preview) == Collected(ticks, start, duration, preview)
    requires ticks[i].checkTime - start < duration && ticks[i].read.Some?
    ensures preview && IsEscape(ticks[i].key) ==> frames + [FrameOf(ticks[i])] == Collected(ticks, start, duration, preview)
    ensures !(preview && IsEscape(ticks[i].key)) ==>
      (frames + [FrameOf(ticks[i])]) + Collected(ticks[i + 1..], start, duration, preview) == Collected(ticks, start, duration, preview)
  {
    CollectedFrom(ticks, i, start, duration, preview);
  }

  /** Past the last tick nothing more is collected. */
  lemma StopAtEnd(ticks: seq<Tick>, frames: seq<Frame>, start: real, duration: real, preview: bool)
    requires frames + Collected(ticks[|ticks|..], start, duration, preview) == Collected(ticks, start, duration, preview)
    ensures frames == Collected(ticks, start, duration, preview)
  {
    assert ticks[|ticks|..] == [];
    assert frames + [] == frames;
  }

  /**
   * The capture loop of `record`: while the clock is within the duration, read a frame (stop
   * on a failed read), store its time and features, and with the preview on stop after a
   * frame on which Escape was pressed.
   */
  method Capture(ticks: seq<Tick>, start: real, duration: real, preview: bool) returns (frames: seq<Frame>)
    ensures frames == Collected(ticks, start, duration, preview)
  {
    frames := [];
    var i := 0;
    var running := true;
    while running && i < |ticks|
      invariant 0 <= i <= |ticks|
      invariant running ==> frames + Collected(ticks[i..], start, duration, preview) == Collected(ticks, start, duration, preview)
      invariant !running ==> frames == Collected(ticks, start, duration, preview)
      decreases |ticks| - i, running
    {
      var tick := ticks[i];
      if !(tick.checkTime - start < duration) || tick.read.None? {
        StopBefore(ticks, i, frames, start, duration, preview);
        running := false;
      } else {
        StoreFrame(ticks, i, frames, start, duration, preview);
        frames := frames + [FrameOf(tick)];
        if preview && IsEscape(tick.key) {
          running := false;
        } else {
          i := i + 1;
        }
      }
    }
    if running {
      StopAtEnd(ticks, frames, start, duration, preview);
    }
  }

  /**
   * `record`: runs the capture loop over `ticks`, then saves nothing (None) when fewer than
   * two frames were collected, and otherwise gives the clip's path and the payload written
   * there. The clock's `datetime.now()` string is `timestamp`.
   */
  method Record(sign: string, start: real, duration: real, outDir: string, preview: bool,
                ticks: seq<Tick>, timestamp: string)
    returns (fname: Option<string>, payload: Option<Payload>)
    ensures var frames := Collected(ticks, start, duration, preview);
      && (|frames| < 2 <==> fname.None?)
      && (|frames| < 2 ==> payload.None?)
      && (|frames| >= 2 ==>
            fname == Some(ClipPath(outDir, sign, timestamp))
            && payload == Some(Payload(sign, timestamp, |frames|, frames)))
  {
    var frames := Capture(ticks, start, duration, preview);
    if |frames| < 2 {
      return None, None;
    }
    fname := Some(ClipPath(outDir, sign, timestamp));
    payload := Some(Payload(sign, timestamp, |frames|, frames));
  }
}
