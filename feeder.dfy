/**
 * The feeder of bird-feeder/main.py (class `BirdFeeder`): the frame
 * difference motion sampler, the weight source, the presence fusion of
 * `read_sensors` (specified by `Presence.Tick`), the photo cooldown gate of
 * `take_photo`, and the dispatch of landing and departure events.
 *
 * The camera, the clock and the load cell are inputs: a gray frame and a
 * "frame read" flag, timestamps, and the load-cell samples of one reading.
 */
module Feeder {
  import opened Options
  import opened Sorting
  import StableWeight
  import opened Presence
  import SerialLink

  /** One pixel of a gray frame. */
  type Pixel = x: int | 0 <= x <= 255

  /** The per-pixel intensity change that counts as motion. */
  const PixelDelta: int := 30

  /** The number of load-cell samples `get_weight` takes by default. */
  const DirectSamples: nat := 35

  function Abs(x: int): nat
  {
    if x < 0 then -x else x
  }

  /** `np.sum(cv2.absdiff(cur, prev) > 30)`: the number of pixels that changed by more than the delta. */
  function ChangedPixels(cur: seq<Pixel>, prev: seq<Pixel>): (n: nat)
    requires |cur| == |prev|
    ensures n <= |cur|
    decreases |cur|
  {
    if cur == [] then 0
    else
      var k := |cur| - 1;
      ChangedPixels(cur[..k], prev[..k]) + (if Abs(cur[k] as int - prev[k] as int) > PixelDelta then 1 else 0)
  }

  /** The positions of the changed pixels. */
  function ChangedSet(cur: seq<Pixel>, prev: seq<Pixel>): set<int>
    requires |cur| == |prev|
  {
    set i | 0 <= i < |cur| && Abs(cur[i] as int - prev[i] as int) > PixelDelta
  }

  /** The motion count is the number of positions whose change exceeds the delta. */
  lemma {:induction false} ChangedPixelsCountsPositions(cur: seq<Pixel>, prev: seq<Pixel>)
    requires |cur| == |prev|
    ensures ChangedPixels(cur, prev) == |ChangedSet(cur, prev)|
  {
    if cur != [] {
      var k := |cur| - 1;
      ChangedPixelsCountsPositions(cur[..k], prev[..k]);
      var front := ChangedSet(cur[..k], prev[..k]);
      if Abs(cur[k] as int - prev[k] as int) > PixelDelta {
        assert ChangedSet(cur, prev) == front + {k};
      } else {
        assert ChangedSet(cur, prev) == front;
      }
    }
  }

  /** Two identical frames show no motion. */
  lemma {:induction false} StillFrameNoMotion(f: seq<Pixel>)
    ensures ChangedPixels(f, f) == 0
  {
    if f != [] {
      StillFrameNoMotion(f[..|f| - 1]);
    }
  }

  /**
   * `detect_motion`'s result: 0 when the frame could not be read or there
   * is no baseline yet, otherwise the count of changed pixels.
   */
  function MotionScore(prev: Option<seq<Pixel>>, frameOk: bool, gray: seq<Pixel>): (m: nat)
    requires frameOk && prev.Some? ==> |gray| == |prev.value|
    ensures !frameOk || prev.None? ==> m == 0
    ensures m <= |gray|
  {
    if !frameOk then 0
    else if prev.None? then 0
    else ChangedPixels(gray, prev.value)
  }

  /** `detect_motion`'s baseline afterwards: untouched on a failed read, the current frame otherwise. */
  function NextBaseline(prev: Option<seq<Pixel>>, frameOk: bool, gray: seq<Pixel>): Option<seq<Pixel>>
  {
    if frameOk then Some(gray) else prev
  }

  /**
   * The cooldown test of `take_photo`. Python's truthiness of
   * `last_photo_time` makes a last capture at time 0.0 count as no capture.
   */
  predicate CoolingDown(last: Option<real>, now: real, cooldown: real)
  {
    last.Some? && last.value != 0.0 && now - last.value < cooldown
  }

  datatype Capture = Capture(taken: bool, lastPhotoTime: Option<real>)

  /**
   * The capture gate: refused while cooling down; otherwise a capture is
   * taken, and the time recorded, exactly when a frame is read.
   */
  function PhotoGate(last: Option<real>, now: real, frameOk: bool, cooldown: real): (c: Capture)
    ensures CoolingDown(last, now, cooldown) ==> !c.taken
    ensures c.taken ==> frameOk
    ensures c.lastPhotoTime != last ==> c.taken && c.lastPhotoTime == Some(now)
    ensures !CoolingDown(last, now, cooldown) && frameOk ==> c == Capture(true, Some(now))
    ensures !c.taken ==> c.lastPhotoTime == last
  {
    if CoolingDown(last, now, cooldown) then Capture(false, last)
    else if frameOk then Capture(true, Some(now))
    else Capture(false, last)
  }

  /** A request to photograph: the time of `take_photo` and whether the camera delivered a frame. */
  datatype Request = Request(now: real, frameOk: bool)

  datatype GateLog = GateLog(last: Option<real>, taken: seq<real>)

  /** The gate over a series of requests: the last capture time and the times of the captures taken. */
  function GateRun(last: Option<real>, reqs: seq<Request>, cooldown: real): (g: GateLog)
    ensures g.taken == [] ==> g.last == last
    ensures g.taken != [] ==> g.last == Some(g.taken[|g.taken| - 1])
    decreases |reqs|
  {
    if reqs == [] then GateLog(last, [])
    else
      var before := GateRun(last, reqs[..|reqs| - 1], cooldown);
      var r := reqs[|reqs| - 1];
      var c := PhotoGate(before.last, r.now, r.frameOk, cooldown);
      GateLog(c.lastPhotoTime, before.taken + (if c.taken then [r.now] else []))
  }

  /**
   * One more request: it is captured, and its time appended, exactly when
   * it is outside the cooldown of the last capture so far and a frame is
   * read; otherwise the log is unchanged.
   */
  lemma GateRunStep(last: Option<real>, reqs: seq<Request>, r: Request, cooldown: real)
    ensures var before := GateRun(last, reqs, cooldown);
            var after := GateRun(last, reqs + [r], cooldown);
            if !CoolingDown(before.last, r.now, cooldown) && r.frameOk then
              after == GateLog(Some(r.now), before.taken + [r.now])
            else
              after == before
  {
    assert (reqs + [r])[..|reqs|] == reqs;
  }

  /** No capture time is 0.0 when no request time is. */
  lemma {:induction false} CapturesNonZero(last: Option<real>, reqs: seq<Request>, cooldown: real)
    requires forall i :: 0 <= i < |reqs| ==> reqs[i].now != 0.0
    ensures forall i :: 0 <= i < |GateRun(last, reqs, cooldown).taken| ==> GateRun(last, reqs, cooldown).taken[i] != 0.0
    decreases |reqs|
  {
    if reqs != [] {
      var front := reqs[..|reqs| - 1];
      var r := reqs[|reqs| - 1];
      assert reqs == front + [r];
      forall i | 0 <= i < |front| ensures front[i].now != 0.0 {
        assert front[i] == reqs[i];
      }
      CapturesNonZero(last, front, cooldown);
      GateRunStep(last, front, r, cooldown);
    }
  }

  /**
   * Capture times `taken` are spaced by the cooldown: each at least the
   * cooldown after the one before it, and the first at least the cooldown
   * after the earlier capture `last`.
   */
  predicate Spaced(last: Option<real>, taken: seq<real>, cooldown: real)
  {
    && (forall i :: 0 < i < |taken| ==> taken[i] - taken[i - 1] >= cooldown)
    && (last.Some? && taken != [] ==> taken[0] - last.value >= cooldown)
  }

  /** A capture at least the cooldown after the latest one keeps the times spaced. */
  lemma AppendSpaced(last: Option<real>, taken: seq<real>, x: real, cooldown: real)
    requires Spaced(last, taken, cooldown)
    requires taken != [] ==> x - taken[|taken| - 1] >= cooldown
    requires taken == [] && last.Some? ==> x - last.value >= cooldown
    ensures Spaced(last, taken + [x], cooldown)
  {
    var t := taken + [x];
    forall i | 0 < i < |t| ensures t[i] - t[i - 1] >= cooldown {
      if i < |taken| {
        assert t[i] == taken[i] && t[i - 1] == taken[i - 1];
      }
    }
  }

  /**
   * The cooldown is measured from the last successful capture: when no
   * timestamp is 0.0, consecutive captures are at least the cooldown
   * apart, and the first one at least the cooldown after the previous
   * capture `last`, however many requests were refused in between.
   */
  lemma {:induction false} CapturesSpaced(last: Option<real>, reqs: seq<Request>, cooldown: real)
    requires last.Some? ==> last.value != 0.0
    requires forall i :: 0 <= i < |reqs| ==> reqs[i].now != 0.0
    ensures Spaced(last, GateRun(last, reqs, cooldown).taken, cooldown)
    ensures forall i :: 0 <= i < |GateRun(last, reqs, cooldown).taken| ==> GateRun(last, reqs, cooldown).taken[i] != 0.0
    decreases |reqs|
  {
    CapturesNonZero(last, reqs, cooldown);
    if reqs != [] {
      var front := reqs[..|reqs| - 1];
      var r := reqs[|reqs| - 1];
      assert reqs == front + [r];
      forall i | 0 <= i < |front| ensures front[i].now != 0.0 {
        assert front[i] == reqs[i];
      }
      CapturesSpaced(last, front, cooldown);
      GateRunStep(last, front, r, cooldown);
      var before := GateRun(last, front, cooldown);
      if !CoolingDown(before.last, r.now, cooldown) && r.frameOk {
        // the latest capture time is not 0.0, so the gate opened only because the cooldown had passed
        assert before.last.Some? ==> before.last.value != 0.0 by {
          if before.taken != [] {
            assert before.last == Some(before.taken[|before.taken| - 1]);
            assert before.taken[|before.taken| - 1] != 0.0;
          }
        }
        AppendSpaced(last, before.taken, r.now, cooldown);
      }
    }
  }

  /**
   * With a five-second cooldown, requests at 1 s, 4 s and 7 s (frames
   * always read) capture at 1 s and 7 s only.
   */
  lemma CooldownExample()
    ensures GateRun(None, [Request(1.0, true), Request(4.0, true), Request(7.0, true)], 5.0).taken == [1.0, 7.0]
  {
    var reqs := [Request(1.0, true), Request(4.0, true), Request(7.0, true)];
    assert reqs[..2][..1] == [Request(1.0, true)];
    assert reqs[..2] == [Request(1.0, true), Request(4.0, true)];
    assert GateRun(None, [Request(1.0, true)], 5.0) == GateLog(Some(1.0), [1.0]);
    assert GateRun(None, reqs[..2], 5.0) == GateLog(Some(1.0), [1.0]);
  }

  /**
   * A capture at time 0.0 does not start a cooldown: requests at 0 s, 3 s
   * and 6 s capture at 0 s and 3 s, and the one at 6 s is refused.
   */
  lemma ZeroTimeCaptureIgnored()
    ensures GateRun(None, [Request(0.0, true), Request(3.0, true), Request(6.0, true)], 5.0).taken == [0.0, 3.0]
  {
    var reqs := [Request(0.0, true), Request(3.0, true), Request(6.0, true)];
    assert reqs[..2][..1] == [Request(0.0, true)];
    assert reqs[..2] == [Request(0.0, true), Request(3.0, true)];
    assert GateRun(None, [Request(0.0, true)], 5.0) == GateLog(Some(0.0), [0.0]);
    assert GateRun(None, reqs[..2], 5.0) == GateLog(Some(3.0), [0.0, 3.0]);
  }

  /** The scale is read through the serial link. */
  predicate SerialScale(cfg: Config)
  {
    cfg.scaleEnabled && cfg.scaleType == Serial
  }

  /** The scale is an HX711 read directly. */
  predicate DirectScale(cfg: Config)
  {
    cfg.scaleEnabled && cfg.scaleType == Direct
  }

  class BirdFeeder {
    const cfg: Config
    /** The number of pixels in every gray frame the camera delivers. */
    const frameSize: nat
    /** The serial link, present exactly when the scale is read over serial. */
    const scale: SerialLink.SerialWeightSensor?

    var birdPresent: bool
    var birdApproaching: bool
    var noMotionFrames: int
    var approachTime: Option<real>
    var lastPhotoTime: Option<real>
    var prevFrame: Option<seq<Pixel>>

    /** The presence fields as one value. */
    function PresenceState(): State
      reads this
    {
      State(birdPresent, birdApproaching, noMotionFrames, approachTime)
    }

    ghost predicate Valid()
      reads this
    {
      && Presence.Valid(cfg, PresenceState())
      && (prevFrame.Some? ==> |prevFrame.value| == frameSize)
      && (SerialScale(cfg) <==> scale != null)
    }

    /**
     * `__init__`: idle presence state, no photo yet, no baseline frame, and
     * in serial mode a freshly connected link (`startup` holds the lines the
     * microcontroller sends during the READY window).
     */
    constructor (cfg: Config, frameSize: nat, parse: string -> Option<real>, startup: seq<string>)
      ensures Valid()
      ensures this.cfg == cfg && this.frameSize == frameSize
      ensures PresenceState() == Initial && lastPhotoTime == None && prevFrame == None
      ensures scale != null ==> fresh(scale) && scale.parse == parse && scale.latestWeight == None
                                && scale.written == [] && (scale.connected <==> SerialLink.Handshake(startup).Some?)
    {
      this.cfg := cfg;
      this.frameSize := frameSize;
      birdPresent := false;
      noMotionFrames := 0;
      birdApproaching := false;
      approachTime := None;
      lastPhotoTime := None;
      prevFrame := None;
      if SerialScale(cfg) {
        scale := new SerialLink.SerialWeightSensor(parse, startup);
      } else {
        scale := null;
      }
    }

    /** `detect_motion`, on the frame the camera returned (`frameOk` is its success flag). */
    method DetectMotion(frameOk: bool, gray: seq<Pixel>) returns (motion: nat)
      requires Valid() && (frameOk ==> |gray| == frameSize)
      modifies this`prevFrame
      ensures Valid()
      ensures motion == MotionScore(old(prevFrame), frameOk, gray)
      ensures prevFrame == NextBaseline(old(prevFrame), frameOk, gray)
    {
      if !frameOk {
        return 0;
      }
      if prevFrame.None? {
        prevFrame := Some(gray);
        return 0;
      }
      motion := ChangedPixels(gray, prevFrame.value);
      prevFrame := Some(gray);
    }

    /** The weight `get_weight` returns for the load-cell samples `raw` (used only by a direct scale). */
    function ScaleReading(raw: seq<real>): Option<real>
      reads this, scale
      requires Valid() && (DirectScale(cfg) ==> |raw| >= 1)
    {
      if !cfg.scaleEnabled then None
      else if cfg.scaleType == Serial then scale.latestWeight
      else Some(Sort(raw)[|raw| / 2])
    }

    /**
     * `get_weight`: `None` without a scale, the link's latest value in
     * serial mode, and the trimmed median of 35 samples for a direct HX711.
     */
    method GetWeight(raw: seq<real>) returns (w: Option<real>)
      requires Valid() && (DirectScale(cfg) ==> |raw| == DirectSamples)
      ensures w == ScaleReading(raw)
      ensures DirectScale(cfg) ==> w.Some? && w.value in raw
    {
      if !cfg.scaleEnabled {
        return None;
      }
      if cfg.scaleType == Serial {
        w := scale.GetWeight();
      } else {
        var stable := StableWeight.CollectAndFilter(raw);
        w := Some(stable);
      }
    }

    /** The fusion part of `read_sensors`, given the motion score, the weight and the time. */
    method Fuse(motion: int, weight: Option<real>, now: real) returns (ev: Option<Event>)
      requires Valid()
      modifies this`birdPresent, this`birdApproaching, this`noMotionFrames, this`approachTime
      ensures Valid()
      ensures Step(PresenceState(), ev) == Tick(cfg, old(PresenceState()), motion, weight, now)
    {
      var motionDetected := motion > cfg.motionThreshold;
      var weightDetected := weight.Some? && weight.value > cfg.weightThreshold as real;
      ev := None;
      if cfg.scaleEnabled && cfg.motionEnabled {
        if motionDetected && !weightDetected && !birdPresent {
          if !birdApproaching {
            birdApproaching := true;
            approachTime := Some(now);
          } else if now - approachTime.value > cfg.scaleWaitTime {
            birdPresent := true;
            birdApproaching := false;
            noMotionFrames := 0;
            ev := Some(Landed(weight, MotionOnly));
          }
        } else if weightDetected && !birdPresent {
          birdPresent := true;
          birdApproaching := false;
          noMotionFrames := 0;
          ev := Some(Landed(weight, Scale));
        } else if birdPresent {
          if !motionDetected && !weightDetected {
            noMotionFrames := noMotionFrames + 1;
            if noMotionFrames >= cfg.framesBeforeDeparture {
              ev := Some(Left);
              birdPresent := false;
              birdApproaching := false;
              noMotionFrames := 0;
            }
          } else {
            noMotionFrames := 0;
          }
        }
      } else {
        var birdDetected := weightDetected || motionDetected;
        if birdDetected && !birdPresent {
          birdPresent := true;
          noMotionFrames := 0;
          ev := Some(Landed(weight, if cfg.scaleEnabled then Scale else Motion));
        } else if !birdDetected && birdPresent {
          noMotionFrames := noMotionFrames + 1;
          if noMotionFrames >= cfg.framesBeforeDeparture {
            ev := Some(Left);
            birdPresent := false;
            noMotionFrames := 0;
          }
        } else if birdDetected {
          noMotionFrames := 0;
        }
      }
    }

    /** `take_photo`'s gate; `frameOk` says whether the camera delivered the frame to save. */
    method TakePhoto(now: real, frameOk: bool) returns (taken: bool)
      modifies this`lastPhotoTime
      ensures Capture(taken, lastPhotoTime) == PhotoGate(old(lastPhotoTime), now, frameOk, cfg.photoCooldown)
    {
      if lastPhotoTime.Some? && lastPhotoTime.value != 0.0 && now - lastPhotoTime.value < cfg.photoCooldown {
        return false;
      }
      if frameOk {
        lastPhotoTime := Some(now);
        return true;
      }
      return false;
    }

    /** `on_bird_left`: a serial scale is sent the tare command. */
    method OnBirdLeft()
      requires Valid()
      modifies scale
      ensures scale != null ==> scale.latestWeight == old(scale.latestWeight) && scale.connected == old(scale.connected)
      ensures scale != null ==>
                scale.written == (if scale.connected then old(scale.written) + SerialLink.TareCommand else old(scale.written))
    {
      if SerialScale(cfg) {
        scale.Tare();
      }
    }

    /**
     * `read_sensors` with the calls it makes: read the weight and the
     * motion score, fuse them, and hand a landing to `take_photo` (at time
     * `photoNow`, with the camera's read flag `photoFrameOk`) and a
     * departure to `on_bird_left`.
     */
    method ReadSensors(frameOk: bool, gray: seq<Pixel>, raw: seq<real>, now: real, photoNow: real, photoFrameOk: bool)
      returns (ev: Option<Event>, taken: bool)
      requires Valid() && (frameOk ==> |gray| == frameSize) && (DirectScale(cfg) ==> |raw| == DirectSamples)
      modifies this, scale
      ensures Valid()
      ensures var motion := if cfg.motionEnabled then MotionScore(old(prevFrame), frameOk, gray) else 0;
              Step(PresenceState(), ev) == Tick(cfg, old(PresenceState()), motion, old(ScaleReading(raw)), now)
      ensures prevFrame == if cfg.motionEnabled then NextBaseline(old(prevFrame), frameOk, gray) else old(prevFrame)
      ensures ev.Some? && ev.value.Landed? ==>
                Capture(taken, lastPhotoTime) == PhotoGate(old(lastPhotoTime), photoNow, photoFrameOk, cfg.photoCooldown)
      ensures !(ev.Some? && ev.value.Landed?) ==> !taken && lastPhotoTime == old(lastPhotoTime)
      ensures scale != null ==> scale.latestWeight == old(scale.latestWeight) && scale.connected == old(scale.connected)
      ensures scale != null ==>
                scale.written == (if ev == Some(Left) && scale.connected then old(scale.written) + SerialLink.TareCommand
                                  else old(scale.written))
    {
      var weight := GetWeight(raw);
      var motion := 0;
      if cfg.motionEnabled {
        motion := DetectMotion(frameOk, gray);
      }
      ev := Fuse(motion, weight, now);
      taken := false;
      if ev.Some? && ev.value.Landed? {
        taken := TakePhoto(photoNow, photoFrameOk);
      } else if ev == Some(Left) {
        OnBirdLeft();
      }
    }
  }
}
