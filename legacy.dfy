/**
 * The legacy prototype loop of main.py: each iteration optionally reads a
 * ten-sample filtered weight and toggles presence on the weight threshold,
 * then optionally compares the frame's mean brightness with the previous
 * one and toggles presence on the motion threshold.
 */
module Legacy {
  import opened Sorting
  import StableWeight

  /** The module-level switches and thresholds of the prototype. */
  datatype LegacyConfig = LegacyConfig(
    motionEnabled: bool,
    motionThreshold: int,
    scaleEnabled: bool,
    weightThreshold: int)

  /** The values the prototype ships with. */
  const Shipped: LegacyConfig := LegacyConfig(true, 2, false, 5)

  /** The number of samples each filtered weight reading takes. */
  const LoopSamples: nat := 10

  /** What an iteration triggers: `bird_landed`, `bird_left`, and the scale's `hx.tare()`. */
  datatype Action = BirdLanded(weight: real) | BirdLeft | ScaleTared

  /** The three globals the loop updates. */
  datatype LoopState = LoopState(birdPresent: bool, currentWeight: real, lastMean: real)

  const Start: LoopState := LoopState(false, 0.0, 0.0)

  datatype Toggle = Toggle(present: bool, actions: seq<Action>)

  /** The scale step: land above the threshold, leave (and tare) below it. */
  function ScaleToggle(present: bool, weight: real, threshold: int): (t: Toggle)
  {
    if !present && weight > threshold as real then Toggle(true, [BirdLanded(weight)])
    else if present && weight < threshold as real then Toggle(false, [BirdLeft, ScaleTared])
    else Toggle(present, [])
  }

  /** The motion step: land above the threshold, leave below it; the landing reports the current weight. */
  function MotionToggle(present: bool, motion: real, threshold: int, weight: real): (t: Toggle)
  {
    if !present && motion > threshold as real then Toggle(true, [BirdLanded(weight)])
    else if present && motion < threshold as real then Toggle(false, [BirdLeft])
    else Toggle(present, [])
  }

  function AbsReal(x: real): real
  {
    if x < 0.0 then -x else x
  }

  /** The loop's state and the actions triggered so far in an iteration. */
  datatype Phase = Phase(state: LoopState, actions: seq<Action>)

  /** The scale half of an iteration, on the load-cell samples `raw`. */
  function ScalePhase(cfg: LegacyConfig, s: LoopState, raw: seq<real>): Phase
    requires cfg.scaleEnabled ==> |raw| >= 1
  {
    if cfg.scaleEnabled then
      var w := Sort(raw)[|raw| / 2];
      var t := ScaleToggle(s.birdPresent, w, cfg.weightThreshold);
      Phase(s.(birdPresent := t.present, currentWeight := w), t.actions)
    else Phase(s, [])
  }

  /** The motion half of an iteration, on the mean intensity `frameMean` of the gray frame. */
  function MotionPhase(cfg: LegacyConfig, p: Phase, frameMean: real): Phase
  {
    if cfg.motionEnabled then
      var s := p.state;
      var t := MotionToggle(s.birdPresent, AbsReal(frameMean - s.lastMean), cfg.motionThreshold, s.currentWeight);
      Phase(s.(birdPresent := t.present, lastMean := frameMean), p.actions + t.actions)
    else p
  }

  /** One iteration of the loop: the scale half, then the motion half. */
  function Iteration(cfg: LegacyConfig, s: LoopState, raw: seq<real>, frameMean: real): Phase
    requires cfg.scaleEnabled ==> |raw| >= 1
  {
    MotionPhase(cfg, ScalePhase(cfg, s, raw), frameMean)
  }

  /**
   * Each step toggles on a strict comparison: landing strictly above the
   * threshold, departure strictly below it, and a reading equal to the
   * threshold changes nothing. A scale departure also tares.
   */
  lemma ToggleThresholds(present: bool, x: real, threshold: int, weight: real)
    ensures ScaleToggle(present, x, threshold).present != present <==>
              (if present then x < threshold as real else x > threshold as real)
    ensures MotionToggle(present, x, threshold, weight).present != present <==>
              (if present then x < threshold as real else x > threshold as real)
    ensures x == threshold as real ==>
              ScaleToggle(present, x, threshold) == Toggle(present, []) &&
              MotionToggle(present, x, threshold, weight) == Toggle(present, [])
    ensures present && x < threshold as real ==> ScaleToggle(present, x, threshold).actions == [BirdLeft, ScaleTared]
    ensures !present && x > threshold as real ==> ScaleToggle(present, x, threshold).actions == [BirdLanded(x)]
  {
  }

  /**
   * With both sensors enabled, the motion step sees the scale step's
   * decision and can reverse it in the same iteration: a bird sitting
   * still on the scale lands and leaves in every iteration, and the scale
   * is never tared for it.
   */
  lemma {:induction false} StillBirdFlaps(cfg: LegacyConfig, s: LoopState, raw: seq<real>, frameMean: real)
    requires cfg.scaleEnabled && cfg.motionEnabled && |raw| == LoopSamples
    requires !s.birdPresent
    requires Sort(raw)[5] > cfg.weightThreshold as real
    requires AbsReal(frameMean - s.lastMean) < cfg.motionThreshold as real
    ensures var p := Iteration(cfg, s, raw, frameMean);
            p.actions == [BirdLanded(Sort(raw)[5]), BirdLeft] && !p.state.birdPresent
  {
  }

  /** The filtered reading the loop takes is the sixth smallest of its ten samples. */
  lemma LoopReadingIsSixthSmallest(raw: seq<real>)
    requires |raw| == LoopSamples
    ensures StableWeight.OutliersToRemove(LoopSamples) == 4
    ensures StableWeight.TrimmedMedian(Sort(raw)) == Sort(raw)[5]
  {
  }

  class LegacyLoop {
    const cfg: LegacyConfig
    var birdPresent: bool
    var currentWeight: real
    var lastMean: real

    function State(): LoopState
      reads this
    {
      LoopState(birdPresent, currentWeight, lastMean)
    }

    /** The module-level initialisation before the loop. */
    constructor (cfg: LegacyConfig)
      ensures this.cfg == cfg && State() == Start
    {
      this.cfg := cfg;
      birdPresent := false;
      currentWeight := 0.0;
      lastMean := 0.0;
    }

    /** One pass of the `while True` body. */
    method Iterate(raw: seq<real>, frameMean: real) returns (actions: seq<Action>)
      requires cfg.scaleEnabled ==> |raw| == LoopSamples
      modifies this
      ensures Phase(State(), actions) == Iteration(cfg, old(State()), raw, frameMean)
    {
      actions := ScaleHalf(raw);
      actions := MotionHalf(actions, frameMean);
    }

    /** The `if SCALE_ENABLED` block of the loop body. */
    method ScaleHalf(raw: seq<real>) returns (actions: seq<Action>)
      requires cfg.scaleEnabled ==> |raw| >= 1
      modifies this
      ensures Phase(State(), actions) == ScalePhase(cfg, old(State()), raw)
    {
      actions := [];
      if cfg.scaleEnabled {
        currentWeight := StableWeight.CollectAndFilter(raw);
        if !birdPresent && currentWeight > cfg.weightThreshold as real {
          birdPresent := true;
          actions := actions + [BirdLanded(currentWeight)];
        } else if birdPresent && currentWeight < cfg.weightThreshold as real {
          birdPresent := false;
          actions := actions + [BirdLeft, ScaleTared];
        }
      }
    }

    /** The `if MOTION_ENABLED` block of the loop body, after the actions `before` of the scale block. */
    method MotionHalf(before: seq<Action>, frameMean: real) returns (actions: seq<Action>)
      modifies this
      ensures Phase(State(), actions) == MotionPhase(cfg, Phase(old(State()), before), frameMean)
    {
      actions := before;
      if cfg.motionEnabled {
        var currentMotion := AbsReal(frameMean - lastMean);
        lastMean := frameMean;
        if !birdPresent && currentMotion > cfg.motionThreshold as real {
          birdPresent := true;
          actions := actions + [BirdLanded(currentWeight)];
        } else if birdPresent && currentMotion < cfg.motionThreshold as real {
          birdPresent := false;
          actions := actions + [BirdLeft];
        }
      }
    }
  }
}
