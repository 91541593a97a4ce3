/**
 * The presence fusion state machine of `BirdFeeder.read_sensors`
 * (bird-feeder/main.py): each tick fuses a motion score and an optional
 * weight into zero or one `Landed`/`Left` event, over the four fields
 * `bird_present`, `bird_approaching`, `no_motion_frames` and
 * `approach_time`.
 *
 * `Tick` is the specification the feeder's `ReadSensors` method is proved
 * against; the lemmas state what the state machine promises.
 */
module Presence {
  import opened Options

  /** How a landing was detected: "scale", "motion" or "motion-only". */
  datatype Label = Scale | Motion | MotionOnly

  datatype Event = Landed(weight: Option<real>, source: Label) | Left

  datatype ScaleType = Serial | Direct

  /** The configuration read once at startup. */
  datatype Config = Config(
    motionEnabled: bool,
    motionThreshold: int,
    framesBeforeDeparture: int,
    scaleEnabled: bool,
    weightThreshold: int,
    scaleWaitTime: real,
    scaleType: ScaleType,
    photoCooldown: real)

  /** The four presence fields of the feeder. */
  datatype State = State(present: bool, approaching: bool, noMotionFrames: int, approachTime: Option<real>)

  /** The fields as the feeder's constructor sets them. */
  const Initial: State := State(false, false, 0, None)

  /** Both sensors enabled: the approach-aware logic is used. */
  predicate Dual(cfg: Config)
  {
    cfg.scaleEnabled && cfg.motionEnabled
  }

  predicate MotionHit(cfg: Config, motion: int)
  {
    motion > cfg.motionThreshold
  }

  predicate WeightHit(cfg: Config, weight: Option<real>)
  {
    weight.Some? && weight.value > cfg.weightThreshold as real
  }

  /** A tick with neither qualifying motion nor qualifying weight. */
  predicate Quiet(cfg: Config, motion: int, weight: Option<real>)
  {
    !MotionHit(cfg, motion) && !WeightHit(cfg, weight)
  }

  /**
   * The state's invariant: never both present and approaching; the
   * absence counter is zero while no bird is present and stays below the
   * departure count; an approach always has its start time; and without
   * both sensors no approach is ever started.
   */
  predicate Valid(cfg: Config, s: State)
  {
    && !(s.present && s.approaching)
    && (!s.present ==> s.noMotionFrames == 0)
    && (s.approaching ==> s.approachTime.Some?)
    && (!Dual(cfg) ==> !s.approaching)
    && 0 <= s.noMotionFrames
    && (s.noMotionFrames == 0 || s.noMotionFrames < cfg.framesBeforeDeparture)
  }

  datatype Step = Step(state: State, event: Option<Event>)

  /**
   * The absence branch shared by both modes: count the empty tick, depart
   * on the last. Only the dual-sensor branch also clears the approaching
   * flag on departure.
   */
  function Absent(cfg: Config, s: State): Step
  {
    var n := s.noMotionFrames + 1;
    if n >= cfg.framesBeforeDeparture then
      Step(s.(present := false, approaching := if Dual(cfg) then false else s.approaching, noMotionFrames := 0), Some(Left))
    else
      Step(s.(noMotionFrames := n), None)
  }

  /**
   * One call of `read_sensors` after the readings are taken: `motion` is
   * the motion score (0 when motion is disabled), `weight` the weight
   * reading (`None` when the scale is disabled or has not reported), `now`
   * the current time.
   */
  function Tick(cfg: Config, s: State, motion: int, weight: Option<real>, now: real): (r: Step)
    requires s.approaching ==> s.approachTime.Some?
    ensures Valid(cfg, s) ==> Valid(cfg, r.state)
    // an event is emitted exactly when presence flips, and it says which way
    ensures r.event.Some? <==> r.state.present != s.present
    ensures r.event.Some? ==> (r.event.value.Left? <==> s.present)
  {
    var m := MotionHit(cfg, motion);
    var w := WeightHit(cfg, weight);
    if Dual(cfg) then
      if m && !w && !s.present then
        if !s.approaching then
          Step(s.(approaching := true, approachTime := Some(now)), None)
        else if now - s.approachTime.value > cfg.scaleWaitTime then
          Step(s.(present := true, approaching := false, noMotionFrames := 0), Some(Landed(weight, MotionOnly)))
        else
          Step(s, None)
      else if w && !s.present then
        Step(s.(present := true, approaching := false, noMotionFrames := 0), Some(Landed(weight, Scale)))
      else if s.present then
        if !m && !w then Absent(cfg, s)
        else Step(s.(noMotionFrames := 0), None)
      else
        Step(s, None)
    else
      var detected := w || m;
      if detected && !s.present then
        Step(s.(present := true, noMotionFrames := 0),
             Some(Landed(weight, if cfg.scaleEnabled then Scale else Motion)))
      else if !detected && s.present then
        Absent(cfg, s)
      else if detected then
        Step(s.(noMotionFrames := 0), None)
      else
        Step(s, None)
  }

  lemma InitialValid(cfg: Config)
    ensures Valid(cfg, Initial)
  {
  }

  /**
   * While a bird is present, in either mode: a qualifying tick resets the
   * absence counter and emits nothing; a quiet tick counts, and emits
   * `Left` (returning to idle) exactly when the count reaches the
   * departure threshold.
   */
  lemma PresentTick(cfg: Config, s: State, motion: int, weight: Option<real>, now: real)
    requires Valid(cfg, s) && s.present
    ensures var r := Tick(cfg, s, motion, weight, now);
            if Quiet(cfg, motion, weight) then
              if s.noMotionFrames + 1 >= cfg.framesBeforeDeparture then
                r == Step(State(false, false, 0, s.approachTime), Some(Left))
              else
                r == Step(s.(noMotionFrames := s.noMotionFrames + 1), None)
            else
              r == Step(s.(noMotionFrames := 0), None)
  {
  }

  /**
   * Dual mode, idle: motion without weight only starts an approach and
   * records its start time.
   */
  lemma ApproachStarts(cfg: Config, s: State, motion: int, weight: Option<real>, now: real)
    requires Dual(cfg) && Valid(cfg, s) && !s.present && !s.approaching
    requires MotionHit(cfg, motion) && !WeightHit(cfg, weight)
    ensures Tick(cfg, s, motion, weight, now) == Step(s.(approaching := true, approachTime := Some(now)), None)
  {
  }

  /**
   * Dual mode: a motion-only landing happens exactly on an approaching tick
   * with motion, no weight, and strictly more than the wait time elapsed
   * since the approach began.
   */
  lemma MotionOnlyLandingIff(cfg: Config, s: State, motion: int, weight: Option<real>, now: real)
    requires Dual(cfg) && Valid(cfg, s)
    ensures Tick(cfg, s, motion, weight, now).event == Some(Landed(weight, MotionOnly)) <==>
              s.approaching && MotionHit(cfg, motion) && !WeightHit(cfg, weight)
              && now - s.approachTime.value > cfg.scaleWaitTime
  {
  }

  /**
   * Dual mode: a weight hit while no bird is present (idle or approaching)
   * lands at once, labelled "scale", and ends the approach.
   */
  lemma WeightLandsAtOnce(cfg: Config, s: State, motion: int, weight: Option<real>, now: real)
    requires Dual(cfg) && Valid(cfg, s) && !s.present && WeightHit(cfg, weight)
    ensures var r := Tick(cfg, s, motion, weight, now);
            r.event == Some(Landed(weight, Scale)) &&
            r.state.present && !r.state.approaching && r.state.noMotionFrames == 0
  {
  }

  /**
   * Dual mode: while approaching, a tick with neither motion nor weight
   * falls through every branch and leaves the state as it was, including
   * the approach start time.
   */
  lemma ApproachSurvivesQuietTick(cfg: Config, s: State, motion: int, weight: Option<real>, now: real)
    requires Dual(cfg) && Valid(cfg, s) && s.approaching && Quiet(cfg, motion, weight)
    ensures Tick(cfg, s, motion, weight, now) == Step(s, None)
  {
  }

  /**
   * Single-sensor mode: a landing is emitted exactly when either reading
   * qualifies while no bird is present, labelled by the enabled scale, and
   * the approaching flag is never touched.
   */
  lemma SingleModeLanding(cfg: Config, s: State, motion: int, weight: Option<real>, now: real)
    requires !Dual(cfg) && Valid(cfg, s)
    ensures var r := Tick(cfg, s, motion, weight, now);
            && (r.event.Some? && r.event.value.Landed? <==>
                  !s.present && (WeightHit(cfg, weight) || MotionHit(cfg, motion)))
            && (r.event.Some? && r.event.value.Landed? ==>
                  r.event.value == Landed(weight, if cfg.scaleEnabled then Scale else Motion))
            && r.state.approaching == s.approaching
  {
  }

  /** One reading per tick. */
  datatype Sample = Sample(motion: int, weight: Option<real>, now: real)

  datatype Trace = Trace(state: State, events: seq<Event>)

  /** The state and the events after the ticks `xs`, in order, from a valid state. */
  function Run(cfg: Config, s: State, xs: seq<Sample>): (t: Trace)
    requires Valid(cfg, s)
    ensures Valid(cfg, t.state)
    decreases |xs|
  {
    if xs == [] then Trace(s, [])
    else
      var before := Run(cfg, s, xs[..|xs| - 1]);
      var x := xs[|xs| - 1];
      var r := Tick(cfg, before.state, x.motion, x.weight, x.now);
      Trace(r.state, before.events + (if r.event.Some? then [r.event.value] else []))
  }

  predicate AllQuiet(cfg: Config, xs: seq<Sample>)
  {
    forall i :: 0 <= i < |xs| ==> Quiet(cfg, xs[i].motion, xs[i].weight)
  }

  /**
   * Debounce: from a present bird with a zero counter, `k` consecutive
   * quiet ticks keep it present with counter `k` and emit nothing while
   * `k` is below the departure count; the tick that reaches it emits the
   * single `Left` and returns to idle.
   */
  lemma {:induction false} DepartureAfterExactly(cfg: Config, s: State, xs: seq<Sample>)
    requires Valid(cfg, s) && s.present && s.noMotionFrames == 0
    requires cfg.framesBeforeDeparture >= 1 && |xs| <= cfg.framesBeforeDeparture
    requires AllQuiet(cfg, xs)
    ensures var t := Run(cfg, s, xs);
            if |xs| < cfg.framesBeforeDeparture then
              t.events == [] && t.state.present && t.state.noMotionFrames == |xs|
            else
              t.events == [Left] && !t.state.present
  {
    if xs != [] {
      var front := xs[..|xs| - 1];
      assert AllQuiet(cfg, front) by {
        forall i | 0 <= i < |front| ensures Quiet(cfg, front[i].motion, front[i].weight) {
          assert front[i] == xs[i];
        }
      }
      DepartureAfterExactly(cfg, s, front);
      var x := xs[|xs| - 1];
      PresentTick(cfg, Run(cfg, s, front).state, x.motion, x.weight, x.now);
    }
  }

  predicate AllMotionOnly(cfg: Config, xs: seq<Sample>)
  {
    forall i :: 0 <= i < |xs| ==> MotionHit(cfg, xs[i].motion) && !WeightHit(cfg, xs[i].weight)
  }

  /**
   * Dual mode, a bird that moves but has not reached the scale: from idle,
   * motion-only ticks whose times stay within the wait time of the first
   * one keep the feeder approaching since that first tick, and emit
   * nothing.
   */
  lemma {:induction false} ApproachWaits(cfg: Config, s: State, xs: seq<Sample>)
    requires Dual(cfg) && Valid(cfg, s) && !s.present && !s.approaching
    requires |xs| >= 1 && AllMotionOnly(cfg, xs)
    requires forall i :: 0 < i < |xs| ==> xs[i].now - xs[0].now <= cfg.scaleWaitTime
    ensures var t := Run(cfg, s, xs);
            t.events == [] && t.state.approaching && !t.state.present
            && t.state.approachTime == Some(xs[0].now)
  {
    if |xs| == 1 {
      assert xs[..0] == [];
      ApproachStarts(cfg, s, xs[0].motion, xs[0].weight, xs[0].now);
    } else {
      var front := xs[..|xs| - 1];
      assert front[0] == xs[0];
      assert AllMotionOnly(cfg, front) by {
        forall i | 0 <= i < |front|
          ensures MotionHit(cfg, front[i].motion) && !WeightHit(cfg, front[i].weight)
        {
          assert front[i] == xs[i];
        }
      }
      ApproachWaits(cfg, s, front);
    }
  }

  /**
   * Dual mode, after such an approach: the first motion-only tick more
   * than the wait time after the approach began lands, labelled
   * "motion-only"; a weight hit instead lands at once, labelled "scale".
   * Either way exactly one event is emitted.
   */
  lemma ApproachEnds(cfg: Config, s: State, xs: seq<Sample>, y: Sample)
    requires Dual(cfg) && Valid(cfg, s) && !s.present && !s.approaching
    requires |xs| >= 1 && AllMotionOnly(cfg, xs)
    requires forall i :: 0 < i < |xs| ==> xs[i].now - xs[0].now <= cfg.scaleWaitTime
    ensures WeightHit(cfg, y.weight) ==>
              Run(cfg, s, xs + [y]).events == [Landed(y.weight, Scale)]
    ensures MotionHit(cfg, y.motion) && !WeightHit(cfg, y.weight) && y.now - xs[0].now > cfg.scaleWaitTime ==>
              Run(cfg, s, xs + [y]).events == [Landed(y.weight, MotionOnly)]
  {
    ApproachWaits(cfg, s, xs);
    assert (xs + [y])[..|xs|] == xs;
  }

  /**
   * Over any run, events alternate: each `Landed` is followed by a `Left`
   * before the next `Landed`, starting with `Landed` when no bird was
   * present; and the final presence tells whether the count is odd.
   */
  predicate Alternating(events: seq<Event>, startPresent: bool)
  {
    forall i :: 0 <= i < |events| ==> (events[i].Left? <==> (startPresent == (i % 2 == 0)))
  }

  lemma {:induction false} RunAlternates(cfg: Config, s: State, xs: seq<Sample>)
    requires Valid(cfg, s)
    ensures var t := Run(cfg, s, xs);
            Alternating(t.events, s.present)
            && (t.state.present == (s.present != (|t.events| % 2 == 1)))
  {
    if xs != [] {
      RunAlternates(cfg, s, xs[..|xs| - 1]);
    }
  }
}
