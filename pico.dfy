/**
 * The microcontroller firmware of bird-feeder/pico/main.py: the filtered
 * raw reading, the calibration to grams, the tare command, the command
 * dispatch, and the line reported on each pass of the main loop.
 *
 * The HX711 is an input: each sample is `None` or a raw value. Python's
 * `.2f` formatting is an oracle `fmt`.
 */
module Pico {
  import opened Options
  import opened Sorting

  const TareValue: real := 29231.90
  const CalibrationFactor: real := -172.367900
  const SamplesPerReading: nat := 5
  /** `tare` takes ten filtered readings of three samples each. */
  const TareRounds: nat := 10
  const TareSamples: nat := 3

  /** The positions of the samples `if val:` accepts: present and non-zero. */
  function UsableIndices(vals: seq<Option<real>>): set<int>
  {
    set k | 0 <= k < |vals| && vals[k].Some? && vals[k].value != 0.0
  }

  /** The samples `if val:` keeps: present and non-zero, in order, one per accepted position. */
  function Truthy(vals: seq<Option<real>>): (kept: seq<real>)
    ensures |kept| == |UsableIndices(vals)|
    decreases |vals|
  {
    if vals == [] then
      assert UsableIndices(vals) == {};
      []
    else
      var n := |vals| - 1;
      var usable := vals[n].Some? && vals[n].value != 0.0;
      assert UsableIndices(vals) == UsableIndices(vals[..n]) + (if usable then {n} else {}) by {
        assert forall k :: 0 <= k < n ==> vals[..n][k] == vals[k];
      }
      Truthy(vals[..n]) + (if usable then [vals[n].value] else [])
  }

  /** Every kept sample is a present non-zero sample, and every such sample is kept. */
  lemma {:induction false} TruthyMembers(vals: seq<Option<real>>)
    ensures forall k :: 0 <= k < |Truthy(vals)| ==> Truthy(vals)[k] != 0.0 && Some(Truthy(vals)[k]) in vals
    ensures forall k :: 0 <= k < |vals| && vals[k].Some? && vals[k].value != 0.0 ==> vals[k].value in Truthy(vals)
    decreases |vals|
  {
    if vals != [] {
      var n := |vals| - 1;
      var front := Truthy(vals[..n]);
      TruthyMembers(vals[..n]);
      assert forall k :: 0 <= k < n ==> vals[..n][k] == vals[k];
      forall k | 0 <= k < |front| ensures Some(front[k]) in vals {
        assert Some(front[k]) in vals[..n];
      }
      var kept := Truthy(vals);
      assert forall k :: 0 <= k < |front| ==> kept[k] == front[k];
    }
  }

  function Sum(s: seq<real>): real
    decreases |s|
  {
    if s == [] then 0.0 else Sum(s[..|s| - 1]) + s[|s| - 1]
  }

  function Mean(s: seq<real>): real
    requires |s| > 0
  {
    Sum(s) / |s| as real
  }

  function MinOf(s: seq<real>): (m: real)
    requires |s| > 0
    ensures m in s && forall k :: 0 <= k < |s| ==> m <= s[k]
    decreases |s|
  {
    if |s| == 1 then s[0]
    else
      var rest := MinOf(s[1..]);
      if s[0] <= rest then s[0] else rest
  }

  function MaxOf(s: seq<real>): (m: real)
    requires |s| > 0
    ensures m in s && forall k :: 0 <= k < |s| ==> s[k] <= m
    decreases |s|
  {
    if |s| == 1 then s[0]
    else
      var rest := MaxOf(s[1..]);
      if s[0] >= rest then s[0] else rest
  }

  /**
   * `get_stable_reading`: `None` when fewer than three usable samples
   * arrive; otherwise the mean of the sorted usable samples without the
   * smallest and the largest.
   */
  function StableReading(vals: seq<Option<real>>): (r: Option<real>)
    ensures r.None? <==> |UsableIndices(vals)| < 3
  {
    var kept := Truthy(vals);
    if |kept| < 3 then None
    else
      var sorted := Sort(kept);
      Some(Mean(sorted[1..|sorted| - 1]))
  }

  lemma {:induction false} SumBounds(s: seq<real>, lo: real, hi: real)
    requires forall k :: 0 <= k < |s| ==> lo <= s[k] <= hi
    ensures lo * |s| as real <= Sum(s) <= hi * |s| as real
    decreases |s|
  {
    if s != [] {
      SumBounds(s[..|s| - 1], lo, hi);
    }
  }

  /** A mean lies between any bounds of its elements. */
  lemma MeanBounds(s: seq<real>, lo: real, hi: real)
    requires |s| > 0
    requires forall k :: 0 <= k < |s| ==> lo <= s[k] <= hi
    ensures lo <= Mean(s) <= hi
  {
    SumBounds(s, lo, hi);
    var n := |s| as real;
    assert Mean(s) * n == Sum(s);
  }

  /** The filtered reading lies between the smallest and the largest usable sample. */
  lemma StableReadingBetweenExtremes(vals: seq<Option<real>>)
    requires StableReading(vals).Some?
    ensures MinOf(Truthy(vals)) <= StableReading(vals).value <= MaxOf(Truthy(vals))
  {
    var kept := Truthy(vals);
    var sorted := Sort(kept);
    var trimmed := sorted[1..|sorted| - 1];
    forall k | 0 <= k < |trimmed|
      ensures MinOf(kept) <= trimmed[k] <= MaxOf(kept)
    {
      assert trimmed[k] == sorted[k + 1];
      assert sorted[k + 1] in multiset(sorted);
      assert sorted[k + 1] in kept;
    }
    MeanBounds(trimmed, MinOf(kept), MaxOf(kept));
  }

  /** `(raw - TARE_VALUE - tare_offset) / CALIBRATION_FACTOR`: grams from a raw reading. */
  function Calibrate(raw: real, tareOffset: real): real
  {
    (raw - TareValue - tareOffset) / CalibrationFactor
  }

  /** The weight of a filtered reading: none without one, otherwise its calibration. */
  function Weigh(reading: Option<real>, tareOffset: real): (w: Option<real>)
    ensures w.None? <==> reading.None?
    ensures w.Some? ==> w.value * CalibrationFactor == reading.value - TareValue - tareOffset
  {
    match reading
    case None => None
    case Some(raw) => Some(Calibrate(raw, tareOffset))
  }

  /** `get_weight`: no weight without a filtered reading, otherwise its calibration. */
  function WeightOf(vals: seq<Option<real>>, tareOffset: real): (w: Option<real>)
    ensures w.None? <==> StableReading(vals).None?
    ensures w.Some? ==> w.value * CalibrationFactor == StableReading(vals).value - TareValue - tareOffset
  {
    Weigh(StableReading(vals), tareOffset)
  }

  /** The filtered reading of each round of `tare`, in order. */
  function RoundResults(rounds: seq<seq<Option<real>>>): (rs: seq<Option<real>>)
    ensures |rs| == |rounds|
    decreases |rounds|
  {
    if rounds == [] then []
    else RoundResults(rounds[..|rounds| - 1]) + [StableReading(rounds[|rounds| - 1])]
  }

  lemma {:induction false} RoundResultsAre(rounds: seq<seq<Option<real>>>)
    ensures forall i :: 0 <= i < |rounds| ==> RoundResults(rounds)[i] == StableReading(rounds[i])
    decreases |rounds|
  {
    if rounds != [] {
      var n := |rounds| - 1;
      RoundResultsAre(rounds[..n]);
      assert forall i :: 0 <= i < n ==> rounds[..n][i] == rounds[i];
    }
  }

  /** The positions of the results that are not `None`. */
  function PresentIndices(rs: seq<Option<real>>): set<int>
  {
    set i | 0 <= i < |rs| && rs[i].Some?
  }

  /** `if raw is not None: readings.append(raw)`: the values of the results, in order, one per present result. */
  function Present(rs: seq<Option<real>>): (got: seq<real>)
    ensures |got| == |PresentIndices(rs)|
    decreases |rs|
  {
    if rs == [] then
      assert PresentIndices(rs) == {};
      []
    else
      var n := |rs| - 1;
      assert PresentIndices(rs) == PresentIndices(rs[..n]) + (if rs[n].Some? then {n} else {}) by {
        assert forall i :: 0 <= i < n ==> rs[..n][i] == rs[i];
      }
      Present(rs[..n]) + (match rs[n] case Some(v) => [v] case None => [])
  }

  /** Every present result's value is kept, and nothing else is. */
  lemma {:induction false} PresentMembers(rs: seq<Option<real>>)
    ensures forall i :: 0 <= i < |rs| && rs[i].Some? ==> rs[i].value in Present(rs)
    ensures forall k :: 0 <= k < |Present(rs)| ==> Some(Present(rs)[k]) in rs
    decreases |rs|
  {
    if rs != [] {
      var n := |rs| - 1;
      var front := Present(rs[..n]);
      PresentMembers(rs[..n]);
      assert forall i :: 0 <= i < n ==> rs[..n][i] == rs[i];
      forall k | 0 <= k < |front| ensures Some(front[k]) in rs {
        assert Some(front[k]) in rs[..n];
      }
      var got := Present(rs);
      assert forall k :: 0 <= k < |front| ==> got[k] == front[k];
    }
  }

  /** Nothing is kept exactly when every result is `None`. */
  lemma PresentEmpty(rs: seq<Option<real>>)
    ensures Present(rs) == [] <==> forall i :: 0 <= i < |rs| ==> rs[i].None?
  {
    if Present(rs) == [] {
      assert PresentIndices(rs) == {};
      forall i | 0 <= i < |rs| ensures rs[i].None? {
        assert i !in PresentIndices(rs);
      }
    } else {
      PresentMembers(rs);
      assert Some(Present(rs)[0]) in rs;
    }
  }

  /** The filtered readings `tare` keeps from its rounds. */
  function TareReadings(rounds: seq<seq<Option<real>>>): seq<real>
  {
    Present(RoundResults(rounds))
  }

  /** `tare` collects nothing exactly when every round's filtered reading is `None`. */
  lemma TareFailsIffEveryRoundFails(rounds: seq<seq<Option<real>>>)
    ensures TareReadings(rounds) == [] <==> forall i :: 0 <= i < |rounds| ==> StableReading(rounds[i]).None?
  {
    var rs := RoundResults(rounds);
    RoundResultsAre(rounds);
    PresentEmpty(rs);
    assert (forall i :: 0 <= i < |rs| ==> rs[i].None?) <==> forall i :: 0 <= i < |rounds| ==> StableReading(rounds[i]).None?;
  }

  /** `tare` collects every round's filtered reading, and only those. */
  lemma TareReadingsAre(rounds: seq<seq<Option<real>>>)
    ensures forall i :: 0 <= i < |rounds| && StableReading(rounds[i]).Some? ==> StableReading(rounds[i]).value in TareReadings(rounds)
    ensures forall k :: 0 <= k < |TareReadings(rounds)| ==> Some(TareReadings(rounds)[k]) in RoundResults(rounds)
    ensures forall x :: Some(x) in RoundResults(rounds) ==> exists i :: 0 <= i < |rounds| && StableReading(rounds[i]) == Some(x)
  {
    var rs := RoundResults(rounds);
    RoundResultsAre(rounds);
    PresentMembers(rs);
    forall x | Some(x) in rs
      ensures exists i :: 0 <= i < |rounds| && StableReading(rounds[i]) == Some(x)
    {
      var i :| 0 <= i < |rs| && rs[i] == Some(x);
      assert StableReading(rounds[i]) == rs[i];
    }
  }

  /** The tare offset and everything the firmware has printed. */
  datatype Device = Device(tareOffset: real, out: seq<string>)

  /**
   * `tare` once its rounds have given the filtered readings `results`:
   * prints TARING, then sets the offset from the average reading, or
   * reports failure.
   */
  function TareStep(d: Device, results: seq<Option<real>>): Device
  {
    var got := Present(results);
    if got != [] then Device(Mean(got) - TareValue, d.out + ["TARING", "TARED"])
    else Device(d.tareOffset, d.out + ["TARING", "ERROR:TARE_FAILED"])
  }

  /**
   * A successful tare zeroes the scale at the average it measured; a
   * failed one keeps the previous offset. Either way two lines are
   * printed, TARING first.
   */
  lemma TareOutcome(d: Device, results: seq<Option<real>>)
    ensures var d' := TareStep(d, results);
            var got := Present(results);
            && |d'.out| == |d.out| + 2 && d'.out[..|d.out|] == d.out && d'.out[|d.out|] == "TARING"
            && (got != [] ==> Calibrate(Mean(got), d'.tareOffset) == 0.0 && d'.out[|d.out| + 1] == "TARED")
            && (got == [] ==> d'.tareOffset == d.tareOffset && d'.out[|d.out| + 1] == "ERROR:TARE_FAILED")
  {
  }

  /** `check_command` on the stripped line waiting on stdin, if any; `results` are the readings a tare would take. */
  function CommandStep(d: Device, cmd: Option<string>, results: seq<Option<real>>): Device
  {
    match cmd
    case None => d
    case Some(c) =>
      if c == "TARE" then TareStep(d, results)
      else if c == "PING" then d.(out := d.out + ["PONG"])
      else d
  }

  /** TARE tares, PING answers PONG, and anything else (or nothing waiting) has no effect. */
  lemma CommandDispatch(d: Device, cmd: Option<string>, results: seq<Option<real>>)
    ensures cmd == Some("TARE") ==> CommandStep(d, cmd, results) == TareStep(d, results)
    ensures cmd == Some("PING") ==> CommandStep(d, cmd, results) == Device(d.tareOffset, d.out + ["PONG"])
    ensures cmd != Some("TARE") && cmd != Some("PING") ==> CommandStep(d, cmd, results) == d
  {
  }

  /** The line the main loop prints for a weight. */
  function ReportLine(w: Option<real>, fmt: real -> string): string
  {
    match w
    case Some(grams) => "WEIGHT:" + fmt(grams)
    case None => "ERROR:NO_READING"
  }

  /** One normal pass of the main loop on the filtered reading `reading`: print the weight line. */
  function ReportStep(d: Device, reading: Option<real>, fmt: real -> string): Device
  {
    d.(out := d.out + [ReportLine(Weigh(reading, d.tareOffset), fmt)])
  }

  /** Each pass prints exactly one line: the formatted weight when there is one, else NO_READING. */
  lemma ReportOneLine(d: Device, reading: Option<real>, fmt: real -> string)
    ensures var d' := ReportStep(d, reading, fmt);
            && d'.tareOffset == d.tareOffset && |d'.out| == |d.out| + 1 && d'.out[..|d.out|] == d.out
            && (reading.Some? ==> d'.out[|d.out|] == "WEIGHT:" + fmt(Calibrate(reading.value, d.tareOffset)))
            && (reading.None? ==> d'.out[|d.out|] == "ERROR:NO_READING")
  {
  }

  /**
   * The main loop as written: a pass only reports; `check_command` is
   * never called, so a command waiting on stdin is never read. Whatever is
   * pending, the tare offset keeps its value.
   */
  function MainPassAsWritten(d: Device, pending: Option<string>, reading: Option<real>, fmt: real -> string): (d': Device)
    ensures d'.tareOffset == d.tareOffset
  {
    ReportStep(d, reading, fmt)
  }

  /** The main loop with the host's commands served before each report. */
  function MainPassServing(d: Device, pending: Option<string>, results: seq<Option<real>>,
                           reading: Option<real>, fmt: real -> string): (d': Device)
    ensures |d'.out| > |d.out| && d'.out[..|d.out|] == d.out
    ensures d'.out[|d'.out| - 1] == ReportLine(Weigh(reading, d'.tareOffset), fmt)
    ensures pending == Some("TARE") && Present(results) != [] ==>
              Calibrate(Mean(Present(results)), d'.tareOffset) == 0.0
    ensures pending != Some("TARE") ==> d'.tareOffset == d.tareOffset
  {
    ReportStep(CommandStep(d, pending, results), reading, fmt)
  }

  /**
   * The two disagree on every host TARE whose readings succeed and move
   * the offset: as written the offset is untouched and nothing is printed
   * but the report; when commands are served the scale is zeroed at the
   * measured average and TARING, TARED precede the report.
   */
  lemma HostTareIgnored(d: Device, results: seq<Option<real>>, reading: Option<real>, fmt: real -> string)
    requires Present(results) != [] && Mean(Present(results)) - TareValue != d.tareOffset
    ensures MainPassAsWritten(d, Some("TARE"), reading, fmt).tareOffset == d.tareOffset
    ensures MainPassAsWritten(d, Some("TARE"), reading, fmt).tareOffset != MainPassServing(d, Some("TARE"), results, reading, fmt).tareOffset
    ensures var served := MainPassServing(d, Some("TARE"), results, reading, fmt);
            Calibrate(Mean(Present(results)), served.tareOffset) == 0.0
            && served.out[|d.out|..] == ["TARING", "TARED", ReportLine(Weigh(reading, served.tareOffset), fmt)]
  {
  }

  class WeightSensor {
    /** The `.2f` formatter used for the weight line. */
    const fmt: real -> string
    /** The additional tare offset set by `tare`. */
    var tareOffset: real
    /** Every line printed so far. */
    var out: seq<string>

    function State(): Device
      reads this
    {
      Device(tareOffset, out)
    }

    /** `__init__`: no offset, and READY printed for the host. */
    constructor (fmt: real -> string)
      ensures this.fmt == fmt && tareOffset == 0.0 && out == ["READY"]
    {
      this.fmt := fmt;
      tareOffset := 0.0;
      out := ["READY"];
    }

    /** `get_stable_reading(samples)`, where `vals` are the `samples` values the HX711 returned. */
    method GetStableReading(vals: seq<Option<real>>) returns (r: Option<real>)
      ensures r == StableReading(vals)
    {
      var readings: seq<real> := [];
      var i := 0;
      while i < |vals|
        invariant 0 <= i <= |vals|
        invariant readings == Truthy(vals[..i])
      {
        var val := vals[i];
        if val.Some? && val.value != 0.0 {
          readings := readings + [val.value];
        }
        assert vals[..i + 1][..i] == vals[..i];
        i := i + 1;
      }
      assert vals[..i] == vals;
      if |readings| < 3 {
        return None;
      }
      readings := Sort(readings);
      // len(readings) >= 3 here, so the source's `else: trimmed = readings` is never taken
      var trimmed := readings[1..|readings| - 1];
      r := Some(Sum(trimmed) / |trimmed| as real);
    }

    /** `get_weight` on the five samples of one reading. */
    method GetWeight(vals: seq<Option<real>>) returns (w: Option<real>)
      requires |vals| == SamplesPerReading
      ensures w == WeightOf(vals, tareOffset)
    {
      var raw := GetStableReading(vals);
      if raw.None? {
        return None;
      }
      w := Some((raw.value - TareValue - tareOffset) / CalibrationFactor);
    }

    /** The ten rounds of `tare`: their filtered readings, and the values among them. */
    method CollectTareReadings(rounds: seq<seq<Option<real>>>) returns (readings: seq<real>, ghost results: seq<Option<real>>)
      ensures readings == TareReadings(rounds)
      ensures results == RoundResults(rounds) && readings == Present(results)
    {
      readings := [];
      results := [];
      var i := 0;
      while i < |rounds|
        invariant 0 <= i <= |rounds|
        invariant results == RoundResults(rounds[..i])
        invariant readings == Present(results)
      {
        var raw := GetStableReading(rounds[i]);
        if raw.Some? {
          readings := readings + [raw.value];
        }
        assert rounds[..i + 1][..i] == rounds[..i];
        assert (results + [raw])[..|results|] == results;
        results := results + [raw];
        i := i + 1;
      }
      assert rounds[..i] == rounds;
    }

    /** `tare`, where `rounds` are the samples of its ten three-sample readings. */
    method Tare(rounds: seq<seq<Option<real>>>)
      requires |rounds| == TareRounds && forall i :: 0 <= i < |rounds| ==> |rounds[i]| == TareSamples
      modifies this
      ensures State() == TareStep(old(State()), RoundResults(rounds))
    {
      out := out + ["TARING"];
      var readings, results := CollectTareReadings(rounds);
      if readings != [] {
        var avgRaw := Sum(readings) / |readings| as real;
        tareOffset := avgRaw - TareValue;
        out := out + ["TARED"];
      } else {
        out := out + ["ERROR:TARE_FAILED"];
      }
    }

    /** `check_command`, with `cmd` the stripped line waiting on stdin (`None` when nothing is waiting). */
    method CheckCommand(cmd: Option<string>, rounds: seq<seq<Option<real>>>)
      requires |rounds| == TareRounds && forall i :: 0 <= i < |rounds| ==> |rounds[i]| == TareSamples
      modifies this
      ensures State() == CommandStep(old(State()), cmd, RoundResults(rounds))
    {
      if cmd.Some? {
        if cmd.value == "TARE" {
          Tare(rounds);
        } else if cmd.value == "PING" {
          out := out + ["PONG"];
        }
      }
    }

    /** One normal pass of `main`'s loop as written, on the five samples `vals`. */
    method MainPass(pending: Option<string>, vals: seq<Option<real>>)
      requires |vals| == SamplesPerReading
      modifies this`out
      ensures State() == MainPassAsWritten(old(State()), pending, StableReading(vals), fmt)
    {
      var weight := GetWeight(vals);
      if weight.Some? {
        out := out + ["WEIGHT:" + fmt(weight.value)];
      } else {
        out := out + ["ERROR:NO_READING"];
      }
    }

    /** A pass that first serves a pending host command, then reports. */
    method ServeAndReport(pending: Option<string>, rounds: seq<seq<Option<real>>>, vals: seq<Option<real>>)
      requires |rounds| == TareRounds && forall i :: 0 <= i < |rounds| ==> |rounds[i]| == TareSamples
      requires |vals| == SamplesPerReading
      modifies this
      ensures State() == MainPassServing(old(State()), pending, RoundResults(rounds), StableReading(vals), fmt)
    {
      CheckCommand(pending, rounds);
      MainPass(None, vals);
    }
  }
}
