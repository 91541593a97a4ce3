/**
 * The serial protocol between the two programs: every line the firmware
 * of bird-feeder/pico/main.py prints, read by the host's read loop in
 * bird-feeder/main.py.
 */
module Protocol {
  import opened Options
  import opened SerialLink
  import Pico

  /** What the host publishes after reading one weight report. */
  function HostView(latest: Option<real>, w: Option<real>, fmt: real -> string, parse: string -> Option<real>): Option<real>
  {
    if w.Some? && parse(fmt(w.value)).Some? then parse(fmt(w.value)) else latest
  }

  lemma NotWeightLine(line: string, parse: string -> Option<real>)
    requires |line| > 0 && line[0] != 'W'
    ensures !IsWeightLine(line, parse)
  {
    NotPrefixByFirst(WeightPrefix, line);
  }

  /**
   * A report line reaches the host as the value its formatted field parses
   * to; a NO_READING report, or a field that does not parse, leaves the
   * host's weight where it was.
   */
  lemma ReportLineHandled(latest: Option<real>, w: Option<real>, fmt: real -> string, parse: string -> Option<real>)
    requires w.Some? ==> ':' !in fmt(w.value)
    ensures NextWeight(latest, Pico.ReportLine(w, fmt), parse) == HostView(latest, w, fmt, parse)
  {
    if w.Some? {
      WeightLine(fmt(w.value), parse);
      assert Pico.ReportLine(w, fmt) == WeightPrefix + fmt(w.value);
    } else {
      assert ErrorPrefix <= Pico.ReportLine(w, fmt);
      StatusLinesLeaveWeight(latest, Pico.ReportLine(w, fmt), parse);
    }
  }

  /** The lines a command prints (TARING, TARED, ERROR:TARE_FAILED, PONG) carry no weight for the host. */
  lemma CommandLinesCarryNoWeight(d: Pico.Device, cmd: Option<string>, results: seq<Option<real>>,
                                  parse: string -> Option<real>)
    ensures var d' := Pico.CommandStep(d, cmd, results);
            && |d.out| <= |d'.out| && d'.out[..|d.out|] == d.out
            && forall j :: |d.out| <= j < |d'.out| ==> !IsWeightLine(d'.out[j], parse)
  {
    var d' := Pico.CommandStep(d, cmd, results);
    forall j | |d.out| <= j < |d'.out|
      ensures !IsWeightLine(d'.out[j], parse)
    {
      var line := d'.out[j];
      assert line in {"TARING", "TARED", "ERROR:TARE_FAILED", "PONG"};
      NotWeightLine(line, parse);
    }
  }

  /**
   * End to end: after a pass that serves the pending command and then
   * reports, the host holds the reported weight (when its field parses)
   * or the weight it held before; the command's own lines never disturb it.
   */
  lemma ServedPassReachesHost(d: Pico.Device, pending: Option<string>, results: seq<Option<real>>,
                              reading: Option<real>, fmt: real -> string, parse: string -> Option<real>,
                              latest: Option<real>)
    requires forall v :: ':' !in fmt(v)
    ensures var mid := Pico.CommandStep(d, pending, results);
            var d' := Pico.MainPassServing(d, pending, results, reading, fmt);
            |d.out| <= |d'.out| &&
            AfterLines(latest, d'.out[|d.out|..], parse) == HostView(latest, Pico.Weigh(reading, mid.tareOffset), fmt, parse)
  {
    var mid := Pico.CommandStep(d, pending, results);
    var d' := Pico.MainPassServing(d, pending, results, reading, fmt);
    var w := Pico.Weigh(reading, mid.tareOffset);
    CommandLinesCarryNoWeight(d, pending, results, parse);
    var cmdLines := mid.out[|d.out|..];
    var lines := d'.out[|d.out|..];
    assert lines == cmdLines + [Pico.ReportLine(w, fmt)];
    assert lines[..|lines| - 1] == cmdLines;
    forall j | 0 <= j < |cmdLines| ensures !IsWeightLine(cmdLines[j], parse) {
      assert cmdLines[j] == mid.out[|d.out| + j];
    }
    NoWeightLineNoChange(latest, cmdLines, parse);
    ReportLineHandled(latest, w, fmt, parse);
  }

  /**
   * The firmware's first line is READY, printed once at start-up. When that
   * READY is among the lines the host scans, whatever non-READY noise comes
   * before it, the handshake succeeds and the read loop starts just after
   * it. Nothing guarantees that it is: the host discards its input buffer
   * before scanning, so a READY printed before the host connected is lost
   * and the handshake fails.
   */
  lemma {:induction false} HandshakeAfterNoise(noise: seq<string>, later: seq<string>)
    requires "READY" !in noise
    ensures Handshake(noise + ["READY"] + later) == Some(|noise| + 1)
    decreases |noise|
  {
    var s := noise + ["READY"] + later;
    if noise != [] {
      assert s[1..] == noise[1..] + ["READY"] + later;
      HandshakeAfterNoise(noise[1..], later);
    }
  }

  /** The host's tare command, read with `readline().strip()`, is the TARE the firmware dispatches. */
  lemma TareCommandUnderstood(d: Pico.Device, results: seq<Option<real>>)
    ensures TareCommand == "TARE" + "\n"
    ensures Pico.CommandStep(d, Some(TareCommand[..|TareCommand| - 1]), results) == Pico.TareStep(d, results)
  {
    assert TareCommand[..|TareCommand| - 1] == "TARE";
  }
}
