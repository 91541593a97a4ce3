/**
 * The host side of the serial weight link (class `SerialWeightSensor` of
 * bird-feeder/main.py): the READY handshake, the classification of each
 * line the microcontroller sends, the last-write-wins `latest_weight`
 * slot, and the tare command written back.
 *
 * The reader thread is modelled as sequential processing of the lines it
 * would read, and Python's `float()` is a parse oracle `parse`.
 */
module SerialLink {
  import opened Options

  const WeightPrefix: string := "WEIGHT:"
  const ErrorPrefix: string := "ERROR:"
  const TareCommand: string := "TARE\n"

  /** `s.split(":")[0]`: the text of `s` before its first colon. */
  function UpToColon(s: string): (r: string)
    ensures r <= s
    ensures ':' !in r
    ensures |r| < |s| ==> s[|r|] == ':'
  {
    if s == [] || s[0] == ':' then []
    else [s[0]] + UpToColon(s[1..])
  }

  /**
   * `line.split(":")[1]` for a line that starts with a prefix whose only
   * colon is its last character: the text between the first and the second
   * colon of the line.
   */
  function FieldAfter(prefix: string, line: string): string
    requires prefix <= line
  {
    UpToColon(line[|prefix|..])
  }

  /** What the read loop makes of one stripped line. */
  datatype LineKind =
    | WeightReading(value: real)   // WEIGHT:<float> that parses: published
    | MalformedWeight              // WEIGHT:<text> that float() rejects: ignored
    | NoReading                    // ERROR:NO_READING: silently ignored
    | DeviceError(code: string)    // any other ERROR:<code>: reported
    | TareDone                     // TARED: reported
    | TareStarted                  // TARING: reported
    | Ignored                      // anything else

  function Classify(line: string, parse: string -> Option<real>): (k: LineKind)
    ensures k.WeightReading? <==> WeightPrefix <= line && parse(FieldAfter(WeightPrefix, line)).Some?
    ensures k.WeightReading? ==> Some(k.value) == parse(FieldAfter(WeightPrefix, line))
  {
    if WeightPrefix <= line then
      match parse(FieldAfter(WeightPrefix, line))
      case Some(v) => WeightReading(v)
      case None => MalformedWeight
    else if ErrorPrefix <= line then
      var code := FieldAfter(ErrorPrefix, line);
      if code == "NO_READING" then NoReading else DeviceError(code)
    else if line == "TARED" then TareDone
    else if line == "TARING" then TareStarted
    else Ignored
  }

  /** `latest_weight` after the read loop has handled `line`. */
  function NextWeight(latest: Option<real>, line: string, parse: string -> Option<real>): Option<real>
  {
    match Classify(line, parse)
    case WeightReading(v) => Some(v)
    case _ => latest
  }

  /**
   * One read-loop step changes `latest_weight` exactly when the line starts
   * with `WEIGHT:` and its field parses, and then to the parsed value.
   */
  lemma StepChangesOnlyOnParsedWeight(latest: Option<real>, line: string, parse: string -> Option<real>)
    ensures NextWeight(latest, line, parse) != latest ==>
              && WeightPrefix <= line
              && parse(FieldAfter(WeightPrefix, line)).Some?
              && NextWeight(latest, line, parse) == parse(FieldAfter(WeightPrefix, line))
    ensures WeightPrefix <= line && parse(FieldAfter(WeightPrefix, line)).Some? ==>
              NextWeight(latest, line, parse) == parse(FieldAfter(WeightPrefix, line))
    ensures !(WeightPrefix <= line) ==> NextWeight(latest, line, parse) == latest
  {
  }

  /** A string is not a prefix of a line that starts with a different character. */
  lemma NotPrefixByFirst(p: string, s: string)
    requires |p| > 0 && |s| > 0 && p[0] != s[0]
    ensures !(p <= s)
  {
  }

  /** Status lines and error reports never move the published weight. */
  lemma StatusLinesLeaveWeight(latest: Option<real>, line: string, parse: string -> Option<real>)
    requires ErrorPrefix <= line || line == "TARED" || line == "TARING" || line == "READY"
    ensures NextWeight(latest, line, parse) == latest
  {
    if ErrorPrefix <= line {
      assert line[0] == 'E';
    }
    NotPrefixByFirst(WeightPrefix, line);
  }

  /** `latest_weight` after the read loop has handled every line of `lines` in order. */
  function AfterLines(latest: Option<real>, lines: seq<string>, parse: string -> Option<real>): Option<real>
    decreases |lines|
  {
    if lines == [] then latest
    else NextWeight(AfterLines(latest, lines[..|lines| - 1], parse), lines[|lines| - 1], parse)
  }

  predicate IsWeightLine(line: string, parse: string -> Option<real>)
  {
    Classify(line, parse).WeightReading?
  }

  /** With no parsable weight line among `lines`, the published value is untouched. */
  lemma {:induction false} NoWeightLineNoChange(latest: Option<real>, lines: seq<string>, parse: string -> Option<real>)
    requires forall j :: 0 <= j < |lines| ==> !IsWeightLine(lines[j], parse)
    ensures AfterLines(latest, lines, parse) == latest
  {
    if lines != [] {
      NoWeightLineNoChange(latest, lines[..|lines| - 1], parse);
    }
  }

  /** Last write wins: the published value is that of the last parsable weight line. */
  lemma {:induction false} LastWriteWins(latest: Option<real>, lines: seq<string>, parse: string -> Option<real>, i: nat)
    requires i < |lines| && IsWeightLine(lines[i], parse)
    requires forall j :: i < j < |lines| ==> !IsWeightLine(lines[j], parse)
    ensures AfterLines(latest, lines, parse) == Some(Classify(lines[i], parse).value)
  {
    if i < |lines| - 1 {
      var front := lines[..|lines| - 1];
      assert front[i] == lines[i];
      LastWriteWins(latest, front, parse, i);
    }
  }

  /** The successive values `get_weight()` returns after each line is handled. */
  function WeightTrace(latest: Option<real>, lines: seq<string>, parse: string -> Option<real>): (t: seq<Option<real>>)
    ensures |t| == |lines|
    // each value is the one the read loop has published once it has handled the lines up to that one
    ensures forall i :: 0 <= i < |lines| ==> t[i] == AfterLines(latest, lines[..i + 1], parse)
    decreases |lines|
  {
    if lines == [] then []
    else
      var next := NextWeight(latest, lines[0], parse);
      var rest := WeightTrace(next, lines[1..], parse);
      assert lines[..1] == [lines[0]] && lines[..1][..0] == [];
      forall i | 0 <= i < |rest|
        ensures rest[i] == AfterLines(latest, lines[..i + 2], parse)
      {
        assert lines[..i + 2] == [lines[0]] + lines[1..][..i + 1];
        AfterLinesCons(latest, lines[0], lines[1..][..i + 1], parse);
      }
      [next] + rest
  }

  /** Handling a first line, then the rest, is handling them all. */
  lemma {:induction false} AfterLinesCons(latest: Option<real>, line: string, rest: seq<string>, parse: string -> Option<real>)
    ensures AfterLines(latest, [line] + rest, parse) == AfterLines(NextWeight(latest, line, parse), rest, parse)
    decreases |rest|
  {
    var all := [line] + rest;
    if rest == [] {
      assert all[..0] == [];
    } else {
      var n := |rest| - 1;
      assert all[..|all| - 1] == [line] + rest[..n];
      AfterLinesCons(latest, line, rest[..n], parse);
    }
  }

  /**
   * The READY handshake as a scan over the lines received during the
   * startup window: the index just past the first `READY`, if any.
   */
  function Handshake(startup: seq<string>): (r: Option<nat>)
    ensures r.Some? <==> "READY" in startup
    ensures r.Some? ==> 1 <= r.value <= |startup| && startup[r.value - 1] == "READY"
                        && "READY" !in startup[..r.value - 1]
  {
    if startup == [] then None
    else if startup[0] == "READY" then Some(1)
    else match Handshake(startup[1..])
      case None => None
      case Some(n) =>
        assert startup[1..][..n - 1] == startup[1..n];
        assert startup[..n] == [startup[0]] + startup[1..n];
        Some(n + 1)
  }

  /** A field with no colon in it is returned whole by `split(":")`. */
  lemma {:induction false} UpToColonWhole(t: string)
    requires ':' !in t
    ensures UpToColon(t) == t
  {
    if t != [] {
      assert ':' !in t[1..];
      UpToColonWhole(t[1..]);
    }
  }

  /**
   * A line `WEIGHT:<t>` whose field has no colon: the read loop hands the
   * whole field to float() and publishes what it returns.
   */
  lemma WeightLine(t: string, parse: string -> Option<real>)
    requires ':' !in t
    ensures Classify(WeightPrefix + t, parse) ==
              match parse(t) case Some(v) => WeightReading(v) case None => MalformedWeight
  {
    var line := WeightPrefix + t;
    assert WeightPrefix <= line;
    assert line[|WeightPrefix|..] == t;
    UpToColonWhole(t);
  }

  /** A line `ERROR:<code>` whose code has no colon is classified by the whole code. */
  lemma ErrorLine(code: string, parse: string -> Option<real>)
    requires ':' !in code
    ensures Classify(ErrorPrefix + code, parse) ==
              if code == "NO_READING" then NoReading else DeviceError(code)
  {
    var line := ErrorPrefix + code;
    NotPrefixByFirst(WeightPrefix, line);
    assert ErrorPrefix <= line;
    assert line[|ErrorPrefix|..] == code;
    UpToColonWhole(code);
  }

  /** The published value after a weight line whose field parses to `v`. */
  lemma ParsedWeightLine(before: Option<real>, t: string, v: real, parse: string -> Option<real>)
    requires ':' !in t && parse(t) == Some(v)
    ensures NextWeight(before, WeightPrefix + t, parse) == Some(v)
  {
    WeightLine(t, parse);
  }

  /** The published value after a weight line whose field float() rejects. */
  lemma MalformedWeightLine(before: Option<real>, t: string, parse: string -> Option<real>)
    requires ':' !in t && parse(t) == None
    ensures NextWeight(before, WeightPrefix + t, parse) == before
  {
    WeightLine(t, parse);
  }

  /** The trace over four lines, given what each step does. */
  lemma TraceOfFour(l1: string, l2: string, l3: string, l4: string, a: real, b: real, parse: string -> Option<real>)
    requires NextWeight(None, l1, parse) == Some(a)
    requires NextWeight(Some(a), l2, parse) == Some(a)
    requires NextWeight(Some(a), l3, parse) == Some(a)
    requires NextWeight(Some(a), l4, parse) == Some(b)
    ensures WeightTrace(None, [l1, l2, l3, l4], parse) == [Some(a), Some(a), Some(a), Some(b)]
  {
    assert WeightTrace(Some(a), [l4], parse) == [Some(b)] by {
      assert [l4][1..] == [];
    }
    assert WeightTrace(Some(a), [l3, l4], parse) == [Some(a), Some(b)] by {
      assert [l3, l4][1..] == [l4];
    }
    assert WeightTrace(Some(a), [l2, l3, l4], parse) == [Some(a), Some(a), Some(b)] by {
      assert [l2, l3, l4][1..] == [l3, l4];
    }
    assert [l1, l2, l3, l4][1..] == [l2, l3, l4];
  }

  /**
   * A stream shaped like `READY`, `WEIGHT:12.34`, `ERROR:NO_READING`,
   * `WEIGHT:bogus`, `WEIGHT:9.01`: the handshake consumes the first line and
   * `get_weight()` then reads None, 12.34, 12.34 (the error line changes
   * nothing), 12.34 (the bad parse is ignored), 9.01.
   */
  lemma ExampleStream(t1: string, bad: string, t2: string, a: real, b: real, parse: string -> Option<real>)
    requires ':' !in t1 && ':' !in bad && ':' !in t2
    requires parse(t1) == Some(a) && parse(bad) == None && parse(t2) == Some(b)
    ensures var stream := ["READY", WeightPrefix + t1, "ERROR:NO_READING", WeightPrefix + bad, WeightPrefix + t2];
            Handshake(stream) == Some(1) &&
            [None] + WeightTrace(None, stream[1..], parse) == [None, Some(a), Some(a), Some(a), Some(b)]
  {
    var stream := ["READY", WeightPrefix + t1, "ERROR:NO_READING", WeightPrefix + bad, WeightPrefix + t2];
    ParsedWeightLine(None, t1, a, parse);
    StatusLinesLeaveWeight(Some(a), "ERROR:NO_READING", parse);
    MalformedWeightLine(Some(a), bad, parse);
    ParsedWeightLine(Some(a), t2, b, parse);
    assert stream[1..] == [WeightPrefix + t1, "ERROR:NO_READING", WeightPrefix + bad, WeightPrefix + t2];
    TraceOfFour(WeightPrefix + t1, "ERROR:NO_READING", WeightPrefix + bad, WeightPrefix + t2, a, b, parse);
  }

  class SerialWeightSensor {
    /** The float() oracle the read loop uses. */
    const parse: string -> Option<real>
    /** The last weight published by the read loop (`None` until one arrives). */
    var latestWeight: Option<real>
    /** Whether the READY handshake succeeded. */
    var connected: bool
    /** Everything the host has written to the serial transport. */
    var written: string

    /**
     * `__init__` followed by `connect()`: scans the lines received during
     * the startup window for `READY`. When none arrives the link stays
     * disconnected (the source raises at this point).
     */
    constructor (parse: string -> Option<real>, startup: seq<string>)
      ensures this.parse == parse
      ensures connected <==> Handshake(startup).Some?
      ensures latestWeight == None && written == []
    {
      this.parse := parse;
      latestWeight := None;
      connected := false;
      written := [];
      new;
      var i := 0;
      while i < |startup|
        invariant 0 <= i <= |startup|
        invariant !connected
        invariant "READY" !in startup[..i]
      {
        if startup[i] == "READY" {
          connected := true;
          break;
        }
        assert startup[..i + 1] == startup[..i] + [startup[i]];
        i := i + 1;
      }
      assert !connected ==> startup[..i] == startup;
    }

    /** One iteration of the read loop on one line. */
    method ReadLine(line: string) returns (kind: LineKind)
      modifies this`latestWeight
      ensures kind == Classify(line, parse)
      ensures latestWeight == NextWeight(old(latestWeight), line, parse)
    {
      kind := Classify(line, parse);
      if kind.WeightReading? {
        latestWeight := Some(kind.value);
      }
    }

    /** The read loop over the lines it receives, one after another. */
    method ReadLoop(lines: seq<string>)
      modifies this`latestWeight
      ensures latestWeight == AfterLines(old(latestWeight), lines, parse)
    {
      var i := 0;
      while i < |lines|
        invariant 0 <= i <= |lines|
        invariant latestWeight == AfterLines(old(latestWeight), lines[..i], parse)
      {
        var _ := ReadLine(lines[i]);
        assert lines[..i + 1][..i] == lines[..i];
        i := i + 1;
      }
      assert lines[..i] == lines;
    }

    /** `get_weight()`: the current published value, without waiting. */
    method GetWeight() returns (w: Option<real>)
      ensures w == latestWeight
    {
      w := latestWeight;
    }

    /** `tare()`: writes the tare command, only when connected. */
    method Tare()
      modifies this`written
      ensures written == if connected then old(written) + TareCommand else old(written)
    {
      if connected {
        written := written + TareCommand;
      }
    }
  }
}
