/**
 * The older Keithley 2400 source-measure unit, driven through a small SCPI
 * helper library: every call the driver makes on the instrument, in order,
 * whether the output is on, the instrument's error queue, and the IV
 * curves taken so far. The helper library's calls are opaque steps; what
 * the instrument answers (error entries, readings, the trip state) is
 * given to the model.
 */
module Keithley2400Driver {
  import opened Wrappers
  import opened Text
  import Keithley2410Driver

  /** One call on the instrument: a helper-library step, or a raw write or query. */
  datatype Call =
    | Open | Reset | BeeperOff | BeeperOn | Remote | Local | Close
    | AutoVoltageRange | AutoCurrentRange
    | OutputOn | OutputOff
    | SetVoltage(volts: real)
    | Compliance(amps: real)
    | ReadError
    | Write(text: string)
    | Query(text: string)

  /** The three numbers a measurement query answers. */
  datatype Reading = Reading(voltage: real, current: real, resistance: real)

  /** An IV curve as `takeIV` stores it: rows of set voltage, measured voltage, |current| and resistance. */
  datatype IVCurve = IVCurve(rh: string, temp: string, data: seq<seq<real>>, date: string, time: string)

  /** What the instrument answers when its error queue is empty. */
  const NoErrorEntry: string := "0,\"No error\""

  /** An error-queue entry that reports no error: it starts with `+0,` or `0,`. */
  predicate IsNoError(e: string) {
    StartsWith(e, "+0,") || StartsWith(e, "0,")
  }

  lemma NoErrorEntryIsNoError()
    ensures IsNoError(NoErrorEntry)
  {
    assert NoErrorEntry[..2] == "0,";
  }

  // ---------------------------------------------------------------------
  // check_for_errors
  // ---------------------------------------------------------------------

  /** `n` error-queue reads. */
  function Reads(n: nat): (r: seq<Call>)
    ensures |r| == n && forall k :: 0 <= k < n ==> r[k] == ReadError
  {
    if n == 0 then [] else Reads(n - 1) + [ReadError]
  }

  /** The concatenation of error entries, as `err_string += err` builds it. */
  function Concat(entries: seq<string>): string {
    if entries == [] then "" else entries[0] + Concat(entries[1..])
  }

  /** The number of entries at the head of the queue that report an error. */
  function Leading(queue: seq<string>): (n: nat)
    ensures n <= |queue|
    ensures forall k :: 0 <= k < n ==> !IsNoError(queue[k])
    ensures n < |queue| ==> IsNoError(queue[n])
  {
    if queue == [] || IsNoError(queue[0]) then 0 else 1 + Leading(queue[1..])
  }

  /** What one `check_for_errors(ln)` does to the queue: how many reads, the collected text, what is left. */
  datatype Drained = Drained(count: nat, text: string, rest: seq<string>)

  /**
   * `check_for_errors(ln)`: entries are read one at a time, an error entry
   * joining the text, until a no-error entry is read (an empty queue
   * answers one) or, when `ln` is given, `ln` reads have been made.
   */
  function Drain(queue: seq<string>, limit: Option<int>): Drained
    decreases |queue|
  {
    if limit.Some? && limit.value <= 0 then Drained(0, "", queue)
    else if queue == [] then Drained(1, "", [])
    else if IsNoError(queue[0]) then Drained(1, "", queue[1..])
    else
      var d := Drain(queue[1..], if limit.Some? then Some(limit.value - 1) else None);
      Drained(d.count + 1, queue[0] + d.text, d.rest)
  }

  function Min(a: int, b: int): int {
    if a <= b then a else b
  }

  /** How many reads a check may make at most: `ln`, or one past the leading errors when no `ln` is given. */
  function Cap(queue: seq<string>, limit: Option<int>): nat {
    if limit.None? then Leading(queue) + 1
    else if limit.value <= 0 then 0
    else limit.value
  }

  /**
   * A check reads the leading error entries, up to its cap, and the
   * no-error entry after them if the cap allows; the text is exactly the
   * leading error entries it read, and the rest of the queue stays.
   */
  lemma DrainReadsLeading(queue: seq<string>, limit: Option<int>)
    ensures var d := Drain(queue, limit);
      var n := Min(Cap(queue, limit), Leading(queue) + 1);
      && d.count == n
      && d.text == Concat(queue[..Min(Cap(queue, limit), Leading(queue))])
      && d.rest == queue[Min(n, |queue|)..]
  {
    DrainCount(queue, limit);
    DrainText(queue, limit);
    DrainRest(queue, limit);
  }

  lemma {:induction false} DrainCount(queue: seq<string>, limit: Option<int>)
    ensures Drain(queue, limit).count == Min(Cap(queue, limit), Leading(queue) + 1)
    decreases |queue|
  {
    if !(limit.Some? && limit.value <= 0) && queue != [] && !IsNoError(queue[0]) {
      var next := if limit.Some? then Some(limit.value - 1) else None;
      var tail := queue[1..];
      assert Drain(queue, limit).count == Drain(tail, next).count + 1;
      DrainCount(tail, next);
      assert Leading(queue) == 1 + Leading(tail);
      assert Cap(tail, next) == Cap(queue, limit) - 1;
    }
  }

  lemma {:induction false} DrainText(queue: seq<string>, limit: Option<int>)
    ensures Drain(queue, limit).text == Concat(queue[..Min(Cap(queue, limit), Leading(queue))])
    decreases |queue|
  {
    if !(limit.Some? && limit.value <= 0) && queue != [] && !IsNoError(queue[0]) {
      var next := if limit.Some? then Some(limit.value - 1) else None;
      var tail := queue[1..];
      assert Drain(queue, limit).text == queue[0] + Drain(tail, next).text;
      DrainText(tail, next);
      assert Leading(queue) == 1 + Leading(tail);
      assert Cap(tail, next) == Cap(queue, limit) - 1;
      var m := Min(Cap(queue, limit), Leading(queue));
      assert queue[..m][1..] == tail[..m - 1];
    }
  }

  lemma {:induction false} DrainRest(queue: seq<string>, limit: Option<int>)
    ensures Drain(queue, limit).rest == queue[Min(Drain(queue, limit).count, |queue|)..]
    decreases |queue|
  {
    if !(limit.Some? && limit.value <= 0) && queue != [] && !IsNoError(queue[0]) {
      var next := if limit.Some? then Some(limit.value - 1) else None;
      var tail := queue[1..];
      var d := Drain(tail, next);
      assert Drain(queue, limit) == Drained(d.count + 1, queue[0] + d.text, d.rest);
      DrainRest(tail, next);
      assert tail[Min(d.count, |tail|)..] == queue[Min(d.count + 1, |queue|)..];
    }
  }

  /** A check of one entry reads exactly one and raises on a non-empty error entry at the head. */
  lemma DrainOne(queue: seq<string>)
    ensures var d := Drain(queue, Some(1));
      && d.count == 1
      && d.rest == (if queue == [] then [] else queue[1..])
      && (d.text != "" <==> queue != [] && !IsNoError(queue[0]) && queue[0] != "")
      && (d.text != "" ==> d.text == queue[0])
  {
    if queue != [] && !IsNoError(queue[0]) {
      assert queue[0] + "" == queue[0];
    }
  }

  /** Entries that make no check raise: no-error entries, and empty ones that add nothing to the text. */
  predicate Quiet(queue: seq<string>) {
    forall k :: 0 <= k < |queue| ==> IsNoError(queue[k]) || queue[k] == ""
  }

  // ---------------------------------------------------------------------
  // takeIV
  // ---------------------------------------------------------------------

  const CurrentMeasurement: seq<Call> := [Write("SENS1:FUNC:ON \"CURR\""), Query("MEASure:CURRent:DC?"), Query("MEASure:CURRent:DC?")]
  const VoltageMeasurement: seq<Call> := [Write("SENS1:FUNC:ON \"VOLT\""), Query("MEASure:VOLTage:DC?")]

  /** `display_string(string)`: the top line shows the text, then both lines return to readings. */
  function DisplayCalls(text: string): seq<Call> {
    [Write("DISP:WIND1:TEXT \"" + text + "\"")] + [Write("DISP:WIND1:TEXT:STAT ON")]
    + [Write("DISP:WIND1:TEXT:STAT OFF")] + [Write("DISP:WIND2:TEXT:STAT OFF")]
  }

  /** The calls of step `i`: the set voltage, then a current and a voltage measurement. */
  function StepCalls(i: nat, stepV: real): seq<Call> {
    [SetVoltage(i as real * stepV)] + CurrentMeasurement + VoltageMeasurement
  }

  /** The row of step `i`: set voltage, measured voltage, |current| and resistance. */
  function Row(i: nat, stepV: real, amps: Reading, volts: Reading): seq<real> {
    [i as real * stepV, volts.voltage, Keithley2410Driver.Abs(amps.current), volts.resistance]
  }

  /** A step whose current is above 100 µA hit the compliance. */
  predicate Hit(amps: Reading) {
    Keithley2410Driver.Abs(amps.current) * 1000000.0 > 100.0
  }

  /** The compliance hits among steps `i` to `j - 1`. */
  function Hits(amps: nat -> Reading, i: nat, j: nat): nat
    decreases j - i
  {
    if j <= i then 0 else (if Hit(amps(i)) then 1 else 0) + Hits(amps, i + 1, j)
  }

  /** What the steps from `i` on produce: rows, the queue after them, their calls, and an exception if one escaped. */
  datatype Sweep = Sweep(rows: seq<seq<real>>, queue: seq<string>, log: seq<Call>, failure: Option<Error>)

  /**
   * One step of the loop of `takeIV`: on every `every`-th step one error
   * entry is checked first, and an error ends the loop; otherwise the step
   * sets `i * stepV` and measures, giving one row.
   */
  function Advance(i: nat, stepV: real, every: int, queue: seq<string>, amps: Reading, volts: Reading): (st: Sweep)
    requires every != 0
  {
    var check := if i % every == 0 then Drain(queue, Some(1)) else Drained(0, "", queue);
    if check.text != "" then Sweep([], check.rest, Reads(check.count), Some(ValueError(check.text)))
    else Sweep([Row(i, stepV, amps, volts)], check.rest, Reads(check.count) + StepCalls(i, stepV), None)
  }

  /**
   * The loop of `takeIV` from step `i` with `hits` compliance hits so far:
   * it stops at step `ln`, at an error, or right after the second
   * compliance hit.
   */
  function SweepFrom(i: nat, ln: int, stepV: real, every: int, hits: nat, queue: seq<string>,
                     amps: nat -> Reading, volts: nat -> Reading): Sweep
    decreases ln - i
  {
    if ln <= i then Sweep([], queue, [], None)
    else if every == 0 then Sweep([], queue, [], Some(ZeroDivision))
    else
      var st := Advance(i, stepV, every, queue, amps(i), volts(i));
      var h := hits + (if Hit(amps(i)) then 1 else 0);
      if st.failure.Some? || h == 2 then st
      else After(st.rows, st.log, SweepFrom(i + 1, ln, stepV, every, h, st.queue, amps, volts))
  }

  /** One step of the loop unfolded. */
  lemma SweepUnfold(i: nat, ln: int, stepV: real, every: int, hits: nat, queue: seq<string>,
                    amps: nat -> Reading, volts: nat -> Reading)
    requires i < ln && every != 0
    ensures var st := Advance(i, stepV, every, queue, amps(i), volts(i));
      var h := hits + (if Hit(amps(i)) then 1 else 0);
      && (st.failure.Some? || h == 2 ==> SweepFrom(i, ln, stepV, every, hits, queue, amps, volts) == st)
      && (st.failure.None? && h != 2 ==>
            SweepFrom(i, ln, stepV, every, hits, queue, amps, volts)
            == After(st.rows, st.log, SweepFrom(i + 1, ln, stepV, every, h, st.queue, amps, volts)))
  {
  }

  /** One step of the loop, named: the step's own result `st` and the hit count `h` after it. */
  lemma SweepStep(i: nat, ln: int, stepV: real, every: int, hits: nat, queue: seq<string>,
                  amps: nat -> Reading, volts: nat -> Reading) returns (st: Sweep, h: nat)
    requires i < ln && every != 0
    ensures st == Advance(i, stepV, every, queue, amps(i), volts(i))
    ensures h == hits + (if Hit(amps(i)) then 1 else 0)
    ensures st.failure.Some? ==> st.rows == [] && SweepFrom(i, ln, stepV, every, hits, queue, amps, volts) == st
    ensures st.failure.None? ==> st.rows == [Row(i, stepV, amps(i), volts(i))]
    ensures st.failure.None? && h == 2 ==> SweepFrom(i, ln, stepV, every, hits, queue, amps, volts) == st
    ensures st.failure.None? && h != 2 ==>
      SweepFrom(i, ln, stepV, every, hits, queue, amps, volts)
      == After(st.rows, st.log, SweepFrom(i + 1, ln, stepV, every, h, st.queue, amps, volts))
  {
    st := Advance(i, stepV, every, queue, amps(i), volts(i));
    h := hits + (if Hit(amps(i)) then 1 else 0);
    SweepUnfold(i, ln, stepV, every, hits, queue, amps, volts);
  }

  /** Counting hits from `i` is the hit at `i` and the count after it. */
  lemma HitsHead(amps: nat -> Reading, i: nat, j: nat)
    requires i < j
    ensures Hits(amps, i, j) == (if Hit(amps(i)) then 1 else 0) + Hits(amps, i + 1, j)
  {
  }

  /** The rows of the loop are the steps in order, each with its own set voltage and readings, one per step up to `ln`. */
  lemma {:induction false} SweepRows(i: nat, ln: int, stepV: real, every: int, hits: nat, queue: seq<string>,
                                     amps: nat -> Reading, volts: nat -> Reading)
    ensures var s := SweepFrom(i, ln, stepV, every, hits, queue, amps, volts);
      && (s.rows == [] || i + |s.rows| <= ln)
      && StepRows(s.rows, i, stepV, amps, volts)
    decreases ln - i
  {
    var s := SweepFrom(i, ln, stepV, every, hits, queue, amps, volts);
    if ln <= i || every == 0 {
      return;
    }
    var st, h := SweepStep(i, ln, stepV, every, hits, queue, amps, volts);
    if st.failure.Some? || h == 2 {
      return;
    }
    var rest := SweepFrom(i + 1, ln, stepV, every, h, st.queue, amps, volts);
    SweepRows(i + 1, ln, stepV, every, h, st.queue, amps, volts);
    StepRowsCons(rest.rows, i, stepV, amps, volts);
  }

  /** Row `k` of `rows` is step `i + k`'s row. */
  predicate StepRows(rows: seq<seq<real>>, i: nat, stepV: real, amps: nat -> Reading, volts: nat -> Reading) {
    forall k :: 0 <= k < |rows| ==> rows[k] == Row(i + k, stepV, amps(i + k), volts(i + k))
  }

  /** Step `i`'s row followed by the rows from step `i + 1` on are the rows from step `i` on. */
  lemma StepRowsCons(rest: seq<seq<real>>, i: nat, stepV: real, amps: nat -> Reading, volts: nat -> Reading)
    requires StepRows(rest, i + 1, stepV, amps, volts)
    ensures StepRows([Row(i, stepV, amps(i), volts(i))] + rest, i, stepV, amps, volts)
  {
    var rows := [Row(i, stepV, amps(i), volts(i))] + rest;
    forall k | 0 <= k < |rows|
      ensures rows[k] == Row(i + k, stepV, amps(i + k), volts(i + k))
    {
      if k > 0 {
        assert rows[k] == rest[k - 1];
      }
    }
  }

  /**
   * The loop stops early only at the second compliance hit, and never
   * continues past it: the steps it recorded hold at most two hits, all
   * but the last hold fewer than two, and a loop that ended before step
   * `ln` without an error holds exactly two.
   */
  lemma {:induction false} SweepStops(i: nat, ln: int, stepV: real, every: int, hits: nat, queue: seq<string>,
                                      amps: nat -> Reading, volts: nat -> Reading)
    requires hits < 2
    ensures var s := SweepFrom(i, ln, stepV, every, hits, queue, amps, volts);
      && hits + Hits(amps, i, i + |s.rows|) <= 2
      && (s.failure.None? && i + |s.rows| < ln ==> hits + Hits(amps, i, i + |s.rows|) == 2)
      && (|s.rows| > 0 ==> hits + Hits(amps, i, i + |s.rows| - 1) < 2)
    decreases ln - i
  {
    var s := SweepFrom(i, ln, stepV, every, hits, queue, amps, volts);
    if ln <= i || every == 0 {
      return;
    }
    var st, h := SweepStep(i, ln, stepV, every, hits, queue, amps, volts);
    if st.failure.Some? {
      return;
    }
    if h == 2 {
      HitsHead(amps, i, i + 1);
      return;
    }
    var rest := SweepFrom(i + 1, ln, stepV, every, h, st.queue, amps, volts);
    SweepStops(i + 1, ln, stepV, every, h, st.queue, amps, volts);
    var r := |rest.rows|;
    assert |s.rows| == 1 + r;
    HitsHead(amps, i, i + 1 + r);
    if r > 0 {
      HitsHead(amps, i, i + r);
    }
  }

  /** With a non-zero check interval and a quiet error queue, the loop never raises and leaves the queue quiet. */
  lemma {:induction false} SweepQuiet(i: nat, ln: int, stepV: real, every: int, hits: nat, queue: seq<string>,
                                      amps: nat -> Reading, volts: nat -> Reading)
    requires every != 0 && Quiet(queue)
    ensures var s := SweepFrom(i, ln, stepV, every, hits, queue, amps, volts);
      s.failure.None? && Quiet(s.queue)
    decreases ln - i
  {
    if ln <= i {
      return;
    }
    DrainOne(queue);
    var st := Advance(i, stepV, every, queue, amps(i), volts(i));
    assert Quiet(st.queue) by {
      if queue != [] && i % every == 0 {
        assert forall k :: 0 <= k < |queue| - 1 ==> queue[1..][k] == queue[k + 1];
      }
    }
    var h := hits + (if Hit(amps(i)) then 1 else 0);
    if h != 2 {
      SweepQuiet(i + 1, ln, stepV, every, h, st.queue, amps, volts);
    }
  }

  /** A loop's steps glued after the rows and calls of the steps before it. */
  function After(rows: seq<seq<real>>, log: seq<Call>, s: Sweep): Sweep {
    Sweep(rows + s.rows, s.queue, log + s.log, s.failure)
  }

  /** Gluing a finished rest adds nothing to the prefixes. */
  lemma AfterEmpty(rows: seq<seq<real>>, log: seq<Call>, rest: Sweep)
    requires rest.rows == [] && rest.log == []
    ensures After(rows, log, rest) == Sweep(rows, rest.queue, log, rest.failure)
  {
    assert rows + [] == rows && log + [] == log;
  }

  /** Gluing twice is gluing once with the joined prefixes. */
  lemma AfterAfter(rows: seq<seq<real>>, log: seq<Call>, rows1: seq<seq<real>>, log1: seq<Call>, rest: Sweep)
    ensures After(rows, log, After(rows1, log1, rest)) == After(rows + rows1, log + log1, rest)
  {
    assert rows + (rows1 + rest.rows) == rows + rows1 + rest.rows;
    assert log + (log1 + rest.log) == log + log1 + rest.log;
  }

  /**
   * With a positive step from 0 V, a non-zero check interval, a quiet
   * error queue and fewer than two compliance hits, the curve has one row
   * per step, the last one at the highest multiple of the step not above
   * `maxV`.
   */
  lemma FullSweep(maxV: real, stepV: real, every: int, queue: seq<string>, amps: nat -> Reading, volts: nat -> Reading)
    requires stepV > 0.0 && maxV >= 0.0 && every != 0 && Quiet(queue)
    requires Hits(amps, 0, Keithley2410Driver.IVSteps(maxV, stepV)) < 2
    ensures var n := Keithley2410Driver.IVSteps(maxV, stepV);
      var s := SweepFrom(0, n, stepV, every, 0, queue, amps, volts);
      && n >= 1 && s.failure.None? && |s.rows| == n && |s.rows[n - 1]| == 4
      && s.rows[n - 1][0] <= maxV < s.rows[n - 1][0] + stepV
  {
    var n := Keithley2410Driver.IVSteps(maxV, stepV);
    Keithley2410Driver.IVStepsCover(maxV, stepV);
    QuietSweepCompletes(n, stepV, every, queue, amps, volts);
    LastStep(n, stepV, maxV);
  }

  /** On a quiet queue with fewer than two hits, the sweep makes all its steps. */
  lemma QuietSweepCompletes(n: nat, stepV: real, every: int, queue: seq<string>, amps: nat -> Reading, volts: nat -> Reading)
    requires every != 0 && Quiet(queue) && Hits(amps, 0, n) < 2
    ensures var s := SweepFrom(0, n, stepV, every, 0, queue, amps, volts);
      && s.failure.None? && |s.rows| == n
      && (n > 0 ==> s.rows[n - 1] == Row(n - 1, stepV, amps(n - 1), volts(n - 1)))
  {
    var s := SweepFrom(0, n, stepV, every, 0, queue, amps, volts);
    SweepQuiet(0, n, stepV, every, 0, queue, amps, volts);
    SweepStops(0, n, stepV, every, 0, queue, amps, volts);
    SweepRows(0, n, stepV, every, 0, queue, amps, volts);
    if |s.rows| < n {
      HitsGrow(amps, 0, |s.rows|, n);
    }
  }

  /** The last step's voltage is at most `maxV`, and one more step would pass it. */
  lemma LastStep(n: int, stepV: real, maxV: real)
    requires n >= 1 && (n - 1) as real * stepV <= maxV < n as real * stepV
    ensures (n - 1) as real * stepV <= maxV < (n - 1) as real * stepV + stepV
  {
    assert (n - 1) as real * stepV + stepV == n as real * stepV;
  }

  /** Counting over more steps finds no fewer hits. */
  lemma {:induction false} HitsGrow(amps: nat -> Reading, i: nat, j: nat, k: nat)
    requires i <= j <= k
    ensures Hits(amps, i, j) <= Hits(amps, i, k)
    decreases j - i
  {
    if i < j {
      HitsGrow(amps, i + 1, j, k);
    }
  }

  /** The calls `__init__` makes after the reset and the error check, for a terminal that is `Rear` or `Front`. */
  function SetupCalls(terminal: string): seq<Call> {
    [Write(if terminal == "Rear" then "ROUT:TERM REAR" else "ROUT:TERM FRON")]
    + [BeeperOff] + [Remote] + [AutoVoltageRange]
    + [Write("SOUR1:FUNC:MODE VOLT")] + [Write("SENS1:FUNC:ON \"CURR\"")] + [OutputOff]
  }

  function ArmCalls(hasSwitch: bool): seq<Call> {
    (if hasSwitch then [Write("OUTPut:ENABle ON")] else [])
    + [SetVoltage(0.0)] + [Compliance(0.000105)] + [AutoCurrentRange] + [AutoVoltageRange]
    + DisplayCalls("Adapter connected")
  }

  /**
   * The start-up never switches the output on: it switches it off before
   * the HV switch is enabled, and the source is set to 0 V with the
   * 105 µA compliance.
   */
  lemma StartupSafe(terminal: string, hasSwitch: bool)
    ensures var c := SetupCalls(terminal) + ArmCalls(hasSwitch);
      && OutputOn !in c
      && c[6] == OutputOff
      && (hasSwitch ==> c[7] == Write("OUTPut:ENABle ON"))
      && SetVoltage(0.0) in c && Compliance(0.000105) in c
  {
    var c := SetupCalls(terminal) + ArmCalls(hasSwitch);
    assert |SetupCalls(terminal)| == 7;
    forall k | 0 <= k < |c|
      ensures c[k] != OutputOn
    {
      if k >= 7 {
        assert c[k] == ArmCalls(hasSwitch)[k - 7];
      }
    }
    var a := if hasSwitch then 8 else 7;
    assert c[a] == SetVoltage(0.0) && c[a + 1] == Compliance(0.000105);
  }

  /** `Keithley2400`: the instrument connection and what the driver keeps beside it. */
  class Keithley2400 {
    var calls: seq<Call>
    var output: bool
    var errors: seq<string>      // the instrument's error queue, oldest first
    var ivdata: seq<IVCurve>

    /** The VISA resource opened and reset; the error queue holds what the instrument had pending. */
    constructor Connect(pending: seq<string>)
      ensures calls == [Open, Reset] && !output && errors == pending && ivdata == []
    {
      calls := [Open, Reset];
      output := false;
      errors := pending;
      ivdata := [];
    }

    /**
     * `Keithley2400()`: the pending errors are checked (any raises
     * ValueError), the terminal is chosen (anything but `Rear` or `Front`
     * raises RuntimeError), and the output is left off at 0 V with the HV
     * switch enabled when there is one.
     */
    static method Create(terminal: string, hasSwitch: bool, pending: seq<string>) returns (r: Result<Keithley2400>)
      ensures var d := Drain(pending, None);
        && (r.Err? <==> d.text != "" || (terminal != "Rear" && terminal != "Front"))
        && (d.text != "" ==> r == Err(ValueError(d.text)))
        && (d.text == "" && terminal != "Rear" && terminal != "Front" ==>
              r == Err(RuntimeError("HVTerminal in configuration should be Front or Rear")))
        && (r.Ok? ==>
              && fresh(r.value) && !r.value.output && r.value.ivdata == [] && r.value.errors == d.rest
              && r.value.calls == [Open, Reset] + Reads(d.count) + SetupCalls(terminal) + ArmCalls(hasSwitch))
    {
      var k := new Keithley2400.Connect(pending);
      var c := k.CheckForErrors(None);
      if c.Err? {
        return Err(c.error);
      }
      if terminal != "Rear" && terminal != "Front" {
        return Err(RuntimeError("HVTerminal in configuration should be Front or Rear"));
      }
      k.Setup(terminal);
      k.Arm(hasSwitch);
      return Ok(k);
    }

    method Setup(terminal: string)
      modifies this
      ensures calls == old(calls) + SetupCalls(terminal)
      ensures !output && errors == old(errors) && ivdata == old(ivdata)
    {
      Send(Write(if terminal == "Rear" then "ROUT:TERM REAR" else "ROUT:TERM FRON"));
      Send(BeeperOff);
      Send(Remote);
      Send(AutoVoltageRange);
      Send(Write("SOUR1:FUNC:MODE VOLT"));
      Send(Write("SENS1:FUNC:ON \"CURR\""));
      OutputOffNow();
    }

    method Arm(hasSwitch: bool)
      modifies this
      ensures calls == old(calls) + ArmCalls(hasSwitch)
      ensures output == old(output) && errors == old(errors) && ivdata == old(ivdata)
    {
      if hasSwitch {
        Send(Write("OUTPut:ENABle ON"));
      }
      Send(SetVoltage(0.0));
      Send(Compliance(0.000105));
      Send(AutoCurrentRange);
      Send(AutoVoltageRange);
      DisplayString("Adapter connected");
    }

    /** `write(string)` and the helper library's calls: the call joins the log. */
    method Send(c: Call)
      modifies this
      ensures calls == old(calls) + [c]
      ensures output == old(output) && errors == old(errors) && ivdata == old(ivdata)
    {
      calls := calls + [c];
    }

    /** `display_string(string)`. */
    method DisplayString(text: string)
      modifies this
      ensures calls == old(calls) + DisplayCalls(text)
      ensures output == old(output) && errors == old(errors) && ivdata == old(ivdata)
    {
      Send(Write("DISP:WIND1:TEXT \"" + text + "\""));
      Send(Write("DISP:WIND1:TEXT:STAT ON"));
      Send(Write("DISP:WIND1:TEXT:STAT OFF"));
      Send(Write("DISP:WIND2:TEXT:STAT OFF"));
    }

    /** `outputOn()`. */
    method OutputOnNow()
      modifies this
      ensures calls == old(calls) + [OutputOn] && output
      ensures errors == old(errors) && ivdata == old(ivdata)
    {
      Send(OutputOn);
      output := true;
    }

    /** `outputOff()`. */
    method OutputOffNow()
      modifies this
      ensures calls == old(calls) + [OutputOff] && !output
      ensures errors == old(errors) && ivdata == old(ivdata)
    {
      Send(OutputOff);
      output := false;
    }

    /** `readError()`: the oldest entry leaves the queue; an empty queue answers that there is no error. */
    method ReadOneError() returns (e: string)
      modifies this
      ensures old(errors) == [] ==> e == NoErrorEntry && errors == []
      ensures old(errors) != [] ==> e == old(errors)[0] && errors == old(errors)[1..]
      ensures calls == old(calls) + [ReadError] && output == old(output) && ivdata == old(ivdata)
    {
      Send(ReadError);
      if errors == [] {
        e := NoErrorEntry;
      } else {
        e := errors[0];
        errors := errors[1..];
      }
    }

    /**
     * `check_for_errors(ln)`: the reads and the text are those `Drain`
     * describes, and ValueError carries the text exactly when it is not
     * empty.
     */
    method CheckForErrors(ln: Option<int>) returns (r: Result<()>)
      modifies this
      ensures var d := Drain(old(errors), ln);
        && errors == d.rest
        && calls == old(calls) + Reads(d.count)
        && (r.Err? <==> d.text != "")
        && (r.Err? ==> r.error == ValueError(d.text))
      ensures output == old(output) && ivdata == old(ivdata)
    {
      var text;
      if ln.None? {
        text := ReadAll();
      } else {
        text := ReadAtMost(ln.value);
      }
      if text != "" {
        return Err(ValueError(text));
      }
      return Ok(());
    }

    /** The `while True` loop of `check_for_errors()`: read until an entry reports no error. */
    method ReadAll() returns (text: string)
      modifies this
      ensures var d := Drain(old(errors), None);
        errors == d.rest && calls == old(calls) + Reads(d.count) && text == d.text
      ensures output == old(output) && ivdata == old(ivdata)
    {
      NoErrorEntryIsNoError();
      text := "";
      ghost var taken := 0;
      ghost var d0 := Drain(errors, None);
      while true
        invariant output == old(output) && ivdata == old(ivdata)
        invariant calls == old(calls) + Reads(taken)
        invariant var d := Drain(errors, None);
          text + d.text == d0.text && taken + d.count == d0.count && d.rest == d0.rest
        decreases |errors|
      {
        var e := ReadOneError();
        taken := taken + 1;
        if IsNoError(e) {
          break;
        }
        AppendAssoc(text, e, Drain(errors, None).text);
        text := text + e;
      }
    }

    /** The `for` loop of `check_for_errors(ln)`: at most `ln` reads, stopping at an entry that reports no error. */
    method ReadAtMost(ln: int) returns (text: string)
      modifies this
      ensures var d := Drain(old(errors), Some(ln));
        errors == d.rest && calls == old(calls) + Reads(d.count) && text == d.text
      ensures output == old(output) && ivdata == old(ivdata)
    {
      NoErrorEntryIsNoError();
      text := "";
      ghost var taken := 0;
      ghost var d0 := Drain(errors, Some(ln));
      var left := ln;  // reads the `for` loop has still to make
      while left > 0
        invariant output == old(output) && ivdata == old(ivdata)
        invariant calls == old(calls) + Reads(taken)
        invariant var d := Drain(errors, Some(left));
          text + d.text == d0.text && taken + d.count == d0.count && d.rest == d0.rest
      {
        var e, stop := ReadStep(left);
        taken := taken + 1;
        assert Reads(taken) == Reads(taken - 1) + [ReadError];
        if stop {
          break;
        }
        left := left - 1;
        AppendAssoc(text, e, Drain(errors, Some(left)).text);
        text := text + e;
      }
    }

    /** One read of the limited check: where it leaves the rest of the drain. */
    method ReadStep(lim: int) returns (e: string, stop: bool)
      requires lim > 0
      modifies this
      ensures var d := Drain(old(errors), Some(lim));
        var d' := Drain(errors, Some(lim - 1));
        && (stop ==> d == Drained(1, "", errors))
        && (!stop ==> d == Drained(d'.count + 1, e + d'.text, d'.rest))
      ensures calls == old(calls) + [ReadError] && output == old(output) && ivdata == old(ivdata)
    {
      NoErrorEntryIsNoError();
      e := ReadOneError();
      stop := IsNoError(e);
    }

    /** `measureCurrent()`: sense current, poll, and read the final answer. */
    method MeasureCurrent(answer: Reading) returns (m: Reading)
      modifies this
      ensures m == answer && calls == old(calls) + CurrentMeasurement
      ensures output == old(output) && errors == old(errors) && ivdata == old(ivdata)
    {
      Send(Write("SENS1:FUNC:ON \"CURR\""));
      Send(Query("MEASure:CURRent:DC?"));
      Send(Query("MEASure:CURRent:DC?"));
      m := answer;
    }

    /** `measureVoltage()`: sense voltage and read the answer. */
    method MeasureVoltage(answer: Reading) returns (m: Reading)
      modifies this
      ensures m == answer && calls == old(calls) + VoltageMeasurement
      ensures output == old(output) && errors == old(errors) && ivdata == old(ivdata)
    {
      Send(Write("SENS1:FUNC:ON \"VOLT\""));
      Send(Query("MEASure:VOLTage:DC?"));
      m := answer;
    }

    /** One step of the loop of `takeIV` once its error check passed. */
    method Step(i: nat, stepV: real, amps: Reading, volts: Reading) returns (row: seq<real>)
      modifies this
      ensures row == Row(i, stepV, amps, volts) && calls == old(calls) + StepCalls(i, stepV)
      ensures output == old(output) && errors == old(errors) && ivdata == old(ivdata)
    {
      Send(SetVoltage(i as real * stepV));
      var a := MeasureCurrent(amps);
      var v := MeasureVoltage(volts);
      row := [i as real * stepV, v.voltage, Keithley2410Driver.Abs(a.current), v.resistance];
    }

    /**
     * The body of the loop of `takeIV`: on every `every`-th step one error
     * entry is checked first, and an error ends the step; otherwise the
     * step sets its voltage and measures.
     */
    method CheckedStep(i: nat, stepV: real, every: int, amps: Reading, volts: Reading)
      returns (row: seq<real>, failure: Option<Error>)
      requires every != 0
      modifies this
      ensures var st := Advance(i, stepV, every, old(errors), amps, volts);
        && errors == st.queue && calls == old(calls) + st.log && failure == st.failure
        && (failure.None? ==> st.rows == [row])
      ensures output == old(output) && ivdata == old(ivdata)
    {
      if i % every == 0 {
        var c := CheckForErrors(Some(1));
        if c.Err? {
          return [], Some(c.error);
        }
      }
      row := Step(i, stepV, amps, volts);
      failure := None;
    }

    /**
     * One pass of the loop of `takeIV`, stated as the step of `SweepFrom` it
     * makes: the rows and calls it adds, and the rest of the loop, which is
     * empty when the pass ends it.
     */
    method LoopBody(i: nat, ln: int, stepV: real, every: int, hits: nat, amps: nat -> Reading, volts: nat -> Reading)
      returns (rows: seq<seq<real>>, failure: Option<Error>, hits': nat, stop: bool, ghost steplog: seq<Call>, ghost next: Sweep)
      requires i < ln && every != 0 && hits < 2
      modifies this
      ensures calls == old(calls) + steplog && output == old(output) && ivdata == old(ivdata)
      ensures SweepFrom(i, ln, stepV, every, hits, old(errors), amps, volts) == After(rows, steplog, next)
      ensures stop ==> next == Sweep([], errors, [], failure)
      ensures !stop ==> hits' < 2 && next == SweepFrom(i + 1, ln, stepV, every, hits', errors, amps, volts)
    {
      ghost var st, h := SweepStep(i, ln, stepV, every, hits, errors, amps, volts);
      var row;
      row, failure := CheckedStep(i, stepV, every, amps(i), volts(i));
      steplog := st.log;
      hits' := hits + (if Hit(amps(i)) then 1 else 0);
      rows := if failure.None? then [row] else [];
      stop := failure.Some? || hits' == 2;
      if stop {
        next := Sweep([], errors, [], failure);
        AfterEmpty(rows, steplog, next);
      } else {
        next := SweepFrom(i + 1, ln, stepV, every, hits', errors, amps, volts);
      }
    }

    /** The loop of `takeIV`: rows, calls, queue and escaping exception are those `SweepFrom` describes. */
    method SweepLoop(ln: int, stepV: real, every: int, amps: nat -> Reading, volts: nat -> Reading)
      returns (data: seq<seq<real>>, failure: Option<Error>)
      modifies this
      ensures var s := SweepFrom(0, ln, stepV, every, 0, old(errors), amps, volts);
        && data == s.rows && failure == s.failure && errors == s.queue && calls == old(calls) + s.log
      ensures output == old(output) && ivdata == old(ivdata)
    {
      ghost var total := SweepFrom(0, ln, stepV, every, 0, errors, amps, volts);
      ghost var log: seq<Call> := [];
      data := [];
      var hits := 0;
      var i := 0;
      while i < ln
        invariant hits < 2 && calls == old(calls) + log
        invariant output == old(output) && ivdata == old(ivdata)
        invariant After(data, log, SweepFrom(i, ln, stepV, every, hits, errors, amps, volts)) == total
        decreases ln - i
      {
        if every == 0 {
          AfterEmpty(data, log, Sweep([], errors, [], Some(ZeroDivision)));
          return data, Some(ZeroDivision);
        }
        var rows, f, h, stop, steplog, next := LoopBody(i, ln, stepV, every, hits, amps, volts);
        AppendAssoc(old(calls), log, steplog);
        AfterAfter(data, log, rows, steplog, next);
        log := log + steplog;
        data := data + rows;
        if stop {
          AfterEmpty(data, log, next);
          return data, f;
        }
        hits := h;
        i := i + 1;
      }
      AfterEmpty(data, log, Sweep([], errors, [], None));
      failure := None;
    }

    /**
     * `takeIV(maxV, stepV, RH, Temp, errcheck_step)`: the output goes on at
     * 0 V before anything can fail; then the loop of `SweepFrom` runs over
     * `int(maxV // stepV) + 1` steps. An exception leaves the output on and
     * stores nothing; a completed loop stores the curve, sets 0 V and
     * switches the output off.
     */
    method TakeIV(maxV: real, stepV: real, rh: string, temp: string, every: int, date: string, time: string,
                  amps: nat -> Reading, volts: nat -> Reading) returns (r: Result<IVCurve>)
      modifies this
      ensures stepV == 0.0 ==>
        && r == Err(ZeroDivision) && output && ivdata == old(ivdata) && errors == old(errors)
        && calls == old(calls) + [SetVoltage(0.0)] + [OutputOn]
      ensures stepV != 0.0 ==>
        var s := SweepFrom(0, Keithley2410Driver.IVSteps(maxV, stepV), stepV, every, 0, old(errors), amps, volts);
        && errors == s.queue
        && (s.failure.Some? ==>
              && r == Err(s.failure.value) && output && ivdata == old(ivdata)
              && calls == old(calls) + [SetVoltage(0.0)] + [OutputOn] + DisplayCalls("Looping...") + s.log)
        && (s.failure.None? ==>
              && r == Ok(IVCurve(rh, temp, s.rows, date, time)) && !output && ivdata == old(ivdata) + [r.value]
              && calls == old(calls) + [SetVoltage(0.0)] + [OutputOn] + DisplayCalls("Looping...") + s.log
                          + DisplayCalls("Loop finished.") + [SetVoltage(0.0)] + [OutputOff])
    {
      Send(SetVoltage(0.0));
      OutputOnNow();
      if stepV == 0.0 {
        return Err(ZeroDivision);
      }
      var ln := (maxV / stepV).Floor + 1;
      DisplayString("Looping...");
      var data, failure := SweepLoop(ln, stepV, every, amps, volts);
      if failure.Some? {
        return Err(failure.value);
      }
      r := Finish(IVCurve(rh, temp, data, date, time));
    }

    /** The end of `takeIV`: the display, the stored curve, 0 V and the output off. */
    method Finish(curve: IVCurve) returns (r: Result<IVCurve>)
      modifies this
      ensures r == Ok(curve) && !output && ivdata == old(ivdata) + [curve] && errors == old(errors)
      ensures calls == old(calls) + DisplayCalls("Loop finished.") + [SetVoltage(0.0)] + [OutputOff]
    {
      DisplayString("Loop finished.");
      ivdata := ivdata + [curve];
      Send(SetVoltage(0.0));
      OutputOffNow();
      r := Ok(curve);
    }

    /** `switch_state()`: the trip state read back; 1 is closed, 0 open, anything else raises. */
    method SwitchState(state: int) returns (r: Result<bool>)
      modifies this
      ensures r.Ok? <==> state == 0 || state == 1
      ensures r.Ok? ==> (r.value <==> state == 1)
      ensures r.Err? ==> r.error == ValueError("Unknown HV switch state")
      ensures calls == old(calls) + [Query("OUTPut:ENABle:TRIPped?")]
      ensures output == old(output) && errors == old(errors) && ivdata == old(ivdata)
    {
      Send(Query("OUTPut:ENABle:TRIPped?"));
      if state == 1 {
        return Ok(true);
      } else if state == 0 {
        return Ok(false);
      } else {
        return Err(ValueError("Unknown HV switch state"));
      }
    }

    /**
     * `__del__()`: the output goes off first; pending errors then raise
     * before the beeper, local control and the connection are restored.
     */
    method Release() returns (r: Result<()>)
      modifies this
      ensures !output && ivdata == old(ivdata)
      ensures var d := Drain(old(errors), None);
        && errors == d.rest
        && (d.text != "" ==> r == Err(ValueError(d.text)) && calls == old(calls) + [OutputOff] + Reads(d.count))
        && (d.text == "" ==>
              r == Ok(()) && calls == old(calls) + [OutputOff] + Reads(d.count) + [BeeperOn] + [Local] + [Close])
    {
      OutputOffNow();
      r := CheckForErrors(None);
      if r.Err? {
        return;
      }
      Send(BeeperOn);
      Send(Local);
      Send(Close);
      r := Ok(());
    }
  }
}
