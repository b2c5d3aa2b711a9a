/**
 * The pedestal procedures of a session: `run_pedestals`,
 * `multi_run_pedestals` and `trim_pedestals` start detached scripts on the
 * PC and poll them until they finish, fail or the operator stops them;
 * `restart_services` restarts the servers of the test stand and the DAQ
 * client of the PC.
 */
module Pedestals {
  import opened Wrappers
  import opened Text
  import opened Bench
  import opened Interaction
  import opened Procedures

  // ---------------------------------------------------------------------
  // Scripts and their poll loops
  // ---------------------------------------------------------------------

  /** How the poll loop of one detached script ends. */
  datatype Poll =
    | Finished   // is_finished() returned True: the script exited with code 0
    | Stopped    // the operator pressed Terminate or closed the window first
    | Crashed    // is_finished() raised RuntimeError on a non-zero exit code

  /**
   * What one pedestal run meets: how its poll loop ends, the run path
   * `end_test` returns, the leakage current measured afterwards, and what
   * `make_hexmaps` returns or raises.
   */
  datatype RunWorld = RunWorld(poll: Poll, path: string, current: real, hexmaps: Result<string>)

  /** The scripts started in a stretch of the log, in order. */
  function Started(es: seq<Event>): seq<string> {
    if es == [] then []
    else Started(es[..|es| - 1]) + (if es[|es| - 1].PcStart? then [es[|es| - 1].script] else [])
  }

  lemma {:induction false} StartedConcat(a: seq<Event>, b: seq<Event>)
    ensures Started(a + b) == Started(a) + Started(b)
  {
    if b != [] {
      assert (a + b)[..|a + b| - 1] == a + b[..|b| - 1];
      StartedConcat(a, b[..|b| - 1]);
    } else {
      assert a + b == a;
    }
  }

  /** A stretch of the log in which no script is started. */
  predicate Quiet(es: seq<Event>) {
    forall i :: 0 <= i < |es| ==> !es[i].PcStart?
  }

  lemma {:induction false} QuietStarted(es: seq<Event>)
    requires Quiet(es)
    ensures Started(es) == []
  {
    if es != [] {
      QuietStarted(es[..|es| - 1]);
    }
  }

  /** A script start followed by a quiet stretch starts just that script. */
  lemma StartedFirst(script: string, es: seq<Event>)
    requires Quiet(es)
    ensures Started([PcStart(script)] + es) == [script]
  {
    StartedConcat([PcStart(script)], es);
    QuietStarted(es);
    assert Started([PcStart(script)]) == Started([]) + [script];
  }

  /**
   * One detached script: it is started, polled and closed with `end_test`,
   * which is called also after the operator stopped it. A non-zero exit
   * code escapes as RuntimeError before `end_test`.
   */
  function Supervise(b: Bench, script: string, poll: Poll): (r: Step<Status>)
  {
    var b1 := Emit(b, PcStart(script));
    match poll
    case Crashed => Step(b1, Err(RuntimeError("")))
    case Stopped => Step(Emit(b1, PcEndTest), Ok(TERM))
    case Finished => Step(Emit(b1, PcEndTest), Ok(RUN))
  }

  /** A supervised script ends TERM exactly when it was stopped, and touches nothing but the log. */
  lemma SuperviseOutcome(b: Bench, script: string, poll: Poll)
    ensures var r := Supervise(b, script, poll);
      && r.bench == b.(log := r.bench.log)
      && (r.out.Err? <==> poll == Crashed)
      && (r.out.Ok? ==> (r.out.value == TERM <==> poll == Stopped) && r.out.value in {RUN, TERM})
  {
  }

  /** A supervised script starts exactly that script. */
  lemma SuperviseLog(b: Bench, script: string, poll: Poll) returns (es: seq<Event>)
    ensures Supervise(b, script, poll).bench.log == b.log + es && Started(es) == [script]
  {
    var rest: seq<Event> := if poll == Crashed then [] else [PcEndTest];
    es := [PcStart(script)] + rest;
    StartedFirst(script, rest);
  }

  /**
   * The biasing step of `run_pedestals` and `trim_pedestals`: for a live module with a bias the supply
   * output is switched on (in `run_pedestals` only when it reads off) and
   * the bias is set.
   */
  function BiasOn(b: Bench, bv: Option<string>, ask: bool): (r: Step<()>)
  {
    if !(Get(b.flags, LiveModule) && bv.Some?) then Step(b, Ok(()))
    else if b.gear.supply != Keithley then Step(b, Err(AttributeError))
    else
      var b1 := if ask && b.gear.supplyOutput then b else SetFlag(Output(Emit(b, SupplyOn), true), HVOutputOn, true);
      Step(Emit(b1, SupplyBias(bv.value)), Ok(()))
  }

  /** The measurement step of `run_pedestals` and `trim_pedestals`: the leakage current after the run, for a live module with a bias. */
  function Measure(b: Bench, bv: Option<string>, current: real): Bench {
    if Get(b.flags, LiveModule) && bv.Some? then Emit(b, SupplyMeasure).(data := b.data.(leakage := Some(current)))
    else b
  }

  /**
   * Biasing changes only the HV output flag, which ends raised when a live
   * module is biased, the supply output, and the log, which gains no script.
   */
  lemma BiasOnOutcome(b: Bench, bv: Option<string>, ask: bool)
    ensures var r := BiasOn(b, bv, ask);
      && (r.out.Err? <==> Get(b.flags, LiveModule) && bv.Some? && b.gear.supply != Keithley)
      && r.bench.setup == b.setup && r.bench.data == b.data
      && r.bench.gear == b.gear.(supplyOutput := r.bench.gear.supplyOutput)
      && (forall f :: f != HVOutputOn ==> Get(r.bench.flags, f) == Get(b.flags, f))
      && (r.out.Ok? && Get(b.flags, LiveModule) && bv.Some? ==>
            && r.bench.gear.supplyOutput
            && (!ask || !b.gear.supplyOutput ==> Get(r.bench.flags, HVOutputOn)))
      && (!(Get(b.flags, LiveModule) && bv.Some?) ==> r.bench == b)
  {
  }

  /** Biasing starts no script. */
  lemma BiasOnLog(b: Bench, bv: Option<string>, ask: bool) returns (es: seq<Event>)
    ensures BiasOn(b, bv, ask).bench.log == b.log + es && Quiet(es)
  {
    if Get(b.flags, LiveModule) && bv.Some? && b.gear.supply == Keithley {
      if ask && b.gear.supplyOutput {
        es := [SupplyBias(bv.value)];
      } else {
        es := [SupplyOn, Set(HVOutputOn, true), SupplyBias(bv.value)];
      }
    } else {
      es := [];
    }
  }

  // ---------------------------------------------------------------------
  // run_pedestals
  // ---------------------------------------------------------------------

  /** `trimmed`: the trim mark as the run tag spells it. */
  function TrimTag(t: Option<Trim>): string {
    match t
    case None => "untrimmed"
    case Some(TrimmedUnbiased) => "trimmed"
    case Some(TrimmedAt(bias)) => "trimmed" + bias
  }

  /** A trim mark is a real bias when it names one. */
  predicate NamedBias(t: Option<Trim>) {
    t.Some? && t.value.TrimmedAt? ==> t.value.bias != ""
  }

  /** Different trim marks are spelled differently, as long as no bias is the empty string. */
  lemma TrimTagInjective(s: Option<Trim>, t: Option<Trim>)
    requires NamedBias(s) && NamedBias(t)
    requires TrimTag(s) == TrimTag(t)
    ensures s == t
  {
    assert TrimTag(s)[0] == TrimTag(t)[0];
    if s.Some? && t.Some? && s.value.TrimmedAt? && t.value.TrimmedAt? {
      assert s.value.bias == TrimTag(s)[7..] && t.value.bias == TrimTag(t)[7..];
    }
  }

  /**
   * `testtag`: with a bias, the bias, humidity, temperature and trim mark of
   * the run; without one, only the trim mark. Reading the humidity or
   * temperature entry raises KeyError when it was never recorded.
   */
  function TestTag(bv: Option<string>, data: Readings): Result<string>
  {
    if bv.None? then Ok(TrimTag(data.trimmed))
    else if data.rh.None? then Err(KeyError("-Box-RH-"))
    else if data.temp.None? then Err(KeyError("-Box-T-"))
    else Ok("BV" + bv.value + "_" + "RH" + data.rh.value + "_T" + data.temp.value + "_" + TrimTag(data.trimmed))
  }

  /**
   * A tag fails only for a biased run missing a reading, with the KeyError
   * of that reading; every tag ends with the trim mark, and a biased tag
   * starts with `BV`, the bias and `_`.
   */
  lemma TestTagShape(bv: Option<string>, data: Readings)
    ensures var r := TestTag(bv, data);
      && (r.Err? <==> bv.Some? && (data.rh.None? || data.temp.None?))
      && (r.Err? ==> r.error in {KeyError("-Box-RH-"), KeyError("-Box-T-")})
      && (r.Ok? ==> EndsWith(r.value, TrimTag(data.trimmed)))
      && (r.Ok? && bv.Some? ==> StartsWith(r.value, "BV" + bv.value + "_"))
  {
    if bv.Some? && data.rh.Some? && data.temp.Some? {
      var head := "BV" + bv.value + "_";
      var tag := head + "RH" + data.rh.value + "_T" + data.temp.value + "_" + TrimTag(data.trimmed);
      assert tag[..|head|] == head;
      assert tag[|tag| - |TrimTag(data.trimmed)|..] == TrimTag(data.trimmed);
    }
  }

  /** The bias a run tag names: the text between the leading `BV` and the next `_`. */
  function TagBias(tag: string): Option<string> {
    if StartsWith(tag, "BV") && '_' in tag[2..] then Some(tag[2..][..IndexOf(tag[2..], '_')]) else None
  }

  /**
   * The bias can be read back from the tag of the renamed run directory:
   * a biased run's tag names its bias, an unbiased run's tag names none.
   */
  lemma TestTagBias(bv: Option<string>, data: Readings)
    requires bv.Some? ==> '_' !in bv.value
    requires TestTag(bv, data).Ok?
    ensures TagBias(TestTag(bv, data).value) == bv
  {
    if bv.Some? {
      var tail := "RH" + data.rh.value + "_T" + data.temp.value + "_" + TrimTag(data.trimmed);
      assert TestTag(bv, data).value == "BV" + bv.value + "_" + tail by {
        AppendAssoc("BV" + bv.value + "_", "RH" + data.rh.value + "_T" + data.temp.value + "_", TrimTag(data.trimmed));
      }
      BiasedTagBias(bv.value, tail);
    } else {
      assert TestTag(bv, data).value[0] != 'B';
    }
  }

  /** The bias in front of the first `_` of a biased tag is read back. */
  lemma BiasedTagBias(bias: string, tail: string)
    requires '_' !in bias
    ensures TagBias("BV" + bias + "_" + tail) == Some(bias)
  {
    var tag := "BV" + bias + "_" + tail;
    assert tag[2..] == bias + ['_'] + tail;
    IndexOfAfter(bias, '_', tail);
    assert tag[2..][..|bias|] == bias;
  }

  /**
   * The end of `run_pedestals`, once the PC script has been supervised: measure, tag
   * and rename the run, and make the hexmap plots of a completed run.
   */
  function FinishRun(b: Bench, bv: Option<string>, w: RunWorld, status: Status): (r: Step<(string, Status)>)
  {
    var b1 := Measure(b, bv, w.current);
    match TestTag(bv, b1.data)
    case Err(e) => Step(b1, Err(e))
    case Ok(tag) =>
      var b2 := Emit(b1, RenameRun(w.path, w.path + "_" + tag));
      if status != CONT then Step(b2, Ok(("", status)))
      else
        match w.hexmaps
        case Err(e) => Step(Emit(b2, PcHexmaps(tag)), Err(e))
        case Ok(hexpath) => Step(Emit(b2, PcHexmaps(tag)), Ok((hexpath, CONT)))
  }

  /**
   * `run_pedestals(state, BV)`: in debug mode nothing happens and the
   * status stays `'RUN'`; otherwise the module is biased, `pedestal_run`
   * is supervised, and the run is finished with `'CONT'` or, after a stop,
   * `'TERM'`.
   */
  function RunPedestalsStep(b: Bench, bv: Option<string>, w: RunWorld): (r: Step<(string, Status)>)
  {
    if Get(b.flags, DebugMode) then Step(b, Ok(("", RUN)))
    else
      var s0 := BiasOn(b, bv, true);
      if s0.out.Err? then Step(s0.bench, Err(s0.out.error)) else PedestalRun(s0.bench, bv, w)
  }

  /** `run_pedestals` after biasing: `pedestal_run` is supervised and the run finished. */
  function PedestalRun(b: Bench, bv: Option<string>, w: RunWorld): (r: Step<(string, Status)>)
  {
    if !b.gear.pc then Step(b, Err(AttributeError))
    else
      var s1 := Supervise(b, "pedestal_run", w.poll);
      if s1.out.Err? then Step(s1.bench, Err(s1.out.error))
      else FinishRun(s1.bench, bv, w, if s1.out.value == RUN then CONT else TERM)
  }

  lemma FinishRunOutcome(b: Bench, bv: Option<string>, w: RunWorld, status: Status)
    requires status in {CONT, TERM}
    requires Get(b.flags, LiveModule) && bv.Some? ==> b.gear.supply == Keithley
    ensures var r := FinishRun(b, bv, w, status);
      && r.bench.flags == b.flags && r.bench.setup == b.setup && r.bench.gear == b.gear
      && r.bench.data == b.data.(leakage := r.bench.data.leakage)
      && (Get(b.flags, LiveModule) && bv.Some? ==> r.bench.data.leakage == Some(w.current))
      && (!(Get(b.flags, LiveModule) && bv.Some?) ==> r.bench.data.leakage == b.data.leakage)
      && (r.out.Ok? ==> r.out.value.1 == status && (status == TERM ==> r.out.value.0 == ""))
      && (r.out.Ok? && status == CONT ==> r.out.value.0 == w.hexmaps.value)
  {
  }

  /** Finishing a run starts no script. */
  lemma FinishRunLog(b: Bench, bv: Option<string>, w: RunWorld, status: Status) returns (es: seq<Event>)
    ensures FinishRun(b, bv, w, status).bench.log == b.log + es && Quiet(es)
  {
    var b1 := Measure(b, bv, w.current);
    var m: seq<Event> := if Get(b.flags, LiveModule) && bv.Some? then [SupplyMeasure] else [];
    assert b1.log == b.log + m;
    match TestTag(bv, b1.data)
    case Err(_) =>
      es := m;
    case Ok(tag) =>
      var rn := RenameRun(w.path, w.path + "_" + tag);
      if status != CONT {
        es := m + [rn];
      } else {
        es := m + [rn, PcHexmaps(tag)];
      }
  }

  /** The supervised part of a pedestal run: the same as `RunPedestalsOutcome` with the module biased. */
  lemma PedestalRunOutcome(b: Bench, bv: Option<string>, w: RunWorld)
    requires Get(b.flags, LiveModule) && bv.Some? ==> b.gear.supply == Keithley
    ensures var r := PedestalRun(b, bv, w);
      && r.bench.flags == b.flags && r.bench.setup == b.setup && r.bench.data.trimmed == b.data.trimmed
      && (r.out.Ok? ==>
            && (r.out.value.1 == CONT <==> w.poll == Finished)
            && (r.out.value.1 == TERM <==> w.poll == Stopped)
            && (r.out.value.1 == TERM ==> r.out.value.0 == "")
            && (r.out.value.1 == CONT ==> r.out.value.0 == w.hexmaps.value)
            && (Get(b.flags, LiveModule) && bv.Some? ==> r.bench.data.leakage == Some(w.current)))
      && (w.poll == Crashed ==> r.out.Err?)
  {
    if b.gear.pc {
      var s1 := Supervise(b, "pedestal_run", w.poll);
      SuperviseOutcome(b, "pedestal_run", w.poll);
      if s1.out.Ok? {
        FinishRunOutcome(s1.bench, bv, w, if s1.out.value == RUN then CONT else TERM);
      }
    }
  }

  /**
   * Outside debug mode a pedestal run returns `'CONT'` exactly when its
   * script completed and `'TERM'` exactly when the operator stopped it; a
   * stopped run returns no hexmap path. Only the HV output flag can change,
   * and it ends raised when a live module was biased with the output off.
   */
  lemma RunPedestalsOutcome(b: Bench, bv: Option<string>, w: RunWorld)
    requires !Get(b.flags, DebugMode)
    ensures var r := RunPedestalsStep(b, bv, w);
      && (forall f :: f != HVOutputOn ==> Get(r.bench.flags, f) == Get(b.flags, f))
      && r.bench.setup == b.setup && r.bench.data.trimmed == b.data.trimmed
      && (r.out.Ok? ==>
            && (r.out.value.1 == CONT <==> w.poll == Finished)
            && (r.out.value.1 == TERM <==> w.poll == Stopped)
            && (r.out.value.1 == TERM ==> r.out.value.0 == "")
            && (r.out.value.1 == CONT ==> r.out.value.0 == w.hexmaps.value)
            && (Get(b.flags, LiveModule) && bv.Some? ==>
                  r.bench.data.leakage == Some(w.current) && (!b.gear.supplyOutput ==> Get(r.bench.flags, HVOutputOn))))
      && (w.poll == Crashed ==> r.out.Err?)
  {
    var s0 := BiasOn(b, bv, true);
    BiasOnOutcome(b, bv, true);
    if s0.out.Ok? {
      PedestalRunOutcome(s0.bench, bv, w);
    }
  }

  /** The supervised part of a pedestal run starts exactly `pedestal_run`. */
  lemma PedestalRunLog(b: Bench, bv: Option<string>, w: RunWorld) returns (es: seq<Event>)
    ensures var r := PedestalRun(b, bv, w);
      r.bench.log == b.log + es && (r.out.Ok? ==> Started(es) == ["pedestal_run"])
  {
    if !b.gear.pc {
      es := [];
      return;
    }
    var s1 := Supervise(b, "pedestal_run", w.poll);
    var e1 := SuperviseLog(b, "pedestal_run", w.poll);
    if s1.out.Err? {
      es := e1;
      return;
    }
    var st := if s1.out.value == RUN then CONT else TERM;
    var r := FinishRun(s1.bench, bv, w, st);
    assert PedestalRun(b, bv, w) == r;
    var e2 := FinishRunLog(s1.bench, bv, w, st);
    QuietStarted(e2);
    Glue(b.log, s1.bench.log, r.bench.log, e1, e2);
    es := e1 + e2;
  }

  /** Outside debug mode a pedestal run that returns has started exactly one script, `pedestal_run`. */
  lemma RunPedestalsLog(b: Bench, bv: Option<string>, w: RunWorld) returns (es: seq<Event>)
    requires !Get(b.flags, DebugMode)
    ensures var r := RunPedestalsStep(b, bv, w);
      r.bench.log == b.log + es && (r.out.Ok? ==> Started(es) == ["pedestal_run"])
  {
    var s0 := BiasOn(b, bv, true);
    es := BiasOnLog(b, bv, true);
    if s0.out.Err? {
      return;
    }
    var r := PedestalRun(s0.bench, bv, w);
    assert RunPedestalsStep(b, bv, w) == r;
    var e1 := PedestalRunLog(s0.bench, bv, w);
    QuietStarted(es);
    Glue(b.log, s0.bench.log, r.bench.log, es, e1);
    es := es + e1;
  }

  /** In debug mode a pedestal run changes nothing and leaves the status at `'RUN'`. */
  lemma RunPedestalsDebug(b: Bench, bv: Option<string>, w: RunWorld)
    requires Get(b.flags, DebugMode)
    ensures RunPedestalsStep(b, bv, w) == Step(b, Ok(("", RUN)))
  {
  }

  // ---------------------------------------------------------------------
  // multi_run_pedestals
  // ---------------------------------------------------------------------

  /** The loop of `multi_run_pedestals`: the runs from `bvs[i]` on, stopping after the first that fails or does not return `'CONT'`. */
  function RunsFrom(b: Bench, bvs: seq<Option<string>>, w: nat -> RunWorld, i: nat): (r: Step<(string, Status)>)
    requires i < |bvs|
    decreases |bvs| - i
  {
    var s := RunPedestalsStep(b, bvs[i], w(i));
    if s.out.Err? || s.out.value.1 != CONT || i + 1 == |bvs| then s
    else RunsFrom(s.bench, bvs, w, i + 1)
  }

  /**
   * `multi_run_pedestals(state, BV_list)`: a pedestal run per bias, then
   * the two summary plots of the last run are opened when it made any. An
   * empty list never binds `status`, so returning it raises.
   */
  function MultiRunStep(b: Bench, bvs: seq<Option<string>>, w: nat -> RunWorld): (r: Step<Status>)
  {
    if bvs == [] then Step(b, Err(UnboundLocal("status")))
    else
      var s := RunsFrom(b, bvs, w, 0);
      if s.out.Err? then Step(s.bench, Err(s.out.error))
      else
        var hexpath := s.out.value.0;
        var b1 := if !Get(s.bench.flags, DebugMode) && hexpath != "" then
          Emit(Emit(s.bench, OpenPlots(hexpath + "_adc_mean.png")), OpenPlots(hexpath + "_adc_stdd.png"))
        else s.bench;
        Step(b1, Ok(s.out.value.1))
  }

  /** The run where the loop from `i` stops when nothing fails: the first not completed, or the last. */
  function StopAt(w: nat -> RunWorld, i: nat, n: nat): (k: nat)
    requires i < n
    ensures i <= k < n
    ensures forall j :: i <= j < k ==> w(j).poll == Finished
    ensures k + 1 < n ==> w(k).poll != Finished
    decreases n - i
  {
    if w(i).poll != Finished || i + 1 == n then i else StopAt(w, i + 1, n)
  }

  /** `n` starts of `pedestal_run`. */
  function PedestalStarts(n: nat): (s: seq<string>)
    ensures |s| == n && forall j :: 0 <= j < n ==> s[j] == "pedestal_run"
  {
    if n == 0 then [] else ["pedestal_run"] + PedestalStarts(n - 1)
  }

  /**
   * Outside debug mode the runs from `i` on return `'CONT'` exactly when
   * the run where the loop stops completed, and otherwise `'TERM'` with no
   * hexmap path; the debug flag stays down.
   */
  lemma {:induction false} RunsFromStatus(b: Bench, bvs: seq<Option<string>>, w: nat -> RunWorld, i: nat)
    requires i < |bvs| && !Get(b.flags, DebugMode)
    ensures var r := RunsFrom(b, bvs, w, i);
      && !Get(r.bench.flags, DebugMode)
      && (r.out.Ok? ==>
            && r.out.value.1 in {CONT, TERM}
            && (r.out.value.1 == CONT <==> w(StopAt(w, i, |bvs|)).poll == Finished)
            && (r.out.value.1 == TERM ==> r.out.value.0 == ""))
    decreases |bvs| - i
  {
    var s := RunPedestalsStep(b, bvs[i], w(i));
    RunPedestalsOutcome(b, bvs[i], w(i));
    if !(s.out.Err? || s.out.value.1 != CONT || i + 1 == |bvs|) {
      RunsFromStatus(s.bench, bvs, w, i + 1);
    }
  }

  /**
   * Outside debug mode the runs from `i` start `pedestal_run` once for every
   * bias up to and including the run where the loop stops.
   */
  lemma {:induction false} RunsFromLog(b: Bench, bvs: seq<Option<string>>, w: nat -> RunWorld, i: nat)
    returns (es: seq<Event>)
    requires i < |bvs| && !Get(b.flags, DebugMode)
    ensures var r := RunsFrom(b, bvs, w, i);
      && r.bench.log == b.log + es
      && (r.out.Ok? ==> Started(es) == PedestalStarts(StopAt(w, i, |bvs|) - i + 1))
    decreases |bvs| - i
  {
    var s := RunPedestalsStep(b, bvs[i], w(i));
    var e0 := RunPedestalsLog(b, bvs[i], w(i));
    if !(s.out.Err? || s.out.value.1 != CONT || i + 1 == |bvs|) {
      var b1 := ContinuedBench(b, bvs[i], w(i));
      var e1 := RunsFromLog(b1, bvs, w, i + 1);
      es := RunsFromLogNext(b, bvs, w, i, s, e0, e1);
    } else {
      es := e0;
      RunsFromLogLast(b, bvs, w, i, e0);
    }
  }

  /** `RunsFromLog` when the run `s` at `i` continues the loop: its start comes before those of the rest. */
  lemma RunsFromLogNext(b: Bench, bvs: seq<Option<string>>, w: nat -> RunWorld, i: nat, s: Step<(string, Status)>,
                        e0: seq<Event>, e1: seq<Event>)
    returns (es: seq<Event>)
    requires i + 1 < |bvs| && s == RunPedestalsStep(b, bvs[i], w(i))
    requires s.out.Ok? && s.out.value.1 == CONT && w(i).poll == Finished
    requires s.bench.log == b.log + e0 && Started(e0) == ["pedestal_run"]
    requires RunsFrom(s.bench, bvs, w, i + 1).bench.log == s.bench.log + e1
    requires RunsFrom(s.bench, bvs, w, i + 1).out.Ok? ==> Started(e1) == PedestalStarts(StopAt(w, i + 1, |bvs|) - i)
    ensures var r := RunsFrom(b, bvs, w, i);
      && r.bench.log == b.log + es
      && (r.out.Ok? ==> Started(es) == PedestalStarts(StopAt(w, i, |bvs|) - i + 1))
  {
    var r := RunsFrom(s.bench, bvs, w, i + 1);
    RunsFromNext(b, bvs, w, i);
    var n := StopAt(w, i + 1, |bvs|) - i;
    StopAtNext(w, i, |bvs|);
    OneMoreStart(b.log, s.bench.log, r.bench.log, e0, e1, r.out.Ok?, n);
    es := e0 + e1;
  }

  /** The runs from `i` after a run that returns `'CONT'` before the last bias are the runs from `i + 1`. */
  lemma RunsFromNext(b: Bench, bvs: seq<Option<string>>, w: nat -> RunWorld, i: nat)
    requires i + 1 < |bvs|
    requires RunPedestalsStep(b, bvs[i], w(i)).out.Ok? && RunPedestalsStep(b, bvs[i], w(i)).out.value.1 == CONT
    ensures RunsFrom(b, bvs, w, i) == RunsFrom(RunPedestalsStep(b, bvs[i], w(i)).bench, bvs, w, i + 1)
  {
  }

  /** The loop does not stop at a run that completed before the last one. */
  lemma StopAtNext(w: nat -> RunWorld, i: nat, n: nat)
    requires i + 1 < n && w(i).poll == Finished
    ensures StopAt(w, i, n) == StopAt(w, i + 1, n)
  {
  }

  /** `RunsFromLog` when the loop ends at the run at `i`: that run's start is the only one. */
  lemma RunsFromLogLast(b: Bench, bvs: seq<Option<string>>, w: nat -> RunWorld, i: nat, e0: seq<Event>)
    requires i < |bvs| && !Get(b.flags, DebugMode)
    requires var s := RunPedestalsStep(b, bvs[i], w(i));
      && (s.out.Err? || s.out.value.1 != CONT || i + 1 == |bvs|)
      && s.bench.log == b.log + e0 && (s.out.Ok? ==> Started(e0) == ["pedestal_run"])
    ensures var r := RunsFrom(b, bvs, w, i);
      && r.bench.log == b.log + e0
      && (r.out.Ok? ==> Started(e0) == PedestalStarts(StopAt(w, i, |bvs|) - i + 1))
  {
    var s := RunPedestalsStep(b, bvs[i], w(i));
    assert RunsFrom(b, bvs, w, i) == s;
    assert s.out.Ok? ==> StopAt(w, i, |bvs|) == i by {
      if s.out.Ok? && i + 1 < |bvs| {
        RunPedestalsContinuesOrStops(b, bvs[i], w(i));
      }
    }
  }

  /** The bench after a run that continues the loop, which is still out of debug mode. */
  lemma ContinuedBench(b: Bench, bv: Option<string>, w: RunWorld) returns (b1: Bench)
    requires !Get(b.flags, DebugMode)
    requires RunPedestalsStep(b, bv, w).out.Ok? && RunPedestalsStep(b, bv, w).out.value.1 == CONT
    ensures b1 == RunPedestalsStep(b, bv, w).bench && !Get(b1.flags, DebugMode) && w.poll == Finished
  {
    RunPedestalsContinues(b, bv, w);
    b1 := RunPedestalsStep(b, bv, w).bench;
  }

  /** A run that returns `'CONT'` outside debug mode completed its script and left debug mode off. */
  lemma RunPedestalsContinues(b: Bench, bv: Option<string>, w: RunWorld)
    requires !Get(b.flags, DebugMode)
    requires RunPedestalsStep(b, bv, w).out.Ok? && RunPedestalsStep(b, bv, w).out.value.1 == CONT
    ensures w.poll == Finished && !Get(RunPedestalsStep(b, bv, w).bench.flags, DebugMode)
  {
    RunPedestalsOutcome(b, bv, w);
  }

  /** A run that ends the loop without an error stopped on a world whose run did not finish, or on the last one. */
  lemma RunPedestalsContinuesOrStops(b: Bench, bv: Option<string>, w: RunWorld)
    requires !Get(b.flags, DebugMode)
    requires RunPedestalsStep(b, bv, w).out.Ok? && RunPedestalsStep(b, bv, w).out.value.1 != CONT
    ensures w.poll != Finished
  {
    RunPedestalsOutcome(b, bv, w);
  }

  /** Gluing one pedestal run before the rest of the loop. */
  lemma OneMoreStart(l0: seq<Event>, l1: seq<Event>, l2: seq<Event>, e0: seq<Event>, e1: seq<Event>, ok: bool, n: nat)
    requires l1 == l0 + e0 && l2 == l1 + e1
    requires Started(e0) == ["pedestal_run"]
    requires ok ==> Started(e1) == PedestalStarts(n)
    ensures l2 == l0 + (e0 + e1)
    ensures ok ==> Started(e0 + e1) == PedestalStarts(n + 1)
  {
    StartedConcat(e0, e1);
  }

  /**
   * The outcome of `multi_run_pedestals`: an empty list raises
   * UnboundLocalError and changes nothing; in debug mode the first run
   * returns `'RUN'`, which ends the loop with nothing done; otherwise the
   * runs before the one where the loop stops all completed, the result is
   * `'CONT'` exactly when that run completed too, and a loop that stops
   * before the last bias returns `'TERM'`.
   */
  lemma MultiRunOutcome(b: Bench, bvs: seq<Option<string>>, w: nat -> RunWorld)
    ensures var r := MultiRunStep(b, bvs, w);
      && (bvs == [] ==> r == Step(b, Err(UnboundLocal("status"))))
      && (bvs != [] && Get(b.flags, DebugMode) ==> r == Step(b, Ok(RUN)))
      && (bvs != [] && !Get(b.flags, DebugMode) && r.out.Ok? ==>
            var k := StopAt(w, 0, |bvs|);
            && r.out.value in {CONT, TERM}
            && (r.out.value == CONT <==> w(k).poll == Finished)
            && (forall j :: 0 <= j < k ==> w(j).poll == Finished)
            && (k + 1 < |bvs| ==> r.out.value == TERM))
  {
    if bvs != [] && !Get(b.flags, DebugMode) {
      RunsFromStatus(b, bvs, w, 0);
    }
  }

  /**
   * Outside debug mode `multi_run_pedestals` starts `pedestal_run` once
   * for every bias up to the run where the loop stops, and then opens the
   * mean and then the noise plot of that run when it made any; a run that
   * was stopped made none.
   */
  lemma MultiRunLog(b: Bench, bvs: seq<Option<string>>, w: nat -> RunWorld) returns (es: seq<Event>)
    requires bvs != [] && !Get(b.flags, DebugMode)
    ensures var s := RunsFrom(b, bvs, w, 0);
      var r := MultiRunStep(b, bvs, w);
      && r.bench.log == b.log + es
      && (r.out.Ok? ==>
            var hexpath := s.out.value.0;
            && Started(es) == PedestalStarts(StopAt(w, 0, |bvs|) + 1)
            && (r.out.value == TERM ==> hexpath == "")
            && (hexpath != "" ==> r.bench.log == s.bench.log + [OpenPlots(hexpath + "_adc_mean.png"), OpenPlots(hexpath + "_adc_stdd.png")])
            && (hexpath == "" ==> r.bench == s.bench))
  {
    var s := RunsFrom(b, bvs, w, 0);
    RunsFromStatus(b, bvs, w, 0);
    es := RunsFromLog(b, bvs, w, 0);
    if s.out.Err? || s.out.value.0 == "" {
      return;
    }
    var hexpath := s.out.value.0;
    var e1 := [OpenPlots(hexpath + "_adc_mean.png"), OpenPlots(hexpath + "_adc_stdd.png")];
    var r := MultiRunStep(b, bvs, w);
    assert r.bench.log == s.bench.log + e1;
    QuietStarted(e1);
    Glue(b.log, s.bench.log, r.bench.log, es, e1);
    es := es + e1;
  }

  // ---------------------------------------------------------------------
  // trim_pedestals
  // ---------------------------------------------------------------------

  /** The trimming scripts, in the order `trim_pedestals` runs them. */
  const TrimScripts: seq<string> := ["pedestal_run", "pedestal_scan", "vrefnoinv_scan", "vrefinv_scan"]

  /** The script sequence of `trim_pedestals`: the trimming scripts from `TrimScripts[i]` on, each only while the status is still `'RUN'`. */
  function TrimScriptsFrom(b: Bench, polls: nat -> Poll, i: nat): (r: Step<Status>)
    requires i <= |TrimScripts|
    decreases |TrimScripts| - i
  {
    if i == |TrimScripts| then Step(b, Ok(RUN))
    else
      var s := Supervise(b, TrimScripts[i], polls(i));
      if s.out.Err? || s.out.value == TERM then s else TrimScriptsFrom(s.bench, polls, i + 1)
  }

  /** How many trimming scripts are started from `i` on: up to and including the first that does not complete. */
  function Reached(polls: nat -> Poll, i: nat): (k: nat)
    requires i <= |TrimScripts|
    ensures i <= k <= |TrimScripts|
    ensures forall j :: i <= j < k - 1 ==> polls(j) == Finished
    ensures k < |TrimScripts| ==> k > i && polls(k - 1) != Finished
    decreases |TrimScripts| - i
  {
    if i == |TrimScripts| then i
    else if polls(i) != Finished then i + 1
    else Reached(polls, i + 1)
  }

  /** Every run of a script completed. */
  predicate AllFinished(polls: nat -> Poll, i: nat) {
    forall j :: i <= j < |TrimScripts| ==> polls(j) == Finished
  }

  /**
   * Supervising the trimming scripts changes nothing but the log; the
   * status stays `'RUN'` exactly when all of them completed, and is
   * otherwise `'TERM'`.
   */
  lemma {:induction false} TrimScriptsOutcome(b: Bench, polls: nat -> Poll, i: nat)
    requires i <= |TrimScripts|
    ensures var r := TrimScriptsFrom(b, polls, i);
      && r.bench == b.(log := r.bench.log)
      && (r.out.Ok? ==> r.out.value in {RUN, TERM} && (r.out.value == RUN <==> AllFinished(polls, i)))
    decreases |TrimScripts| - i
  {
    if i < |TrimScripts| {
      var s := Supervise(b, TrimScripts[i], polls(i));
      SuperviseOutcome(b, TrimScripts[i], polls(i));
      if !(s.out.Err? || s.out.value == TERM) {
        TrimScriptsOutcome(s.bench, polls, i + 1);
      }
    }
  }

  /**
   * The trimming scripts are started in their order, as a prefix that ends
   * with the first one that does not complete.
   */
  lemma {:induction false} TrimScriptsLog(b: Bench, polls: nat -> Poll, i: nat) returns (es: seq<Event>)
    requires i <= |TrimScripts|
    ensures var r := TrimScriptsFrom(b, polls, i);
      && r.bench.log == b.log + es
      && (r.out.Ok? ==> Started(es) == TrimScripts[i..Reached(polls, i)])
    decreases |TrimScripts| - i
  {
    if i == |TrimScripts| {
      es := [];
      return;
    }
    var s := Supervise(b, TrimScripts[i], polls(i));
    es := SuperviseLog(b, TrimScripts[i], polls(i));
    if s.out.Err? || s.out.value == TERM {
      return;
    }
    var e1 := TrimScriptsLog(s.bench, polls, i + 1);
    es := TrimScriptsLogNext(b, polls, i, s, es, e1);
  }

  /** `TrimScriptsLog` when the script `s` at `i` completed: its start comes before those of the rest. */
  lemma TrimScriptsLogNext(b: Bench, polls: nat -> Poll, i: nat, s: Step<Status>, e0: seq<Event>, e1: seq<Event>)
    returns (es: seq<Event>)
    requires i < |TrimScripts| && s == Supervise(b, TrimScripts[i], polls(i))
    requires s.out.Ok? && s.out.value != TERM
    requires s.bench.log == b.log + e0 && Started(e0) == [TrimScripts[i]]
    requires TrimScriptsFrom(s.bench, polls, i + 1).bench.log == s.bench.log + e1
    requires TrimScriptsFrom(s.bench, polls, i + 1).out.Ok? ==> Started(e1) == TrimScripts[i + 1..Reached(polls, i + 1)]
    ensures var r := TrimScriptsFrom(b, polls, i);
      && r.bench.log == b.log + es
      && (r.out.Ok? ==> Started(es) == TrimScripts[i..Reached(polls, i)])
  {
    var r := TrimScriptsFrom(s.bench, polls, i + 1);
    assert TrimScriptsFrom(b, polls, i) == r;
    Glue(b.log, s.bench.log, r.bench.log, e0, e1);
    SuperviseOutcome(b, TrimScripts[i], polls(i));
    ReachedNext(polls, i);
    SliceCons(TrimScripts, i, Reached(polls, i));
    es := e0 + e1;
  }

  /** The scripts reached from `i` after one that completed are those reached from `i + 1`. */
  lemma ReachedNext(polls: nat -> Poll, i: nat)
    requires i < |TrimScripts| && polls(i) == Finished
    ensures Reached(polls, i) == Reached(polls, i + 1) && i < Reached(polls, i)
  {
  }

  lemma SliceCons(xs: seq<string>, i: nat, k: nat)
    requires i < k <= |xs|
    ensures xs[i..k] == [xs[i]] + xs[i + 1..k]
  {
  }

  /** The trim mark for a bias: True without one, else the bias. */
  function TrimMark(bv: Option<string>): Trim {
    if bv.None? then TrimmedUnbiased else TrimmedAt(bv.value)
  }

  /**
   * `trim_pedestals(state, BV)`: in debug mode nothing happens and the
   * status stays `'RUN'`; otherwise the module is biased, the trimming
   * scripts are supervised, and unless the operator stopped one the
   * pedestals are marked trimmed.
   */
  function TrimStep(b: Bench, bv: Option<string>, polls: nat -> Poll, current: real): (r: Step<Status>)
  {
    if Get(b.flags, DebugMode) then Step(b, Ok(RUN))
    else
      var s0 := BiasOn(b, bv, false);
      if s0.out.Err? then Step(s0.bench, Err(s0.out.error)) else Trimming(s0.bench, bv, polls, current)
  }

  /** `trim_pedestals` after biasing: the scripts are supervised and, unless one was stopped, the pedestals marked trimmed. */
  function Trimming(b: Bench, bv: Option<string>, polls: nat -> Poll, current: real): (r: Step<Status>)
  {
    if !b.gear.pc then Step(b, Err(AttributeError))
    else
      var s1 := TrimScriptsFrom(b, polls, 0);
      if s1.out.Err? then Step(s1.bench, Err(s1.out.error))
      else if s1.out.value == TERM then Step(s1.bench, Ok(TERM))
      else MarkTrimmed(s1.bench, bv, current)
  }

  /** The end of `trim_pedestals`: the leakage current for a biased live module, then the trim mark. */
  function MarkTrimmed(b: Bench, bv: Option<string>, current: real): (r: Step<Status>)
  {
    var b2 := Measure(b, bv, current);
    Step(b2.(data := b2.data.(trimmed := Some(TrimMark(bv)))), Ok(CONT))
  }

  /**
   * The outcome of `trim_pedestals` outside debug mode: the status is
   * `'CONT'` exactly when all four scripts completed and `'TERM'`
   * otherwise; the pedestals are marked trimmed, with the bias used,
   * exactly when the status is not `'TERM'`, and the mark is left alone
   * otherwise; only the HV output flag can change, ending raised for a
   * biased live module.
   */
  lemma TrimOutcome(b: Bench, bv: Option<string>, polls: nat -> Poll, current: real)
    requires !Get(b.flags, DebugMode)
    ensures var r := TrimStep(b, bv, polls, current);
      && (forall f :: f != HVOutputOn ==> Get(r.bench.flags, f) == Get(b.flags, f))
      && r.bench.setup == b.setup
      && (r.out.Ok? ==>
            && r.out.value in {CONT, TERM}
            && (r.out.value == CONT <==> AllFinished(polls, 0))
            && (r.out.value != TERM ==> r.bench.data.trimmed == Some(TrimMark(bv)))
            && (r.out.value == TERM ==> r.bench.data.trimmed == b.data.trimmed)
            && (Get(b.flags, LiveModule) && bv.Some? ==> Get(r.bench.flags, HVOutputOn)))
  {
    var s0 := BiasOn(b, bv, false);
    BiasOnOutcome(b, bv, false);
    if s0.out.Ok? && s0.bench.gear.pc {
      TrimScriptsOutcome(s0.bench, polls, 0);
    }
  }

  /** Two stretches of the log one after the other. */
  lemma Glue(l0: seq<Event>, l1: seq<Event>, l2: seq<Event>, e0: seq<Event>, e1: seq<Event>)
    requires l1 == l0 + e0 && l2 == l1 + e1
    ensures l2 == l0 + (e0 + e1)
    ensures Started(e0 + e1) == Started(e0) + Started(e1)
  {
    StartedConcat(e0, e1);
  }

  /** Marking the pedestals trimmed starts no script. */
  lemma MarkTrimmedLog(b: Bench, bv: Option<string>, current: real) returns (es: seq<Event>)
    ensures MarkTrimmed(b, bv, current).bench.log == b.log + es && Started(es) == []
  {
    es := if Get(b.flags, LiveModule) && bv.Some? then [SupplyMeasure] else [];
    QuietStarted(es);
  }

  lemma TrimmingLog(b: Bench, bv: Option<string>, polls: nat -> Poll, current: real) returns (es: seq<Event>)
    ensures var r := Trimming(b, bv, polls, current);
      && r.bench.log == b.log + es
      && (r.out.Ok? ==> Started(es) == TrimScripts[..Reached(polls, 0)])
  {
    if !b.gear.pc {
      es := [];
      return;
    }
    var s1 := TrimScriptsFrom(b, polls, 0);
    var e1 := TrimScriptsLog(b, polls, 0);
    if s1.out.Err? || s1.out.value == TERM {
      es := e1;
      return;
    }
    var r := MarkTrimmed(s1.bench, bv, current);
    assert Trimming(b, bv, polls, current) == r;
    var e2 := MarkTrimmedLog(s1.bench, bv, current);
    Glue(b.log, s1.bench.log, r.bench.log, e1, e2);
    es := e1 + e2;
  }

  /** Outside debug mode the scripts `trim_pedestals` starts are a prefix of the trimming order. */
  lemma TrimLog(b: Bench, bv: Option<string>, polls: nat -> Poll, current: real) returns (es: seq<Event>)
    requires !Get(b.flags, DebugMode)
    ensures var r := TrimStep(b, bv, polls, current);
      && r.bench.log == b.log + es
      && (r.out.Ok? ==> Started(es) == TrimScripts[..Reached(polls, 0)])
  {
    var s0 := BiasOn(b, bv, false);
    var e0 := BiasOnLog(b, bv, false);
    if s0.out.Err? {
      es := e0;
      return;
    }
    QuietStarted(e0);
    var r := Trimming(s0.bench, bv, polls, current);
    assert TrimStep(b, bv, polls, current) == r;
    var e1 := TrimmingLog(s0.bench, bv, polls, current);
    Glue(b.log, s0.bench.log, r.bench.log, e0, e1);
    es := e0 + e1;
  }

  /** In debug mode trimming changes nothing, leaves the status at `'RUN'` and never marks the pedestals trimmed. */
  lemma TrimDebug(b: Bench, bv: Option<string>, polls: nat -> Poll, current: real)
    requires Get(b.flags, DebugMode)
    ensures TrimStep(b, bv, polls, current) == Step(b, Ok(RUN))
  {
  }

  // ---------------------------------------------------------------------
  // restart_services
  // ---------------------------------------------------------------------

  /** Services are restarted only with the DCDC connected and powered, the controller powered and reached, and the firmware loaded. */
  predicate ServicesGuard(fl: Flags) {
    Get(fl, DCDCConnected) && Get(fl, DCDCPowered) && Get(fl, HexactrlPowered)
    && Get(fl, HexactrlAccessed) && Get(fl, FWLoaded)
  }

  /**
   * `restart_services(state)`: without the guard nothing happens;
   * otherwise the servers of the test stand and then the DAQ client are
   * restarted (taken as running in debug mode), their flags show the
   * outcome, and outside debug mode the PC is marked not initiated.
   */
  function RestartServicesStep(b: Bench, serversUp: bool, clientUp: bool): (r: Step<()>)
  {
    if !ServicesGuard(b.flags) then Step(b, Ok(()))
    else
      var debug := Get(b.flags, DebugMode);
      if !debug && !b.gear.stand then Step(b, Err(AttributeError))
      else
        var up := debug || serversUp;
        var b1 := SetFlag(SetFlag(if debug then b else Emit(b, StandStartServers), DAQServer, up), I2CServer, up);
        if !debug && !b1.gear.pc then Step(b1, Err(AttributeError))
        else
          var client := debug || clientUp;
          var b2 := SetFlag(if debug then b1 else Emit(b1, PcRestartDaq), DAQClient, client);
          Step(if debug then b2 else Emit(b2, PcResetInitiated), Ok(()))
  }

  /** The events of a successful restart: servers, then client, then the `-I` reset. */
  function RestartEvents(debug: bool, up: bool, client: bool): seq<Event> {
    Unless(debug, StandStartServers) + [Set(DAQServer, up), Set(I2CServer, up)]
    + (Unless(debug, PcRestartDaq) + [Set(DAQClient, client)])
    + Unless(debug, PcResetInitiated)
  }

  /**
   * Without the guard a restart changes nothing. With it and the handles in
   * place, the two server flags show whether the servers came up and the
   * client flag whether the client did (all up in debug mode), no other
   * flag changes, and the log gains the restart in order.
   */
  lemma RestartServicesOutcome(b: Bench, serversUp: bool, clientUp: bool)
    ensures var r := RestartServicesStep(b, serversUp, clientUp);
      && (!ServicesGuard(b.flags) ==> r == Step(b, Ok(())))
      && (r.out.Err? <==> ServicesGuard(b.flags) && !Get(b.flags, DebugMode) && !(b.gear.stand && b.gear.pc))
      && r.bench.setup == b.setup && r.bench.gear == b.gear && r.bench.data == b.data
      && (ServicesGuard(b.flags) && r.out.Ok? ==>
            var debug := Get(b.flags, DebugMode);
            && Get(r.bench.flags, DAQServer) == (debug || serversUp)
            && Get(r.bench.flags, I2CServer) == (debug || serversUp)
            && Get(r.bench.flags, DAQClient) == (debug || clientUp)
            && (forall f :: f !in {DAQServer, I2CServer, DAQClient} ==> Get(r.bench.flags, f) == Get(b.flags, f))
            && r.bench.log == b.log + RestartEvents(debug, debug || serversUp, debug || clientUp))
  {
    if ServicesGuard(b.flags) && RestartServicesStep(b, serversUp, clientUp).out.Ok? {
      RestartServicesLog(b, serversUp, clientUp);
    }
  }

  /** The log of a restart that returns: the events of `RestartEvents`, in order. */
  lemma RestartServicesLog(b: Bench, serversUp: bool, clientUp: bool)
    requires ServicesGuard(b.flags) && RestartServicesStep(b, serversUp, clientUp).out.Ok?
    ensures var debug := Get(b.flags, DebugMode);
      RestartServicesStep(b, serversUp, clientUp).bench.log == b.log + RestartEvents(debug, debug || serversUp, debug || clientUp)
  {
    var debug := Get(b.flags, DebugMode);
    var up, client := debug || serversUp, debug || clientUp;
    if debug {
      assert RestartEvents(debug, up, client) == [Set(DAQServer, up), Set(I2CServer, up), Set(DAQClient, client)];
    } else {
      assert RestartEvents(debug, up, client)
        == [StandStartServers, Set(DAQServer, up), Set(I2CServer, up), PcRestartDaq, Set(DAQClient, client), PcResetInitiated];
    }
  }
}
