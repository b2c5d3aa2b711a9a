/**
 * The bring-up and measurement procedures of a bench session: connecting
 * the HV, the leakage-current check, the initial module checks, the
 * configuration of the test stand, the pedestal runs and trimming, and the
 * restart and status check of the services. Every failure path that ends
 * the session goes through `end_session` and returns `'END'`.
 */
module Procedures {
  import opened Wrappers
  import opened ModuleSerial
  import opened Bench
  import opened Interaction
  import ExternalPc

  // ---------------------------------------------------------------------
  // connect_HV
  // ---------------------------------------------------------------------

  /**
   * `connect_HV(state)`: the HV cable is connected if it is not, and a
   * supply handle is created if there is none (the integer placeholder in
   * debug mode).
   */
  function ConnectHVStep(b: Bench): Bench
  {
    var b1 := if !Get(b.flags, HVConnected) then TellRaise(b, ConnectHVCable, HVConnected) else b;
    if b1.gear.supply != NoSupply then b1
    else if Get(b1.flags, DebugMode) then b1.(gear := b1.gear.(supply := DebugSupply))
    else Emit(b1, SupplyConnect).(gear := b1.gear.(supply := Keithley))
  }

  /** The cable step of `connect_HV` raises the HV-cable flag and touches nothing else but the log. */
  lemma ConnectHVCableFlags(b: Bench)
    ensures var r := if !Get(b.flags, HVConnected) then TellRaise(b, ConnectHVCable, HVConnected) else b;
      && Get(r.flags, HVConnected) && r.setup == b.setup && r.data == b.data && r.gear == b.gear
      && (forall f :: f != HVConnected ==> Get(r.flags, f) == Get(b.flags, f))
  {
  }

  /**
   * After `connect_HV` the HV cable is connected and a supply handle exists;
   * a handle that existed is kept, a new one is the placeholder exactly in
   * debug mode, and no other flag changes.
   */
  lemma ConnectHVOutcome(b: Bench)
    ensures var r := ConnectHVStep(b);
      && Get(r.flags, HVConnected) && r.gear.supply != NoSupply
      && (b.gear.supply != NoSupply ==> r.gear.supply == b.gear.supply)
      && (b.gear.supply == NoSupply ==> (r.gear.supply == Keithley <==> !Get(b.flags, DebugMode)))
      && (forall f :: f != HVConnected ==> Get(r.flags, f) == Get(b.flags, f))
      && r.setup == b.setup && r.data == b.data
      && r.gear == b.gear.(supply := r.gear.supply)
  {
    ConnectHVCableFlags(b);
  }

  /** A second `connect_HV` does nothing. */
  lemma ConnectHVIdempotent(b: Bench)
    ensures ConnectHVStep(ConnectHVStep(b)) == ConnectHVStep(b)
  {
    ConnectHVOutcome(b);
  }

  // ---------------------------------------------------------------------
  // check_leakage_current
  // ---------------------------------------------------------------------

  /** The bias keys of the leakage check, negated when the HV wires are forward-polarised. */
  function LeakageKeys(forward: bool): (keys: seq<int>)
    ensures |keys| == 5
  {
    var volts := [0, 1, 10, 100, 300];
    if forward then seq(5, i requires 0 <= i < 5 => -volts[i]) else volts
  }

  function Abs(x: real): real {
    if x < 0.0 then -x else x
  }

  /** A reading above one microampere at a bias below 500 V stops the scan. */
  predicate Tripped(key: int, current: real) {
    Abs(current) * 1000000.0 > 1.0 && -500 < key < 500
  }

  /** How many keys the scan measures: up to and including the first tripped one. */
  function ScanCount(keys: seq<int>, meter: int -> real): (n: nat)
    ensures n <= |keys|
  {
    if keys == [] then 0
    else if Tripped(keys[0], meter(keys[0])) then 1
    else 1 + ScanCount(keys[1..], meter)
  }

  /** The supply calls of the scan over `keys`: set the voltage, then measure. */
  function ScanEvents(keys: seq<int>): (es: seq<Event>)
    ensures |es| == 2 * |keys|
  {
    if keys == [] then [] else [SupplyVolts(keys[0]), SupplyMeasure] + ScanEvents(keys[1..])
  }

  /**
   * The scan measures a prefix of the keys: every key before the last
   * measured one read nominal, and the scan stopped early exactly when the
   * last measured key tripped.
   */
  lemma {:induction false} ScanCountSpec(keys: seq<int>, meter: int -> real)
    ensures var n := ScanCount(keys, meter);
      && (forall i :: 0 <= i < n - 1 ==> !Tripped(keys[i], meter(keys[i])))
      && (n < |keys| ==> n > 0 && Tripped(keys[n - 1], meter(keys[n - 1])))
      && (n == |keys| && n > 0 && !Tripped(keys[n - 1], meter(keys[n - 1])) ==>
            forall i :: 0 <= i < |keys| ==> !Tripped(keys[i], meter(keys[i])))
  {
    if keys != [] && !Tripped(keys[0], meter(keys[0])) {
      ScanCountSpec(keys[1..], meter);
    }
  }

  /**
   * The scan of `check_leakage_current`, after the box is closed: outside debug mode the output is
   * switched on, the keys are scanned, and the output is switched off again.
   */
  function LeakageScanStep(b: Bench, cfg: Config, meter: int -> real): (r: Step<()>)
  {
    if Get(b.flags, DebugMode) then Step(b, Ok(()))
    else if b.gear.supply != Keithley then Step(b, Err(AttributeError))
    else
      var keys := LeakageKeys(cfg.forward);
      var b1 := SetFlag(Output(Emit(b, SupplyOn), true), HVOutputOn, true);
      var b2 := b1.(log := b1.log + ScanEvents(keys[..ScanCount(keys, meter)]));
      Step(SetFlag(Output(Emit(b2, SupplyOff), false), HVOutputOn, false), Ok(()))
  }

  /**
   * The end of a session from inside a procedure: `end_session(state)`
   * followed by `return 'END'`.
   */
  function Abort(b: Bench, cfg: Config): (r: Step<Status>)
  {
    var s := EndSessionStep(b, cfg);
    match s.out
    case Err(e) => Step(s.bench, Err(e))
    case Ok(_) => Step(s.bench, Ok(END))
  }

  /**
   * `check_leakage_current(state)`: connect the HV; unless checks are
   * skipped, close the box, scan, and let the operator (`endTest`) end the
   * session from the results window.
   */
  function CheckLeakageStep(b: Bench, cfg: Config, meter: int -> real, endTest: bool): (r: Step<Status>)
  {
    var b0 := ConnectHVStep(b);
    if b0.setup.skipChecks then Step(b0, Ok(CONT))
    else
      var s1 := OpenCloseBoxStep(b0, cfg, true);
      if s1.out.Err? then Step(s1.bench, Err(s1.out.error)) else ScanAndAsk(s1.bench, cfg, meter, endTest)
  }

  /** `check_leakage_current` with the box closed: the scan and the results window. */
  function ScanAndAsk(b: Bench, cfg: Config, meter: int -> real, endTest: bool): (r: Step<Status>)
  {
    var s := LeakageScanStep(b, cfg, meter);
    if s.out.Err? then Step(s.bench, Err(s.out.error))
    else if endTest then Abort(s.bench, cfg)
    else Step(s.bench, Ok(CONT))
  }

  /** Every key the scan measures is set on the supply and then measured, in the order of the keys. */
  lemma {:induction false} ScanEventsOrder(keys: seq<int>)
    ensures forall i :: 0 <= i < |keys| ==>
      ScanEvents(keys)[2 * i] == SupplyVolts(keys[i]) && ScanEvents(keys)[2 * i + 1] == SupplyMeasure
  {
    if keys != [] {
      ScanEventsOrder(keys[1..]);
      var es := ScanEvents(keys);
      var rest := ScanEvents(keys[1..]);
      assert es == [SupplyVolts(keys[0]), SupplyMeasure] + rest;
      forall i | 1 <= i < |keys|
        ensures es[2 * i] == SupplyVolts(keys[i]) && es[2 * i + 1] == SupplyMeasure
      {
        var j := i - 1;
        assert 2 * i == 2 * j + 2;
        assert es[2 * j + 2] == rest[2 * j] && es[2 * j + 3] == rest[2 * j + 1];
      }
    }
  }

  /**
   * Outside debug mode the leakage scan switches the output on, measures the
   * scanned prefix of the keys, and leaves the output and its flag off.
   */
  lemma LeakageScanOutcome(b: Bench, cfg: Config, meter: int -> real)
    ensures var r := LeakageScanStep(b, cfg, meter);
      var keys := LeakageKeys(cfg.forward);
      && SameSetup(b, r.bench) && r.bench.gear.lid == b.gear.lid
      && (r.out.Err? <==> !Get(b.flags, DebugMode) && b.gear.supply != Keithley)
      && (r.out.Err? ==> r.bench == b && r.out.error == AttributeError)
      && (Get(b.flags, DebugMode) ==> r.bench == b)
      && (r.out.Ok? && !Get(b.flags, DebugMode) ==>
            && r.bench.log == b.log + [SupplyOn, Set(HVOutputOn, true)] + ScanEvents(keys[..ScanCount(keys, meter)])
                              + [SupplyOff, Set(HVOutputOn, false)]
            && !Get(r.bench.flags, HVOutputOn) && !r.bench.gear.supplyOutput
            && LoweredExactly(b.flags, r.bench.flags, {HVOutputOn}))
  {
  }

  /** A completed `end_session` inside a procedure returns `'END'` and leaves the bench safe. */
  lemma AbortSafe(b: Bench, cfg: Config)
    ensures var r := Abort(b, cfg);
      && SameSetup(b, r.bench)
      && (r.out.Ok? ==> r.out.value == END && SafeAfterEnd(b.flags, r.bench.flags))
      && (r.out.Err? ==> r.out.error in {IndexError, NotImplemented, AttributeError})
  {
    EndSessionOutcome(b, cfg);
    if EndSessionStep(b, cfg).out.Ok? {
      EndSessionSafe(b, cfg);
    }
  }

  lemma ScanAndAskOutcome(b: Bench, cfg: Config, meter: int -> real, endTest: bool)
    ensures var r := ScanAndAsk(b, cfg, meter, endTest);
      && SameSetup(b, r.bench)
      && (r.out.Ok? ==> r.out.value == CONT || r.out.value == END)
      && (r.out.Err? ==> r.out.error in {IndexError, NotImplemented, AttributeError})
      && (r.out == Ok(END) ==>
            && endTest && !Get(r.bench.flags, HVOutputOn) && !Get(r.bench.flags, BoxClosed)
            && !Get(r.bench.flags, HVConnected))
      && (r.out == Ok(CONT) ==>
            && r.bench.gear.supply == b.gear.supply && SwitchReading(r.bench, cfg) == SwitchReading(b, cfg)
            && (forall f :: f != HVOutputOn ==> Get(r.bench.flags, f) == Get(b.flags, f)))
      && (r.out == Ok(CONT) && !Get(b.flags, DebugMode) ==> !Get(r.bench.flags, HVOutputOn) && !r.bench.gear.supplyOutput)
  {
    var s := LeakageScanStep(b, cfg, meter);
    LeakageScanOutcome(b, cfg, meter);
    if s.out.Ok? && endTest {
      AbortSafe(s.bench, cfg);
    }
  }

  /**
   * `check_leakage_current` returns `'CONT'` or `'END'`. With checks skipped
   * it only connects the HV. `'END'` comes only from the operator's choice,
   * through `end_session`. On `'CONT'` the HV cable is connected and a supply
   * handle exists; after a real scan the output is off and the box closed.
   */
  lemma CheckLeakageOutcome(b: Bench, cfg: Config, meter: int -> real, endTest: bool)
    ensures var r := CheckLeakageStep(b, cfg, meter, endTest);
      && r.bench.setup == b.setup && r.bench.data == b.data
      && (r.out.Ok? ==> r.out.value == CONT || r.out.value == END)
      && (r.out.Err? ==> r.out.error in {IndexError, NotImplemented, AttributeError})
      && (b.setup.skipChecks ==> r == Step(ConnectHVStep(b), Ok(CONT)))
      && (r.out == Ok(END) ==>
            && endTest && !b.setup.skipChecks
            && !Get(r.bench.flags, HVOutputOn) && !Get(r.bench.flags, BoxClosed) && !Get(r.bench.flags, HVConnected))
      && (r.out == Ok(CONT) ==> Get(r.bench.flags, HVConnected) && r.bench.gear.supply != NoSupply)
      && (r.out == Ok(CONT) && !b.setup.skipChecks ==> Get(r.bench.flags, BoxClosed))
      && (r.out == Ok(CONT) && !b.setup.skipChecks && !Get(b.flags, DebugMode) ==>
            !Get(r.bench.flags, HVOutputOn) && !r.bench.gear.supplyOutput)
  {
    var b0 := ConnectHVStep(b);
    ConnectHVOutcome(b);
    if !b0.setup.skipChecks {
      var s1 := OpenCloseBoxStep(b0, cfg, true);
      OpenCloseBoxOutcome(b0, cfg, true);
      if s1.out.Ok? {
        ScanAndAskOutcome(s1.bench, cfg, meter, endTest);
      }
    }
  }

  // ---------------------------------------------------------------------
  // initial_module_checks
  // ---------------------------------------------------------------------

  /** The power pads probed on each board kind; `None` where `thesepads` stays unbound. */
  function Pads(d: char, s: char): Option<seq<string>> {
    if d == 'L' then
      if s == 'F' then Some(["P1V2D", "P1V2A", "P1V5C", "P1V5D"])
      else if s in "RLTB5" then Some(["P1V2D", "P1V2A", "P1V5"])
      else None
    else if d == 'H' then
      if s == 'F' then Some(["P1V2_D", "P1V2A_UP", "P1V2A_DW", "P1V5A", "P1V5A_UP", "P1V5D"])
      else if s == 'B' then Some(["P1V2D", "P1V2A", "P1V5D", "P1V5A"])
      else if s == 'T' then Some(["P1V2D", "P1V2A", "P1V5", "P1V5_IN"])
      else if s == 'L' then Some(["P1V2D", "P1V2A", "P1V5A", "P1V5"])
      else if s == 'R' then Some(["P1V2D", "P1V2A", "P1V5A"])
      else None
    else None
  }

  /** Every board kind the session accepts with density L or H has a pad list; other densities have none. */
  lemma PadsDefined(serial: string)
    requires SessionKind(serial).Ok?
    ensures var (d, s) := SessionKind(serial).value;
      Pads(d, s).Some? <==> d == 'L' || d == 'H'
  {
  }

  /** `all([values[...] for pad in thesepads])`: the operator marked every pad as good. */
  predicate AllPads(pads: seq<string>, good: string -> bool) {
    forall i :: 0 <= i < |pads| ==> good(pads[i])
  }

  /** The board kind of `serial` has a pad list, and the operator marked every pad of it as good. */
  predicate PadsPass(serial: string, good: string -> bool) {
    match SessionKind(serial)
    case Err(_) => false
    case Ok((d, s)) => Pads(d, s).Some? && AllPads(Pads(d, s).value, good)
  }

  /** The operator's answers and the readings the initial checks depend on. */
  datatype ChecksWorld = ChecksWorld(
    sw: ExternalPc.PcSoftware,   // the operating system and branch of the PC
    disk: ExternalPc.Disk,       // the files on the PC
    noShort: string -> bool,     // the pad was marked "No Short"
    meter: int -> real,          // the leakage current read at each bias key
    endTest: bool,               // "End Test" pressed in the leakage results window
    powerGood: string -> bool)   // the pad was marked "Correct"

  /**
   * `initial_module_checks(state)`: check the board kind and the PC software,
   * ground the operator, check the pads for shorts, run the leakage check on
   * a live module and reopen the box, connect the DCDC and, unless checks
   * are skipped, power it to probe the pad voltages and unplug its power
   * again.
   */
  function InitialChecksStep(b: Bench, cfg: Config, w: ChecksWorld): (r: Step<Status>)
  {
    match SessionKind(b.setup.serial)
    case Err(e) => Step(b, Err(e))
    case Ok((d, s)) =>
      var check := if Get(b.flags, DebugMode) then Ok(()) else ExternalPc.CheckHexactrlSw(w.sw, w.disk);
      if check == Err(AssertionError) then Abort(b, cfg)
      else if check.Err? then Step(b, Err(check.error))
      else
        var b1 := Tell(b, GroundYourself);
        var pads := Pads(d, s);
        if !b1.setup.skipChecks && pads.None? then Step(b1, Err(UnboundLocal("thesepads")))
        else if !b1.setup.skipChecks && !AllPads(pads.value, w.noShort) then Abort(b1, cfg)
        else AfterShorts(b1, cfg, w, IsLF(d, s), pads)
  }

  /** The end of `initial_module_checks`: the live-module leakage check, then the DCDC. */
  function AfterShorts(b: Bench, cfg: Config, w: ChecksWorld, lf: bool, pads: Option<seq<string>>): (r: Step<Status>)
    requires !b.setup.skipChecks ==> pads.Some?
  {
    var s2 := if Get(b.flags, LiveModule) then CheckLeakageStep(b, cfg, w.meter, w.endTest) else Step(b, Ok(CONT));
    if s2.out.Err? || s2.out.value == END then s2
    else
      var s3 := if Get(b.flags, LiveModule) then OpenCloseBoxStep(s2.bench, cfg, false) else Step(s2.bench, Ok(()));
      if s3.out.Err? then Step(s3.bench, Err(s3.out.error)) else DcdcCheck(s3.bench, cfg, w, lf, pads)
  }

  /** The DCDC part of `initial_module_checks`: the DCDC is connected and, unless checks are skipped, its pads probed. */
  function DcdcCheck(b: Bench, cfg: Config, w: ChecksWorld, lf: bool, pads: Option<seq<string>>): (r: Step<Status>)
    requires !b.setup.skipChecks ==> pads.Some?
  {
    var b1 := TellRaise(b, ConnectDcdc(lf), DCDCConnected);
    if b1.setup.skipChecks then Step(b1, Ok(CONT)) else PadPowerCheck(b1, cfg, w, lf, pads.value)
  }

  /** The pad check of `initial_module_checks`: the DCDC is powered, the pad voltages probed, and its power unplugged. */
  function PadPowerCheck(b: Bench, cfg: Config, w: ChecksWorld, lf: bool, pads: seq<string>): (r: Step<Status>)
  {
    var b1 := TellRaise(b, PowerDcdc(lf), DCDCPowered);
    if !AllPads(pads, w.powerGood) then Abort(b1, cfg)
    else Step(TellLower(b1, UnplugDcdcPower(lf), DCDCPowered), Ok(CONT))
  }

  /** `do_something_window(i)` then raising `f` changes only `f`, and the log. */
  lemma TellRaiseFlags(b: Bench, i: Instruction, f: Flag)
    ensures var r := TellRaise(b, i, f);
      && Get(r.flags, f) && SameSetup(b, r) && r.gear == b.gear
      && (forall g :: g != f ==> Get(r.flags, g) == Get(b.flags, g))
  {
  }

  lemma PadPowerCheckOutcome(b: Bench, cfg: Config, w: ChecksWorld, lf: bool, pads: seq<string>)
    ensures var r := PadPowerCheck(b, cfg, w, lf, pads);
      && SameSetup(b, r.bench)
      && (r.out.Ok? ==> r.out.value == CONT || r.out.value == END)
      && (r.out.Err? ==> r.out.error in {IndexError, NotImplemented, AttributeError})
      && (r.out == Ok(END) ==> !AllPads(pads, w.powerGood) && SafeAfterEnd(Put(b.flags, DCDCPowered, true), r.bench.flags))
      && (r.out == Ok(CONT) ==>
            && AllPads(pads, w.powerGood) && !Get(r.bench.flags, DCDCPowered) && r.bench.gear == b.gear
            && (forall g :: g != DCDCPowered ==> Get(r.bench.flags, g) == Get(b.flags, g)))
  {
    var b1 := TellRaise(b, PowerDcdc(lf), DCDCPowered);
    if !AllPads(pads, w.powerGood) {
      AbortSafe(b1, cfg);
    } else {
      TellLowerFlags(b1, UnplugDcdcPower(lf), DCDCPowered);
    }
  }

  /** The three flags every path to `'END'` leaves lowered. */
  predicate HVSafe(fl: Flags) {
    !Get(fl, HVOutputOn) && !Get(fl, BoxClosed) && !Get(fl, HVConnected)
  }

  /** Connecting the DCDC changes only its flag, then the pad probe runs as specified above. */
  lemma DcdcCheckOutcome(b: Bench, cfg: Config, w: ChecksWorld, lf: bool, pads: Option<seq<string>>)
    requires !b.setup.skipChecks ==> pads.Some?
    ensures var r := DcdcCheck(b, cfg, w, lf, pads);
      && SameSetup(b, r.bench)
      && (r.out.Ok? ==> r.out.value == CONT || r.out.value == END)
      && (r.out.Err? ==> r.out.error in {IndexError, NotImplemented, AttributeError})
      && (r.out == Ok(END) ==> HVSafe(r.bench.flags) && !b.setup.skipChecks && !AllPads(pads.value, w.powerGood))
      && (r.out == Ok(CONT) ==>
            && Get(r.bench.flags, DCDCConnected)
            && (!b.setup.skipChecks ==> AllPads(pads.value, w.powerGood) && !Get(r.bench.flags, DCDCPowered))
            && (forall g :: g != DCDCConnected && g != DCDCPowered ==> Get(r.bench.flags, g) == Get(b.flags, g)))
  {
    var b1 := TellRaise(b, ConnectDcdc(lf), DCDCConnected);
    TellRaiseFlags(b, ConnectDcdc(lf), DCDCConnected);
    if !b1.setup.skipChecks {
      PadPowerCheckOutcome(b1, cfg, w, lf, pads.value);
    }
  }

  /**
   * After the short check: `'END'` comes only from the operator ending the
   * leakage check or from a pad with a wrong voltage; on `'CONT'` the DCDC is
   * connected, unpowered again after the pad probe, and on a live module the
   * HV cable is in and the box open.
   */
  lemma AfterShortsOutcome(b: Bench, cfg: Config, w: ChecksWorld, lf: bool, pads: Option<seq<string>>)
    requires !b.setup.skipChecks ==> pads.Some?
    ensures var r := AfterShorts(b, cfg, w, lf, pads);
      var live := Get(b.flags, LiveModule);
      && r.bench.setup == b.setup && r.bench.data == b.data
      && (r.out.Ok? ==> r.out.value == CONT || r.out.value == END)
      && (r.out.Err? ==> r.out.error in {IndexError, NotImplemented, AttributeError})
      && (r.out == Ok(END) ==>
            && HVSafe(r.bench.flags)
            && !b.setup.skipChecks && ((live && w.endTest) || !AllPads(pads.value, w.powerGood)))
      && (r.out == Ok(CONT) ==>
            && Get(r.bench.flags, DCDCConnected)
            && (!b.setup.skipChecks ==> AllPads(pads.value, w.powerGood) && !Get(r.bench.flags, DCDCPowered))
            && (live ==> Get(r.bench.flags, HVConnected) && !Get(r.bench.flags, BoxClosed)))
  {
    if Get(b.flags, LiveModule) {
      var s2 := CheckLeakageStep(b, cfg, w.meter, w.endTest);
      CheckLeakageOutcome(b, cfg, w.meter, w.endTest);
      if s2.out == Ok(CONT) {
        var s3 := OpenCloseBoxStep(s2.bench, cfg, false);
        OpenCloseBoxOutcome(s2.bench, cfg, false);
        if s3.out.Ok? {
          DcdcCheckOutcome(s3.bench, cfg, w, lf, pads);
        }
      }
    } else {
      DcdcCheckOutcome(b, cfg, w, lf, pads);
    }
  }

  /**
   * `initial_module_checks` returns `'CONT'` or `'END'`; an unsupported
   * board kind raises before anything happens, and so does a PC whose
   * system and branch name no software location (the check reads an
   * unbound `env`). `'END'` comes only from a failed check: the PC
   * software missing, a shorted pad, the operator
   * ending the leakage check, or a wrong pad voltage. On `'CONT'` every
   * check that ran passed and the DCDC is connected.
   */
  lemma InitialChecksOutcome(b: Bench, cfg: Config, w: ChecksWorld)
    ensures var r := InitialChecksStep(b, cfg, w);
      var skip := b.setup.skipChecks;
      && r.bench.setup == b.setup && r.bench.data == b.data
      && (SessionKind(b.setup.serial).Err? ==> r == Step(b, Err(SessionKind(b.setup.serial).error)))
      && (r.out.Ok? ==> r.out.value == CONT || r.out.value == END)
      && (r.out.Err? ==> r.out.error in {IndexError, NotImplemented, AttributeError, UnboundLocal("thesepads"),
                                          UnboundLocal("env")})
      && (SessionKind(b.setup.serial).Ok? && !Get(b.flags, DebugMode) && ExternalPc.Location(w.sw).None? ==>
            r == Step(b, Err(UnboundLocal("env"))))
      && (r.out == Ok(END) ==>
            && HVSafe(r.bench.flags)
            && ((!Get(b.flags, DebugMode) && ExternalPc.CheckHexactrlSw(w.sw, w.disk) == Err(AssertionError))
                || (!skip && !PadsPass(b.setup.serial, w.noShort))
                || (!skip && Get(b.flags, LiveModule) && w.endTest)
                || (!skip && !PadsPass(b.setup.serial, w.powerGood))))
      && (r.out == Ok(CONT) ==>
            && (Get(b.flags, DebugMode) || ExternalPc.CheckHexactrlSw(w.sw, w.disk).Ok?)
            && Get(r.bench.flags, DCDCConnected)
            && (!skip ==> && PadsPass(b.setup.serial, w.noShort) && PadsPass(b.setup.serial, w.powerGood)
                          && !Get(r.bench.flags, DCDCPowered))
            && (Get(b.flags, LiveModule) ==> Get(r.bench.flags, HVConnected) && !Get(r.bench.flags, BoxClosed)))
  {
    match SessionKind(b.setup.serial)
    case Err(e) =>
    case Ok((d, s)) =>
      var check := if Get(b.flags, DebugMode) then Ok(()) else ExternalPc.CheckHexactrlSw(w.sw, w.disk);
      if check == Err(AssertionError) {
        AbortSafe(b, cfg);
      } else if check.Err? {
      } else {
        var b1 := Tell(b, GroundYourself);
        var pads := Pads(d, s);
        if !b1.setup.skipChecks && pads.None? {
        } else if !b1.setup.skipChecks && !AllPads(pads.value, w.noShort) {
          AbortSafe(b1, cfg);
        } else {
          AfterShortsOutcome(b1, cfg, w, IsLF(d, s), pads);
        }
      }
  }

  // ---------------------------------------------------------------------
  // configure_test_stand
  // ---------------------------------------------------------------------

  /**
   * The board kinds `configure_test_stand` accepts: L with F, L, R, T or B
   * and H with F, B, T, L or R; any other density raises too.
   */
  function ConfigureKind(serial: string): (r: Result<(char, char)>)
    ensures r.Ok? ==> r == Kind(serial) && (r.value.0 == 'L' || r.value.0 == 'H') && r.value.1 in "FLRTB"
    ensures r.Err? ==> r.error in {IndexError, NotImplemented}
    ensures Kind(serial).Err? ==> r == Kind(serial)
  {
    var (d, s) :- Kind(serial);
    if d == 'L' then (if s in "FLRTB" then Ok((d, s)) else Err(NotImplemented))
    else if d == 'H' then (if s in "FBTLR" then Ok((d, s)) else Err(NotImplemented))
    else Err(NotImplemented)
  }

  /**
   * Every board kind `configure_test_stand` accepts is one the other
   * procedures accept; the low-density five-sided board is the one they
   * accept and it does not, along with every density but L and H.
   */
  lemma ConfigureKindStricter(serial: string)
    ensures ConfigureKind(serial).Ok? ==> SessionKind(serial) == ConfigureKind(serial)
    ensures SessionKind(serial).Ok? && ConfigureKind(serial).Err? ==>
      SessionKind(serial).value.1 == '5' || (SessionKind(serial).value.0 != 'L' && SessionKind(serial).value.0 != 'H')
  {
  }

  /** What the test stand and the PC answer while the stand is configured. */
  datatype StandWorld = StandWorld(
    fwLoaded: bool,                 // ts.loadfw() loaded the firmware and found the ROC channels
    servicesUp: bool,               // ts.startservers() started the DAQ and I2C servers
    sw: ExternalPc.PcSoftware,      // the operating system and branch of the PC
    disk: ExternalPc.Disk)          // the files on the PC

  /** `state[f] = True` for each flag of `fs`, and no other flag changes. */
  predicate RaisedExactly(before: Flags, after: Flags, fs: set<Flag>) {
    forall f :: Get(after, f) == (if f in fs then true else Get(before, f))
  }

  /**
   * The board connection of `configure_test_stand`: the trophy (and loopback) board, the hexacontroller and
   * its power are connected; a Kria controller is switched on as well.
   */
  function ConnectBoards(b: Bench, lf: bool): Bench {
    var b1 := Tell(b, ConnectTrophy);
    var b2 := if lf then Tell(b1, ConnectLoopback) else b1;
    var b3 := SetFlag(b2, TrophyConnected, true);
    var b4 := TellRaise(Tell(b3, EnsureNothingPowered), ConnectHexactrl, HexactrlConnected);
    var b5 := TellRaise(b4, PlugHexactrlPower, HexactrlPowered);
    if b5.setup.kria then TellRaise(SetFlag(b5, HexactrlPowered, false), KriaSwitchOn, HexactrlPowered) else b5
  }

  /** The stand step of `configure_test_stand`: the test stand is reached (a placeholder in debug mode) and the DCDC powered. */
  function StandUp(b: Bench, lf: bool): Bench {
    var b1 := if Get(b.flags, DebugMode) then b.(gear := b.gear.(stand := false))
              else Emit(b, StandConnect).(gear := b.gear.(stand := true));
    TellRaise(SetFlag(b1, HexactrlAccessed, true), PowerDcdc(lf), DCDCPowered)
  }

  /** The firmware step of `configure_test_stand`: the firmware is loaded (always, in debug mode); a failure ends the session. */
  function LoadFirmware(b: Bench, cfg: Config, w: StandWorld): (r: Step<Status>) {
    var debug := Get(b.flags, DebugMode);
    var fw := debug || w.fwLoaded;
    var b1 := SetFlag(if debug then b else Emit(b, StandLoadFw), FWLoaded, fw);
    if !fw then Abort(b1, cfg) else StartServices(b1, cfg, w)
  }

  /** The server step of `configure_test_stand`: the DAQ and I2C servers are started; a failure ends the session. */
  function StartServices(b: Bench, cfg: Config, w: StandWorld): (r: Step<Status>) {
    var debug := Get(b.flags, DebugMode);
    var up := debug || w.servicesUp;
    var b1 := SetFlag(SetFlag(if debug then b else Emit(b, StandStartServers), DAQServer, up), I2CServer, up);
    if !up then Abort(b1, cfg) else StartPc(b1, cfg, w)
  }

  /**
   * The PC step of `configure_test_stand`: the PC object is made (a placeholder in debug mode). Its
   * software check failing ends the session; any other exception of the
   * constructor escapes.
   */
  function StartPc(b: Bench, cfg: Config, w: StandWorld): (r: Step<Status>) {
    if Get(b.flags, DebugMode) then Step(SetFlag(b.(gear := b.gear.(pc := false)), DAQClient, true), Ok(CONT))
    else
      var b1 := Emit(b, PcConnect);
      match ExternalPc.Construct(w.sw, b.setup.serial, w.disk)
      case Err(e) => if e == AssertionError then Abort(b1, cfg) else Step(b1, Err(e))
      case Ok(_) => Step(SetFlag(b1.(gear := b1.gear.(pc := true)), DAQClient, true), Ok(CONT))
  }

  /**
   * `configure_test_stand(state, fpgahostname)`: check the board kind,
   * connect the boards, close the box of a live module, then bring up the
   * stand, the firmware, the services and the PC.
   */
  function ConfigureStep(b: Bench, cfg: Config, w: StandWorld): (r: Step<Status>) {
    match ConfigureKind(b.setup.serial)
    case Err(e) => Step(b, Err(e))
    case Ok((d, s)) => ConfigureBoard(b, cfg, w, IsLF(d, s))
  }

  /** `configure_test_stand` once the board kind is known. */
  function ConfigureBoard(b: Bench, cfg: Config, w: StandWorld, lf: bool): (r: Step<Status>) {
    var s2 := BoardsAndBox(b, cfg, lf);
    if s2.out.Err? then Step(s2.bench, Err(s2.out.error))
    else AfterBox(s2.bench, cfg, w, lf)
  }

  /** The first half of `configure_test_stand`: the boards are connected, then the box of a live module is closed. */
  function BoardsAndBox(b: Bench, cfg: Config, lf: bool): (r: Step<()>) {
    var b1 := ConnectBoards(b, lf);
    if Get(b1.flags, LiveModule) then OpenCloseBoxStep(b1, cfg, true) else Step(b1, Ok(()))
  }

  /** The second half of `configure_test_stand`: everything after the boards are connected and the box is closed. */
  function AfterBox(b: Bench, cfg: Config, w: StandWorld, lf: bool): (r: Step<Status>) {
    LoadFirmware(StandUp(b, lf), cfg, w)
  }

  /** The errors `configure_test_stand` can let escape. */
  function ConfigureErrors(): set<Error> {
    {IndexError, NotImplemented, AttributeError, NameError("NotImplementedErro")}
  }

  lemma ConnectBoardsFlags(b: Bench, lf: bool)
    ensures var r := ConnectBoards(b, lf);
      && RaisedExactly(b.flags, r.flags, {TrophyConnected, HexactrlConnected, HexactrlPowered})
      && r.setup == b.setup && r.data == b.data && r.gear == b.gear
  {
  }

  lemma StandUpFlags(b: Bench, lf: bool)
    ensures var r := StandUp(b, lf);
      && RaisedExactly(b.flags, r.flags, {HexactrlAccessed, DCDCPowered})
      && r.setup == b.setup && r.data == b.data
      && r.gear == b.gear.(stand := !Get(b.flags, DebugMode))
  {
  }

  lemma StartPcOutcome(b: Bench, cfg: Config, w: StandWorld)
    ensures var r := StartPc(b, cfg, w);
      var debug := Get(b.flags, DebugMode);
      var made := ExternalPc.Construct(w.sw, b.setup.serial, w.disk);
      && r.bench.setup == b.setup && r.bench.data == b.data
      && (r.out.Ok? ==> r.out.value == CONT || r.out.value == END)
      && (r.out.Err? ==> r.out.error in ConfigureErrors())
      && (r.out == Ok(END) ==> !debug && made == Err(AssertionError) && SafeAfterEnd(b.flags, r.bench.flags))
      && (r.out == Ok(CONT) ==>
            && (debug || made.Ok?)
            && RaisedExactly(b.flags, r.bench.flags, {DAQClient})
            && r.bench.gear == b.gear.(pc := !debug))
  {
    if !Get(b.flags, DebugMode) && ExternalPc.Construct(w.sw, b.setup.serial, w.disk) == Err(AssertionError) {
      AbortSafe(Emit(b, PcConnect), cfg);
    }
  }

  lemma StartServicesOutcome(b: Bench, cfg: Config, w: StandWorld)
    ensures var r := StartServices(b, cfg, w);
      var debug := Get(b.flags, DebugMode);
      var made := ExternalPc.Construct(w.sw, b.setup.serial, w.disk);
      && r.bench.setup == b.setup && r.bench.data == b.data
      && (r.out.Ok? ==> r.out.value == CONT || r.out.value == END)
      && (r.out.Err? ==> r.out.error in ConfigureErrors())
      && (r.out == Ok(END) ==>
            && !debug && (!w.servicesUp || made == Err(AssertionError))
            && HVSafe(r.bench.flags) && Get(r.bench.flags, DAQClient) == Get(b.flags, DAQClient))
      && (r.out == Ok(CONT) ==>
            && (debug || (w.servicesUp && made.Ok?))
            && RaisedExactly(b.flags, r.bench.flags, {DAQServer, I2CServer, DAQClient})
            && r.bench.gear == b.gear.(pc := !debug))
  {
    var debug := Get(b.flags, DebugMode);
    var up := debug || w.servicesUp;
    var b1 := SetFlag(SetFlag(if debug then b else Emit(b, StandStartServers), DAQServer, up), I2CServer, up);
    if !up {
      AbortSafe(b1, cfg);
    } else {
      StartPcOutcome(b1, cfg, w);
    }
  }

  lemma LoadFirmwareOutcome(b: Bench, cfg: Config, w: StandWorld)
    ensures var r := LoadFirmware(b, cfg, w);
      var debug := Get(b.flags, DebugMode);
      var made := ExternalPc.Construct(w.sw, b.setup.serial, w.disk);
      && r.bench.setup == b.setup && r.bench.data == b.data
      && (r.out.Ok? ==> r.out.value == CONT || r.out.value == END)
      && (r.out.Err? ==> r.out.error in ConfigureErrors())
      && (r.out == Ok(END) ==>
            && !debug && (!w.fwLoaded || !w.servicesUp || made == Err(AssertionError))
            && HVSafe(r.bench.flags) && Get(r.bench.flags, DAQClient) == Get(b.flags, DAQClient))
      && (r.out == Ok(CONT) ==>
            && (debug || (w.fwLoaded && w.servicesUp && made.Ok?))
            && RaisedExactly(b.flags, r.bench.flags, {FWLoaded, DAQServer, I2CServer, DAQClient})
            && r.bench.gear == b.gear.(pc := !debug))
  {
    var debug := Get(b.flags, DebugMode);
    var fw := debug || w.fwLoaded;
    var b1 := SetFlag(if debug then b else Emit(b, StandLoadFw), FWLoaded, fw);
    if !fw {
      AbortSafe(b1, cfg);
    } else {
      StartServicesOutcome(b1, cfg, w);
    }
  }

  /** The bring-up after the box: five more flags, and the outcome of the firmware, the services and the PC. */
  lemma AfterBoxOutcome(b: Bench, cfg: Config, w: StandWorld, lf: bool)
    ensures var r := AfterBox(b, cfg, w, lf);
      var debug := Get(b.flags, DebugMode);
      var made := ExternalPc.Construct(w.sw, b.setup.serial, w.disk);
      && r.bench.setup == b.setup && r.bench.data == b.data
      && (r.out.Ok? ==> r.out.value == CONT || r.out.value == END)
      && (r.out.Err? ==> r.out.error in ConfigureErrors())
      && (r.out == Ok(END) ==>
            && !debug && (!w.fwLoaded || !w.servicesUp || made == Err(AssertionError))
            && HVSafe(r.bench.flags) && Get(r.bench.flags, DAQClient) == Get(b.flags, DAQClient))
      && (r.out == Ok(CONT) ==>
            && (debug || (w.fwLoaded && w.servicesUp && made.Ok?))
            && RaisedExactly(b.flags, r.bench.flags, {HexactrlAccessed, DCDCPowered, FWLoaded, DAQServer, I2CServer, DAQClient})
            && r.bench.gear == b.gear.(stand := !debug, pc := !debug))
  {
    var b1 := StandUp(b, lf);
    StandUpFlags(b, lf);
    LoadFirmwareOutcome(b1, cfg, w);
    assert Get(b1.flags, DAQClient) == Get(b.flags, DAQClient);
  }

  /** The nine flags `configure_test_stand` raises. */
  function StandFlags(): set<Flag> {
    {TrophyConnected, HexactrlConnected, HexactrlPowered, HexactrlAccessed, DCDCPowered,
     FWLoaded, DAQServer, I2CServer, DAQClient}
  }

  /**
   * Connecting the boards raises the first three flags; a live module's box
   * is closed, and on a failure to poll the switch nothing else changes.
   */
  lemma BoardsAndBoxOutcome(b: Bench, cfg: Config, lf: bool)
    ensures var r := BoardsAndBox(b, cfg, lf);
      && r.bench.setup == b.setup && r.bench.data == b.data && r.bench.gear.stand == b.gear.stand
      && r.bench.gear.pc == b.gear.pc && r.bench.gear.supply == b.gear.supply
      && (r.out.Err? ==> r.out.error == AttributeError)
      && (forall f :: f != BoxClosed ==>
            Get(r.bench.flags, f) == (if f in {TrophyConnected, HexactrlConnected, HexactrlPowered} then true else Get(b.flags, f)))
      && (r.out.Ok? && Get(b.flags, LiveModule) ==> Get(r.bench.flags, BoxClosed))
  {
    var b1 := ConnectBoards(b, lf);
    ConnectBoardsFlags(b, lf);
    if Get(b1.flags, LiveModule) {
      OpenCloseBoxOutcome(b1, cfg, true);
    }
  }

  /** The flags of the two halves of the bring-up add up to the nine stand flags. */
  lemma StandFlagsAdd(f0: Flags, f1: Flags, f2: Flags)
    requires forall f :: f != BoxClosed ==>
      Get(f1, f) == (if f in {TrophyConnected, HexactrlConnected, HexactrlPowered} then true else Get(f0, f))
    requires RaisedExactly(f1, f2, {HexactrlAccessed, DCDCPowered, FWLoaded, DAQServer, I2CServer, DAQClient})
    ensures BroughtUp(f0, f2) && Get(f2, BoxClosed) == Get(f1, BoxClosed)
  {
  }

  /** Every stand flag is up, and no other flag but the box flag has changed. */
  predicate BroughtUp(before: Flags, after: Flags) {
    && (forall f :: f in StandFlags() ==> Get(after, f))
    && (forall f :: f !in StandFlags() && f != BoxClosed ==> Get(after, f) == Get(before, f))
  }

  lemma ConfigureBoardOutcome(b: Bench, cfg: Config, w: StandWorld, lf: bool)
    ensures var r := ConfigureBoard(b, cfg, w, lf);
      && r.bench.setup == b.setup && r.bench.data == b.data
      && (r.out.Ok? ==> r.out.value == CONT || r.out.value == END)
      && (r.out.Err? ==> r.out.error in ConfigureErrors())
      && (r.out == Ok(END) ==>
            && !Get(b.flags, DebugMode)
            && (!w.fwLoaded || !w.servicesUp || ExternalPc.Construct(w.sw, b.setup.serial, w.disk) == Err(AssertionError))
            && HVSafe(r.bench.flags) && Get(r.bench.flags, DAQClient) == Get(b.flags, DAQClient))
  {
    var s2 := BoardsAndBox(b, cfg, lf);
    BoardsAndBoxOutcome(b, cfg, lf);
    if s2.out.Ok? {
      AfterBoxOutcome(s2.bench, cfg, w, lf);
    }
  }

  lemma ConfigureBoardBringsUp(b: Bench, cfg: Config, w: StandWorld, lf: bool)
    requires ConfigureBoard(b, cfg, w, lf).out == Ok(CONT)
    ensures var r := ConfigureBoard(b, cfg, w, lf);
      var debug := Get(b.flags, DebugMode);
      && (debug || (w.fwLoaded && w.servicesUp && ExternalPc.Construct(w.sw, b.setup.serial, w.disk).Ok?))
      && BroughtUp(b.flags, r.bench.flags)
      && (Get(b.flags, LiveModule) ==> Get(r.bench.flags, BoxClosed))
      && r.bench.gear.stand == !debug && r.bench.gear.pc == !debug
  {
    var s2 := BoardsAndBox(b, cfg, lf);
    BoardsAndBoxOutcome(b, cfg, lf);
    var r := AfterBox(s2.bench, cfg, w, lf);
    AfterBoxOutcome(s2.bench, cfg, w, lf);
    StandFlagsAdd(b.flags, s2.bench.flags, r.bench.flags);
  }

  /**
   * `configure_test_stand` returns `'CONT'` or `'END'`, and an unsupported
   * board kind raises before anything happens. `'END'` comes only from a
   * firmware or service failure or a PC without the test software, through
   * `end_session`, never in debug mode, and leaves the DAQ-client flag as it
   * was.
   */
  lemma ConfigureOutcome(b: Bench, cfg: Config, w: StandWorld)
    ensures var r := ConfigureStep(b, cfg, w);
      && r.bench.setup == b.setup && r.bench.data == b.data
      && (ConfigureKind(b.setup.serial).Err? ==> r == Step(b, Err(ConfigureKind(b.setup.serial).error)))
      && (r.out.Ok? ==> r.out.value == CONT || r.out.value == END)
      && (r.out.Err? ==> r.out.error in ConfigureErrors())
      && (r.out == Ok(END) ==>
            && !Get(b.flags, DebugMode)
            && (!w.fwLoaded || !w.servicesUp || ExternalPc.Construct(w.sw, b.setup.serial, w.disk) == Err(AssertionError))
            && HVSafe(r.bench.flags) && Get(r.bench.flags, DAQClient) == Get(b.flags, DAQClient))
  {
    match ConfigureKind(b.setup.serial)
    case Err(e) =>
    case Ok((d, s)) => ConfigureBoardOutcome(b, cfg, w, IsLF(d, s));
  }

  /**
   * On `'CONT'` every check passed (or debug mode skipped it), exactly the
   * nine bring-up flags have been raised and, for a live module, the box
   * closed; the stand and PC handles are objects unless in debug mode.
   */
  lemma ConfigureBringsUp(b: Bench, cfg: Config, w: StandWorld)
    requires ConfigureStep(b, cfg, w).out == Ok(CONT)
    ensures var r := ConfigureStep(b, cfg, w);
      var debug := Get(b.flags, DebugMode);
      && (debug || (w.fwLoaded && w.servicesUp && ExternalPc.Construct(w.sw, b.setup.serial, w.disk).Ok?))
      && BroughtUp(b.flags, r.bench.flags)
      && (Get(b.flags, LiveModule) ==> Get(r.bench.flags, BoxClosed))
      && r.bench.gear.stand == !debug && r.bench.gear.pc == !debug
  {
    match ConfigureKind(b.setup.serial)
    case Err(e) =>
    case Ok((d, s)) => ConfigureBoardBringsUp(b, cfg, w, IsLF(d, s));
  }

  /** The prompts for the trophy board and, on a full low-density board, the loopback board. */
  function TrophyPrompts(lf: bool): seq<Event> {
    [Prompt(ConnectTrophy)] + (if lf then [Prompt(ConnectLoopback)] else [])
  }

  /** The board connection of `configure_test_stand`: trophy up, nothing powered, hexacontroller connected and powered. */
  function PlugEvents(): seq<Event> {
    [Set(TrophyConnected, true), Prompt(EnsureNothingPowered), Prompt(ConnectHexactrl),
     Set(HexactrlConnected, true), Prompt(PlugHexactrlPower), Set(HexactrlPowered, true)]
  }

  /** The Kria step of `configure_test_stand`: the controller's power flag drops while its switch is turned on. */
  function KriaEvents(kria: bool): seq<Event> {
    if kria then [Set(HexactrlPowered, false), Prompt(KriaSwitchOn), Set(HexactrlPowered, true)] else []
  }

  lemma BoardEventsStaged(lf: bool, kria: bool)
    ensures Staged(TrophyPrompts(lf) + PlugEvents() + KriaEvents(kria), BringUp, 0, 2)
  {
    var head := TrophyPrompts(lf);
    assert Staged(head, BringUp, 0, 0) by {
      assert head[1..] == (if lf then [Prompt(ConnectLoopback)] else []);
      if lf {
        assert head[1..][1..] == [];
      }
    }
    var p := PlugEvents();
    assert Staged(p, BringUp, 0, 2) by {
      assert p[1..][1..][1..] == [Set(HexactrlConnected, true), Prompt(PlugHexactrlPower), Set(HexactrlPowered, true)];
      assert p[1..][1..][1..][1..][1..] == [Set(HexactrlPowered, true)];
      assert p[1..][1..][1..][1..][1..][1..] == [];
    }
    var k := KriaEvents(kria);
    assert Staged(k, BringUp, 2, 2) by {
      if kria {
        assert k[1..][1..] == [Set(HexactrlPowered, true)];
        assert k[1..][1..][1..] == [];
      }
    }
    StagedConcat(head, p, BringUp, 0, 0, 2);
    StagedConcat(head + p, k, BringUp, 0, 2, 2);
  }

  /** The log of connecting the boards, piece by piece. */
  lemma ConnectBoardsEvents(b: Bench, lf: bool)
    ensures ConnectBoards(b, lf).log == b.log + TrophyPrompts(lf) + PlugEvents() + KriaEvents(b.setup.kria)
  {
    var c2 := if lf then Tell(Tell(b, ConnectTrophy), ConnectLoopback) else Tell(b, ConnectTrophy);
    assert c2.log == b.log + TrophyPrompts(lf);
    var c3 := SetFlag(c2, TrophyConnected, true);
    var c4 := TellRaise(Tell(c3, EnsureNothingPowered), ConnectHexactrl, HexactrlConnected);
    var c5 := TellRaise(c4, PlugHexactrlPower, HexactrlPowered);
    assert c5.log == c2.log + PlugEvents();
    assert ConnectBoards(b, lf).log == c5.log + KriaEvents(b.setup.kria);
  }

  /** The boards are connected in bring-up order: trophy, hexacontroller, its power. */
  lemma ConnectBoardsLog(b: Bench, lf: bool) returns (es: seq<Event>)
    ensures ConnectBoards(b, lf).log == b.log + es && Staged(es, BringUp, 0, 2)
  {
    ConnectBoardsEvents(b, lf);
    BoardEventsStaged(lf, b.setup.kria);
    es := TrophyPrompts(lf) + PlugEvents() + KriaEvents(b.setup.kria);
    assert b.log + TrophyPrompts(lf) + PlugEvents() + KriaEvents(b.setup.kria) == b.log + es;
  }

  /** A call on a real handle, absent in debug mode. */
  function Unless(debug: bool, e: Event): seq<Event> {
    if debug then [] else [e]
  }

  /** The second half of `configure_test_stand` when every step succeeds: stand, DCDC power, firmware, servers, DAQ client. */
  function AfterBoxEvents(debug: bool, lf: bool): seq<Event> {
    Unless(debug, StandConnect) + [Set(HexactrlAccessed, true), Prompt(PowerDcdc(lf)), Set(DCDCPowered, true)]
    + (Unless(debug, StandLoadFw) + [Set(FWLoaded, true)])
    + (Unless(debug, StandStartServers) + [Set(DAQServer, true), Set(I2CServer, true)])
    + (Unless(debug, PcConnect) + [Set(DAQClient, true)])
  }

  /** A call on a handle followed by one flag change is a run of that flag's stage. */
  lemma UnlessThenSet(debug: bool, e: Event, f: Flag)
    requires !e.Set? && f != BoxClosed
    ensures Staged(Unless(debug, e) + [Set(f, true)], BringUp, Stage(BringUp, f), Stage(BringUp, f))
  {
    StagedSet(f, true, BringUp);
    if !debug {
      assert ([e] + [Set(f, true)])[1..] == [Set(f, true)];
    } else {
      assert Unless(debug, e) + [Set(f, true)] == [Set(f, true)];
    }
  }

  lemma AfterBoxEventsStaged(debug: bool, lf: bool)
    ensures Staged(AfterBoxEvents(debug, lf), BringUp, 3, 7)
  {
    var stand := Unless(debug, StandConnect) + [Set(HexactrlAccessed, true), Prompt(PowerDcdc(lf)), Set(DCDCPowered, true)];
    StandEventsStaged(debug, lf);
    var fw := Unless(debug, StandLoadFw) + [Set(FWLoaded, true)];
    UnlessThenSet(debug, StandLoadFw, FWLoaded);
    var servers := Unless(debug, StandStartServers) + [Set(DAQServer, true), Set(I2CServer, true)];
    ServerEventsStaged(debug);
    var client := Unless(debug, PcConnect) + [Set(DAQClient, true)];
    UnlessThenSet(debug, PcConnect, DAQClient);
    StagedConcat(stand, fw, BringUp, 3, 4, 5);
    StagedConcat(stand + fw, servers, BringUp, 3, 5, 6);
    StagedConcat(stand + fw + servers, client, BringUp, 3, 6, 7);
  }

  lemma StandEventsStaged(debug: bool, lf: bool)
    ensures Staged(Unless(debug, StandConnect) + [Set(HexactrlAccessed, true), Prompt(PowerDcdc(lf)), Set(DCDCPowered, true)],
                   BringUp, 3, 4)
  {
    var stand := Unless(debug, StandConnect) + [Set(HexactrlAccessed, true), Prompt(PowerDcdc(lf)), Set(DCDCPowered, true)];
    assert Staged(stand, BringUp, 3, 4) by {
      var t := [Set(HexactrlAccessed, true), Prompt(PowerDcdc(lf)), Set(DCDCPowered, true)];
      assert t[1..][1..] == [Set(DCDCPowered, true)];
      StagedSet(DCDCPowered, true, BringUp);
      StagedWiden(t[1..][1..], BringUp, 4, 4, 3, 4);
      assert Staged(t[1..], BringUp, 3, 4);
      assert Staged(t, BringUp, 3, 4);
      if !debug {
        assert stand[1..] == t;
      } else {
        assert stand == t;
      }
    }
  }

  lemma ServerEventsStaged(debug: bool)
    ensures Staged(Unless(debug, StandStartServers) + [Set(DAQServer, true), Set(I2CServer, true)], BringUp, 6, 6)
  {
    var servers := Unless(debug, StandStartServers) + [Set(DAQServer, true), Set(I2CServer, true)];
    assert Staged(servers, BringUp, 6, 6) by {
      var t := [Set(DAQServer, true), Set(I2CServer, true)];
      assert t[1..] == [Set(I2CServer, true)];
      StagedSet(I2CServer, true, BringUp);
      if !debug {
        assert servers[1..] == t;
      } else {
        assert servers == t;
      }
    }
  }

  /** A PC start that continues logs the PC connection (outside debug mode) and then the DAQ-client LED. */
  lemma StartPcLog(b: Bench, cfg: Config, w: StandWorld)
    requires StartPc(b, cfg, w).out == Ok(CONT)
    ensures StartPc(b, cfg, w).bench.log == b.log + (Unless(Get(b.flags, DebugMode), PcConnect) + [Set(DAQClient, true)])
  {
  }

  /** A service start that continues logs the servers and their two LEDs, then the PC start. */
  lemma StartServicesLog(b: Bench, cfg: Config, w: StandWorld)
    requires StartServices(b, cfg, w).out == Ok(CONT)
    ensures StartServices(b, cfg, w).bench.log == b.log
      + (Unless(Get(b.flags, DebugMode), StandStartServers) + [Set(DAQServer, true), Set(I2CServer, true)])
      + (Unless(Get(b.flags, DebugMode), PcConnect) + [Set(DAQClient, true)])
  {
    var debug := Get(b.flags, DebugMode);
    var b1 := SetFlag(SetFlag(if debug then b else Emit(b, StandStartServers), DAQServer, true), I2CServer, true);
    assert b1.log == b.log + (Unless(debug, StandStartServers) + [Set(DAQServer, true), Set(I2CServer, true)]);
    StartPcLog(b1, cfg, w);
  }

  /** A firmware load that continues logs the load and its LED, then the services, then the PC start. */
  lemma LoadFirmwareLog(b: Bench, cfg: Config, w: StandWorld)
    requires LoadFirmware(b, cfg, w).out == Ok(CONT)
    ensures LoadFirmware(b, cfg, w).bench.log == b.log
      + (Unless(Get(b.flags, DebugMode), StandLoadFw) + [Set(FWLoaded, true)])
      + (Unless(Get(b.flags, DebugMode), StandStartServers) + [Set(DAQServer, true), Set(I2CServer, true)])
      + (Unless(Get(b.flags, DebugMode), PcConnect) + [Set(DAQClient, true)])
  {
    var debug := Get(b.flags, DebugMode);
    var b1 := SetFlag(if debug then b else Emit(b, StandLoadFw), FWLoaded, true);
    assert b1.log == b.log + (Unless(debug, StandLoadFw) + [Set(FWLoaded, true)]);
    StartServicesLog(b1, cfg, w);
  }

  /** When the bring-up after the box succeeds, its log is exactly the succeeding calls and flags. */
  lemma AfterBoxLog(b: Bench, cfg: Config, w: StandWorld, lf: bool)
    requires AfterBox(b, cfg, w, lf).out == Ok(CONT)
    ensures AfterBox(b, cfg, w, lf).bench.log == b.log + AfterBoxEvents(Get(b.flags, DebugMode), lf)
  {
    var debug := Get(b.flags, DebugMode);
    var b1 := StandUp(b, lf);
    assert b1.log == b.log + (Unless(debug, StandConnect) + [Set(HexactrlAccessed, true), Prompt(PowerDcdc(lf)), Set(DCDCPowered, true)]);
    LoadFirmwareLog(b1, cfg, w);
    AppendFour(b.log, Unless(debug, StandConnect) + [Set(HexactrlAccessed, true), Prompt(PowerDcdc(lf)), Set(DCDCPowered, true)],
               Unless(debug, StandLoadFw) + [Set(FWLoaded, true)],
               Unless(debug, StandStartServers) + [Set(DAQServer, true), Set(I2CServer, true)],
               Unless(debug, PcConnect) + [Set(DAQClient, true)]);
  }

  lemma AppendFour(l: seq<Event>, a: seq<Event>, b: seq<Event>, c: seq<Event>, d: seq<Event>)
    ensures l + (a + b + c + d) == l + a + b + c + d
  {
  }

  /** When the board is configured, its log raises the bring-up flags in stage order. */
  lemma ConfigureBoardLog(b: Bench, cfg: Config, w: StandWorld, lf: bool) returns (es: seq<Event>)
    requires ConfigureBoard(b, cfg, w, lf).out == Ok(CONT)
    ensures ConfigureBoard(b, cfg, w, lf).bench.log == b.log + es && Staged(es, BringUp, 0, 7)
  {
    var b1 := ConnectBoards(b, lf);
    var a := ConnectBoardsLog(b, lf);
    var s2 := BoardsAndBox(b, cfg, lf);
    var box: seq<Event> := [];
    if Get(b1.flags, LiveModule) {
      box := OpenCloseBoxLog(b1, cfg, true);
      BoxOnlyStaged(box, true, BringUp, 2, 2);
    }
    assert s2.bench.log == b1.log + box;
    StagedChain(b.log, b1.log, s2.bench.log, a, box, BringUp, 0, 2, 2);
    var r := AfterBox(s2.bench, cfg, w, lf);
    AfterBoxLog(s2.bench, cfg, w, lf);
    var c := AfterBoxEvents(Get(s2.bench.flags, DebugMode), lf);
    AfterBoxEventsStaged(Get(s2.bench.flags, DebugMode), lf);
    StagedWiden(c, BringUp, 3, 7, 2, 7);
    StagedChain(b.log, s2.bench.log, r.bench.log, a + box, c, BringUp, 0, 2, 7);
    es := a + box + c;
  }

  /**
   * A configured test stand has raised its flags in the bring-up order:
   * trophy, hexacontroller, its power, access, DCDC power, firmware,
   * servers, DAQ client.
   */
  lemma ConfigureLog(b: Bench, cfg: Config, w: StandWorld) returns (es: seq<Event>)
    requires ConfigureStep(b, cfg, w).out == Ok(CONT)
    ensures ConfigureStep(b, cfg, w).bench.log == b.log + es && Staged(es, BringUp, 0, 7)
  {
    match ConfigureKind(b.setup.serial)
    case Err(e) =>
    case Ok((d, s)) => es := ConfigureBoardLog(b, cfg, w, IsLF(d, s));
  }
}
