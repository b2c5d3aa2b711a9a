/**
 * The bench-session procedures: opening and closing the dark box, the
 * nested teardown `end_session`, the bring-up sequences and the pedestal
 * runs. Each procedure is a method on the shared session record, proved
 * equal to a step function on its snapshot; the ordering and postcondition
 * properties are proved about the step functions.
 */
module Interaction {
  import opened Wrappers
  import opened ModuleSerial
  import opened Bench

  /** Density and shape of the serial, for the procedures that accept L: F L R T B 5 and H: F B L T R. */
  function SessionKind(serial: string): (r: Result<(char, char)>)
    ensures r.Err? ==> r.error == IndexError || r.error == NotImplemented
    ensures r.Ok? ==> r.value.0 != 'L' || r.value.1 in "FLRTB5"
    ensures r.Ok? ==> r.value.0 != 'H' || r.value.1 in "FBLTR"
  {
    var (d, s) :- Kind(serial);
    if d == 'L' && s !in "FLRTB5" then Err(NotImplemented)
    else if d == 'H' && s !in "FBLTR" then Err(NotImplemented)
    else Ok((d, s))
  }

  /** The low-density full board uses a DCDC and a loopback board; every other board uses low-voltage cables. */
  function IsLF(d: char, s: char): bool {
    d == 'L' && s == 'F'
  }

  // ---------------------------------------------------------------------
  // open_close_box
  // ---------------------------------------------------------------------

  /** What the box is taken to be: the HV switch when a supply object and a switch exist, else the stored flag. */
  function SwitchReading(b: Bench, cfg: Config): bool {
    if b.gear.supply == Keithley && cfg.hasHVSwitch then b.gear.lid else Get(b.flags, BoxClosed)
  }

  /** The lid is moved to `close`. */
  function Lid(b: Bench, close: bool): Bench {
    b.(gear := b.gear.(lid := close))
  }

  /** The supply's output is switched. */
  function Output(b: Bench, on: bool): Bench {
    b.(gear := b.gear.(supplyOutput := on))
  }

  /**
   * `open_close_box(state, close)`: when the stored flag or the switch
   * disagrees with `close`, the operator is told to move the lid (debug mode
   * or no switch) or the switch is polled until it reads `close`; then the
   * flag is set. Polling through a placeholder supply fails.
   */
  function OpenCloseBoxStep(b: Bench, cfg: Config, close: bool): (r: Step<()>)
  {
    if Get(b.flags, BoxClosed) != close || SwitchReading(b, cfg) != close then
      if Get(b.flags, DebugMode) || !cfg.hasHVSwitch then
        Step(SetFlag(Lid(Tell(b, MoveLid(close)), close), BoxClosed, close), Ok(()))
      else if b.gear.supply != Keithley then
        Step(b, Err(AttributeError))
      else
        Step(SetFlag(Lid(Emit(b, WaitForLid(close)), close), BoxClosed, close), Ok(()))
    else
      Step(b, Ok(()))
  }

  // ---------------------------------------------------------------------
  // end_session
  // ---------------------------------------------------------------------

  /** `end_session`, first step: an HV output that is on is switched off. */
  function HVOffStep(b: Bench): (r: Step<()>)
  {
    if !Get(b.flags, HVOutputOn) then Step(b, Ok(()))
    else if b.gear.supply != Keithley then Step(b, Err(AttributeError))
    else Step(SetFlag(Output(Emit(b, SupplyOff), false), HVOutputOn, false), Ok(()))
  }

  /** The flags `end_session` lowers, in order, once the hexacontroller is shut down. */
  function ShutdownOrder(): seq<Flag> {
    [FWLoaded, DAQServer, I2CServer, HexactrlAccessed]
  }

  /** `end_session`, hexacontroller shutdown: an accessed hexacontroller is shut down and its firmware and server flags go down. */
  function StandShutdownStep(b: Bench): (r: Step<()>)
  {
    if !Get(b.flags, HexactrlAccessed) then Step(b, Ok(()))
    else if !Get(b.flags, DebugMode) && !b.gear.stand then Step(b, Err(AttributeError))
    else
      var b1 := if Get(b.flags, DebugMode) then b else Emit(b, StandShutdown);
      Step(LowerEach(b1, ShutdownOrder()), Ok(()))
  }

  /** `end_session`, hexacontroller power-down: a powered hexacontroller is shut down, the box opened and its power removed. */
  function HexPowerDownStep(b: Bench, cfg: Config): (r: Step<()>)
  {
    if !Get(b.flags, HexactrlPowered) then Step(b, Ok(()))
    else
      var s1 := StandShutdownStep(b);
      if s1.out.Err? then s1 else
      var s2 := OpenCloseBoxStep(s1.bench, cfg, false);
      if s2.out.Err? then s2 else
      Step(PowerOff(s2.bench), Ok(()))
  }

  /** `end_session`, controller power: a Kria is switched off first; then the controller's power is unplugged. */
  function PowerOff(b: Bench): Bench {
    var b1 := if b.setup.kria then TellLower(b, KriaSwitchOff, HexactrlPowered) else b;
    TellLower(b1, UnplugHexactrlPower, HexactrlPowered)
  }

  /** `end_session`, hexacontroller disconnection: a connected hexacontroller is powered down, the box opened and the controller unplugged. */
  function HexDisconnectStep(b: Bench, cfg: Config): (r: Step<()>)
  {
    if !Get(b.flags, HexactrlConnected) then Step(b, Ok(()))
    else
      var s1 := HexPowerDownStep(b, cfg);
      if s1.out.Err? then s1 else
      var s2 := OpenCloseBoxStep(s1.bench, cfg, false);
      if s2.out.Err? then s2 else
      Step(TellLower(s2.bench, DisconnectHexactrl, HexactrlConnected), Ok(()))
  }

  /** `end_session`, trophy disconnection: the trophy (and the loopback board of an LF module) is disconnected. */
  function TrophyOffStep(b: Bench, lf: bool): Bench {
    if Get(b.flags, TrophyConnected) then
      TellLower(if lf then Tell(b, DisconnectLoopback) else b, DisconnectTrophy, TrophyConnected)
    else b
  }

  /** `end_session`, DCDC depowering: a powered DCDC is depowered, then the hexacontroller is taken down. */
  function DepowerStep(b: Bench, cfg: Config, lf: bool): (r: Step<()>)
  {
    if Get(b.flags, DCDCPowered) then HexDisconnectStep(TellLower(b, DepowerDcdc(lf), DCDCPowered), cfg)
    else Step(b, Ok(()))
  }

  /** `end_session`, unplugging: trophy (and loopback) off, then the DCDC or low-voltage cables are unplugged. */
  function UnplugDcdc(b: Bench, lf: bool): Bench {
    TellLower(TrophyOffStep(b, lf), DisconnectDcdc(lf), DCDCConnected)
  }

  /** `end_session`, DCDC teardown: with the DCDC connected, depower it, take the hexacontroller down, then unplug trophy and DCDC. */
  function DcdcTeardownStep(b: Bench, cfg: Config, lf: bool): (r: Step<()>)
  {
    if !Get(b.flags, DCDCConnected) then Step(b, Ok(()))
    else
      var s1 := DepowerStep(b, cfg, lf);
      if s1.out.Err? then s1 else
      Step(UnplugDcdc(s1.bench, lf), Ok(()))
  }

  /** `end_session`, last step: the HV cable is unplugged last. */
  function HVCableOffStep(b: Bench): Bench {
    if Get(b.flags, HVConnected) then TellLower(b, DisconnectHVCable, HVConnected) else b
  }

  /**
   * `end_session(state)`: check the board kind, switch the HV output off,
   * take down DCDC and hexacontroller in dependency order, open the box and
   * finally unplug the HV cable.
   */
  function EndSessionStep(b: Bench, cfg: Config): (r: Step<()>)
  {
    match SessionKind(b.setup.serial)
    case Err(e) => Step(b, Err(e))
    case Ok((d, s)) =>
      var s1 := HVOffStep(b);
      if s1.out.Err? then s1 else
      var s2 := DcdcTeardownStep(s1.bench, cfg, IsLF(d, s));
      if s2.out.Err? then s2 else
      var s3 := OpenCloseBoxStep(s2.bench, cfg, false);
      if s3.out.Err? then s3 else
      Step(HVCableOffStep(s3.bench), Ok(()))
  }

  // ---------------------------------------------------------------------
  // What the teardown does to the flags and the log
  // ---------------------------------------------------------------------

  /** `after` is `before` with exactly the flags of `fs` lowered. */
  predicate LoweredExactly(before: Flags, after: Flags, fs: set<Flag>) {
    forall f :: Get(after, f) == (if f in fs then false else Get(before, f))
  }

  /** Lowering one set of flags and then another lowers their union. */
  lemma LoweredTrans(a: Flags, b: Flags, c: Flags, s1: set<Flag>, s2: set<Flag>)
    requires LoweredExactly(a, b, s1) && LoweredExactly(b, c, s2)
    ensures LoweredExactly(a, c, s1 + s2)
  {
  }

  /** The only flag changes in `es` are to the box flag, and they all set it to `close`. */
  predicate BoxOnly(es: seq<Event>, close: bool)
    decreases |es|
  {
    es == [] || ((es[0].Set? ==> es[0].flag == BoxClosed && es[0].value == close) && BoxOnly(es[1..], close))
  }

  lemma {:induction false} BoxOnlyStaged(es: seq<Event>, close: bool, o: Order, lo: nat, hi: nat)
    requires BoxOnly(es, close)
    ensures Staged(es, o, lo, hi)
    ensures !close ==> OnlyLowers(es)
    decreases |es|
  {
    if es != [] {
      BoxOnlyStaged(es[1..], close, o, lo, hi);
    }
  }

  /** A session record that differs from `b` at most in its flags, lid, supply output and log. */
  predicate SameSetup(b: Bench, b': Bench) {
    b'.setup == b.setup && b'.data == b.data
    && b'.gear.supply == b.gear.supply && b'.gear.stand == b.gear.stand && b'.gear.pc == b.gear.pc
  }

  /** `open_close_box` logs nothing but a prompt or a poll and a change of the box flag to `close`. */
  lemma OpenCloseBoxLog(b: Bench, cfg: Config, close: bool) returns (es: seq<Event>)
    ensures OpenCloseBoxStep(b, cfg, close).bench.log == b.log + es
    ensures BoxOnly(es, close)
    ensures es != [] ==> Get(b.flags, BoxClosed) != close || SwitchReading(b, cfg) != close
  {
    if Get(b.flags, BoxClosed) != close || SwitchReading(b, cfg) != close {
      if Get(b.flags, DebugMode) || !cfg.hasHVSwitch {
        es := [Prompt(MoveLid(close)), Set(BoxClosed, close)];
      } else if b.gear.supply != Keithley {
        es := [];
      } else {
        es := [WaitForLid(close), Set(BoxClosed, close)];
      }
    } else {
      es := [];
    }
  }

  /**
   * `open_close_box` ends with the flag and the switch reading `close`, and
   * touches only the box flag and the lid. It prompts or polls exactly when
   * the flag or the switch reading differed from `close`. It fails only when
   * it would have to poll a placeholder supply, and then changes nothing.
   */
  lemma OpenCloseBoxOutcome(b: Bench, cfg: Config, close: bool)
    ensures var r := OpenCloseBoxStep(b, cfg, close);
      var differs := Get(b.flags, BoxClosed) != close || SwitchReading(b, cfg) != close;
      && SameSetup(b, r.bench)
      && r.bench.gear.supplyOutput == b.gear.supplyOutput
      && (r.out.Err? <==> differs && !Get(b.flags, DebugMode) && cfg.hasHVSwitch && b.gear.supply != Keithley)
      && (r.out.Err? ==> r.bench == b && r.out.error == AttributeError)
      && (r.out.Ok? ==> Get(r.bench.flags, BoxClosed) == close && SwitchReading(r.bench, cfg) == close)
      && (r.out.Ok? ==> (r.bench.log == b.log <==> !differs))
      && (forall f :: f != BoxClosed ==> Get(r.bench.flags, f) == Get(b.flags, f))
      && (!close && r.out.Ok? ==> LoweredExactly(b.flags, r.bench.flags, {BoxClosed}))
  {
    var es := OpenCloseBoxLog(b, cfg, close);
    var r := OpenCloseBoxStep(b, cfg, close);
    if Get(b.flags, BoxClosed) != close || SwitchReading(b, cfg) != close {
      assert r.out.Ok? ==> |r.bench.log| == |b.log| + 2;
    }
  }

  /** The HV switch-off of `end_session` logs the switch-off and the lowering of the HV output flag, and nothing else. */
  lemma HVOffLog(b: Bench) returns (es: seq<Event>)
    ensures HVOffStep(b).bench.log == b.log + es
    ensures TornDown(es, 0, 0)
    ensures Get(b.flags, HVOutputOn) && HVOffStep(b).out.Ok? ==> es == [SupplyOff, Set(HVOutputOn, false)]
  {
    if Get(b.flags, HVOutputOn) && b.gear.supply == Keithley {
      es := [SupplyOff, Set(HVOutputOn, false)];
      assert es[1..][1..] == [];
    } else {
      es := [];
    }
  }

  lemma HVOffFlags(b: Bench)
    ensures var r := HVOffStep(b);
      && SameSetup(b, r.bench) && r.bench.gear.lid == b.gear.lid
      && (r.out.Err? ==> r.out.error == AttributeError && Get(b.flags, HVOutputOn))
      && (r.out.Ok? ==> LoweredExactly(b.flags, r.bench.flags, {HVOutputOn}))
  {
  }

  /** The flags the hexacontroller shutdown of `end_session` lowers: the accessed flag with the firmware and server flags. */
  function ShutdownFlags(fl: Flags): set<Flag> {
    if Get(fl, HexactrlAccessed) then {FWLoaded, DAQServer, I2CServer, HexactrlAccessed} else {}
  }

  lemma StandShutdownLog(b: Bench) returns (es: seq<Event>)
    ensures StandShutdownStep(b).bench.log == b.log + es
    ensures TornDown(es, 2, 2)
  {
    var fs := ShutdownOrder();
    if !Get(b.flags, HexactrlAccessed) || (!Get(b.flags, DebugMode) && !b.gear.stand) {
      es := [];
    } else if Get(b.flags, DebugMode) {
      LoweringStaged(fs, Teardown, 2);
      es := Lowering(fs);
    } else {
      LoweringStaged(fs, Teardown, 2);
      es := [StandShutdown] + Lowering(fs);
      StagedSkip(StandShutdown, Lowering(fs), Teardown, 2, 2);
    }
  }

  lemma StandShutdownFlags(b: Bench)
    ensures var r := StandShutdownStep(b);
      && SameSetup(b, r.bench) && r.bench.gear == b.gear
      && (r.out.Err? ==> r.out.error == AttributeError)
      && (r.out.Ok? ==> LoweredExactly(b.flags, r.bench.flags, ShutdownFlags(b.flags)))
  {
    LowerFlagsEffect(b.flags, ShutdownOrder());
  }

  lemma TellLowerFlags(b: Bench, i: Instruction, f: Flag)
    ensures LoweredExactly(b.flags, TellLower(b, i, f).flags, {f})
    ensures SameSetup(b, TellLower(b, i, f)) && TellLower(b, i, f).gear == b.gear
    ensures TellLower(b, i, f).log == b.log + [Prompt(i), Set(f, false)]
  {
  }

  /** The flags the hexacontroller power-down of `end_session` lowers. */
  function PowerDownFlags(fl: Flags): set<Flag> {
    if Get(fl, HexactrlPowered) then ShutdownFlags(fl) + {BoxClosed, HexactrlPowered} else {}
  }

  lemma PowerOffLog(b: Bench) returns (es: seq<Event>)
    ensures PowerOff(b).log == b.log + es
    ensures TornDown(es, 3, 3)
    ensures SameSetup(b, PowerOff(b)) && PowerOff(b).gear == b.gear
    ensures LoweredExactly(b.flags, PowerOff(b).flags, {HexactrlPowered})
  {
    var unplug := [Prompt(UnplugHexactrlPower), Set(HexactrlPowered, false)];
    TellLowerEvents(UnplugHexactrlPower, HexactrlPowered, Teardown);
    if b.setup.kria {
      var kria := [Prompt(KriaSwitchOff), Set(HexactrlPowered, false)];
      TellLowerEvents(KriaSwitchOff, HexactrlPowered, Teardown);
      StagedConcat(kria, unplug, Teardown, 3, 3, 3);
      OnlyLowersConcat(kria, unplug);
      es := kria + unplug;
    } else {
      es := unplug;
    }
  }

  lemma HexPowerDownLog(b: Bench, cfg: Config) returns (es: seq<Event>)
    ensures HexPowerDownStep(b, cfg).bench.log == b.log + es
    ensures TornDown(es, 2, 3)
  {
    if !Get(b.flags, HexactrlPowered) {
      es := [];
    } else if StandShutdownStep(b).out.Err? {
      es := StandShutdownLog(b);
      StagedWiden(es, Teardown, 2, 2, 2, 3);
    } else if OpenCloseBoxStep(StandShutdownStep(b).bench, cfg, false).out.Err? {
      es := HexPowerDownLogOpened(b, cfg);
      StagedWiden(es, Teardown, 2, 2, 2, 3);
    } else {
      es := HexPowerDownLogOk(b, cfg);
    }
  }

  /** The shutdown and the opening of the box, as the power-down logs them. */
  lemma HexPowerDownLogOpened(b: Bench, cfg: Config) returns (es: seq<Event>)
    ensures OpenCloseBoxStep(StandShutdownStep(b).bench, cfg, false).bench.log == b.log + es
    ensures TornDown(es, 2, 2)
  {
    var b1 := StandShutdownStep(b).bench;
    var e1 := StandShutdownLog(b);
    var e2 := OpenCloseBoxLog(b1, cfg, false);
    BoxOnlyStaged(e2, false, Teardown, 2, 2);
    TornDownChain(b.log, b1.log, OpenCloseBoxStep(b1, cfg, false).bench.log, e1, e2, 2, 2, 2, 2);
    es := e1 + e2;
  }

  lemma HexPowerDownLogOk(b: Bench, cfg: Config) returns (es: seq<Event>)
    ensures PowerOff(OpenCloseBoxStep(StandShutdownStep(b).bench, cfg, false).bench).log == b.log + es
    ensures TornDown(es, 2, 3)
  {
    var b2 := OpenCloseBoxStep(StandShutdownStep(b).bench, cfg, false).bench;
    var e12 := HexPowerDownLogOpened(b, cfg);
    var e3 := PowerOffLog(b2);
    TornDownChain(b.log, b2.log, PowerOff(b2).log, e12, e3, 2, 2, 3, 3);
    es := e12 + e3;
  }

  lemma HexPowerDownFlags(b: Bench, cfg: Config)
    ensures var r := HexPowerDownStep(b, cfg);
      && SameSetup(b, r.bench)
      && (r.out.Err? ==> r.out.error == AttributeError)
      && (r.out.Ok? ==> LoweredExactly(b.flags, r.bench.flags, PowerDownFlags(b.flags)))
  {
    if Get(b.flags, HexactrlPowered) {
      var s1 := StandShutdownStep(b);
      StandShutdownFlags(b);
      if s1.out.Ok? {
        var s2 := OpenCloseBoxStep(s1.bench, cfg, false);
        OpenCloseBoxOutcome(s1.bench, cfg, false);
        if s2.out.Ok? {
          LoweredTrans(b.flags, s1.bench.flags, s2.bench.flags, ShutdownFlags(b.flags), {BoxClosed});
          var _ := PowerOffLog(s2.bench);
          LoweredTrans(b.flags, s2.bench.flags, PowerOff(s2.bench).flags, ShutdownFlags(b.flags) + {BoxClosed}, {HexactrlPowered});
        }
      }
    }
  }

  /** `do_something_window(i)` followed by lowering `f` is a teardown run of `f`'s stage. */
  lemma TellLowerLog(b: Bench, i: Instruction, f: Flag) returns (es: seq<Event>)
    requires f != BoxClosed
    ensures TellLower(b, i, f).log == b.log + es
    ensures TornDown(es, Stage(Teardown, f), Stage(Teardown, f))
  {
    TellLowerEvents(i, f, Teardown);
    es := [Prompt(i), Set(f, false)];
  }

  lemma HexDisconnectLogOpened(b: Bench, cfg: Config) returns (es: seq<Event>)
    ensures OpenCloseBoxStep(HexPowerDownStep(b, cfg).bench, cfg, false).bench.log == b.log + es
    ensures TornDown(es, 2, 3)
  {
    var b1 := HexPowerDownStep(b, cfg).bench;
    var e1 := HexPowerDownLog(b, cfg);
    var e2 := OpenCloseBoxLog(b1, cfg, false);
    BoxOnlyStaged(e2, false, Teardown, 3, 3);
    TornDownChain(b.log, b1.log, OpenCloseBoxStep(b1, cfg, false).bench.log, e1, e2, 2, 3, 3, 3);
    es := e1 + e2;
  }

  lemma HexDisconnectLogOk(b: Bench, cfg: Config) returns (es: seq<Event>)
    ensures TellLower(OpenCloseBoxStep(HexPowerDownStep(b, cfg).bench, cfg, false).bench,
                      DisconnectHexactrl, HexactrlConnected).log == b.log + es
    ensures TornDown(es, 2, 4)
  {
    var b2 := OpenCloseBoxStep(HexPowerDownStep(b, cfg).bench, cfg, false).bench;
    var e12 := HexDisconnectLogOpened(b, cfg);
    var e3 := TellLowerLog(b2, DisconnectHexactrl, HexactrlConnected);
    TornDownChain(b.log, b2.log, TellLower(b2, DisconnectHexactrl, HexactrlConnected).log, e12, e3, 2, 3, 4, 4);
    es := e12 + e3;
  }

  /** The hexacontroller disconnection of `end_session` logs a teardown run of stages 2 to 4: shutdown, power, connection. */
  lemma HexDisconnectLog(b: Bench, cfg: Config) returns (es: seq<Event>)
    ensures HexDisconnectStep(b, cfg).bench.log == b.log + es
    ensures TornDown(es, 2, 4)
  {
    if !Get(b.flags, HexactrlConnected) {
      es := [];
    } else if HexPowerDownStep(b, cfg).out.Err? {
      es := HexPowerDownLog(b, cfg);
      TornDownWiden(es, 2, 3, 2, 4);
    } else if OpenCloseBoxStep(HexPowerDownStep(b, cfg).bench, cfg, false).out.Err? {
      es := HexDisconnectLogOpened(b, cfg);
      TornDownWiden(es, 2, 3, 2, 4);
    } else {
      es := HexDisconnectLogOk(b, cfg);
    }
  }

  /** The DCDC depowering of `end_session` logs a teardown run of stages 1 to 4. */
  lemma DepowerLog(b: Bench, cfg: Config, lf: bool) returns (es: seq<Event>)
    ensures DepowerStep(b, cfg, lf).bench.log == b.log + es
    ensures TornDown(es, 1, 4)
  {
    if Get(b.flags, DCDCPowered) {
      var b0 := TellLower(b, DepowerDcdc(lf), DCDCPowered);
      var e0 := TellLowerLog(b, DepowerDcdc(lf), DCDCPowered);
      var e1 := HexDisconnectLog(b0, cfg);
      TornDownChain(b.log, b0.log, HexDisconnectStep(b0, cfg).bench.log, e0, e1, 1, 1, 2, 4);
      es := e0 + e1;
    } else {
      es := [];
    }
  }

  /** The unplugging of `end_session` logs a teardown run of stages 5 and 6. */
  lemma UnplugDcdcLog(b: Bench, lf: bool) returns (es: seq<Event>)
    ensures UnplugDcdc(b, lf).log == b.log + es
    ensures TornDown(es, 5, 6)
  {
    var b1 := TrophyOffStep(b, lf);
    var e1: seq<Event>;
    if Get(b.flags, TrophyConnected) {
      var e := TellLowerLog(if lf then Tell(b, DisconnectLoopback) else b, DisconnectTrophy, TrophyConnected);
      if lf {
        StagedSkip(Prompt(DisconnectLoopback), e, Teardown, 5, 5);
        e1 := [Prompt(DisconnectLoopback)] + e;
      } else {
        e1 := e;
      }
    } else {
      e1 := [];
    }
    var e2 := TellLowerLog(b1, DisconnectDcdc(lf), DCDCConnected);
    TornDownChain(b.log, b1.log, UnplugDcdc(b, lf).log, e1, e2, 5, 5, 6, 6);
    es := e1 + e2;
  }

  /** The DCDC teardown of `end_session` logs a teardown run of stages 1 to 6. */
  lemma DcdcTeardownLog(b: Bench, cfg: Config, lf: bool) returns (es: seq<Event>)
    ensures DcdcTeardownStep(b, cfg, lf).bench.log == b.log + es
    ensures TornDown(es, 1, 6)
  {
    if !Get(b.flags, DCDCConnected) {
      es := [];
    } else if DepowerStep(b, cfg, lf).out.Err? {
      es := DepowerLog(b, cfg, lf);
      TornDownWiden(es, 1, 4, 1, 6);
    } else {
      var b1 := DepowerStep(b, cfg, lf).bench;
      var e1 := DepowerLog(b, cfg, lf);
      var e2 := UnplugDcdcLog(b1, lf);
      TornDownChain(b.log, b1.log, UnplugDcdc(b1, lf).log, e1, e2, 1, 4, 5, 6);
      es := e1 + e2;
    }
  }

  /** The HV output (stage 0) and the DCDC teardown (stages 1 to 6), as `end_session` logs them. */
  lemma EndSessionLogDcdc(b: Bench, cfg: Config, lf: bool) returns (es: seq<Event>)
    ensures DcdcTeardownStep(HVOffStep(b).bench, cfg, lf).bench.log == b.log + es
    ensures TornDown(es, 0, 6)
    ensures Get(b.flags, HVOutputOn) && b.gear.supply == Keithley ==>
      |es| >= 2 && es[..2] == [SupplyOff, Set(HVOutputOn, false)]
  {
    var b1 := HVOffStep(b).bench;
    var e1 := HVOffLog(b);
    var e2 := DcdcTeardownLog(b1, cfg, lf);
    TornDownChain(b.log, b1.log, DcdcTeardownStep(b1, cfg, lf).bench.log, e1, e2, 0, 0, 1, 6);
    es := e1 + e2;
    if Get(b.flags, HVOutputOn) && b.gear.supply == Keithley {
      assert es[..2] == e1;
    }
  }

  lemma EndSessionLogOpened(b: Bench, cfg: Config, lf: bool) returns (es: seq<Event>)
    ensures OpenCloseBoxStep(DcdcTeardownStep(HVOffStep(b).bench, cfg, lf).bench, cfg, false).bench.log == b.log + es
    ensures TornDown(es, 0, 6)
    ensures Get(b.flags, HVOutputOn) && b.gear.supply == Keithley ==>
      |es| >= 2 && es[..2] == [SupplyOff, Set(HVOutputOn, false)]
  {
    var b2 := DcdcTeardownStep(HVOffStep(b).bench, cfg, lf).bench;
    var e1 := EndSessionLogDcdc(b, cfg, lf);
    var e2 := OpenCloseBoxLog(b2, cfg, false);
    BoxOnlyStaged(e2, false, Teardown, 6, 6);
    TornDownChain(b.log, b2.log, OpenCloseBoxStep(b2, cfg, false).bench.log, e1, e2, 0, 6, 6, 6);
    es := e1 + e2;
    if Get(b.flags, HVOutputOn) && b.gear.supply == Keithley {
      assert es[..2] == e1[..2];
    }
  }

  lemma EndSessionLogOk(b: Bench, cfg: Config, lf: bool) returns (es: seq<Event>)
    ensures HVCableOffStep(OpenCloseBoxStep(DcdcTeardownStep(HVOffStep(b).bench, cfg, lf).bench, cfg, false).bench).log
      == b.log + es
    ensures TornDown(es, 0, 7)
    ensures Get(b.flags, HVOutputOn) && b.gear.supply == Keithley ==>
      |es| >= 2 && es[..2] == [SupplyOff, Set(HVOutputOn, false)]
  {
    var b3 := OpenCloseBoxStep(DcdcTeardownStep(HVOffStep(b).bench, cfg, lf).bench, cfg, false).bench;
    var e1 := EndSessionLogOpened(b, cfg, lf);
    var e2: seq<Event> := [];
    if Get(b3.flags, HVConnected) {
      e2 := TellLowerLog(b3, DisconnectHVCable, HVConnected);
    }
    TornDownChain(b.log, b3.log, HVCableOffStep(b3).log, e1, e2, 0, 6, 7, 7);
    es := e1 + e2;
    if Get(b.flags, HVOutputOn) && b.gear.supply == Keithley {
      assert es[..2] == e1[..2];
    }
  }

  /**
   * `end_session` either rejects the board kind having done nothing, or logs
   * one teardown run: every flag change lowers a flag, and the flags go down
   * in the order HV output, DCDC power, hexacontroller access with firmware
   * and servers, hexacontroller power, hexacontroller connection, trophy,
   * DCDC connection, HV cable. With the HV output on, the first two entries
   * are the supply's switch-off and the lowering of its flag.
   */
  lemma EndSessionLog(b: Bench, cfg: Config) returns (es: seq<Event>)
    ensures EndSessionStep(b, cfg).bench.log == b.log + es
    ensures TornDown(es, 0, 7)
    ensures SessionKind(b.setup.serial).Err? ==>
      EndSessionStep(b, cfg) == Step(b, Err(SessionKind(b.setup.serial).error))
    ensures SessionKind(b.setup.serial).Ok? && Get(b.flags, HVOutputOn) && b.gear.supply == Keithley ==>
      |es| >= 2 && es[..2] == [SupplyOff, Set(HVOutputOn, false)]
  {
    match SessionKind(b.setup.serial)
    case Err(_) =>
      es := [];
    case Ok((d, s)) =>
      var lf := IsLF(d, s);
      if HVOffStep(b).out.Err? {
        es := HVOffLog(b);
        TornDownWiden(es, 0, 0, 0, 7);
      } else if DcdcTeardownStep(HVOffStep(b).bench, cfg, lf).out.Err? {
        es := EndSessionLogDcdc(b, cfg, lf);
        TornDownWiden(es, 0, 6, 0, 7);
      } else if OpenCloseBoxStep(DcdcTeardownStep(HVOffStep(b).bench, cfg, lf).bench, cfg, false).out.Err? {
        es := EndSessionLogOpened(b, cfg, lf);
        TornDownWiden(es, 0, 6, 0, 7);
      } else {
        es := EndSessionLogOk(b, cfg, lf);
      }
  }

  /** The flags the hexacontroller disconnection of `end_session` lowers. */
  function HexDisconnectFlags(fl: Flags): set<Flag> {
    if Get(fl, HexactrlConnected) then PowerDownFlags(fl) + {BoxClosed, HexactrlConnected} else {}
  }

  /** The flags the DCDC teardown of `end_session` lowers: the hexacontroller's only when the DCDC was also powered. */
  function DcdcFlags(fl: Flags): set<Flag> {
    if !Get(fl, DCDCConnected) then {}
    else {TrophyConnected, DCDCConnected} + (if Get(fl, DCDCPowered) then {DCDCPowered} + HexDisconnectFlags(fl) else {})
  }

  /** The flags `end_session` lowers. */
  function EndSessionFlags(fl: Flags): set<Flag> {
    {HVOutputOn} + DcdcFlags(fl) + {BoxClosed} + {HVConnected}
  }

  lemma HexDisconnectFlagsOk(b: Bench, cfg: Config)
    ensures var r := HexDisconnectStep(b, cfg);
      && SameSetup(b, r.bench)
      && (r.out.Err? ==> r.out.error == AttributeError)
      && (r.out.Ok? ==> LoweredExactly(b.flags, r.bench.flags, HexDisconnectFlags(b.flags)))
  {
    if Get(b.flags, HexactrlConnected) {
      var s1 := HexPowerDownStep(b, cfg);
      HexPowerDownFlags(b, cfg);
      if s1.out.Ok? {
        var s2 := OpenCloseBoxStep(s1.bench, cfg, false);
        OpenCloseBoxOutcome(s1.bench, cfg, false);
        if s2.out.Ok? {
          LoweredTrans(b.flags, s1.bench.flags, s2.bench.flags, PowerDownFlags(b.flags), {BoxClosed});
          TellLowerFlags(s2.bench, DisconnectHexactrl, HexactrlConnected);
          LoweredTrans(b.flags, s2.bench.flags, TellLower(s2.bench, DisconnectHexactrl, HexactrlConnected).flags,
                       PowerDownFlags(b.flags) + {BoxClosed}, {HexactrlConnected});
        }
      }
    }
  }

  lemma DepowerFlags(b: Bench, cfg: Config, lf: bool)
    ensures var r := DepowerStep(b, cfg, lf);
      && SameSetup(b, r.bench)
      && (r.out.Err? ==> r.out.error == AttributeError)
      && (r.out.Ok? ==> LoweredExactly(b.flags, r.bench.flags,
                          if Get(b.flags, DCDCPowered) then {DCDCPowered} + HexDisconnectFlags(b.flags) else {}))
  {
    if Get(b.flags, DCDCPowered) {
      var b0 := TellLower(b, DepowerDcdc(lf), DCDCPowered);
      TellLowerFlags(b, DepowerDcdc(lf), DCDCPowered);
      HexDisconnectFlagsOk(b0, cfg);
      assert HexDisconnectFlags(b0.flags) == HexDisconnectFlags(b.flags);
      var r := HexDisconnectStep(b0, cfg);
      if r.out.Ok? {
        LoweredTrans(b.flags, b0.flags, r.bench.flags, {DCDCPowered}, HexDisconnectFlags(b.flags));
      }
    }
  }

  lemma UnplugDcdcFlags(b: Bench, lf: bool)
    ensures SameSetup(b, UnplugDcdc(b, lf)) && UnplugDcdc(b, lf).gear == b.gear
    ensures LoweredExactly(b.flags, UnplugDcdc(b, lf).flags, {TrophyConnected, DCDCConnected})
  {
    var b1 := TrophyOffStep(b, lf);
    if Get(b.flags, TrophyConnected) {
      TellLowerFlags(if lf then Tell(b, DisconnectLoopback) else b, DisconnectTrophy, TrophyConnected);
    }
    TellLowerFlags(b1, DisconnectDcdc(lf), DCDCConnected);
  }

  lemma DcdcTeardownFlags(b: Bench, cfg: Config, lf: bool)
    ensures var r := DcdcTeardownStep(b, cfg, lf);
      && SameSetup(b, r.bench)
      && (r.out.Err? ==> r.out.error == AttributeError)
      && (r.out.Ok? ==> LoweredExactly(b.flags, r.bench.flags, DcdcFlags(b.flags)))
  {
    if Get(b.flags, DCDCConnected) {
      var s1 := DepowerStep(b, cfg, lf);
      DepowerFlags(b, cfg, lf);
      if s1.out.Ok? {
        UnplugDcdcFlags(s1.bench, lf);
        LoweredTrans(b.flags, s1.bench.flags, UnplugDcdc(s1.bench, lf).flags,
                     if Get(b.flags, DCDCPowered) then {DCDCPowered} + HexDisconnectFlags(b.flags) else {},
                     {TrophyConnected, DCDCConnected});
      }
    }
  }

  /** Which flags the DCDC teardown lowers depends only on the DCDC and hexacontroller flags. */
  lemma DcdcFlagsKept(fl: Flags, fl': Flags)
    requires Get(fl, DCDCConnected) == Get(fl', DCDCConnected) && Get(fl, DCDCPowered) == Get(fl', DCDCPowered)
    requires Get(fl, HexactrlConnected) == Get(fl', HexactrlConnected)
    requires Get(fl, HexactrlPowered) == Get(fl', HexactrlPowered)
    requires Get(fl, HexactrlAccessed) == Get(fl', HexactrlAccessed)
    ensures DcdcFlags(fl) == DcdcFlags(fl')
  {
  }

  lemma EndSessionFlagsDcdc(b: Bench, cfg: Config, lf: bool)
    requires HVOffStep(b).out.Ok?
    requires DcdcTeardownStep(HVOffStep(b).bench, cfg, lf).out.Ok?
    ensures var r := DcdcTeardownStep(HVOffStep(b).bench, cfg, lf).bench;
      SameSetup(b, r) && LoweredExactly(b.flags, r.flags, {HVOutputOn} + DcdcFlags(b.flags))
  {
    var b1 := HVOffStep(b).bench;
    HVOffFlags(b);
    DcdcTeardownFlags(b1, cfg, lf);
    DcdcFlagsKept(b.flags, b1.flags);
    LoweredTrans(b.flags, b1.flags, DcdcTeardownStep(b1, cfg, lf).bench.flags, {HVOutputOn}, DcdcFlags(b.flags));
  }

  lemma EndSessionFlagsThrough(b: Bench, cfg: Config, lf: bool)
    requires HVOffStep(b).out.Ok?
    requires DcdcTeardownStep(HVOffStep(b).bench, cfg, lf).out.Ok?
    requires OpenCloseBoxStep(DcdcTeardownStep(HVOffStep(b).bench, cfg, lf).bench, cfg, false).out.Ok?
    ensures var r := HVCableOffStep(OpenCloseBoxStep(DcdcTeardownStep(HVOffStep(b).bench, cfg, lf).bench, cfg, false).bench);
      SameSetup(b, r) && LoweredExactly(b.flags, r.flags, EndSessionFlags(b.flags)) && !SwitchReading(r, cfg)
  {
    var b2 := DcdcTeardownStep(HVOffStep(b).bench, cfg, lf).bench;
    var b3 := OpenCloseBoxStep(b2, cfg, false).bench;
    EndSessionFlagsDcdc(b, cfg, lf);
    OpenCloseBoxOutcome(b2, cfg, false);
    LoweredTrans(b.flags, b2.flags, b3.flags, {HVOutputOn} + DcdcFlags(b.flags), {BoxClosed});
    if Get(b3.flags, HVConnected) {
      TellLowerFlags(b3, DisconnectHVCable, HVConnected);
    }
    LoweredTrans(b.flags, b3.flags, HVCableOffStep(b3).flags, {HVOutputOn} + DcdcFlags(b.flags) + {BoxClosed}, {HVConnected});
  }

  /**
   * What `end_session` leaves behind: the setup, readings and handles are as
   * they were; it fails only on an unsupported board kind or a placeholder
   * handle; when it completes, exactly the flags of `EndSessionFlags` have
   * been lowered and the box switch, where there is one, reads open.
   */
  lemma EndSessionOutcome(b: Bench, cfg: Config)
    ensures var r := EndSessionStep(b, cfg);
      && SameSetup(b, r.bench)
      && (r.out.Err? ==> r.out.error in {IndexError, NotImplemented, AttributeError})
      && (r.out.Ok? ==> LoweredExactly(b.flags, r.bench.flags, EndSessionFlags(b.flags)) && !SwitchReading(r.bench, cfg))
  {
    match SessionKind(b.setup.serial)
    case Err(_) =>
    case Ok((d, s)) =>
      var lf := IsLF(d, s);
      HVOffFlags(b);
      var b1 := HVOffStep(b).bench;
      if HVOffStep(b).out.Ok? {
        DcdcTeardownFlags(b1, cfg, lf);
        var b2 := DcdcTeardownStep(b1, cfg, lf).bench;
        if DcdcTeardownStep(b1, cfg, lf).out.Ok? {
          OpenCloseBoxOutcome(b2, cfg, false);
          if OpenCloseBoxStep(b2, cfg, false).out.Ok? {
            EndSessionFlagsThrough(b, cfg, lf);
          }
        }
      }
  }

  /**
   * After a completed `end_session` the HV output, the box and the HV cable
   * are down; a connected DCDC has been depowered and unplugged along with
   * the trophy; the hexacontroller, firmware and server flags change only
   * when the DCDC was connected and powered; the DAQ client, live and debug
   * flags never change.
   */
  predicate SafeAfterEnd(before: Flags, fl: Flags) {
    && !Get(fl, HVOutputOn) && !Get(fl, BoxClosed) && !Get(fl, HVConnected)
    && (Get(before, DCDCConnected) ==>
          !Get(fl, DCDCPowered) && !Get(fl, TrophyConnected) && !Get(fl, DCDCConnected))
    && (!(Get(before, DCDCConnected) && Get(before, DCDCPowered)) ==>
          && Get(fl, HexactrlConnected) == Get(before, HexactrlConnected)
          && Get(fl, HexactrlPowered) == Get(before, HexactrlPowered)
          && Get(fl, HexactrlAccessed) == Get(before, HexactrlAccessed)
          && Get(fl, FWLoaded) == Get(before, FWLoaded)
          && Get(fl, DAQServer) == Get(before, DAQServer)
          && Get(fl, I2CServer) == Get(before, I2CServer))
    && Get(fl, DAQClient) == Get(before, DAQClient)
    && Get(fl, LiveModule) == Get(before, LiveModule)
    && Get(fl, DebugMode) == Get(before, DebugMode)
  }

  /** The flags of the hexacontroller teardown. */
  function HexFlags(): set<Flag> {
    {HexactrlConnected, HexactrlPowered, HexactrlAccessed, FWLoaded, DAQServer, I2CServer}
  }

  lemma HexDisconnectFlagsWithin(fl: Flags)
    ensures HexDisconnectFlags(fl) <= HexFlags() + {BoxClosed}
  {
  }

  lemma DcdcFlagsWithin(fl: Flags)
    ensures Get(fl, DCDCConnected) ==> TrophyConnected in DcdcFlags(fl) && DCDCConnected in DcdcFlags(fl)
    ensures Get(fl, DCDCConnected) && Get(fl, DCDCPowered) ==> DCDCPowered in DcdcFlags(fl)
    ensures !(Get(fl, DCDCConnected) && Get(fl, DCDCPowered)) ==> DcdcFlags(fl) !! HexFlags()
    ensures DAQClient !in DcdcFlags(fl) && LiveModule !in DcdcFlags(fl) && DebugMode !in DcdcFlags(fl)
    ensures HVConnected !in DcdcFlags(fl) && HVOutputOn !in DcdcFlags(fl)
  {
    HexDisconnectFlagsWithin(fl);
  }

  lemma EndSessionFlagsMembers(fl: Flags)
    ensures var S := EndSessionFlags(fl);
      && HVOutputOn in S && BoxClosed in S && HVConnected in S
      && (Get(fl, DCDCConnected) ==> TrophyConnected in S && DCDCConnected in S)
      && (Get(fl, DCDCConnected) && Get(fl, DCDCPowered) ==> DCDCPowered in S)
      && (!(Get(fl, DCDCConnected) && Get(fl, DCDCPowered)) ==> S !! HexFlags())
      && DAQClient !in S && LiveModule !in S && DebugMode !in S
  {
    DcdcFlagsWithin(fl);
    assert {HVOutputOn, BoxClosed, HVConnected} !! HexFlags();
  }

  lemma EndSessionFlagsSafe(before: Flags, after: Flags)
    requires LoweredExactly(before, after, EndSessionFlags(before))
    ensures SafeAfterEnd(before, after)
  {
    EndSessionFlagsMembers(before);
    assert HexactrlConnected in HexFlags() && HexactrlPowered in HexFlags() && HexactrlAccessed in HexFlags();
    assert FWLoaded in HexFlags() && DAQServer in HexFlags() && I2CServer in HexFlags();
  }

  lemma EndSessionSafe(b: Bench, cfg: Config)
    requires EndSessionStep(b, cfg).out.Ok?
    ensures SafeAfterEnd(b.flags, EndSessionStep(b, cfg).bench.flags)
  {
    EndSessionOutcome(b, cfg);
    EndSessionFlagsSafe(b.flags, EndSessionStep(b, cfg).bench.flags);
  }

  /** A second `end_session` after a completed one does nothing at all. */
  lemma EndSessionIdempotent(b: Bench, cfg: Config)
    requires EndSessionStep(b, cfg).out.Ok?
    ensures var r := EndSessionStep(b, cfg).bench;
      EndSessionStep(r, cfg) == Step(r, Ok(()))
  {
    EndSessionOutcome(b, cfg);
    EndSessionSafe(b, cfg);
  }
}
