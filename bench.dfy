/**
 * The shared session record of the test bench (the `state` dictionary that
 * the setup form and the interaction procedures pass back and forth), its
 * LED flags, and the observable actions a session performs on the operator
 * and on the instruments behind the abstract supply, test-stand and PC
 * handles.
 */
module Bench {
  import opened Wrappers

  /** The LED flags of the status bar, one per hardware condition. */
  datatype Flag =
    | DebugMode         // -Debug-Mode-
    | LiveModule        // -Live-Module-
    | HVConnected       // -HV-Connected-
    | BoxClosed         // -Box-Closed-
    | HVOutputOn        // -HV-Output-On-
    | DCDCConnected     // -DCDC-Connected-
    | DCDCPowered       // -DCDC-Powered-
    | TrophyConnected   // -Trophy-Connected-
    | HexactrlConnected // -Hexactrl-Connected-
    | HexactrlPowered   // -Hexactrl-Powered-
    | HexactrlAccessed  // -Hexactrl-Accessed-
    | FWLoaded          // -FW-Loaded-
    | DAQServer         // -DAQ-Server-
    | I2CServer         // -I2C-Server-
    | DAQClient         // -DAQ-Client-

  /** The number of LEDs on the status bar. */
  const LedCount := 15

  /** The flag of the `k`-th entry of `ledlist`, in the order the setup form declares it. */
  function FlagAt(k: nat): Flag
    requires k < LedCount
  {
    [DebugMode, LiveModule, HVConnected, BoxClosed, HVOutputOn, DCDCConnected, DCDCPowered,
     TrophyConnected, HexactrlConnected, HexactrlPowered, HexactrlAccessed, FWLoaded,
     DAQServer, I2CServer, DAQClient][k]
  }

  /** `ledlist`. */
  function LedList(): (leds: seq<Flag>)
    ensures |leds| == LedCount && forall k :: 0 <= k < LedCount ==> leds[k] == FlagAt(k)
  {
    seq(LedCount, k requires 0 <= k < LedCount => FlagAt(k))
  }

  /** The position of a flag's LED in `ledlist`: every flag has exactly one. */
  function LedIndex(f: Flag): (k: nat)
    ensures k < LedCount && FlagAt(k) == f
  {
    match f
    case DebugMode => 0 case LiveModule => 1 case HVConnected => 2 case BoxClosed => 3
    case HVOutputOn => 4 case DCDCConnected => 5 case DCDCPowered => 6 case TrophyConnected => 7
    case HexactrlConnected => 8 case HexactrlPowered => 9 case HexactrlAccessed => 10
    case FWLoaded => 11 case DAQServer => 12 case I2CServer => 13 case DAQClient => 14
  }

  /** No two entries of `ledlist` are the same LED. */
  lemma LedListIndex(k: nat)
    requires k < LedCount
    ensures LedIndex(FlagAt(k)) == k
  {
  }

  /** The LED flag entries of the session record; a flag without an entry reads as false. */
  type Flags = map<Flag, bool>

  /** `state[flag]`. */
  function Get(fl: Flags, f: Flag): bool {
    f in fl && fl[f]
  }

  /** `state[flag] = v`. */
  function Put(fl: Flags, f: Flag, v: bool): Flags {
    fl[f := v]
  }

  /** What the operator is told to do; every such window is acknowledged with `'CONT'`. */
  datatype Instruction =
    | GroundYourself
    | ConnectHVCable | DisconnectHVCable
    | MoveLid(close: bool)
    | ConnectDcdc(lf: bool)         // "Connect DCDC to hexaboard" / "Connect low voltage wires"
    | PowerDcdc(lf: bool)           // "Connect DCDC power cable" / "Turn on low voltage power"
    | UnplugDcdcPower(lf: bool)     // "Disconnect DCDC power cable" / "Turn off low voltage power"
    | DepowerDcdc(lf: bool)         // "Disconnect DCDC power" / "Turn off low voltage power"
    | DisconnectDcdc(lf: bool)      // "Disconnect DCDC" / "Disconnect low voltage cables"
    | ConnectTrophy | DisconnectTrophy
    | ConnectLoopback | DisconnectLoopback
    | EnsureNothingPowered
    | ConnectHexactrl | DisconnectHexactrl
    | PlugHexactrlPower | UnplugHexactrlPower
    | KriaSwitchOn | KriaSwitchOff

  /** The observable actions of a session, in the order they happen. */
  datatype Event =
    | Set(flag: Flag, value: bool)          // update_state on an LED flag
    | Prompt(instruction: Instruction)      // do_something_window
    | WaitForLid(close: bool)               // polling the HV switch until it reads `close`
    | SupplyConnect                         // the supply object is constructed
    | SupplyOn | SupplyOff
    | SupplyVolts(volts: int)               // setVoltage with a leakage-check key
    | SupplyBias(bias: string)              // setVoltage(float(BV))
    | SupplyMeasure                         // measureCurrentLoop
    | StandConnect | StandShutdown | StandLoadFw | StandStartServers | StandStatus
    | PcConnect | PcRestartDaq | PcStatusDaq | PcResetInitiated
    | PcStart(script: string)               // a detached script is started (create_proc)
    | PcEndTest
    | PcHexmaps(tag: string)
    | RenameRun(from: string, to: string)     // mv of a run directory
    | OpenPlots(path: string)               // gio open

  /** The `ps` entry: nothing yet, the integer placeholder of debug mode, or a supply object. */
  datatype Supply = NoSupply | DebugSupply | Keithley

  /** The `-Pedestals-Trimmed-` entry: `True` when trimmed without bias, else the bias used. */
  datatype Trim = TrimmedUnbiased | TrimmedAt(bias: string)

  /** The entries `init_state` copies from the setup form, plus the session inputs the form does not show. */
  datatype Setup = Setup(
    serial: string,          // -Module-Serial-
    inspector: string,       // -Inspector-
    moduleStatus: string,    // -Module-Status-
    skipChecks: bool,        // -Skip-Checks-
    kria: bool)              // -FPGA-Type- is 'Kria'

  /** The instrument handles of the record and the physical state they observe. */
  datatype Gear = Gear(
    lid: bool,               // the dark-box lid is physically closed (what the HV switch reads)
    supply: Supply,          // ps
    supplyOutput: bool,      // the supply's own output state
    stand: bool,             // ts holds a test-stand object
    pc: bool)                // pc holds a PC object

  /**
   * The measurement entries of the record. `-Box-RH-` and `-Box-T-` are
   * kept as the text they print as.
   */
  datatype Readings = Readings(
    trimmed: Option<Trim>,   // -Pedestals-Trimmed-, absent when None
    leakage: Option<real>,   // -Leakage-Current-
    rh: Option<string>,      // -Box-RH-
    temp: Option<string>)    // -Box-T-

  /** A snapshot of the session record plus the part of the world it acts on, and the log of what happened. */
  datatype Bench = Bench(flags: Flags, setup: Setup, gear: Gear, data: Readings, log: seq<Event>)

  /** The settings the session reads from `configuration.yaml`. */
  datatype Config = Config(hasHVSwitch: bool, forward: bool)

  /** The status strings the procedures return. */
  datatype Status = CONT | END | RUN | TERM

  /** The session record after a procedure, and what the procedure returned or raised. */
  datatype Step<T> = Step(bench: Bench, out: Result<T>)

  /** `update_state(state, flag, value)` on an LED flag. */
  function SetFlag(b: Bench, f: Flag, v: bool): Bench
  {
    b.(flags := Put(b.flags, f, v), log := b.log + [Set(f, v)])
  }

  /** `do_something_window(...)`: the operator is told, and carries it out. */
  function Tell(b: Bench, i: Instruction): Bench
  {
    b.(log := b.log + [Prompt(i)])
  }

  /** A call on an instrument or a handle, recorded in the log. */
  function Emit(b: Bench, e: Event): Bench
  {
    b.(log := b.log + [e])
  }

  /** The two orders in which the procedures move the hardware flags. */
  datatype Order = Teardown | BringUp

  /**
   * The stage of a flag in each order; stage 8 takes no part in it. The box
   * flag is left out: the box is opened and closed between stages.
   */
  function Stage(o: Order, f: Flag): nat {
    match o
    case Teardown =>
      (match f
       case HVOutputOn => 0
       case DCDCPowered => 1
       case HexactrlAccessed => 2 case FWLoaded => 2 case DAQServer => 2 case I2CServer => 2
       case HexactrlPowered => 3
       case HexactrlConnected => 4
       case TrophyConnected => 5
       case DCDCConnected => 6
       case HVConnected => 7
       case _ => 8)
    case BringUp =>
      (match f
       case TrophyConnected => 0
       case HexactrlConnected => 1
       case HexactrlPowered => 2
       case HexactrlAccessed => 3
       case DCDCPowered => 4
       case FWLoaded => 5
       case DAQServer => 6 case I2CServer => 6
       case DAQClient => 7
       case _ => 8)
  }

  /**
   * The flag changes in `es`, box flag apart, touch only flags of stages
   * `lo`..`hi` of order `o`, and in nondecreasing stage.
   */
  predicate Staged(es: seq<Event>, o: Order, lo: nat, hi: nat)
    decreases |es|
  {
    if es == [] then true
    else if es[0].Set? && es[0].flag != BoxClosed then
      lo <= Stage(o, es[0].flag) <= hi && Staged(es[1..], o, Stage(o, es[0].flag), hi)
    else Staged(es[1..], o, lo, hi)
  }

  /** A staged run stays staged within any wider band. */
  lemma {:induction false} StagedWiden(es: seq<Event>, o: Order, lo: nat, hi: nat, lo': nat, hi': nat)
    requires Staged(es, o, lo, hi) && lo' <= lo && hi <= hi'
    ensures Staged(es, o, lo', hi')
    decreases |es|
  {
    if es != [] {
      if es[0].Set? && es[0].flag != BoxClosed {
        StagedWiden(es[1..], o, Stage(o, es[0].flag), hi, Stage(o, es[0].flag), hi');
      } else {
        StagedWiden(es[1..], o, lo, hi, lo', hi');
      }
    }
  }

  /** Two staged runs, the second starting where the first may end, make one staged run. */
  lemma {:induction false} StagedConcat(a: seq<Event>, b: seq<Event>, o: Order, lo: nat, mid: nat, hi: nat)
    requires Staged(a, o, lo, mid) && Staged(b, o, mid, hi) && lo <= mid <= hi
    ensures Staged(a + b, o, lo, hi)
    decreases |a|
  {
    if a == [] {
      assert a + b == b;
      StagedWiden(b, o, mid, hi, lo, hi);
    } else {
      assert (a + b)[1..] == a[1..] + b;
      if a[0].Set? && a[0].flag != BoxClosed {
        StagedConcat(a[1..], b, o, Stage(o, a[0].flag), mid, hi);
      } else {
        StagedConcat(a[1..], b, o, lo, mid, hi);
      }
    }
  }

  /** Every flag change in `es` lowers its flag. */
  predicate OnlyLowers(es: seq<Event>)
    decreases |es|
  {
    es == [] || ((es[0].Set? ==> !es[0].value) && OnlyLowers(es[1..]))
  }

  lemma {:induction false} OnlyLowersConcat(a: seq<Event>, b: seq<Event>)
    requires OnlyLowers(a) && OnlyLowers(b)
    ensures OnlyLowers(a + b)
    decreases |a|
  {
    if a == [] {
      assert a + b == b;
    } else {
      OnlyLowersConcat(a[1..], b);
      assert (a + b)[1..] == a[1..] + b;
    }
  }

  /**
   * A teardown run: staged in teardown order within stages `lo`..`hi` and
   * lowering every flag it touches.
   */
  predicate TornDown(es: seq<Event>, lo: nat, hi: nat) {
    Staged(es, Teardown, lo, hi) && OnlyLowers(es)
  }

  /** Two teardown runs, the second at later stages than the first, make one teardown run. */
  lemma TornDownConcat(a: seq<Event>, b: seq<Event>, lo: nat, m1: nat, m2: nat, hi: nat)
    requires TornDown(a, lo, m1) && TornDown(b, m2, hi) && lo <= m1 <= m2 <= hi
    ensures TornDown(a + b, lo, hi)
  {
    StagedWiden(a, Teardown, lo, m1, lo, m2);
    StagedConcat(a, b, Teardown, lo, m2, hi);
    OnlyLowersConcat(a, b);
  }

  /** A teardown run stays one within any wider band of stages. */
  lemma TornDownWiden(es: seq<Event>, lo: nat, hi: nat, lo': nat, hi': nat)
    requires TornDown(es, lo, hi) && lo' <= lo && hi <= hi'
    ensures TornDown(es, lo', hi')
  {
    StagedWiden(es, Teardown, lo, hi, lo', hi');
  }

  /** A log extended by one teardown run and then by a later one has been extended by one teardown run. */
  lemma TornDownChain(l1: seq<Event>, l2: seq<Event>, l3: seq<Event>, a: seq<Event>, b: seq<Event>,
                      lo: nat, m1: nat, m2: nat, hi: nat)
    requires l2 == l1 + a && l3 == l2 + b
    requires TornDown(a, lo, m1) && TornDown(b, m2, hi) && lo <= m1 <= m2 <= hi
    ensures l3 == l1 + (a + b) && TornDown(a + b, lo, hi)
  {
    TornDownConcat(a, b, lo, m1, m2, hi);
  }

  /** A log extended by one staged run and then by a later one has been extended by one staged run. */
  lemma StagedChain(l1: seq<Event>, l2: seq<Event>, l3: seq<Event>, a: seq<Event>, b: seq<Event>,
                    o: Order, lo: nat, mid: nat, hi: nat)
    requires l2 == l1 + a && l3 == l2 + b
    requires Staged(a, o, lo, mid) && Staged(b, o, mid, hi) && lo <= mid <= hi
    ensures l3 == l1 + (a + b) && Staged(a + b, o, lo, hi)
  {
    StagedConcat(a, b, o, lo, mid, hi);
  }

  /** One flag change is a run of its own stage. */
  lemma StagedSet(f: Flag, v: bool, o: Order)
    requires f != BoxClosed
    ensures Staged([Set(f, v)], o, Stage(o, f), Stage(o, f))
  {
    assert [Set(f, v)][1..] == [];
  }

  /** An entry that changes no flag is a run of any stage. */
  lemma StagedQuiet(e: Event, o: Order, k: nat)
    requires !e.Set?
    ensures Staged([e], o, k, k)
  {
    assert [e][1..] == [];
  }

  /** An entry that changes no flag can be put in front of a run without affecting it. */
  lemma StagedSkip(e: Event, es: seq<Event>, o: Order, lo: nat, hi: nat)
    requires !e.Set?
    ensures Staged([e] + es, o, lo, hi) == Staged(es, o, lo, hi)
    ensures OnlyLowers([e] + es) == OnlyLowers(es)
  {
    assert ([e] + es)[1..] == es;
  }

  /** `do_something_window(i)` followed by `update_state(state, f, False)`. */
  function TellLower(b: Bench, i: Instruction, f: Flag): Bench {
    SetFlag(Tell(b, i), f, false)
  }

  /** `do_something_window(i)` followed by `update_state(state, f, True)`. */
  function TellRaise(b: Bench, i: Instruction, f: Flag): Bench {
    SetFlag(Tell(b, i), f, true)
  }

  /** A prompt followed by the lowering of one flag is a one-stage lowering run. */
  lemma TellLowerEvents(i: Instruction, f: Flag, o: Order)
    requires f != BoxClosed
    ensures Staged([Prompt(i), Set(f, false)], o, Stage(o, f), Stage(o, f))
    ensures OnlyLowers([Prompt(i), Set(f, false)])
  {
    assert [Prompt(i), Set(f, false)][1..][1..] == [];
  }

  /** `update_state(state, f, False)` for each flag of `fs` in turn. */
  function LowerEach(b: Bench, fs: seq<Flag>): Bench {
    b.(flags := LowerFlags(b.flags, fs), log := b.log + Lowering(fs))
  }

  /** The flag entries after lowering the flags of `fs` one by one. */
  function LowerFlags(fl: Flags, fs: seq<Flag>): Flags
    decreases |fs|
  {
    if fs == [] then fl else LowerFlags(Put(fl, fs[0], false), fs[1..])
  }

  /** The log entries of `LowerEach`, one flag change per flag. */
  function Lowering(fs: seq<Flag>): (es: seq<Event>)
    ensures |es| == |fs|
  {
    if fs == [] then [] else [Set(fs[0], false)] + Lowering(fs[1..])
  }

  /** Lowering flags one by one lowers exactly those flags. */
  lemma {:induction false} LowerFlagsEffect(fl: Flags, fs: seq<Flag>)
    ensures forall g :: Get(LowerFlags(fl, fs), g) == (if g in fs then false else Get(fl, g))
    decreases |fs|
  {
    if fs != [] {
      LowerFlagsEffect(Put(fl, fs[0], false), fs[1..]);
    }
  }

  /** Lowering flags that share one stage is a staged run of that stage. */
  lemma {:induction false} LoweringStaged(fs: seq<Flag>, o: Order, k: nat)
    requires forall i :: 0 <= i < |fs| ==> Stage(o, fs[i]) == k && fs[i] != BoxClosed
    ensures Staged(Lowering(fs), o, k, k) && OnlyLowers(Lowering(fs))
    decreases |fs|
  {
    if fs != [] {
      LoweringStaged(fs[1..], o, k);
      assert Lowering(fs)[1..] == Lowering(fs[1..]);
    }
  }

  /** The value `init_state` gives an LED flag. */
  function InitialValue(f: Flag, live: bool, debug: bool): bool {
    if f == LiveModule then live else if f == DebugMode then debug else false
  }

  /**
   * The `for led in ledlist` walk of `init_state`: every LED flag is written
   * once, and afterwards only the live and debug flags can be up.
   */
  method ResetFlags(current: Flags, live: bool, debug: bool) returns (m: Flags)
    ensures forall f :: Get(m, f) == InitialValue(f, live, debug)
    ensures forall f :: Get(m, f) ==> f == LiveModule || f == DebugMode
  {
    m := current;
    var i := 0;
    var leds := LedList();
    while i < |leds|
      invariant 0 <= i <= |leds|
      invariant forall k :: 0 <= k < i ==> Get(m, FlagAt(k)) == InitialValue(FlagAt(k), live, debug)
    {
      var led := leds[i];
      LedListIndex(i);
      if led == LiveModule {
        m := Put(m, led, live);
      } else if led == DebugMode {
        m := Put(m, led, debug);
      } else {
        m := Put(m, led, false);
      }
      i := i + 1;
    }
    forall f: Flag
      ensures Get(m, f) == InitialValue(f, live, debug)
    {
      var k := LedIndex(f);
    }
  }
}
