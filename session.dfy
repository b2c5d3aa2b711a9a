/**
 * The session record as the one mutable object of a test session: the
 * primitive updates the procedures make on it, `init_state`, and the two
 * procedure loops that work on it step by step (the leakage scan of
 * `check_leakage_current` and the bias loop of `multi_run_pedestals`),
 * each proved to leave the record as the corresponding step function says.
 */
module Sessions {
  import opened Wrappers
  import opened Bench
  import opened Interaction
  import opened Procedures
  import opened Pedestals

  /**
   * The session record `state`, the one object every procedure updates in
   * place; `state` holds its current value and each step reassigns it.
   */
  class Session {
    var state: Bench

    constructor(b: Bench)
      ensures state == b
    {
      state := b;
    }

    /** `update_state(state, field, val, color)` on an LED flag. */
    method Update(f: Flag, v: bool)
      modifies this
      ensures state == SetFlag(old(state), f, v)
    {
      state := state.(flags := Put(state.flags, f, v), log := state.log + [Set(f, v)]);
    }

    /** `do_something_window(instruction, button)`, acknowledged with `'CONT'`. */
    method Instruct(i: Instruction)
      modifies this
      ensures state == Tell(old(state), i)
    {
      state := state.(log := state.log + [Prompt(i)]);
    }

    /** A call on the supply, the test stand or the PC. */
    method Record(e: Event)
      modifies this
      ensures state == Emit(old(state), e)
    {
      state := state.(log := state.log + [e]);
    }

    /** `state['ps'].outputOn()` / `outputOff()`: the call, and the supply's output follows it. */
    method SwitchOutput(on: bool)
      modifies this
      ensures state == Output(Emit(old(state), if on then SupplyOn else SupplyOff), on)
    {
      Record(if on then SupplyOn else SupplyOff);
      state := state.(gear := state.gear.(supplyOutput := on));
    }

    /**
     * `init_state`: every LED flag goes down except the live and debug flags,
     * which take the form's values; the handles are cleared and the trim
     * mark is removed. Nothing else (humidity, temperature, the physical
     * lid, the log) changes.
     */
    method InitState(live: bool, debug: bool, newSerial: string, newInspector: string, newStatus: string)
      modifies this
      ensures forall f :: Get(state.flags, f) == InitialValue(f, live, debug)
      ensures state.setup == old(state.setup).(serial := newSerial, inspector := newInspector, moduleStatus := newStatus)
      ensures state.gear == old(state.gear).(supply := NoSupply, stand := false, pc := false)
      ensures state.data == old(state.data).(trimmed := None)
      ensures state.log == old(state.log)
    {
      var m := ResetFlags(state.flags, live, debug);
      state := state.(flags := m, data := state.data.(trimmed := None));
      state := state.(gear := state.gear.(supply := NoSupply, stand := false, pc := false));
      state := state.(setup := state.setup.(serial := newSerial, inspector := newInspector, moduleStatus := newStatus));
    }

    /**
     * The scan of `check_leakage_current`: outside debug mode the
     * output goes on, each key is set and measured until a reading trips,
     * and the output goes off. The record ends as `LeakageScanStep` says,
     * and the check is nominal exactly when no key of the scan trips.
     */
    method LeakageScan(cfg: Config, meter: int -> real) returns (r: Result<()>, nominal: bool)
      modifies this
      ensures state == LeakageScanStep(old(state), cfg, meter).bench
      ensures r == LeakageScanStep(old(state), cfg, meter).out
      ensures r.Ok? && !Get(old(state).flags, DebugMode) ==>
        var keys := LeakageKeys(cfg.forward);
        (nominal <==> forall j :: 0 <= j < |keys| ==> !Tripped(keys[j], meter(keys[j])))
    {
      nominal := true;
      if Get(state.flags, DebugMode) {
        return Ok(()), nominal;
      }
      if state.gear.supply != Keithley {
        return Err(AttributeError), nominal;
      }
      var keys := LeakageKeys(cfg.forward);
      SwitchOutput(true);
      Update(HVOutputOn, true);
      nominal := ScanKeys(keys, meter);
      SwitchOutput(false);
      Update(HVOutputOn, false);
      r := Ok(());
    }

    /**
     * The `for key in leakage_current.keys()` loop: each key is set on the
     * supply and measured, and the loop stops after the first reading that
     * trips. The log gains the calls for the scanned prefix of the keys,
     * and the scan stays nominal exactly when no key trips.
     */
    method ScanKeys(keys: seq<int>, meter: int -> real) returns (nominal: bool)
      modifies this
      ensures state == old(state).(log := old(state).log + ScanEvents(keys[..ScanCount(keys, meter)]))
      ensures nominal <==> forall j :: 0 <= j < |keys| ==> !Tripped(keys[j], meter(keys[j]))
    {
      nominal := true;
      ghost var b1 := state;
      var i := 0;
      while i < |keys| && nominal
        invariant 0 <= i <= |keys|
        invariant state == b1.(log := b1.log + ScanEvents(keys[..i]))
        invariant nominal ==> forall j :: 0 <= j < i ==> !Tripped(keys[j], meter(keys[j]))
        invariant nominal ==> ScanCount(keys, meter) == i + ScanCount(keys[i..], meter)
        invariant !nominal ==> 0 < i && ScanCount(keys, meter) == i && Tripped(keys[i - 1], meter(keys[i - 1]))
      {
        Record(SupplyVolts(keys[i]));
        var current := meter(keys[i]);
        Record(SupplyMeasure);
        ScanEventsSnoc(keys[..i], keys[i]);
        assert keys[..i + 1] == keys[..i] + [keys[i]];
        assert keys[i..][1..] == keys[i + 1..];
        if Tripped(keys[i], current) {
          nominal := false;
        }
        i := i + 1;
      }
      if nominal {
        assert i == |keys| && keys[..i] == keys;
      }
    }

    /**
     * `multi_run_pedestals(state, BV_list)`: `run_pedestals` for each bias
     * in turn until one does not return `'CONT'`; then, outside debug mode,
     * the mean and noise plots of the last run are opened when it made
     * any, and its status is returned. An empty list leaves `status`
     * unbound. The record ends as `MultiRunStep` says.
     */
    method MultiRunPedestals(bvs: seq<Option<string>>, w: nat -> RunWorld) returns (r: Result<Status>)
      modifies this
      ensures state == MultiRunStep(old(state), bvs, w).bench
      ensures r == MultiRunStep(old(state), bvs, w).out
    {
      if bvs == [] {
        return Err(UnboundLocal("status"));
      }
      ghost var b0 := state;
      var i := 0;
      var s := RunPedestalsStep(state, bvs[0], w(0));
      while s.out.Ok? && s.out.value.1 == CONT && i + 1 < |bvs|
        invariant 0 <= i < |bvs|
        invariant s == RunPedestalsStep(state, bvs[i], w(i))
        invariant RunsFrom(state, bvs, w, i) == RunsFrom(b0, bvs, w, 0)
        decreases |bvs| - i
      {
        state := s.bench;
        i := i + 1;
        s := RunPedestalsStep(state, bvs[i], w(i));
      }
      assert s == RunsFrom(b0, bvs, w, 0);
      state := s.bench;
      if s.out.Err? {
        return Err(s.out.error);
      }
      var hexpath := s.out.value.0;
      if !Get(state.flags, DebugMode) && hexpath != "" {
        Record(OpenPlots(hexpath + "_adc_mean.png"));
        Record(OpenPlots(hexpath + "_adc_stdd.png"));
      }
      r := Ok(s.out.value.1);
    }
  }

  /** The supply calls for one more key come after those of the keys before it. */
  lemma {:induction false} ScanEventsSnoc(keys: seq<int>, k: int)
    ensures ScanEvents(keys + [k]) == ScanEvents(keys) + [SupplyVolts(k), SupplyMeasure]
  {
    if keys != [] {
      assert (keys + [k])[1..] == keys[1..] + [k];
      ScanEventsSnoc(keys[1..], k);
    }
  }
}
