/**
 * The module-setup form of the testing GUI: the serial number it builds
 * from the operator's choices, the guard in front of "Configure Test
 * Stand", the status guard in front of the electrical tests, and the
 * reading of the pedestal-run request (how many runs, with which bias
 * voltages).
 */
module SetupForm {
  import opened Wrappers
  import opened Text
  import opened ModuleSerial
  import opened Bench
  import TrenzStand
  import CentosPc

  /** The radio buttons, check boxes and fields of the setup form that an event is read with. */
  datatype Choices = Choices(
    isLive: bool, isHB: bool,
    ld: bool, hd: bool,
    full: bool, top: bool, bottom: bool, left: bool, right: bool, five: bool,
    t120: bool, t200: bool, t300: bool,
    pcb: bool, cf: bool, cuw: bool,
    preseries: bool,
    v3: bool, prod: bool,
    manufacturer: string, moduleIndex: string, hostname: string)

  function Flag01(b: bool): nat {
    if b then 1 else 0
  }

  /** The radio groups as the form offers them: module or hexaboard, one density and one shape are chosen. */
  predicate RadioGroups(v: Choices) {
    && Flag01(v.isLive) + Flag01(v.isHB) == 1
    && Flag01(v.ld) + Flag01(v.hd) == 1
    && Flag01(v.full) + Flag01(v.top) + Flag01(v.bottom) + Flag01(v.left) + Flag01(v.right) + Flag01(v.five) == 1
  }

  /** The density character the form shows for its choices: the last selected of LD, HD wins. */
  function DensityChoice(prev: char, v: Choices): char {
    if v.hd then 'H' else if v.ld then 'L' else prev
  }

  /** The shape character for the form's choices, the last selected button winning. */
  function ShapeChoice(prev: string, v: Choices): string {
    if v.five then "5" else if v.right then "R" else if v.left then "L"
    else if v.bottom then "B" else if v.top then "T" else if v.full then "F" else prev
  }

  /** `majortype` after an event: `M` or `X` for live module or hexaboard, then the density. */
  function MajorType(prev: seq<char>, v: Choices): (major: seq<char>)
    requires |prev| == 2
    ensures |major| == 2
  {
    [if v.isHB then 'X' else if v.isLive then 'M' else prev[0], DensityChoice(prev[1], v)]
  }

  /**
   * `minortype` after an event: the shape; for a live module the sensor
   * thickness, the baseplate and the pre-series mark; for a hexaboard the
   * V3 or production version with no mark.
   */
  function MinorType(prev: seq<string>, v: Choices): (minor: seq<string>)
    requires |prev| == 4
    ensures |minor| == 4
  {
    var shape := ShapeChoice(prev[0], v);
    if v.isLive then
      [shape,
       if v.t300 then "3" else if v.t200 then "2" else if v.t120 then "1" else prev[1],
       if v.cuw then "W" else if v.cf then "C" else if v.pcb then "P" else prev[2],
       if v.preseries then "X" else ""]
    else if v.isHB then
      [shape,
       if v.prod then "1" else if v.v3 then "0" else prev[1],
       if v.prod then "0" else if v.v3 then "3" else prev[2],
       ""]
    else [shape, prev[1], prev[2], prev[3]]
  }

  /** `''.join(parts)`. */
  function Concat(parts: seq<string>): string {
    Join(parts, "")
  }

  lemma ConcatFour(minor: seq<string>)
    requires |minor| == 4
    ensures Concat(minor) == minor[0] + minor[1] + minor[2] + minor[3]
  {
    var t3 := minor[1..];
    var t2 := t3[1..];
    assert t2[1..] == [minor[3]];
    assert Join(t2, "") == minor[2] + "" + minor[3] == minor[2] + minor[3];
    assert Join(t3, "") == minor[1] + "" + (minor[2] + minor[3]) == minor[1] + minor[2] + minor[3];
    assert Join(minor, "") == minor[0] + "" + (minor[1] + minor[2] + minor[3]);
  }

  /** Splitting at the first dash takes off a dash-free head. */
  lemma SplitHead(a: string, rest: string)
    requires DashFree(a)
    ensures Split(a + "-" + rest, '-') == [a] + Split(rest, '-')
  {
    assert a + "-" + rest == a + ['-'] + rest;
    SplitConcat(a, '-', rest);
  }

  /** Concatenating four dash-free pieces, the first a single character, gives a dash-free string led by that character. */
  lemma ConcatDashFree(minor: seq<string>)
    requires |minor| == 4 && |minor[0]| == 1 && forall k :: 0 <= k < 4 ==> DashFree(minor[k])
    ensures DashFree(Concat(minor)) && |Concat(minor)| >= 1 && Concat(minor)[0] == minor[0][0]
  {
    ConcatFour(minor);
    assert DashFree(minor[0]) && DashFree(minor[1]) && DashFree(minor[2]) && DashFree(minor[3]);
  }

  /** Splitting at the first dash of a dash-free head, twice. */
  lemma SplitTwoHeads(x: string, y: string, rest: string)
    requires DashFree(x) && DashFree(y)
    ensures Split(x + "-" + (y + "-" + rest), '-') == [x, y] + Split(rest, '-')
  {
    var tail := Split(rest, '-');
    SplitHead(y, rest);
    SplitHead(x, y + "-" + rest);
    assert [x] + ([y] + tail) == [x, y] + tail;
  }

  /** Splitting at the first dash of a dash-free head, three times. */
  lemma SplitThreeHeads(w: string, x: string, y: string, rest: string)
    requires DashFree(w) && DashFree(x) && DashFree(y)
    ensures var parts := Split(w + "-" + (x + "-" + (y + "-" + rest)), '-');
      |parts| >= 3 && parts[0] == w && parts[1] == x && parts[2] == y
  {
    SplitTwoHeads(x, y, rest);
    SplitHead(w, x + "-" + (y + "-" + rest));
  }

  /** A composed serial splits at its first three dashes into the prefix, the major type and the minor type. */
  lemma SerialHead(major: string, mt: string, id: string, index: string)
    requires DashFree(major) && DashFree(mt)
    ensures var parts := Split(ComposeSerial(major, mt, id, index), '-');
      |parts| >= 3 && parts[0] == "320" && parts[1] == major && parts[2] == mt
  {
    ComposeSerialNested(major, mt, id, index);
    SplitThreeHeads("320", major, mt, id + "-" + index);
  }

  /** The serial of a composed form: density and shape read back as the characters the form chose. */
  lemma SerialKind(major: string, minor: seq<string>, id: string, index: string)
    requires |major| == 2 && DashFree(major)
    requires |minor| == 4 && |minor[0]| == 1 && forall k :: 0 <= k < 4 ==> DashFree(minor[k])
    ensures Density(ComposeSerial(major, Concat(minor), id, index)) == Ok(major[1])
    ensures Shape(ComposeSerial(major, Concat(minor), id, index)) == Ok(minor[0][0])
  {
    ConcatDashFree(minor);
    SerialHead(major, Concat(minor), id, index);
  }

  /** What the configure guard answers: go ahead with the stand's host name, or refuse with a message. */
  datatype Verdict = Proceed(hostname: string) | Refuse(message: string)

  /**
   * The "Configure Test Stand" guard: a live module or hexaboard must be
   * chosen, the index and the host name filled in, a hexaboard's vendor
   * given, the serial composed, and the board one the stand supports (not
   * a partial high-density board, not a low-density top, bottom or five).
   */
  function ConfigureCheck(v: Choices, moduleindex: string, vendorid: string, moduleserial: string): (r: Verdict)
    ensures r.Proceed? <==>
      && (v.isLive || v.isHB) && moduleindex != "" && RStrip(v.hostname) != ""
      && !(v.isHB && vendorid == "") && moduleserial != ""
      && !((v.hd && !v.full) || (v.ld && (v.top || v.bottom || v.five)))
    ensures r.Proceed? ==> r.hostname == RStrip(v.hostname) && r.hostname != ""
    ensures r.Refuse? ==> r.message == "Invalid Setup" || r.message == "Not Implemented"
    ensures r.Refuse? ==>
      (r.message == "Not Implemented" <==>
        && (v.isLive || v.isHB) && moduleindex != "" && RStrip(v.hostname) != ""
        && !(v.isHB && vendorid == "") && moduleserial != "")
  {
    if !v.isLive && !v.isHB then Refuse("Invalid Setup")
    else if moduleindex == "" || RStrip(v.hostname) == "" then Refuse("Invalid Setup")
    else if v.isHB && vendorid == "" then Refuse("Invalid Setup")
    else if moduleserial == "" then Refuse("Invalid Setup")
    else if (v.hd && !v.full) || (v.ld && (v.top || v.bottom || v.five)) then Refuse("Not Implemented")
    else Proceed(RStrip(v.hostname))
  }

  /** The board a form lets through always has a Trenz firmware, chosen by the density the form shows. */
  lemma ConfiguredBoardHasFirmware(v: Choices, prevMajor: seq<char>, prevMinor: seq<string>, id: string, index: string, vendorid: string)
    requires RadioGroups(v)
    requires |prevMajor| == 2 && DashFree(prevMajor)
    requires |prevMinor| == 4 && |prevMinor[0]| == 1 && forall k :: 0 <= k < 4 ==> DashFree(prevMinor[k])
    requires
      var serial := ComposeSerial(MajorType(prevMajor, v), Concat(MinorType(prevMinor, v)), id, index);
      ConfigureCheck(v, index, vendorid, serial).Proceed?
    ensures
      var serial := ComposeSerial(MajorType(prevMajor, v), Concat(MinorType(prevMinor, v)), id, index);
      && TrenzStand.SelectFirmware(serial).Ok?
      && TrenzStand.SelectFirmware(serial).value.fw == (if v.hd then TrenzStand.TrophyV2 else TrenzStand.TrophyV3)
  {
    var major := MajorType(prevMajor, v);
    var minor := MinorType(prevMinor, v);
    MinorTypeShape(prevMinor, v);
    SerialKind(major, minor, id, index);
  }

  /** The new minor type keeps one shape character and no dashes. */
  lemma MinorTypeShape(prev: seq<string>, v: Choices)
    requires |prev| == 4 && |prev[0]| == 1 && forall k :: 0 <= k < 4 ==> DashFree(prev[k])
    ensures var minor := MinorType(prev, v);
      |minor[0]| == 1 && (forall k :: 0 <= k < 4 ==> DashFree(minor[k]))
      && (RadioGroups(v) ==> minor[0] in {"F", "T", "B", "L", "R", "5"})
  {
  }

  /**
   * The form lets a high-density full board through and the Trenz stand
   * has firmware for it, but the CentOS readout PC has no configuration for
   * any high-density board.
   */
  lemma HighDensityFullOnCentos(v: Choices, prevMajor: seq<char>, prevMinor: seq<string>, id: string, index: string)
    requires RadioGroups(v) && v.hd && v.full && v.isLive && index != "" && RStrip(v.hostname) != ""
    requires |prevMajor| == 2 && DashFree(prevMajor)
    requires |prevMinor| == 4 && |prevMinor[0]| == 1 && forall k :: 0 <= k < 4 ==> DashFree(prevMinor[k])
    ensures
      var serial := ComposeSerial(MajorType(prevMajor, v), Concat(MinorType(prevMinor, v)), id, index);
      && ConfigureCheck(v, index, "", serial).Proceed?
      && TrenzStand.SelectFirmware(serial).Ok?
      && CentosPc.CentosConfig(serial) == Err(NotImplemented)
  {
    var major := MajorType(prevMajor, v);
    var minor := MinorType(prevMinor, v);
    MinorTypeShape(prevMinor, v);
    SerialKind(major, minor, id, index);
    assert !v.ld;
    assert |ComposeSerial(major, Concat(minor), id, index)| > 0;
  }

  /** The main window's event loop: the type characters, set button by button. */
  method EditMajor(prev: seq<char>, v: Choices) returns (major: seq<char>)
    requires |prev| == 2
    ensures major == MajorType(prev, v)
    ensures DashFree(prev) ==> DashFree(major)
  {
    major := prev;
    if v.isLive {
      major := major[0 := 'M'];
    }
    if v.isHB {
      major := major[0 := 'X'];
    }
    if v.ld { major := major[1 := 'L']; }
    if v.hd { major := major[1 := 'H']; }
  }

  /** The main window's event loop: the shape character, set button by button. */
  method EditShape(prev: string, v: Choices) returns (shape: string)
    ensures shape == ShapeChoice(prev, v)
  {
    shape := prev;
    if v.full { shape := "F"; }
    if v.top { shape := "T"; }
    if v.bottom { shape := "B"; }
    if v.left { shape := "L"; }
    if v.right { shape := "R"; }
    if v.five { shape := "5"; }
  }

  /** The main window's event loop: the minor-type fields, set button by button. */
  method EditMinor(prev: seq<string>, v: Choices) returns (minor: seq<string>)
    requires |prev| == 4
    ensures minor == MinorType(prev, v)
  {
    var shape := EditShape(prev[0], v);
    var thickness, baseplate, mark := prev[1], prev[2], prev[3];
    if v.isLive {
      if v.t120 { thickness := "1"; }
      if v.t200 { thickness := "2"; }
      if v.t300 { thickness := "3"; }
      if v.pcb { baseplate := "P"; }
      if v.cf { baseplate := "C"; }
      if v.cuw { baseplate := "W"; }
      mark := if v.preseries then "X" else "";
    } else if v.isHB {
      if v.v3 { thickness, baseplate := "0", "3"; }
      if v.prod { thickness, baseplate := "1", "0"; }
      mark := "";
    }
    minor := [shape, thickness, baseplate, mark];
  }

  /**
   * The setup state the event loop keeps between events: the two lists of
   * serial characters it edits in place, the vendor id, the index and the
   * serial shown.
   */
  class SerialForm {
    const macserial: string
    var majortype: seq<char>
    var minortype: seq<string>
    var vendorid: string
    var moduleindex: string
    var moduleserial: string

    /** The lists keep their shape: two type characters, four minor-type fields, the first a shape. */
    predicate Valid()
      reads this
    {
      && |majortype| == 2 && DashFree(majortype)
      && |minortype| == 4 && |minortype[0]| == 1
      && (forall k :: 0 <= k < 4 ==> DashFree(minortype[k]))
    }

    /** The module-level start values: `['X', 'L']`, `['F', '2', 'C', '']`, no index and no serial. */
    constructor Start(macserial: string)
      ensures Valid()
      ensures this.macserial == macserial && majortype == ['X', 'L'] && minortype == ["F", "2", "C", ""]
      ensures vendorid == "" && moduleindex == "" && moduleserial == ""
    {
      this.macserial := macserial;
      majortype := ['X', 'L'];
      minortype := ["F", "2", "C", ""];
      vendorid := "";
      moduleindex := "";
      moduleserial := "";
    }

    /**
     * One pass of the event loop over the setup section: the type lists
     * are edited field by field, the index normalised, and the serial
     * recomposed with the MAC serial of a live module or the vendor id of
     * a hexaboard (left as it was when neither is chosen). The serial
     * then reads back as the density and shape the form shows.
     */
    method Refresh(v: Choices)
      requires Valid()
      modifies this
      ensures Valid()
      ensures majortype == MajorType(old(majortype), v) && minortype == MinorType(old(minortype), v)
      ensures vendorid == (if v.isHB && !v.isLive then Upper(RStrip(v.manufacturer)) else old(vendorid))
      ensures moduleindex == NormalizeIndex(v.moduleIndex, v.isLive, old(moduleindex))
      ensures v.isLive ==> moduleserial == ComposeSerial(majortype, Concat(minortype), macserial, moduleindex)
      ensures !v.isLive && v.isHB ==> moduleserial == ComposeSerial(majortype, Concat(minortype), vendorid, moduleindex)
      ensures !v.isLive && !v.isHB ==> moduleserial == old(moduleserial)
      ensures v.isLive || v.isHB ==>
        Density(moduleserial) == Ok(majortype[1]) && Shape(moduleserial) == Ok(minortype[0][0])
    {
      majortype := EditMajor(majortype, v);
      minortype := EditMinor(minortype, v);
      MinorTypeShape(old(minortype), v);
      if !v.isLive && v.isHB {
        vendorid := Upper(RStrip(v.manufacturer));
      }

      moduleindex := NormalizeIndex(v.moduleIndex, v.isLive, moduleindex);
      Recompose(v.isLive, v.isHB);
    }

    /** The main window's event loop: the serial from the type lists, the MAC serial or vendor id, and the index. */
    method Recompose(live: bool, hb: bool)
      requires Valid()
      modifies this
      ensures Valid()
      ensures majortype == old(majortype) && minortype == old(minortype)
      ensures vendorid == old(vendorid) && moduleindex == old(moduleindex)
      ensures live ==> moduleserial == ComposeSerial(majortype, Concat(minortype), macserial, moduleindex)
      ensures !live && hb ==> moduleserial == ComposeSerial(majortype, Concat(minortype), vendorid, moduleindex)
      ensures !live && !hb ==> moduleserial == old(moduleserial)
      ensures live || hb ==>
        Density(moduleserial) == Ok(majortype[1]) && Shape(moduleserial) == Ok(minortype[0][0])
    {
      if live {
        moduleserial := ComposeSerial(majortype, Concat(minortype), macserial, moduleindex);
        SerialKind(majortype, minortype, macserial, moduleindex);
      } else if hb {
        moduleserial := ComposeSerial(majortype, Concat(minortype), vendorid, moduleindex);
        SerialKind(majortype, minortype, vendorid, moduleindex);
      }
    }
  }

  /**
   * The status guard in front of trimming, pedestal runs and other
   * scripts: each needs the board powered, the hexacontroller reached and
   * the I2C server and DAQ client up.
   */
  predicate ElectricalTestsReady(fl: Flags) {
    Get(fl, DCDCPowered) && Get(fl, HexactrlAccessed) && Get(fl, I2CServer) && Get(fl, DAQClient)
  }

  /** Whether "Run Tests" stops with "Error in Statuses" before any electrical test. */
  function ElectricalTestsRefused(fl: Flags, trim: bool, pedestalRun: bool, otherScript: bool): (refused: bool)
    ensures refused ==> (trim || pedestalRun || otherScript)
    ensures refused <==>
      && (trim || pedestalRun || otherScript)
      && !(Get(fl, DCDCPowered) && Get(fl, HexactrlAccessed) && Get(fl, I2CServer) && Get(fl, DAQClient))
    ensures !refused && (trim || pedestalRun || otherScript) ==> ElectricalTestsReady(fl)
  {
    (trim || pedestalRun || otherScript) && !ElectricalTestsReady(fl)
  }

  /** A session just set up (every status LED down) refuses every electrical test. */
  lemma FreshSessionRefusesTests(fl: Flags, live: bool, debug: bool)
    requires forall f :: Get(fl, f) == InitialValue(f, live, debug)
    ensures ElectricalTestsRefused(fl, true, false, false)
    ensures ElectricalTestsRefused(fl, false, true, false)
    ensures ElectricalTestsRefused(fl, false, false, true)
  {
    assert !Get(fl, DCDCPowered);
  }

  /** The most pedestal runs one request may start. */
  const MaxPedestalRuns: nat := 6

  /** The number of runs asked for, clamped to six. */
  function PedestalCount(nField: string): (n: nat)
    requires IsNumeric(RStrip(nField))
    ensures n <= MaxPedestalRuns
    ensures n == MaxPedestalRuns || n == DigitsValue(RStrip(nField))
  {
    var n := DigitsValue(RStrip(nField));
    if n > MaxPedestalRuns then MaxPedestalRuns else n
  }

  /**
   * The pedestal-run request: the run count must be a number, at most six
   * runs are made, and a live module needs a numeric bias voltage in
   * each of the first fields; the result is the bias list handed to
   * `multi_run_pedestals`, or None for "Invalid Instructions". A
   * hexaboard run gets one None per run.
   */
  method PedestalRequest(nField: string, live: bool, bvFields: seq<string>) returns (r: Option<seq<Option<string>>>)
    requires |bvFields| == MaxPedestalRuns
    ensures r.Some? <==>
      && IsNumeric(RStrip(nField))
      && (live ==> forall i :: 0 <= i < PedestalCount(nField) ==> IsNumeric(RStrip(bvFields[i])))
    ensures r.Some? ==>
      && |r.value| == PedestalCount(nField)
      && forall i :: 0 <= i < |r.value| ==> r.value[i] == (if live then Some(RStrip(bvFields[i])) else None)
  {
    var count := RStrip(nField);
    if count == "" || !IsNumeric(count) {
      return None;
    }
    var nBVs := 0;
    var bvs: seq<Option<string>> := [];
    var nPedestals := DigitsValue(count);
    if nPedestals > 6 {
      nPedestals := 6;
    }
    if live {
      var i := 0;
      while i < nPedestals
        invariant 0 <= nBVs <= i <= nPedestals
        invariant |bvs| == nBVs
        invariant nBVs == i <==> forall j :: 0 <= j < i ==> IsNumeric(RStrip(bvFields[j]))
        invariant nBVs == i ==> forall j :: 0 <= j < i ==> bvs[j] == Some(RStrip(bvFields[j]))
      {
        var thisval := RStrip(bvFields[i]);
        if thisval != "" && IsNumeric(thisval) {
          nBVs := nBVs + 1;
          bvs := bvs + [Some(thisval)];
        }
        i := i + 1;
      }
    } else {
      var i := 0;
      while i < nPedestals
        invariant 0 <= i <= nPedestals
        invariant |bvs| == i && forall j :: 0 <= j < i ==> bvs[j] == None
      {
        bvs := bvs + [None];
        i := i + 1;
      }
    }
    if nBVs < nPedestals && live {
      return None;
    }
    return Some(bvs);
  }

  /** The bias voltage for trimming: a live module needs a numeric one, a hexaboard trims without. */
  function TrimBias(field: string, live: bool): (r: Option<Option<string>>)
    ensures r.None? <==> live && !IsNumeric(RStrip(field))
    ensures r.Some? && live ==> r.value == Some(RStrip(field)) && IsNumeric(r.value.value)
    ensures r.Some? && !live ==> r.value.None?
  {
    var tpbv := RStrip(field);
    if (tpbv == "" || !IsNumeric(tpbv)) && live then None
    else if live then Some(Some(tpbv))
    else Some(None)
  }
}
