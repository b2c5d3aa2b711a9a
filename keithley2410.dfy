/**
 * The Keithley 2410 source-measure unit as the bench drives it over VISA:
 * every command the driver writes or queries, in order, and the settings it
 * keeps beside them (the compliance limits, the sense mode, the elements a
 * reading returns and the IV curves taken so far). The SCPI and IEEE 488.2
 * common commands are opaque strings; a command that carries a number keeps
 * the number as a value.
 */
module Keithley2410Driver {
  import opened Wrappers
  import opened Text

  /** The instrument's fixed ranges. */
  const VoltageLimitLow: real := -1100.0
  const VoltageLimitHigh: real := 1100.0
  const CurrentLimitLow: real := -1.05
  const CurrentLimitHigh: real := 1.05

  /** The element names a reading can return, in the instrument's order. */
  const Elements: seq<string> := ["voltage", "current", "resistance", "time", "status"]

  /** One exchange with the instrument. */
  datatype Command =
    | Write(text: string)
    | WriteNum(head: string, value: real)   // the head, then the number as Python prints it
    | WriteInt(head: string, count: int)
    | Query(text: string)

  /** A parsed reading: one record per measurement, or the raw response when it is too short. */
  datatype Parsed = Records(rows: seq<map<string, string>>) | Raw(text: string)

  /** An IV curve as `takeIV` stores it. */
  datatype IVRecord = IVRecord(rh: string, temp: string, data: Parsed, date: string, time: string)

  /** The settings the driver keeps between commands. */
  datatype Settings = Settings(ilimit: real, vlimit: real, senseMode: string, elements: seq<string>, ivdata: seq<IVRecord>)

  function Abs(x: real): real {
    if x < 0.0 then -x else x
  }

  // ---------------------------------------------------------------------
  // set_elements
  // ---------------------------------------------------------------------

  /** The SCPI keyword of an element. */
  function ScpiName(e: string): (r: Option<string>)
    ensures r.Some? <==> e in Elements
  {
    if e == "voltage" then Some("VOLTage")
    else if e == "current" then Some("CURRent")
    else if e == "resistance" then Some("RESistance")
    else if e == "time" then Some("TIME")
    else if e == "status" then Some("STATus")
    else None
  }

  /** The element a SCPI keyword names. */
  function ElementNamed(name: string): Option<string> {
    if name == "VOLTage" then Some("voltage")
    else if name == "CURRent" then Some("current")
    else if name == "RESistance" then Some("resistance")
    else if name == "TIME" then Some("time")
    else if name == "STATus" then Some("status")
    else None
  }

  predicate AllKnown(list: seq<string>) {
    forall k :: 0 <= k < |list| ==> list[k] in Elements
  }

  /** The keywords of a list of known elements, in list order. */
  function ScpiNames(list: seq<string>): (names: seq<string>)
    requires AllKnown(list)
    ensures |names| == |list|
    ensures forall k :: 0 <= k < |list| ==> Some(names[k]) == ScpiName(list[k])
  {
    if list == [] then [] else ScpiNames(list[..|list| - 1]) + [ScpiName(list[|list| - 1]).value]
  }

  /** The argument of `FORMat:ELEMents`: the keywords joined by `", "`. */
  function ElementString(list: seq<string>): string
    requires AllKnown(list)
  {
    Join(ScpiNames(list), ", ")
  }

  /** A piece of the element string without the blank that follows each comma. */
  function Unspace(piece: string): string {
    if piece != [] && piece[0] == ' ' then piece[1..] else piece
  }

  /** Reading an element string back: split on commas, drop the blanks, name each keyword. */
  function DecodeElements(s: string): Option<seq<string>> {
    DecodePieces(Split(s, ','))
  }

  function DecodePieces(pieces: seq<string>): Option<seq<string>> {
    if pieces == [] then Some([])
    else
      match (ElementNamed(Unspace(pieces[0])), DecodePieces(pieces[1..]))
      case (Some(e), Some(rest)) => Some([e] + rest)
      case _ => None
  }

  /** Each keyword preceded by a blank. */
  function Spaced(names: seq<string>): (r: seq<string>)
    ensures |r| == |names|
    ensures forall k :: 0 <= k < |names| ==> r[k] == " " + names[k]
  {
    if names == [] then [] else [" " + names[0]] + Spaced(names[1..])
  }

  /** Joining with `", "` is joining with `","` once every keyword after the first carries its blank. */
  lemma {:induction false} JoinCommaSpace(names: seq<string>)
    requires names != []
    ensures Join(names, ", ") == Join([names[0]] + Spaced(names[1..]), ",")
  {
    if |names| >= 2 {
      JoinCommaSpace(names[1..]);
      var rest := names[1..];
      assert [rest[0]] + Spaced(rest[1..]) == [names[1]] + Spaced(names[2..]);
      assert Spaced(rest) == [" " + names[1]] + Spaced(names[2..]);
      BlankJoin(names[1], Spaced(names[2..]));
    }
  }

  /** A blank in front of a join belongs to its first part. */
  lemma BlankJoin(first: string, rest: seq<string>)
    ensures " " + Join([first] + rest, ",") == Join([" " + first] + rest, ",")
  {
    if rest != [] {
      assert ([first] + rest)[1..] == rest;
      assert ([" " + first] + rest)[1..] == rest;
    }
  }

  /** Decoding keyword pieces, each with at most one leading blank, gives back the elements. */
  lemma {:induction false} DecodeNames(list: seq<string>, pieces: seq<string>)
    requires AllKnown(list) && |pieces| == |list|
    requires forall k :: 0 <= k < |list| ==> Unspace(pieces[k]) == ScpiNames(list)[k]
    ensures DecodePieces(pieces) == Some(list)
  {
    if list != [] {
      var names := ScpiNames(list);
      assert ElementNamed(names[0]) == Some(list[0]);
      assert AllKnown(list[1..]);
      forall k | 0 <= k < |list| - 1
        ensures Unspace(pieces[1..][k]) == ScpiNames(list[1..])[k]
      {
        assert Some(ScpiNames(list[1..])[k]) == ScpiName(list[k + 1]);
      }
      DecodeNames(list[1..], pieces[1..]);
      assert [list[0]] + list[1..] == list;
    }
  }

  /** A keyword holds no comma and does not start with a blank. */
  lemma KeywordClean(e: string)
    requires e in Elements
    ensures var name := ScpiName(e).value;
      ',' !in name && name != [] && name[0] != ' ' && ',' !in " " + name
  {
  }

  /**
   * The element string of `set_elements` names the elements unambiguously:
   * reading it back gives the list that was set.
   */
  lemma ElementStringRoundTrip(list: seq<string>)
    requires AllKnown(list) && list != []
    ensures DecodeElements(ElementString(list)) == Some(list)
  {
    var names := ScpiNames(list);
    var pieces := [names[0]] + Spaced(names[1..]);
    JoinCommaSpace(names);
    forall k | 0 <= k < |pieces|
      ensures ',' !in pieces[k]
      ensures Unspace(pieces[k]) == names[k]
    {
      assert Some(names[k]) == ScpiName(list[k]);
      KeywordClean(list[k]);
      if k > 0 {
        assert pieces[k] == " " + names[k];
        assert pieces[k][1..] == names[k];
      }
    }
    SplitJoin(pieces, ',');
    DecodeNames(list, pieces);
  }

  // ---------------------------------------------------------------------
  // _parse_data
  // ---------------------------------------------------------------------

  /** `dict(zip(keys, values))` for lists of one length: a later key overwrites an earlier one. */
  function Zip(keys: seq<string>, values: seq<string>): map<string, string>
    requires |keys| == |values|
  {
    if keys == [] then map[]
    else Zip(keys[..|keys| - 1], values[..|values| - 1])[keys[|keys| - 1] := values[|values| - 1]]
  }

  /** Only the given keys are in the dictionary. */
  lemma {:induction false} ZipKeys(keys: seq<string>, values: seq<string>, k: string)
    requires |keys| == |values| && k !in keys
    ensures k !in Zip(keys, values)
  {
    if keys != [] {
      var init := keys[..|keys| - 1];
      forall a | 0 <= a < |init|
        ensures init[a] != k
      {
        assert init[a] == keys[a];
      }
      ZipKeys(init, values[..|values| - 1], k);
    }
  }

  predicate Distinct(keys: seq<string>) {
    forall i, j :: 0 <= i < j < |keys| ==> keys[i] != keys[j]
  }

  /** With distinct keys, each key maps to the value at its own position. */
  lemma {:induction false} ZipLookup(keys: seq<string>, values: seq<string>, j: nat)
    requires |keys| == |values| && Distinct(keys) && j < |keys|
    ensures keys[j] in Zip(keys, values) && Zip(keys, values)[keys[j]] == values[j]
  {
    if j < |keys| - 1 {
      ZipLookup(keys[..|keys| - 1], values[..|values| - 1], j);
    }
  }

  /** `i + 1` full groups of `n` fit in `k` pieces when `i < k / n`. */
  lemma DivBound(k: nat, n: nat, i: nat)
    requires 0 < n && i < k / n
    ensures n * i + n <= k
  {
    var q := k / n;
    assert k == n * q + k % n;
    MulLeft(n, i + 1, q);
  }

  /** The `k / n` full groups fit in `k` pieces. */
  lemma DivFits(k: nat, n: nat)
    requires 0 < n
    ensures n * (k / n) <= k
  {
    assert k == n * (k / n) + k % n;
  }

  lemma MulLeft(n: nat, a: nat, b: nat)
    requires a <= b
    ensures n * a <= n * b
  {
  }

  /** The record whose group of `n` pieces starts at `lo`: the first `n - 1` names zipped with the group's first `n - 1` pieces. */
  function Record(elements: seq<string>, pieces: seq<string>, lo: nat): map<string, string>
    requires 0 < |elements| && lo + |elements| <= |pieces|
  {
    Zip(elements[..|elements| - 1], pieces[lo .. lo + |elements| - 1])
  }

  /** The first `m` records, record `i` built from the group starting at `n * i`. */
  function RecordsBefore(elements: seq<string>, pieces: seq<string>, m: nat): (rows: seq<map<string, string>>)
    requires 0 < |elements| && |elements| * m <= |pieces|
    ensures |rows| == m
  {
    if m == 0 then []
    else
      var n := |elements|;
      assert n * (m - 1) + n == n * m;
      RecordsBefore(elements, pieces, m - 1) + [Record(elements, pieces, n * (m - 1))]
  }

  /** Group `i`, starting at `lo`, is the next record, and the next group starts `n` pieces later. */
  lemma GroupStep(elements: seq<string>, pieces: seq<string>, i: nat, lo: nat)
    requires 0 < |elements| && i < |pieces| / |elements| && lo == Start(|elements|, i)
    ensures lo + |elements| <= |pieces| && lo + |elements| == Start(|elements|, i + 1)
    ensures |elements| * (i + 1) <= |pieces|
    ensures RecordsBefore(elements, pieces, i + 1)
      == RecordsBefore(elements, pieces, i) + [Record(elements, pieces, lo)]
  {
    var n := |elements|;
    StartIsProduct(n, i);
    DivBound(|pieces|, n, i);
    assert n * (i + 1) == n * i + n;
  }

  /** The start of group `i`, counted up `n` at a time as the loop does. */
  function Start(n: nat, i: nat): nat {
    if i == 0 then 0 else Start(n, i - 1) + n
  }

  lemma {:induction false} StartIsProduct(n: nat, i: nat)
    ensures Start(n, i) == n * i
  {
    if i > 0 {
      StartIsProduct(n, i - 1);
      assert n * i == n * (i - 1) + n;
    }
  }

  /** The loop of `_parse_data`: one record per full group of pieces, in order. */
  method GroupRecords(elements: seq<string>, pieces: seq<string>) returns (data: seq<map<string, string>>)
    requires 0 < |elements|
    ensures data == AllRecords(elements, pieces)
  {
    var n := |elements|;
    data := [];
    var groups := |pieces| / n;
    var i := 0;
    var lo := 0;  // n * i, the start of group i
    while i < groups
      invariant 0 <= i <= groups
      invariant lo == Start(n, i)
      invariant data == RecordsBefore(elements, pieces, i)
    {
      GroupStep(elements, pieces, i, lo);
      data := data + [Record(elements, pieces, lo)];
      i := i + 1;
      lo := lo + n;
    }
  }

  /** Record `i` is built from the group starting at `n * i`. */
  lemma {:induction false} RecordsBeforeAt(elements: seq<string>, pieces: seq<string>, m: nat, i: nat)
    requires 0 < |elements| && |elements| * m <= |pieces| && i < m
    ensures |elements| * i + |elements| <= |pieces|
    ensures RecordsBefore(elements, pieces, m)[i] == Record(elements, pieces, |elements| * i)
  {
    var n := |elements|;
    assert n * (m - 1) + n == n * m;
    if i < m - 1 {
      RecordsBeforeAt(elements, pieces, m - 1, i);
    }
  }

  /**
   * `_parse_data(response)`: a response with at least as many comma pieces
   * as elements becomes `len // n` records, else it is returned unparsed;
   * with no elements at all the division fails.
   */
  function ParseSpec(elements: seq<string>, response: string): Result<Parsed> {
    var pieces := Split(response, ',');
    var n := |elements|;
    if |pieces| < n then Ok(Raw(response))
    else if n == 0 then Err(ZeroDivision)
    else Ok(Records(AllRecords(elements, pieces)))
  }

  /** A record for each of the `|pieces| / n` full groups; the pieces after the last full group are dropped. */
  function AllRecords(elements: seq<string>, pieces: seq<string>): seq<map<string, string>>
    requires 0 < |elements|
  {
    DivFits(|pieces|, |elements|);
    RecordsBefore(elements, pieces, |pieces| / |elements|)
  }

  /** Which responses parse into records, which stay raw, and how many records there are. */
  lemma ParseShape(elements: seq<string>, response: string)
    ensures var pieces := Split(response, ',');
      var n := |elements|;
      var p := ParseSpec(elements, response);
      && (p.Err? <==> n == 0 && |pieces| >= n)
      && (p == Ok(Raw(response)) <==> |pieces| < n)
      && (p.Ok? && p.value.Records? ==> n > 0 && |p.value.rows| == |pieces| / n)
  {
  }

  /** Record `i` of a parsed reading is built from the `i`-th group of `n` pieces. */
  lemma ParseFields(elements: seq<string>, response: string, i: nat)
    requires 0 < |elements| <= |Split(response, ',')|
    requires i < |Split(response, ',')| / |elements|
    ensures var n := |elements|;
      var pieces := Split(response, ',');
      && ParseSpec(elements, response).Ok?
      && ParseSpec(elements, response).value.Records?
      && i < |ParseSpec(elements, response).value.rows|
      && n * i + n <= |pieces|
      && ParseSpec(elements, response).value.rows[i] == Record(elements, pieces, n * i)
  {
    var pieces := Split(response, ',');
    var n := |elements|;
    var m := |pieces| / n;
    DivFits(|pieces|, n);
    assert ParseSpec(elements, response) == Ok(Records(RecordsBefore(elements, pieces, m)));
    RecordsBeforeAt(elements, pieces, m, i);
  }

  /**
   * What a record holds, for distinct element names: each of the first
   * `n - 1` names maps to the piece at its own position in the group; the
   * last name (normally `status`) is never a key, and the last piece of the
   * group is dropped.
   */
  lemma RecordFields(elements: seq<string>, pieces: seq<string>, lo: nat)
    requires Distinct(elements) && 0 < |elements| && lo + |elements| <= |pieces|
    ensures var n := |elements|;
      var row := Record(elements, pieces, lo);
      && elements[n - 1] !in row
      && forall j :: 0 <= j < n - 1 ==> elements[j] in row && row[elements[j]] == pieces[lo + j]
  {
    var n := |elements|;
    var row := Record(elements, pieces, lo);
    forall j | 0 <= j < n - 1
      ensures elements[j] in row && row[elements[j]] == pieces[lo + j]
    {
      RecordField(elements, pieces, lo, j);
    }
    RecordField(elements, pieces, lo, 0);
  }

  /** One field of the record whose group starts at `lo`. */
  lemma RecordField(elements: seq<string>, pieces: seq<string>, lo: nat, j: nat)
    requires Distinct(elements) && 0 < |elements| && lo + |elements| <= |pieces|
    ensures elements[|elements| - 1] !in Record(elements, pieces, lo)
    ensures j < |elements| - 1 ==>
      && elements[j] in Record(elements, pieces, lo)
      && Record(elements, pieces, lo)[elements[j]] == pieces[lo + j]
  {
    RecordLast(elements, pieces, lo);
    if j < |elements| - 1 {
      RecordAt(elements, pieces, lo, j);
    }
  }

  lemma RecordLast(elements: seq<string>, pieces: seq<string>, lo: nat)
    requires Distinct(elements) && 0 < |elements| && lo + |elements| <= |pieces|
    ensures elements[|elements| - 1] !in Record(elements, pieces, lo)
  {
    var n := |elements|;
    InitDistinct(elements);
    ZipKeys(elements[..n - 1], pieces[lo .. lo + n - 1], elements[n - 1]);
  }

  lemma RecordAt(elements: seq<string>, pieces: seq<string>, lo: nat, j: nat)
    requires Distinct(elements) && j < |elements| - 1 && lo + |elements| <= |pieces|
    ensures elements[j] in Record(elements, pieces, lo) && Record(elements, pieces, lo)[elements[j]] == pieces[lo + j]
  {
    var n := |elements|;
    var keys := elements[..n - 1];
    var vals := pieces[lo .. lo + n - 1];
    InitDistinct(elements);
    ZipLookup(keys, vals, j);
    assert keys[j] == elements[j] && vals[j] == pieces[lo + j];
  }

  /** Without its last name a list of distinct names stays distinct and no longer holds that name. */
  lemma InitDistinct(elements: seq<string>)
    requires Distinct(elements) && 0 < |elements|
    ensures Distinct(elements[..|elements| - 1])
    ensures elements[|elements| - 1] !in elements[..|elements| - 1]
  {
    var keys := elements[..|elements| - 1];
    forall a, b | 0 <= a < b < |keys|
      ensures keys[a] != keys[b]
    {
      assert keys[a] == elements[a] && keys[b] == elements[b];
    }
    forall a | 0 <= a < |keys|
      ensures keys[a] != elements[|elements| - 1]
    {
      assert keys[a] == elements[a];
    }
  }

  /** The value of one element in the first record, as `get_sense_*` reads it. */
  function FirstField(p: Parsed, key: string): (r: Result<string>)
    ensures p.Records? && p.rows != [] && key in p.rows[0] <==> r.Ok?
  {
    match p
    case Raw(s) => if s == "" then Err(IndexError) else Err(TypeError)
    case Records(rows) =>
      if rows == [] then Err(IndexError)
      else if key !in rows[0] then Err(KeyError(key))
      else Ok(rows[0][key])
  }

  // ---------------------------------------------------------------------
  // command sequences
  // ---------------------------------------------------------------------

  /** `display_string(string)`: the text on the upper display, shown and then hidden. */
  function DisplayCommands(text: string): seq<Command> {
    [Write("DISP:WIND1:TEXT \"" + text + "\""), Write("DISP:WIND1:TEXT:STAT ON"),
     Write("DISP:WIND1:TEXT:STAT OFF"), Write("DISP:WIND2:TEXT:STAT OFF")]
  }

  /** `set_sense_mode(mode)` for a valid mode. */
  function SenseCommands(mode: string): seq<Command> {
    if mode == "voltage" then [Write("SENSe1:FUNCtion:ON 'VOLTage:DC'"), Write("SENSe1:VOLTage:DC:RANGe:AUTO ON")]
    else [Write("SENSe1:FUNCtion:ON 'CURRent:DC'"), Write("SENSe1:CURRent:DC:RANGe:AUTO ON")]
  }

  predicate ValidSense(mode: string) {
    mode == "voltage" || mode == "current"
  }

  /** `set_output(onoff)`. */
  function OutputCommand(on: bool): Command {
    if on then Write("OUTPut ON") else Write("OUTPut OFF")
  }

  /** `set_source_voltage(value)` once the value is in range. */
  function SourceVoltageCommands(value: real): seq<Command> {
    [Write("SOURce1:FUNCtion VOLTage"), Write("SOURce1:VOLTage:MODE FIXed"), WriteNum("SOURce1:VOLTage ", value)]
  }

  /** The commands that program a sweep once its current limit is set. */
  function SweepProgram(vmin: real, vmax: real, steps: int, delay: real): seq<Command>
    requires steps != 0
  {
    [Write("SOURce1:FUNCtion VOLTage")]
    + [WriteNum("SOURce1:VOLTage:START ", vmin)]
    + [WriteNum("SOURce1:VOLTage:STOP ", vmax)]
    + [WriteNum("SOURce1:VOLTage:STEP ", (vmax - vmin) / steps as real)]
    + [Write("SOURce1:VOLTage:MODE SWEep")]
    + [Write("SOURce1:SWEep:SPACing LINear")]
    + [WriteInt("TRIGger:COUNt ", steps)]
    + [WriteNum("SOURce1:DELay ", delay)]
  }

  /** The commands a complete sweep writes before it fetches its data. */
  function SweepSetup(vmin: real, vmax: real, steps: int, ilimit: real, delay: real): seq<Command>
    requires steps != 0
  {
    DisplayCommands("Sweeping...") + SenseCommands("current")
    + [WriteNum("SENSe1:CURRent:PROTection:LEVel ", ilimit)]
    + SweepProgram(vmin, vmax, steps, delay)
  }

  /** The data of a sweep is fetched with the output on, and the output is switched off right after. */
  function SweepRead(): seq<Command> {
    [OutputCommand(true)] + [Write("INIT; *OPC?")] + [Query("FETCh?")] + [OutputCommand(false)]
  }

  /** In a complete sweep, `OUTPut ON` comes right before the fetch and `OUTPut OFF` right after it. */
  lemma SweepBracketed(vmin: real, vmax: real, steps: int, ilimit: real, delay: real)
    requires steps != 0
    ensures var c := SweepSetup(vmin, vmax, steps, ilimit, delay) + SweepRead();
      var k := |SweepSetup(vmin, vmax, steps, ilimit, delay)|;
      && |c| == k + 4 && c[k] == Write("OUTPut ON") && c[k + 2] == Query("FETCh?") && c[k + 3] == Write("OUTPut OFF")
      && forall j :: 0 <= j < k ==> c[j] != Write("OUTPut ON") && c[j] != Query("FETCh?")
  {
  }

  /** The reset and terminal selection that open the start-up sequence. */
  function ResetCommands(terminal: string): seq<Command> {
    [Write("*RST")] + [Write("SYSTem:REMote")]
    + [Write(if terminal == "Rear" then "ROUTe:TERMinals REAR" else "ROUTe:TERMinals FRON")]
    + [Write("SOURCe1:CLEar:AUTO ON")] + [Write("SENSe1:FUNCtion:CONCurrent OFF")]
  }

  /** The settings the constructor writes after the reset: elements, both protection limits and current sensing. */
  function LimitCommands(): seq<Command> {
    LimitWrites() + SenseCommands("current")
  }

  /** The default elements, current limit and voltage limit, as the setters write them. */
  function LimitWrites(): seq<Command> {
    DefaultsKnown();
    ConfigureWrites(Elements, 0.000105, 800.0)
  }

  /** An element list and both protection limits, as the setters write them. */
  function ConfigureWrites(list: seq<string>, ilimit: real, vlimit: real): seq<Command>
    requires AllKnown(list)
  {
    [Write("FORMat:ELEMents " + ElementString(list)),
     WriteNum("SENSe1:CURRent:PROTection:LEVel ", ilimit),
     WriteNum("SENSe1:VOLTage:PROTection:LEVel ", vlimit)]
  }

  /** The end of the constructor: the enable line when there is a switch, the output off, and a greeting. */
  function ReadyCommands(hasSwitch: bool): seq<Command> {
    (if hasSwitch then [Write("OUTPut1:ENABle ON")] else [])
    + [OutputCommand(false)]
    + DisplayCommands("Adapter connected.")
  }

  /** The start-up sequence of the constructor for a terminal setting that is `Rear` or `Front`. */
  function StartupCommands(terminal: string, hasSwitch: bool): seq<Command> {
    ResetCommands(terminal) + LimitCommands() + ReadyCommands(hasSwitch)
  }

  /** Every name of the default element list is known. */
  lemma DefaultsKnown()
    ensures AllKnown(Elements)
  {
    assert ScpiName(Elements[0]).Some? && ScpiName(Elements[1]).Some? && ScpiName(Elements[2]).Some?;
    assert ScpiName(Elements[3]).Some? && ScpiName(Elements[4]).Some?;
  }

  /** `shutdown()` when the stored voltage limit admits 0 V. */
  function ShutdownCommands(): seq<Command> {
    SourceVoltageCommands(0.0) + [OutputCommand(false), Write("OUTPut1:ENABle OFF"), Write("SYSTem:LOCal")]
  }

  /** `shutdown` zeroes the source before it switches the output off, disables it, and returns to local. */
  lemma ShutdownOrder()
    ensures var c := ShutdownCommands();
      && |c| == 6 && c[2] == WriteNum("SOURce1:VOLTage ", 0.0)
      && c[3] == Write("OUTPut OFF") && c[4] == Write("OUTPut1:ENABle OFF") && c[5] == Write("SYSTem:LOCal")
  {
  }

  /**
   * The steps `takeIV(Vmax, step, ...)` asks the sweep for:
   * `int(Vmax // step) + 1`, the floor of the quotient plus one.
   */
  function IVSteps(vmax: real, step: real): int
    requires step != 0.0
  {
    (vmax / step).Floor + 1
  }

  /** The sweep covers every multiple of the step from 0 V up to `Vmax`, and no more. */
  lemma IVStepsCover(vmax: real, step: real)
    requires step > 0.0 && vmax >= 0.0
    ensures var n := IVSteps(vmax, step);
      n >= 1 && (n - 1) as real * step <= vmax < n as real * step
  {
    var q := vmax / step;
    var f := q.Floor as real;
    assert q * step == vmax;
    assert f <= q < f + 1.0;
    assert f >= 0.0;
    ScaleLe(f, q, step);
    ScaleLt(q, f + 1.0, step);
    var n := IVSteps(vmax, step);
    assert n == q.Floor + 1;
    assert (n - 1) as real == f && n as real == f + 1.0;
    assert q * step < (f + 1.0) * step;
    assert (f + 1.0) * step == n as real * step;
    assert vmax < n as real * step;
  }

  lemma ScaleLe(a: real, b: real, c: real)
    requires a <= b && c > 0.0
    ensures a * c <= b * c
  {
  }

  lemma ScaleLt(a: real, b: real, c: real)
    requires a < b && c > 0.0
    ensures a * c < b * c
  {
  }

  /** The rows `takeIV` reads from each record; a missing one fails the comprehension. */
  function IVFields(p: Parsed): Result<()> {
    match p
    case Raw(s) => if s == "" then Ok(()) else Err(TypeError)
    case Records(rows) => RowsFields(rows)
  }

  function RowsFields(rows: seq<map<string, string>>): Result<()> {
    if rows == [] then Ok(())
    else if "voltage" !in rows[0] then Err(KeyError("voltage"))
    else if "current" !in rows[0] then Err(KeyError("current"))
    else if "resistance" !in rows[0] then Err(KeyError("resistance"))
    else RowsFields(rows[1..])
  }

  class Keithley2410 {
    var commands: seq<Command>
    var ilimit: real
    var vlimit: real
    var senseMode: string
    var elements: seq<string>
    var ivdata: seq<IVRecord>

    /** The user-editable defaults, before anything is written. */
    constructor Defaults()
      ensures commands == [] && Current() == Settings(0.000105, 800.0, "current", Elements, [])
    {
      commands := [];
      ilimit := 0.000105;
      vlimit := 800.0;
      senseMode := "current";
      elements := Elements;
      ivdata := [];
    }

    function Current(): Settings
      reads this
    {
      Settings(ilimit, vlimit, senseMode, elements, ivdata)
    }

    /**
     * `Keithley2410()`: reset, remote mode, the terminals the configuration
     * names (anything but `Rear` or `Front` raises), the default elements,
     * limits and sense mode, the output enable line when there is an HV
     * switch, the output off, and the greeting on the display.
     */
    static method Create(terminal: string, hasSwitch: bool) returns (r: Result<Keithley2410>)
      ensures r.Err? <==> terminal != "Rear" && terminal != "Front"
      ensures r.Err? ==> r.error == RuntimeError("HVTerminal in configuration should be Front or Rear")
      ensures r.Ok? ==>
        && fresh(r.value)
        && r.value.commands == StartupCommands(terminal, hasSwitch)
        && r.value.Current() == Settings(0.000105, 800.0, "current", Elements, [])
    {
      if terminal != "Rear" && terminal != "Front" {
        return Err(RuntimeError("HVTerminal in configuration should be Front or Rear"));
      }
      var k := new Keithley2410.Defaults();
      k.Reset(terminal);
      assert k.commands == ResetCommands(terminal);
      k.Limits();
      k.Ready(hasSwitch);
      return Ok(k);
    }

    /** The constructor's settings after the reset, each accepted by its setter. */
    method Limits()
      modifies this
      ensures commands == old(commands) + LimitCommands()
      ensures Current() == old(Current()).(ilimit := 0.000105, vlimit := 800.0, senseMode := "current", elements := Elements)
    {
      DefaultsKnown();
      assert Abs(0.000105) <= CurrentLimitHigh && Abs(800.0) <= VoltageLimitHigh;
      ApplyLimits(Elements, 0.000105, 800.0);
    }

    /** The elements, both protection limits and current sensing, each accepted by its setter. */
    method ApplyLimits(list: seq<string>, ilimit: real, vlimit: real)
      requires AllKnown(list) && Abs(ilimit) <= CurrentLimitHigh && Abs(vlimit) <= VoltageLimitHigh
      modifies this
      ensures commands == old(commands) + ConfigureWrites(list, ilimit, vlimit) + SenseCommands("current")
      ensures Current() == old(Current()).(ilimit := ilimit, vlimit := vlimit, senseMode := "current", elements := list)
    {
      ghost var c0 := commands;
      var e1 := SetElements(list);
      var e2 := SetCurrentLimit(ilimit);
      var e3 := SetVoltageLimit(vlimit);
      ghost var c3 := commands;
      var e4 := SetSenseMode("current");
      assert c3 == c0 + ConfigureWrites(list, ilimit, vlimit);
    }

    /** The end of the constructor. */
    method Ready(hasSwitch: bool)
      modifies this
      ensures commands == old(commands) + ReadyCommands(hasSwitch) && Current() == old(Current())
    {
      if hasSwitch {
        SetOutputEnable(true);
      }
      SetOutput(false);
      DisplayString("Adapter connected.");
    }

    /**
     * The start of the constructor: reset, remote control, the rear or
     * front terminals, automatic source clearing and no concurrent sensing.
     */
    method Reset(terminal: string)
      modifies this
      ensures commands == old(commands) + ResetCommands(terminal) && Current() == old(Current())
    {
      Send(Write("*RST"));
      Send(Write("SYSTem:REMote"));
      Send(Write(if terminal == "Rear" then "ROUTe:TERMinals REAR" else "ROUTe:TERMinals FRON"));
      Send(Write("SOURCe1:CLEar:AUTO ON"));
      Send(Write("SENSe1:FUNCtion:CONCurrent OFF"));
    }

    /** `_write(writeStr)` and `_query(queryStr)`: the exchange joins the log. */
    method Send(c: Command)
      modifies this
      ensures commands == old(commands) + [c] && Current() == old(Current())
    {
      commands := commands + [c];
    }

    /**
     * `set_elements(element_list)`: the list is stored first; then, when
     * every name is known, `FORMat:ELEMents` with their keywords in list
     * order is written, and otherwise ValueError is raised with nothing
     * written.
     */
    method SetElements(list: seq<string>) returns (r: Result<()>)
      modifies this
      ensures Current() == old(Current()).(elements := list)
      ensures r.Ok? <==> AllKnown(list)
      ensures r.Ok? ==> commands == old(commands) + [Write("FORMat:ELEMents " + ElementString(list))]
      ensures r.Err? ==> r == Err(ValueError("Undefined element")) && commands == old(commands)
    {
      elements := list;
      var s := "";
      var i := 0;
      while i < |list|
        invariant 0 <= i <= |list|
        invariant AllKnown(list[..i])
        invariant s == ElementString(list[..i])
        invariant commands == old(commands) && Current() == old(Current()).(elements := list)
      {
        var name := ScpiName(list[i]);
        if name.None? {
          return Err(ValueError("Undefined element"));
        }
        ElementStringStep(list, i);
        if s != "" {
          s := s + ", ";
        }
        s := s + name.value;
        i := i + 1;
      }
      assert list[..i] == list;
      Send(Write("FORMat:ELEMents " + s));
      r := Ok(());
    }

    /**
     * `_parse_data(response)` with the stored elements: the loop over the
     * full groups of comma pieces builds exactly the records `ParseSpec` names.
     */
    method ParseData(response: string) returns (r: Result<Parsed>)
      ensures r == ParseSpec(elements, response)
    {
      var pieces := Split(response, ',');
      var n := |elements|;
      if |pieces| < n {
        return Ok(Raw(response));
      }
      if n == 0 {
        return Err(ZeroDivision);
      }
      var data := GroupRecords(elements, pieces);
      r := Ok(Records(data));
    }

    /**
     * `set_current_limit(ilimit)`: accepted exactly when its magnitude is
     * at most 1.05 A (the lower bound on a magnitude holds always).
     */
    method SetCurrentLimit(i: real) returns (r: Result<()>)
      modifies this
      ensures r.Ok? <==> Abs(i) <= CurrentLimitHigh
      ensures r.Ok? ==>
        && Current() == old(Current()).(ilimit := i)
        && commands == old(commands) + [WriteNum("SENSe1:CURRent:PROTection:LEVel ", i)]
      ensures r.Err? ==> r == Err(ValueError("Invalid current limit")) && commands == old(commands) && Current() == old(Current())
    {
      if CurrentLimitLow <= Abs(i) <= CurrentLimitHigh {
        ilimit := i;
        Send(WriteNum("SENSe1:CURRent:PROTection:LEVel ", i));
        r := Ok(());
      } else {
        r := Err(ValueError("Invalid current limit"));
      }
    }

    /** `set_voltage_limit(vlimit)`: accepted exactly when its magnitude is at most 1100 V. */
    method SetVoltageLimit(v: real) returns (r: Result<()>)
      modifies this
      ensures r.Ok? <==> Abs(v) <= VoltageLimitHigh
      ensures r.Ok? ==>
        && Current() == old(Current()).(vlimit := v)
        && commands == old(commands) + [WriteNum("SENSe1:VOLTage:PROTection:LEVel ", v)]
      ensures r.Err? ==> r == Err(ValueError("Invalid voltage limit")) && commands == old(commands) && Current() == old(Current())
    {
      if VoltageLimitLow <= Abs(v) <= VoltageLimitHigh {
        vlimit := v;
        Send(WriteNum("SENSe1:VOLTage:PROTection:LEVel ", v));
        r := Ok(());
      } else {
        r := Err(ValueError("Invalid voltage limit"));
      }
    }

    /**
     * `set_source_voltage_mode(mode)`: the source function is set to
     * voltage first, then the mode; an unknown mode raises after the first
     * command.
     */
    method SetSourceVoltageMode(mode: string) returns (r: Result<()>)
      modifies this
      ensures Current() == old(Current())
      ensures r.Ok? <==> mode in {"fixed", "list", "sweep"}
      ensures r.Ok? ==> commands == old(commands) + [Write("SOURce1:FUNCtion VOLTage"), VoltageModeCommand(mode)]
      ensures r.Err? ==> r == Err(ValueError("Invalid mode selection")) && commands == old(commands) + [Write("SOURce1:FUNCtion VOLTage")]
    {
      Send(Write("SOURce1:FUNCtion VOLTage"));
      if mode in {"fixed", "list", "sweep"} {
        Send(VoltageModeCommand(mode));
        r := Ok(());
      } else {
        r := Err(ValueError("Invalid mode selection"));
      }
    }

    /** `set_source_current_mode(mode)`, the same for a current source. */
    method SetSourceCurrentMode(mode: string) returns (r: Result<()>)
      modifies this
      ensures Current() == old(Current())
      ensures r.Ok? <==> mode in {"fixed", "list", "sweep"}
      ensures r.Ok? ==> commands == old(commands) + [Write("SOURce1:FUNCtion CURRent"), CurrentModeCommand(mode)]
      ensures r.Err? ==> r == Err(ValueError("Invalid mode selection")) && commands == old(commands) + [Write("SOURce1:FUNCtion CURRent")]
    {
      Send(Write("SOURce1:FUNCtion CURRent"));
      if mode in {"fixed", "list", "sweep"} {
        Send(CurrentModeCommand(mode));
        r := Ok(());
      } else {
        r := Err(ValueError("Invalid mode selection"));
      }
    }

    /**
     * `set_source_voltage(value)`: accepted exactly when its magnitude is
     * within the stored voltage limit; then a fixed voltage source at that
     * value, else ValueError with nothing written.
     */
    method SetSourceVoltage(value: real) returns (r: Result<()>)
      modifies this
      ensures Current() == old(Current())
      ensures r.Ok? <==> Abs(value) <= vlimit
      ensures r.Ok? ==> commands == old(commands) + SourceVoltageCommands(value)
      ensures r.Err? ==> r == Err(ValueError("Invalid set voltage")) && commands == old(commands)
    {
      if VoltageLimitLow <= Abs(value) <= vlimit {
        var m := SetSourceVoltageMode("fixed");
        Send(WriteNum("SOURce1:VOLTage ", value));
        assert commands == old(commands) + SourceVoltageCommands(value);
        r := Ok(());
      } else {
        r := Err(ValueError("Invalid set voltage"));
      }
    }

    /** `set_source_current(value)`: within the stored current limit, a fixed current source. */
    method SetSourceCurrent(value: real) returns (r: Result<()>)
      modifies this
      ensures Current() == old(Current())
      ensures r.Ok? <==> Abs(value) <= ilimit
      ensures r.Ok? ==> commands == old(commands) + [Write("SOURce1:FUNCtion CURRent"), Write("SOURce1:CURRent:MODE FIXed"), WriteNum("SOURce1:CURRent ", value)]
      ensures r.Err? ==> r == Err(ValueError("Invalid set voltage")) && commands == old(commands)
    {
      if CurrentLimitLow <= Abs(value) <= ilimit {
        var m := SetSourceCurrentMode("fixed");
        Send(WriteNum("SOURce1:CURRent ", value));
        assert commands == old(commands) + [Write("SOURce1:FUNCtion CURRent"), Write("SOURce1:CURRent:MODE FIXed"), WriteNum("SOURce1:CURRent ", value)];
        r := Ok(());
      } else {
        r := Err(ValueError("Invalid set voltage"));
      }
    }

    /** `set_sense_mode(mode)`: voltage or current is stored and configured; anything else raises. */
    method SetSenseMode(mode: string) returns (r: Result<()>)
      modifies this
      ensures r.Ok? <==> ValidSense(mode)
      ensures r.Ok? ==> Current() == old(Current()).(senseMode := mode) && commands == old(commands) + SenseCommands(mode)
      ensures r.Err? ==> r == Err(ValueError("Invalid sense mode")) && Current() == old(Current()) && commands == old(commands)
    {
      if mode == "voltage" {
        senseMode := mode;
        Send(Write("SENSe1:FUNCtion:ON 'VOLTage:DC'"));
        Send(Write("SENSe1:VOLTage:DC:RANGe:AUTO ON"));
        r := Ok(());
      } else if mode == "current" {
        senseMode := mode;
        Send(Write("SENSe1:FUNCtion:ON 'CURRent:DC'"));
        Send(Write("SENSe1:CURRent:DC:RANGe:AUTO ON"));
        r := Ok(());
      } else {
        r := Err(ValueError("Invalid sense mode"));
      }
    }

    /**
     * `get_sense_voltage()` / `get_sense_current()` with the instrument's
     * `measurement`: the sense mode is switched only when it differs, so
     * afterwards it is the one asked for; then a reading is taken and the
     * element of that name is read from its first record. The current
     * reading first prints the reading's second character, so a reading
     * shorter than two characters raises IndexError before it is parsed.
     */
    method GetSense(mode: string, measurement: string) returns (r: Result<string>)
      requires ValidSense(mode)
      modifies this
      ensures Current() == old(Current()).(senseMode := mode)
      ensures commands == old(commands) + (if old(senseMode) != mode then SenseCommands(mode) else [])
        + [Write(if mode == "voltage" then "CONFigure:VOLTage:DC" else "CONFigure:CURRent:DC"), Query("READ?")]
      ensures mode == "current" && |measurement| < 2 ==> r == Err(IndexError)
      ensures !(mode == "current" && |measurement| < 2) ==>
        r == (var p := ParseSpec(elements, measurement); if p.Err? then Err(p.error) else FirstField(p.value, mode))
    {
      if senseMode != mode {
        var s := SetSenseMode(mode);
      }
      Send(Write(if mode == "voltage" then "CONFigure:VOLTage:DC" else "CONFigure:CURRent:DC"));
      Send(Query("READ?"));
      if mode == "current" && |measurement| < 2 {
        return Err(IndexError);
      }
      var p := ParseData(measurement);
      if p.Err? {
        return Err(p.error);
      }
      r := FirstField(p.value, mode);
    }

    /** `set_output(onoff)`, `outputOn()` and `outputOff()`. */
    method SetOutput(on: bool)
      modifies this
      ensures commands == old(commands) + [OutputCommand(on)] && Current() == old(Current())
    {
      Send(OutputCommand(on));
    }

    /** `set_output_enable(onoff)`: the output enable line that guards the test stand. */
    method SetOutputEnable(on: bool)
      modifies this
      ensures commands == old(commands) + [Write(if on then "OUTPut1:ENABle ON" else "OUTPut1:ENABle OFF")]
      ensures Current() == old(Current())
    {
      Send(Write(if on then "OUTPut1:ENABle ON" else "OUTPut1:ENABle OFF"));
    }

    method DisplayString(text: string)
      modifies this
      ensures commands == old(commands) + DisplayCommands(text) && Current() == old(Current())
    {
      Send(Write("DISP:WIND1:TEXT \"" + text + "\""));
      Send(Write("DISP:WIND1:TEXT:STAT ON"));
      Send(Write("DISP:WIND1:TEXT:STAT OFF"));
      Send(Write("DISP:WIND2:TEXT:STAT OFF"));
    }

    /** `switch_state()`: the enable-line trip state read back, true for any non-zero value. */
    method SwitchState(tripped: int) returns (closed: bool)
      modifies this
      ensures closed <==> tripped != 0
      ensures commands == old(commands) + [Query("OUTPut:ENABle:TRIPped?")] && Current() == old(Current())
    {
      Send(Query("OUTPut:ENABle:TRIPped?"));
      closed := tripped != 0;
    }

    /**
     * `shutdown()`: the source is zeroed, the output switched off and
     * disabled, and the instrument returned to local control; a stored
     * voltage limit below zero makes the first step raise, and then
     * nothing is written.
     */
    method Shutdown() returns (r: Result<()>)
      modifies this
      ensures Current() == old(Current())
      ensures r.Ok? <==> 0.0 <= vlimit
      ensures r.Ok? ==> commands == old(commands) + ShutdownCommands()
      ensures r.Err? ==> commands == old(commands)
    {
      r := SetSourceVoltage(0.0);
      if r.Err? {
        return;
      }
      SetOutput(false);
      SetOutputEnable(false);
      Send(Write("SYSTem:LOCal"));
    }

    /**
     * `voltage_sweep(Vmin, Vmax, steps, Ilimit, delay_s)` with the
     * instrument's `response`: out of range nothing is written; otherwise
     * the sweep is set up, the data is fetched between `OUTPut ON` and
     * `OUTPut OFF`, parsed, and the display says the sweep is complete.
     * Zero steps fail at the step size and a bad current limit at its
     * check, both before the output is switched on.
     */
    method VoltageSweep(vmin: real, vmax: real, steps: int, ilim: real, delay: real, response: string) returns (r: Result<Parsed>)
      modifies this
      ensures !(vmin >= VoltageLimitLow && vmax <= old(vlimit)) ==>
        r == Err(ValueError("Voltage range out of bounds")) && commands == old(commands) && Current() == old(Current())
      ensures vmin >= VoltageLimitLow && vmax <= old(vlimit) && steps == 0 ==>
        r == Err(ZeroDivision) && commands == old(commands) + DisplayCommands("Sweeping...") && Current() == old(Current())
      ensures vmin >= VoltageLimitLow && vmax <= old(vlimit) && steps != 0 ==>
        && senseMode == "current" && elements == old(elements) && vlimit == old(vlimit) && ivdata == old(ivdata)
        && (Abs(ilim) > CurrentLimitHigh ==>
              r == Err(ValueError("Invalid current limit")) && ilimit == old(ilimit)
              && commands == old(commands) + DisplayCommands("Sweeping...") + SenseCommands("current"))
        && (Abs(ilim) <= CurrentLimitHigh ==>
              && ilimit == ilim
              && r == ParseSpec(elements, response)
              && commands == old(commands) + SweepSetup(vmin, vmax, steps, ilim, delay) + SweepRead()
                             + (if r.Ok? then DisplayCommands("Sweep complete.") else []))
    {
      if !(vmin >= VoltageLimitLow && vmax <= vlimit) {
        return Err(ValueError("Voltage range out of bounds"));
      }
      DisplayString("Sweeping...");
      if steps == 0 {
        return Err(ZeroDivision);
      }
      var s := SetSenseMode("current");
      var c := SetCurrentLimit(ilim);
      if c.Err? {
        return Err(c.error);
      }
      ghost var armed := commands;
      assert armed == old(commands) + DisplayCommands("Sweeping...") + SenseCommands("current")
        + [WriteNum("SENSe1:CURRent:PROTection:LEVel ", ilim)];
      r := Execute(vmin, vmax, steps, delay, response);
      assert armed + SweepProgram(vmin, vmax, steps, delay) == old(commands) + SweepSetup(vmin, vmax, steps, ilim, delay);
    }

    /** The programmed sweep: it runs, its data are fetched and parsed, and success is announced. */
    method Execute(vmin: real, vmax: real, steps: int, delay: real, response: string) returns (r: Result<Parsed>)
      requires steps != 0
      modifies this
      ensures r == ParseSpec(elements, response) && Current() == old(Current())
      ensures commands == old(commands) + SweepProgram(vmin, vmax, steps, delay) + SweepRead()
        + (if r.Ok? then DisplayCommands("Sweep complete.") else [])
    {
      Program(vmin, vmax, steps, delay);
      Fetch();
      r := ParseData(response);
      if r.Ok? {
        DisplayString("Sweep complete.");
      }
    }

    /** The sweep programming of `voltage_sweep`: source, range, step size, spacing, count and delay. */
    method Program(vmin: real, vmax: real, steps: int, delay: real)
      requires steps != 0
      modifies this
      ensures commands == old(commands) + SweepProgram(vmin, vmax, steps, delay) && Current() == old(Current())
    {
      var vstep := (vmax - vmin) / steps as real;
      Send(Write("SOURce1:FUNCtion VOLTage"));
      Send(WriteNum("SOURce1:VOLTage:START ", vmin));
      Send(WriteNum("SOURce1:VOLTage:STOP ", vmax));
      Send(WriteNum("SOURce1:VOLTage:STEP ", vstep));
      Send(Write("SOURce1:VOLTage:MODE SWEep"));
      Send(Write("SOURce1:SWEep:SPACing LINear"));
      Send(WriteInt("TRIGger:COUNt ", steps));
      Send(WriteNum("SOURce1:DELay ", delay));
    }

    /** The output goes on, the sweep is triggered and fetched (`_read_async`), and the output goes off. */
    method Fetch()
      modifies this
      ensures commands == old(commands) + SweepRead() && Current() == old(Current())
    {
      SetOutput(true);
      Send(Write("INIT; *OPC?"));
      Send(Query("FETCh?"));
      SetOutput(false);
    }

    /**
     * `takeIV(Vmax, step, RH, Temp)` AS WRITTEN: the sweep from 0 V in
     * `int(Vmax // step) + 1` steps, then the rows are read from the
     * records, and then `np.array` names a module this file never imports:
     * every call that gets that far raises NameError and no curve is stored.
     */
    method TakeIV(vmax: real, step: real, rh: string, temp: string, date: string, time: string, response: string)
      returns (r: Result<IVRecord>)
      modifies this
      ensures step == 0.0 ==> r == Err(ZeroDivision) && commands == old(commands) && Current() == old(Current())
      ensures step != 0.0 && vmax > old(vlimit) ==>
        r == Err(ValueError("Voltage range out of bounds")) && commands == old(commands)
      ensures step != 0.0 && vmax <= old(vlimit) && IVSteps(vmax, step) == 0 ==>
        r == Err(ZeroDivision) && commands == old(commands) + DisplayCommands("Sweeping...")
      ensures step != 0.0 && vmax <= old(vlimit) && IVSteps(vmax, step) != 0 ==>
        && commands == old(commands) + SweepSetup(0.0, vmax, IVSteps(vmax, step), 0.000105, 1.0) + SweepRead()
                       + (if ParseSpec(old(elements), response).Ok? then DisplayCommands("Sweep complete.") else [])
        && (ParseSpec(old(elements), response).Err? ==> r == Err(ParseSpec(old(elements), response).error))
        && (ParseSpec(old(elements), response).Ok? && IVFields(ParseSpec(old(elements), response).value).Err? ==>
              r == Err(IVFields(ParseSpec(old(elements), response).value).error))
        && (ParseSpec(old(elements), response).Ok? && IVFields(ParseSpec(old(elements), response).value).Ok? ==>
              r == Err(NameError("np")))
      ensures ivdata == old(ivdata)
      ensures r.Err?
    {
      if step == 0.0 {
        return Err(ZeroDivision);
      }
      var p := VoltageSweep(0.0, vmax, IVSteps(vmax, step), 0.000105, 1.0, response);
      if p.Err? {
        return Err(p.error);
      }
      var rows := IVFields(p.value);
      if rows.Err? {
        return Err(rows.error);
      }
      r := Err(NameError("np"));
    }

    /**
     * `takeIV` as intended: the same sweep, and the curve with the
     * humidity, temperature, date and time appended to `IVdata` and returned.
     */
    method TakeIVIntended(vmax: real, step: real, rh: string, temp: string, date: string, time: string, response: string)
      returns (r: Result<IVRecord>)
      modifies this
      ensures step == 0.0 ==> r == Err(ZeroDivision) && commands == old(commands) && Current() == old(Current())
      ensures step != 0.0 && vmax > old(vlimit) ==>
        r == Err(ValueError("Voltage range out of bounds")) && commands == old(commands)
      ensures step != 0.0 && vmax <= old(vlimit) && IVSteps(vmax, step) == 0 ==>
        r == Err(ZeroDivision) && commands == old(commands) + DisplayCommands("Sweeping...")
      ensures step != 0.0 && vmax <= old(vlimit) && IVSteps(vmax, step) != 0 ==>
        && commands == old(commands) + SweepSetup(0.0, vmax, IVSteps(vmax, step), 0.000105, 1.0) + SweepRead()
                       + (if ParseSpec(old(elements), response).Ok? then DisplayCommands("Sweep complete.") else [])
        && (r.Ok? <==> ParseSpec(old(elements), response).Ok? && IVFields(ParseSpec(old(elements), response).value).Ok?)
      ensures r.Ok? ==>
        && step != 0.0 && ParseSpec(old(elements), response) == Ok(r.value.data)
        && IVFields(r.value.data).Ok?
        && r.value == IVRecord(rh, temp, r.value.data, date, time)
        && ivdata == old(ivdata) + [r.value]
        && old(commands) <= commands
      ensures r.Err? ==> ivdata == old(ivdata)
    {
      if step == 0.0 {
        return Err(ZeroDivision);
      }
      var p := VoltageSweep(0.0, vmax, IVSteps(vmax, step), 0.000105, 1.0, response);
      if p.Err? {
        return Err(p.error);
      }
      var rows := IVFields(p.value);
      if rows.Err? {
        return Err(rows.error);
      }
      var rec := IVRecord(rh, temp, p.value, date, time);
      ivdata := ivdata + [rec];
      r := Ok(rec);
    }
  }

  /** Adding one known element to the list extends the element string by one keyword. */
  lemma ElementStringSnoc(list: seq<string>, e: string)
    requires AllKnown(list) && e in Elements
    ensures AllKnown(list + [e])
    ensures ElementString(list + [e]) ==
      (if ElementString(list) != "" then ElementString(list) + ", " else "") + ScpiName(e).value
  {
    var l2 := list + [e];
    assert l2[..|l2| - 1] == list;
    var names := ScpiNames(l2);
    assert names == ScpiNames(list) + [ScpiName(e).value];
    if list == [] {
      assert names == [ScpiName(e).value];
    } else {
      assert names[..|names| - 1] == ScpiNames(list);
      JoinLast(names, ", ");
      assert ScpiNames(list)[0] == ScpiName(list[0]).value;
      assert ElementString(list) != "" by {
        JoinFirstNonEmpty(ScpiNames(list), ", ");
      }
    }
  }

  /** `ElementStringSnoc` for the prefixes of one list. */
  lemma ElementStringStep(list: seq<string>, i: nat)
    requires i < |list| && AllKnown(list[..i]) && list[i] in Elements
    ensures AllKnown(list[..i + 1])
    ensures ElementString(list[..i + 1]) ==
      (if ElementString(list[..i]) != "" then ElementString(list[..i]) + ", " else "") + ScpiName(list[i]).value
  {
    assert list[..i + 1] == list[..i] + [list[i]];
    ElementStringSnoc(list[..i], list[i]);
  }

  /** A join whose first part is not empty is not empty. */
  lemma JoinFirstNonEmpty(parts: seq<string>, sep: string)
    requires parts != [] && parts[0] != ""
    ensures Join(parts, sep) != ""
  {
    if |parts| > 1 {
      assert |Join(parts, sep)| >= |parts[0]|;
    }
  }

  /** The mode command `set_source_voltage_mode` writes for a valid mode. */
  function VoltageModeCommand(mode: string): Command {
    if mode == "fixed" then Write("SOURce1:VOLTage:MODE FIXed")
    else if mode == "list" then Write("SOURce1:VOLTage:MODE LIST")
    else Write("SOURce1:VOLTage:MODE SWEep")
  }

  /** The mode command `set_source_current_mode` writes for a valid mode. */
  function CurrentModeCommand(mode: string): Command {
    if mode == "fixed" then Write("SOURce1:CURRent:MODE FIXed")
    else if mode == "list" then Write("SOURce1:CURRent:MODE LIST")
    else Write("SOURce1:CURRent:MODE SWEep")
  }
}
