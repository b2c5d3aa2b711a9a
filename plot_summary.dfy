/**
 * The hexmap summary plots: which class each readout channel is drawn as,
 * the polygon drawn for it, which columns of the run summary are plotted
 * and with what colour range, and how the plot label, the output
 * directory, the board type and the live-module flag are derived from the
 * summary file's path.
 */
module HexmapSummary {
  import opened Wrappers
  import opened Text
  import opened Paths
  import opened ModuleSerial

  /** The mapping key: chip, channel and channel type (0 normal, 1 calibration, 100 common mode). */
  datatype ChannelKey = ChannelKey(chip: int, chan: int, chantype: int)

  /** `get_pad_id`: the mapped pad, or pad 0 for a channel missing from the map. */
  function PadId(padMap: map<ChannelKey, int>, chip: int, chan: int, chantype: int): (pad: int)
    ensures ChannelKey(chip, chan, chantype) in padMap ==> pad == padMap[ChannelKey(chip, chan, chantype)]
    ensures ChannelKey(chip, chan, chantype) !in padMap ==> pad == 0
  {
    var key := ChannelKey(chip, chan, chantype);
    if key in padMap then padMap[key] else 0
  }

  /** One channel of the summary, with its pad after mapping. */
  datatype Channel = Channel(channel: int, channeltype: int, pad: int)

  /** The five classes the hexmap draws. */
  datatype DataType = Norm | Calib | Cm0 | Cm1 | Nc

  const DataTypes: seq<DataType> := [Norm, Calib, Cm0, Cm1, Nc]

  /**
   * The masks of `plot_hexmaps`: normal channels with a positive pad,
   * calibration channels, even and odd common-mode channels, and
   * normal-type channels with a negative pad (not connected). Python's
   * `%` by 2 and Dafny's agree on negative channels too.
   */
  predicate InClass(ch: Channel, t: DataType) {
    match t
    case Norm => ch.channeltype == 0 && ch.pad > 0
    case Calib => ch.channeltype == 1
    case Cm0 => ch.channeltype == 100 && ch.channel % 2 == 0
    case Cm1 => ch.channeltype == 100 && ch.channel % 2 == 1
    case Nc => ch.channeltype == 0 && ch.pad < 0
  }

  /** The class a channel is drawn as, if any. */
  function Classify(ch: Channel): (r: Option<DataType>)
    ensures r.Some? ==> InClass(ch, r.value)
    ensures r.None? ==> forall t: DataType :: !InClass(ch, t)
  {
    if ch.channeltype == 0 then
      if ch.pad > 0 then Some(Norm) else if ch.pad < 0 then Some(Nc) else None
    else if ch.channeltype == 1 then Some(Calib)
    else if ch.channeltype == 100 then
      if ch.channel % 2 == 0 then Some(Cm0) else Some(Cm1)
    else None
  }

  /** No channel is in two classes, so none is drawn twice. */
  lemma ClassesDisjoint(ch: Channel, t: DataType, u: DataType)
    requires InClass(ch, t) && InClass(ch, u)
    ensures t == u
  {
    assert Classify(ch).Some?;
  }

  /** The channels left undrawn are exactly unmapped normal channels and unknown channel types. */
  lemma UnclassifiedChannels(ch: Channel)
    ensures Classify(ch).None? <==>
      (ch.channeltype == 0 && ch.pad == 0) || (ch.channeltype != 0 && ch.channeltype != 1 && ch.channeltype != 100)
  {
  }

  /** A normal channel missing from the pad map gets pad 0 and is drawn in no class. */
  lemma UnmappedChannelUndrawn(padMap: map<ChannelKey, int>, chip: int, chan: int)
    requires ChannelKey(chip, chan, 0) !in padMap
    ensures forall t: DataType :: !InClass(Channel(chan, 0, PadId(padMap, chip, chan, 0)), t)
  {
    assert Classify(Channel(chan, 0, PadId(padMap, chip, chan, 0))).None?;
  }

  /** A regular polygon of the hexmap: centre, vertex count, radius, 45-degree turn and black edge. */
  datatype Patch = Patch(x: real, y: real, vertices: nat, radius: real, tilted: bool, blackEdge: bool)

  /** The cell radius: 0.28 on high-density full boards, 0.43 otherwise. */
  function CellRadius(hbType: string): (r: real)
    ensures 0.0 < r && (hbType == "HF" <==> r < 0.43)
  {
    if hbType == "HF" then 0.28 else 0.43
  }

  /** The polygon `create_patches` draws for one channel of a class. */
  function PatchFor(x: real, y: real, t: DataType, hbType: string): Patch {
    var r := CellRadius(hbType);
    match t
    case Norm => Patch(x, y, 6, r, false, false)
    case Calib => Patch(x, y, 6, 0.5 * r, false, true)
    case Cm0 => Patch(x, y, 5, 0.75 * r, false, false)
    case Cm1 => Patch(x, y, 4, 0.85 * r, true, false)
    case Nc => Patch(x, y, 100, 0.75 * r, false, false)
  }

  /** The vertex count that tells the classes apart in the legend. */
  lemma VertexCounts(x: real, y: real, hbType: string)
    ensures PatchFor(x, y, Norm, hbType).vertices == 6 && PatchFor(x, y, Calib, hbType).vertices == 6
    ensures PatchFor(x, y, Cm0, hbType).vertices == 5 && PatchFor(x, y, Cm1, hbType).vertices == 4
    ensures PatchFor(x, y, Nc, hbType).vertices == 100
  {
  }

  /** The drawn polygon identifies the class: different classes never share a shape. */
  lemma ShapeIdentifiesClass(x: real, y: real, t: DataType, u: DataType, hbType: string)
    requires t != u
    ensures PatchFor(x, y, t, hbType) != PatchFor(x, y, u, hbType)
  {
    var r := CellRadius(hbType);
    assert 0.5 * r != r;
  }

  /** One summary row for the column being plotted. */
  datatype Row = Row(x: real, y: real, ch: Channel, value: real)

  /** The patches `create_patches` draws for the rows the mask selects, in row order. */
  function Drawn(rows: seq<Row>, mask: seq<bool>, t: DataType, hbType: string): seq<Patch>
    requires |mask| == |rows|
  {
    if rows == [] then []
    else
      var n := |rows| - 1;
      Drawn(rows[..n], mask[..n], t, hbType) + (if mask[n] then [PatchFor(rows[n].x, rows[n].y, t, hbType)] else [])
  }

  /** The colours plotted for the rows the mask selects, in row order. */
  function Colours(rows: seq<Row>, mask: seq<bool>): seq<real>
    requires |mask| == |rows|
  {
    if rows == [] then []
    else
      var n := |rows| - 1;
      Colours(rows[..n], mask[..n]) + (if mask[n] then [rows[n].value] else [])
  }

  function CountTrue(mask: seq<bool>): nat {
    if mask == [] then 0 else CountTrue(mask[..|mask| - 1]) + (if mask[|mask| - 1] then 1 else 0)
  }

  /** The patch is the class's shape centred on some row the mask selects. */
  predicate DrawnFromSelected(rows: seq<Row>, mask: seq<bool>, p: Patch, t: DataType, hbType: string)
    requires |mask| == |rows|
  {
    exists i :: 0 <= i < |rows| && mask[i] && p == PatchFor(rows[i].x, rows[i].y, t, hbType)
  }

  /** One patch per selected row, each of the class's shape, centred on a selected row. */
  lemma {:induction false} DrawnShape(rows: seq<Row>, mask: seq<bool>, t: DataType, hbType: string)
    requires |mask| == |rows|
    ensures |Drawn(rows, mask, t, hbType)| == CountTrue(mask)
    ensures forall k :: 0 <= k < |Drawn(rows, mask, t, hbType)| ==>
      DrawnFromSelected(rows, mask, Drawn(rows, mask, t, hbType)[k], t, hbType)
  {
    if rows != [] {
      var n := |rows| - 1;
      DrawnShape(rows[..n], mask[..n], t, hbType);
      var d := Drawn(rows[..n], mask[..n], t, hbType);
      var whole := Drawn(rows, mask, t, hbType);
      assert whole == d + (if mask[n] then [PatchFor(rows[n].x, rows[n].y, t, hbType)] else []);
      forall k | 0 <= k < |whole|
        ensures DrawnFromSelected(rows, mask, whole[k], t, hbType)
      {
        if k < |d| {
          assert whole[k] == d[k];
          assert DrawnFromSelected(rows[..n], mask[..n], d[k], t, hbType);
          var i :| 0 <= i < |rows[..n]| && mask[..n][i] && d[k] == PatchFor(rows[..n][i].x, rows[..n][i].y, t, hbType);
          assert rows[..n][i] == rows[i] && mask[..n][i] == mask[i];
        } else {
          assert mask[n] && whole[k] == PatchFor(rows[n].x, rows[n].y, t, hbType);
        }
      }
    }
  }

  /** Every selected row yields exactly one colour, the row's value. */
  lemma {:induction false} ColoursMatch(rows: seq<Row>, mask: seq<bool>)
    requires |mask| == |rows|
    ensures |Colours(rows, mask)| == CountTrue(mask)
  {
    if rows != [] {
      ColoursMatch(rows[..|rows| - 1], mask[..|rows| - 1]);
    }
  }

  /** `create_patches`: one polygon per row the mask selects. */
  method CreatePatches(rows: seq<Row>, mask: seq<bool>, t: DataType, hbType: string) returns (patches: seq<Patch>)
    requires |mask| == |rows|
    ensures patches == Drawn(rows, mask, t, hbType)
  {
    patches := [];
    var i := 0;
    while i < |rows|
      invariant 0 <= i <= |rows|
      invariant patches == Drawn(rows[..i], mask[..i], t, hbType)
    {
      assert rows[..i + 1][..i] == rows[..i] && mask[..i + 1][..i] == mask[..i];
      if mask[i] {
        patches := patches + [PatchFor(rows[i].x, rows[i].y, t, hbType)];
      }
      i := i + 1;
    }
    assert rows[..i] == rows && mask[..i] == mask;
  }

  /** `local_mask`: the channels of a class whose plotted value is not negative. */
  function ClassMask(rows: seq<Row>, t: DataType): (mask: seq<bool>)
    ensures |mask| == |rows|
  {
    if rows == [] then []
    else
      var n := |rows| - 1;
      ClassMask(rows[..n], t) + [InClass(rows[n].ch, t) && rows[n].value >= 0.0]
  }

  /** The patches of the first `j` classes, in the order norm, calib, cm0, cm1, nc. */
  function DrawnUpTo(rows: seq<Row>, hbType: string, j: nat): seq<Patch>
    requires j <= |DataTypes|
  {
    if j == 0 then []
    else DrawnUpTo(rows, hbType, j - 1) + Drawn(rows, ClassMask(rows, DataTypes[j - 1]), DataTypes[j - 1], hbType)
  }

  /** The colours of the first `j` classes, in the same order. */
  function ColoursUpTo(rows: seq<Row>, j: nat): seq<real>
    requires j <= |DataTypes|
  {
    if j == 0 then []
    else ColoursUpTo(rows, j - 1) + Colours(rows, ClassMask(rows, DataTypes[j - 1]))
  }

  /** The rows drawn at all: those in some class with a non-negative value. */
  function CountDrawn(rows: seq<Row>): nat {
    if rows == [] then 0
    else
      var last := rows[|rows| - 1];
      CountDrawn(rows[..|rows| - 1]) + (if Classify(last.ch).Some? && last.value >= 0.0 then 1 else 0)
  }

  /** The rows the first `j` class masks select, counted with repetition. */
  function CountUpTo(rows: seq<Row>, j: nat): nat
    requires j <= |DataTypes|
  {
    if j == 0 then 0 else CountUpTo(rows, j - 1) + CountTrue(ClassMask(rows, DataTypes[j - 1]))
  }

  function CountClasses(rows: seq<Row>): nat {
    CountTrue(ClassMask(rows, Norm)) + CountTrue(ClassMask(rows, Calib)) + CountTrue(ClassMask(rows, Cm0))
      + CountTrue(ClassMask(rows, Cm1)) + CountTrue(ClassMask(rows, Nc))
  }

  /** The class-by-class count over all five data types is the sum of the five mask counts. */
  lemma CountUpToAll(rows: seq<Row>)
    ensures CountUpTo(rows, |DataTypes|) == CountClasses(rows)
  {
    assert CountUpTo(rows, 1) == CountTrue(ClassMask(rows, Norm));
    assert CountUpTo(rows, 2) == CountUpTo(rows, 1) + CountTrue(ClassMask(rows, Calib));
    assert CountUpTo(rows, 3) == CountUpTo(rows, 2) + CountTrue(ClassMask(rows, Cm0));
    assert CountUpTo(rows, 4) == CountUpTo(rows, 3) + CountTrue(ClassMask(rows, Cm1));
  }

  /** Because the classes are disjoint, the five masks together select each drawn row once. */
  lemma {:induction false} ClassCountsAddUp(rows: seq<Row>)
    ensures CountClasses(rows) == CountDrawn(rows)
  {
    if rows != [] {
      var n := |rows| - 1;
      ClassCountsAddUp(rows[..n]);
      var last := rows[n];
      match Classify(last.ch)
      case None =>
      case Some(t) =>
        forall u: DataType | InClass(last.ch, u)
          ensures u == t
        {
          ClassesDisjoint(last.ch, t, u);
        }
    }
  }

  lemma {:induction false} DrawnUpToCount(rows: seq<Row>, hbType: string, j: nat)
    requires j <= |DataTypes|
    ensures |DrawnUpTo(rows, hbType, j)| == |ColoursUpTo(rows, j)| == CountUpTo(rows, j)
  {
    if j > 0 {
      DrawnUpToCount(rows, hbType, j - 1);
      var t := DataTypes[j - 1];
      DrawnShape(rows, ClassMask(rows, t), t, hbType);
      ColoursMatch(rows, ClassMask(rows, t));
    }
  }

  /**
   * The patch collection of one plotted column: the five classes in turn,
   * each channel with a non-negative value drawn once, every patch paired
   * with one colour.
   */
  method ColumnPatches(rows: seq<Row>, hbType: string) returns (patches: seq<Patch>, colours: seq<real>)
    ensures patches == DrawnUpTo(rows, hbType, |DataTypes|) && colours == ColoursUpTo(rows, |DataTypes|)
    ensures |patches| == |colours| == CountDrawn(rows)
  {
    patches, colours := [], [];
    var j := 0;
    while j < |DataTypes|
      invariant 0 <= j <= |DataTypes|
      invariant patches == DrawnUpTo(rows, hbType, j) && colours == ColoursUpTo(rows, j)
    {
      var t := DataTypes[j];
      var mask := ClassMask(rows, t);
      var p := CreatePatches(rows, mask, t, hbType);
      patches := patches + p;
      colours := colours + Colours(rows, mask);
      j := j + 1;
    }
    DrawnUpToCount(rows, hbType, |DataTypes|);
    CountUpToAll(rows);
    ClassCountsAddUp(rows);
  }

  /** The upper end of the colour scale: 400 ADC counts for means and medians, 8 for spreads. */
  function ColourLimit(column: string): real {
    if column == "adc_mean" || column == "adc_median" then 400.0 else 8.0
  }

  /** The columns `plot_hexmaps` draws, in summary order, with their colour limits. */
  function PlottedColumns(columns: seq<string>): (plotted: seq<(string, real)>)
    ensures |plotted| <= |columns|
  {
    if columns == [] then []
    else
      var c := columns[0];
      (if c == "adc_mean" || c == "adc_stdd" then [(c, ColourLimit(c))] else []) + PlottedColumns(columns[1..])
  }

  /** Only the mean and the spread are plotted, each one the summary holds, the mean up to 400 and the spread up to 8. */
  lemma {:induction false} PlottedColumnsExact(columns: seq<string>)
    ensures forall k :: 0 <= k < |PlottedColumns(columns)| ==>
      PlottedColumns(columns)[k] == ("adc_mean", 400.0) || PlottedColumns(columns)[k] == ("adc_stdd", 8.0)
    ensures forall c :: c in columns && (c == "adc_mean" || c == "adc_stdd") ==>
      (c, ColourLimit(c)) in PlottedColumns(columns)
  {
    if columns != [] {
      PlottedColumnsExact(columns[1..]);
      assert forall c :: c in columns ==> c == columns[0] || c in columns[1..];
    }
  }

  /** What a summary file's plots are made with. */
  datatype PlotSetup = PlotSetup(plotLabel: string, figdir: string, hbType: string, live: bool)

  /** `label[:-5]`: drop the last five characters, leaving nothing of a shorter name. */
  function DropLast5(s: string): (r: string)
    ensures |s| >= 5 ==> s == r + s[|s| - 5..]
    ensures |s| < 5 ==> r == ""
  {
    if |s| >= 5 then s[..|s| - 5] else ""
  }

  /**
   * `make_hexmap_plots_from_file` up to opening the file: the label
   * defaults to the file name without its `.root`, the board type to the
   * density and shape of the serial four path components from the end,
   * the module is live when the path mentions `ML` or `MH`, and a
   * directory of None (what the command line passes) gives the file's
   * own; the directory always ends in `/`.
   */
  function HexmapSetup(fname: string, figdir: Option<string>, hbType: Option<string>, plotLabel: Option<string>): (r: Result<PlotSetup>)
    ensures r.Ok? ==> EndsWith(r.value.figdir, "/")
    ensures r.Err? ==> hbType.None? && r.error == IndexError
    ensures hbType.Some? ==> r.Ok? && r.value.hbType == hbType.value
    ensures hbType.None? ==> (r.Ok? <==> HbTypeOf(fname).Ok?) && (r.Ok? ==> r.value.hbType == HbTypeOf(fname).value)
    ensures r.Ok? ==> r.value.live == (Contains(fname, "ML") || Contains(fname, "MH"))
    ensures r.Ok? && plotLabel.None? ==> r.value.plotLabel == DropLast5(BaseName(fname))
    ensures r.Ok? && plotLabel.Some? ==> r.value.plotLabel == plotLabel.value
    ensures r.Ok? ==> StartsWith(r.value.figdir, if figdir.None? then DirName(fname) else figdir.value)
    ensures r.Ok? && figdir.Some? && EndsWith(figdir.value, "/") ==> r.value.figdir == figdir.value
  {
    var lbl := if plotLabel.None? then DropLast5(BaseName(fname)) else plotLabel.value;
    var hb :- if hbType.Some? then Ok(hbType.value) else HbTypeOf(fname);
    var live := Contains(fname, "ML") || Contains(fname, "MH");
    var dir := if figdir.None? then DirName(fname) else figdir.value;
    var dir' := if EndsWith(dir, "/") then dir else dir + "/";
    assert EndsWith(dir', "/") && StartsWith(dir', dir) by {
      if !EndsWith(dir, "/") {
        assert dir'[|dir'| - 1..] == "/";
        assert dir'[..|dir|] == dir;
      }
    }
    Ok(PlotSetup(lbl, dir', hb, live))
  }

  /** `fname.split('/')[-4]`, then its density and shape. */
  function HbTypeOf(fname: string): (r: Result<string>)
    ensures r.Ok? ==> |r.value| == 2
  {
    var parts := Split(fname, '/');
    if |parts| < 4 then Err(IndexError)
    else
      var serial := parts[|parts| - 4];
      var d :- Density(serial);
      var s :- Shape(serial);
      Ok([d, s])
  }

  /** A summary at `<dir>/<serial>/<a>/<b>/<stem>.root` is plotted under `<stem>` in `<dir>/<serial>/<a>/<b>/`, for the serial's board type. */
  lemma HexmapSetupDefaults(dir: string, serial: string, a: string, b: string, stem: string)
    requires '/' !in serial && '/' !in a && '/' !in b && '/' !in stem && b != []
    requires Density(serial).Ok? && Shape(serial).Ok?
    ensures
      var fname := dir + "/" + serial + "/" + a + "/" + b + "/" + stem + ".root";
      var r := HexmapSetup(fname, None, None, None);
      && r.Ok?
      && r.value.plotLabel == stem
      && r.value.hbType == [Density(serial).value, Shape(serial).value]
      && r.value.figdir == dir + "/" + serial + "/" + a + "/" + b + "/"
  {
    var file := stem + ".root";
    var inner := dir + "/" + serial + "/" + a + "/" + b;
    var fname := dir + "/" + serial + "/" + a + "/" + b + "/" + stem + ".root";
    AppendAssoc(inner + "/", stem, ".root");
    assert '/' !in ".root";
    assert '/' !in file;
    SplitFour(dir, serial, a, b, file);
    assert HbTypeOf(fname) == Ok([Density(serial).value, Shape(serial).value]);
    assert inner[|inner| - 1] == b[|b| - 1];
    DirNameOfChild(inner, file);
    assert DropLast5(file) == stem by {
      assert file[..|file| - 5] == stem;
    }
    assert !EndsWith(inner, "/");
  }

  /** The last four components of `<dir>/<serial>/<a>/<b>/<file>` before the file are the serial first. */
  lemma SplitFour(dir: string, serial: string, a: string, b: string, file: string)
    requires '/' !in serial && '/' !in a && '/' !in b && '/' !in file
    ensures
      var parts := Split(dir + "/" + serial + "/" + a + "/" + b + "/" + file, '/');
      |parts| >= 4 && parts[|parts| - 4] == serial
  {
    var p1 := dir + "/" + serial;
    var p2 := p1 + "/" + a;
    var p3 := p2 + "/" + b;
    SplitLast(dir, '/', serial);
    SplitLast(p1, '/', a);
    SplitLast(p2, '/', b);
    SplitLast(p3, '/', file);
    var k := |Split(dir, '/')|;
    assert Split(p1, '/')[k] == serial;
    assert Split(p2, '/')[k] == serial;
    assert Split(p3, '/')[k] == serial;
    assert |Split(p3 + "/" + file, '/')| == k + 4;
  }
}
