/**
 * The SQL text builders of the database upload: the generic INSERT builder,
 * the older per-table INSERT builder and the per-table SELECT builder.
 * The query text keeps the literals' blanks, line breaks and indentation
 * character for character.
 */
module PostgresTools {
  import opened Wrappers
  import opened Text

  /** The positional parameter `$i`. */
  function Placeholder(i: nat): string {
    "$" + NatToString(i)
  }

  /** `['${}'.format(i) for i in range(1, n + 1)]`. */
  function Placeholders(n: nat): (ps: seq<string>)
    ensures |ps| == n
    ensures forall k :: 0 <= k < n ==> ps[k] == Placeholder(k + 1)
  {
    if n == 0 then [] else Placeholders(n - 1) + [Placeholder(n)]
  }

  /** The parenthesised body of the VALUES clause: `$1, $2, ..., $n`. */
  function PlaceholderList(n: nat): string {
    Join(Placeholders(n), ", ")
  }

  /** A run of `n` blanks. */
  function Blanks(n: nat): string {
    Repeat(' ', n)
  }

  /** `pre_query` of `get_query`: a leading blank, the columns in order, two blanks after VALUES. */
  function InsertHeader(table: string, columns: seq<string>): string {
    " INSERT INTO " + table + " (" + Join(columns, ", ") + ") VALUES  "
  }

  /** The VALUES tuple: the placeholder list in parentheses. */
  function ValuesTuple(n: nat): string {
    "(" + PlaceholderList(n) + ")"
  }

  /**
   * `get_query`: the header, one more blank, then one placeholder per column,
   * so three blanks separate VALUES from the tuple.
   */
  function GetQuery(table: string, columns: seq<string>): (q: string)
    ensures StartsWith(q, InsertHeader(table, columns))
    ensures EndsWith(q, "   " + ValuesTuple(|columns|))
    ensures |q| == |InsertHeader(table, columns)| + 1 + |ValuesTuple(|columns|)|
  {
    InsertHeader(table, columns) + " " + ValuesTuple(|columns|)
  }

  /** No two placeholders of a query are the same parameter. */
  lemma PlaceholdersDistinct(n: nat)
    ensures forall i, j :: 0 <= i < j < n ==> Placeholders(n)[i] != Placeholders(n)[j]
  {
    forall i, j | 0 <= i < j < n
      ensures Placeholders(n)[i] != Placeholders(n)[j]
    {
      if Placeholders(n)[i] == Placeholders(n)[j] {
        assert NatToString(i + 1) == Placeholder(i + 1)[1..];
        assert NatToString(j + 1) == Placeholder(j + 1)[1..];
        NatToStringInjective(i + 1, j + 1);
      }
    }
  }

  lemma PlaceholderCommaFree(n: nat)
    ensures forall k :: 0 <= k < n ==> ',' !in Placeholders(n)[k]
  {
    forall k | 0 <= k < n
      ensures ',' !in Placeholders(n)[k]
    {
      var p := Placeholders(n)[k];
      assert p == "$" + NatToString(k + 1);
      assert forall m :: 0 <= m < |p| ==> p[m] == '$' || IsDigit(p[m]);
    }
  }

  /** The placeholder list has as many comma-separated pieces as placeholders. */
  lemma PlaceholderListPieces(n: nat)
    requires n >= 1
    ensures |Split(PlaceholderList(n), ',')| == n
  {
    PlaceholderCommaFree(n);
    assert CountChar(", ", ',') == 1;
    CountCharJoin(Placeholders(n), ", ", ',');
    SplitPieces(PlaceholderList(n), ',');
  }

  /** The per-channel pedestal columns shared by the module and hexaboard tables. */
  const PedestalColumns: seq<string> :=
    ["adc_median", "adc_iqr", "tot_median", "tot_iqr", "toa_median", "toa_iqr",
     "adc_mean", "adc_stdd", "tot_mean", "tot_stdd", "toa_mean", "toa_stdd"]

  const EfficiencyColumns: seq<string> :=
    ["tot_efficiency", "tot_efficiency_error", "toa_efficiency", "toa_efficiency_error",
     "pad", "x", "y", "count_dead_chan"]

  const PedestalTestColumns: seq<string> :=
    ["module_name", "rel_hum", "temp_c", "bias_vol", "chip", "channel", "channeltype"]
    + PedestalColumns + EfficiencyColumns
    + ["date_test", "time_test", "inspector", "comment"]

  const IvTestColumns: seq<string> :=
    ["module_name", "rel_hum", "temp_c", "status", "status_desc", "grade", "ratio_iv",
     "prog_v", "meas_v", "meas_i", "meas_r", "date_test", "time_test", "inspector", "comment"]

  const HexaboardTestColumns: seq<string> :=
    ["hxb_name", "rel_hum", "temp_c", "chip", "channel", "channeltype"]
    + PedestalColumns + EfficiencyColumns
    + ["list_dead_pad", "date_test", "time_test", "inspector", "comment"]

  const PlotColumns: seq<string> :=
    ["module_name", "adc_mean_hexmap", "adc_stdd_hexmap", "noise_channel_chip",
     "pedestal_channel_chip", "total_noise_chip", "inspector", "comment_plot_test"]

  /** The four tables the older builder knows, with their fixed column lists. */
  function OldTableColumns(table: string): Option<seq<string>> {
    if table == "module_pedestal_test" then Some(PedestalTestColumns)
    else if table == "module_iv_test" then Some(IvTestColumns)
    else if table == "hxb_pedestal_test" then Some(HexaboardTestColumns)
    else if table == "module_pedestal_plots" then Some(PlotColumns)
    else None
  }

  /**
   * The trailing blanks of the three lines of each table's triple-quoted
   * header: after the table name, after the column list and after VALUES.
   */
  datatype Layout = Layout(afterName: nat, afterColumns: nat, afterValues: nat)

  function OldLayout(table: string): Layout {
    if table == "module_pedestal_test" then Layout(2, 1, 3)
    else if table == "module_iv_test" then Layout(1, 2, 2)
    else Layout(1, 1, 2)
  }

  /** A line break and the eight blanks of indentation inside the older literals. */
  const OldIndent: string := "\n        "

  /** The part of an older header before the column list. */
  function OldOpening(table: string, g: Layout): string {
    " " + OldIndent + "INSERT INTO " + table + Blanks(g.afterName) + OldIndent + "("
  }

  /** The part of an older header after the column list. */
  function OldClosing(g: Layout): string {
    ")" + Blanks(g.afterColumns) + OldIndent + "VALUES" + Blanks(g.afterValues)
  }

  /** The older `pre_query`, line breaks and indentation included. */
  function OldPreQuery(table: string, cols: seq<string>, g: Layout): string {
    OldOpening(table, g) + Join(cols, ", ") + OldClosing(g)
  }

  /** The INSERT statement with one placeholder per comma-separated piece of its header. */
  function OldQuery(table: string, cols: seq<string>, g: Layout): string {
    var pre := OldPreQuery(table, cols, g);
    pre + " " + ValuesTuple(|Split(pre, ',')|)
  }

  predicate CommaFreeColumns(cols: seq<string>) {
    |cols| >= 1 && forall k :: 0 <= k < |cols| ==> ',' !in cols[k]
  }

  lemma OpeningCommaFree(table: string, g: Layout)
    requires ',' !in table
    ensures ',' !in OldOpening(table, g)
  {
    assert OldOpening(table, g) == " " + OldIndent + "INSERT INTO " + table + Blanks(g.afterName) + OldIndent + "(";
  }

  lemma ClosingCommaFree(g: Layout)
    ensures ',' !in OldClosing(g)
  {
    assert OldClosing(g) == ")" + Blanks(g.afterColumns) + OldIndent + "VALUES" + Blanks(g.afterValues);
  }

  /**
   * Counting the header's comma-separated pieces yields one placeholder per
   * column whenever neither the table name nor a column name holds a comma:
   * the older builder then ends with the same VALUES tuple as `get_query`.
   */
  lemma {:induction false} OldQueryAgrees(table: string, cols: seq<string>, g: Layout)
    requires ',' !in table && CommaFreeColumns(cols)
    ensures OldQuery(table, cols, g) == OldPreQuery(table, cols, g) + " " + ValuesTuple(|cols|)
    ensures EndsWith(OldQuery(table, cols, g), ValuesTuple(|cols|))
    ensures EndsWith(GetQuery(table, cols), ValuesTuple(|cols|))
  {
    OpeningCommaFree(table, g);
    ClosingCommaFree(g);
    assert CountChar(", ", ',') == 1;
    SplitAroundJoin(OldOpening(table, g), cols, ", ", OldClosing(g), ',');
    var q := OldQuery(table, cols, g);
    var t := ValuesTuple(|cols|);
    assert q[|q| - |t|..] == t;
    var q' := GetQuery(table, cols);
    assert q'[|q'| - |t|..] == t;
  }

  lemma CommaFreeConcat(a: seq<string>, b: seq<string>)
    requires CommaFreeColumns(a) && CommaFreeColumns(b)
    ensures CommaFreeColumns(a + b)
  {
    forall k | 0 <= k < |a + b|
      ensures ',' !in (a + b)[k]
    {
      if k >= |a| {
        assert (a + b)[k] == b[k - |a|];
      }
    }
  }

  lemma SharedColumnsCommaFree()
    ensures CommaFreeColumns(PedestalColumns) && CommaFreeColumns(EfficiencyColumns)
  {
    assert CommaFreeColumns(PedestalColumns);
  }

  lemma PedestalTestCommaFree()
    ensures CommaFreeColumns(PedestalTestColumns)
  {
    var head := ["module_name", "rel_hum", "temp_c", "bias_vol", "chip", "channel", "channeltype"];
    var tail := ["date_test", "time_test", "inspector", "comment"];
    assert CommaFreeColumns(head);
    SharedColumnsCommaFree();
    assert CommaFreeColumns(tail);
    CommaFreeConcat(head, PedestalColumns);
    CommaFreeConcat(head + PedestalColumns, EfficiencyColumns);
    CommaFreeConcat(head + PedestalColumns + EfficiencyColumns, tail);
  }

  lemma HexaboardTestCommaFree()
    ensures CommaFreeColumns(HexaboardTestColumns)
  {
    var head := ["hxb_name", "rel_hum", "temp_c", "chip", "channel", "channeltype"];
    var tail := ["list_dead_pad", "date_test", "time_test", "inspector", "comment"];
    assert CommaFreeColumns(head);
    SharedColumnsCommaFree();
    assert CommaFreeColumns(tail);
    CommaFreeConcat(head, PedestalColumns);
    CommaFreeConcat(head + PedestalColumns, EfficiencyColumns);
    CommaFreeConcat(head + PedestalColumns + EfficiencyColumns, tail);
  }

  lemma IvTestCommaFree()
    ensures CommaFreeColumns(IvTestColumns)
  {
  }

  lemma PlotCommaFree()
    ensures CommaFreeColumns(PlotColumns)
  {
  }

  /** The column names of the four known tables hold no comma. */
  lemma KnownColumnsCommaFree(table: string)
    requires OldTableColumns(table).Some?
    ensures CommaFreeColumns(OldTableColumns(table).value)
  {
    if table == "module_pedestal_test" {
      PedestalTestCommaFree();
    } else if table == "module_iv_test" {
      IvTestCommaFree();
    } else if table == "hxb_pedestal_test" {
      HexaboardTestCommaFree();
    } else {
      PlotCommaFree();
    }
  }

  /**
   * `get_query_old`: the header is fixed per table, line breaks and
   * indentation included, and the number of placeholders is the number of
   * comma-separated pieces of the header, which for each known table is one
   * per column. Any other table leaves `pre_query` unassigned.
   */
  function GetQueryOld(table: string): (r: Result<string>)
    ensures r.Err? <==> OldTableColumns(table).None?
    ensures r.Err? ==> r.error == UnboundLocal("pre_query")
    ensures r.Ok? ==>
      var cols := OldTableColumns(table).value;
      r.value == OldPreQuery(table, cols, OldLayout(table)) + " " + ValuesTuple(|cols|)
  {
    match OldTableColumns(table)
    case None => Err(UnboundLocal("pre_query"))
    case Some(cols) =>
      KnownColumnsCommaFree(table);
      assert ',' !in table;
      OldQueryAgrees(table, cols, OldLayout(table));
      Ok(OldQuery(table, cols, OldLayout(table)))
  }

  /** A line break and the twelve blanks of indentation inside the read literals. */
  const ReadIndent: string := "\n            "

  const LatestTen: string := "ORDER BY date_test DESC, time_test DESC LIMIT 10;"
  const LatestTenPlots: string := "ORDER BY mod_plottest_no DESC LIMIT 10;"
  const HexmapColumn: string := "adc_mean_hexmap"

  /** The select list, the blanks after the table name and the last clause, per table. */
  function ReadClauses(table: string, partName: Option<string>): Option<(string, nat, string)> {
    if table == "module_pedestal_test" then
      Some(("module_name, rel_hum, temp_c, bias_vol, date_test, time_test, inspector, comment", 0, LatestTen))
    else if table == "hxb_pedestal_test" then
      Some(("hxb_name, rel_hum, temp_c, date_test, time_test, inspector, comment", 0, LatestTen))
    else if table == "module_iv_test" then
      Some(("module_name, rel_hum, temp_c, meas_i, date_test, time_test, inspector, comment", 0, LatestTen))
    else if table == "module_pedestal_plots" && partName.Some? then
      Some((HexmapColumn + Blanks(91), 3, PartClause(partName.value)))
    else if table == "module_pedestal_plots" then
      Some(("module_name, inspector, comment_plot_test" + Blanks(91), 176, LatestTenPlots))
    else None
  }

  /** The WHERE clause that picks one module's row. */
  function PartClause(part: string): string {
    "WHERE module_name = '" + part + "';"
  }

  function FromClause(table: string): string {
    "FROM " + table
  }

  lemma ReadClausesCases(table: string, partName: Option<string>)
    ensures ReadClauses(table, partName).Some? <==>
      table == "module_pedestal_test" || table == "hxb_pedestal_test" ||
      table == "module_iv_test" || table == "module_pedestal_plots"
  {
    if table == "module_pedestal_test" {
    } else if table == "hxb_pedestal_test" {
    } else if table == "module_iv_test" {
    } else if table == "module_pedestal_plots" {
    }
  }

  lemma ReadClausesLatest(table: string, partName: Option<string>)
    ensures ReadClauses(table, partName).Some? && table != "module_pedestal_plots" ==>
      ReadClauses(table, partName).value.2 == LatestTen
  {
  }

  /** The second and third lines of a read query. */
  function ReadRest(table: string, pad: nat, last: string): string {
    ReadIndent + FromClause(table) + Blanks(pad) + ReadIndent + last
  }

  /** The three lines of a read query. */
  function ReadQuery(columns: string, table: string, pad: nat, last: string): string {
    "SELECT " + columns + ReadRest(table, pad, last)
  }

  lemma ReadQueryNamesTable(columns: string, table: string, pad: nat, last: string)
    ensures Contains(ReadQuery(columns, table, pad, last), FromClause(table))
  {
    ContainsMiddle("SELECT " + columns + ReadIndent, FromClause(table), Blanks(pad) + ReadIndent + last);
    assert ReadQuery(columns, table, pad, last) ==
      ("SELECT " + columns + ReadIndent) + FromClause(table) + (Blanks(pad) + ReadIndent + last);
  }

  lemma ReadQueryShape(columns: string, table: string, pad: nat, last: string)
    ensures StartsWith(ReadQuery(columns, table, pad, last), "SELECT " + columns)
    ensures EndsWith(ReadQuery(columns, table, pad, last), ReadIndent + last)
  {
    StartsWithAppend("SELECT " + columns, ReadRest(table, pad, last));
    var front := ReadIndent + FromClause(table) + Blanks(pad);
    EndsWithAppend(front, ReadIndent + last);
    EndsWithAppend("SELECT " + columns, ReadRest(table, pad, last));
    assert ReadRest(table, pad, last) == front + (ReadIndent + last);
    EndsWithTrans(ReadQuery(columns, table, pad, last), ReadRest(table, pad, last), ReadIndent + last);
  }

  /**
   * `get_query_read`: a SELECT for each of the four known tables, None for
   * any other. The hexmap table read for a given part selects that part's
   * adc_mean hexmap; every other read orders by date and keeps ten rows.
   */
  function GetQueryRead(table: string, partName: Option<string>): (q: Option<string>)
    ensures q.Some? <==>
      table == "module_pedestal_test" || table == "hxb_pedestal_test" ||
      table == "module_iv_test" || table == "module_pedestal_plots"
    ensures q.Some? ==> StartsWith(q.value, "SELECT ")
    ensures table == "module_pedestal_plots" && partName.Some? ==>
      q.Some? && StartsWith(q.value, "SELECT " + HexmapColumn) &&
      EndsWith(q.value, ReadIndent + PartClause(partName.value))
    ensures table == "module_pedestal_plots" && partName.None? ==>
      q.Some? && EndsWith(q.value, ReadIndent + LatestTenPlots)
    ensures q.Some? && table != "module_pedestal_plots" ==>
      EndsWith(q.value, ReadIndent + LatestTen)
  {
    ReadClausesCases(table, partName);
    match ReadClauses(table, partName)
    case None => None
    case Some((columns, pad, last)) =>
      ReadClausesLatest(table, partName);
      ReadQueryShape(columns, table, pad, last);
      StartsWithAppend("SELECT ", columns);
      StartsWithTrans(ReadQuery(columns, table, pad, last), "SELECT " + columns, "SELECT ");
      if table == "module_pedestal_plots" && partName.Some? then
        StartsWithAppend("SELECT " + HexmapColumn, Blanks(91));
        StartsWithTrans(ReadQuery(columns, table, pad, last), "SELECT " + columns, "SELECT " + HexmapColumn);
        Some(ReadQuery(columns, table, pad, last))
      else
        Some(ReadQuery(columns, table, pad, last))
  }

  /** Every SELECT that the read builder produces names its table in the FROM clause. */
  lemma GetQueryReadNamesTable(table: string, partName: Option<string>)
    requires GetQueryRead(table, partName).Some?
    ensures Contains(GetQueryRead(table, partName).value, FromClause(table))
  {
    var (columns, pad, last) := ReadClauses(table, partName).value;
    ReadQueryNamesTable(columns, table, pad, last);
  }
}
