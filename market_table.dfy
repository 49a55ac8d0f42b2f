/**
 * The market dashboard (app/crop/mandiprice.tsx): it posts the four inputs to
 * the price service, receives the last days' prices as a pipe-delimited text
 * table, and turns every line after the two header lines into a row record.
 */
module MarketTable {
  import opened Wrappers
  import opened JsText
  import opened Lists

  /** One table row; a field is `None` (JavaScript `undefined`) when the line had no cell for it. */
  datatype PriceRow = PriceRow(
    date: Option<string>,
    state: Option<string>,
    district: Option<string>,
    market: Option<string>,
    commodity: Option<string>,
    minPrice: Option<string>,
    maxPrice: Option<string>)

  const EmptyRow := PriceRow(None, None, None, None, None, None, None)

  /** The number of fields a row has. */
  const Width := 7

  /** The field in column `k`, counting from 0 in declaration order. */
  function Field(row: PriceRow, k: nat): Option<string>
    requires k < Width
  {
    match k
    case 0 => row.date
    case 1 => row.state
    case 2 => row.district
    case 3 => row.market
    case 4 => row.commodity
    case 5 => row.minPrice
    case 6 => row.maxPrice
  }

  // ---------------------------------------------------------------- parsing

  /** Every piece trimmed. */
  function TrimAll(parts: seq<string>): seq<string>
  {
    Map(parts, Trim)
  }

  predicate IsCell(c: string) { c != "" }

  /** The cells of one line: split on `|`, trim each piece, drop the empty ones. */
  function Cells(line: string): (cells: seq<string>)
    ensures |cells| <= |Split(line, '|')|
    ensures forall i :: 0 <= i < |cells| ==> cells[i] != ""
  {
    Filter(TrimAll(Split(line, '|')), IsCell)
  }

  /** Every cell is a trimmed, non-empty piece of the line. */
  lemma CellsAreTrimmedPieces(line: string)
    ensures forall c :: c in Cells(line) ==> c != "" && IsTrimmed(c)
    ensures forall c :: c in Cells(line) ==> exists piece :: piece in Split(line, '|') && c == Trim(piece)
  {
    var trimmed := TrimAll(Split(line, '|'));
    forall c | c in Cells(line)
      ensures c != "" && IsTrimmed(c)
      ensures exists piece :: piece in Split(line, '|') && c == Trim(piece)
    {
      assert c in trimmed;
      var k :| 0 <= k < |trimmed| && trimmed[k] == c;
      assert Split(line, '|')[k] in Split(line, '|');
    }
  }

  /** `cols[k]`: the k-th cell, or `undefined` past the end. */
  function Column(cells: seq<string>, k: nat): Option<string>
  {
    if k < |cells| then Some(cells[k]) else None
  }

  function ToRow(cells: seq<string>): PriceRow
  {
    PriceRow(Column(cells, 0), Column(cells, 1), Column(cells, 2), Column(cells, 3),
             Column(cells, 4), Column(cells, 5), Column(cells, 6))
  }

  /** The record of one line: every field is undefined exactly when the line has no cells. */
  function ParseRow(line: string): (row: PriceRow)
    ensures row == EmptyRow <==> Cells(line) == []
    ensures forall k :: 0 <= k < Width ==> (Field(row, k).Some? <==> k < |Cells(line)|)
  {
    ToRow(Cells(line))
  }

  /** `tableString.split("\n").slice(2).map(parseRow)` */
  function ParseTable(table: string): (rows: seq<PriceRow>)
    ensures var lines := Split(table, '\n');
      |rows| == (if |lines| <= 2 then 0 else |lines| - 2)
  {
    var lines := Split(table, '\n');
    Map(if |lines| <= 2 then [] else lines[2..], ParseRow)
  }

  // ---------------------------------------------------------------- properties

  /** A text of at most two lines (fewer than two line breaks) is all header: no rows. */
  lemma ShortTableHasNoRows(header: string, rule: string)
    requires '\n' !in header && '\n' !in rule
    ensures ParseTable(header) == []
    ensures ParseTable(header + "\n" + rule) == []
  {
    SplitWithoutSeparator(header, '\n');
    SplitJoin([header, rule], '\n');
    assert Join([header, rule], '\n') == header + "\n" + rule by {
      assert Join([header, rule][1..], '\n') == rule;
    }
  }

  predicate AllWhite(s: string)
  {
    forall i :: 0 <= i < |s| ==> IsWhite(s[i])
  }

  /** Nothing but white space and pipes. */
  predicate Blank(s: string)
  {
    forall i :: 0 <= i < |s| ==> IsWhite(s[i]) || s[i] == '|'
  }

  lemma {:induction false} TrimAllWhite(s: string)
    requires AllWhite(s)
    ensures Trim(s) == ""
  {
  }

  /** Every piece of a blank line is white space. */
  lemma {:induction false} PiecesOfBlankAreWhite(line: string)
    requires Blank(line)
    ensures forall k :: 0 <= k < |Split(line, '|')| ==> AllWhite(Split(line, '|')[k])
  {
    if |line| > 0 {
      assert Blank(line[1..]) by {
        forall i | 0 <= i < |line[1..]| ensures IsWhite(line[1..][i]) || line[1..][i] == '|' {
          assert line[1..][i] == line[i + 1];
        }
      }
      PiecesOfBlankAreWhite(line[1..]);
      var rest := Split(line[1..], '|');
      if line[0] != '|' {
        var first := [line[0]] + rest[0];
        assert AllWhite(first) by {
          forall i | 0 <= i < |first| ensures IsWhite(first[i]) {
            if i > 0 { assert first[i] == rest[0][i - 1]; }
          }
        }
      }
    }
  }

  /**
   * A line made of nothing but white space and pipes, such as the empty line
   * after a trailing newline, still yields a row, with all seven fields
   * `undefined`.
   */
  lemma BlankLineGivesEmptyRow(line: string)
    requires Blank(line)
    ensures ParseRow(line) == EmptyRow
  {
    var parts := Split(line, '|');
    PiecesOfBlankAreWhite(line);
    forall k | 0 <= k < |parts| ensures Trim(parts[k]) == "" {
      TrimAllWhite(parts[k]);
    }
    NothingKept(TrimAll(parts));
  }

  lemma {:induction false} NothingKept(cells: seq<string>)
    requires forall k :: 0 <= k < |cells| ==> cells[k] == ""
    ensures Filter(cells, IsCell) == []
    decreases |cells|
  {
    if |cells| > 0 {
      NothingKept(cells[1..]);
    }
  }

  lemma EmptyLineGivesEmptyRow()
    ensures ParseRow("") == EmptyRow
  {
    BlankLineGivesEmptyRow("");
  }

  /**
   * A trailing newline after a table of at least two lines adds exactly one
   * more row, the empty one, after the rows already there.
   */
  lemma TrailingNewlineAddsEmptyRow(table: string)
    requires |Split(table, '\n')| >= 2
    ensures ParseTable(table + "\n") == ParseTable(table) + [EmptyRow]
  {
    var lines := Split(table, '\n');
    SplitTrailingSeparator(table, '\n');
    ParseTableBody(table + "\n");
    ParseTableBody(table);
    MapDropAppend(lines, 2, "", ParseRow);
    EmptyLineGivesEmptyRow();
  }

  /** Past the two header lines, every line is parsed. */
  lemma ParseTableBody(table: string)
    requires |Split(table, '\n')| >= 2
    ensures ParseTable(table) == Map(Split(table, '\n')[2..], ParseRow)
  {
  }

  /** Row `i` is line `i + 2` parsed, so rows keep the order of their lines. */
  lemma ParseTableRows(table: string)
    ensures var lines := Split(table, '\n');
      forall i :: 0 <= i < |ParseTable(table)| ==> ParseTable(table)[i] == ParseRow(lines[i + 2])
  {
    var lines := Split(table, '\n');
    if |lines| > 2 {
      ParseTableBody(table);
      forall i | 0 <= i < |ParseTable(table)| ensures ParseTable(table)[i] == ParseRow(lines[i + 2]) {
        assert lines[2..][i] == lines[i + 2];
      }
    }
  }

  // ---------------------------------------------------------------- the format it parses

  /** A cell the backend can print in a table: non-empty, trimmed, and free of `|` and line breaks. */
  predicate Printable(c: string)
  {
    c != "" && IsTrimmed(c) && '|' !in c && '\n' !in c
  }

  function Padded(cells: seq<string>): (r: seq<string>)
    ensures |r| == |cells|
    ensures forall k :: 0 <= k < |cells| ==> r[k] == [' '] + cells[k] + [' ']
  {
    seq(|cells|, k requires 0 <= k < |cells| => [' '] + cells[k] + [' '])
  }

  /** The line `| c0 | c1 | ... |` that the backend prints for one row. */
  function FormatLine(cells: seq<string>): string
  {
    Join([""] + Padded(cells) + [""], '|')
  }

  /** Reading a printed line gives back exactly its cells, in order. */
  lemma CellsOfFormatLine(cells: seq<string>)
    requires forall k :: 0 <= k < |cells| ==> Printable(cells[k])
    ensures Cells(FormatLine(cells)) == cells
  {
    var parts := [""] + Padded(cells) + [""];
    SplitFormatLine(cells);
    assert Split(FormatLine(cells), '|') == parts;
    TrimAllPadded(cells);
    assert TrimAll(parts) == [""] + cells + [""];
    FilterDropsEnds(cells);
  }

  /** Splitting a printed line on `|` gives back its padded pieces and the two empty ends. */
  lemma SplitFormatLine(cells: seq<string>)
    requires forall k :: 0 <= k < |cells| ==> Printable(cells[k])
    ensures Split(FormatLine(cells), '|') == [""] + Padded(cells) + [""]
  {
    var parts := [""] + Padded(cells) + [""];
    forall k | 0 <= k < |parts| ensures '|' !in parts[k] {
      if 0 < k < |parts| - 1 {
        assert parts[k] == [' '] + cells[k - 1] + [' '];
      }
    }
    SplitJoin(parts, '|');
  }

  lemma TrimAllPadded(cells: seq<string>)
    requires forall k :: 0 <= k < |cells| ==> Printable(cells[k])
    ensures TrimAll([""] + Padded(cells) + [""]) == [""] + cells + [""]
  {
    TrimAllConcat([""] + Padded(cells), [""]);
    TrimAllConcat([""], Padded(cells));
    assert TrimAll([""]) == [""] by {
      assert Trim("") == TrimEnd(TrimStart(""));
    }
    var inner := TrimAll(Padded(cells));
    forall k | 0 <= k < |cells| ensures inner[k] == cells[k] {
      TrimPadded(cells[k]);
    }
  }

  lemma TrimAllConcat(a: seq<string>, b: seq<string>)
    ensures TrimAll(a + b) == TrimAll(a) + TrimAll(b)
  {
    MapConcat(a, b, Trim);
  }

  lemma FilterDropsEnds(cells: seq<string>)
    requires forall k :: 0 <= k < |cells| ==> cells[k] != ""
    ensures Filter([""] + cells + [""], IsCell) == cells
  {
    FilterConcat([""] + cells, [""], IsCell);
    FilterConcat([""], cells, IsCell);
    FilterKeepsAll(cells, IsCell);
  }

  /**
   * The k-th cell of a printed line lands in the k-th field (date, state,
   * district, market, commodity, min_price, max_price); cells past the seventh
   * are ignored and fields past the last cell are `undefined`.
   */
  lemma FieldsOfFormatLine(cells: seq<string>, k: nat)
    requires forall i :: 0 <= i < |cells| ==> Printable(cells[i])
    requires k < Width
    ensures Field(ParseRow(FormatLine(cells)), k) == if k < |cells| then Some(cells[k]) else None
  {
    var line := FormatLine(cells);
    CellsOfFormatLine(cells);
    FieldOfToRow(Cells(line), k);
  }

  lemma FieldOfToRow(cells: seq<string>, k: nat)
    requires k < Width
    ensures Field(ToRow(cells), k) == Column(cells, k)
  {
  }

  function FormatLines(rows: seq<seq<string>>): (lines: seq<string>)
    ensures |lines| == |rows|
    ensures forall i :: 0 <= i < |rows| ==> lines[i] == FormatLine(rows[i])
  {
    seq(|rows|, i requires 0 <= i < |rows| => FormatLine(rows[i]))
  }

  /** The whole printed table: a header line, a rule line, then one line per row. */
  function FormatTable(header: string, rule: string, rows: seq<seq<string>>): string
  {
    Join([header, rule] + FormatLines(rows), '\n')
  }

  /**
   * Parsing a printed table gives one record per printed row, in the printed
   * order, each holding that row's cells.
   */
  lemma ParseFormatTable(header: string, rule: string, rows: seq<seq<string>>)
    requires '\n' !in header && '\n' !in rule
    requires forall i, k :: 0 <= i < |rows| && 0 <= k < |rows[i]| ==> Printable(rows[i][k])
    ensures |ParseTable(FormatTable(header, rule, rows))| == |rows|
    ensures forall i :: 0 <= i < |rows| ==> ParseTable(FormatTable(header, rule, rows))[i] == ToRow(rows[i])
  {
    var lines := [header, rule] + FormatLines(rows);
    forall m | 0 <= m < |lines| ensures '\n' !in lines[m] {
      if m >= 2 {
        NoNewlineInFormatLine(rows[m - 2]);
      }
    }
    SplitJoin(lines, '\n');
    assert lines[2..] == FormatLines(rows);
    ParseTableRows(FormatTable(header, rule, rows));
    forall i | 0 <= i < |rows| ensures ParseRow(FormatLine(rows[i])) == ToRow(rows[i]) {
      CellsOfFormatLine(rows[i]);
    }
  }

  lemma NoNewlineInFormatLine(cells: seq<string>)
    requires forall k :: 0 <= k < |cells| ==> Printable(cells[k])
    ensures '\n' !in FormatLine(cells)
  {
    var parts := [""] + Padded(cells) + [""];
    forall k | 0 <= k < |parts| ensures '\n' !in parts[k] {
      if 0 < k < |parts| - 1 {
        assert parts[k] == [' '] + cells[k - 1] + [' '];
      }
    }
    NoSeparatorInJoin(parts, '|', '\n');
  }

  lemma {:induction false} NoSeparatorInJoin(parts: seq<string>, d: char, x: char)
    requires |parts| >= 1 && x != d
    requires forall k :: 0 <= k < |parts| ==> x !in parts[k]
    ensures x !in Join(parts, d)
    decreases |parts|
  {
    if |parts| > 1 {
      NoSeparatorInJoin(parts[1..], d, x);
    }
  }

  // ---------------------------------------------------------------- the screen's state

  /** The body of the price request. */
  datatype PriceRequest = PriceRequest(state: string, District: string, Market: string, Commodity: string)

  /** How the request ended: a transport or parse failure, or the response's table text. */
  datatype FetchResult = Failed | Received(table: string)

  datatype Input = StateInput | DistrictInput | MarketInput | CommodityInput

  class MarketDashboard {
    var state: string
    var district: string
    var market: string
    var commodity: string
    var tableData: seq<PriceRow>
    var loading: bool

    constructor ()
      ensures state == "Uttrakhand" && district == "Haridwar" && market == "Haridwar" && commodity == "Rice"
      ensures tableData == [] && !loading
    {
      state, district, market, commodity := "Uttrakhand", "Haridwar", "Haridwar", "Rice";
      tableData, loading := [], false;
    }

    /**
     * The first step of `fetchTableData`, which runs on mount and whenever an
     * input changes: raise `loading` and send the current inputs.
     */
    method StartFetch() returns (request: PriceRequest)
      modifies this`loading
      ensures loading
      ensures request == PriceRequest(state, district, market, commodity)
    {
      loading := true;
      request := PriceRequest(state, district, market, commodity);
    }

    /**
     * Typing into one of the four inputs; the effect that watches them then
     * starts a new fetch with the new value.
     */
    method Edit(input: Input, text: string) returns (request: PriceRequest)
      modifies this`state, this`district, this`market, this`commodity, this`loading
      ensures state == (if input == StateInput then text else old(state))
      ensures district == (if input == DistrictInput then text else old(district))
      ensures market == (if input == MarketInput then text else old(market))
      ensures commodity == (if input == CommodityInput then text else old(commodity))
      ensures loading
      ensures request == PriceRequest(state, district, market, commodity)
    {
      match input {
        case StateInput => state := text;
        case DistrictInput => district := text;
        case MarketInput => market := text;
        case CommodityInput => commodity := text;
      }
      request := StartFetch();
    }

    /** The second step: the response arrived, or the request or parse failed. */
    method FinishFetch(result: FetchResult)
      modifies this`tableData, this`loading
      ensures !loading
      ensures tableData == match result
        case Received(table) => ParseTable(table)
        case Failed => old(tableData)
    {
      match result
      case Received(table) =>
        var rows := ParseTable(table);
        tableData := rows;
        loading := false;
      case Failed =>
        loading := false;
    }
  }
}
