/**
 * The profit-and-loss report of the generate-excel route
 * (src/app/api/generate-excel/route.js): the day's trades of a company are
 * paired Entry→Exit, each pair with its profit or loss, and laid out as rows
 * of seven cells on a sheet named after the company.
 *
 * The time-zone formatting of a timestamp is a parameter; workbook styling
 * and serialisation are not modelled.
 */
module Report {
  import opened Js
  import opened Positions

  /** A trade as the report reads it; `entryTime` is milliseconds since the epoch. */
  datatype ReportTrade = ReportTrade(
    signal: string, reason: Option<string>, entryTime: Option<int>, price: real, kind: Option<Kind>)

  /** A spreadsheet cell; `Empty` is a null or undefined value. */
  datatype Cell = Text(text: string) | Number(value: real) | Empty

  /** A row of the report: the entry, the exit if any, the profit or loss, and the seven cells. */
  datatype Group = Group(entry: ReportTrade, exit: Option<ReportTrade>, profitLoss: Option<real>, formatted: seq<Cell>)

  /** formatToIST: "N/A" for a missing time, otherwise the local time text. */
  function FormatTime(t: Option<int>, toIst: int -> string): Cell {
    if t.None? then Text("N/A") else Text(toIst(t.value))
  }

  function OptionalText(s: Option<string>): Cell {
    if s.Some? then Text(s.value) else Empty
  }

  /** A trade at i typed Entry followed by one typed Exit forms a pair. */
  predicate StartsPair(trades: seq<ReportTrade>, i: nat)
    requires i < |trades|
  {
    i + 1 < |trades| && trades[i].kind == Some(EntryKind) && trades[i + 1].kind == Some(ExitKind)
  }

  /** The result of a round trip: the exit price minus the entry price for a Buy, the reverse otherwise. */
  function ProfitLoss(entry: ReportTrade, exit: ReportTrade): real {
    if entry.signal == "Buy" then exit.price - entry.price else entry.price - exit.price
  }

  function PairGroup(entry: ReportTrade, exit: ReportTrade, toIst: int -> string): Group {
    Group(entry, Some(exit), Some(ProfitLoss(entry, exit)),
          [Text(entry.signal), OptionalText(entry.reason), FormatTime(entry.entryTime, toIst), Number(entry.price),
           OptionalText(exit.reason), FormatTime(exit.entryTime, toIst), Number(exit.price)])
  }

  function SingleGroup(entry: ReportTrade, toIst: int -> string): Group {
    Group(entry, None, None,
          [Text(entry.signal), OptionalText(entry.reason), FormatTime(entry.entryTime, toIst), Number(entry.price),
           Empty, Empty, Empty])
  }

  /** The grouping, read from the front. */
  function Grouped(trades: seq<ReportTrade>, toIst: int -> string): seq<Group>
    decreases |trades|
  {
    if |trades| == 0 then []
    else if StartsPair(trades, 0) then [PairGroup(trades[0], trades[1], toIst)] + Grouped(trades[2..], toIst)
    else [SingleGroup(trades[0], toIst)] + Grouped(trades[1..], toIst)
  }

  /** groupTrades: a while loop that takes two trades for a pair and one otherwise. */
  method GroupTrades(trades: seq<ReportTrade>, toIst: int -> string) returns (groups: seq<Group>)
    ensures groups == Grouped(trades, toIst)
  {
    groups := [];
    var i := 0;
    while i < |trades|
      invariant 0 <= i <= |trades|
      invariant groups + Grouped(trades[i..], toIst) == Grouped(trades, toIst)
      decreases |trades| - i
    {
      var entryTrade := trades[i];
      if i + 1 < |trades| && entryTrade.kind == Some(EntryKind) && trades[i + 1].kind == Some(ExitKind) {
        var exitTrade := trades[i + 1];
        var g := PairGroup(entryTrade, exitTrade, toIst);
        assert Grouped(trades[i..], toIst) == [g] + Grouped(trades[i + 2..], toIst) by {
          assert StartsPair(trades[i..], 0);
          assert trades[i..][2..] == trades[i + 2..];
        }
        assert (groups + [g]) + Grouped(trades[i + 2..], toIst) == groups + ([g] + Grouped(trades[i + 2..], toIst));
        groups := groups + [g];
        i := i + 2;
      } else {
        var g := SingleGroup(entryTrade, toIst);
        assert Grouped(trades[i..], toIst) == [g] + Grouped(trades[i + 1..], toIst) by {
          assert !StartsPair(trades[i..], 0);
          assert trades[i..][1..] == trades[i + 1..];
        }
        assert (groups + [g]) + Grouped(trades[i + 1..], toIst) == groups + ([g] + Grouped(trades[i + 1..], toIst));
        groups := groups + [g];
        i := i + 1;
      }
    }
    assert trades[i..] == [];
  }

  /** The trades of the groups, in group order: the entry, then the exit if any. */
  function Members(groups: seq<Group>): seq<ReportTrade> {
    if |groups| == 0 then []
    else [groups[0].entry] + (if groups[0].exit.Some? then [groups[0].exit.value] else []) + Members(groups[1..])
  }

  /** Every trade lands in exactly one group, and the groups keep the input order. */
  lemma {:induction false} GroupingKeepsEveryTrade(trades: seq<ReportTrade>, toIst: int -> string)
    ensures Members(Grouped(trades, toIst)) == trades
    decreases |trades|
  {
    if |trades| > 0 {
      var g := Grouped(trades, toIst);
      if StartsPair(trades, 0) {
        GroupingKeepsEveryTrade(trades[2..], toIst);
        assert g[1..] == Grouped(trades[2..], toIst);
        assert [trades[0]] + [trades[1]] + trades[2..] == trades;
      } else {
        GroupingKeepsEveryTrade(trades[1..], toIst);
        assert g[1..] == Grouped(trades[1..], toIst);
        assert [trades[0]] + trades[1..] == trades;
      }
    }
  }

  /** Between ⌈n/2⌉ and n groups. */
  lemma {:induction false} GroupCount(trades: seq<ReportTrade>, toIst: int -> string)
    ensures (|trades| + 1) / 2 <= |Grouped(trades, toIst)| <= |trades|
    decreases |trades|
  {
    if |trades| > 0 {
      if StartsPair(trades, 0) {
        GroupCount(trades[2..], toIst);
      } else {
        GroupCount(trades[1..], toIst);
      }
    }
  }

  /**
   * Every row has seven cells. A group with an exit is an Entry followed by an
   * Exit with its profit or loss; any other group, Exit-typed trades included,
   * has no exit, no profit or loss and three empty exit cells.
   */
  lemma {:induction false} GroupShape(trades: seq<ReportTrade>, toIst: int -> string)
    ensures forall g :: g in Grouped(trades, toIst) ==>
      && |g.formatted| == 7
      && (g.exit.Some? ==>
            && g.entry.kind == Some(EntryKind) && g.exit.value.kind == Some(ExitKind)
            && g.profitLoss == Some(ProfitLoss(g.entry, g.exit.value)))
      && (g.exit.None? ==> g.profitLoss.None? && g.formatted[4..] == [Empty, Empty, Empty])
    decreases |trades|
  {
    if |trades| > 0 {
      if StartsPair(trades, 0) {
        GroupShape(trades[2..], toIst);
      } else {
        GroupShape(trades[1..], toIst);
      }
    }
  }

  /** A Buy gains when the exit price is higher; any other signal gains when it is lower. */
  lemma ProfitLossSign(entry: ReportTrade, exit: ReportTrade)
    ensures entry.signal == "Buy" ==> (ProfitLoss(entry, exit) > 0.0 <==> exit.price > entry.price)
    ensures entry.signal != "Buy" ==> (ProfitLoss(entry, exit) > 0.0 <==> exit.price < entry.price)
    ensures ProfitLoss(entry, exit) == if entry.signal == "Buy" then exit.price - entry.price
                                       else -(exit.price - entry.price)
  {
  }

  /** The characters a sheet name may not hold. */
  predicate Forbidden(c: char) {
    c == '\\' || c == '/' || c == '*' || c == '?' || c == ':' || c == '[' || c == ']'
  }

  /** sanitizeSheetName: every forbidden character becomes "_", every other stays. */
  function SanitizeSheetName(name: string): (r: string)
    ensures |r| == |name|
    ensures forall i :: 0 <= i < |r| ==> !Forbidden(r[i])
    ensures forall i :: 0 <= i < |name| && !Forbidden(name[i]) ==> r[i] == name[i]
    ensures forall i :: 0 <= i < |name| && Forbidden(name[i]) ==> r[i] == '_'
  {
    if |name| == 0 then ""
    else [if Forbidden(name[0]) then '_' else name[0]] + SanitizeSheetName(name[1..])
  }

  /** Sanitizing twice is sanitizing once. */
  lemma SanitizeIdempotent(name: string)
    ensures SanitizeSheetName(SanitizeSheetName(name)) == SanitizeSheetName(name)
  {
    var once := SanitizeSheetName(name);
    var twice := SanitizeSheetName(once);
    assert forall i :: 0 <= i < |twice| ==> twice[i] == once[i];
  }

  datatype ReportOutcome =
    | BadRequest(error: string)
    | NotFound(error: string)
    | Workbook(sheetName: string, groups: seq<Group>)

  /**
   * GET: 400 without a company; 404 when the company has no trades in the
   * window, before any workbook is made; otherwise the sheet and its groups.
   */
  function ReportFor(company: Option<string>, trades: seq<ReportTrade>, toIst: int -> string): (r: ReportOutcome)
    ensures r.BadRequest? <==> company.None? || company.value == ""
    ensures r.NotFound? <==> company.Some? && company.value != "" && trades == []
    ensures r.Workbook? ==>
      && |r.sheetName| == |company.value| + 7
      && r.sheetName[..7] == "Trades-"
      && Members(r.groups) == trades
    ensures r.Workbook? ==>
      r.sheetName == SanitizeSheetName("Trades-" + company.value) && r.groups == Grouped(trades, toIst)
  {
    if company.None? || company.value == "" then BadRequest("Company name is required as a query parameter.")
    else if |trades| == 0 then NotFound("No trades found for the specified company.")
    else
      var name := SanitizeSheetName("Trades-" + company.value);
      GroupingKeepsEveryTrade(trades, toIst);
      assert name[..7] == "Trades-";
      Workbook(name, Grouped(trades, toIst))
  }
}
