/** The monthly CSV export of the settings screen (components/Settings.tsx),
    up to the CSV text; the download itself is outside the model. */
module CsvExport {
  import opened Types
  import opened Seqs

  const Header: seq<string> := ["Date", "Category", "Description", "Amount", "Shared", "Shared Note", "Settled"]

  /** Double every quote character (`replace(/"/g, '""')`). */
  function Escape(s: string): string {
    if |s| == 0 then []
    else (if s[0] == '"' then "\"\"" else [s[0]]) + Escape(s[1..])
  }

  /** A field as written into the CSV: escaped and wrapped in quotes. */
  function Quote(s: string): string {
    "\"" + Escape(s) + "\""
  }

  /** Undo `Escape`: a doubled quote reads as one quote; a lone quote is malformed. */
  function Unescape(s: string): Option<string> {
    if |s| == 0 then Some([])
    else if s[0] == '"' then
      if |s| >= 2 && s[1] == '"' then
        match Unescape(s[2..])
        case Some(rest) => Some("\"" + rest)
        case None => None
      else None
    else
      match Unescape(s[1..])
      case Some(rest) => Some([s[0]] + rest)
      case None => None
  }

  /** Undo `Quote`. */
  function Unquote(s: string): Option<string> {
    if |s| >= 2 && s[0] == '"' && s[|s| - 1] == '"' then Unescape(s[1..|s| - 1]) else None
  }

  lemma {:induction false} UnescapeEscape(s: string)
    ensures Unescape(Escape(s)) == Some(s)
  {
    if |s| > 0 {
      UnescapeEscape(s[1..]);
      var e := Escape(s);
      if s[0] == '"' {
        assert e == "\"\"" + Escape(s[1..]);
        assert e[2..] == Escape(s[1..]);
      } else {
        assert e == [s[0]] + Escape(s[1..]);
        assert e[1..] == Escape(s[1..]);
      }
      assert s == [s[0]] + s[1..];
    }
  }

  /** Unquoting a quoted field recovers the original text exactly. */
  lemma UnquoteQuote(s: string)
    ensures Unquote(Quote(s)) == Some(s)
  {
    var q := Quote(s);
    assert q[1..|q| - 1] == Escape(s);
    UnescapeEscape(s);
  }

  /** Quoting is injective: different texts give different fields. */
  lemma QuoteInjective(s: string, t: string)
    requires Quote(s) == Quote(t)
    ensures s == t
  {
    UnquoteQuote(s);
    UnquoteQuote(t);
  }

  function YesNo(b: bool): string {
    if b then "Yes" else "No"
  }

  /** One data row. `showDate` stands for the locale date format and
      `showAmount` for the two-decimal amount format. An absent or empty
      note gives an empty cell. */
  function Row(e: Expense, showDate: Date -> string, showAmount: real -> string): (r: seq<string>)
    ensures |r| == |Header|
  {
    [ showDate(e.date),
      e.category,
      Quote(e.description),
      showAmount(e.amount),
      YesNo(e.isShared),
      if e.sharedNote.Some? && e.sharedNote.value != "" then Quote(e.sharedNote.value) else "",
      YesNo(e.isSettled) ]
  }

  /** Reading a row back: the date and amount cells are the formatted
      values, the quoted cells unquote to the description and the note, and
      the flag cells say Yes exactly when the flag is set and No otherwise. */
  lemma RowReadsBack(e: Expense, showDate: Date -> string, showAmount: real -> string)
    ensures var r := Row(e, showDate, showAmount);
      && r[0] == showDate(e.date)
      && r[1] == e.category
      && r[3] == showAmount(e.amount)
      && r[4] in {"Yes", "No"} && r[6] in {"Yes", "No"}
      && Unquote(r[2]) == Some(e.description)
      && (r[4] == "Yes" <==> e.isShared)
      && (e.sharedNote.Some? && e.sharedNote.value != "" ==> Unquote(r[5]) == Some(e.sharedNote.value))
      && (e.sharedNote.None? || e.sharedNote == Some("") ==> r[5] == "")
      && (r[6] == "Yes" <==> e.isSettled)
  {
    UnquoteQuote(e.description);
    if e.sharedNote.Some? && e.sharedNote.value != "" {
      UnquoteQuote(e.sharedNote.value);
    }
  }

  /** The year and month picked for the export; `None` when the picker's text
      does not read as a year and a month, which matches no expense. */
  type Selection = Option<(int, int)>

  function Selected(l: seq<Expense>, sel: Selection): seq<Expense> {
    match sel
    case None => []
    case Some((y, m)) => Filter(l, MonthFilter(y, m))
  }

  /** The rows of the export, header first; `None` when no expense falls in
      the selected month, in which case nothing is exported. */
  function ExportRows(l: seq<Expense>, sel: Selection, showDate: Date -> string, showAmount: real -> string)
    : (r: Option<seq<seq<string>>>)
    ensures r.None? <==> sel.None? || forall e :: e in l ==> !InMonth(e, sel.value.0, sel.value.1)
    ensures r.Some? ==> |r.value| == 1 + |Selected(l, sel)| && r.value[0] == Header
    ensures r.Some? ==> forall i :: 0 < i < |r.value| ==> |r.value[i]| == |Header|
    ensures r.Some? ==> forall i :: 0 < i < |r.value| ==>
      r.value[i] == Row(Selected(l, sel)[i - 1], showDate, showAmount)
  {
    var rows := Selected(l, sel);
    if |rows| == 0 then
      None
    else
      assert rows[0] in rows;
      var body := Map(rows, (e: Expense) => Row(e, showDate, showAmount));
      var out := [Header] + body;
      assert forall i :: 0 < i < |out| ==> out[i] == body[i - 1];
      Some(out)
  }

  /** An expense is exported exactly when it falls in the selected month. */
  lemma ExportSelectsMonth(l: seq<Expense>, y: int, m: int, e: Expense)
    ensures e in Selected(l, Some((y, m))) <==> e in l && InMonth(e, y, m)
  {
  }

  /** `join(sep)`. */
  function Join(parts: seq<string>, sep: string): string {
    if |parts| == 0 then ""
    else if |parts| == 1 then parts[0]
    else parts[0] + sep + Join(parts[1..], sep)
  }

  /** The CSV text: cells joined by commas, rows by newlines. */
  function CsvText(rows: seq<seq<string>>): string {
    Join(Map(rows, (r: seq<string>) => Join(r, ",")), "\n")
  }

  /** The exported text opens with the header line. */
  lemma CsvStartsWithHeader(l: seq<Expense>, sel: Selection, showDate: Date -> string, showAmount: real -> string)
    requires ExportRows(l, sel, showDate, showAmount).Some?
    ensures Join(Header, ",") + "\n" <= CsvText(ExportRows(l, sel, showDate, showAmount).value)
  {
    var rows := ExportRows(l, sel, showDate, showAmount).value;
    var lines := Map(rows, (r: seq<string>) => Join(r, ","));
    assert |lines| >= 2;
    assert CsvText(rows) == lines[0] + "\n" + Join(lines[1..], "\n");
  }
}
