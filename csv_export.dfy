/**
 * The CSV export (lib/export/exportToCSV.ts): a fixed header line, one record per
 * company in input order, fields quoted as in section 2 of RFC 4180 when they
 * hold a comma, a double quote or a line feed, records separated by '\n', and a
 * U+FEFF byte-order mark in front. Number and date rendering are parameters.
 */
module CsvExport {
  import opened Wrappers
  import opened Text
  import opened Records

  const Headers: seq<string> := [
    "Name", "Beschreibung", "Adresse", "Latitude", "Longitude",
    "Website", "Email", "Telefon", "Spezialisierungen", "Erstellt am"
  ]

  const ByteOrderMark: char := '\U{FEFF}'

  predicate NeedsQuoting(v: string) {
    ',' in v || '"' in v || '\n' in v
  }

  /** `value.replace(/"/g, '""')`. */
  function DoubleQuotes(v: string): string {
    if v == [] then [] else (if v[0] == '"' then "\"\"" else [v[0]]) + DoubleQuotes(v[1..])
  }

  function EscapeCSV(v: string): (r: string)
    ensures !NeedsQuoting(v) ==> r == v
    ensures NeedsQuoting(v) ==> |r| >= 2 && r[0] == '"' && r[|r| - 1] == '"' && QuotesPaired(r[1..|r| - 1])
  {
    if NeedsQuoting(v) then
      DoubleQuotesArePaired(v);
      var r := "\"" + DoubleQuotes(v) + "\"";
      assert r[1..|r| - 1] == DoubleQuotes(v);
      r
    else v
  }

  /** Inside a quoted field every double quote is one of a pair (rule 7 of section 2 of RFC 4180). */
  predicate QuotesPaired(s: string) {
    if s == [] then true
    else if s[0] == '"' then |s| >= 2 && s[1] == '"' && QuotesPaired(s[2..])
    else QuotesPaired(s[1..])
  }

  lemma {:induction false} DoubleQuotesArePaired(v: string)
    ensures QuotesPaired(DoubleQuotes(v))
  {
    if v != [] {
      DoubleQuotesArePaired(v[1..]);
      var rest := DoubleQuotes(v[1..]);
      if v[0] == '"' {
        assert ("\"\"" + rest)[2..] == rest;
      } else {
        assert ([v[0]] + rest)[1..] == rest;
      }
    }
  }

  /** A reader's view of a field: `""` inside stands for one quote. */
  function CollapseQuotes(s: string): string {
    if s == [] then []
    else if |s| >= 2 && s[0] == '"' && s[1] == '"' then "\"" + CollapseQuotes(s[2..])
    else [s[0]] + CollapseQuotes(s[1..])
  }

  /** A reader's view of a field: strip enclosing quotes, then collapse doubled quotes. */
  function Unescape(field: string): string {
    if |field| >= 2 && field[0] == '"' && field[|field| - 1] == '"' then CollapseQuotes(field[1..|field| - 1])
    else field
  }

  lemma {:induction false} CollapseDoubleQuotes(v: string)
    ensures CollapseQuotes(DoubleQuotes(v)) == v
  {
    if v != [] {
      CollapseDoubleQuotes(v[1..]);
      var rest := DoubleQuotes(v[1..]);
      if v[0] == '"' {
        assert ("\"\"" + rest)[2..] == rest;
      } else {
        assert ([v[0]] + rest)[1..] == rest;
      }
      assert v == [v[0]] + v[1..];
    }
  }

  /** Every escaped field reads back as the original value. */
  lemma EscapeRoundTrip(v: string)
    ensures Unescape(EscapeCSV(v)) == v
  {
    if NeedsQuoting(v) {
      var r := "\"" + DoubleQuotes(v) + "\"";
      assert r[1..|r| - 1] == DoubleQuotes(v);
      CollapseDoubleQuotes(v);
    } else if |v| >= 2 {
      assert v[0] in v;
    }
  }

  /** `company.latitude || ''`: null and 0 give the empty field. */
  function NumberField(x: Option<real>, numberText: real -> string): string {
    if TruthyNumber(x) then numberText(x.value) else ""
  }

  function SpecializationNames(specs: seq<Specialization>): (r: seq<string>)
    ensures |r| == |specs| && forall i :: 0 <= i < |specs| ==> r[i] == specs[i].name
  {
    seq(|specs|, i requires 0 <= i < |specs| => specs[i].name)
  }

  /** The ten fields of one company, in header order. */
  function Row(c: Company, numberText: real -> string, dateText: int -> string): (r: seq<string>)
    ensures |r| == |Headers|
  {
    [ EscapeCSV(c.name),
      EscapeCSV(TextOr(c.description, "")),
      EscapeCSV(TextOr(c.address, "")),
      NumberField(c.latitude, numberText),
      NumberField(c.longitude, numberText),
      EscapeCSV(TextOr(c.website, "")),
      EscapeCSV(TextOr(c.email, "")),
      EscapeCSV(TextOr(c.phone, "")),
      EscapeCSV(Join(SpecializationNames(c.specializations), "; ")),
      dateText(c.createdAt) ]
  }

  function RowLine(c: Company, numberText: real -> string, dateText: int -> string): string {
    Join(Row(c, numberText, dateText), ",")
  }

  function Lines(companies: seq<Company>, numberText: real -> string, dateText: int -> string): (r: seq<string>)
    ensures |r| == |companies|
    ensures forall i :: 0 <= i < |companies| ==> r[i] == RowLine(companies[i], numberText, dateText)
  {
    seq(|companies|, i requires 0 <= i < |companies| => RowLine(companies[i], numberText, dateText))
  }

  /** `csvContent`: the header line and one line per company joined with '\n'. */
  function CsvText(companies: seq<Company>, numberText: real -> string, dateText: int -> string): string {
    Join([Join(Headers, ",")] + Lines(companies, numberText, dateText), "\n")
  }

  /** The text placed in the Blob: the byte-order mark followed by the CSV text. */
  function FileContent(companies: seq<Company>, numberText: real -> string, dateText: int -> string): (r: string)
    ensures |r| >= 1 && r[0] == ByteOrderMark
    ensures r[1..] == CsvText(companies, numberText, dateText)
  {
    [ByteOrderMark] + CsvText(companies, numberText, dateText)
  }

  /** An empty export is the header line alone. */
  lemma CsvTextEmpty(numberText: real -> string, dateText: int -> string)
    ensures CsvText([], numberText, dateText) == Join(Headers, ",")
  {
    assert Lines([], numberText, dateText) == [];
    assert [Join(Headers, ",")] + [] == [Join(Headers, ",")];
  }

  /** Appending a company appends one '\n'-separated record: records follow the input order. */
  lemma CsvTextSnoc(companies: seq<Company>, c: Company, numberText: real -> string, dateText: int -> string)
    ensures CsvText(companies + [c], numberText, dateText) ==
      CsvText(companies, numberText, dateText) + "\n" + RowLine(c, numberText, dateText)
  {
    LinesSnoc(companies, c, numberText, dateText);
    JoinLinesSnoc(Join(Headers, ","), Lines(companies, numberText, dateText), RowLine(c, numberText, dateText));
  }

  lemma LinesSnoc(companies: seq<Company>, c: Company, numberText: real -> string, dateText: int -> string)
    ensures Lines(companies + [c], numberText, dateText) == Lines(companies, numberText, dateText) + [RowLine(c, numberText, dateText)]
  {
  }

  lemma JoinLinesSnoc(head: string, lines: seq<string>, line: string)
    ensures Join([head] + (lines + [line]), "\n") == Join([head] + lines, "\n") + "\n" + line
  {
    assert [head] + (lines + [line]) == ([head] + lines) + [line];
    JoinSnoc([head] + lines, line, "\n");
  }

  /**
   * The text fields read back as the company's values, with a missing or empty
   * value as the empty field; specialization names are joined with '; ' in list
   * order. Coordinates and the date are not escaped; a null or 0 coordinate gives ''.
   */
  lemma RowFields(c: Company, numberText: real -> string, dateText: int -> string)
    ensures var r := Row(c, numberText, dateText);
      && Unescape(r[0]) == c.name
      && Unescape(r[1]) == TextOr(c.description, "")
      && Unescape(r[2]) == TextOr(c.address, "")
      && r[3] == (if TruthyNumber(c.latitude) then numberText(c.latitude.value) else "")
      && r[4] == (if TruthyNumber(c.longitude) then numberText(c.longitude.value) else "")
      && Unescape(r[5]) == TextOr(c.website, "")
      && Unescape(r[6]) == TextOr(c.email, "")
      && Unescape(r[7]) == TextOr(c.phone, "")
      && Unescape(r[8]) == Join(SpecializationNames(c.specializations), "; ")
      && r[9] == dateText(c.createdAt)
  {
    EscapeRoundTrip(c.name);
    EscapeRoundTrip(TextOr(c.description, ""));
    EscapeRoundTrip(TextOr(c.address, ""));
    EscapeRoundTrip(TextOr(c.website, ""));
    EscapeRoundTrip(TextOr(c.email, ""));
    EscapeRoundTrip(TextOr(c.phone, ""));
    EscapeRoundTrip(Join(SpecializationNames(c.specializations), "; "));
  }

  /** A value with a comma and quotes is enclosed in quotes with its quotes doubled. */
  lemma EscapeExample()
    ensures EscapeCSV("a,\"b\"") == "\"a,\"\"b\"\"\""
  {
    var v := "a,\"b\"";
    assert v[1] == ',';
    assert DoubleQuotes(v[4..]) == "\"\"";
    assert DoubleQuotes(v[3..]) == "b\"\"";
    assert DoubleQuotes(v[2..]) == "\"\"b\"\"";
    assert DoubleQuotes(v[1..]) == ",\"\"b\"\"";
  }
}
