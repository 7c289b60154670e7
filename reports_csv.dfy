/**
 * CSV export of the report view (frontend/src/pages/ReportsPage.tsx): the
 * field escaper, the document (byte-order mark, fixed header, one line per
 * row joined by line feeds) and the download decision. A reader for the same
 * dialect is the partner of the writer: reading an exported document gives
 * back the header and every row's fields.
 */
module ReportsCsv {
  import opened Text
  import opened Reports

  const Bom: char := '\U{FEFF}'
  const Header: seq<string> := ["handle", "authenticity", "relevance", "resonance", "expected_roas", "trust_index"]
  /** The first line of every export: the six column names separated by commas. */
  const HeaderLine: string :=
    "handle" + "," + "authenticity" + "," + "relevance" + "," + "resonance" + "," + "expected_roas" + "," + "trust_index"

  /**
   * The characters that make `csvEscape` quote a value. Section 2 of RFC 4180
   * also counts carriage return; this code does not.
   */
  predicate NeedsQuotes(s: string) {
    '"' in s || ',' in s || '\n' in s
  }

  /** `s.replace(/"/g, '""')`. */
  function DoubleQuotes(s: string): (r: string)
    ensures |r| >= |s|
  {
    if s == [] then []
    else (if s[0] == '"' then "\"\"" else [s[0]]) + DoubleQuotes(s[1..])
  }

  /**
   * `csvEscape`: a value with a quote, comma or line feed is wrapped in quotes
   * with its quotes doubled; any other value is returned unchanged.
   */
  function CsvEscape(s: string): (r: string)
    ensures r == s <==> !NeedsQuotes(s)
    ensures NeedsQuotes(s) ==> |r| >= |s| + 2 && r[0] == '"' && r[|r| - 1] == '"'
  {
    if NeedsQuotes(s) then "\"" + DoubleQuotes(s) + "\"" else s
  }

  function EscapeAll(fields: seq<string>): (r: seq<string>)
    ensures |r| == |fields| && forall i :: 0 <= i < |fields| ==> r[i] == CsvEscape(fields[i])
  {
    seq(|fields|, i requires 0 <= i < |fields| => CsvEscape(fields[i]))
  }

  /** One data line: `[...].map(csvEscape).join(",")`. */
  function EscapedLine(fields: seq<string>): string {
    Join(EscapeAll(fields), ",")
  }

  /** The six cells of a row; `fixed(x, n)` is `x.toFixed(n)`. */
  function Cells(x: Item, fixed: (real, nat) -> string): (c: seq<string>)
    ensures |c| == |Header|
  {
    [x.handle, fixed(x.authenticity, 1), fixed(x.relevance, 1), fixed(x.resonance, 1),
     fixed(x.expectedRoas, 2), fixed(x.trustIndex, 1)]
  }

  /** The cells of every item, in order. */
  function Rows(items: seq<Item>, fixed: (real, nat) -> string): (rs: seq<seq<string>>)
    ensures |rs| == |items|
    ensures forall i :: 0 <= i < |items| ==> rs[i] == Cells(items[i], fixed)
  {
    seq(|items|, i requires 0 <= i < |items| => Cells(items[i], fixed))
  }

  /** The data lines: one escaped line per item, in order. */
  function DataLines(items: seq<Item>, fixed: (real, nat) -> string): (ls: seq<string>)
    ensures |ls| == |items|
    ensures forall i :: 0 <= i < |items| ==> ls[i] == EscapedLine(Cells(items[i], fixed))
  {
    seq(|items|, i requires 0 <= i < |items| => EscapedLine(Cells(items[i], fixed)))
  }

  /** `toCSV`: the mark, then the header and one line per item, joined by line feeds. */
  function ToCsv(items: seq<Item>, fixed: (real, nat) -> string): (doc: string)
    ensures |doc| > 0 && doc[0] == Bom
  {
    [Bom] + Join([Join(Header, ",")] + DataLines(items, fixed), "\n")
  }

  /** After the mark comes the fixed header line, ended by a line feed when there are rows. */
  lemma CsvFirstLine(items: seq<Item>, fixed: (real, nat) -> string)
    ensures var doc := ToCsv(items, fixed);
            |doc| > |HeaderLine| && doc[1..|HeaderLine| + 1] == HeaderLine
            && (items != [] ==> doc[|HeaderLine| + 1] == '\n')
  {
    var lines := DataLines(items, fixed);
    HeaderJoin();
    JoinCons(HeaderLine, lines, "\n");
    var rest := if lines == [] then [] else "\n" + Join(lines, "\n");
    assert ToCsv(items, fixed) == [Bom] + (HeaderLine + rest);
    AfterMark(HeaderLine, rest);
  }

  /** In `[Bom] + (h + rest)`, `h` sits right after the mark and `rest` right after `h`. */
  lemma AfterMark(h: string, rest: string)
    ensures var doc := [Bom] + (h + rest);
            |doc| == |h| + |rest| + 1 && doc[1..|h| + 1] == h
            && (rest != [] ==> doc[|h| + 1] == rest[0])
  {
  }

  /** Joining puts the first part first, then the separator if more parts follow. */
  lemma JoinCons(first: string, rest: seq<string>, sep: string)
    ensures Join([first] + rest, sep) == first + (if rest == [] then [] else sep + Join(rest, sep))
  {
    assert ([first] + rest)[1..] == rest;
  }

  /** The header cells joined with commas are the fixed first line. */
  lemma HeaderJoin()
    ensures Join(Header, ",") == HeaderLine
  {
    var t5 := ["trust_index"];
    var t4 := ["expected_roas"] + t5;
    var t3 := ["resonance"] + t4;
    var t2 := ["relevance"] + t3;
    var t1 := ["authenticity"] + t2;
    var t0 := ["handle"] + t1;
    assert t0 == Header;
    var j4 := "expected_roas" + "," + "trust_index";
    assert Join(t4, ",") == j4 by { JoinCons("expected_roas", t5, ","); }
    var j3 := "resonance" + "," + j4;
    assert Join(t3, ",") == j3 by { JoinCons("resonance", t4, ","); }
    var j2 := "relevance" + "," + j3;
    assert Join(t2, ",") == j2 by { JoinCons("relevance", t3, ","); }
    var j1 := "authenticity" + "," + j2;
    assert Join(t1, ",") == j1 by { JoinCons("authenticity", t2, ","); }
    var j0 := "handle" + "," + j1;
    assert Join(t0, ",") == j0 by { JoinCons("handle", t1, ","); }
    assert j0 == HeaderLine;
  }

  /** Only lower-case letters and underscores. */
  predicate Plain(s: string) {
    forall i :: 0 <= i < |s| ==> 'a' <= s[i] <= 'z' || s[i] == '_'
  }

  /** A plain cell needs no quoting. */
  lemma PlainUnescaped(s: string)
    requires Plain(s)
    ensures CsvEscape(s) == s
  {
    assert forall i :: 0 <= i < |s| ==> s[i] != '"' && s[i] != ',' && s[i] != '\n';
    assert !NeedsQuotes(s);
  }

  /** No header cell needs quoting, so escaping the header changes nothing. */
  lemma HeaderUnescaped()
    ensures EscapeAll(Header) == Header
  {
    PlainUnescaped("handle");
    PlainUnescaped("authenticity");
    PlainUnescaped("relevance");
    PlainUnescaped("resonance");
    PlainUnescaped("expected_roas");
    PlainUnescaped("trust_index");
    assert forall i :: 0 <= i < |Header| ==> EscapeAll(Header)[i] == Header[i];
  }

  // ---------------------------------------------------------------- reader

  /** An unquoted field: everything up to a comma, a line feed or the end. */
  function ReadBare(s: string): (r: (string, string))
    ensures |r.1| <= |s|
  {
    if s == [] || s[0] == ',' || s[0] == '\n' then ([], s)
    else
      var (f, rest) := ReadBare(s[1..]);
      ([s[0]] + f, rest)
  }

  /** The inside of a quoted field: `""` stands for one quote, a lone `"` closes it. */
  function ReadQuoted(s: string): (r: (string, string))
    ensures |r.1| <= |s|
  {
    if s == [] then ([], [])
    else if s[0] == '"' then
      if |s| >= 2 && s[1] == '"' then
        var (f, rest) := ReadQuoted(s[2..]);
        (['"'] + f, rest)
      else ([], s[1..])
    else
      var (f, rest) := ReadQuoted(s[1..]);
      ([s[0]] + f, rest)
  }

  /** One field and what follows it. */
  function ReadField(s: string): (r: (string, string))
    ensures |r.1| <= |s|
  {
    if s != [] && s[0] == '"' then ReadQuoted(s[1..]) else ReadBare(s)
  }

  /** The fields of one line, and what follows the line. */
  function ReadRecord(s: string): (r: (seq<string>, string))
    ensures |r.1| <= |s|
    decreases |s|
  {
    var (f, rest) := ReadField(s);
    if rest != [] && rest[0] == ',' then
      var (fs, rest') := ReadRecord(rest[1..]);
      ([f] + fs, rest')
    else ([f], rest)
  }

  /** Every line of a document (after its byte-order mark). */
  function ReadRecords(s: string): (recs: seq<seq<string>>)
    decreases |s|
  {
    var (rec, rest) := ReadRecord(s);
    if rest != [] && rest[0] == '\n' then [rec] + ReadRecords(rest[1..]) else [rec]
  }

  predicate EndsField(t: string) {
    t == [] || t[0] == ',' || t[0] == '\n'
  }

  lemma {:induction false} ReadBareRoundTrip(s: string, t: string)
    requires ',' !in s && '\n' !in s && EndsField(t)
    ensures ReadBare(s + t) == (s, t)
  {
    if s == [] {
      assert s + t == t;
    } else {
      assert s[0] in s;
      assert (s + t)[0] == s[0] && s[0] != ',' && s[0] != '\n';
      assert (s + t)[1..] == s[1..] + t;
      assert forall c :: c in s[1..] ==> c in s;
      ReadBareRoundTrip(s[1..], t);
      assert s == [s[0]] + s[1..];
    }
  }

  lemma {:induction false} ReadQuotedRoundTrip(s: string, t: string)
    requires t == [] || t[0] != '"'
    ensures ReadQuoted(DoubleQuotes(s) + "\"" + t) == (s, t)
  {
    if s == [] {
      assert DoubleQuotes(s) + "\"" + t == ['"'] + t;
      ReadQuotedClose(t);
    } else {
      var rest := DoubleQuotes(s[1..]) + "\"" + t;
      DoubleQuotesHead(s);
      assert DoubleQuotes(s) + "\"" + t == DoubleQuotes([s[0]]) + rest;
      ReadQuotedRoundTrip(s[1..], t);
      ReadQuotedStep(s[0], rest);
      assert s == [s[0]] + s[1..];
    }
  }

  /** Escaping works character by character. */
  lemma DoubleQuotesHead(s: string)
    requires s != []
    ensures DoubleQuotes(s) == DoubleQuotes([s[0]]) + DoubleQuotes(s[1..])
  {
    assert [s[0]][1..] == [];
  }

  /** The closing quote ends the field; what follows it is left. */
  lemma ReadQuotedClose(t: string)
    requires t == [] || t[0] != '"'
    ensures ReadQuoted(['"'] + t) == ([], t)
  {
    assert (['"'] + t)[1..] == t;
  }

  /** One escaped character reads back as itself, and reading goes on after it. */
  lemma ReadQuotedStep(c: char, rest: string)
    ensures ReadQuoted(DoubleQuotes([c]) + rest) == ([c] + ReadQuoted(rest).0, ReadQuoted(rest).1)
  {
    assert [c][1..] == [];
    if c == '"' {
      var e := ['"', '"'] + rest;
      assert DoubleQuotes([c]) == ['"', '"'];
      assert e[2..] == rest;
    } else {
      var e := [c] + rest;
      assert DoubleQuotes([c]) == [c];
      assert e[1..] == rest;
    }
  }

  /** Reading an escaped value back gives the value, and stops where the value ended. */
  lemma FieldRoundTrip(s: string, t: string)
    requires EndsField(t)
    ensures ReadField(CsvEscape(s) + t) == (s, t)
  {
    if NeedsQuotes(s) {
      QuotedFieldRoundTrip(s, t);
    } else {
      assert s != [] ==> s[0] != '"' by {
        if s != [] {
          assert s[0] in s;
        }
      }
      ReadBareRoundTrip(s, t);
    }
  }

  /** A quoted value: the opening quote is skipped and the inside read back. */
  lemma QuotedFieldRoundTrip(s: string, t: string)
    requires NeedsQuotes(s) && EndsField(t)
    ensures ReadField(CsvEscape(s) + t) == (s, t)
  {
    var inside := DoubleQuotes(s) + "\"" + t;
    var e := CsvEscape(s) + t;
    assert ReadField(e) == ReadQuoted(inside) by {
      assert e == ['"'] + inside;
      assert e[0] == '"' && e[1..] == inside;
    }
    ReadQuotedRoundTrip(s, t);
  }

  predicate EndsRecord(t: string) {
    t == [] || t[0] == '\n'
  }

  lemma {:induction false} RecordRoundTrip(fields: seq<string>, t: string)
    requires fields != [] && EndsRecord(t)
    ensures ReadRecord(EscapedLine(fields) + t) == (fields, t)
    decreases |fields|
  {
    var es := EscapeAll(fields);
    if |fields| == 1 {
      assert EscapedLine(fields) == es[0] == CsvEscape(fields[0]);
      FieldRoundTrip(fields[0], t);
      assert ReadField(EscapedLine(fields) + t) == (fields[0], t);
      assert fields == [fields[0]];
    } else {
      var tail := EscapedLine(fields[1..]) + t;
      assert EscapeAll(fields[1..]) == es[1..];
      assert EscapedLine(fields) + t == CsvEscape(fields[0]) + ("," + tail);
      FieldRoundTrip(fields[0], "," + tail);
      assert ("," + tail)[1..] == tail;
      RecordRoundTrip(fields[1..], t);
      assert fields == [fields[0]] + fields[1..];
    }
  }

  /** The lines of a document with the given records. */
  function Lines(records: seq<seq<string>>): (ls: seq<string>)
    ensures |ls| == |records| && forall i :: 0 <= i < |records| ==> ls[i] == EscapedLine(records[i])
  {
    seq(|records|, i requires 0 <= i < |records| => EscapedLine(records[i]))
  }

  lemma {:induction false} RecordsRoundTrip(records: seq<seq<string>>)
    requires records != [] && forall i :: 0 <= i < |records| ==> records[i] != []
    ensures ReadRecords(Join(Lines(records), "\n")) == records
    decreases |records|
  {
    var ls := Lines(records);
    if |records| == 1 {
      RecordRoundTrip(records[0], []);
      assert Join(ls, "\n") == EscapedLine(records[0]) + [];
    } else {
      var tail := Join(Lines(records[1..]), "\n");
      assert Lines(records[1..]) == ls[1..];
      assert Join(ls, "\n") == EscapedLine(records[0]) + ("\n" + tail);
      RecordRoundTrip(records[0], "\n" + tail);
      assert ("\n" + tail)[1..] == tail;
      RecordsRoundTrip(records[1..]);
      assert records == [records[0]] + records[1..];
    }
  }

  /**
   * Reading an exported document: after the byte-order mark come exactly the
   * header and one record per item, in order, each holding that item's cells.
   * In particular the document has `|items| + 1` records.
   */
  lemma CsvRoundTrip(items: seq<Item>, fixed: (real, nat) -> string)
    ensures var doc := ToCsv(items, fixed);
            doc[0] == Bom && ReadRecords(doc[1..]) == [Header] + Rows(items, fixed)
  {
    var records := [Header] + Rows(items, fixed);
    HeaderUnescaped();
    assert [Join(Header, ",")] + DataLines(items, fixed) == Lines(records);
    RecordsRoundTrip(records);
    assert ToCsv(items, fixed)[1..] == Join(Lines(records), "\n");
  }

  /** `stamp`: the first ten characters of an ISO timestamp (`slice(0, 10)`), i.e. its date. */
  function DateStamp(iso: string): (d: string)
    ensures |d| == if |iso| < 10 then |iso| else 10
    ensures d == iso[..|d|]
  {
    if |iso| <= 10 then iso else iso[..10]
  }

  /** What pressing "Export CSV" does: alert that there is nothing to export, or save a file. */
  datatype Download = NothingToExport(alert: string) | CsvFile(name: string, content: string)

  const NothingToExportMessage: string := "Nothing to export yet."

  /**
   * `downloadCSV`: an empty view produces no file, only the alert; otherwise
   * the file holds the CSV of the view and is named
   * `influencer_report_brief_<briefId>_<date>.csv`. `nowIso` is the clock's
   * `toISOString()`.
   */
  function ExportCsv(sorted: seq<Item>, briefId: string, nowIso: string, fixed: (real, nat) -> string): (d: Download)
    ensures d.NothingToExport? <==> sorted == []
    ensures d.NothingToExport? ==> d.alert == NothingToExportMessage
    ensures d.CsvFile? ==> d.content == ToCsv(sorted, fixed)
    ensures d.CsvFile? ==> d.name == "influencer_report_brief_" + briefId + "_" + DateStamp(nowIso) + ".csv"
  {
    if |sorted| == 0 then NothingToExport(NothingToExportMessage)
    else
      var stamp := DateStamp(nowIso);
      CsvFile("influencer_report_brief_" + briefId + "_" + stamp + ".csv", ToCsv(sorted, fixed))
  }
}
