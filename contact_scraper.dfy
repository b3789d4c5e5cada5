/**
 * The contact scraper screen: the search state it keeps while asking the service for
 * contacts, and the CSV export of the contacts found.
 *
 * The export quotes every data field the way section 2 of RFC 4180 describes (rule 6: the
 * field is enclosed in double quotes; rule 7: a double quote inside it is written twice),
 * leaves the header line unquoted, and separates records with LF instead of the CRLF the
 * RFC asks for. Its partner is `ParseCsv`, a reader for exactly that format, and the main
 * result is `ExportRoundTrip`: reading the export back yields every contact's five values,
 * in input order.
 */
module ContactScraper {
  import opened Types
  import opened Text
  import GeminiService

  // ---------------------------------------------------------------------------------------
  // Writing

  const HeaderLine: string := "Name,Title,Organization,Contact Info,Source URL"

  /** `value.replace(/"/g, '""')`: every double quote doubled, every other character kept. */
  function EscapeQuotes(s: string): (r: string)
    ensures |r| == |s| + Count(s, '"')
  {
    if s == [] then []
    else (if s[0] == '"' then "\"\"" else [s[0]]) + EscapeQuotes(s[1..])
  }

  /** A field as written: enclosed in double quotes, its inner quotes doubled. */
  function Quote(s: string): (r: string)
    ensures |r| >= 2 && r[0] == '"' && r[|r| - 1] == '"'
    ensures r[1..|r| - 1] == EscapeQuotes(s)
  {
    "\"" + EscapeQuotes(s) + "\""
  }

  /** `c.field?.replace(...) || ''`: an absent value is written like an empty one. */
  function CellValue(v: Option<string>): (r: string)
    ensures r == [] <==> v.None? || v == Some([])
    ensures v.Some? ==> r == v.value
  {
    match v
    case Some(s) => s
    case None => ""
  }

  /** The five values of a contact, in column order. */
  function Values(c: Contact): (r: seq<string>)
    ensures |r| == 5
  {
    [CellValue(c.name), CellValue(c.title), CellValue(c.organization),
     CellValue(c.contactInfo), CellValue(c.sourceUrl)]
  }

  function QuoteAll(vs: seq<string>): (r: seq<string>)
    ensures |r| == |vs|
    ensures forall i :: 0 <= i < |vs| ==> r[i] == Quote(vs[i])
  {
    if vs == [] then [] else [Quote(vs[0])] + QuoteAll(vs[1..])
  }

  /** `parts.join(sep)`. */
  function Join(parts: seq<string>, sep: string): string {
    if |parts| == 0 then ""
    else if |parts| == 1 then parts[0]
    else parts[0] + sep + Join(parts[1..], sep)
  }

  /** A joined list starts with its first part and ends with its last. */
  lemma {:induction false} JoinEnds(parts: seq<string>, sep: string)
    requires |parts| > 0
    ensures StartsWith(Join(parts, sep), parts[0])
    ensures EndsWith(Join(parts, sep), parts[|parts| - 1])
  {
    if |parts| == 1 {
      assert parts[0][..|parts[0]|] == parts[0];
      assert parts[0][|parts[0]| - |parts[0]|..] == parts[0];
    } else {
      var rest := Join(parts[1..], sep);
      JoinEnds(parts[1..], sep);
      Framed(parts[0], sep, rest);
      EndsWithTrans(parts[0] + sep + rest, rest, parts[|parts| - 1]);
    }
  }

  /** One data line: the five quoted fields joined by commas. */
  function Row(c: Contact): string {
    Join(QuoteAll(Values(c)), ",")
  }

  /** Every data line opens and closes with a double quote. */
  lemma RowQuoted(c: Contact)
    ensures StartsWith(Row(c), "\"") && EndsWith(Row(c), "\"")
  {
    var fields := QuoteAll(Values(c));
    JoinEnds(fields, ",");
    assert StartsWith(fields[0], "\"") && EndsWith(fields[4], "\"");
    StartsWithTrans(Row(c), fields[0], "\"");
    EndsWithTrans(Row(c), fields[4], "\"");
  }

  function Rows(cs: seq<Contact>): (r: seq<string>)
    ensures |r| == |cs|
    ensures forall i :: 0 <= i < |cs| ==> r[i] == Row(cs[i])
  {
    if cs == [] then [] else [Row(cs[0])] + Rows(cs[1..])
  }

  /**
   * `handleExport`: nothing is exported for an empty list; otherwise the header line, then
   * one record per contact, joined by LF.
   */
  function ExportCsv(contacts: seq<Contact>): (r: Option<string>)
    ensures r.None? <==> contacts == []
    ensures r.Some? ==> StartsWith(r.value, HeaderLine + "\n")
  {
    if contacts == [] then None
    else
      var doc := Join([HeaderLine] + Rows(contacts), "\n");
      assert doc == HeaderLine + "\n" + Join(Rows(contacts), "\n");
      PrefixOfConcat(HeaderLine + "\n", Join(Rows(contacts), "\n"));
      Some(doc)
  }

  // ---------------------------------------------------------------------------------------
  // Reading back

  /**
   * Reads the inside of a quoted field, starting just after its opening quote: a doubled
   * quote stands for one quote, a single quote closes the field. Gives the value and the
   * text after the closing quote; `None` when the field is never closed.
   */
  function ReadQuoted(t: string): (r: Option<(string, string)>)
    ensures r.Some? ==> |r.value.1| < |t|
  {
    if t == [] then None
    else if t[0] == '"' then
      if |t| >= 2 && t[1] == '"' then
        match ReadQuoted(t[2..])
        case None => None
        case Some((v, rest)) => Some(("\"" + v, rest))
      else Some(([], t[1..]))
    else
      match ReadQuoted(t[1..])
      case None => None
      case Some((v, rest)) => Some(([t[0]] + v, rest))
  }

  /** Reads one record: quoted fields separated by commas, up to the end of the record. */
  function ReadFields(t: string): (r: Option<(seq<string>, string)>)
    ensures r.Some? ==> |r.value.1| < |t|
    decreases |t|
  {
    if t == [] || t[0] != '"' then None
    else
      match ReadQuoted(t[1..])
      case None => None
      case Some((v, rest)) =>
        if rest != [] && rest[0] == ',' then
          match ReadFields(rest[1..])
          case None => None
          case Some((vs, rest')) => Some(([v] + vs, rest'))
        else Some(([v], rest))
  }

  /** Reads records separated by LF until the text ends. */
  function ReadRecords(t: string): Option<seq<seq<string>>>
    decreases |t|
  {
    match ReadFields(t)
    case None => None
    case Some((fields, rest)) =>
      if rest == [] then Some([fields])
      else if rest[0] == '\n' then
        match ReadRecords(rest[1..])
        case None => None
        case Some(records) => Some([fields] + records)
      else None
  }

  /** Reads an exported document: the header line, then the records. */
  function ParseCsv(doc: string): Option<seq<seq<string>>> {
    var head := HeaderLine + "\n";
    if StartsWith(doc, head) then ReadRecords(doc[|head|..]) else None
  }

  // ---------------------------------------------------------------------------------------
  // Properties of the writer

  /** Escaping distributes over concatenation. */
  lemma {:induction false} EscapeAppend(a: string, b: string)
    ensures EscapeQuotes(a + b) == EscapeQuotes(a) + EscapeQuotes(b)
  {
    if a == [] {
      assert a + b == b;
    } else {
      assert (a + b)[0] == a[0] && (a + b)[1..] == a[1..] + b;
      EscapeAppend(a[1..], b);
    }
  }

  /** A value without double quotes is written unchanged between the enclosing quotes. */
  lemma {:induction false} EscapeWithoutQuotes(s: string)
    requires '"' !in s
    ensures EscapeQuotes(s) == s
  {
    if s != [] {
      EscapeWithoutQuotes(s[1..]);
    }
  }

  /** A missing or empty value becomes the field `""`. */
  lemma EmptyCell(v: Option<string>)
    requires v.None? || v == Some("")
    ensures Quote(CellValue(v)) == "\"\""
  {
  }

  /**
   * Un-doubling: reading the escaped value followed by the closing quote gives back the
   * value, and leaves exactly the text after that quote.
   */
  lemma {:induction false} ReadEscaped(s: string, rest: string)
    requires rest == [] || rest[0] != '"'
    ensures ReadQuoted(EscapeQuotes(s) + "\"" + rest) == Some((s, rest))
  {
    var t := EscapeQuotes(s) + "\"" + rest;
    if s == [] {
      assert t == "\"" + rest;
      assert t[1..] == rest;
    } else {
      ReadEscaped(s[1..], rest);
      var t' := EscapeQuotes(s[1..]) + "\"" + rest;
      if s[0] == '"' {
        assert t == "\"\"" + t';
        assert t[2..] == t';
        assert "\"" + s[1..] == s;
      } else {
        assert t == [s[0]] + t';
        assert t[1..] == t';
        assert [s[0]] + s[1..] == s;
      }
    }
  }

  /** A written field starts with its opening quote, and reading its inside stops just after it. */
  lemma ReadFieldInside(v: string, after: string)
    requires after == [] || after[0] != '"'
    ensures var t := Quote(v) + after;
            t != [] && t[0] == '"' && ReadQuoted(t[1..]) == Some((v, after))
  {
    var t := Quote(v) + after;
    assert t == "\"" + (EscapeQuotes(v) + "\"" + after);
    assert t[1..] == EscapeQuotes(v) + "\"" + after;
    ReadEscaped(v, after);
  }

  /** Reading the last written field of a record gives back its value alone. */
  lemma ReadLastField(v: string, after: string)
    requires after == [] || after[0] == '\n'
    ensures ReadFields(Quote(v) + after) == Some(([v], after))
  {
    ReadFieldInside(v, after);
  }

  /** Reading a written field followed by a comma goes on with the fields after the comma. */
  lemma ReadFieldThenMore(v: string, more: string, vs: seq<string>, rest: string)
    requires ReadFields(more) == Some((vs, rest))
    ensures ReadFields(Quote(v) + ("," + more)) == Some(([v] + vs, rest))
  {
    var after := "," + more;
    ReadFieldInside(v, after);
    assert after[1..] == more;
  }

  lemma Regroup(a: string, b: string, c: string, d: string)
    ensures a + b + c + d == a + (b + (c + d))
  {
  }

  /** A record of two or more values is its first quoted value, a comma, and the rest. */
  lemma JoinQuoted(vs: seq<string>)
    requires |vs| >= 2
    ensures Join(QuoteAll(vs), ",") == Quote(vs[0]) + "," + Join(QuoteAll(vs[1..]), ",")
  {
    var q := QuoteAll(vs);
    assert q == [Quote(vs[0])] + QuoteAll(vs[1..]);
    assert q[1..] == QuoteAll(vs[1..]);
  }

  /** Reading a written record gives back its values and stops at the record's end. */
  lemma {:induction false} ReadWrittenFields(vs: seq<string>, rest: string)
    requires |vs| > 0
    requires rest == [] || rest[0] == '\n'
    ensures ReadFields(Join(QuoteAll(vs), ",") + rest) == Some((vs, rest))
  {
    if |vs| == 1 {
      assert QuoteAll(vs) == [Quote(vs[0])];
      ReadLastField(vs[0], rest);
      assert [vs[0]] == vs;
    } else {
      var more := Join(QuoteAll(vs[1..]), ",") + rest;
      JoinQuoted(vs);
      Regroup(Quote(vs[0]), ",", Join(QuoteAll(vs[1..]), ","), rest);
      ReadWrittenFields(vs[1..], rest);
      ReadFieldThenMore(vs[0], more, vs[1..], rest);
      assert [vs[0]] + vs[1..] == vs;
    }
  }

  /** The lines of a document holding the given records. */
  function Lines(records: seq<seq<string>>): (r: seq<string>)
    ensures |r| == |records|
  {
    if records == [] then [] else [Join(QuoteAll(records[0]), ",")] + Lines(records[1..])
  }

  /** Records of two or more lines are the first line, a line feed, and the rest. */
  lemma JoinLines(records: seq<seq<string>>)
    requires |records| >= 2
    ensures Join(Lines(records), "\n") ==
      Join(QuoteAll(records[0]), ",") + "\n" + Join(Lines(records[1..]), "\n")
  {
    var ls := Lines(records);
    assert ls == [Join(QuoteAll(records[0]), ",")] + Lines(records[1..]);
    assert ls[1..] == Lines(records[1..]);
  }

  /** Reading written records, joined by LF, gives back every record in order. */
  lemma {:induction false} ReadWrittenRecords(records: seq<seq<string>>)
    requires |records| > 0
    requires forall i :: 0 <= i < |records| ==> |records[i]| > 0
    ensures ReadRecords(Join(Lines(records), "\n")) == Some(records)
  {
    var line := Join(QuoteAll(records[0]), ",");
    if |records| == 1 {
      assert Lines(records) == [line];
      assert Join(Lines(records), "\n") == line + [];
      ReadWrittenFields(records[0], []);
      assert [records[0]] == records;
    } else {
      var tail := Join(Lines(records[1..]), "\n");
      JoinLines(records);
      assert line + "\n" + tail == line + ("\n" + tail);
      ReadWrittenFields(records[0], "\n" + tail);
      assert ("\n" + tail)[1..] == tail;
      ReadWrittenRecords(records[1..]);
      assert [records[0]] + records[1..] == records;
    }
  }

  /** Each exported data line is the line of that contact's values. */
  lemma {:induction false} RowsAreLines(cs: seq<Contact>)
    ensures Rows(cs) == Lines(AllValues(cs))
  {
    if cs != [] {
      RowsAreLines(cs[1..]);
      assert AllValues(cs)[1..] == AllValues(cs[1..]);
    }
  }

  /** The values of every contact, in input order. */
  function AllValues(cs: seq<Contact>): (r: seq<seq<string>>)
    ensures |r| == |cs|
    ensures forall i :: 0 <= i < |cs| ==> r[i] == Values(cs[i])
  {
    if cs == [] then [] else [Values(cs[0])] + AllValues(cs[1..])
  }

  /**
   * The export round trip: reading the exported document back gives, after the header,
   * exactly one record per contact, in input order, holding that contact's five values
   * (absent values read back as empty ones).
   */
  lemma ExportRoundTrip(contacts: seq<Contact>)
    requires contacts != []
    ensures ParseCsv(ExportCsv(contacts).value) == Some(AllValues(contacts))
  {
    var records := AllValues(contacts);
    RowsAreLines(contacts);
    ReadWrittenRecords(records);
    var head := HeaderLine + "\n";
    var body := Join(Rows(contacts), "\n");
    var doc := ExportCsv(contacts).value;
    assert doc == head + body;
    assert doc[|head|..] == body;
  }

  // ---------------------------------------------------------------------------------------
  // The screen's state

  const BlankQueryMessage: string := "Please enter a topic or keyword to search for."

  class Scraper {
    var query: string
    var isLoading: bool
    var contacts: seq<Contact>
    var error: string

    constructor()
      ensures query == [] && !isLoading && contacts == [] && error == []
    {
      query, isLoading, contacts, error := [], false, [], [];
    }

    /** The query input. */
    method SetQuery(q: string)
      modifies this`query
      ensures query == q
    {
      query := q;
    }

    /**
     * `handleScrape`. A blank query sets the error and changes nothing else. Otherwise the
     * error and the contacts are cleared before the call; the service's error is shown if
     * it reports one (the contacts then stay empty), else its contacts are shown.
     */
    method HandleScrape(reply: GeminiService.ApiReply, parse: string -> Option<seq<Contact>>)
      modifies this`isLoading, this`error, this`contacts
      ensures IsBlank(query) ==>
                error == BlankQueryMessage && contacts == old(contacts) && isLoading == old(isLoading)
      ensures !IsBlank(query) ==>
                var result := GeminiService.ScrapeContacts(reply, parse);
                && !isLoading
                && (result.error.Some? && result.error.value != [] ==>
                      error == result.error.value && contacts == [])
                && (!(result.error.Some? && result.error.value != []) ==>
                      error == [] && contacts == result.data.GetOr([]))
    {
      if IsBlank(query) {
        error := BlankQueryMessage;
        return;
      }
      isLoading := true;
      error := [];
      contacts := [];

      var result := GeminiService.ScrapeContacts(reply, parse);

      if result.error.Some? && result.error.value != [] {
        error := result.error.value;
      } else if result.data.Some? {
        contacts := result.data.value;
      }

      isLoading := false;
    }
  }
}
