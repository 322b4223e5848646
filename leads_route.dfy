/**
 * The lead export endpoint (`GET /api/leads`): the CSV serialiser `toCsv`
 * with its field escaper, and the export-token gate.
 *
 * Escaping follows rules 6 and 7 of section 2 of RFC 4180 (a field holding a
 * double quote, a comma or a line break is enclosed in double quotes, and an
 * inner double quote is doubled), with two departures: records are separated
 * by LF rather than CRLF, and a lone CR does not cause quoting.
 */
module Leads {
  import opened Wrappers
  import opened Store

  /* ---------------------------------------------------------------------- */
  /* Field escaping                                                          */
  /* ---------------------------------------------------------------------- */

  /** The characters whose presence makes `esc` quote a field. */
  predicate NeedsQuoting(s: string) {
    '"' in s || ',' in s || '\n' in s
  }

  /** `s.replace(/"/g, '""')`: every double quote doubled, nothing else touched. */
  function DoubleQuotes(s: string): (r: string)
    ensures |r| >= |s|
    ensures '"' !in s ==> r == s
  {
    if s == [] then []
    else (if s[0] == '"' then "\"\"" else [s[0]]) + DoubleQuotes(s[1..])
  }

  /** `esc`: the field as it appears in a CSV row. */
  function Escape(v: string): (r: string)
    ensures r == v <==> !NeedsQuoting(v)
    ensures NeedsQuoting(v) ==> |r| >= 2 && r[0] == '"' && r[|r| - 1] == '"'
  {
    if NeedsQuoting(v) then "\"" + DoubleQuotes(v) + "\"" else v
  }

  /** Collapses every `""` to `"`, scanning left to right. */
  function CollapseQuotes(t: string): string {
    if t == [] then []
    else if |t| >= 2 && t[0] == '"' && t[1] == '"' then "\"" + CollapseQuotes(t[2..])
    else [t[0]] + CollapseQuotes(t[1..])
  }

  /** Strips the enclosing quotes of a quoted field and collapses the doubled ones. */
  function Unescape(t: string): string {
    if |t| >= 2 && t[0] == '"' && t[|t| - 1] == '"' then CollapseQuotes(t[1..|t| - 1]) else t
  }

  lemma {:induction false} CollapseDoubled(s: string)
    ensures CollapseQuotes(DoubleQuotes(s)) == s
  {
    if s != [] {
      CollapseDoubled(s[1..]);
      if s[0] == '"' {
        assert DoubleQuotes(s) == "\"\"" + DoubleQuotes(s[1..]);
        assert DoubleQuotes(s)[2..] == DoubleQuotes(s[1..]);
      } else {
        assert DoubleQuotes(s) == [s[0]] + DoubleQuotes(s[1..]);
        assert DoubleQuotes(s)[1..] == DoubleQuotes(s[1..]);
      }
      assert s == [s[0]] + s[1..];
    }
  }

  /** Escaping is invertible: unescaping an escaped field gives the field back. */
  lemma EscapeRoundTrip(v: string)
    ensures Unescape(Escape(v)) == v
  {
    if NeedsQuoting(v) {
      var t := Escape(v);
      assert t[1..|t| - 1] == DoubleQuotes(v);
      CollapseDoubled(v);
    } else if v != [] {
      assert v[0] in v;
    }
  }

  /** Distinct values never escape to the same field text. */
  lemma EscapeInjective(v: string, w: string)
    requires Escape(v) == Escape(w)
    ensures v == w
  {
    EscapeRoundTrip(v);
    EscapeRoundTrip(w);
  }

  /* ---------------------------------------------------------------------- */
  /* Rows and the whole document                                             */
  /* ---------------------------------------------------------------------- */

  /** `Array.prototype.join`: the parts separated by `sep`; the empty list gives "". */
  function Join(parts: seq<string>, sep: string): string {
    if parts == [] then ""
    else if |parts| == 1 then parts[0]
    else parts[0] + sep + Join(parts[1..], sep)
  }

  /** The header line's three column names. */
  const Header: seq<string> := ["email", "createdAt", "ua"]

  /** `l.x || ""`: a missing or empty property becomes the empty field. */
  function OrEmpty(o: Option<string>): string {
    if o.Some? then o.value else ""
  }

  /** The three field values of a lead, in column order. */
  function Fields(l: Lead): seq<string> {
    [OrEmpty(l.email), OrEmpty(l.createdAt), OrEmpty(l.ua)]
  }

  function EscapeAll(fs: seq<string>): (r: seq<string>)
    ensures |r| == |fs|
  {
    seq(|fs|, i requires 0 <= i < |fs| => Escape(fs[i]))
  }

  /** `r.map(esc).join(",")`. */
  function EncodeRow(fs: seq<string>): string {
    Join(EscapeAll(fs), ",")
  }

  /** The CSV line of one lead. */
  function Row(l: Lead): string {
    EncodeRow(Fields(l))
  }

  function Rows(leads: seq<Lead>): (r: seq<string>)
    ensures |r| == |leads|
  {
    seq(|leads|, i requires 0 <= i < |leads| => Row(leads[i]))
  }

  /** `toCsv`: the header line, then one line per lead, separated by LF. */
  function ToCsv(leads: seq<Lead>): (r: string)
    ensures |r| >= 18 && r[..18] == "email,createdAt,ua"
    ensures leads == [] ==> r == "email,createdAt,ua"
  {
    assert Join(Header, ",") == "email,createdAt,ua";
    JoinStartsWithFirst([Join(Header, ",")] + Rows(leads), "\n");
    Join([Join(Header, ",")] + Rows(leads), "\n")
  }

  lemma {:induction false} JoinStartsWithFirst(parts: seq<string>, sep: string)
    requires parts != []
    ensures |Join(parts, sep)| >= |parts[0]| && Join(parts, sep)[..|parts[0]|] == parts[0]
  {
  }

  lemma {:induction false} JoinSnoc(parts: seq<string>, x: string, sep: string)
    requires parts != []
    ensures Join(parts + [x], sep) == Join(parts, sep) + sep + x
  {
    if |parts| == 1 {
      assert parts + [x] == [parts[0], x];
      assert Join([x], sep) == x;
    } else {
      assert (parts + [x])[1..] == parts[1..] + [x];
      JoinSnoc(parts[1..], x, sep);
    }
  }

  /** Appending a lead appends exactly one LF-separated line, the lead's row. */
  lemma ToCsvSnoc(leads: seq<Lead>, l: Lead)
    ensures ToCsv(leads + [l]) == ToCsv(leads) + "\n" + Row(l)
  {
    var head := [Join(Header, ",")];
    assert Rows(leads + [l]) == Rows(leads) + [Row(l)];
    assert head + Rows(leads + [l]) == (head + Rows(leads)) + [Row(l)];
    JoinSnoc(head + Rows(leads), Row(l), "\n");
  }

  /** A row is exactly the lead's three escaped fields joined by commas. */
  lemma RowShape(l: Lead)
    ensures Row(l) == Escape(OrEmpty(l.email)) + "," + Escape(OrEmpty(l.createdAt)) + ","
                      + Escape(OrEmpty(l.ua))
  {
    var fs := Fields(l);
    assert EscapeAll(fs) == [Escape(fs[0]), Escape(fs[1]), Escape(fs[2])];
    JoinThree(Escape(fs[0]), Escape(fs[1]), Escape(fs[2]), ",");
  }

  lemma JoinThree(a: string, b: string, c: string, sep: string)
    ensures Join([a, b, c], sep) == a + sep + b + sep + c
  {
    assert [a, b, c][1..] == [b, c];
    assert [b, c][1..] == [c];
    assert Join([b, c], sep) == b + sep + c;
    assert a + sep + (b + sep + c) == a + sep + b + sep + c;
  }

  /** A lead none of whose fields needs quoting is written verbatim, comma-separated. */
  lemma PlainRow(l: Lead)
    requires !NeedsQuoting(OrEmpty(l.email)) && !NeedsQuoting(OrEmpty(l.createdAt))
    requires !NeedsQuoting(OrEmpty(l.ua))
    ensures Row(l) == OrEmpty(l.email) + "," + OrEmpty(l.createdAt) + "," + OrEmpty(l.ua)
  {
    RowShape(l);
  }

  lemma SingleLeadRowText(e: string, c: string, u: string)
    requires e == "a@b.com" && c == "2024-01-01T00:00:00Z" && u == "UA1"
    ensures e + "," + c + "," + u == "a@b.com,2024-01-01T00:00:00Z,UA1"
  {
  }

  lemma SingleLeadPlain(e: string, c: string, u: string)
    requires e == "a@b.com" && c == "2024-01-01T00:00:00Z" && u == "UA1"
    ensures !NeedsQuoting(e) && !NeedsQuoting(c) && !NeedsQuoting(u)
  {
  }

  lemma SingleLeadDocumentText(row: string)
    requires row == "a@b.com,2024-01-01T00:00:00Z,UA1"
    ensures "email,createdAt,ua" + "\n" + row == "email,createdAt,ua\na@b.com,2024-01-01T00:00:00Z,UA1"
  {
  }

  /** A single lead serialises to the header line and its one row. */
  lemma ToCsvSingleLead(l: Lead)
    requires l == Lead(Some("a@b.com"), Some("2024-01-01T00:00:00Z"), Some("UA1"))
    ensures ToCsv([l]) == "email,createdAt,ua\na@b.com,2024-01-01T00:00:00Z,UA1"
  {
    SingleLeadPlain(OrEmpty(l.email), OrEmpty(l.createdAt), OrEmpty(l.ua));
    PlainRow(l);
    SingleLeadRowText(OrEmpty(l.email), OrEmpty(l.createdAt), OrEmpty(l.ua));
    SingleLeadDocumentText(Row(l));
    ToCsvSnoc([], l);
    assert [] + [l] == [l];
  }

  /** The escaping example: a field with quotes and a comma. */
  lemma EscapeQuotedExample(v: string)
    requires v == "He said \"hi\", ok"
    ensures Escape(v) == "\"He said \"\"hi\"\", ok\""
  {
    QuotedExampleText(v);
    DoubleQuotesTwo("He said ", "hi", ", ok");
  }

  lemma QuotedExampleText(v: string)
    requires v == "He said \"hi\", ok"
    ensures v == "He said " + "\"" + "hi" + "\"" + ", ok"
    ensures NeedsQuoting(v)
    ensures '"' !in "He said " && '"' !in "hi" && '"' !in ", ok"
    ensures "\"" + ("He said " + "\"\"" + "hi" + "\"\"" + ", ok") + "\""
         == "\"He said \"\"hi\"\", ok\""
  {
    assert v[8] == '"';
  }

  /** Two quotes between quote-free text are each doubled. */
  lemma DoubleQuotesTwo(a: string, b: string, c: string)
    requires '"' !in a && '"' !in b && '"' !in c
    ensures DoubleQuotes(a + "\"" + b + "\"" + c) == a + "\"\"" + b + "\"\"" + c
  {
    var q := "\"";
    DoubleQuotesAppend(a + q + b + q, c);
    DoubleQuotesAppend(a + q + b, q);
    DoubleQuotesAppend(a + q, b);
    DoubleQuotesAppend(a, q);
    assert DoubleQuotes(q) == "\"\"";
  }

  lemma {:induction false} DoubleQuotesAppend(a: string, b: string)
    ensures DoubleQuotes(a + b) == DoubleQuotes(a) + DoubleQuotes(b)
  {
    if a == [] {
      assert a + b == b;
    } else {
      DoubleQuotesAppend(a[1..], b);
      assert a == [a[0]] + a[1..];
      DoubleQuotesAppendStep(a[0], a[1..], b);
    }
  }

  /** One step of the induction: a character in front of both sides. */
  lemma DoubleQuotesAppendStep(c: char, t: string, b: string)
    requires DoubleQuotes(t + b) == DoubleQuotes(t) + DoubleQuotes(b)
    ensures DoubleQuotes([c] + t + b) == DoubleQuotes([c] + t) + DoubleQuotes(b)
  {
    ConcatAssoc([c], t, b);
    DoubleQuotesCons(c, t + b);
    DoubleQuotesCons(c, t);
    ConcatAssoc(DoubleQuotes([c]), DoubleQuotes(t), DoubleQuotes(b));
  }

  lemma ConcatAssoc(x: string, y: string, z: string)
    ensures x + (y + z) == x + y + z
  {
  }

  /** The doubling works one character at a time. */
  lemma DoubleQuotesCons(c: char, s: string)
    ensures DoubleQuotes([c] + s) == DoubleQuotes([c]) + DoubleQuotes(s)
  {
    assert ([c] + s)[0] == c && ([c] + s)[1..] == s;
    assert [c][1..] == [];
  }


  /* ---------------------------------------------------------------------- */
  /* A reference reader for the format, and the round trip                  */
  /* ---------------------------------------------------------------------- */

  /** Reads an unquoted field: everything up to the next comma or LF. */
  function ParseUnquoted(t: string): (r: (string, string))
    ensures r.0 + r.1 == t
    ensures r.1 == [] || r.1[0] == ',' || r.1[0] == '\n'
    ensures ',' !in r.0 && '\n' !in r.0
  {
    if t == [] || t[0] == ',' || t[0] == '\n' then ([], t)
    else
      var (f, rest) := ParseUnquoted(t[1..]);
      ([t[0]] + f, rest)
  }

  /** Reads the body of a quoted field, after its opening quote, through its closing quote. */
  function ParseQuotedBody(t: string): (r: Option<(string, string)>)
    ensures r.Some? ==> |r.value.1| < |t|
  {
    if t == [] then None
    else if t[0] == '"' then
      if |t| >= 2 && t[1] == '"' then
        match ParseQuotedBody(t[2..])
        case None => None
        case Some((f, rest)) => Some(("\"" + f, rest))
      else Some(([], t[1..]))
    else
      match ParseQuotedBody(t[1..])
      case None => None
      case Some((f, rest)) => Some(([t[0]] + f, rest))
  }

  function ParseField(t: string): (r: Option<(string, string)>)
    ensures r.Some? ==> |r.value.1| <= |t|
  {
    if t != [] && t[0] == '"' then ParseQuotedBody(t[1..]) else Some(ParseUnquoted(t))
  }

  /** Reads comma-separated fields up to the end of a record. */
  function ParseFields(t: string): (r: Option<(seq<string>, string)>)
    ensures r.Some? ==> |r.value.0| > 0 && |r.value.1| <= |t|
    decreases |t|
  {
    match ParseField(t)
    case None => None
    case Some((f, rest)) =>
      if rest != [] && rest[0] == ',' then
        match ParseFields(rest[1..])
        case None => None
        case Some((fs, rest')) => Some(([f] + fs, rest'))
      else Some(([f], rest))
  }

  /** Reads LF-separated records; None when the text is not well formed. */
  function ParseRecords(t: string): (r: Option<seq<seq<string>>>)
    decreases |t|
  {
    match ParseFields(t)
    case None => None
    case Some((fs, rest)) =>
      if rest == [] then Some([fs])
      else if rest[0] == '\n' then
        match ParseRecords(rest[1..])
        case None => None
        case Some(rs) => Some([fs] + rs)
      else None
  }

  lemma {:induction false} QuotedBodyRoundTrip(s: string, rest: string)
    requires rest == [] || rest[0] != '"'
    ensures ParseQuotedBody(DoubleQuotes(s) + ['"'] + rest) == Some((s, rest))
  {
    if s == [] {
      var t := ['"'] + rest;
      assert DoubleQuotes(s) + ['"'] + rest == t;
      assert t[1..] == rest;
    } else {
      QuotedBodyRoundTrip(s[1..], rest);
      QuotedBodyStep(s, rest);
      assert [s[0]] + s[1..] == s;
    }
  }

  /** One step of the reader: the first character of `s`, doubled if a quote, is read back. */
  lemma QuotedBodyStep(s: string, rest: string)
    requires s != []
    ensures var tail := DoubleQuotes(s[1..]) + ['"'] + rest;
      ParseQuotedBody(DoubleQuotes(s) + ['"'] + rest)
      == match ParseQuotedBody(tail)
         case None => None
         case Some((f, r)) => Some(([s[0]] + f, r))
  {
    var tail := DoubleQuotes(s[1..]) + ['"'] + rest;
    var t := DoubleQuotes(s) + ['"'] + rest;
    if s[0] == '"' {
      assert t == ['"', '"'] + tail;
      assert t[2..] == tail;
    } else {
      assert t == [s[0]] + tail;
      assert t[1..] == tail;
    }
  }

  lemma {:induction false} UnquotedRoundTrip(s: string, rest: string)
    requires ',' !in s && '\n' !in s
    requires rest == [] || rest[0] == ',' || rest[0] == '\n'
    ensures ParseUnquoted(s + rest) == (s, rest)
  {
    if s != [] {
      assert s[0] in s;
      assert (s + rest)[0] == s[0];
      assert (s + rest)[1..] == s[1..] + rest;
      assert forall c :: c in s[1..] ==> c in s;
      UnquotedRoundTrip(s[1..], rest);
      assert [s[0]] + s[1..] == s;
    } else {
      assert s + rest == rest;
    }
  }

  lemma FieldRoundTrip(v: string, rest: string)
    requires rest == [] || rest[0] == ',' || rest[0] == '\n'
    ensures ParseField(Escape(v) + rest) == Some((v, rest))
  {
    if NeedsQuoting(v) {
      assert Escape(v) == ['"'] + DoubleQuotes(v) + ['"'];
      QuotedFieldRoundTrip(v, rest);
    } else {
      PlainFieldRoundTrip(v, rest);
    }
  }

  lemma QuotedFieldRoundTrip(v: string, rest: string)
    requires rest == [] || rest[0] == ',' || rest[0] == '\n'
    ensures ParseField(['"'] + DoubleQuotes(v) + ['"'] + rest) == Some((v, rest))
  {
    var body := DoubleQuotes(v) + ['"'] + rest;
    var t := ['"'] + body;
    assert ['"'] + DoubleQuotes(v) + ['"'] + rest == t;
    assert t[0] == '"' && t[1..] == body;
    QuotedBodyRoundTrip(v, rest);
  }

  lemma PlainFieldRoundTrip(v: string, rest: string)
    requires !NeedsQuoting(v)
    requires rest == [] || rest[0] == ',' || rest[0] == '\n'
    ensures ParseField(v + rest) == Some((v, rest))
  {
    UnquotedRoundTrip(v, rest);
    if v != [] {
      assert v[0] in v;
      assert (v + rest)[0] == v[0];
    } else {
      assert v + rest == rest;
    }
  }

  lemma {:induction false} FieldsRoundTrip(fs: seq<string>, rest: string)
    requires fs != []
    requires rest == [] || rest[0] == '\n'
    ensures ParseFields(EncodeRow(fs) + rest) == Some((fs, rest))
  {
    var e := EscapeAll(fs);
    if |fs| == 1 {
      assert EncodeRow(fs) == Escape(fs[0]);
      FieldRoundTrip(fs[0], rest);
      assert [fs[0]] == fs;
    } else {
      assert e[1..] == EscapeAll(fs[1..]);
      var tail := EncodeRow(fs[1..]) + rest;
      assert EncodeRow(fs) + rest == Escape(fs[0]) + ("," + tail);
      FieldRoundTrip(fs[0], "," + tail);
      assert ("," + tail)[1..] == tail;
      FieldsRoundTrip(fs[1..], rest);
      assert [fs[0]] + fs[1..] == fs;
    }
  }

  function EncodeRecords(rows: seq<seq<string>>): (r: seq<string>)
    ensures |r| == |rows|
  {
    seq(|rows|, i requires 0 <= i < |rows| => EncodeRow(rows[i]))
  }

  lemma {:induction false} RecordsRoundTrip(rows: seq<seq<string>>)
    requires rows != []
    requires forall i :: 0 <= i < |rows| ==> rows[i] != []
    ensures ParseRecords(Join(EncodeRecords(rows), "\n")) == Some(rows)
  {
    var e := EncodeRecords(rows);
    if |rows| == 1 {
      assert Join(e, "\n") + "" == EncodeRow(rows[0]);
      FieldsRoundTrip(rows[0], "");
      assert [rows[0]] == rows;
    } else {
      assert e[1..] == EncodeRecords(rows[1..]);
      var tail := Join(EncodeRecords(rows[1..]), "\n");
      assert Join(e, "\n") == EncodeRow(rows[0]) + ("\n" + tail);
      FieldsRoundTrip(rows[0], "\n" + tail);
      assert ("\n" + tail)[1..] == tail;
      RecordsRoundTrip(rows[1..]);
      assert [rows[0]] + rows[1..] == rows;
    }
  }

  /**
   * The export is lossless: reading the CSV back with an RFC 4180 reader (LF
   * record separator) gives the header and, in input order, each lead's three
   * field values.
   */
  lemma ToCsvRoundTrip(leads: seq<Lead>)
    ensures ParseRecords(ToCsv(leads))
         == Some([Header] + seq(|leads|, i requires 0 <= i < |leads| => Fields(leads[i])))
  {
    var rows := [Header] + seq(|leads|, i requires 0 <= i < |leads| => Fields(leads[i]));
    assert !NeedsQuoting("email") && !NeedsQuoting("createdAt") && !NeedsQuoting("ua");
    assert EscapeAll(Header) == Header;
    assert EncodeRecords(rows) == [Join(Header, ",")] + Rows(leads);
    RecordsRoundTrip(rows);
  }

  /* ---------------------------------------------------------------------- */
  /* The export endpoint                                                     */
  /* ---------------------------------------------------------------------- */

  /** The response of `GET /api/leads`. */
  datatype ExportResponse =
    | Unauthorized          // 401 "Unauthorized"
    | Csv(body: string)     // 200 text/csv attachment

  /**
   * The presented token: the `token` query parameter, else the
   * `x-export-token` header; an empty value counts as absent.
   */
  function PresentedToken(query: Option<string>, header: Option<string>): (t: Option<string>)
    ensures t.Some? ==> t.value != "" && (t == query || t == header)
  {
    if Truthy(query) then query else if Truthy(header) then header else None
  }

  /**
   * `GET /api/leads`: the token gate, then the CSV of the stored leads (a
   * missing, unparsable or non-array file reads as no leads).
   */
  function Get(required: Option<string>, query: Option<string>, header: Option<string>,
               file: StoreFile): (r: ExportResponse)
    ensures r.Unauthorized? <==> Truthy(required) && PresentedToken(query, header) != required
    ensures r.Csv? ==> r.body == ToCsv(ReadLeads(file))
  {
    if Truthy(required) && PresentedToken(query, header) != required then Unauthorized
    else Csv(ToCsv(ReadLeads(file)))
  }

  /**
   * Who gets the export: everyone when no token is configured; otherwise
   * exactly the callers whose query token equals it, or who give no query
   * token and a header token equal to it.
   */
  lemma ExportAccess(required: Option<string>, query: Option<string>, header: Option<string>,
                     file: StoreFile)
    ensures Get(required, query, header, file).Csv?
        <==> !Truthy(required) || query == required || (!Truthy(query) && header == required)
  {
  }
}
