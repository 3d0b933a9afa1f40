/**
 The comma-separated text the history page exports: every field wrapped in
 double quotes with embedded quotes doubled (section 2, rules 5-7 of RFC 4180),
 fields joined by commas and records joined by a line feed (not the CRLF of
 the RFC). A reader for exactly that shape completes the round trip.
 */
module Csv {
  import opened Core

  // ---------------------------------------------------------------------------
  // Writing
  // ---------------------------------------------------------------------------

  /** `v.replace(/"/g, '""')`. */
  function DoubleQuotes(v: string): (r: string)
    ensures |r| >= |v|
  {
    if |v| == 0 then ""
    else (if v[0] == '"' then "\"\"" else [v[0]]) + DoubleQuotes(v[1..])
  }

  /** One exported field: `"` + value with quotes doubled + `"`. */
  function QuoteField(v: string): string {
    "\"" + DoubleQuotes(v) + "\""
  }

  /** `fields.map(QuoteField).join(',')`. */
  function RowText(fields: seq<string>): string {
    if |fields| == 0 then ""
    else if |fields| == 1 then QuoteField(fields[0])
    else QuoteField(fields[0]) + "," + RowText(fields[1..])
  }

  /** `rows.map(RowText).join('\n')`. */
  function CsvText(rows: seq<seq<string>>): string {
    if |rows| == 0 then ""
    else if |rows| == 1 then RowText(rows[0])
    else RowText(rows[0]) + "\n" + CsvText(rows[1..])
  }

  // ---------------------------------------------------------------------------
  // Reading
  // ---------------------------------------------------------------------------

  /** Reads the inside of a quoted field (after its opening quote): a pair of quotes
      stands for one quote, a lone quote ends the field. Returns the value and what
      follows the closing quote; `None` when the field never closes. */
  function ScanQuoted(s: string): (r: Option<(string, string)>)
    ensures r.Some? ==> |r.value.1| < |s|
  {
    if |s| == 0 then None
    else if s[0] == '"' then
      if |s| >= 2 && s[1] == '"' then
        match ScanQuoted(s[2..])
        case None => None
        case Some((v, rest)) => Some(("\"" + v, rest))
      else Some(("", s[1..]))
    else
      match ScanQuoted(s[1..])
      case None => None
      case Some((v, rest)) => Some(([s[0]] + v, rest))
  }

  /** Reads one quoted field at the start of `s`. */
  function ParseField(s: string): (r: Option<(string, string)>)
    ensures r.Some? ==> |r.value.1| < |s|
  {
    if |s| > 0 && s[0] == '"' then ScanQuoted(s[1..]) else None
  }

  /** Reads comma-separated quoted fields up to the end of the record. */
  function ParseRow(s: string): (r: Option<(seq<string>, string)>)
    ensures r.Some? ==> |r.value.1| < |s|
    decreases |s|
  {
    match ParseField(s)
    case None => None
    case Some((f, rest)) =>
      if |rest| > 0 && rest[0] == ',' then
        match ParseRow(rest[1..])
        case None => None
        case Some((fs, rest')) => Some(([f] + fs, rest'))
      else Some(([f], rest))
  }

  /** Reads line-feed-separated records up to the end of the text. */
  function ParseCsv(s: string): Option<seq<seq<string>>>
    decreases |s|
  {
    match ParseRow(s)
    case None => None
    case Some((row, rest)) =>
      if |rest| == 0 then Some([row])
      else if rest[0] == '\n' then
        match ParseCsv(rest[1..])
        case None => None
        case Some(rows) => Some([row] + rows)
      else None
  }

  // ---------------------------------------------------------------------------
  // Round trip
  // ---------------------------------------------------------------------------

  /** The doubled value followed by a closing quote reads back as the value. */
  lemma {:induction false} ScanDoubled(v: string, rest: string)
    requires |rest| == 0 || rest[0] != '"'
    ensures ScanQuoted(DoubleQuotes(v) + "\"" + rest) == Some((v, rest))
  {
    var s := DoubleQuotes(v) + "\"" + rest;
    if |v| == 0 {
      assert s == "\"" + rest;
      assert s[1..] == rest;
    } else {
      ScanDoubled(v[1..], rest);
      var tail := DoubleQuotes(v[1..]) + "\"" + rest;
      if v[0] == '"' {
        assert s == "\"\"" + tail;
        assert s[2..] == tail;
        assert "\"" + v[1..] == v;
      } else {
        assert s == [v[0]] + tail;
        assert s[1..] == tail;
        assert [v[0]] + v[1..] == v;
      }
    }
  }

  /** A quoted field reads back as its value; the reader stops at the closing quote. */
  lemma FieldRoundTrip(v: string, rest: string)
    requires |rest| == 0 || rest[0] != '"'
    ensures ParseField(QuoteField(v) + rest) == Some((v, rest))
  {
    var s := QuoteField(v) + rest;
    assert s[1..] == DoubleQuotes(v) + "\"" + rest;
    ScanDoubled(v, rest);
  }

  /** A non-empty record reads back as its fields, up to a line feed or the end. */
  lemma {:induction false} RowRoundTrip(fields: seq<string>, rest: string)
    requires |fields| > 0
    requires |rest| == 0 || rest[0] == '\n'
    ensures ParseRow(RowText(fields) + rest) == Some((fields, rest))
  {
    var s := RowText(fields) + rest;
    if |fields| == 1 {
      FieldRoundTrip(fields[0], rest);
      assert fields == [fields[0]];
    } else {
      var tail := RowText(fields[1..]) + rest;
      assert s == QuoteField(fields[0]) + ("," + tail);
      FieldRoundTrip(fields[0], "," + tail);
      assert ("," + tail)[1..] == tail;
      RowRoundTrip(fields[1..], rest);
      assert [fields[0]] + fields[1..] == fields;
    }
  }

  /** Text written from non-empty records of non-empty rows reads back as those rows. */
  lemma {:induction false} CsvRoundTrip(rows: seq<seq<string>>)
    requires |rows| > 0
    requires forall i :: 0 <= i < |rows| ==> |rows[i]| > 0
    ensures ParseCsv(CsvText(rows)) == Some(rows)
  {
    if |rows| == 1 {
      RowRoundTrip(rows[0], "");
      assert RowText(rows[0]) + "" == RowText(rows[0]);
      assert rows == [rows[0]];
    } else {
      var tail := CsvText(rows[1..]);
      assert CsvText(rows) == RowText(rows[0]) + ("\n" + tail);
      RowRoundTrip(rows[0], "\n" + tail);
      assert ("\n" + tail)[1..] == tail;
      CsvRoundTrip(rows[1..]);
      assert [rows[0]] + rows[1..] == rows;
    }
  }
}
