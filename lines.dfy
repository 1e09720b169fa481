/** A line with no quotes and no line breaks: the parser splits it at every
    delimiter, so a line with k delimiters is one row of k + 1 fields. */
module CsvPlainLines {
  import opened CsvConfiguration
  import opened CsvParser
  import opened CsvWriter
  import opened CsvFormat

  /** How many times `ch` occurs in `s`. */
  function Occurrences(s: string, ch: char): nat
  {
    if s == [] then 0 else (if s[0] == ch then 1 else 0) + Occurrences(s[1..], ch)
  }

  /** The pieces of `s` between its delimiters, in order. */
  function SplitFields(s: string, d: char): (r: seq<string>)
    ensures |r| == Occurrences(s, d) + 1
    ensures forall i :: 0 <= i < |r| ==> d !in r[i]
    ensures forall i, ch :: 0 <= i < |r| && ch in r[i] ==> ch in s
  {
    if s == [] then [[]]
    else
      var r := SplitFields(s[1..], d);
      assert forall ch :: ch in s[1..] ==> ch in s;
      if s[0] == d then [[]] + r
      else [[s[0]] + r[0]] + r[1..]
  }

  /** The layout of one line of bare fields. */
  function BareLine(fields: seq<string>): Layout
    requires fields != []
  {
    if |fields| == 1 then Last(Cell(fields[0], Bare))
    else Delimited(Cell(fields[0], Bare), BareLine(fields[1..]))
  }

  lemma BareLineCons(ch: char, fields: seq<string>, d: char)
    requires fields != []
    ensures Text(BareLine([[ch] + fields[0]] + fields[1..]), d) == [ch] + Text(BareLine(fields), d)
  {
    var g := [[ch] + fields[0]] + fields[1..];
    assert g[1..] == fields[1..];
    if |fields| > 1 {
      var t := Text(BareLine(fields[1..]), d);
      assert Text(BareLine(g), d) == [ch] + fields[0] + [d] + t;
      assert Text(BareLine(fields), d) == fields[0] + [d] + t;
    }
  }

  lemma {:induction false} SplitText(s: string, d: char)
    ensures Text(BareLine(SplitFields(s, d)), d) == s
    decreases |s|
  {
    if s != [] {
      var r := SplitFields(s[1..], d);
      SplitText(s[1..], d);
      if s[0] == d {
        assert SplitFields(s, d)[1..] == r;
      } else {
        BareLineCons(s[0], r, d);
      }
    }
  }

  lemma {:induction false} BareLineGrouped(fields: seq<string>, line: seq<string>)
    requires line != []
    ensures Grouped(fields, BareLine(line)) == [fields + line]
    decreases |line|
  {
    if |line| > 1 {
      BareLineGrouped(fields + [line[0]], line[1..]);
      assert fields + [line[0]] + line[1..] == fields + line by {
        assert [line[0]] + line[1..] == line;
      }
    } else {
      assert line == [line[0]];
    }
  }

  lemma {:induction false} BareLineWellWritten(line: seq<string>, d: char, p: Policy)
    requires line != []
    requires forall i :: 0 <= i < |line| ==> !NeedsQuotes(line[i], d)
    ensures WellWritten(BareLine(line), d, p)
    decreases |line|
  {
    if |line| > 1 {
      BareLineWellWritten(line[1..], d, p);
    }
  }

  lemma {:induction false} BareLineText(fields: seq<string>, d: char)
    requires fields != []
    requires forall i :: 0 <= i < |fields| ==> !NeedsQuotes(fields[i], d)
    ensures Text(BareLine(fields), d) == Line(fields, d)
    decreases |fields|
  {
    if |fields| > 1 {
      BareLineText(fields[1..], d);
    }
  }

  /** The writer joins the pieces back into the line they were split from. */
  lemma SplitJoin(s: string, d: char)
    requires ValidDelimiter(d)
    requires QuoteChar !in s && CarriageReturn !in s && LineFeed !in s
    ensures Line(SplitFields(s, d), d) == s
  {
    SplitText(s, d);
    BareLineText(SplitFields(s, d), d);
  }

  /** A line without quotes or line breaks parses to one row: the pieces
      between its delimiters, one more than there are delimiters. */
  lemma PlainLine(s: string, c: Configuration, p: Policy)
    requires ValidDelimiter(c.delimiter)
    requires QuoteChar !in s && CarriageReturn !in s && LineFeed !in s
    requires p.lineStart == LineBeforeInput ==> s != []
    ensures Rows(s, c, p) == Ok([SplitFields(s, c.delimiter)])
    ensures |SplitFields(s, c.delimiter)| == Occurrences(s, c.delimiter) + 1
  {
    var d := c.delimiter;
    var fields := SplitFields(s, d);
    SplitText(s, d);
    BareLineGrouped([], fields);
    assert [] + fields == fields;
    BareLineWellWritten(fields, d, p);
    ParseText(BareLine(fields), c, p);
  }
}
