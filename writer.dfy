/** The CSV writer: each row is written as its fields, escaped where needed and
    joined by the delimiter; rows are separated by a single line feed, written
    before every row but the first, so the output never ends with a terminator. */
module CsvWriter {
  import opened CsvConfiguration

  /** Whether a field must be written between quotes: it holds a line break
      (as the writer tests show) or, following rules 6 and 7 of section 2 of
      RFC 4180, the delimiter or the quote character. */
  predicate NeedsQuotes(field: string, d: char)
    ensures NeedsQuotes(field, d) ==> field != []
  {
    CarriageReturn in field || LineFeed in field || d in field || QuoteChar in field
  }

  /** The field with every quote character written twice. */
  function Doubled(field: string): (r: string)
    ensures |r| >= |field|
    ensures QuoteChar !in field ==> r == field
  {
    if field == [] then []
    else (if field[0] == QuoteChar then [QuoteChar, QuoteChar] else [field[0]]) + Doubled(field[1..])
  }

  /** Doubling distributes over concatenation, so a field can be escaped piece by piece. */
  lemma {:induction false} DoubledAppend(a: string, b: string)
    ensures Doubled(a + b) == Doubled(a) + Doubled(b)
  {
    if a != [] {
      var h := if a[0] == QuoteChar then [QuoteChar, QuoteChar] else [a[0]];
      assert (a + b)[0] == a[0];
      assert (a + b)[1..] == a[1..] + b;
      assert Doubled(a + b) == h + Doubled(a[1..] + b);
      DoubledAppend(a[1..], b);
      assert Doubled(a) == h + Doubled(a[1..]);
      ConcatAssoc(h, Doubled(a[1..]), Doubled(b));
    } else {
      assert a + b == b;
    }
  }

  /** Concatenation is associative; the proofs about texts regroup them with it. */
  lemma ConcatAssoc(a: string, b: string, c: string)
    ensures a + b + c == a + (b + c)
  {
  }

  /** The field as written: between quotes with its quotes doubled when it
      needs quotes, and as it is otherwise. */
  function Escaped(field: string, d: char): string
  {
    if NeedsQuotes(field, d) then [QuoteChar] + Doubled(field) + [QuoteChar] else field
  }

  /** The written field is never shorter than the field; it is the field
      itself exactly when no quotes are needed, and otherwise the field's
      text between quotes. */
  lemma EscapedForm(field: string, d: char)
    ensures |Escaped(field, d)| >= |field|
    ensures Escaped(field, d) == field <==> !NeedsQuotes(field, d)
    ensures NeedsQuotes(field, d) ==>
      var r := Escaped(field, d);
      |r| >= |field| + 2 && r[0] == QuoteChar && r[|r| - 1] == QuoteChar
  {
  }

  /** The text of one row: its escaped fields joined by the delimiter. */
  function Line(fields: seq<string>, d: char): string
  {
    if fields == [] then []
    else if |fields| == 1 then Escaped(fields[0], d)
    else Escaped(fields[0], d) + [d] + Line(fields[1..], d)
  }

  /** The text of several rows, one line feed between consecutive rows. */
  function Document(rows: seq<seq<string>>, d: char): string
  {
    if rows == [] then []
    else if |rows| == 1 then Line(rows[0], d)
    else Line(rows[0], d) + [LineFeed] + Document(rows[1..], d)
  }

  /** A line holds at least one delimiter between each two fields, and is
      empty exactly when it has no field or one empty field. */
  lemma {:induction false} LineSize(fields: seq<string>, d: char)
    ensures |Line(fields, d)| >= |fields| - 1
    ensures Line(fields, d) == [] <==> fields == [] || fields == [[]]
  {
    if |fields| > 1 {
      LineSize(fields[1..], d);
    } else if |fields| == 1 {
      assert fields == [fields[0]];
    }
  }

  /** A document holds a line feed between each two rows, and is empty
      exactly when it has no row or one row written as nothing. */
  lemma {:induction false} DocumentSize(rows: seq<seq<string>>, d: char)
    ensures |Document(rows, d)| >= |rows| - 1
    ensures Document(rows, d) == [] <==> rows == [] || (|rows| == 1 && Line(rows[0], d) == [])
  {
    if |rows| > 1 {
      DocumentSize(rows[1..], d);
    }
  }

  /** Writing one more row appends a line feed and that row's text. */
  lemma {:induction false} DocumentAppend(rows: seq<seq<string>>, row: seq<string>, d: char)
    requires rows != []
    ensures Document(rows + [row], d) == Document(rows, d) + [LineFeed] + Line(row, d)
  {
    var all := rows + [row];
    assert all[0] == rows[0];
    if |rows| > 1 {
      assert all[1..] == rows[1..] + [row];
      DocumentAppend(rows[1..], row, d);
      var first := Line(rows[0], d) + [LineFeed];
      assert Document(all, d) == first + (Document(rows[1..], d) + [LineFeed] + Line(row, d));
      assert Document(rows, d) == first + Document(rows[1..], d);
      ConcatAssoc(first, Document(rows[1..], d) + [LineFeed], Line(row, d));
      ConcatAssoc(first, Document(rows[1..], d), [LineFeed]);
    } else {
      assert all[1..] == [row];
    }
  }

  /** `CSV.Writer`: writes rows to an output, remembering whether it has
      written one already. */
  class Writer {
    const configuration: Configuration
    /** Everything written to the output stream. */
    var output: string
    var didWriteLine: bool
    ghost var rows: seq<seq<string>>

    ghost predicate Valid()
      reads this
    {
      output == Document(rows, configuration.delimiter) && didWriteLine == (rows != [])
    }

    constructor (configuration: Configuration)
      ensures this.configuration == configuration
      ensures Valid() && rows == [] && output == []
    {
      this.configuration := configuration;
      output := [];
      didWriteLine := false;
      rows := [];
    }

    /** `writeLine(of:)`: appends a row, preceded by a line feed unless it is the first. */
    method WriteLine(fields: seq<string>)
      requires Valid()
      modifies this
      ensures Valid() && rows == old(rows) + [fields]
      ensures output == old(output) + (if old(didWriteLine) then [LineFeed] else []) +
                        Line(fields, configuration.delimiter)
    {
      if didWriteLine {
        output := output + [LineFeed];
        DocumentAppend(rows, fields, configuration.delimiter);
      }
      output := output + Line(fields, configuration.delimiter);
      didWriteLine := true;
      rows := rows + [fields];
    }
  }
}
