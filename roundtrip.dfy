/** The writer's output is a readable text whose table is the rows written,
    so the parser gives back exactly those rows. */
module CsvRoundTrip {
  import opened CsvConfiguration
  import opened CsvParser
  import opened CsvWriter
  import opened CsvFormat

  /** How the writer writes one field: between quotes when it must be, with
      nothing after the closing quote; bare otherwise. */
  function WrittenCell(field: string, d: char): (c: Cell)
    ensures c.value == field && Writable(c, d)
    ensures FieldText(c) == Escaped(field, d)
  {
    if NeedsQuotes(field, d) then
      assert [QuoteChar] + Doubled(field) + [QuoteChar] + Spaces(0) == [QuoteChar] + Doubled(field) + [QuoteChar];
      Cell(field, Quoted(0))
    else Cell(field, Bare)
  }

  /** The fields of the last row written. */
  function LastRowLayout(row: seq<string>, d: char): Layout
    requires row != []
  {
    if |row| == 1 then Last(WrittenCell(row[0], d))
    else Delimited(WrittenCell(row[0], d), LastRowLayout(row[1..], d))
  }

  /** The fields of a row written before `next`, ended by the writer's line feed. */
  function RowLayout(row: seq<string>, d: char, next: Layout): Layout
    requires row != []
  {
    if |row| == 1 then Terminated(WrittenCell(row[0], d), Lf, next)
    else Delimited(WrittenCell(row[0], d), RowLayout(row[1..], d, next))
  }

  predicate NoEmptyRow(rows: seq<seq<string>>)
  {
    forall k :: 0 <= k < |rows| ==> rows[k] != []
  }

  /** The layout of everything the writer writes for `rows`. */
  function WriterLayout(rows: seq<seq<string>>, d: char): Layout
    requires rows != [] && NoEmptyRow(rows)
  {
    if |rows| == 1 then LastRowLayout(rows[0], d)
    else RowLayout(rows[0], d, WriterLayout(rows[1..], d))
  }

  lemma {:induction false} LastRowText(row: seq<string>, d: char)
    requires row != []
    ensures Text(LastRowLayout(row, d), d) == Line(row, d)
    decreases |row|
  {
    if |row| > 1 {
      LastRowText(row[1..], d);
    }
  }

  lemma {:induction false} RowText(row: seq<string>, d: char, next: Layout)
    requires row != []
    ensures Text(RowLayout(row, d, next), d) == Line(row, d) + [LineFeed] + Text(next, d)
    decreases |row|
  {
    var e := Escaped(row[0], d);
    if |row| > 1 {
      var line, tail := Line(row[1..], d), Text(next, d);
      RowText(row[1..], d, next);
      assert Text(RowLayout(row, d, next), d) == e + [d] + (line + [LineFeed] + tail);
      assert Line(row, d) == e + [d] + line;
      ConcatAssoc(e + [d], line + [LineFeed], tail);
      ConcatAssoc(e + [d], line, [LineFeed]);
    } else {
      assert Text(RowLayout(row, d, next), d) == e + [LineFeed] + Text(next, d);
    }
  }

  /** The writer's output for `rows` is the text of `WriterLayout(rows)`. */
  lemma {:induction false} WriterText(rows: seq<seq<string>>, d: char)
    requires rows != [] && NoEmptyRow(rows)
    ensures Text(WriterLayout(rows, d), d) == Document(rows, d)
    decreases |rows|
  {
    if |rows| == 1 {
      LastRowText(rows[0], d);
    } else {
      assert NoEmptyRow(rows[1..]) by {
        forall k | 0 <= k < |rows[1..]| ensures rows[1..][k] != [] {
          assert rows[1..][k] == rows[k + 1];
        }
      }
      WriterText(rows[1..], d);
      RowText(rows[0], d, WriterLayout(rows[1..], d));
    }
  }

  lemma {:induction false} LastRowGrouped(fields: seq<string>, row: seq<string>, d: char)
    requires row != []
    ensures Grouped(fields, LastRowLayout(row, d)) == [fields + row]
    decreases |row|
  {
    if |row| > 1 {
      assert Grouped(fields, LastRowLayout(row, d)) == Grouped(fields + [row[0]], LastRowLayout(row[1..], d));
      LastRowGrouped(fields + [row[0]], row[1..], d);
      FieldsAppend(fields, row);
    } else {
      assert row == [row[0]];
    }
  }

  lemma {:induction false} RowGrouped(fields: seq<string>, row: seq<string>, d: char, next: Layout)
    requires row != []
    ensures Grouped(fields, RowLayout(row, d, next)) == [fields + row] + Grouped([], next)
    decreases |row|
  {
    if |row| > 1 {
      assert Grouped(fields, RowLayout(row, d, next)) == Grouped(fields + [row[0]], RowLayout(row[1..], d, next));
      RowGrouped(fields + [row[0]], row[1..], d, next);
      FieldsAppend(fields, row);
    } else {
      assert row == [row[0]];
    }
  }

  lemma FieldsAppend(fields: seq<string>, row: seq<string>)
    requires row != []
    ensures fields + [row[0]] + row[1..] == fields + row
  {
    assert [row[0]] + row[1..] == row;
  }

  /** The table of the writer's layout is the rows written. */
  lemma {:induction false} WriterTable(rows: seq<seq<string>>, d: char)
    requires rows != [] && NoEmptyRow(rows)
    ensures Table(WriterLayout(rows, d)) == rows
    decreases |rows|
  {
    if |rows| == 1 {
      LastRowGrouped([], rows[0], d);
      assert [] + rows[0] == rows[0];
      assert rows == [rows[0]];
    } else {
      assert NoEmptyRow(rows[1..]) by {
        forall k | 0 <= k < |rows[1..]| ensures rows[1..][k] != [] {
          assert rows[1..][k] == rows[k + 1];
        }
      }
      WriterTable(rows[1..], d);
      RowGrouped([], rows[0], d, WriterLayout(rows[1..], d));
      assert [] + rows[0] == rows[0];
      assert [rows[0]] + rows[1..] == rows;
    }
  }

  lemma {:induction false} LastRowWellWritten(row: seq<string>, d: char, p: Policy)
    requires row != []
    ensures WellWritten(LastRowLayout(row, d), d, p)
    decreases |row|
  {
    if |row| > 1 {
      LastRowWellWritten(row[1..], d, p);
    }
  }

  lemma {:induction false} RowWellWritten(row: seq<string>, d: char, p: Policy, next: Layout)
    requires row != [] && WellWritten(next, d, p)
    requires p.lineStart == LineBeforeInput ==> Text(next, d) != []
    ensures WellWritten(RowLayout(row, d, next), d, p)
    decreases |row|
  {
    if |row| > 1 {
      RowWellWritten(row[1..], d, p, next);
    }
  }

  /** The writer only writes well-written layouts; unless every terminator
      begins a line, its output is not empty when the last row's line is not. */
  lemma {:induction false} WriterWellWritten(rows: seq<seq<string>>, d: char, p: Policy)
    requires rows != [] && NoEmptyRow(rows)
    requires p.lineStart == LineBeforeInput ==> Line(rows[|rows| - 1], d) != []
    ensures WellWritten(WriterLayout(rows, d), d, p)
    ensures p.lineStart == LineBeforeInput ==> Document(rows, d) != []
    decreases |rows|
  {
    if |rows| == 1 {
      LastRowWellWritten(rows[0], d, p);
    } else {
      assert NoEmptyRow(rows[1..]) by {
        forall k | 0 <= k < |rows[1..]| ensures rows[1..][k] != [] {
          assert rows[1..][k] == rows[k + 1];
        }
      }
      assert rows[1..][|rows[1..]| - 1] == rows[|rows| - 1];
      WriterWellWritten(rows[1..], d, p);
      WriterText(rows[1..], d);
      RowWellWritten(rows[0], d, p, WriterLayout(rows[1..], d));
    }
  }

  /** Parsing what the writer wrote for `rows` gives back `rows`, with the same
      configuration: every row must have a field (an empty row is written as an
      empty line, which reads back as one empty field). When no line begins at
      the end of the input, the empty document reads back as no rows, but the
      last row must not be written as nothing; when every terminator begins a
      line, there must be a row, since the empty document reads as one. */
  lemma WriterRoundTrip(rows: seq<seq<string>>, c: Configuration, p: Policy)
    requires ValidDelimiter(c.delimiter) && NoEmptyRow(rows)
    requires p.lineStart == LineAfterEveryTerminator ==> rows != []
    requires p.lineStart == LineBeforeInput && rows != [] ==> Line(rows[|rows| - 1], c.delimiter) != []
    ensures Rows(Document(rows, c.delimiter), c, p) == Ok(rows)
    ensures Events(Document(rows, c.delimiter), c, p) == [DocumentBegin] + Framed(rows) + [DocumentEnd]
  {
    var d := c.delimiter;
    if rows == [] {
      assert Document(rows, d) == [];
    } else {
      WriterWellWritten(rows, d, p);
      WriterText(rows, d);
      WriterTable(rows, d);
      ParseText(WriterLayout(rows, d), c, p);
    }
  }

  /** What holds of the machine at every point of a run: every ended line has
      a field, and when every terminator begins a line, a line is open or one
      has ended. */
  predicate RowsWritable(m: Machine, p: Policy)
  {
    NoEmptyRow(m.rows) && (p.lineStart == LineAfterEveryTerminator ==> m.open || m.rows != [])
  }

  /** One transition keeps the lines ended so far and ends at most one more,
      holding the fields read on it and the field being read. */
  lemma StepRows(m: Machine, rest: string, p: Policy, d: char)
    requires rest != [] && Step(m, rest, p, d).Advance?
    ensures var m' := Step(m, rest, p, d).machine;
      (m'.rows == m.rows && m'.open == m.open) || m'.rows == m.rows + [m.fields + [m.buffer]]
  {
  }

  /** A run keeps `RowsWritable`, and a run that completes ends with it. */
  lemma {:induction false} RunRowsWritable(m: Machine, rest: string, p: Policy, d: char)
    requires RowsWritable(m, p)
    ensures Run(m, rest, p, d).Done? ==> RowsWritable(Run(m, rest, p, d).machine, p)
    decreases |rest|
  {
    if rest == [] {
      if m.open {
        assert Finish(m, p).Done? ==> Finish(m, p).machine.rows == m.rows + [m.fields + [m.buffer]];
      }
    } else {
      var s := Step(m, rest, p, d);
      if s.Advance? {
        StepRows(m, rest, p, d);
        RunRowsWritable(s.machine, s.rest, p, d);
      }
    }
  }

  /** A successful parse yields no line without a field, and when every
      terminator begins a line, at least one line. */
  lemma ParsedRows(input: string, c: Configuration, p: Policy)
    requires Rows(input, c, p).Ok?
    ensures NoEmptyRow(Rows(input, c, p).value)
    ensures p.lineStart == LineAfterEveryTerminator ==> Rows(input, c, p).value != []
  {
    RunRowsWritable(Start(input, p), input, p, c.delimiter);
  }

  /** Writing what the parser read and parsing it again gives the same rows.
      When no line begins at the end of the input, a last line of one empty
      field is excluded: the writer writes it as nothing, which reads back as
      no line (`NewlineRewritten`). */
  lemma ParseWriteParse(input: string, c: Configuration, p: Policy)
    requires ValidDelimiter(c.delimiter) && Rows(input, c, p).Ok?
    requires p.lineStart == LineBeforeInput && Rows(input, c, p).value != [] ==>
      Rows(input, c, p).value[|Rows(input, c, p).value| - 1] != [[]]
    ensures Rows(Document(Rows(input, c, p).value, c.delimiter), c, p) == Rows(input, c, p)
  {
    var rows := Rows(input, c, p).value;
    ParsedRows(input, c, p);
    if rows != [] {
      LineSize(rows[|rows| - 1], c.delimiter);
    }
    WriterRoundTrip(rows, c, p);
  }

  /** The excluded case: when no line begins at the end of the input, a lone
      line feed reads as one line of one empty field, which the writer writes
      as the empty text, and the empty text reads as no line. */
  lemma NewlineRewritten(input: string, p: Policy)
    requires input == [LineFeed] && p.lineStart == LineBeforeInput
    ensures Rows(input, Configuration(','), p) == Ok([[[]]])
    ensures Document([[[]]], ',') == []
    ensures Rows([], Configuration(','), p) == Ok([])
  {
    var m := Start(input, p);
    assert m == Machine(BeforeField, [], [], [], true);
    assert input[0] == LineFeed && AfterBreak(input) == [];
    var done := EndLine(EndField(m), false);
    var empty: string := [];
    assert m.fields + [empty] == [empty];
    assert m.rows + [[empty]] == [[empty]];
    assert done == Machine(BeforeField, [], [], [[[]]], false);
    assert Step(m, input, p, ',') == Advance(done, []);
    assert Run(done, [], p, ',') == Done(done);
  }
}
