/** The texts of the parser tests, read by the pure parser `Rows` for every
    `Policy`. Each group proves, for all values of the shape the test uses, what
    the parser reads (`...Shape`, through the layout theorem `ParseText`), and
    then the test's own text as an instance (`...Vector`). The `...Input` and
    `...Value` lemmas only split a string literal into the pieces of its shape. */
module CsvParserVectors {
  import opened CsvConfiguration
  import opened CsvParser
  import opened CsvWriter
  import opened CsvFormat

  /** A quoted field without quotes inside, and no spaces after it. */
  lemma QuotedText(v: string)
    requires QuoteChar !in v
    ensures FieldText(Cell(v, Quoted(0))) == [QuoteChar] + v + [QuoteChar]
  {
  }

  /** A quoted field without quotes inside, followed by one space. */
  lemma QuotedSpaceText(v: string)
    requires QuoteChar !in v
    ensures FieldText(Cell(v, Quoted(1))) == [QuoteChar] + v + [QuoteChar] + [Space]
  {
  }

  /** The opening quote and the first quote-free piece of a quoted field. */
  lemma QuotedStart(s: string)
    requires QuoteChar !in s
    ensures [QuoteChar] + Doubled(s) == [QuoteChar] + s
  {
  }

  /** One more quote and quote-free piece: the quote is written twice. */
  lemma QuotedStep(s: string, w: string, t: string)
    requires [QuoteChar] + Doubled(s) == w && QuoteChar !in t
    ensures [QuoteChar] + Doubled(s + [QuoteChar] + t) == w + [QuoteChar, QuoteChar] + t
  {
    DoubledAppend(s + [QuoteChar], t);
    DoubledAppend(s, [QuoteChar]);
  }

  /** The layout of the texts `QuotedFieldsShape` is about. */
  function QuotedFieldsLayout(a: string, b: string, c: string, e: string, f: string, g: string): Layout
  {
    Delimited(Cell(a, Quoted(0)), Delimited(Cell(b, Quoted(0)), Terminated(Cell(c, Quoted(1)), CrLf, Delimited(Cell(e, Bare), Delimited(Cell(f, Bare), Last(Cell(g, Bare)))))))
  }

  lemma QuotedFieldsText(a: string, b: string, c: string, e: string, f: string, g: string, d: char)
    requires QuoteChar !in a && QuoteChar !in b && QuoteChar !in c
    ensures Text(QuotedFieldsLayout(a, b, c, e, f, g), d) == [QuoteChar] + a + [QuoteChar] + [d] + [QuoteChar] + b + [QuoteChar] + [d] + [QuoteChar] + c + [QuoteChar] + [Space] + [CarriageReturn, LineFeed] + e + [d] + f + [d] + g
  {
    var l5 := Last(Cell(g, Bare));
    var l4 := Delimited(Cell(f, Bare), l5);
    var l3 := Delimited(Cell(e, Bare), l4);
    var l2 := Terminated(Cell(c, Quoted(1)), CrLf, l3);
    var l1 := Delimited(Cell(b, Quoted(0)), l2);
    var l0 := Delimited(Cell(a, Quoted(0)), l1);
    QuotedText(a);
    QuotedText(b);
    QuotedSpaceText(c);
    assert Text(l0, d) == ((([QuoteChar] + a) + [QuoteChar]) + [d]) + Text(l1, d);
    assert Text(l1, d) == ((([QuoteChar] + b) + [QuoteChar]) + [d]) + Text(l2, d);
    ConcatAssoc([QuoteChar] + a + [QuoteChar] + [d], ((([QuoteChar] + b) + [QuoteChar]) + [d]), Text(l2, d));
    ConcatAssoc([QuoteChar] + a + [QuoteChar] + [d], (([QuoteChar] + b) + [QuoteChar]), [d]);
    ConcatAssoc([QuoteChar] + a + [QuoteChar] + [d], ([QuoteChar] + b), [QuoteChar]);
    ConcatAssoc([QuoteChar] + a + [QuoteChar] + [d], [QuoteChar], b);
    assert Text(l2, d) == (((([QuoteChar] + c) + [QuoteChar]) + [Space]) + [CarriageReturn, LineFeed]) + Text(l3, d);
    ConcatAssoc([QuoteChar] + a + [QuoteChar] + [d] + [QuoteChar] + b + [QuoteChar] + [d], (((([QuoteChar] + c) + [QuoteChar]) + [Space]) + [CarriageReturn, LineFeed]), Text(l3, d));
    ConcatAssoc([QuoteChar] + a + [QuoteChar] + [d] + [QuoteChar] + b + [QuoteChar] + [d], ((([QuoteChar] + c) + [QuoteChar]) + [Space]), [CarriageReturn, LineFeed]);
    ConcatAssoc([QuoteChar] + a + [QuoteChar] + [d] + [QuoteChar] + b + [QuoteChar] + [d], (([QuoteChar] + c) + [QuoteChar]), [Space]);
    ConcatAssoc([QuoteChar] + a + [QuoteChar] + [d] + [QuoteChar] + b + [QuoteChar] + [d], ([QuoteChar] + c), [QuoteChar]);
    ConcatAssoc([QuoteChar] + a + [QuoteChar] + [d] + [QuoteChar] + b + [QuoteChar] + [d], [QuoteChar], c);
    assert Text(l3, d) == (e + [d]) + Text(l4, d);
    ConcatAssoc([QuoteChar] + a + [QuoteChar] + [d] + [QuoteChar] + b + [QuoteChar] + [d] + [QuoteChar] + c + [QuoteChar] + [Space] + [CarriageReturn, LineFeed], (e + [d]), Text(l4, d));
    ConcatAssoc([QuoteChar] + a + [QuoteChar] + [d] + [QuoteChar] + b + [QuoteChar] + [d] + [QuoteChar] + c + [QuoteChar] + [Space] + [CarriageReturn, LineFeed], e, [d]);
    assert Text(l4, d) == (f + [d]) + Text(l5, d);
    ConcatAssoc([QuoteChar] + a + [QuoteChar] + [d] + [QuoteChar] + b + [QuoteChar] + [d] + [QuoteChar] + c + [QuoteChar] + [Space] + [CarriageReturn, LineFeed] + e + [d], (f + [d]), Text(l5, d));
    ConcatAssoc([QuoteChar] + a + [QuoteChar] + [d] + [QuoteChar] + b + [QuoteChar] + [d] + [QuoteChar] + c + [QuoteChar] + [Space] + [CarriageReturn, LineFeed] + e + [d], f, [d]);
    assert Text(l5, d) == g;
  }

  lemma QuotedFieldsTable(a: string, b: string, c: string, e: string, f: string, g: string)
    ensures Table(QuotedFieldsLayout(a, b, c, e, f, g)) == [[a, b, c], [e, f, g]]
  {
    var l5 := Last(Cell(g, Bare));
    var l4 := Delimited(Cell(f, Bare), l5);
    var l3 := Delimited(Cell(e, Bare), l4);
    var l2 := Terminated(Cell(c, Quoted(1)), CrLf, l3);
    var l1 := Delimited(Cell(b, Quoted(0)), l2);
    var l0 := Delimited(Cell(a, Quoted(0)), l1);
    assert [e, f] + [g] == [e, f, g];
    assert [e] + [f] == [e, f];
    assert [] + [e] == [e];
    assert Grouped([e, f], l5) == [[e, f, g]];
    assert Grouped([e], l4) == [[e, f, g]];
    assert Grouped([], l3) == [[e, f, g]];
    assert [a, b] + [c] == [a, b, c];
    assert [a] + [b] == [a, b];
    assert [] + [a] == [a];
    assert Grouped([a, b], l2) == [[a, b, c], [e, f, g]];
    assert Grouped([a], l1) == [[a, b, c], [e, f, g]];
    assert Grouped([], l0) == [[a, b, c], [e, f, g]];
  }

  lemma QuotedFieldsReadable(a: string, b: string, c: string, e: string, f: string, g: string, d: char, p: Policy)
    requires ValidDelimiter(d) && d != Space
    requires !NeedsQuotes(e, d) && !NeedsQuotes(f, d) && !NeedsQuotes(g, d)
    ensures Readable(QuotedFieldsLayout(a, b, c, e, f, g), d, p)
  {
    var l5 := Last(Cell(g, Bare));
    var l4 := Delimited(Cell(f, Bare), l5);
    var l3 := Delimited(Cell(e, Bare), l4);
    var l2 := Terminated(Cell(c, Quoted(1)), CrLf, l3);
    var l1 := Delimited(Cell(b, Quoted(0)), l2);
    var l0 := Delimited(Cell(a, Quoted(0)), l1);
    assert WellWritten(l5, d, p);
    assert WellWritten(l4, d, p);
    assert WellWritten(l3, d, p);
    assert WellWritten(l2, d, p);
    assert WellWritten(l1, d, p);
    assert WellWritten(l0, d, p);
  }

  /** Three quoted fields, the last followed by a space, then CR LF and three bare fields: the quotes are not part of the values, a quoted CR LF stays in its value, the space after a closing quote is skipped and the CR LF outside quotes ends the first line. */
  lemma QuotedFieldsShape(a: string, b: string, c: string, e: string, f: string, g: string, d: char, p: Policy)
    requires ValidDelimiter(d) && d != Space
    requires QuoteChar !in a && QuoteChar !in b && QuoteChar !in c
    requires !NeedsQuotes(e, d) && !NeedsQuotes(f, d) && !NeedsQuotes(g, d)
    ensures Rows([QuoteChar] + a + [QuoteChar] + [d] + [QuoteChar] + b + [QuoteChar] + [d] + [QuoteChar] + c + [QuoteChar] + [Space] + [CarriageReturn, LineFeed] + e + [d] + f + [d] + g, Configuration(d), p)
            == Ok([[a, b, c], [e, f, g]])
  {
    QuotedFieldsText(a, b, c, e, f, g, d);
    QuotedFieldsTable(a, b, c, e, f, g);
    QuotedFieldsReadable(a, b, c, e, f, g, d, p);
    ParseText(QuotedFieldsLayout(a, b, c, e, f, g), Configuration(d), p);
  }

  lemma QuotedFieldsVectorInput1()
    ensures "\"aaa\",\"b \r\nbb" == [QuoteChar] + "aaa" + [QuoteChar] + [','] + [QuoteChar] + "b \r\nbb"
  {
    assert "\"aaa\",\"b \r\nbb" == "\"aaa\",\"" + "b \r\nbb";
    assert "\"aaa\",\"" == "\"aaa\"," + [QuoteChar];
    assert "\"aaa\"," == "\"aaa\"" + [','];
    assert "\"aaa\"" == "\"aaa" + [QuoteChar];
    assert "\"aaa" == "\"" + "aaa";
  }

  lemma QuotedFieldsVectorInput2()
    ensures "\"aaa\",\"b \r\nbb\",\"ccc\" " == [QuoteChar] + "aaa" + [QuoteChar] + [','] + [QuoteChar] + "b \r\nbb" + [QuoteChar] + [','] + [QuoteChar] + "ccc" + [QuoteChar] + [Space]
  {
    QuotedFieldsVectorInput1();
    assert "\"aaa\",\"b \r\nbb\",\"ccc\" " == "\"aaa\",\"b \r\nbb\",\"ccc\"" + [Space];
    assert "\"aaa\",\"b \r\nbb\",\"ccc\"" == "\"aaa\",\"b \r\nbb\",\"ccc" + [QuoteChar];
    assert "\"aaa\",\"b \r\nbb\",\"ccc" == "\"aaa\",\"b \r\nbb\",\"" + "ccc";
    assert "\"aaa\",\"b \r\nbb\",\"" == "\"aaa\",\"b \r\nbb\"," + [QuoteChar];
    assert "\"aaa\",\"b \r\nbb\"," == "\"aaa\",\"b \r\nbb\"" + [','];
    assert "\"aaa\",\"b \r\nbb\"" == "\"aaa\",\"b \r\nbb" + [QuoteChar];
  }

  lemma QuotedFieldsVectorInput()
    ensures "\"aaa\",\"b \r\nbb\",\"ccc\" \r\nzzz,yyy,xxx" == [QuoteChar] + "aaa" + [QuoteChar] + [','] + [QuoteChar] + "b \r\nbb" + [QuoteChar] + [','] + [QuoteChar] + "ccc" + [QuoteChar] + [Space] + [CarriageReturn, LineFeed] + "zzz" + [','] + "yyy" + [','] + "xxx"
  {
    QuotedFieldsVectorInput2();
    assert "\"aaa\",\"b \r\nbb\",\"ccc\" \r\nzzz,yyy,xxx" == "\"aaa\",\"b \r\nbb\",\"ccc\" \r\nzzz,yyy," + "xxx";
    assert "\"aaa\",\"b \r\nbb\",\"ccc\" \r\nzzz,yyy," == "\"aaa\",\"b \r\nbb\",\"ccc\" \r\nzzz,yyy" + [','];
    assert "\"aaa\",\"b \r\nbb\",\"ccc\" \r\nzzz,yyy" == "\"aaa\",\"b \r\nbb\",\"ccc\" \r\nzzz," + "yyy";
    assert "\"aaa\",\"b \r\nbb\",\"ccc\" \r\nzzz," == "\"aaa\",\"b \r\nbb\",\"ccc\" \r\nzzz" + [','];
    assert "\"aaa\",\"b \r\nbb\",\"ccc\" \r\nzzz" == "\"aaa\",\"b \r\nbb\",\"ccc\" \r\n" + "zzz";
    assert "\"aaa\",\"b \r\nbb\",\"ccc\" \r\n" == "\"aaa\",\"b \r\nbb\",\"ccc\" " + [CarriageReturn, LineFeed];
  }

  /** `testQuotedFields` (Tests/CSVParserTest.swift:55-69): the delegate receives the two lines. */
  lemma QuotedFieldsVector(p: Policy)
    ensures Rows("\"aaa\",\"b \r\nbb\",\"ccc\" \r\nzzz,yyy,xxx", Configuration(','), p)
            == Ok([["aaa", "b \r\nbb", "ccc"], ["zzz", "yyy", "xxx"]])
  {
    QuotedFieldsVectorInput();
    ConfiguredDelimitersValid(',');
    QuotedFieldsShape("aaa", "b \r\nbb", "ccc", "zzz", "yyy", "xxx", ',', p);
  }

  /** The layout of the texts `QuoteInQuotedFieldsShape` is about. */
  function QuoteInQuotedFieldsLayout(a: string, b: string, c: string, e: string, f: string): Layout
  {
    Delimited(Cell(a + [QuoteChar] + b, Quoted(0)), Delimited(Cell(c, Bare), Delimited(Cell(e, Bare), Last(Cell(f, Bare)))))
  }

  lemma QuoteInQuotedFieldsText(a: string, b: string, c: string, e: string, f: string, d: char)
    requires QuoteChar !in a && QuoteChar !in b
    ensures Text(QuoteInQuotedFieldsLayout(a, b, c, e, f), d) == [QuoteChar] + a + [QuoteChar, QuoteChar] + b + [QuoteChar] + [d] + c + [d] + e + [d] + f
  {
    var l3 := Last(Cell(f, Bare));
    var l2 := Delimited(Cell(e, Bare), l3);
    var l1 := Delimited(Cell(c, Bare), l2);
    var l0 := Delimited(Cell(a + [QuoteChar] + b, Quoted(0)), l1);
    QuotedStart(a);
    QuotedStep(a, [QuoteChar] + a, b);
    assert Text(l0, d) == ((((([QuoteChar] + a) + [QuoteChar, QuoteChar]) + b) + [QuoteChar]) + [d]) + Text(l1, d);
    assert Text(l1, d) == (c + [d]) + Text(l2, d);
    ConcatAssoc([QuoteChar] + a + [QuoteChar, QuoteChar] + b + [QuoteChar] + [d], (c + [d]), Text(l2, d));
    ConcatAssoc([QuoteChar] + a + [QuoteChar, QuoteChar] + b + [QuoteChar] + [d], c, [d]);
    assert Text(l2, d) == (e + [d]) + Text(l3, d);
    ConcatAssoc([QuoteChar] + a + [QuoteChar, QuoteChar] + b + [QuoteChar] + [d] + c + [d], (e + [d]), Text(l3, d));
    ConcatAssoc([QuoteChar] + a + [QuoteChar, QuoteChar] + b + [QuoteChar] + [d] + c + [d], e, [d]);
    assert Text(l3, d) == f;
  }

  lemma QuoteInQuotedFieldsTable(a: string, b: string, c: string, e: string, f: string)
    ensures Table(QuoteInQuotedFieldsLayout(a, b, c, e, f)) == [[a + [QuoteChar] + b, c, e, f]]
  {
    var l3 := Last(Cell(f, Bare));
    var l2 := Delimited(Cell(e, Bare), l3);
    var l1 := Delimited(Cell(c, Bare), l2);
    var l0 := Delimited(Cell(a + [QuoteChar] + b, Quoted(0)), l1);
    assert [a + [QuoteChar] + b, c, e] + [f] == [a + [QuoteChar] + b, c, e, f];
    assert [a + [QuoteChar] + b, c] + [e] == [a + [QuoteChar] + b, c, e];
    assert [a + [QuoteChar] + b] + [c] == [a + [QuoteChar] + b, c];
    assert [] + [a + [QuoteChar] + b] == [a + [QuoteChar] + b];
    assert Grouped([a + [QuoteChar] + b, c, e], l3) == [[a + [QuoteChar] + b, c, e, f]];
    assert Grouped([a + [QuoteChar] + b, c], l2) == [[a + [QuoteChar] + b, c, e, f]];
    assert Grouped([a + [QuoteChar] + b], l1) == [[a + [QuoteChar] + b, c, e, f]];
    assert Grouped([], l0) == [[a + [QuoteChar] + b, c, e, f]];
  }

  lemma QuoteInQuotedFieldsReadable(a: string, b: string, c: string, e: string, f: string, d: char, p: Policy)
    requires ValidDelimiter(d)
    requires !NeedsQuotes(c, d) && !NeedsQuotes(e, d) && !NeedsQuotes(f, d)
    ensures Readable(QuoteInQuotedFieldsLayout(a, b, c, e, f), d, p)
  {
    var l3 := Last(Cell(f, Bare));
    var l2 := Delimited(Cell(e, Bare), l3);
    var l1 := Delimited(Cell(c, Bare), l2);
    var l0 := Delimited(Cell(a + [QuoteChar] + b, Quoted(0)), l1);
    assert WellWritten(l3, d, p);
    assert WellWritten(l2, d, p);
    assert WellWritten(l1, d, p);
    assert WellWritten(l0, d, p);
  }

  /** A quoted field holding doubled quotes, then bare fields, the last one empty: each doubled quote is read as one quote, and a delimiter at the end of the text is followed by one more, empty, field. */
  lemma QuoteInQuotedFieldsShape(a: string, b: string, c: string, e: string, f: string, d: char, p: Policy)
    requires ValidDelimiter(d)
    requires QuoteChar !in a && QuoteChar !in b
    requires !NeedsQuotes(c, d) && !NeedsQuotes(e, d) && !NeedsQuotes(f, d)
    ensures Rows([QuoteChar] + a + [QuoteChar, QuoteChar] + b + [QuoteChar] + [d] + c + [d] + e + [d] + f, Configuration(d), p)
            == Ok([[a + [QuoteChar] + b, c, e, f]])
  {
    QuoteInQuotedFieldsText(a, b, c, e, f, d);
    QuoteInQuotedFieldsTable(a, b, c, e, f);
    QuoteInQuotedFieldsReadable(a, b, c, e, f, d, p);
    ParseText(QuoteInQuotedFieldsLayout(a, b, c, e, f), Configuration(d), p);
  }

  lemma QuoteInQuotedFieldsVectorInput1()
    ensures "\"z\"\"zz\";" == [QuoteChar] + "z" + [QuoteChar, QuoteChar] + "zz" + [QuoteChar] + [';']
  {
    assert "\"z\"\"zz\";" == "\"z\"\"zz\"" + [';'];
    assert "\"z\"\"zz\"" == "\"z\"\"zz" + [QuoteChar];
    assert "\"z\"\"zz" == "\"z\"\"" + "zz";
    assert "\"z\"\"" == "\"z" + [QuoteChar, QuoteChar];
    assert "\"z" == "\"" + "z";
  }

  lemma QuoteInQuotedFieldsVectorInput()
    ensures "\"z\"\"zz\";;xxx;" == [QuoteChar] + "z" + [QuoteChar, QuoteChar] + "zz" + [QuoteChar] + [';'] + "" + [';'] + "xxx" + [';'] + ""
  {
    QuoteInQuotedFieldsVectorInput1();
    assert "\"z\"\"zz\";;xxx;" == "\"z\"\"zz\";;xxx;" + "";
    assert "\"z\"\"zz\";;xxx;" == "\"z\"\"zz\";;xxx" + [';'];
    assert "\"z\"\"zz\";;xxx" == "\"z\"\"zz\";;" + "xxx";
    assert "\"z\"\"zz\";;" == "\"z\"\"zz\";" + [';'];
    assert "\"z\"\"zz\";" == "\"z\"\"zz\";" + "";
  }

  lemma QuoteInQuotedFieldsVectorValue()
    ensures "z\"zz" == "z" + [QuoteChar] + "zz"
  {
    assert "z\"zz" == "z\"" + "zz";
    assert "z\"" == "z" + [QuoteChar];
  }

  /** `testQuoteInQuotedFields` (Tests/CSVParserTest.swift:71-79). */
  lemma QuoteInQuotedFieldsVector(p: Policy)
    ensures Rows("\"z\"\"zz\";;xxx;", Configuration(';'), p)
            == Ok([["z\"zz", "", "xxx", ""]])
  {
    QuoteInQuotedFieldsVectorInput();
    QuoteInQuotedFieldsVectorValue();
    ConfiguredDelimitersValid(';');
    QuoteInQuotedFieldsShape("z", "zz", "", "xxx", "", ';', p);
  }

  /** The layout of the texts `EmptyFieldsShape` is about. */
  function EmptyFieldsLayout(a: string, b: string, c: string, e: string): Layout
  {
    Delimited(Cell(a, Bare), Delimited(Cell(b, Bare), Delimited(Cell(c, Bare), Last(Cell(e, Bare)))))
  }

  lemma EmptyFieldsText(a: string, b: string, c: string, e: string, d: char)
    ensures Text(EmptyFieldsLayout(a, b, c, e), d) == a + [d] + b + [d] + c + [d] + e
  {
    var l3 := Last(Cell(e, Bare));
    var l2 := Delimited(Cell(c, Bare), l3);
    var l1 := Delimited(Cell(b, Bare), l2);
    var l0 := Delimited(Cell(a, Bare), l1);
    assert Text(l0, d) == (a + [d]) + Text(l1, d);
    assert Text(l1, d) == (b + [d]) + Text(l2, d);
    ConcatAssoc(a + [d], (b + [d]), Text(l2, d));
    ConcatAssoc(a + [d], b, [d]);
    assert Text(l2, d) == (c + [d]) + Text(l3, d);
    ConcatAssoc(a + [d] + b + [d], (c + [d]), Text(l3, d));
    ConcatAssoc(a + [d] + b + [d], c, [d]);
    assert Text(l3, d) == e;
  }

  lemma EmptyFieldsTable(a: string, b: string, c: string, e: string)
    ensures Table(EmptyFieldsLayout(a, b, c, e)) == [[a, b, c, e]]
  {
    var l3 := Last(Cell(e, Bare));
    var l2 := Delimited(Cell(c, Bare), l3);
    var l1 := Delimited(Cell(b, Bare), l2);
    var l0 := Delimited(Cell(a, Bare), l1);
    assert [a, b, c] + [e] == [a, b, c, e];
    assert [a, b] + [c] == [a, b, c];
    assert [a] + [b] == [a, b];
    assert [] + [a] == [a];
    assert Grouped([a, b, c], l3) == [[a, b, c, e]];
    assert Grouped([a, b], l2) == [[a, b, c, e]];
    assert Grouped([a], l1) == [[a, b, c, e]];
    assert Grouped([], l0) == [[a, b, c, e]];
  }

  lemma EmptyFieldsReadable(a: string, b: string, c: string, e: string, d: char, p: Policy)
    requires ValidDelimiter(d)
    requires !NeedsQuotes(a, d) && !NeedsQuotes(b, d) && !NeedsQuotes(c, d) && !NeedsQuotes(e, d)
    ensures Readable(EmptyFieldsLayout(a, b, c, e), d, p)
  {
    var l3 := Last(Cell(e, Bare));
    var l2 := Delimited(Cell(c, Bare), l3);
    var l1 := Delimited(Cell(b, Bare), l2);
    var l0 := Delimited(Cell(a, Bare), l1);
    assert WellWritten(l3, d, p);
    assert WellWritten(l2, d, p);
    assert WellWritten(l1, d, p);
    assert WellWritten(l0, d, p);
  }

  /** Bare fields, two of them empty, the last after a delimiter at the end of the text: k delimiters give k + 1 fields, empty ones included. */
  lemma EmptyFieldsShape(a: string, b: string, c: string, e: string, d: char, p: Policy)
    requires ValidDelimiter(d)
    requires !NeedsQuotes(a, d) && !NeedsQuotes(b, d) && !NeedsQuotes(c, d) && !NeedsQuotes(e, d)
    ensures Rows(a + [d] + b + [d] + c + [d] + e, Configuration(d), p)
            == Ok([[a, b, c, e]])
  {
    EmptyFieldsText(a, b, c, e, d);
    EmptyFieldsTable(a, b, c, e);
    EmptyFieldsReadable(a, b, c, e, d, p);
    ParseText(EmptyFieldsLayout(a, b, c, e), Configuration(d), p);
  }

  lemma EmptyFieldsVectorInput1()
    ensures "zzz;;xxx;" == "zzz" + [';'] + "" + [';'] + "xxx" + [';']
  {
    assert "zzz;;xxx;" == "zzz;;xxx" + [';'];
    assert "zzz;;xxx" == "zzz;;" + "xxx";
    assert "zzz;;" == "zzz;" + [';'];
    assert "zzz;" == "zzz;" + "";
    assert "zzz;" == "zzz" + [';'];
  }

  lemma EmptyFieldsVectorInput()
    ensures "zzz;;xxx;" == "zzz" + [';'] + "" + [';'] + "xxx" + [';'] + ""
  {
    EmptyFieldsVectorInput1();
    assert "zzz;;xxx;" == "zzz;;xxx;" + "";
  }

  /** `testEmptyFields` (Tests/CSVParserTest.swift:81-89). */
  lemma EmptyFieldsVector(p: Policy)
    ensures Rows("zzz;;xxx;", Configuration(';'), p)
            == Ok([["zzz", "", "xxx", ""]])
  {
    EmptyFieldsVectorInput();
    ConfiguredDelimitersValid(';');
    EmptyFieldsShape("zzz", "", "xxx", "", ';', p);
  }

  /** The layout of the texts `SemicolonDelimiterShape` is about. */
  function SemicolonDelimiterLayout(a: string, b: string, c: string): Layout
  {
    Delimited(Cell(a, Bare), Delimited(Cell(b, Bare), Last(Cell(c, Bare))))
  }

  lemma SemicolonDelimiterText(a: string, b: string, c: string, d: char)
    ensures Text(SemicolonDelimiterLayout(a, b, c), d) == a + [d] + b + [d] + c
  {
    var l2 := Last(Cell(c, Bare));
    var l1 := Delimited(Cell(b, Bare), l2);
    var l0 := Delimited(Cell(a, Bare), l1);
    assert Text(l0, d) == (a + [d]) + Text(l1, d);
    assert Text(l1, d) == (b + [d]) + Text(l2, d);
    ConcatAssoc(a + [d], (b + [d]), Text(l2, d));
    ConcatAssoc(a + [d], b, [d]);
    assert Text(l2, d) == c;
  }

  lemma SemicolonDelimiterTable(a: string, b: string, c: string)
    ensures Table(SemicolonDelimiterLayout(a, b, c)) == [[a, b, c]]
  {
    var l2 := Last(Cell(c, Bare));
    var l1 := Delimited(Cell(b, Bare), l2);
    var l0 := Delimited(Cell(a, Bare), l1);
    assert [a, b] + [c] == [a, b, c];
    assert [a] + [b] == [a, b];
    assert [] + [a] == [a];
    assert Grouped([a, b], l2) == [[a, b, c]];
    assert Grouped([a], l1) == [[a, b, c]];
    assert Grouped([], l0) == [[a, b, c]];
  }

  lemma SemicolonDelimiterReadable(a: string, b: string, c: string, d: char, p: Policy)
    requires ValidDelimiter(d)
    requires !NeedsQuotes(a, d) && !NeedsQuotes(b, d) && !NeedsQuotes(c, d)
    ensures Readable(SemicolonDelimiterLayout(a, b, c), d, p)
  {
    var l2 := Last(Cell(c, Bare));
    var l1 := Delimited(Cell(b, Bare), l2);
    var l0 := Delimited(Cell(a, Bare), l1);
    assert WellWritten(l2, d, p);
    assert WellWritten(l1, d, p);
    assert WellWritten(l0, d, p);
  }

  /** Three bare fields separated by any valid delimiter, not only a comma. */
  lemma SemicolonDelimiterShape(a: string, b: string, c: string, d: char, p: Policy)
    requires ValidDelimiter(d)
    requires !NeedsQuotes(a, d) && !NeedsQuotes(b, d) && !NeedsQuotes(c, d)
    ensures Rows(a + [d] + b + [d] + c, Configuration(d), p)
            == Ok([[a, b, c]])
  {
    SemicolonDelimiterText(a, b, c, d);
    SemicolonDelimiterTable(a, b, c);
    SemicolonDelimiterReadable(a, b, c, d, p);
    ParseText(SemicolonDelimiterLayout(a, b, c), Configuration(d), p);
  }

  lemma SemicolonDelimiterVectorInput()
    ensures "zzz;yyy;xxx" == "zzz" + [';'] + "yyy" + [';'] + "xxx"
  {
    assert "zzz;yyy;xxx" == "zzz;yyy;" + "xxx";
    assert "zzz;yyy;" == "zzz;yyy" + [';'];
    assert "zzz;yyy" == "zzz;" + "yyy";
    assert "zzz;" == "zzz" + [';'];
  }

  /** `testSemicolonDelimiter` (Tests/CSVParserTest.swift:91-99). */
  lemma SemicolonDelimiterVector(p: Policy)
    ensures Rows("zzz;yyy;xxx", Configuration(';'), p)
            == Ok([["zzz", "yyy", "xxx"]])
  {
    SemicolonDelimiterVectorInput();
    ConfiguredDelimitersValid(';');
    SemicolonDelimiterShape("zzz", "yyy", "xxx", ';', p);
  }

  /** The layout of the texts `CommaInQuotesShape` is about. */
  function CommaInQuotesLayout(a: string, b: string, c: string, e: string, f: string, g: string, h: string, i: string, j: string, k: string): Layout
  {
    Delimited(Cell(a, Bare), Delimited(Cell(b, Bare), Delimited(Cell(c, Bare), Delimited(Cell(e, Bare), Terminated(Cell(f, Bare), Lf, Delimited(Cell(g, Bare), Delimited(Cell(h, Bare), Delimited(Cell(i, Bare), Delimited(Cell(j, Quoted(0)), Last(Cell(k, Bare)))))))))))
  }

  lemma CommaInQuotesText(a: string, b: string, c: string, e: string, f: string, g: string, h: string, i: string, j: string, k: string, d: char)
    requires QuoteChar !in j
    ensures Text(CommaInQuotesLayout(a, b, c, e, f, g, h, i, j, k), d) == a + [d] + b + [d] + c + [d] + e + [d] + f + [LineFeed] + g + [d] + h + [d] + i + [d] + [QuoteChar] + j + [QuoteChar] + [d] + k
  {
    var l9 := Last(Cell(k, Bare));
    var l8 := Delimited(Cell(j, Quoted(0)), l9);
    var l7 := Delimited(Cell(i, Bare), l8);
    var l6 := Delimited(Cell(h, Bare), l7);
    var l5 := Delimited(Cell(g, Bare), l6);
    var l4 := Terminated(Cell(f, Bare), Lf, l5);
    var l3 := Delimited(Cell(e, Bare), l4);
    var l2 := Delimited(Cell(c, Bare), l3);
    var l1 := Delimited(Cell(b, Bare), l2);
    var l0 := Delimited(Cell(a, Bare), l1);
    QuotedText(j);
    assert Text(l0, d) == (a + [d]) + Text(l1, d);
    assert Text(l1, d) == (b + [d]) + Text(l2, d);
    ConcatAssoc(a + [d], (b + [d]), Text(l2, d));
    ConcatAssoc(a + [d], b, [d]);
    assert Text(l2, d) == (c + [d]) + Text(l3, d);
    ConcatAssoc(a + [d] + b + [d], (c + [d]), Text(l3, d));
    ConcatAssoc(a + [d] + b + [d], c, [d]);
    assert Text(l3, d) == (e + [d]) + Text(l4, d);
    ConcatAssoc(a + [d] + b + [d] + c + [d], (e + [d]), Text(l4, d));
    ConcatAssoc(a + [d] + b + [d] + c + [d], e, [d]);
    assert Text(l4, d) == (f + [LineFeed]) + Text(l5, d);
    ConcatAssoc(a + [d] + b + [d] + c + [d] + e + [d], (f + [LineFeed]), Text(l5, d));
    ConcatAssoc(a + [d] + b + [d] + c + [d] + e + [d], f, [LineFeed]);
    assert Text(l5, d) == (g + [d]) + Text(l6, d);
    ConcatAssoc(a + [d] + b + [d] + c + [d] + e + [d] + f + [LineFeed], (g + [d]), Text(l6, d));
    ConcatAssoc(a + [d] + b + [d] + c + [d] + e + [d] + f + [LineFeed], g, [d]);
    assert Text(l6, d) == (h + [d]) + Text(l7, d);
    ConcatAssoc(a + [d] + b + [d] + c + [d] + e + [d] + f + [LineFeed] + g + [d], (h + [d]), Text(l7, d));
    ConcatAssoc(a + [d] + b + [d] + c + [d] + e + [d] + f + [LineFeed] + g + [d], h, [d]);
    assert Text(l7, d) == (i + [d]) + Text(l8, d);
    ConcatAssoc(a + [d] + b + [d] + c + [d] + e + [d] + f + [LineFeed] + g + [d] + h + [d], (i + [d]), Text(l8, d));
    ConcatAssoc(a + [d] + b + [d] + c + [d] + e + [d] + f + [LineFeed] + g + [d] + h + [d], i, [d]);
    assert Text(l8, d) == ((([QuoteChar] + j) + [QuoteChar]) + [d]) + Text(l9, d);
    ConcatAssoc(a + [d] + b + [d] + c + [d] + e + [d] + f + [LineFeed] + g + [d] + h + [d] + i + [d], ((([QuoteChar] + j) + [QuoteChar]) + [d]), Text(l9, d));
    ConcatAssoc(a + [d] + b + [d] + c + [d] + e + [d] + f + [LineFeed] + g + [d] + h + [d] + i + [d], (([QuoteChar] + j) + [QuoteChar]), [d]);
    ConcatAssoc(a + [d] + b + [d] + c + [d] + e + [d] + f + [LineFeed] + g + [d] + h + [d] + i + [d], ([QuoteChar] + j), [QuoteChar]);
    ConcatAssoc(a + [d] + b + [d] + c + [d] + e + [d] + f + [LineFeed] + g + [d] + h + [d] + i + [d], [QuoteChar], j);
    assert Text(l9, d) == k;
  }

  lemma CommaInQuotesTable(a: string, b: string, c: string, e: string, f: string, g: string, h: string, i: string, j: string, k: string)
    ensures Table(CommaInQuotesLayout(a, b, c, e, f, g, h, i, j, k)) == [[a, b, c, e, f], [g, h, i, j, k]]
  {
    var l9 := Last(Cell(k, Bare));
    var l8 := Delimited(Cell(j, Quoted(0)), l9);
    var l7 := Delimited(Cell(i, Bare), l8);
    var l6 := Delimited(Cell(h, Bare), l7);
    var l5 := Delimited(Cell(g, Bare), l6);
    var l4 := Terminated(Cell(f, Bare), Lf, l5);
    var l3 := Delimited(Cell(e, Bare), l4);
    var l2 := Delimited(Cell(c, Bare), l3);
    var l1 := Delimited(Cell(b, Bare), l2);
    var l0 := Delimited(Cell(a, Bare), l1);
    assert [g, h, i, j] + [k] == [g, h, i, j, k];
    assert [g, h, i] + [j] == [g, h, i, j];
    assert [g, h] + [i] == [g, h, i];
    assert [g] + [h] == [g, h];
    assert [] + [g] == [g];
    assert Grouped([g, h, i, j], l9) == [[g, h, i, j, k]];
    assert Grouped([g, h, i], l8) == [[g, h, i, j, k]];
    assert Grouped([g, h], l7) == [[g, h, i, j, k]];
    assert Grouped([g], l6) == [[g, h, i, j, k]];
    assert Grouped([], l5) == [[g, h, i, j, k]];
    assert [a, b, c, e] + [f] == [a, b, c, e, f];
    assert [a, b, c] + [e] == [a, b, c, e];
    assert [a, b] + [c] == [a, b, c];
    assert [a] + [b] == [a, b];
    assert [] + [a] == [a];
    assert Grouped([a, b, c, e], l4) == [[a, b, c, e, f], [g, h, i, j, k]];
    assert Grouped([a, b, c], l3) == [[a, b, c, e, f], [g, h, i, j, k]];
    assert Grouped([a, b], l2) == [[a, b, c, e, f], [g, h, i, j, k]];
    assert Grouped([a], l1) == [[a, b, c, e, f], [g, h, i, j, k]];
    assert Grouped([], l0) == [[a, b, c, e, f], [g, h, i, j, k]];
  }

  lemma CommaInQuotesReadable(a: string, b: string, c: string, e: string, f: string, g: string, h: string, i: string, j: string, k: string, d: char, p: Policy)
    requires ValidDelimiter(d)
    requires !NeedsQuotes(a, d) && !NeedsQuotes(b, d) && !NeedsQuotes(c, d) && !NeedsQuotes(e, d) && !NeedsQuotes(f, d) && !NeedsQuotes(g, d) && !NeedsQuotes(h, d) && !NeedsQuotes(i, d) && !NeedsQuotes(k, d)
    ensures Readable(CommaInQuotesLayout(a, b, c, e, f, g, h, i, j, k), d, p)
  {
    var l9 := Last(Cell(k, Bare));
    var l8 := Delimited(Cell(j, Quoted(0)), l9);
    var l7 := Delimited(Cell(i, Bare), l8);
    var l6 := Delimited(Cell(h, Bare), l7);
    var l5 := Delimited(Cell(g, Bare), l6);
    var l4 := Terminated(Cell(f, Bare), Lf, l5);
    var l3 := Delimited(Cell(e, Bare), l4);
    var l2 := Delimited(Cell(c, Bare), l3);
    var l1 := Delimited(Cell(b, Bare), l2);
    var l0 := Delimited(Cell(a, Bare), l1);
    assert WellWritten(l9, d, p);
    assert WellWritten(l8, d, p);
    assert WellWritten(l7, d, p);
    assert WellWritten(l6, d, p);
    assert WellWritten(l5, d, p);
    assert WellWritten(l4, d, p);
    assert WellWritten(l3, d, p);
    assert WellWritten(l2, d, p);
    assert WellWritten(l1, d, p);
    assert WellWritten(l0, d, p);
  }

  /** Two lines of five fields where one quoted field holds the delimiter: the quoted delimiter does not split its field. */
  lemma CommaInQuotesShape(a: string, b: string, c: string, e: string, f: string, g: string, h: string, i: string, j: string, k: string, d: char, p: Policy)
    requires ValidDelimiter(d)
    requires QuoteChar !in j
    requires !NeedsQuotes(a, d) && !NeedsQuotes(b, d) && !NeedsQuotes(c, d) && !NeedsQuotes(e, d) && !NeedsQuotes(f, d) && !NeedsQuotes(g, d) && !NeedsQuotes(h, d) && !NeedsQuotes(i, d) && !NeedsQuotes(k, d)
    ensures Rows(a + [d] + b + [d] + c + [d] + e + [d] + f + [LineFeed] + g + [d] + h + [d] + i + [d] + [QuoteChar] + j + [QuoteChar] + [d] + k, Configuration(d), p)
            == Ok([[a, b, c, e, f], [g, h, i, j, k]])
  {
    CommaInQuotesText(a, b, c, e, f, g, h, i, j, k, d);
    CommaInQuotesTable(a, b, c, e, f, g, h, i, j, k);
    CommaInQuotesReadable(a, b, c, e, f, g, h, i, j, k, d, p);
    ParseText(CommaInQuotesLayout(a, b, c, e, f, g, h, i, j, k), Configuration(d), p);
  }

  lemma CommaInQuotesVectorInput1()
    ensures "first,last,address," == "first" + [','] + "last" + [','] + "address" + [',']
  {
    assert "first,last,address," == "first,last,address" + [','];
    assert "first,last,address" == "first,last," + "address";
    assert "first,last," == "first,last" + [','];
    assert "first,last" == "first," + "last";
    assert "first," == "first" + [','];
  }

  lemma CommaInQuotesVectorInput2()
    ensures "first,last,address,city,zip\nJohn," == "first" + [','] + "last" + [','] + "address" + [','] + "city" + [','] + "zip" + [LineFeed] + "John" + [',']
  {
    CommaInQuotesVectorInput1();
    assert "first,last,address,city,zip\nJohn," == "first,last,address,city,zip\nJohn" + [','];
    assert "first,last,address,city,zip\nJohn" == "first,last,address,city,zip\n" + "John";
    assert "first,last,address,city,zip\n" == "first,last,address,city,zip" + [LineFeed];
    assert "first,last,address,city,zip" == "first,last,address,city," + "zip";
    assert "first,last,address,city," == "first,last,address,city" + [','];
    assert "first,last,address,city" == "first,last,address," + "city";
  }

  lemma CommaInQuotesVectorInput3()
    ensures "first,last,address,city,zip\nJohn,Doe,120 any st.,\"Anytown, WW" == "first" + [','] + "last" + [','] + "address" + [','] + "city" + [','] + "zip" + [LineFeed] + "John" + [','] + "Doe" + [','] + "120 any st." + [','] + [QuoteChar] + "Anytown, WW"
  {
    CommaInQuotesVectorInput2();
    assert "first,last,address,city,zip\nJohn,Doe,120 any st.,\"Anytown, WW" == "first,last,address,city,zip\nJohn,Doe,120 any st.,\"" + "Anytown, WW";
    assert "first,last,address,city,zip\nJohn,Doe,120 any st.,\"" == "first,last,address,city,zip\nJohn,Doe,120 any st.," + [QuoteChar];
    assert "first,last,address,city,zip\nJohn,Doe,120 any st.," == "first,last,address,city,zip\nJohn,Doe,120 any st." + [','];
    assert "first,last,address,city,zip\nJohn,Doe,120 any st." == "first,last,address,city,zip\nJohn,Doe," + "120 any st.";
    assert "first,last,address,city,zip\nJohn,Doe," == "first,last,address,city,zip\nJohn,Doe" + [','];
    assert "first,last,address,city,zip\nJohn,Doe" == "first,last,address,city,zip\nJohn," + "Doe";
  }

  lemma CommaInQuotesVectorInput()
    ensures "first,last,address,city,zip\nJohn,Doe,120 any st.,\"Anytown, WW\",08123" == "first" + [','] + "last" + [','] + "address" + [','] + "city" + [','] + "zip" + [LineFeed] + "John" + [','] + "Doe" + [','] + "120 any st." + [','] + [QuoteChar] + "Anytown, WW" + [QuoteChar] + [','] + "08123"
  {
    CommaInQuotesVectorInput3();
    assert "first,last,address,city,zip\nJohn,Doe,120 any st.,\"Anytown, WW\",08123" == "first,last,address,city,zip\nJohn,Doe,120 any st.,\"Anytown, WW\"," + "08123";
    assert "first,last,address,city,zip\nJohn,Doe,120 any st.,\"Anytown, WW\"," == "first,last,address,city,zip\nJohn,Doe,120 any st.,\"Anytown, WW\"" + [','];
    assert "first,last,address,city,zip\nJohn,Doe,120 any st.,\"Anytown, WW\"" == "first,last,address,city,zip\nJohn,Doe,120 any st.,\"Anytown, WW" + [QuoteChar];
  }

  lemma CommaInQuotesVectorFields1()
    ensures !NeedsQuotes("first", ',') && !NeedsQuotes("last", ',') && !NeedsQuotes("address", ',')
  {
  }

  lemma CommaInQuotesVectorFields2()
    ensures !NeedsQuotes("city", ',') && !NeedsQuotes("zip", ',') && !NeedsQuotes("John", ',')
  {
  }

  lemma CommaInQuotesVectorFields3()
    ensures !NeedsQuotes("Doe", ',') && !NeedsQuotes("120 any st.", ',') && !NeedsQuotes("08123", ',')
  {
  }

  /** The first text of `testCSVSpectrumFiles` (Tests/CSVParserTest.swift:145). */
  lemma CommaInQuotesVector(p: Policy)
    ensures Rows("first,last,address,city,zip\nJohn,Doe,120 any st.,\"Anytown, WW\",08123", Configuration(','), p)
            == Ok([["first", "last", "address", "city", "zip"], ["John", "Doe", "120 any st.", "Anytown, WW", "08123"]])
  {
    CommaInQuotesVectorInput();
    CommaInQuotesVectorFields1();
    CommaInQuotesVectorFields2();
    CommaInQuotesVectorFields3();
    ConfiguredDelimitersValid(',');
    CommaInQuotesShape("first", "last", "address", "city", "zip", "John", "Doe", "120 any st.", "Anytown, WW", "08123", ',', p);
  }

  /** The layout of the texts `EmptyQuotedShape` is about. */
  function EmptyQuotedLayout(a: string, b: string, c: string, e: string, f: string, g: string, h: string, i: string, j: string): Layout
  {
    Delimited(Cell(a, Bare), Delimited(Cell(b, Bare), Terminated(Cell(c, Bare), Lf, Delimited(Cell(e, Bare), Delimited(Cell(f, Quoted(0)), Terminated(Cell(g, Quoted(0)), Lf, Delimited(Cell(h, Bare), Delimited(Cell(i, Bare), Last(Cell(j, Bare))))))))))
  }

  lemma EmptyQuotedText(a: string, b: string, c: string, e: string, f: string, g: string, h: string, i: string, j: string, d: char)
    requires QuoteChar !in f && QuoteChar !in g
    ensures Text(EmptyQuotedLayout(a, b, c, e, f, g, h, i, j), d) == a + [d] + b + [d] + c + [LineFeed] + e + [d] + [QuoteChar] + f + [QuoteChar] + [d] + [QuoteChar] + g + [QuoteChar] + [LineFeed] + h + [d] + i + [d] + j
  {
    var l8 := Last(Cell(j, Bare));
    var l7 := Delimited(Cell(i, Bare), l8);
    var l6 := Delimited(Cell(h, Bare), l7);
    var l5 := Terminated(Cell(g, Quoted(0)), Lf, l6);
    var l4 := Delimited(Cell(f, Quoted(0)), l5);
    var l3 := Delimited(Cell(e, Bare), l4);
    var l2 := Terminated(Cell(c, Bare), Lf, l3);
    var l1 := Delimited(Cell(b, Bare), l2);
    var l0 := Delimited(Cell(a, Bare), l1);
    QuotedText(f);
    QuotedText(g);
    assert Text(l0, d) == (a + [d]) + Text(l1, d);
    assert Text(l1, d) == (b + [d]) + Text(l2, d);
    ConcatAssoc(a + [d], (b + [d]), Text(l2, d));
    ConcatAssoc(a + [d], b, [d]);
    assert Text(l2, d) == (c + [LineFeed]) + Text(l3, d);
    ConcatAssoc(a + [d] + b + [d], (c + [LineFeed]), Text(l3, d));
    ConcatAssoc(a + [d] + b + [d], c, [LineFeed]);
    assert Text(l3, d) == (e + [d]) + Text(l4, d);
    ConcatAssoc(a + [d] + b + [d] + c + [LineFeed], (e + [d]), Text(l4, d));
    ConcatAssoc(a + [d] + b + [d] + c + [LineFeed], e, [d]);
    assert Text(l4, d) == ((([QuoteChar] + f) + [QuoteChar]) + [d]) + Text(l5, d);
    ConcatAssoc(a + [d] + b + [d] + c + [LineFeed] + e + [d], ((([QuoteChar] + f) + [QuoteChar]) + [d]), Text(l5, d));
    ConcatAssoc(a + [d] + b + [d] + c + [LineFeed] + e + [d], (([QuoteChar] + f) + [QuoteChar]), [d]);
    ConcatAssoc(a + [d] + b + [d] + c + [LineFeed] + e + [d], ([QuoteChar] + f), [QuoteChar]);
    ConcatAssoc(a + [d] + b + [d] + c + [LineFeed] + e + [d], [QuoteChar], f);
    assert Text(l5, d) == ((([QuoteChar] + g) + [QuoteChar]) + [LineFeed]) + Text(l6, d);
    ConcatAssoc(a + [d] + b + [d] + c + [LineFeed] + e + [d] + [QuoteChar] + f + [QuoteChar] + [d], ((([QuoteChar] + g) + [QuoteChar]) + [LineFeed]), Text(l6, d));
    ConcatAssoc(a + [d] + b + [d] + c + [LineFeed] + e + [d] + [QuoteChar] + f + [QuoteChar] + [d], (([QuoteChar] + g) + [QuoteChar]), [LineFeed]);
    ConcatAssoc(a + [d] + b + [d] + c + [LineFeed] + e + [d] + [QuoteChar] + f + [QuoteChar] + [d], ([QuoteChar] + g), [QuoteChar]);
    ConcatAssoc(a + [d] + b + [d] + c + [LineFeed] + e + [d] + [QuoteChar] + f + [QuoteChar] + [d], [QuoteChar], g);
    assert Text(l6, d) == (h + [d]) + Text(l7, d);
    ConcatAssoc(a + [d] + b + [d] + c + [LineFeed] + e + [d] + [QuoteChar] + f + [QuoteChar] + [d] + [QuoteChar] + g + [QuoteChar] + [LineFeed], (h + [d]), Text(l7, d));
    ConcatAssoc(a + [d] + b + [d] + c + [LineFeed] + e + [d] + [QuoteChar] + f + [QuoteChar] + [d] + [QuoteChar] + g + [QuoteChar] + [LineFeed], h, [d]);
    assert Text(l7, d) == (i + [d]) + Text(l8, d);
    ConcatAssoc(a + [d] + b + [d] + c + [LineFeed] + e + [d] + [QuoteChar] + f + [QuoteChar] + [d] + [QuoteChar] + g + [QuoteChar] + [LineFeed] + h + [d], (i + [d]), Text(l8, d));
    ConcatAssoc(a + [d] + b + [d] + c + [LineFeed] + e + [d] + [QuoteChar] + f + [QuoteChar] + [d] + [QuoteChar] + g + [QuoteChar] + [LineFeed] + h + [d], i, [d]);
    assert Text(l8, d) == j;
  }

  lemma EmptyQuotedTable(a: string, b: string, c: string, e: string, f: string, g: string, h: string, i: string, j: string)
    ensures Table(EmptyQuotedLayout(a, b, c, e, f, g, h, i, j)) == [[a, b, c], [e, f, g], [h, i, j]]
  {
    var l8 := Last(Cell(j, Bare));
    var l7 := Delimited(Cell(i, Bare), l8);
    var l6 := Delimited(Cell(h, Bare), l7);
    var l5 := Terminated(Cell(g, Quoted(0)), Lf, l6);
    var l4 := Delimited(Cell(f, Quoted(0)), l5);
    var l3 := Delimited(Cell(e, Bare), l4);
    var l2 := Terminated(Cell(c, Bare), Lf, l3);
    var l1 := Delimited(Cell(b, Bare), l2);
    var l0 := Delimited(Cell(a, Bare), l1);
    assert [h, i] + [j] == [h, i, j];
    assert [h] + [i] == [h, i];
    assert [] + [h] == [h];
    assert Grouped([h, i], l8) == [[h, i, j]];
    assert Grouped([h], l7) == [[h, i, j]];
    assert Grouped([], l6) == [[h, i, j]];
    assert [e, f] + [g] == [e, f, g];
    assert [e] + [f] == [e, f];
    assert [] + [e] == [e];
    assert Grouped([e, f], l5) == [[e, f, g], [h, i, j]];
    assert Grouped([e], l4) == [[e, f, g], [h, i, j]];
    assert Grouped([], l3) == [[e, f, g], [h, i, j]];
    assert [a, b] + [c] == [a, b, c];
    assert [a] + [b] == [a, b];
    assert [] + [a] == [a];
    assert Grouped([a, b], l2) == [[a, b, c], [e, f, g], [h, i, j]];
    assert Grouped([a], l1) == [[a, b, c], [e, f, g], [h, i, j]];
    assert Grouped([], l0) == [[a, b, c], [e, f, g], [h, i, j]];
  }

  lemma EmptyQuotedReadable(a: string, b: string, c: string, e: string, f: string, g: string, h: string, i: string, j: string, d: char, p: Policy)
    requires ValidDelimiter(d)
    requires !NeedsQuotes(a, d) && !NeedsQuotes(b, d) && !NeedsQuotes(c, d) && !NeedsQuotes(e, d) && !NeedsQuotes(h, d) && !NeedsQuotes(i, d) && !NeedsQuotes(j, d)
    ensures Readable(EmptyQuotedLayout(a, b, c, e, f, g, h, i, j), d, p)
  {
    var l8 := Last(Cell(j, Bare));
    var l7 := Delimited(Cell(i, Bare), l8);
    var l6 := Delimited(Cell(h, Bare), l7);
    var l5 := Terminated(Cell(g, Quoted(0)), Lf, l6);
    var l4 := Delimited(Cell(f, Quoted(0)), l5);
    var l3 := Delimited(Cell(e, Bare), l4);
    var l2 := Terminated(Cell(c, Bare), Lf, l3);
    var l1 := Delimited(Cell(b, Bare), l2);
    var l0 := Delimited(Cell(a, Bare), l1);
    assert WellWritten(l8, d, p);
    assert WellWritten(l7, d, p);
    assert WellWritten(l6, d, p);
    assert WellWritten(l5, d, p);
    assert WellWritten(l4, d, p);
    assert WellWritten(l3, d, p);
    assert WellWritten(l2, d, p);
    assert WellWritten(l1, d, p);
    assert WellWritten(l0, d, p);
  }

  /** Three lines of three fields where two fields are an empty pair of quotes: each is read as an empty value. */
  lemma EmptyQuotedShape(a: string, b: string, c: string, e: string, f: string, g: string, h: string, i: string, j: string, d: char, p: Policy)
    requires ValidDelimiter(d)
    requires QuoteChar !in f && QuoteChar !in g
    requires !NeedsQuotes(a, d) && !NeedsQuotes(b, d) && !NeedsQuotes(c, d) && !NeedsQuotes(e, d) && !NeedsQuotes(h, d) && !NeedsQuotes(i, d) && !NeedsQuotes(j, d)
    ensures Rows(a + [d] + b + [d] + c + [LineFeed] + e + [d] + [QuoteChar] + f + [QuoteChar] + [d] + [QuoteChar] + g + [QuoteChar] + [LineFeed] + h + [d] + i + [d] + j, Configuration(d), p)
            == Ok([[a, b, c], [e, f, g], [h, i, j]])
  {
    EmptyQuotedText(a, b, c, e, f, g, h, i, j, d);
    EmptyQuotedTable(a, b, c, e, f, g, h, i, j);
    EmptyQuotedReadable(a, b, c, e, f, g, h, i, j, d, p);
    ParseText(EmptyQuotedLayout(a, b, c, e, f, g, h, i, j), Configuration(d), p);
  }

  lemma EmptyQuotedVectorInput1()
    ensures "a,b,c\n" == "a" + [','] + "b" + [','] + "c" + [LineFeed]
  {
    assert "a,b,c\n" == "a,b,c" + [LineFeed];
    assert "a,b,c" == "a,b," + "c";
    assert "a,b," == "a,b" + [','];
    assert "a,b" == "a," + "b";
    assert "a," == "a" + [','];
  }

  lemma EmptyQuotedVectorInput2()
    ensures "a,b,c\n1,\"\"," == "a" + [','] + "b" + [','] + "c" + [LineFeed] + "1" + [','] + [QuoteChar] + "" + [QuoteChar] + [',']
  {
    EmptyQuotedVectorInput1();
    assert "a,b,c\n1,\"\"," == "a,b,c\n1,\"\"" + [','];
    assert "a,b,c\n1,\"\"" == "a,b,c\n1,\"" + [QuoteChar];
    assert "a,b,c\n1,\"" == "a,b,c\n1,\"" + "";
    assert "a,b,c\n1,\"" == "a,b,c\n1," + [QuoteChar];
    assert "a,b,c\n1," == "a,b,c\n1" + [','];
    assert "a,b,c\n1" == "a,b,c\n" + "1";
  }

  lemma EmptyQuotedVectorInput3()
    ensures "a,b,c\n1,\"\",\"\"\n2," == "a" + [','] + "b" + [','] + "c" + [LineFeed] + "1" + [','] + [QuoteChar] + "" + [QuoteChar] + [','] + [QuoteChar] + "" + [QuoteChar] + [LineFeed] + "2" + [',']
  {
    EmptyQuotedVectorInput2();
    assert "a,b,c\n1,\"\",\"\"\n2," == "a,b,c\n1,\"\",\"\"\n2" + [','];
    assert "a,b,c\n1,\"\",\"\"\n2" == "a,b,c\n1,\"\",\"\"\n" + "2";
    assert "a,b,c\n1,\"\",\"\"\n" == "a,b,c\n1,\"\",\"\"" + [LineFeed];
    assert "a,b,c\n1,\"\",\"\"" == "a,b,c\n1,\"\",\"" + [QuoteChar];
    assert "a,b,c\n1,\"\",\"" == "a,b,c\n1,\"\",\"" + "";
    assert "a,b,c\n1,\"\",\"" == "a,b,c\n1,\"\"," + [QuoteChar];
  }

  lemma EmptyQuotedVectorInput()
    ensures "a,b,c\n1,\"\",\"\"\n2,3,4" == "a" + [','] + "b" + [','] + "c" + [LineFeed] + "1" + [','] + [QuoteChar] + "" + [QuoteChar] + [','] + [QuoteChar] + "" + [QuoteChar] + [LineFeed] + "2" + [','] + "3" + [','] + "4"
  {
    EmptyQuotedVectorInput3();
    assert "a,b,c\n1,\"\",\"\"\n2,3,4" == "a,b,c\n1,\"\",\"\"\n2,3," + "4";
    assert "a,b,c\n1,\"\",\"\"\n2,3," == "a,b,c\n1,\"\",\"\"\n2,3" + [','];
    assert "a,b,c\n1,\"\",\"\"\n2,3" == "a,b,c\n1,\"\",\"\"\n2," + "3";
  }

  /** The second text of `testCSVSpectrumFiles` (Tests/CSVParserTest.swift:146). */
  lemma EmptyQuotedVector(p: Policy)
    ensures Rows("a,b,c\n1,\"\",\"\"\n2,3,4", Configuration(','), p)
            == Ok([["a", "b", "c"], ["1", "", ""], ["2", "3", "4"]])
  {
    EmptyQuotedVectorInput();
    ConfiguredDelimitersValid(',');
    EmptyQuotedShape("a", "b", "c", "1", "", "", "2", "3", "4", ',', p);
  }

  /** The layout of the texts `EscapedQuotesShape` is about. */
  function EscapedQuotesLayout(a: string, b: string, c: string, e: string, f: string, g: string, h: string, i: string): Layout
  {
    Delimited(Cell(a, Bare), Terminated(Cell(b, Bare), Lf, Delimited(Cell(c, Bare), Terminated(Cell(e + [QuoteChar] + f + [QuoteChar] + g, Quoted(0)), Lf, Delimited(Cell(h, Bare), Last(Cell(i, Bare)))))))
  }

  lemma EscapedQuotesText(a: string, b: string, c: string, e: string, f: string, g: string, h: string, i: string, d: char)
    requires QuoteChar !in e && QuoteChar !in f && QuoteChar !in g
    ensures Text(EscapedQuotesLayout(a, b, c, e, f, g, h, i), d) == a + [d] + b + [LineFeed] + c + [d] + [QuoteChar] + e + [QuoteChar, QuoteChar] + f + [QuoteChar, QuoteChar] + g + [QuoteChar] + [LineFeed] + h + [d] + i
  {
    var l5 := Last(Cell(i, Bare));
    var l4 := Delimited(Cell(h, Bare), l5);
    var l3 := Terminated(Cell(e + [QuoteChar] + f + [QuoteChar] + g, Quoted(0)), Lf, l4);
    var l2 := Delimited(Cell(c, Bare), l3);
    var l1 := Terminated(Cell(b, Bare), Lf, l2);
    var l0 := Delimited(Cell(a, Bare), l1);
    QuotedStart(e);
    QuotedStep(e, [QuoteChar] + e, f);
    QuotedStep(e + [QuoteChar] + f, [QuoteChar] + e + [QuoteChar, QuoteChar] + f, g);
    assert Text(l0, d) == (a + [d]) + Text(l1, d);
    assert Text(l1, d) == (b + [LineFeed]) + Text(l2, d);
    ConcatAssoc(a + [d], (b + [LineFeed]), Text(l2, d));
    ConcatAssoc(a + [d], b, [LineFeed]);
    assert Text(l2, d) == (c + [d]) + Text(l3, d);
    ConcatAssoc(a + [d] + b + [LineFeed], (c + [d]), Text(l3, d));
    ConcatAssoc(a + [d] + b + [LineFeed], c, [d]);
    assert Text(l3, d) == ((((((([QuoteChar] + e) + [QuoteChar, QuoteChar]) + f) + [QuoteChar, QuoteChar]) + g) + [QuoteChar]) + [LineFeed]) + Text(l4, d);
    ConcatAssoc(a + [d] + b + [LineFeed] + c + [d], ((((((([QuoteChar] + e) + [QuoteChar, QuoteChar]) + f) + [QuoteChar, QuoteChar]) + g) + [QuoteChar]) + [LineFeed]), Text(l4, d));
    ConcatAssoc(a + [d] + b + [LineFeed] + c + [d], (((((([QuoteChar] + e) + [QuoteChar, QuoteChar]) + f) + [QuoteChar, QuoteChar]) + g) + [QuoteChar]), [LineFeed]);
    ConcatAssoc(a + [d] + b + [LineFeed] + c + [d], ((((([QuoteChar] + e) + [QuoteChar, QuoteChar]) + f) + [QuoteChar, QuoteChar]) + g), [QuoteChar]);
    ConcatAssoc(a + [d] + b + [LineFeed] + c + [d], (((([QuoteChar] + e) + [QuoteChar, QuoteChar]) + f) + [QuoteChar, QuoteChar]), g);
    ConcatAssoc(a + [d] + b + [LineFeed] + c + [d], ((([QuoteChar] + e) + [QuoteChar, QuoteChar]) + f), [QuoteChar, QuoteChar]);
    ConcatAssoc(a + [d] + b + [LineFeed] + c + [d], (([QuoteChar] + e) + [QuoteChar, QuoteChar]), f);
    ConcatAssoc(a + [d] + b + [LineFeed] + c + [d], ([QuoteChar] + e), [QuoteChar, QuoteChar]);
    ConcatAssoc(a + [d] + b + [LineFeed] + c + [d], [QuoteChar], e);
    assert Text(l4, d) == (h + [d]) + Text(l5, d);
    ConcatAssoc(a + [d] + b + [LineFeed] + c + [d] + [QuoteChar] + e + [QuoteChar, QuoteChar] + f + [QuoteChar, QuoteChar] + g + [QuoteChar] + [LineFeed], (h + [d]), Text(l5, d));
    ConcatAssoc(a + [d] + b + [LineFeed] + c + [d] + [QuoteChar] + e + [QuoteChar, QuoteChar] + f + [QuoteChar, QuoteChar] + g + [QuoteChar] + [LineFeed], h, [d]);
    assert Text(l5, d) == i;
  }

  lemma EscapedQuotesTable(a: string, b: string, c: string, e: string, f: string, g: string, h: string, i: string)
    ensures Table(EscapedQuotesLayout(a, b, c, e, f, g, h, i)) == [[a, b], [c, e + [QuoteChar] + f + [QuoteChar] + g], [h, i]]
  {
    var l5 := Last(Cell(i, Bare));
    var l4 := Delimited(Cell(h, Bare), l5);
    var l3 := Terminated(Cell(e + [QuoteChar] + f + [QuoteChar] + g, Quoted(0)), Lf, l4);
    var l2 := Delimited(Cell(c, Bare), l3);
    var l1 := Terminated(Cell(b, Bare), Lf, l2);
    var l0 := Delimited(Cell(a, Bare), l1);
    assert [h] + [i] == [h, i];
    assert [] + [h] == [h];
    assert Grouped([h], l5) == [[h, i]];
    assert Grouped([], l4) == [[h, i]];
    assert [c] + [e + [QuoteChar] + f + [QuoteChar] + g] == [c, e + [QuoteChar] + f + [QuoteChar] + g];
    assert [] + [c] == [c];
    assert Grouped([c], l3) == [[c, e + [QuoteChar] + f + [QuoteChar] + g], [h, i]];
    assert Grouped([], l2) == [[c, e + [QuoteChar] + f + [QuoteChar] + g], [h, i]];
    assert [a] + [b] == [a, b];
    assert [] + [a] == [a];
    assert Grouped([a], l1) == [[a, b], [c, e + [QuoteChar] + f + [QuoteChar] + g], [h, i]];
    assert Grouped([], l0) == [[a, b], [c, e + [QuoteChar] + f + [QuoteChar] + g], [h, i]];
  }

  lemma EscapedQuotesReadable(a: string, b: string, c: string, e: string, f: string, g: string, h: string, i: string, d: char, p: Policy)
    requires ValidDelimiter(d)
    requires !NeedsQuotes(a, d) && !NeedsQuotes(b, d) && !NeedsQuotes(c, d) && !NeedsQuotes(h, d) && !NeedsQuotes(i, d)
    ensures Readable(EscapedQuotesLayout(a, b, c, e, f, g, h, i), d, p)
  {
    var l5 := Last(Cell(i, Bare));
    var l4 := Delimited(Cell(h, Bare), l5);
    var l3 := Terminated(Cell(e + [QuoteChar] + f + [QuoteChar] + g, Quoted(0)), Lf, l4);
    var l2 := Delimited(Cell(c, Bare), l3);
    var l1 := Terminated(Cell(b, Bare), Lf, l2);
    var l0 := Delimited(Cell(a, Bare), l1);
    assert WellWritten(l5, d, p);
    assert WellWritten(l4, d, p);
    assert WellWritten(l3, d, p);
    assert WellWritten(l2, d, p);
    assert WellWritten(l1, d, p);
    assert WellWritten(l0, d, p);
  }

  /** Three lines of two fields where one quoted field holds doubled quotes: they are read as single quotes. */
  lemma EscapedQuotesShape(a: string, b: string, c: string, e: string, f: string, g: string, h: string, i: string, d: char, p: Policy)
    requires ValidDelimiter(d)
    requires QuoteChar !in e && QuoteChar !in f && QuoteChar !in g
    requires !NeedsQuotes(a, d) && !NeedsQuotes(b, d) && !NeedsQuotes(c, d) && !NeedsQuotes(h, d) && !NeedsQuotes(i, d)
    ensures Rows(a + [d] + b + [LineFeed] + c + [d] + [QuoteChar] + e + [QuoteChar, QuoteChar] + f + [QuoteChar, QuoteChar] + g + [QuoteChar] + [LineFeed] + h + [d] + i, Configuration(d), p)
            == Ok([[a, b], [c, e + [QuoteChar] + f + [QuoteChar] + g], [h, i]])
  {
    EscapedQuotesText(a, b, c, e, f, g, h, i, d);
    EscapedQuotesTable(a, b, c, e, f, g, h, i);
    EscapedQuotesReadable(a, b, c, e, f, g, h, i, d, p);
    ParseText(EscapedQuotesLayout(a, b, c, e, f, g, h, i), Configuration(d), p);
  }

  lemma EscapedQuotesVectorInput1()
    ensures "a,b\n1," == "a" + [','] + "b" + [LineFeed] + "1" + [',']
  {
    assert "a,b\n1," == "a,b\n1" + [','];
    assert "a,b\n1" == "a,b\n" + "1";
    assert "a,b\n" == "a,b" + [LineFeed];
    assert "a,b" == "a," + "b";
    assert "a," == "a" + [','];
  }

  lemma EscapedQuotesVectorInput2()
    ensures "a,b\n1,\"ha \"\"ha\"\" ha" == "a" + [','] + "b" + [LineFeed] + "1" + [','] + [QuoteChar] + "ha " + [QuoteChar, QuoteChar] + "ha" + [QuoteChar, QuoteChar] + " ha"
  {
    EscapedQuotesVectorInput1();
    assert "a,b\n1,\"ha \"\"ha\"\" ha" == "a,b\n1,\"ha \"\"ha\"\"" + " ha";
    assert "a,b\n1,\"ha \"\"ha\"\"" == "a,b\n1,\"ha \"\"ha" + [QuoteChar, QuoteChar];
    assert "a,b\n1,\"ha \"\"ha" == "a,b\n1,\"ha \"\"" + "ha";
    assert "a,b\n1,\"ha \"\"" == "a,b\n1,\"ha " + [QuoteChar, QuoteChar];
    assert "a,b\n1,\"ha " == "a,b\n1,\"" + "ha ";
    assert "a,b\n1,\"" == "a,b\n1," + [QuoteChar];
  }

  lemma EscapedQuotesVectorInput()
    ensures "a,b\n1,\"ha \"\"ha\"\" ha\"\n3,4" == "a" + [','] + "b" + [LineFeed] + "1" + [','] + [QuoteChar] + "ha " + [QuoteChar, QuoteChar] + "ha" + [QuoteChar, QuoteChar] + " ha" + [QuoteChar] + [LineFeed] + "3" + [','] + "4"
  {
    EscapedQuotesVectorInput2();
    assert "a,b\n1,\"ha \"\"ha\"\" ha\"\n3,4" == "a,b\n1,\"ha \"\"ha\"\" ha\"\n3," + "4";
    assert "a,b\n1,\"ha \"\"ha\"\" ha\"\n3," == "a,b\n1,\"ha \"\"ha\"\" ha\"\n3" + [','];
    assert "a,b\n1,\"ha \"\"ha\"\" ha\"\n3" == "a,b\n1,\"ha \"\"ha\"\" ha\"\n" + "3";
    assert "a,b\n1,\"ha \"\"ha\"\" ha\"\n" == "a,b\n1,\"ha \"\"ha\"\" ha\"" + [LineFeed];
    assert "a,b\n1,\"ha \"\"ha\"\" ha\"" == "a,b\n1,\"ha \"\"ha\"\" ha" + [QuoteChar];
  }

  lemma EscapedQuotesVectorValue()
    ensures "ha \"ha\" ha" == "ha " + [QuoteChar] + "ha" + [QuoteChar] + " ha"
  {
    assert "ha \"ha\" ha" == "ha \"ha\"" + " ha";
    assert "ha \"ha\"" == "ha \"ha" + [QuoteChar];
    assert "ha \"ha" == "ha \"" + "ha";
    assert "ha \"" == "ha " + [QuoteChar];
  }

  /** The third text of `testCSVSpectrumFiles` (Tests/CSVParserTest.swift:147). */
  lemma EscapedQuotesVector(p: Policy)
    ensures Rows("a,b\n1,\"ha \"\"ha\"\" ha\"\n3,4", Configuration(','), p)
            == Ok([["a", "b"], ["1", "ha \"ha\" ha"], ["3", "4"]])
  {
    EscapedQuotesVectorInput();
    EscapedQuotesVectorValue();
    ConfiguredDelimitersValid(',');
    EscapedQuotesShape("a", "b", "1", "ha ", "ha", " ha", "3", "4", ',', p);
  }

  /** The layout of the texts `JsonShape` is about. */
  function JsonLayout(a: string, b: string, c: string, e: string, f: string, g: string, h: string, i: string, j: string, k: string): Layout
  {
    Delimited(Cell(a, Bare), Terminated(Cell(b, Bare), Lf, Delimited(Cell(c, Bare), Last(Cell(e + [QuoteChar] + f + [QuoteChar] + g + [QuoteChar] + h + [QuoteChar] + i + [QuoteChar] + j + [QuoteChar] + k, Quoted(0))))))
  }

  lemma JsonText(a: string, b: string, c: string, e: string, f: string, g: string, h: string, i: string, j: string, k: string, d: char)
    requires QuoteChar !in e && QuoteChar !in f && QuoteChar !in g && QuoteChar !in h && QuoteChar !in i && QuoteChar !in j && QuoteChar !in k
    ensures Text(JsonLayout(a, b, c, e, f, g, h, i, j, k), d) == a + [d] + b + [LineFeed] + c + [d] + [QuoteChar] + e + [QuoteChar, QuoteChar] + f + [QuoteChar, QuoteChar] + g + [QuoteChar, QuoteChar] + h + [QuoteChar, QuoteChar] + i + [QuoteChar, QuoteChar] + j + [QuoteChar, QuoteChar] + k + [QuoteChar]
  {
    var l3 := Last(Cell(e + [QuoteChar] + f + [QuoteChar] + g + [QuoteChar] + h + [QuoteChar] + i + [QuoteChar] + j + [QuoteChar] + k, Quoted(0)));
    var l2 := Delimited(Cell(c, Bare), l3);
    var l1 := Terminated(Cell(b, Bare), Lf, l2);
    var l0 := Delimited(Cell(a, Bare), l1);
    QuotedStart(e);
    QuotedStep(e, [QuoteChar] + e, f);
    QuotedStep(e + [QuoteChar] + f, [QuoteChar] + e + [QuoteChar, QuoteChar] + f, g);
    QuotedStep(e + [QuoteChar] + f + [QuoteChar] + g, [QuoteChar] + e + [QuoteChar, QuoteChar] + f + [QuoteChar, QuoteChar] + g, h);
    QuotedStep(e + [QuoteChar] + f + [QuoteChar] + g + [QuoteChar] + h, [QuoteChar] + e + [QuoteChar, QuoteChar] + f + [QuoteChar, QuoteChar] + g + [QuoteChar, QuoteChar] + h, i);
    QuotedStep(e + [QuoteChar] + f + [QuoteChar] + g + [QuoteChar] + h + [QuoteChar] + i, [QuoteChar] + e + [QuoteChar, QuoteChar] + f + [QuoteChar, QuoteChar] + g + [QuoteChar, QuoteChar] + h + [QuoteChar, QuoteChar] + i, j);
    QuotedStep(e + [QuoteChar] + f + [QuoteChar] + g + [QuoteChar] + h + [QuoteChar] + i + [QuoteChar] + j, [QuoteChar] + e + [QuoteChar, QuoteChar] + f + [QuoteChar, QuoteChar] + g + [QuoteChar, QuoteChar] + h + [QuoteChar, QuoteChar] + i + [QuoteChar, QuoteChar] + j, k);
    assert Text(l0, d) == (a + [d]) + Text(l1, d);
    assert Text(l1, d) == (b + [LineFeed]) + Text(l2, d);
    ConcatAssoc(a + [d], (b + [LineFeed]), Text(l2, d));
    ConcatAssoc(a + [d], b, [LineFeed]);
    assert Text(l2, d) == (c + [d]) + Text(l3, d);
    ConcatAssoc(a + [d] + b + [LineFeed], (c + [d]), Text(l3, d));
    ConcatAssoc(a + [d] + b + [LineFeed], c, [d]);
    assert Text(l3, d) == (((((((((((((([QuoteChar] + e) + [QuoteChar, QuoteChar]) + f) + [QuoteChar, QuoteChar]) + g) + [QuoteChar, QuoteChar]) + h) + [QuoteChar, QuoteChar]) + i) + [QuoteChar, QuoteChar]) + j) + [QuoteChar, QuoteChar]) + k) + [QuoteChar]);
    ConcatAssoc(a + [d] + b + [LineFeed] + c + [d], ((((((((((((([QuoteChar] + e) + [QuoteChar, QuoteChar]) + f) + [QuoteChar, QuoteChar]) + g) + [QuoteChar, QuoteChar]) + h) + [QuoteChar, QuoteChar]) + i) + [QuoteChar, QuoteChar]) + j) + [QuoteChar, QuoteChar]) + k), [QuoteChar]);
    ConcatAssoc(a + [d] + b + [LineFeed] + c + [d], (((((((((((([QuoteChar] + e) + [QuoteChar, QuoteChar]) + f) + [QuoteChar, QuoteChar]) + g) + [QuoteChar, QuoteChar]) + h) + [QuoteChar, QuoteChar]) + i) + [QuoteChar, QuoteChar]) + j) + [QuoteChar, QuoteChar]), k);
    ConcatAssoc(a + [d] + b + [LineFeed] + c + [d], ((((((((((([QuoteChar] + e) + [QuoteChar, QuoteChar]) + f) + [QuoteChar, QuoteChar]) + g) + [QuoteChar, QuoteChar]) + h) + [QuoteChar, QuoteChar]) + i) + [QuoteChar, QuoteChar]) + j), [QuoteChar, QuoteChar]);
    ConcatAssoc(a + [d] + b + [LineFeed] + c + [d], (((((((((([QuoteChar] + e) + [QuoteChar, QuoteChar]) + f) + [QuoteChar, QuoteChar]) + g) + [QuoteChar, QuoteChar]) + h) + [QuoteChar, QuoteChar]) + i) + [QuoteChar, QuoteChar]), j);
    ConcatAssoc(a + [d] + b + [LineFeed] + c + [d], ((((((((([QuoteChar] + e) + [QuoteChar, QuoteChar]) + f) + [QuoteChar, QuoteChar]) + g) + [QuoteChar, QuoteChar]) + h) + [QuoteChar, QuoteChar]) + i), [QuoteChar, QuoteChar]);
    ConcatAssoc(a + [d] + b + [LineFeed] + c + [d], (((((((([QuoteChar] + e) + [QuoteChar, QuoteChar]) + f) + [QuoteChar, QuoteChar]) + g) + [QuoteChar, QuoteChar]) + h) + [QuoteChar, QuoteChar]), i);
    ConcatAssoc(a + [d] + b + [LineFeed] + c + [d], ((((((([QuoteChar] + e) + [QuoteChar, QuoteChar]) + f) + [QuoteChar, QuoteChar]) + g) + [QuoteChar, QuoteChar]) + h), [QuoteChar, QuoteChar]);
    ConcatAssoc(a + [d] + b + [LineFeed] + c + [d], (((((([QuoteChar] + e) + [QuoteChar, QuoteChar]) + f) + [QuoteChar, QuoteChar]) + g) + [QuoteChar, QuoteChar]), h);
    ConcatAssoc(a + [d] + b + [LineFeed] + c + [d], ((((([QuoteChar] + e) + [QuoteChar, QuoteChar]) + f) + [QuoteChar, QuoteChar]) + g), [QuoteChar, QuoteChar]);
    ConcatAssoc(a + [d] + b + [LineFeed] + c + [d], (((([QuoteChar] + e) + [QuoteChar, QuoteChar]) + f) + [QuoteChar, QuoteChar]), g);
    ConcatAssoc(a + [d] + b + [LineFeed] + c + [d], ((([QuoteChar] + e) + [QuoteChar, QuoteChar]) + f), [QuoteChar, QuoteChar]);
    ConcatAssoc(a + [d] + b + [LineFeed] + c + [d], (([QuoteChar] + e) + [QuoteChar, QuoteChar]), f);
    ConcatAssoc(a + [d] + b + [LineFeed] + c + [d], ([QuoteChar] + e), [QuoteChar, QuoteChar]);
    ConcatAssoc(a + [d] + b + [LineFeed] + c + [d], [QuoteChar], e);
  }

  lemma JsonTable(a: string, b: string, c: string, e: string, f: string, g: string, h: string, i: string, j: string, k: string)
    ensures Table(JsonLayout(a, b, c, e, f, g, h, i, j, k)) == [[a, b], [c, e + [QuoteChar] + f + [QuoteChar] + g + [QuoteChar] + h + [QuoteChar] + i + [QuoteChar] + j + [QuoteChar] + k]]
  {
    var l3 := Last(Cell(e + [QuoteChar] + f + [QuoteChar] + g + [QuoteChar] + h + [QuoteChar] + i + [QuoteChar] + j + [QuoteChar] + k, Quoted(0)));
    var l2 := Delimited(Cell(c, Bare), l3);
    var l1 := Terminated(Cell(b, Bare), Lf, l2);
    var l0 := Delimited(Cell(a, Bare), l1);
    assert [c] + [e + [QuoteChar] + f + [QuoteChar] + g + [QuoteChar] + h + [QuoteChar] + i + [QuoteChar] + j + [QuoteChar] + k] == [c, e + [QuoteChar] + f + [QuoteChar] + g + [QuoteChar] + h + [QuoteChar] + i + [QuoteChar] + j + [QuoteChar] + k];
    assert [] + [c] == [c];
    assert Grouped([c], l3) == [[c, e + [QuoteChar] + f + [QuoteChar] + g + [QuoteChar] + h + [QuoteChar] + i + [QuoteChar] + j + [QuoteChar] + k]];
    assert Grouped([], l2) == [[c, e + [QuoteChar] + f + [QuoteChar] + g + [QuoteChar] + h + [QuoteChar] + i + [QuoteChar] + j + [QuoteChar] + k]];
    assert [a] + [b] == [a, b];
    assert [] + [a] == [a];
    assert Grouped([a], l1) == [[a, b], [c, e + [QuoteChar] + f + [QuoteChar] + g + [QuoteChar] + h + [QuoteChar] + i + [QuoteChar] + j + [QuoteChar] + k]];
    assert Grouped([], l0) == [[a, b], [c, e + [QuoteChar] + f + [QuoteChar] + g + [QuoteChar] + h + [QuoteChar] + i + [QuoteChar] + j + [QuoteChar] + k]];
  }

  lemma JsonReadable(a: string, b: string, c: string, e: string, f: string, g: string, h: string, i: string, j: string, k: string, d: char, p: Policy)
    requires ValidDelimiter(d)
    requires !NeedsQuotes(a, d) && !NeedsQuotes(b, d) && !NeedsQuotes(c, d)
    ensures Readable(JsonLayout(a, b, c, e, f, g, h, i, j, k), d, p)
  {
    var l3 := Last(Cell(e + [QuoteChar] + f + [QuoteChar] + g + [QuoteChar] + h + [QuoteChar] + i + [QuoteChar] + j + [QuoteChar] + k, Quoted(0)));
    var l2 := Delimited(Cell(c, Bare), l3);
    var l1 := Terminated(Cell(b, Bare), Lf, l2);
    var l0 := Delimited(Cell(a, Bare), l1);
    assert WellWritten(l3, d, p);
    assert WellWritten(l2, d, p);
    assert WellWritten(l1, d, p);
    assert WellWritten(l0, d, p);
  }

  /** Two lines of two fields where the last field is quoted and holds six doubled quotes. */
  lemma JsonShape(a: string, b: string, c: string, e: string, f: string, g: string, h: string, i: string, j: string, k: string, d: char, p: Policy)
    requires ValidDelimiter(d)
    requires QuoteChar !in e && QuoteChar !in f && QuoteChar !in g && QuoteChar !in h && QuoteChar !in i && QuoteChar !in j && QuoteChar !in k
    requires !NeedsQuotes(a, d) && !NeedsQuotes(b, d) && !NeedsQuotes(c, d)
    ensures Rows(a + [d] + b + [LineFeed] + c + [d] + [QuoteChar] + e + [QuoteChar, QuoteChar] + f + [QuoteChar, QuoteChar] + g + [QuoteChar, QuoteChar] + h + [QuoteChar, QuoteChar] + i + [QuoteChar, QuoteChar] + j + [QuoteChar, QuoteChar] + k + [QuoteChar], Configuration(d), p)
            == Ok([[a, b], [c, e + [QuoteChar] + f + [QuoteChar] + g + [QuoteChar] + h + [QuoteChar] + i + [QuoteChar] + j + [QuoteChar] + k]])
  {
    JsonText(a, b, c, e, f, g, h, i, j, k, d);
    JsonTable(a, b, c, e, f, g, h, i, j, k);
    JsonReadable(a, b, c, e, f, g, h, i, j, k, d, p);
    ParseText(JsonLayout(a, b, c, e, f, g, h, i, j, k), Configuration(d), p);
  }

  lemma JsonVectorInput1()
    ensures "key,val\n1," == "key" + [','] + "val" + [LineFeed] + "1" + [',']
  {
    assert "key,val\n1," == "key,val\n1" + [','];
    assert "key,val\n1" == "key,val\n" + "1";
    assert "key,val\n" == "key,val" + [LineFeed];
    assert "key,val" == "key," + "val";
    assert "key," == "key" + [','];
  }

  lemma JsonVectorInput2()
    ensures "key,val\n1,\"{\"\"type\"\": " == "key" + [','] + "val" + [LineFeed] + "1" + [','] + [QuoteChar] + "{" + [QuoteChar, QuoteChar] + "type" + [QuoteChar, QuoteChar] + ": "
  {
    JsonVectorInput1();
    assert "key,val\n1,\"{\"\"type\"\": " == "key,val\n1,\"{\"\"type\"\"" + ": ";
    assert "key,val\n1,\"{\"\"type\"\"" == "key,val\n1,\"{\"\"type" + [QuoteChar, QuoteChar];
    assert "key,val\n1,\"{\"\"type" == "key,val\n1,\"{\"\"" + "type";
    assert "key,val\n1,\"{\"\"" == "key,val\n1,\"{" + [QuoteChar, QuoteChar];
    assert "key,val\n1,\"{" == "key,val\n1,\"" + "{";
    assert "key,val\n1,\"" == "key,val\n1," + [QuoteChar];
  }

  lemma JsonVectorInput3()
    ensures "key,val\n1,\"{\"\"type\"\": \"\"Point\"\", \"\"coordinates" == "key" + [','] + "val" + [LineFeed] + "1" + [','] + [QuoteChar] + "{" + [QuoteChar, QuoteChar] + "type" + [QuoteChar, QuoteChar] + ": " + [QuoteChar, QuoteChar] + "Point" + [QuoteChar, QuoteChar] + ", " + [QuoteChar, QuoteChar] + "coordinates"
  {
    JsonVectorInput2();
    assert "key,val\n1,\"{\"\"type\"\": \"\"Point\"\", \"\"coordinates" == "key,val\n1,\"{\"\"type\"\": \"\"Point\"\", \"\"" + "coordinates";
    assert "key,val\n1,\"{\"\"type\"\": \"\"Point\"\", \"\"" == "key,val\n1,\"{\"\"type\"\": \"\"Point\"\", " + [QuoteChar, QuoteChar];
    assert "key,val\n1,\"{\"\"type\"\": \"\"Point\"\", " == "key,val\n1,\"{\"\"type\"\": \"\"Point\"\"" + ", ";
    assert "key,val\n1,\"{\"\"type\"\": \"\"Point\"\"" == "key,val\n1,\"{\"\"type\"\": \"\"Point" + [QuoteChar, QuoteChar];
    assert "key,val\n1,\"{\"\"type\"\": \"\"Point" == "key,val\n1,\"{\"\"type\"\": \"\"" + "Point";
    assert "key,val\n1,\"{\"\"type\"\": \"\"" == "key,val\n1,\"{\"\"type\"\": " + [QuoteChar, QuoteChar];
  }

  lemma JsonVectorInput()
    ensures "key,val\n1,\"{\"\"type\"\": \"\"Point\"\", \"\"coordinates\"\": [102.0, 0.5]}\"" == "key" + [','] + "val" + [LineFeed] + "1" + [','] + [QuoteChar] + "{" + [QuoteChar, QuoteChar] + "type" + [QuoteChar, QuoteChar] + ": " + [QuoteChar, QuoteChar] + "Point" + [QuoteChar, QuoteChar] + ", " + [QuoteChar, QuoteChar] + "coordinates" + [QuoteChar, QuoteChar] + ": [102.0, 0.5]}" + [QuoteChar]
  {
    JsonVectorInput3();
    assert "key,val\n1,\"{\"\"type\"\": \"\"Point\"\", \"\"coordinates\"\": [102.0, 0.5]}\"" == "key,val\n1,\"{\"\"type\"\": \"\"Point\"\", \"\"coordinates\"\": [102.0, 0.5]}" + [QuoteChar];
    assert "key,val\n1,\"{\"\"type\"\": \"\"Point\"\", \"\"coordinates\"\": [102.0, 0.5]}" == "key,val\n1,\"{\"\"type\"\": \"\"Point\"\", \"\"coordinates\"\"" + ": [102.0, 0.5]}";
    assert "key,val\n1,\"{\"\"type\"\": \"\"Point\"\", \"\"coordinates\"\"" == "key,val\n1,\"{\"\"type\"\": \"\"Point\"\", \"\"coordinates" + [QuoteChar, QuoteChar];
  }

  lemma JsonVectorValue1()
    ensures "{\"type\": \"" == "{" + [QuoteChar] + "type" + [QuoteChar] + ": " + [QuoteChar]
  {
    assert "{\"type\": \"" == "{\"type\": " + [QuoteChar];
    assert "{\"type\": " == "{\"type\"" + ": ";
    assert "{\"type\"" == "{\"type" + [QuoteChar];
    assert "{\"type" == "{\"" + "type";
    assert "{\"" == "{" + [QuoteChar];
  }

  lemma JsonVectorValue2()
    ensures "{\"type\": \"Point\", \"coordinates\"" == "{" + [QuoteChar] + "type" + [QuoteChar] + ": " + [QuoteChar] + "Point" + [QuoteChar] + ", " + [QuoteChar] + "coordinates" + [QuoteChar]
  {
    JsonVectorValue1();
    assert "{\"type\": \"Point\", \"coordinates\"" == "{\"type\": \"Point\", \"coordinates" + [QuoteChar];
    assert "{\"type\": \"Point\", \"coordinates" == "{\"type\": \"Point\", \"" + "coordinates";
    assert "{\"type\": \"Point\", \"" == "{\"type\": \"Point\", " + [QuoteChar];
    assert "{\"type\": \"Point\", " == "{\"type\": \"Point\"" + ", ";
    assert "{\"type\": \"Point\"" == "{\"type\": \"Point" + [QuoteChar];
    assert "{\"type\": \"Point" == "{\"type\": \"" + "Point";
  }

  lemma JsonVectorValue()
    ensures "{\"type\": \"Point\", \"coordinates\": [102.0, 0.5]}" == "{" + [QuoteChar] + "type" + [QuoteChar] + ": " + [QuoteChar] + "Point" + [QuoteChar] + ", " + [QuoteChar] + "coordinates" + [QuoteChar] + ": [102.0, 0.5]}"
  {
    JsonVectorValue2();
    assert "{\"type\": \"Point\", \"coordinates\": [102.0, 0.5]}" == "{\"type\": \"Point\", \"coordinates\"" + ": [102.0, 0.5]}";
  }

  /** The fourth text of `testCSVSpectrumFiles` (Tests/CSVParserTest.swift:148), a JSON object in a field. */
  lemma JsonVector(p: Policy)
    ensures Rows("key,val\n1,\"{\"\"type\"\": \"\"Point\"\", \"\"coordinates\"\": [102.0, 0.5]}\"", Configuration(','), p)
            == Ok([["key", "val"], ["1", "{\"type\": \"Point\", \"coordinates\": [102.0, 0.5]}"]])
  {
    JsonVectorInput();
    JsonVectorValue();
    ConfiguredDelimitersValid(',');
    JsonShape("key", "val", "1", "{", "type", ": ", "Point", ", ", "coordinates", ": [102.0, 0.5]}", ',', p);
  }

  /** The layout of the texts `NewlinesShape` is about. */
  function NewlinesLayout(a: string, b: string, c: string, e: string, f: string, g: string, h: string, i: string, j: string, k: string, m: string, n: string): Layout
  {
    Delimited(Cell(a, Bare), Delimited(Cell(b, Bare), Terminated(Cell(c, Bare), Lf, Delimited(Cell(e, Bare), Delimited(Cell(f, Bare), Terminated(Cell(g, Bare), Lf, Delimited(Cell(h, Quoted(0)), Delimited(Cell(i, Bare), Terminated(Cell(j, Bare), Lf, Delimited(Cell(k, Bare), Delimited(Cell(m, Bare), Last(Cell(n, Bare)))))))))))))
  }

  lemma NewlinesText(a: string, b: string, c: string, e: string, f: string, g: string, h: string, i: string, j: string, k: string, m: string, n: string, d: char)
    requires QuoteChar !in h
    ensures Text(NewlinesLayout(a, b, c, e, f, g, h, i, j, k, m, n), d) == a + [d] + b + [d] + c + [LineFeed] + e + [d] + f + [d] + g + [LineFeed] + [QuoteChar] + h + [QuoteChar] + [d] + i + [d] + j + [LineFeed] + k + [d] + m + [d] + n
  {
    var l11 := Last(Cell(n, Bare));
    var l10 := Delimited(Cell(m, Bare), l11);
    var l9 := Delimited(Cell(k, Bare), l10);
    var l8 := Terminated(Cell(j, Bare), Lf, l9);
    var l7 := Delimited(Cell(i, Bare), l8);
    var l6 := Delimited(Cell(h, Quoted(0)), l7);
    var l5 := Terminated(Cell(g, Bare), Lf, l6);
    var l4 := Delimited(Cell(f, Bare), l5);
    var l3 := Delimited(Cell(e, Bare), l4);
    var l2 := Terminated(Cell(c, Bare), Lf, l3);
    var l1 := Delimited(Cell(b, Bare), l2);
    var l0 := Delimited(Cell(a, Bare), l1);
    QuotedText(h);
    assert Text(l0, d) == (a + [d]) + Text(l1, d);
    assert Text(l1, d) == (b + [d]) + Text(l2, d);
    ConcatAssoc(a + [d], (b + [d]), Text(l2, d));
    ConcatAssoc(a + [d], b, [d]);
    assert Text(l2, d) == (c + [LineFeed]) + Text(l3, d);
    ConcatAssoc(a + [d] + b + [d], (c + [LineFeed]), Text(l3, d));
    ConcatAssoc(a + [d] + b + [d], c, [LineFeed]);
    assert Text(l3, d) == (e + [d]) + Text(l4, d);
    ConcatAssoc(a + [d] + b + [d] + c + [LineFeed], (e + [d]), Text(l4, d));
    ConcatAssoc(a + [d] + b + [d] + c + [LineFeed], e, [d]);
    assert Text(l4, d) == (f + [d]) + Text(l5, d);
    ConcatAssoc(a + [d] + b + [d] + c + [LineFeed] + e + [d], (f + [d]), Text(l5, d));
    ConcatAssoc(a + [d] + b + [d] + c + [LineFeed] + e + [d], f, [d]);
    assert Text(l5, d) == (g + [LineFeed]) + Text(l6, d);
    ConcatAssoc(a + [d] + b + [d] + c + [LineFeed] + e + [d] + f + [d], (g + [LineFeed]), Text(l6, d));
    ConcatAssoc(a + [d] + b + [d] + c + [LineFeed] + e + [d] + f + [d], g, [LineFeed]);
    assert Text(l6, d) == ((([QuoteChar] + h) + [QuoteChar]) + [d]) + Text(l7, d);
    ConcatAssoc(a + [d] + b + [d] + c + [LineFeed] + e + [d] + f + [d] + g + [LineFeed], ((([QuoteChar] + h) + [QuoteChar]) + [d]), Text(l7, d));
    ConcatAssoc(a + [d] + b + [d] + c + [LineFeed] + e + [d] + f + [d] + g + [LineFeed], (([QuoteChar] + h) + [QuoteChar]), [d]);
    ConcatAssoc(a + [d] + b + [d] + c + [LineFeed] + e + [d] + f + [d] + g + [LineFeed], ([QuoteChar] + h), [QuoteChar]);
    ConcatAssoc(a + [d] + b + [d] + c + [LineFeed] + e + [d] + f + [d] + g + [LineFeed], [QuoteChar], h);
    assert Text(l7, d) == (i + [d]) + Text(l8, d);
    ConcatAssoc(a + [d] + b + [d] + c + [LineFeed] + e + [d] + f + [d] + g + [LineFeed] + [QuoteChar] + h + [QuoteChar] + [d], (i + [d]), Text(l8, d));
    ConcatAssoc(a + [d] + b + [d] + c + [LineFeed] + e + [d] + f + [d] + g + [LineFeed] + [QuoteChar] + h + [QuoteChar] + [d], i, [d]);
    assert Text(l8, d) == (j + [LineFeed]) + Text(l9, d);
    ConcatAssoc(a + [d] + b + [d] + c + [LineFeed] + e + [d] + f + [d] + g + [LineFeed] + [QuoteChar] + h + [QuoteChar] + [d] + i + [d], (j + [LineFeed]), Text(l9, d));
    ConcatAssoc(a + [d] + b + [d] + c + [LineFeed] + e + [d] + f + [d] + g + [LineFeed] + [QuoteChar] + h + [QuoteChar] + [d] + i + [d], j, [LineFeed]);
    assert Text(l9, d) == (k + [d]) + Text(l10, d);
    ConcatAssoc(a + [d] + b + [d] + c + [LineFeed] + e + [d] + f + [d] + g + [LineFeed] + [QuoteChar] + h + [QuoteChar] + [d] + i + [d] + j + [LineFeed], (k + [d]), Text(l10, d));
    ConcatAssoc(a + [d] + b + [d] + c + [LineFeed] + e + [d] + f + [d] + g + [LineFeed] + [QuoteChar] + h + [QuoteChar] + [d] + i + [d] + j + [LineFeed], k, [d]);
    assert Text(l10, d) == (m + [d]) + Text(l11, d);
    ConcatAssoc(a + [d] + b + [d] + c + [LineFeed] + e + [d] + f + [d] + g + [LineFeed] + [QuoteChar] + h + [QuoteChar] + [d] + i + [d] + j + [LineFeed] + k + [d], (m + [d]), Text(l11, d));
    ConcatAssoc(a + [d] + b + [d] + c + [LineFeed] + e + [d] + f + [d] + g + [LineFeed] + [QuoteChar] + h + [QuoteChar] + [d] + i + [d] + j + [LineFeed] + k + [d], m, [d]);
    assert Text(l11, d) == n;
  }

  lemma NewlinesTable(a: string, b: string, c: string, e: string, f: string, g: string, h: string, i: string, j: string, k: string, m: string, n: string)
    ensures Table(NewlinesLayout(a, b, c, e, f, g, h, i, j, k, m, n)) == [[a, b, c], [e, f, g], [h, i, j], [k, m, n]]
  {
    var l11 := Last(Cell(n, Bare));
    var l10 := Delimited(Cell(m, Bare), l11);
    var l9 := Delimited(Cell(k, Bare), l10);
    var l8 := Terminated(Cell(j, Bare), Lf, l9);
    var l7 := Delimited(Cell(i, Bare), l8);
    var l6 := Delimited(Cell(h, Quoted(0)), l7);
    var l5 := Terminated(Cell(g, Bare), Lf, l6);
    var l4 := Delimited(Cell(f, Bare), l5);
    var l3 := Delimited(Cell(e, Bare), l4);
    var l2 := Terminated(Cell(c, Bare), Lf, l3);
    var l1 := Delimited(Cell(b, Bare), l2);
    var l0 := Delimited(Cell(a, Bare), l1);
    assert [k, m] + [n] == [k, m, n];
    assert [k] + [m] == [k, m];
    assert [] + [k] == [k];
    assert Grouped([k, m], l11) == [[k, m, n]];
    assert Grouped([k], l10) == [[k, m, n]];
    assert Grouped([], l9) == [[k, m, n]];
    assert [h, i] + [j] == [h, i, j];
    assert [h] + [i] == [h, i];
    assert [] + [h] == [h];
    assert Grouped([h, i], l8) == [[h, i, j], [k, m, n]];
    assert Grouped([h], l7) == [[h, i, j], [k, m, n]];
    assert Grouped([], l6) == [[h, i, j], [k, m, n]];
    assert [e, f] + [g] == [e, f, g];
    assert [e] + [f] == [e, f];
    assert [] + [e] == [e];
    assert Grouped([e, f], l5) == [[e, f, g], [h, i, j], [k, m, n]];
    assert Grouped([e], l4) == [[e, f, g], [h, i, j], [k, m, n]];
    assert Grouped([], l3) == [[e, f, g], [h, i, j], [k, m, n]];
    assert [a, b] + [c] == [a, b, c];
    assert [a] + [b] == [a, b];
    assert [] + [a] == [a];
    assert Grouped([a, b], l2) == [[a, b, c], [e, f, g], [h, i, j], [k, m, n]];
    assert Grouped([a], l1) == [[a, b, c], [e, f, g], [h, i, j], [k, m, n]];
    assert Grouped([], l0) == [[a, b, c], [e, f, g], [h, i, j], [k, m, n]];
  }

  lemma NewlinesReadable(a: string, b: string, c: string, e: string, f: string, g: string, h: string, i: string, j: string, k: string, m: string, n: string, d: char, p: Policy)
    requires ValidDelimiter(d)
    requires !NeedsQuotes(a, d) && !NeedsQuotes(b, d) && !NeedsQuotes(c, d) && !NeedsQuotes(e, d) && !NeedsQuotes(f, d) && !NeedsQuotes(g, d) && !NeedsQuotes(i, d) && !NeedsQuotes(j, d) && !NeedsQuotes(k, d) && !NeedsQuotes(m, d) && !NeedsQuotes(n, d)
    ensures Readable(NewlinesLayout(a, b, c, e, f, g, h, i, j, k, m, n), d, p)
  {
    var l11 := Last(Cell(n, Bare));
    var l10 := Delimited(Cell(m, Bare), l11);
    var l9 := Delimited(Cell(k, Bare), l10);
    var l8 := Terminated(Cell(j, Bare), Lf, l9);
    var l7 := Delimited(Cell(i, Bare), l8);
    var l6 := Delimited(Cell(h, Quoted(0)), l7);
    var l5 := Terminated(Cell(g, Bare), Lf, l6);
    var l4 := Delimited(Cell(f, Bare), l5);
    var l3 := Delimited(Cell(e, Bare), l4);
    var l2 := Terminated(Cell(c, Bare), Lf, l3);
    var l1 := Delimited(Cell(b, Bare), l2);
    var l0 := Delimited(Cell(a, Bare), l1);
    assert WellWritten(l11, d, p);
    assert WellWritten(l10, d, p);
    assert WellWritten(l9, d, p);
    assert WellWritten(l8, d, p);
    assert WellWritten(l7, d, p);
    assert WellWritten(l6, d, p);
    assert WellWritten(l5, d, p);
    assert WellWritten(l4, d, p);
    assert WellWritten(l3, d, p);
    assert WellWritten(l2, d, p);
    assert WellWritten(l1, d, p);
    assert WellWritten(l0, d, p);
  }

  /** Four lines of three fields where a quoted field holds a line feed: the quoted line feed stays in the value and does not start a line, so exactly four lines are read. */
  lemma NewlinesShape(a: string, b: string, c: string, e: string, f: string, g: string, h: string, i: string, j: string, k: string, m: string, n: string, d: char, p: Policy)
    requires ValidDelimiter(d)
    requires QuoteChar !in h
    requires !NeedsQuotes(a, d) && !NeedsQuotes(b, d) && !NeedsQuotes(c, d) && !NeedsQuotes(e, d) && !NeedsQuotes(f, d) && !NeedsQuotes(g, d) && !NeedsQuotes(i, d) && !NeedsQuotes(j, d) && !NeedsQuotes(k, d) && !NeedsQuotes(m, d) && !NeedsQuotes(n, d)
    ensures Rows(a + [d] + b + [d] + c + [LineFeed] + e + [d] + f + [d] + g + [LineFeed] + [QuoteChar] + h + [QuoteChar] + [d] + i + [d] + j + [LineFeed] + k + [d] + m + [d] + n, Configuration(d), p)
            == Ok([[a, b, c], [e, f, g], [h, i, j], [k, m, n]])
  {
    NewlinesText(a, b, c, e, f, g, h, i, j, k, m, n, d);
    NewlinesTable(a, b, c, e, f, g, h, i, j, k, m, n);
    NewlinesReadable(a, b, c, e, f, g, h, i, j, k, m, n, d, p);
    ParseText(NewlinesLayout(a, b, c, e, f, g, h, i, j, k, m, n), Configuration(d), p);
  }

  lemma NewlinesVectorInput1()
    ensures "a,b,c\n" == "a" + [','] + "b" + [','] + "c" + [LineFeed]
  {
    assert "a,b,c\n" == "a,b,c" + [LineFeed];
    assert "a,b,c" == "a,b," + "c";
    assert "a,b," == "a,b" + [','];
    assert "a,b" == "a," + "b";
    assert "a," == "a" + [','];
  }

  lemma NewlinesVectorInput2()
    ensures "a,b,c\n1,2,3\n" == "a" + [','] + "b" + [','] + "c" + [LineFeed] + "1" + [','] + "2" + [','] + "3" + [LineFeed]
  {
    NewlinesVectorInput1();
    assert "a,b,c\n1,2,3\n" == "a,b,c\n1,2,3" + [LineFeed];
    assert "a,b,c\n1,2,3" == "a,b,c\n1,2," + "3";
    assert "a,b,c\n1,2," == "a,b,c\n1,2" + [','];
    assert "a,b,c\n1,2" == "a,b,c\n1," + "2";
    assert "a,b,c\n1," == "a,b,c\n1" + [','];
    assert "a,b,c\n1" == "a,b,c\n" + "1";
  }

  lemma NewlinesVectorInput3()
    ensures "a,b,c\n1,2,3\n\"Once upon\na time\",5," == "a" + [','] + "b" + [','] + "c" + [LineFeed] + "1" + [','] + "2" + [','] + "3" + [LineFeed] + [QuoteChar] + "Once upon\na time" + [QuoteChar] + [','] + "5" + [',']
  {
    NewlinesVectorInput2();
    assert "a,b,c\n1,2,3\n\"Once upon\na time\",5," == "a,b,c\n1,2,3\n\"Once upon\na time\",5" + [','];
    assert "a,b,c\n1,2,3\n\"Once upon\na time\",5" == "a,b,c\n1,2,3\n\"Once upon\na time\"," + "5";
    assert "a,b,c\n1,2,3\n\"Once upon\na time\"," == "a,b,c\n1,2,3\n\"Once upon\na time\"" + [','];
    assert "a,b,c\n1,2,3\n\"Once upon\na time\"" == "a,b,c\n1,2,3\n\"Once upon\na time" + [QuoteChar];
    assert "a,b,c\n1,2,3\n\"Once upon\na time" == "a,b,c\n1,2,3\n\"" + "Once upon\na time";
    assert "a,b,c\n1,2,3\n\"" == "a,b,c\n1,2,3\n" + [QuoteChar];
  }

  lemma NewlinesVectorInput4()
    ensures "a,b,c\n1,2,3\n\"Once upon\na time\",5,6\n7,8," == "a" + [','] + "b" + [','] + "c" + [LineFeed] + "1" + [','] + "2" + [','] + "3" + [LineFeed] + [QuoteChar] + "Once upon\na time" + [QuoteChar] + [','] + "5" + [','] + "6" + [LineFeed] + "7" + [','] + "8" + [',']
  {
    NewlinesVectorInput3();
    assert "a,b,c\n1,2,3\n\"Once upon\na time\",5,6\n7,8," == "a,b,c\n1,2,3\n\"Once upon\na time\",5,6\n7,8" + [','];
    assert "a,b,c\n1,2,3\n\"Once upon\na time\",5,6\n7,8" == "a,b,c\n1,2,3\n\"Once upon\na time\",5,6\n7," + "8";
    assert "a,b,c\n1,2,3\n\"Once upon\na time\",5,6\n7," == "a,b,c\n1,2,3\n\"Once upon\na time\",5,6\n7" + [','];
    assert "a,b,c\n1,2,3\n\"Once upon\na time\",5,6\n7" == "a,b,c\n1,2,3\n\"Once upon\na time\",5,6\n" + "7";
    assert "a,b,c\n1,2,3\n\"Once upon\na time\",5,6\n" == "a,b,c\n1,2,3\n\"Once upon\na time\",5,6" + [LineFeed];
    assert "a,b,c\n1,2,3\n\"Once upon\na time\",5,6" == "a,b,c\n1,2,3\n\"Once upon\na time\",5," + "6";
  }

  lemma NewlinesVectorInput()
    ensures "a,b,c\n1,2,3\n\"Once upon\na time\",5,6\n7,8,9" == "a" + [','] + "b" + [','] + "c" + [LineFeed] + "1" + [','] + "2" + [','] + "3" + [LineFeed] + [QuoteChar] + "Once upon\na time" + [QuoteChar] + [','] + "5" + [','] + "6" + [LineFeed] + "7" + [','] + "8" + [','] + "9"
  {
    NewlinesVectorInput4();
    assert "a,b,c\n1,2,3\n\"Once upon\na time\",5,6\n7,8,9" == "a,b,c\n1,2,3\n\"Once upon\na time\",5,6\n7,8," + "9";
  }

  /** The fifth text of `testCSVSpectrumFiles` (Tests/CSVParserTest.swift:149). */
  lemma NewlinesVector(p: Policy)
    ensures Rows("a,b,c\n1,2,3\n\"Once upon\na time\",5,6\n7,8,9", Configuration(','), p)
            == Ok([["a", "b", "c"], ["1", "2", "3"], ["Once upon\na time", "5", "6"], ["7", "8", "9"]])
  {
    NewlinesVectorInput();
    ConfiguredDelimitersValid(',');
    NewlinesShape("a", "b", "c", "1", "2", "3", "Once upon\na time", "5", "6", "7", "8", "9", ',', p);
  }

  /** The layout of the texts `SimpleShape` is about. */
  function SimpleLayout(a: string, b: string, c: string, e: string, f: string, g: string, t: Terminator): Layout
  {
    Delimited(Cell(a, Bare), Delimited(Cell(b, Bare), Terminated(Cell(c, Bare), t, Delimited(Cell(e, Bare), Delimited(Cell(f, Bare), Last(Cell(g, Bare)))))))
  }

  lemma SimpleText(a: string, b: string, c: string, e: string, f: string, g: string, t: Terminator, d: char)
    ensures Text(SimpleLayout(a, b, c, e, f, g, t), d) == a + [d] + b + [d] + c + TerminatorText(t) + e + [d] + f + [d] + g
  {
    var l5 := Last(Cell(g, Bare));
    var l4 := Delimited(Cell(f, Bare), l5);
    var l3 := Delimited(Cell(e, Bare), l4);
    var l2 := Terminated(Cell(c, Bare), t, l3);
    var l1 := Delimited(Cell(b, Bare), l2);
    var l0 := Delimited(Cell(a, Bare), l1);
    assert Text(l0, d) == (a + [d]) + Text(l1, d);
    assert Text(l1, d) == (b + [d]) + Text(l2, d);
    ConcatAssoc(a + [d], (b + [d]), Text(l2, d));
    ConcatAssoc(a + [d], b, [d]);
    assert Text(l2, d) == (c + TerminatorText(t)) + Text(l3, d);
    ConcatAssoc(a + [d] + b + [d], (c + TerminatorText(t)), Text(l3, d));
    ConcatAssoc(a + [d] + b + [d], c, TerminatorText(t));
    assert Text(l3, d) == (e + [d]) + Text(l4, d);
    ConcatAssoc(a + [d] + b + [d] + c + TerminatorText(t), (e + [d]), Text(l4, d));
    ConcatAssoc(a + [d] + b + [d] + c + TerminatorText(t), e, [d]);
    assert Text(l4, d) == (f + [d]) + Text(l5, d);
    ConcatAssoc(a + [d] + b + [d] + c + TerminatorText(t) + e + [d], (f + [d]), Text(l5, d));
    ConcatAssoc(a + [d] + b + [d] + c + TerminatorText(t) + e + [d], f, [d]);
    assert Text(l5, d) == g;
  }

  lemma SimpleTable(a: string, b: string, c: string, e: string, f: string, g: string, t: Terminator)
    ensures Table(SimpleLayout(a, b, c, e, f, g, t)) == [[a, b, c], [e, f, g]]
  {
    var l5 := Last(Cell(g, Bare));
    var l4 := Delimited(Cell(f, Bare), l5);
    var l3 := Delimited(Cell(e, Bare), l4);
    var l2 := Terminated(Cell(c, Bare), t, l3);
    var l1 := Delimited(Cell(b, Bare), l2);
    var l0 := Delimited(Cell(a, Bare), l1);
    assert [e, f] + [g] == [e, f, g];
    assert [e] + [f] == [e, f];
    assert [] + [e] == [e];
    assert Grouped([e, f], l5) == [[e, f, g]];
    assert Grouped([e], l4) == [[e, f, g]];
    assert Grouped([], l3) == [[e, f, g]];
    assert [a, b] + [c] == [a, b, c];
    assert [a] + [b] == [a, b];
    assert [] + [a] == [a];
    assert Grouped([a, b], l2) == [[a, b, c], [e, f, g]];
    assert Grouped([a], l1) == [[a, b, c], [e, f, g]];
    assert Grouped([], l0) == [[a, b, c], [e, f, g]];
  }

  lemma SimpleReadable(a: string, b: string, c: string, e: string, f: string, g: string, t: Terminator, d: char, p: Policy)
    requires ValidDelimiter(d)
    requires !NeedsQuotes(a, d) && !NeedsQuotes(b, d) && !NeedsQuotes(c, d) && !NeedsQuotes(e, d) && !NeedsQuotes(f, d) && !NeedsQuotes(g, d)
    ensures Readable(SimpleLayout(a, b, c, e, f, g, t), d, p)
  {
    var l5 := Last(Cell(g, Bare));
    var l4 := Delimited(Cell(f, Bare), l5);
    var l3 := Delimited(Cell(e, Bare), l4);
    var l2 := Terminated(Cell(c, Bare), t, l3);
    var l1 := Delimited(Cell(b, Bare), l2);
    var l0 := Delimited(Cell(a, Bare), l1);
    assert WellWritten(l5, d, p);
    assert WellWritten(l4, d, p);
    assert WellWritten(l3, d, p);
    assert WellWritten(l2, d, p);
    assert WellWritten(l1, d, p);
    assert WellWritten(l0, d, p);
  }

  /** Two lines of three bare fields, the first ended by any terminator. */
  lemma SimpleShape(a: string, b: string, c: string, e: string, f: string, g: string, t: Terminator, d: char, p: Policy)
    requires ValidDelimiter(d)
    requires !NeedsQuotes(a, d) && !NeedsQuotes(b, d) && !NeedsQuotes(c, d) && !NeedsQuotes(e, d) && !NeedsQuotes(f, d) && !NeedsQuotes(g, d)
    ensures Rows(a + [d] + b + [d] + c + TerminatorText(t) + e + [d] + f + [d] + g, Configuration(d), p)
            == Ok([[a, b, c], [e, f, g]])
  {
    SimpleText(a, b, c, e, f, g, t, d);
    SimpleTable(a, b, c, e, f, g, t);
    SimpleReadable(a, b, c, e, f, g, t, d, p);
    ParseText(SimpleLayout(a, b, c, e, f, g, t), Configuration(d), p);
  }

  lemma SimpleVectorInput1()
    ensures "a,b,c\n" == "a" + [','] + "b" + [','] + "c" + TerminatorText(Lf)
  {
    assert "a,b,c\n" == "a,b,c" + TerminatorText(Lf);
    assert "a,b,c" == "a,b," + "c";
    assert "a,b," == "a,b" + [','];
    assert "a,b" == "a," + "b";
    assert "a," == "a" + [','];
  }

  lemma SimpleVectorInput()
    ensures "a,b,c\n1,2,3" == "a" + [','] + "b" + [','] + "c" + TerminatorText(Lf) + "1" + [','] + "2" + [','] + "3"
  {
    SimpleVectorInput1();
    assert "a,b,c\n1,2,3" == "a,b,c\n1,2," + "3";
    assert "a,b,c\n1,2," == "a,b,c\n1,2" + [','];
    assert "a,b,c\n1,2" == "a,b,c\n1," + "2";
    assert "a,b,c\n1," == "a,b,c\n1" + [','];
    assert "a,b,c\n1" == "a,b,c\n" + "1";
  }

  /** The sixth text of `testCSVSpectrumFiles` (Tests/CSVParserTest.swift:150), lines ended by LF. */
  lemma SimpleVector(p: Policy)
    ensures Rows("a,b,c\n1,2,3", Configuration(','), p)
            == Ok([["a", "b", "c"], ["1", "2", "3"]])
  {
    SimpleVectorInput();
    ConfiguredDelimitersValid(',');
    SimpleShape("a", "b", "c", "1", "2", "3", Lf, ',', p);
  }

  lemma SimpleCrlfVectorInput1()
    ensures "a,b,c\r\n" == "a" + [','] + "b" + [','] + "c" + TerminatorText(CrLf)
  {
    assert "a,b,c\r\n" == "a,b,c" + TerminatorText(CrLf);
    assert "a,b,c" == "a,b," + "c";
    assert "a,b," == "a,b" + [','];
    assert "a,b" == "a," + "b";
    assert "a," == "a" + [','];
  }

  lemma SimpleCrlfVectorInput()
    ensures "a,b,c\r\n1,2,3" == "a" + [','] + "b" + [','] + "c" + TerminatorText(CrLf) + "1" + [','] + "2" + [','] + "3"
  {
    SimpleCrlfVectorInput1();
    assert "a,b,c\r\n1,2,3" == "a,b,c\r\n1,2," + "3";
    assert "a,b,c\r\n1,2," == "a,b,c\r\n1,2" + [','];
    assert "a,b,c\r\n1,2" == "a,b,c\r\n1," + "2";
    assert "a,b,c\r\n1," == "a,b,c\r\n1" + [','];
    assert "a,b,c\r\n1" == "a,b,c\r\n" + "1";
  }

  /** The seventh text of `testCSVSpectrumFiles` (Tests/CSVParserTest.swift:151), lines ended by CR LF. */
  lemma SimpleCrlfVector(p: Policy)
    ensures Rows("a,b,c\r\n1,2,3", Configuration(','), p)
            == Ok([["a", "b", "c"], ["1", "2", "3"]])
  {
    SimpleCrlfVectorInput();
    ConfiguredDelimitersValid(',');
    SimpleShape("a", "b", "c", "1", "2", "3", CrLf, ',', p);
  }

  /** The layout of the texts `Utf8Shape` is about. */
  function Utf8Layout(a: string, b: string, c: string, e: string, f: string, g: string, h: string, i: string, j: string): Layout
  {
    Delimited(Cell(a, Bare), Delimited(Cell(b, Bare), Terminated(Cell(c, Bare), CrLf, Delimited(Cell(e, Bare), Delimited(Cell(f, Bare), Terminated(Cell(g, Bare), Lf, Delimited(Cell(h, Bare), Delimited(Cell(i, Bare), Last(Cell(j, Bare))))))))))
  }

  lemma Utf8Text(a: string, b: string, c: string, e: string, f: string, g: string, h: string, i: string, j: string, d: char)
    ensures Text(Utf8Layout(a, b, c, e, f, g, h, i, j), d) == a + [d] + b + [d] + c + [CarriageReturn, LineFeed] + e + [d] + f + [d] + g + [LineFeed] + h + [d] + i + [d] + j
  {
    var l8 := Last(Cell(j, Bare));
    var l7 := Delimited(Cell(i, Bare), l8);
    var l6 := Delimited(Cell(h, Bare), l7);
    var l5 := Terminated(Cell(g, Bare), Lf, l6);
    var l4 := Delimited(Cell(f, Bare), l5);
    var l3 := Delimited(Cell(e, Bare), l4);
    var l2 := Terminated(Cell(c, Bare), CrLf, l3);
    var l1 := Delimited(Cell(b, Bare), l2);
    var l0 := Delimited(Cell(a, Bare), l1);
    assert Text(l0, d) == (a + [d]) + Text(l1, d);
    assert Text(l1, d) == (b + [d]) + Text(l2, d);
    ConcatAssoc(a + [d], (b + [d]), Text(l2, d));
    ConcatAssoc(a + [d], b, [d]);
    assert Text(l2, d) == (c + [CarriageReturn, LineFeed]) + Text(l3, d);
    ConcatAssoc(a + [d] + b + [d], (c + [CarriageReturn, LineFeed]), Text(l3, d));
    ConcatAssoc(a + [d] + b + [d], c, [CarriageReturn, LineFeed]);
    assert Text(l3, d) == (e + [d]) + Text(l4, d);
    ConcatAssoc(a + [d] + b + [d] + c + [CarriageReturn, LineFeed], (e + [d]), Text(l4, d));
    ConcatAssoc(a + [d] + b + [d] + c + [CarriageReturn, LineFeed], e, [d]);
    assert Text(l4, d) == (f + [d]) + Text(l5, d);
    ConcatAssoc(a + [d] + b + [d] + c + [CarriageReturn, LineFeed] + e + [d], (f + [d]), Text(l5, d));
    ConcatAssoc(a + [d] + b + [d] + c + [CarriageReturn, LineFeed] + e + [d], f, [d]);
    assert Text(l5, d) == (g + [LineFeed]) + Text(l6, d);
    ConcatAssoc(a + [d] + b + [d] + c + [CarriageReturn, LineFeed] + e + [d] + f + [d], (g + [LineFeed]), Text(l6, d));
    ConcatAssoc(a + [d] + b + [d] + c + [CarriageReturn, LineFeed] + e + [d] + f + [d], g, [LineFeed]);
    assert Text(l6, d) == (h + [d]) + Text(l7, d);
    ConcatAssoc(a + [d] + b + [d] + c + [CarriageReturn, LineFeed] + e + [d] + f + [d] + g + [LineFeed], (h + [d]), Text(l7, d));
    ConcatAssoc(a + [d] + b + [d] + c + [CarriageReturn, LineFeed] + e + [d] + f + [d] + g + [LineFeed], h, [d]);
    assert Text(l7, d) == (i + [d]) + Text(l8, d);
    ConcatAssoc(a + [d] + b + [d] + c + [CarriageReturn, LineFeed] + e + [d] + f + [d] + g + [LineFeed] + h + [d], (i + [d]), Text(l8, d));
    ConcatAssoc(a + [d] + b + [d] + c + [CarriageReturn, LineFeed] + e + [d] + f + [d] + g + [LineFeed] + h + [d], i, [d]);
    assert Text(l8, d) == j;
  }

  lemma Utf8Table(a: string, b: string, c: string, e: string, f: string, g: string, h: string, i: string, j: string)
    ensures Table(Utf8Layout(a, b, c, e, f, g, h, i, j)) == [[a, b, c], [e, f, g], [h, i, j]]
  {
    var l8 := Last(Cell(j, Bare));
    var l7 := Delimited(Cell(i, Bare), l8);
    var l6 := Delimited(Cell(h, Bare), l7);
    var l5 := Terminated(Cell(g, Bare), Lf, l6);
    var l4 := Delimited(Cell(f, Bare), l5);
    var l3 := Delimited(Cell(e, Bare), l4);
    var l2 := Terminated(Cell(c, Bare), CrLf, l3);
    var l1 := Delimited(Cell(b, Bare), l2);
    var l0 := Delimited(Cell(a, Bare), l1);
    assert [h, i] + [j] == [h, i, j];
    assert [h] + [i] == [h, i];
    assert [] + [h] == [h];
    assert Grouped([h, i], l8) == [[h, i, j]];
    assert Grouped([h], l7) == [[h, i, j]];
    assert Grouped([], l6) == [[h, i, j]];
    assert [e, f] + [g] == [e, f, g];
    assert [e] + [f] == [e, f];
    assert [] + [e] == [e];
    assert Grouped([e, f], l5) == [[e, f, g], [h, i, j]];
    assert Grouped([e], l4) == [[e, f, g], [h, i, j]];
    assert Grouped([], l3) == [[e, f, g], [h, i, j]];
    assert [a, b] + [c] == [a, b, c];
    assert [a] + [b] == [a, b];
    assert [] + [a] == [a];
    assert Grouped([a, b], l2) == [[a, b, c], [e, f, g], [h, i, j]];
    assert Grouped([a], l1) == [[a, b, c], [e, f, g], [h, i, j]];
    assert Grouped([], l0) == [[a, b, c], [e, f, g], [h, i, j]];
  }

  lemma Utf8Readable(a: string, b: string, c: string, e: string, f: string, g: string, h: string, i: string, j: string, d: char, p: Policy)
    requires ValidDelimiter(d)
    requires !NeedsQuotes(a, d) && !NeedsQuotes(b, d) && !NeedsQuotes(c, d) && !NeedsQuotes(e, d) && !NeedsQuotes(f, d) && !NeedsQuotes(g, d) && !NeedsQuotes(h, d) && !NeedsQuotes(i, d) && !NeedsQuotes(j, d)
    ensures Readable(Utf8Layout(a, b, c, e, f, g, h, i, j), d, p)
  {
    var l8 := Last(Cell(j, Bare));
    var l7 := Delimited(Cell(i, Bare), l8);
    var l6 := Delimited(Cell(h, Bare), l7);
    var l5 := Terminated(Cell(g, Bare), Lf, l6);
    var l4 := Delimited(Cell(f, Bare), l5);
    var l3 := Delimited(Cell(e, Bare), l4);
    var l2 := Terminated(Cell(c, Bare), CrLf, l3);
    var l1 := Delimited(Cell(b, Bare), l2);
    var l0 := Delimited(Cell(a, Bare), l1);
    assert WellWritten(l8, d, p);
    assert WellWritten(l7, d, p);
    assert WellWritten(l6, d, p);
    assert WellWritten(l5, d, p);
    assert WellWritten(l4, d, p);
    assert WellWritten(l3, d, p);
    assert WellWritten(l2, d, p);
    assert WellWritten(l1, d, p);
    assert WellWritten(l0, d, p);
  }

  /** Three lines of three bare fields, the first ended by CR LF and the second by LF: terminators may be mixed in one text. */
  lemma Utf8Shape(a: string, b: string, c: string, e: string, f: string, g: string, h: string, i: string, j: string, d: char, p: Policy)
    requires ValidDelimiter(d)
    requires !NeedsQuotes(a, d) && !NeedsQuotes(b, d) && !NeedsQuotes(c, d) && !NeedsQuotes(e, d) && !NeedsQuotes(f, d) && !NeedsQuotes(g, d) && !NeedsQuotes(h, d) && !NeedsQuotes(i, d) && !NeedsQuotes(j, d)
    ensures Rows(a + [d] + b + [d] + c + [CarriageReturn, LineFeed] + e + [d] + f + [d] + g + [LineFeed] + h + [d] + i + [d] + j, Configuration(d), p)
            == Ok([[a, b, c], [e, f, g], [h, i, j]])
  {
    Utf8Text(a, b, c, e, f, g, h, i, j, d);
    Utf8Table(a, b, c, e, f, g, h, i, j);
    Utf8Readable(a, b, c, e, f, g, h, i, j, d, p);
    ParseText(Utf8Layout(a, b, c, e, f, g, h, i, j), Configuration(d), p);
  }

  lemma Utf8VectorInput1()
    ensures "a,b,c\r\n" == "a" + [','] + "b" + [','] + "c" + [CarriageReturn, LineFeed]
  {
    assert "a,b,c\r\n" == "a,b,c" + [CarriageReturn, LineFeed];
    assert "a,b,c" == "a,b," + "c";
    assert "a,b," == "a,b" + [','];
    assert "a,b" == "a," + "b";
    assert "a," == "a" + [','];
  }

  lemma Utf8VectorInput2()
    ensures "a,b,c\r\n1,2,3\n" == "a" + [','] + "b" + [','] + "c" + [CarriageReturn, LineFeed] + "1" + [','] + "2" + [','] + "3" + [LineFeed]
  {
    Utf8VectorInput1();
    assert "a,b,c\r\n1,2,3\n" == "a,b,c\r\n1,2,3" + [LineFeed];
    assert "a,b,c\r\n1,2,3" == "a,b,c\r\n1,2," + "3";
    assert "a,b,c\r\n1,2," == "a,b,c\r\n1,2" + [','];
    assert "a,b,c\r\n1,2" == "a,b,c\r\n1," + "2";
    assert "a,b,c\r\n1," == "a,b,c\r\n1" + [','];
    assert "a,b,c\r\n1" == "a,b,c\r\n" + "1";
  }

  lemma Utf8VectorInput()
    ensures "a,b,c\r\n1,2,3\n4,5,\U{02A4}" == "a" + [','] + "b" + [','] + "c" + [CarriageReturn, LineFeed] + "1" + [','] + "2" + [','] + "3" + [LineFeed] + "4" + [','] + "5" + [','] + "\U{02A4}"
  {
    Utf8VectorInput2();
    assert "a,b,c\r\n1,2,3\n4,5,\U{02A4}" == "a,b,c\r\n1,2,3\n4,5," + "\U{02A4}";
    assert "a,b,c\r\n1,2,3\n4,5," == "a,b,c\r\n1,2,3\n4,5" + [','];
    assert "a,b,c\r\n1,2,3\n4,5" == "a,b,c\r\n1,2,3\n4," + "5";
    assert "a,b,c\r\n1,2,3\n4," == "a,b,c\r\n1,2,3\n4" + [','];
    assert "a,b,c\r\n1,2,3\n4" == "a,b,c\r\n1,2,3\n" + "4";
  }

  /** The eighth text of `testCSVSpectrumFiles` (Tests/CSVParserTest.swift:152), whose last field is a character outside ASCII. */
  lemma Utf8Vector(p: Policy)
    ensures Rows("a,b,c\r\n1,2,3\n4,5,\U{02A4}", Configuration(','), p)
            == Ok([["a", "b", "c"], ["1", "2", "3"], ["4", "5", "\U{02A4}"]])
  {
    Utf8VectorInput();
    ConfiguredDelimitersValid(',');
    Utf8Shape("a", "b", "c", "1", "2", "3", "4", "5", "\U{02A4}", ',', p);
  }

  /** The layout of the texts `LineBreaksShape` is about. */
  function LineBreaksLayout(a: string, b: string, c: string, e: string, t: Terminator): Layout
  {
    Delimited(Cell(a, Bare), Terminated(Cell(b, Bare), t, Delimited(Cell(c, Bare), Last(Cell(e, Bare)))))
  }

  lemma LineBreaksText(a: string, b: string, c: string, e: string, t: Terminator, d: char)
    ensures Text(LineBreaksLayout(a, b, c, e, t), d) == a + [d] + b + TerminatorText(t) + c + [d] + e
  {
    var l3 := Last(Cell(e, Bare));
    var l2 := Delimited(Cell(c, Bare), l3);
    var l1 := Terminated(Cell(b, Bare), t, l2);
    var l0 := Delimited(Cell(a, Bare), l1);
    assert Text(l0, d) == (a + [d]) + Text(l1, d);
    assert Text(l1, d) == (b + TerminatorText(t)) + Text(l2, d);
    ConcatAssoc(a + [d], (b + TerminatorText(t)), Text(l2, d));
    ConcatAssoc(a + [d], b, TerminatorText(t));
    assert Text(l2, d) == (c + [d]) + Text(l3, d);
    ConcatAssoc(a + [d] + b + TerminatorText(t), (c + [d]), Text(l3, d));
    ConcatAssoc(a + [d] + b + TerminatorText(t), c, [d]);
    assert Text(l3, d) == e;
  }

  lemma LineBreaksTable(a: string, b: string, c: string, e: string, t: Terminator)
    ensures Table(LineBreaksLayout(a, b, c, e, t)) == [[a, b], [c, e]]
  {
    var l3 := Last(Cell(e, Bare));
    var l2 := Delimited(Cell(c, Bare), l3);
    var l1 := Terminated(Cell(b, Bare), t, l2);
    var l0 := Delimited(Cell(a, Bare), l1);
    assert [c] + [e] == [c, e];
    assert [] + [c] == [c];
    assert Grouped([c], l3) == [[c, e]];
    assert Grouped([], l2) == [[c, e]];
    assert [a] + [b] == [a, b];
    assert [] + [a] == [a];
    assert Grouped([a], l1) == [[a, b], [c, e]];
    assert Grouped([], l0) == [[a, b], [c, e]];
  }

  lemma LineBreaksReadable(a: string, b: string, c: string, e: string, t: Terminator, d: char, p: Policy)
    requires ValidDelimiter(d)
    requires !NeedsQuotes(a, d) && !NeedsQuotes(b, d) && !NeedsQuotes(c, d) && !NeedsQuotes(e, d)
    ensures Readable(LineBreaksLayout(a, b, c, e, t), d, p)
  {
    var l3 := Last(Cell(e, Bare));
    var l2 := Delimited(Cell(c, Bare), l3);
    var l1 := Terminated(Cell(b, Bare), t, l2);
    var l0 := Delimited(Cell(a, Bare), l1);
    assert WellWritten(l3, d, p);
    assert WellWritten(l2, d, p);
    assert WellWritten(l1, d, p);
    assert WellWritten(l0, d, p);
  }

  /** Two lines of two bare fields where the first line is ended by CR, LF or CR LF: the three terminators are equivalent. */
  lemma LineBreaksShape(a: string, b: string, c: string, e: string, t: Terminator, d: char, p: Policy)
    requires ValidDelimiter(d)
    requires !NeedsQuotes(a, d) && !NeedsQuotes(b, d) && !NeedsQuotes(c, d) && !NeedsQuotes(e, d)
    ensures Rows(a + [d] + b + TerminatorText(t) + c + [d] + e, Configuration(d), p)
            == Ok([[a, b], [c, e]])
  {
    LineBreaksText(a, b, c, e, t, d);
    LineBreaksTable(a, b, c, e, t);
    LineBreaksReadable(a, b, c, e, t, d, p);
    ParseText(LineBreaksLayout(a, b, c, e, t), Configuration(d), p);
  }

  lemma CRVectorInput1()
    ensures "First name,Last name\rJohn," == "First name" + [','] + "Last name" + TerminatorText(Cr) + "John" + [',']
  {
    assert "First name,Last name\rJohn," == "First name,Last name\rJohn" + [','];
    assert "First name,Last name\rJohn" == "First name,Last name\r" + "John";
    assert "First name,Last name\r" == "First name,Last name" + TerminatorText(Cr);
    assert "First name,Last name" == "First name," + "Last name";
    assert "First name," == "First name" + [','];
  }

  lemma CRVectorInput()
    ensures "First name,Last name\rJohn,Doe" == "First name" + [','] + "Last name" + TerminatorText(Cr) + "John" + [','] + "Doe"
  {
    CRVectorInput1();
    assert "First name,Last name\rJohn,Doe" == "First name,Last name\rJohn," + "Doe";
  }

  /** `testCR` (Tests/CSVParserTest.swift:101-113). */
  lemma CRVector(p: Policy)
    ensures Rows("First name,Last name\rJohn,Doe", Configuration(','), p)
            == Ok([["First name", "Last name"], ["John", "Doe"]])
  {
    CRVectorInput();
    ConfiguredDelimitersValid(',');
    LineBreaksShape("First name", "Last name", "John", "Doe", Cr, ',', p);
  }

  lemma LFVectorInput1()
    ensures "First name,Last name\nJohn," == "First name" + [','] + "Last name" + TerminatorText(Lf) + "John" + [',']
  {
    assert "First name,Last name\nJohn," == "First name,Last name\nJohn" + [','];
    assert "First name,Last name\nJohn" == "First name,Last name\n" + "John";
    assert "First name,Last name\n" == "First name,Last name" + TerminatorText(Lf);
    assert "First name,Last name" == "First name," + "Last name";
    assert "First name," == "First name" + [','];
  }

  lemma LFVectorInput()
    ensures "First name,Last name\nJohn,Doe" == "First name" + [','] + "Last name" + TerminatorText(Lf) + "John" + [','] + "Doe"
  {
    LFVectorInput1();
    assert "First name,Last name\nJohn,Doe" == "First name,Last name\nJohn," + "Doe";
  }

  /** `testLF` (Tests/CSVParserTest.swift:115-127). */
  lemma LFVector(p: Policy)
    ensures Rows("First name,Last name\nJohn,Doe", Configuration(','), p)
            == Ok([["First name", "Last name"], ["John", "Doe"]])
  {
    LFVectorInput();
    ConfiguredDelimitersValid(',');
    LineBreaksShape("First name", "Last name", "John", "Doe", Lf, ',', p);
  }

  lemma CRLFVectorInput1()
    ensures "First name,Last name\r\nJohn," == "First name" + [','] + "Last name" + TerminatorText(CrLf) + "John" + [',']
  {
    assert "First name,Last name\r\nJohn," == "First name,Last name\r\nJohn" + [','];
    assert "First name,Last name\r\nJohn" == "First name,Last name\r\n" + "John";
    assert "First name,Last name\r\n" == "First name,Last name" + TerminatorText(CrLf);
    assert "First name,Last name" == "First name," + "Last name";
    assert "First name," == "First name" + [','];
  }

  lemma CRLFVectorInput()
    ensures "First name,Last name\r\nJohn,Doe" == "First name" + [','] + "Last name" + TerminatorText(CrLf) + "John" + [','] + "Doe"
  {
    CRLFVectorInput1();
    assert "First name,Last name\r\nJohn,Doe" == "First name,Last name\r\nJohn," + "Doe";
  }

  /** `testCRLF` (Tests/CSVParserTest.swift:129-141). */
  lemma CRLFVector(p: Policy)
    ensures Rows("First name,Last name\r\nJohn,Doe", Configuration(','), p)
            == Ok([["First name", "Last name"], ["John", "Doe"]])
  {
    CRLFVectorInput();
    ConfiguredDelimitersValid(',');
    LineBreaksShape("First name", "Last name", "John", "Doe", CrLf, ',', p);
  }
}
