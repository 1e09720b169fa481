/** The outputs of the writer tests, as what `Document` writes for rows of the
    shape each test uses, and then for the test's own rows. */
module CsvWriterVectors {
  import opened CsvConfiguration
  import opened CsvWriter
  import opened CsvParser
  import opened CsvRoundTrip
  import opened CsvFormat

  /** A row of three fields is written as the three escaped fields with a
      delimiter between each two. */
  lemma LineOfThree(a: string, b: string, c: string, d: char)
    ensures Line([a, b, c], d) == Escaped(a, d) + [d] + Escaped(b, d) + [d] + Escaped(c, d)
  {
    assert [a, b, c][1..] == [b, c];
    assert [b, c][1..] == [c];
    assert Line([c], d) == Escaped(c, d);
    assert Line([b, c], d) == Escaped(b, d) + [d] + Escaped(c, d);
    ConcatAssoc(Escaped(a, d) + [d], Escaped(b, d) + [d], Escaped(c, d));
  }

  /** A row of four fields, likewise. */
  lemma LineOfFour(a: string, b: string, c: string, e: string, d: char)
    ensures Line([a, b, c, e], d) == Escaped(a, d) + [d] + Escaped(b, d) + [d] + Escaped(c, d) + [d] + Escaped(e, d)
  {
    assert [a, b, c, e][1..] == [b, c, e];
    LineOfThree(b, c, e, d);
    ConcatAssoc(Escaped(a, d) + [d], Escaped(b, d) + [d] + Escaped(c, d) + [d], Escaped(e, d));
    ConcatAssoc(Escaped(a, d) + [d], Escaped(b, d) + [d] + Escaped(c, d), [d]);
    ConcatAssoc(Escaped(a, d) + [d], Escaped(b, d) + [d], Escaped(c, d));
  }

  /** Two rows are written with one line feed between them and none after. */
  lemma DocumentOfTwo(r: seq<string>, s: seq<string>, d: char)
    ensures Document([r, s], d) == Line(r, d) + [LineFeed] + Line(s, d)
  {
    assert [r, s][1..] == [s];
  }

  /** `testQuotedFields`: a field holding a line break is quoted, the others are
      not, and the two rows are separated by a line feed. */
  lemma QuotedFieldsShape(a: string, b: string, c: string, e: string, f: string, g: string, d: char)
    requires !NeedsQuotes(a, d) && !NeedsQuotes(c, d)
    requires NeedsQuotes(b, d) && QuoteChar !in b
    requires !NeedsQuotes(e, d) && !NeedsQuotes(f, d) && !NeedsQuotes(g, d)
    ensures Document([[a, b, c], [e, f, g]], d)
            == a + [d] + [QuoteChar] + b + [QuoteChar] + [d] + c + [LineFeed] + e + [d] + f + [d] + g
  {
    DocumentOfTwo([a, b, c], [e, f, g], d);
    LineOfThree(a, b, c, d);
    LineOfThree(e, f, g, d);
    var first := a + [d] + ([QuoteChar] + b + [QuoteChar]) + [d] + c;
    assert Line([a, b, c], d) == first;
    ConcatAssoc(a + [d], [QuoteChar] + b, [QuoteChar]);
    ConcatAssoc(a + [d], [QuoteChar], b);
    ConcatAssoc(first + [LineFeed], e + [d] + f + [d], g);
    ConcatAssoc(first + [LineFeed], e + [d] + f, [d]);
    ConcatAssoc(first + [LineFeed], e + [d], f);
    ConcatAssoc(first + [LineFeed], e, [d]);
  }

  lemma QuotedFieldsOutput()
    ensures "aaa,\"b \r\nbb\",ccc\nzzz,yyy,xxx"
            == "aaa" + [','] + [QuoteChar] + "b \r\nbb" + [QuoteChar] + [','] + "ccc" + [LineFeed] + "zzz" + [','] + "yyy" + [','] + "xxx"
  {
    assert "aaa,\"b \r\nbb\",ccc\nzzz,yyy,xxx" == "aaa,\"b \r\nbb\",ccc\nzzz,yyy," + "xxx";
    assert "aaa,\"b \r\nbb\",ccc\nzzz,yyy," == "aaa,\"b \r\nbb\",ccc\nzzz,yyy" + [','];
    assert "aaa,\"b \r\nbb\",ccc\nzzz,yyy" == "aaa,\"b \r\nbb\",ccc\nzzz," + "yyy";
    assert "aaa,\"b \r\nbb\",ccc\nzzz," == "aaa,\"b \r\nbb\",ccc\nzzz" + [','];
    assert "aaa,\"b \r\nbb\",ccc\nzzz" == "aaa,\"b \r\nbb\",ccc\n" + "zzz";
    assert "aaa,\"b \r\nbb\",ccc\n" == "aaa,\"b \r\nbb\",ccc" + [LineFeed];
    assert "aaa,\"b \r\nbb\",ccc" == "aaa,\"b \r\nbb\"," + "ccc";
    assert "aaa,\"b \r\nbb\"," == "aaa,\"b \r\nbb\"" + [','];
    assert "aaa,\"b \r\nbb\"" == "aaa,\"b \r\nbb" + [QuoteChar];
    assert "aaa,\"b \r\nbb" == "aaa,\"" + "b \r\nbb";
    assert "aaa,\"" == "aaa," + [QuoteChar];
    assert "aaa," == "aaa" + [','];
  }

  /** `testEmptyFields`: empty fields are written as nothing, so the delimiters
      stand next to each other and the row may end with one. */
  lemma EmptyFieldsShape(a: string, c: string, d: char)
    requires !NeedsQuotes(a, d) && !NeedsQuotes(c, d)
    ensures Document([[a, [], c, []]], d) == a + [d] + [d] + c + [d]
  {
    LineOfFour(a, [], c, [], d);
  }

  lemma EmptyFieldsOutput()
    ensures "zzz,,xxx," == "zzz" + [','] + [','] + "xxx" + [',']
  {
  }

  /** `testSemicolonDelimiter`: the configured delimiter separates the fields. */
  lemma ThreeFieldsShape(a: string, b: string, c: string, d: char)
    requires !NeedsQuotes(a, d) && !NeedsQuotes(b, d) && !NeedsQuotes(c, d)
    ensures Document([[a, b, c]], d) == a + [d] + b + [d] + c
  {
    LineOfThree(a, b, c, d);
  }

  lemma SemicolonDelimiterOutput()
    ensures "zzz;yyy;xxx" == "zzz" + [';'] + "yyy" + [';'] + "xxx"
  {
  }

  /** The text `testQuotedFields` of the writer expects, for the delimiter `d`
      that is `,`. */
  lemma QuotedFieldsText(d: char)
    requires d == ','
    ensures Document([["aaa", "b \r\nbb", "ccc"], ["zzz", "yyy", "xxx"]], d) == "aaa,\"b \r\nbb\",ccc\nzzz,yyy,xxx"
  {
    QuotedFieldsShape("aaa", "b \r\nbb", "ccc", "zzz", "yyy", "xxx", d);
    QuotedFieldsOutput();
  }

  /** `testQuotedFields` of the writer (Tests/CSVWriterTest.swift:24-38), for
      the delimiter `d` that is `,`: the two rows are written as the expected
      text, and parsing that text gives them back. */
  lemma WrittenQuotedFieldsVector(d: char, p: Policy)
    requires d == ','
    ensures Document([["aaa", "b \r\nbb", "ccc"], ["zzz", "yyy", "xxx"]], d) == "aaa,\"b \r\nbb\",ccc\nzzz,yyy,xxx"
    ensures Rows(Document([["aaa", "b \r\nbb", "ccc"], ["zzz", "yyy", "xxx"]], d), Configuration(d), p)
         == Ok([["aaa", "b \r\nbb", "ccc"], ["zzz", "yyy", "xxx"]])
  {
    QuotedFieldsText(d);
    LineOfThree("zzz", "yyy", "xxx", d);
    ConfiguredDelimitersValid(d);
    WriterRoundTrip([["aaa", "b \r\nbb", "ccc"], ["zzz", "yyy", "xxx"]], Configuration(d), p);
  }

  /** `testEmptyFields` of the writer (Tests/CSVWriterTest.swift:40-53): empty
      fields are written as nothing between delimiters, and read back as empty
      fields. */
  lemma WrittenEmptyFieldsVector(d: char, p: Policy)
    requires d == ','
    ensures Document([["zzz", "", "xxx", ""]], d) == "zzz,,xxx,"
    ensures Rows(Document([["zzz", "", "xxx", ""]], d), Configuration(d), p) == Ok([["zzz", "", "xxx", ""]])
  {
    EmptyFieldsShape("zzz", "xxx", d);
    EmptyFieldsOutput();
    ConfiguredDelimitersValid(d);
    WriterRoundTrip([["zzz", "", "xxx", ""]], Configuration(d), p);
  }

  /** `testSemicolonDelimiter` of the writer (Tests/CSVWriterTest.swift:55-69):
      a writer configured with `;` separates the fields with it. */
  lemma WrittenSemicolonDelimiterVector(d: char, p: Policy)
    requires d == ';'
    ensures Document([["zzz", "yyy", "xxx"]], d) == "zzz;yyy;xxx"
    ensures Rows(Document([["zzz", "yyy", "xxx"]], d), Configuration(d), p) == Ok([["zzz", "yyy", "xxx"]])
  {
    ThreeFieldsShape("zzz", "yyy", "xxx", d);
    SemicolonDelimiterOutput();
    ConfiguredDelimitersValid(d);
    WriterRoundTrip([["zzz", "yyy", "xxx"]], Configuration(d), p);
  }
}
