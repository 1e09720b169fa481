/** The XCTest cases of the parser and of the writer as methods: each builds the
    objects its test builds, calls what the test calls, and ensures what the
    test asserts. Parser tests hold for every `Policy`. */
module CsvTests {
  import opened CsvConfiguration
  import opened ParserDelegate
  import opened CsvParser
  import opened CsvWriter
  import opened CsvFormat
  import opened CsvRoundTrip
  import opened CsvParserVectors
  import opened CsvWriterVectors

  /** The set-up every parser test repeats: a parser for `input` with the
      delimiter `d`, a fresh `TestParserDelegate` installed on it, and one call
      of `parse()`; a thrown error is returned. */
  method ParseWithTestDelegate(input: string, d: char, p: Policy)
    returns (delegate: TestParserDelegate, error: Option<ParseError>)
    ensures error == ErrorOf(Rows(input, Configuration(d), p))
    ensures delegate.didBeginDocument && delegate.failures == 0
    ensures delegate.didEndDocument <==> error == None
    ensures error == None ==> delegate.content == Rows(input, Configuration(d), p).value
  {
    delegate := new TestParserDelegate();
    var parser := new Parser(input, Configuration(d), p, delegate);
    error := parser.Parse();
  }

  /** `testQuotedFields`: the parse does not throw, the document begins and
      ends, and the delegate holds the two expected lines. */
  method TestQuotedFields(p: Policy) returns (error: Option<ParseError>, didBegin: bool, didEnd: bool, content: seq<seq<string>>)
    ensures error == None && didBegin && didEnd
    ensures content == [["aaa", "b \r\nbb", "ccc"], ["zzz", "yyy", "xxx"]]
  {
    var delegate;
    delegate, error := ParseWithTestDelegate("\"aaa\",\"b \r\nbb\",\"ccc\" \r\nzzz,yyy,xxx", ',', p);
    QuotedFieldsVector(p);
    didBegin, didEnd, content := delegate.didBeginDocument, delegate.didEndDocument, delegate.content;
  }

  /** `testQuoteInQuotedFields`. */
  method TestQuoteInQuotedFields(p: Policy) returns (error: Option<ParseError>, content: seq<seq<string>>)
    ensures error == None && content == [["z\"zz", "", "xxx", ""]]
  {
    var delegate;
    delegate, error := ParseWithTestDelegate("\"z\"\"zz\";;xxx;", ';', p);
    QuoteInQuotedFieldsVector(p);
    content := delegate.content;
  }

  /** `testEmptyFields`. */
  method TestEmptyFields(p: Policy) returns (error: Option<ParseError>, content: seq<seq<string>>)
    ensures error == None && content == [["zzz", "", "xxx", ""]]
  {
    var delegate;
    delegate, error := ParseWithTestDelegate("zzz;;xxx;", ';', p);
    EmptyFieldsVector(p);
    content := delegate.content;
  }

  /** `testSemicolonDelimiter`. */
  method TestSemicolonDelimiter(p: Policy) returns (error: Option<ParseError>, content: seq<seq<string>>)
    ensures error == None && content == [["zzz", "yyy", "xxx"]]
  {
    var delegate;
    delegate, error := ParseWithTestDelegate("zzz;yyy;xxx", ';', p);
    SemicolonDelimiterVector(p);
    content := delegate.content;
  }

  /** `testCR`, `testLF` and `testCRLF`: the same two lines, whichever
      terminator ends the first. */
  method TestLineBreaks(t: Terminator, p: Policy) returns (error: Option<ParseError>, content: seq<seq<string>>)
    ensures error == None && content == [["First name", "Last name"], ["John", "Doe"]]
  {
    var input := match t
      case Cr => "First name,Last name\rJohn,Doe"
      case Lf => "First name,Last name\nJohn,Doe"
      case CrLf => "First name,Last name\r\nJohn,Doe";
    var delegate;
    delegate, error := ParseWithTestDelegate(input, ',', p);
    match t {
      case Cr => CRVector(p);
      case Lf => LFVector(p);
      case CrLf => CRLFVector(p);
    }
    content := delegate.content;
  }

  /** The number of texts of `testCSVSpectrumFiles`. */
  const SpectrumFileCount := 8

  /** The texts of `testCSVSpectrumFiles`, each with the lines it must give. */
  function SpectrumFile(k: nat): (string, seq<seq<string>>)
    requires k < SpectrumFileCount
  {
    if k == 0 then
      ("first,last,address,city,zip\nJohn,Doe,120 any st.,\"Anytown, WW\",08123",
       [["first", "last", "address", "city", "zip"], ["John", "Doe", "120 any st.", "Anytown, WW", "08123"]])
    else if k == 1 then ("a,b,c\n1,\"\",\"\"\n2,3,4", [["a", "b", "c"], ["1", "", ""], ["2", "3", "4"]])
    else if k == 2 then ("a,b\n1,\"ha \"\"ha\"\" ha\"\n3,4", [["a", "b"], ["1", "ha \"ha\" ha"], ["3", "4"]])
    else if k == 3 then
      ("key,val\n1,\"{\"\"type\"\": \"\"Point\"\", \"\"coordinates\"\": [102.0, 0.5]}\"",
       [["key", "val"], ["1", "{\"type\": \"Point\", \"coordinates\": [102.0, 0.5]}"]])
    else if k == 4 then
      ("a,b,c\n1,2,3\n\"Once upon\na time\",5,6\n7,8,9",
       [["a", "b", "c"], ["1", "2", "3"], ["Once upon\na time", "5", "6"], ["7", "8", "9"]])
    else if k == 5 then ("a,b,c\n1,2,3", [["a", "b", "c"], ["1", "2", "3"]])
    else if k == 6 then ("a,b,c\r\n1,2,3", [["a", "b", "c"], ["1", "2", "3"]])
    else ("a,b,c\r\n1,2,3\n4,5,\U{02A4}", [["a", "b", "c"], ["1", "2", "3"], ["4", "5", "\U{02A4}"]])
  }

  /** Every text of `testCSVSpectrumFiles` parses to its lines. */
  lemma SpectrumFileParses(k: nat, p: Policy)
    requires k < SpectrumFileCount
    ensures Rows(SpectrumFile(k).0, Configuration(','), p) == Ok(SpectrumFile(k).1)
  {
    if k < 4 {
      FirstSpectrumFilesParse(k, p);
    } else {
      LastSpectrumFilesParse(k, p);
    }
  }

  lemma FirstSpectrumFilesParse(k: nat, p: Policy)
    requires k < 4
    ensures Rows(SpectrumFile(k).0, Configuration(','), p) == Ok(SpectrumFile(k).1)
  {
    if k == 0 { CommaInQuotesVector(p); }
    else if k == 1 { EmptyQuotedVector(p); }
    else if k == 2 { EscapedQuotesVector(p); }
    else { JsonVector(p); }
  }

  lemma LastSpectrumFilesParse(k: nat, p: Policy)
    requires 4 <= k < SpectrumFileCount
    ensures Rows(SpectrumFile(k).0, Configuration(','), p) == Ok(SpectrumFile(k).1)
  {
    if k == 4 { NewlinesVector(p); }
    else if k == 5 { SimpleVector(p); }
    else if k == 6 { SimpleCrlfVector(p); }
    else { Utf8Vector(p); }
  }

  /** `testCSVSpectrumFiles`: each text is parsed with a fresh delegate, whose
      own failed checks count; a thrown error or a wrong number of lines ends
      the test with a failure, and every line that differs from the expected
      one is a failure. No failure occurs. */
  method TestCSVSpectrumFiles(p: Policy) returns (failures: int)
    ensures failures == 0
  {
    failures := 0;
    for k := 0 to SpectrumFileCount
      invariant failures == 0
    {
      var (key, value) := SpectrumFile(k);
      SpectrumFileParses(k, p);
      var delegate, error := ParseWithTestDelegate(key, ',', p);
      failures := failures + delegate.failures;
      if error != None || |delegate.content| != |value| {
        failures := failures + 1;
        break;
      }
      for index := 0 to |value|
        invariant failures == 0
      {
        if value[index] != delegate.content[index] {
          failures := failures + 1;
        }
      }
    }
  }

  /** The writer tests' set-up (Tests/CSVWriterTest.swift:16-22): a writer
      over an in-memory stream with the delimiter `d`; then `writeLine` of each
      row in turn, and the data written to the stream. */
  method WriteRows(rows: seq<seq<string>>, d: char) returns (written: string)
    ensures written == Document(rows, d)
  {
    var writer := new Writer(Configuration(d));
    for k := 0 to |rows|
      invariant writer.Valid() && writer.configuration == Configuration(d)
      invariant writer.rows == rows[..k]
    {
      writer.WriteLine(rows[k]);
      assert rows[..k + 1] == rows[..k] + [rows[k]];
    }
    assert rows[..|rows|] == rows;
    written := writer.output;
  }

  /** `testQuotedFields` of the writer (Tests/CSVWriterTest.swift:24-38): the
      two rows are written as the expected text, and parsing that text gives
      them back. */
  method TestWriterQuotedFields(p: Policy) returns (written: string)
    ensures written == "aaa,\"b \r\nbb\",ccc\nzzz,yyy,xxx"
    ensures Rows(written, Configuration(','), p) == Ok([["aaa", "b \r\nbb", "ccc"], ["zzz", "yyy", "xxx"]])
  {
    written := WriteRows([["aaa", "b \r\nbb", "ccc"], ["zzz", "yyy", "xxx"]], ',');
    CsvWriterVectors.WrittenQuotedFieldsVector(',', p);
  }

  /** `testEmptyFields` of the writer (Tests/CSVWriterTest.swift:40-53). */
  method TestWriterEmptyFields(p: Policy) returns (written: string)
    ensures written == "zzz,,xxx,"
    ensures Rows(written, Configuration(','), p) == Ok([["zzz", "", "xxx", ""]])
  {
    written := WriteRows([["zzz", "", "xxx", ""]], ',');
    CsvWriterVectors.WrittenEmptyFieldsVector(',', p);
  }

  /** `testSemicolonDelimiter` of the writer (Tests/CSVWriterTest.swift:55-69):
      a writer configured with `;`. */
  method TestWriterSemicolonDelimiter(p: Policy) returns (written: string)
    ensures written == "zzz;yyy;xxx"
    ensures Rows(written, Configuration(';'), p) == Ok([["zzz", "yyy", "xxx"]])
  {
    written := WriteRows([["zzz", "yyy", "xxx"]], ';');
    CsvWriterVectors.WrittenSemicolonDelimiterVector(';', p);
  }
}
