# swift-csv in Dafny

A model of the CSV codec of swift-csv: `CSV.Parser`, `CSV.Writer` and
`CSV.Configuration`, together with the test delegate and the test cases that
define their behaviour.

The parser's and writer's behaviour is taken from the repository's tests and
from RFC 4180:

- the input/output vectors of `Tests/CSVParserTest.swift` and
  `Tests/CSVWriterTest.swift`;
- the CSV format of section 2 of RFC 4180, with two changes: the delimiter is
  configurable, and a lone CR or a lone LF also ends a line.

## What is modelled

- **`CsvConfiguration`** holds:
  - the fixed characters (quote, CR, LF, space);
  - `Configuration(delimiter)`;
  - `ValidDelimiter`, which says a delimiter is neither the quote nor a line break.
- **`ParserDelegate.TestParserDelegate`** is the test delegate, as a class with
  the same fields.
  - A line begin records the index and clears `currentFieldValues`.
  - A field read appends to `currentFieldValues`.
  - A line end appends the line to `content`. When no line has begun, or the
    indices differ, the test fails; `failures` counts these failures.
- **`CsvParser`** holds the state machine: before field, in unquoted field,
  in quoted field, quote seen in quoted field, and after a quoted field (a
  closing quote confirmed by a skipped character). It is written two ways:
  - as pure functions over the rest of the input: `Step`, `Finish`, `Run`, and
    the reference results `Rows` and `Events`;
  - as the class `Parser`. Its `Parse` loop reads one character at a time,
    updates its fields and calls the delegate. It is proved to push exactly
    `Events(input)` and to leave the delegate's `content` equal to the rows
    ended before any error (the `Ok` value of `Rows(input)` on success).
- **`CsvFormat`** describes a family of texts the parser reads back, as a `Layout`:
  - each field is bare, or quoted with its quotes doubled and optionally
    followed by spaces;
  - each line ends with LF, CR or CR LF.

  `ParseText` proves that the text of a `Readable` layout parses to exactly
  its table. `Readable` asks for:
  - a delimiter that is neither the quote nor a line break (`ValidDelimiter`);
  - bare cells that hold no delimiter, quote or line break, and no spaces
    after a closing quote when the space is the delimiter;
  - no LF right after a CR terminator (the two would read as one CR LF);
  - under `LineBeforeInput`, a nonempty text with something after every
    terminator.

  The converse is not claimed: the parser also reads texts that no layout
  writes, such as `a"b`, which gives the one value `a"b`
  (`CsvFormat.QuoteInBareField`).
  `TerminatorsInterchangeable` proves that the three terminators give the same rows.
- **`CsvWriter`** holds the per-field quoting decision, doubling, `Line`, `Document`,
  and the class `Writer`. `Writer` has an output string and the
  "already wrote a line" flag, which puts one LF between rows and none after the last.
- **`CsvRoundTrip`** proves that parsing the writer's output gives back the
  rows written, with the same configuration (`WriterRoundTrip`). It also
  proves the other direction: writing the rows of a successful parse and
  parsing the result gives the same rows (`ParseWriteParse`). That needs one
  exclusion under `LineBeforeInput`, which `NewlineRewritten` exhibits.
- **`CsvPlainLines`**: a line without quotes or line breaks is split at every
  delimiter, so k delimiters give one row of k + 1 fields. The writer joins the
  pieces back into the line.
- **`CsvParserVectors` and `CsvWriterVectors`**:
  - Each test string is an instance of a general "shape" lemma. The shape lemma
    is stated over arbitrary field values and an arbitrary delimiter.
  - Each vector lemma applies its shape to the test's own literals.
- **`CsvTests`** has the XCTest cases as methods. Each builds the test's objects
  (parser and `TestParserDelegate`, or writer), calls what the test calls, and
  ensures what the test asserts.

Three choices that no test exercises are kept open as a `Policy` parameter,
and every parser test is proved for every policy:

- a character after a closing quote that is neither a space, the delimiter nor
  a line terminator is dropped, rejected as malformed, or appended (the rest of
  the field is then read as if unquoted);
- an unterminated quoted field at the end of the input is rejected, or closed;
- whether a line begins at the end of the input, which decides what empty input
  and a trailing terminator give.

Other behaviour no test shows is fixed rather than left open:

- A space after a closing quote is skipped under every policy. The test shows
  this only for a space right before a line end (Tests/CSVParserTest.swift:56,
  :65); the model skips it before a delimiter or a stray character as well.
- Once a character after a closing quote has been skipped, the quote is known
  to have closed the field. The machine then moves to a fifth state,
  `AfterQuotedField`, where a further quote is a stray character, not an
  escape. So `"a" "b"` never reads as `a"b` (`CsvFormat.SpaceThenQuote`).
- A quote inside an unquoted field, which rule 5 of section 2 of RFC 4180 does
  not allow, is kept in the value rather than rejected
  (`CsvFormat.QuoteInBareField`).

Two places where the evidence and RFC 4180 leave a choice:

- **Stray character after a closing quote.** RFC 4180 leaves it open; a
  lenient implementation could append the character. The test at
  Tests/CSVParserTest.swift:56/:65 rules this out for a space only, so the
  model skips spaces and leaves every other stray character to the policy.
- **The writer's quoting rule.** The writer quotes a field that holds the
  delimiter or a quote, and doubles the quotes inside it. This follows rules 6
  and 7 of section 2 of RFC 4180. The writer tests only show quoting for a
  field with a line break.

## Model

| member | source | states |
|---|---|---|
| CsvConfiguration.ConfiguredDelimitersValid | Tests/CSVParserTest.swift:57 | the delimiters the tests configure (`,` here, `;` at Tests/CSVParserTest.swift:73 and Tests/CSVWriterTest.swift:56) are neither the quote, a line break nor a space, so every theorem that requires `ValidDelimiter` applies to them; each parser and writer vector lemma discharges its shape's `ValidDelimiter` through it |
| ParserDelegate.TestParserDelegate.constructor | Tests/CSVParserTest.swift:11-18 | a new delegate has seen nothing: no document begin or end, no line index, no content, no failures |
| ParserDelegate.TestParserDelegate.ParserDidBeginDocument | Tests/CSVParserTest.swift:20-23 | sets `didBeginDocument` and changes nothing else |
| ParserDelegate.TestParserDelegate.ParserDidEndDocument | Tests/CSVParserTest.swift:25-28 | sets `didEndDocument` and changes nothing else |
| ParserDelegate.TestParserDelegate.ParserDidBeginLine | Tests/CSVParserTest.swift:30-34 | records the line index and empties `currentFieldValues`; nothing else changes |
| ParserDelegate.TestParserDelegate.ParserDidEndLine | Tests/CSVParserTest.swift:36-45 | without a begun line: one failure and nothing recorded; otherwise appends the current fields to `content`, with one failure exactly when the indices differ |
| ParserDelegate.TestParserDelegate.ParserDidReadField | Tests/CSVParserTest.swift:47-50 | appends the value to `currentFieldValues`; nothing else changes |
| CsvParser.LineBreakStep | Tests/CSVParserTest.swift:101-141 | a CR or LF is added to the field only inside quotes; anywhere else it completes the field and the line, with CR LF consumed as one terminator |
| CsvParser.Step | Tests/CSVParserTest.swift:55-99 | every transition consumes input and keeps the lines already ended; the parse stops exactly on a stray character after a closing quote under `RejectStray`, with the index of the current line as its error |
| CsvParser.Finish | Tests/CSVParserTest.swift:60-63 | at the end of the input only an unterminated quote under `RejectUnterminated` stops the parse, leaving the machine as it was; otherwise the open line is completed with the field being read, and no line is left open |
| CsvParser.Run | Tests/CSVParserTest.swift:60-63 | the lines already ended are a prefix of the result; a finished run has closed its last line; a stopped run names the line it stopped on and happens only under a rejecting policy |
| CsvParser.QuoteFreeRun | Tests/CSVParserTest.swift:81-99 | input without a quote, read from outside quotes, is always read to its end |
| CsvParser.RowsFail | Tests/CSVParserTest.swift:60-68 | an input without a quote never fails, and with both lenient policies no input fails |
| CsvParser.FieldEventsRead | Tests/CSVParserTest.swift:47-50 | one field-read event per field, in order, with the field's value |
| CsvParser.FramedLines | Tests/CSVParserTest.swift:30-45 | the events of complete lines hold no document event, begin with line 0's begin and end with the last line's end |
| CsvParser.EmittedBegun | Tests/CSVParserTest.swift:20-50 | the events pushed at any point start with the one document begin and hold no document end |
| CsvParser.EventsFramed | Tests/CSVParserTest.swift:60-63 | the document always begins; it ends exactly when the parse succeeds, and then the end is the last event and occurs once |
| CsvFormat.SpaceThenQuote | Tests/CSVParserTest.swift:56-65 | after a closing quote and a skipped space a quote is stray, not an escape: `"a" "b"` gives `a` when strays are dropped, an error when they are rejected, and `a"b"` when they are appended |
| CsvFormat.QuoteInBareField | Tests/CSVParserTest.swift:92-98 | no test puts a quote inside a bare field; these lines show a bare field read verbatim up to the delimiter, and the model's unquoted-field transition keeps every character but the delimiter and a line break, so a quote inside it is kept: `a"b` gives the one value `a"b` under every policy, a text the parser reads back that no readable layout writes |
| CsvFormat.StraysAfterQuote | Tests/CSVParserTest.swift:56-65 | a quote, a character and a quote after a confirmed closing quote are all stray: dropped, rejected with the current line's index, or appended to the field, as the policy says |
| CsvFormat.StrayStep | Tests/CSVParserTest.swift:56-65 | a stray character after a closing quote is dropped, or starts an unquoted rest of the field that it is appended to, as the policy says |
| CsvParser.EventsOfRows | Tests/CSVParserTest.swift:30-48 | a successful parse pushes document begin, then for each line begin(i), its fields in order, end(i) with the same index, then document end |
| CsvParser.Parser.constructor | Tests/CSVParserTest.swift:57-59 | a parser over the input and configuration, with the delegate installed and nothing read yet |
| CsvParser.Parser.BeginLine | Tests/CSVParserTest.swift:30-34 | the machine opens a line; the delegate and the event log agree with it |
| CsvParser.Parser.ReadField | Tests/CSVParserTest.swift:47-50 | the buffer becomes the line's next field (the machine's `EndField`) and reaches the delegate |
| CsvParser.Parser.FinishLine | Tests/CSVParserTest.swift:36-45 | the line's fields become a row (the machine's `EndLine`); the delegate records them under a matching index |
| CsvParser.Parser.CompleteField | Tests/CSVParserTest.swift:129-141 | a delimiter or a line terminator (CR LF as one) ends the field exactly as the machine's `Terminate` does |
| CsvParser.Parser.ReadCharacter | Tests/CSVParserTest.swift:55-69 | one character moves the parser exactly as the machine's `Step`; on a stray character the state is unchanged and the error is the machine's |
| CsvParser.Parser.ReadAfterQuote | Tests/CSVParserTest.swift:55-69 | a character after a closing quote moves the parser exactly as the machine's `AfterQuote`: a delimiter or line break ends the field, a space is skipped, and a stray character follows the policy |
| CsvParser.Parser.FinishInput | Tests/CSVParserTest.swift:62-63 | at the end of the input the parser does what the machine's `Finish` does: an unterminated quote may stop it with the machine's error, leaving the events and content as they were; otherwise the open line is completed and the document end reaches the delegate |
| CsvParser.Parser.Parse | Tests/CSVParserTest.swift:60-63 | the events pushed are `Events(input)`; the error is the reference one; the document always begins, ends exactly when no error occurs, and the delegate's content is the rows read |
| CsvParser.EmittedEndLine | Tests/CSVParserTest.swift:36-45 | ending an open line pushes a line end with the index of its line begin, completing that line's frame |
| CsvFormat.FieldRun | Tests/CSVParserTest.swift:56-65 | a field written bare, or quoted with doubled quotes and trailing spaces, is read as its value |
| CsvFormat.LayoutRun | Tests/CSVParserTest.swift:143-169 | running the machine over a well-written text adds exactly that text's rows |
| CsvFormat.ParseText | Tests/CSVParserTest.swift:143-169 | every readable text parses to exactly its table, with the well-formed event frame around it |
| CsvFormat.TerminatorsInterchangeable | Tests/CSVParserTest.swift:101-141 | writing every line end as LF, CR or CR LF keeps a text readable and gives the same rows |
| CsvWriter.NeedsQuotes | Tests/CSVWriterTest.swift:25-33 | a field is quoted when it holds CR, LF, the delimiter or the quote (the line-break case is what the test shows; the delimiter and the quote follow rules 6 and 7 of section 2 of RFC 4180); the empty field never is |
| CsvWriter.EscapedForm | Tests/CSVWriterTest.swift:25-33 | the written field is never shorter than the field, equals it exactly when it needs no quotes, and otherwise is at least two longer and begins and ends with a quote |
| CsvWriter.LineSize | Tests/CSVWriterTest.swift:41-48 | a line has at least one character per delimiter between fields, and is empty exactly for no field or one empty field |
| CsvWriter.DocumentSize | Tests/CSVWriterTest.swift:25-33 | a document has at least one character per line feed between rows, and is empty exactly for no rows or one row written as nothing |
| CsvWriter.Doubled | Tests/CSVWriterTest.swift:25-33 | doubling never shortens a field and leaves one without quotes as it is |
| CsvWriter.DoubledAppend | Tests/CSVWriterTest.swift:25-33 | doubling distributes over concatenation |
| CsvWriter.DocumentAppend | Tests/CSVWriterTest.swift:25-26 | one more row appends exactly one LF and that row's line |
| CsvWriter.Writer.constructor | Tests/CSVWriterTest.swift:16-22 | a writer with the configuration and empty output |
| CsvWriter.Writer.WriteLine | Tests/CSVWriterTest.swift:25-26 | the output only grows: a LF if a row was written before, then the row's line; the output stays the document of all rows written |
| CsvRoundTrip.WrittenCell | Tests/CSVWriterTest.swift:25-33 | the writer's form of a field carries the field's value, is one the parser reads back, and its text is the escaped field |
| CsvRoundTrip.WriterText | Tests/CSVWriterTest.swift:25-33 | the writer's output is the text of the writer's layout |
| CsvRoundTrip.WriterTable | Tests/CSVWriterTest.swift:25-33 | that layout's table is the rows written |
| CsvRoundTrip.WriterWellWritten | Tests/CSVWriterTest.swift:25-33 | the writer only writes texts the parser reads back |
| CsvRoundTrip.WriterRoundTrip | Tests/CSVWriterTest.swift:25-33 | parsing the writer's output for rows without empty rows gives back those rows, with the well-formed event frame |
| CsvRoundTrip.StepRows | Tests/CSVParserTest.swift:36-45 | one transition keeps the ended lines and ends at most one more, made of the line's fields and the field being read |
| CsvRoundTrip.RunRowsWritable | Tests/CSVParserTest.swift:81-89 | along a run every ended line has at least one field (a trailing empty field is kept), and when every terminator begins a line a completed run has ended a line |
| CsvRoundTrip.ParsedRows | Tests/CSVParserTest.swift:81-89 | a successful parse yields no line without a field, and at least one line when every terminator begins a line |
| CsvRoundTrip.ParseWriteParse | Tests/CSVParserTest.swift:55-69 | writing the rows of any successful parse (these are the rows Tests/CSVWriterTest.swift:25-26 writes) and parsing the output gives the same rows, with only a last line of one empty field excluded under `LineBeforeInput` |
| CsvRoundTrip.NewlineRewritten | Tests/CSVParserTest.swift:116 | the excluded case: under `LineBeforeInput` a lone line feed reads as one line of one empty field, the writer writes that as the empty text, and the empty text reads as no line |
| CsvPlainLines.SplitFields | Tests/CSVParserTest.swift:82-88 | the pieces between delimiters: one more than there are delimiters, none holding the delimiter or a character not in the line |
| CsvPlainLines.SplitJoin | Tests/CSVWriterTest.swift:41-48 | the writer joins the pieces of a line without quotes or line breaks back into that line |
| CsvPlainLines.PlainLine | Tests/CSVParserTest.swift:81-89 | a line without quotes or line breaks parses to one row of its pieces, so k delimiters give k + 1 fields (empty ones included) |
| CsvParserVectors.QuotedFieldsShape | Tests/CSVParserTest.swift:56-68 | quoted fields lose their quotes, keep an inner CR LF, drop a space after the closing quote, and an outer CR LF ends the line |
| CsvParserVectors.QuotedFieldsVector | Tests/CSVParserTest.swift:55-69 | the test's input parses to its two lines |
| CsvParserVectors.QuoteInQuotedFieldsShape | Tests/CSVParserTest.swift:72-78 | a doubled quote inside quotes is one quote in the value; adjacent and trailing delimiters give empty fields |
| CsvParserVectors.QuoteInQuotedFieldsVector | Tests/CSVParserTest.swift:71-79 | the test's input parses to its line |
| CsvParserVectors.EmptyFieldsShape | Tests/CSVParserTest.swift:82-88 | adjacent and trailing delimiters each give an empty field |
| CsvParserVectors.EmptyFieldsVector | Tests/CSVParserTest.swift:81-89 | the test's input parses to its four fields |
| CsvParserVectors.SemicolonDelimiterShape | Tests/CSVParserTest.swift:92-98 | three bare fields split at the configured delimiter |
| CsvParserVectors.SemicolonDelimiterVector | Tests/CSVParserTest.swift:91-99 | the test's input parses to its line |
| CsvParserVectors.CommaInQuotesShape | Tests/CSVParserTest.swift:145 | a delimiter inside quotes does not split the field |
| CsvParserVectors.CommaInQuotesVector | Tests/CSVParserTest.swift:145 | the first spectrum text parses to its lines |
| CsvParserVectors.EmptyQuotedShape | Tests/CSVParserTest.swift:146 | `""` is the empty field |
| CsvParserVectors.EmptyQuotedVector | Tests/CSVParserTest.swift:146 | the second spectrum text parses to its lines |
| CsvParserVectors.EscapedQuotesShape | Tests/CSVParserTest.swift:147 | several doubled quotes in one quoted field each become one quote |
| CsvParserVectors.EscapedQuotesVector | Tests/CSVParserTest.swift:147 | the third spectrum text parses to its lines |
| CsvParserVectors.JsonShape | Tests/CSVParserTest.swift:148 | a quoted field with doubled quotes, delimiters and spaces keeps them all |
| CsvParserVectors.JsonVector | Tests/CSVParserTest.swift:148 | the fourth spectrum text parses to its lines |
| CsvParserVectors.NewlinesShape | Tests/CSVParserTest.swift:149 | a LF inside quotes does not start a row, and the row count is exact |
| CsvParserVectors.NewlinesVector | Tests/CSVParserTest.swift:149 | the fifth spectrum text parses to its four lines |
| CsvParserVectors.SimpleShape | Tests/CSVParserTest.swift:150-151 | two lines of bare fields, for any terminator |
| CsvParserVectors.SimpleVector | Tests/CSVParserTest.swift:150 | the sixth spectrum text parses to its lines |
| CsvParserVectors.SimpleCrlfVector | Tests/CSVParserTest.swift:151 | the seventh spectrum text (CR LF) parses to the same lines |
| CsvParserVectors.Utf8Shape | Tests/CSVParserTest.swift:152 | CR LF and LF mixed in one document each end a line |
| CsvParserVectors.Utf8Vector | Tests/CSVParserTest.swift:152 | the eighth spectrum text parses to its lines |
| CsvParserVectors.LineBreaksShape | Tests/CSVParserTest.swift:101-141 | two lines of two fields, for any terminator |
| CsvParserVectors.CRVector | Tests/CSVParserTest.swift:101-113 | lone CR ends a line |
| CsvParserVectors.LFVector | Tests/CSVParserTest.swift:115-127 | lone LF ends a line |
| CsvParserVectors.CRLFVector | Tests/CSVParserTest.swift:129-141 | CR LF ends a line |
| CsvWriterVectors.LineOfThree | Tests/CSVWriterTest.swift:25 | a row of three fields is their escaped forms joined by one delimiter each |
| CsvWriterVectors.LineOfFour | Tests/CSVWriterTest.swift:41 | a row of four fields is their escaped forms joined by one delimiter each |
| CsvWriterVectors.DocumentOfTwo | Tests/CSVWriterTest.swift:25-26 | two rows are their lines with one LF between them and none after |
| CsvWriterVectors.QuotedFieldsShape | Tests/CSVWriterTest.swift:25-33 | a field with a line break is written between quotes, verbatim; the others bare |
| CsvWriterVectors.QuotedFieldsText | Tests/CSVWriterTest.swift:33 | the two test rows are written as the expected text |
| CsvWriterVectors.EmptyFieldsShape | Tests/CSVWriterTest.swift:41-48 | empty fields are written as nothing between delimiters |
| CsvWriterVectors.ThreeFieldsShape | Tests/CSVWriterTest.swift:57-64 | three plain fields are joined by the configured delimiter |
| CsvWriterVectors.WrittenQuotedFieldsVector | Tests/CSVWriterTest.swift:24-38 | the expected text is written and parses back to the rows |
| CsvWriterVectors.WrittenEmptyFieldsVector | Tests/CSVWriterTest.swift:40-53 | the expected text is written and parses back to the row |
| CsvWriterVectors.WrittenSemicolonDelimiterVector | Tests/CSVWriterTest.swift:55-69 | the expected text is written with `;` and parses back to the row |
| CsvTests.ParseWithTestDelegate | Tests/CSVParserTest.swift:57-60 | a fresh parser and delegate: the error is the reference one, the document begins, ends exactly without error, no check fails, and the content is the reference rows |
| CsvTests.TestQuotedFields | Tests/CSVParserTest.swift:55-69 | no error, document begun and ended, the two expected lines |
| CsvTests.TestQuoteInQuotedFields | Tests/CSVParserTest.swift:71-79 | no error and the expected line |
| CsvTests.TestEmptyFields | Tests/CSVParserTest.swift:81-89 | no error and the expected line |
| CsvTests.TestSemicolonDelimiter | Tests/CSVParserTest.swift:91-99 | no error and the expected line |
| CsvTests.TestLineBreaks | Tests/CSVParserTest.swift:101-141 | for CR, LF and CR LF: no error and the same two lines |
| CsvTests.SpectrumFileParses | Tests/CSVParserTest.swift:144-153 | each spectrum text parses to its expected lines |
| CsvTests.TestCSVSpectrumFiles | Tests/CSVParserTest.swift:143-170 | no text throws, has the wrong number of lines, or has a line that differs |
| CsvTests.WriteRows | Tests/CSVWriterTest.swift:16-22 | a fresh writer given the rows in turn writes their document |
| CsvTests.TestWriterQuotedFields | Tests/CSVWriterTest.swift:24-38 | the written text is the expected one, and it parses back to the rows |
| CsvTests.TestWriterEmptyFields | Tests/CSVWriterTest.swift:40-53 | the written text is the expected one, and it parses back to the row |
| CsvTests.TestWriterSemicolonDelimiter | Tests/CSVWriterTest.swift:55-69 | the written text is the expected one, and it parses back to the row |

## Left out

- The `OutputStream`, the `Data` read back from it and its UTF-8 decoding
  (Tests/CSVWriterTest.swift:19-21, 27, 32): the sink is the string `Writer.output`.
- Stream write failures: they are I/O errors of the sink, so `WriteLine` cannot fail.
- The XCTest harness and the `print` logging of the delegate. An assertion that
  fails is counted in `TestParserDelegate.failures`, or in the result of a test method.
- Unicode detail: characters are opaque `char`s, so the `ʤ` of
  Tests/CSVParserTest.swift:152 is one character.
- TestCSVSpectrumFiles: visits the texts in a fixed order. Swift's dictionary
  iteration order is unspecified, and every text is checked anyway.
- A delimiter that is the quote or a line break: a configuration could reject
  such a delimiter when it is built. The model leaves `Configuration`
  unchecked, and its theorems require `ValidDelimiter` instead.
- The following untested choices are `Policy` parameters and are not asserted:
  - a character after a closing quote other than a space, the delimiter or a
    line terminator;
  - an unterminated quote at the end of the input;
  - empty input and a trailing line terminator.
- Parser.Parse: on an error, the events of the unfinished line already pushed
  are not retracted. The line's begin and its completed fields stay in the log.
  No test shows whether the events of an unterminated line are emitted.
- ParserDelegate.TestParserDelegate.ParserDidReadField: the field index that
  the callback receives (Tests/CSVParserTest.swift:47) is not modelled, and
  neither is it in `FieldRead`. The test delegate ignores it.
- CsvRoundTrip.WriterRoundTrip: needs every row to have a field. A row with no
  fields is written as an empty line, which reads back as one empty field.
- CsvRoundTrip.WriterRoundTrip: under `LineBeforeInput`, also needs the last
  row's line not to be empty, because an empty input reads as no rows; the
  empty document itself reads back as no rows there. Under
  `LineAfterEveryTerminator` it needs at least one row, because the empty
  document reads back as one row with one empty field.
- CsvRoundTrip.ParseWriteParse: writing a parse's rows and parsing them again
  gives the same rows for every successful parse, except under
  `LineBeforeInput` when the last line is one empty field. The writer writes
  that line as nothing, so a text like a lone line feed reads as one line of
  one empty field, is written as the empty text, and reads back as no line
  (`NewlineRewritten`).
- A delegate that stops the parse by returning an error: the test delegate
  never does.
