/** The characters the CSV format gives a meaning to, and the one setting the
    codec has: the field delimiter. The quote character is fixed. */
module CsvConfiguration {

  const QuoteChar: char := '"'
  const CarriageReturn: char := '\r'
  const LineFeed: char := '\n'
  const Space: char := ' '

  /** The configuration shared by a parser and a writer (`CSV.Configuration`). */
  datatype Configuration = Configuration(delimiter: char)

  predicate IsLineBreak(c: char)
  {
    c == CarriageReturn || c == LineFeed
  }

  /** A delimiter that cannot be confused with the quote or with a line break. */
  predicate ValidDelimiter(d: char)
  {
    d != QuoteChar && !IsLineBreak(d)
  }

  /** The delimiters the tests configure, `,` and `;`, are valid ones. */
  lemma ConfiguredDelimitersValid(d: char)
    requires d == ',' || d == ';'
    ensures ValidDelimiter(d) && d != Space
  {
  }
}
