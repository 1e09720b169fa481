/** A family of texts the parser reads back: a table of field values written
    with any mix of the allowed forms (a field bare or between quotes, spaces
    after a closing quote, lines ended by LF, CR or CR LF). The theorem
    `ParseText` says that the parser returns exactly the table for every such
    text that is `Readable`. The converse is not claimed: the parser also
    reads texts no layout writes (`QuoteInBareField`). */
module CsvFormat {
  import opened CsvConfiguration
  import opened CsvParser
  import opened CsvWriter

  /** How a field is written: as it is, or between quotes with its quotes
      doubled and followed by some spaces. */
  datatype Form = Bare | Quoted(trailingSpaces: nat)
  datatype Cell = Cell(value: string, form: Form)
  datatype Terminator = Lf | Cr | CrLf

  /** A written text as the sequence of its fields, each followed by the
      delimiter, by a line terminator, or by the end of the text. */
  datatype Layout =
    | Last(cell: Cell)
    | Delimited(cell: Cell, rest: Layout)
    | Terminated(cell: Cell, t: Terminator, rest: Layout)

  function Spaces(n: nat): (r: string)
    ensures |r| == n
  {
    if n == 0 then [] else [Space] + Spaces(n - 1)
  }

  function FieldText(c: Cell): string
  {
    match c.form
    case Bare => c.value
    case Quoted(n) => [QuoteChar] + Doubled(c.value) + [QuoteChar] + Spaces(n)
  }

  function TerminatorText(t: Terminator): (r: string)
    ensures r != [] && IsLineBreak(r[0])
  {
    match t
    case Lf => [LineFeed]
    case Cr => [CarriageReturn]
    case CrLf => [CarriageReturn, LineFeed]
  }

  function Text(l: Layout, d: char): string
  {
    match l
    case Last(c) => FieldText(c)
    case Delimited(c, r) => FieldText(c) + [d] + Text(r, d)
    case Terminated(c, t, r) => FieldText(c) + TerminatorText(t) + Text(r, d)
  }

  /** The rows a layout stands for, when `fields` have already been read on
      its first line. */
  function Grouped(fields: seq<string>, l: Layout): seq<seq<string>>
    decreases l
  {
    match l
    case Last(c) => [fields + [c.value]]
    case Delimited(c, r) => Grouped(fields + [c.value], r)
    case Terminated(c, _, r) => [fields + [c.value]] + Grouped([], r)
  }

  function Table(l: Layout): seq<seq<string>>
  {
    Grouped([], l)
  }

  /** A bare field holds nothing the parser would stop at; spaces after a
      closing quote are only skipped when the space is not the delimiter. */
  predicate Writable(c: Cell, d: char)
  {
    match c.form
    case Bare => !NeedsQuotes(c.value, d)
    case Quoted(n) => n > 0 ==> d != Space
  }

  /** Every cell is writable; the text after a CR terminator does not start
      with a line feed (which would join the two into one CR LF); and unless
      every terminator begins a line, a terminator is not the end of the text. */
  predicate WellWritten(l: Layout, d: char, p: Policy)
  {
    match l
    case Last(c) => Writable(c, d)
    case Delimited(c, r) => Writable(c, d) && WellWritten(r, d, p)
    case Terminated(c, t, r) =>
      Writable(c, d) &&
      (t == Cr && Text(r, d) != [] ==> Text(r, d)[0] != LineFeed) &&
      (p.lineStart == LineBeforeInput ==> Text(r, d) != []) &&
      WellWritten(r, d, p)
  }

  /** The layouts whose text the parser reads back as their table: a valid
      delimiter, a well-written layout and, unless every terminator begins a
      line, a nonempty text. */
  predicate Readable(l: Layout, d: char, p: Policy)
  {
    ValidDelimiter(d) && WellWritten(l, d, p) &&
    (p.lineStart == LineBeforeInput ==> Text(l, d) != [])
  }

  /** Which state the machine is in right after a field written as `c`. */
  function StateAfter(c: Cell): State
  {
    match c.form
    case Bare => if c.value == [] then BeforeField else InUnquotedField
    case Quoted(n) => if n == 0 then QuoteInQuotedField else AfterQuotedField
  }

  /** The first character of a nonempty text followed by more input, and what follows it. */
  lemma Front(v: string, rest: string)
    requires v != []
    ensures v + rest == [v[0]] + (v[1..] + rest)
  {
    assert v == [v[0]] + v[1..];
  }

  /** One transition, as seen from the run. */
  lemma RunAdvance(m: Machine, w: string, p: Policy, d: char, m': Machine, rest: string)
    requires w != [] && Step(m, w, p, d) == Advance(m', rest)
    ensures Run(m, w, p, d) == Run(m', rest, p, d)
  {
  }

  /** The character at the front of `[ch] + rest`, and what follows it. */
  lemma Head(ch: char, rest: string)
    ensures ([ch] + rest)[0] == ch && ([ch] + rest)[1..] == rest
  {
  }

  /** Inside an unquoted field, characters other than the delimiter, a quote
      and the line breaks are appended to the field. */
  lemma {:induction false} UnquotedRun(m: Machine, v: string, rest: string, p: Policy, d: char)
    requires m.state == InUnquotedField && !NeedsQuotes(v, d)
    ensures Run(m, v + rest, p, d) == Run(m.(buffer := m.buffer + v), rest, p, d)
    decreases |v|
  {
    if v == [] {
      assert v + rest == rest;
      assert m.(buffer := m.buffer + v) == m;
    } else {
      var m1 := m.(buffer := m.buffer + [v[0]]);
      Front(v, rest);
      assert v[0] in v;
      UnquotedCharStep(m, v[0], v[1..] + rest, p, d);
      assert !NeedsQuotes(v[1..], d) by {
        assert forall x :: x in v[1..] ==> x in v;
      }
      UnquotedRun(m1, v[1..], rest, p, d);
      BufferCons(m.buffer, v);
    }
  }

  lemma UnquotedCharStep(m: Machine, ch: char, rest: string, p: Policy, d: char)
    requires m.state == InUnquotedField && ch != d && !IsLineBreak(ch)
    ensures Run(m, [ch] + rest, p, d) == Run(m.(buffer := m.buffer + [ch]), rest, p, d)
  {
    Head(ch, rest);
    RunAdvance(m, [ch] + rest, p, d, m.(buffer := m.buffer + [ch]), rest);
  }

  lemma OpeningQuoteStep(m: Machine, rest: string, p: Policy, d: char)
    requires m.state == InQuotedField
    ensures Run(m, [QuoteChar] + rest, p, d) == Run(m.(state := QuoteInQuotedField), rest, p, d)
  {
    Head(QuoteChar, rest);
    RunAdvance(m, [QuoteChar] + rest, p, d, m.(state := QuoteInQuotedField), rest);
  }

  lemma KeepStep(m: Machine, ch: char, rest: string, p: Policy, d: char)
    requires m.state == InQuotedField && ch != QuoteChar
    ensures Run(m, [ch] + rest, p, d) == Run(m.(buffer := m.buffer + [ch]), rest, p, d)
  {
    Head(ch, rest);
    RunAdvance(m, [ch] + rest, p, d, m.(buffer := m.buffer + [ch]), rest);
  }

  lemma EscapedQuoteStep(m: Machine, rest: string, p: Policy, d: char)
    requires m.state == QuoteInQuotedField
    ensures Run(m, [QuoteChar] + rest, p, d) ==
      Run(m.(state := InQuotedField, buffer := m.buffer + [QuoteChar]), rest, p, d)
  {
    Head(QuoteChar, rest);
    RunAdvance(m, [QuoteChar] + rest, p, d, m.(state := InQuotedField, buffer := m.buffer + [QuoteChar]), rest);
  }

  /** Inside a quoted field, a doubled quote reads as one quote and every other
      character, line breaks and delimiters included, is kept verbatim. */
  lemma {:induction false} QuotedRun(m: Machine, v: string, rest: string, p: Policy, d: char)
    requires m.state == InQuotedField
    ensures Run(m, Doubled(v) + rest, p, d) == Run(m.(buffer := m.buffer + v), rest, p, d)
    decreases |v|, 1
  {
    if v == [] {
      assert Doubled(v) + rest == rest;
      assert m.(buffer := m.buffer + v) == m;
    } else if v[0] == QuoteChar {
      EscapedQuoteRun(m, v, rest, p, d);
    } else {
      PlainCharRun(m, v, rest, p, d);
    }
  }

  lemma {:induction false} EscapedQuoteRun(m: Machine, v: string, rest: string, p: Policy, d: char)
    requires m.state == InQuotedField && v != [] && v[0] == QuoteChar
    ensures Run(m, Doubled(v) + rest, p, d) == Run(m.(buffer := m.buffer + v), rest, p, d)
    decreases |v|, 0
  {
    var w := Doubled(v[1..]) + rest;
    DoubledQuoteFront(v, rest);
    OpeningQuoteStep(m, [QuoteChar] + w, p, d);
    EscapedQuoteStep(m.(state := QuoteInQuotedField), w, p, d);
    QuotedRun(m.(buffer := m.buffer + [QuoteChar]), v[1..], rest, p, d);
    BufferCons(m.buffer, v);
  }

  lemma {:induction false} PlainCharRun(m: Machine, v: string, rest: string, p: Policy, d: char)
    requires m.state == InQuotedField && v != [] && v[0] != QuoteChar
    ensures Run(m, Doubled(v) + rest, p, d) == Run(m.(buffer := m.buffer + v), rest, p, d)
    decreases |v|, 0
  {
    DoubledPlainFront(v, rest);
    KeepStep(m, v[0], Doubled(v[1..]) + rest, p, d);
    QuotedRun(m.(buffer := m.buffer + [v[0]]), v[1..], rest, p, d);
    BufferCons(m.buffer, v);
  }

  /** A quote at the front of a field is written twice. */
  lemma DoubledQuoteFront(v: string, rest: string)
    requires v != [] && v[0] == QuoteChar
    ensures Doubled(v) + rest == [QuoteChar] + ([QuoteChar] + (Doubled(v[1..]) + rest))
  {
    var t := Doubled(v[1..]);
    assert Doubled(v) == [QuoteChar, QuoteChar] + t;
    assert [QuoteChar, QuoteChar] == [QuoteChar] + [QuoteChar];
    ConcatAssoc([QuoteChar] + [QuoteChar], t, rest);
    ConcatAssoc([QuoteChar], [QuoteChar], t + rest);
  }

  /** Any other character at the front of a field is written as it is. */
  lemma DoubledPlainFront(v: string, rest: string)
    requires v != [] && v[0] != QuoteChar
    ensures Doubled(v) + rest == [v[0]] + (Doubled(v[1..]) + rest)
  {
    var t := Doubled(v[1..]);
    assert Doubled(v) == [v[0]] + t;
    ConcatAssoc([v[0]], t, rest);
  }

  lemma BufferCons(b: string, v: string)
    requires v != []
    ensures b + [v[0]] + v[1..] == b + v
  {
    assert [v[0]] + v[1..] == v;
  }

  /** Spaces after a closing quote are skipped; the first one confirms that
      the quote closed the field. */
  lemma TrailingSpacesRun(m: Machine, n: nat, rest: string, p: Policy, d: char)
    requires m.state == QuoteInQuotedField && (n > 0 ==> d != Space)
    ensures Run(m, Spaces(n) + rest, p, d) ==
      Run(if n == 0 then m else m.(state := AfterQuotedField), rest, p, d)
  {
    if n == 0 {
      assert Spaces(n) + rest == rest;
    } else {
      assert Spaces(n) + rest == [Space] + (Spaces(n - 1) + rest);
      SpaceStep(m, Spaces(n - 1) + rest, p, d);
      SpacesRun(m.(state := AfterQuotedField), n - 1, rest, p, d);
    }
  }

  /** Once the quote is known to have closed the field, spaces are skipped. */
  lemma {:induction false} SpacesRun(m: Machine, n: nat, rest: string, p: Policy, d: char)
    requires m.state == AfterQuotedField && (n > 0 ==> d != Space)
    ensures Run(m, Spaces(n) + rest, p, d) == Run(m, rest, p, d)
    decreases n
  {
    if n == 0 {
      assert Spaces(n) + rest == rest;
    } else {
      assert Spaces(n) + rest == [Space] + (Spaces(n - 1) + rest);
      SpaceStep(m, Spaces(n - 1) + rest, p, d);
      SpacesRun(m, n - 1, rest, p, d);
    }
  }

  lemma SpaceStep(m: Machine, rest: string, p: Policy, d: char)
    requires (m.state == QuoteInQuotedField || m.state == AfterQuotedField) && d != Space
    ensures Run(m, [Space] + rest, p, d) == Run(m.(state := AfterQuotedField), rest, p, d)
  {
    Head(Space, rest);
    RunAdvance(m, [Space] + rest, p, d, m.(state := AfterQuotedField), rest);
  }

  /** A stray character after a closing quote, under a policy that does not reject it. */
  lemma StrayStep(m: Machine, ch: char, rest: string, p: Policy, d: char)
    requires StrayAfterQuote(m, ch, d) && p.afterClosingQuote != RejectStray
    ensures Run(m, [ch] + rest, p, d) ==
      Run(if p.afterClosingQuote == DropStray then m.(state := AfterQuotedField)
          else m.(state := InUnquotedField, buffer := m.buffer + [ch]), rest, p, d)
  {
    Head(ch, rest);
    RunAdvance(m, [ch] + rest, p, d,
      if p.afterClosingQuote == DropStray then m.(state := AfterQuotedField)
      else m.(state := InUnquotedField, buffer := m.buffer + [ch]), rest);
  }

  /** Once a space has confirmed a closing quote, a later quote is stray, not
      an escape: `"a" "b"` never reads as the one field `a"b`. */
  lemma SpaceThenQuote(input: string, p: Policy)
    requires input == ['"', 'a', '"', ' ', '"', 'b', '"']
    ensures Rows(input, Configuration(','), p) ==
      match p.afterClosingQuote
      case DropStray => Ok([["a"]])
      case RejectStray => Err(MalformedCsv(0))
      case AppendStray => Ok([[['a', '"', 'b', '"']]])
  {
    var closed := Machine(AfterQuotedField, ['a'], [], [], true);
    SpaceThenQuoteRun(input, p);
    StraysAfterQuote(closed, 'b', p, ',');
    match p.afterClosingQuote
    case RejectStray =>
    case DropStray =>
      assert [] + [['a']] == [['a']];
      assert [] + [[['a']]] == [[['a']]];
    case AppendStray =>
      assert ['a'] + [QuoteChar, 'b', QuoteChar] == ['a', '"', 'b', '"'];
      assert [] + [['a', '"', 'b', '"']] == [['a', '"', 'b', '"']];
      assert [] + [[['a', '"', 'b', '"']]] == [[['a', '"', 'b', '"']]];
  }

  lemma SpaceThenQuoteRun(input: string, p: Policy)
    requires input == ['"', 'a', '"', ' ', '"', 'b', '"']
    ensures Parsed(input, Configuration(','), p) ==
      Run(Machine(AfterQuotedField, ['a'], [], [], true), [QuoteChar] + (['b'] + [QuoteChar]), p, ',')
  {
    var tail: string := [QuoteChar] + (['b'] + [QuoteChar]);
    assert input == [QuoteChar] + (['a'] + ([QuoteChar] + ([Space] + tail)));
    var m := Start(input, p);
    assert m == Machine(BeforeField, [], [], [], true);
    QuoteClosedBySpace(m, 'a', tail, p, ',');
  }

  /** A one-character quoted field followed by a space. */
  lemma QuoteClosedBySpace(m: Machine, c: char, tail: string, p: Policy, d: char)
    requires m.state == BeforeField && m.buffer == [] && c != QuoteChar && d != Space
    ensures Run(m, [QuoteChar] + ([c] + ([QuoteChar] + ([Space] + tail))), p, d) ==
      Run(m.(state := AfterQuotedField, buffer := [c]), tail, p, d)
  {
    var m1 := m.(state := InQuotedField);
    OpenQuoteStep(m, [c] + ([QuoteChar] + ([Space] + tail)), p, d);
    KeepStep(m1, c, [QuoteChar] + ([Space] + tail), p, d);
    assert m1.(buffer := m1.buffer + [c]) == m.(state := InQuotedField, buffer := [c]);
    OpeningQuoteStep(m.(state := InQuotedField, buffer := [c]), [Space] + tail, p, d);
    SpaceStep(m.(state := QuoteInQuotedField, buffer := [c]), tail, p, d);
  }

  /** A quote, another character and a quote, all stray after a closing quote,
      at the end of the input. */
  lemma StraysAfterQuote(m: Machine, b: char, p: Policy, d: char)
    requires m.state == AfterQuotedField && m.open && ValidDelimiter(d) && d != Space
    requires b != QuoteChar && b != d && b != Space && !IsLineBreak(b)
    ensures Run(m, [QuoteChar] + ([b] + [QuoteChar]), p, d) ==
      match p.afterClosingQuote
      case DropStray => Done(EndLine(EndField(m), false))
      case RejectStray => Stopped(m, MalformedCsv(|m.rows|))
      case AppendStray =>
        Done(EndLine(EndField(m.(state := InUnquotedField, buffer := m.buffer + [QuoteChar, b, QuoteChar])), false))
  {
    match p.afterClosingQuote
    case RejectStray =>
      assert ([QuoteChar] + ([b] + [QuoteChar]))[0] == QuoteChar;
    case DropStray =>
      StraysDropped(m, b, p, d);
    case AppendStray =>
      StraysAppended(m, b, p, d);
  }

  lemma StraysDropped(m: Machine, b: char, p: Policy, d: char)
    requires m.state == AfterQuotedField && m.open && ValidDelimiter(d) && d != Space
    requires b != QuoteChar && b != d && b != Space && !IsLineBreak(b)
    requires p.afterClosingQuote == DropStray
    ensures Run(m, [QuoteChar] + ([b] + [QuoteChar]), p, d) == Done(EndLine(EndField(m), false))
  {
    StrayStep(m, QuoteChar, [b] + [QuoteChar], p, d);
    StrayStep(m, b, [QuoteChar], p, d);
    assert [QuoteChar] == [QuoteChar] + [];
    StrayStep(m, QuoteChar, [], p, d);
  }

  lemma StraysAppended(m: Machine, b: char, p: Policy, d: char)
    requires m.state == AfterQuotedField && m.open && ValidDelimiter(d) && d != Space
    requires b != QuoteChar && b != d && b != Space && !IsLineBreak(b)
    requires p.afterClosingQuote == AppendStray
    ensures Run(m, [QuoteChar] + ([b] + [QuoteChar]), p, d) ==
      Done(EndLine(EndField(m.(state := InUnquotedField, buffer := m.buffer + [QuoteChar, b, QuoteChar])), false))
  {
    var m1 := m.(state := InUnquotedField, buffer := m.buffer + [QuoteChar]);
    StrayStep(m, QuoteChar, [b] + [QuoteChar], p, d);
    UnquotedCharStep(m1, b, [QuoteChar], p, d);
    assert [QuoteChar] == [QuoteChar] + [];
    UnquotedCharStep(m1.(buffer := m1.buffer + [b]), QuoteChar, [], p, d);
    assert m1.buffer + [b] + [QuoteChar] == m.buffer + [QuoteChar, b, QuoteChar];
  }

  /** A quote inside an unquoted field is kept in the value under every
      policy. No layout writes `a"b` (a bare cell holds no quote and a quoted
      one starts with a quote), so readable layouts are not every text the
      parser reads back. */
  lemma QuoteInBareField(input: string, p: Policy)
    requires input == ['a', '"', 'b']
    ensures Rows(input, Configuration(','), p) == Ok([[['a', '"', 'b']]])
  {
    var m := Start(input, p);
    assert m == Machine(BeforeField, [], [], [], true);
    assert input == ['a'] + ([QuoteChar] + (['b'] + []));
    FirstCharStep(m, 'a', [QuoteChar] + (['b'] + []), p, ',');
    var m1 := m.(state := InUnquotedField, buffer := ['a']);
    UnquotedCharStep(m1, QuoteChar, ['b'] + [], p, ',');
    var m2 := m1.(buffer := ['a', '"']);
    assert m1.(buffer := m1.buffer + [QuoteChar]) == m2;
    UnquotedCharStep(m2, 'b', [], p, ',');
    assert m2.(buffer := m2.buffer + ['b']) == m2.(buffer := ['a', '"', 'b']);
    assert [] + [['a', '"', 'b']] == [['a', '"', 'b']];
    assert [] + [[['a', '"', 'b']]] == [[['a', '"', 'b']]];
  }

  /** Reading a field written bare. */
  lemma BareFieldRun(m: Machine, v: string, rest: string, p: Policy, d: char)
    requires !NeedsQuotes(v, d) && v != []
    requires m.state == BeforeField && m.buffer == []
    ensures Run(m, v + rest, p, d) == Run(m.(state := InUnquotedField, buffer := v), rest, p, d)
  {
    var m1 := m.(state := InUnquotedField, buffer := [v[0]]);
    Front(v, rest);
    assert v[0] in v;
    FirstCharStep(m, v[0], v[1..] + rest, p, d);
    assert !NeedsQuotes(v[1..], d) by {
      assert forall x :: x in v[1..] ==> x in v;
    }
    UnquotedRun(m1, v[1..], rest, p, d);
    assert [v[0]] + v[1..] == v;
  }

  lemma FirstCharStep(m: Machine, ch: char, rest: string, p: Policy, d: char)
    requires m.state == BeforeField && m.buffer == []
    requires ch != QuoteChar && ch != d && !IsLineBreak(ch)
    ensures Run(m, [ch] + rest, p, d) == Run(m.(state := InUnquotedField, buffer := [ch]), rest, p, d)
  {
    Head(ch, rest);
    RunAdvance(m, [ch] + rest, p, d, m.(state := InUnquotedField, buffer := [ch]), rest);
  }

  lemma OpenQuoteStep(m: Machine, rest: string, p: Policy, d: char)
    requires m.state == BeforeField
    ensures Run(m, [QuoteChar] + rest, p, d) == Run(m.(state := InQuotedField), rest, p, d)
  {
    Head(QuoteChar, rest);
    RunAdvance(m, [QuoteChar] + rest, p, d, m.(state := InQuotedField), rest);
  }

  /** The parts of a field written between quotes, followed by more input. */
  lemma QuotedTextSplit(v: string, n: nat, rest: string)
    ensures [QuoteChar] + Doubled(v) + [QuoteChar] + Spaces(n) + rest ==
      [QuoteChar] + (Doubled(v) + ([QuoteChar] + (Spaces(n) + rest)))
  {
  }

  /** Reading the opening quote and the contents of a quoted field. */
  lemma QuotedBodyRun(m: Machine, v: string, rest: string, p: Policy, d: char)
    requires m.state == BeforeField && m.buffer == []
    ensures Run(m, [QuoteChar] + (Doubled(v) + rest), p, d) ==
      Run(m.(state := InQuotedField, buffer := v), rest, p, d)
  {
    OpenQuoteStep(m, Doubled(v) + rest, p, d);
    QuotedRun(m.(state := InQuotedField), v, rest, p, d);
    assert [] + v == v;
  }

  /** Reading a field written between quotes, up to the end of its trailing spaces. */
  lemma QuotedFieldRun(m: Machine, v: string, n: nat, rest: string, p: Policy, d: char)
    requires n > 0 ==> d != Space
    requires m.state == BeforeField && m.buffer == []
    ensures Run(m, [QuoteChar] + Doubled(v) + [QuoteChar] + Spaces(n) + rest, p, d) ==
      Run(m.(state := StateAfter(Cell(v, Quoted(n))), buffer := v), rest, p, d)
  {
    var m2 := m.(state := InQuotedField, buffer := v);
    QuotedTextSplit(v, n, rest);
    QuotedBodyRun(m, v, [QuoteChar] + (Spaces(n) + rest), p, d);
    OpeningQuoteStep(m2, Spaces(n) + rest, p, d);
    TrailingSpacesRun(m2.(state := QuoteInQuotedField), n, rest, p, d);
  }

  /** Reading one field, from its start to the end of its text. */
  lemma FieldRun(m: Machine, c: Cell, rest: string, p: Policy, d: char)
    requires Writable(c, d)
    requires m.state == BeforeField && m.buffer == []
    ensures Run(m, FieldText(c) + rest, p, d) ==
      Run(m.(state := StateAfter(c), buffer := c.value), rest, p, d)
  {
    match c.form
    case Bare =>
      if c.value != [] {
        BareFieldRun(m, c.value, rest, p, d);
      } else {
        assert FieldText(c) + rest == rest;
        assert m.(state := StateAfter(c), buffer := c.value) == m;
      }
    case Quoted(n) =>
      QuotedFieldRun(m, c.value, n, rest, p, d);
  }

  /** Right after a field, a delimiter ends it. */
  lemma DelimiterStep(m: Machine, rest: string, p: Policy, d: char)
    requires ValidDelimiter(d) && m.state != InQuotedField
    ensures Run(m, [d] + rest, p, d) == Run(EndField(m), rest, p, d)
  {
    Head(d, rest);
    RunAdvance(m, [d] + rest, p, d, EndField(m), rest);
  }

  /** Right after a field, a line terminator ends the field and the line,
      unless a lone CR is followed by a line feed (the two are then one CR LF). */
  lemma BreakStep(m: Machine, t: Terminator, rest: string, p: Policy, d: char)
    requires ValidDelimiter(d) && m.state != InQuotedField
    requires t == Cr && rest != [] ==> rest[0] != LineFeed
    ensures Run(m, TerminatorText(t) + rest, p, d) ==
      Run(EndLine(EndField(m), LineOpens(rest, p)), rest, p, d)
  {
    var w := TerminatorText(t) + rest;
    if t == CrLf {
      assert w == [CarriageReturn] + ([LineFeed] + rest);
      Head(LineFeed, rest);
      assert w[1] == LineFeed && w[2..] == rest;
    } else {
      Head(TerminatorText(t)[0], rest);
      if t == Cr && |w| > 1 {
        assert w[1] == rest[0];
      }
    }
    assert AfterBreak(w) == rest;
    RunAdvance(m, w, p, d, EndLine(EndField(m), LineOpens(rest, p)), rest);
  }

  /** Reading a layout from a field on, with the machine on an open line. */
  lemma {:induction false} LayoutRun(m: Machine, l: Layout, p: Policy, d: char)
    requires ValidDelimiter(d) && WellWritten(l, d, p)
    requires m.state == BeforeField && m.buffer == [] && m.open
    ensures Run(m, Text(l, d), p, d) == Done(Machine(BeforeField, [], [], m.rows + Grouped(m.fields, l), false))
    decreases l
  {
    match l
    case Last(c) =>
      LastRun(m, c, p, d);
    case Delimited(c, r) =>
      DelimitedRun(m, c, r, p, d);
      LayoutRun(m.(fields := m.fields + [c.value]), r, p, d);
    case Terminated(c, t, r) =>
      TerminatedRun(m, c, t, r, p, d);
      LayoutRun(Machine(BeforeField, [], [], m.rows + [m.fields + [c.value]], true), r, p, d);
      RowsCons(m.rows, m.fields + [c.value], Grouped([], r));
  }

  /** Reading the last field of a text, up to the end of the input. */
  lemma LastRun(m: Machine, c: Cell, p: Policy, d: char)
    requires ValidDelimiter(d) && Writable(c, d)
    requires m.state == BeforeField && m.buffer == [] && m.open
    ensures Run(m, FieldText(c), p, d) == Done(Machine(BeforeField, [], [], m.rows + [m.fields + [c.value]], false))
  {
    assert FieldText(c) + [] == FieldText(c);
    FieldRun(m, c, [], p, d);
  }

  /** Reading a field and the delimiter after it. */
  lemma DelimitedRun(m: Machine, c: Cell, r: Layout, p: Policy, d: char)
    requires ValidDelimiter(d) && Writable(c, d)
    requires m.state == BeforeField && m.buffer == []
    ensures Run(m, Text(Delimited(c, r), d), p, d) == Run(m.(fields := m.fields + [c.value]), Text(r, d), p, d)
  {
    var m1 := m.(state := StateAfter(c), buffer := c.value);
    DelimitedText(c, r, d);
    FieldRun(m, c, [d] + Text(r, d), p, d);
    DelimiterStep(m1, Text(r, d), p, d);
  }

  /** Reading a field and the line terminator after it, in a well-written text. */
  lemma TerminatedRun(m: Machine, c: Cell, t: Terminator, r: Layout, p: Policy, d: char)
    requires ValidDelimiter(d) && WellWritten(Terminated(c, t, r), d, p)
    requires m.state == BeforeField && m.buffer == []
    ensures Run(m, Text(Terminated(c, t, r), d), p, d) ==
      Run(Machine(BeforeField, [], [], m.rows + [m.fields + [c.value]], true), Text(r, d), p, d)
  {
    var m1 := m.(state := StateAfter(c), buffer := c.value);
    TerminatedText(c, t, r, d);
    FieldRun(m, c, TerminatorText(t) + Text(r, d), p, d);
    BreakStep(m1, t, Text(r, d), p, d);
  }

  lemma DelimitedText(c: Cell, r: Layout, d: char)
    ensures Text(Delimited(c, r), d) == FieldText(c) + ([d] + Text(r, d))
  {
  }

  lemma TerminatedText(c: Cell, t: Terminator, r: Layout, d: char)
    ensures Text(Terminated(c, t, r), d) == FieldText(c) + (TerminatorText(t) + Text(r, d))
  {
  }

  lemma RowsCons(rows: seq<seq<string>>, row: seq<string>, more: seq<seq<string>>)
    ensures rows + [row] + more == rows + ([row] + more)
  {
  }

  /** The parser returns exactly the table for every readable text, and
      reports it to its delegate line by line and field by field. */
  lemma ParseText(l: Layout, c: Configuration, p: Policy)
    requires Readable(l, c.delimiter, p)
    ensures Rows(Text(l, c.delimiter), c, p) == Ok(Table(l))
    ensures Events(Text(l, c.delimiter), c, p) ==
      [DocumentBegin] + Framed(Table(l)) + [DocumentEnd]
  {
    var input := Text(l, c.delimiter);
    var m := Start(input, p);
    LayoutRun(m, l, p, c.delimiter);
    assert m.rows + Table(l) == Table(l);
    EventsOfRows(input, c, p);
  }

  /** The same fields with every line terminator written as `t`. */
  function WithTerminators(l: Layout, t: Terminator): Layout
  {
    match l
    case Last(c) => Last(c)
    case Delimited(c, r) => Delimited(c, WithTerminators(r, t))
    case Terminated(c, _, r) => Terminated(c, t, WithTerminators(r, t))
  }

  lemma {:induction false} GroupedWithTerminators(fields: seq<string>, l: Layout, t: Terminator)
    ensures Grouped(fields, WithTerminators(l, t)) == Grouped(fields, l)
    decreases l
  {
    match l
    case Last(_) =>
    case Delimited(c, r) => GroupedWithTerminators(fields + [c.value], r, t);
    case Terminated(c, _, r) => GroupedWithTerminators([], r, t);
  }

  lemma TextEmptyWithTerminators(l: Layout, t: Terminator, d: char)
    ensures Text(WithTerminators(l, t), d) == [] <==> Text(l, d) == []
    decreases l
  {
    match l
    case Last(_) =>
    case Delimited(c, r) =>
    case Terminated(c, _, r) =>
  }

  /** With lone CRs for terminators, a well-written text never starts with a
      line feed: a field starts with a quote or a character of its bare value,
      and an empty field is followed by the delimiter or a CR. */
  lemma NoLeadingLineFeed(l: Layout, d: char, p: Policy)
    requires ValidDelimiter(d) && WellWritten(l, d, p)
    requires Text(WithTerminators(l, Cr), d) != []
    ensures Text(WithTerminators(l, Cr), d)[0] != LineFeed
  {
    var c := l.cell;
    var w := Text(WithTerminators(l, Cr), d);
    if FieldText(c) != [] {
      assert w[0] == FieldText(c)[0];
      if c.form.Bare? {
        assert c.value[0] in c.value;
      }
    } else if l.Delimited? {
      assert w[0] == d;
    } else if l.Terminated? {
      assert w[0] == CarriageReturn;
    }
  }

  /** Writing every terminator the same way keeps a text well written. */
  lemma {:induction false} WellWrittenWithTerminators(l: Layout, t: Terminator, d: char, p: Policy)
    requires ValidDelimiter(d) && WellWritten(l, d, p)
    ensures WellWritten(WithTerminators(l, t), d, p)
    decreases l
  {
    match l
    case Last(_) =>
    case Delimited(c, r) =>
      WellWrittenWithTerminators(r, t, d, p);
    case Terminated(c, _, r) =>
      WellWrittenWithTerminators(r, t, d, p);
      TextEmptyWithTerminators(r, t, d);
      if t == Cr && Text(WithTerminators(r, t), d) != [] {
        NoLeadingLineFeed(r, d, p);
      }
  }

  /** LF, CR and CR LF are interchangeable: a readable text parses to the same
      rows whichever of them ends its lines. */
  lemma TerminatorsInterchangeable(l: Layout, t: Terminator, c: Configuration, p: Policy)
    requires Readable(l, c.delimiter, p)
    ensures Readable(WithTerminators(l, t), c.delimiter, p)
    ensures Rows(Text(WithTerminators(l, t), c.delimiter), c, p) == Rows(Text(l, c.delimiter), c, p) == Ok(Table(l))
  {
    WellWrittenWithTerminators(l, t, c.delimiter, p);
    TextEmptyWithTerminators(l, t, c.delimiter);
    GroupedWithTerminators([], l, t);
    ParseText(l, c, p);
    ParseText(WithTerminators(l, t), c, p);
  }
}
