/** The CSV parser: a single forward pass over the characters of the input,
    driven by a five-state machine, that pushes document, line and field events
    to its delegate.

    The pure functions `Step`, `Finish` and `Run` are the reference definition
    of the machine; `Rows` and `Events` are what a parse of a whole input yields.
    The class `Parser` performs the same pass imperatively and is proved to emit
    exactly `Events` to a `TestParserDelegate`. */
module CsvParser {
  import opened CsvConfiguration
  import opened ParserDelegate

  /** `QuoteInQuotedField` is a quote read inside a quoted field: the next
      character decides whether it was an escape or the closing quote.
      `AfterQuotedField` is a closing quote already confirmed by a skipped
      character after it, where another quote can no longer be an escape. */
  datatype State = BeforeField | InUnquotedField | InQuotedField | QuoteInQuotedField | AfterQuotedField

  /** What the parser pushes to its delegate, in order. */
  datatype Event =
    | DocumentBegin
    | LineBegin(index: nat)
    | FieldRead(value: string)
    | LineEnd(index: nat)
    | DocumentEnd

  /** Malformed input, with the index of the line the parser stopped on. */
  datatype ParseError = MalformedCsv(line: nat)

  datatype Result<T> = Ok(value: T) | Err(error: ParseError)

  /** Behaviour that no test of swift-csv exercises, kept as a parameter:
      what a character other than a space does after a closing quote, what an
      unterminated quoted field does at the end of the input, and whether a
      line begins at the end of the input (empty input, trailing terminator). */
  datatype Policy = Policy(afterClosingQuote: StrayPolicy,
                           unterminatedQuote: UnterminatedPolicy,
                           lineStart: LineStartPolicy)

  /** A stray character after a closing quote is dropped, rejected as
      malformed, or appended, the rest of the field then being read unquoted. */
  datatype StrayPolicy = DropStray | RejectStray | AppendStray
  datatype UnterminatedPolicy = RejectUnterminated | CloseUnterminated
  datatype LineStartPolicy = LineBeforeInput | LineAfterEveryTerminator

  /** The machine between two characters: its state, the field being read, the
      fields already read on the current line, the lines already ended, and
      whether the current line has begun. */
  datatype Machine = Machine(state: State, buffer: string, fields: seq<string>,
                             rows: seq<seq<string>>, open: bool)

  datatype StepResult = Advance(machine: Machine, rest: string) | Stop(error: ParseError)

  datatype Outcome = Done(machine: Machine) | Stopped(machine: Machine, error: ParseError)

  /** Whether a line begins when `rest` is what is left of the input. */
  predicate LineOpens(rest: string, p: Policy)
  {
    p.lineStart == LineAfterEveryTerminator || rest != []
  }

  function Start(input: string, p: Policy): Machine
  {
    Machine(BeforeField, [], [], [], LineOpens(input, p))
  }

  /** The field being read is complete. */
  function EndField(m: Machine): Machine
  {
    m.(state := BeforeField, buffer := [], fields := m.fields + [m.buffer])
  }

  /** The current line is complete; `open` says whether another one begins. */
  function EndLine(m: Machine, open: bool): Machine
  {
    m.(rows := m.rows + [m.fields], fields := [], open := open)
  }

  /** What is left after the line terminator `rest` starts with: CR LF is one terminator. */
  function AfterBreak(rest: string): (r: string)
    requires rest != []
    ensures |r| < |rest|
  {
    if rest[0] == CarriageReturn && |rest| > 1 && rest[1] == LineFeed then rest[2..] else rest[1..]
  }

  /** A delimiter or a line terminator at the front of `rest` ends the field being read. */
  function Terminate(m: Machine, rest: string, p: Policy, d: char): (s: StepResult)
    requires rest != []
    ensures s.Advance? && |s.rest| < |rest|
  {
    if rest[0] == d then Advance(EndField(m), rest[1..])
    else
      var after := AfterBreak(rest);
      Advance(EndLine(EndField(m), LineOpens(after, p)), after)
  }

  /** The transition after a closing quote, on anything but an escaping quote:
      a delimiter or a line terminator ends the field, a space is skipped, and
      any other character is stray. */
  function AfterQuote(m: Machine, rest: string, p: Policy, d: char): (s: StepResult)
    requires rest != []
    ensures s.Advance? ==> |s.rest| < |rest|
  {
    var ch := rest[0];
    if ch == d || IsLineBreak(ch) then Terminate(m, rest, p, d)
    else if ch == Space then Advance(m.(state := AfterQuotedField), rest[1..])
    else
      match p.afterClosingQuote
      case DropStray => Advance(m.(state := AfterQuotedField), rest[1..])
      case RejectStray => Stop(MalformedCsv(|m.rows|))
      case AppendStray => Advance(m.(state := InUnquotedField, buffer := m.buffer + [ch]), rest[1..])
  }

  /** A character that follows a closing quote and is neither an escaping
      quote, a space, the delimiter nor a line break. */
  predicate StrayAfterQuote(m: Machine, ch: char, d: char)
  {
    ((m.state == QuoteInQuotedField && ch != QuoteChar) || m.state == AfterQuotedField) &&
    ch != d && !IsLineBreak(ch) && ch != Space
  }

  /** One transition of the machine on the first character of `rest`. */
  function Step(m: Machine, rest: string, p: Policy, d: char): (s: StepResult)
    requires rest != []
    ensures s.Advance? ==> |s.rest| < |rest| && m.rows <= s.machine.rows
    ensures s.Stop? <==> StrayAfterQuote(m, rest[0], d) && p.afterClosingQuote == RejectStray
    ensures s.Stop? ==> s.error == MalformedCsv(|m.rows|)
  {
    var ch := rest[0];
    match m.state
    case BeforeField =>
      if ch == QuoteChar then Advance(m.(state := InQuotedField), rest[1..])
      else if ch == d || IsLineBreak(ch) then Terminate(m, rest, p, d)
      else Advance(m.(state := InUnquotedField, buffer := m.buffer + [ch]), rest[1..])
    case InUnquotedField =>
      if ch == d || IsLineBreak(ch) then Terminate(m, rest, p, d)
      else Advance(m.(buffer := m.buffer + [ch]), rest[1..])
    case InQuotedField =>
      if ch == QuoteChar then Advance(m.(state := QuoteInQuotedField), rest[1..])
      else Advance(m.(buffer := m.buffer + [ch]), rest[1..])
    case QuoteInQuotedField =>
      if ch == QuoteChar then Advance(m.(state := InQuotedField, buffer := m.buffer + [QuoteChar]), rest[1..])
      else AfterQuote(m, rest, p, d)
    case AfterQuotedField =>
      AfterQuote(m, rest, p, d)
  }

  /** The end of the input: only an unterminated quote can stop the parse, and
      otherwise the open line is completed with the field being read. */
  function Finish(m: Machine, p: Policy): (r: Outcome)
    ensures r.Stopped? <==> m.state == InQuotedField && p.unterminatedQuote == RejectUnterminated
    ensures r.Stopped? ==> r.machine == m && r.error == MalformedCsv(|m.rows|)
    ensures r.Done? ==> !r.machine.open
    ensures r.Done? ==> r.machine.rows == if m.open then m.rows + [m.fields + [m.buffer]] else m.rows
  {
    if m.state == InQuotedField && p.unterminatedQuote == RejectUnterminated then
      Stopped(m, MalformedCsv(|m.rows|))
    else if m.open then Done(EndLine(EndField(m), false))
    else Done(m)
  }

  /** The machine run from `m` over `rest`, the input still to read. */
  function Run(m: Machine, rest: string, p: Policy, d: char): (r: Outcome)
    ensures m.rows <= r.machine.rows
    ensures r.Done? ==> !r.machine.open
    ensures r.Stopped? ==> r.error == MalformedCsv(|r.machine.rows|)
    ensures r.Stopped? ==> p.afterClosingQuote == RejectStray || p.unterminatedQuote == RejectUnterminated
    decreases |rest|
  {
    if rest == [] then Finish(m, p)
    else
      match Step(m, rest, p, d)
      case Stop(e) => Stopped(m, e)
      case Advance(m', rest') => Run(m', rest', p, d)
  }

  /** The machine run over the whole input. */
  function Parsed(input: string, c: Configuration, p: Policy): Outcome
  {
    Run(Start(input, p), input, p, c.delimiter)
  }

  /** The lines of the input and their fields, or the error that stopped the parser. */
  function Rows(input: string, c: Configuration, p: Policy): Result<seq<seq<string>>>
  {
    match Parsed(input, c, p)
    case Done(m) => Ok(m.rows)
    case Stopped(_, e) => Err(e)
  }

  function FieldEvents(fields: seq<string>): (r: seq<Event>)
  {
    if fields == [] then []
    else FieldEvents(fields[..|fields| - 1]) + [FieldRead(fields[|fields| - 1])]
  }

  /** The events of complete lines: begin, fields, end, with the lines' indices. */
  function Framed(rows: seq<seq<string>>): (r: seq<Event>)
  {
    if rows == [] then []
    else
      var k := |rows| - 1;
      Framed(rows[..k]) + [LineBegin(k)] + FieldEvents(rows[k]) + [LineEnd(k)]
  }

  /** The events pushed to the delegate by the time the machine is in `m`. */
  function Emitted(m: Machine): (r: seq<Event>)
  {
    [DocumentBegin] + Framed(m.rows) +
    (if m.open then [LineBegin(|m.rows|)] + FieldEvents(m.fields) else [])
  }

  /** Every event a parse of the input pushes to the delegate. */
  function Events(input: string, c: Configuration, p: Policy): (e: seq<Event>)
  {
    match Parsed(input, c, p)
    case Done(m) => Emitted(m) + [DocumentEnd]
    case Stopped(m, _) => Emitted(m)
  }

  function ErrorOf(r: Result<seq<seq<string>>>): Option<ParseError>
  {
    if r.Ok? then None else Some(r.error)
  }

  /** A line break is part of a field only between quotes; anywhere else it
      completes the field being read and the line, CR LF counting as one
      terminator. */
  lemma LineBreakStep(m: Machine, rest: string, p: Policy, d: char)
    requires rest != [] && IsLineBreak(rest[0]) && ValidDelimiter(d)
    ensures Step(m, rest, p, d).Advance?
    ensures m.state == InQuotedField ==>
      Step(m, rest, p, d) == Advance(m.(buffer := m.buffer + [rest[0]]), rest[1..])
    ensures m.state != InQuotedField ==>
      Step(m, rest, p, d) == Advance(EndLine(EndField(m), LineOpens(AfterBreak(rest), p)), AfterBreak(rest))
  {
  }

  /** Outside quotes, input without a quote is read to its end. */
  lemma {:induction false} QuoteFreeRun(m: Machine, rest: string, p: Policy, d: char)
    requires QuoteChar !in rest && (m.state == BeforeField || m.state == InUnquotedField)
    ensures Run(m, rest, p, d).Done?
    decreases |rest|
  {
    if rest != [] {
      var s := Step(m, rest, p, d);
      assert rest[0] in rest;
      assert s.rest == rest[1..] || s.rest == rest[2..];
      assert forall ch :: ch in s.rest ==> ch in rest;
      QuoteFreeRun(s.machine, s.rest, p, d);
    }
  }

  /** Only a quote can make a parse fail, and only under a rejecting policy. */
  lemma RowsFail(input: string, c: Configuration, p: Policy)
    ensures QuoteChar !in input ==> Rows(input, c, p).Ok?
    ensures Rows(input, c, p).Err? ==>
      p.afterClosingQuote == RejectStray || p.unterminatedQuote == RejectUnterminated
  {
    if QuoteChar !in input {
      QuoteFreeRun(Start(input, p), input, p, c.delimiter);
    }
  }

  /** One field-read event per field, in order. */
  lemma {:induction false} FieldEventsRead(fields: seq<string>)
    ensures |FieldEvents(fields)| == |fields|
    ensures forall i :: 0 <= i < |fields| ==> FieldEvents(fields)[i] == FieldRead(fields[i])
    ensures DocumentBegin !in FieldEvents(fields) && DocumentEnd !in FieldEvents(fields)
  {
    if fields != [] {
      FieldEventsRead(fields[..|fields| - 1]);
    }
  }

  /** The events of complete lines hold no document event, and run from the
      first line's begin to the last line's end. */
  lemma {:induction false} FramedLines(rows: seq<seq<string>>)
    ensures DocumentBegin !in Framed(rows) && DocumentEnd !in Framed(rows)
    ensures rows != [] ==>
      |Framed(rows)| >= 2 && Framed(rows)[0] == LineBegin(0) && Framed(rows)[|Framed(rows)| - 1] == LineEnd(|rows| - 1)
  {
    if rows != [] {
      var k := |rows| - 1;
      FramedLines(rows[..k]);
      FieldEventsRead(rows[k]);
      if k == 0 {
        assert Framed(rows[..k]) == [];
      }
    }
  }

  /** The events pushed at any point begin with the one document begin and
      hold no document end. */
  lemma EmittedBegun(m: Machine)
    ensures Emitted(m) != [] && Emitted(m)[0] == DocumentBegin
    ensures DocumentBegin !in Emitted(m)[1..] && DocumentEnd !in Emitted(m)
  {
    FramedLines(m.rows);
    if m.open {
      var current := [LineBegin(|m.rows|)] + FieldEvents(m.fields);
      FieldEventsRead(m.fields);
      assert DocumentBegin !in current && DocumentEnd !in current;
      assert Emitted(m)[1..] == Framed(m.rows) + current;
    } else {
      assert Emitted(m)[1..] == Framed(m.rows);
    }
  }

  /** The document always begins; it ends exactly when the parse succeeds,
      and then its end is the last event and occurs once. */
  lemma EventsFramed(input: string, c: Configuration, p: Policy)
    ensures Events(input, c, p) != [] && Events(input, c, p)[0] == DocumentBegin
    ensures DocumentEnd in Events(input, c, p) <==> Rows(input, c, p).Ok?
    ensures DocumentEnd in Events(input, c, p) ==>
      Events(input, c, p)[|Events(input, c, p)| - 1] == DocumentEnd &&
      DocumentEnd !in Events(input, c, p)[..|Events(input, c, p)| - 1]
  {
    var r := Parsed(input, c, p);
    EmittedBegun(r.machine);
    if r.Done? {
      assert Events(input, c, p)[..|Events(input, c, p)| - 1] == Emitted(r.machine);
    }
  }

  /** The events of a successful parse are the document frame around one
      begin / fields / end group per line, with matching line indices. */
  lemma EventsOfRows(input: string, c: Configuration, p: Policy)
    requires Rows(input, c, p).Ok?
    ensures Events(input, c, p) ==
      [DocumentBegin] + Framed(Rows(input, c, p).value) + [DocumentEnd]
  {
  }

  /** Ending an open line pushes the line end with the line's index, after
      which the events are those of the lines read so far. */
  lemma EmittedEndLine(m: Machine)
    requires m.open
    ensures Emitted(m) + [LineEnd(|m.rows|)] == Emitted(EndLine(m, false))
  {
    var rows := m.rows + [m.fields];
    assert rows[..|m.rows|] == m.rows;
    assert Framed(rows) == Framed(m.rows) + [LineBegin(|m.rows|)] + FieldEvents(m.fields) + [LineEnd(|m.rows|)];
  }

  /** `CSV.Parser`: the parse of one input, pushing its events to a delegate. */
  class Parser {
    const input: string
    const configuration: Configuration
    const policy: Policy
    const delegate: TestParserDelegate

    var state: State
    var buffer: string
    var fields: seq<string>
    var lineIndex: nat
    var lineOpen: bool
    /** The events pushed to the delegate so far. */
    var events: seq<Event>
    ghost var rows: seq<seq<string>>

    ghost function Snapshot(): Machine
      reads this
    {
      Machine(state, buffer, fields, rows, lineOpen)
    }

    /** A parser that has not started, with a delegate that has seen nothing. */
    ghost predicate Unused()
      reads this, delegate
    {
      events == [] && lineIndex == 0 &&
      Snapshot() == Machine(BeforeField, [], [], [], false) && delegate.Initial()
    }

    /** The events pushed so far are those of the machine in `Snapshot()`, and
        the delegate holds exactly the lines and fields they carry. */
    ghost predicate Valid()
      reads this, delegate
    {
      lineIndex == |rows| &&
      (!lineOpen ==> state == BeforeField && buffer == [] && fields == []) &&
      events == Emitted(Snapshot()) &&
      delegate.didBeginDocument && !delegate.didEndDocument && delegate.failures == 0 &&
      delegate.content == rows &&
      (lineOpen ==> delegate.currentFieldValues == fields && delegate.didBeginLineIndex == Some(lineIndex))
    }

    constructor (input: string, configuration: Configuration, policy: Policy, delegate: TestParserDelegate)
      requires delegate.Initial()
      ensures this.input == input && this.configuration == configuration
      ensures this.policy == policy && this.delegate == delegate
      ensures Unused()
    {
      this.input := input;
      this.configuration := configuration;
      this.policy := policy;
      this.delegate := delegate;
      state := BeforeField;
      buffer := [];
      fields := [];
      lineIndex := 0;
      lineOpen := false;
      events := [];
      rows := [];
    }

    method BeginLine()
      requires Valid() && !lineOpen
      modifies this, delegate
      ensures Valid() && Snapshot() == old(Snapshot()).(open := true)
    {
      delegate.ParserDidBeginLine(lineIndex);
      events := events + [LineBegin(lineIndex)];
      lineOpen := true;
    }

    method ReadField()
      requires Valid() && lineOpen
      modifies this, delegate
      ensures Valid() && Snapshot() == EndField(old(Snapshot()))
    {
      delegate.ParserDidReadField(buffer);
      events := events + [FieldRead(buffer)];
      assert (fields + [buffer])[..|fields|] == fields;
      fields := fields + [buffer];
      buffer := [];
      state := BeforeField;
    }

    method FinishLine(open: bool)
      requires Valid() && lineOpen && state == BeforeField && buffer == []
      modifies this, delegate
      ensures Valid() && Snapshot() == EndLine(old(Snapshot()), open)
    {
      EmittedEndLine(Snapshot());
      delegate.ParserDidEndLine(lineIndex);
      events := events + [LineEnd(lineIndex)];
      rows := rows + [fields];
      fields := [];
      lineIndex := lineIndex + 1;
      lineOpen := false;
      if open {
        BeginLine();
      }
    }

    /** The delimiter or line terminator at `i` completes the field being read;
        a CR followed by a LF is one terminator. */
    method CompleteField(i: nat) returns (next: nat)
      requires Valid() && lineOpen && i < |input|
      requires input[i] == configuration.delimiter || IsLineBreak(input[i])
      modifies this, delegate
      ensures Valid() && i < next <= |input|
      ensures Terminate(old(Snapshot()), input[i..], policy, configuration.delimiter) ==
        Advance(Snapshot(), input[next..])
    {
      ReadField();
      assert input[i..][0] == input[i];
      if input[i] == configuration.delimiter {
        next := i + 1;
        assert input[i..][1..] == input[next..];
      } else {
        if input[i] == CarriageReturn && i + 1 < |input| && input[i + 1] == LineFeed {
          next := i + 2;
          assert input[i..][1] == input[i + 1];
          assert input[i..][2..] == input[next..];
        } else {
          next := i + 1;
          assert input[i..][1..] == input[next..];
        }
        FinishLine(LineOpens(input[next..], policy));
      }
    }

    /** The transition on the character at `i`: the index of the next
        character to read, or the error that stops the parse. */
    method ReadCharacter(i: nat) returns (next: nat, error: Option<ParseError>)
      requires Valid() && lineOpen && i < |input|
      modifies this, delegate
      ensures Valid()
      ensures error == None ==> i < next <= |input| && (next < |input| ==> lineOpen)
      ensures error == None ==>
        Step(old(Snapshot()), input[i..], policy, configuration.delimiter) == Advance(Snapshot(), input[next..])
      ensures error != None ==> Snapshot() == old(Snapshot())
      ensures error != None ==>
        Step(old(Snapshot()), input[i..], policy, configuration.delimiter) == Stop(error.value)
    {
      var d := configuration.delimiter;
      var ch := input[i];
      assert input[i..][0] == ch && input[i..][1..] == input[i + 1..];
      next, error := i + 1, None;
      match state
      case BeforeField =>
        if ch == QuoteChar {
          state := InQuotedField;
        } else if ch == d || IsLineBreak(ch) {
          next := CompleteField(i);
        } else {
          state := InUnquotedField;
          buffer := buffer + [ch];
        }
      case InUnquotedField =>
        if ch == d || IsLineBreak(ch) {
          next := CompleteField(i);
        } else {
          buffer := buffer + [ch];
        }
      case InQuotedField =>
        if ch == QuoteChar {
          state := QuoteInQuotedField;
        } else {
          buffer := buffer + [ch];
        }
      case QuoteInQuotedField =>
        if ch == QuoteChar {
          state := InQuotedField;
          buffer := buffer + [QuoteChar];
        } else {
          next, error := ReadAfterQuote(i);
        }
      case AfterQuotedField =>
        next, error := ReadAfterQuote(i);
    }

    /** The character at `i` follows a closing quote and is not an escaping quote. */
    method ReadAfterQuote(i: nat) returns (next: nat, error: Option<ParseError>)
      requires Valid() && lineOpen && i < |input|
      requires state == QuoteInQuotedField || state == AfterQuotedField
      modifies this, delegate
      ensures Valid()
      ensures error == None ==> i < next <= |input| && (next < |input| ==> lineOpen)
      ensures error == None ==>
        AfterQuote(old(Snapshot()), input[i..], policy, configuration.delimiter) == Advance(Snapshot(), input[next..])
      ensures error != None ==> Snapshot() == old(Snapshot())
      ensures error != None ==>
        AfterQuote(old(Snapshot()), input[i..], policy, configuration.delimiter) == Stop(error.value)
    {
      var d := configuration.delimiter;
      var ch := input[i];
      assert input[i..][0] == ch && input[i..][1..] == input[i + 1..];
      next, error := i + 1, None;
      if ch == d || IsLineBreak(ch) {
        next := CompleteField(i);
      } else if ch == Space {
        state := AfterQuotedField;
      } else {
        match policy.afterClosingQuote
        case DropStray =>
          state := AfterQuotedField;
        case RejectStray =>
          error := Some(MalformedCsv(lineIndex));
        case AppendStray =>
          state := InUnquotedField;
          buffer := buffer + [ch];
      }
    }

    /** `parse()`: one pass over the input. */
    method Parse() returns (error: Option<ParseError>)
      requires Unused()
      modifies this, delegate
      ensures events == Events(input, configuration, policy)
      ensures error == ErrorOf(Rows(input, configuration, policy))
      ensures delegate.didBeginDocument && delegate.failures == 0
      ensures delegate.didEndDocument <==> error == None
      ensures delegate.content == Parsed(input, configuration, policy).machine.rows
    {
      var d := configuration.delimiter;
      delegate.ParserDidBeginDocument();
      events := [DocumentBegin];
      if LineOpens(input, policy) {
        BeginLine();
      }
      var i := 0;
      assert input[0..] == input;
      while i < |input|
        invariant i <= |input| && Valid()
        invariant i < |input| ==> lineOpen
        invariant Run(Snapshot(), input[i..], policy, d) == Parsed(input, configuration, policy)
        decreases |input| - i
      {
        var next, stop := ReadCharacter(i);
        if stop != None {
          return stop;
        }
        i := next;
      }
      assert input[i..] == [];
      error := FinishInput();
    }

    /** The end of the input: an unterminated quote may stop the parse;
        otherwise the open line is completed and the document ends. */
    method FinishInput() returns (error: Option<ParseError>)
      requires Valid()
      modifies this, delegate
      ensures error == None <==> Finish(old(Snapshot()), policy).Done?
      ensures error == None ==>
        events == Emitted(Finish(old(Snapshot()), policy).machine) + [DocumentEnd] &&
        delegate.content == Finish(old(Snapshot()), policy).machine.rows
      ensures error != None ==>
        events == old(events) && delegate.content == old(delegate.content) &&
        error == Some(Finish(old(Snapshot()), policy).error)
      ensures delegate.didBeginDocument && delegate.failures == 0
      ensures delegate.didEndDocument <==> error == None
    {
      if state == InQuotedField && policy.unterminatedQuote == RejectUnterminated {
        return Some(MalformedCsv(lineIndex));
      }
      if lineOpen {
        ReadField();
        FinishLine(false);
      }
      delegate.ParserDidEndDocument();
      events := events + [DocumentEnd];
      error := None;
    }
  }
}
