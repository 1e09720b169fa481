/** The event accumulator the parser tests install as the parser's delegate
    (`TestParserDelegate`): it collects the fields of each line and, at the end
    of a line, appends them to `content`. */
module ParserDelegate {

  datatype Option<T> = None | Some(value: T)

  class TestParserDelegate {
    var didBeginDocument: bool
    var didEndDocument: bool
    var didBeginLineIndex: Option<nat>
    var content: seq<seq<string>>
    var currentFieldValues: seq<string>
    /** Assertions of the test that failed (`XCTFail`, `XCTAssertEqual`). */
    var failures: nat

    ghost predicate Initial()
      reads this
    {
      !didBeginDocument && !didEndDocument && didBeginLineIndex == None &&
      content == [] && currentFieldValues == [] && failures == 0
    }

    constructor ()
      ensures Initial()
    {
      didBeginDocument := false;
      didEndDocument := false;
      didBeginLineIndex := None;
      content := [];
      currentFieldValues := [];
      failures := 0;
    }

    method ParserDidBeginDocument()
      modifies this
      ensures didBeginDocument && didEndDocument == old(didEndDocument)
      ensures didBeginLineIndex == old(didBeginLineIndex) && content == old(content)
      ensures currentFieldValues == old(currentFieldValues) && failures == old(failures)
    {
      didBeginDocument := true;
    }

    method ParserDidEndDocument()
      modifies this
      ensures didEndDocument && didBeginDocument == old(didBeginDocument)
      ensures didBeginLineIndex == old(didBeginLineIndex) && content == old(content)
      ensures currentFieldValues == old(currentFieldValues) && failures == old(failures)
    {
      didEndDocument := true;
    }

    /** A new line starts: remember its index and forget the previous line's fields. */
    method ParserDidBeginLine(index: nat)
      modifies this
      ensures didBeginLineIndex == Some(index) && currentFieldValues == []
      ensures didBeginDocument == old(didBeginDocument) && didEndDocument == old(didEndDocument)
      ensures content == old(content) && failures == old(failures)
    {
      didBeginLineIndex := Some(index);
      currentFieldValues := [];
    }

    /** A line ends: without a preceding line begin the test fails and nothing is
        recorded; otherwise the indices are compared (a mismatch fails the test
        but does not stop it) and the line's fields are appended to `content`. */
    method ParserDidEndLine(index: nat)
      modifies this
      ensures old(didBeginLineIndex).None? ==> content == old(content) && failures == old(failures) + 1
      ensures old(didBeginLineIndex).Some? ==>
        content == old(content) + [old(currentFieldValues)] &&
        failures == old(failures) + (if old(didBeginLineIndex).value == index then 0 else 1)
      ensures didBeginDocument == old(didBeginDocument) && didEndDocument == old(didEndDocument)
      ensures didBeginLineIndex == old(didBeginLineIndex) && currentFieldValues == old(currentFieldValues)
    {
      if didBeginLineIndex.None? {
        failures := failures + 1;
        return;
      }
      if didBeginLineIndex.value != index {
        failures := failures + 1;
      }
      content := content + [currentFieldValues];
    }

    method ParserDidReadField(value: string)
      modifies this
      ensures currentFieldValues == old(currentFieldValues) + [value]
      ensures didBeginDocument == old(didBeginDocument) && didEndDocument == old(didEndDocument)
      ensures didBeginLineIndex == old(didBeginLineIndex) && content == old(content)
      ensures failures == old(failures)
    {
      currentFieldValues := currentFieldValues + [value];
    }
  }
}
