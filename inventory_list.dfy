/** The error panel of the inventory list
    (src/components/inventory/InventoryList.tsx): `parseErrorDetails` splits an
    error message at its first line break into the headline and the details,
    and the details toggle is offered only when there are details. */
module InventoryList {
  import opened Text

  datatype ParsedError = ParsedError(mainMessage: string, details: string)

  /** `lines[0]` and `lines.slice(1).join('\n')` of `error.split('\n')`. */
  function ParseErrorDetails(error: string): ParsedError {
    var lines := Split(error, '\n');
    ParsedError(lines[0], Join(lines[1..], "\n"))
  }

  /** The toggle for the details is rendered only for non-empty details. */
  predicate ShowsDetailsToggle(error: string) {
    ParseErrorDetails(error).details != ""
  }

  /** The headline is the text before the first line break (all of it when
      there is none) and never holds a line break; the details are the rest
      after that break, so the two put back together with '\n' give the
      message; without a line break the details are empty and no toggle is
      shown. */
  lemma ParseErrorRoundTrip(error: string)
    ensures var p := ParseErrorDetails(error);
      '\n' !in p.mainMessage
      && ('\n' in error ==> p.mainMessage + "\n" + p.details == error
                            && |p.mainMessage| < |error| && error[|p.mainMessage|] == '\n')
      && ('\n' !in error ==> p.mainMessage == error && p.details == "" && !ShowsDetailsToggle(error))
  {
    var lines := Split(error, '\n');
    SplitPiecesFree(error, '\n');
    SplitSingle(error, '\n');
    JoinSplit(error, '\n');
    if '\n' in error {
      assert |lines| > 1;
      assert Join(lines, ['\n']) == lines[0] + ['\n'] + Join(lines[1..], ['\n']);
      var p := ParseErrorDetails(error);
      assert error == p.mainMessage + "\n" + p.details;
      assert error[|p.mainMessage|] == (p.mainMessage + "\n" + p.details)[|p.mainMessage|];
    } else {
      assert lines[1..] == [];
    }
  }
}
