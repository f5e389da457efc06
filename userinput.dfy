/**
 * Reading the request (`get_user_input` in main.py): ask again until a line,
 * trimmed, is at least ten characters long. The terminal is a sequence of
 * lines; running out of lines is the end-of-input error `input()` raises.
 */
module UserInput {
  import opened Text
  import opened Models

  /** The shortest request accepted. */
  const MinLength: nat := 10

  /** The warning printed for a rejected line. */
  datatype Warning =
    | NoDescription    // "Please provide a floor plan description"
    | NeedsMoreDetail  // "Please provide more detail about your floor plan requirements"

  /** What one line of input amounts to once trimmed. */
  datatype Check = Rejected(warning: Warning) | Ready(request: string)

  /**
   * A blank line and a short line are rejected with their own warning; any
   * other line is accepted, trimmed.
   */
  function CheckLine(line: string): (c: Check)
    ensures c == Rejected(NoDescription) <==> Strip(line) == []
    ensures c == Rejected(NeedsMoreDetail) <==> 0 < |Strip(line)| < MinLength
    ensures c.Ready? <==> |Strip(line)| >= MinLength
    ensures c.Ready? ==> c.request == Strip(line) && IsStripped(c.request)
  {
    var text := Strip(line);
    if text == [] then Rejected(NoDescription)
    else if |text| < MinLength then Rejected(NeedsMoreDetail)
    else Ready(text)
  }

  /** An accepted request, typed in again, is accepted unchanged. */
  lemma AcceptedRequestIsStable(line: string)
    requires CheckLine(line).Ready?
    ensures CheckLine(CheckLine(line).request) == CheckLine(line)
  {
    StripStripped(Strip(line));
  }

  /**
   * The prompt loop. It returns the first acceptable line, trimmed, after
   * `consumed` lines, with one warning for each line it rejected on the way;
   * with no acceptable line, input runs out (`None`) after every line was
   * rejected.
   */
  method GetUserInput(lines: seq<string>) returns (request: Option<string>, consumed: nat, warnings: seq<Warning>)
    ensures consumed <= |lines|
    ensures request.Some? ==> 0 < consumed && CheckLine(lines[consumed - 1]) == Ready(request.value)
    ensures request.Some? ==> |request.value| >= MinLength && IsStripped(request.value)
    ensures request.None? ==> consumed == |lines|
    ensures |warnings| == if request.Some? then consumed - 1 else consumed
    ensures forall i :: 0 <= i < |warnings| ==> CheckLine(lines[i]) == Rejected(warnings[i])
  {
    var i := 0;
    warnings := [];
    while i < |lines|
      invariant 0 <= i <= |lines|
      invariant |warnings| == i
      invariant forall j :: 0 <= j < i ==> CheckLine(lines[j]) == Rejected(warnings[j])
    {
      match CheckLine(lines[i]) {
        case Rejected(warning) =>
          warnings := warnings + [warning];
          i := i + 1;
        case Ready(userInput) =>
          return Some(userInput), i + 1, warnings;
      }
    }
    return None, i, warnings;
  }
}
