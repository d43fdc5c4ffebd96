/** The `BufferedReader` a record reads its further lines from, as a sequence of lines and a
    cursor: reading past the last line gives null and leaves the cursor where it is. */
module Input {
  import opened Wrappers

  /** One `readLine` on the lines `input` from the cursor `pos`: the line read and the new cursor. */
  function Read(input: seq<string>, pos: nat): (r: (Option<string>, nat))
    ensures pos < |input| ==> r == (Some(input[pos]), pos + 1)
    ensures pos >= |input| ==> r == (None, pos)
  {
    if pos < |input| then (Some(input[pos]), pos + 1) else (None, pos)
  }

  class LineReader {
    const input: seq<string>
    var pos: nat

    predicate Valid()
      reads this
    {
      pos <= |input|
    }

    constructor(input: seq<string>)
      ensures Valid() && this.input == input && pos == 0
    {
      this.input := input;
      pos := 0;
    }

    /** `readLine`: the next line, or null at the end of the input. */
    method ReadLine() returns (line: Option<string>)
      requires Valid()
      modifies this
      ensures Valid()
      ensures (line, pos) == Read(input, old(pos))
    {
      if pos < |input| {
        line := Some(input[pos]);
        pos := pos + 1;
      } else {
        line := None;
      }
    }
  }
}
