/**
  The argument-string tokenizer `string_to_args` (src/lib.rs:709-750).

  The source walks the characters of the configuration string once, keeping a
  list of finished arguments, a buffer for the argument being built, and two
  flags: whether it is inside double quotes and whether the previous character
  was a backslash. Here that walk is a left fold: `Scan(s)` is the state after
  the whole of `s`, obtained by applying `Step` to the state after all but the
  last character.
*/
module Tokenizer {

  /** The scanner's state: finished arguments, the pending buffer, and the two flags. */
  datatype Scanner = Scanner(args: seq<string>, buffer: string, quoted: bool, escaped: bool)

  /** The state before the first character. */
  const Start := Scanner([], "", false, false)

  /** True when no finished argument and not the buffer holds a backslash. */
  predicate BackslashFree(st: Scanner) {
    && '\\' !in st.buffer
    && forall i :: 0 <= i < |st.args| ==> '\\' !in st.args[i]
  }

  /**
    One character of the loop. A backslash is never stored: it only sets the
    escape flag. A double quote toggles quote mode unless escaped, in which case
    it is stored. A space is stored inside quotes; outside quotes it closes the
    buffer as an argument, even an empty one, whatever the escape flag says.
  */
  function Step(st: Scanner, ch: char): Scanner {
    if ch == '"' then
      if st.escaped then st.(buffer := st.buffer + [ch], escaped := false)
      else st.(quoted := !st.quoted, escaped := false)
    else if ch == '\\' then
      st.(escaped := true)
    else if ch == ' ' then
      if st.quoted then st.(buffer := st.buffer + [ch], escaped := false)
      else st.(args := st.args + [st.buffer], buffer := "", escaped := false)
    else
      st.(buffer := st.buffer + [ch], escaped := false)
  }

  /** The state after the loop has consumed all of `s`; it never holds a backslash. */
  function Scan(s: string): (st: Scanner)
    ensures BackslashFree(st)
    decreases |s|
  {
    if |s| == 0 then Start else Step(Scan(s[..|s| - 1]), s[|s| - 1])
  }

  /**
    The final flush: the buffer is emitted only when the string ended outside
    quotes and the buffer is not empty.
  */
  function Finish(st: Scanner): seq<string> {
    if !st.quoted && |st.buffer| > 0 then st.args + [st.buffer] else st.args
  }

  /** `string_to_args`: the process arguments encoded by `s`; no argument contains a backslash. */
  function StringToArgs(s: string): (args: seq<string>)
    ensures forall i :: 0 <= i < |args| ==> '\\' !in args[i]
  {
    Finish(Scan(s))
  }

  /**
    The source's loop itself, with mutable `args`, `buffer`, `quoted` and
    `escaped`; it computes the same arguments as the fold.
  */
  method ParseArgs(s: string) returns (args: seq<string>)
    ensures args == StringToArgs(s)
  {
    args := [];
    var buffer: string := "";
    var quoted := false;
    var escaped := false;
    var i := 0;
    while i < |s|
      invariant 0 <= i <= |s|
      invariant Scanner(args, buffer, quoted, escaped) == Scan(s[..i])
    {
      var ch := s[i];
      assert s[..i + 1][..i] == s[..i];
      if ch == '"' {
        if escaped {
          buffer := buffer + [ch];
        } else {
          quoted := !quoted;
        }
        escaped := false;
      } else if ch == '\\' {
        escaped := true;
      } else if ch == ' ' {
        if quoted {
          buffer := buffer + [ch];
        } else {
          args := args + [buffer];
          buffer := "";
        }
        escaped := false;
      } else {
        buffer := buffer + [ch];
        escaped := false;
      }
      i := i + 1;
    }
    assert s[..i] == s;
    if !quoted && |buffer| > 0 {
      args := args + [buffer];
    }
  }
}
