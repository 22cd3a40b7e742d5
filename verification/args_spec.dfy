/**
  What `string_to_args` (src/lib.rs:709-750) computes, stated without the
  scanner: which characters are separators, which are kept, and how many
  arguments come out. The lemmas connect these definitions to the fold in
  module Tokenizer.
*/
module ArgsSpec {
  import opened Tokenizer

  /** Character `i` of `s` directly follows a backslash. */
  predicate AfterBackslash(s: string, i: int)
    requires 0 <= i < |s|
  {
    i > 0 && s[i - 1] == '\\'
  }

  /** Character `i` is a double quote that opens or closes a quoted section. */
  predicate IsToggle(s: string, i: int)
    requires 0 <= i < |s|
  {
    s[i] == '"' && !AfterBackslash(s, i)
  }

  /** The number of toggling double quotes in `s`. */
  function QuoteCount(s: string): nat
    decreases |s|
  {
    if |s| == 0 then 0
    else QuoteCount(s[..|s| - 1]) + (if IsToggle(s, |s| - 1) then 1 else 0)
  }

  /** Position `i` of `s` lies inside a quoted section: an odd number of toggles precede it. */
  predicate InQuotes(s: string, i: int)
    requires 0 <= i <= |s|
  {
    QuoteCount(s[..i]) % 2 == 1
  }

  /** Character `i` is a space outside quotes: it ends an argument. */
  predicate IsSeparator(s: string, i: int)
    requires 0 <= i < |s|
  {
    s[i] == ' ' && !InQuotes(s, i)
  }

  /** Character `i` ends up inside some argument (or the pending buffer). */
  predicate IsKept(s: string, i: int)
    requires 0 <= i < |s|
  {
    s[i] != '\\' && !IsToggle(s, i) && !IsSeparator(s, i)
  }

  /** The number of separators in `s`. */
  function Separators(s: string): nat
    decreases |s|
  {
    if |s| == 0 then 0
    else Separators(s[..|s| - 1]) + (if IsSeparator(s, |s| - 1) then 1 else 0)
  }

  /** The kept characters of `s`, in order. */
  function Retained(s: string): string
    decreases |s|
  {
    if |s| == 0 then ""
    else Retained(s[..|s| - 1]) + (if IsKept(s, |s| - 1) then [s[|s| - 1]] else "")
  }

  /** The concatenation of a list of strings. */
  function Concat(xs: seq<string>): string
    decreases |xs|
  {
    if |xs| == 0 then "" else Concat(xs[..|xs| - 1]) + xs[|xs| - 1]
  }

  /**
    The scanner's flags mean what their names say: `escaped` holds exactly
    when the last character read was a backslash, and `quoted` exactly when an
    odd number of toggling quotes has been read.
  */
  lemma {:induction false} ScanModes(s: string)
    ensures Scan(s).escaped <==> (|s| > 0 && s[|s| - 1] == '\\')
    ensures Scan(s).quoted <==> QuoteCount(s) % 2 == 1
    decreases |s|
  {
    if |s| > 0 {
      var p := s[..|s| - 1];
      ScanModes(p);
      assert s[..|s| - 1] == p;
    }
  }

  /**
    Every separator finishes exactly one argument, and the finished arguments
    followed by the pending buffer are exactly the kept characters, in order.
  */
  lemma {:induction false} ScanAccounts(s: string)
    ensures |Scan(s).args| == Separators(s)
    ensures Concat(Scan(s).args) + Scan(s).buffer == Retained(s)
    decreases |s|
  {
    if |s| > 0 {
      var p := s[..|s| - 1];
      var c := s[|s| - 1];
      var st := Scan(p);
      ScanAccounts(p);
      ScanModes(p);
      if c == ' ' && !st.quoted {
        assert (st.args + [st.buffer])[..|st.args|] == st.args;
        assert Concat(st.args + [st.buffer]) == Concat(st.args) + st.buffer;
      } else if c == '"' && !st.escaped {
      } else if c == '\\' {
      } else {
        assert Concat(st.args) + (st.buffer + [c]) == (Concat(st.args) + st.buffer) + [c];
      }
    }
  }

  /** Finished arguments are never taken back: the arguments after a prefix start the arguments after the whole. */
  lemma {:induction false} ArgsOnlyGrow(s: string, j: nat)
    requires j <= |s|
    ensures Scan(s[..j]).args <= Scan(s).args
    decreases |s|
  {
    if j < |s| {
      var p := s[..|s| - 1];
      assert p[..j] == s[..j];
      ArgsOnlyGrow(p, j);
    } else {
      assert s[..j] == s;
    }
  }

  /** Without a separator after position `j`, no argument is finished after `j`. */
  lemma {:induction false} ArgsStable(s: string, j: nat)
    requires j <= |s|
    requires forall i :: j <= i < |s| ==> !IsSeparator(s, i)
    ensures Scan(s).args == Scan(s[..j]).args
    decreases |s|
  {
    if j < |s| {
      var p := s[..|s| - 1];
      forall i | j <= i < |p|
        ensures !IsSeparator(p, i)
      {
        assert p[..i] == s[..i];
        assert !IsSeparator(s, i);
      }
      assert p[..j] == s[..j];
      ArgsStable(p, j);
      ScanModes(p);
      assert !IsSeparator(s, |s| - 1);
    } else {
      assert s[..j] == s;
    }
  }

  /**
    The number of arguments: one per separator, possibly empty, plus one for a
    non-empty buffer when the string ends outside quotes.
  */
  lemma {:induction false} TokenCount(s: string)
    ensures |StringToArgs(s)| == Separators(s) + (if QuoteCount(s) % 2 == 0 && |Scan(s).buffer| > 0 then 1 else 0)
  {
    ScanAccounts(s);
    ScanModes(s);
  }

  /**
    When quotes are balanced, the arguments concatenate to exactly the kept
    characters: nothing is lost, duplicated or reordered.
  */
  lemma {:induction false} BalancedContent(s: string)
    requires QuoteCount(s) % 2 == 0
    ensures Concat(StringToArgs(s)) == Retained(s)
  {
    ScanAccounts(s);
    ScanModes(s);
    var st := Scan(s);
    if |st.buffer| > 0 {
      assert (st.args + [st.buffer])[..|st.args|] == st.args;
    } else {
      assert st.buffer == "";
    }
  }

  /**
    When the string ends inside quotes, the pending buffer is dropped: the
    arguments are those finished at the separators, and with the buffer they
    would have made up exactly the kept characters.
  */
  lemma {:induction false} UnterminatedQuote(s: string)
    requires QuoteCount(s) % 2 == 1
    ensures StringToArgs(s) == Scan(s).args
    ensures |StringToArgs(s)| == Separators(s)
    ensures Concat(StringToArgs(s)) + Scan(s).buffer == Retained(s)
  {
    ScanAccounts(s);
    ScanModes(s);
  }

  /**
    When the string ends inside quotes, the result is exactly what had been
    finished when the last separator was read: any `j` past the last separator
    gives the same arguments.
  */
  lemma {:induction false} UnterminatedKeepsEarlierArgs(s: string, j: nat)
    requires QuoteCount(s) % 2 == 1
    requires j <= |s|
    requires forall i :: j <= i < |s| ==> !IsSeparator(s, i)
    ensures StringToArgs(s) == Scan(s[..j]).args
  {
    ScanModes(s);
    ArgsStable(s, j);
  }

  /**
    A backslash followed by a double quote adds a literal quote to the buffer
    and leaves quote mode as it was, whatever came before.
  */
  lemma {:induction false} EscapedQuoteIsLiteral(s: string)
    ensures Scan(s + ['\\', '"']).buffer == Scan(s).buffer + ['"']
    ensures Scan(s + ['\\', '"']).quoted == Scan(s).quoted
    ensures Scan(s + ['\\', '"']).args == Scan(s).args
  {
    var t := s + ['\\', '"'];
    assert t[..|t| - 1] == s + ['\\'];
    assert (s + ['\\'])[..|s|] == s;
  }

  /**
    A backslash followed by a space does not protect the space: outside
    quotes it still finishes an argument.
  */
  lemma {:induction false} EscapedSpaceStillSeparates(s: string)
    requires !Scan(s).quoted
    ensures Scan(s + ['\\', ' ']).args == Scan(s).args + [Scan(s).buffer]
    ensures Scan(s + ['\\', ' ']).buffer == ""
  {
    var t := s + ['\\', ' '];
    assert t[..|t| - 1] == s + ['\\'];
    assert (s + ['\\'])[..|s|] == s;
  }

  /** The kept characters of a prefix start the kept characters of the whole. */
  lemma {:induction false} RetainedPrefix(s: string, j: nat)
    requires j <= |s|
    ensures Retained(s[..j]) <= Retained(s)
    decreases |s|
  {
    if j < |s| {
      var p := s[..|s| - 1];
      assert p[..j] == s[..j];
      RetainedPrefix(p, j);
    } else {
      assert s[..j] == s;
    }
  }

  /**
    The pending buffer is exactly the kept characters read since the last
    separator: if position `j` starts an argument (it is the start of the
    string or follows a separator) and no separator comes after it, the buffer
    holds the kept characters of `s[j..]`.
  */
  lemma {:induction false} BufferSinceSeparator(s: string, j: nat)
    requires j <= |s|
    requires j == 0 || IsSeparator(s, j - 1)
    requires forall i :: j <= i < |s| ==> !IsSeparator(s, i)
    ensures |Retained(s[..j])| <= |Retained(s)|
    ensures Scan(s).buffer == Retained(s)[|Retained(s[..j])|..]
    decreases |s|
  {
    RetainedPrefix(s, j);
    if j == |s| {
      assert s[..j] == s;
      if j > 0 {
        var p := s[..|s| - 1];
        ScanModes(p);
        assert s[..|s| - 1] == p;
      }
    } else {
      var p := s[..|s| - 1];
      var c := s[|s| - 1];
      assert p[..j] == s[..j];
      if j > 0 {
        assert p[..j - 1] == s[..j - 1];
        assert IsSeparator(p, j - 1);
      }
      forall i | j <= i < |p|
        ensures !IsSeparator(p, i)
      {
        assert p[..i] == s[..i];
        assert !IsSeparator(s, i);
      }
      BufferSinceSeparator(p, j);
      ScanModes(p);
      assert s[..|s| - 1] == p;
      assert !IsSeparator(s, |s| - 1);
      var n := |Retained(s[..j])|;
      var kept := if IsKept(s, |s| - 1) then [c] else "";
      assert Retained(s) == Retained(p) + kept;
      assert Retained(s)[n..] == Retained(p)[n..] + kept;
    }
  }

  /**
    Each argument finished at a separator is exactly the kept characters
    between that separator and the previous one (or the start of the string),
    and it sits at the index given by the number of earlier separators.
  */
  lemma {:induction false} ArgumentBetweenSeparators(s: string, j: nat, k: nat)
    requires j <= k < |s|
    requires j == 0 || IsSeparator(s, j - 1)
    requires IsSeparator(s, k)
    requires forall i :: j <= i < k ==> !IsSeparator(s, i)
    ensures Separators(s[..k]) < |StringToArgs(s)|
    ensures |Retained(s[..j])| <= |Retained(s[..k])|
    ensures StringToArgs(s)[Separators(s[..k])] == Retained(s[..k])[|Retained(s[..j])|..]
  {
    var q := s[..k];
    assert q[..j] == s[..j];
    if j > 0 {
      assert q[..j - 1] == s[..j - 1];
      assert IsSeparator(q, j - 1);
    }
    forall i | j <= i < |q|
      ensures !IsSeparator(q, i)
    {
      assert q[..i] == s[..i];
      assert !IsSeparator(s, i);
    }
    BufferSinceSeparator(q, j);
    ScanAccounts(q);
    ScanModes(q);
    var t := s[..k + 1];
    assert t[..|t| - 1] == q;
    assert t[..k] == q;
    assert Scan(t).args == Scan(q).args + [Scan(q).buffer];
    ArgsOnlyGrow(s, k + 1);
    var st := Scan(s);
    assert st.args <= StringToArgs(s);
  }
}
