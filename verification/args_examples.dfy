/**
  The cases of the source's unit test for `string_to_args`
  (src/lib.rs:757-775), and the quirks of the loop on concrete strings. Each
  case is computed piece by piece with two small lemmas about the fold.
*/
module ArgsExamples {
  import opened Tokenizer

  /** Reading one more character is one more step of the loop. */
  lemma ScanSnoc(s: string, c: char)
    ensures Scan(s + [c]) == Step(Scan(s), c)
  {
    assert (s + [c])[..|s|] == s;
  }

  /** A character with no meaning to the loop: not a quote, backslash or space. */
  predicate Ordinary(c: char) {
    c != '"' && c != '\\' && c != ' '
  }

  /** A run of ordinary characters is appended to the buffer and clears the escape flag. */
  lemma {:induction false} ScanWord(s: string, w: string)
    requires |w| > 0
    requires forall i :: 0 <= i < |w| ==> Ordinary(w[i])
    ensures Scan(s + w) == Scan(s).(buffer := Scan(s).buffer + w, escaped := false)
    decreases |w|
  {
    var v := w[..|w| - 1];
    var c := w[|w| - 1];
    assert s + w == (s + v) + [c];
    ScanSnoc(s + v, c);
    if |v| > 0 {
      ScanWord(s, v);
      assert (Scan(s).buffer + v) + [c] == Scan(s).buffer + w;
    } else {
      assert s + v == s;
      assert v + [c] == w;
    }
  }

  /** The empty string yields no arguments (src/lib.rs:758). */
  lemma EmptyString()
    ensures StringToArgs("") == []
  {
  }

  /** Plain spaces separate arguments (src/lib.rs:759-762). */
  lemma SplitsOnSpaces()
    ensures StringToArgs("arga argb argc") == ["arga", "argb", "argc"]
  {
    ScanWord("", "arga");
    assert "" + "arga" == "arga";
    assert Scan("arga") == Scanner([], "arga", false, false);
    ScanSnoc("arga", ' ');
    assert "arga" + [' '] == "arga ";
    assert Scan("arga ") == Scanner(["arga"], "", false, false);
    ScanWord("arga ", "argb");
    assert "arga " + "argb" == "arga argb";
    assert Scan("arga argb") == Scanner(["arga"], "argb", false, false);
    ScanSnoc("arga argb", ' ');
    assert "arga argb" + [' '] == "arga argb ";
    assert Scan("arga argb ") == Scanner(["arga", "argb"], "", false, false);
    ScanWord("arga argb ", "argc");
    assert "arga argb " + "argc" == "arga argb argc";
    assert Scan("arga argb argc") == Scanner(["arga", "argb"], "argc", false, false);
  }

  /** Quotes around a single word disappear (src/lib.rs:763-766). */
  lemma QuotedWord()
    ensures StringToArgs("arga \"argb\" argc") == ["arga", "argb", "argc"]
  {
    ScanWord("", "arga");
    assert "" + "arga" == "arga";
    assert Scan("arga") == Scanner([], "arga", false, false);
    ScanSnoc("arga", ' ');
    assert "arga" + [' '] == "arga ";
    assert Scan("arga ") == Scanner(["arga"], "", false, false);
    ScanSnoc("arga ", '\"');
    assert "arga " + ['\"'] == "arga \"";
    assert Scan("arga \"") == Scanner(["arga"], "", true, false);
    ScanWord("arga \"", "argb");
    assert "arga \"" + "argb" == "arga \"argb";
    assert Scan("arga \"argb") == Scanner(["arga"], "argb", true, false);
    ScanSnoc("arga \"argb", '\"');
    assert "arga \"argb" + ['\"'] == "arga \"argb\"";
    assert Scan("arga \"argb\"") == Scanner(["arga"], "argb", false, false);
    ScanSnoc("arga \"argb\"", ' ');
    assert "arga \"argb\"" + [' '] == "arga \"argb\" ";
    assert Scan("arga \"argb\" ") == Scanner(["arga", "argb"], "", false, false);
    ScanWord("arga \"argb\" ", "argc");
    assert "arga \"argb\" " + "argc" == "arga \"argb\" argc";
    assert Scan("arga \"argb\" argc") == Scanner(["arga", "argb"], "argc", false, false);
  }

  /** A space inside quotes is kept in the argument (src/lib.rs:767-770). */
  lemma QuotedSpace()
    ensures StringToArgs("arga \"argb argc\"") == ["arga", "argb argc"]
  {
    ScanWord("", "arga");
    assert "" + "arga" == "arga";
    assert Scan("arga") == Scanner([], "arga", false, false);
    ScanSnoc("arga", ' ');
    assert "arga" + [' '] == "arga ";
    assert Scan("arga ") == Scanner(["arga"], "", false, false);
    ScanSnoc("arga ", '\"');
    assert "arga " + ['\"'] == "arga \"";
    assert Scan("arga \"") == Scanner(["arga"], "", true, false);
    ScanWord("arga \"", "argb");
    assert "arga \"" + "argb" == "arga \"argb";
    assert Scan("arga \"argb") == Scanner(["arga"], "argb", true, false);
    ScanSnoc("arga \"argb", ' ');
    assert "arga \"argb" + [' '] == "arga \"argb ";
    assert Scan("arga \"argb ") == Scanner(["arga"], "argb ", true, false);
    ScanWord("arga \"argb ", "argc");
    assert "arga \"argb " + "argc" == "arga \"argb argc";
    assert Scan("arga \"argb argc") == Scanner(["arga"], "argb argc", true, false);
    ScanSnoc("arga \"argb argc", '\"');
    assert "arga \"argb argc" + ['\"'] == "arga \"argb argc\"";
    assert Scan("arga \"argb argc\"") == Scanner(["arga"], "argb argc", false, false);
  }

  /** An escaped quote inside quotes is kept literally and does not close them (src/lib.rs:771-774). */
  lemma EscapedQuote()
    ensures StringToArgs("arga \"argb \\\"argc\"") == ["arga", "argb \"argc"]
  {
    ScanWord("", "arga");
    assert "" + "arga" == "arga";
    assert Scan("arga") == Scanner([], "arga", false, false);
    ScanSnoc("arga", ' ');
    assert "arga" + [' '] == "arga ";
    assert Scan("arga ") == Scanner(["arga"], "", false, false);
    ScanSnoc("arga ", '\"');
    assert "arga " + ['\"'] == "arga \"";
    assert Scan("arga \"") == Scanner(["arga"], "", true, false);
    ScanWord("arga \"", "argb");
    assert "arga \"" + "argb" == "arga \"argb";
    assert Scan("arga \"argb") == Scanner(["arga"], "argb", true, false);
    ScanSnoc("arga \"argb", ' ');
    assert "arga \"argb" + [' '] == "arga \"argb ";
    assert Scan("arga \"argb ") == Scanner(["arga"], "argb ", true, false);
    ScanSnoc("arga \"argb ", '\\');
    assert "arga \"argb " + ['\\'] == "arga \"argb \\";
    assert Scan("arga \"argb \\") == Scanner(["arga"], "argb ", true, true);
    ScanSnoc("arga \"argb \\", '\"');
    assert "arga \"argb \\" + ['\"'] == "arga \"argb \\\"";
    assert Scan("arga \"argb \\\"") == Scanner(["arga"], "argb \"", true, false);
    ScanWord("arga \"argb \\\"", "argc");
    assert "arga \"argb \\\"" + "argc" == "arga \"argb \\\"argc";
    assert Scan("arga \"argb \\\"argc") == Scanner(["arga"], "argb \"argc", true, false);
    ScanSnoc("arga \"argb \\\"argc", '\"');
    assert "arga \"argb \\\"argc" + ['\"'] == "arga \"argb \\\"argc\"";
    assert Scan("arga \"argb \\\"argc\"") == Scanner(["arga"], "argb \"argc", false, false);
  }

  /** Leading and neighbouring spaces produce empty arguments. */
  lemma EmptyArguments()
    ensures StringToArgs(" a  b") == ["", "a", "", "b"]
  {
    assert Scan(" ") == Step(Start, ' ');
    assert Scan(" ") == Scanner([""], "", false, false);
    ScanWord(" ", "a");
    assert " " + "a" == " a";
    assert Scan(" a") == Scanner([""], "a", false, false);
    ScanSnoc(" a", ' ');
    assert " a" + [' '] == " a ";
    assert Scan(" a ") == Scanner(["", "a"], "", false, false);
    ScanSnoc(" a ", ' ');
    assert " a " + [' '] == " a  ";
    assert Scan(" a  ") == Scanner(["", "a", ""], "", false, false);
    ScanWord(" a  ", "b");
    assert " a  " + "b" == " a  b";
    assert Scan(" a  b") == Scanner(["", "a", ""], "b", false, false);
  }

  /** A string ending inside quotes loses its pending argument but keeps the earlier ones. */
  lemma UnterminatedQuoteDropsTail()
    ensures StringToArgs("a \"b c") == ["a"]
  {
    ScanWord("", "a");
    assert "" + "a" == "a";
    assert Scan("a") == Scanner([], "a", false, false);
    ScanSnoc("a", ' ');
    assert "a" + [' '] == "a ";
    assert Scan("a ") == Scanner(["a"], "", false, false);
    ScanSnoc("a ", '\"');
    assert "a " + ['\"'] == "a \"";
    assert Scan("a \"") == Scanner(["a"], "", true, false);
    ScanWord("a \"", "b");
    assert "a \"" + "b" == "a \"b";
    assert Scan("a \"b") == Scanner(["a"], "b", true, false);
    ScanSnoc("a \"b", ' ');
    assert "a \"b" + [' '] == "a \"b ";
    assert Scan("a \"b ") == Scanner(["a"], "b ", true, false);
    ScanWord("a \"b ", "c");
    assert "a \"b " + "c" == "a \"b c";
    assert Scan("a \"b c") == Scanner(["a"], "b c", true, false);
  }

  /** A backslash is dropped and does not protect a following space. */
  lemma EscapedSpaceSeparates()
    ensures StringToArgs("a\\ b") == ["a", "b"]
  {
    ScanWord("", "a");
    assert "" + "a" == "a";
    assert Scan("a") == Scanner([], "a", false, false);
    ScanSnoc("a", '\\');
    assert "a" + ['\\'] == "a\\";
    assert Scan("a\\") == Scanner([], "a", false, true);
    ScanSnoc("a\\", ' ');
    assert "a\\" + [' '] == "a\\ ";
    assert Scan("a\\ ") == Scanner(["a"], "", false, false);
    ScanWord("a\\ ", "b");
    assert "a\\ " + "b" == "a\\ b";
    assert Scan("a\\ b") == Scanner(["a"], "b", false, false);
  }
}
