/**
  For strings without double quotes and backslashes, `string_to_args`
  (src/lib.rs:709-750) is a plain split on every space, with only a final
  empty piece dropped.
*/
module ArgsSplit {
  import opened Tokenizer

  /** `s` holds neither a double quote nor a backslash. */
  predicate Plain(s: string) {
    forall i :: 0 <= i < |s| ==> s[i] != '"' && s[i] != '\\'
  }

  /** The pieces between the spaces of `s`; `k` spaces give `k + 1` pieces, none with a space. */
  function Split(s: string): (pieces: seq<string>)
    ensures |pieces| >= 1
    ensures forall k :: 0 <= k < |pieces| ==> ' ' !in pieces[k]
    decreases |s|
  {
    if |s| == 0 then [""]
    else if s[0] == ' ' then [""] + Split(s[1..])
    else
      var rest := Split(s[1..]);
      [[s[0]] + rest[0]] + rest[1..]
  }

  /** The pieces glued back together with one space between neighbours. */
  function Join(pieces: seq<string>): string
    requires |pieces| >= 1
    decreases |pieces|
  {
    if |pieces| == 1 then pieces[0] else pieces[0] + " " + Join(pieces[1..])
  }

  /** Split loses nothing: joining its pieces gives back the string. */
  lemma {:induction false} JoinSplit(s: string)
    ensures Join(Split(s)) == s
    decreases |s|
  {
    if |s| > 0 {
      JoinSplit(s[1..]);
      var rest := Split(s[1..]);
      if s[0] == ' ' {
        assert ([""] + rest)[1..] == rest;
        assert s == [' '] + s[1..];
      } else {
        var pieces := [[s[0]] + rest[0]] + rest[1..];
        assert pieces[1..] == rest[1..];
        if |rest| > 1 {
          assert Join(rest) == rest[0] + " " + Join(rest[1..]);
        }
        assert s == [s[0]] + s[1..];
      }
    }
  }

  /** A piece followed by a space and more text splits off as the first piece. */
  lemma {:induction false} SplitAtSpace(a: string, b: string)
    requires ' ' !in a
    ensures Split(a + " " + b) == [a] + Split(b)
    decreases |a|
  {
    var t := a + " " + b;
    if |a| == 0 {
      assert t[1..] == b;
    } else {
      assert t[1..] == a[1..] + " " + b;
      assert ' ' !in a[1..] by {
        forall k | 0 <= k < |a[1..]|
          ensures a[1..][k] != ' '
        {
          assert a[1..][k] == a[k + 1];
        }
      }
      SplitAtSpace(a[1..], b);
      assert a == [a[0]] + a[1..];
    }
  }

  /** A string without spaces is a single piece. */
  lemma {:induction false} SplitNoSpace(a: string)
    requires ' ' !in a
    ensures Split(a) == [a]
    decreases |a|
  {
    if |a| > 0 {
      assert ' ' !in a[1..] by {
        forall k | 0 <= k < |a[1..]|
          ensures a[1..][k] != ' '
        {
          assert a[1..][k] == a[k + 1];
        }
      }
      SplitNoSpace(a[1..]);
      assert a == [a[0]] + a[1..];
    }
  }

  /** Split is the inverse of Join on pieces without spaces, so it is the only such decomposition. */
  lemma {:induction false} SplitJoin(pieces: seq<string>)
    requires |pieces| >= 1
    requires forall k :: 0 <= k < |pieces| ==> ' ' !in pieces[k]
    ensures Split(Join(pieces)) == pieces
    decreases |pieces|
  {
    if |pieces| == 1 {
      SplitNoSpace(pieces[0]);
    } else {
      SplitJoin(pieces[1..]);
      SplitAtSpace(pieces[0], Join(pieces[1..]));
      assert pieces == [pieces[0]] + pieces[1..];
    }
  }

  /** The pieces after one more character: a space opens a new empty piece, anything else extends the last piece. */
  function Extend(pieces: seq<string>, c: char): seq<string>
    requires |pieces| >= 1
  {
    if c == ' ' then pieces + [""] else pieces[..|pieces| - 1] + [pieces[|pieces| - 1] + [c]]
  }

  /** Split of a single character. */
  lemma SplitOne(c: char)
    ensures Split([c]) == Extend([""], c)
  {
    assert [c][1..] == "";
    if c != ' ' {
      assert Split([c]) == [[c] + Split("")[0]] + Split("")[1..];
      assert [c] + "" == [c];
      assert Extend([""], c) == [] + ["" + [c]];
      assert "" + [c] == [c];
    }
  }

  /** Extending the pieces behind a leading non-space character only touches the tail. */
  lemma ExtendBehindHead(x: char, rest: seq<string>, c: char)
    requires |rest| >= 1
    ensures Extend([[x] + rest[0]] + rest[1..], c) == (var r := Extend(rest, c); [[x] + r[0]] + r[1..])
  {
    var k := |rest|;
    var r := Extend(rest, c);
    if c == ' ' {
      assert r[0] == rest[0];
      assert r[1..] == rest[1..] + [""];
    } else if k == 1 {
      assert r == [rest[0] + [c]];
      assert ([x] + rest[0]) + [c] == [x] + (rest[0] + [c]);
    } else {
      assert r[0] == rest[0];
      assert r[1..] == rest[1..k - 1] + [rest[k - 1] + [c]];
    }
  }

  /** Appending one character to the string extends its pieces by that character. */
  lemma {:induction false} SplitSnoc(p: string, c: char)
    ensures Split(p + [c]) == Extend(Split(p), c)
    decreases |p|
  {
    var t := p + [c];
    if |p| == 0 {
      assert t == [c];
      SplitOne(c);
    } else {
      var q := p[1..];
      assert t[0] == p[0];
      assert t[1..] == q + [c];
      SplitSnoc(q, c);
      if p[0] == ' ' {
        assert Split(p) == [""] + Split(q);
        assert Split(t) == [""] + Split(q + [c]);
      } else {
        ExtendBehindHead(p[0], Split(q), c);
      }
    }
  }

  /** On a plain string the scanner never enters quotes, finishes every piece but the last, and buffers the last. */
  lemma {:induction false} ScanPlain(s: string)
    requires Plain(s)
    ensures var ps := Split(s);
      Scan(s) == Scanner(ps[..|ps| - 1], ps[|ps| - 1], false, false)
    decreases |s|
  {
    if |s| > 0 {
      var p := s[..|s| - 1];
      var c := s[|s| - 1];
      assert Plain(p) by {
        forall i | 0 <= i < |p|
          ensures p[i] != '"' && p[i] != '\\'
        {
          assert p[i] == s[i];
        }
      }
      ScanPlain(p);
      SplitSnoc(p, c);
      assert p + [c] == s;
      var ps := Split(p);
      if c == ' ' {
        assert (ps + [""])[..|ps|] == ps;
      } else {
        assert (ps[..|ps| - 1] + [ps[|ps| - 1] + [c]])[..|ps| - 1] == ps[..|ps| - 1];
      }
    }
  }

  /** The pieces with a final empty piece removed, if there is one. */
  function DropTrailingEmpty(pieces: seq<string>): seq<string>
    requires |pieces| >= 1
  {
    if pieces[|pieces| - 1] == "" then pieces[..|pieces| - 1] else pieces
  }

  /**
    On a plain string the arguments are the space-separated pieces, including
    empty ones between neighbouring spaces, with only a final empty piece dropped.
  */
  lemma {:induction false} PlainIsSplit(s: string)
    requires Plain(s)
    ensures StringToArgs(s) == DropTrailingEmpty(Split(s))
  {
    ScanPlain(s);
    var ps := Split(s);
    if ps[|ps| - 1] != "" {
      assert ps[..|ps| - 1] + [ps[|ps| - 1]] == ps;
    }
  }
}
