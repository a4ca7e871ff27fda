/**
 * The three `str` operations the log reader relies on: `strip()`, `split("\n")`
 * and its inverse `"\n".join(...)`.
 */
module Text {

  /** The characters for which Python's `str.isspace()` holds. */
  predicate IsSpace(c: char) {
    var n := c as int;
    n == 0x20 || 0x09 <= n <= 0x0d || 0x1c <= n <= 0x1f || n == 0x85 || n == 0xa0
    || n == 0x1680 || 0x2000 <= n <= 0x200a || n == 0x2028 || n == 0x2029
    || n == 0x202f || n == 0x205f || n == 0x3000
  }

  function StripStart(s: string): (r: string)
    ensures r == [] || !IsSpace(r[0])
    ensures |r| <= |s| && r == s[|s| - |r|..]
    ensures forall i :: 0 <= i < |s| - |r| ==> IsSpace(s[i])
  {
    if s != [] && IsSpace(s[0]) then StripStart(s[1..]) else s
  }

  function StripEnd(s: string): (r: string)
    ensures r == [] || !IsSpace(r[|r| - 1])
    ensures |r| <= |s| && r == s[..|r|]
    ensures forall i :: |r| <= i < |s| ==> IsSpace(s[i])
  {
    if s != [] && IsSpace(s[|s| - 1]) then StripEnd(s[..|s| - 1]) else s
  }

  /** `s.strip()`: leading and trailing white space removed. */
  function Strip(s: string): (r: string)
    ensures r == [] || (!IsSpace(r[0]) && !IsSpace(r[|r| - 1]))
    ensures |s| - |StripStart(s)| + |r| <= |s|
    ensures forall i :: 0 <= i < |r| ==> r[i] == s[|s| - |StripStart(s)| + i]
    ensures forall i :: 0 <= i < |s| - |StripStart(s)| ==> IsSpace(s[i])
    ensures forall i :: |s| - |StripStart(s)| + |r| <= i < |s| ==> IsSpace(s[i])
  {
    StripParts(s);
    StripEnd(StripStart(s))
  }

  /** Where the stripped text sits in `s`, and that only white space lies around it. */
  lemma StripParts(s: string)
    ensures var t := StripStart(s); var r := StripEnd(t); var a := |s| - |t|;
      && a + |r| <= |s|
      && (forall i :: 0 <= i < |r| ==> r[i] == s[a + i])
      && (forall i :: a + |r| <= i < |s| ==> IsSpace(s[i]))
  {
    var t := StripStart(s);
    var r := StripEnd(t);
    var a := |s| - |t|;
    assert t == s[a..];
    assert r == t[..|r|];
    forall i | 0 <= i < |r|
      ensures r[i] == s[a + i]
    {
      assert r[i] == t[i];
    }
    forall i | a + |r| <= i < |s|
      ensures IsSpace(s[i])
    {
      assert s[i] == t[i - a];
    }
  }

  /** `s.split("\n")`: the pieces between newlines, at least one. */
  function Split(s: string): (r: seq<string>)
    ensures |r| >= 1
    ensures forall i :: 0 <= i < |r| ==> '\n' !in r[i]
  {
    if s == [] then [""]
    else if s[|s| - 1] == '\n' then Split(s[..|s| - 1]) + [""]
    else
      var init := Split(s[..|s| - 1]);
      init[..|init| - 1] + [init[|init| - 1] + [s[|s| - 1]]]
  }

  /** `"\n".join(lines)`. */
  function Join(lines: seq<string>): (r: string)
    requires |lines| >= 1
    ensures |r| == TotalLength(lines) + |lines| - 1
  {
    if |lines| == 1 then lines[0]
    else Join(lines[..|lines| - 1]) + "\n" + lines[|lines| - 1]
  }

  /** The number of characters in `lines` altogether. */
  function TotalLength(lines: seq<string>): nat {
    if lines == [] then 0 else TotalLength(lines[..|lines| - 1]) + |lines[|lines| - 1]|
  }

  /** A text made only of white space strips to nothing. */
  lemma {:induction false} StripBlank(s: string)
    requires forall i :: 0 <= i < |s| ==> IsSpace(s[i])
    ensures Strip(s) == []
  {
    if s != [] {
      StripBlank(s[1..]);
    }
  }

  /** A final newline after a text that ends in a visible character is stripped, nothing else. */
  lemma StripFinalNewline(x: string)
    requires x != [] && !IsSpace(x[0]) && !IsSpace(x[|x| - 1])
    ensures Strip(x + "\n") == x
  {
    var y := x + "\n";
    assert StripStart(y) == y;
    assert y[..|y| - 1] == x;
    assert IsSpace(y[|y| - 1]);
    assert StripEnd(y) == StripEnd(x);
  }

  /** A text without newlines is a single piece. */
  lemma {:induction false} SplitSingle(b: string)
    requires '\n' !in b
    ensures Split(b) == [b]
  {
    if b != [] {
      var b' := b[..|b| - 1];
      assert '\n' !in b' by {
        forall i | 0 <= i < |b'| ensures b'[i] != '\n' { assert b'[i] == b[i]; }
      }
      SplitSingle(b');
      assert b' + [b[|b| - 1]] == b;
    }
  }

  /** Splitting after a newline-free last line adds exactly that line. */
  lemma {:induction false} SplitAppend(a: string, b: string)
    requires '\n' !in b
    ensures Split(a + "\n" + b) == Split(a) + [b]
  {
    var s := a + "\n" + b;
    if b == [] {
      assert s == a + "\n";
      assert s[..|s| - 1] == a;
    } else {
      var b' := b[..|b| - 1];
      assert '\n' !in b' by {
        forall i | 0 <= i < |b'| ensures b'[i] != '\n' { assert b'[i] == b[i]; }
      }
      SplitAppend(a, b');
      assert s[..|s| - 1] == a + "\n" + b';
      assert s[|s| - 1] == b[|b| - 1];
      assert b' + [b[|b| - 1]] == b;
    }
  }

  /** Splitting undoes joining lines that contain no newline. */
  lemma {:induction false} SplitJoin(lines: seq<string>)
    requires |lines| >= 1
    requires forall i :: 0 <= i < |lines| ==> '\n' !in lines[i]
    ensures Split(Join(lines)) == lines
  {
    if |lines| == 1 {
      SplitSingle(lines[0]);
    } else {
      var init := lines[..|lines| - 1];
      SplitJoin(init);
      SplitAppend(Join(init), lines[|lines| - 1]);
      assert init + [lines[|lines| - 1]] == lines;
    }
  }

  /** Joining undoes splitting. */
  lemma {:induction false} JoinSplit(s: string)
    ensures Join(Split(s)) == s
  {
    if s != [] {
      var s' := s[..|s| - 1];
      var c := s[|s| - 1];
      JoinSplit(s');
      var init := Split(s');
      if c == '\n' {
        var r := init + [""];
        assert r[..|r| - 1] == init;
      } else {
        assert s' + [c] == s;
        JoinExtendLast(init, c);
      }
    }
  }

  /** Extending the last line of a text extends the joined text. */
  lemma JoinExtendLast(lines: seq<string>, c: char)
    requires |lines| >= 1
    ensures Join(lines[..|lines| - 1] + [lines[|lines| - 1] + [c]]) == Join(lines) + [c]
  {
    var r := lines[..|lines| - 1] + [lines[|lines| - 1] + [c]];
    if |lines| > 1 {
      assert r[..|r| - 1] == lines[..|lines| - 1];
    }
  }

  /** The text of a file written line by line, each line followed by a newline. */
  function Lines(lines: seq<string>): (text: string)
    ensures lines == [] <==> text == []
  {
    if lines == [] then []
    else Lines(lines[..|lines| - 1]) + (lines[|lines| - 1] + "\n")
  }

  /** Writing lines one after another is joining them and ending with a newline. */
  lemma {:induction false} LinesIsJoin(lines: seq<string>)
    requires lines != []
    ensures Lines(lines) == Join(lines) + "\n"
  {
    if |lines| > 1 {
      var init := lines[..|lines| - 1];
      var last := lines[|lines| - 1];
      LinesIsJoin(init);
      calc {
        Lines(lines);
        Join(init) + "\n" + (last + "\n");
        { Assoc(Join(init) + "\n", last, "\n"); }
        Join(init) + "\n" + last + "\n";
      }
    }
  }

  lemma Assoc(a: string, b: string, c: string)
    ensures a + (b + c) == a + b + c
  {
  }

  /** Writing `a` and then `b` gives the text of writing `a + b`. */
  lemma {:induction false} LinesAppend(a: seq<string>, b: seq<string>)
    ensures Lines(a + b) == Lines(a) + Lines(b)
  {
    if b == [] {
      assert a + b == a;
    } else {
      var init := b[..|b| - 1];
      assert (a + b)[..|a + b| - 1] == a + init;
      LinesAppend(a, init);
      Assoc(Lines(a), Lines(init), b[|b| - 1] + "\n");
    }
  }

  /** A joined text starts with its first line's first character. */
  lemma {:induction false} JoinStart(lines: seq<string>)
    requires lines != [] && lines[0] != []
    ensures Join(lines) != [] && Join(lines)[0] == lines[0][0]
  {
    if |lines| > 1 {
      JoinStart(lines[..|lines| - 1]);
    }
  }

  /** A joined text ends with its last line's last character. */
  lemma JoinEnd(lines: seq<string>)
    requires lines != [] && lines[|lines| - 1] != []
    ensures var text := Join(lines);
      text != [] && text[|text| - 1] == lines[|lines| - 1][|lines[|lines| - 1]| - 1]
  {
  }

  /**
   * Reading back a file written line by line: stripping it and splitting at
   * newlines recovers the lines, provided none contains a newline and the
   * text neither starts nor ends with white space.
   */
  lemma StripSplitLines(lines: seq<string>)
    requires lines != [] && lines[0] != [] && lines[|lines| - 1] != []
    requires !IsSpace(lines[0][0]) && !IsSpace(lines[|lines| - 1][|lines[|lines| - 1]| - 1])
    requires forall i :: 0 <= i < |lines| ==> '\n' !in lines[i]
    ensures Strip(Lines(lines)) != [] && Split(Strip(Lines(lines))) == lines
  {
    LinesIsJoin(lines);
    JoinStart(lines);
    JoinEnd(lines);
    StripFinalNewline(Join(lines));
    SplitJoin(lines);
  }
}
