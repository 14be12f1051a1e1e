/** Leftmost splitting of a text on a fixed separator, and Python's line splitting. */
module TextSplit {
  /** The parts with one more character in front of the first. */
  function Prepend(c: char, parts: seq<string>): (r: seq<string>)
    requires |parts| >= 1
    ensures |r| == |parts| && r[0] == [c] + parts[0] && r[1..] == parts[1..]
  {
    [[c] + parts[0]] + parts[1..]
  }

  /** `text.split(sep)` for a non-empty separator: leftmost, non-overlapping. */
  function Split(text: string, sep: string): (parts: seq<string>)
    requires sep != ""
    ensures |parts| >= 1
    decreases |text|
  {
    if |text| < |sep| then [text]
    else if sep <= text then [""] + Split(text[|sep|..], sep)
    else Prepend(text[0], Split(text[1..], sep))
  }

  function Init<T>(parts: seq<T>): seq<T>
    requires |parts| >= 1
  {
    parts[..|parts| - 1]
  }

  function Last<T>(parts: seq<T>): T
    requires |parts| >= 1
  {
    parts[|parts| - 1]
  }

  function Join(parts: seq<string>, sep: string): string
    requires |parts| >= 1
    decreases |parts|
  {
    if |parts| == 1 then parts[0] else parts[0] + sep + Join(parts[1..], sep)
  }

  predicate ContainsAt(text: string, sep: string, i: nat) {
    i + |sep| <= |text| && text[i..i + |sep|] == sep
  }

  predicate Contains(text: string, sep: string) {
    exists i: nat :: i <= |text| && ContainsAt(text, sep, i)
  }

  lemma JoinPrepend(c: char, parts: seq<string>, sep: string)
    requires |parts| >= 1
    ensures Join(Prepend(c, parts), sep) == [c] + Join(parts, sep)
  {
    if |parts| > 1 {
      var rest := Join(parts[1..], sep);
      assert [c] + parts[0] + sep + rest == [c] + (parts[0] + sep + rest);
    }
  }

  /** No character is lost or invented by a split. */
  lemma {:induction false} SplitJoins(text: string, sep: string)
    requires sep != ""
    ensures Join(Split(text, sep), sep) == text
    decreases |text|
  {
    if |text| < |sep| {
    } else if sep <= text {
      var rest := Split(text[|sep|..], sep);
      SplitJoins(text[|sep|..], sep);
      assert ([""] + rest)[1..] == rest;
      assert "" + sep + text[|sep|..] == text;
    } else {
      SplitJoins(text[1..], sep);
      JoinPrepend(text[0], Split(text[1..], sep), sep);
      assert text == [text[0]] + text[1..];
    }
  }

  lemma ContainsInTail(text: string, sep: string)
    requires text != "" && Contains(text[1..], sep)
    ensures Contains(text, sep)
  {
    var i: nat :| i <= |text[1..]| && ContainsAt(text[1..], sep, i);
    assert text[1..][i..i + |sep|] == text[i + 1..i + 1 + |sep|];
    assert ContainsAt(text, sep, i + 1);
  }

  lemma ContainsCases(text: string, sep: string)
    requires sep != "" && Contains(text, sep)
    ensures sep <= text || (text != "" && Contains(text[1..], sep))
  {
    var i: nat :| i <= |text| && ContainsAt(text, sep, i);
    if i > 0 {
      assert text[1..][i - 1..i - 1 + |sep|] == text[i..i + |sep|];
      assert ContainsAt(text[1..], sep, i - 1);
    }
  }

  /** The unsplit tail never hides a separator. */
  lemma {:induction false} LastHasNoSeparator(text: string, sep: string)
    requires sep != ""
    ensures !Contains(Last(Split(text, sep)), sep)
    decreases |text|
  {
    if |text| < |sep| {
    } else if sep <= text {
      LastHasNoSeparator(text[|sep|..], sep);
    } else {
      var rest := Split(text[1..], sep);
      LastHasNoSeparator(text[1..], sep);
      if |rest| == 1 {
        SplitJoins(text[1..], sep);
        assert rest == [text[1..]];
        assert Prepend(text[0], rest)[0] == text;
        if Contains(text, sep) { ContainsCases(text, sep); }
      } else {
        var parts := Prepend(text[0], rest);
        assert Last(parts) == parts[1..][|parts| - 2] == Last(rest);
      }
    }
  }

  lemma {:induction false} SplitWithoutSeparator(text: string, sep: string)
    requires sep != "" && !Contains(text, sep)
    ensures Split(text, sep) == [text]
    decreases |text|
  {
    if |text| >= |sep| {
      assert !ContainsAt(text, sep, 0);
      assert text[0..0 + |sep|] == text[..|sep|];
      if Contains(text[1..], sep) { ContainsInTail(text, sep); }
      SplitWithoutSeparator(text[1..], sep);
      assert [text[0]] + text[1..] == text;
    }
  }

  lemma PrependResumes(c: char, parts: seq<string>, more: seq<string>)
    requires |parts| >= 2 && |more| >= 1
    ensures Prepend(c, Init(parts) + more) == Init(Prepend(c, parts)) + more
  {
    var front := Init(parts);
    assert (front + more)[1..] == front[1..] + more;
    assert Init(Prepend(c, parts)) == Prepend(c, front);
  }

  /** Composition: splitting a longer text only resumes from the tail of the shorter one. */
  lemma {:induction false} SplitResumes(a: string, b: string, sep: string)
    requires sep != ""
    ensures Split(a + b, sep) == Init(Split(a, sep)) + Split(Last(Split(a, sep)) + b, sep)
    decreases |a|
  {
    if |a| < |sep| {
      assert Init([a]) == [];
    } else if sep <= a {
      var rest := Split(a[|sep|..], sep);
      SplitResumes(a[|sep|..], b, sep);
      assert sep <= a + b;
      assert (a + b)[|sep|..] == a[|sep|..] + b;
      assert Init([""] + rest) == [""] + Init(rest);
      assert [""] + (Init(rest) + Split(Last(rest) + b, sep)) == [""] + Init(rest) + Split(Last(rest) + b, sep);
    } else {
      assert (a + b)[..|sep|] == a[..|sep|];
      assert (a + b)[1..] == a[1..] + b;
      var rest := Split(a[1..], sep);
      SplitResumes(a[1..], b, sep);
      if |rest| == 1 {
        SplitJoins(a, sep);
        assert Split(a, sep) == [a];
        assert Init([a]) == [];
      } else {
        PrependResumes(a[0], rest, Split(Last(rest) + b, sep));
        assert Last(Prepend(a[0], rest)) == Prepend(a[0], rest)[1..][|rest| - 2] == Last(rest);
      }
    }
  }

  /** A frame without the separator, even straddling its end, is split off whole. */
  lemma {:induction false} SplitFirstFrame(frame: string, rest: string, sep: string)
    requires sep != ""
    requires forall i: nat :: i < |frame| ==> !ContainsAt(frame + sep, sep, i)
    ensures Split(frame + sep + rest, sep) == [frame] + Split(rest, sep)
    decreases |frame|
  {
    var text := frame + sep + rest;
    if frame == "" {
      assert text == sep + rest;
      assert text[|sep|..] == rest;
    } else {
      assert !ContainsAt(frame + sep, sep, 0);
      assert (frame + sep)[0..0 + |sep|] == text[..|sep|];
      var inner := frame[1..];
      forall i: nat | i < |inner| ensures !ContainsAt(inner + sep, sep, i) {
        assert (inner + sep) == (frame + sep)[1..];
        if i + |sep| <= |inner + sep| {
          assert (inner + sep)[i..i + |sep|] == (frame + sep)[i + 1..i + 1 + |sep|];
        }
        assert !ContainsAt(frame + sep, sep, i + 1);
      }
      SplitFirstFrame(inner, rest, sep);
      assert text[1..] == inner + sep + rest;
      assert [frame[0]] + inner == frame;
      assert ([inner] + Split(rest, sep))[1..] == Split(rest, sep);
    }
  }

  /** The line boundaries of Python's `str.splitlines`. */
  predicate PyLineBreak(c: char) {
    c in "\n\r\U{000B}\U{000C}\U{001C}\U{001D}\U{001E}\U{0085}\U{2028}\U{2029}"
  }

  /** Python's `str.splitlines`: no empty line after a final boundary. */
  function PyLines(text: string): (lines: seq<string>)
    ensures lines == [] <==> text == ""
    decreases |text|
  {
    if text == "" then []
    else if PyLineBreak(text[0]) then
      [""] + PyLines(if text[0] == '\r' && |text| > 1 && text[1] == '\n' then text[2..] else text[1..])
    else
      var rest := PyLines(text[1..]);
      if rest == [] then [[text[0]]] else Prepend(text[0], rest)
  }

  /** On texts whose only boundary is the newline, both line splits differ by one empty line. */
  lemma {:induction false} PyLinesAgree(text: string)
    requires forall c :: c in text && PyLineBreak(c) ==> c == '\n'
    ensures Split(text, "\n") == PyLines(text)
         || Split(text, "\n") == PyLines(text) + [""]
    decreases |text|
  {
    if text != "" {
      PyLinesAgree(text[1..]);
      assert text[0] in text;
      if text[0] == '\n' {
        assert "\n" <= text;
      } else {
        assert !("\n" <= text);
        var rest := PyLines(text[1..]);
        if rest == [] {
          assert [text[0]] + "" == [text[0]];
        } else {
          assert Prepend(text[0], rest + [""]) == Prepend(text[0], rest) + [""];
        }
      }
    }
  }
}
