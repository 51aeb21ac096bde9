/** Which lines the safety form takes for delimiters, fences and lone equals signs, written as the lines themselves. */
module MathShapes {
  import opened Base
  import opened Text
  import opened MathSafety

  function Repeat(c: char, n: nat): (s: string)
    ensures |s| == n && forall i | 0 <= i < n :: s[i] == c
  {
    seq(n, _ => c)
  }

  // Up to three spaces in front of the rest.
  predicate Indented(line: string, n: nat, rest: string) {
    n <= 3 && line == Repeat(' ', n) + rest
  }

  predicate OnlyTabsAndSpaces(s: string) {
    forall i | 0 <= i < |s| :: s[i] == ' ' || s[i] == '\t'
  }

  // Two dollar signs and white space.
  predicate DisplayShape(line: string, n: nat, tail: string) {
    Indented(line, n, "$$" + tail) && OnlyTabsAndSpaces(tail)
  }

  // At least three backquotes or tildes, and what follows the last of them.
  predicate FenceShape(line: string, n: nat, m: Marker) {
    && Indented(line, n, Repeat(m.mark, m.length) + m.rest) && (m.mark == '`' || m.mark == '~') && m.length >= 3
    && (m.rest != "" ==> m.rest[0] != m.mark)
  }

  // An equals sign and white space, with or without a carriage return.
  predicate EqualsShape(line: string, n: nat, tail: string) {
    (Indented(line, n, "=" + tail) || Indented(line, n, "=" + tail + "\r")) && OnlyTabsAndSpaces(tail)
  }

  lemma IndentOf(line: string, n: nat, rest: string)
    requires line == Repeat(' ', n) + rest && rest != "" && rest[0] != ' '
    ensures Indent(line) == n && line[n..] == rest
  {
    IndentIs(line, n);
  }

  lemma IndentSplits(line: string)
    ensures line == Repeat(' ', Indent(line)) + line[Indent(line)..]
  {
  }

  /** A delimiter is exactly such a line. */
  lemma DisplayIs(line: string)
    ensures IsDisplay(line) <==> exists n, tail :: DisplayShape(line, n, tail)
  {
    IndentSplits(line);
    if IsDisplay(line) {
      var n := Indent(line);
      assert line[n..] == "$$" + line[n + 2..];
      assert DisplayShape(line, n, line[n + 2..]);
    }
    if n, tail :| DisplayShape(line, n, tail) {
      IndentOf(line, n, "$$" + tail);
      assert line[n + 2..] == tail;
    }
  }

  lemma {:induction false} RunSplits(s: string, c: char)
    ensures s == Repeat(c, RunLength(s, c)) + s[RunLength(s, c)..]
    ensures RunLength(s, c) < |s| ==> s[RunLength(s, c)] != c
  {
    if s != "" && s[0] == c {
      var n := RunLength(s, c);
      RunSplits(s[1..], c);
      assert s == [c] + s[1..] && s[1..][n - 1..] == s[n..];
      RepeatMore(c, n - 1);
      hide Repeat;
      assert [c] + (Repeat(c, n - 1) + s[n..]) == ([c] + Repeat(c, n - 1)) + s[n..];
    }
  }

  lemma RepeatMore(c: char, n: nat)
    ensures Repeat(c, n + 1) == [c] + Repeat(c, n)
  {
  }

  lemma {:induction false} RunOf(c: char, n: nat, rest: string)
    requires rest != "" ==> rest[0] != c
    ensures RunLength(Repeat(c, n) + rest, c) == n
  {
    if n > 0 {
      assert (Repeat(c, n) + rest)[1..] == Repeat(c, n - 1) + rest;
      RunOf(c, n - 1, rest);
    } else {
      assert Repeat(c, 0) + rest == rest;
    }
  }

  lemma FenceHasShape(line: string)
    requires CodeMarker(line).Some?
    ensures FenceShape(line, Indent(line), CodeMarker(line).value)
  {
    var n, m := Indent(line), CodeMarker(line).value;
    MarkerFacts(line);
    hide CodeMarker, Repeat, RunLength, Indent;
    RunSplits(line[n..], m.mark);
    IndentSplits(line);
    assert line[n..][m.length..] == m.rest;
  }

  // Where a marker is, and what it is made of.
  lemma MarkerFacts(line: string)
    requires CodeMarker(line).Some?
    ensures var n, m := Indent(line), CodeMarker(line).value;
      && n <= 3 && n < |line| && (m.mark == '`' || m.mark == '~') && m.length == RunLength(line[n..], m.mark)
      && m.length >= 3 && n + m.length <= |line| && m.rest == line[n + m.length..]
  {
  }

  lemma ShapeIsFence(line: string, n: nat, m: Marker)
    requires FenceShape(line, n, m)
    ensures CodeMarker(line) == Some(m)
  {
    var run := Repeat(m.mark, m.length) + m.rest;
    IndentOf(line, n, run);
    RunOf(m.mark, m.length, m.rest);
    hide Repeat, RunLength;
    assert line[n + m.length..] == run[m.length..] == m.rest;
  }

  /** A fence is exactly such a line, and its run of marks is taken as long as it goes. */
  lemma FenceIs(line: string, m: Marker)
    ensures CodeMarker(line) == Some(m) <==> exists n :: FenceShape(line, n, m)
  {
    hide CodeMarker, Indented;
    if CodeMarker(line) == Some(m) { FenceHasShape(line); }
    if n: nat :| FenceShape(line, n, m) { ShapeIsFence(line, n, m); }
  }

  lemma EqualsHasShape(line: string)
    requires IsEquals(line)
    ensures EqualsShape(line, Indent(line), Body(line[Indent(line) + 1..]))
  {
    hide Repeat, Body;
    var n := Indent(line);
    var rest := line[n + 1..];
    IndentSplits(line);
    BodyOr(rest);
    hide Indent;
    assert line[n..] == "=" + rest;
    if rest != Body(rest) { assert "=" + Body(rest) + "\r" == "=" + rest; }
  }

  lemma BodyOr(line: string)
    ensures line == Body(line) || line == Body(line) + "\r"
  {
  }

  lemma ShapeIsEquals(line: string, n: nat, tail: string, end: string)
    requires Indented(line, n, "=" + tail + end) && OnlyTabsAndSpaces(tail) && (end == "" || end == "\r")
    ensures IsEquals(line)
  {
    IndentOf(line, n, "=" + tail + end);
    hide Repeat;
    assert line[n + 1..] == tail + end;
    assert end == "\r" ==> Body(tail + end) == tail;
    assert end == "" ==> tail + end == tail;
  }

  /** A lone equals sign is exactly such a line. */
  lemma EqualsIs(line: string)
    ensures IsEquals(line) <==> exists n, tail :: EqualsShape(line, n, tail)
  {
    hide IsEquals, Repeat;
    if IsEquals(line) { EqualsHasShape(line); }
    if n: nat, tail :| EqualsShape(line, n, tail) {
      assert "=" + tail + "" == "=" + tail;
      ShapeIsEquals(line, n, tail, if Indented(line, n, "=" + tail) then "" else "\r");
    }
  }

  /** Escaping puts one backslash in front of the equals sign and keeps everything else. */
  lemma EscapeIs(n: nat, rest: string)
    ensures Escape(Repeat(' ', n) + "=" + rest) == Repeat(' ', n) + "\\=" + rest
  {
    var line := Repeat(' ', n) + "=" + rest;
    assert line == Repeat(' ', n) + ("=" + rest);
    IndentOf(line, n, "=" + rest);
    assert line[..n] == Repeat(' ', n);
  }

  /** Lines are judged without their carriage return. */
  lemma BodyIs(line: string)
    ensures Body(line + "\r") == line
    ensures line == "" || line[|line| - 1] != '\r' ==> Body(line) == line
  {
  }

  // ----- fences and blocks -----

  // A fence of that mark and length starts at line o.
  ghost predicate FenceStarts(lines: seq<string>, o: int, mark: char, length: nat) {
    0 <= o < |lines| && ModeAt(lines, o).Prose? && exists n, rest :: FenceShape(Body(lines[o]), n, Marker(mark, length, rest))
  }

  // The same mark at least as often, and nothing but white space.
  ghost predicate FenceEnds(line: string, mark: char, length: nat) {
    exists n, m: Marker :: FenceShape(line, n, m) && m.mark == mark && m.length >= length && Blank(m.rest)
  }

  ghost predicate InFence(lines: seq<string>, o: int, i: int, mark: char, length: nat) {
    o < i <= |lines| && FenceStarts(lines, o, mark, length) && forall k | o < k < i :: !FenceEnds(Body(lines[k]), mark, length)
  }

  lemma EndsIs(line: string, mark: char, length: nat)
    ensures FenceEnds(line, mark, length) <==>
      CodeMarker(line).Some? && CodeMarker(line).value.mark == mark && CodeMarker(line).value.length >= length
      && Blank(CodeMarker(line).value.rest)
  {
    hide CodeMarker, FenceShape;
    if CodeMarker(line).Some? { FenceIs(line, CodeMarker(line).value); }
    if n, m: Marker :| FenceShape(line, n, m) && m.mark == mark && m.length >= length && Blank(m.rest) { FenceIs(line, m); }
  }

  lemma StartsIs(line: string, mark: char, length: nat)
    ensures (exists n, rest :: FenceShape(line, n, Marker(mark, length, rest))) <==>
      CodeMarker(line).Some? && CodeMarker(line).value.mark == mark && CodeMarker(line).value.length == length
  {
    hide CodeMarker, FenceShape;
    if CodeMarker(line).Some? {
      var m := CodeMarker(line).value;
      FenceIs(line, m);
      if m.mark == mark && m.length == length {
        var n :| FenceShape(line, n, m);
        assert m == Marker(mark, length, m.rest);
        assert FenceShape(line, n, Marker(mark, length, m.rest));
      }
    }
    if n, rest :| FenceShape(line, n, Marker(mark, length, rest)) { FenceIs(line, Marker(mark, length, rest)); }
  }

  /** In front of line i the scan is in code exactly when a fence started before and no line in between ends it. */
  lemma {:induction false} CodeMeans(lines: seq<string>, i: nat, mark: char, length: nat)
    requires i <= |lines|
    ensures ModeAt(lines, i) == Code(mark, length) <==> exists o :: InFence(lines, o, i, mark, length)
  {
    hide CodeMarker, IsDisplay, Body, FenceEnds, Blank, FenceShape;
    if i > 0 {
      var line := Body(lines[i - 1]);
      CodeMeans(lines, i - 1, mark, length);
      EndsIs(line, mark, length);
      StartsIs(line, mark, length);
      if ModeAt(lines, i) == Code(mark, length) {
        if ModeAt(lines, i - 1) == Code(mark, length) {
          var o :| InFence(lines, o, i - 1, mark, length);
          assert InFence(lines, o, i, mark, length);
        } else {
          assert InFence(lines, i - 1, i, mark, length);
        }
      }
      if o :| InFence(lines, o, i, mark, length) {
        if o < i - 1 { assert InFence(lines, o, i - 1, mark, length); }
      }
    }
  }

  // A delimiter line outside code and mathematics, and only such lines between two.
  ghost predicate Delimits(line: string) {
    exists n, tail :: DisplayShape(line, n, tail)
  }

  ghost predicate InDisplay(lines: seq<string>, o: int, i: int) {
    && 0 <= o < i <= |lines| && ModeAt(lines, o).Prose? && Delimits(Body(lines[o]))
    && forall k | o < k < i :: !Delimits(Body(lines[k]))
  }

  lemma DelimitsIs(line: string)
    ensures Delimits(line) <==> IsDisplay(line)
    ensures IsDisplay(line) ==> CodeMarker(line).None?
  {
    DisplayIs(line);
  }

  /** In front of line i the scan is in mathematics exactly when a delimiter opened it and none has followed. */
  lemma {:induction false} MathMeans(lines: seq<string>, i: nat, o: nat)
    requires i <= |lines|
    ensures ModeAt(lines, i) == Math(o) <==> InDisplay(lines, o, i)
  {
    hide CodeMarker, IsDisplay, Body, Delimits, Blank;
    if i > 0 {
      MathMeans(lines, i - 1, o);
      DelimitsIs(Body(lines[i - 1]));
    }
  }

  /** A block is a delimiter outside code and mathematics, the next delimiter, and what is between them. */
  lemma BlockIs(lines: seq<string>, o: int, c: int)
    ensures Block(lines, o, c) <==> 0 <= o < c < |lines| && InDisplay(lines, o, c) && Delimits(Body(lines[c]))
  {
    hide IsDisplay, Body, NextMode, ModeAt, Delimits;
    forall k | 0 <= k < |lines|
      ensures Delimits(Body(lines[k])) <==> IsDisplay(Body(lines[k]))
    {
      DelimitsIs(Body(lines[k]));
    }
    if 0 <= o < |lines| { MathMeans(lines, o + 1, o); }
  }
}
