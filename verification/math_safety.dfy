/** The safety form of Markdown mathematics: lone equals signs inside closed display blocks are escaped. */
module MathSafety {
  import opened Base
  import opened Text

  // ----- lines -----

  function Indent(line: string): (n: nat)
    ensures n <= |line| && forall i | 0 <= i < n :: line[i] == ' '
    ensures n < |line| ==> line[n] != ' '
  {
    if line == "" || line[0] != ' ' then 0 else 1 + Indent(line[1..])
  }

  predicate Blanks(s: string) {
    forall i | 0 <= i < |s| :: s[i] == '\t' || s[i] == ' '
  }

  // strings.TrimSuffix(line, "\r")
  function Body(line: string): string {
    if line != "" && line[|line| - 1] == '\r' then line[..|line| - 1] else line
  }

  // ^ {0,3}\$\$[\t ]*$
  predicate IsDisplay(line: string) {
    var n := Indent(line);
    n <= 3 && n + 2 <= |line| && line[n] == '$' && line[n + 1] == '$' && Blanks(line[n + 2..])
  }

  datatype Marker = Marker(mark: char, length: nat, rest: string)

  function RunLength(s: string, c: char): (n: nat)
    ensures n <= |s|
  {
    if s == "" || s[0] != c then 0 else 1 + RunLength(s[1..], c)
  }

  // ^ {0,3}(`{3,}|~{3,})(.*)$
  function CodeMarker(line: string): Option<Marker> {
    var n := Indent(line);
    if n > 3 || n == |line| || (line[n] != '`' && line[n] != '~') then None
    else
      var length := RunLength(line[n..], line[n]);
      if length < 3 then None else Some(Marker(line[n], length, line[n + length..]))
  }

  // ^ {0,3}=[\t ]*\r?$
  predicate IsEquals(line: string) {
    var n := Indent(line);
    n <= 3 && n < |line| && line[n] == '=' && Blanks(Body(line[n + 1..]))
  }

  // strings.Replace(line, "=", `\=`, 1)
  function Escape(line: string): string {
    var n := Indent(line);
    line[..n] + "\\" + line[n..]
  }

  // ----- where display mathematics is -----

  datatype Mode = Prose | Code(mark: char, length: nat) | Math(start: nat)

  function NextMode(mode: Mode, i: nat, line: string): Mode {
    match mode
    case Math(_) => if IsDisplay(Body(line)) then Prose else mode
    case Code(mark, length) =>
      var m := CodeMarker(Body(line));
      if m.Some? && m.value.mark == mark && m.value.length >= length && Blank(m.value.rest) then Prose else mode
    case Prose =>
      var m := CodeMarker(Body(line));
      if m.Some? then Code(m.value.mark, m.value.length)
      else if IsDisplay(Body(line)) then Math(i)
      else Prose
  }

  // The mode in front of line i.
  function ModeAt(lines: seq<string>, i: nat): Mode
    requires i <= |lines|
  {
    if i == 0 then Prose else NextMode(ModeAt(lines, i - 1), i - 1, lines[i - 1])
  }

  // Delimiters o and c enclose a block: o opens it outside code and c is the next delimiter.
  ghost predicate Block(lines: seq<string>, o: int, c: int) {
    && 0 <= o < c < |lines| && ModeAt(lines, o).Prose? && ModeAt(lines, o + 1) == Math(o)
    && IsDisplay(Body(lines[c])) && forall k | o < k < c :: !IsDisplay(Body(lines[k]))
  }

  ghost predicate Inside(lines: seq<string>, j: int) {
    exists o, c :: Block(lines, o, c) && o < j < c
  }

  // Exactly the lone equals lines strictly inside closed blocks change, by one backslash each.
  ghost function Safe(lines: seq<string>): (r: seq<string>)
    ensures |r| == |lines|
    ensures forall j | 0 <= j < |lines| :: r[j] == if Inside(lines, j) && IsEquals(lines[j]) then Escape(lines[j]) else lines[j]
  {
    seq(|lines|, j requires 0 <= j < |lines| => if Inside(lines, j) && IsEquals(lines[j]) then Escape(lines[j]) else lines[j])
  }

  // In mathematics the mode reaches back to its opening delimiter without meeting another.
  lemma {:induction false} MathReachesBack(lines: seq<string>, i: nat)
    requires i <= |lines| && ModeAt(lines, i).Math?
    ensures var o := ModeAt(lines, i).start;
      && o < i && ModeAt(lines, o).Prose? && (forall k | o < k <= i :: ModeAt(lines, k) == Math(o))
      && forall k | o < k < i :: !IsDisplay(Body(lines[k]))
  {
    hide IsDisplay, CodeMarker, Body;
    if ModeAt(lines, i - 1).Math? { MathReachesBack(lines, i - 1); }
  }

  lemma {:induction false} BlockModes(lines: seq<string>, o: int, c: int, k: int)
    requires Block(lines, o, c) && o < k <= c
    ensures ModeAt(lines, k) == Math(o) && ModeAt(lines, c + 1) == Prose
    decreases c - k
  {
    hide IsDisplay, CodeMarker, Body;
    InsideMath(lines, o, c, k);
    InsideMath(lines, o, c, c);
  }

  lemma {:induction false} InsideMath(lines: seq<string>, o: int, c: int, k: int)
    requires Block(lines, o, c) && o < k <= c
    ensures ModeAt(lines, k) == Math(o)
    decreases k
  {
    hide IsDisplay, CodeMarker, Body;
    if k > o + 1 { InsideMath(lines, o, c, k - 1); }
  }

  // A line in mathematics is inside a block as soon as some delimiter follows.
  lemma {:induction false} NextDelimiter(lines: seq<string>, j: nat, c: nat) returns (d: nat)
    requires j <= c < |lines| && IsDisplay(Body(lines[c]))
    ensures j <= d <= c && IsDisplay(Body(lines[d])) && forall k | j <= k < d :: !IsDisplay(Body(lines[k]))
    decreases c - j
  {
    hide IsDisplay, Body;
    if IsDisplay(Body(lines[j])) { return j; }
    d := NextDelimiter(lines, j + 1, c);
  }

  lemma InsideIsMath(lines: seq<string>, j: nat)
    requires j < |lines| && Inside(lines, j)
    ensures ModeAt(lines, j).Math? && exists c :: j < c < |lines| && IsDisplay(Body(lines[c]))
  {
    hide IsDisplay, Body, ModeAt;
    var o, c :| Block(lines, o, c) && o < j < c;
    BlockModes(lines, o, c, j);
  }

  lemma MathIsInside(lines: seq<string>, j: nat, c: nat)
    requires j < c < |lines| && ModeAt(lines, j).Math? && !IsDisplay(Body(lines[j])) && IsDisplay(Body(lines[c]))
    ensures Inside(lines, j)
  {
    hide IsDisplay, Body, NextMode;
    var d := NextDelimiter(lines, j, c);
    MathReachesBack(lines, j);
    assert Block(lines, ModeAt(lines, j).start, d);
  }

  /** The pairing of delimiters in terms of the scan: in mathematics, and a delimiter still to come. */
  lemma InsideIff(lines: seq<string>, j: nat)
    requires j < |lines| && !IsDisplay(Body(lines[j]))
    ensures Inside(lines, j) <==> ModeAt(lines, j).Math? && exists c :: j < c < |lines| && IsDisplay(Body(lines[c]))
  {
    hide IsDisplay, Body, ModeAt, Inside;
    if Inside(lines, j) { InsideIsMath(lines, j); }
    if ModeAt(lines, j).Math? && exists c :: j < c < |lines| && IsDisplay(Body(lines[c])) {
      var c :| j < c < |lines| && IsDisplay(Body(lines[c]));
      MathIsInside(lines, j, c);
    }
  }

  lemma EqualsIsNoDelimiter(line: string)
    requires IsEquals(line)
    ensures !IsDisplay(Body(line)) && !IsEquals(Escape(line)) && !IsDisplay(Body(Escape(line)))
    ensures |Escape(line)| == |line| + 1
  {
    var n := Indent(line);
    SameIndent(line, Body(line));
    var e := Escape(line);
    EscapedIndent(line);
    SameIndent(e, Body(e));
  }

  lemma {:induction false} SameIndent(a: string, b: string)
    requires b <= a && Indent(a) < |b|
    ensures Indent(b) == Indent(a)
    decreases |a|
  {
    if a != "" && a[0] == ' ' { SameIndent(a[1..], b[1..]); }
  }

  lemma EscapedIndent(line: string)
    requires Indent(line) < |line|
    ensures Indent(Escape(line)) == Indent(line)
  {
    IndentIs(Escape(line), Indent(line));
  }

  lemma {:induction false} IndentIs(line: string, n: nat)
    requires n < |line| && line[n] != ' ' && forall i | 0 <= i < n :: line[i] == ' '
    ensures Indent(line) == n
    decreases n
  {
    if n > 0 { IndentIs(line[1..], n - 1); }
  }

  // ----- the scan as code -----

  // Line j once every block closed before line i has been patched.
  ghost predicate Patched(was: seq<string>, i: int, j: int) {
    exists o, c :: Block(was, o, c) && o < j < c < i
  }

  ghost predicate PatchedUpTo(was: seq<string>, now: seq<string>, i: int) {
    && |now| == |was|
    && forall j | 0 <= j < |was| :: now[j] == if Patched(was, i, j) && IsEquals(was[j]) then Escape(was[j]) else was[j]
  }

  // A line that closes no block patches nothing new.
  lemma NothingCloses(was: seq<string>, i: nat, j: int)
    requires i < |was| && !(ModeAt(was, i).Math? && IsDisplay(Body(was[i])))
    ensures Patched(was, i + 1, j) <==> Patched(was, i, j)
  {
    hide IsDisplay, Body, NextMode;
    if Patched(was, i + 1, j) {
      var o, c :| Block(was, o, c) && o < j < c < i + 1;
      BlockModes(was, o, c, c);
    }
  }

  // A closing line patches exactly the lines of its own block.
  lemma BlockCloses(was: seq<string>, i: nat, j: int)
    requires i < |was| && ModeAt(was, i).Math? && IsDisplay(Body(was[i]))
    ensures var o := ModeAt(was, i).start;
      && o < i
      && (Patched(was, i + 1, j) <==> Patched(was, i, j) || o < j < i)
      && (o < j < i ==> !Patched(was, i, j))
  {
    hide IsDisplay, Body, NextMode;
    var o := ModeAt(was, i).start;
    MathReachesBack(was, i);
    assert Block(was, o, i);
    if Patched(was, i + 1, j) {
      var p, c :| Block(was, p, c) && p < j < c < i + 1;
      BlockModes(was, p, c, c);
    }
    forall p, c | o < j < i && p < j < c < i
      ensures !Block(was, p, c)
    {
      if Block(was, p, c) { BlockModes(was, p, c, j); }
    }
  }

  // The lines of an open block are still as they were.
  lemma OpenIsUntouched(was: seq<string>, i: nat, j: int)
    requires i <= |was| && 0 <= i && i <= j
    ensures !Patched(was, i, j)
  {
  }

  lemma LineAsWas(was: seq<string>, now: seq<string>, i: nat)
    requires i < |was| && PatchedUpTo(was, now, i)
    ensures |now| == |was| && now[i] == was[i]
  {
    OpenIsUntouched(was, i, i);
  }

  lemma ScanStart(was: seq<string>)
    ensures Scans(was, 0, -1, None)
  {
  }

  lemma AllPatched(was: seq<string>, now: seq<string>)
    requires PatchedUpTo(was, now, |was|)
    ensures now == Safe(was)
  {
    hide Block, IsEquals;
    forall j | 0 <= j < |was|
      ensures Patched(was, |was|, j) <==> Inside(was, j)
    {
      if Inside(was, j) {
        var o, c :| Block(was, o, c) && o < j < c;
        BlockEnds(was, o, c);
      }
    }
  }

  lemma BlockEnds(was: seq<string>, o: int, c: int)
    requires Block(was, o, c)
    ensures c < |was|
  {
  }

  // Escapes the lone equals lines between two delimiters.
  method EscapeBlock(lines: array<string>, start: nat, end: nat)
    requires start < end <= lines.Length
    modifies lines
    ensures forall j | 0 <= j < lines.Length ::
      lines[j] == if start < j < end && IsEquals(old(lines[j])) then Escape(old(lines[j])) else old(lines[j])
  {
    for j := start + 1 to end
      invariant forall k | 0 <= k < lines.Length ::
        lines[k] == if start < k < j && IsEquals(old(lines[k])) then Escape(old(lines[k])) else old(lines[k])
    {
      if IsEquals(lines[j]) {
        lines[j] := Escape(lines[j]);
      }
    }
  }

  // The state of the scan in front of line i: no open block, or the line that opened one, and the open fence.
  ghost predicate Scans(was: seq<string>, i: nat, start: int, fence: Option<(char, nat)>)
    requires i <= |was|
  {
    match ModeAt(was, i)
    case Prose => start < 0 && fence.None?
    case Code(mark, length) => start < 0 && fence == Some((mark, length))
    case Math(o) => start == o
  }

  /** One pass with back-patching changes the lines exactly as the pairing of delimiters says. */
  method EscapeEquations(lines: array<string>)
    modifies lines
    ensures lines[..] == Safe(old(lines[..]))
  {
    hide IsDisplay, IsEquals, Escape, Patched, Means, Scans, ModeAt, Body, PatchedUpTo, Safe;
    ghost var was := lines[..];
    var start := -1;
    var fence: Option<(char, nat)> := None;
    NothingPatched(was);
    ScanStart(was);
    for i := 0 to lines.Length
      invariant Scans(was, i, start, fence) && (start >= 0 ==> fence.None? && start < i)
      invariant PatchedUpTo(was, lines[..], i)
    {
      LineAsWas(was, lines[..], i);
      var step, next := ScanLine(Body(lines[i]), start, fence);
      ScanStep(was, i, start, fence, step, next);
      if step == Closing {
        ghost var before := lines[..];
        EscapeBlock(lines, start, i);
        PatchBlock(was, before, lines[..], i);
        start := -1;
      } else {
        KeepPatched(was, lines[..], i);
        if step == Opening { start := i; }
      }
      fence := next;
    }
    AllPatched(was, lines[..]);
  }

  datatype Found = Opening | Closing | Other

  // What one line means to the scan, and the fence after it.
  ghost predicate Means(line: string, start: int, fence: Option<(char, nat)>, found: Found, next: Option<(char, nat)>) {
    var m := CodeMarker(line);
    if start >= 0 then next.None? && found == if IsDisplay(line) then Closing else Other
    else if fence.Some? then
      && found == Other
      && next == if m.Some? && m.value.mark == fence.value.0 && m.value.length >= fence.value.1 && Blank(m.value.rest)
                 then None else fence
    else if m.Some? then found == Other && next == Some((m.value.mark, m.value.length))
    else next.None? && found == if IsDisplay(line) then Opening else Other
  }

  method ScanLine(line: string, start: int, fence: Option<(char, nat)>) returns (found: Found, next: Option<(char, nat)>)
    requires start >= 0 ==> fence.None?
    ensures Means(line, start, fence, found, next)
  {
    next := fence;
    if start < 0 {
      var code := CodeMarker(line);
      if fence.Some? {
        if code.Some? && code.value.mark == fence.value.0 && code.value.length >= fence.value.1 && Blank(code.value.rest) {
          next := None;
        }
        return Other, next;
      }
      if code.Some? {
        return Other, Some((code.value.mark, code.value.length));
      }
    }
    found := if !IsDisplay(line) then Other else if start < 0 then Opening else Closing;
  }

  lemma ScanStep(was: seq<string>, i: nat, start: int, fence: Option<(char, nat)>, found: Found, next: Option<(char, nat)>)
    requires i < |was| && Scans(was, i, start, fence) && Means(Body(was[i]), start, fence, found, next)
    requires start >= 0 ==> fence.None?
    ensures Scans(was, i + 1, if found == Opening then i else if found == Closing then -1 else start, next)
    ensures found == Closing <==> ModeAt(was, i).Math? && IsDisplay(Body(was[i]))
    ensures found == Closing ==> start == ModeAt(was, i).start
    ensures (found == Opening || (found == Other && start >= 0)) ==> next.None?
  {
    hide IsDisplay, CodeMarker, Body, Blank;
  }

  lemma NothingPatched(was: seq<string>)
    ensures PatchedUpTo(was, was, 0)
  {
  }

  lemma KeepPatched(was: seq<string>, now: seq<string>, i: nat)
    requires i < |was| && !(ModeAt(was, i).Math? && IsDisplay(Body(was[i]))) && PatchedUpTo(was, now, i)
    ensures PatchedUpTo(was, now, i + 1)
  {
    hide IsDisplay, Body, NextMode, ModeAt, IsEquals, Escape, Patched;
    forall j | 0 <= j < |was|
      ensures Patched(was, i + 1, j) <==> Patched(was, i, j)
    {
      NothingCloses(was, i, j);
    }
  }

  lemma PatchBlock(was: seq<string>, before: seq<string>, now: seq<string>, i: nat)
    requires i < |was| && ModeAt(was, i).Math? && IsDisplay(Body(was[i])) && PatchedUpTo(was, before, i)
    requires |now| == |before|
    requires var o := ModeAt(was, i).start; forall j | 0 <= j < |was| ::
      now[j] == if o < j < i && IsEquals(before[j]) then Escape(before[j]) else before[j]
    ensures PatchedUpTo(was, now, i + 1)
  {
    hide IsDisplay, Body, NextMode, ModeAt, IsEquals, Escape, Patched;
    forall j | 0 <= j < |was|
      ensures now[j] == if Patched(was, i + 1, j) && IsEquals(was[j]) then Escape(was[j]) else was[j]
    {
      BlockCloses(was, i, j);
    }
  }

  // ----- idempotence -----

  lemma SafeLine(lines: seq<string>, j: nat)
    requires j < |lines| && Safe(lines)[j] != lines[j]
    ensures ModeAt(lines, j).Math? && !IsDisplay(Body(lines[j])) && !IsDisplay(Body(Safe(lines)[j])) && !IsEquals(Safe(lines)[j])
  {
    hide IsDisplay, Body, ModeAt, Block, Indent;
    EqualsIsNoDelimiter(lines[j]);
    InsideIff(lines, j);
  }

  lemma {:induction false} SameModes(lines: seq<string>, i: nat)
    requires i <= |lines|
    ensures ModeAt(Safe(lines), i) == ModeAt(lines, i)
  {
    hide IsDisplay, Body, CodeMarker, IsEquals, Escape, Inside;
    if i > 0 {
      SameModes(lines, i - 1);
      if Safe(lines)[i - 1] != lines[i - 1] { SafeLine(lines, i - 1); }
    }
  }

  lemma SameDisplays(lines: seq<string>, i: nat)
    requires i < |lines|
    ensures IsDisplay(Body(Safe(lines)[i])) <==> IsDisplay(Body(lines[i]))
  {
    hide IsDisplay, Body, IsEquals, Escape, Inside;
    if Safe(lines)[i] != lines[i] { SafeLine(lines, i); }
  }

  lemma SameInside(lines: seq<string>, j: nat)
    requires j < |lines| && !IsDisplay(Body(lines[j]))
    ensures Inside(Safe(lines), j) <==> Inside(lines, j)
  {
    hide IsDisplay, Body, IsEquals, Escape, Inside, ModeAt, Safe;
    forall c | j <= c < |lines|
      ensures IsDisplay(Body(Safe(lines)[c])) <==> IsDisplay(Body(lines[c]))
    {
      SameDisplays(lines, c);
    }
    SameModes(lines, j);
    InsideIff(lines, j);
    InsideIff(Safe(lines), j);
  }

  /** Escaping twice is escaping once. */
  lemma SafeTwice(lines: seq<string>)
    ensures Safe(Safe(lines)) == Safe(lines)
  {
    hide IsDisplay, Body, Inside, ModeAt;
    forall j | 0 <= j < |lines|
      ensures Safe(Safe(lines))[j] == Safe(lines)[j]
    {
      if Safe(lines)[j] != lines[j] {
        SafeLine(lines, j);
      } else if IsEquals(lines[j]) {
        EqualsIsNoDelimiter(lines[j]);
        SameInside(lines, j);
      }
    }
  }

  // ----- whole sources -----

  function Split(source: string): (lines: seq<string>)
    ensures |lines| > 0
    ensures forall i | 0 <= i < |lines| :: '\n' !in lines[i]
  {
    if source == "" then [""]
    else
      var rest := Split(source[1..]);
      if source[0] == '\n' then [""] + rest else [[source[0]] + rest[0]] + rest[1..]
  }

  function Join(lines: seq<string>): string
    requires |lines| > 0
  {
    if |lines| == 1 then lines[0] else lines[0] + "\n" + Join(lines[1..])
  }

  lemma {:induction false} SplitThenJoin(source: string)
    ensures Join(Split(source)) == source
  {
    if source != "" {
      SplitThenJoin(source[1..]);
      var rest := Split(source[1..]);
      if source[0] == '\n' {
        assert ([""] + rest)[1..] == rest;
      } else {
        assert ([[source[0]] + rest[0]] + rest[1..])[1..] == rest[1..];
      }
    }
  }

  lemma {:induction false} JoinThenSplit(lines: seq<string>)
    requires |lines| > 0 && forall i | 0 <= i < |lines| :: '\n' !in lines[i]
    ensures Split(Join(lines)) == lines
    decreases |lines|, |lines[0]|
  {
    if |lines[0]| > 0 {
      var shorter := [lines[0][1..]] + lines[1..];
      forall i | 0 <= i < |shorter|
        ensures '\n' !in shorter[i]
      {
        if i > 0 { assert shorter[i] == lines[i]; }
      }
      JoinThenSplit(shorter);
      JoinFirst(lines);
      assert lines[0] == [lines[0][0]] + lines[0][1..];
      assert [lines[0]] + lines[1..] == lines;
    } else if |lines| > 1 {
      JoinThenSplit(lines[1..]);
      assert Join(lines)[1..] == Join(lines[1..]);
      assert [""] + lines[1..] == lines;
    }
  }

  lemma JoinFirst(lines: seq<string>)
    requires |lines| > 0 && |lines[0]| > 0
    ensures Join(lines) == [lines[0][0]] + Join([lines[0][1..]] + lines[1..])
  {
    var shorter := [lines[0][1..]] + lines[1..];
    assert shorter[1..] == lines[1..];
    assert lines[0] == [lines[0][0]] + lines[0][1..];
  }

  lemma SafeKeepsLines(lines: seq<string>)
    requires forall i | 0 <= i < |lines| :: '\n' !in lines[i]
    ensures forall i | 0 <= i < |lines| :: '\n' !in Safe(lines)[i]
  {
    hide Inside, IsEquals;
    forall i | 0 <= i < |lines|
      ensures '\n' !in Safe(lines)[i]
    {
      assert lines[i] == lines[i][..Indent(lines[i])] + lines[i][Indent(lines[i])..];
    }
  }

  // Lines are kept as they are iff no lone equals line is inside a block: an escape is one character longer.
  lemma SafeChanges(lines: seq<string>)
    ensures Safe(lines) == lines <==> forall j | 0 <= j < |lines| :: !(Inside(lines, j) && IsEquals(lines[j]))
  {
    hide Inside, IsEquals;
    if j :| 0 <= j < |lines| && Inside(lines, j) && IsEquals(lines[j]) {
      assert |Safe(lines)[j]| == |lines[j]| + 1;
    } else {
      assert forall j | 0 <= j < |lines| :: Safe(lines)[j] == lines[j];
    }
  }

  /** The source form: same number of lines, escapes only where they belong, idempotent, and otherwise the very source. */
  method MathSafetySource(source: string) returns (r: string)
    ensures r == Join(Safe(Split(source)))
    ensures Split(r) == Safe(Split(source)) && |Split(r)| == |Split(source)|
    ensures Join(Safe(Split(r))) == r
    ensures r == source <==> forall j | 0 <= j < |Split(source)| :: !(Inside(Split(source), j) && IsEquals(Split(source)[j]))
  {
    var split := Split(source);
    var lines := new string[|split|](i requires 0 <= i < |split| => split[i]);
    assert lines[..] == split;
    EscapeEquations(lines);
    SafeKeepsLines(split);
    JoinThenSplit(Safe(split));
    SafeTwice(split);
    SplitThenJoin(source);
    SafeChanges(split);
    r := Join(lines[..]);
  }
}
