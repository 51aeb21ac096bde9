/** What trimming, collapsing and slugs mean in terms of the text itself. */
module Words {
  import opened Text

  /** White space is exactly these twenty-five characters. */
  lemma SpacesAre(c: char)
    ensures IsSpace(c) <==> c in {
      '\t', '\n', '\U{0B}', '\U{0C}', '\r', ' ', '\U{85}', '\U{A0}', '\U{1680}', '\U{2000}', '\U{2001}', '\U{2002}',
      '\U{2003}', '\U{2004}', '\U{2005}', '\U{2006}', '\U{2007}', '\U{2008}', '\U{2009}', '\U{200A}', '\U{2028}',
      '\U{2029}', '\U{202F}', '\U{205F}', '\U{3000}'}
  {
  }

  // ----- trimming -----

  /** Trimming keeps exactly the text between the outer white space. */
  lemma {:induction false} TrimIsInside(s: string, before: string, inside: string, after: string)
    requires s == before + inside + after && Blank(before) && Blank(after)
    requires inside != "" ==> !IsSpace(inside[0]) && !IsSpace(inside[|inside| - 1])
    ensures Trim(s) == inside
    decreases |s|
  {
    hide IsSpace;
    if before != "" {
      assert s[0] == before[0] && s[1..] == before[1..] + inside + after;
      TrimIsInside(s[1..], before[1..], inside, after);
    } else if after != "" {
      var n := |after| - 1;
      if inside == "" {
        assert s[0] == after[0] && s[1..] == after[1..];
        TrimIsInside(s[1..], "", "", after[1..]);
      } else {
        assert s[|s| - 1] == after[n] && s[..|s| - 1] == inside + after[..n];
        TrimIsInside(s[..|s| - 1], "", inside, after[..n]);
      }
    }
  }

  // ----- words and the white space around them -----

  predicate IsWord(w: string) {
    w != "" && forall i | 0 <= i < |w| :: !IsSpace(w[i])
  }

  // A gap, a word, a gap, ... a word and a last gap.
  function Spread(words: seq<string>, gaps: seq<string>): string
    requires |gaps| == |words| + 1
  {
    if words == [] then gaps[0] else gaps[0] + words[0] + Spread(words[1..], gaps[1..])
  }

  function Joined(words: seq<string>, between: string): string {
    if words == [] then ""
    else if |words| == 1 then words[0]
    else words[0] + between + Joined(words[1..], between)
  }

  // Words apart from each other by white space, with white space around them or none.
  ghost predicate Apart(words: seq<string>, gaps: seq<string>) {
    && |gaps| == |words| + 1 && (forall i | 0 <= i < |words| :: IsWord(words[i]))
    && (forall i | 0 <= i < |gaps| :: Blank(gaps[i])) && forall i | 0 < i < |words| :: gaps[i] != ""
  }

  lemma {:induction false} CollapseGap(gap: string, s: string)
    requires Blank(gap)
    ensures Collapse(gap + s) == Collapse(s)
  {
    hide IsSpace;
    if gap == "" {
      assert gap + s == s;
    } else {
      assert (gap + s)[0] == gap[0] && (gap + s)[1..] == gap[1..] + s;
      CollapseGap(gap[1..], s);
    }
  }

  lemma {:induction false} CollapseWord(w: string, s: string)
    requires IsWord(w) && (s != "" ==> IsSpace(s[0]))
    ensures Collapse(w + s) == w + if Collapse(s) == "" then "" else " " + Collapse(s)
  {
    hide IsSpace;
    assert (w + s)[0] == w[0] && (w + s)[1..] == w[1..] + s;
    if |w| == 1 {
      assert w + s == w + s[0..] && (w + s)[1..] == s;
    } else {
      CollapseWord(w[1..], s);
      assert IsWord(w[1..]) && (w + s)[1] == w[1];
    }
  }

  /** Collapsing keeps the words of a text, in order, with one space between two. */
  lemma {:induction false} CollapseJoinsWords(words: seq<string>, gaps: seq<string>)
    requires Apart(words, gaps)
    ensures Collapse(Spread(words, gaps)) == Joined(words, " ")
  {
    hide IsSpace, Collapse;
    if words == [] {
      CollapseGap(gaps[0], "");
      assert gaps[0] + "" == gaps[0];
      assert Collapse("") == "" by { EmptyCollapses(); }
    } else {
      var rest := Spread(words[1..], gaps[1..]);
      SpreadStarts(words[1..], gaps[1..]);
      CollapseGap(gaps[0], words[0] + rest);
      assert gaps[0] + (words[0] + rest) == Spread(words, gaps);
      CollapseWord(words[0], rest);
      CollapseJoinsWords(words[1..], gaps[1..]);
      JoinedEmpty(words[1..]);
      if |words| > 1 {
        assert words[0] + (" " + Joined(words[1..], " ")) == Joined(words, " ");
      } else {
        assert words[0] + "" == words[0];
      }
    }
  }

  lemma EmptyCollapses()
    ensures Collapse("") == ""
  {
  }

  lemma JoinedEmpty(words: seq<string>)
    requires forall i | 0 <= i < |words| :: IsWord(words[i])
    ensures Joined(words, " ") == "" <==> words == []
  {
  }

  lemma SpreadStarts(words: seq<string>, gaps: seq<string>)
    requires |gaps| == |words| + 1 && (words != [] ==> gaps[0] != "") && Blank(gaps[0])
    ensures Spread(words, gaps) != "" ==> IsSpace(Spread(words, gaps)[0])
  {
    hide IsSpace;
  }

  /** Every text is such words and gaps. */
  lemma {:induction false} HasWords(s: string) returns (words: seq<string>, gaps: seq<string>)
    ensures Apart(words, gaps) && Spread(words, gaps) == s
  {
    hide IsSpace;
    if s == "" {
      words, gaps := [], [""];
    } else {
      var ws, gs := HasWords(s[1..]);
      assert s == [s[0]] + s[1..];
      if IsSpace(s[0]) {
        words, gaps := ws, gs[0 := [s[0]] + gs[0]];
      } else if gs[0] == "" && ws != [] {
        words, gaps := ws[0 := [s[0]] + ws[0]], gs;
        assert words[1..] == ws[1..];
        assert forall i | 0 < i < |words| :: words[i] == ws[i];
        assert IsWord(words[0]);
        assert gs[0] + words[0] == [s[0]] + (gs[0] + ws[0]);
      } else {
        words, gaps := [[s[0]]] + ws, [""] + gs;
        assert words[1..] == ws && gaps[1..] == gs;
        assert IsWord(words[0]);
        assert forall i | 0 < i < |words| :: words[i] == ws[i - 1];
        assert forall i | 0 < i < |gaps| :: gaps[i] == gs[i - 1];
      }
      if IsSpace(s[0]) {
        assert gaps[1..] == gs[1..];
        assert Spread(words, gaps) == [s[0]] + Spread(ws, gs);
      }
    }
  }

  // ----- slugs -----

  predicate SlugWord(w: string) {
    w != "" && forall i | 0 <= i < |w| :: 'a' <= w[i] <= 'z' || '0' <= w[i] <= '9'
  }

  // Lower-case letters and digits with single hyphens between them.
  predicate Hyphened(s: string) {
    && s != "" && s[0] != '-' && s[|s| - 1] != '-'
    && (forall i | 0 <= i < |s| :: s[i] == '-' || 'a' <= s[i] <= 'z' || '0' <= s[i] <= '9')
    && forall i | 0 <= i < |s| - 1 :: s[i] == '-' ==> s[i + 1] != '-'
  }

  lemma {:induction false} JoinedHyphened(words: seq<string>)
    requires words != [] && forall i | 0 <= i < |words| :: SlugWord(words[i])
    ensures Hyphened(Joined(words, "-"))
  {
    if |words| > 1 {
      JoinedHyphened(words[1..]);
      var w, rest := words[0], Joined(words[1..], "-");
      var s := w + "-" + rest;
      assert Joined(words, "-") == s;
      forall i | 0 <= i < |s|
        ensures s[i] == if i < |w| then w[i] else if i == |w| then '-' else rest[i - |w| - 1]
      {
      }
    }
  }

  lemma {:induction false} HyphenedWords(s: string) returns (words: seq<string>)
    requires Hyphened(s)
    ensures words != [] && (forall i | 0 <= i < |words| :: SlugWord(words[i])) && Joined(words, "-") == s
  {
    if '-' !in s {
      words := [s];
      assert forall i | 0 <= i < |s| :: s[i] in s;
    } else {
      var k := FirstHyphen(s);
      var rest := s[k + 1..];
      assert rest[0] == s[k + 1] && rest[|rest| - 1] == s[|s| - 1];
      assert forall i | 0 <= i < |rest| :: rest[i] == s[k + 1 + i];
      var later := HyphenedWords(rest);
      words := [s[..k]] + later;
      assert words[1..] == later && s == s[..k] + "-" + rest;
    }
  }

  lemma FirstHyphen(s: string) returns (k: nat)
    requires '-' in s
    ensures k < |s| && s[k] == '-' && forall i | 0 <= i < k :: s[i] != '-'
  {
    k := 0;
    while s[k] != '-'
      invariant k < |s| && (forall i | 0 <= i < k :: s[i] != '-') && '-' in s[k..]
      decreases |s| - k
    {
      k := k + 1;
    }
  }

  predicate Hyphenates(words: seq<string>, s: string) {
    words != [] && (forall i | 0 <= i < |words| :: SlugWord(words[i])) && Joined(words, "-") == s
  }

  /** A slug is one to a hundred characters: words of lower-case letters and digits joined by single hyphens. */
  lemma SlugIsWords(s: string)
    ensures ValidSlug(s) <==> |s| <= 100 && exists words :: Hyphenates(words, s)
  {
    hide Joined, SlugWord;
    assert ValidSlug(s) <==> |s| <= 100 && Hyphened(s);
    if Hyphened(s) {
      var words := HyphenedWords(s);
      assert Hyphenates(words, s);
    }
    if words :| Hyphenates(words, s) {
      JoinedHyphened(words);
    }
  }

  // ----- length in bytes -----

  /** The length in bytes adds up over the characters, one to four bytes each by code point. */
  lemma {:induction false} BytesAddUp(a: string, b: string)
    ensures Utf8Length(a + b) == Utf8Length(a) + Utf8Length(b)
    ensures forall c: char ::
      Utf8Length([c]) == if c <= '\U{7F}' then 1 else if c <= '\U{7FF}' then 2 else if c <= '\U{FFFF}' then 3 else 4
  {
    if b == "" {
      assert a + b == a;
    } else {
      BytesAddUp(a, b[..|b| - 1]);
      assert (a + b)[..|a + b| - 1] == a + b[..|b| - 1];
    }
    forall c: char
      ensures Utf8Length([c]) == if c <= '\U{7F}' then 1 else if c <= '\U{7FF}' then 2 else if c <= '\U{FFFF}' then 3 else 4
    {
      assert [c][..0] == "";
    }
  }
}
