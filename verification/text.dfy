/** Option and Result, and the string rules the editorial code applies to names and slugs. */
module Base {
  datatype Option<+T> = None | Some(value: T)

  datatype Result<+T, +E> = Ok(value: T) | Err(error: E) {
    predicate IsFailure() {
      Err?
    }

    function PropagateFailure<U>(): Result<U, E>
      requires Err?
    {
      Err(error)
    }

    function Extract(): T
      requires Ok?
    {
      value
    }
  }

  datatype Check<+E> = Pass | Fail(error: E) {
    predicate IsFailure() {
      Fail?
    }

    function PropagateFailure<U>(): Result<U, E>
      requires Fail?
    {
      Err(error)
    }
  }

  function Need<E>(condition: bool, error: E): Check<E> {
    if condition then Pass else Fail(error)
  }

  function Absent<E>(fault: Option<E>): Check<E> {
    match fault
    case None => Pass
    case Some(e) => Fail(e)
  }
}

/** White space, length bounds and slugs, as the Go helpers treat them. */
module Text {

  // The characters unicode.IsSpace accepts.
  predicate IsSpace(c: char) {
    || '\t' <= c <= '\r' || c == ' ' || c == '\U{85}' || c == '\U{A0}' || c == '\U{1680}'
    || '\U{2000}' <= c <= '\U{200A}' || c == '\U{2028}' || c == '\U{2029}'
    || c == '\U{202F}' || c == '\U{205F}' || c == '\U{3000}'
  }

  predicate Blank(s: string) {
    forall i | 0 <= i < |s| :: IsSpace(s[i])
  }

  predicate Bounded(s: string, n: nat) {
    |s| <= n
  }

  // len(s) of a Go string: its bytes in UTF-8.
  function Utf8Length(s: string): (n: nat)
    ensures |s| <= n <= 4 * |s|
  {
    if s == "" then 0
    else
      var c := s[|s| - 1] as int;
      Utf8Length(s[..|s| - 1]) + if c < 0x80 then 1 else if c < 0x800 then 2 else if c < 0x10000 then 3 else 4
  }

  // strings.TrimSpace
  function Trim(s: string): (t: string)
    ensures |t| <= |s|
    ensures Blank(t) <==> Blank(s)
    ensures t != "" ==> !IsSpace(t[0]) && !IsSpace(t[|t| - 1])
  {
    if s == "" then ""
    else if IsSpace(s[0]) then
      assert Blank(s[1..]) ==> Blank(s) by {
        assert forall i | 0 < i < |s| :: s[i] == s[1..][i - 1];
      }
      Trim(s[1..])
    else if IsSpace(s[|s| - 1]) then
      assert s[..|s| - 1][0] == s[0];
      Trim(s[..|s| - 1])
    else s
  }

  // strings.Join(strings.Fields(s), " "): words separated by single spaces.
  function Collapse(s: string): (t: string)
    ensures |t| <= |s|
    ensures s != "" && IsSpace(s[0]) ==> |t| < |s|
    ensures t == "" <==> Blank(s)
    ensures t != "" ==> !IsSpace(t[0]) && !Blank(t)
    decreases |s|
  {
    if s == "" then ""
    else if IsSpace(s[0]) then
      assert Blank(s[1..]) ==> Blank(s) by {
        assert forall i | 0 < i < |s| :: s[i] == s[1..][i - 1];
      }
      Collapse(s[1..])
    else
      var rest := Collapse(s[1..]);
      if rest == "" then [s[0]]
      else if IsSpace(s[1]) then
        [s[0]] + " " + rest
      else [s[0]] + rest
  }

  predicate SlugChar(c: char) {
    'a' <= c <= 'z' || '0' <= c <= '9'
  }

  // ^[a-z0-9]+(?:-[a-z0-9]+)*$ with at most one hundred characters
  predicate ValidSlug(s: string) {
    && 0 < |s| <= 100
    && SlugChar(s[0]) && SlugChar(s[|s| - 1])
    && forall i | 0 <= i < |s| ::
         && (SlugChar(s[i]) || s[i] == '-')
         && (s[i] == '-' && i + 1 < |s| ==> s[i + 1] != '-')
  }
}
