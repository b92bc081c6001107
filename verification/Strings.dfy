/** White space at the ends of strings, as Go's `strings.TrimSpace` removes it. */
module Strings {

  predicate IsSpace(c: char) {
    || '\t' <= c <= '\r' || c == ' ' || c == '\U{85}' || c == '\U{A0}' || c == '\U{1680}'
    || '\U{2000}' <= c <= '\U{200A}' || c == '\U{2028}' || c == '\U{2029}' || c == '\U{202F}'
    || c == '\U{205F}' || c == '\U{3000}'
  }

  predicate IsWordChar(c: char) {
    'a' <= c <= 'z' || 'A' <= c <= 'Z' || '0' <= c <= '9' || c == '_'
  }

  function TrimLeft(s: string): string {
    if s != "" && IsSpace(s[0]) then TrimLeft(s[1..]) else s
  }

  function TrimRight(s: string): string {
    if s != "" && IsSpace(s[|s| - 1]) then TrimRight(s[..|s| - 1]) else s
  }

  function TrimSpace(s: string): string {
    TrimRight(TrimLeft(s))
  }

  ghost predicate AllSpace(s: string) {
    forall i :: 0 <= i < |s| ==> IsSpace(s[i])
  }

  lemma {:induction false} LeftParts(s: string) returns (front: string)
    ensures s == front + TrimLeft(s) && AllSpace(front)
    ensures TrimLeft(s) != "" ==> !IsSpace(TrimLeft(s)[0])
  {
    if s != "" && IsSpace(s[0]) {
      var later := LeftParts(s[1..]);
      front := [s[0]] + later;
      assert s == [s[0]] + s[1..];
    } else {
      front := "";
    }
  }

  lemma {:induction false} RightParts(s: string) returns (back: string)
    ensures s == TrimRight(s) + back && AllSpace(back)
    ensures TrimRight(s) != "" ==> !IsSpace(TrimRight(s)[|TrimRight(s)| - 1])
  {
    if s != "" && IsSpace(s[|s| - 1]) {
      var n := |s| - 1;
      var later := RightParts(s[..n]);
      back := later + [s[n]];
      assert s == s[..n] + [s[n]];
    } else {
      back := "";
    }
  }

  /** Trimming takes white space off both ends, nothing else, and all of it. */
  lemma TrimParts(s: string) returns (front: string, back: string)
    ensures s == front + TrimSpace(s) + back && AllSpace(front) && AllSpace(back)
    ensures
      var t := TrimSpace(s);
      t != "" ==> !IsSpace(t[0]) && !IsSpace(t[|t| - 1])
  {
    front := LeftParts(s);
    back := RightParts(TrimLeft(s));
    assert s == front + (TrimSpace(s) + back);
    if TrimSpace(s) != "" {
      assert TrimSpace(s)[0] == TrimLeft(s)[0];
    }
  }

  lemma NothingLeftIff(s: string)
    ensures TrimSpace(s) == "" <==> AllSpace(s)
  {
    var front, back := TrimParts(s);
    if TrimSpace(s) != "" {
      assert s[|front|] == TrimSpace(s)[0];
    }
  }

  /** Letters, digits and the underscore are no white space; blanks, tabs and line ends are. */
  lemma NamedChars()
    ensures forall c :: IsWordChar(c) ==> !IsSpace(c)
    ensures IsSpace(' ') && IsSpace('\t') && IsSpace('\n') && IsSpace('\r')
  {
  }
}
