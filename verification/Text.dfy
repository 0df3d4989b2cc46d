/** Whitespace trimming, as the standard library's `str::trim` does it. */
module Text {

  /** The White_Space property of Unicode. */
  predicate IsWhitespace(c: char) {
    || '\U{0009}' <= c <= '\U{000D}' || c == ' ' || c == '\U{0085}' || c == '\U{00A0}' || c == '\U{1680}'
    || '\U{2000}' <= c <= '\U{200A}' || c == '\U{2028}' || c == '\U{2029}' || c == '\U{202F}'
    || c == '\U{205F}' || c == '\U{3000}'
  }

  function TrimStart(s: string): string {
    if s != [] && IsWhitespace(s[0]) then TrimStart(s[1..]) else s
  }

  function TrimEnd(s: string): string {
    if s != [] && IsWhitespace(s[|s| - 1]) then TrimEnd(s[..|s| - 1]) else s
  }

  function Trim(s: string): string {
    TrimEnd(TrimStart(s))
  }

  predicate Trimmed(s: string) {
    s != [] ==> !IsWhitespace(s[0]) && !IsWhitespace(s[|s| - 1])
  }

  /** How many characters trimming the start drops. */
  function Blanks(s: string): (k: nat)
    ensures k <= |s|
  {
    if s != [] && IsWhitespace(s[0]) then 1 + Blanks(s[1..]) else 0
  }

  lemma {:induction false} TrimStartDrops(s: string)
    ensures TrimStart(s) == s[Blanks(s)..]
    ensures TrimStart(s) != [] ==> !IsWhitespace(TrimStart(s)[0])
  {
    if s != [] && IsWhitespace(s[0]) {
      TrimStartDrops(s[1..]);
      assert s[1..][Blanks(s[1..])..] == s[Blanks(s)..];
    }
  }

  lemma {:induction false} OnlyBlanksDropped(s: string, i: nat)
    requires i < Blanks(s)
    ensures IsWhitespace(s[i])
  {
    if i > 0 {
      OnlyBlanksDropped(s[1..], i - 1);
      assert s[1..][i - 1] == s[i];
    }
  }

  lemma {:induction false} TrimEndResult(s: string)
    ensures TrimEnd(s) != [] ==> !IsWhitespace(TrimEnd(s)[|TrimEnd(s)| - 1])
    ensures TrimEnd(s) <= s
    ensures forall i :: |TrimEnd(s)| <= i < |s| ==> IsWhitespace(s[i])
  {
    if s != [] && IsWhitespace(s[|s| - 1]) {
      TrimEndResult(s[..|s| - 1]);
    }
  }

  /** A trimmed string neither starts nor ends with whitespace. */
  lemma TrimIsTrimmed(s: string)
    ensures Trimmed(Trim(s))
  {
    TrimStartDrops(s);
    TrimEndResult(TrimStart(s));
  }

  /** What trimming drops is whitespace, and what it keeps is one stretch of the text. */
  lemma TrimKeepsMiddle(s: string, i: nat)
    requires i < |s|
    ensures Trim(s) <= s[Blanks(s)..]
    ensures i < Blanks(s) || Blanks(s) + |Trim(s)| <= i ==> IsWhitespace(s[i])
  {
    TrimStartDrops(s);
    TrimEndResult(TrimStart(s));
    if i < Blanks(s) {
      OnlyBlanksDropped(s, i);
    } else {
      assert s[i] == s[Blanks(s)..][i - Blanks(s)];
    }
  }

  /** Trimming twice is trimming once. */
  lemma TrimTrimmed(s: string)
    requires Trimmed(s)
    ensures Trim(s) == s
  {
  }

  predicate AllBlank(s: string) {
    forall i :: 0 <= i < |s| ==> IsWhitespace(s[i])
  }

  /** Trimming leaves nothing exactly of blank text. */
  lemma TrimEmptyIff(s: string)
    ensures Trim(s) == [] <==> AllBlank(s)
  {
    TrimIsTrimmed(s);
    TrimStartDrops(s);
    forall i | 0 <= i < |s| && Trim(s) == []
      ensures IsWhitespace(s[i])
    {
      TrimKeepsMiddle(s, i);
    }
    if s != [] {
      TrimKeepsMiddle(s, 0);
      if Trim(s) != [] {
        assert Trim(s)[0] == s[Blanks(s)..][0] == s[Blanks(s)];
      }
    }
  }

  /** The code points of the White_Space property, one by one. */
  lemma WhitespaceTable(c: char)
    ensures IsWhitespace(c) <==>
            c as int in {9, 10, 11, 12, 13, 32, 133, 160, 5760, 8192, 8193, 8194, 8195, 8196, 8197, 8198, 8199,
                         8200, 8201, 8202, 8232, 8233, 8239, 8287, 12288}
  {
  }
}
