/** Character classes and case mappings used by the Go standard library
    functions the utilities call (`unicode.IsSpace`, `unicode.IsPunct`,
    `unicode.ToLower`, `strings.ToLower`, `strings.Title`). Strings are
    sequences of runes. */
module Text {

  /** `unicode.IsSpace`: the Latin-1 spaces plus every other rune with the
      Unicode White_Space property. */
  predicate IsSpace(c: char): (b: bool)
    ensures b ==> !IsAsciiLetter(c) && !IsAsciiDigit(c) && c != '_'
    ensures b && c <= '\U{7F}' ==> c == ' ' || '\t' <= c <= '\r'
  {
    || ('\t' <= c <= '\r')  // tab, line feed, vertical tab, form feed, carriage return
    || c == ' ' || c == '\U{85}' || c == '\U{A0}'
    || c == '\U{1680}' || ('\U{2000}' <= c <= '\U{200A}')
    || c == '\U{2028}' || c == '\U{2029}' || c == '\U{202F}' || c == '\U{205F}'
    || c == '\U{3000}'
  }

  predicate IsAsciiUpper(c: char) { 'A' <= c <= 'Z' }

  predicate IsAsciiLower(c: char) { 'a' <= c <= 'z' }

  predicate IsAsciiLetter(c: char) { IsAsciiUpper(c) || IsAsciiLower(c) }

  predicate IsAsciiDigit(c: char) { '0' <= c <= '9' }

  /** `unicode.IsPunct` restricted to ASCII: the characters of general
      category P. `$ + < = > ^ ` | ~` are symbols (category S), not
      punctuation. */
  predicate IsPunct(c: char): (b: bool)
    ensures b ==> '!' <= c <= '}' && !IsAsciiLetter(c) && !IsAsciiDigit(c) && !IsSpace(c)
  {
    || ('!' <= c <= '#')   // ! " #
    || ('%' <= c <= '*')   // % & ' ( ) *
    || (',' <= c <= '/')   // , - . /
    || c == ':' || c == ';' || c == '?' || c == '@'
    || ('[' <= c <= ']')   // [ \ ]
    || c == '_' || c == '{' || c == '}'
  }

  /** The runes with the Unicode White_Space property, listed one by one. */
  const WhiteSpaceTable: seq<char> := [
    '\t', '\n', '\U{0B}', '\U{0C}', '\r', ' ', '\U{85}', '\U{A0}', '\U{1680}',
    '\U{2000}', '\U{2001}', '\U{2002}', '\U{2003}', '\U{2004}', '\U{2005}',
    '\U{2006}', '\U{2007}', '\U{2008}', '\U{2009}', '\U{200A}',
    '\U{2028}', '\U{2029}', '\U{202F}', '\U{205F}', '\U{3000}']

  /** `IsSpace` accepts exactly the runes of the White_Space table. */
  lemma SpaceTable(c: char)
    ensures IsSpace(c) <==> c in WhiteSpaceTable
  {
    if '\U{2000}' <= c <= '\U{200A}' {
      assert WhiteSpaceTable[9 + (c as int - 0x2000)] == c;
    }
  }

  /** The ASCII characters of general category P, listed one by one. */
  const AsciiPunctuationTable: seq<char> := "!\"#%&'()*,-./:;?@[\\]_{}"

  /** `IsPunct` accepts exactly the runes of the ASCII punctuation table. */
  lemma PunctuationTable(c: char)
    ensures IsPunct(c) <==> c in AsciiPunctuationTable
  {
  }

  /** `unicode.ToLower` on ASCII letters; every other rune is kept. */
  function ToLower(c: char): (r: char)
    ensures !IsAsciiUpper(r)
    ensures IsAsciiLetter(c) <==> IsAsciiLetter(r)
    ensures !IsAsciiLetter(c) ==> r == c
    ensures IsAsciiUpper(c) ==> r as int - 'a' as int == c as int - 'A' as int
    ensures !IsAsciiUpper(c) ==> r == c
  {
    if IsAsciiUpper(c) then (c as int + 32) as char else c
  }

  /** `unicode.ToUpper` (and `unicode.ToTitle`) on ASCII letters; every other
      rune is kept. */
  function ToUpper(c: char): (r: char)
    ensures !IsAsciiLower(r)
    ensures IsAsciiLetter(c) <==> IsAsciiLetter(r)
    ensures !IsAsciiLetter(c) ==> r == c
    ensures IsAsciiLower(c) ==> r as int - 'A' as int == c as int - 'a' as int
    ensures !IsAsciiLower(c) ==> r == c
  {
    if IsAsciiLower(c) then (c as int - 32) as char else c
  }

  /** Case mappings absorb each other, and case does not move word
      boundaries. */
  lemma CaseMappingFacts(c: char)
    ensures ToUpper(ToLower(c)) == ToUpper(ToUpper(c)) == ToUpper(c)
    ensures ToLower(ToUpper(c)) == ToLower(ToLower(c)) == ToLower(c)
    ensures IsTitleSeparator(ToLower(c)) == IsTitleSeparator(ToUpper(c)) == IsTitleSeparator(c)
  {
  }

  /** `strings.ToLower`, rune by rune. */
  function LowerString(s: string): (t: string)
    ensures |t| == |s|
    ensures forall k :: 0 <= k < |s| ==> !IsAsciiUpper(t[k])
    ensures forall k :: 0 <= k < |s| ==> IsAsciiLetter(t[k]) == IsAsciiLetter(s[k])
    ensures forall k :: 0 <= k < |s| && !IsAsciiLetter(s[k]) ==> t[k] == s[k]
    ensures forall k :: 0 <= k < |s| && IsAsciiLower(s[k]) ==> t[k] == s[k]
    ensures forall k :: 0 <= k < |s| ==> t[k] == ToLower(s[k])
  {
    seq(|s|, k requires 0 <= k < |s| => ToLower(s[k]))
  }

  /** The word-boundary test of `strings.Title`: ASCII letters, digits and
      underscore continue a word, other ASCII characters separate words;
      beyond ASCII, letters and digits continue a word and only spaces
      separate. */
  predicate IsTitleSeparator(c: char): (b: bool)
    ensures IsSpace(c) ==> b
    ensures IsPunct(c) && c != '_' ==> b
    ensures IsAsciiLetter(c) || IsAsciiDigit(c) || c == '_' ==> !b
  {
    if c <= '\U{7F}' then !(IsAsciiLetter(c) || IsAsciiDigit(c) || c == '_')
    else IsSpace(c)
  }

  /** Position `k` of `s` begins a word for `strings.Title`. */
  predicate StartsWord(s: string, k: nat)
    requires k < |s|
  {
    k == 0 || IsTitleSeparator(s[k - 1])
  }

  /** `strings.Title` as the rune map it is: `prev` is the rune before `s`,
      and a rune is title-cased when `prev` is a separator. */
  function TitleFrom(s: string, prev: char): (t: string)
    ensures |t| == |s|
    ensures |s| > 0 ==> t[0] == if IsTitleSeparator(prev) then ToUpper(s[0]) else s[0]
    ensures forall k :: 0 < k < |s| ==>
      t[k] == if IsTitleSeparator(s[k - 1]) then ToUpper(s[k]) else s[k]
  {
    if s == [] then []
    else [if IsTitleSeparator(prev) then ToUpper(s[0]) else s[0]] + TitleFrom(s[1..], s[0])
  }

  /** `strings.Title`: the first letter of every word is upper-cased. */
  function Title(s: string): (t: string)
    ensures |t| == |s|
    ensures forall k :: 0 <= k < |s| ==>
      t[k] == if StartsWord(s, k) then ToUpper(s[k]) else s[k]
  {
    TitleFrom(s, ' ')
  }

  /** `strings.Title(strings.ToLower(s))` rune by rune: word starts are
      upper-cased and every other rune is lower-cased. */
  lemma TitleOfLower(s: string)
    ensures |Title(LowerString(s))| == |s|
    ensures forall k :: 0 <= k < |s| ==>
      Title(LowerString(s))[k] == if StartsWord(s, k) then ToUpper(s[k]) else ToLower(s[k])
  {
    var lowered := LowerString(s);
    forall k | 0 <= k < |s|
      ensures Title(lowered)[k] == if StartsWord(s, k) then ToUpper(s[k]) else ToLower(s[k])
    {
      var t := Title(lowered);
      assert lowered[k] == ToLower(s[k]);
      CaseMappingFacts(s[k]);
      if k > 0 {
        assert lowered[k - 1] == ToLower(s[k - 1]);
        CaseMappingFacts(s[k - 1]);
        assert t[k] == if IsTitleSeparator(lowered[k - 1]) then ToUpper(lowered[k]) else lowered[k];
      } else {
        assert t[k] == ToUpper(lowered[k]);
      }
    }
  }
}
