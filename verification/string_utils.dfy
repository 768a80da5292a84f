/** The string helpers of study02/src/test/utils.go: reversing a string
    rune by rune, counting its whitespace-separated words, and the
    palindrome test that ignores spaces, punctuation and case. The file
    defines `ReverseString` twice with the same body; it is modelled once. */
module StringUtils {
  import opened Text

  // ---------------------------------------------------------------------
  // Reversal

  /** The runes of `s` in reverse order. */
  function Reverse(s: string): (r: string)
    ensures |r| == |s|
    ensures forall k :: 0 <= k < |s| ==> r[k] == s[|s| - 1 - k]
  {
    if s == [] then [] else Reverse(s[1..]) + [s[0]]
  }

  /** `ReverseString`: copies the runes into an array and swaps the two ends
      inward until the indices meet. */
  method ReverseString(s: string) returns (r: string)
    ensures |r| == |s|
    ensures forall k :: 0 <= k < |s| ==> r[k] == s[|s| - 1 - k]
    ensures r == Reverse(s)
  {
    var runes := new char[|s|](k requires 0 <= k < |s| => s[k]);
    var i, j := 0, |s| - 1;
    while i < j
      invariant 0 <= i <= j + 1 <= |s|
      invariant i + j == |s| - 1
      invariant forall k :: 0 <= k < i ==> runes[k] == s[|s| - 1 - k] && runes[|s| - 1 - k] == s[k]
      invariant forall k :: i <= k <= j ==> runes[k] == s[k]
    {
      runes[i], runes[j] := runes[j], runes[i];
      i, j := i + 1, j - 1;
    }
    r := runes[..];
  }

  /** Reversing twice gives back the original string. */
  lemma {:induction false} ReverseInvolution(s: string)
    ensures Reverse(Reverse(s)) == s
  {
    var r := Reverse(s);
    forall k | 0 <= k < |s|
      ensures Reverse(r)[k] == s[k]
    {
      assert Reverse(r)[k] == r[|s| - 1 - k];
    }
  }

  /** The empty string and a one-rune string are their own reverse. */
  lemma ReverseShort(s: string)
    requires |s| <= 1
    ensures Reverse(s) == s
  {
  }

  /** Reversal turns a concatenation around. */
  lemma ReverseConcat(a: string, b: string)
    ensures Reverse(a + b) == Reverse(b) + Reverse(a)
  {
    var lhs, rhs := Reverse(a + b), Reverse(b) + Reverse(a);
    forall k | 0 <= k < |a + b|
      ensures lhs[k] == rhs[k]
    {
      if k < |b| {
        assert rhs[k] == Reverse(b)[k];
      } else {
        assert rhs[k] == Reverse(a)[k - |b|];
      }
    }
  }

  // ---------------------------------------------------------------------
  // Word counting

  /** The length of the run of non-space runes that `s` starts with. */
  function RunLength(s: string): (n: nat)
    ensures n <= |s|
    ensures forall k :: 0 <= k < n ==> !IsSpace(s[k])
    ensures n < |s| ==> IsSpace(s[n])
  {
    if s == [] || IsSpace(s[0]) then 0 else 1 + RunLength(s[1..])
  }

  /** `strings.Fields`: the maximal runs of non-space runes, in order. */
  function Fields(s: string): (w: seq<string>)
    ensures |w| <= |s|
    decreases |s|
  {
    if s == [] then []
    else if IsSpace(s[0]) then Fields(s[1..])
    else
      var n := RunLength(s);
      [s[..n]] + Fields(s[n..])
  }

  /** Every word `strings.Fields` returns is non-empty and holds no space. */
  lemma {:induction false} FieldsAreWords(s: string)
    ensures forall w :: w in Fields(s) ==> |w| > 0 && forall k :: 0 <= k < |w| ==> !IsSpace(w[k])
    decreases |s|
  {
    if s != [] {
      if IsSpace(s[0]) {
        FieldsAreWords(s[1..]);
      } else {
        FieldsAreWords(s[RunLength(s)..]);
      }
    }
  }

  /** Position `k` is where a maximal run of non-space runes begins. */
  predicate StartsRun(s: string, k: nat)
    requires k < |s|
  {
    !IsSpace(s[k]) && (k == 0 || IsSpace(s[k - 1]))
  }

  /** The number of run beginnings at positions `i` and after. */
  function RunStartsFrom(s: string, i: nat): nat
    requires i <= |s|
    decreases |s| - i
  {
    if i == |s| then 0
    else (if StartsRun(s, i) then 1 else 0) + RunStartsFrom(s, i + 1)
  }

  /** Inside a run no new run begins. */
  lemma {:induction false} NoStartsInsideRun(s: string, i: nat, j: nat)
    requires i < j <= |s|
    requires forall k :: i <= k < j ==> !IsSpace(s[k])
    ensures RunStartsFrom(s, i + 1) == RunStartsFrom(s, j)
    decreases j - i
  {
    if i + 1 < j {
      NoStartsInsideRun(s, i + 1, j);
    }
  }

  /** A leading space contributes no word. */
  lemma FieldsSkipSpace(t: string)
    requires t != [] && IsSpace(t[0])
    ensures Fields(t) == Fields(t[1..])
  {
  }

  /** A leading run contributes exactly one word. */
  lemma FieldsTakeRun(t: string)
    requires t != [] && !IsSpace(t[0])
    ensures |Fields(t)| == 1 + |Fields(t[RunLength(t)..])|
  {
  }

  /** The run that begins at `i` ends at a space or at the end of `s`, and
      no other run begins inside it. */
  lemma RunFrom(s: string, i: nat)
    requires i < |s| && !IsSpace(s[i])
    ensures i + RunLength(s[i..]) <= |s|
    ensures s[i..][RunLength(s[i..])..] == s[i + RunLength(s[i..])..]
    ensures i + RunLength(s[i..]) < |s| ==> IsSpace(s[i + RunLength(s[i..])])
    ensures RunStartsFrom(s, i + 1) == RunStartsFrom(s, i + RunLength(s[i..]))
  {
    var t := s[i..];
    var n := RunLength(t);
    forall k | i <= k < i + n
      ensures !IsSpace(s[k])
    {
      assert s[k] == t[k - i];
    }
    NoStartsInsideRun(s, i, i + n);
    if i + n < |s| {
      assert s[i + n] == t[n];
    }
  }

  /** A space at `i` adds no word to those counted after it. */
  lemma CountPastSpace(s: string, i: nat)
    requires i < |s| && IsSpace(s[i])
    requires |Fields(s[i + 1..])| == RunStartsFrom(s, i + 1)
    ensures |Fields(s[i..])| == RunStartsFrom(s, i)
  {
    var t := s[i..];
    FieldsSkipSpace(t);
    assert t[1..] == s[i + 1..];
    assert !StartsRun(s, i);
  }

  /** A run beginning at `i` adds one word to those counted after it. */
  lemma CountPastRun(s: string, i: nat)
    requires i < |s| && !IsSpace(s[i]) && (i == 0 || IsSpace(s[i - 1]))
    requires i + RunLength(s[i..]) <= |s|
    requires |Fields(s[i + RunLength(s[i..])..])| == RunStartsFrom(s, i + RunLength(s[i..]))
    ensures |Fields(s[i..])| == RunStartsFrom(s, i)
  {
    var t := s[i..];
    FieldsTakeRun(t);
    RunFrom(s, i);
    assert StartsRun(s, i);
  }

  /** From a word boundary on, `strings.Fields` finds one word per run
      beginning. */
  lemma {:induction false} FieldsCountRuns(s: string, i: nat)
    requires i <= |s|
    requires i == 0 || i == |s| || IsSpace(s[i - 1]) || IsSpace(s[i])
    ensures |Fields(s[i..])| == RunStartsFrom(s, i)
    decreases |s| - i
  {
    if i < |s| {
      if IsSpace(s[i]) {
        FieldsCountRuns(s, i + 1);
        CountPastSpace(s, i);
      } else {
        RunFrom(s, i);
        var next := i + RunLength(s[i..]);
        assert next == |s| || IsSpace(s[next]);
        FieldsCountRuns(s, next);
        CountPastRun(s, i);
      }
    }
  }

  /** `CountWords`: the number of maximal runs of non-space runes. */
  function CountWords(s: string): (n: nat)
    ensures n == RunStartsFrom(s, 0)
  {
    assert s[0..] == s;
    FieldsCountRuns(s, 0);
    |Fields(s)|
  }

  /** With a run beginning at or after `i`, at least one is counted. */
  lemma {:induction false} RunStartCounted(s: string, i: nat, m: nat)
    requires i <= m < |s| && StartsRun(s, m)
    ensures RunStartsFrom(s, i) >= 1
    decreases m - i
  {
    if i < m {
      RunStartCounted(s, i + 1, m);
    }
  }

  /** No word is counted exactly when every rune is a space (in particular
      for the empty string). */
  lemma {:induction false} NoWordsIffAllSpace(s: string)
    ensures CountWords(s) == 0 <==> forall k :: 0 <= k < |s| ==> IsSpace(s[k])
  {
    if forall k :: 0 <= k < |s| ==> IsSpace(s[k]) {
      AllSpaceNoStarts(s, 0);
    } else {
      var m :| 0 <= m < |s| && !IsSpace(s[m]);
      while m > 0 && !IsSpace(s[m - 1])
        invariant 0 <= m < |s| && !IsSpace(s[m])
        decreases m
      {
        m := m - 1;
      }
      RunStartCounted(s, 0, m);
    }
  }

  lemma {:induction false} AllSpaceNoStarts(s: string, i: nat)
    requires i <= |s|
    requires forall k :: 0 <= k < |s| ==> IsSpace(s[k])
    ensures RunStartsFrom(s, i) == 0
    decreases |s| - i
  {
    if i < |s| {
      AllSpaceNoStarts(s, i + 1);
    }
  }

  // ---------------------------------------------------------------------
  // Palindromes

  /** The rune is dropped by `IsPalindrome`'s cleaning map. */
  predicate Ignored(c: char) {
    IsSpace(c) || IsPunct(c)
  }

  /** The `strings.Map` of `IsPalindrome`: spaces and punctuation are
      dropped, every other rune is lower-cased. */
  function Cleaned(s: string): (c: string)
    ensures |c| <= |s|
    ensures forall k :: 0 <= k < |c| ==> !Ignored(c[k]) && !IsAsciiUpper(c[k])
    ensures |s| == 1 ==> c == (if Ignored(s[0]) then [] else [ToLower(s[0])])
  {
    if s == [] then []
    else (if Ignored(s[0]) then [] else [ToLower(s[0])]) + Cleaned(s[1..])
  }

  /** Each rune of `c` equals its mirror image. */
  predicate Mirrored(c: string) {
    forall k :: 0 <= k < |c| ==> c[k] == c[|c| - 1 - k]
  }

  /** A string equals its reverse iff it is mirrored. */
  lemma SelfReverseIff(c: string)
    ensures c == Reverse(c) <==> Mirrored(c)
  {
    var r := Reverse(c);
    if Mirrored(c) {
      forall k | 0 <= k < |c|
        ensures c[k] == r[k]
      {
        assert r[k] == c[|c| - 1 - k];
      }
      assert c == r;
    }
    if c == r {
      forall k | 0 <= k < |c|
        ensures c[k] == c[|c| - 1 - k]
      {
        assert r[k] == c[|c| - 1 - k];
      }
    }
  }

  /** `IsPalindrome`: the cleaned string reads the same in both directions. */
  function IsPalindrome(s: string): (b: bool)
    ensures b <==> Mirrored(Cleaned(s))
  {
    var c := Cleaned(s);
    SelfReverseIff(c);
    c == Reverse(c)
  }

  lemma {:induction false} CleanedConcat(a: string, b: string)
    ensures Cleaned(a + b) == Cleaned(a) + Cleaned(b)
  {
    if a == [] {
      assert a + b == b;
    } else {
      assert (a + b)[1..] == a[1..] + b;
      CleanedConcat(a[1..], b);
    }
  }

  /** A string with nothing but spaces and punctuation cleans to the empty
      string and is a palindrome; so is the empty string. */
  lemma {:induction false} NothingToCompare(s: string)
    requires forall k :: 0 <= k < |s| ==> Ignored(s[k])
    ensures Cleaned(s) == []
    ensures IsPalindrome(s)
  {
    if s != [] {
      NothingToCompare(s[1..]);
    }
  }

  /** A string cleans to nothing exactly when every rune of it is a space
      or punctuation. */
  lemma {:induction false} CleanedEmptyIff(s: string)
    ensures Cleaned(s) == [] <==> forall k :: 0 <= k < |s| ==> Ignored(s[k])
  {
    if forall k :: 0 <= k < |s| ==> Ignored(s[k]) {
      NothingToCompare(s);
    }
    if s != [] && Cleaned(s) == [] {
      assert Ignored(s[0]);
      CleanedEmptyIff(s[1..]);
      forall k | 0 < k < |s|
        ensures Ignored(s[k])
      {
        assert s[1..][k - 1] == s[k];
      }
    }
  }

  /** Cleaning commutes with reversal. */
  lemma {:induction false} CleanedReverse(s: string)
    ensures Cleaned(Reverse(s)) == Reverse(Cleaned(s))
  {
    if s != [] {
      var head, tail := s[..1], s[1..];
      assert s == head + tail;
      assert Reverse(s) == Reverse(tail) + head;
      CleanedReverse(tail);
      CleanedConcat(Reverse(tail), head);
      CleanedConcat(head, tail);
      ReverseConcat(Cleaned(head), Cleaned(tail));
      ReverseShort(Cleaned(head));
    }
  }

  /** Reading a string backwards does not change the verdict. */
  lemma ReversePreservesPalindrome(s: string)
    ensures IsPalindrome(Reverse(s)) == IsPalindrome(s)
  {
    CleanedReverse(s);
    ReverseInvolution(Cleaned(s));
  }

  lemma IgnoredIgnoresCase(c: char)
    ensures Ignored(ToLower(c)) == Ignored(c)
    ensures ToLower(ToLower(c)) == ToLower(c)
  {
  }

  /** Lower-casing a string first does not change what is compared. */
  lemma {:induction false} CleanedIgnoresCase(s: string)
    ensures Cleaned(LowerString(s)) == Cleaned(s)
  {
    if s != [] {
      var lowered := LowerString(s);
      assert lowered[1..] == LowerString(s[1..]);
      assert lowered[0] == ToLower(s[0]);
      IgnoredIgnoresCase(s[0]);
      CleanedIgnoresCase(s[1..]);
    }
  }

  /** Lower-casing a string first does not change the verdict. */
  lemma PalindromeIgnoresCase(s: string)
    ensures IsPalindrome(LowerString(s)) == IsPalindrome(s)
  {
    CleanedIgnoresCase(s);
  }

}
