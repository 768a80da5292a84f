/** `IsValidEmail` of study17/src/main/resources/utils.go: membership in the
    language of the anchored pattern
    `^[a-zA-Z0-9._%+-]+@[a-zA-Z0-9.-]+\.[a-zA-Z]{2,}$`,
    written as a predicate on runes instead of a regular-expression match. */
module Email {
  import opened Wrappers
  import opened Text

  /** `[a-zA-Z0-9._%+-]`, the runes of the part before '@'. */
  predicate IsLocalChar(c: char) {
    IsAsciiLetter(c) || IsAsciiDigit(c) || c == '.' || c == '_' || c == '%' || c == '+' || c == '-'
  }

  /** `[a-zA-Z0-9.-]`, the runes of the domain. */
  predicate IsDomainChar(c: char) {
    IsAsciiLetter(c) || IsAsciiDigit(c) || c == '.' || c == '-'
  }

  /** `[a-zA-Z0-9._%+-]+` */
  predicate IsLocalPart(s: string) {
    |s| > 0 && forall k :: 0 <= k < |s| ==> IsLocalChar(s[k])
  }

  /** `[a-zA-Z0-9.-]+` */
  predicate IsDomainPart(s: string) {
    |s| > 0 && forall k :: 0 <= k < |s| ==> IsDomainChar(s[k])
  }

  /** `[a-zA-Z]{2,}` */
  predicate IsTopLevelPart(s: string) {
    |s| >= 2 && forall k :: 0 <= k < |s| ==> IsAsciiLetter(s[k])
  }

  /** `s` matches the pattern with its '@' at `at` and the '.' before the
      top-level part at `dot`. */
  predicate SplitsAt(s: string, at: nat, dot: nat)
    requires at < dot < |s|
  {
    && s[at] == '@' && s[dot] == '.'
    && IsLocalPart(s[..at]) && IsDomainPart(s[at + 1..dot]) && IsTopLevelPart(s[dot + 1..])
  }

  /** The language of the pattern: some split of `s` fits it. */
  ghost predicate InEmailLanguage(s: string) {
    exists at: nat, dot: nat :: at < dot < |s| && SplitsAt(s, at, dot)
  }

  /** The first position of `c` in `s`. */
  function IndexOf(s: string, c: char): (i: Option<nat>)
    ensures i.Some? ==> i.value < |s| && s[i.value] == c && forall k :: 0 <= k < i.value ==> s[k] != c
    ensures i.None? <==> c !in s
  {
    if s == [] then None
    else if s[0] == c then Some(0)
    else match IndexOf(s[1..], c) case None => None case Some(i) => Some(i + 1)
  }

  /** The last position of `c` in `s`. */
  function LastIndexOf(s: string, c: char): (i: Option<nat>)
    ensures i.Some? ==> i.value < |s| && s[i.value] == c && forall k :: i.value < k < |s| ==> s[k] != c
    ensures i.None? <==> c !in s
  {
    if s == [] then None
    else if s[|s| - 1] == c then Some(|s| - 1)
    else LastIndexOf(s[..|s| - 1], c)
  }

  /** `IsValidEmail`: the only split worth trying is at the first '@' (no
      part may contain another) and the last '.' (the top-level part holds
      letters only). */
  function IsValidEmail(s: string): (b: bool)
    ensures b ==> |s| >= 6 && IsLocalChar(s[0]) && IsAsciiLetter(s[|s| - 1]) && IsAsciiLetter(s[|s| - 2])
  {
    match (IndexOf(s, '@'), LastIndexOf(s, '.'))
    case (Some(at), Some(dot)) => at < dot && SplitsAt(s, at, dot)
    case _ => false
  }

  /** A rune at `i` that occurs nowhere before `i` is found at `i`. */
  lemma IndexOfIs(s: string, c: char, i: nat)
    requires i < |s| && s[i] == c && forall k :: 0 <= k < i ==> s[k] != c
    ensures IndexOf(s, c) == Some(i)
  {
    var found := IndexOf(s, c);
    assert found.Some? && !(found.value < i) && !(i < found.value);
  }

  /** A rune at `i` that occurs nowhere after `i` is found last at `i`. */
  lemma LastIndexOfIs(s: string, c: char, i: nat)
    requires i < |s| && s[i] == c && forall k :: i < k < |s| ==> s[k] != c
    ensures LastIndexOf(s, c) == Some(i)
  {
    var found := LastIndexOf(s, c);
    assert found.Some? && !(found.value < i) && !(i < found.value);
  }

  /** A fitting split is always at the first '@' and the last '.'. */
  lemma SplitIsCanonical(s: string, at: nat, dot: nat)
    requires at < dot < |s| && SplitsAt(s, at, dot)
    ensures IndexOf(s, '@') == Some(at)
    ensures LastIndexOf(s, '.') == Some(dot)
  {
    forall k | 0 <= k < at
      ensures s[k] != '@'
    {
      assert IsLocalChar(s[..at][k]);
    }
    forall k | dot < k < |s|
      ensures s[k] != '.'
    {
      assert IsAsciiLetter(s[dot + 1..][k - dot - 1]);
    }
    IndexOfIs(s, '@', at);
    LastIndexOfIs(s, '.', dot);
  }

  /** `IsValidEmail` decides exactly the language of the pattern. */
  lemma ValidEmailIsLanguage(s: string)
    ensures IsValidEmail(s) <==> InEmailLanguage(s)
  {
    if InEmailLanguage(s) {
      var at: nat, dot: nat :| at < dot < |s| && SplitsAt(s, at, dot);
      SplitIsCanonical(s, at, dot);
    }
  }

  /** Any local part, '@', domain, '.' and top-level part make a valid
      address. */
  lemma ComposedEmailAccepted(local: string, domain: string, top: string)
    requires IsLocalPart(local) && IsDomainPart(domain) && IsTopLevelPart(top)
    ensures IsValidEmail(local + "@" + domain + "." + top)
  {
    var s := local + "@" + domain + "." + top;
    var at, dot := |local|, |local| + 1 + |domain|;
    assert s[..at] == local && s[at + 1..dot] == domain && s[dot + 1..] == top;
    assert SplitsAt(s, at, dot);
    ValidEmailIsLanguage(s);
  }

  /** A valid address splits into local part, '@', domain, '.' and
      top-level part. */
  function EmailParts(s: string): (parts: (string, string, string))
    requires IsValidEmail(s)
    ensures s == parts.0 + "@" + parts.1 + "." + parts.2
    ensures IsLocalPart(parts.0) && IsDomainPart(parts.1) && IsTopLevelPart(parts.2)
  {
    var at, dot := IndexOf(s, '@').value, LastIndexOf(s, '.').value;
    assert s == s[..at] + "@" + s[at + 1..dot] + "." + s[dot + 1..];
    (s[..at], s[at + 1..dot], s[dot + 1..])
  }

  /** No character class of the pattern contains '@', so a valid address
      holds exactly one. */
  lemma ExactlyOneAt(s: string)
    requires IsValidEmail(s)
    ensures multiset(s)['@'] == 1
  {
    var (local, domain, top) := EmailParts(s);
    assert '@' !in local && '@' !in domain && '@' !in top;
    assert multiset(s) == multiset(local) + multiset{'@'} + multiset(domain) + multiset{'.'} + multiset(top);
  }

  /** After the last '.' of a valid address come at least two letters and
      nothing else. */
  lemma EndsInTopLevelPart(s: string)
    requires IsValidEmail(s)
    ensures LastIndexOf(s, '.').Some?
    ensures IsTopLevelPart(s[LastIndexOf(s, '.').value + 1..])
  {
  }

  /** The pattern is anchored at both ends, so the empty string and any
      string with a rune outside every class (a space, say) are rejected. */
  lemma RejectsForeignRunes(s: string)
    ensures !IsValidEmail("")
    ensures (exists k :: 0 <= k < |s| && !IsLocalChar(s[k]) && s[k] != '@') ==> !IsValidEmail(s)
  {
    if IsValidEmail(s) {
      var (local, domain, top) := EmailParts(s);
      forall k | 0 <= k < |s|
        ensures IsLocalChar(s[k]) || s[k] == '@'
      {
        var at, dot := |local|, |local| + 1 + |domain|;
        if k < at {
          assert s[k] == local[k];
        } else if at < k < dot {
          assert s[k] == domain[k - at - 1];
        } else if dot < k {
          assert s[k] == top[k - dot - 1];
        }
      }
    }
  }
}
