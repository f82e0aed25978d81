/** The identifier sanitiser of the profile builder: the characters of a
    network name that may appear in a reverse-DNS payload identifier.

    The character test is Python's `str.isalnum`, which consults the Unicode
    database. It is not re-implemented here: every member takes the classifier
    as a parameter `alnum`, so the results hold for whatever the runtime's
    Unicode tables say. Only the fallback literal "wifi" needs anything of it,
    namely that ASCII letters and digits are alphanumeric (`AsciiAlnum`). */
module Identifier {

  /** Python's `str.isalnum` for one code point. */
  type Classifier = char -> bool

  /** Python classifies every ASCII letter and digit as alphanumeric. */
  ghost predicate AsciiAlnum(alnum: Classifier) {
    forall c: char :: ('a' <= c <= 'z' || 'A' <= c <= 'Z' || '0' <= c <= '9') ==> alnum(c)
  }

  /** The filter of the generator expression: alphanumeric, '-' or '.'. */
  predicate Allowed(alnum: Classifier, c: char) {
    alnum(c) || c == '-' || c == '.'
  }

  ghost predicate AllAllowed(alnum: Classifier, s: string) {
    forall i :: 0 <= i < |s| ==> Allowed(alnum, s[i])
  }

  ghost predicate AllDots(s: string) {
    forall i :: 0 <= i < |s| ==> s[i] == '.'
  }

  /** Neither the first nor the last character is a dot. */
  ghost predicate NoEdgeDots(s: string) {
    s == [] || (s[0] != '.' && s[|s| - 1] != '.')
  }

  /** `a` is obtained from `b` by deleting elements, keeping the order. */
  ghost predicate IsSubsequence(a: string, b: string)
    decreases |b|
  {
    if a == [] then true
    else if b == [] then false
    else IsSubsequence(a, b[1..]) || (a[0] == b[0] && IsSubsequence(a[1..], b[1..]))
  }

  /** `r` is `s` with dots, and only dots, removed from both ends, and no
      further dot is left at either end: what Python's `s.strip(".")` returns. */
  ghost predicate IsDotTrim(s: string, r: string) {
    NoEdgeDots(r) && |r| <= |s| &&
    exists i :: 0 <= i <= |s| - |r| && IsDotTrimAt(s, r, i)
  }

  /** `r` is the slice of `s` at `i`, with only dots around it. */
  ghost predicate IsDotTrimAt(s: string, r: string, i: nat)
    requires i + |r| <= |s|
  {
    r == s[i..i + |r|] && AllDots(s[..i]) && AllDots(s[i + |r|..])
  }

  /** A string fit to end a reverse-DNS identifier: non-empty, only allowed
      characters, no dot at either end. */
  ghost predicate SafeIdentifier(alnum: Classifier, s: string) {
    s != [] && AllAllowed(alnum, s) && NoEdgeDots(s)
  }

  /** `"".join(ch for ch in value if ch.isalnum() or ch in ("-", "."))`:
      every allowed character of `s`, each as often as `s` has it, in order. */
  function KeepAllowed(alnum: Classifier, s: string): (r: string)
    ensures AllAllowed(alnum, r)
    ensures IsSubsequence(r, s)
    ensures forall c :: multiset(r)[c] == if Allowed(alnum, c) then multiset(s)[c] else 0
  {
    if s == [] then []
    else if Allowed(alnum, s[0]) then
      assert s == [s[0]] + s[1..];
      [s[0]] + KeepAllowed(alnum, s[1..])
    else
      assert s == [s[0]] + s[1..];
      KeepAllowed(alnum, s[1..])
  }

  /** `s.lstrip(".")`: the suffix left after every leading dot is removed. */
  function StripLeadingDots(s: string): (r: string)
    ensures |r| <= |s| && r == s[|s| - |r|..]
    ensures r == [] || r[0] != '.'
    ensures AllDots(s[..|s| - |r|])
  {
    if s != [] && s[0] == '.' then
      var r := StripLeadingDots(s[1..]);
      assert s[..|s| - |r|] == [s[0]] + s[1..][..|s| - 1 - |r|];
      r
    else s
  }

  /** `s.rstrip(".")`: the prefix left after every trailing dot is removed. */
  function StripTrailingDots(s: string): (r: string)
    ensures |r| <= |s| && r == s[..|r|]
    ensures r == [] || r[|r| - 1] != '.'
    ensures AllDots(s[|r|..])
  {
    if s != [] && s[|s| - 1] == '.' then
      var r := StripTrailingDots(s[..|s| - 1]);
      assert s[|r|..] == s[..|s| - 1][|r|..] + [s[|s| - 1]];
      r
    else s
  }

  /** `s.strip(".")`. */
  function StripDots(s: string): (r: string)
    ensures IsDotTrim(s, r)
  {
    StripDotsTrims(s);
    StripTrailingDots(StripLeadingDots(s))
  }

  lemma StripDotsTrims(s: string)
    ensures IsDotTrim(s, StripTrailingDots(StripLeadingDots(s)))
  {
    var left := StripLeadingDots(s);
    var r := StripTrailingDots(left);
    var i := |s| - |left|;
    assert r == s[i..i + |r|];
    assert s[i + |r|..] == left[|r|..];
    assert r != [] ==> r[0] == left[0];
    assert IsDotTrimAt(s, r, i);
  }

  /** `_sanitize_identifier(value)`: the filtered name with its edge dots cut. */
  function Sanitize(alnum: Classifier, s: string): (r: string)
    ensures IsDotTrim(KeepAllowed(alnum, s), r)
    ensures AllAllowed(alnum, r) && NoEdgeDots(r)
    ensures IsSubsequence(r, s)
  {
    var kept := KeepAllowed(alnum, s);
    var r := StripDots(kept);
    SliceIsSubsequence(kept, r);
    SubsequenceTransitive(r, kept, s);
    r
  }

  /** `_sanitize_identifier(ssid) or "wifi"`: the identifier that
      `build_profile` embeds in both payload identifiers. */
  function ProfileIdentifier(alnum: Classifier, ssid: string): (r: string)
    ensures r != []
    ensures NoEdgeDots(r)
    ensures r == Sanitize(alnum, ssid) || (Sanitize(alnum, ssid) == [] && r == "wifi")
  {
    var id := Sanitize(alnum, ssid);
    if id == [] then "wifi" else id
  }

  // ---------------------------------------------------------------- subsequences

  lemma {:induction false} SubsequenceTransitive(a: string, b: string, c: string)
    requires IsSubsequence(a, b) && IsSubsequence(b, c)
    ensures IsSubsequence(a, c)
    decreases |c|
  {
    if a == [] {
    } else if IsSubsequence(b, c[1..]) {
      SubsequenceTransitive(a, b, c[1..]);
    } else {
      // b[0] == c[0] and b[1..] is a subsequence of c[1..]
      if IsSubsequence(a, b[1..]) {
        SubsequenceTransitive(a, b[1..], c[1..]);
      } else {
        SubsequenceTransitive(a[1..], b[1..], c[1..]);
      }
    }
  }

  lemma {:induction false} SubsequenceOfSelf(s: string)
    ensures IsSubsequence(s, s)
    decreases |s|
  {
    if s != [] {
      SubsequenceOfSelf(s[1..]);
    }
  }

  lemma {:induction false} PrefixIsSubsequence(s: string, j: nat)
    requires j <= |s|
    ensures IsSubsequence(s[..j], s)
    decreases |s|
  {
    if j == 0 {
    } else {
      PrefixIsSubsequence(s[1..], j - 1);
      assert s[..j][1..] == s[1..][..j - 1];
    }
  }

  lemma {:induction false} SliceIsSubsequence(s: string, r: string)
    requires IsDotTrim(s, r)
    ensures IsSubsequence(r, s)
  {
    var i :| 0 <= i <= |s| - |r| && IsDotTrimAt(s, r, i);
    var j := i + |r|;
    SuffixIsSubsequence(s, i);
    PrefixIsSubsequence(s[i..], j - i);
    assert s[i..][..j - i] == r;
    SubsequenceTransitive(r, s[i..], s);
  }

  lemma {:induction false} SuffixIsSubsequence(s: string, i: nat)
    requires i <= |s|
    ensures IsSubsequence(s[i..], s)
    decreases |s|
  {
    if i == 0 {
      SubsequenceOfSelf(s);
    } else {
      SuffixIsSubsequence(s[1..], i - 1);
      assert s[1..][i - 1..] == s[i..];
      if s[i..] != [] {
        assert IsSubsequence(s[i..], s[1..]);
      }
    }
  }

  /** A subsequence never holds a character more often than the sequence. */
  lemma {:induction false} SubsequenceMultiset(a: string, b: string)
    requires IsSubsequence(a, b)
    ensures multiset(a) <= multiset(b)
    decreases |b|
  {
    if a == [] {
    } else if IsSubsequence(a, b[1..]) {
      SubsequenceMultiset(a, b[1..]);
      assert b == [b[0]] + b[1..];
    } else {
      SubsequenceMultiset(a[1..], b[1..]);
      assert a == [a[0]] + a[1..];
      assert b == [b[0]] + b[1..];
    }
  }

  // ---------------------------------------------------------------- the filter

  /** The filter is determined by its contract: a subsequence of `s` made of
      allowed characters that keeps every allowed occurrence is the filter's
      result. */
  lemma {:induction false} KeepAllowedUnique(alnum: Classifier, s: string, t: string)
    requires AllAllowed(alnum, t) && IsSubsequence(t, s)
    requires forall c :: Allowed(alnum, c) ==> multiset(t)[c] == multiset(s)[c]
    ensures t == KeepAllowed(alnum, s)
    decreases |s|
  {
    if s == [] {
    } else {
      assert s == [s[0]] + s[1..];
      assert multiset(s)[s[0]] == multiset(s[1..])[s[0]] + 1;
      if IsSubsequence(t, s[1..]) {
        SubsequenceMultiset(t, s[1..]);
        if Allowed(alnum, s[0]) {
          assert false;
        }
        forall c | Allowed(alnum, c) ensures multiset(t)[c] == multiset(s[1..])[c] {
          assert c != s[0];
        }
        KeepAllowedUnique(alnum, s[1..], t);
      } else {
        assert t != [] && t[0] == s[0] && IsSubsequence(t[1..], s[1..]);
        assert t == [t[0]] + t[1..];
        assert Allowed(alnum, t[0]);
        forall c | Allowed(alnum, c) ensures multiset(t[1..])[c] == multiset(s[1..])[c] {
          assert multiset(t)[c] == multiset(t[1..])[c] + (if c == s[0] then 1 else 0);
        }
        forall i | 0 <= i < |t[1..]| ensures Allowed(alnum, t[1..][i]) {
          assert t[1..][i] == t[i + 1];
        }
        KeepAllowedUnique(alnum, s[1..], t[1..]);
      }
    }
  }

  /** A string of allowed characters passes the filter unchanged. */
  lemma {:induction false} KeepAllowedIdentity(alnum: Classifier, s: string)
    requires AllAllowed(alnum, s)
    ensures KeepAllowed(alnum, s) == s
    decreases |s|
  {
    if s != [] {
      assert Allowed(alnum, s[0]);
      assert AllAllowed(alnum, s[1..]) by {
        forall i | 0 <= i < |s[1..]| ensures Allowed(alnum, s[1..][i]) {
          assert s[1..][i] == s[i + 1];
        }
      }
      KeepAllowedIdentity(alnum, s[1..]);
    }
  }

  // ---------------------------------------------------------------- stripping

  /** Stripping dots off a string without edge dots changes nothing. */
  lemma StripDotsIdentity(s: string)
    requires NoEdgeDots(s)
    ensures StripDots(s) == s
  {
  }

  /** The trimmed string is a slice, so it keeps the allowed-only property. */
  lemma StripDotsAllowed(alnum: Classifier, s: string)
    requires AllAllowed(alnum, s)
    ensures AllAllowed(alnum, StripDots(s))
  {
    var r := StripDots(s);
    var i :| 0 <= i <= |s| - |r| && IsDotTrimAt(s, r, i);
    forall k | 0 <= k < |r| ensures Allowed(alnum, r[k]) {
      assert r[k] == s[i + k];
    }
  }

  // ---------------------------------------------------------------- sanitiser

  /** Sanitising is idempotent. */
  lemma SanitizeIdempotent(alnum: Classifier, s: string)
    ensures Sanitize(alnum, Sanitize(alnum, s)) == Sanitize(alnum, s)
  {
    var r := Sanitize(alnum, s);
    KeepAllowedIdentity(alnum, r);
    StripDotsIdentity(r);
  }

  /** Removing trailing dots keeps a first character that is not a dot. */
  lemma {:induction false} StripTrailingKeepsFirst(s: string)
    requires s != [] && s[0] != '.'
    ensures StripTrailingDots(s) != [] && StripTrailingDots(s)[0] == s[0]
    decreases |s|
  {
    if s[|s| - 1] == '.' {
      StripTrailingKeepsFirst(s[..|s| - 1]);
    }
  }

  /** Removing leading dots keeps a last character that is not a dot. */
  lemma {:induction false} StripLeadingKeepsLast(s: string)
    requires s != [] && s[|s| - 1] != '.'
    ensures StripLeadingDots(s) != [] && StripLeadingDots(s)[|StripLeadingDots(s)| - 1] == s[|s| - 1]
    decreases |s|
  {
    if s[0] == '.' {
      StripLeadingKeepsLast(s[1..]);
    }
  }

  /** Stripping removes only dots, so a '-' at either end stays there. */
  lemma StripDotsKeepsHyphenEnds(t: string)
    requires t != []
    ensures t[0] == '-' ==> StripDots(t) != [] && StripDots(t)[0] == '-'
    ensures t[|t| - 1] == '-' ==> StripDots(t) != [] && StripDots(t)[|StripDots(t)| - 1] == '-'
  {
    if t[0] == '-' {
      assert StripLeadingDots(t) == t;
      StripTrailingKeepsFirst(t);
    }
    if t[|t| - 1] == '-' {
      StripLeadingKeepsLast(t);
      assert StripTrailingDots(StripLeadingDots(t)) == StripLeadingDots(t);
    }
  }

  /** Only dots are stripped: a leading or trailing '-' of the filtered name
      survives as the first or last character of the identifier. */
  lemma SanitizeKeepsHyphenEnds(alnum: Classifier, s: string)
    requires KeepAllowed(alnum, s) != []
    ensures KeepAllowed(alnum, s)[0] == '-' ==> Sanitize(alnum, s) != [] && Sanitize(alnum, s)[0] == '-'
    ensures var k := KeepAllowed(alnum, s);
            k[|k| - 1] == '-' ==> Sanitize(alnum, s) != [] && Sanitize(alnum, s)[|Sanitize(alnum, s)| - 1] == '-'
  {
    var k := KeepAllowed(alnum, s);
    assert Sanitize(alnum, s) == StripDots(k);
    StripDotsKeepsHyphenEnds(k);
  }

  /** The fallback literal is itself a sanitised identifier. */
  lemma SanitizeFallback(alnum: Classifier)
    requires AsciiAlnum(alnum)
    ensures Sanitize(alnum, "wifi") == "wifi"
  {
    assert AllAllowed(alnum, "wifi") by {
      assert alnum('w') && alnum('i') && alnum('f');
    }
    KeepAllowedIdentity(alnum, "wifi");
    StripDotsIdentity("wifi");
    assert Sanitize(alnum, "wifi") == StripDots(KeepAllowed(alnum, "wifi"));
  }

  /** The identifier embedded in the profile is always a safe identifier. */
  lemma ProfileIdentifierSafe(alnum: Classifier, ssid: string)
    requires AsciiAlnum(alnum)
    ensures SafeIdentifier(alnum, ProfileIdentifier(alnum, ssid))
  {
    if Sanitize(alnum, ssid) == [] {
      SanitizeFallback(alnum);
    }
  }

  /** Feeding the embedded identifier back in as a network name yields it again. */
  lemma ProfileIdentifierIdempotent(alnum: Classifier, ssid: string)
    requires AsciiAlnum(alnum)
    ensures ProfileIdentifier(alnum, ProfileIdentifier(alnum, ssid)) == ProfileIdentifier(alnum, ssid)
  {
    if Sanitize(alnum, ssid) == [] {
      SanitizeFallback(alnum);
    } else {
      SanitizeIdempotent(alnum, ssid);
    }
  }
}
