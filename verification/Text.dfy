/** Byte strings as the Go program sees them: one char stands for one byte. */
module Text {

  predicate IsSpace(c: char) {
    c == ' ' || c == '\t' || c == '\n' || c == '\r' || c == '\U{0B}' || c == '\U{0C}'
  }

  /** Space, tab, line feed, vertical tab, form feed and carriage return, by their codes. */
  lemma SpaceCodes(c: char)
    ensures IsSpace(c) <==> c as int == 32 || 9 <= c as int <= 13
  {
  }

  function TrimLeft(s: string): string {
    if s != "" && IsSpace(s[0]) then TrimLeft(s[1..]) else s
  }

  function TrimRight(s: string): string {
    if s != "" && IsSpace(s[|s| - 1]) then TrimRight(s[..|s| - 1]) else s
  }

  function TrimSpace(s: string): string {
    TrimRight(TrimLeft(s))
  }

  predicate IsBlank(s: string) {
    TrimSpace(s) == ""
  }

  /** Neither end is a space. */
  predicate Trimmed(s: string) {
    s != "" ==> !IsSpace(s[0]) && !IsSpace(s[|s| - 1])
  }

  lemma {:induction false} TrimLeftStarts(s: string)
    ensures var t := TrimLeft(s); |t| <= |s| && t == s[|s| - |t|..] && (t != "" ==> !IsSpace(t[0]))
  {
    if s != "" && IsSpace(s[0]) {
      TrimLeftStarts(s[1..]);
    }
  }

  lemma {:induction false} TrimRightEnds(s: string)
    ensures var t := TrimRight(s); |t| <= |s| && t == s[..|t|] && (t != "" ==> !IsSpace(t[|t| - 1]))
  {
    if s != "" && IsSpace(s[|s| - 1]) {
      TrimRightEnds(s[..|s| - 1]);
    }
  }

  /** Trimming yields a trimmed string no longer than its argument. */
  lemma TrimSpaceTrims(s: string)
    ensures Trimmed(TrimSpace(s)) && |TrimSpace(s)| <= |s|
  {
    TrimLeftStarts(s);
    TrimRightEnds(TrimLeft(s));
  }

  /** A string without spaces at its ends is left alone, and only such a string is. */
  lemma TrimSpaceFixpoint(s: string)
    ensures TrimSpace(s) == s <==> Trimmed(s)
  {
    TrimSpaceTrims(s);
  }

  lemma {:induction false} TrimLeftDropsSpaces(s: string)
    ensures var t := TrimLeft(s); |t| <= |s| && forall i :: 0 <= i < |s| - |t| ==> IsSpace(s[i])
  {
    if s != "" && IsSpace(s[0]) {
      TrimLeftDropsSpaces(s[1..]);
      var t := TrimLeft(s);
      forall i | 0 < i < |s| - |t| ensures IsSpace(s[i]) {
        assert s[i] == s[1..][i - 1];
      }
    }
  }

  lemma {:induction false} TrimRightDropsSpaces(s: string)
    ensures var t := TrimRight(s); |t| <= |s| && forall i :: |t| <= i < |s| ==> IsSpace(s[i])
  {
    if s != "" && IsSpace(s[|s| - 1]) {
      TrimRightDropsSpaces(s[..|s| - 1]);
    }
  }

  /** What is left of a string when the spaces at its ends are gone: whatever lies between space and space
      and has no space at either end, or nothing. */
  predicate IsTrimOf(t: string, s: string, i: nat) {
    && i + |t| <= |s| && t == s[i..i + |t|] && Trimmed(t)
    && (forall k :: 0 <= k < i ==> IsSpace(s[k])) && (forall k :: i + |t| <= k < |s| ==> IsSpace(s[k]))
  }

  lemma TrimSpaceIsTrim(s: string) returns (i: nat)
    ensures IsTrimOf(TrimSpace(s), s, i)
  {
    TrimLeftStarts(s);
    TrimLeftDropsSpaces(s);
    var left := TrimLeft(s);
    TrimRightEnds(left);
    TrimRightDropsSpaces(left);
    i := |s| - |left|;
    var t := TrimRight(left);
    assert forall k :: i + |t| <= k < |s| ==> s[k] == left[k - i];
  }

  lemma TrimIsUnique(t: string, i: nat, u: string, j: nat, s: string)
    requires IsTrimOf(t, s, i) && IsTrimOf(u, s, j)
    ensures t == u
  {
    if t != "" {
      assert !IsSpace(s[i]) && t[|t| - 1] == s[i + |t| - 1] && !IsSpace(s[i + |t| - 1]);
    }
    if u != "" {
      assert !IsSpace(s[j]) && u[|u| - 1] == s[j + |u| - 1] && !IsSpace(s[j + |u| - 1]);
    }
  }

  /** A blank string is one of spaces only. */
  lemma BlankIff(s: string)
    ensures IsBlank(s) <==> forall i :: 0 <= i < |s| ==> IsSpace(s[i])
  {
    var i := TrimSpaceIsTrim(s);
    var t := TrimSpace(s);
    if t != "" {
      assert t[0] == s[i] && !IsSpace(s[i]);
    }
  }

  /** Text put between two trimmed non-empty ends survives trimming whole. */
  lemma TrimSpaceKeepsJoined(a: string, middle: string, b: string)
    requires a != "" && b != "" && Trimmed(a) && Trimmed(b)
    ensures TrimSpace(a + middle + b) == a + middle + b && Trimmed(a + middle + b)
  {
    var joined := a + middle + b;
    assert joined[0] == a[0] && joined[|joined| - 1] == b[|b| - 1];
    TrimSpaceFixpoint(joined);
  }

  function LowerChar(c: char): char {
    if 'A' <= c <= 'Z' then (c as int + 32) as char else c
  }

  /** Equality up to the case of ASCII letters. */
  predicate EqualFold(a: string, b: string) {
    |a| == |b| && forall i :: 0 <= i < |a| ==> LowerChar(a[i]) == LowerChar(b[i])
  }

  /** Equal strings up to case differ at most in letters, by the distance of the two alphabets. */
  lemma EqualFoldIff(a: string, b: string)
    ensures EqualFold(a, b) <==> |a| == |b| && forall i :: 0 <= i < |a| ==> SameLetter(a[i], b[i])
  {
  }

  predicate SameLetter(c: char, d: char) {
    || c == d
    || (65 <= c as int <= 90 && d as int == c as int + 32)
    || (65 <= d as int <= 90 && c as int == d as int + 32)
  }

  /** The bytewise order of Go's `<` on strings. */
  predicate Less(a: string, b: string) {
    b != "" && (a == "" || a[0] < b[0] || (a[0] == b[0] && Less(a[1..], b[1..])))
  }

  /** One string is less than another when it is a proper part of its beginning, or has the smaller byte at
      the first place where they differ. */
  predicate FirstDifference(a: string, b: string, k: nat) {
    && k <= |a| && k <= |b| && a[..k] == b[..k]
    && (if k == |a| then k < |b| else k < |b| && a[k] as int < b[k] as int)
  }

  lemma {:induction false} LessIff(a: string, b: string)
    ensures Less(a, b) <==> exists k :: FirstDifference(a, b, k)
  {
    forall k: nat | FirstDifference(a, b, k) && k > 0 ensures a != "" && b != "" && a[0] == b[0] {
      assert a[..k][0] == b[..k][0];
    }
    if a == "" || b == "" || a[0] != b[0] {
      assert b != "" && (a == "" || a[0] < b[0]) ==> FirstDifference(a, b, 0);
    } else {
      LessIff(a[1..], b[1..]);
      if k: nat :| FirstDifference(a[1..], b[1..], k) {
        assert a[..k + 1] == [a[0]] + a[1..][..k] && b[..k + 1] == [b[0]] + b[1..][..k];
        assert FirstDifference(a, b, k + 1);
      }
      if k: nat :| FirstDifference(a, b, k) {
        assert k > 0;
        assert a[1..][..k - 1] == a[..k][1..] && b[1..][..k - 1] == b[..k][1..];
        assert FirstDifference(a[1..], b[1..], k - 1);
      }
    }
  }

  lemma {:induction false} LessTotal(a: string, b: string)
    ensures Less(a, b) || a == b || Less(b, a)
  {
    if a != "" && b != "" && a[0] == b[0] {
      LessTotal(a[1..], b[1..]);
      assert a == [a[0]] + a[1..] && b == [b[0]] + b[1..];
    }
  }

  lemma {:induction false} LessAsymmetric(a: string, b: string)
    ensures !(Less(a, b) && Less(b, a))
  {
    if a != "" && b != "" && a[0] == b[0] {
      LessAsymmetric(a[1..], b[1..]);
    }
  }

  lemma {:induction false} LessTransitive(a: string, b: string, c: string)
    requires Less(a, b) && Less(b, c)
    ensures Less(a, c)
  {
    if a != "" && a[0] == b[0] && b[0] == c[0] {
      LessTransitive(a[1..], b[1..], c[1..]);
    }
  }
}
