/**
 The string operations the reconciliation pass applies to spreadsheet cells:
 Python's `str.strip()` (no arguments), `str.lower()` and `str.startswith`.
 A client's identity is the normalized form `Lower(Strip(name))`.
 */
module Text {

  /** Python's `str.isspace` for a single character: the characters that
      `str.strip()` with no arguments removes. */
  predicate IsSpace(c: char) {
    || c == ' '
    || ('\t' <= c <= '\r')
    || ('\U{1C}' <= c <= '\U{1F}')
    || c == '\U{85}' || c == '\U{A0}' || c == '\U{1680}'
    || ('\U{2000}' <= c <= '\U{200A}')
    || c == '\U{2028}' || c == '\U{2029}' || c == '\U{202F}'
    || c == '\U{205F}' || c == '\U{3000}'
  }

  /** No whitespace at either end. */
  predicate Trimmed(s: string) {
    s == [] || (!IsSpace(s[0]) && !IsSpace(s[|s| - 1]))
  }

  /** Drops the leading whitespace. */
  function TrimStart(s: string): string
  {
    if s != [] && IsSpace(s[0]) then TrimStart(s[1..]) else s
  }

  /** Drops the trailing whitespace. */
  function TrimEnd(s: string): string
  {
    if s != [] && IsSpace(s[|s| - 1]) then TrimEnd(s[..|s| - 1]) else s
  }

  /** Python's `s.strip()` with no arguments. */
  function Strip(s: string): string
  {
    TrimEnd(TrimStart(s))
  }

  /** Python's `str.lower()` on one character, restricted to ASCII letters. */
  function LowerChar(c: char): (r: char)
    ensures !('A' <= r <= 'Z')
    ensures IsSpace(r) <==> IsSpace(c)
    ensures !('A' <= c <= 'Z') ==> r == c
  {
    if 'A' <= c <= 'Z' then (c as int + 32) as char else c
  }

  /** Python's `str.lower()`, character by character. */
  function Lower(s: string): string
  {
    if s == [] then [] else [LowerChar(s[0])] + Lower(s[1..])
  }

  /** The identity key of a client name: stripped, then lower-cased. */
  function Normalize(s: string): string
  {
    Lower(Strip(s))
  }

  /** `TrimStart` cuts a whitespace-only prefix and leaves a suffix that does not
      start with whitespace. */
  lemma {:induction false} TrimStartSpec(s: string)
    ensures |TrimStart(s)| <= |s| && TrimStart(s) == s[|s| - |TrimStart(s)|..]
    ensures forall k :: 0 <= k < |s| - |TrimStart(s)| ==> IsSpace(s[k])
    ensures TrimStart(s) == [] || !IsSpace(TrimStart(s)[0])
    decreases |s|
  {
    if s != [] && IsSpace(s[0]) {
      TrimStartSpec(s[1..]);
    }
  }

  /** `TrimEnd` cuts a whitespace-only suffix and leaves a prefix that does not
      end with whitespace. */
  lemma {:induction false} TrimEndSpec(s: string)
    ensures |TrimEnd(s)| <= |s| && TrimEnd(s) == s[..|TrimEnd(s)|]
    ensures forall k :: |TrimEnd(s)| <= k < |s| ==> IsSpace(s[k])
    ensures TrimEnd(s) == [] || !IsSpace(TrimEnd(s)[|TrimEnd(s)| - 1])
    decreases |s|
  {
    if s != [] && IsSpace(s[|s| - 1]) {
      TrimEndSpec(s[..|s| - 1]);
    }
  }

  /** `r` is the slice of `s` starting at `i` with only whitespace around it. */
  predicate SliceAmidSpace(s: string, r: string, i: nat) {
    && i + |r| <= |s|
    && r == s[i..i + |r|]
    && (forall k :: 0 <= k < i ==> IsSpace(s[k]))
    && (forall k :: i + |r| <= k < |s| ==> IsSpace(s[k]))
  }

  /** Strip returns a slice of its input that neither starts nor ends with
      whitespace, with only whitespace cut off around it. */
  lemma {:induction false} StripSpec(s: string)
    ensures Trimmed(Strip(s))
    ensures |TrimStart(s)| <= |s| && SliceAmidSpace(s, Strip(s), |s| - |TrimStart(s)|)
  {
    var t := TrimStart(s);
    var r := TrimEnd(t);
    TrimStartSpec(s);
    TrimEndSpec(t);
    assert s[|s| - |t|..][..|r|] == s[|s| - |t|..|s| - |t| + |r|];
    forall k | |s| - |t| + |r| <= k < |s|
      ensures IsSpace(s[k])
    {
      assert s[k] == t[k - (|s| - |t|)];
    }
  }

  /** A string that is already trimmed is its own strip. */
  lemma {:induction false} StripTrimmed(s: string)
    requires Trimmed(s)
    ensures Strip(s) == s
  {
    assert TrimStart(s) == s;
    assert TrimEnd(s) == s;
  }

  /** Stripping twice is stripping once. */
  lemma {:induction false} StripIdempotent(s: string)
    ensures Strip(Strip(s)) == Strip(s)
  {
    StripSpec(s);
    StripTrimmed(Strip(s));
  }

  /** Strip is characterised by its contract: any trimmed slice of `s` with
      only whitespace around it is `Strip(s)`, unless `s` is blank. */
  lemma {:induction false} StripUnique(s: string, t: string, i: nat)
    requires SliceAmidSpace(s, t, i) && Trimmed(t)
    requires t != [] || forall k :: 0 <= k < |s| ==> IsSpace(s[k])
    ensures Strip(s) == t
  {
    StripSpec(s);
  }

  /** Lower-casing maps each character on its own and keeps the length. */
  lemma {:induction false} LowerSpec(s: string)
    ensures |Lower(s)| == |s|
    ensures forall i :: 0 <= i < |s| ==> Lower(s)[i] == LowerChar(s[i])
    decreases |s|
  {
    if s != [] {
      LowerSpec(s[1..]);
      assert Lower(s) == [LowerChar(s[0])] + Lower(s[1..]);
    }
  }

  /** Lower-casing leaves no upper-case ASCII letter, keeps every whitespace
      character where it was and introduces no new one. */
  lemma {:induction false} LowerKeepsSpaces(s: string)
    ensures |Lower(s)| == |s|
    ensures forall i :: 0 <= i < |s| ==> !('A' <= Lower(s)[i] <= 'Z')
    ensures forall i :: 0 <= i < |s| ==> (IsSpace(Lower(s)[i]) <==> IsSpace(s[i]))
  {
    LowerSpec(s);
  }

  /** Lower-casing twice is lower-casing once. */
  lemma {:induction false} LowerIdempotent(s: string)
    ensures Lower(Lower(s)) == Lower(s)
  {
    LowerSpec(s);
    LowerSpec(Lower(s));
  }

  /** A normalized name has no surrounding whitespace, and is blank exactly
      when the stripped name is. */
  lemma {:induction false} NormalizeSpec(s: string)
    ensures Trimmed(Normalize(s))
    ensures |Normalize(s)| == |Strip(s)|
  {
    StripSpec(s);
    LowerKeepsSpaces(Strip(s));
  }

  /** A normalized name normalizes to itself, so the key is canonical. */
  lemma {:induction false} NormalizeIdempotent(s: string)
    ensures Normalize(Normalize(s)) == Normalize(s)
  {
    NormalizeSpec(s);
    StripTrimmed(Normalize(s));
    LowerIdempotent(Strip(s));
  }

  /** Stripping before normalizing changes nothing. */
  lemma {:induction false} NormalizeStrip(s: string)
    ensures Normalize(Strip(s)) == Normalize(s)
  {
    StripIdempotent(s);
  }

  /** Surrounding whitespace and letter case do not change a client's identity. */
  lemma {:induction false} JohnDoe()
    ensures Normalize(" John Doe ") == Normalize("john doe") == "john doe"
  {
    var plain := "john doe";
    StripPadded();
    LowerJohnDoe();
    assert Normalize(" John Doe ") == plain;
    PlainTrimmed();
    StripTrimmed(plain);
    LowerIdempotent(plain);
    assert Lower(plain) == plain by {
      assert Lower("John Doe") == plain;
    }
  }

  lemma {:induction false} PlainTrimmed()
    ensures Trimmed("john doe")
  {
  }

  lemma {:induction false} StripPadded()
    ensures Strip(" John Doe ") == "John Doe"
  {
    assert " John Doe "[1..9] == "John Doe";
    StripUnique(" John Doe ", "John Doe", 1);
  }

  lemma {:induction false} LowerJohnDoe()
    ensures Lower("John Doe") == "john doe"
  {
    LowerSpec("John Doe");
    forall i | 0 <= i < 8
      ensures Lower("John Doe")[i] == "john doe"[i]
    {
    }
  }

  /** Python's `s.startswith(p)`. */
  predicate StartsWith(s: string, p: string) {
    |p| <= |s| && s[..|p|] == p
  }

}
