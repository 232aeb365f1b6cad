// Text normalisation as the domain dataclasses apply it on construction.
// Whitespace and case are the ASCII ones.

module Text {
  import opened Wrappers

  predicate IsSpace(c: char) {
    c == ' ' || '\t' <= c <= '\r'
  }

  function StripLeft(s: string): string {
    if s != "" && IsSpace(s[0]) then StripLeft(s[1..]) else s
  }

  function StripRight(s: string): string {
    if s != "" && IsSpace(s[|s| - 1]) then StripRight(s[..|s| - 1]) else s
  }

  function Strip(s: string): string {
    StripRight(StripLeft(s))
  }

  predicate Stripped(s: string) {
    s == "" || (!IsSpace(s[0]) && !IsSpace(s[|s| - 1]))
  }

  function LowerChar(c: char): char {
    if 'A' <= c <= 'Z' then c + 32 as char else c
  }

  function Lower(s: string): string {
    seq(|s|, i requires 0 <= i < |s| => LowerChar(s[i]))
  }

  predicate IsLower(s: string) {
    forall i :: 0 <= i < |s| ==> !('A' <= s[i] <= 'Z')
  }

  const SHA256_LENGTH := 64

  predicate IsHexDigit(c: char) {
    '0' <= c <= '9' || 'a' <= c <= 'f'
  }

  predicate IsSha256Hex(s: string) {
    |s| == SHA256_LENGTH && forall i :: 0 <= i < |s| ==> IsHexDigit(s[i])
  }

  // A required text in the form the dataclasses store it.
  predicate IsNormalText(s: string, maxLength: nat) {
    Stripped(s) && 0 < |s| <= maxLength
  }

  function NormalizeRequired(s: string, maxLength: nat): Result<string, DomainError> {
    var normalized := Strip(s);
    if normalized == "" || |normalized| > maxLength then Err(InvalidData) else Ok(normalized)
  }

  function NormalizeSha256(s: string): Result<string, DomainError> {
    var normalized := Lower(Strip(s));
    if IsSha256Hex(normalized) then Ok(normalized) else Err(InvalidData)
  }

  function NormalizeOptional(s: Option<string>, maxLength: nat): Result<Option<string>, DomainError> {
    if s.None? then Ok(None) else
    var normalized :- NormalizeRequired(s.value, maxLength);
    Ok(Some(normalized))
  }

  function NormalizeOptionalSha256(s: Option<string>): Result<Option<string>, DomainError> {
    if s.None? then Ok(None) else
    var normalized :- NormalizeSha256(s.value);
    Ok(Some(normalized))
  }

  // An optional text whose blank values count as absent.
  function NormalizeBlank(s: Option<string>, maxLength: nat): Result<Option<string>, DomainError> {
    if s.None? || Strip(s.value) == "" then Ok(None)
    else if |Strip(s.value)| > maxLength then Err(InvalidData)
    else Ok(Some(Strip(s.value)))
  }

  predicate IsNormalOptional(s: Option<string>, maxLength: nat) {
    s.Some? ==> IsNormalText(s.value, maxLength)
  }

  predicate IsOptionalSha256(s: Option<string>) {
    s.Some? ==> IsSha256Hex(s.value)
  }

  lemma {:induction false} StripLeftClean(s: string)
    ensures StripLeft(s) == "" || !IsSpace(StripLeft(s)[0])
  {
    if s != "" && IsSpace(s[0]) { StripLeftClean(s[1..]); }
  }

  lemma {:induction false} StripRightClean(s: string)
    ensures StripRight(s) <= s
    ensures StripRight(s) == "" || !IsSpace(StripRight(s)[|StripRight(s)| - 1])
  {
    if s != "" && IsSpace(s[|s| - 1]) { StripRightClean(s[..|s| - 1]); }
  }

  // strip() leaves no space at either end, and changes nothing on a second application.
  lemma StripIsNormal(s: string)
    ensures Stripped(Strip(s))
    ensures Stripped(s) ==> Strip(s) == s
  {
    StripLeftClean(s);
    StripRightClean(StripLeft(s));
  }

  lemma {:induction false} StripLeftSpec(s: string) returns (n: nat)
    ensures n <= |s| && StripLeft(s) == s[n..] && forall i :: 0 <= i < n ==> IsSpace(s[i])
  {
    n := 0;
    if s != "" && IsSpace(s[0]) {
      var m := StripLeftSpec(s[1..]);
      n := m + 1;
      forall i | 0 <= i < n ensures IsSpace(s[i]) {
        if i > 0 { assert s[i] == s[1..][i - 1]; }
      }
    }
  }

  lemma {:induction false} StripRightSpec(s: string) returns (n: nat)
    ensures n <= |s| && StripRight(s) == s[..n] && forall i :: n <= i < |s| ==> IsSpace(s[i])
  {
    n := |s|;
    if s != "" && IsSpace(s[|s| - 1]) {
      n := StripRightSpec(s[..|s| - 1]);
      forall i | n <= i < |s| ensures IsSpace(s[i]) {
        if i < |s| - 1 { assert s[i] == s[..|s| - 1][i]; }
      }
    }
  }

  // Space, tab, line feed, vertical tab, form feed, carriage return.
  const SPACES := {32, 9, 10, 11, 12, 13}

  // strip() takes off exactly the white space at either end.
  lemma StripSpec(s: string) returns (left: nat, right: nat)
    ensures left <= right <= |s| && Strip(s) == s[left..right]
    ensures forall i :: 0 <= i < left || right <= i < |s| ==> s[i] as int in SPACES
    ensures left < right ==> s[left] as int !in SPACES && s[right - 1] as int !in SPACES
  {
    left := StripLeftSpec(s);
    var n := StripRightSpec(s[left..]);
    right := left + n;
    assert Strip(s) == s[left..][..n] == s[left..right];
    StripIsNormal(s);
    forall i | 0 <= i < left || right <= i < |s| ensures s[i] as int in SPACES {
      if i >= right { assert s[i] == s[left..][i - left]; }
      assert IsSpace(s[i]);
    }
  }

  // lower() moves the letters A to Z to a to z and keeps everything else.
  lemma LowerSpec(s: string, i: nat)
    requires i < |s|
    ensures |Lower(s)| == |s|
    ensures Lower(s)[i] as int == if 65 <= s[i] as int <= 90 then s[i] as int + 32 else s[i] as int
  {
  }

  lemma LowerKeepsStripped(s: string)
    requires Stripped(s)
    ensures |Lower(s)| == |s| && IsLower(Lower(s)) && Stripped(Lower(s))
  {
  }

  lemma LowerIdentity(s: string)
    requires IsLower(s)
    ensures Lower(s) == s
  {
  }

  // A digest is 64 of these sixteen characters, whatever space and case it came with.
  lemma NormalizeSha256Iff(s: string)
    ensures var t := Lower(Strip(s));
      NormalizeSha256(s) ==
        if |t| == 64 && forall i :: 0 <= i < |t| ==> t[i] in "0123456789abcdef" then Ok(t) else Err(InvalidData)
  {
    forall c: char ensures IsHexDigit(c) <==> c in "0123456789abcdef" { HexDigitIff(c); }
  }

  lemma HexDigitIff(c: char)
    ensures IsHexDigit(c) <==> c in "0123456789abcdef"
  {
    var digits := "0123456789abcdef";
    if '0' <= c <= '9' { assert digits[c as int - 48] == c; }
    else if 'a' <= c <= 'f' { assert digits[c as int - 87] == c; }
  }

  lemma HexIsNormal(s: string)
    requires IsSha256Hex(s)
    ensures NormalizeSha256(s) == Ok(s)
  {
    assert !IsSpace(s[0]) && !IsSpace(s[|s| - 1]);
    StripIsNormal(s);
    forall i | 0 <= i < |s| ensures !('A' <= s[i] <= 'Z') { assert IsHexDigit(s[i]); }
    LowerIdentity(s);
  }

  // Normalising is a projection: what it returns is normal, and normal text is returned as it is.
  lemma NormalizeRequiredSpec(s: string, maxLength: nat)
    ensures NormalizeRequired(s, maxLength).Ok? ==> IsNormalText(NormalizeRequired(s, maxLength).value, maxLength)
    ensures IsNormalText(s, maxLength) ==> NormalizeRequired(s, maxLength) == Ok(s)
  {
    StripIsNormal(s);
  }

  lemma NormalizeOptionalSpec(s: Option<string>, maxLength: nat)
    ensures NormalizeOptional(s, maxLength).Ok? ==> IsNormalOptional(NormalizeOptional(s, maxLength).value, maxLength)
    ensures IsNormalOptional(s, maxLength) ==> NormalizeOptional(s, maxLength) == Ok(s)
  {
    if s.Some? { NormalizeRequiredSpec(s.value, maxLength); }
  }

  lemma NormalizeBlankSpec(s: Option<string>, maxLength: nat)
    ensures NormalizeBlank(s, maxLength).Ok? ==> IsNormalOptional(NormalizeBlank(s, maxLength).value, maxLength)
    ensures IsNormalOptional(s, maxLength) ==> NormalizeBlank(s, maxLength) == Ok(s)
  {
    if s.Some? { StripIsNormal(s.value); }
  }

  lemma NormalizeOptionalSha256Spec(s: Option<string>)
    ensures NormalizeOptionalSha256(s).Ok? ==> IsOptionalSha256(NormalizeOptionalSha256(s).value)
    ensures IsOptionalSha256(s) ==> NormalizeOptionalSha256(s) == Ok(s)
  {
    if s.Some? && IsSha256Hex(s.value) { HexIsNormal(s.value); }
  }
}
