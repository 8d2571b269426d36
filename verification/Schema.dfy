/** Schema-type names, and the string comparisons the policy engine applies to them. */
module Schema {

  const MESSAGING := "messaging"
  const ISO20022 := "iso20022"
  const HL7FHIR := "hl7fhir"
  const EDIFACT := "edifact"

  /** White space as `strings.TrimSpace` sees it. */
  predicate IsSpace(c: char) {
    || '\t' <= c <= '\r' || c == ' ' || c == '\U{85}' || c == '\U{A0}' || c == '\U{1680}'
    || '\U{2000}' <= c <= '\U{200A}' || c == '\U{2028}' || c == '\U{2029}' || c == '\U{202F}'
    || c == '\U{205F}' || c == '\U{3000}'
  }

  function Normalize(t: string): string {
    if forall i :: 0 <= i < |t| ==> IsSpace(t[i]) then MESSAGING else t
  }

  /** Case folding of the letters that can fold to ASCII; other characters fold to themselves. */
  function Fold(c: char): char {
    if 'A' <= c <= 'Z' then (c as int + 32) as char
    else if c == '\U{17F}' then 's'
    else if c == '\U{212A}' then 'k'
    else c
  }

  predicate EqualFold(a: string, b: string) {
    |a| == |b| && forall i :: 0 <= i < |a| ==> Fold(a[i]) == Fold(b[i])
  }

  /** `strings.ToLower`, for the letters whose lower case is ASCII. */
  function LowerChar(c: char): char {
    if 'A' <= c <= 'Z' then (c as int + 32) as char
    else if c == '\U{130}' then 'i'
    else if c == '\U{212A}' then 'k'
    else c
  }

  function ToLower(s: string): string {
    seq(|s|, i requires 0 <= i < |s| => LowerChar(s[i]))
  }

  // ---------------------------------------------------------------------------
  // What the comparisons mean
  // ---------------------------------------------------------------------------

  /** The code points Unicode calls white space. */
  predicate IsWhite(c: char) {
    c as int in {9, 10, 11, 12, 13, 32, 0x85, 0xA0, 0x1680, 0x2000, 0x2001, 0x2002, 0x2003, 0x2004, 0x2005, 0x2006, 0x2007,
                 0x2008, 0x2009, 0x200A, 0x2028, 0x2029, 0x202F, 0x205F, 0x3000}
  }

  /** Only a type that is blank stands for another, which is `messaging`. */
  lemma NormalizeIs(t: string)
    ensures Normalize(t) == if forall i :: 0 <= i < |t| ==> IsWhite(t[i]) then "messaging" else t
  {
    assert forall i :: 0 <= i < |t| ==> (IsSpace(t[i]) <==> IsWhite(t[i]));
  }

  /** One character, or one letter in upper and lower case, or two of the three forms of s, or two of the three of k. */
  predicate SameLetter(x: char, y: char) {
    || x == y
    || ('a' <= x <= 'z' && y as int + 32 == x as int)
    || ('a' <= y <= 'z' && x as int + 32 == y as int)
    || (x in {'s', 'S', '\U{17F}'} && y in {'s', 'S', '\U{17F}'})
    || (x in {'k', 'K', '\U{212A}'} && y in {'k', 'K', '\U{212A}'})
  }

  /** Two names are the same up to case. */
  ghost predicate SameName(a: string, b: string) {
    |a| == |b| && forall i :: 0 <= i < |a| ==> SameLetter(a[i], b[i])
  }

  lemma EqualFoldIff(a: string, b: string)
    ensures EqualFold(a, b) <==> SameName(a, b)
  {
    assert forall i :: 0 <= i < |a| && |a| == |b| ==> (Fold(a[i]) == Fold(b[i]) <==> SameLetter(a[i], b[i]));
  }

  /** `low`, which has no capitals, is what the name is in lower case. */
  ghost predicate IsLowerOf(name: string, low: string) {
    && |name| == |low|
    && forall i :: 0 <= i < |name| ==>
         || (name[i] == low[i] && !('A' <= name[i] <= 'Z') && name[i] != '\U{130}' && name[i] != '\U{212A}')
         || ('A' <= name[i] <= 'Z' && name[i] as int + 32 == low[i] as int)
         || (name[i] == '\U{130}' && low[i] == 'i')
         || (name[i] == '\U{212A}' && low[i] == 'k')
  }

  lemma ToLowerIff(name: string, low: string)
    ensures ToLower(name) == low <==> IsLowerOf(name, low)
  {
    if IsLowerOf(name, low) {
      assert forall i :: 0 <= i < |name| ==> LowerChar(name[i]) == low[i];
    } else if |name| == |low| {
      assert exists i :: 0 <= i < |name| && LowerChar(name[i]) != low[i];
    }
  }
}
