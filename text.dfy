/** The string operations the engine applies to emails and names (ASCII case mapping only). */
module Text {

  function LowerChar(c: char): char {
    if 'A' <= c <= 'Z' then (c as int + 32) as char else c
  }

  function UpperChar(c: char): char {
    if 'a' <= c <= 'z' then (c as int - 32) as char else c
  }

  /** `toLowerCase()` restricted to ASCII letters. */
  function ToLower(s: string): (r: string)
    ensures |r| == |s| && forall i :: 0 <= i < |s| ==> r[i] == LowerChar(s[i])
  {
    if s == [] then [] else [LowerChar(s[0])] + ToLower(s[1..])
  }

  /** `toUpperCase()` restricted to ASCII letters. */
  function ToUpper(s: string): (r: string)
    ensures |r| == |s| && forall i :: 0 <= i < |s| ==> r[i] == UpperChar(s[i])
  {
    if s == [] then [] else [UpperChar(s[0])] + ToUpper(s[1..])
  }

  predicate IsSpace(c: char) {
    c == ' ' || c == '\t' || c == '\n' || c == '\r' || c == '\U{B}' || c == '\U{C}'
  }

  function TrimStart(s: string): (r: string)
    ensures r == [] || !IsSpace(r[0])
    ensures |r| <= |s|
  {
    if s != [] && IsSpace(s[0]) then TrimStart(s[1..]) else s
  }

  function TrimEnd(s: string): (r: string)
    ensures r == [] || !IsSpace(r[|r| - 1])
    ensures |r| <= |s|
  {
    if s != [] && IsSpace(s[|s| - 1]) then TrimEnd(s[..|s| - 1]) else s
  }

  /** `trim()`. */
  function Trim(s: string): string {
    TrimEnd(TrimStart(s))
  }

  /** `trim().toLowerCase()`, the normal form stored as username and email. */
  function Normalize(s: string): string {
    ToLower(Trim(s))
  }

  predicate EndsWith(s: string, suffix: string) {
    |suffix| <= |s| && s[|s| - |suffix|..] == suffix
  }

  /**
   * Whether `display` still matches the stored name `stored` in the name-change test of
   * src/ResidentParser.ts:1338-1341. The pattern is built from a template literal, where `\s`
   * denotes a plain `s`, and it is matched case-insensitively: the display name must end with the
   * stored name, optionally followed by one `s` (the optional leading `s` never matters).
   */
  predicate NameUnchanged(display: string, stored: string) {
    var d, n := ToLower(display), ToLower(stored);
    EndsWith(d, n) || EndsWith(d, n + "s")
  }

  lemma ToLowerIdempotent(s: string)
    ensures ToLower(ToLower(s)) == ToLower(s)
  {
  }

  /** A display name equal to the stored name up to letter case passes the name-change test. */
  lemma {:induction false} NameUnchangedReflexive(display: string, stored: string)
    requires ToLower(display) == ToLower(stored)
    ensures NameUnchanged(display, stored)
  {
    var d := ToLower(display);
    assert d[|d| - |d|..] == d;
  }

  /** Upper-casing does not change the lower-cased form, so `ToUpper(n)` and `n` agree up to case. */
  lemma LowerOfUpper(s: string)
    ensures ToLower(ToUpper(s)) == ToLower(s)
  {
    var u, d := ToLower(ToUpper(s)), ToLower(s);
    forall i | 0 <= i < |s| ensures u[i] == d[i] {
      assert u[i] == LowerChar(UpperChar(s[i])) && d[i] == LowerChar(s[i]);
    }
  }
}
