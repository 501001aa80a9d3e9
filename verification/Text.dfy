/** Cleaning strings: ASCII lower-casing, stripping white space, cutting. */
module Text {
  predicate Space(c: char) { c == ' ' || '\t' <= c <= '\r' || '\U{1c}' <= c <= '\U{1f}' }

  function LowerChar(c: char): char { if 'A' <= c <= 'Z' then c - 'A' + 'a' else c }

  function Lower(s: string): (r: string)
    ensures |r| == |s|
    ensures forall i | 0 <= i < |s| :: r[i] == LowerChar(s[i])
  {
    if s == "" then "" else [LowerChar(s[0])] + Lower(s[1..])
  }

  function StripLeft(s: string): string { if s != "" && Space(s[0]) then StripLeft(s[1..]) else s }
  function StripRight(s: string): string { if s != "" && Space(s[|s| - 1]) then StripRight(s[..|s| - 1]) else s }
  function Strip(s: string): string { StripRight(StripLeft(s)) }
  function Cut(s: string, n: nat): string { if |s| <= n then s else s[..n] }

  /** Neither end is white space. */
  predicate Clean(s: string) { s != "" ==> !Space(s[0]) && !Space(s[|s| - 1]) }

  lemma {:induction false} StripRightShape(s: string)
    ensures StripRight(s) <= s
    ensures StripRight(s) == "" || !Space(StripRight(s)[|StripRight(s)| - 1])
    decreases |s|
  {
    if s != "" && Space(s[|s| - 1]) { StripRightShape(s[..|s| - 1]); }
  }

  lemma {:induction false} StripLeftShape(s: string)
    ensures StripLeft(s) == "" || !Space(StripLeft(s)[0])
  {
    if s != "" && Space(s[0]) { StripLeftShape(s[1..]); }
  }

  /** Lower-casing moves the 26 capitals 32 places; white space is these ten. */
  lemma LettersAndSpaces(c: char)
    ensures LowerChar(c) == if 'A' <= c <= 'Z' then (c as int + 32) as char else c
    ensures Space(c) <==> c in ['\t', '\n', '\U{b}', '\U{c}', '\r', '\U{1c}', '\U{1d}', '\U{1e}', '\U{1f}', ' ']
  {
  }

  /** Stripping takes away white space only, and only at the ends. */
  lemma StripTakesSpace(s: string) returns (a: string, b: string)
    ensures s == a + Strip(s) + b
    ensures forall i | 0 <= i < |a| :: Space(a[i])
    ensures forall i | 0 <= i < |b| :: Space(b[i])
  {
    a := StripLeftTakes(s);
    b := StripRightTakes(StripLeft(s));
  }

  lemma {:induction false} StripLeftTakes(s: string) returns (a: string)
    ensures s == a + StripLeft(s) && forall i | 0 <= i < |a| :: Space(a[i])
  {
    a := "";
    if s != "" && Space(s[0]) {
      var rest := StripLeftTakes(s[1..]);
      a := [s[0]] + rest;
    }
  }

  lemma {:induction false} StripRightTakes(s: string) returns (b: string)
    ensures s == StripRight(s) + b && forall i | 0 <= i < |b| :: Space(b[i])
    decreases |s|
  {
    b := "";
    if s != "" && Space(s[|s| - 1]) {
      var rest := StripRightTakes(s[..|s| - 1]);
      b := rest + [s[|s| - 1]];
    }
  }

  /** Stripping yields a clean string and leaves exactly the clean strings alone. */
  lemma StripShape(s: string)
    ensures Clean(Strip(s))
    ensures Strip(s) == s <==> Clean(s)
  {
    StripLeftShape(s);
    StripRightShape(StripLeft(s));
  }

  lemma StripShrinks(s: string)
    ensures |Strip(s)| <= |s|
  {
    StripLeftShrinks(s);
    StripRightShape(StripLeft(s));
  }

  lemma {:induction false} StripLeftShrinks(s: string)
    ensures |StripLeft(s)| <= |s|
  {
    if s != "" && Space(s[0]) { StripLeftShrinks(s[1..]); }
  }

  predicate NoUpper(s: string) { forall i | 0 <= i < |s| :: LowerChar(s[i]) == s[i] }

  lemma {:induction false} StripKeepsLower(s: string)
    requires NoUpper(s)
    ensures NoUpper(StripLeft(s)) && NoUpper(StripRight(s)) && NoUpper(Strip(s)) && Lower(s) == s
    decreases |s|
  {
    StripLeftKeepsLower(s);
    StripRightKeepsLower(s);
    StripRightKeepsLower(StripLeft(s));
  }

  lemma {:induction false} StripLeftKeepsLower(s: string)
    requires NoUpper(s)
    ensures NoUpper(StripLeft(s))
  {
    if s != "" && Space(s[0]) { StripLeftKeepsLower(s[1..]); }
  }

  lemma {:induction false} StripRightKeepsLower(s: string)
    requires NoUpper(s)
    ensures NoUpper(StripRight(s))
    decreases |s|
  {
    if s != "" && Space(s[|s| - 1]) { StripRightKeepsLower(s[..|s| - 1]); }
  }

  lemma LowerClean(s: string)
    ensures Lower(Lower(s)) == Lower(s)
    ensures Clean(Lower(s)) <==> Clean(s)
  {
  }
}
