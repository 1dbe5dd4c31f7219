/** Text helpers used when rendering provider descriptions. */
module Text {

  predicate IsLower(c: char) { 'a' <= c <= 'z' }

  predicate IsUpper(c: char) { 'A' <= c <= 'Z' }

  function ToUpper(c: char): char
  {
    if IsLower(c) then (c as int - 32) as char else c
  }

  function ToLower(c: char): char
  {
    if IsUpper(c) then (c as int + 32) as char else c
  }

  /** The text with every letter in lower case. */
  function Lowered(s: string): string
  {
    seq(|s|, i requires 0 <= i < |s| => ToLower(s[i]))
  }

  /** Python's str.capitalize restricted to ASCII letters: the first
      character in upper case, every other one in lower case. */
  function Capitalize(s: string): (r: string)
    ensures |r| == |s|
  {
    if s == [] then [] else [ToUpper(s[0])] + Lowered(s[1..])
  }

  /** The capitalized text has the same letters as the original, up to case,
      with no lower-case letter in front and no upper-case letter after it. */
  lemma CapitalizeShape(s: string)
    ensures var r := Capitalize(s);
            (|s| > 0 ==> !IsLower(r[0]))
            && (forall i :: 0 < i < |r| ==> !IsUpper(r[i]))
            && Lowered(r) == Lowered(s)
  {
    var r := Capitalize(s);
    if s != [] {
      assert forall i :: 0 < i < |r| ==> r[i] == ToLower(s[i]);
    }
  }

  /** Capitalizing twice gives the same text as capitalizing once. */
  lemma CapitalizeIdempotent(s: string)
    ensures Capitalize(Capitalize(s)) == Capitalize(s)
  {
    var r := Capitalize(s);
    CapitalizeShape(s);
    if s != [] {
      assert Capitalize(r)[0] == r[0];
      assert forall i :: 0 < i < |r| ==> Capitalize(r)[i] == r[i];
    }
  }
}
