/** The two helpers of src/utils.js. */
module Utils {

  /** `Math.min(Math.max(value, lo), hi)`. */
  function Clamp(value: real, lo: real, hi: real): (r: real)
    ensures lo <= hi ==> lo <= r <= hi
    ensures lo <= value <= hi ==> r == value
    ensures value < lo && lo <= hi ==> r == lo
    ensures value > hi ==> r == hi
    // with an empty range the upper bound wins
    ensures lo > hi ==> r == hi
  {
    var atLeastLo := if value > lo then value else lo;
    if atLeastLo < hi then atLeastLo else hi
  }

  /** Clamping twice is clamping once. */
  lemma ClampIdempotent(value: real, lo: real, hi: real)
    ensures Clamp(Clamp(value, lo, hi), lo, hi) == Clamp(value, lo, hi)
  {
  }

  /** Clamp never reverses the order of two values. */
  lemma ClampMonotone(a: real, b: real, lo: real, hi: real)
    requires a <= b
    ensures Clamp(a, lo, hi) <= Clamp(b, lo, hi)
  {
  }

  predicate IsLower(c: char) { 'a' <= c <= 'z' }

  /** Upper-cases an ASCII letter; every other character is kept. */
  function ToUpper(c: char): (u: char)
    ensures IsLower(c) ==> 'A' <= u <= 'Z' && u as int + 32 == c as int
    ensures !IsLower(c) ==> u == c
  {
    if IsLower(c) then (c as int - 32) as char else c
  }

  /** `str.charAt(0).toUpperCase() + str.substr(1)`. */
  function Capitalize(s: string): (r: string)
    ensures |r| == |s|
    ensures s == [] ==> r == []
    ensures s != [] ==> r[0] == ToUpper(s[0]) && r[1..] == s[1..]
    ensures forall i :: 0 < i < |s| ==> r[i] == s[i]
    ensures s != [] && !IsLower(s[0]) ==> r == s
  {
    if s == [] then [] else [ToUpper(s[0])] + s[1..]
  }

  /** Capitalizing an already capitalized string changes nothing. */
  lemma CapitalizeIdempotent(s: string)
    ensures Capitalize(Capitalize(s)) == Capitalize(s)
  {
  }
}
