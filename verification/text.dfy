/** The string operations the service relies on, restricted to ASCII:
    `str.lower()`, `str.capitalize()` and the substring test `k in s`. */
module Text {

  predicate IsUpper(c: char) {
    'A' <= c <= 'Z'
  }

  predicate IsLower(c: char) {
    'a' <= c <= 'z'
  }

  /** Lower-cases one ASCII letter; every other character is kept. */
  function LowerChar(c: char): (r: char)
    ensures !IsUpper(r)
    ensures IsUpper(c) ==> IsLower(r) && r as int == c as int + 32
    ensures !IsUpper(c) ==> r == c
  {
    if IsUpper(c) then (c as int + 32) as char else c
  }

  /** Upper-cases one ASCII letter; every other character is kept. */
  function UpperChar(c: char): (r: char)
    ensures !IsLower(r)
    ensures IsLower(c) ==> IsUpper(r) && r as int == c as int - 32
    ensures !IsLower(c) ==> r == c
  {
    if IsLower(c) then (c as int - 32) as char else c
  }

  /** No ASCII upper-case letter occurs in `s`. */
  predicate IsLowered(s: string) {
    forall i :: 0 <= i < |s| ==> !IsUpper(s[i])
  }

  /** Python's `s.lower()` on ASCII text. */
  function Lower(s: string): (r: string)
    ensures |r| == |s|
    ensures forall i :: 0 <= i < |s| ==> r[i] == LowerChar(s[i])
    ensures IsLowered(r)
  {
    if s == [] then [] else [LowerChar(s[0])] + Lower(s[1..])
  }

  /** Lower-casing twice is lower-casing once, so a key that `learn` stored is
      found again by a lookup that lower-cases its own input. */
  lemma LowerIdempotent(s: string)
    ensures Lower(Lower(s)) == Lower(s)
  {
  }

  /** Text that is already lower-case is left alone. */
  lemma LowerOfLowered(s: string)
    requires IsLowered(s)
    ensures Lower(s) == s
  {
  }

  /** Lower-casing works character by character, so it distributes over concatenation. */
  lemma LowerAppend(a: string, b: string)
    ensures Lower(a + b) == Lower(a) + Lower(b)
  {
  }

  /** Python's `s.capitalize()` on ASCII text: the first character upper-cased,
      all the others lower-cased. */
  function Capitalize(s: string): (r: string)
    ensures |r| == |s|
    ensures |s| > 0 ==> r[0] == UpperChar(s[0]) && !IsLower(r[0])
    ensures forall i :: 0 < i < |s| ==> r[i] == LowerChar(s[i])
  {
    if s == [] then [] else [UpperChar(s[0])] + Lower(s[1..])
  }

  /** Capitalising changes letter case only: ignoring case, the text is the same. */
  lemma LowerCapitalize(s: string)
    ensures Lower(Capitalize(s)) == Lower(s)
  {
    if s != [] {
      assert s == [s[0]] + s[1..];
      LowerAppend([UpperChar(s[0])], Lower(s[1..]));
      LowerAppend([s[0]], s[1..]);
      LowerIdempotent(s[1..]);
    }
  }

  /** Capitalising an already capitalised text changes nothing. */
  lemma CapitalizeIdempotent(s: string)
    ensures Capitalize(Capitalize(s)) == Capitalize(s)
  {
  }

  /** Reference meaning of Python's `k in s` for strings: `k` occurs as a
      contiguous block somewhere in `s` (the empty string occurs everywhere). */
  ghost predicate Occurs(k: string, s: string) {
    exists i :: OccursAt(k, s, i)
  }

  /** `k` occurs in `s` starting at position `i`. */
  predicate OccursAt(k: string, s: string, i: int) {
    0 <= i <= |s| - |k| && s[i..i + |k|] == k
  }

  /** `s` begins with `k`. */
  predicate StartsWith(s: string, k: string) {
    |k| <= |s| && s[..|k|] == k
  }

  /** `s` ends with `k`. */
  predicate EndsWith(s: string, k: string) {
    |k| <= |s| && s[|s| - |k|..] == k
  }

  /** The substring test as a scan over the start positions of `s`. */
  function Contains(s: string, k: string): (r: bool)
    decreases |s|
  {
    StartsWith(s, k) || (|s| > |k| && Contains(s[1..], k))
  }

  /** The scan finds `k` exactly when `k` occurs in `s`. */
  lemma {:induction false} ContainsOccurs(s: string, k: string)
    ensures Contains(s, k) <==> Occurs(k, s)
    decreases |s|
  {
    if StartsWith(s, k) {
      assert OccursAt(k, s, 0);
    } else if |s| > |k| {
      ContainsOccurs(s[1..], k);
      if Occurs(k, s) {
        var i :| OccursAt(k, s, i);
        assert s[1..][i - 1..i - 1 + |k|] == s[i..i + |k|];
        assert OccursAt(k, s[1..], i - 1);
      }
      if Occurs(k, s[1..]) {
        var i :| OccursAt(k, s[1..], i);
        assert s[i + 1..i + 1 + |k|] == s[1..][i..i + |k|];
        assert OccursAt(k, s, i + 1);
      }
    }
  }
}
