/**
 * The pieces of java.lang the folder browser relies on: 32-bit int arithmetic,
 * String.compareTo / compareToIgnoreCase, toLowerCase and contains.
 * Characters are folded with the ASCII rules only (see README, "Left out").
 */
module JavaLang {

  const IntMin: int := -0x8000_0000   // Integer.MIN_VALUE
  const IntMax: int := 0x7FFF_FFFF    // Integer.MAX_VALUE

  predicate InIntRange(x: int) { IntMin <= x <= IntMax }

  /** The two's-complement wrap of an int subtraction, or of the (int) cast of a long. */
  function Int32(x: int): (r: int)
    ensures InIntRange(r)
    ensures (r - x) % 0x1_0000_0000 == 0
  {
    (x - IntMin) % 0x1_0000_0000 + IntMin
  }

  /** Inside int range the wrap changes nothing, so subtraction-based comparators are exact there. */
  lemma Int32Exact(x: int)
    requires InIntRange(x)
    ensures Int32(x) == x
  {
    assert 0 <= x - IntMin < 0x1_0000_0000;
  }

  /** Character.toLowerCase(Character.toUpperCase(c)) for ASCII letters; other characters are kept. */
  function FoldCase(c: char): (r: char)
    ensures 'A' <= c <= 'Z' ==> r as int == c as int + 32
    ensures !('A' <= c <= 'Z') ==> r == c
  {
    if 'A' <= c <= 'Z' then (c as int + 32) as char else c
  }

  function Fold(c: char, ignoreCase: bool): char {
    if ignoreCase then FoldCase(c) else c
  }

  /**
   * String.compareTo (ignoreCase false) and String.compareToIgnoreCase (ignoreCase true):
   * the difference of the first differing (folded) characters, else the difference of the lengths.
   */
  function CompareStrings(a: string, b: string, ignoreCase: bool): int
    decreases |a|
  {
    if a == [] || b == [] then |a| - |b|
    else if Fold(a[0], ignoreCase) != Fold(b[0], ignoreCase) then
      Fold(a[0], ignoreCase) as int - Fold(b[0], ignoreCase) as int
    else CompareStrings(a[1..], b[1..], ignoreCase)
  }

  function CompareTo(a: string, b: string): int { CompareStrings(a, b, false) }

  function CompareToIgnoreCase(a: string, b: string): int { CompareStrings(a, b, true) }

  /** Swapping the arguments negates the result exactly. */
  lemma {:induction false} CompareStringsAntisymmetric(a: string, b: string, ignoreCase: bool)
    ensures CompareStrings(a, b, ignoreCase) == -CompareStrings(b, a, ignoreCase)
    decreases |a|
  {
    if a != [] && b != [] && Fold(a[0], ignoreCase) == Fold(b[0], ignoreCase) {
      CompareStringsAntisymmetric(a[1..], b[1..], ignoreCase);
    }
  }

  /** "Not after" is transitive, so the comparison is a total preorder on strings. */
  lemma {:induction false} CompareStringsTransitive(a: string, b: string, c: string, ignoreCase: bool)
    requires CompareStrings(a, b, ignoreCase) <= 0 && CompareStrings(b, c, ignoreCase) <= 0
    ensures CompareStrings(a, c, ignoreCase) <= 0
    decreases |a|
  {
    if a != [] && b != [] && c != [] {
      var fa, fb, fc := Fold(a[0], ignoreCase), Fold(b[0], ignoreCase), Fold(c[0], ignoreCase);
      if fa == fb && fb == fc {
        CompareStringsTransitive(a[1..], b[1..], c[1..], ignoreCase);
      }
    }
  }

  /** String.toLowerCase, with ASCII case rules. */
  function ToLowerCase(s: string): (r: string)
    ensures |r| == |s|
    ensures forall i :: 0 <= i < |s| ==> r[i] == FoldCase(s[i])
  {
    if s == [] then [] else [FoldCase(s[0])] + ToLowerCase(s[1..])
  }

  /** sub occurs in s starting at index i. */
  predicate OccursAt(s: string, sub: string, i: int) {
    0 <= i && i + |sub| <= |s| && s[i..i + |sub|] == sub
  }

  /** String.contains: sub occurs in s at some position. */
  function Contains(s: string, sub: string): (r: bool)
    ensures r <==> exists i :: OccursAt(s, sub, i)
  {
    if sub <= s then
      assert OccursAt(s, sub, 0);
      true
    else if s == [] then
      assert sub != [];
      false
    else
      var r := Contains(s[1..], sub);
      assert forall i :: OccursAt(s[1..], sub, i) <==> OccursAt(s, sub, i + 1) by {
        forall i ensures OccursAt(s[1..], sub, i) <==> OccursAt(s, sub, i + 1) {
          if 0 <= i && i + |sub| <= |s| - 1 {
            assert s[1..][i..i + |sub|] == s[i + 1..i + 1 + |sub|];
          }
        }
      }
      assert !OccursAt(s, sub, 0);
      assert (exists i :: OccursAt(s, sub, i)) ==> exists i :: OccursAt(s[1..], sub, i) by {
        if i :| OccursAt(s, sub, i) {
          assert i != 0;
          assert OccursAt(s[1..], sub, i - 1);
        }
      }
      r
  }
}
