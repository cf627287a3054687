/** The string operations the catalogue search uses:
    `toLowerCase` (on ASCII letters) and `includes`. */
module Text {

  function LowerChar(c: char): char
  {
    if 'A' <= c <= 'Z' then (c as int + 32) as char else c
  }

  /** `String.prototype.toLowerCase`, restricted to the ASCII letters A-Z. */
  function Lower(s: string): (r: string)
    ensures |r| == |s|
    ensures forall i :: 0 <= i < |s| ==> r[i] == LowerChar(s[i])
  {
    if s == [] then [] else [LowerChar(s[0])] + Lower(s[1..])
  }

  /** Lower-casing twice is lower-casing once. */
  lemma LowerIdempotent(s: string)
    ensures Lower(Lower(s)) == Lower(s)
  {
  }

  /** `String.prototype.includes`: `sub` occurs in `s` at some position. */
  predicate Contains(s: string, sub: string)
  {
    sub <= s || (s != [] && Contains(s[1..], sub))
  }

  /** `sub` occurs in `s` starting at index `i`. */
  ghost predicate OccursAt(s: string, sub: string, i: int)
  {
    0 <= i <= |s| - |sub| && s[i..i + |sub|] == sub
  }

  /** `includes` holds exactly when `sub` occurs at some index of `s`. */
  lemma {:induction false} ContainsAt(s: string, sub: string)
    ensures Contains(s, sub) <==> exists i :: OccursAt(s, sub, i)
  {
    if sub <= s {
      assert OccursAt(s, sub, 0);
    }
    if s != [] {
      ContainsAt(s[1..], sub);
      if Contains(s[1..], sub) {
        var i :| OccursAt(s[1..], sub, i);
        assert OccursAt(s, sub, i + 1);
      }
      if exists i :: OccursAt(s, sub, i) {
        var i :| OccursAt(s, sub, i);
        if i > 0 {
          assert OccursAt(s[1..], sub, i - 1);
        }
      }
    } else if exists i :: OccursAt(s, sub, i) {
      var i :| OccursAt(s, sub, i);
      assert sub == [];
    }
  }
}
