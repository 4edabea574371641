/** The two JavaScript string methods the search filters use:
    `toLowerCase` (restricted to ASCII letters) and `includes`. */
module Strings {

  predicate IsUpper(c: char) { 'A' <= c <= 'Z' }

  /** Lower-cases an ASCII capital and leaves every other character alone. */
  function LowerChar(c: char): (r: char)
    ensures IsUpper(c) ==> r as int == c as int + 32
    ensures !IsUpper(c) ==> r == c
    ensures !IsUpper(r)
  {
    if IsUpper(c) then (c as int + 32) as char else c
  }

  /** `s.toLowerCase()` over ASCII. */
  function ToLower(s: string): (r: string)
    ensures |r| == |s|
    ensures forall i :: 0 <= i < |s| ==> r[i] == LowerChar(s[i])
    ensures forall i :: 0 <= i < |r| ==> !IsUpper(r[i])
  {
    seq(|s|, i requires 0 <= i < |s| => LowerChar(s[i]))
  }

  /** `s.includes(t)`: `t` is a prefix of some suffix of `s`. */
  predicate Includes(s: string, t: string)
    decreases |s|
  {
    t <= s || (|s| > 0 && Includes(s[1..], t))
  }

  /** `t` occurs in `s` starting at offset `i`. */
  predicate OccursAt(s: string, t: string, i: int)
  {
    0 <= i <= |s| - |t| && s[i..i + |t|] == t
  }

  /** Where `Includes` finds the term. */
  lemma {:induction false} IncludesAt(s: string, t: string) returns (i: int)
    requires Includes(s, t)
    ensures OccursAt(s, t, i)
    decreases |s|
  {
    if t <= s {
      assert s[0..|t|] == t;
      i := 0;
    } else {
      var j := IncludesAt(s[1..], t);
      assert s[j + 1..j + 1 + |t|] == s[1..][j..j + |t|];
      i := j + 1;
    }
  }

  /** An occurrence at any offset is found by `Includes`. */
  lemma {:induction false} OccursAtIncludes(s: string, t: string, i: int)
    requires OccursAt(s, t, i)
    ensures Includes(s, t)
    decreases i
  {
    if i == 0 {
      assert t <= s;
    } else {
      assert s[i..i + |t|] == s[1..][i - 1..i - 1 + |t|];
      OccursAtIncludes(s[1..], t, i - 1);
    }
  }

  /** `Includes` agrees with the positional reading: `t` occurs at some offset of `s`. */
  lemma IncludesIff(s: string, t: string)
    ensures Includes(s, t) <==> exists i :: OccursAt(s, t, i)
  {
    if Includes(s, t) {
      var i := IncludesAt(s, t);
    }
    forall i | OccursAt(s, t, i)
      ensures Includes(s, t)
    {
      OccursAtIncludes(s, t, i);
    }
  }

  /** A term longer than the text cannot occur in it. */
  lemma {:induction false} IncludesLonger(s: string, t: string)
    requires |t| > |s|
    ensures !Includes(s, t)
    decreases |s|
  {
    if |s| > 0 {
      IncludesLonger(s[1..], t);
    }
  }

  /** Every string includes the empty string, so an empty search term matches. */
  lemma IncludesEmpty(s: string)
    ensures Includes(s, "")
  {
  }
}
