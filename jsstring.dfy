/**
 * The JavaScript string built-ins that script.js relies on, as functions on
 * `seq<char>`: `startsWith`, `includes`, `toLowerCase` (ASCII letters only)
 * and `trim`.
 */
module JsString {

  /** `s.startsWith(p)`: p is a prefix of s. */
  predicate StartsWith(s: string, p: string)
  {
    |p| <= |s| && s[..|p|] == p
  }

  /** k occurs in s starting at index i. */
  ghost predicate OccursAt(s: string, k: string, i: int)
  {
    0 <= i && i + |k| <= |s| && s[i..i + |k|] == k
  }

  /** `s.includes(k)`: scans s left to right for an occurrence of k. */
  function Includes(s: string, k: string): (b: bool)
    decreases |s|
  {
    if |k| > |s| then false
    else if s[..|k|] == k then true
    else Includes(s[1..], k)
  }

  /** `includes` finds k exactly when k occurs somewhere in s (the empty string occurs everywhere). */
  lemma {:induction false} IncludesIff(s: string, k: string)
    ensures Includes(s, k) <==> exists i :: OccursAt(s, k, i)
    decreases |s|
  {
    if |k| > |s| {
      forall i ensures !OccursAt(s, k, i) { }
    } else if s[..|k|] == k {
      assert OccursAt(s, k, 0);
    } else {
      IncludesIff(s[1..], k);
      if Includes(s[1..], k) {
        var i :| OccursAt(s[1..], k, i);
        assert s[1..][i..i + |k|] == s[i + 1..i + 1 + |k|];
        assert OccursAt(s, k, i + 1);
      } else {
        forall i | OccursAt(s, k, i) ensures false {
          assert i != 0;
          assert s[1..][i - 1..i - 1 + |k|] == s[i..i + |k|];
          assert OccursAt(s[1..], k, i - 1);
        }
      }
    }
  }

  /** A prefix is an occurrence at index 0, so `startsWith` implies `includes`. */
  lemma StartsWithIncludes(s: string, p: string)
    ensures StartsWith(s, p) <==> OccursAt(s, p, 0)
    ensures StartsWith(s, p) ==> Includes(s, p)
  {
    IncludesIff(s, p);
  }

  predicate IsAsciiUpper(c: char) { 'A' <= c <= 'Z' }

  predicate IsAsciiLower(c: char) { 'a' <= c <= 'z' }

  /** `toLowerCase` on one character, restricted to the ASCII letters. */
  function LowerChar(c: char): (d: char)
    ensures !IsAsciiUpper(d)
    ensures IsAsciiUpper(c) ==> IsAsciiLower(d) && d as int == c as int + 32
    ensures !IsAsciiUpper(c) ==> d == c
  {
    if IsAsciiUpper(c) then (c as int + 32) as char else c
  }

  /** `s.toLowerCase()`: the same length, each character lowered on its own. */
  function Lower(s: string): (r: string)
    ensures |r| == |s|
    ensures forall i :: 0 <= i < |s| ==> r[i] == LowerChar(s[i])
  {
    if s == [] then [] else [LowerChar(s[0])] + Lower(s[1..])
  }

  /** An occurrence of k in s is an occurrence of the lowered k in the lowered s. */
  lemma {:induction false} IncludesLower(s: string, k: string)
    requires Includes(s, k)
    ensures Includes(Lower(s), Lower(k))
  {
    IncludesIff(s, k);
    var i :| OccursAt(s, k, i);
    var ls, lk := Lower(s), Lower(k);
    forall n | 0 <= n < |k| ensures ls[i..i + |k|][n] == lk[n] {
      assert s[i + n] == s[i..i + |k|][n] == k[n];
      assert ls[i + n] == LowerChar(s[i + n]);
    }
    assert OccursAt(ls, lk, i);
    IncludesIff(ls, lk);
  }

  /** A keyword with no ASCII letter in it. */
  ghost predicate NoAsciiLetters(k: string)
  {
    forall i :: 0 <= i < |k| ==> !IsAsciiUpper(k[i]) && !IsAsciiLower(k[i])
  }

  /** At one position, lower-casing neither creates nor destroys an occurrence of a keyword without ASCII letters. */
  lemma {:induction false} OccursAtLetterFree(s: string, k: string, i: int)
    requires NoAsciiLetters(k) && 0 <= i && i + |k| <= |s|
    ensures OccursAt(Lower(s), k, i) <==> OccursAt(s, k, i)
  {
    var ls := Lower(s);
    var lw, w := ls[i..i + |k|], s[i..i + |k|];
    forall n | 0 <= n < |k| ensures lw[n] == LowerChar(w[n]) {
      assert lw[n] == ls[i + n] && w[n] == s[i + n];
    }
    if lw == k {
      forall n | 0 <= n < |k| ensures w[n] == k[n] {
        assert LowerChar(w[n]) == k[n];
      }
    }
    if w == k {
      forall n | 0 <= n < |k| ensures lw[n] == k[n] {
        assert LowerChar(w[n]) == k[n];
      }
    }
  }

  /** Lower-casing neither creates nor destroys an occurrence of a keyword without ASCII letters. */
  lemma {:induction false} IncludesLetterFree(s: string, k: string)
    requires NoAsciiLetters(k)
    ensures Includes(Lower(s), k) <==> Includes(s, k)
  {
    IncludesIff(s, k);
    IncludesIff(Lower(s), k);
    forall i | OccursAt(s, k, i) ensures OccursAt(Lower(s), k, i) {
      OccursAtLetterFree(s, k, i);
    }
    forall i | OccursAt(Lower(s), k, i) ensures OccursAt(s, k, i) {
      OccursAtLetterFree(s, k, i);
    }
  }

  /**
   * The characters `String.prototype.trim` removes: the ECMAScript
   * WhiteSpace characters (TAB, VT, FF, ZWNBSP and every Unicode space
   * separator) and the LineTerminator characters.
   */
  predicate IsJsSpace(c: char)
  {
    c == '\U{0009}' || c == '\U{000B}' || c == '\U{000C}' || c == '\U{FEFF}'
    || c == '\U{0020}' || c == '\U{00A0}' || c == '\U{1680}'
    || ('\U{2000}' <= c <= '\U{200A}') || c == '\U{202F}' || c == '\U{205F}' || c == '\U{3000}'
    || c == '\U{000A}' || c == '\U{000D}' || c == '\U{2028}' || c == '\U{2029}'
  }

  /** Number of whitespace characters at the start of s. */
  function LeadingSpaces(s: string): (n: nat)
    ensures n <= |s|
    ensures forall i :: 0 <= i < n ==> IsJsSpace(s[i])
    ensures n < |s| ==> !IsJsSpace(s[n])
  {
    if s != [] && IsJsSpace(s[0]) then 1 + LeadingSpaces(s[1..]) else 0
  }

  /** Number of whitespace characters at the end of s. */
  function TrailingSpaces(s: string): (n: nat)
    ensures n <= |s|
    ensures forall i :: |s| - n <= i < |s| ==> IsJsSpace(s[i])
    ensures n < |s| ==> !IsJsSpace(s[|s| - 1 - n])
  {
    if s != [] && IsJsSpace(s[|s| - 1]) then 1 + TrailingSpaces(s[..|s| - 1]) else 0
  }

  /**
   * `s.trim()`: the longest infix of s that neither starts nor ends with
   * whitespace; every character outside it is whitespace.
   */
  function Trim(s: string): (r: string)
    ensures |r| <= |s|
    ensures LeadingSpaces(s) + |r| <= |s| && r == s[LeadingSpaces(s)..LeadingSpaces(s) + |r|]
    ensures forall i :: 0 <= i < |s| && !(LeadingSpaces(s) <= i < LeadingSpaces(s) + |r|) ==> IsJsSpace(s[i])
    ensures r != [] ==> !IsJsSpace(r[0]) && !IsJsSpace(r[|r| - 1])
    ensures r == [] <==> forall i :: 0 <= i < |s| ==> IsJsSpace(s[i])
  {
    var lead := LeadingSpaces(s);
    var rest := s[lead..];
    rest[..|rest| - TrailingSpaces(rest)]
  }
}
