/** The string operations of ECMAScript that the client relies on. */
module JsText {

  /** WhiteSpace and LineTerminator code points, section 12.2 and 12.3 of ECMA-262. */
  predicate IsSpace(c: char) {
    var u := c as int;
    || 9 <= u <= 13 || u == 32 || u == 0xA0 || u == 0x1680 || 0x2000 <= u <= 0x200A
    || u == 0x2028 || u == 0x2029 || u == 0x202F || u == 0x205F || u == 0x3000 || u == 0xFEFF
  }

  /** The first position from `i` on that holds no white space. */
  function SkipStart(s: string, i: nat): (k: nat)
    requires i <= |s|
    ensures i <= k <= |s| && (k < |s| ==> !IsSpace(s[k]))
    decreases |s| - i
  {
    if i < |s| && IsSpace(s[i]) then SkipStart(s, i + 1) else i
  }

  /** The end of `s[lo..j]` without its trailing white space. */
  function SkipEnd(s: string, lo: nat, j: nat): (k: nat)
    requires lo <= j <= |s|
    ensures lo <= k <= j && (lo < k ==> !IsSpace(s[k - 1]))
    decreases j
  {
    if lo < j && IsSpace(s[j - 1]) then SkipEnd(s, lo, j - 1) else j
  }

  /** `String.prototype.trim`. */
  function Trim(s: string): string {
    var lo := SkipStart(s, 0);
    s[lo..SkipEnd(s, lo, |s|)]
  }

  lemma {:induction false} SkippedAtStart(s: string, i: nat)
    requires i <= |s|
    ensures forall x | i <= x < SkipStart(s, i) :: IsSpace(s[x])
    decreases |s| - i
  {
    if i < |s| && IsSpace(s[i]) {
      SkippedAtStart(s, i + 1);
    }
  }

  lemma {:induction false} SkippedAtEnd(s: string, lo: nat, j: nat)
    requires lo <= j <= |s|
    ensures forall x | SkipEnd(s, lo, j) <= x < j :: IsSpace(s[x])
    decreases j
  {
    if lo < j && IsSpace(s[j - 1]) {
      SkippedAtEnd(s, lo, j - 1);
    }
  }

  /** A trimmed text has no white space at either end. */
  lemma TrimEdges(s: string)
    ensures var r := Trim(s); r == "" || (!IsSpace(r[0]) && !IsSpace(r[|r| - 1]))
  {
  }

  /** `part` occurs in `s` as a contiguous piece. */
  ghost predicate Infix(part: string, s: string) {
    exists before, after :: s == before + part + after
  }

  lemma InfixTransitive(a: string, b: string, c: string)
    requires Infix(a, b) && Infix(b, c)
    ensures Infix(a, c)
  {
    var p, q :| b == p + a + q;
    var p', q' :| c == p' + b + q';
    assert c == (p' + p) + a + (q + q');
  }

  lemma TrimFixed(s: string)
    requires s == "" || (!IsSpace(s[0]) && !IsSpace(s[|s| - 1]))
    ensures Trim(s) == s
  {
  }

  /** `part` starts at index `i` of `s`. */
  predicate OccursAt(part: string, s: string, i: int) {
    0 <= i <= |s| - |part| && s[i..i + |part|] == part
  }

  /** `String.prototype.includes`. */
  predicate Includes(s: string, part: string) {
    exists i | 0 <= i <= |s| :: OccursAt(part, s, i)
  }

  lemma IncludesIsInfix(s: string, part: string)
    ensures Includes(s, part) <==> Infix(part, s)
  {
    if Includes(s, part) {
      var i :| 0 <= i <= |s| && OccursAt(part, s, i);
      assert s == s[..i] + part + s[i + |part|..];
    }
    if Infix(part, s) {
      var p, q :| s == p + part + q;
      assert OccursAt(part, s, |p|);
    }
  }
}
