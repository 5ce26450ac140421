/**
  * Small helpers shared by the three page models: an optional value (the
  * `null` of the TypeScript source), JavaScript's `String.prototype.includes`,
  * and the character class `\s` of JavaScript regular expressions.
  */
module Text {

  datatype Option<+T> = None | Some(value: T)

  /** `p` occurs in `s` starting at index `i`. */
  predicate OccursAt(s: string, p: string, i: int) {
    0 <= i && i + |p| <= |s| && forall k :: i <= k < i + |p| ==> s[k] == p[k - i]
  }

  /** `s.includes(p)`: `p` occurs in `s` at some index. */
  predicate Contains(s: string, p: string) {
    exists i :: 0 <= i <= |s| - |p| && OccursAt(s, p, i)
  }

  /** A string that lacks the first character of `p` cannot contain `p`. */
  lemma AbsentHead(s: string, p: string)
    requires |p| > 0 && p[0] !in s
    ensures !Contains(s, p)
  {
    forall i | 0 <= i <= |s| - |p| ensures !OccursAt(s, p, i) {
      assert s[i] in s;
    }
  }

  /** `x + [c] + z` does not contain `p` when only `c` can start `p` and what follows `c` does not continue it. */
  lemma AbsentAround(x: string, c: char, z: string, p: string)
    requires |p| > 1 && c == p[0] && p[0] !in x && |z| > 0 && z[0] != p[1] && p[0] !in z
    ensures !Contains(x + [c] + z, p)
  {
    var s := x + [c] + z;
    forall i | 0 <= i <= |s| - |p| ensures !OccursAt(s, p, i) {
      assert s[i] == p[0] || !OccursAt(s, p, i);
      if i < |x| {
        assert s[i] == x[i] && x[i] in x;
      } else if i == |x| {
        assert s[i + 1] == z[0];
      } else {
        assert s[i] == z[i - |x| - 1] && z[i - |x| - 1] in z;
      }
    }
  }

  /** `x + p + z` contains `p`. */
  lemma PresentAfter(x: string, p: string, z: string)
    ensures Contains(x + p + z, p)
  {
    var s := x + p + z;
    assert forall k :: 0 <= k < |p| ==> s[|x| + k] == p[k];
    assert OccursAt(s, p, |x|);
  }

  /**
    * The characters `\s` matches in a JavaScript regular expression: the
    * WhiteSpace code points of ECMAScript (tab, vertical tab, form feed,
    * zero-width no-break space and every Unicode space separator) and its
    * LineTerminator code points (line feed, carriage return, U+2028, U+2029).
    */
  predicate IsJsWhitespace(c: char) {
    c in {'\t', '\n', '\U{B}', '\U{C}', '\r', ' ', '\U{A0}', '\U{1680}',
          '\U{2028}', '\U{2029}', '\U{202F}', '\U{205F}', '\U{3000}', '\U{FEFF}'}
    || '\U{2000}' <= c <= '\U{200A}'
  }
}
