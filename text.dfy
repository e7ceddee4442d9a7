/** JavaScript's `String.prototype.trim`, on which both send guards rest. */
module Text {

  /** The ECMAScript WhiteSpace and LineTerminator code points, which `trim` strips. */
  predicate IsJsSpace(c: char) {
    var n := c as int;
    n == 0x09 || n == 0x0A || n == 0x0B || n == 0x0C || n == 0x0D || n == 0x20 ||
    n == 0xA0 || n == 0x1680 || (0x2000 <= n <= 0x200A) || n == 0x2028 || n == 0x2029 ||
    n == 0x202F || n == 0x205F || n == 0x3000 || n == 0xFEFF
  }

  /** Every character of `s` is white space (the empty string included). */
  predicate IsBlank(s: string) {
    forall i :: 0 <= i < |s| ==> IsJsSpace(s[i])
  }

  /** Drops the leading white space of `s`. */
  function TrimStart(s: string): (r: string)
    ensures |r| <= |s| && r == s[|s| - |r|..]
    ensures forall i :: 0 <= i < |s| - |r| ==> IsJsSpace(s[i])
    ensures r == [] || !IsJsSpace(r[0])
  {
    if s != [] && IsJsSpace(s[0]) then TrimStart(s[1..]) else s
  }

  /** Drops the trailing white space of `s`. */
  function TrimEnd(s: string): (r: string)
    ensures |r| <= |s| && r == s[..|r|]
    ensures forall i :: |r| <= i < |s| ==> IsJsSpace(s[i])
    ensures r == [] || !IsJsSpace(r[|r| - 1])
  {
    if s != [] && IsJsSpace(s[|s| - 1]) then TrimEnd(s[..|s| - 1]) else s
  }

  /** What `TrimStart` drops is a blank prefix. */
  lemma DroppedPrefixIsBlank(s: string)
    ensures IsBlank(s[..|s| - |TrimStart(s)|])
  {
    var head := s[..|s| - |TrimStart(s)|];
    forall i | 0 <= i < |head| ensures IsJsSpace(head[i]) {
      assert head[i] == s[i];
    }
  }

  /** What `TrimEnd` drops is a blank suffix. */
  lemma DroppedSuffixIsBlank(t: string)
    ensures IsBlank(t[|TrimEnd(t)|..])
  {
    var tail := t[|TrimEnd(t)|..];
    forall i | 0 <= i < |tail| ensures IsJsSpace(tail[i]) {
      assert tail[i] == t[|TrimEnd(t)| + i];
    }
  }

  /** `s.trim()`: the slice of `s` between its leading and its trailing white space. */
  function Trim(s: string): (r: string)
    ensures |r| <= |s|
    ensures var k := |s| - |TrimStart(s)|;
              && k + |r| <= |s| && r == s[k..k + |r|]
              && IsBlank(s[..k]) && IsBlank(s[k + |r|..])
    ensures r == [] || (!IsJsSpace(r[0]) && !IsJsSpace(r[|r| - 1]))
  {
    var t := TrimStart(s);
    var r := TrimEnd(t);
    var k := |s| - |t|;
    DroppedPrefixIsBlank(s);
    DroppedSuffixIsBlank(t);
    assert s[k + |r|..] == t[|r|..];
    r
  }

  /** `!s.trim()` holds exactly when `s` is blank. */
  lemma TrimEmptyIffBlank(s: string)
    ensures Trim(s) == [] <==> IsBlank(s)
  {
  }
}
