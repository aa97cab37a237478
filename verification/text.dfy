/** The string operations the components apply to user input and labels. */
module Text {

  /**
   * The characters `String.prototype.trim` removes: the WhiteSpace and
   * LineTerminator code points of ECMA-262 (section 12.2 and 12.3 of ECMAScript 2023).
   */
  predicate IsSpace(c: char) {
    c == '\t' || c == '\n' || c == '\U{000B}' || c == '\U{000C}' || c == '\r' || c == ' '
    || c == '\U{00A0}' || c == '\U{1680}' || ('\U{2000}' <= c <= '\U{200A}')
    || c == '\U{2028}' || c == '\U{2029}' || c == '\U{202F}' || c == '\U{205F}'
    || c == '\U{3000}' || c == '\U{FEFF}'
  }

  /** True when every character of `s` is white space (so `s.trim()` is falsy). */
  predicate IsBlank(s: string) {
    forall k :: 0 <= k < |s| ==> IsSpace(s[k])
  }

  /** `s` without its leading white space: a suffix of `s` that does not start with a space. */
  function TrimStart(s: string): (r: string)
    ensures |r| <= |s| && r == s[|s| - |r|..]
    ensures r == [] || !IsSpace(r[0])
    ensures forall k :: 0 <= k < |s| - |r| ==> IsSpace(s[k])
  {
    if s != [] && IsSpace(s[0]) then TrimStart(s[1..]) else s
  }

  /** `s` without its trailing white space: a prefix of `s` that does not end with a space. */
  function TrimEnd(s: string): (r: string)
    ensures |r| <= |s| && r == s[..|r|]
    ensures r == [] || !IsSpace(r[|r| - 1])
    ensures forall k :: |r| <= k < |s| ==> IsSpace(s[k])
  {
    if s != [] && IsSpace(s[|s| - 1]) then TrimEnd(s[..|s| - 1]) else s
  }

  /** `r` is a stretch of `s` with nothing but white space before and after it. */
  ghost predicate InnerSlice(r: string, s: string) {
    exists i :: 0 <= i <= |s| - |r| && r == s[i..i + |r|] && IsBlank(s[..i]) && IsBlank(s[i + |r|..])
  }

  /** A position with blank text on both sides of `r` is a witness for `InnerSlice`. */
  lemma SliceAt(r: string, s: string, i: nat)
    requires i + |r| <= |s| && r == s[i..i + |r|]
    requires IsBlank(s[..i]) && IsBlank(s[i + |r|..])
    ensures InnerSlice(r, s)
  {
  }

  /** Trimming both ends leaves a slice of `s` with white space on either side. */
  lemma {:induction false} TrimBothIsSlice(s: string)
    ensures InnerSlice(TrimEnd(TrimStart(s)), s)
  {
    var t := TrimStart(s);
    var r := TrimEnd(t);
    var i := |s| - |t|;
    assert s[i..] == t;
    var tail := s[i + |r|..];
    assert tail == t[|r|..];
    assert IsBlank(tail) by {
      forall k | 0 <= k < |tail| ensures IsSpace(tail[k]) {
        assert tail[k] == t[|r| + k];
      }
    }
    var head := s[..i];
    assert IsBlank(head) by {
      forall k | 0 <= k < |head| ensures IsSpace(head[k]) {
        assert head[k] == s[k];
      }
    }
    assert r == t[..|r|];
    assert r == s[i..i + |r|];
    SliceAt(r, s, i);
  }

  /**
   * `s.trim()`: the stretch of `s` left between its leading and its trailing white space. It is
   * empty exactly when `s` is blank, and otherwise starts and ends with a non-space.
   */
  function Trim(s: string): (r: string)
    ensures InnerSlice(r, s)
    ensures r == [] <==> IsBlank(s)
    ensures r != [] ==> !IsSpace(r[0]) && !IsSpace(r[|r| - 1])
  {
    var t := TrimStart(s);
    assert TrimEnd(t) == [] ==> t == [];
    TrimBothIsSlice(s);
    TrimEnd(t)
  }

  /** `toUpperCase` on one character, for the ASCII letters. */
  function Upper(c: char): (r: char)
    ensures 'a' <= c <= 'z' ==> r as int == c as int - 32
    ensures !('a' <= c <= 'z') ==> r == c
  {
    if 'a' <= c <= 'z' then (c as int - 32) as char else c
  }

  /** `s.charAt(0).toUpperCase() + s.slice(1)`: the label shown for a status or a sort key. */
  function Capitalize(s: string): (r: string)
    ensures |r| == |s|
    ensures r != [] ==> r[0] == Upper(s[0]) && r[1..] == s[1..]
  {
    if s == [] then [] else [Upper(s[0])] + s[1..]
  }
}
