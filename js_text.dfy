/**
 * The part of ECMAScript's String.prototype.trim that the text selection handler relies on:
 * removing leading and trailing white space (the WhiteSpace and LineTerminator code points of
 * sections 12.2 and 12.3 of the ECMAScript language specification).
 */
module JsText {

  /** A WhiteSpace or LineTerminator code point. */
  predicate IsTrimmable(c: char) {
    var u := c as int;
    u == 0x09 || u == 0x0A || u == 0x0B || u == 0x0C || u == 0x0D   // tab, line feed, VT, FF, CR
    || u == 0x20 || u == 0xA0 || u == 0x1680                        // space separators
    || (0x2000 <= u <= 0x200A) || u == 0x202F || u == 0x205F || u == 0x3000
    || u == 0x2028 || u == 0x2029                                   // line and paragraph separators
    || u == 0xFEFF                                                  // zero-width no-break space
  }

  /** `s` with its leading white space removed. */
  function TrimStart(s: string): (r: string)
    ensures |r| <= |s| && r == s[|s| - |r|..]
    ensures r == [] || !IsTrimmable(r[0])
    ensures forall i :: 0 <= i < |s| - |r| ==> IsTrimmable(s[i])
  {
    if s != [] && IsTrimmable(s[0]) then TrimStart(s[1..]) else s
  }

  /** `s` with its trailing white space removed. */
  function TrimEnd(s: string): (r: string)
    ensures |r| <= |s| && r == s[..|r|]
    ensures r == [] || !IsTrimmable(r[|r| - 1])
    ensures forall i :: |r| <= i < |s| ==> IsTrimmable(s[i])
  {
    if s != [] && IsTrimmable(s[|s| - 1]) then TrimEnd(s[..|s| - 1]) else s
  }

  /** `s.trim()` */
  function Trim(s: string): (r: string)
    ensures r == [] || (!IsTrimmable(r[0]) && !IsTrimmable(r[|r| - 1]))
  {
    TrimEnd(TrimStart(s))
  }

  /**
   * The trimmed string is the window `s[lo..lo + |Trim(s)|]` of `s`, and everything outside
   * that window is white space.
   */
  lemma TrimWindow(s: string) returns (lo: nat)
    ensures lo + |Trim(s)| <= |s| && Trim(s) == s[lo..lo + |Trim(s)|]
    ensures forall i :: 0 <= i < lo ==> IsTrimmable(s[i])
    ensures forall i :: lo + |Trim(s)| <= i < |s| ==> IsTrimmable(s[i])
  {
    var t := TrimStart(s);
    lo := |s| - |t|;
    var r := TrimEnd(t);
    assert Trim(s) == r;
    PrefixOfSuffix(s, lo, t, r);
  }

  /**
   * A prefix `r` of the suffix `t == s[lo..]` is the window of `s` starting at `lo`, and white
   * space after `r` in `t` is white space after that window in `s`.
   */
  lemma PrefixOfSuffix(s: string, lo: nat, t: string, r: string)
    requires lo <= |s| && t == s[lo..] && |r| <= |t| && r == t[..|r|]
    requires forall i :: |r| <= i < |t| ==> IsTrimmable(t[i])
    ensures lo + |r| <= |s| && r == s[lo..lo + |r|]
    ensures forall i :: lo + |r| <= i < |s| ==> IsTrimmable(s[i])
  {
    forall i | lo + |r| <= i < |s| ensures IsTrimmable(s[i]) {
      assert s[i] == t[i - lo];
    }
  }

  /** The trimmed selection is empty exactly when the selection is all white space. */
  lemma TrimEmptyIff(s: string)
    ensures Trim(s) == [] <==> forall i :: 0 <= i < |s| ==> IsTrimmable(s[i])
  {
    var lo := TrimWindow(s);
  }

  /** A string without white space at either end is its own trim. */
  lemma TrimClean(s: string)
    requires s == [] || (!IsTrimmable(s[0]) && !IsTrimmable(s[|s| - 1]))
    ensures Trim(s) == s
  {
    assert TrimStart(s) == s;
  }

  /** Trimming twice is trimming once. */
  lemma TrimIdempotent(s: string)
    ensures Trim(Trim(s)) == Trim(s)
  {
    TrimClean(Trim(s));
  }
}
