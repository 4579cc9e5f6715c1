/**
 * JavaScript's String.prototype.trim, which the card extraction applies to
 * every innerText it reads (src/scrapers/indeed_scraper.py, lines 87-98).
 * It removes leading and trailing code points of the ECMAScript WhiteSpace
 * and LineTerminator productions (ECMA-262, sections 12.2 and 12.3).
 */
module JsTrim {

  /**
   * WhiteSpace (TAB, VT, FF, SP, NBSP, ZWNBSP and the Zs category) or
   * LineTerminator (LF, CR, LS, PS); in particular SP, TAB, LF and CR are
   * trimmable and no visible ASCII character is.
   */
  predicate IsTrimmable(c: char)
    ensures c == ' ' || c == '\t' || c == '\n' || c == '\r' ==> IsTrimmable(c)
    ensures 0x21 <= c as int <= 0x7E ==> !IsTrimmable(c)
  {
    var n := c as int;
    n == 0x09 || n == 0x0A || n == 0x0B || n == 0x0C || n == 0x0D || n == 0x20
    || n == 0xA0 || n == 0x1680 || (0x2000 <= n <= 0x200A)
    || n == 0x2028 || n == 0x2029 || n == 0x202F || n == 0x205F
    || n == 0x3000 || n == 0xFEFF
  }

  /** s without its leading trimmable characters. */
  function TrimStart(s: string): (r: string)
    ensures |r| <= |s| && r == s[|s| - |r|..]
    ensures forall k :: 0 <= k < |s| - |r| ==> IsTrimmable(s[k])
    ensures r != [] ==> !IsTrimmable(r[0])
    decreases |s|
  {
    if s != [] && IsTrimmable(s[0]) then TrimStart(s[1..]) else s
  }

  /** s without its trailing trimmable characters. */
  function TrimEnd(s: string): (r: string)
    ensures |r| <= |s| && r == s[..|r|]
    ensures forall k :: |r| <= k < |s| ==> IsTrimmable(s[k])
    ensures r != [] ==> !IsTrimmable(r[|r| - 1])
    decreases |s|
  {
    if s != [] && IsTrimmable(s[|s| - 1]) then TrimEnd(s[..|s| - 1]) else s
  }

  /**
   * s.trim(): the slice of s that starts at its first and ends at its last
   * non-trimmable character; everything cut off on either side is trimmable.
   */
  function Trim(s: string): (r: string)
    ensures |r| <= |TrimStart(s)| <= |s|
    ensures var i := |s| - |TrimStart(s)|;
      r == s[i..i + |r|]
      && (forall k :: 0 <= k < i ==> IsTrimmable(s[k]))
      && (forall k :: i + |r| <= k < |s| ==> IsTrimmable(s[k]))
    ensures r != [] ==> !IsTrimmable(r[0]) && !IsTrimmable(r[|r| - 1])
  {
    TrimEnd(TrimStart(s))
  }

  /** trim() yields the empty string exactly when every character is trimmable. */
  lemma TrimEmptyIff(s: string)
    ensures Trim(s) == [] <==> forall k :: 0 <= k < |s| ==> IsTrimmable(s[k])
  {
    if Trim(s) == [] {
      var t := TrimStart(s);
      assert t == [];
    }
  }

  /** Trimming twice is trimming once. */
  lemma TrimIdempotent(s: string)
    ensures Trim(Trim(s)) == Trim(s)
  {
    var r := Trim(s);
    if r != [] {
      assert TrimStart(r) == r;
      assert TrimEnd(r) == r;
    }
  }
}
