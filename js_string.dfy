/**
 * The JavaScript string primitives the validation schemas rely on:
 * String.prototype.trim, String.prototype.toLowerCase and the decimal
 * rendering of a number inside a template literal.
 */
module JsString {

  /** The characters `trim` removes: ECMAScript WhiteSpace and LineTerminator. */
  const SpaceChars: set<char> :=
    {'\t', '\n', '\U{000B}', '\U{000C}', '\r', ' ', '\U{00A0}', '\U{1680}',
     '\U{2000}', '\U{2001}', '\U{2002}', '\U{2003}', '\U{2004}', '\U{2005}', '\U{2006}',
     '\U{2007}', '\U{2008}', '\U{2009}', '\U{200A}', '\U{2028}', '\U{2029}', '\U{202F}',
     '\U{205F}', '\U{3000}', '\U{FEFF}'}

  predicate IsSpace(c: char) {
    c in SpaceChars
  }

  /** Neither the first nor the last character of `s` is white space. */
  predicate NoEdgeSpace(s: string) {
    |s| == 0 || (!IsSpace(s[0]) && !IsSpace(s[|s| - 1]))
  }

  /** `s` holds no ASCII upper-case letter. */
  predicate NoUpper(s: string) {
    forall i :: 0 <= i < |s| ==> !('A' <= s[i] <= 'Z')
  }

  /** Drops the longest all-white-space prefix. */
  function TrimStart(s: string): (r: string)
    ensures |r| <= |s| && r == s[|s| - |r|..]
    ensures r == [] || !IsSpace(r[0])
  {
    if |s| > 0 && IsSpace(s[0]) then TrimStart(s[1..]) else s
  }

  /** Drops the longest all-white-space suffix. */
  function TrimEnd(s: string): (r: string)
    ensures |r| <= |s| && r == s[..|r|]
    ensures r == [] || !IsSpace(r[|r| - 1])
  {
    if |s| > 0 && IsSpace(s[|s| - 1]) then TrimEnd(s[..|s| - 1]) else s
  }

  /** Everything `TrimStart` drops is white space. */
  lemma {:induction false} TrimStartDropsSpace(s: string)
    ensures forall i :: 0 <= i < |s| - |TrimStart(s)| ==> IsSpace(s[i])
  {
    if |s| > 0 && IsSpace(s[0]) {
      TrimStartDropsSpace(s[1..]);
      forall i | 0 <= i < |s| - |TrimStart(s)| ensures IsSpace(s[i]) {
        if i > 0 { assert s[i] == s[1..][i - 1]; }
      }
    }
  }

  /** Everything `TrimEnd` drops is white space. */
  lemma {:induction false} TrimEndDropsSpace(s: string)
    ensures forall i :: |TrimEnd(s)| <= i < |s| ==> IsSpace(s[i])
  {
    if |s| > 0 && IsSpace(s[|s| - 1]) {
      TrimEndDropsSpace(s[..|s| - 1]);
      forall i | |TrimEnd(s)| <= i < |s| ensures IsSpace(s[i]) {
        if i < |s| - 1 { assert s[i] == s[..|s| - 1][i]; }
      }
    }
  }

  /** Number of white-space characters `Trim` removes from the front of `s`. */
  function Lead(s: string): nat {
    |s| - |TrimStart(s)|
  }

  /** String.prototype.trim: white space removed at both ends. */
  function Trim(s: string): (r: string)
    ensures NoEdgeSpace(r) && |r| <= |s|
  {
    TrimEnd(TrimStart(s))
  }

  /**
   * What `Trim` keeps is one slice of its input, starting after the leading
   * white space, and everything it drops is white space.
   */
  lemma TrimIsSlice(s: string)
    ensures Lead(s) + |Trim(s)| <= |s| && Trim(s) == s[Lead(s)..Lead(s) + |Trim(s)|]
    ensures forall i :: 0 <= i < |Trim(s)| ==> Trim(s)[i] == s[Lead(s) + i]
    ensures forall i :: 0 <= i < |s| && !(Lead(s) <= i < Lead(s) + |Trim(s)|) ==> IsSpace(s[i])
  {
    var t := TrimStart(s);
    TrimStartDropsSpace(s);
    TrimEndDropsSpace(t);
    forall i | Lead(s) + |Trim(s)| <= i < |s| ensures IsSpace(s[i]) {
      assert s[i] == t[i - Lead(s)];
    }
  }

  /** A string that has no white space at its ends is left as it is by `Trim`. */
  lemma TrimFixesTrimmed(s: string)
    requires NoEdgeSpace(s)
    ensures Trim(s) == s
  {
  }

  /** A string made only of white space trims to the empty string. */
  lemma {:induction false} AllSpaceTrimsToEmpty(s: string)
    requires forall i :: 0 <= i < |s| ==> IsSpace(s[i])
    ensures TrimStart(s) == [] && Trim(s) == []
  {
    if s != [] {
      assert forall i :: 0 <= i < |s[1..]| ==> s[1..][i] == s[i + 1];
      AllSpaceTrimsToEmpty(s[1..]);
    }
  }

  /** Trimming twice is trimming once. */
  lemma TrimIdempotent(s: string)
    ensures Trim(Trim(s)) == Trim(s)
  {
    TrimFixesTrimmed(Trim(s));
  }

  /** toLowerCase on one character; only the ASCII letters are mapped. */
  function LowerChar(c: char): char {
    if 'A' <= c <= 'Z' then (c as int + 32) as char else c
  }

  /** String.prototype.toLowerCase, restricted to ASCII letters. */
  function ToLower(s: string): (r: string)
    ensures |r| == |s|
  {
    if s == [] then [] else [LowerChar(s[0])] + ToLower(s[1..])
  }

  /** `ToLower` maps each character on its own. */
  lemma {:induction false} ToLowerAt(s: string)
    ensures forall i :: 0 <= i < |s| ==> ToLower(s)[i] == LowerChar(s[i])
  {
    if s != [] {
      ToLowerAt(s[1..]);
      forall i | 0 < i < |s| ensures ToLower(s)[i] == LowerChar(s[i]) {
        assert s[i] == s[1..][i - 1];
      }
    }
  }

  /** Lower-casing leaves no upper-case letter, and a second lower-casing changes nothing. */
  lemma ToLowerNormalises(s: string)
    ensures NoUpper(ToLower(s))
    ensures ToLower(ToLower(s)) == ToLower(s)
  {
    ToLowerAt(s);
    ToLowerAt(ToLower(s));
  }

  /** Trimming a string without upper-case letters leaves none. */
  lemma NoUpperTrim(s: string)
    requires NoUpper(s)
    ensures NoUpper(Trim(s))
  {
    TrimIsSlice(s);
    forall i | 0 <= i < |Trim(s)| ensures !('A' <= Trim(s)[i] <= 'Z') {
      assert Trim(s)[i] == s[Lead(s) + i];
    }
  }

  /** Lower-casing then trimming leaves no upper-case letter and no white space at either end. */
  lemma LowerTrimNormalises(s: string)
    ensures NoEdgeSpace(Trim(ToLower(s))) && NoUpper(Trim(ToLower(s)))
    ensures |Trim(ToLower(s))| <= |s|
  {
    ToLowerNormalises(s);
    NoUpperTrim(ToLower(s));
  }

  /** Decimal rendering of a natural number, as a template literal prints it. */
  function Decimal(n: nat): (r: string)
    ensures |r| > 0
    ensures forall i :: 0 <= i < |r| ==> '0' <= r[i] <= '9'
  {
    var d := ['0' + (n % 10) as char];
    if n < 10 then d else Decimal(n / 10) + d
  }
}
