/** ASCII models of JavaScript's `String.prototype.trim` and `toLowerCase`. */
module Strings {

  /** The ASCII white-space characters that `trim` removes. */
  predicate IsSpace(c: char) {
    c == ' ' || c == '\t' || c == '\n' || c == '\r' || c == 11 as char || c == 12 as char
  }

  /** Every character of `s` is white space (so `s.trim() === ""`). */
  predicate IsBlank(s: string) {
    forall i :: 0 <= i < |s| ==> IsSpace(s[i])
  }

  /** Drops leading white space: the result is the suffix of `s` that starts at the first non-space. */
  function TrimStart(s: string): (r: string)
    ensures |r| <= |s| && r == s[|s| - |r|..]
    ensures r == [] || !IsSpace(r[0])
    ensures forall i :: 0 <= i < |s| - |r| ==> IsSpace(s[i])
  {
    if s != [] && IsSpace(s[0]) then TrimStart(s[1..]) else s
  }

  /** Drops trailing white space: the result is the prefix of `s` that ends at the last non-space. */
  function TrimEnd(s: string): (r: string)
    ensures |r| <= |s| && r == s[..|r|]
    ensures r == [] || !IsSpace(r[|r| - 1])
    ensures forall i :: |r| <= i < |s| ==> IsSpace(s[i])
  {
    if s != [] && IsSpace(s[|s| - 1]) then TrimEnd(s[..|s| - 1]) else s
  }

  /** `s.trim()`. */
  function Trim(s: string): (r: string)
    ensures |r| <= |s|
    ensures r == [] || (!IsSpace(r[0]) && !IsSpace(r[|r| - 1]))
    ensures r == [] <==> IsBlank(s)
  {
    var t := TrimStart(s);
    var r := TrimEnd(t);
    assert r == [] ==> t == [];
    assert IsBlank(s) ==> t == [];
    r
  }

  /** Trimming a string that has no white space at either end leaves it alone. */
  lemma {:induction false} TrimOfTrimmed(s: string)
    requires s == [] || (!IsSpace(s[0]) && !IsSpace(s[|s| - 1]))
    ensures Trim(s) == s
  {
  }

  /** `trim` is idempotent. */
  lemma TrimIdempotent(s: string)
    ensures Trim(Trim(s)) == Trim(s)
  {
    TrimOfTrimmed(Trim(s));
  }

  /** A leading white-space character does not change the trimmed string. */
  lemma TrimDropsLeadingSpace(s: string)
    requires |s| > 0 && IsSpace(s[0])
    ensures Trim(s) == Trim(s[1..])
  {
    assert TrimStart(s) == TrimStart(s[1..]);
  }

  /** Nor does a trailing one after a first character that is not white space. */
  lemma TrimDropsTrailingSpace(s: string)
    requires |s| > 0 && !IsSpace(s[0]) && IsSpace(s[|s| - 1])
    ensures Trim(s) == Trim(s[..|s| - 1])
  {
    var p := s[..|s| - 1];
    assert TrimStart(s) == s;
    assert p == [] || p[0] == s[0];
    assert TrimStart(p) == p;
    assert TrimEnd(s) == TrimEnd(p);
  }

  /** `s.slice(0, n)`. */
  function Take(s: string, n: nat): (r: string)
    ensures |r| == if |s| <= n then |s| else n
    ensures r == s[..|r|]
  {
    if |s| <= n then s else s[..n]
  }

  /** ASCII `toLowerCase` of one character. */
  function LowerChar(c: char): (r: char)
    ensures 'A' <= c <= 'Z' ==> r as int == c as int + 32
    ensures !('A' <= c <= 'Z') ==> r == c
  {
    if 'A' <= c <= 'Z' then (c as int + 32) as char else c
  }

  /** `s.toLowerCase()` over ASCII letters. */
  function ToLower(s: string): (r: string)
    ensures |r| == |s|
    ensures forall i :: 0 <= i < |s| ==> r[i] == LowerChar(s[i])
  {
    seq(|s|, i requires 0 <= i < |s| => LowerChar(s[i]))
  }

  /** Lowering leaves no upper-case ASCII letter. */
  lemma LowerHasNoUpper(s: string)
    ensures forall i :: 0 <= i < |ToLower(s)| ==> !('A' <= ToLower(s)[i] <= 'Z')
  {
  }

  /** Lowering is idempotent. */
  lemma LowerIdempotent(s: string)
    ensures ToLower(ToLower(s)) == ToLower(s)
  {
  }

  /** Lowering neither creates nor removes white space, so it commutes with trimming. */
  lemma {:induction false} LowerCommutesWithTrim(s: string)
    ensures ToLower(Trim(s)) == Trim(ToLower(s))
  {
    LowerCommutesWithTrimStart(s);
    LowerCommutesWithTrimEnd(TrimStart(s));
  }

  /** Lowering a character keeps it white space exactly when it was. */
  lemma LowerKeepsSpace(c: char)
    ensures IsSpace(LowerChar(c)) <==> IsSpace(c)
  {
  }

  lemma {:induction false} LowerCommutesWithTrimStart(s: string)
    ensures ToLower(TrimStart(s)) == TrimStart(ToLower(s))
  {
    if s != [] {
      var l := ToLower(s);
      assert l[0] == LowerChar(s[0]);
      LowerKeepsSpace(s[0]);
      if IsSpace(s[0]) {
        assert l[1..] == ToLower(s[1..]);
        assert TrimStart(l) == TrimStart(l[1..]);
        LowerCommutesWithTrimStart(s[1..]);
      } else {
        assert TrimStart(s) == s;
        assert TrimStart(l) == l;
      }
    }
  }

  lemma {:induction false} LowerCommutesWithTrimEnd(s: string)
    ensures ToLower(TrimEnd(s)) == TrimEnd(ToLower(s))
  {
    if s != [] {
      var l := ToLower(s);
      assert l[|s| - 1] == LowerChar(s[|s| - 1]);
      LowerKeepsSpace(s[|s| - 1]);
      if IsSpace(s[|s| - 1]) {
        assert l[..|s| - 1] == ToLower(s[..|s| - 1]);
        assert TrimEnd(l) == TrimEnd(l[..|s| - 1]);
        LowerCommutesWithTrimEnd(s[..|s| - 1]);
      } else {
        assert TrimEnd(s) == s;
        assert TrimEnd(l) == l;
      }
    }
  }
}
