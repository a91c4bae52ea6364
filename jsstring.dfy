/**
 * The JavaScript string built-ins the core relies on: `startsWith`, `slice`,
 * `trim`, `Array.prototype.join` and `parseInt(s, 16)`.
 */
module JsString {
  import opened Types

  function StartsWith(s: string, prefix: string): (r: bool)
    ensures r <==> |prefix| <= |s| && s[..|prefix|] == prefix
  {
    |prefix| <= |s| && s[..|prefix|] == prefix
  }

  /** `s.slice(k)` for a non-negative `k`. */
  function SliceFrom(s: string, k: nat): (r: string)
    ensures k <= |s| ==> r == s[k..]
    ensures k > |s| ==> r == []
  {
    if k <= |s| then s[k..] else []
  }

  /** Putting a prefix in front and slicing it off again gives back the rest. */
  lemma PrefixRoundTrip(p: string, t: string)
    ensures StartsWith(p + t, p) && SliceFrom(p + t, |p|) == t
  {
    assert (p + t)[..|p|] == p;
    assert (p + t)[|p|..] == t;
  }

  /** A string starts with `p` exactly when it is `p` followed by its slice past `p`. */
  lemma StartsWithSplit(s: string, p: string)
    ensures StartsWith(s, p) <==> |p| <= |s| && s == p + SliceFrom(s, |p|)
  {
    if |p| <= |s| {
      assert s == s[..|p|] + s[|p|..];
      if s == p + SliceFrom(s, |p|) {
        assert s[..|p|] == (p + SliceFrom(s, |p|))[..|p|] == p;
      }
    }
  }

  /** The characters `trim` and `parseInt` skip: WhiteSpace and LineTerminator. */
  predicate IsWhiteSpace(c: char) {
    c == '\t' || c == '\n' || c == '\U{B}' || c == '\U{C}' || c == '\r' || c == ' '
    || c == '\U{A0}' || c == '\U{1680}' || ('\U{2000}' <= c <= '\U{200A}')
    || c == '\U{2028}' || c == '\U{2029}' || c == '\U{202F}' || c == '\U{205F}'
    || c == '\U{3000}' || c == '\U{FEFF}'
  }

  /** The number of leading white-space characters. */
  function LeadingSpace(s: string): (k: nat)
    ensures k <= |s|
    ensures forall i :: 0 <= i < k ==> IsWhiteSpace(s[i])
    ensures k < |s| ==> !IsWhiteSpace(s[k])
  {
    if |s| > 0 && IsWhiteSpace(s[0]) then 1 + LeadingSpace(s[1..]) else 0
  }

  /** The number of trailing white-space characters. */
  function TrailingSpace(s: string): (k: nat)
    ensures k <= |s|
    ensures forall i :: |s| - k <= i < |s| ==> IsWhiteSpace(s[i])
    ensures k < |s| ==> !IsWhiteSpace(s[|s| - 1 - k])
  {
    if |s| > 0 && IsWhiteSpace(s[|s| - 1]) then 1 + TrailingSpace(s[..|s| - 1]) else 0
  }

  /** `s.trim()`. */
  function Trim(s: string): (r: string)
    ensures |r| <= |s|
    ensures r == [] <==> forall i :: 0 <= i < |s| ==> IsWhiteSpace(s[i])
    ensures r != [] ==> !IsWhiteSpace(r[0]) && !IsWhiteSpace(r[|r| - 1])
    ensures LeadingSpace(s) + |r| <= |s| && r == s[LeadingSpace(s)..LeadingSpace(s) + |r|]
    ensures forall i :: LeadingSpace(s) + |r| <= i < |s| ==> IsWhiteSpace(s[i])
  {
    var lead := LeadingSpace(s);
    if lead == |s| then
      []
    else
      var rest := s[lead..];
      var trail := TrailingSpace(rest);
      assert trail < |rest| by {
        assert !IsWhiteSpace(rest[0]);
      }
      var r := rest[..|rest| - trail];
      assert r == s[lead..lead + |r|];
      r
  }

  /** Trimming twice is trimming once. */
  lemma TrimIdempotent(s: string)
    ensures Trim(Trim(s)) == Trim(s)
  {
    var t := Trim(s);
    if t != [] {
      assert LeadingSpace(t) == 0;
      assert t[0..] == t;
      assert TrailingSpace(t) == 0;
      assert t[..|t| - 0] == t;
    }
  }

  /** `Array.prototype.join(sep)` over strings (what `String(array)` yields with ","). */
  function Join(parts: seq<string>, sep: string): (r: string)
    ensures parts == [] ==> r == []
    ensures |parts| == 1 ==> r == parts[0]
    ensures |parts| > 1 ==> r == parts[0] + sep + Join(parts[1..], sep)
  {
    if parts == [] then []
    else if |parts| == 1 then parts[0]
    else parts[0] + sep + Join(parts[1..], sep)
  }

  /** A string that starts with `c` joins, with any separator, to one that starts with `c`. */
  lemma JoinStartsWith(parts: seq<string>, sep: string, c: char)
    requires parts != [] && parts[0] != [] && parts[0][0] == c
    ensures |Join(parts, sep)| > 0 && Join(parts, sep)[0] == c
  {
  }

  function HexDigitValue(c: char): (v: int)
    ensures 0 <= v < 16 || v == -1
    ensures v >= 0 <==> ('0' <= c <= '9' || 'a' <= c <= 'f' || 'A' <= c <= 'F')
  {
    if '0' <= c <= '9' then c as int - '0' as int
    else if 'a' <= c <= 'f' then c as int - 'a' as int + 10
    else if 'A' <= c <= 'F' then c as int - 'A' as int + 10
    else -1
  }

  /** The length of the longest prefix made of hexadecimal digits. */
  function HexRun(s: string): (k: nat)
    ensures k <= |s|
    ensures forall i :: 0 <= i < k ==> HexDigitValue(s[i]) >= 0
    ensures k < |s| ==> HexDigitValue(s[k]) < 0
  {
    if |s| > 0 && HexDigitValue(s[0]) >= 0 then 1 + HexRun(s[1..]) else 0
  }

  /** The value of a run of hexadecimal digits, most significant first. */
  function HexValue(digits: string): (v: nat)
    requires forall i :: 0 <= i < |digits| ==> HexDigitValue(digits[i]) >= 0
  {
    if digits == [] then 0
    else 16 * HexValue(digits[..|digits| - 1]) + HexDigitValue(digits[|digits| - 1])
  }

  lemma HexValueBound(digits: string)
    requires forall i :: 0 <= i < |digits| ==> HexDigitValue(digits[i]) >= 0
    ensures HexValue(digits) < Pow16(|digits|)
  {
    if digits != [] {
      HexValueBound(digits[..|digits| - 1]);
    }
  }

  function Pow16(k: nat): (p: nat)
    ensures p >= 1
  {
    if k == 0 then 1 else 16 * Pow16(k - 1)
  }

  /** The optional sign `parseInt` accepts. */
  function StripSign(t: string): (u: string)
    ensures |u| <= |t|
  {
    if |t| > 0 && (t[0] == '-' || t[0] == '+') then t[1..] else t
  }

  /** The optional `0x`/`0X` that `parseInt(s, 16)` accepts. */
  function StripHexPrefix(u: string): (w: string)
    ensures |w| <= |u|
  {
    if |u| >= 2 && u[0] == '0' && (u[1] == 'x' || u[1] == 'X') then u[2..] else u
  }

  /**
   * `parseInt(s, 16)`: skip white space, take an optional sign and an
   * optional `0x`/`0X`, then the longest run of hexadecimal digits.
   * `None` is NaN (no digit at all).
   */
  function ParseHex(s: string): (r: Option<int>)
    ensures HexRun(s) == 0 && (|s| == 0 || (!IsWhiteSpace(s[0]) && s[0] != '-' && s[0] != '+')) ==> r.None?
  {
    var t := s[LeadingSpace(s)..];
    var w := StripHexPrefix(StripSign(t));
    var run := HexRun(w);
    if run == 0 then None
    else
      var v: int := HexValue(w[..run]);
      Some(if |t| > 0 && t[0] == '-' then -v else v)
  }

  /** A string made only of hexadecimal digits parses to its value. */
  lemma ParseHexDigits(s: string)
    requires |s| > 0 && HexRun(s) == |s|
    ensures ParseHex(s) == Some(HexValue(s))
  {
    assert HexDigitValue(s[0]) >= 0 && !IsWhiteSpace(s[0]);
    var k := LeadingSpace(s);
    assert k == 0;
    var t := s[k..];
    assert t == s;
    var u := StripSign(t);
    assert u == s;
    if |s| >= 2 {
      assert HexDigitValue(s[1]) >= 0;
    }
    var w := StripHexPrefix(u);
    assert w == s;
    assert w[..HexRun(w)] == s;
  }

}
