/**
 * The JavaScript string operations the components rely on: `String.prototype.trim`
 * and the UTF-16 code units that `charCodeAt` reads.
 *
 * A Dafny `char` is a Unicode scalar value, while a JavaScript string is a sequence
 * of UTF-16 code units. Every whitespace character `trim` removes lies in the Basic
 * Multilingual Plane and is no surrogate, so trimming scalar values and trimming
 * code units agree; `Utf16` gives the code units when they are needed.
 */
module JsString {

  /** The characters `trim` removes: ECMAScript WhiteSpace (tab, vertical tab, form feed,
      space, no-break space, byte order mark and every Zs character) and LineTerminator. */
  predicate IsJsWhitespace(c: char) {
    var n := c as int;
    n == 0x09 || n == 0x0A || n == 0x0B || n == 0x0C || n == 0x0D || n == 0x20 ||
    n == 0xA0 || n == 0x1680 || (0x2000 <= n <= 0x200A) || n == 0x2028 || n == 0x2029 ||
    n == 0x202F || n == 0x205F || n == 0x3000 || n == 0xFEFF
  }

  predicate AllWhitespace(s: string) {
    forall i :: 0 <= i < |s| ==> IsJsWhitespace(s[i])
  }

  /** Drops the leading whitespace. */
  function TrimStart(s: string): string {
    if s != [] && IsJsWhitespace(s[0]) then TrimStart(s[1..]) else s
  }

  /** Drops the trailing whitespace. */
  function TrimEnd(s: string): string {
    if s != [] && IsJsWhitespace(s[|s| - 1]) then TrimEnd(s[..|s| - 1]) else s
  }

  /** `s.trim()`. */
  function Trim(s: string): string {
    TrimEnd(TrimStart(s))
  }

  /** What `TrimStart` leaves is a suffix of `s` that does not start with whitespace, and
      only whitespace was dropped. */
  lemma {:induction false} TrimStartFacts(s: string)
    ensures var r := TrimStart(s);
      |r| <= |s| && r == s[|s| - |r|..] && AllWhitespace(s[..|s| - |r|]) &&
      (r != [] ==> !IsJsWhitespace(r[0])) && (r == [] <==> AllWhitespace(s))
  {
    if s != [] && IsJsWhitespace(s[0]) {
      TrimStartFacts(s[1..]);
      var r := TrimStart(s[1..]);
      assert s[..|s| - |r|] == [s[0]] + s[1..][..|s[1..]| - |r|];
      assert AllWhitespace(s[1..]) ==> AllWhitespace(s) by {
        if AllWhitespace(s[1..]) {
          forall i | 0 <= i < |s| ensures IsJsWhitespace(s[i]) {
            if i > 0 { assert s[i] == s[1..][i - 1]; }
          }
        }
      }
    }
  }

  /** What `TrimEnd` leaves is a prefix of `s` that does not end with whitespace, and only
      whitespace was dropped. */
  lemma {:induction false} TrimEndFacts(s: string)
    ensures var r := TrimEnd(s);
      |r| <= |s| && r == s[..|r|] && AllWhitespace(s[|r|..]) &&
      (r != [] ==> !IsJsWhitespace(r[|r| - 1])) && (r == [] <==> AllWhitespace(s))
  {
    if s != [] && IsJsWhitespace(s[|s| - 1]) {
      var p := s[..|s| - 1];
      TrimEndFacts(p);
      var r := TrimEnd(p);
      assert s[|r|..] == p[|r|..] + [s[|s| - 1]];
      assert AllWhitespace(p) ==> AllWhitespace(s) by {
        if AllWhitespace(p) {
          forall i | 0 <= i < |s| ensures IsJsWhitespace(s[i]) {
            if i < |s| - 1 { assert s[i] == p[i]; }
          }
        }
      }
    }
  }

  /** `trim` leaves nothing exactly when `s` is all whitespace, and what it leaves neither
      starts nor ends with whitespace. */
  lemma TrimFacts(s: string)
    ensures var r := Trim(s);
      (r == [] <==> AllWhitespace(s)) &&
      (r != [] ==> !IsJsWhitespace(r[0]) && !IsJsWhitespace(r[|r| - 1]))
  {
    TrimStartFacts(s);
    var t := TrimStart(s);
    TrimEndFacts(t);
    var r := TrimEnd(t);
    assert r != [] ==> r[0] == t[0];
  }

  /** `trim` cuts whitespace, and only whitespace, off both ends of `s`. */
  lemma TrimParts(s: string) returns (lead: string, trail: string)
    ensures s == lead + Trim(s) + trail
    ensures AllWhitespace(lead) && AllWhitespace(trail)
  {
    TrimStartFacts(s);
    var t := TrimStart(s);
    TrimEndFacts(t);
    var r := TrimEnd(t);
    lead := s[..|s| - |t|];
    trail := t[|r|..];
    assert t == t[..|r|] + t[|r|..];
    assert s == s[..|s| - |t|] + s[|s| - |t|..];
  }

  /** Trimming twice is trimming once. */
  lemma TrimIdempotent(s: string)
    ensures Trim(Trim(s)) == Trim(s)
  {
    TrimFacts(s);
  }

  /** A UTF-16 code unit, as `charCodeAt` returns it. */
  type CodeUnit = n: int | 0 <= n < 0x1_0000

  /** The UTF-16 code units of one scalar value: itself below 0x10000, else a surrogate pair. */
  function CodeUnitsOf(c: char): (u: seq<CodeUnit>)
    ensures 1 <= |u| <= 2
    ensures |u| == 1 <==> (c as int) < 0x1_0000
    ensures |u| == 1 ==> u[0] == c as int
    ensures |u| == 2 ==>
              0xD800 <= u[0] < 0xDC00 <= u[1] < 0xE000 &&
              (u[0] as int - 0xD800) * 0x400 + (u[1] as int - 0xDC00) + 0x1_0000 == c as int
  {
    var n := c as int;
    if n < 0x1_0000 then [n]
    else [0xD800 + (n - 0x1_0000) / 0x400, 0xDC00 + (n - 0x1_0000) % 0x400]
  }

  /** How many characters of `s` lie above the Basic Multilingual Plane. */
  function AstralCount(s: string): nat {
    if s == [] then 0 else (if (s[0] as int) < 0x1_0000 then 0 else 1) + AstralCount(s[1..])
  }

  /** The code units `charCodeAt(0) .. charCodeAt(length - 1)` of a string: `length` is
      one unit per character plus one more per character above U+FFFF. */
  function Utf16(s: string): (u: seq<CodeUnit>)
    ensures |u| == |s| + AstralCount(s)
  {
    if s == [] then [] else CodeUnitsOf(s[0]) + Utf16(s[1..])
  }

  /** A string of Basic Multilingual Plane characters has one code unit per character,
      each its own code point. */
  lemma {:induction false} Utf16OfBmp(s: string)
    requires forall i :: 0 <= i < |s| ==> (s[i] as int) < 0x1_0000
    ensures |Utf16(s)| == |s|
    ensures forall i :: 0 <= i < |s| ==> Utf16(s)[i] == s[i] as int
  {
    if s != [] {
      Utf16OfBmp(s[1..]);
      assert CodeUnitsOf(s[0]) == [s[0] as int];
      forall i | 1 <= i < |s| ensures Utf16(s)[i] == s[i] as int {
        assert s[1..][i - 1] == s[i];
      }
    }
  }
}
