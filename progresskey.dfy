/**
 * The storage key the screen derives from the passcode:
 * `loveos_progress_v1_<h>`, where `h` folds `h := (h * 31 + unit) >>> 0` over the
 * UTF-16 code units of the trimmed passcode.
 */
module ProgressKey {
  import opened JsString

  const Modulus: nat := 0x1_0000_0000
  const KeyPrefix: string := "loveos_progress_v1_"

  /** The rolling hash of a code-unit sequence, folded from the left. `h * 31 + unit` stays
      far below 2^53, so the double the source computes is exact and `>>> 0` reduces it
      modulo 2^32. */
  function Hash(units: seq<CodeUnit>): (h: nat)
    ensures h < Modulus
  {
    if units == [] then 0
    else (Hash(units[..|units| - 1]) * 31 + units[|units| - 1]) % Modulus
  }

  function DigitChar(d: nat): (c: char)
    requires d < 10
    ensures '0' <= c <= '9'
  {
    "0123456789"[d]
  }

  /** `${n}` for a non-negative integer: its decimal digits, without leading zeros. */
  function Decimal(n: nat): (s: string)
    ensures |s| >= 1
    ensures forall i :: 0 <= i < |s| ==> '0' <= s[i] <= '9'
    ensures s[0] == '0' ==> n == 0 && s == "0"
  {
    if n < 10 then [DigitChar(n)] else Decimal(n / 10) + [DigitChar(n % 10)]
  }

  /** Reads a string of decimal digits back as a number. */
  function DecimalValue(s: string): nat
    requires forall i :: 0 <= i < |s| ==> '0' <= s[i] <= '9'
  {
    if s == [] then 0
    else DecimalValue(s[..|s| - 1]) * 10 + ((s[|s| - 1] as int) - ('0' as int))
  }

  lemma {:induction false} DecimalRoundTrip(n: nat)
    ensures DecimalValue(Decimal(n)) == n
  {
    if n >= 10 {
      var s := Decimal(n);
      assert s[..|s| - 1] == Decimal(n / 10);
      DecimalRoundTrip(n / 10);
    }
  }

  /** Different numbers are written differently. */
  lemma DecimalInjective(a: nat, b: nat)
    ensures Decimal(a) == Decimal(b) <==> a == b
  {
    if Decimal(a) == Decimal(b) {
      DecimalRoundTrip(a);
      DecimalRoundTrip(b);
    }
  }

  /** The hash the key is built from. */
  function PasscodeHash(passcode: string): (h: nat)
    ensures h < Modulus
  {
    Hash(Utf16(Trim(passcode)))
  }

  /** The key `makeProgressKey(passcode)` returns. */
  function KeyOf(passcode: string): (key: string)
    ensures |key| > |KeyPrefix| && key[..|KeyPrefix|] == KeyPrefix
  {
    KeyPrefix + Decimal(PasscodeHash(passcode))
  }

  /** `makeProgressKey`: trims, then runs the rolling hash over the code units in a loop. */
  method MakeProgressKey(passcode: string) returns (key: string)
    ensures key == KeyOf(passcode)
  {
    var base := Utf16(Trim(passcode));
    var h: nat := 0;
    var i := 0;
    while i < |base|
      invariant 0 <= i <= |base|
      invariant h == Hash(base[..i])
    {
      assert base[..i + 1][..i] == base[..i];
      h := (h * 31 + base[i]) % Modulus;
      i := i + 1;
    }
    assert base[..|base|] == base;
    key := KeyPrefix + Decimal(h);
  }

  /** Two passcodes share a key exactly when their hashes collide. */
  lemma KeysDifferIffHashesDiffer(p: string, q: string)
    ensures KeyOf(p) == KeyOf(q) <==> PasscodeHash(p) == PasscodeHash(q)
  {
    DecimalInjective(PasscodeHash(p), PasscodeHash(q));
    if KeyOf(p) == KeyOf(q) {
      assert KeyOf(p)[|KeyPrefix|..] == Decimal(PasscodeHash(p));
      assert KeyOf(q)[|KeyPrefix|..] == Decimal(PasscodeHash(q));
    }
  }

  /** The key depends on the passcode only through its trimmed form. */
  lemma KeyIgnoresSurroundingWhitespace(passcode: string)
    ensures KeyOf(Trim(passcode)) == KeyOf(passcode)
  {
    TrimIdempotent(passcode);
  }

  /** An empty or all-whitespace passcode hashes to 0. */
  lemma BlankPasscodeKey(passcode: string)
    requires AllWhitespace(passcode)
    ensures KeyOf(passcode) == "loveos_progress_v1_0"
  {
    TrimFacts(passcode);
  }

  /** The hash of a single code unit is the unit itself, and the fold is order dependent. */
  lemma HashExamples()
    ensures Hash([0x61]) == 0x61
    ensures Hash([0x61, 0x62]) == 0x61 * 31 + 0x62
    ensures Hash([0x62, 0x61]) != Hash([0x61, 0x62])
  {
    assert [0x61, 0x62][..1] == [0x61];
    assert [0x62, 0x61][..1] == [0x62];
  }
}
