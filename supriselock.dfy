/**
 * The passcode lock: the visitor types a date, and the lock opens when the digits typed
 * equal the digits of the configured passcode.
 */
module SupriseLock {
  import opened JsString

  predicate IsDigit(c: char) {
    '0' <= c <= '9'
  }

  predicate AllDigits(s: string) {
    forall i :: 0 <= i < |s| ==> IsDigit(s[i])
  }

  /** `s.replace(/\D/g, "")`: the ASCII digits of `s`, in order. Without the `u` flag the
      pattern works on code units, and no surrogate is a digit, so filtering scalar values
      removes the same characters. */
  function DigitsOnly(s: string): (r: string)
    ensures AllDigits(r)
    ensures |r| <= |s|
  {
    if s == [] then []
    else (if IsDigit(s[0]) then [s[0]] else []) + DigitsOnly(s[1..])
  }

  /** Filtering distributes over concatenation, so what is kept stays in input order. */
  lemma {:induction false} DigitsOnlyAppend(a: string, b: string)
    ensures DigitsOnly(a + b) == DigitsOnly(a) + DigitsOnly(b)
  {
    if a == [] {
      assert a + b == b;
    } else {
      assert (a + b)[0] == a[0];
      assert (a + b)[1..] == a[1..] + b;
      DigitsOnlyAppend(a[1..], b);
    }
  }

  /** Every digit is kept, as often as it occurs, and nothing else. */
  lemma {:induction false} DigitsOnlyKeepsDigits(s: string, c: char)
    ensures multiset(DigitsOnly(s))[c] == if IsDigit(c) then multiset(s)[c] else 0
  {
    if s != [] {
      DigitsOnlyKeepsDigits(s[1..], c);
      assert s == [s[0]] + s[1..];
    }
  }

  /** A string of digits passes through unchanged. */
  lemma {:induction false} DigitsOnlyOfDigits(s: string)
    requires AllDigits(s)
    ensures DigitsOnly(s) == s
  {
    if s != [] {
      DigitsOnlyOfDigits(s[1..]);
    }
  }

  lemma DigitsOnlyIdempotent(s: string)
    ensures DigitsOnly(DigitsOnly(s)) == DigitsOnly(s)
  {
    DigitsOnlyOfDigits(DigitsOnly(s));
  }

  lemma {:induction false} DigitsOnlyOfWhitespace(s: string)
    requires AllWhitespace(s)
    ensures DigitsOnly(s) == []
  {
    if s != [] {
      assert IsJsWhitespace(s[0]);
      assert AllWhitespace(s[1..]) by {
        forall i | 0 <= i < |s[1..]| ensures IsJsWhitespace(s[1..][i]) {
          assert s[1..][i] == s[i + 1];
        }
      }
      DigitsOnlyOfWhitespace(s[1..]);
    }
  }

  /** Whitespace is never a digit, so trimming first does not change the digits. */
  lemma DigitsOnlyIgnoresTrim(s: string)
    ensures DigitsOnly(Trim(s)) == DigitsOnly(s)
  {
    var lead, trail := TrimParts(s);
    DigitsOnlyAppend(lead + Trim(s), trail);
    DigitsOnlyAppend(lead, Trim(s));
    DigitsOnlyOfWhitespace(lead);
    DigitsOnlyOfWhitespace(trail);
  }

  /** The match rule of `submitCode`: the trimmed entry's digits are not empty and equal the
      trimmed passcode's digits. */
  function Accepts(passcode: string, code: string): (ok: bool)
    ensures ok <==> DigitsOnly(code) != [] && DigitsOnly(code) == DigitsOnly(passcode)
  {
    var expected := DigitsOnly(Trim(passcode));
    var typed := DigitsOnly(Trim(code));
    DigitsOnlyIgnoresTrim(passcode);
    DigitsOnlyIgnoresTrim(code);
    |typed| > 0 && typed == expected
  }

  /** The passcode the site is configured with. */
  const Passcode: string := "21122025"

  /** The date written with dots opens the configured lock. */
  lemma DottedDateUnlocks()
    ensures Accepts(Passcode, "21.12.2025")
  {
    assert DigitsOnly("21.12.2025") == "21122025";
    DigitsOnlyOfDigits(Passcode);
  }

  /** A passcode without digits opens for nothing. */
  lemma NoDigitsNeverUnlocks(passcode: string, code: string)
    requires DigitsOnly(passcode) == []
    ensures !Accepts(passcode, code)
  {
  }

  const WrongCodeMessage: string := "Nope \U{1F604} probaj opet"

  class SupriseLock {
    const passcode: string
    var unlocked: bool
    var code: string
    var codeError: string

    constructor (passcode: string)
      ensures this.passcode == passcode
      ensures !unlocked && code == "" && codeError == ""
    {
      this.passcode := passcode;
      unlocked := false;
      code := "";
      codeError := "";
    }

    /** The input's `onChange`: the entry becomes what the visitor typed. */
    method Type(text: string)
      modifies this`code
      ensures code == text
    {
      code := text;
    }

    /** `submitCode`: clears the old error, then either opens the lock, empties the entry
        and calls `onUnlocked` once, or keeps the lock as it was and shows the error. */
    method SubmitCode() returns (calledOnUnlocked: bool)
      modifies this`unlocked, this`code, this`codeError
      ensures calledOnUnlocked <==> Accepts(passcode, old(code))
      ensures calledOnUnlocked ==> unlocked && code == "" && codeError == ""
      ensures !calledOnUnlocked ==> unlocked == old(unlocked) && code == old(code) && codeError == WrongCodeMessage
      ensures !calledOnUnlocked ==> codeError != ""
    {
      codeError := "";
      var ok := Accepts(passcode, code);
      if ok {
        unlocked := true;
        code := "";
        calledOnUnlocked := true;
        return;
      }
      codeError := WrongCodeMessage;
      calledOnUnlocked := false;
    }

    /** `resetUnlock`: locks again and clears the entry and the error, without calling
        `onUnlocked`, so the screen's `codeDone` stays as it was. */
    method ResetUnlock()
      modifies this`unlocked, this`code, this`codeError
      ensures !unlocked && code == "" && codeError == ""
    {
      unlocked := false;
      codeError := "";
      code := "";
    }
  }
}
