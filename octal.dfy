/**
 * `strconv.ParseUint(s, 8, 32)` as `getMode` uses it: an unsigned base-8
 * number with a ceiling of 2^32 - 1. The digits are read left to right; the
 * first character that is not an octal digit is a syntax error, and the
 * first digit that takes the value so far above the ceiling is a range
 * error, whichever comes first.
 */
module Octal {
  import opened Wrappers

  const MAX_UINT32: nat := 0xFFFF_FFFF

  /** The `Err` of Go's `*strconv.NumError`. */
  datatype NumError = ErrSyntax | ErrRange

  predicate IsOctalDigit(c: char) {
    '0' <= c <= '7'
  }

  function DigitValue(c: char): nat
    requires IsOctalDigit(c)
  {
    c as int - '0' as int
  }

  predicate AllOctal(s: string) {
    forall i :: 0 <= i < |s| ==> IsOctalDigit(s[i])
  }

  /** The positional base-8 value of a string of octal digits. */
  function OctalValue(s: string): nat
    requires AllOctal(s)
  {
    if s == [] then 0 else 8 * OctalValue(s[..|s| - 1]) + DigitValue(s[|s| - 1])
  }

  /** Some run of leading octal digits of `s` already exceeds the ceiling. */
  ghost predicate Overflows(s: string) {
    exists k :: 0 <= k <= |s| && AllOctal(s[..k]) && OctalValue(s[..k]) > MAX_UINT32
  }

  /** What ParseUint promises, stated without the scan. */
  ghost function ParseSpec(s: string): Result<nat, NumError> {
    if s == [] then Failure(ErrSyntax)
    else if Overflows(s) then Failure(ErrRange)
    else if !AllOctal(s) then Failure(ErrSyntax)
    else Success(OctalValue(s))
  }

  /** The digit loop of ParseUint, `n` being the value read so far. */
  function Scan(rest: string, n: nat): Result<nat, NumError>
    requires n <= MAX_UINT32
  {
    if rest == [] then Success(n)
    else if !IsOctalDigit(rest[0]) then Failure(ErrSyntax)
    else if 8 * n + DigitValue(rest[0]) > MAX_UINT32 then Failure(ErrRange)
    else Scan(rest[1..], 8 * n + DigitValue(rest[0]))
  }

  /** strconv.ParseUint(s, 8, 32); the empty string is a syntax error. */
  function ParseUint32(s: string): (r: Result<nat, NumError>)
    ensures r == ParseSpec(s)
  {
    if s == [] then Failure(ErrSyntax)
    else
      ScanMatchesSpec(s, 0);
      Scan(s, 0)
  }

  /** A run of leading digits is worth no more than the whole string. */
  lemma {:induction false} PrefixValue(t: string, k: nat)
    requires AllOctal(t) && k <= |t|
    ensures AllOctal(t[..k]) && OctalValue(t[..k]) <= OctalValue(t)
  {
    if k < |t| {
      var t' := t[..|t| - 1];
      assert t'[..k] == t[..k];
      PrefixValue(t', k);
    } else {
      assert t[..k] == t;
    }
  }

  /** No run of leading digits of `s` that lies within `s[..i]` exceeds the ceiling. */
  lemma NoOverflowWithin(s: string, i: nat)
    requires i <= |s| && AllOctal(s[..i]) && OctalValue(s[..i]) <= MAX_UINT32
    requires forall k :: i < k <= |s| ==> !AllOctal(s[..k])
    ensures !Overflows(s)
  {
    forall k | 0 <= k <= |s| && AllOctal(s[..k])
      ensures OctalValue(s[..k]) <= MAX_UINT32
    {
      assert k <= i;
      assert s[..i][..k] == s[..k];
      PrefixValue(s[..i], k);
    }
  }

  /** Scanning from position `i` with the value of `s[..i]` agrees with ParseSpec. */
  lemma {:induction false} ScanMatchesSpec(s: string, i: nat)
    requires s != [] && i <= |s|
    requires AllOctal(s[..i]) && OctalValue(s[..i]) <= MAX_UINT32
    ensures Scan(s[i..], OctalValue(s[..i])) == ParseSpec(s)
    decreases |s| - i
  {
    var n := OctalValue(s[..i]);
    if i == |s| {
      assert s[..i] == s;
      NoOverflowWithin(s, i);
    } else {
      assert s[i..][0] == s[i];
      if !IsOctalDigit(s[i]) {
        forall k | i < k <= |s| ensures !AllOctal(s[..k]) {
          assert s[..k][i] == s[i];
        }
        NoOverflowWithin(s, i);
      } else {
        assert s[..i + 1][..i] == s[..i];
        assert AllOctal(s[..i + 1]);
        assert OctalValue(s[..i + 1]) == 8 * n + DigitValue(s[i]);
        if 8 * n + DigitValue(s[i]) <= MAX_UINT32 {
          assert s[i..][1..] == s[i + 1..];
          ScanMatchesSpec(s, i + 1);
        }
      }
    }
  }

  /** A leading zero changes neither validity nor value nor overflow. */
  lemma {:induction false} LeadingZeroValue(s: string)
    requires AllOctal(s)
    ensures AllOctal("0" + s) && OctalValue("0" + s) == OctalValue(s)
  {
    if s != [] {
      var s' := s[..|s| - 1];
      assert ("0" + s)[..|s|] == "0" + s';
      LeadingZeroValue(s');
    }
  }

  lemma LeadingZero(s: string)
    ensures AllOctal("0" + s) <==> AllOctal(s)
    ensures AllOctal(s) ==> OctalValue("0" + s) == OctalValue(s)
    ensures Overflows("0" + s) <==> Overflows(s)
  {
    var z := "0" + s;
    assert forall i :: 0 <= i < |s| ==> z[i + 1] == s[i];
    if AllOctal(s) {
      LeadingZeroValue(s);
    }
    if Overflows(z) {
      LeadingZeroOverflowDown(s);
    }
    if Overflows(s) {
      LeadingZeroOverflowUp(s);
    }
  }

  lemma LeadingZeroOverflowDown(s: string)
    requires Overflows("0" + s)
    ensures Overflows(s)
  {
    var z := "0" + s;
    var k :| 0 <= k <= |z| && AllOctal(z[..k]) && OctalValue(z[..k]) > MAX_UINT32;
    assert k > 0;
    assert z[..k] == "0" + s[..k - 1];
    var t := s[..k - 1];
    var zk := z[..k];
    assert AllOctal(t) by {
      forall i | 0 <= i < |t| ensures IsOctalDigit(t[i]) {
        assert zk[i + 1] == t[i];
      }
    }
    LeadingZeroValue(s[..k - 1]);
    assert OctalValue(s[..k - 1]) > MAX_UINT32;
  }

  lemma LeadingZeroOverflowUp(s: string)
    requires Overflows(s)
    ensures Overflows("0" + s)
  {
    var z := "0" + s;
    var k :| 0 <= k <= |s| && AllOctal(s[..k]) && OctalValue(s[..k]) > MAX_UINT32;
    assert z[..k + 1] == "0" + s[..k];
    LeadingZeroValue(s[..k]);
    assert AllOctal(z[..k + 1]) && OctalValue(z[..k + 1]) > MAX_UINT32;
  }

  /** For a string of octal digits, overflow means exactly that its value exceeds the ceiling. */
  lemma OverflowsIffTooLarge(s: string)
    ensures AllOctal(s) ==> (Overflows(s) <==> OctalValue(s) > MAX_UINT32)
  {
    if AllOctal(s) && Overflows(s) {
      var k :| 0 <= k <= |s| && AllOctal(s[..k]) && OctalValue(s[..k]) > MAX_UINT32;
      PrefixValue(s, k);
    }
    assert s[..|s|] == s;
  }
}
