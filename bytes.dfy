/**
 * Bytes and C strings as the shell sees them: every line it handles is a
 * NUL-terminated `char` buffer filled by `fgetc`.  Plain `char` is taken
 * as signed, as on x86-64.  Also the decimal digit strings that `atoi`
 * reads and the shell's numbered lines start with.
 */
module Bytes {

  /** One byte, as `fgetc` returns it. */
  newtype Byte = b: int | 0 <= b < 256

  /** The bytes of a C string before its terminating NUL. */
  type CString = s: seq<Byte> | forall i | 0 <= i < |s| :: s[i] != 0

  const Space: Byte := 32       // ' '
  const EqualsSign: Byte := 61  // '='
  const Zero: Byte := 48        // '0'

  /** The value of a byte read through a signed `char`. */
  function Signed(b: Byte): int
  {
    if b < 128 then b as int else b as int - 256
  }

  /** `'0' <= c && c <= '9'` on a signed `char`. */
  predicate IsDigit(b: Byte)
  {
    '0' as int <= Signed(b) <= '9' as int
  }

  /** `c <= ' '` on a signed `char`: controls, space and every byte from 128 up. */
  predicate IsBlank(b: Byte)
  {
    Signed(b) <= ' ' as int
  }

  predicate AllDigits(s: seq<Byte>)
  {
    forall i | 0 <= i < |s| :: IsDigit(s[i])
  }

  /** Length of the maximal run of decimal digits at the start of `s`. */
  function DigitRun(s: seq<Byte>): (i: nat)
    ensures i <= |s|
    ensures AllDigits(s[..i])
    ensures i < |s| ==> !IsDigit(s[i])
  {
    if s == [] || !IsDigit(s[0]) then 0 else 1 + DigitRun(s[1..])
  }

  /** The number a string of decimal digits denotes (what `atoi` returns for it). */
  function DigitsValue(ds: seq<Byte>): nat
    requires AllDigits(ds)
  {
    if ds == [] then 0
    else DigitsValue(ds[..|ds| - 1]) * 10 + (ds[|ds| - 1] - Zero) as int
  }

  /** `atoi` restricted to its decimal digits: the value of the leading digit run, 0 if there is none. */
  function Atoi(s: seq<Byte>): (v: nat)
    ensures s == [] || !IsDigit(s[0]) ==> v == 0
    ensures AllDigits(s) ==> v == DigitsValue(s)
  {
    var i := DigitRun(s);
    assert AllDigits(s) ==> i == |s| by {
      if AllDigits(s) {
        DigitRunOfDigits(s, []);
        assert s + [] == s;
      }
    }
    assert s[..|s|] == s;
    DigitsValue(s[..i])
  }

  /** The shortest decimal rendering of `n` (what `printf("%d")` prints). */
  function Decimal(n: nat): (ds: CString)
    ensures ds != [] && AllDigits(ds)
  {
    var d := (n % 10) as Byte + Zero;
    if n < 10 then [d] else Decimal(n / 10) + [d]
  }

  /** Reading back a rendered number gives the number. */
  lemma {:induction false} DecimalRoundTrip(n: nat)
    ensures DigitsValue(Decimal(n)) == n
  {
    var ds := Decimal(n);
    if n >= 10 {
      DecimalRoundTrip(n / 10);
      assert ds[..|ds| - 1] == Decimal(n / 10);
    } else {
      assert ds[..0] == [];
    }
  }

  /** `atoi` reads a rendered number back, however the token goes on after a non-digit. */
  lemma AtoiDecimal(n: nat, rest: seq<Byte>)
    requires rest == [] || !IsDigit(rest[0])
    ensures Atoi(Decimal(n) + rest) == n
  {
    var s := Decimal(n) + rest;
    DigitRunOfDigits(Decimal(n), rest);
    assert s[..DigitRun(s)] == Decimal(n);
    DecimalRoundTrip(n);
  }

  /** The digit run of a digit string followed by a non-digit ends at the boundary. */
  lemma {:induction false} DigitRunOfDigits(ds: seq<Byte>, rest: seq<Byte>)
    requires AllDigits(ds)
    requires rest == [] || !IsDigit(rest[0])
    ensures DigitRun(ds + rest) == |ds|
  {
    if ds != [] {
      assert (ds + rest)[1..] == ds[1..] + rest;
      DigitRunOfDigits(ds[1..], rest);
    } else {
      assert ds + rest == rest;
    }
  }
}
