/** What most modules share: optional values, and numbers printed as text. */
module Options {

  datatype Option<+T> = None | Some(value: T)
}

module Text {
  import opened Options

  type byte = n: nat | n < 256

  type Bytes = seq<byte>

  const SLASH: byte := 47

  const U64_LIMIT: nat := 0x1_0000_0000_0000_0000

  type digit = n: nat | 48 <= n < 58 witness 48

  predicate IsDigit(b: byte) {
    48 <= b < 58
  }

  predicate AllDigits(b: Bytes) {
    forall i :: 0 <= i < |b| ==> IsDigit(b[i])
  }

  function Decimal(n: nat): Bytes {
    if n < 10 then [48 + n] else Decimal(n / 10) + [48 + n % 10]
  }

  function Value(digits: Bytes): nat
    requires AllDigits(digits)
  {
    if digits == [] then 0
    else
      var last: digit := digits[|digits| - 1];
      Value(digits[..|digits| - 1]) * 10 + (last - 48)
  }

  function Pow(base: nat, k: nat): nat {
    if k == 0 then 1 else base * Pow(base, k - 1)
  }

  lemma {:induction false} DecimalValue(n: nat)
    ensures Decimal(n) != [] && AllDigits(Decimal(n))
    ensures Value(Decimal(n)) == n
  {
    if n >= 10 {
      DecimalValue(n / 10);
      assert Decimal(n)[..|Decimal(n)| - 1] == Decimal(n / 10);
    } else {
      assert Decimal(n)[..0] == [];
    }
  }

  lemma {:induction false} DecimalLength(n: nat, k: nat)
    requires k > 0 && n < Pow(10, k)
    ensures |Decimal(n)| <= k
  {
    assert Pow(10, k) == 10 * Pow(10, k - 1);
    if n >= 10 {
      DecimalLength(n / 10, k - 1);
    }
  }

  /** How many digits a text starts with. */
  function Digits(b: Bytes): (n: nat)
    ensures n <= |b| && AllDigits(b[..n])
    ensures n < |b| ==> !IsDigit(b[n])
  {
    if b == [] || !IsDigit(b[0]) then 0
    else
      var n := 1 + Digits(b[1..]);
      assert b[..n] == [b[0]] + b[1..][..n - 1];
      n
  }

  lemma DigitsOf(digits: Bytes, rest: Bytes)
    requires AllDigits(digits) && (rest == [] || !IsDigit(rest[0]))
    ensures Digits(digits + rest) == |digits|
  {
    var b := digits + rest;
    assert forall i :: 0 <= i < |digits| ==> b[i] == digits[i];
    assert forall n :: |digits| < n <= |b| ==> b[..n][|digits|] == rest[0];
  }

  /** The last slash of a text, if it has one. */
  function LastSlash(text: Bytes): (i: Option<nat>)
    ensures i.Some? ==> i.value < |text| && text[i.value] == SLASH && forall j :: i.value < j < |text| ==> text[j] != SLASH
    ensures i.None? ==> SLASH !in text
  {
    if text == [] then None
    else if text[|text| - 1] == SLASH then Some(|text| - 1)
    else LastSlash(text[..|text| - 1])
  }
}
