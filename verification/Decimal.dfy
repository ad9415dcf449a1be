/** Decimal text as it travels in RESP headers, byte by byte. */
module Decimal {
  import opened Options

  type byte = b: int | 0 <= b < 256
  type Bytes = seq<byte>

  const MINUS: byte := 45
  const ZERO: byte := 48
  // Number.MAX_SAFE_INTEGER
  const MAX_SAFE: int := 9007199254740991

  predicate AllDigits(ds: Bytes) {
    forall i :: 0 <= i < |ds| ==> ZERO <= ds[i] <= ZERO + 9
  }

  function Digits(n: nat): (ds: Bytes)
    ensures |ds| > 0 && AllDigits(ds)
  {
    if n < 10 then [ZERO + n] else Digits(n / 10) + [ZERO + n % 10]
  }

  /** `String(i)` for an integer. */
  function Print(i: int): (text: Bytes)
    ensures forall k :: 0 <= k < |text| ==> text[k] >= MINUS
  {
    if i < 0 then [MINUS] + Digits(-i) else Digits(i)
  }

  function Value(ds: Bytes): nat
    requires AllDigits(ds)
  {
    if ds == [] then 0 else 10 * Value(ds[..|ds| - 1]) + (ds[|ds| - 1] - ZERO)
  }

  predicate Safe(i: int) {
    -MAX_SAFE <= i <= MAX_SAFE
  }

  /** The plain decimal reading: an optional minus, then at least one digit. */
  function Read(text: Bytes): Option<int> {
    var negative := |text| > 0 && text[0] == MINUS;
    var ds := if negative then text[1..] else text;
    if |ds| == 0 || !AllDigits(ds) then None
    else
      var i: int := if negative then -(Value(ds) as int) else Value(ds);
      if Safe(i) then Some(i) else None
  }

  /**
   * What the client asks of a header line: `Number(line)` when that is a safe
   * integer, otherwise nothing. Only its behaviour on decimal text is fixed.
   */
  type Number = Bytes -> Option<int>

  ghost predicate ReadsDecimals(num: Number) {
    forall i: int :: num(Print(i)) == if Safe(i) then Some(i) else None
  }

  lemma {:induction false} DigitsReadBack(n: nat)
    ensures Value(Digits(n)) == n
  {
    if n >= 10 {
      DigitsReadBack(n / 10);
      assert Digits(n)[..|Digits(n)| - 1] == Digits(n / 10);
    }
  }

  /** A reading that inverts decimal printing exists: the plain one. */
  lemma ReadInvertsPrint()
    ensures ReadsDecimals(Read)
  {
    forall i: int ensures Read(Print(i)) == if Safe(i) then Some(i) else None {
      var n := if i < 0 then -i else i;
      DigitsReadBack(n);
      if i < 0 { assert Print(i)[1..] == Digits(n); }
    }
  }
}
