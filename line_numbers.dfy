/**
 * Line-number labels (`padLeadingZeros` and `LineNumber`, src/hl-logs.tsx):
 * a line number is rendered in decimal and left-padded with '0' up to the
 * number of digits of the `lines` count the label is given.
 */
module LineNumbers {
  import opened JsString

  /** `k` zero characters. */
  function Zeros(k: nat): (r: string)
    ensures |r| == k
    ensures forall i :: 0 <= i < k ==> r[i] == '0'
  {
    seq(k, _ => '0')
  }

  function Max(a: int, b: int): int {
    if a < b then b else a
  }

  /**
   * Specification of `padLeadingZeros(num, size)`: `${num}` preceded by just
   * enough '0' characters to be `size` long, and left alone when it already is.
   */
  function ZeroPadded(num: nat, size: int): (r: string)
    ensures |r| == Max(size, |Decimal(num)|)
    ensures |r| >= |Decimal(num)| && r == Zeros(|r| - |Decimal(num)|) + Decimal(num)
    ensures |Decimal(num)| >= size ==> r == Decimal(num)
  {
    var d := Decimal(num);
    if |d| >= size then
      assert Zeros(0) + d == d;
      d
    else Zeros(size - |d|) + d
  }

  /** `padLeadingZeros`: the `while` loop that prepends '0' until the string is `size` long. */
  method PadLeadingZeros(num: nat, size: int) returns (s: string)
    ensures s == ZeroPadded(num, size)
  {
    var d := Decimal(num);
    s := d;
    assert Zeros(0) + d == d;
    while |s| < size
      invariant |d| <= |s| && (s == d || |s| <= size)
      invariant s == Zeros(|s| - |d|) + d
      decreases size - |s|
    {
      ZerosCons(|s| - |d|, d);
      s := "0" + s;
    }
  }

  /** One more '0' in front is one more zero of padding. */
  lemma ZerosCons(k: nat, d: string)
    ensures "0" + (Zeros(k) + d) == Zeros(k + 1) + d
  {
    assert "0" + Zeros(k) == Zeros(k + 1);
  }

  /** The digits of the label of `lineNumber` among `lines` lines (`LineNumber`). */
  function Label(lineNumber: nat, lines: nat): string {
    ZeroPadded(lineNumber, |Decimal(lines)|)
  }

  /** Leading zeros do not change the number a digit string denotes. */
  lemma {:induction false} LeadingZerosValue(k: nat, d: string)
    requires forall i :: 0 <= i < |d| ==> IsDigit(d[i])
    ensures forall i :: 0 <= i < k + |d| ==> IsDigit((Zeros(k) + d)[i])
    ensures DigitsValue(Zeros(k) + d) == DigitsValue(d)
  {
    var z := Zeros(k) + d;
    if d == [] {
      assert z == Zeros(k);
      ZerosValue(k);
    } else {
      var init := d[..|d| - 1];
      assert z[..|z| - 1] == Zeros(k) + init;
      LeadingZerosValue(k, init);
    }
  }

  /** A run of zeros denotes zero. */
  lemma {:induction false} ZerosValue(k: nat)
    ensures DigitsValue(Zeros(k)) == 0
  {
    if k > 0 {
      assert Zeros(k)[..k - 1] == Zeros(k - 1);
      ZerosValue(k - 1);
    }
  }

  /** Padding keeps the number: reading the padded digits back gives `num`. */
  lemma PaddedValue(num: nat, size: int)
    ensures forall i :: 0 <= i < |ZeroPadded(num, size)| ==> IsDigit(ZeroPadded(num, size)[i])
    ensures DigitsValue(ZeroPadded(num, size)) == num
  {
    var d := Decimal(num);
    LeadingZerosValue(|ZeroPadded(num, size)| - |d|, d);
    DecimalValue(num);
  }

  /** Different numbers padded to the same width give different labels. */
  lemma PaddedInjective(a: nat, b: nat, size: int)
    requires ZeroPadded(a, size) == ZeroPadded(b, size)
    ensures a == b
  {
    PaddedValue(a, size);
    PaddedValue(b, size);
  }

  /**
   * Labels line up: every line number from 1 to `lines` gets a label exactly
   * as wide as `lines` has digits.
   */
  lemma LabelAligned(lineNumber: nat, lines: nat)
    requires lineNumber <= lines
    ensures |Label(lineNumber, lines)| == |Decimal(lines)|
  {
    DecimalLengthMonotone(lineNumber, lines);
  }
}
