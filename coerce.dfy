/** The text-to-number coercions the builders rely on, `pd.to_numeric(...,
    errors="coerce")`: text that spells a number becomes that number, any
    other text becomes a missing value instead of an error. */
module Coerce {
  import opened Common
  import opened Decimal

  predicate IsDigit(c: char) { '0' <= c <= '9' }

  predicate AllDigits(s: string) { forall i :: 0 <= i < |s| ==> IsDigit(s[i]) }

  function DigitValue(c: char): (v: nat)
    requires IsDigit(c)
    ensures v < 10
  {
    c as int - '0' as int
  }

  /** The value of a run of decimal digits, most significant first. */
  function DigitsValue(s: string): nat
    requires AllDigits(s)
  {
    if s == [] then 0 else 10 * DigitsValue(s[..|s| - 1]) + DigitValue(s[|s| - 1])
  }

  function Digit(n: nat): (c: char)
    requires n < 10
    ensures IsDigit(c) && DigitValue(c) == n
  {
    ('0' as int + n) as char
  }

  /** Decimal text of a natural number, without leading zeros. */
  function NatText(n: nat): (s: string)
    ensures |s| >= 1 && AllDigits(s)
  {
    if n < 10 then [Digit(n)] else NatText(n / 10) + [Digit(n % 10)]
  }

  /** Decimal text of an integer, as the export writes a merchant id. */
  function IntText(n: int): string
  {
    if n < 0 then "-" + NatText(-n) else NatText(n)
  }

  predicate HasSign(s: string) { |s| > 0 && (s[0] == '-' || s[0] == '+') }

  /** The text after an optional leading sign. */
  function Unsigned(s: string): string
  {
    if HasSign(s) then s[1..] else s
  }

  function SignOf(s: string): int
  {
    if |s| > 0 && s[0] == '-' then -1 else 1
  }

  /** An optionally signed, non-empty run of ASCII digits. */
  predicate IsIntText(s: string)
  {
    |Unsigned(s)| > 0 && AllDigits(Unsigned(s))
  }

  /** `to_numeric(..., errors="coerce")` followed by the cast to a nullable
      integer column. */
  function ParseInt(s: string): (r: Option<int>)
    ensures r.Some? <==> IsIntText(s)
  {
    var u := Unsigned(s);
    if |u| > 0 && AllDigits(u) then Some(SignOf(s) * DigitsValue(u)) else None
  }

  lemma {:induction false} DigitsValueNatText(n: nat)
    ensures DigitsValue(NatText(n)) == n
  {
    if n >= 10 {
      var s := NatText(n);
      assert s[..|s| - 1] == NatText(n / 10);
      DigitsValueNatText(n / 10);
    }
  }

  /** Coercion reads back every integer the export writes. */
  lemma ParseIntText(n: int)
    ensures ParseInt(IntText(n)) == Some(n)
  {
    if n < 0 {
      DigitsValueNatText(-n);
      assert Unsigned(IntText(n)) == NatText(-n);
    } else {
      DigitsValueNatText(n);
      assert !HasSign(NatText(n));
    }
  }

  /** Position of the first c in s, or |s| when there is none. */
  function IndexOf(s: string, c: char): (i: nat)
    ensures i <= |s|
    ensures i < |s| ==> s[i] == c
    ensures forall j :: 0 <= j < i ==> s[j] != c
  {
    if s == [] then 0 else if s[0] == c then 0 else 1 + IndexOf(s[1..], c)
  }

  /** `to_numeric(..., errors="coerce")` into a float column: an optionally
      signed decimal numeral with at least one digit and at most one point.
      Exponent forms and surrounding blanks are not modelled. */
  function ParseNumber(s: string): (r: Option<real>)
    ensures r.Some? ==> |Unsigned(s)| > 0
  {
    var u := Unsigned(s);
    var i := IndexOf(u, '.');
    var whole := u[..i];
    var frac := if i < |u| then u[i + 1..] else "";
    if |whole| + |frac| > 0 && AllDigits(whole) && AllDigits(frac) then
      Some(SignOf(s) as real * (DigitsValue(whole) as real + DigitsValue(frac) as real / Scale(|frac|)))
    else
      None
  }

  /** Decimal text: after an optional sign, digits with at most one point,
      and not the point alone. */
  predicate IsDecimalText(s: string)
  {
    var u := Unsigned(s);
    && |u| > 0 && u != "."
    && (forall j :: 0 <= j < |u| ==> IsDigit(u[j]) || u[j] == '.')
    && (forall j, k :: 0 <= j < k < |u| && u[j] == '.' ==> u[k] != '.')
  }

  /** Float coercion succeeds exactly on decimal text. */
  lemma ParseNumberDefined(s: string)
    ensures ParseNumber(s).Some? <==> IsDecimalText(s)
  {
    var u := Unsigned(s);
    var i := IndexOf(u, '.');
    var whole := u[..i];
    var frac := if i < |u| then u[i + 1..] else "";
    if ParseNumber(s).Some? {
      assert forall m :: 0 <= m < i ==> u[m] == whole[m];
      assert forall m :: i < m < |u| ==> u[m] == frac[m - i - 1];
    }
    if IsDecimalText(s) {
      assert AllDigits(whole);
      if i < |u| {
        forall j | 0 <= j < |frac| ensures IsDigit(frac[j]) {
          assert frac[j] == u[i + 1 + j];
        }
        assert |whole| + |frac| == |u| - 1;
      }
    }
  }

  /** The float coercion agrees with the integer coercion wherever the latter
      succeeds. */
  lemma ParseNumberOfInt(s: string)
    requires ParseInt(s).Some?
    ensures ParseNumber(s) == Some(ParseInt(s).value as real)
  {
    var u := Unsigned(s);
    var i := IndexOf(u, '.');
    assert forall j :: 0 <= j < |u| ==> u[j] != '.';
    assert u[..i] == u;
  }

  /** Coercion of a nullable text cell to a nullable integer: a missing cell
      stays missing, text that is not an integer becomes missing. */
  function CellToInt(cell: Option<string>): (r: Option<int>)
    ensures r.Some? <==> cell.Some? && IsIntText(cell.value)
  {
    match cell
    case None => None
    case Some(t) => ParseInt(t)
  }

  /** Coercion of a nullable text cell to a nullable number. */
  function CellToNumber(cell: Option<string>): (r: Option<real>)
    ensures r.Some? <==> cell.Some? && IsDecimalText(cell.value)
    ensures cell.Some? && IsIntText(cell.value) ==> r == Some(ParseInt(cell.value).value as real)
  {
    match cell
    case None => None
    case Some(t) =>
      ParseNumberDefined(t);
      if IsIntText(t) then ParseNumberOfInt(t); ParseNumber(t) else ParseNumber(t)
  }
}
