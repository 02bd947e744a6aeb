/** The Location header that carries a new cart line's id: the mock server
    writes it as `<path>/<id>` and the cart hook reads it back with
    `split('/').pop()` followed by JavaScript's `Number`. */
module Location {
  import opened CartTypes

  predicate IsDigit(c: char)
  {
    '0' <= c <= '9'
  }

  predicate AllDigits(s: string)
  {
    forall i :: 0 <= i < |s| ==> IsDigit(s[i])
  }

  function DigitChar(d: nat): (c: char)
    requires d < 10
    ensures IsDigit(c) && c as int - '0' as int == d
  {
    "0123456789"[d]
  }

  /** The decimal digits of a natural number, as a template literal prints
      an integer below 10^21 in magnitude (larger ones it prints with an
      exponent, which this model does not produce). */
  function NatToString(n: nat): (s: string)
    ensures |s| > 0 && AllDigits(s)
    ensures s[0] == '0' ==> n == 0
    decreases n
  {
    if n < 10 then [DigitChar(n)] else NatToString(n / 10) + [DigitChar(n % 10)]
  }

  /** An integer in a template literal: a minus sign before the digits of
      negative values, and the plain digits otherwise. */
  function IntToString(i: int): (s: string)
    ensures '/' !in s
    ensures i >= 0 ==> AllDigits(s)
    ensures i < 0 ==> |s| > 1 && s[0] == '-' && AllDigits(s[1..])
  {
    var digits := if i < 0 then NatToString(-i) else NatToString(i);
    if i < 0 then "-" + digits else digits
  }

  /** The value of a string of decimal digits. */
  function DigitsValue(s: string): nat
    requires AllDigits(s)
  {
    if s == [] then 0 else DigitsValue(s[..|s| - 1]) * 10 + (s[|s| - 1] as int - '0' as int)
  }

  /** JavaScript's Number() on a string, for the forms the cart deals with:
      the empty string is 0, an optional minus sign followed by decimal digits
      is that integer, and anything else is NaN (None). */
  function ParseNumber(s: string): (r: Option<int>)
    ensures s == "" ==> r == Some(0)
    ensures AllDigits(s) ==> r.Some? && r.value >= 0
    ensures r.Some? && s != "" ==> AllDigits(s) || (s[0] == '-' && |s| > 1 && AllDigits(s[1..]))
  {
    if AllDigits(s) then Some(DigitsValue(s))
    else if |s| > 1 && s[0] == '-' && AllDigits(s[1..]) then Some(-(DigitsValue(s[1..]) as int))
    else None
  }

  /** `s.split('/').pop()`: the longest suffix of s without a slash. */
  function LastSegment(s: string): (r: string)
    ensures '/' !in r
    ensures |r| <= |s| && r == s[|s| - |r|..]
    ensures |r| < |s| ==> s[|s| - |r| - 1] == '/'
  {
    if s == [] then ""
    else if s[|s| - 1] == '/' then ""
    else LastSegment(s[..|s| - 1]) + [s[|s| - 1]]
  }

  /** The header the mock server writes for a new line: `${path}/${id}`.
      Whatever the path holds, the last segment is the printed id. */
  function LocationOf(path: string, cartItemId: int): (header: string)
    ensures |header| > |path| && header[..|path|] == path
    ensures LastSegment(header) == IntToString(cartItemId)
  {
    LastSegmentAfterSlash(path, IntToString(cartItemId));
    path + "/" + IntToString(cartItemId)
  }

  /** The id the hook reads from a Location header: `Number(location?.split('/').pop())`;
      a missing header, like a non-numeric segment, is NaN (None). */
  function CartItemIdOf(location: Option<string>): (r: Option<int>)
    ensures location.None? ==> r.None?
    ensures location.Some? && '/' !in location.value ==> r == ParseNumber(location.value)
    ensures location.Some? && |location.value| > 0 && location.value[|location.value| - 1] == '/' ==> r == Some(0)
  {
    match location
    case None => None
    case Some(header) => ParseNumber(LastSegment(header))
  }

  /** Printing a natural number and reading its digits back gives the number. */
  lemma {:induction false} DigitsRoundTrip(n: nat)
    ensures DigitsValue(NatToString(n)) == n
    decreases n
  {
    if n >= 10 {
      DigitsRoundTrip(n / 10);
      var s := NatToString(n);
      assert s[..|s| - 1] == NatToString(n / 10);
    }
  }

  /** Number() of a minus sign followed by digits is the negated digit value. */
  lemma ParseMinusDigits(digits: string)
    requires |digits| > 0 && AllDigits(digits)
    ensures ParseNumber("-" + digits) == Some(-(DigitsValue(digits) as int))
  {
    var printed := "-" + digits;
    assert !AllDigits(printed) by {
      assert !IsDigit(printed[0]);
    }
    assert printed[1..] == digits;
  }

  /** Number() of a string of digits is its digit value. */
  lemma ParseDigits(digits: string)
    requires AllDigits(digits)
    ensures ParseNumber(digits) == Some(DigitsValue(digits) as int)
  {
  }

  /** Number(`${i}`) == i for every integer id, ids being unbounded
      integers printed as plain digits. */
  lemma NumberRoundTrip(i: int)
    ensures ParseNumber(IntToString(i)) == Some(i)
  {
    if i < 0 {
      var n: nat := -i;
      var digits := NatToString(n);
      assert IntToString(i) == "-" + digits;
      DigitsRoundTrip(n);
      assert DigitsValue(digits) == n;
      ParseMinusDigits(digits);
      assert ParseNumber("-" + digits) == Some(-(n as int));
    } else {
      var digits := NatToString(i);
      assert IntToString(i) == digits;
      ParseDigits(digits);
      DigitsRoundTrip(i);
    }
  }

  /** The last segment after a slash is exactly the text appended after it. */
  lemma {:induction false} LastSegmentAfterSlash(prefix: string, segment: string)
    requires '/' !in segment
    ensures LastSegment(prefix + "/" + segment) == segment
    decreases |segment|
  {
    if segment == [] {
      assert (prefix + "/" + segment) == prefix + "/";
    } else {
      var init := segment[..|segment| - 1];
      assert prefix + "/" + segment == (prefix + "/" + init) + [segment[|segment| - 1]];
      assert (prefix + "/" + segment)[..|prefix + "/" + segment| - 1] == prefix + "/" + init;
      LastSegmentAfterSlash(prefix, init);
    }
  }

  /** Whatever the path, the hook reads back exactly the id the server wrote. */
  lemma LocationRoundTrip(path: string, cartItemId: int)
    ensures CartItemIdOf(Some(LocationOf(path, cartItemId))) == Some(cartItemId)
  {
    NumberRoundTrip(cartItemId);
  }
}
