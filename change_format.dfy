/**
 * The change formatter (`format_change`): a signed change with thousands
 * separators followed by the signed rate in parentheses, or a sentinel when
 * the change is absent.
 */
module ChangeFormat {
  import opened Optional

  /** Shown instead of a change when there is not enough history. */
  const Unavailable: string := "データ不足"

  predicate IsDigit(c: char) {
    '0' <= c <= '9'
  }

  predicate AllDigits(s: string) {
    forall k :: 0 <= k < |s| ==> IsDigit(s[k])
  }

  function DigitChar(d: nat): (c: char)
    requires d < 10
  {
    ('0' as int + d) as char
  }

  /** The decimal digits of n, most significant first, without leading zeros. */
  function Digits(n: nat): (s: string)
    ensures |s| >= 1 && AllDigits(s)
    ensures |s| > 1 ==> s[0] != '0'
  {
    if n < 10 then [DigitChar(n)] else Digits(n / 10) + [DigitChar(n % 10)]
  }

  /** The value a string of decimal digits denotes. */
  function DecimalValue(s: string): int {
    if s == [] then 0 else DecimalValue(s[..|s| - 1]) * 10 + (s[|s| - 1] as int - '0' as int)
  }

  /** `DecimalValue` reads `Digits` back. */
  lemma {:induction false} DigitsRoundTrip(n: nat)
    ensures DecimalValue(Digits(n)) == n
  {
    if n >= 10 {
      DigitsRoundTrip(n / 10);
      var s := Digits(n);
      assert s[..|s| - 1] == Digits(n / 10);
    }
  }

  /** Digits with a comma before every group of three, counted from the right: one comma per full group after the first. */
  function Grouped(d: string): (g: string)
    ensures |d| == 0 ==> g == []
    ensures |d| >= 1 ==> |g| == |d| + (|d| - 1) / 3 && g[0] == d[0]
    ensures |d| >= 1 ==> |g| % 4 != 0
  {
    if |d| <= 3 then d else Grouped(d[..|d| - 3]) + "," + d[|d| - 3..]
  }

  /** The string with its commas removed. */
  function WithoutCommas(s: string): string {
    if s == [] then []
    else WithoutCommas(s[..|s| - 1]) + (if s[|s| - 1] == ',' then "" else [s[|s| - 1]])
  }

  lemma {:induction false} WithoutCommasAppend(a: string, b: string)
    ensures WithoutCommas(a + b) == WithoutCommas(a) + WithoutCommas(b)
    decreases |b|
  {
    if b == [] {
      assert a + b == a;
    } else {
      WithoutCommasAppend(a, b[..|b| - 1]);
      assert (a + b)[..|a + b| - 1] == a + b[..|b| - 1];
    }
  }

  lemma {:induction false} WithoutCommasOfDigits(d: string)
    requires AllDigits(d)
    ensures WithoutCommas(d) == d
  {
    if d != [] {
      WithoutCommasOfDigits(d[..|d| - 1]);
    }
  }

  /** Removing the separators gives the digits back. */
  lemma {:induction false} GroupedRoundTrip(d: string)
    requires AllDigits(d)
    ensures WithoutCommas(Grouped(d)) == d
    decreases |d|
  {
    if |d| <= 3 {
      WithoutCommasOfDigits(d);
    } else {
      var head, tail := d[..|d| - 3], d[|d| - 3..];
      GroupedRoundTrip(head);
      WithoutCommasAppend(Grouped(head) + ",", tail);
      WithoutCommasAppend(Grouped(head), ",");
      WithoutCommasOfDigits(tail);
      assert WithoutCommas(",") == "";
      assert head + tail == d;
    }
  }

  /** A position of g holds a comma exactly when it is not the first and a multiple of four from the end. */
  predicate CommasEveryFour(g: string) {
    forall k :: 0 <= k < |g| ==> (g[k] == ',' <==> k > 0 && (|g| - k) % 4 == 0)
  }

  /**
   * The layout of the separators: a position holds a comma exactly when it is
   * not the first and a multiple of four characters from the end, so the
   * first group has one to three digits and every later group three.
   */
  lemma {:induction false} GroupedShape(d: string)
    requires |d| >= 1 && AllDigits(d)
    ensures CommasEveryFour(Grouped(d))
    decreases |d|
  {
    var g := Grouped(d);
    if |d| <= 3 {
      forall k | 0 <= k < |g|
        ensures g[k] == ',' <==> k > 0 && (|g| - k) % 4 == 0
      {
        assert IsDigit(g[k]);
        NotMultipleOfFour(|g| - k);
      }
    } else {
      var head, tail := d[..|d| - 3], d[|d| - 3..];
      GroupedShape(head);
      assert AllDigits(tail);
      CommasEveryFourStep(Grouped(head), tail);
    }
  }

  /** Appending a comma and three digits to a well-grouped text keeps it well grouped. */
  lemma CommasEveryFourStep(gh: string, tail: string)
    requires |gh| >= 1 && CommasEveryFour(gh)
    requires |tail| == 3 && AllDigits(tail)
    ensures CommasEveryFour(gh + "," + tail)
  {
    var g := gh + "," + tail;
    forall k | 0 <= k < |g|
      ensures g[k] == ',' <==> k > 0 && (|g| - k) % 4 == 0
    {
      if k < |gh| {
        assert g[k] == gh[k];
        ShiftByFour(|gh| - k);
      } else if k == |gh| {
        assert g[k] == ',';
      } else {
        assert g[k] == tail[k - |gh| - 1];
        assert IsDigit(g[k]);
        NotMultipleOfFour(|g| - k);
      }
    }
  }

  /**
   * What `{n:,}` prints for a magnitude: digits with the commas of
   * CommasEveryFour, a length that is not a multiple of four (so the first
   * group holds one to three digits and not four), and no leading zero.
   */
  predicate CanonicalGrouping(body: string) {
    && CommasEveryFour(body)
    && AllDigits(WithoutCommas(body))
    && |body| % 4 != 0
    && (|body| > 1 ==> body[0] != '0')
  }

  /** Grouping the digits of a number without leading zeros gives the canonical text. */
  lemma GroupedCanonical(d: string)
    requires |d| >= 1 && AllDigits(d) && (|d| > 1 ==> d[0] != '0')
    ensures CanonicalGrouping(Grouped(d))
  {
    GroupedShape(d);
    GroupedRoundTrip(d);
  }

  lemma ShiftByFour(a: int)
    ensures (a + 4) % 4 == a % 4
  {
  }

  lemma NotMultipleOfFour(a: int)
    requires 1 <= a <= 3
    ensures a % 4 != 0
  {
  }

  /** Reads a `FormatInt` text back: an optional minus sign, then digits and commas. */
  function ParseFormatted(s: string): int {
    if s != [] && s[0] == '-' then -DecimalValue(WithoutCommas(s[1..])) else DecimalValue(WithoutCommas(s))
  }

  /**
   * `f'{n:,}'`: a minus sign for negative numbers, then the grouped digits of
   * the magnitude. The text denotes n, starts with '-' exactly when n is
   * negative and with a digit otherwise, and after the sign is the canonical
   * grouping: a first group of one to three digits without a leading zero,
   * then a comma before every further group of three.
   */
  function FormatInt(n: int): (text: string)
    ensures ParseFormatted(text) == n
    ensures |text| >= 1 && (text[0] == '-' <==> n < 0)
    ensures n >= 0 ==> IsDigit(text[0])
    ensures var body := if n < 0 then text[1..] else text;
      CanonicalGrouping(body)
  {
    var magnitude := if n < 0 then -n else n;
    var d := Digits(magnitude);
    GroupedRoundTrip(d);
    DigitsRoundTrip(magnitude);
    GroupedCanonical(d);
    var text := (if n < 0 then "-" else "") + Grouped(d);
    assert n < 0 ==> text[1..] == Grouped(d);
    assert n >= 0 ==> text == Grouped(d);
    text
  }

  /** `f'{rate}'`: the rendering of a present rate is a parameter; an absent one prints as `None`. */
  function RateText(rate: Option<real>, showRate: real -> string): (text: string)
    ensures rate.None? ==> text == "None"
    ensures rate.Some? ==> text == showRate(rate.value)
  {
    match rate
    case None => "None"
    case Some(r) => showRate(r)
  }

  /** `'+'` for a change that is zero or positive, nothing otherwise (the number carries its own '-'). */
  function SignPrefix(change: int): (sign: string)
    ensures sign == "+" <==> change >= 0
    ensures sign == "" <==> change < 0
  {
    if change >= 0 then "+" else ""
  }

  /**
   * `format_change`: the sentinel exactly for an absent change; otherwise the
   * signed change, then the rate in parentheses behind the same prefix and
   * followed by '%'. The text starts with '+' exactly for a change of zero or
   * more and with '-' exactly for a negative one.
   */
  function FormatChange(change: Option<int>, rate: Option<real>, showRate: real -> string): (text: string)
    ensures text == Unavailable <==> change.None?
    ensures change.Some? ==>
      var c := change.value;
      var head := SignPrefix(c) + FormatInt(c) + " (" + SignPrefix(c);
      && text == head + RateText(rate, showRate) + "%)"
      && (text[0] == '+' <==> c >= 0)
      && (text[0] == '-' <==> c < 0)
  {
    match change
    case None => Unavailable
    case Some(c) =>
      var sign := SignPrefix(c);
      var head := sign + FormatInt(c) + " (" + sign;
      var text := head + RateText(rate, showRate) + "%)";
      assert text[0] == (if c >= 0 then '+' else FormatInt(c)[0]);
      assert text[0] != Unavailable[0];
      text
  }
}
