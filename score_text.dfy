/**
 The score line the draw step renders, `"{score_1} - {score_2}"`, with each
 score written as Rust's `Display` writes an `i32`: decimal digits without
 leading zeros, after a `-` when negative.
 */
module ScoreText {

  predicate IsDigit(c: char)
  {
    '0' <= c <= '9'
  }

  predicate AllDigits(s: string)
  {
    forall i :: 0 <= i < |s| ==> IsDigit(s[i])
  }

  function DigitChar(d: nat): (c: char)
    requires d < 10
    ensures IsDigit(c)
  {
    "0123456789"[d]
  }

  /** The decimal digits of `n`, most significant first. */
  function Digits(n: nat): (s: string)
    ensures 1 <= |s|
    ensures AllDigits(s)
    ensures n > 0 ==> s[0] != '0'
  {
    if n < 10 then [DigitChar(n)] else Digits(n / 10) + [DigitChar(n % 10)]
  }

  /** The value a string of decimal digits denotes. */
  function ValueOf(s: string): int
  {
    if s == [] then 0 else ValueOf(s[..|s| - 1]) * 10 + (s[|s| - 1] as int - '0' as int)
  }

  /** Reading back the digits of `n` gives `n`. */
  lemma {:induction false} DigitsRoundTrip(n: nat)
    ensures ValueOf(Digits(n)) == n
  {
    if n >= 10 {
      var s := Digits(n);
      assert s[..|s| - 1] == Digits(n / 10);
      DigitsRoundTrip(n / 10);
    }
  }

  /** An `i32` as `format!("{}")` writes it: a `-` exactly when it is
      negative, then the digits of its magnitude, with no leading zero unless
      the number is 0, and no space anywhere. */
  function Decimal(n: int): (s: string)
    ensures 1 <= |s|
    ensures forall i :: 0 <= i < |s| ==> s[i] != ' '
    ensures s[0] == '-' <==> n < 0
    ensures var digits := if n < 0 then s[1..] else s;
            1 <= |digits| && AllDigits(digits) && (n != 0 ==> digits[0] != '0')
  {
    if n < 0 then "-" + Digits(-n) else Digits(n)
  }

  /** The number a decimal text denotes. */
  function ReadDecimal(s: string): int
  {
    if s != [] && s[0] == '-' then -ValueOf(s[1..]) else ValueOf(s)
  }

  /** The text of a non-negative number, plain digits, reads back as it. */
  lemma NonNegativeRoundTrip(n: nat)
    ensures ReadDecimal(Decimal(n)) == n
  {
    var s := Digits(n);
    assert IsDigit(s[0]);
    DigitsRoundTrip(n);
  }

  /** The text of a negative number, `-` and the digits of its magnitude,
      reads back as it. */
  lemma NegativeRoundTrip(n: int)
    requires n < 0
    ensures ReadDecimal(Decimal(n)) == n
  {
    var d := Digits(-n);
    assert ("-" + d)[1..] == d;
    DigitsRoundTrip(-n);
  }

  /** Reading back the text of `n` gives `n`, so different numbers are
      written differently. */
  lemma DecimalRoundTrip(n: int)
    ensures ReadDecimal(Decimal(n)) == n
  {
    if n < 0 {
      NegativeRoundTrip(n);
    } else {
      NonNegativeRoundTrip(n);
    }
  }

  /** The score line drawn at the top of the screen, `"{score_1} - {score_2}"`.
      Both scores can be read back from it: the left one ends at the first
      space, the separator `" - "` follows, and the right one is the rest. */
  function Line(score1: int, score2: int): (l: string)
    ensures FirstSpace(l) + 3 <= |l|
    ensures l[FirstSpace(l)..FirstSpace(l) + 3] == " - "
    ensures ReadDecimal(l[..FirstSpace(l)]) == score1
    ensures ReadDecimal(l[FirstSpace(l) + 3..]) == score2
  {
    SplitAtSeparator(Decimal(score1), Decimal(score2));
    DecimalRoundTrip(score1);
    DecimalRoundTrip(score2);
    Decimal(score1) + " - " + Decimal(score2)
  }

  /** The index of the first space in `s`, or `|s|` when there is none. */
  function FirstSpace(s: string): (i: nat)
    ensures i <= |s|
  {
    if s == [] || s[0] == ' ' then 0 else 1 + FirstSpace(s[1..])
  }

  /** A space-free prefix ends at the first space that follows it. */
  lemma {:induction false} FirstSpaceAfter(x: string, rest: string)
    requires forall i :: 0 <= i < |x| ==> x[i] != ' '
    requires |rest| >= 1 && rest[0] == ' '
    ensures FirstSpace(x + rest) == |x|
  {
    if x != [] {
      assert (x + rest)[1..] == x[1..] + rest;
      FirstSpaceAfter(x[1..], rest);
    }
  }

  /** Joining a space-free text and any other with `" - "` can be undone:
      the first space marks where the separator starts. */
  lemma SplitAtSeparator(left: string, right: string)
    requires forall i :: 0 <= i < |left| ==> left[i] != ' '
    ensures var l := left + " - " + right;
            FirstSpace(l) == |left| && l[..|left|] == left &&
            l[|left|..|left| + 3] == " - " && l[|left| + 3..] == right
  {
    var l := left + " - " + right;
    assert l == left + (" - " + right);
    FirstSpaceAfter(left, " - " + right);
  }

  /** The score line tells any two pairs of scores apart. */
  lemma LineInjective(a: int, b: int, c: int, d: int)
    requires Line(a, b) == Line(c, d)
    ensures a == c && b == d
  {
  }
}
