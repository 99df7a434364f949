/** The derived lines `on_analyze` writes to the terminal about a number:
    the masked pattern and the digit sum of the national number, and the two
    summary lines, the count of data points and the reliability grade. */
module Report {
  import opened PyText
  import opened Analysis

  function Min(a: nat, b: nat): nat {
    if a <= b then a else b
  }

  /** `s[:3] + "***" + (s[-3:] if len(s) >= 6 else s)`. */
  function MaskedPattern(s: string): (r: string)
    ensures |r| == Min(3, |s|) + 3 + (if |s| >= 6 then 3 else |s|)
    ensures r[..Min(3, |s|)] == s[..Min(3, |s|)]
    ensures r[Min(3, |s|)..Min(3, |s|) + 3] == "***"
    ensures |s| >= 6 ==> |r| == 9 && r[6..] == s[|s| - 3..]
    ensures |s| < 6 ==> r[Min(3, |s|) + 3..] == s
  {
    var head := if |s| <= 3 then s else s[..3];
    var tail := if |s| >= 6 then s[|s| - 3..] else s;
    head + "***" + tail
  }

  /** For a number of six digits or more the pattern shows only its first three
      and last three digits: numbers that agree there look the same. */
  lemma MaskHidesMiddle(s: string, t: string)
    requires |s| >= 6 && |t| >= 6
    requires s[..3] == t[..3] && s[|s| - 3..] == t[|t| - 3..]
    ensures MaskedPattern(s) == MaskedPattern(t)
  {
    var p, q := MaskedPattern(s), MaskedPattern(t);
    assert p == p[..3] + p[3..6] + p[6..];
    assert q == q[..3] + q[3..6] + q[6..];
  }

  /** A number shorter than six digits is not hidden at all: the pattern ends
      with the whole of it. */
  lemma ShortNumberShownWhole(s: string)
    requires |s| < 6
    ensures EndsWith(MaskedPattern(s), s)
  {
  }

  /** What `int(d)` adds to the sum for one character: its value if it is a
      digit, nothing otherwise. */
  function DigitContribution(c: char): (d: nat)
    ensures d <= 9
    ensures !IsDigit(c) ==> d == 0
  {
    if IsDigit(c) then DigitValue(c) else 0
  }

  /** `sum(int(d) for d in s if d.isdigit())`. */
  function DigitSum(s: string): (r: nat)
    ensures r <= 9 * |s|
    ensures (forall i :: 0 <= i < |s| ==> !IsDigit(s[i])) ==> r == 0
  {
    if s == [] then 0 else DigitSum(s[..|s| - 1]) + DigitContribution(s[|s| - 1])
  }

  /** The sum over a concatenation is the sum of the sums. */
  lemma {:induction false} DigitSumAppend(s: string, t: string)
    ensures DigitSum(s + t) == DigitSum(s) + DigitSum(t)
    decreases |t|
  {
    if t != [] {
      var u := t[..|t| - 1];
      assert (s + t)[..|s + t| - 1] == s + u;
      DigitSumAppend(s, u);
    } else {
      assert s + t == s;
    }
  }

  /** A character that is not a digit contributes nothing wherever it stands. */
  lemma DigitSumIgnoresNonDigit(s: string, c: char, t: string)
    requires !IsDigit(c)
    ensures DigitSum(s + [c] + t) == DigitSum(s + t)
  {
    DigitSumAppend(s + [c], t);
    DigitSumAppend(s, [c]);
    DigitSumAppend(s, t);
    assert [c][..0] == [];
  }

  /** The digit sum of `str(n)` leaves the same remainder modulo 9 as `n`
      itself ("casting out nines"). */
  lemma {:induction false} DigitSumCastsOutNines(n: nat)
    ensures DigitSum(Decimal(n)) % 9 == n % 9
  {
    if n >= 10 {
      DigitSumOfDecimal(n);
      DigitSumCastsOutNines(n / 10);
      NineStep(n / 10, n % 10, DigitSum(Decimal(n / 10)));
    }
  }

  /** Peeling the last digit off `str(n)`. */
  lemma DigitSumOfDecimal(n: nat)
    requires n >= 10
    ensures DigitSum(Decimal(n)) == DigitSum(Decimal(n / 10)) + n % 10
  {
    var s := Decimal(n);
    assert s[..|s| - 1] == Decimal(n / 10);
  }

  /** `10 q + d` and `q + d` agree modulo 9. */
  lemma NineStep(q: nat, d: nat, a: nat)
    requires a % 9 == q % 9
    ensures (a + d) % 9 == (10 * q + d) % 9
  {
    var j := (a - q) / 9;
    assert a == q + 9 * j;
    SameRemainder(a + d, 10 * q + d, j - q);
  }

  lemma SameRemainder(x: int, y: int, k: int)
    requires x == y + 9 * k
    ensures x % 9 == y % 9
  {
  }

  /** The digit sum of `str(n)` is zero exactly for `n == 0`. */
  lemma {:induction false} DigitSumZeroIff(n: nat)
    ensures DigitSum(Decimal(n)) == 0 <==> n == 0
  {
    if n >= 10 {
      DigitSumOfDecimal(n);
      DigitSumZeroIff(n / 10);
    }
  }

  /** The "data points" line: 15, one per time zone, and 5 more for a valid
      number. */
  function TotalInfoPoints(info: PhoneInfo): (r: nat)
    ensures 15 + |info.timeZones| <= r <= 20 + |info.timeZones|
    ensures r == 20 + |info.timeZones| <==> info.valid
  {
    15 + |info.timeZones| + (if info.valid then 5 else 0)
  }

  const HighReliability := "Alta"
  const MediumReliability := "Media"

  /** The "reliability" line: high only for a valid number whose carrier is
      known. */
  function Reliability(info: PhoneInfo): (r: string)
    ensures r == HighReliability || r == MediumReliability
    ensures r == HighReliability <==> info.valid && info.carrier != NoCarrier
  {
    if info.valid && info.carrier != NoCarrier then HighReliability else MediumReliability
  }

  /** For an analysed number, the grade is high exactly when the library found
      the number possible and valid and named a carrier (in Spanish, or else in
      English) other than the "not available" text. */
  lemma ReliabilityOfAnalysis(raw: string, parse: string -> ParseOutcome)
    requires Strip(raw) != [] && parse(Strip(raw)).Parsed?
    ensures var f := parse(Strip(raw)).facts;
      var named := if f.carrierEs != [] then f.carrierEs else f.carrierEn;
      && Analyze(raw, parse).Success?
      && (Reliability(Analyze(raw, parse).value) == HighReliability <==>
            f.possible && f.valid && named != [] && named != NoCarrier)
  {
    AnalyzeFields(raw, parse);
  }

  /** For an analysed number, the count of data points depends only on the
      library's time zones and on whether it also has an E.164 form. */
  lemma TotalOfAnalysis(raw: string, parse: string -> ParseOutcome)
    requires Strip(raw) != [] && parse(Strip(raw)).Parsed?
    ensures var f := parse(Strip(raw)).facts;
      && Analyze(raw, parse).Success?
      && TotalInfoPoints(Analyze(raw, parse).value)
           == 15 + |f.timeZones| + (if Analyze(raw, parse).value.e164.Some? then 5 else 0)
  {
    AnalyzeFields(raw, parse);
  }
}
