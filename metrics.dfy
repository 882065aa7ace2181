/**
 * The per-company metrics of the tech map: brightness from the employee
 * text and orbit radius from the founding year
 * (src/pages/Techmap.jsx, lines 142-155 and 173-181).
 */
module Metrics {
  import opened Util

  /** Brightness is kept as a whole number of tenths: 3 means 0.3, 10 means 1.0. */
  const LowestTenths := 3
  const HighestTenths := 10

  predicate IsDigit(c: char)
  {
    '0' <= c <= '9'
  }

  /** `text.replace(/[^0-9]/g, '')`: the digits of `s`, in order. */
  function StripNonDigits(s: string): (r: string)
    ensures |r| <= |s|
    ensures forall i :: 0 <= i < |r| ==> IsDigit(r[i])
    ensures (forall i :: 0 <= i < |s| ==> !IsDigit(s[i])) ==> r == []
    ensures (forall i :: 0 <= i < |s| ==> IsDigit(s[i])) ==> r == s
  {
    if s == [] then
      []
    else
      var rest := StripNonDigits(s[1..]);
      assert forall i :: 0 < i < |s| ==> s[1..][i - 1] == s[i];
      if IsDigit(s[0]) then [s[0]] + rest else rest
  }

  /** `parseInt` of a string of decimal digits (the empty string is 0, as `'' || '0'`). */
  function DigitsValue(ds: string): (n: nat)
    requires forall i :: 0 <= i < |ds| ==> IsDigit(ds[i])
    ensures n < Pow10(|ds|)
    ensures 0 < |ds| && ds[0] != '0' ==> Pow10(|ds| - 1) <= n
  {
    if ds == [] then 0
    else
      assert IsDigit(ds[|ds| - 1]);
      DigitsValue(ds[..|ds| - 1]) * 10 + (ds[|ds| - 1] as int - '0' as int)
  }

  /** The employee count as the source reads it: every digit of the text, concatenated. */
  function ParsedCount(text: string): (n: nat)
    ensures n < Pow10(|StripNonDigits(text)|)
    ensures (forall i :: 0 <= i < |text| ==> !IsDigit(text[i])) ==> n == 0
  {
    DigitsValue(StripNonDigits(text))
  }

  /** The threshold table, from the highest threshold down. */
  function Tier(count: nat): (tenths: nat)
    ensures LowestTenths <= tenths <= HighestTenths
  {
    if count >= 10000 then 10
    else if count >= 5000 then 9
    else if count >= 2000 then 8
    else if count >= 1000 then 7
    else if count >= 500 then 6
    else if count >= 200 then 5
    else if count >= 100 then 4
    else 3
  }

  /** `calculateBrightness`: a missing or empty employee text is the lowest
      brightness; otherwise the parsed count goes through the table. */
  function Brightness(employees: Option<string>): (tenths: nat)
    ensures LowestTenths <= tenths <= HighestTenths
    ensures employees.None? || employees == Some("") ==> tenths == LowestTenths
  {
    match employees
    case None => LowestTenths
    case Some(text) => if text == "" then LowestTenths else Tier(ParsedCount(text))
  }

  /** The oldest age that still moves a company outward. */
  const MaxAge := 50

  /** `calculateOrbitRadius`, with the current year passed in: the age is
      capped at 50 from above only, then mapped linearly from minRadius to
      maxRadius. */
  function OrbitRadius(founded: int, maxRadius: real, minRadius: real, currentYear: int): (r: real)
    ensures 0 <= currentYear - founded && minRadius <= maxRadius ==> minRadius <= r <= maxRadius
  {
    var age := currentYear - founded;
    var normalizedAge := (Min(age, MaxAge) as real) / (MaxAge as real);
    if 0 <= age && minRadius <= maxRadius then
      assert 0.0 <= Min(age, MaxAge) as real <= 50.0;
      assert normalizedAge <= 1.0;
      ScaleWithinSpan(normalizedAge, maxRadius - minRadius);
      minRadius + normalizedAge * (maxRadius - minRadius)
    else
      minRadius + normalizedAge * (maxRadius - minRadius)
  }

  /** A fraction of a non-negative span stays within the span. */
  lemma ScaleWithinSpan(t: real, span: real)
    requires 0.0 <= t <= 1.0 && 0.0 <= span
    ensures 0.0 <= t * span <= span
  {
    assert (1.0 - t) * span >= 0.0;
  }

  /** The thresholds of the brightness table, lowest first. */
  const Thresholds: seq<nat> := [100, 200, 500, 1000, 2000, 5000, 10000]

  /** How many of the thresholds `count` reaches. */
  function Reached(count: nat, thresholds: seq<nat>): nat
  {
    if thresholds == [] then 0
    else (if count >= thresholds[0] then 1 else 0) + Reached(count, thresholds[1..])
  }

  /** The table is the step function "0.3 plus 0.1 per threshold reached". */
  lemma TierCountsThresholds(count: nat)
    ensures Tier(count) == LowestTenths + Reached(count, Thresholds)
  {
    var t7: seq<nat> := [];
    var t6 := [10000] + t7;
    var t5 := [5000] + t6;
    var t4 := [2000] + t5;
    var t3 := [1000] + t4;
    var t2 := [500] + t3;
    var t1 := [200] + t2;
    var t0 := [100] + t1;
    assert t0 == Thresholds;
    assert t0[1..] == t1 && t1[1..] == t2 && t2[1..] == t3 && t3[1..] == t4;
    assert t4[1..] == t5 && t5[1..] == t6 && t6[1..] == t7;
    var r6 := if count >= 10000 then 1 else 0;
    assert Reached(count, t6) == r6;
    var r5 := r6 + if count >= 5000 then 1 else 0;
    assert Reached(count, t5) == r5;
    var r4 := r5 + if count >= 2000 then 1 else 0;
    assert Reached(count, t4) == r4;
    var r3 := r4 + if count >= 1000 then 1 else 0;
    assert Reached(count, t3) == r3;
    var r2 := r3 + if count >= 500 then 1 else 0;
    assert Reached(count, t2) == r2;
    var r1 := r2 + if count >= 200 then 1 else 0;
    assert Reached(count, t1) == r1;
    assert Reached(count, t0) == r1 + if count >= 100 then 1 else 0;
  }

  /** Brightness never decreases as the parsed employee count grows. */
  lemma BrightnessMonotone(a: string, b: string)
    requires ParsedCount(a) <= ParsedCount(b)
    ensures Brightness(Some(a)) <= Brightness(Some(b))
  {
  }

  /** Text without a single digit parses as 0 and gets the lowest brightness. */
  lemma NoDigitsIsLowest(text: string)
    requires forall i :: 0 <= i < |text| ==> !IsDigit(text[i])
    ensures ParsedCount(text) == 0
    ensures Brightness(Some(text)) == LowestTenths
  {
  }

  function Pow10(n: nat): (p: nat)
    ensures p >= 1
  {
    if n == 0 then 1 else 10 * Pow10(n - 1)
  }

  /** Stripping works piece by piece. */
  lemma {:induction false} StripAppend(s: string, t: string)
    ensures StripNonDigits(s + t) == StripNonDigits(s) + StripNonDigits(t)
  {
    if s == [] {
      assert s + t == t;
    } else {
      assert (s + t)[1..] == s[1..] + t;
      StripAppend(s[1..], t);
    }
  }

  /** Reading the digits of `x + y` shifts the value of `x` past the digits of `y`. */
  lemma {:induction false} DigitsValueAppend(x: string, y: string)
    requires forall i :: 0 <= i < |x| ==> IsDigit(x[i])
    requires forall i :: 0 <= i < |y| ==> IsDigit(y[i])
    ensures DigitsValue(x + y) == DigitsValue(x) * Pow10(|y|) + DigitsValue(y)
  {
    if y == [] {
      assert x + y == x;
    } else {
      var xy := x + y;
      var y' := y[..|y| - 1];
      var d := y[|y| - 1] as int - '0' as int;
      assert xy[..|xy| - 1] == x + y';
      assert xy[|xy| - 1] == y[|y| - 1];
      assert DigitsValue(xy) == DigitsValue(x + y') * 10 + d;
      assert DigitsValue(y) == DigitsValue(y') * 10 + d;
      DigitsValueAppend(x, y');
      assert Pow10(|y|) == 10 * Pow10(|y'|);
      ShiftDigit(DigitsValue(x), Pow10(|y'|), DigitsValue(y'), d);
    }
  }

  /** Appending one digit to a shifted value: the arithmetic step of `DigitsValueAppend`. */
  lemma ShiftDigit(a: int, p: int, b: int, d: int)
    ensures (a * p + b) * 10 + d == a * (10 * p) + (b * 10 + d)
  {
  }

  /** The digits of separate groups are concatenated, not read as separate
      numbers: the count of `s + t` is the count of `s` shifted left by the
      number of digits of `t`, plus the count of `t`. */
  lemma ParsedCountConcatenates(s: string, t: string)
    ensures ParsedCount(s + t) == ParsedCount(s) * Pow10(|StripNonDigits(t)|) + ParsedCount(t)
  {
    StripAppend(s, t);
    DigitsValueAppend(StripNonDigits(s), StripNonDigits(t));
  }

  /** A range such as "1-50" reads as 150, so it gets 0.4 rather than 0.3. */
  lemma RangeTextReadsConcatenated()
    ensures ParsedCount("1-50") == 150
    ensures Brightness(Some("1-50")) == 4
  {
    assert StripNonDigits("1-50") == "150";
    assert "150"[..2] == "15" && "15"[..1] == "1" && "1"[..0] == "";
  }

  /** Examples of the table: "10,000+" is the brightest, "50" the dimmest. */
  lemma TenThousandPlusIsBrightest()
    ensures Brightness(Some("10,000+")) == HighestTenths
  {
    StripTenThousandPlus();
    DigitsOfTenThousand();
    assert ParsedCount("10,000+") == 10000;
  }

  lemma StripTenThousandPlus()
    ensures StripNonDigits("10,000+") == "10000"
  {
    assert StripNonDigits("+") == "" by { assert "+"[1..] == ""; }
    assert StripNonDigits("0+") == "0" by { assert "0+"[1..] == "+"; }
    assert StripNonDigits("00+") == "00" by { assert "00+"[1..] == "0+"; }
    assert StripNonDigits("000+") == "000" by { assert "000+"[1..] == "00+"; }
    assert StripNonDigits(",000+") == "000" by { assert ",000+"[1..] == "000+"; }
    assert StripNonDigits("0,000+") == "0000" by { assert "0,000+"[1..] == ",000+"; }
    assert "10,000+"[1..] == "0,000+";
  }

  lemma DigitsOfTenThousand()
    ensures DigitsValue("10000") == 10000
  {
    assert DigitsValue("1") == 1 by { assert "1"[..0] == ""; }
    assert DigitsValue("10") == 10 by { assert "10"[..1] == "1"; }
    assert DigitsValue("100") == 100 by { assert "100"[..2] == "10"; }
    assert DigitsValue("1000") == 1000 by { assert "1000"[..3] == "100"; }
    assert "10000"[..4] == "1000";
  }

  lemma FiftyIsDimmest()
    ensures Brightness(Some("50")) == LowestTenths
  {
    assert StripNonDigits("50") == "50";
    assert "50"[..1] == "5" && "5"[..0] == "";
  }

  /** A company founded in the current year sits exactly on the inner radius. */
  lemma OrbitAtFounding(year: int, maxRadius: real, minRadius: real)
    ensures OrbitRadius(year, maxRadius, minRadius, year) == minRadius
  {
  }

  /** From age 50 on, every company sits exactly on the outer radius. */
  lemma OrbitSaturates(founded: int, maxRadius: real, minRadius: real, currentYear: int)
    requires currentYear - founded >= MaxAge
    ensures OrbitRadius(founded, maxRadius, minRadius, currentYear) == maxRadius
  {
  }

  /** Older companies never orbit closer in (for minRadius <= maxRadius). */
  lemma OrbitMonotone(younger: int, older: int, maxRadius: real, minRadius: real, currentYear: int)
    requires older <= younger && minRadius <= maxRadius
    ensures OrbitRadius(younger, maxRadius, minRadius, currentYear) <= OrbitRadius(older, maxRadius, minRadius, currentYear)
  {
    var ty := (Min(currentYear - younger, MaxAge) as real) / (MaxAge as real);
    var to := (Min(currentYear - older, MaxAge) as real) / (MaxAge as real);
    assert ty <= to;
    assert (to - ty) * (maxRadius - minRadius) >= 0.0;
  }

  /** There is no lower clamp: a founding year after the current year puts the
      company inside the inner radius. */
  lemma OrbitBelowInnerForFutureFounding(founded: int, maxRadius: real, minRadius: real, currentYear: int)
    requires founded > currentYear && minRadius < maxRadius
    ensures OrbitRadius(founded, maxRadius, minRadius, currentYear) < minRadius
  {
    var t := ((currentYear - founded) as real) / (MaxAge as real);
    assert t < 0.0;
    assert t * (maxRadius - minRadius) < 0.0;
  }

  /** With the radii the layout uses, 15 and 60, the radius is 15 + 0.9 per year of age up to 50. */
  lemma OrbitWithLayoutRadii(founded: int, currentYear: int)
    ensures OrbitRadius(founded, 60.0, 15.0, currentYear) == 15.0 + 0.9 * (Min(currentYear - founded, MaxAge) as real)
  {
  }

  /** Founded 0, 10, 25 and 50 years ago: radii 15, 24, 37.5 and 60. */
  lemma OrbitExamples(currentYear: int)
    ensures OrbitRadius(currentYear, 60.0, 15.0, currentYear) == 15.0
    ensures OrbitRadius(currentYear - 10, 60.0, 15.0, currentYear) == 24.0
    ensures OrbitRadius(currentYear - 25, 60.0, 15.0, currentYear) == 37.5
    ensures OrbitRadius(currentYear - 50, 60.0, 15.0, currentYear) == 60.0
  {
  }
}
