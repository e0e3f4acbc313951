/**
 * Amounts as text (amount_to_string and amount_from_string in libraries/chain/asset_object.cpp):
 * an integer number of the smallest unit, written with up to `precision` decimals.
 */
module AmountText {
  import opened Common


  const INT64_MAX: int := 0x7FFF_FFFF_FFFF_FFFF

  predicate IsDigit(c: char) { '0' <= c <= '9' }

  predicate AllDigits(s: string) {
    forall i :: 0 <= i < |s| ==> IsDigit(s[i])
  }

  function DigitOf(n: nat): (c: char)
    requires n < 10
    ensures IsDigit(c) && c as int - '0' as int == n
  {
    (n + '0' as int) as char
  }

  /** Decimal notation, as std::to_string writes it. */
  function Digits(n: nat): (s: string)
    ensures s != [] && AllDigits(s)
  {
    if n < 10 then [DigitOf(n)] else Digits(n / 10) + [DigitOf(n % 10)]
  }

  function Value(s: string): nat
    requires AllDigits(s)
  {
    if s == [] then 0 else Value(s[..|s| - 1]) * 10 + (s[|s| - 1] as int - '0' as int)
  }

  function Pow10(n: nat): (p: nat)
    ensures p > 0
  {
    if n == 0 then 1 else 10 * Pow10(n - 1)
  }

  // ---------- printing ----------

  function Printed(amount: nat, precision: nat): string {
    PrintedIn(amount, Pow10(precision), precision)
  }

  function PrintedIn(amount: nat, unit: nat, precision: nat): string
    requires unit > 0
  {
    PrintedParts(amount / unit, amount % unit, precision)
  }

  /** The whole units, and the rest behind a point unless it is 0. */
  function PrintedParts(whole: nat, rest: nat, precision: nat): string {
    if rest == 0 then Digits(whole) else Digits(whole) + ("." + Digits(Pow10(precision) + rest)[1..])
  }

  method AmountToString(amount: nat, precision: nat) returns (s: string)
    ensures s == Printed(amount, precision)
  {
    var unit := 1;
    for i := 0 to precision
      invariant unit == Pow10(i)
    {
      unit := unit * 10;
    }
    s := Digits(amount / unit);
    var decimals := amount % unit;
    if decimals != 0 {
      s := s + ("." + Digits(unit + decimals)[1..]);
    }
  }

  // ---------- parsing ----------

  /** The length of the leading run of digits. */
  function Run(s: string): (n: nat)
    ensures n <= |s| && AllDigits(s[..n])
  {
    if s == [] || !IsDigit(s[0]) then 0
    else
      var n := Run(s[1..]);
      assert forall i :: 1 <= i < n + 1 ==> s[i] == s[1..][..n][i - 1];
      n + 1
  }

  /** std::stoll: an optional minus sign and the leading digits; without digits, or out of range, it throws. */
  function Stoll(s: string): Option<int> {
    var negative := s != [] && s[0] == '-';
    var body := if negative then s[1..] else s;
    var n := Run(body);
    if n == 0 then None
    else
      var v: int := Value(body[..n]);
      if v > (if negative then INT64_MAX + 1 else INT64_MAX) then None else Some(if negative then -v else v)
  }

  /** The scan at the start: digits, at most one minus sign and at most one point, anywhere. */
  datatype Scan = Scan(negative: bool, decimal: bool) | Bad

  function Step(sc: Scan, c: char): Scan {
    if sc.Bad? || IsDigit(c) then sc
    else if c == '-' && !sc.negative then sc.(negative := true)
    else if c == '.' && !sc.decimal then sc.(decimal := true)
    else Bad
  }

  function Scanned(s: string): Scan {
    if s == [] then Scan(false, false) else Step(Scanned(s[..|s| - 1]), s[|s| - 1])
  }

  /** What the scan lets pass: digits, one minus sign at most and one point at most, in any places. */
  lemma {:induction false} ScannedExactly(s: string)
    ensures var sc := Scanned(s);
      && (sc != Bad <==>
            && (forall c :: c in s ==> IsDigit(c) || c == '-' || c == '.')
            && multiset(s)['-'] <= 1 && multiset(s)['.'] <= 1)
      && (sc != Bad ==> (sc.negative <==> multiset(s)['-'] == 1) && (sc.decimal <==> multiset(s)['.'] == 1))
  {
    if s != [] {
      var n := |s| - 1;
      ScannedExactly(s[..n]);
      assert s == s[..n] + [s[n]];
      assert forall c :: c in s <==> c in s[..n] || c == s[n];
    }
  }

  /** The position of the first point, or the length if there is none. */
  function Point(s: string): (n: nat)
    ensures n <= |s| && '.' !in s[..n] && (n < |s| ==> s[n] == '.')
  {
    if s == [] || s[0] == '.' then 0
    else
      assert s == [s[0]] + s[1..];
      1 + Point(s[1..])
  }

  /** substr: a count past the end stops at the end. */
  function Substr(s: string, from: nat, count: nat): string
    requires from <= |s|
  {
    if from + count > |s| then s[from..] else s[from..from + count]
  }

  function Padded(s: string, n: nat): (r: string)
    ensures |r| == if n > |s| then n else |s|
    decreases n - |s|
  {
    if |s| < n then Padded(s + "0", n) else s
  }

  /** The part before the point, in smallest units; it has to fit 64 bits. */
  function WholePart(lhs: string, unit: nat): Option<int> {
    var whole := if lhs == [] then Some(0) else Stoll(lhs);
    if whole == None || whole.value * unit > INT64_MAX || whole.value * unit < -INT64_MAX - 1 then None
    else Some(whole.value * unit)
  }

  /** The part behind the point, padded with zeros to all decimals; more decimals than the precision are refused. */
  function FractionPart(rhs: string, size: nat): Option<int> {
    if |rhs| > size then None
    else if Padded(rhs, size) == [] then Some(0)
    else Stoll(Padded(rhs, size))
  }

  /** How many decimals there can be: the digits of the unit after its leading 1. */
  function Decimals(precision: nat): nat {
    |Digits(Pow10(precision))| - 1
  }

  /** None when the text is refused. */
  function Parsed(s: string, precision: nat): Option<int> {
    ParsedFrom(s, Scanned(s), precision, Pow10(precision), Point(s), Decimals(precision))
  }

  function ParsedFrom(s: string, sc: Scan, precision: nat, unit: nat, point: nat, decimals: nat): Option<int>
  {
    if sc.Bad? || precision >= 19 || (sc.negative && s == []) then None
    else
      var whole := WholePart(Substr(s, if sc.negative then 1 else 0, point), unit);
      if whole == None then None
      else if !sc.decimal then Finished(whole.value, sc.negative)
      else if point >= |s| then None
      else match FractionPart(s[point + 1..], decimals)
        case None => None
        case Some(d) => Finished(whole.value + d, sc.negative)
  }

  function Finished(satoshis: int, negative: bool): Option<int> {
    if satoshis > MAX_SHARE_SUPPLY then None else Some(if negative then -satoshis else satoshis)
  }

  method AmountFromString(s: string, precision: nat) returns (r: Option<int>)
    ensures r == Parsed(s, precision)
  {
    var sc := ScanText(s);
    if sc.Bad? || precision >= 19 || (sc.negative && s == []) { return None; }
    var unit, point := Pow10(precision), Point(s);
    var whole := ScaledWhole(Substr(s, if sc.negative then 1 else 0, point), unit);
    if whole == None { return None; }
    var satoshis := whole.value;
    if sc.decimal {
      if point >= |s| { return None; }
      var d := AddDecimals(s[point + 1..], Decimals(precision));
      if d == None { return None; }
      satoshis := satoshis + d.value;
    }
    r := Finished(satoshis, sc.negative);
  }

  method ScaledWhole(lhs: string, unit: nat) returns (r: Option<int>)
    ensures r == WholePart(lhs, unit)
  {
    if lhs == [] { return Some(0); }
    var whole := Stoll(lhs);
    if whole == None { return None; }
    var satoshis := whole.value * unit;
    r := if satoshis > INT64_MAX || satoshis < -INT64_MAX - 1 then None else Some(satoshis);
  }

  method ScanText(s: string) returns (sc: Scan)
    ensures sc == Scanned(s)
  {
    var negative, decimal := false, false;
    for i := 0 to |s|
      invariant Scanned(s[..i]) == Scan(negative, decimal)
    {
      assert s[..i + 1][..i] == s[..i];
      var c := s[i];
      if IsDigit(c) {
      } else if c == '-' && !negative {
        negative := true;
      } else if c == '.' && !decimal {
        decimal := true;
      } else {
        BadStays(s, i + 1);
        return Bad;
      }
    }
    assert s[..|s|] == s;
    sc := Scan(negative, decimal);
  }

  method AddDecimals(given: string, size: nat) returns (r: Option<int>)
    ensures r == FractionPart(given, size)
  {
    if |given| > size { return None; }
    var rhs := given;
    while |rhs| < size
      invariant |rhs| <= size && Padded(rhs, size) == Padded(given, size)
    {
      rhs := rhs + "0";
    }
    if rhs == [] { return Some(0); }
    r := Stoll(rhs);
  }

  lemma {:induction false} BadStays(s: string, i: nat)
    requires i <= |s| && Scanned(s[..i]) == Bad
    ensures Scanned(s) == Bad
    decreases |s| - i
  {
    if i < |s| {
      assert s[..i + 1][..i] == s[..i];
      BadStays(s, i + 1);
    } else {
      assert s[..i] == s;
    }
  }

  // ---------- the round trip ----------

  lemma {:induction false} ValueOfDigits(n: nat)
    ensures Value(Digits(n)) == n
  {
    if n >= 10 {
      ValueOfDigits(n / 10);
      assert Digits(n)[..|Digits(n)| - 1] == Digits(n / 10);
    } else {
      assert Digits(n)[..0] == [];
    }
  }

  /** The decimals of `d`, zero-padded to `p` places. */
  function Fixed(d: nat, p: nat): (s: string)
    ensures |s| == p && AllDigits(s)
  {
    if p == 0 then [] else Fixed(d / 10, p - 1) + [DigitOf(d % 10)]
  }

  lemma {:induction false} ValueOfFixed(d: nat, p: nat)
    requires d < Pow10(p)
    ensures Value(Fixed(d, p)) == d
    decreases p
  {
    if p > 0 {
      ValueOfFixed(d / 10, p - 1);
      assert Fixed(d, p)[..p - 1] == Fixed(d / 10, p - 1);
    }
  }

  /** Adding the unit and erasing the leading 1 is zero-padding. */
  lemma {:induction false} UnitPads(d: nat, p: nat)
    requires d < Pow10(p)
    ensures Digits(Pow10(p) + d) == "1" + Fixed(d, p)
    decreases p
  {
    if p > 0 {
      assert (Pow10(p) + d) / 10 == Pow10(p - 1) + d / 10 && (Pow10(p) + d) % 10 == d % 10;
      UnitPads(d / 10, p - 1);
      assert "1" + Fixed(d / 10, p - 1) + [DigitOf(d % 10)] == "1" + Fixed(d, p);
    }
  }

  lemma {:induction false} RunOfDigits(s: string)
    requires AllDigits(s)
    ensures Run(s) == |s|
  {
    if s != [] { RunOfDigits(s[1..]); }
  }

  lemma StollOfDigits(s: string)
    requires AllDigits(s) && s != [] && Value(s) <= INT64_MAX
    ensures Stoll(s) == Some(Value(s))
  {
    RunOfDigits(s);
    assert s[..|s|] == s;
  }

  lemma {:induction false} ScanOfDigits(s: string, t: string)
    requires AllDigits(t)
    ensures Scanned(s + t) == Scanned(s)
    decreases |t|
  {
    if t == [] {
      assert s + t == s;
    } else {
      var n := |t| - 1;
      assert (s + t)[..|s + t| - 1] == s + t[..n];
      ScanOfDigits(s, t[..n]);
    }
  }

  lemma {:induction false} PointAfterDigits(s: string, t: string)
    requires AllDigits(s)
    ensures Point(s + t) == |s| + Point(t)
    decreases |s|
  {
    if s == [] {
      assert s + t == t;
    } else {
      assert (s + t)[1..] == s[1..] + t;
      PointAfterDigits(s[1..], t);
    }
  }

  lemma {:induction false} Pow10Bound(p: nat)
    requires p <= 18
    ensures Pow10(p) <= MAX_SHARE_SUPPLY
  {
    Pow10Grows(p, 18);
    assert Pow10(18) == MAX_SHARE_SUPPLY by {
      assert Pow10(6) == 1000000;
      assert Pow10(12) == 1000000000000 by { assert Pow10(9) == 1000000000; }
      assert Pow10(15) == 1000000000000000;
    }
  }

  lemma {:induction false} Pow10Grows(p: nat, q: nat)
    requires p <= q
    ensures Pow10(p) <= Pow10(q)
    decreases q
  {
    if p < q { Pow10Grows(p, q - 1); }
  }

  lemma AtLeastItself(q: nat, unit: nat)
    requires unit > 0
    ensures q <= q * unit
  {
  }

  lemma WholePartOfDigits(q: nat, unit: nat)
    requires q <= q * unit <= MAX_SHARE_SUPPLY
    ensures WholePart(Digits(q), unit) == Some(q * unit)
  {
    ValueOfDigits(q);
    StollOfDigits(Digits(q));
  }

  lemma FractionPartOfFixed(d: nat, p: nat)
    requires 0 < p <= 18 && d < Pow10(p)
    ensures FractionPart(Fixed(d, p), p) == Some(d)
  {
    Pow10Bound(p);
    ValueOfFixed(d, p);
    StollOfDigits(Fixed(d, p));
  }

  lemma DecimalsArePrecision(p: nat)
    ensures Decimals(p) == p
  {
    UnitPads(0, p);
  }

  /** Without a fraction there is no point: the digits are the whole amount. */
  lemma NoPoint(s: string)
    requires AllDigits(s)
    ensures Scanned(s) == Scan(false, false) && Point(s) == |s| && Substr(s, 0, |s|) == s
  {
    ScanOfDigits("", s);
    PointAfterDigits(s, "");
    assert "" + s == s && s + "" == s;
  }

  lemma ParsesAfterPoint(l: string, whole: int, d: nat, p: nat)
    requires 0 < p <= 18 && d < Pow10(p) && AllDigits(l) && l != []
    requires WholePart(l, Pow10(p)) == Some(whole) && 0 <= whole && whole + d <= MAX_SHARE_SUPPLY
    ensures Parsed(l + ("." + Fixed(d, p)), p) == Some(whole + d)
  {
    FractionPartOfFixed(d, p);
    ParsesParts(l, Fixed(d, p), p, whole, d);
  }

  lemma ParsesParts(l: string, r: string, p: nat, whole: int, d: nat)
    requires p <= 18 && AllDigits(l) && AllDigits(r) && l != []
    requires WholePart(l, Pow10(p)) == Some(whole) && FractionPart(r, p) == Some(d)
    requires 0 <= whole && whole + d <= MAX_SHARE_SUPPLY
    ensures Parsed(l + ("." + r), p) == Some(whole + d)
  {
    SplitsAtPoint(l, r);
    DecimalsArePrecision(p);
    ParsesSplit(l + ("." + r), l, r, p, Pow10(p), whole, d, p);
  }

  lemma ParsesSplit(s: string, l: string, r: string, p: nat, unit: nat, whole: int, d: nat, decimals: nat)
    requires p <= 18 && |l| < |s| && Substr(s, 0, |l|) == l && s[|l| + 1..] == r
    requires WholePart(l, unit) == Some(whole) && FractionPart(r, decimals) == Some(d)
    requires 0 <= whole && whole + d <= MAX_SHARE_SUPPLY
    ensures ParsedFrom(s, Scan(false, true), p, unit, |l|, decimals) == Some(whole + d)
  {
  }

  lemma SplitsAtPoint(l: string, r: string)
    requires AllDigits(l) && AllDigits(r)
    ensures var s := l + ("." + r);
      Scanned(s) == Scan(false, true) && Point(s) == |l| && Substr(s, 0, |l|) == l && s[|l| + 1..] == r
  {
    ScansPast(l, r);
    PointAfterDigits(l, "." + r);
    assert ("." + r)[0] == '.';
  }

  lemma ScansPast(l: string, r: string)
    requires AllDigits(l) && AllDigits(r)
    ensures Scanned(l + ("." + r)) == Scan(false, true)
  {
    var s := l + ".";
    ScanToPoint(l, s);
    ScanOfDigits(s, r);
    assert s + r == l + ("." + r);
  }

  lemma ScanToPoint(l: string, s: string)
    requires AllDigits(l) && s == l + "."
    ensures Scanned(s) == Scan(false, true)
  {
    ScanOfDigits("", l);
    assert "" + l == l && s[..|s| - 1] == l;
  }

  lemma PartsParseBack(q: nat, d: nat, p: nat, whole: nat)
    requires p <= 18 && d < Pow10(p) && whole == q * Pow10(p) && q <= whole && whole + d <= MAX_SHARE_SUPPLY
    ensures Parsed(PrintedParts(q, d, p), p) == Some(whole + d)
  {
    WholePartOfDigits(q, Pow10(p));
    TextParsesBack(Digits(q), PrintedParts(q, d, p), whole, d, p);
  }

  lemma TextParsesBack(l: string, text: string, whole: int, d: nat, p: nat)
    requires p <= 18 && d < Pow10(p) && AllDigits(l) && l != []
    requires text == if d == 0 then l else l + ("." + Digits(Pow10(p) + d)[1..])
    requires WholePart(l, Pow10(p)) == Some(whole) && 0 <= whole && whole + d <= MAX_SHARE_SUPPLY
    ensures Parsed(text, p) == Some(whole + d)
  {
    if d == 0 {
      NoPoint(l);
    } else {
      UnitPads(d, p);
      assert ("1" + Fixed(d, p))[1..] == Fixed(d, p);
      ParsesAfterPoint(l, whole, d, p);
    }
  }

  lemma PrintedAs(amount: nat, p: nat) returns (q: nat, d: nat)
    ensures Printed(amount, p) == PrintedParts(q, d, p)
    ensures d < Pow10(p) && q * Pow10(p) + d == amount && q <= q * Pow10(p)
  {
    q, d := DivMod(amount, Pow10(p));
  }

  lemma DivMod(amount: nat, unit: nat) returns (q: nat, d: nat)
    requires unit > 0
    ensures q == amount / unit && d == amount % unit
    ensures d < unit && q * unit + d == amount && q <= q * unit
  {
    q, d := amount / unit, amount % unit;
    assert q * unit + d == amount;
    AtLeastItself(q, unit);
  }

  /** Printing and parsing back gives every amount up to the maximum share supply, at every precision. */
  lemma PrintedParsesBack(amount: nat, precision: nat)
    requires amount <= MAX_SHARE_SUPPLY && precision <= 18
    ensures Parsed(Printed(amount, precision), precision) == Some(amount)
  {
    var q, d := PrintedAs(amount, precision);
    AmountParsesBack(Printed(amount, precision), q, d, precision, amount);
  }

  lemma AmountParsesBack(text: string, q: nat, d: nat, p: nat, amount: nat)
    requires p <= 18 && d < Pow10(p) && q * Pow10(p) + d == amount <= MAX_SHARE_SUPPLY && q <= q * Pow10(p)
    requires text == PrintedParts(q, d, p)
    ensures Parsed(text, p) == Some(amount)
  {
    PartsParseBack(q, d, p, q * Pow10(p));
  }

  /** Hence no two amounts are printed alike. */
  lemma PrintedIsInjective(a: nat, b: nat, precision: nat)
    requires a <= MAX_SHARE_SUPPLY && b <= MAX_SHARE_SUPPLY && precision <= 18
    requires Printed(a, precision) == Printed(b, precision)
    ensures a == b
  {
    PrintedParsesBack(a, precision);
    PrintedParsesBack(b, precision);
  }
}
