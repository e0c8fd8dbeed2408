/** Printing decimal strings without ever leaving strings, and why the value stays exact. */
module Decimals {
  import opened Money

  predicate IsDigits(s: string) {
    forall i | 0 <= i < |s| :: '0' <= s[i] <= '9'
  }

  function Pow10(n: nat): nat {
    if n == 0 then 1 else 10 * Pow10(n - 1)
  }

  /** The natural number some digits spell. */
  function Val(s: string): int {
    if s == "" then 0 else 10 * Val(s[..|s| - 1]) + (s[|s| - 1] as int - '0' as int)
  }

  function IndexOf(s: string, c: char): (k: nat)
    ensures k <= |s| && (k < |s| ==> s[k] == c) && forall i | 0 <= i < k :: s[i] != c
  {
    if s == "" || s[0] == c then 0
    else
      var k := IndexOf(s[1..], c);
      assert forall i | 0 < i < k + 1 :: s[i] == s[1..][i - 1];
      k + 1
  }

  predicate IsNegative(s: string) { s != "" && s[0] == '-' }

  function Unsigned(s: string): string { if IsNegative(s) then s[1..] else s }

  /** The part before the point, and the part after it. */
  function Whole(s: string): string { var u := Unsigned(s); u[..IndexOf(u, '.')] }

  function Fraction(s: string): string {
    var u := Unsigned(s);
    var k := IndexOf(u, '.');
    if k < |u| then u[k + 1..] else ""
  }

  /** An optional sign, digits, and optionally a point and digits. */
  predicate IsDecimal(s: string) {
    IsDigits(Whole(s)) && IsDigits(Fraction(s))
  }

  function Sign(s: string): int { if IsNegative(s) then -1 else 1 }

  /** a and b are the same number: equal once written over a common power of ten. */
  predicate SameNumber(a: string, b: string) {
    Sign(a) * Val(Whole(a) + Fraction(a)) * Pow10(|Fraction(b)|)
    == Sign(b) * Val(Whole(b) + Fraction(b)) * Pow10(|Fraction(a)|)
  }

  function Zeros(n: nat): string {
    if n == 0 then "" else Zeros(n - 1) + "0"
  }

  function TrimZeros(s: string): string {
    if s != "" && s[|s| - 1] == '0' then TrimZeros(s[..|s| - 1]) else s
  }

  /* ---- amounts: thousands and at least two decimals ---- */

  /** A comma before every third digit from the right. */
  function Thousands(digits: string): string {
    if |digits| <= 3 then digits
    else Thousands(digits[..|digits| - 3]) + "," + digits[|digits| - 3..]
  }

  function Padded(fraction: string): string {
    var t := TrimZeros(fraction);
    t + Zeros(Max(2 - |t|, 0))
  }

  function AmountText(s: string): string {
    (if IsNegative(s) then "-" else "") + Thousands(Whole(s)) + "." + Padded(Fraction(s))
  }

  /** The first n digits with their commas, reading from the left. */
  function FromLeft(digits: string, n: nat): string
    requires n <= |digits|
  {
    if n == 0 then ""
    else FromLeft(digits, n - 1) + (if 1 < n && (|digits| - (n - 1)) % 3 == 0 then "," else "") + [digits[n - 1]]
  }

  lemma {:induction false} FromLeftPrefix(digits: string, n: nat)
    requires n + 3 <= |digits|
    ensures FromLeft(digits, n) == FromLeft(digits[..|digits| - 3], n)
  {
    if n > 0 {
      FromLeftPrefix(digits, n - 1);
    }
  }

  /** Three more digits add one comma. */
  lemma FromLeftThree(digits: string, n: nat)
    requires 0 < n && n + 3 == |digits|
    ensures FromLeft(digits, n + 3) == FromLeft(digits, n) + "," + digits[n..]
  {
    var front := FromLeft(digits, n);
    var a, b, c := [digits[n]], [digits[n + 1]], [digits[n + 2]];
    assert FromLeft(digits, n + 1) == front + "," + a;
    assert FromLeft(digits, n + 2) == front + "," + a + b;
    assert FromLeft(digits, n + 3) == front + "," + a + b + c;
    assert digits[n..] == a + b + c;
  }

  lemma {:induction false} FromLeftShort(digits: string, n: nat)
    requires n <= |digits| <= 3
    ensures FromLeft(digits, n) == digits[..n]
  {
    if n > 0 {
      FromLeftShort(digits, n - 1);
      assert digits[..n] == digits[..n - 1] + [digits[n - 1]];
    }
  }

  lemma ThousandsThree(digits: string)
    requires 3 < |digits|
    ensures Thousands(digits) == Thousands(digits[..|digits| - 3]) + "," + digits[|digits| - 3..]
  {
  }

  lemma {:induction false} FromLeftIsThousands(digits: string)
    ensures FromLeft(digits, |digits|) == Thousands(digits)
  {
    hide FromLeft;
    var n := |digits|;
    if n <= 3 {
      FromLeftShort(digits, n);
      assert digits[..n] == digits;
    } else {
      hide Thousands;
      FromLeftIsThousands(digits[..n - 3]);
      FromLeftPrefix(digits, n - 3);
      FromLeftThree(digits, n - 3);
      ThousandsThree(digits);
    }
  }

  method PadToTwo(fraction: string) returns (r: string)
    ensures r == fraction + Zeros(Max(2 - |fraction|, 0))
  {
    r := fraction;
    ghost var k: nat := 0;
    assert r == fraction + Zeros(0);
    while |r| < 2
      invariant r == fraction + Zeros(k) && |r| == |fraction| + k && (0 < k ==> |r| <= 2)
      decreases 2 - |r|
    {
      assert fraction + Zeros(k) + "0" == fraction + Zeros(k + 1);
      r, k := r + "0", k + 1;
    }
    assert k == Max(2 - |fraction|, 0);
  }

  method GroupThousands(whole: string) returns (grouped: string)
    ensures grouped == Thousands(whole)
  {
    grouped := "";
    for i := 0 to |whole|
      invariant grouped == FromLeft(whole, i)
    {
      if i > 0 && (|whole| - i) % 3 == 0 {
        grouped := grouped + ",";
      }
      grouped := grouped + [whole[i]];
    }
    FromLeftIsThousands(whole);
  }

  /** Works on the string itself: the sign, the grouped digits, the trimmed and padded fraction. */
  method FormatAmount(s: string) returns (r: string)
    ensures r == AmountText(s)
  {
    hide Thousands, Zeros, TrimZeros, IndexOf, Whole, Fraction;
    var sign := if IsNegative(s) then "-" else "";
    var fraction := PadToTwo(TrimZeros(Fraction(s)));
    var grouped := GroupThousands(Whole(s));
    r := sign + grouped + "." + fraction;
  }

  lemma {:induction false} ZerosLength(n: nat)
    ensures |Zeros(n)| == n && IsDigits(Zeros(n))
  {
    if n > 0 {
      ZerosLength(n - 1);
    }
  }

  /* ---- quantities: no insignificant digit ---- */

  function TrimPoint(s: string): string {
    if s != "" && s[|s| - 1] == '.' then s[..|s| - 1] else s
  }

  function FormatQty(s: string): string {
    if '.' !in s then s else TrimPoint(TrimZeros(s))
  }

  /* ---- neither changes the number ---- */

  function StripCommas(s: string): string {
    if s == "" then "" else StripCommas(s[..|s| - 1]) + (if s[|s| - 1] == ',' then "" else [s[|s| - 1]])
  }

  lemma {:induction false} StripConcat(a: string, b: string)
    ensures StripCommas(a + b) == StripCommas(a) + StripCommas(b)
  {
    if b == "" {
      assert a + b == a;
    } else {
      assert (a + b)[..|a + b| - 1] == a + b[..|b| - 1];
      StripConcat(a, b[..|b| - 1]);
    }
  }

  lemma {:induction false} StripNothing(s: string)
    requires forall i | 0 <= i < |s| :: s[i] != ','
    ensures StripCommas(s) == s
  {
    if s != "" {
      StripNothing(s[..|s| - 1]);
    }
  }

  lemma StripComma(a: string, b: string)
    ensures StripCommas(a + "," + b) == StripCommas(a) + StripCommas(b)
  {
    StripConcat(a + ",", b);
    assert (a + ",")[..|a|] == a;
  }

  lemma {:induction false} StripThousands(digits: string)
    requires IsDigits(digits)
    ensures StripCommas(Thousands(digits)) == digits
  {
    hide StripCommas;
    if |digits| <= 3 {
      StripNothing(digits);
    } else {
      var n := |digits| - 3;
      StripThousands(digits[..n]);
      StripComma(Thousands(digits[..n]), digits[n..]);
      StripNothing(digits[n..]);
      assert digits == digits[..n] + digits[n..];
    }
  }

  lemma {:induction false} PowAdd(m: nat, n: nat)
    ensures Pow10(m + n) == Pow10(m) * Pow10(n)
  {
    if m > 0 {
      PowAdd(m - 1, n);
    }
  }

  lemma ValZero(s: string)
    ensures Val(s + "0") == 10 * Val(s)
  {
    assert (s + "0")[..|s|] == s;
  }

  lemma ZerosNext(s: string, n: nat)
    requires 0 < n
    ensures s + Zeros(n) == (s + Zeros(n - 1)) + "0"
  {
  }

  lemma PowNext(v: int, n: nat)
    requires 0 < n
    ensures v * Pow10(n) == 10 * (v * Pow10(n - 1))
  {
  }

  lemma NoZeros(s: string)
    ensures s + Zeros(0) == s && Val(s) == Val(s) * Pow10(0)
  {
  }

  lemma {:induction false} ValZeros(s: string, n: nat)
    ensures Val(s + Zeros(n)) == Val(s) * Pow10(n)
  {
    hide *;
    if n == 0 {
      NoZeros(s);
    } else {
      ZerosNext(s, n);
      ValZero(s + Zeros(n - 1));
      ValZeros(s, n - 1);
      PowNext(Val(s), n);
    }
  }

  lemma {:induction false} TrimmedIs(s: string) returns (n: nat)
    ensures s == TrimZeros(s) + Zeros(n)
    ensures TrimZeros(s) != "" ==> TrimZeros(s)[|TrimZeros(s)| - 1] != '0'
  {
    if s != "" && s[|s| - 1] == '0' {
      var m := TrimmedIs(s[..|s| - 1]);
      n := m + 1;
      assert s == s[..|s| - 1] + "0";
    } else {
      n := 0;
    }
  }

  /** Trailing zeros of the fraction do not matter. */
  lemma ZerosDoNotMatter(sign: int, whole: string, t: string, m: nat, p: nat)
    ensures sign * Val(whole + (t + Zeros(m))) * Pow10(|t + Zeros(p)|)
            == sign * Val(whole + (t + Zeros(p))) * Pow10(|t + Zeros(m)|)
  {
    assert whole + (t + Zeros(m)) == (whole + t) + Zeros(m) && whole + (t + Zeros(p)) == (whole + t) + Zeros(p);
    ValZeros(whole + t, m);
    ValZeros(whole + t, p);
    ZerosLength(m);
    ZerosLength(p);
    PowAdd(|t|, m);
    PowAdd(|t|, p);
    Commute(sign, Val(whole + t), Pow10(|t|), Pow10(m), Pow10(p));
  }

  lemma Commute(sign: int, v: int, t: int, m: int, p: int)
    ensures sign * (v * m) * (t * p) == sign * (v * p) * (t * m)
  {
    calc {
      sign * (v * m) * (t * p);
      (sign * v * t) * (m * p);
      (sign * v * t) * (p * m);
      sign * (v * p) * (t * m);
    }
  }

  lemma CutsAt(whole: string, point: bool, fraction: string)
    requires IsDigits(whole) && (!point ==> fraction == "")
    ensures var u := whole + (if point then "." else "") + fraction;
            var k := IndexOf(u, '.');
            u[..k] == whole && (if k < |u| then u[k + 1..] else "") == fraction
  {
    hide IndexOf;
    var u := whole + (if point then "." else "") + fraction;
    if point {
      assert u[|whole|] == '.';
      assert IndexOf(u, '.') == |whole|;
    } else {
      assert u == whole;
    }
  }

  /** How a decimal written from its parts reads back. */
  lemma ReadsBack(negative: bool, whole: string, fraction: string, point: bool)
    requires IsDigits(whole) && IsDigits(fraction) && (!point ==> fraction == "")
    ensures var s := (if negative then "-" else "") + whole + (if point then "." else "") + fraction;
            Whole(s) == whole && Fraction(s) == fraction && Sign(s) == (if negative then -1 else 1) && IsDecimal(s)
  {
    hide IndexOf;
    var u := whole + (if point then "." else "") + fraction;
    var s := (if negative then "-" else "") + whole + (if point then "." else "") + fraction;
    assert s == (if negative then "-" else "") + u;
    assert Unsigned(s) == u;
    CutsAt(whole, point, fraction);
  }

  lemma SplitAt(u: string, k: nat)
    requires k < |u|
    ensures u == u[..k] + [u[k]] + u[k + 1..]
  {
  }

  lemma CutParts(u: string, k: nat)
    requires k == IndexOf(u, '.')
    ensures '.' in u <==> k < |u|
    ensures u == u[..k] + (if '.' in u then "." else "") + (if k < |u| then u[k + 1..] else "")
  {
    hide IndexOf;
    if k < |u| {
      SplitAt(u, k);
      assert u[k] in u;
    } else {
      assert u[..k] == u;
    }
  }

  lemma SignedParts(sign: string, a: string, b: string, c: string)
    ensures sign + (a + b + c) == sign + a + b + c
  {
  }

  lemma PartsOf(s: string)
    requires IsDecimal(s)
    ensures s == (if IsNegative(s) then "-" else "") + Whole(s) + (if '.' in s then "." else "") + Fraction(s)
    ensures '.' !in s ==> Fraction(s) == ""
  {
    hide IndexOf, IsDecimal;
    var u := Unsigned(s);
    var sign, point := if IsNegative(s) then "-" else "", if '.' in u then "." else "";
    CutParts(u, IndexOf(u, '.'));
    assert u == Whole(s) + point + Fraction(s);
    assert s == sign + u;
    assert '.' in s <==> '.' in u;
    hide *;
    SignedParts(sign, Whole(s), point, Fraction(s));
  }

  /** Two decimals that differ only by zeros at the end. */
  lemma SameButZeros(a: string, b: string, t: string, m: nat, p: nat)
    requires Whole(a) == Whole(b) && Sign(a) == Sign(b)
    requires Fraction(a) == t + Zeros(p) && Fraction(b) == t + Zeros(m)
    ensures SameNumber(a, b)
  {
    hide Val, Pow10, Whole, Fraction, Sign, Zeros;
    ZerosDoNotMatter(Sign(b), Whole(b), t, m, p);
  }

  lemma TrimDigits(s: string)
    requires IsDigits(s)
    ensures IsDigits(TrimZeros(s)) && IsDigits(Padded(s)) && 2 <= |Padded(s)|
    ensures 2 < |Padded(s)| ==> Padded(s)[|Padded(s)| - 1] != '0'
  {
    var m := TrimmedIs(s);
    NoZeros(TrimZeros(s));
    hide TrimZeros, Zeros;
    var t, p := TrimZeros(s), Max(2 - |TrimZeros(s)|, 0);
    ZerosLength(p);
    assert IsDigits(t) by {
      forall i | 0 <= i < |t| ensures '0' <= t[i] <= '9' { assert t[i] == s[i]; }
    }
    DigitsConcat(t, Zeros(p));
  }

  lemma DigitsConcat(a: string, b: string)
    requires IsDigits(a) && IsDigits(b)
    ensures IsDigits(a + b)
  {
  }

  lemma StripAmount(s: string)
    requires IsDecimal(s)
    ensures StripCommas(AmountText(s)) == (if IsNegative(s) then "-" else "") + Whole(s) + "." + Padded(Fraction(s))
  {
    var sign := if IsNegative(s) then "-" else "";
    var whole, padded := Whole(s), Padded(Fraction(s));
    TrimDigits(Fraction(s));
    hide Whole, Fraction, Padded, Thousands, StripCommas, IsNegative;
    StripConcat(sign + Thousands(whole) + ".", padded);
    StripConcat(sign + Thousands(whole), ".");
    StripConcat(sign, Thousands(whole));
    StripThousands(whole);
    StripNothing(sign);
    StripNothing(".");
    StripNothing(padded);
  }

  /** Printed with thousands separators and two or more decimals, an amount keeps its exact value,
      and shows no zero it need not. */
  lemma AmountKeepsValue(s: string)
    requires IsDecimal(s)
    ensures SameNumber(StripCommas(AmountText(s)), s) && IsDecimal(StripCommas(AmountText(s)))
    ensures 2 <= |Padded(Fraction(s))|
    ensures 2 < |Padded(Fraction(s))| ==> Padded(Fraction(s))[|Padded(Fraction(s))| - 1] != '0'
  {
    hide SameNumber, Whole, Fraction, AmountText, StripCommas, Zeros, TrimZeros, IsNegative;
    var t := TrimZeros(Fraction(s));
    var m := TrimmedIs(Fraction(s));
    TrimDigits(Fraction(s));
    StripAmount(s);
    ReadsBack(IsNegative(s), Whole(s), Padded(Fraction(s)), true);
    SameButZeros(StripCommas(AmountText(s)), s, t, m, Max(2 - |t|, 0));
  }

  lemma {:induction false} TrimStops(a: string, b: string)
    requires a != "" && a[|a| - 1] != '0'
    ensures TrimZeros(a + b) == a + TrimZeros(b)
    decreases |b|
  {
    if b == "" {
      assert a + b == a;
    } else if b[|b| - 1] == '0' {
      assert (a + b)[..|a + b| - 1] == a + b[..|b| - 1];
      TrimStops(a, b[..|b| - 1]);
    } else {
      assert (a + b)[|a + b| - 1] == b[|b| - 1];
    }
  }

  /** The shape a quantity is printed in. */
  function QtyShape(s: string, t: string): string {
    (if IsNegative(s) then "-" else "") + Whole(s) + (if t != "" then "." else "") + t
  }

  lemma QtyEnds(s: string, t: string)
    requires IsDecimal(s) && (t != "" ==> t[|t| - 1] != '0')
    ensures '.' in QtyShape(s, t) ==> t != "" && QtyShape(s, t)[|QtyShape(s, t)| - 1] != '0'
  {
    hide Whole;
    if t == "" {
      NoPoint(if IsNegative(s) then "-" else "", Whole(s));
      assert QtyShape(s, t) == (if IsNegative(s) then "-" else "") + Whole(s);
    } else {
      assert QtyShape(s, t)[|QtyShape(s, t)| - 1] == t[|t| - 1];
    }
  }

  lemma QtyWithPoint(s: string)
    requires IsDecimal(s) && '.' in s
    ensures SameNumber(FormatQty(s), s) && IsDecimal(FormatQty(s))
    ensures Fraction(FormatQty(s)) == TrimZeros(Fraction(s))
    ensures '.' in FormatQty(s) ==> Fraction(FormatQty(s)) != "" && FormatQty(s)[|FormatQty(s)| - 1] != '0'
  {
    hide SameNumber, Whole, Fraction, FormatQty, Zeros, TrimZeros, IsNegative, IsDigits;
    var t := TrimZeros(Fraction(s));
    var m := TrimmedIs(Fraction(s));
    QtyText(s);
    assert FormatQty(s) == QtyShape(s, t);
    TrimDigits(Fraction(s));
    ReadsBack(IsNegative(s), Whole(s), t, t != "");
    QtyEnds(s, t);
    hide *;
    NoZeros(t);
    SameButZeros(FormatQty(s), s, t, m, 0);
  }

  /** A quantity keeps its exact value and loses every insignificant digit of its fraction. */
  lemma QtyKeepsValue(s: string)
    requires IsDecimal(s)
    ensures SameNumber(FormatQty(s), s) && IsDecimal(FormatQty(s))
    ensures '.' in s ==> Fraction(FormatQty(s)) == TrimZeros(Fraction(s))
    ensures '.' in FormatQty(s) && '.' in s ==> Fraction(FormatQty(s)) != "" && FormatQty(s)[|FormatQty(s)| - 1] != '0'
  {
    hide Whole, Fraction, Val, Pow10, TrimZeros, TrimPoint, IsDecimal;
    if '.' in s {
      QtyWithPoint(s);
    }
  }

  lemma QtyText(s: string)
    requires IsDecimal(s) && '.' in s
    ensures var t := TrimZeros(Fraction(s));
            FormatQty(s) == (if IsNegative(s) then "-" else "") + Whole(s) + (if t != "" then "." else "") + t
  {
    var sign := if IsNegative(s) then "-" else "";
    var whole, fraction := Whole(s), Fraction(s);
    PartsOf(s);
    var m := TrimmedIs(fraction);
    TrimDigits(fraction);
    TrimStops(sign + whole + ".", fraction);
    hide TrimZeros, Whole, Fraction, IsNegative;
    TrimPointOf(sign + whole, TrimZeros(fraction));
  }

  lemma TrimPointOf(front: string, t: string)
    requires IsDigits(t)
    ensures TrimPoint(front + "." + t) == front + (if t != "" then "." else "") + t
  {
    var all := front + "." + t;
    if t == "" {
      assert all == front + ".";
      assert all[..|all| - 1] == front;
    } else {
      assert all[|all| - 1] == t[|t| - 1];
    }
  }

  lemma NoPoint(sign: string, whole: string)
    requires IsDigits(whole) && (sign == "" || sign == "-")
    ensures '.' !in sign + whole
  {
  }
}
