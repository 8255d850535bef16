/** The decimal-place check on payments: nDecimals applied to the text of a number
    (server/api/actions/transactions.js:392-396). */
module Decimals {
  import opened Tax

  predicate IsDigit(c: char) { '0' <= c <= '9' }

  ghost predicate AllDigits(t: string) {
    forall i :: 0 <= i < |t| ==> IsDigit(t[i])
  }

  // ---------- the regular expression (?:\.(\d+))?(?:[eE]([+-]?\d+))?$ ----------

  /** The end of the longest run of digits that starts at i. */
  function DigitsEnd(t: string, i: nat): (j: nat)
    requires i <= |t|
    ensures i <= j <= |t|
    decreases |t| - i
  {
    if i < |t| && IsDigit(t[i]) then DigitsEnd(t, i + 1) else i
  }

  /** The end of the optional group \.(\d+) at i. */
  function FractionEnd(t: string, i: nat): (j: nat)
    requires i <= |t|
    ensures i <= j <= |t|
  {
    if i < |t| && t[i] == '.' && DigitsEnd(t, i + 1) > i + 1 then DigitsEnd(t, i + 1) else i
  }

  /** The place of the exponent's digits, behind [eE] and an optional sign. */
  function ExponentDigits(t: string, i: nat): (j: nat)
    requires i < |t|
    ensures i < j <= |t|
  {
    if i + 1 < |t| && (t[i + 1] == '+' || t[i + 1] == '-') then i + 2 else i + 1
  }

  /** The end of the optional group [eE]([+-]?\d+) at i. */
  function ExponentEnd(t: string, i: nat): (j: nat)
    requires i <= |t|
    ensures i <= j <= |t|
  {
    if i < |t| && (t[i] == 'e' || t[i] == 'E') && DigitsEnd(t, ExponentDigits(t, i)) > ExponentDigits(t, i)
    then DigitsEnd(t, ExponentDigits(t, i)) else i
  }

  /** The expression matches at i; taking the longest groups loses no match (MatchesAsRegex). */
  predicate MatchesAt(t: string, i: nat)
    requires i <= |t|
  {
    ExponentEnd(t, FractionEnd(t, i)) == |t|
  }

  /** The leftmost match from i on; at the end of the text the expression always matches. */
  function Search(t: string, i: nat): (j: nat)
    requires i <= |t|
    ensures i <= j <= |t| && MatchesAt(t, j)
    decreases |t| - i
  {
    if i == |t| || MatchesAt(t, i) then i else Search(t, i + 1)
  }

  function ParseDigits(t: string): nat
    requires forall c :: c in t ==> IsDigit(c)
  {
    if t == [] then 0
    else
      assert t[|t| - 1] in t && IsDigit(t[|t| - 1]);
      10 * ParseDigits(t[..|t| - 1]) + (t[|t| - 1] as int - '0' as int)
  }

  /** The unary plus on the exponent's text. */
  function ParseInt(t: string): int {
    var digits := if t != [] && (t[0] == '+' || t[0] == '-') then t[1..] else t;
    if forall c :: c in digits ==> IsDigit(c) then
      var v: int := ParseDigits(digits);
      if t != [] && t[0] == '-' then -v else v
    else 0
  }

  function Max(x: int, y: int): int { if x < y then y else x }

  /** nDecimals, on the text of the number. */
  function NDecimals(t: string): int {
    var i := Search(t, 0);
    var j := FractionEnd(t, i);
    Max(0, (if j > i then j - i - 1 else 0) - if j < |t| then ParseInt(t[j + 1..]) else 0)
  }

  // ---------- Number to string (ECMA-262 edition 5.1, section 9.8.1) ----------

  function DigitChar(d: nat): char
    requires d < 10
  {
    '0' + d as char
  }

  /** The decimal text of a natural number, without leading zeros. */
  function Decimal(m: nat): (t: string)
    ensures t != [] && forall c :: c in t ==> IsDigit(c)
  {
    if m < 10 then [DigitChar(m)] else Decimal(m / 10) + [DigitChar(m % 10)]
  }

  function Zeros(n: nat): (t: string)
    ensures |t| == n && forall c :: c in t ==> c == '0'
  {
    seq(n, _ => '0')
  }

  /** The digits s of a positive number s * 10^(n - |s|): as few as possible. */
  ghost predicate ShortestDigits(s: string) {
    s != [] && AllDigits(s) && s[0] != '0' && s[|s| - 1] != '0'
  }

  /** The exponent's text. */
  function Exponent(m: int): string {
    "e" + (if m < 0 then "-" else "+") + Decimal(if m < 0 then -m else m)
  }

  /** Whether the text of s * 10^(n - |s|) has an exponent (steps 9 and 10 of the section). */
  predicate HasExponent(n: int) { n <= -6 || n > 21 }

  /** What stands before the decimal point, ... */
  function Head(s: string, n: int): string
    requires s != []
  {
    if HasExponent(n) then s[..1] else if |s| <= n then s + Zeros(n - |s|) else if n > 0 then s[..n] else "0"
  }

  /** ... behind it, ... */
  function Fraction(s: string, n: int): string
    requires s != []
  {
    if HasExponent(n) then (if |s| == 1 then "" else "." + s[1..])
    else if |s| <= n then ""
    else if n > 0 then "." + s[n..]
    else "." + (Zeros(-n) + s)
  }

  /** ... and the exponent. */
  function Tail(n: int): string { if HasExponent(n) then Exponent(n - 1) else "" }

  /** The text of s * 10^(n - |s|), steps 6 to 10 of the section. */
  function Text(s: string, n: int): string
    requires s != []
  {
    Head(s, n) + Fraction(s, n) + Tail(n)
  }

  /** 10^e for any integer e. */
  function Power(e: int): real {
    if e >= 0 then Pow10(e) else 1.0 / Pow10(-e)
  }

  function Scaled(digits: nat, e: int): real { digits as real * Power(e) }

  /** The number that Text(s, n) stands for. */
  function Value(s: string, n: int): real
    requires forall c :: c in s ==> IsDigit(c)
  {
    Scaled(ParseDigits(s), n - |s|)
  }

  // ---------- finding the match ----------

  lemma {:induction false} DigitsEndIs(t: string, i: nat, j: nat)
    requires i <= j <= |t| && (forall k :: i <= k < j ==> IsDigit(t[k])) && (j < |t| ==> !IsDigit(t[j]))
    ensures DigitsEnd(t, i) == j
    decreases j - i
  {
    if i < j {
      DigitsEndIs(t, i + 1, j);
    }
  }

  /** Digits and signs in front of the match are skipped. */
  lemma {:induction false} SearchSkips(t: string, i: nat, j: nat)
    requires i <= j <= |t| && MatchesAt(t, j)
    requires forall k :: i <= k < j ==> IsDigit(t[k]) || t[k] == '-'
    ensures Search(t, i) == j
    decreases j - i
  {
    if i < j {
      SearchSkips(t, i + 1, j);
    }
  }

  /** A fraction is empty, or a point with digits. */
  ghost predicate IsFraction(f: string) {
    f == "" || (|f| > 1 && f[0] == '.' && AllDigits(f[1..]))
  }

  /** An exponent is empty, or 'e' or 'E', an optional sign and digits. */
  ghost predicate IsExponent(x: string) {
    x == "" || ((x[0] == 'e' || x[0] == 'E') && |x| > ExponentDigits(x, 0) && AllDigits(x[ExponentDigits(x, 0)..]))
  }

  lemma FractionMatches(head: string, fraction: string, exponent: string)
    requires IsFraction(fraction) && IsExponent(exponent)
    ensures FractionEnd(head + fraction + exponent, |head|) == |head| + |fraction|
  {
    var t := head + fraction + exponent;
    var i, j := |head|, |head| + |fraction|;
    if fraction != "" {
      forall k | i + 1 <= k < j ensures IsDigit(t[k]) {
        assert t[k] == fraction[1..][k - i - 1];
      }
      DigitsEndIs(t, i + 1, j);
    }
  }

  lemma ExponentMatches(front: string, exponent: string)
    requires IsExponent(exponent)
    ensures ExponentEnd(front + exponent, |front|) == |front| + |exponent|
  {
    var t := front + exponent;
    var j := |front|;
    if exponent != "" {
      var d := ExponentDigits(exponent, 0);
      assert t[j] == exponent[0] && t[j + 1] == exponent[1];
      assert ExponentDigits(t, j) == j + d;
      forall k | j + d <= k < |t| ensures IsDigit(t[k]) {
        assert t[k] == exponent[d..][k - j - d];
      }
      DigitsEndIs(t, j + d, |t|);
    }
  }

  lemma {:induction false} DigitsEndDigits(t: string, i: nat)
    requires i <= |t|
    ensures AllDigits(t[i..DigitsEnd(t, i)])
    decreases |t| - i
  {
    if i < |t| && IsDigit(t[i]) {
      DigitsEndDigits(t, i + 1);
      assert t[i..DigitsEnd(t, i)] == [t[i]] + t[i + 1..DigitsEnd(t, i)];
    }
  }

  lemma ScannedFraction(t: string, i: nat)
    requires i <= |t|
    ensures IsFraction(t[i..FractionEnd(t, i)])
  {
    var j := FractionEnd(t, i);
    if j > i {
      DigitsEndDigits(t, i + 1);
      assert t[i..j][1..] == t[i + 1..j];
    }
  }

  lemma ScannedExponent(t: string, j: nat)
    requires j <= |t| && ExponentEnd(t, j) == |t|
    ensures IsExponent(t[j..])
  {
    if j < |t| {
      var x, d := t[j..], ExponentDigits(t, j);
      DigitsEndDigits(t, d);
      assert ExponentDigits(x, 0) == d - j;
      var tail := x[d - j..];
      assert |tail| == |t| - d && forall k :: 0 <= k < |tail| ==> tail[k] == t[d..|t|][k];
    }
  }

  lemma Scanned(t: string, i: nat)
    requires i <= |t| && MatchesAt(t, i)
    ensures exists f, x :: IsFraction(f) && IsExponent(x) && t[i..] == f + x
  {
    var j := FractionEnd(t, i);
    ScannedFraction(t, i);
    ScannedExponent(t, j);
    assert t[i..] == t[i..j] + t[j..];
  }

  lemma RegexMatches(t: string, i: nat, f: string, x: string)
    requires i <= |t| && IsFraction(f) && IsExponent(x) && t[i..] == f + x
    ensures MatchesAt(t, i)
  {
    var front := t[..i];
    assert t == front + f + x;
    FractionMatches(front, f, x);
    ExponentMatches(front + f, x);
  }

  /** The scanner finds a match at i exactly if the rest of the text from i on is a fraction followed
      by an exponent, as the regular expression says. */
  lemma MatchesAsRegex(t: string, i: nat)
    requires i <= |t|
    ensures MatchesAt(t, i) <==> exists f, x :: IsFraction(f) && IsExponent(x) && t[i..] == f + x
  {
    if MatchesAt(t, i) {
      Scanned(t, i);
    }
    forall f, x | IsFraction(f) && IsExponent(x) && t[i..] == f + x ensures MatchesAt(t, i) {
      RegexMatches(t, i, f, x);
    }
  }

  /** Digits and signs, then a fraction, then an exponent. */
  lemma NDecimalsOf(head: string, fraction: string, exponent: string)
    requires forall c :: c in head ==> IsDigit(c) || c == '-'
    requires IsFraction(fraction) && IsExponent(exponent)
    ensures NDecimals(head + fraction + exponent)
         == Max(0, (if fraction == "" then 0 else |fraction| - 1) - if exponent == "" then 0 else ParseInt(exponent[1..]))
  {
    var t := head + fraction + exponent;
    var i, j := |head|, |head| + |fraction|;
    FractionMatches(head, fraction, exponent);
    ExponentMatches(head + fraction, exponent);
    forall k | 0 <= k < i ensures IsDigit(t[k]) || t[k] == '-' {
      assert t[k] == head[k] && head[k] in head;
    }
    SearchSkips(t, 0, i);
    if exponent != "" {
      assert t[j + 1..] == exponent[1..];
    }
  }

  lemma {:induction false} ParseDecimal(m: nat)
    ensures ParseDigits(Decimal(m)) == m
  {
    if m >= 10 {
      ParseDecimal(m / 10);
      assert Decimal(m)[..|Decimal(m)| - 1] == Decimal(m / 10);
    }
  }

  lemma ParseExponent(m: int)
    ensures ParseInt((if m < 0 then "-" else "+") + Decimal(if m < 0 then -m else m)) == m
  {
    var digits := Decimal(if m < 0 then -m else m);
    var t := (if m < 0 then "-" else "+") + digits;
    assert t[1..] == digits;
    ParseDecimal(if m < 0 then -m else m);
  }

  lemma Regroup(a: string, b: string, c: string, d: string)
    ensures a + (b + c + d) == a + b + c + d
  {
  }

  /** The same for a text that is put together from a sign and the rest. */
  lemma NDecimalsOfParts(sign: string, head: string, fraction: string, exponent: string)
    requires sign == "" || sign == "-"
    requires AllDigits(head) && IsFraction(fraction) && IsExponent(exponent)
    ensures NDecimals(sign + (head + fraction + exponent))
         == Max(0, (if fraction == "" then 0 else |fraction| - 1) - if exponent == "" then 0 else ParseInt(exponent[1..]))
  {
    Regroup(sign, head, fraction, exponent);
    NDecimalsOf(sign + head, fraction, exponent);
  }

  lemma ExponentText(m: int)
    ensures Exponent(m) != "" && IsExponent(Exponent(m)) && ParseInt(Exponent(m)[1..]) == m
  {
    var digits := Decimal(if m < 0 then -m else m);
    var exponent := Exponent(m);
    assert exponent[2..] == digits;
    assert exponent[1..] == (if m < 0 then "-" else "+") + digits;
    assert forall k :: 0 <= k < |digits| ==> digits[k] in digits;
    ParseExponent(m);
  }

  lemma PartsFit(s: string, n: int)
    requires ShortestDigits(s)
    ensures AllDigits(Head(s, n))
    ensures IsFraction(Fraction(s, n))
    ensures HasExponent(n) ==> |Fraction(s, n)| == if |s| == 1 then 0 else |s|
    ensures !HasExponent(n) ==> |Fraction(s, n)| == if |s| <= n then 0 else |s| - n + 1
  {
    var f := Fraction(s, n);
    if HasExponent(n) {
      assert |s| > 1 ==> f[1..] == s[1..];
    } else if |s| > n > 0 {
      assert f[1..] == s[n..];
    } else if |s| > n {
      assert f[1..] == Zeros(-n) + s;
    }
  }

  /** On the text of any number, nDecimals is the number of digits behind the decimal point of its
      shortest decimal expansion. */
  lemma NDecimalsOfText(s: string, n: int, sign: string)
    requires ShortestDigits(s) && (sign == "" || sign == "-")
    ensures NDecimals(sign + Text(s, n)) == Max(0, |s| - n)
  {
    PartsFit(s, n);
    ExponentText(n - 1);
    NDecimalsOfParts(sign, Head(s, n), Fraction(s, n), Tail(n));
  }

  // ---------- the meaning of the check ----------

  lemma {:induction false} Pow10Add(a: nat, b: nat)
    ensures Pow10(a + b) == Pow10(a) * Pow10(b)
  {
    if a > 0 {
      Pow10Add(a - 1, b);
    }
  }

  lemma {:induction false} LastDigit(s: string)
    requires s != [] && forall c :: c in s ==> IsDigit(c)
    ensures s[|s| - 1] in s && ParseDigits(s) % 10 == s[|s| - 1] as int - '0' as int
  {
  }

  lemma ShiftUp(e: int, k: nat)
    requires e + k >= 0
    ensures Power(e) * Pow10(k) == Pow10(e + k)
  {
    if e >= 0 {
      Pow10Add(e, k);
    } else {
      ShiftNegative(-e, k);
    }
  }

  lemma ShiftNegative(e: nat, k: nat)
    requires e <= k
    ensures 1.0 / Pow10(e) * Pow10(k) == Pow10(k - e)
  {
    Pow10Add(e, k - e);
    CancelPower(Pow10(e), Pow10(k - e), Pow10(k));
  }

  lemma ShiftDown(e: int, k: nat)
    requires e + k < 0
    ensures Power(e) * Pow10(k) * Pow10(-(e + k)) == 1.0
  {
    Pow10Add(k, -(e + k));
    Inverse(Pow10(-e), Pow10(k), Pow10(-(e + k)));
  }

  lemma CancelPower(x: real, y: real, z: real)
    requires x > 0.0 && z == x * y
    ensures 1.0 / x * z == y
  {
    assert 1.0 / x * (x * y) == (1.0 / x * x) * y;
  }

  lemma Inverse(x: real, y: real, z: real)
    requires x > 0.0 && x == y * z
    ensures 1.0 / x * y * z == 1.0
  {
    assert 1.0 / x * y * z == 1.0 / x * (y * z);
  }

  lemma WholeScale(v: real, digits: nat, x: real, p: int, u: Scale)
    requires v == digits as real * x && x * u == p as real
    ensures OnGrid(v, u)
  {
    Associate(digits as real, x, u);
    Substitute(digits as real, x * u, p as real);
    assert Units(v, digits * p, u);
  }

  lemma PowerIsWhole(e: int, k: nat)
    requires e + k >= 0
    ensures Power(e) * Pow10(k) == Tens(e + k) as real
  {
    ShiftUp(e, k);
  }

  lemma WholeUnits(digits: nat, e: int, k: nat)
    requires e + k >= 0
    ensures OnGrid(Scaled(digits, e), Pow10(k))
  {
    PowerIsWhole(e, k);
    WholeScale(Scaled(digits, e), digits, Power(e), Tens(e + k), Pow10(k));
  }

  lemma BrokenUnits(digits: nat, e: int, k: nat)
    requires e + k < 0 && OnGrid(Scaled(digits, e), Pow10(k))
    ensures digits % 10 == 0
  {
    var m :| Units(Scaled(digits, e), m, Pow10(k));
    var j := -(e + k);
    var p := Tens(j);
    ShiftDown(e, k);
    Associate(digits as real, Power(e), Pow10(k));
    CrossMultiply(digits as real, Power(e) * Pow10(k), p as real, m as real);
    assert digits == m * p;
    TenTimes(m, Tens(j - 1), p);
  }

  lemma TenTimes(m: int, q: int, p: int)
    requires p == 10 * q
    ensures (m * p) % 10 == 0
  {
    assert m * p == 10 * (m * q);
  }

  lemma CrossMultiply(a: real, x: real, p: real, b: real)
    requires x * p == 1.0 && a * x == b
    ensures a == b * p
  {
    assert a * x * p == a * (x * p);
  }

  lemma GridIffShort(s: string, n: int, k: nat)
    requires ShortestDigits(s) && forall c :: c in s ==> IsDigit(c)
    ensures OnGrid(Value(s, n), Pow10(k)) <==> |s| - n <= k
  {
    var digits, e := ParseDigits(s), n - |s|;
    if e + k >= 0 {
      WholeUnits(digits, e, k);
    } else if OnGrid(Scaled(digits, e), Pow10(k)) {
      BrokenUnits(digits, e, k);
      LastDigit(s);
    }
  }

  /** The check is exact: a number passes with k decimal places if and only if it is a whole number
      of units of 10^-k. */
  lemma CheckIsExact(s: string, n: int, k: nat)
    requires ShortestDigits(s) && forall c :: c in s ==> IsDigit(c)
    ensures NDecimals(Text(s, n)) <= k <==> OnGrid(Value(s, n), Pow10(k))
  {
    GridIffShort(s, n, k);
    NDecimalsOfText(s, n, "");
    assert "" + Text(s, n) == Text(s, n);
  }
}
