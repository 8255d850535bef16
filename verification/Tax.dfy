/** Tax arithmetic: upward rounding to hgc_decimal_places and the gross/net conversions
    (server/api/actions/transactions.js:9-13 and 186-205; the same formulas with five decimal
    places serve the tax calculator, client/app/www/js/taxcalc.js:9-33). */
module Tax {

  /** Math.ceil */
  function Ceil(x: real): int { -((-x).Floor) }

  /** Smallest units per HGC: a positive number. */
  type Scale = u: real | u > 0.0 witness 1.0

  /** Math.pow(10, d), as a whole number and as a scale */
  function Tens(d: nat): (p: int)
    ensures p >= 1
  {
    if d == 0 then 1 else 10 * Tens(d - 1)
  }

  function Pow10(d: nat): Scale { Tens(d) as real }

  /** HGC_roundup */
  function RoundUp(value: real, u: Scale): real {
    Ceil(value * u) as real / u
  }

  /** The exact tax: the rate times a net amount, or the tax that is contained in a gross amount. */
  function Exact(rate: real, net: real): real { rate * net }

  function ExactInGross(t: real, gross: real): real
    requires t != -1.0
  {
    t * gross / (1.0 + t)
  }

  /** Tax on a gross and on a net amount, at rate t. */
  function TaxOnGross(gross: real, t: real, u: Scale): real
    requires t != -1.0
  {
    RoundUp(ExactInGross(t, gross), u)
  }

  function TaxOnNet(net: real, t: real, u: Scale): real {
    RoundUp(Exact(t, net), u)
  }

  /** gross2tax and net2tax; their rate is given in percent. */
  function GrossToTax(gross: real, percent: real, u: Scale): real
    requires percent != -100.0
  {
    TaxOnGross(gross, percent / 100.0, u)
  }

  function NetToTax(net: real, percent: real, u: Scale): real {
    TaxOnNet(net, percent / 100.0, u)
  }

  /** What the recipient gets of a gross amount. */
  function GrossToNet(gross: real, percent: real, u: Scale): real
    requires percent != -100.0
  {
    gross - GrossToTax(gross, percent, u)
  }

  /** What the sender pays for a net amount. */
  function NetToGross(net: real, percent: real, u: Scale): real {
    net + NetToTax(net, percent, u)
  }

  /** v is n smallest units. */
  predicate Units(v: real, n: int, u: Scale) {
    v * u == n as real
  }

  ghost predicate OnGrid(v: real, u: Scale) {
    exists n :: Units(v, n, u)
  }

  // ---------- the ceiling function ----------

  lemma CeilBounds(x: real)
    ensures x <= Ceil(x) as real < x + 1.0
  {
  }

  /** Rounding up is the left adjoint of the inclusion of the integers. */
  lemma CeilAtMost(x: real, k: int)
    ensures Ceil(x) <= k <==> x <= k as real
  {
    CeilBounds(x);
  }

  // ---------- whole units ----------

  function UnitsOfNetTax(n: int, t: real): int { Ceil(t * n as real) }

  function UnitsOfGrossTax(g: int, t: real): int
    requires t >= 0.0
  {
    Ceil(t * g as real / (1.0 + t))
  }

  lemma DivideAtMost(x: real, y: real, c: real)
    requires c > 0.0
    ensures x / c <= y <==> x <= y * c
  {
    assert x == (x / c) * c;
    if x / c <= y {
      assert (x / c) * c <= y * c;
    } else {
      assert (x / c) * c > y * c;
    }
  }

  /** A net amount of n units is payable with g units exactly if (1 + t) n <= g. */
  lemma PayableNet(n: int, g: int, t: real)
    ensures n + UnitsOfNetTax(n, t) <= g <==> (1.0 + t) * n as real <= g as real
  {
    CeilAtMost(t * n as real, g - n);
    assert (1.0 + t) * n as real == n as real + t * n as real;
  }

  lemma AffordableNet(n: int, g: int, t: real)
    requires t >= 0.0
    ensures n <= g - UnitsOfGrossTax(g, t) <==> (1.0 + t) * n as real <= g as real
  {
    CeilAtMost(t * g as real / (1.0 + t), g - n);
    DivideAtMost(t * g as real, (g - n) as real, 1.0 + t);
    assert (g - n) as real * (1.0 + t) == g as real + t * g as real - (1.0 + t) * n as real;
  }

  // ---------- back to HGC ----------

  lemma DivideMultiply(x: real, c: real)
    requires c > 0.0
    ensures x / c * c == x
  {
  }

  lemma Distribute(x: real, y: real, c: real)
    ensures (x + y) * c == x * c + y * c && (x - y) * c == x * c - y * c
  {
  }

  lemma Associate(x: real, y: real, z: real)
    ensures (x * y) * z == x * (y * z)
  {
  }

  lemma MultiplyMonotone(x: real, y: real, c: real)
    requires c > 0.0
    ensures x < y <==> x * c < y * c
    ensures x <= y <==> x * c <= y * c
  {
  }

  lemma RoundUpUnits(value: real, u: Scale)
    ensures Units(RoundUp(value, u), Ceil(value * u), u)
  {
    DivideMultiply(Ceil(value * u) as real, u);
  }

  lemma RateOfUnits(rate: real, v: real, n: int, u: Scale)
    requires Units(v, n, u)
    ensures rate * v * u == rate * n as real
  {
    calc {
      rate * v * u;
      { Associate(rate, v, u); }
      rate * (v * u);
      { Substitute(rate, v * u, n as real); }
      rate * n as real;
    }
  }

  lemma Substitute(c: real, x: real, y: real)
    requires x == y
    ensures c * x == c * y
  {
  }

  /** Equal exact values round up to equal numbers of units. */
  lemma RoundUpAs(value: real, exact: real, u: Scale)
    requires value * u == exact
    ensures Units(RoundUp(value, u), Ceil(exact), u)
  {
    RoundUpUnits(value, u);
  }

  /** Rounding v times a rate up to the grid is taking the ceiling in units. */
  lemma RateUnits(rate: real, v: real, n: int, u: Scale)
    requires Units(v, n, u)
    ensures Units(RoundUp(Exact(rate, v), u), Ceil(rate * n as real), u)
  {
    RateOfUnits(rate, v, n, u);
    RoundUpAs(Exact(rate, v), rate * n as real, u);
  }

  lemma NetTaxUnits(net: real, n: int, t: real, u: Scale)
    requires Units(net, n, u)
    ensures Units(TaxOnNet(net, t, u), UnitsOfNetTax(n, t), u)
  {
    RateUnits(t, net, n, u);
  }

  lemma ScaleQuotient(x: real, c: real, u: real)
    requires c > 0.0
    ensures x / c * u == x * u / c
  {
    assert (x / c * u) * c == x * u;
  }

  lemma GrossTaxUnits(gross: real, g: int, t: real, u: Scale)
    requires Units(gross, g, u) && t >= 0.0
    ensures Units(TaxOnGross(gross, t, u), UnitsOfGrossTax(g, t), u)
  {
    RateOfUnits(t, gross, g, u);
    ScaleQuotient(t * gross, 1.0 + t, u);
    RoundUpAs(ExactInGross(t, gross), t * g as real / (1.0 + t), u);
  }

  lemma UnitsAdd(v: real, n: int, w: real, m: int, u: Scale)
    requires Units(v, n, u) && Units(w, m, u)
    ensures Units(v + w, n + m, u) && Units(v - w, n - m, u)
  {
    Distribute(v, w, u);
  }

  lemma UnitsCompare(v: real, n: int, w: real, m: int, u: Scale)
    requires Units(v, n, u) && Units(w, m, u)
    ensures v <= w <==> n <= m
  {
    MultiplyMonotone(v, w, u);
  }

  lemma NetToGrossUnits(net: real, n: int, percent: real, u: Scale)
    requires Units(net, n, u)
    ensures Units(NetToGross(net, percent, u), n + UnitsOfNetTax(n, percent / 100.0), u)
  {
    NetTaxUnits(net, n, percent / 100.0, u);
    UnitsAdd(net, n, NetToTax(net, percent, u), UnitsOfNetTax(n, percent / 100.0), u);
  }

  lemma GrossToNetUnits(gross: real, g: int, percent: real, u: Scale)
    requires Units(gross, g, u) && percent >= 0.0
    ensures Units(GrossToNet(gross, percent, u), g - UnitsOfGrossTax(g, percent / 100.0), u)
  {
    GrossTaxUnits(gross, g, percent / 100.0, u);
    UnitsAdd(gross, g, GrossToTax(gross, percent, u), UnitsOfGrossTax(g, percent / 100.0), u);
  }

  // ---------- main results ----------

  /** Galois connection: a gross amount pays for a net amount exactly if that net amount is at most
      what the gross amount leaves. */
  lemma GrossNetGalois(net: real, gross: real, percent: real, u: Scale)
    requires OnGrid(net, u) && OnGrid(gross, u) && percent >= 0.0
    ensures NetToGross(net, percent, u) <= gross <==> net <= GrossToNet(gross, percent, u)
  {
    var n :| Units(net, n, u);
    var g :| Units(gross, g, u);
    var t := percent / 100.0;
    NetToGrossUnits(net, n, percent, u);
    GrossToNetUnits(gross, g, percent, u);
    UnitsCompare(NetToGross(net, percent, u), n + UnitsOfNetTax(n, t), gross, g, u);
    UnitsCompare(net, n, GrossToNet(gross, percent, u), g - UnitsOfGrossTax(g, t), u);
    PayableNet(n, g, t);
    AffordableNet(n, g, t);
  }

  lemma ConversionsStayOnGrid(v: real, percent: real, u: Scale)
    requires OnGrid(v, u) && percent >= 0.0
    ensures OnGrid(NetToGross(v, percent, u), u) && OnGrid(GrossToNet(v, percent, u), u)
  {
    var n :| Units(v, n, u);
    NetToGrossUnits(v, n, percent, u);
    GrossToNetUnits(v, n, percent, u);
  }

  lemma RoundUpMonotone(v: real, w: real, u: Scale)
    requires v <= w
    ensures RoundUp(v, u) <= RoundUp(w, u)
  {
    MultiplyMonotone(v, w, u);
    CeilBounds(w * u);
    CeilAtMost(v * u, Ceil(w * u));
    RoundUpUnits(v, u);
    RoundUpUnits(w, u);
    UnitsCompare(RoundUp(v, u), Ceil(v * u), RoundUp(w, u), Ceil(w * u), u);
  }

  lemma RateMonotone(rate: real, v: real, w: real)
    requires rate >= 0.0 && v <= w
    ensures Exact(rate, v) <= Exact(rate, w)
  {
  }

  lemma NetToGrossStrictlyMonotone(v: real, w: real, percent: real, u: Scale)
    requires v < w && percent >= 0.0
    ensures NetToGross(v, percent, u) < NetToGross(w, percent, u)
  {
    RateMonotone(percent / 100.0, v, w);
    RoundUpMonotone(Exact(percent / 100.0, v), Exact(percent / 100.0, w), u);
  }

  /** Net to gross and back is the identity. */
  lemma NetRoundTrip(net: real, percent: real, u: Scale)
    requires OnGrid(net, u) && percent >= 0.0
    ensures GrossToNet(NetToGross(net, percent, u), percent, u) == net
  {
    var gross := NetToGross(net, percent, u);
    var back := GrossToNet(gross, percent, u);
    ConversionsStayOnGrid(net, percent, u);
    ConversionsStayOnGrid(gross, percent, u);
    GrossNetGalois(net, gross, percent, u);
    GrossNetGalois(back, gross, percent, u);
    if net < back {
      NetToGrossStrictlyMonotone(net, back, percent, u);
    }
  }

  /** Gross to net and back never costs more, and loses less than 1 + tax units. */
  lemma GrossRoundTrip(gross: real, percent: real, u: Scale)
    requires OnGrid(gross, u) && percent >= 0.0
    ensures var back := NetToGross(GrossToNet(gross, percent, u), percent, u);
      back <= gross && (gross - back) * u < 1.0 + percent / 100.0
  {
    var net := GrossToNet(gross, percent, u);
    ConversionsStayOnGrid(gross, percent, u);
    GrossNetGalois(net, gross, percent, u);
    var g :| Units(gross, g, u);
    var t := percent / 100.0;
    var n := g - UnitsOfGrossTax(g, t);
    var back := NetToGross(net, percent, u);
    GrossToNetUnits(gross, g, percent, u);
    NetToGrossUnits(net, n, percent, u);
    UnitsAdd(gross, g, back, n + UnitsOfNetTax(n, t), u);
    LessThanOneMore(n, g, t);
  }

  /** The net amount of g units is the largest whole number of units that g pays for. */
  lemma LessThanOneMore(n: int, g: int, t: real)
    requires t >= 0.0 && n == g - UnitsOfGrossTax(g, t)
    ensures (g - (n + UnitsOfNetTax(n, t))) as real < 1.0 + t
  {
    AffordableNet(n + 1, g, t);
    Distribute(n as real, 1.0, 1.0 + t);
    Distribute(1.0, t, n as real);
    CeilBounds(t * n as real);
  }

  // ---------- the rate ----------

  /** tax is this exact value, rounded up to the grid: at least the value, by less than one unit. */
  ghost predicate IsTaxOn(tax: real, exact: real, u: Scale) {
    OnGrid(tax, u) && exact <= tax && (tax - exact) * u < 1.0
  }

  /** What net2tax and gross2tax should be: so many hundredths of the net amount, which are so many parts in
      100 + percent of the gross amount. */
  ghost predicate IsTaxOfNet(tax: real, net: real, percent: real, u: Scale) {
    IsTaxOn(tax, percent * net / 100.0, u)
  }

  ghost predicate IsTaxOfGross(tax: real, gross: real, percent: real, u: Scale)
    requires percent != -100.0
  {
    IsTaxOn(tax, percent * gross / (100.0 + percent), u)
  }

  lemma RoundUpIs(value: real, u: Scale)
    ensures IsTaxOn(RoundUp(value, u), value, u)
  {
    RoundUpBounds(value, u);
    RoundUpUnits(value, u);
  }

  lemma NetTaxIs(net: real, percent: real, u: Scale)
    ensures IsTaxOfNet(NetToTax(net, percent, u), net, percent, u)
  {
    RoundUpIs(Exact(percent / 100.0, net), u);
    QuotientFirst(percent, net, 100.0);
  }

  lemma GrossTaxIs(gross: real, percent: real, u: Scale)
    requires percent != -100.0
    ensures IsTaxOfGross(GrossToTax(gross, percent, u), gross, percent, u)
  {
    RoundUpIs(ExactInGross(percent / 100.0, gross), u);
    ExactInGrossIs(gross, percent);
  }

  lemma ExactInGrossIs(gross: real, percent: real)
    requires percent != -100.0
    ensures ExactInGross(percent / 100.0, gross) == percent * gross / (100.0 + percent)
  {
    var t, c := percent / 100.0, 1.0 + percent / 100.0;
    assert 100.0 * c == 100.0 + percent;
    QuotientFirst(percent, gross, 100.0);
    assert t * gross == percent * gross / 100.0;
    QuotientTwice(percent * gross, 100.0, c);
  }

  lemma QuotientTwice(x: real, b: real, c: real)
    requires b != 0.0 && c != 0.0
    ensures b * c != 0.0 && x / b / c == x / (b * c)
  {
    assert x / b / c * (b * c) == x;
  }

  // ---------- splitting a payment ----------

  function Sum(xs: seq<real>): real {
    if xs == [] then 0.0 else Sum(xs[..|xs| - 1]) + xs[|xs| - 1]
  }

  /** The sum of the parts' taxes, each rounded up. */
  function SplitTax(xs: seq<real>, rate: real, u: Scale): real {
    if xs == [] then 0.0 else SplitTax(xs[..|xs| - 1], rate, u) + RoundUp(Exact(rate, xs[|xs| - 1]), u)
  }

  lemma ExactAdd(rate: real, x: real, y: real)
    ensures Exact(rate, x + y) == Exact(rate, x) + Exact(rate, y)
  {
  }

  /** The tax contained in a gross amount is exact at the rate t / (1 + t). */
  lemma GrossRate(t: real, gross: real)
    requires t != -1.0
    ensures ExactInGross(t, gross) == Exact(t / (1.0 + t), gross)
  {
    QuotientFirst(t, gross, 1.0 + t);
  }

  lemma QuotientFirst(x: real, y: real, c: real)
    requires c != 0.0
    ensures x * y / c == x / c * y
  {
    assert (x / c * y) * c == (x / c * c) * y;
  }

  lemma RoundUpBounds(value: real, u: Scale)
    ensures value <= RoundUp(value, u) && (RoundUp(value, u) - value) * u < 1.0
  {
    CeilBounds(value * u);
    RoundUpUnits(value, u);
    MultiplyMonotone(value, RoundUp(value, u), u);
    Distribute(RoundUp(value, u), value, u);
  }

  /** One more part adds less than one unit of rounding. */
  lemma OneMorePart(tax: real, exact: real, part: real, u: Scale)
    ensures tax - exact <= tax + RoundUp(part, u) - (exact + part)
    ensures (tax + RoundUp(part, u) - (exact + part)) * u < (tax - exact) * u + 1.0
  {
    RoundUpBounds(part, u);
    Distribute(tax - exact, RoundUp(part, u) - part, u);
    assert tax + RoundUp(part, u) - (exact + part) == (tax - exact) + (RoundUp(part, u) - part);
  }

  /** The taxes of n parts are at least the exact tax, by less than one unit per part. */
  predicate PartsWithin(tax: real, exact: real, n: nat, u: Scale) {
    && exact <= tax && (tax - exact) * u <= n as real
    && (n > 0 ==> (tax - exact) * u < n as real)
  }

  lemma OneMorePartWithin(tax: real, exact: real, n: nat, part: real, u: Scale)
    requires PartsWithin(tax, exact, n, u)
    ensures PartsWithin(tax + RoundUp(part, u), exact + part, n + 1, u)
  {
    OneMorePart(tax, exact, part, u);
  }

  lemma {:induction false} SplitTaxBounds(xs: seq<real>, rate: real, u: Scale)
    ensures PartsWithin(SplitTax(xs, rate, u), Exact(rate, Sum(xs)), |xs|, u)
  {
    if xs == [] {
      assert Exact(rate, 0.0) == 0.0;
    } else {
      var front, last := xs[..|xs| - 1], xs[|xs| - 1];
      SplitTaxBounds(front, rate, u);
      OneMorePartWithin(SplitTax(front, rate, u), Exact(rate, Sum(front)), |front|, Exact(rate, last), u);
      ExactAdd(rate, Sum(front), last);
    }
  }

  lemma {:induction false} SplitTaxOnGrid(xs: seq<real>, rate: real, u: Scale) returns (n: int)
    ensures Units(SplitTax(xs, rate, u), n, u)
  {
    n := 0;
    if xs != [] {
      var front, part := xs[..|xs| - 1], Exact(rate, xs[|xs| - 1]);
      n := SplitTaxOnGrid(front, rate, u);
      RoundUpUnits(part, u);
      UnitsAdd(SplitTax(front, rate, u), n, RoundUp(part, u), Ceil(part * u), u);
      n := n + Ceil(part * u);
    }
  }

  /** The tax on n parts is at least the tax on the whole, by less than one unit per part. */
  predicate Covers(parts: real, whole: real, n: nat, u: Scale) {
    whole <= parts && (parts - whole) * u < n as real
  }

  /** Rounding up part by part: at least the rounded whole, by fewer units than there are parts. */
  lemma RoundedPartsCover(xs: seq<real>, rate: real, u: Scale)
    requires xs != []
    ensures Covers(SplitTax(xs, rate, u), RoundUp(Exact(rate, Sum(xs)), u), |xs|, u)
  {
    SplitTaxBounds(xs, rate, u);
    var n := SplitTaxOnGrid(xs, rate, u);
    PartsCover(SplitTax(xs, rate, u), n, Exact(rate, Sum(xs)), |xs|, u);
  }

  lemma PartsCover(parts: real, n: int, exact: real, count: nat, u: Scale)
    requires count > 0 && PartsWithin(parts, exact, count, u) && Units(parts, n, u)
    ensures Covers(parts, RoundUp(exact, u), count, u)
  {
    WholeAndParts(exact, parts, u);
  }

  /** The sum of gross2tax over the parts of a payment, and the sum of net2tax. */
  function SplitGrossTax(xs: seq<real>, percent: real, u: Scale): real
    requires percent != -100.0
  {
    if xs == [] then 0.0 else SplitGrossTax(xs[..|xs| - 1], percent, u) + GrossToTax(xs[|xs| - 1], percent, u)
  }

  function SplitNetTax(xs: seq<real>, percent: real, u: Scale): real {
    if xs == [] then 0.0 else SplitNetTax(xs[..|xs| - 1], percent, u) + NetToTax(xs[|xs| - 1], percent, u)
  }

  /** gross2tax is a rounded product, too. */
  lemma GrossToTaxIs(gross: real, percent: real, u: Scale)
    requires percent != -100.0
    ensures var t := percent / 100.0; GrossToTax(gross, percent, u) == RoundUp(Exact(t / (1.0 + t), gross), u)
  {
    GrossRate(percent / 100.0, gross);
  }

  lemma {:induction false} SplitGrossTaxIs(xs: seq<real>, percent: real, u: Scale)
    requires percent != -100.0
    ensures var t := percent / 100.0; SplitGrossTax(xs, percent, u) == SplitTax(xs, t / (1.0 + t), u)
  {
    if xs != [] {
      SplitGrossTaxIs(xs[..|xs| - 1], percent, u);
      GrossToTaxIs(xs[|xs| - 1], percent, u);
    }
  }

  lemma {:induction false} SplitNetTaxIs(xs: seq<real>, percent: real, u: Scale)
    ensures SplitNetTax(xs, percent, u) == SplitTax(xs, percent / 100.0, u)
  {
    if xs != [] {
      SplitNetTaxIs(xs[..|xs| - 1], percent, u);
    }
  }

  /** Splitting a payment never saves tax: for gross and for net amounts, at every rate, the parts' taxes
      add up to at least the tax on their sum, and to less than one unit per part more. */
  lemma SplittingNeverSavesTax(xs: seq<real>, percent: real, u: Scale)
    requires xs != [] && percent != -100.0
    ensures Covers(SplitGrossTax(xs, percent, u), GrossToTax(Sum(xs), percent, u), |xs|, u)
    ensures Covers(SplitNetTax(xs, percent, u), NetToTax(Sum(xs), percent, u), |xs|, u)
  {
    SplittingGross(xs, percent, u);
    SplittingNet(xs, percent, u);
  }

  lemma SplittingGross(xs: seq<real>, percent: real, u: Scale)
    requires xs != [] && percent != -100.0
    ensures Covers(SplitGrossTax(xs, percent, u), GrossToTax(Sum(xs), percent, u), |xs|, u)
  {
    var t := percent / 100.0;
    SplitGrossTaxIs(xs, percent, u);
    GrossToTaxIs(Sum(xs), percent, u);
    RoundedPartsCover(xs, t / (1.0 + t), u);
  }

  lemma SplittingNet(xs: seq<real>, percent: real, u: Scale)
    requires xs != []
    ensures Covers(SplitNetTax(xs, percent, u), NetToTax(Sum(xs), percent, u), |xs|, u)
  {
    SplitNetTaxIs(xs, percent, u);
    RoundedPartsCover(xs, percent / 100.0, u);
  }

  lemma WholeAndParts(whole: real, parts: real, u: Scale)
    requires OnGrid(parts, u) && whole <= parts
    ensures RoundUp(whole, u) <= parts
    ensures (parts - RoundUp(whole, u)) * u <= (parts - whole) * u
  {
    RoundUpBounds(whole, u);
    LeastOnGrid(whole, parts, u);
    MultiplyMonotone(parts - RoundUp(whole, u), parts - whole, u);
  }

  /** RoundUp gives the least amount on the grid that is not below the value. */
  lemma LeastOnGrid(value: real, v: real, u: Scale)
    requires OnGrid(v, u) && value <= v
    ensures RoundUp(value, u) <= v
  {
    var n :| Units(v, n, u);
    MultiplyMonotone(value, v, u);
    CeilAtMost(value * u, n);
    RoundUpUnits(value, u);
    UnitsCompare(RoundUp(value, u), Ceil(value * u), v, n, u);
  }
}
