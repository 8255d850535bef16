/** The totals shown above the administrator's transaction list
    (client/adminpanel/site/maketransaction/scripts.js:60-75 and 135-161) and what the server books when
    the list is carried out (the same file, 314-363; server/api/actions/transactions.js:446-499). */
module AdminTotals {
  import opened Tax
  import P = Payments

  datatype Percent = Absent | Default | Given(value: real)

  datatype Price = Amount(value: real) | Sent(value: real) | Received(value: real) | Unpriced

  /** A listed transaction: Amount is the price of creations and destructions of money. */
  datatype Listed = Listed(price: Price, percent: Percent, spawn: bool, destroy: bool)

  /** getTax, in percent; standard is DEFAULT_TAX_PERCENT. */
  function GetTax(tr: Listed, standard: real): real {
    match tr.percent
    case Absent => 0.0
    case Default => standard
    case Given(value) => value
  }

  datatype Figures = Figures(sent: real, received: real, tax: real)

  function Plus(a: Figures, b: Figures): Figures {
    Figures(a.sent + b.sent, a.received + b.received, a.tax + b.tax)
  }

  /** What the list shows for one transaction, without rounding. */
  function Shown(tr: Listed, standard: real): Figures
    requires GetTax(tr, standard) != -100.0
  {
    var t := GetTax(tr, standard) / 100.0;
    match tr.price
    case Amount(v) => Figures(v, v, 0.0)
    case Sent(v) => Figures(v, v - ExactInGross(t, v), ExactInGross(t, v))
    case Received(v) => Figures(v + Exact(t, v), v, Exact(t, v))
    case Unpriced => Figures(0.0, 0.0, 0.0)
  }

  ghost predicate Rated(trs: seq<Listed>, standard: real) {
    forall tr :: tr in trs ==> GetTax(tr, standard) != -100.0
  }

  function ShownTotal(trs: seq<Listed>, standard: real): Figures
    requires Rated(trs, standard)
  {
    if trs == [] then Figures(0.0, 0.0, 0.0)
    else Plus(ShownTotal(trs[..|trs| - 1], standard), Shown(trs[|trs| - 1], standard))
  }

  /** The totals loop: in every list what is shown as sent is what is shown as received plus the tax. */
  method Totals(trs: seq<Listed>, standard: real) returns (number: nat, total: Figures)
    requires Rated(trs, standard)
    ensures number == |trs| && total == ShownTotal(trs, standard)
    ensures total.sent == total.received + total.tax
  {
    number := 0;
    var sent, received, tax := 0.0, 0.0, 0.0;
    for j := 0 to |trs|
      invariant number == j && Figures(sent, received, tax) == ShownTotal(trs[..j], standard)
    {
      ShownTotalNext(trs, j, standard);
      var tr := trs[j];
      var t := GetTax(tr, standard) / 100.0;
      if tr.price.Amount? {
        sent := sent + tr.price.value;
        received := received + tr.price.value;
      } else if tr.price.Sent? {
        sent := sent + tr.price.value;
        tax := tax + ExactInGross(t, tr.price.value);
        received := received + (tr.price.value - ExactInGross(t, tr.price.value));
      } else if tr.price.Received? {
        received := received + tr.price.value;
        tax := tax + Exact(t, tr.price.value);
        sent := sent + (tr.price.value + Exact(t, tr.price.value));
      }
      number := number + 1;
    }
    assert trs[..|trs|] == trs;
    total := Figures(sent, received, tax);
    ShownTotalIdentity(trs, standard);
  }

  lemma ShownTotalNext(trs: seq<Listed>, j: nat, standard: real)
    requires Rated(trs, standard) && j < |trs|
    ensures GetTax(trs[j], standard) != -100.0
    ensures ShownTotal(trs[..j + 1], standard) == Plus(ShownTotal(trs[..j], standard), Shown(trs[j], standard))
  {
    assert trs[j] in trs;
    assert trs[..j + 1][..j] == trs[..j];
  }

  lemma {:induction false} ShownTotalIdentity(trs: seq<Listed>, standard: real)
    requires Rated(trs, standard)
    ensures var total := ShownTotal(trs, standard); total.sent == total.received + total.tax
  {
    if trs != [] {
      var front, last := trs[..|trs| - 1], trs[|trs| - 1];
      assert last in trs;
      ShownTotalIdentity(front, standard);
      ShownIdentity(last, standard);
    }
  }

  /** The averages obey the same identity; there are none of an empty list. */
  method Average(total: Figures, number: nat) returns (average: Figures)
    requires total.sent == total.received + total.tax
    ensures average.sent == average.received + average.tax
    ensures number > 0 ==> average.sent * number as real == total.sent && average.tax * number as real == total.tax
    ensures number == 0 ==> average == Figures(0.0, 0.0, 0.0)
  {
    var n := number as real;
    if number > 0 {
      average := Figures(total.sent / n, total.received / n, total.tax / n);
      QuotientOfSum(total.received, total.tax, n);
      DivideMultiply(total.sent, n);
      DivideMultiply(total.tax, n);
    } else {
      average := Figures(0.0, 0.0, 0.0);
    }
  }

  lemma QuotientOfSum(x: real, y: real, n: real)
    requires n > 0.0
    ensures (x + y) / n == x / n + y / n
  {
    Distribute(x / n, y / n, n);
    assert (x / n + y / n) * n == x + y;
  }

  // ---------- what the server books ----------

  /** The tax rate that the server applies, in percent; configured is transaction_tax_percent. */
  function ServerTax(tr: Listed, configured: real): real {
    if tr.spawn || tr.destroy then 0.0
    else if tr.percent.Given? then tr.percent.value
    else configured
  }

  /** The request that makeTransaction sends, as amounts of the server's transaction function. */
  function RequestOf(tr: Listed): (P.Amount, P.Amount) {
    match tr.price
    case Amount(v) => (P.Finite(v), P.Absent)
    case Sent(v) => (P.Finite(v), P.Absent)
    case Received(v) => (P.Absent, P.Finite(v))
    case Unpriced => (P.Absent, P.Absent)
  }

  /** A row as the form creates it, which the server will accept: a positive price, an amount exactly for
      creations and destructions, a tax rate that is not negative otherwise. */
  ghost predicate Bookable(tr: Listed, configured: real) {
    && !(tr.spawn && tr.destroy) && !tr.price.Unpriced? && tr.price.value > 0.0
    && ((tr.spawn || tr.destroy) <==> tr.price.Amount?)
    && ServerTax(tr, configured) >= 0.0
  }

  /** The amounts of the entry that the server makes of a row. */
  function Booked(tr: Listed, configured: real, u: Scale): Figures
    requires Bookable(tr, configured)
  {
    var (sent, received) := RequestOf(tr);
    var (s, r, t) := P.Amounts(sent, received, ServerTax(tr, configured), u);
    Figures(s, r, t)
  }

  ghost predicate AllBookable(trs: seq<Listed>, configured: real) {
    forall tr :: tr in trs ==> Bookable(tr, configured)
  }

  function BookedTotal(trs: seq<Listed>, configured: real, u: Scale): Figures
    requires AllBookable(trs, configured)
  {
    if trs == [] then Figures(0.0, 0.0, 0.0)
    else Plus(BookedTotal(trs[..|trs| - 1], configured, u), Booked(trs[|trs| - 1], configured, u))
  }

  /** The list and the server use the same rate. */
  predicate SameRate(tr: Listed, standard: real, configured: real) {
    tr.price.Amount? || GetTax(tr, standard) == ServerTax(tr, configured)
  }

  /** The rates differ only where the panel has another default than the server, or where a row without a
      rate, as an uploaded list may have it, shows no tax although the server has a default. */
  lemma SameRateIff(tr: Listed, standard: real, configured: real)
    requires Bookable(tr, configured)
    ensures SameRate(tr, standard, configured)
        <==> !(tr.percent.Default? && standard != configured && !tr.price.Amount?)
             && !(tr.percent.Absent? && configured != 0.0 && !tr.price.Amount?)
  {
  }

  /** How far booked figures may be from the shown ones: the tax is at least the shown tax, by at most n
      units, paid partly by senders and partly by recipients. */
  ghost predicate WithinUnits(booked: Figures, shown: Figures, n: nat, u: Scale) {
    && booked.sent == booked.received + booked.tax
    && booked.sent >= shown.sent && booked.received <= shown.received
    && (booked.tax - shown.tax) * u <= n as real
    && (n > 0 ==> (booked.tax - shown.tax) * u < n as real)
  }

  lemma RowWithinUnits(tr: Listed, standard: real, configured: real, u: Scale)
    requires Bookable(tr, configured) && SameRate(tr, standard, configured) && GetTax(tr, standard) != -100.0
    ensures WithinUnits(Booked(tr, configured, u), Shown(tr, standard), 1, u)
    ensures tr.price.Amount? ==> Booked(tr, configured, u) == Shown(tr, standard)
  {
    var t, v := ServerTax(tr, configured) / 100.0, tr.price.value;
    match tr.price
    case Amount(_) =>
      NothingContained(v, u);
    case Sent(_) =>
      RoundUpBounds(ExactInGross(t, v), u);
    case Received(_) =>
      RoundUpBounds(Exact(t, v), u);
  }

  lemma NothingContained(v: real, u: Scale)
    ensures TaxOnGross(v, 0.0, u) == 0.0
  {
    assert ExactInGross(0.0, v) == 0.0;
    assert 0.0 * u == 0.0;
  }

  lemma AddWithin(a: Figures, b: Figures, m: nat, c: Figures, d: Figures, u: Scale)
    requires WithinUnits(a, b, m, u) && WithinUnits(c, d, 1, u)
    ensures WithinUnits(Plus(a, c), Plus(b, d), m + 1, u)
  {
    Distribute(a.tax - b.tax, c.tax - d.tax, u);
    assert Plus(a, c).tax - Plus(b, d).tax == (a.tax - b.tax) + (c.tax - d.tax);
  }

  /** For every list, with equal rates: what the server books costs the senders at least, and brings the
      recipients at most, what was shown; its tax is the shown tax or more, by less than one unit per row. */
  lemma {:induction false} ServerTaxVersusShownTax(trs: seq<Listed>, standard: real, configured: real, u: Scale)
    requires Rated(trs, standard) && AllBookable(trs, configured)
    requires forall tr :: tr in trs ==> SameRate(tr, standard, configured)
    ensures WithinUnits(BookedTotal(trs, configured, u), ShownTotal(trs, standard), |trs|, u)
    ensures BookedTotal(trs, configured, u).tax >= ShownTotal(trs, standard).tax
  {
    if trs != [] {
      var front, last := trs[..|trs| - 1], trs[|trs| - 1];
      assert last in trs;
      ServerTaxVersusShownTax(front, standard, configured, u);
      RowWithinUnits(last, standard, configured, u);
      AddWithin(BookedTotal(front, configured, u), ShownTotal(front, standard), |front|,
        Booked(last, configured, u), Shown(last, standard), u);
      ShownIdentity(last, standard);
    }
  }

  lemma ShownIdentity(tr: Listed, standard: real)
    requires GetTax(tr, standard) != -100.0
    ensures Shown(tr, standard).sent == Shown(tr, standard).received + Shown(tr, standard).tax
  {
  }
}
