/** The account statement: what get_last_transactions answers
    (server/api/actions/transactions.js:106-135) and the running sum that the terminal displays
    (client/userterminal/site/statement/scripts.js:19-35). */
module Statement {
  import opened Ledger
  import opened Options
  import P = Payments
  import T = Tax

  /** A copy of a profile inside a transaction document. */
  datatype Profile = Profile(party: Party, qrid: string)

  datatype Document = Document(sender: Profile, recipient: Profile, taxRecipient: nat,
                               sent: real, received: real, tax: real)

  /** One row of the answer; a tax income row is a document transformed into a plain transfer. */
  datatype Row = Row(senderQrid: string, recipientQrid: string, sent: real, received: real, tax: real,
                     transformed: bool)

  function EntryOf(d: Document): Entry {
    Entry(d.sender.party, d.recipient.party, d.taxRecipient, d.sent, d.received, d.tax)
  }

  function Entries(ds: seq<Document>): seq<Entry> {
    seq(|ds|, i requires 0 <= i < |ds| => EntryOf(ds[i]))
  }

  /** The two queries of get_last_transactions. */
  function Involving(a: nat): Document -> bool {
    (d: Document) => d.sender.party == Account(a) || d.recipient.party == Account(a)
  }

  function TaxFor(a: nat): Document -> bool {
    (d: Document) => d.taxRecipient == a
  }

  /** The documents a query selects, in the order of the collection. */
  function Select(ds: seq<Document>, p: Document -> bool): seq<Document> {
    if ds == [] then []
    else Select(ds[..|ds| - 1], p) + if p(ds[|ds| - 1]) then [ds[|ds| - 1]] else []
  }

  /** A query result: the selected documents, sorted in some way. */
  ghost predicate IsResult(result: seq<Document>, ds: seq<Document>, p: Document -> bool) {
    multiset(result) == multiset(Select(ds, p))
  }

  function Plain(d: Document): Row {
    Row(d.sender.qrid, d.recipient.qrid, d.sent, d.received, d.tax, false)
  }

  function Transformed(d: Document, qrid: string): Row {
    Row(d.sender.qrid, qrid, d.tax, d.tax, 0.0, true)
  }

  function Plains(ds: seq<Document>): seq<Row> {
    seq(|ds|, i requires 0 <= i < |ds| => Plain(ds[i]))
  }

  /** The rows of the tax income of an account with this QR-ID, in order. */
  function TaxRows(ds: seq<Document>, qrid: string): seq<Row> {
    if ds == [] then []
    else TaxRows(ds[..|ds| - 1], qrid) + if ds[|ds| - 1].tax > 0.0 then [Transformed(ds[|ds| - 1], qrid)] else []
  }

  /** A row that repeats a document. */
  predicate Repeats(t: Row, d: Document) {
    && t.senderQrid == d.sender.qrid && t.recipientQrid == d.recipient.qrid
    && t.sent == d.sent && t.received == d.received && t.tax == d.tax && !t.transformed
  }

  /** A row that shows the tax of a document as an untaxed transfer from its payer to this QR-ID. */
  predicate ShowsTax(t: Row, d: Document, qrid: string) {
    && t.senderQrid == d.sender.qrid && t.recipientQrid == qrid
    && t.sent == t.received == d.tax && t.tax == 0.0 && t.transformed
  }

  function Taxing(): Document -> bool { (d: Document) => d.tax > 0.0 }

  /** First a row for each document of the account in their order, then one for each positive tax income. */
  ghost predicate IsAnswer(rows: seq<Row>, normal: seq<Document>, taxed: seq<Document>, qrid: string) {
    var incomes := Select(taxed, Taxing());
    && |rows| == |normal| + |incomes|
    && (forall i :: 0 <= i < |normal| ==> Repeats(rows[i], normal[i]))
    && forall j :: 0 <= j < |incomes| ==> ShowsTax(rows[|normal| + j], incomes[j], qrid)
  }

  lemma {:induction false} TaxRowsShowTaxes(taxed: seq<Document>, qrid: string)
    ensures var incomes, rows := Select(taxed, Taxing()), TaxRows(taxed, qrid);
      |rows| == |incomes| && forall j :: 0 <= j < |rows| ==> ShowsTax(rows[j], incomes[j], qrid)
  {
    if taxed != [] {
      TaxRowsShowTaxes(taxed[..|taxed| - 1], qrid);
    }
  }

  /** get_last_transactions, from the results of its two queries. */
  method LastTransactions(normal: seq<Document>, taxed: seq<Document>, qrid: string) returns (rows: seq<Row>)
    ensures rows == Plains(normal) + TaxRows(taxed, qrid)
    ensures IsAnswer(rows, normal, taxed, qrid)
  {
    rows := Plains(normal);
    for i := 0 to |taxed|
      invariant rows == Plains(normal) + TaxRows(taxed[..i], qrid)
    {
      assert taxed[..i + 1][..i] == taxed[..i];
      if taxed[i].tax > 0.0 {
        rows := rows + [Transformed(taxed[i], qrid)];
      }
    }
    assert taxed[..|taxed|] == taxed;
    TaxRowsShowTaxes(taxed, qrid);
  }

  /** What one row changes in the displayed balance of the account with this QR-ID. */
  function Effect(t: Row, me: string): real {
    (if t.recipientQrid == me then t.received else 0.0)
    - (if t.senderQrid == me && !t.transformed then t.sent else 0.0)
  }

  function Effects(rows: seq<Row>, me: string): real {
    if rows == [] then 0.0 else Effects(rows[..|rows| - 1], me) + Effect(rows[|rows| - 1], me)
  }

  /** Zahlung, Eingang, Unsinn and Veraltet */
  datatype Description = Paid | Got | Nonsense | Outdated

  predicate Pays(t: Row, me: string) { t.senderQrid == me && !t.transformed }

  predicate Gets(t: Row, me: string) { t.recipientQrid == me }

  /** The description of a row says how the row changes the displayed balance. */
  ghost predicate Describes(d: Description, t: Row, me: string) {
    match d
    case Paid => Pays(t, me) && !Gets(t, me) && Effect(t, me) == -t.sent
    case Got => !Pays(t, me) && Gets(t, me) && Effect(t, me) == t.received
    case Nonsense => Pays(t, me) && Gets(t, me) && Effect(t, me) == t.received - t.sent
    case Outdated => !Pays(t, me) && !Gets(t, me) && Effect(t, me) == 0.0
  }

  /** The loop body: the next balance and the description. */
  method RenderRow(t: Row, me: string, before: real) returns (balance: real, description: Description)
    ensures balance == before + Effect(t, me)
    ensures Describes(description, t, me)
  {
    balance, description := before, Outdated;
    var isSender := t.senderQrid == me;
    var isRecipient := t.recipientQrid == me;
    if t.transformed && isSender {
      isSender := false;
    }
    if isSender {
      balance := balance - t.sent;
    }
    if isRecipient {
      balance := balance + t.received;
    }
    if isSender {
      description := Paid;
    }
    if isRecipient {
      description := Got;
    }
    if isSender && isRecipient {
      description := Nonsense;
    }
  }

  /** The loop of render_transactions, from the last row up; shown[i] is the balance beside row i. */
  method Render(rows: seq<Row>, me: string) returns (balance: real, shown: seq<real>, descriptions: seq<Description>)
    ensures balance == Effects(rows, me)
    ensures Shows(rows, me, shown) && Describe(descriptions, rows, me)
  {
    balance, shown, descriptions := 0.0, [], [];
    var i := |rows|;
    while i > 0
      invariant 0 <= i <= |rows|
      invariant balance == Effects(rows[i..], me)
      invariant Shows(rows[i..], me, shown) && Describe(descriptions, rows[i..], me)
    {
      i := i - 1;
      var description;
      balance, description := RenderRow(rows[i], me, balance);
      assert rows[i..] == [rows[i]] + rows[i + 1..];
      ShowsNext(rows[i], rows[i + 1..], me, shown);
      shown, descriptions := [balance] + shown, [description] + descriptions;
    }
    assert rows[0..] == rows;
  }

  /** Each row shows the sum of itself and all rows below it. */
  ghost predicate Shows(rows: seq<Row>, me: string, shown: seq<real>) {
    |shown| == |rows| && forall i :: 0 <= i < |rows| ==> shown[i] == Effects(rows[i..], me)
  }

  ghost predicate Describe(descriptions: seq<Description>, rows: seq<Row>, me: string) {
    |descriptions| == |rows| && forall i :: 0 <= i < |rows| ==> Describes(descriptions[i], rows[i], me)
  }

  lemma ShowsNext(t: Row, rows: seq<Row>, me: string, shown: seq<real>)
    requires Shows(rows, me, shown)
    ensures Effects([t] + rows, me) == Effects(rows, me) + Effect(t, me)
    ensures Shows([t] + rows, me, [Effects([t] + rows, me)] + shown)
  {
    EffectsOfConcat([t], rows, me);
    EffectsOfAppend([], t, me);
    assert [] + [t] == [t];
    forall i | 0 < i <= |rows| ensures ([t] + rows)[i..] == rows[i - 1..] {
    }
  }

  lemma {:induction false} EffectsOfConcat(xs: seq<Row>, ys: seq<Row>, me: string)
    ensures Effects(xs + ys, me) == Effects(xs, me) + Effects(ys, me)
  {
    if ys == [] {
      assert xs + ys == xs;
    } else {
      EffectsOfConcat(xs, ys[..|ys| - 1], me);
      assert (xs + ys)[..|xs + ys| - 1] == xs + ys[..|ys| - 1];
    }
  }

  lemma EffectsOfAppend(rows: seq<Row>, t: Row, me: string)
    ensures Effects(rows + [t], me) == Effects(rows, me) + Effect(t, me)
  {
    assert (rows + [t])[..|rows|] == rows;
  }

  // ---------- agreement with the balance ----------

  /** The account's QR-ID never changed and is nobody else's. */
  ghost predicate StableQrid(ds: seq<Document>, a: nat, qrid: string) {
    forall d :: d in ds ==>
      && (d.sender.party == Account(a) <==> d.sender.qrid == qrid)
      && (d.recipient.party == Account(a) <==> d.recipient.qrid == qrid)
  }

  /** Sums of any quantity over the documents of a query result. */
  function SumOver(ds: seq<Document>, f: Document -> real): real {
    if ds == [] then 0.0 else SumOver(ds[..|ds| - 1], f) + f(ds[|ds| - 1])
  }

  lemma {:induction false} SumOfConcat(xs: seq<Document>, ys: seq<Document>, f: Document -> real)
    ensures SumOver(xs + ys, f) == SumOver(xs, f) + SumOver(ys, f)
  {
    if ys == [] {
      assert xs + ys == xs;
    } else {
      SumOfConcat(xs, ys[..|ys| - 1], f);
      assert (xs + ys)[..|xs + ys| - 1] == xs + ys[..|ys| - 1];
    }
  }

  lemma SumOfAppend(ds: seq<Document>, d: Document, f: Document -> real)
    ensures SumOver(ds + [d], f) == SumOver(ds, f) + f(d)
  {
    assert (ds + [d])[..|ds|] == ds;
  }

  lemma Cut(ys: seq<Document>, k: nat)
    requires k < |ys|
    ensures ys == ys[..k] + [ys[k]] + ys[k + 1..]
  {
  }

  lemma RemoveAt(ys: seq<Document>, k: nat)
    requires k < |ys|
    ensures multiset(ys[..k] + ys[k + 1..]) == multiset(ys) - multiset{ys[k]}
  {
    assert ys == ys[..k] + [ys[k]] + ys[k + 1..];
  }

  lemma SumWithout(ys: seq<Document>, k: nat, f: Document -> real)
    requires k < |ys|
    ensures SumOver(ys, f) == SumOver(ys[..k] + ys[k + 1..], f) + f(ys[k])
  {
    var front, back := ys[..k], ys[k + 1..];
    SumOfAppend(front, ys[k], f);
    SumOfConcat(front + [ys[k]], back, f);
    SumOfConcat(front, back, f);
    Cut(ys, k);
  }

  /** Sorting does not change a sum. */
  lemma {:induction false} SumOfRearranged(xs: seq<Document>, ys: seq<Document>, f: Document -> real)
    requires multiset(xs) == multiset(ys)
    ensures SumOver(xs, f) == SumOver(ys, f)
  {
    assert |multiset(xs)| == |xs| && |multiset(ys)| == |ys|;
    if xs != [] {
      var n := |xs| - 1;
      assert xs[n] in multiset(ys);
      var k :| 0 <= k < |ys| && ys[k] == xs[n];
      RemoveAt(xs, n);
      RemoveAt(ys, k);
      assert xs[..n] + xs[n + 1..] == xs[..n];
      SumOfRearranged(xs[..n], ys[..k] + ys[k + 1..], f);
      SumWithout(ys, k, f);
    }
  }

  function Masked(p: Document -> bool, f: Document -> real): Document -> real {
    d => if p(d) then f(d) else 0.0
  }

  /** Selecting first or counting the others as zero is the same. */
  lemma {:induction false} SumOfSelected(ds: seq<Document>, p: Document -> bool, f: Document -> real)
    ensures SumOver(Select(ds, p), f) == SumOver(ds, Masked(p, f))
  {
    if ds != [] {
      var front, last := ds[..|ds| - 1], ds[|ds| - 1];
      SumOfSelected(front, p, f);
      if p(last) {
        SumOfAppend(Select(front, p), last, f);
        assert Select(ds, p) == Select(front, p) + [last];
      } else {
        assert Select(ds, p) == Select(front, p);
      }
    }
  }

  lemma SumOfResult(result: seq<Document>, ds: seq<Document>, p: Document -> bool, f: Document -> real)
    requires IsResult(result, ds, p)
    ensures SumOver(result, f) == SumOver(ds, Masked(p, f))
  {
    SumOfRearranged(result, Select(ds, p), f);
    SumOfSelected(ds, p, f);
  }

  // The quantities that are added up.

  function PlainEffect(me: string): Document -> real { d => Effect(Plain(d), me) }

  function TaxEffect(): Document -> real { (d: Document) => if d.tax > 0.0 then d.tax else 0.0 }

  function Contribution(a: nat): Document -> real {
    d => Share(EntryOf(d), Income, a) + Share(EntryOf(d), TaxIncome, a) - Share(EntryOf(d), Payments, a)
  }

  /** Negative tax income, which get_last_transactions leaves out. */
  function Hidden(a: nat): Document -> real { (d: Document) => if d.taxRecipient == a && d.tax < 0.0 then d.tax else 0.0 }

  lemma {:induction false} EffectsOfPlains(ds: seq<Document>, me: string)
    ensures Effects(Plains(ds), me) == SumOver(ds, PlainEffect(me))
  {
    if ds != [] {
      EffectsOfPlains(ds[..|ds| - 1], me);
      assert Plains(ds)[..|ds| - 1] == Plains(ds[..|ds| - 1]);
    }
  }

  lemma {:induction false} EffectsOfTaxRows(ds: seq<Document>, me: string)
    ensures Effects(TaxRows(ds, me), me) == SumOver(ds, TaxEffect())
  {
    if ds != [] {
      var front, last := ds[..|ds| - 1], ds[|ds| - 1];
      EffectsOfTaxRows(front, me);
      if last.tax > 0.0 {
        EffectsOfAppend(TaxRows(front, me), Transformed(last, me), me);
        assert TaxRows(ds, me) == TaxRows(front, me) + [Transformed(last, me)];
      } else {
        assert TaxRows(ds, me) == TaxRows(front, me);
      }
    }
  }

  lemma {:induction false} BalanceIsSum(ds: seq<Document>, a: nat)
    ensures Balance(Entries(ds), a) == SumOver(ds, Contribution(a))
  {
    if ds != [] {
      var front, last := ds[..|ds| - 1], ds[|ds| - 1];
      BalanceIsSum(front, a);
      assert Entries(ds) == Entries(front) + [EntryOf(last)];
      BalanceOfAppend(Entries(front), EntryOf(last), a);
    }
  }

  /** Quantities that agree document by document have the same sum. */
  lemma {:induction false} SumsAgree(ds: seq<Document>, f: Document -> real, g: Document -> real,
                                     h: Document -> real, k: Document -> real)
    requires forall d :: d in ds ==> f(d) + g(d) + h(d) == k(d)
    ensures SumOver(ds, f) + SumOver(ds, g) + SumOver(ds, h) == SumOver(ds, k)
  {
    if ds != [] {
      SumsAgree(ds[..|ds| - 1], f, g, h, k);
      assert ds[|ds| - 1] in ds;
    }
  }

  lemma {:induction false} HiddenIsZeroIff(ds: seq<Document>, a: nat)
    ensures SumOver(ds, Hidden(a)) <= 0.0
    ensures SumOver(ds, Hidden(a)) == 0.0 <==> forall d :: d in ds && d.taxRecipient == a ==> d.tax >= 0.0
  {
    if ds != [] {
      var front, last := ds[..|ds| - 1], ds[|ds| - 1];
      HiddenIsZeroIff(front, a);
      assert ds == front + [last];
    }
  }

  /** For an account whose QR-ID never changed, the sum of the displayed rows differs from its balance
      by exactly the negative tax income that the statement leaves out ... */
  lemma StatementVersusBalance(ds: seq<Document>, normal: seq<Document>, taxed: seq<Document>, a: nat, qrid: string)
    requires StableQrid(ds, a, qrid)
    requires IsResult(normal, ds, Involving(a)) && IsResult(taxed, ds, TaxFor(a))
    ensures Effects(Plains(normal) + TaxRows(taxed, qrid), qrid) + SumOver(ds, Hidden(a)) == Balance(Entries(ds), a)
  {
    EffectsOfConcat(Plains(normal), TaxRows(taxed, qrid), qrid);
    EffectsOfPlains(normal, qrid);
    EffectsOfTaxRows(taxed, qrid);
    SumOfResult(normal, ds, Involving(a), PlainEffect(qrid));
    SumOfResult(taxed, ds, TaxFor(a), TaxEffect());
    SumsAgree(ds, Masked(Involving(a), PlainEffect(qrid)), Masked(TaxFor(a), TaxEffect()), Hidden(a), Contribution(a));
    BalanceIsSum(ds, a);
  }

  /** ... so they agree if and only if no document has brought the account negative tax income:
      with self-transfers, and also for a tax account that pays tax to itself. */
  lemma StatementAgreesIff(ds: seq<Document>, normal: seq<Document>, taxed: seq<Document>, a: nat, qrid: string)
    requires StableQrid(ds, a, qrid)
    requires IsResult(normal, ds, Involving(a)) && IsResult(taxed, ds, TaxFor(a))
    ensures Effects(Plains(normal) + TaxRows(taxed, qrid), qrid) == Balance(Entries(ds), a)
            <==> forall d :: d in ds && d.taxRecipient == a ==> d.tax >= 0.0
  {
    StatementVersusBalance(ds, normal, taxed, a, qrid);
    HiddenIsZeroIff(ds, a);
  }

  // ---------- a negative tax rate ----------

  /** What transaction makes of a gross amount of 9 while transaction_tax_percent is -10. */
  function RebatedEntry(): P.Outcome {
    P.Transaction(P.Finite(9.0), P.Absent, -10.0, T.Pow10(5), P.Parties(Some(0), Some(1), Some(2), false, false))
  }

  lemma RebatedTax()
    ensures T.GrossToTax(9.0, -10.0, T.Pow10(5)) == -1.0
  {
    P.FivePlaces();
    assert T.ExactInGross(-0.1, 9.0) == -1.0;
    assert T.Ceil(-1.0 * 100000.0) == -100000;
  }

  /** The code does not refuse a negative configured rate, and then statement and balance of the tax account
      differ: the statement shows nothing, the balance is -1. */
  lemma NegativeRateHidesTax()
    ensures var o := RebatedEntry();
      o.Queued? &&
      var d := Document(Profile(o.entry.sender, "payer"), Profile(o.entry.recipient, "payee"), o.entry.taxRecipient,
                        o.entry.sent, o.entry.received, o.entry.tax);
      && EntryOf(d) == o.entry && o.entry.tax == -1.0
      && StableQrid([d], 0, "taxinc") && IsResult([], [d], Involving(0)) && IsResult([d], [d], TaxFor(0))
      && Effects(Plains([]) + TaxRows([d], "taxinc"), "taxinc") == 0.0 && Balance(Entries([d]), 0) == -1.0
  {
    RebatedTax();
    var e := RebatedEntry().entry;
    assert e == Entry(Account(1), Account(2), 0, 9.0, 10.0, -1.0);
    var d := Document(Profile(e.sender, "payer"), Profile(e.recipient, "payee"), 0, e.sent, e.received, e.tax);
    assert [d][..0] == [];
    assert Entries([d]) == [] + [e];
    BalanceOfAppend([], e, 0);
  }
}
