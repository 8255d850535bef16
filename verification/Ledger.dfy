/** The append-only transaction collection and the balances computed from it
    (server/api/db/transactions.js). */
module Ledger {

  /** A party of a transaction: a student's document, or the magic account, whose profile
      carries no reference, so that no balance aggregation ever matches it. */
  datatype Party = Account(id: nat) | Magic

  /** One transaction document. Amounts are in HGC. */
  datatype Entry = Entry(sender: Party, recipient: Party, taxRecipient: nat,
                         sent: real, received: real, tax: real)

  /** The three aggregation pipelines that getBalance launches. */
  datatype Aggregate = Income | Payments | TaxIncome

  /** What one document contributes to one aggregation over account a. */
  function Share(e: Entry, g: Aggregate, a: nat): real {
    match g
    case Income => if e.recipient == Account(a) then e.received else 0.0
    case Payments => if e.sender == Account(a) then e.sent else 0.0
    case TaxIncome => if e.taxRecipient == a then e.tax else 0.0
  }

  /** The $sum of one aggregation. */
  function Total(l: seq<Entry>, g: Aggregate, a: nat): real {
    if l == [] then 0.0 else Total(l[..|l| - 1], g, a) + Share(l[|l| - 1], g, a)
  }

  function Balance(l: seq<Entry>, a: nat): real {
    Total(l, Income, a) + Total(l, TaxIncome, a) - Total(l, Payments, a)
  }

  /** Credits are never negative: what on-grid amounts and non-negative tax rates give. */
  predicate Sound(e: Entry) {
    e.received >= 0.0 && e.tax >= 0.0
  }

  /** A payment's row was written only while its sender could afford it. */
  predicate Affordable(l: seq<Entry>, e: Entry) {
    e.sender.Account? ==> Balance(l, e.sender.id) >= e.sent
  }

  /** Every row could be afforded at the place where it stands. */
  ghost predicate Covered(l: seq<Entry>) {
    forall k :: 0 <= k < |l| ==> Sound(l[k]) && Affordable(l[..k], l[k])
  }

  lemma TotalOfAppend(l: seq<Entry>, e: Entry, g: Aggregate, a: nat)
    ensures Total(l + [e], g, a) == Total(l, g, a) + Share(e, g, a)
  {
    assert (l + [e])[..|l|] == l;
  }

  lemma BalanceOfAppend(l: seq<Entry>, e: Entry, a: nat)
    ensures Balance(l + [e], a)
         == Balance(l, a) + Share(e, Income, a) + Share(e, TaxIncome, a) - Share(e, Payments, a)
  {
    TotalOfAppend(l, e, Income, a);
    TotalOfAppend(l, e, TaxIncome, a);
    TotalOfAppend(l, e, Payments, a);
  }

  /** Appending an affordable sound row keeps the ledger covered. */
  lemma CoveredAppend(l: seq<Entry>, e: Entry)
    requires Covered(l) && Sound(e) && Affordable(l, e)
    ensures Covered(l + [e])
  {
    forall k | 0 <= k < |l + [e]|
      ensures Sound((l + [e])[k]) && Affordable((l + [e])[..k], (l + [e])[k])
    {
      assert (l + [e])[..k] == l[..k];
      assert l[..|l|] == l;
    }
  }

  lemma CoveredPrefix(l: seq<Entry>, n: nat)
    requires Covered(l) && n <= |l|
    ensures Covered(l[..n])
  {
    forall k | 0 <= k < n ensures Affordable(l[..n][..k], l[..n][k]) {
      assert l[..n][..k] == l[..k];
    }
  }

  /** No account of a covered ledger is overdrawn, whoever it is: the tax account, an account
      that pays itself, or one whose credits come from other senders' payments. */
  lemma {:induction false} CoveredIsSolvent(l: seq<Entry>, a: nat)
    requires Covered(l)
    ensures Balance(l, a) >= 0.0
  {
    if l != [] {
      var front, last := l[..|l| - 1], l[|l| - 1];
      CoveredPrefix(l, |l| - 1);
      CoveredIsSolvent(front, a);
      assert Sound(last) && Affordable(front, last);
      assert l == front + [last];
      BalanceOfAppend(front, last, a);
    }
  }

  /** Sound rows only add to income and tax income; rows sent by others leave payments alone. */
  lemma {:induction false} TotalsGrow(l: seq<Entry>, lo: nat, hi: nat, a: nat)
    requires lo <= hi <= |l|
    requires forall k :: lo <= k < hi ==> Sound(l[k])
    ensures Total(l[..lo], Income, a) <= Total(l[..hi], Income, a)
    ensures Total(l[..lo], TaxIncome, a) <= Total(l[..hi], TaxIncome, a)
    ensures (forall k :: lo <= k < hi ==> l[k].sender != Account(a)) ==>
              Total(l[..lo], Payments, a) == Total(l[..hi], Payments, a)
    decreases hi
  {
    if lo < hi {
      TotalsGrow(l, lo, hi - 1, a);
      assert l[..hi] == l[..hi - 1] + [l[hi - 1]];
      assert Sound(l[hi - 1]);
      TotalOfAppend(l[..hi - 1], l[hi - 1], Income, a);
      TotalOfAppend(l[..hi - 1], l[hi - 1], TaxIncome, a);
      TotalOfAppend(l[..hi - 1], l[hi - 1], Payments, a);
    }
  }

  // ---------- conservation ----------

  /** The balances of the accounts 0 .. n-1, added up. */
  function AllBalances(l: seq<Entry>, n: nat): real {
    if n == 0 then 0.0 else AllBalances(l, n - 1) + Balance(l, n - 1)
  }

  function MagicSent(l: seq<Entry>): real {
    if l == [] then 0.0
    else MagicSent(l[..|l| - 1]) + if l[|l| - 1].sender.Magic? then l[|l| - 1].sent else 0.0
  }

  function MagicReceived(l: seq<Entry>): real {
    if l == [] then 0.0
    else MagicReceived(l[..|l| - 1]) + if l[|l| - 1].recipient.Magic? then l[|l| - 1].received else 0.0
  }

  /** Every account a row refers to has an id below n. */
  predicate Within(e: Entry, n: nat) {
    && (e.sender.Account? ==> e.sender.id < n)
    && (e.recipient.Account? ==> e.recipient.id < n)
    && e.taxRecipient < n
  }

  predicate Balanced(e: Entry) {
    e.sent == e.received + e.tax
  }

  predicate Below(p: Party, n: nat) {
    p.Account? && p.id < n
  }

  /** One row moves each of its three amounts into or out of exactly one account. */
  lemma {:induction false} AllBalancesOfAppend(l: seq<Entry>, e: Entry, n: nat)
    ensures AllBalances(l + [e], n)
         == AllBalances(l, n)
            + (if Below(e.recipient, n) then e.received else 0.0)
            + (if e.taxRecipient < n then e.tax else 0.0)
            - (if Below(e.sender, n) then e.sent else 0.0)
  {
    if n > 0 {
      AllBalancesOfAppend(l, e, n - 1);
      BalanceOfAppend(l, e, n - 1);
    }
  }

  lemma {:induction false} NothingIsNothing(n: nat)
    ensures AllBalances([], n) == 0.0
  {
    if n > 0 {
      NothingIsNothing(n - 1);
    }
  }

  /** Conservation: the money in all accounts is exactly what the magic account has sent minus
      what it has received, for transfers, self-transfers, taxed spawns, destruction, and tax
      recipients that change from row to row. */
  lemma {:induction false} Conservation(l: seq<Entry>, n: nat)
    requires forall k :: 0 <= k < |l| ==> Balanced(l[k]) && Within(l[k], n)
    ensures AllBalances(l, n) == MagicSent(l) - MagicReceived(l)
  {
    if l == [] {
      NothingIsNothing(n);
    } else {
      var front, last := l[..|l| - 1], l[|l| - 1];
      Conservation(front, n);
      assert l == front + [last];
      assert Balanced(last) && Within(last, n);
      AllBalancesOfAppend(front, last, n);
    }
  }

  // ---------- torn reads ----------

  /** The three aggregations may be evaluated at three different moments, here the ledger
      lengths at[Income], at[Payments] and at[TaxIncome], in any order. While nobody writes a
      payment of account a, the value computed from them lies between the true balance at the
      first and at the last of these moments. */
  lemma TornReadsAreSandwiched(l: seq<Entry>, a: nat, at: map<Aggregate, nat>, lo: nat, hi: nat)
    requires at.Keys == {Income, Payments, TaxIncome}
    requires lo <= hi <= |l| && forall g :: g in at ==> lo <= at[g] <= hi
    requires forall k :: lo <= k < hi ==> Sound(l[k]) && l[k].sender != Account(a)
    ensures Balance(l[..lo], a)
         <= Total(l[..at[Income]], Income, a) + Total(l[..at[TaxIncome]], TaxIncome, a)
            - Total(l[..at[Payments]], Payments, a)
         <= Balance(l[..hi], a)
  {
    forall g | g in at
      ensures Total(l[..lo], g, a) <= Total(l[..at[g]], g, a) <= Total(l[..hi], g, a)
      ensures g == Payments ==> Total(l[..lo], g, a) == Total(l[..at[g]], g, a) == Total(l[..hi], g, a)
    {
      TotalsGrow(l, lo, at[g], a);
      TotalsGrow(l, at[g], hi, a);
    }
  }
}
