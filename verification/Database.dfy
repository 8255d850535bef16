/** The database calls behind the settlement protocol (server/api/db/transactions.js:68-200). */
module Database {
  import opened Ledger
  import opened Settlement
  import opened SettlementInvariant

  /** The transactions and pendingTransactions collections. */
  class TransactionDb {
    var ledger: seq<Entry>
    var pending: map<nat, Intent>

    constructor ()
      ensures ledger == [] && pending == map[]
    {
      ledger := [];
      pending := map[];
    }

    /** intent; trid is the fresh document id, now the default of the time field. */
    method SaveIntent(trid: nat, sender: nat, now: int)
      requires trid !in pending
      modifies this`pending
      ensures pending == old(pending)[trid := Intent(sender, now)]
    {
      pending := pending[trid := Intent(sender, now)];
    }

    /** checkWritePermission: find the sender's pending intents, sort by time, take the first. Among
        intents with equal times any one may come first. */
    method CheckWritePermission(trid: nat, sender: nat) returns (granted: bool)
      ensures exists first :: IsOldest(pending, sender, first) && (granted <==> first == trid)
      ensures (forall t, u :: t in pending && u in pending && t != u && pending[t].sender == pending[u].sender ==>
                 pending[t].time != pending[u].time) ==>
                (granted <==> trid in pending && IsOldest(pending, sender, trid))
    {
      var first: int := -1;
      var rest := pending.Keys;
      while rest != {}
        invariant rest <= pending.Keys
        invariant first >= 0 ==> first in pending && first !in rest && pending[first].sender == sender
        invariant forall t :: t in pending.Keys - rest && pending[t].sender == sender ==>
                    first >= 0 && pending[first].time <= pending[t].time
        decreases |rest|
      {
        var t :| t in rest;
        if pending[t].sender == sender && (first < 0 || pending[t].time < pending[first].time) {
          first := t;
        }
        rest := rest - {t};
      }
      assert IsOldest(pending, sender, first);
      granted := first == trid;
    }

    method WriteTransaction(entry: Entry)
      modifies this`ledger
      ensures ledger == old(ledger) + [entry]
    {
      ledger := ledger + [entry];
    }

    /** writeComplete: removing an intent that is already gone changes nothing. */
    method WriteComplete(trid: nat)
      modifies this`pending
      ensures pending == old(pending) - {trid}
    {
      pending := pending - {trid};
    }

    method RunAggregate(g: Aggregate, a: nat) returns (result: seq<real>)
      ensures |result| <= 1
      ensures ValueOf(result) == Total(ledger, g, a)
    {
      result := Aggregated(ledger, g, a);
    }
  }

  /** An empty result counts as 0. */
  function ValueOf(result: seq<real>): real
    requires |result| <= 1
  {
    if |result| == 0 then 0.0 else result[0]
  }

  /** The result of one aggregation: a single $group document, or none if no row matches. */
  method Aggregated(ledger: seq<Entry>, g: Aggregate, a: nat) returns (result: seq<real>)
    ensures |result| <= 1
    ensures ValueOf(result) == Total(ledger, g, a)
  {
    var sum, matched := 0.0, false;
    for k := 0 to |ledger|
      invariant sum == Total(ledger[..k], g, a)
      invariant !matched ==> sum == 0.0
    {
      assert ledger[..k + 1] == ledger[..k] + [ledger[k]];
      TotalOfAppend(ledger[..k], ledger[k], g, a);
      if Matches(ledger[k], g, a) {
        sum, matched := sum + Share(ledger[k], g, a), true;
      }
    }
    assert ledger[..|ledger|] == ledger;
    result := if matched then [sum] else [];
  }

  /** The $match stage of each pipeline. */
  predicate Matches(e: Entry, g: Aggregate, a: nat) {
    match g
    case Income => e.recipient == Account(a)
    case Payments => e.sender == Account(a)
    case TaxIncome => e.taxRecipient == a
  }

  /** One call of getBalance: three callbacks that arrive in any order, and what cb was called with. */
  class BalanceQuery {
    var seen: map<Aggregate, real>
    var calls: seq<real>

    constructor ()
      ensures seen == map[] && calls == []
    {
      seen := map[];
      calls := [];
    }

    /** The callback of aggregation g. */
    method OnAggregated(g: Aggregate, result: seq<real>)
      requires g !in seen && |result| <= 1
      modifies this
      ensures seen == old(seen)[g := ValueOf(result)]
      ensures calls == old(calls) + if seen.Keys == {Income, Payments, TaxIncome} then [Computed(seen)] else []
    {
      seen := seen[g := if |result| == 0 then 0.0 else result[0]];
      Complete();
    }

    /** aggregationComplete */
    method Complete()
      modifies this`calls
      ensures calls == old(calls) + if seen.Keys == {Income, Payments, TaxIncome} then [Computed(seen)] else []
    {
      if Income !in seen || Payments !in seen || TaxIncome !in seen {
        return;
      }
      forall g | g in seen.Keys ensures g in {Income, Payments, TaxIncome} {
        assert g.Income? || g.Payments? || g.TaxIncome?;
      }
      assert seen.Keys == {Income, Payments, TaxIncome};
      calls := calls + [seen[Income] + seen[TaxIncome] - seen[Payments]];
    }
  }

  /** One call of getBalance: the database evaluates each aggregation on the ledger that it has at some
      moment, and the callbacks arrive in some order; calls are the calls of cb. In every order cb is called
      exactly once, with the value of all three. */
  method GetBalance(ledgers: map<Aggregate, seq<Entry>>, a: nat, order: seq<Aggregate>) returns (calls: seq<real>)
    requires ledgers.Keys == {Income, Payments, TaxIncome}
    requires |order| == 3 && forall i, j :: 0 <= i < j < 3 ==> order[i] != order[j]
    ensures |calls| == 1
    ensures calls[0] == Total(ledgers[Income], Income, a) + Total(ledgers[TaxIncome], TaxIncome, a)
                        - Total(ledgers[Payments], Payments, a)
  {
    var q := new BalanceQuery();
    for k := 0 to 3
      invariant q.seen.Keys == set i | 0 <= i < k :: order[i]
      invariant forall g :: g in q.seen ==> g in ledgers && q.seen[g] == Total(ledgers[g], g, a)
      invariant |q.calls| == if k == 3 then 1 else 0
      invariant k == 3 ==> q.seen.Keys == {Income, Payments, TaxIncome} && q.calls[0] == Computed(q.seen)
    {
      var g := order[k];
      assert g.Income? || g.Payments? || g.TaxIncome?;
      var result := Aggregated(ledgers[g], g, a);
      q.OnAggregated(g, result);
      AllThree(order, k + 1);
    }
    calls := q.calls;
  }

  /** The same on one growing ledger: at says how long it was when each aggregation was evaluated. While
      nobody writes a payment of the account, the one call reports a value between the true balance at the
      first and at the last of these moments; on an unchanged ledger it reports the balance. */
  method GetTornBalance(l: seq<Entry>, at: map<Aggregate, nat>, lo: nat, hi: nat, a: nat, order: seq<Aggregate>)
    returns (calls: seq<real>)
    requires at.Keys == {Income, Payments, TaxIncome}
    requires lo <= hi <= |l| && forall g :: g in at ==> lo <= at[g] <= hi
    requires forall k :: lo <= k < hi ==> Sound(l[k]) && l[k].sender != Account(a)
    requires |order| == 3 && forall i, j :: 0 <= i < j < 3 ==> order[i] != order[j]
    ensures |calls| == 1 && Balance(l[..lo], a) <= calls[0] <= Balance(l[..hi], a)
  {
    calls := GetBalance(map g | g in at :: l[..at[g]], a, order);
    TornReadsAreSandwiched(l, a, at, lo, hi);
  }

  lemma AllThree(order: seq<Aggregate>, k: nat)
    requires |order| == 3 && k <= 3 && forall i, j :: 0 <= i < j < 3 ==> order[i] != order[j]
    ensures (set i | 0 <= i < k :: order[i]) == {Income, Payments, TaxIncome} <==> k == 3
  {
    var s := set i | 0 <= i < k :: order[i];
    assert order[0] != order[1] && order[0] != order[2] && order[1] != order[2];
    if k == 3 {
      assert order[0] in s && order[1] in s && order[2] in s;
      assert s == {order[0], order[1], order[2]};
    } else {
      assert order[2] !in s;
    }
  }
}
