/** Short runs which show that the settlement protocol is not safe without its assumptions. Both
    start from an ordinary state: account 1 owns 10 and one payment of 8 waits in its slot. */
module Witnesses {
  import opened Ledger
  import opened Settlement
  import opened SettlementInvariant
  import opened SettlementTheorems
  import opened Progress

  const GIFT := Entry(Magic, Account(1), 0, 10.0, 10.0, 0.0)
  const PAY := Entry(Account(1), Account(2), 0, 8.0, 8.0, 0.0)
  const SLOT := SlotId(0, 0)

  const START := State([GIFT], map[], map[], map[0 := 0], map[], map[], {}, {}, 0, 0, [-1], [], [], map[])

  /** The payment is announced and enqueued. */
  function Waiting(): State {
    START.(intents := map[0 := Intent(1, 0)], lengths := map[0 := 1], slots := map[SLOT := Pending(0, PAY)],
           nextTrid := 1, requests := map[0 := Request(PAY, 1)])
  }

  /** Reachable by a disciplined run from freshly started workers. */
  ghost predicate Reachable(s: State) {
    exists states, events :: Run(states, events) && states[|events|] == s
  }

  lemma ReachableOn(s: State, e: Event)
    requires Reachable(s) && Enabled(s, e) && Disciplined(s, e)
    ensures Reachable(Apply(s, e))
  {
    var states, events :| Run(states, events) && states[|events|] == s;
    StepsOn(states, events, e);
    assert Run(states + [Apply(s, e)], events + [e]);
  }

  lemma ReachableFrom(s: State, s': State)
    requires Reachable(s) && Reaches(s, s')
    ensures Reachable(s')
  {
    var states, events :| Steps(states, events) && (forall e :: e in events ==> Quieter(e))
      && states[0] == s && states[|events|] == s';
    for i := 0 to |events|
      invariant Reachable(states[i])
    {
      ReachableOn(states[i], events[i]);
    }
  }

  lemma StartBalance(a: nat)
    ensures forall g :: Total([GIFT], g, a) == Share(GIFT, g, a)
  {
    assert [GIFT] == [] + [GIFT];
    forall g ensures Total([GIFT], g, a) == Share(GIFT, g, a) {
      TotalOfAppend([], GIFT, g, a);
    }
  }

  lemma GiftBalance()
    ensures Balance([GIFT], 1) == 10.0
  {
    StartBalance(1);
  }

  lemma AnnouncedIsReachable()
    ensures Reachable(Apply(START, Announce(0, PAY, 0)))
  {
    StartBalance(1);
    assert Covered(START.ledger);
    assert Run([START], []);
    ReachableOn(START, Announce(0, PAY, 0));
  }

  lemma WaitingIsReachable()
    requires Reachable(Apply(START, Announce(0, PAY, 0)))
    ensures Reachable(Waiting())
  {
    EnqueuedIsWaiting();
    ReachableOn(Apply(START, Announce(0, PAY, 0)), Enqueue(0));
  }

  lemma EnqueuedIsWaiting()
    ensures var s := Apply(START, Announce(0, PAY, 0));
      Enabled(s, Enqueue(0)) && Disciplined(s, Enqueue(0)) && Apply(s, Enqueue(0)) == Waiting()
  {
  }

  /** The balance is read while the account still owns 10. */
  lemma ReadIsReachable() returns (p: Phase)
    ensures Reachable(With(Waiting(), SLOT, p))
    ensures p.Reading? && p.pe == Pending(0, PAY) && p.seen.Keys == {Income, Payments, TaxIncome}
    ensures Computed(p.seen) == 10.0
  {
    AnnouncedIsReachable();
    WaitingIsReachable();
    p := HeadCanRead(Waiting(), SLOT);
    ReachableFrom(Waiting(), With(Waiting(), SLOT, p));
    StartBalance(1);
  }

  /** (A4) If transaction_delete removes the account's income between the balance check and the
      write, the next step of a disciplined run overdraws the account. */
  lemma DeletionOverdraws() returns (s: State, s': State)
    ensures Reachable(s) && Enabled(s, Delete(0)) && s' == Apply(s, Delete(0))
    ensures Enabled(s', Store(0)) && Disciplined(s', Store(0))
    ensures Balance(s'.ledger, 1) == 0.0 && Balance(Apply(s', Store(0)).ledger, 1) == -8.0
  {
    var p := ReadIsReachable();
    AcceptedIsReachable(p);
    s := Accepted();
    DeletedIsStorable();
    s' := Apply(s, Delete(0));
    LonelyPayment(s'.ledger, Apply(s', Store(0)).ledger);
  }

  lemma LonelyPayment(l: seq<Entry>, l': seq<Entry>)
    requires l == [] && l' == [PAY]
    ensures Balance(l, 1) == 0.0 && Balance(l', 1) == -8.0
  {
    assert l' == [] + [PAY];
    BalanceOfAppend([], PAY, 1);
  }

  function Accepted(): State { With(Waiting(), SLOT, Writing(Pending(0, PAY))) }

  lemma DeletedIsStorable()
    ensures Enabled(Accepted(), Delete(0))
    ensures var s' := Apply(Accepted(), Delete(0));
      && s'.ledger == [] && Enabled(s', Store(0)) && Disciplined(s', Store(0))
      && Apply(s', Store(0)).ledger == [PAY]
  {
  }

  /** The payment is accepted, its row is not yet stored. */
  lemma AcceptedIsReachable(p: Phase)
    requires Reachable(With(Waiting(), SLOT, p))
    requires p.Reading? && p.pe == Pending(0, PAY) && p.seen.Keys == {Income, Payments, TaxIncome}
    requires Computed(p.seen) == 10.0
    ensures Reachable(Accepted())
  {
    AcceptedIs(p);
    ReachableOn(With(Waiting(), SLOT, p), Decide(0));
  }

  lemma AcceptedIs(p: Phase)
    requires p.Reading? && p.pe == Pending(0, PAY) && p.seen.Keys == {Income, Payments, TaxIncome}
    requires Computed(p.seen) == 10.0
    ensures var s := With(Waiting(), SLOT, p);
      && Enabled(s, Decide(0)) && Disciplined(s, Decide(0))
      && Apply(s, Decide(0)) == Accepted()
  {
  }

  /** The write of the accepted payment reports an error. */
  function Rejected(): State {
    Waiting().(nextChain := 1, limbo := {Pending(0, PAY)}, replies := [Reply(0, Failed)])
  }

  /** The failed write happens after all. */
  function Stored(): State {
    Rejected().(limbo := {}, ledger := [GIFT, PAY], origins := [-1, 0])
  }

  lemma RejectedIsReachable()
    ensures Reachable(Rejected())
  {
    var p := ReadIsReachable();
    AcceptedIsReachable(p);
    AbortedIsRejected();
    ReachableOn(Accepted(), Abort(0));
  }

  lemma AbortedIsRejected()
    ensures Enabled(Accepted(), Abort(0)) && Disciplined(Accepted(), Abort(0))
    ensures Apply(Accepted(), Abort(0)) == Rejected()
  {
  }

  lemma LateIsStored()
    ensures Enabled(Rejected(), LateStore(Pending(0, PAY)))
    ensures Apply(Rejected(), LateStore(Pending(0, PAY))) == Stored()
  {
    assert [GIFT] + [PAY] == [GIFT, PAY] && [-1] + [0] == [-1, 0];
  }

  lemma RemainderIsTwo()
    ensures Balance([GIFT, PAY], 1) == 2.0
  {
    assert [GIFT, PAY] == [GIFT] + [PAY];
    GiftBalance();
    BalanceOfAppend([GIFT], PAY, 1);
  }

  /** (A3) If a write that has reported an error happens after all, disciplined steps tell the client
      "nomoney" although the money has been taken: the retried payment finds too little left. */
  lemma LateWriteMisleads() returns (s': State)
    ensures Reachable(Rejected()) && Enabled(Rejected(), LateStore(Pending(0, PAY)))
    ensures Reaches(Apply(Rejected(), LateStore(Pending(0, PAY))), s')
    ensures Reply(0, NoMoney) in s'.replies && 0 in s'.origins
  {
    RejectedIsReachable();
    LateIsStored();
    s' := StoredIsRefused();
  }

  lemma StoredIsRefused() returns (s': State)
    ensures Reaches(Stored(), s') && Reply(0, NoMoney) in s'.replies && 0 in s'.origins
  {
    var p := HeadCanRead(Stored(), SLOT);
    RemainderIsTwo();
    s' := RefusalSettles(Stored(), SLOT, p);
    assert s'.origins[1] == 0;
  }

  /** The waiting payment with two chains on its slot. */
  function Two(p: Phase, q: Phase): State {
    Waiting().(chains := map[0 := Chain(SLOT, 0, 1, p), 1 := Chain(SLOT, 0, 1, q)], nextChain := 2)
  }

  /** A second tick visits the slot while the first chain has already read the balance. */
  lemma SecondAskIsReachable() returns (p: Phase)
    ensures Reachable(Two(p, Asked))
    ensures p.Reading? && p.pe == Pending(0, PAY) && p.seen.Keys == {Income, Payments, TaxIncome}
    ensures Computed(p.seen) == 10.0
  {
    p := ReadIsReachable();
    SecondAsk(p);
    ReachableOn(With(Waiting(), SLOT, p), Ask(SLOT));
  }

  lemma SecondAsk(p: Phase)
    ensures var s := With(Waiting(), SLOT, p);
      Enabled(s, Ask(SLOT)) && Disciplined(s, Ask(SLOT)) && Apply(s, Ask(SLOT)) == Two(p, Asked)
  {
  }

  /** Its query is granted. */
  lemma OverlapIsReachable(p: Phase)
    requires Reachable(Two(p, Asked))
    ensures Reachable(Two(p, Granted))
  {
    ReachableOn(Two(p, Asked), Evaluate(1, 0));
    assert Apply(Two(p, Asked), Evaluate(1, 0)) == Two(p, Granted);
  }

  lemma SecondReadsOn(s: State, p: Phase, q: Phase, g: Aggregate) returns (q': Phase)
    requires q.Reading? && q.pe == Pending(0, PAY) && g !in q.seen && Reaches(s, Two(p, q))
    ensures q'.Reading? && q'.pe == q.pe && q'.seen == q.seen[g := Total([GIFT], g, 1)]
    ensures Reaches(s, Two(p, q'))
  {
    q' := Observe(q, g, [GIFT], 1);
    ReachesOn(s, Two(p, q), Read(1, g));
    assert Apply(Two(p, q), Read(1, g)) == Two(p, q');
  }

  /** The second chain reads the same balance. */
  lemma SecondReads(p: Phase) returns (q: Phase)
    ensures q.Reading? && q.pe == Pending(0, PAY) && q.seen.Keys == {Income, Payments, TaxIncome}
    ensures Computed(q.seen) == 10.0
    ensures Reaches(Two(p, Reading(Pending(0, PAY), map[], 0)), Two(p, q))
  {
    q := Reading(Pending(0, PAY), map[], 0);
    var s := Two(p, q);
    ReachesItself(s);
    var q1 := SecondReadsOn(s, p, q, Income);
    var q2 := SecondReadsOn(s, p, q1, Payments);
    q := SecondReadsOn(s, p, q2, TaxIncome);
    AllRead(q.seen, [GIFT], 1);
    GiftBalance();
  }

  /** Both chains find the payment affordable ... */
  lemma BothDecide(p: Phase, q: Phase)
    requires p.Reading? && p.pe == Pending(0, PAY) && p.seen.Keys == {Income, Payments, TaxIncome}
    requires q.Reading? && q.pe == Pending(0, PAY) && q.seen.Keys == {Income, Payments, TaxIncome}
    requires Computed(p.seen) == 10.0 && Computed(q.seen) == 10.0
    ensures Reaches(Two(p, q), Two(Writing(Pending(0, PAY)), Writing(Pending(0, PAY))))
  {
    var pe := Pending(0, PAY);
    ReachesItself(Two(p, q));
    ReachesOn(Two(p, q), Two(p, q), Decide(0));
    assert Apply(Two(p, q), Decide(0)) == Two(Writing(pe), q);
    ReachesOn(Two(p, q), Two(Writing(pe), q), Decide(1));
    assert Apply(Two(Writing(pe), q), Decide(1)) == Two(Writing(pe), Writing(pe));
  }

  /** ... and both write it. */
  lemma BothWrite(s: State) returns (s': State)
    requires Reaches(s, Two(Writing(Pending(0, PAY)), Writing(Pending(0, PAY))))
    ensures Reaches(s, s') && s'.ledger == [GIFT, PAY, PAY] && s'.origins == [-1, 0, 0]
  {
    var s1 := Two(Writing(Pending(0, PAY)), Writing(Pending(0, PAY)));
    ReachesOn(s, s1, Store(0));
    ReachesOn(s, Apply(s1, Store(0)), Store(1));
    s' := Apply(Apply(s1, Store(0)), Store(1));
  }

  /** (A1) One step that ignores A1, a permission callback on a slot that another chain is already
      working on, and otherwise only disciplined steps write one payment twice and overdraw it. */
  lemma OverlapOverdraws() returns (s: State, s': State)
    ensures Reachable(s) && Enabled(s, Callback(1)) && !Uncontested(s, 1)
    ensures Reaches(Apply(s, Callback(1)), s')
    ensures s'.origins == [-1, 0, 0] && Balance(s'.ledger, 1) == -6.0
  {
    var p := SecondAskIsReachable();
    OverlapIsReachable(p);
    s := Two(p, Granted);
    assert s.chains[0].slot == s.chains[1].slot;
    var t := Two(p, Reading(Pending(0, PAY), map[], 0));
    assert Apply(s, Callback(1)) == t;
    var q := SecondReads(p);
    BothDecide(p, q);
    ReachesTransitive(t, Two(p, q), Two(Writing(Pending(0, PAY)), Writing(Pending(0, PAY))));
    s' := BothWrite(t);
    DoublePayment();
  }

  lemma DoublePayment()
    ensures Balance([GIFT, PAY, PAY], 1) == -6.0
  {
    assert [GIFT, PAY, PAY] == [GIFT, PAY] + [PAY] && [GIFT, PAY] == [GIFT] + [PAY];
    StartBalance(1);
    BalanceOfAppend([GIFT], PAY, 1);
    BalanceOfAppend([GIFT, PAY], PAY, 1);
  }
}
