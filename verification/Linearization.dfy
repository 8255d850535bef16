/** The settlement protocol refines a sequential bank: every disciplined run, with any number of
    workers, is linearizable. */
module Linearization {
  import opened Ledger
  import opened Settlement
  import opened SettlementInvariant
  import opened SettlementTheorems

  // ---------- the sequential bank ----------

  /** The bank serves one request at a time: it refuses a payment that its sender cannot afford
      and otherwise appends it; the magic account is never refused. */
  function Serve(l: seq<Entry>, e: Entry): (seq<Entry>, Answer) {
    if e.sender.Account? && Balance(l, e.sender.id) - e.sent < 0.0 then (l, NoMoney) else (l + [e], Ok)
  }

  function ServeAll(l: seq<Entry>, es: seq<Entry>): (seq<Entry>, seq<Answer>) {
    if es == [] then (l, [])
    else
      var (l1, answers) := ServeAll(l, es[..|es| - 1]);
      var (l2, answer) := Serve(l1, es[|es| - 1]);
      (l2, answers + [answer])
  }

  // ---------- the linearization ----------

  /** One operation of a run: the row at some position, or one of the refusals. */
  datatype Op = Commit(row: nat) | Refused(refusal: nat)

  /** Among the first n refusals, those whose first balance read saw a ledger of length p. */
  function RefusedAt(rs: seq<Refusal>, p: nat, n: nat): (ops: seq<Op>)
    requires n <= |rs|
    ensures forall op :: op in ops ==> op.Refused? && op.refusal < n && rs[op.refusal].mark == p
  {
    if n == 0 then []
    else RefusedAt(rs, p, n - 1) + if rs[n - 1].mark == p then [Refused(n - 1)] else []
  }

  /** Operation op takes effect on a ledger of at most n rows. */
  predicate UpTo(rs: seq<Refusal>, n: nat, op: Op) {
    if op.Commit? then op.row < n else op.refusal < |rs| && rs[op.refusal].mark <= n
  }

  /** Each row takes effect when it is written, each refusal at the first of its balance reads. */
  function History(rs: seq<Refusal>, n: nat): (ops: seq<Op>)
    ensures forall op :: op in ops ==> UpTo(rs, n, op)
  {
    if n == 0 then RefusedAt(rs, 0, |rs|)
    else History(rs, n - 1) + [Commit(n - 1)] + RefusedAt(rs, n, |rs|)
  }

  ghost predicate IsOp(s: State, op: Op) {
    match op
    case Commit(k) => k < |s.ledger|
    case Refused(j) => j < |s.refusals|
  }

  function EntryOf(s: State, op: Op): Entry
    requires IsOp(s, op)
  {
    match op
    case Commit(k) => s.ledger[k]
    case Refused(j) => s.refusals[j].entry
  }

  /** The request, by its intent, that an operation belongs to; -1 for spawned or older rows. */
  function TridOf(s: State, op: Op): int
    requires IsOp(s, op) && |s.origins| == |s.ledger|
  {
    match op
    case Commit(k) => s.origins[k]
    case Refused(j) => s.refusals[j].trid
  }

  function AnswerOf(op: Op): Answer { if op.Commit? then Ok else NoMoney }

  function Entries(s: State, ops: seq<Op>): seq<Entry>
    requires forall op :: op in ops ==> IsOp(s, op)
  {
    seq(|ops|, i requires 0 <= i < |ops| => EntryOf(s, ops[i]))
  }

  function AnswersOf(ops: seq<Op>): seq<Answer> {
    seq(|ops|, i requires 0 <= i < |ops| => AnswerOf(ops[i]))
  }

  /** The bank, having served ops, has built exactly the first n rows. */
  ghost predicate Builds(s: State, ops: seq<Op>, n: nat)
    requires n <= |s.ledger|
  {
    && (forall op :: op in ops ==> IsOp(s, op))
    && ServeAll([], Entries(s, ops)) == (s.ledger[..n], AnswersOf(ops))
  }

  lemma ServeOne(s: State, ops: seq<Op>, op: Op, l: seq<Entry>)
    requires forall o :: o in ops ==> IsOp(s, o)
    requires IsOp(s, op)
    requires ServeAll([], Entries(s, ops)) == (l, AnswersOf(ops))
    requires Serve(l, EntryOf(s, op)).1 == AnswerOf(op)
    ensures ServeAll([], Entries(s, ops + [op])) == (Serve(l, EntryOf(s, op)).0, AnswersOf(ops + [op]))
  {
    var es := Entries(s, ops + [op]);
    assert es[..|es| - 1] == Entries(s, ops);
    assert es[|es| - 1] == EntryOf(s, op);
    assert AnswersOf(ops + [op]) == AnswersOf(ops) + [AnswerOf(op)];
  }

  lemma ServeRefusal(s: State, before: seq<Op>, p: nat, j: nat)
    requires j < |s.refusals| && s.refusals[j].mark == p <= |s.ledger| && Builds(s, before, p)
    requires forall r :: r in s.refusals ==> RightlyRefused(s, r)
    ensures Builds(s, before + [Refused(j)], p)
  {
    assert RightlyRefused(s, s.refusals[j]);
    ServeOne(s, before, Refused(j), s.ledger[..p]);
  }

  /** The refusals at one position leave the bank's ledger alone and are answered "nomoney". */
  lemma {:induction false} ServeRefusals(s: State, ops: seq<Op>, p: nat, n: nat)
    requires forall r :: r in s.refusals ==> RightlyRefused(s, r)
    requires n <= |s.refusals| && p <= |s.ledger|
    requires Builds(s, ops, p)
    ensures Builds(s, ops + RefusedAt(s.refusals, p, n), p)
  {
    if n == 0 {
      assert ops + [] == ops;
    } else {
      ServeRefusals(s, ops, p, n - 1);
      var before := ops + RefusedAt(s.refusals, p, n - 1);
      if s.refusals[n - 1].mark == p {
        ServeRefusal(s, before, p, n - 1);
        assert before + [Refused(n - 1)] == ops + RefusedAt(s.refusals, p, n);
      } else {
        assert before == ops + RefusedAt(s.refusals, p, n);
      }
    }
  }

  lemma ServeRow(s: State, ops: seq<Op>, n: nat)
    requires Covered(s.ledger) && n < |s.ledger| && Builds(s, ops, n)
    ensures Builds(s, ops + [Commit(n)], n + 1)
  {
    assert Affordable(s.ledger[..n], s.ledger[n]);
    ServeOne(s, ops, Commit(n), s.ledger[..n]);
    assert s.ledger[..n] + [s.ledger[n]] == s.ledger[..n + 1];
  }

  /** Serving the history up to position n builds exactly the first n rows. */
  lemma {:induction false} ServeHistory(s: State, n: nat)
    requires Covered(s.ledger) && forall r :: r in s.refusals ==> RightlyRefused(s, r)
    requires n <= |s.ledger|
    ensures Builds(s, History(s.refusals, n), n)
  {
    if n == 0 {
      assert Entries(s, []) == [] && AnswersOf([]) == [];
      ServeRefusals(s, [], 0, |s.refusals|);
      assert [] + RefusedAt(s.refusals, 0, |s.refusals|) == RefusedAt(s.refusals, 0, |s.refusals|);
    } else {
      ServeHistory(s, n - 1);
      ServeRow(s, History(s.refusals, n - 1), n - 1);
      ServeRefusals(s, History(s.refusals, n - 1) + [Commit(n - 1)], n, |s.refusals|);
    }
  }

  /** What the invariant says about ledger and refusals. */
  lemma RunMoney(states: seq<State>, events: seq<Event>, i: nat)
    requires Run(states, events) && i < |states|
    ensures Covered(states[i].ledger)
    ensures forall r :: r in states[i].refusals ==> RightlyRefused(states[i], r) && r.trid < states[i].nextTrid
    ensures forall t :: t in states[i].requests <==> 0 <= t < states[i].nextTrid
  {
    RunInv(states, events, i);
  }

  /** Refinement: in every reachable state, the bank that serves the operations of the history one
      after the other ends with exactly this ledger and gives exactly these answers. */
  lemma RunRefinesBank(states: seq<State>, events: seq<Event>, i: nat)
    requires Run(states, events) && i < |states|
    ensures var s := states[i]; var ops := History(s.refusals, |s.ledger|);
      && (forall op :: op in ops ==> IsOp(s, op))
      && ServeAll([], Entries(s, ops)) == (s.ledger, AnswersOf(ops))
  {
    RunMoney(states, events, i);
    var s := states[i];
    ServeHistory(s, |s.ledger|);
    assert s.ledger[..|s.ledger|] == s.ledger;
  }

  // ---------- the history is complete, free of repetitions and respects real time ----------

  /** Where an operation stands: refusals at mark m come just before row m. */
  function Place(rs: seq<Refusal>, op: Op): nat
    requires op.Refused? ==> op.refusal < |rs|
  {
    if op.Commit? then 2 * op.row + 1 else 2 * rs[op.refusal].mark
  }

  predicate Before(rs: seq<Refusal>, a: Op, b: Op)
    requires a.Refused? ==> a.refusal < |rs|
    requires b.Refused? ==> b.refusal < |rs|
  {
    Place(rs, a) < Place(rs, b) || (Place(rs, a) == Place(rs, b) && a.Refused? && b.Refused? && a.refusal < b.refusal)
  }

  ghost predicate Ordered(rs: seq<Refusal>, ops: seq<Op>) {
    && (forall op :: op in ops && op.Refused? ==> op.refusal < |rs|)
    && forall i, j :: 0 <= i < j < |ops| ==> Before(rs, ops[i], ops[j])
  }

  lemma {:induction false} RefusedAtOrdered(rs: seq<Refusal>, p: nat, n: nat)
    requires n <= |rs|
    ensures Ordered(rs, RefusedAt(rs, p, n))
  {
    if n > 0 {
      RefusedAtOrdered(rs, p, n - 1);
      if rs[n - 1].mark == p {
        OneMoreRefusal(rs, p, RefusedAt(rs, p, n - 1), n - 1);
      }
    }
  }

  lemma {:induction false} RefusedAtHolds(rs: seq<Refusal>, p: nat, n: nat, j: nat)
    requires j < n <= |rs| && rs[j].mark == p
    ensures Refused(j) in RefusedAt(rs, p, n)
  {
    if j < n - 1 {
      RefusedAtHolds(rs, p, n - 1, j);
    }
  }

  lemma OneMoreRefusal(rs: seq<Refusal>, p: nat, front: seq<Op>, n: nat)
    requires n < |rs| && rs[n].mark == p && Ordered(rs, front)
    requires forall op :: op in front ==> op.Refused? && op.refusal < n && rs[op.refusal].mark == p
    ensures Ordered(rs, front + [Refused(n)])
  {
    var ops := front + [Refused(n)];
    forall i, j | 0 <= i < j < |ops| ensures Before(rs, ops[i], ops[j]) {
      assert ops[i] in front;
    }
  }

  lemma OrderedAppend(rs: seq<Refusal>, xs: seq<Op>, ys: seq<Op>)
    requires Ordered(rs, xs) && Ordered(rs, ys)
    requires forall x, y :: x in xs && y in ys ==> Before(rs, x, y)
    ensures Ordered(rs, xs + ys)
  {
    var ops := xs + ys;
    forall i, j | 0 <= i < j < |ops| ensures Before(rs, ops[i], ops[j]) {
      if i < |xs| <= j {
        assert ops[i] in xs && ops[j] in ys;
      }
    }
  }

  /** One more row. */
  lemma OrderedCommit(rs: seq<Refusal>, front: seq<Op>, n: nat)
    requires Ordered(rs, front) && forall op :: op in front ==> UpTo(rs, n, op)
    ensures Ordered(rs, front + [Commit(n)])
  {
    forall x, y | x in front && y in [Commit(n)] ensures Before(rs, x, y) {
      assert UpTo(rs, n, x);
    }
    OrderedAppend(rs, front, [Commit(n)]);
  }

  /** The refusals that follow row n. */
  lemma OrderedRefusals(rs: seq<Refusal>, front: seq<Op>, n: nat)
    requires Ordered(rs, front + [Commit(n)]) && forall op :: op in front ==> UpTo(rs, n, op)
    ensures Ordered(rs, front + [Commit(n)] + RefusedAt(rs, n + 1, |rs|))
  {
    RefusedAtOrdered(rs, n + 1, |rs|);
    forall x, y | x in front + [Commit(n)] && y in RefusedAt(rs, n + 1, |rs|) ensures Before(rs, x, y) {
      assert x == Commit(n) || UpTo(rs, n, x);
    }
    OrderedAppend(rs, front + [Commit(n)], RefusedAt(rs, n + 1, |rs|));
  }

  lemma {:induction false} HistoryOrdered(rs: seq<Refusal>, n: nat)
    ensures Ordered(rs, History(rs, n))
  {
    if n == 0 {
      RefusedAtOrdered(rs, 0, |rs|);
    } else {
      var front := History(rs, n - 1);
      HistoryOrdered(rs, n - 1);
      OrderedCommit(rs, front, n - 1);
      OrderedRefusals(rs, front, n - 1);
      assert History(rs, n) == front + [Commit(n - 1)] + RefusedAt(rs, n, |rs|);
    }
  }

  lemma InThree(front: seq<Op>, x: Op, back: seq<Op>, op: Op)
    ensures op in front + [x] + back <==> op in front || op == x || op in back
  {
  }

  lemma {:induction false} HistoryHolds(rs: seq<Refusal>, n: nat, op: Op)
    requires UpTo(rs, n, op)
    ensures op in History(rs, n)
  {
    if op.Refused? && rs[op.refusal].mark == n {
      RefusedAtHolds(rs, n, |rs|, op.refusal);
    }
    if n > 0 {
      InThree(History(rs, n - 1), Commit(n - 1), RefusedAt(rs, n, |rs|), op);
      if UpTo(rs, n - 1, op) {
        HistoryHolds(rs, n - 1, op);
      }
    }
  }

  /** The history of a reachable state holds every row and every refusal exactly once. */
  lemma HistoryIsComplete(states: seq<State>, events: seq<Event>, i: nat, op: Op)
    requires Run(states, events) && i < |states| && IsOp(states[i], op)
    ensures var s := states[i]; var ops := History(s.refusals, |s.ledger|);
      exists m :: 0 <= m < |ops| && ops[m] == op && forall n :: 0 <= n < |ops| && n != m ==> ops[n] != op
  {
    RunMoney(states, events, i);
    var s := states[i];
    var ops := History(s.refusals, |s.ledger|);
    if op.Refused? {
      assert s.refusals[op.refusal] in s.refusals;
    }
    HistoryHolds(s.refusals, |s.ledger|, op);
    HistoryOrdered(s.refusals, |s.ledger|);
    var m :| 0 <= m < |ops| && ops[m] == op;
    forall n | 0 <= n < |ops| && n != m ensures ops[n] != op {
      assert Before(s.refusals, ops[if m < n then m else n], ops[if m < n then n else m]);
    }
  }

  /** Operation op belongs to a request that was announced after state s. */
  ghost predicate RequestedAfter(s: State, s': State, op: Op)
    requires IsOp(s', op)
  {
    match op
    case Commit(k) => k >= |s.ledger|
    case Refused(j) => s'.refusals[j].trid >= s.nextTrid
  }

  /** Operations in the order of their places stand in this order in the history. */
  lemma PlacesArePositions(rs: seq<Refusal>, n: nat, a: Op, b: Op)
    requires UpTo(rs, n, a) && UpTo(rs, n, b) && Before(rs, a, b)
    ensures Precedes(History(rs, n), a, b)
  {
    HistoryHolds(rs, n, a);
    HistoryHolds(rs, n, b);
    HistoryOrdered(rs, n);
    OrderedPrecedes(rs, History(rs, n), a, b);
  }

  lemma OrderedPrecedes(rs: seq<Refusal>, ops: seq<Op>, a: Op, b: Op)
    requires Ordered(rs, ops) && a in ops && b in ops && Before(rs, a, b)
    ensures Precedes(ops, a, b)
  {
    var k :| 0 <= k < |ops| && ops[k] == a;
    var l :| 0 <= l < |ops| && ops[l] == b;
    assert !Before(rs, ops[l], ops[k]);
  }

  ghost predicate Precedes(ops: seq<Op>, a: Op, b: Op) {
    exists k, l :: 0 <= k < l < |ops| && ops[k] == a && ops[l] == b
  }

  /** Linearizability: an operation that has taken effect in state i stands in the history before every
      operation whose request was made after state i, and before every row written after it. */
  lemma HistoryRespectsRealTime(states: seq<State>, events: seq<Event>, i: nat, j: nat, a: Op, b: Op)
    requires Run(states, events) && i <= j < |states|
    requires IsOp(states[i], a) && IsOp(states[j], b) && RequestedAfter(states[i], states[j], b)
    ensures Precedes(History(states[j].refusals, |states[j].ledger|), a, b)
  {
    EarlierIsBefore(states, events, i, j, a, b);
    PlacesArePositions(states[j].refusals, |states[j].ledger|, a, b);
  }

  lemma EarlierIsBefore(states: seq<State>, events: seq<Event>, i: nat, j: nat, a: Op, b: Op)
    requires Run(states, events) && i <= j < |states|
    requires IsOp(states[i], a) && IsOp(states[j], b) && RequestedAfter(states[i], states[j], b)
    ensures var s' := states[j]; var n := |s'.ledger|;
      UpTo(s'.refusals, n, a) && UpTo(s'.refusals, n, b) && Before(s'.refusals, a, b)
  {
    RunExtends(states, events, i, j);
    RunMoney(states, events, i);
    RunMoney(states, events, j);
    var s, s' := states[i], states[j];
    if a.Refused? {
      assert s.refusals[a.refusal] in s.refusals;
      assert RightlyRefused(s, s.refusals[a.refusal]);
    }
    if b.Refused? {
      assert s'.refusals[b.refusal] in s'.refusals;
      assert RightlyRefused(s', s'.refusals[b.refusal]);
      assert forall m :: 0 <= m < |s.refusals| ==> s.refusals[m] in s.refusals;
    }
  }

  // ---------- the answers are those of the history ----------

  /** The intents that were answered "nomoney", in the order of the answers. */
  function Refusees(rs: seq<Reply>): seq<nat> {
    if rs == [] then []
    else Refusees(rs[..|rs| - 1]) + if rs[|rs| - 1].answer == NoMoney then [rs[|rs| - 1].trid] else []
  }

  function Trids(rs: seq<Refusal>): seq<nat> {
    seq(|rs|, i requires 0 <= i < |rs| => rs[i].trid)
  }

  lemma RefuseesOfAppend(rs: seq<Reply>, r: Reply)
    ensures Refusees(rs + [r]) == Refusees(rs) + if r.answer == NoMoney then [r.trid] else []
  {
    assert (rs + [r])[..|rs|] == rs;
  }

  /** The chain that decides, acknowledges or fails, or the failed save, gives one answer; a refusal is recorded with it. */
  lemma StepLogged(s: State, e: Event)
    requires Identity(s) && Enabled(s, e) && Refusees(s.replies) == Trids(s.refusals)
    requires e.Decide? || e.Acknowledge? || e.Abort? || e.FailSave?
    ensures Refusees(Apply(s, e).replies) == Trids(Apply(s, e).refusals)
  {
    var s' := Apply(s, e);
    if e.Decide? {
      DecisionLogged(s, e.chain);
    } else {
      RefuseesOfAppend(s.replies, s'.replies[|s.replies|]);
    }
  }

  lemma DecisionLogged(s: State, c: nat)
    requires Identity(s) && Enabled(s, Decide(c)) && Refusees(s.replies) == Trids(s.refusals)
    ensures Refusees(Apply(s, Decide(c)).replies) == Trids(Apply(s, Decide(c)).refusals)
  {
    var s' := Apply(s, Decide(c));
    if s'.replies != s.replies {
      assert s' == Refuse(s, c);
      RefuseesOfAppend(s.replies, s'.replies[|s.replies|]);
      TridsOfAppend(s.refusals, s'.refusals[|s.refusals|]);
    }
  }

  lemma TridsOfAppend(rs: seq<Refusal>, r: Refusal)
    ensures Trids(rs + [r]) == Trids(rs) + [r.trid]
  {
  }

  lemma {:induction false} RunLogged(states: seq<State>, events: seq<Event>, i: nat)
    requires Run(states, events) && i < |states|
    ensures Refusees(states[i].replies) == Trids(states[i].refusals)
  {
    if i > 0 {
      RunLogged(states, events, i - 1);
      NextLogged(states, events, i - 1);
    }
  }

  lemma NextLogged(states: seq<State>, events: seq<Event>, i: nat)
    requires Run(states, events) && i < |events| && Refusees(states[i].replies) == Trids(states[i].refusals)
    ensures Refusees(states[i + 1].replies) == Trids(states[i + 1].refusals)
  {
    var s, e := states[i], events[i];
    RunInv(states, events, i);
    if e.Decide? || e.Acknowledge? || e.Abort? || e.FailSave? {
      StepLogged(s, e);
    } else {
      AnswersGrow(s, e);
    }
  }

  lemma {:induction false} RefuseeAppears(rs: seq<Reply>, r: Reply)
    requires r in rs && r.answer == NoMoney
    ensures r.trid in Refusees(rs)
  {
    if r != rs[|rs| - 1] {
      RefuseeAppears(rs[..|rs| - 1], r);
    }
  }

  /** Operation op of the history is the one of the intent that r answers, with this entry and its answer. */
  ghost predicate IsAnswer(s: State, r: Reply, entry: Entry, op: Op)
    requires |s.origins| == |s.ledger|
  {
    && IsOp(s, op) && op in History(s.refusals, |s.ledger|)
    && TridOf(s, op) == r.trid && EntryOf(s, op) == entry && AnswerOf(op) == r.answer
  }

  /** Every final answer that a client has got is the answer the bank gives to that very request, with the
      entry that was announced for it; event a is its announcement. */
  lemma AnswersComeFromHistory(states: seq<State>, events: seq<Event>, i: nat, r: Reply) returns (a: nat)
    requires Run(states, events) && i < |states|
    requires r in states[i].replies && r.answer != Failed
    ensures a < i && IsAnnouncement(states, events, a, r.trid)
    ensures |states[i].origins| == |states[i].ledger| && exists op :: IsAnswer(states[i], r, events[a].entry, op)
  {
    RunInv(states, events, i);
    if r.answer == Ok {
      a := OkIsCommit(states, events, i, r);
    } else {
      a := NoMoneyIsRefusal(states, events, i, r);
    }
  }

  lemma OkIsCommit(states: seq<State>, events: seq<Event>, i: nat, r: Reply) returns (a: nat)
    requires Run(states, events) && i < |states| && r in states[i].replies && r.answer == Ok
    requires |states[i].origins| == |states[i].ledger|
    ensures a < i && IsAnnouncement(states, events, a, r.trid)
    ensures exists k :: IsAnswer(states[i], r, events[a].entry, Commit(k))
  {
    var s := states[i];
    a := ExactlyOnce(states, events, i, i, r);
    var k: nat :| OnlyRow(s, r.trid, events[a].entry, k);
    HistoryHolds(s.refusals, |s.ledger|, Commit(k));
    assert IsAnswer(s, r, events[a].entry, Commit(k));
  }

  lemma NoMoneyIsRefusal(states: seq<State>, events: seq<Event>, i: nat, r: Reply) returns (a: nat)
    requires Run(states, events) && i < |states| && r in states[i].replies && r.answer == NoMoney
    requires |states[i].origins| == |states[i].ledger|
    ensures a < i && IsAnnouncement(states, events, a, r.trid)
    ensures exists j :: IsAnswer(states[i], r, events[a].entry, Refused(j))
  {
    var s := states[i];
    RunMoney(states, events, i);
    RunLogged(states, events, i);
    RefuseeAppears(s.replies, r);
    var j :| 0 <= j < |s.refusals| && s.refusals[j].trid == r.trid;
    assert RightlyRefused(s, s.refusals[j]);
    a := ExactlyOnce(states, events, i, i, r);
    RunTells(states, events, a, i);
    HistoryHolds(s.refusals, |s.ledger|, Refused(j));
    assert IsAnswer(s, r, events[a].entry, Refused(j));
  }
}
