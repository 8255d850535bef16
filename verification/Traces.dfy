/** What the answers and the balances of a run are made of, told by its events alone
    (server/api/actions/transactions.js:229-269 and server/api/db/transactions.js:138-200). */
module Traces {
  import opened Ledger
  import opened Settlement
  import opened SettlementInvariant
  import opened SettlementTheorems

  // ---------- where the answers come from ----------

  /** The answers that event e gives when it happens in s. */
  ghost function AnswersOfEvent(s: State, e: Event): seq<Reply>
    requires Enabled(s, e)
  {
    match e
    case Acknowledge(c) => [Reply(s.chains[c].trid, Ok)]
    case Decide(c) =>
      var p := s.chains[c].phase;
      if Computed(p.seen) < p.pe.entry.sent then [Reply(s.chains[c].trid, NoMoney)] else []
    case Abort(c) => [Reply(s.chains[c].trid, Failed)]
    case FailSave(t) => [Reply(t, Failed)]
    case _ => []
  }

  /** The answers of the first n events, in their order. */
  ghost function AnswersOfEvents(states: seq<State>, events: seq<Event>, n: nat): seq<Reply>
    requires Steps(states, events) && n <= |events|
  {
    if n == 0 then []
    else AnswersOfEvents(states, events, n - 1) + AnswersOfEvent(states[n - 1], events[n - 1])
  }

  lemma DecisionAnswers(s: State, c: nat)
    requires Enabled(s, Decide(c))
    ensures Apply(s, Decide(c)).replies == s.replies + AnswersOfEvent(s, Decide(c))
  {
    var p := s.chains[c].phase;
    assert Apply(s, Decide(c))
        == if Computed(p.seen) - p.pe.entry.sent < 0.0 then Refuse(s, c) else Advance(s, c, Writing(p.pe));
  }

  lemma StepAnswers(s: State, e: Event)
    requires Enabled(s, e) && Disciplined(s, e)
    ensures Apply(s, e).replies == s.replies + AnswersOfEvent(s, e)
  {
    if e.Decide? {
      DecisionAnswers(s, e.chain);
    } else if !e.Acknowledge? && !e.Abort? && !e.FailSave? {
      AnswersGrow(s, e);
    }
  }

  lemma NextAnswers(states: seq<State>, events: seq<Event>, i: nat)
    requires Run(states, events) && i < |events|
    ensures states[i + 1].replies == states[i].replies + AnswersOfEvent(states[i], events[i])
  {
    StepAnswers(states[i], events[i]);
  }

  /** The clients' answers are exactly these: one "ok" per acknowledged write, one "nomoney" per balance that
      was too small, and one error per failed save or call, each for its own payment and in the order of the
      events. */
  lemma {:induction false} AnswersComeFromEvents(states: seq<State>, events: seq<Event>, i: nat)
    requires Run(states, events) && i < |states|
    ensures states[i].replies == AnswersOfEvents(states, events, i)
  {
    if i > 0 {
      AnswersComeFromEvents(states, events, i - 1);
      NextAnswers(states, events, i - 1);
    }
  }

  // ---------- where the balances come from ----------

  /** Event j evaluated aggregation g for chain c, with this value. */
  ghost predicate IsRead(states: seq<State>, events: seq<Event>, j: nat, c: nat, g: Aggregate, a: nat, value: real)
    requires |states| == |events| + 1
  {
    j < |events| && events[j] == Read(c, g) && value == Total(states[j].ledger, g, a)
  }

  /** What chain c has seen of aggregation g. */
  ghost predicate HasSeen(s: State, c: nat, g: Aggregate, pe: Pending, value: real) {
    && c in s.chains && s.chains[c].phase.Reading? && s.chains[c].phase.pe == pe
    && g in s.chains[c].phase.seen && s.chains[c].phase.seen[g] == value
  }

  lemma ReadSees(s: State, d: nat, h: Aggregate, c: nat, g: Aggregate, pe: Pending, value: real)
    requires Enabled(s, Read(d, h)) && HasSeen(Apply(s, Read(d, h)), c, g, pe, value)
    ensures if c == d && g == h then value == Total(s.ledger, g, SenderOf(pe.entry)) else HasSeen(s, c, g, pe, value)
  {
  }

  lemma LookupSees(s: State, e: Event, c: nat, g: Aggregate, pe: Pending, value: real)
    requires Enabled(s, e) && (e.Evaluate? || e.Callback? || e.Ask?) && HasSeen(Apply(s, e), c, g, pe, value)
    ensures HasSeen(s, c, g, pe, value)
  {
  }

  lemma DecisionSees(s: State, d: nat, c: nat, g: Aggregate, pe: Pending, value: real)
    requires Enabled(s, Decide(d)) && HasSeen(Apply(s, Decide(d)), c, g, pe, value)
    ensures HasSeen(s, c, g, pe, value)
  {
    var p := s.chains[d].phase;
    assert Apply(s, Decide(d))
        == if Computed(p.seen) - p.pe.entry.sent < 0.0 then Refuse(s, d) else Advance(s, d, Writing(p.pe));
  }

  lemma OtherSees(s: State, e: Event, c: nat, g: Aggregate, pe: Pending, value: real)
    requires Enabled(s, e) && !e.Read? && !e.Evaluate? && !e.Callback? && !e.Ask? && !e.Decide?
    requires HasSeen(Apply(s, e), c, g, pe, value)
    ensures HasSeen(s, c, g, pe, value)
  {
  }

  lemma StepSees(s: State, e: Event, c: nat, g: Aggregate, pe: Pending, value: real)
    requires Enabled(s, e) && HasSeen(Apply(s, e), c, g, pe, value)
    ensures if e == Read(c, g) then value == Total(s.ledger, g, SenderOf(pe.entry)) else HasSeen(s, c, g, pe, value)
  {
    if e.Read? {
      ReadSees(s, e.chain, e.aggregate, c, g, pe, value);
    } else if e.Evaluate? || e.Callback? || e.Ask? {
      LookupSees(s, e, c, g, pe, value);
    } else if e.Decide? {
      DecisionSees(s, e.chain, c, g, pe, value);
    } else {
      OtherSees(s, e, c, g, pe, value);
    }
  }

  lemma NextSees(states: seq<State>, events: seq<Event>, i: nat, c: nat, g: Aggregate, pe: Pending, value: real)
    requires Run(states, events) && i < |events| && HasSeen(states[i + 1], c, g, pe, value)
    ensures IsRead(states, events, i, c, g, SenderOf(pe.entry), value) || HasSeen(states[i], c, g, pe, value)
  {
    StepSees(states[i], events[i], c, g, pe, value);
  }

  /** Each of the three values that a balance is made of is what its aggregation gave on the ledger at the
      moment when the database evaluated it, whenever that was. */
  lemma {:induction false} WasRead(
    states: seq<State>, events: seq<Event>, i: nat, c: nat, g: Aggregate, pe: Pending, value: real) returns (j: nat)
    requires Run(states, events) && i < |states| && HasSeen(states[i], c, g, pe, value)
    ensures j < i && IsRead(states, events, j, c, g, SenderOf(pe.entry), value)
  {
    NextSees(states, events, i - 1, c, g, pe, value);
    if IsRead(states, events, i - 1, c, g, SenderOf(pe.entry), value) {
      j := i - 1;
    } else {
      j := WasRead(states, events, i - 1, c, g, pe, value);
    }
  }

  // ---------- how long intents and removals stand ----------

  /** Event e answers intent t finally. */
  ghost predicate Finishes(s: State, e: Event, t: nat)
    requires Enabled(s, e)
  {
    exists r :: r in AnswersOfEvent(s, e) && r.trid == t && r.answer != Failed
  }

  /** What one event does to an intent and to the request for its removal. */
  ghost predicate IsMarked(s: State, e: Event, s': State, t: nat)
    requires Enabled(s, e)
  {
    && (t in s'.intents <==>
          (t in s.intents && e != Remove(t) && e != Expire(t)) || (e.Announce? && t == s.nextTrid))
    && (t in s'.removals <==>
          (t in s.removals && e != Remove(t) && e != LoseRemoval(t)) || Finishes(s, e, t))
  }

  lemma AcknowledgementMarks(s: State, c: nat, t: nat)
    requires Enabled(s, Acknowledge(c))
    ensures IsMarked(s, Acknowledge(c), Apply(s, Acknowledge(c)), t)
  {
    assert Reply(s.chains[c].trid, Ok) in AnswersOfEvent(s, Acknowledge(c));
  }

  lemma DecisionMarks(s: State, c: nat, t: nat)
    requires Enabled(s, Decide(c))
    ensures IsMarked(s, Decide(c), Apply(s, Decide(c)), t)
  {
    var p := s.chains[c].phase;
    var r := Reply(s.chains[c].trid, NoMoney);
    assert AnswersOfEvent(s, Decide(c)) == if Computed(p.seen) < p.pe.entry.sent then [r] else [];
    assert r in [r];
    assert Apply(s, Decide(c))
        == if Computed(p.seen) - p.pe.entry.sent < 0.0 then Refuse(s, c) else Advance(s, c, Writing(p.pe));
  }

  lemma LookupMarks(s: State, e: Event, t: nat)
    requires Enabled(s, e) && (e.Evaluate? || e.Callback?)
    ensures IsMarked(s, e, Apply(s, e), t)
  {
  }

  lemma OtherMarks(s: State, e: Event, t: nat)
    requires Enabled(s, e) && !(e.Decide? || e.Acknowledge? || e.Evaluate? || e.Callback?)
    ensures IsMarked(s, e, Apply(s, e), t)
  {
  }

  lemma StepMarks(s: State, e: Event, t: nat)
    requires Enabled(s, e)
    ensures IsMarked(s, e, Apply(s, e), t)
  {
    if e.Decide? {
      DecisionMarks(s, e.chain, t);
    } else if e.Acknowledge? {
      AcknowledgementMarks(s, e.chain, t);
    } else if e.Evaluate? || e.Callback? {
      LookupMarks(s, e, t);
    } else {
      OtherMarks(s, e, t);
    }
  }

  /** Intent t has got its final answer. */
  ghost predicate Answered(s: State, t: nat) {
    exists r :: r in s.replies && r.trid == t && r.answer != Failed
  }

  lemma NextMarks(states: seq<State>, events: seq<Event>, i: nat, t: nat)
    requires Run(states, events) && i < |events|
    ensures Enabled(states[i], events[i]) && IsMarked(states[i], events[i], states[i + 1], t)
    ensures states[i + 1].nextTrid == if events[i].Announce? then states[i].nextTrid + 1 else states[i].nextTrid
    ensures events[..i + 1] == events[..i] + [events[i]]
  {
    StepMarks(states[i], events[i], t);
    RunNextTrid(states, events, i);
  }

  lemma RemovedWasKnown(states: seq<State>, events: seq<Event>, i: nat, t: nat)
    requires Run(states, events) && i < |events| && (events[i] == Remove(t) || events[i] == Expire(t))
    ensures t < states[i].nextTrid
  {
    RunInv(states, events, i);
  }

  /** An intent stands from its announcement until it is removed or expires, and no longer. */
  lemma {:induction false} IntentStandsIff(states: seq<State>, events: seq<Event>, i: nat, t: nat)
    requires Run(states, events) && i < |states|
    ensures t in states[i].intents
        <==> t < states[i].nextTrid && Remove(t) !in events[..i] && Expire(t) !in events[..i]
    ensures Remove(t) in events[..i] || Expire(t) in events[..i] ==> t < states[i].nextTrid
  {
    if i > 0 {
      IntentStandsIff(states, events, i - 1, t);
      NextMarks(states, events, i - 1, t);
      if events[i - 1] == Remove(t) || events[i - 1] == Expire(t) {
        RemovedWasKnown(states, events, i - 1, t);
      }
    }
  }

  lemma FinishesOnce(states: seq<State>, events: seq<Event>, i: nat, t: nat)
    requires Run(states, events) && i < |events|
    ensures Enabled(states[i], events[i])
    ensures Answered(states[i + 1], t) <==> Answered(states[i], t) || Finishes(states[i], events[i], t)
    ensures !(Answered(states[i], t) && Finishes(states[i], events[i], t))
  {
    NextAnswers(states, events, i);
    RunInv(states, events, i + 1);
    var old', more := states[i].replies, AnswersOfEvent(states[i], events[i]);
    forall r ensures r in old' + more <==> r in old' || r in more {
    }
    if Answered(states[i], t) && Finishes(states[i], events[i], t) {
      var r :| r in old' && r.trid == t && r.answer != Failed;
      var q :| q in more && q.trid == t && q.answer != Failed;
      AnsweredTwice(states[i + 1], old', more, r, q);
    }
  }

  lemma AnsweredTwice(s: State, xs: seq<Reply>, ys: seq<Reply>, r: Reply, q: Reply)
    requires Answers(s) && s.replies == xs + ys && r in xs && q in ys
    ensures r.answer != Failed && q.answer != Failed ==> r.trid != q.trid
  {
    var m :| 0 <= m < |xs| && xs[m] == r;
    var n :| 0 <= n < |ys| && ys[n] == q;
    assert s.replies[m] == r && s.replies[|xs| + n] == q;
  }

  /** The removal of an intent is under way from its final answer until it happens or fails, and no longer. */
  lemma {:induction false} RemovalStandsIff(states: seq<State>, events: seq<Event>, i: nat, t: nat)
    requires Run(states, events) && i < |states|
    ensures t in states[i].removals
        <==> Answered(states[i], t) && Remove(t) !in events[..i] && LoseRemoval(t) !in events[..i]
    ensures Remove(t) in events[..i] || LoseRemoval(t) in events[..i] ==> Answered(states[i], t)
  {
    if i > 0 {
      RemovalStandsIff(states, events, i - 1, t);
      NextMarks(states, events, i - 1, t);
      FinishesOnce(states, events, i - 1, t);
    }
  }
}
