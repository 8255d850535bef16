/** What the polling table holds and answers, told by the events of a run alone
    (server/api/actions/polling.js:51-67 and 84-122). */
module PollTraces {
  import opened JsArrays
  import opened Polling

  // ---------- the events' own story ----------

  /** The polls that were registered, in their order. */
  function PollsOf(events: seq<Event>): seq<Poll> {
    if events == [] then []
    else
      var last := events[|events| - 1];
      PollsOf(events[..|events| - 1]) + if last.Register? then [last.p] else []
  }

  /** The transactions that were stored, in their order. */
  function RowsOf(events: seq<Event>): seq<Row> {
    if events == [] then []
    else
      var last := events[|events| - 1];
      RowsOf(events[..|events| - 1]) + if last.Store? then [last.row] else []
  }

  /** The number of queries that were asked. */
  function AsksOf(events: seq<Event>): nat {
    if events == [] then 0
    else AsksOf(events[..|events| - 1]) + if events[|events| - 1].Ask? then 1 else 0
  }

  predicate IsReplyTo(e: Event, k: nat) { e.Reply? && e.query == k }

  predicate IsResultOf(e: Event, k: nat) { e.Execute? && e.query == k }

  // ---------- single steps ----------

  ghost predicate Told(s: State, stored: seq<Row>, events: seq<Event>) {
    && s.registered == PollsOf(events)
    && s.stored == stored + RowsOf(events)
    && |s.queries| == AsksOf(events)
    && (forall i: nat :: i in s.timers <==> i < |s.registered| && Expire(i) !in events)
    && (forall i: nat :: Expire(i) in events ==> i < |s.registered|)
  }

  lemma StepIsTold(s: State, stored: seq<Row>, events: seq<Event>, e: Event)
    requires Inv(s) && Enabled(s, e) && Told(s, stored, events)
    ensures Told(Apply(s, e), stored, events + [e])
  {
    assert (events + [e])[..|events|] == events;
  }

  /** What one event does to a query. */
  ghost predicate Moves(q: Query, q': Query, k: nat, e: Event, stored: nat) {
    && q'.conditions == q.conditions && q'.captured == q.captured && q'.limit == q.limit
    && q'.outcome == (if IsResultOf(e, k) then Found(e.rows, stored) else if e == Fail(k) then Failed else q.outcome)
    && q'.replied == (q.replied || IsReplyTo(e, k))
  }

  lemma StepMoves(s: State, e: Event, k: nat)
    requires Enabled(s, e) && k < |s.queries|
    ensures |Apply(s, e).queries| >= |s.queries| && Moves(s.queries[k], Apply(s, e).queries[k], k, e, |s.stored|)
  {
  }

  /** Query k was asked by event j, with its limit, for all polls that were waiting at that moment. */
  ghost predicate WasAsked(states: seq<State>, events: seq<Event>, j: nat, k: nat, q: Query)
    requires |states| == |events| + 1
  {
    && j < |events| && events[j] == Ask(q.captured, q.limit) && |states[j].queries| == k
    && forall i :: i in states[j].board.polls.elems ==> Catches(q, states[j], i)
  }

  /** The query remembers the poll at index i and asks for what is news to it. */
  ghost predicate Catches(q: Query, s: State, i: nat) {
    i < |s.registered| && s.registered[i].qrid in q.captured && i in q.captured[s.registered[i].qrid]
    && ConditionOf(s.registered[i]) in q.conditions
  }

  lemma AskCatches(s: State, captured: map<string, seq<nat>>, limit: int, i: nat)
    requires Valid(s.board, s.registered, s.timers) && Enabled(s, Ask(captured, limit)) && i in s.board.polls.elems
    ensures Catches(Apply(s, Ask(captured, limit)).queries[|s.queries|], s, i)
  {
    var at := s.board.polls.Live(s.board.polls.length);
    assert i in at;
    CapturedIndex(s.registered, s.board.polls.elems, at, i);
  }

  /** Only a timer gives an empty answer. */
  lemma StepTimesOut(s: State, e: Event, x: Sent)
    requires Inv(s) && Enabled(s, e) && x in Apply(s, e).board.sent && x.answer.Timeout?
    ensures x in s.board.sent || e == Expire(x.index)
  {
    if e.Reply? {
      var q, s' := s.queries[e.query], Apply(s, e);
      AnsweredGroupsGives(s.board, q.captured, q.outcome.rows, e.order);
      var n :| 0 <= n < |s'.board.sent| && s'.board.sent[n] == x;
      if n < |s.board.sent| {
        assert s.board.sent[n] == x;
      }
    }
  }

  // ---------- whole runs ----------

  lemma NextStep(states: seq<State>, events: seq<Event>, n: nat)
    requires Run(states, events) && n < |events|
    ensures Inv(states[n]) && Enabled(states[n], events[n]) && states[n + 1] == Apply(states[n], events[n])
    ensures events[..n + 1] == events[..n] + [events[n]]
  {
    RunInv(states, events, n);
  }

  /** The registered polls, the stored transactions and the number of queries are what the events say, and a timer
      runs from the registration of its poll until it fires. */
  lemma {:induction false} TableIsTold(states: seq<State>, events: seq<Event>, n: nat)
    requires Run(states, events) && n < |states|
    ensures Told(states[n], states[0].stored, events[..n])
  {
    if n > 0 {
      TableIsTold(states, events, n - 1);
      NextStep(states, events, n - 1);
      StepIsTold(states[n - 1], states[0].stored, events[..n - 1], events[n - 1]);
    } else {
      assert events[..0] == [] && states[0].timers == {};
    }
  }

  /** Every query was asked by an event, with that event's limit, and it remembers every poll that was waiting then. */
  lemma {:induction false} QueryWasAsked(states: seq<State>, events: seq<Event>, n: nat, k: nat) returns (j: nat)
    requires Run(states, events) && n < |states| && k < |states[n].queries|
    ensures j < n && WasAsked(states, events, j, k, states[n].queries[k])
  {
    NextStep(states, events, n - 1);
    var s, e := states[n - 1], events[n - 1];
    if k < |s.queries| {
      j := QueryWasAsked(states, events, n - 1, k);
      StepMoves(s, e, k);
      AskedAlike(states, events, j, k, s.queries[k], states[n].queries[k]);
    } else {
      j := n - 1;
      forall i | i in s.board.polls.elems ensures Catches(states[n].queries[k], s, i) {
        AskCatches(s, e.captured, e.limit, i);
      }
    }
  }

  lemma AskedAlike(states: seq<State>, events: seq<Event>, j: nat, k: nat, q: Query, q': Query)
    requires |states| == |events| + 1 && WasAsked(states, events, j, k, q)
    requires q'.conditions == q.conditions && q'.captured == q.captured && q'.limit == q.limit
    ensures WasAsked(states, events, j, k, q')
  {
    forall i | i in states[j].board.polls.elems ensures Catches(q', states[j], i) {
      assert Catches(q, states[j], i);
    }
  }

  /** What a query found is what the database gave it, from the transactions stored at that moment. */
  lemma {:induction false} ResultWasGiven(states: seq<State>, events: seq<Event>, n: nat, k: nat) returns (j: nat)
    requires Run(states, events) && n < |states| && k < |states[n].queries| && states[n].queries[k].outcome.Found?
    ensures j < n && events[j] == Execute(k, states[n].queries[k].outcome.rows)
    ensures states[n].queries[k].outcome.at == |states[j].stored|
  {
    NextStep(states, events, n - 1);
    var s, e := states[n - 1], events[n - 1];
    if k < |s.queries| {
      StepMoves(s, e, k);
    }
    if IsResultOf(e, k) {
      j := n - 1;
    } else {
      j := ResultWasGiven(states, events, n - 1, k);
    }
  }

  /** A query has been replied to exactly if its reply is among the events. */
  lemma {:induction false} RepliedIff(states: seq<State>, events: seq<Event>, n: nat, k: nat)
    requires Run(states, events) && n < |states| && k < |states[n].queries|
    ensures states[n].queries[k].replied <==> exists j :: 0 <= j < n && IsReplyTo(events[j], k)
  {
    NextStep(states, events, n - 1);
    var s, e := states[n - 1], events[n - 1];
    if k < |s.queries| {
      RepliedIff(states, events, n - 1, k);
      StepMoves(s, e, k);
      assert IsReplyTo(e, k) ==> IsReplyTo(events[n - 1], k);
    } else {
      forall j | 0 <= j < n ensures !IsReplyTo(events[j], k) {
        QueriesGrow(states, events, j, n - 1);
      }
    }
  }

  lemma {:induction false} QueriesGrow(states: seq<State>, events: seq<Event>, j: nat, n: nat)
    requires Run(states, events) && j <= n < |states|
    ensures |states[j].queries| <= |states[n].queries|
    ensures j < |events| && events[j].Reply? ==> events[j].query < |states[n].queries|
  {
    if j < n {
      QueriesGrow(states, events, j, n - 1);
      NextStep(states, events, n - 1);
    } else if j < |events| {
      NextStep(states, events, j);
    }
  }

  /** An empty answer is the work of the poll's own timer. */
  lemma {:induction false} TimeoutWasTimed(states: seq<State>, events: seq<Event>, n: nat, x: Sent)
    requires Run(states, events) && n < |states| && x in states[n].board.sent && x.answer.Timeout?
    ensures Expire(x.index) in events[..n]
  {
    NextStep(states, events, n - 1);
    StepTimesOut(states[n - 1], events[n - 1], x);
    if x in states[n - 1].board.sent {
      TimeoutWasTimed(states, events, n - 1, x);
    }
  }

  lemma {:induction false} CountedIsSent(sent: seq<Sent>, i: nat) returns (x: Sent)
    requires Count(sent, i) > 0
    ensures x in sent && x.index == i
  {
    x := sent[|sent| - 1];
    if x.index != i {
      x := CountedIsSent(sent[..|sent| - 1], i);
    }
  }

  /** A poll for which a query found something is answered with news, unless its timer has fired. */
  lemma FoundIsTold(states: seq<State>, events: seq<Event>, n: nat, k: nat, i: nat, r: Row) returns (x: Sent)
    requires Run(states, events) && n < |states| && k < |states[n].queries|
    requires var q := states[n].queries[k];
      q.replied && q.outcome.Found? && r in q.outcome.rows && r.qrid in q.captured && i in q.captured[r.qrid]
    requires Expire(i) !in events[..n]
    ensures x in states[n].board.sent && x.index == i && x.answer.News?
  {
    FoundReachesEveryPoll(states, events, n, k, i, r);
    x := CountedIsSent(states[n].board.sent, i);
    if x.answer.Timeout? {
      TimeoutWasTimed(states, events, n, x);
    }
  }
}
