/** Long polling for new transactions (server/api/actions/polling.js:18-124): a table with holes, a timer
    per poll, and database queries whose replies may come late, overlap or never come. */
module Polling {
  import opened JsArrays

  /** A waiting request; client stands for its answer function. */
  datatype Poll = Poll(client: nat, date: int, qrid: string)

  datatype Row = Row(id: nat, time: int, qrid: string)

  datatype Answer = Timeout | News(rows: seq<Row>)

  /** A call of the answer function of the poll at index. */
  datatype Sent = Sent(index: nat, client: nat, answer: Answer)

  /** What the callbacks of one worker share. */
  datatype Board = Board(polls: JsArray<Poll>, sent: seq<Sent>)

  /** One alternative of the $or query. */
  datatype Condition = Condition(after: int, qrid: string)

  function ConditionOf(p: Poll): Condition { Condition(p.date, p.qrid) }

  function Give(b: Board, i: nat, client: nat, answer: Answer): Board {
    Board(b.polls.Delete(i), b.sent + [Sent(i, client, answer)])
  }

  // ---------- what the callbacks compute ----------

  function TimedOut(b: Board, i: nat, client: nat): Board {
    if i in b.polls.elems then Give(b, i, client, Timeout) else b
  }

  /** handleDbPollAnswer */
  function Answered(b: Board, group: seq<Row>, i: nat): Board {
    if i in b.polls.elems then Give(b, i, b.polls.elems[i].client, News(group)) else b
  }

  function AnsweredAll(b: Board, group: seq<Row>, at: seq<nat>): Board {
    if at == [] then b else Answered(AnsweredAll(b, group, at[..|at| - 1]), group, at[|at| - 1])
  }

  /** The groups are answered in the order in which the engine enumerates the keys. */
  function AnsweredGroups(b: Board, captured: map<string, seq<nat>>, rows: seq<Row>, order: seq<string>): Board
    requires forall q :: q in order ==> q in captured
  {
    if order == [] then b
    else
      var q := order[|order| - 1];
      AnsweredAll(AnsweredGroups(b, captured, rows, order[..|order| - 1]), Group(rows, q), captured[q])
  }

  /** The rows for one QR-ID, in the order of the reply. */
  function Group(rows: seq<Row>, q: string): seq<Row> {
    if rows == [] then []
    else Group(rows[..|rows| - 1], q) + if rows[|rows| - 1].qrid == q then [rows[|rows| - 1]] else []
  }

  function Qrids(rows: seq<Row>): set<string> { set r | r in rows :: r.qrid }

  ghost predicate IsOrder(order: seq<string>, keys: set<string>) {
    && (forall q :: q in order <==> q in keys)
    && (forall k, l :: 0 <= k < l < |order| ==> order[k] != order[l])
  }

  function Conditions(polls: map<nat, Poll>, at: seq<nat>): seq<Condition>
    requires forall i :: i in at ==> i in polls
  {
    seq(|at|, k requires 0 <= k < |at| => ConditionOf(polls[at[k]]))
  }

  /** The indices that are remembered for one QR-ID. */
  function IndicesFor(polls: map<nat, Poll>, at: seq<nat>, q: string): seq<nat>
    requires forall i :: i in at ==> i in polls
    ensures forall i :: i in IndicesFor(polls, at, q) <==> i in at && polls[i].qrid == q
  {
    if at == [] then []
    else
      var i := at[|at| - 1];
      assert at == at[..|at| - 1] + [i];
      IndicesFor(polls, at[..|at| - 1], q) + if polls[i].qrid == q then [i] else []
  }

  /** One more index for a QR-ID. */
  function Remembered(captured: map<string, seq<nat>>, q: string, i: nat): map<string, seq<nat>> {
    captured[q := (if q in captured then captured[q] else []) + [i]]
  }

  /** qrid_to_indices */
  ghost predicate IsCapture(captured: map<string, seq<nat>>, polls: map<nat, Poll>, at: seq<nat>)
    requires forall i :: i in at ==> i in polls
  {
    && (forall q :: q in captured <==> exists i :: i in at && polls[i].qrid == q)
    && (forall q :: q in captured ==> captured[q] == IndicesFor(polls, at, q))
  }

  // ---------- the callbacks ----------

  class PollTable {
    var polls: JsArray<Poll>
    var sent: seq<Sent>

    constructor ()
      ensures polls == Empty() && sent == []
    {
      polls, sent := Empty(), [];
    }

    function Now(): Board
      reads this
    {
      Board(polls, sent)
    }

    /** transactions_poll, for an authorised request with a valid date. */
    method Register(p: Poll) returns (idx: nat)
      modifies this`polls
      ensures idx == old(polls.length) && polls == old(polls).Push(p)
    {
      polls := polls.Push(p);
      idx := polls.length - 1;
    }

    /** The timer of a poll; idx and its answer function are captured. */
    method OnTimeout(idx: nat, client: nat)
      modifies this
      ensures Now() == TimedOut(old(Now()), idx, client)
    {
      if idx !in polls.elems {
        return;
      }
      sent := sent + [Sent(idx, client, Timeout)];
      polls := polls.Delete(idx);
    }

    /** The remembering of one index inside the forEach. */
    static method Capture(captured: map<string, seq<nat>>, q: string, idx: nat) returns (after: map<string, seq<nat>>)
      ensures after == Remembered(captured, q, idx)
    {
      after := captured;
      if q !in after {
        after := after[q := []];
      }
      after := after[q := after[q] + [idx]];
    }

    /** The interval function up to the database call; the result has no conditions if there is nothing to ask. */
    method Tick() returns (conditions: seq<Condition>, captured: map<string, seq<nat>>)
      ensures conditions == Conditions(polls.elems, polls.Live(polls.length))
      ensures IsCapture(captured, polls.elems, polls.Live(polls.length))
    {
      conditions, captured := [], map[];
      if polls.length == 0 {
        return;
      }
      NothingVisited(polls);
      var idx := 0;
      while idx < polls.length
        invariant idx <= polls.length && Visited(polls, idx, conditions, captured)
      {
        if idx in polls.elems {
          var p := polls.elems[idx];
          VisitPoll(polls, idx, conditions, captured);
          conditions := conditions + [Condition(p.date, p.qrid)];
          captured := Capture(captured, p.qrid, idx);
        } else {
          VisitHole(polls, idx, conditions, captured);
        }
        idx := idx + 1;
      }
    }

    /** handleDbPollAnswer */
    method HandleDbPollAnswer(group: seq<Row>, idx: nat)
      modifies this
      ensures Now() == Answered(old(Now()), group, idx)
    {
      if idx !in polls.elems {
        return;
      }
      sent := sent + [Sent(idx, polls.elems[idx].client, News(group))];
      polls := polls.Delete(idx);
    }

    /** The callback of a successful query; captured is the closure's qrid_to_indices. */
    method OnReply(captured: map<string, seq<nat>>, rows: seq<Row>) returns (ghost order: seq<string>)
      requires Qrids(rows) <= captured.Keys
      modifies this
      ensures IsOrder(order, Qrids(rows))
      ensures Now() == AnsweredGroups(old(Now()), captured, rows, order)
    {
      var groups := GroupRows(rows);
      order := [];
      var rest := groups.Keys;
      while rest != {}
        invariant rest <= groups.Keys && IsOrder(order, groups.Keys - rest)
        invariant Now() == AnsweredGroups(old(Now()), captured, rows, order)
        decreases |rest|
      {
        var q :| q in rest;
        ghost var before := Now();
        var at := captured[q];
        for k := 0 to |at|
          invariant Now() == AnsweredAll(before, groups[q], at[..k])
        {
          HandleDbPollAnswer(groups[q], at[k]);
          assert at[..k + 1][..k] == at[..k];
        }
        assert at[..|at|] == at;
        assert (order + [q])[..|order|] == order;
        rest, order := rest - {q}, order + [q];
      }
    }
  }

  /** The grouping loop. */
  method GroupRows(rows: seq<Row>) returns (groups: map<string, seq<Row>>)
    ensures groups.Keys == Qrids(rows)
    ensures forall q :: q in groups ==> groups[q] == Group(rows, q)
  {
    groups := map[];
    for i := 0 to |rows|
      invariant groups.Keys == Qrids(rows[..i])
      invariant forall q :: q !in groups ==> Group(rows[..i], q) == []
      invariant forall q :: q in groups ==> groups[q] == Group(rows[..i], q)
    {
      var q := rows[i].qrid;
      if q !in groups {
        groups := groups[q := []];
      }
      groups := groups[q := groups[q] + [rows[i]]];
      GroupNext(rows, i);
    }
    assert rows[..|rows|] == rows;
  }

  lemma GroupNext(rows: seq<Row>, i: nat)
    requires i < |rows|
    ensures Qrids(rows[..i + 1]) == Qrids(rows[..i]) + {rows[i].qrid}
    ensures forall q :: Group(rows[..i + 1], q) == Group(rows[..i], q) + if rows[i].qrid == q then [rows[i]] else []
  {
    assert rows[..i + 1][..i] == rows[..i];
    assert rows[..i + 1] == rows[..i] + [rows[i]];
  }

  lemma IndicesOfAppend(polls: map<nat, Poll>, at: seq<nat>, i: nat, q: string)
    requires i in polls && (forall j :: j in at ==> j in polls)
    ensures IndicesFor(polls, at + [i], q) == IndicesFor(polls, at, q) + if polls[i].qrid == q then [i] else []
  {
    assert (at + [i])[..|at|] == at;
  }

  lemma {:induction false} NoIndices(polls: map<nat, Poll>, at: seq<nat>, q: string)
    requires forall j :: j in at ==> j in polls && polls[j].qrid != q
    ensures IndicesFor(polls, at, q) == []
  {
    if at != [] {
      assert at[|at| - 1] in at;
      NoIndices(polls, at[..|at| - 1], q);
    }
  }

  lemma CaptureNext(before: map<string, seq<nat>>, after: map<string, seq<nat>>, polls: map<nat, Poll>, at: seq<nat>, i: nat)
    requires i in polls && (forall j :: j in at ==> j in polls)
    requires IsCapture(before, polls, at)
    requires after == Remembered(before, polls[i].qrid, i)
    ensures IsCapture(after, polls, at + [i])
  {
    forall q ensures q in after <==> exists j :: j in at + [i] && polls[j].qrid == q {
      assert i in at + [i];
      if q in before {
        var j :| j in at && polls[j].qrid == q;
        assert j in at + [i];
      }
    }
    forall q | q in after ensures after[q] == IndicesFor(polls, at + [i], q) {
      IndicesOfAppend(polls, at, i, q);
      if q !in before {
        NoIndices(polls, at, q);
      }
    }
  }

  lemma ConditionsNext(polls: map<nat, Poll>, at: seq<nat>, i: nat)
    requires i in polls && (forall j :: j in at ==> j in polls)
    ensures Conditions(polls, at + [i]) == Conditions(polls, at) + [ConditionOf(polls[i])]
  {
  }

  /** What a tick has built when it has visited the first n slots. */
  ghost predicate Visited(polls: JsArray<Poll>, n: nat, conditions: seq<Condition>, captured: map<string, seq<nat>>) {
    conditions == Conditions(polls.elems, polls.Live(n)) && IsCapture(captured, polls.elems, polls.Live(n))
  }

  lemma NothingVisited(polls: JsArray<Poll>)
    ensures Visited(polls, 0, [], map[])
  {
  }

  lemma VisitHole(polls: JsArray<Poll>, n: nat, conditions: seq<Condition>, captured: map<string, seq<nat>>)
    requires Visited(polls, n, conditions, captured) && n !in polls.elems
    ensures Visited(polls, n + 1, conditions, captured)
  {
    assert polls.Live(n + 1) == polls.Live(n);
  }

  lemma VisitPoll(polls: JsArray<Poll>, n: nat, conditions: seq<Condition>, captured: map<string, seq<nat>>)
    requires Visited(polls, n, conditions, captured) && n in polls.elems
    ensures var p := polls.elems[n];
      Visited(polls, n + 1, conditions + [ConditionOf(p)],
              Remembered(captured, p.qrid, n))
  {
    var p, at := polls.elems[n], polls.Live(n);
    var after := Remembered(captured, p.qrid, n);
    assert polls.Live(n + 1) == at + [n];
    CaptureNext(captured, after, polls.elems, at, n);
    ConditionsNext(polls.elems, at, n);
  }

  // ---------- what a group of answers does to the board ----------

  /** How often the poll at index i has been answered. */
  function Count(sent: seq<Sent>, i: nat): nat {
    if sent == [] then 0 else Count(sent[..|sent| - 1], i) + if sent[|sent| - 1].index == i then 1 else 0
  }

  /** Every poll was answered once if its slot is a hole, and not at all while it is live. */
  ghost predicate OnceEach(b: Board) {
    forall i: nat :: Count(b.sent, i) == if i < b.polls.length && i !in b.polls.elems then 1 else 0
  }

  /** x answers a poll of b, and it is the answer function of that poll which is called. */
  ghost predicate Addressed(x: Sent, b: Board) {
    x.index in b.polls.elems && x.client == b.polls.elems[x.index].client
  }

  /** From b to b' only live polls were answered, for a reason, and their slots became holes. */
  ghost predicate Gives(b: Board, b': Board, reason: Sent -> bool) {
    && b'.polls.length == b.polls.length
    && (forall i :: i in b'.polls.elems ==> i in b.polls.elems && b'.polls.elems[i] == b.polls.elems[i])
    && b.sent <= b'.sent
    && (forall k :: |b.sent| <= k < |b'.sent| ==> Addressed(b'.sent[k], b) && reason(b'.sent[k]))
    && (OnceEach(b) ==> OnceEach(b'))
  }

  lemma GiveOne(b: Board, i: nat, answer: Answer, reason: Sent -> bool)
    requires b.polls.Valid() && i in b.polls.elems && reason(Sent(i, b.polls.elems[i].client, answer))
    ensures Gives(b, Give(b, i, b.polls.elems[i].client, answer), reason)
  {
    var x := Sent(i, b.polls.elems[i].client, answer);
    assert (b.sent + [x])[..|b.sent|] == b.sent;
  }

  lemma GivesTransitive(b: Board, b': Board, b'': Board, r: Sent -> bool, r': Sent -> bool, reason: Sent -> bool)
    requires Gives(b, b', r) && Gives(b', b'', r')
    requires forall x :: r(x) || r'(x) ==> reason(x)
    ensures Gives(b, b'', reason)
  {
    forall k | |b.sent| <= k < |b''.sent| ensures Addressed(b''.sent[k], b) && reason(b''.sent[k]) {
      if k < |b'.sent| {
        assert b''.sent[k] == b'.sent[k];
      }
    }
  }

  function NewsTo(group: seq<Row>, at: seq<nat>): Sent -> bool {
    (x: Sent) => x.index in at && x.answer == News(group)
  }

  lemma {:induction false} AnsweredAllGives(b: Board, group: seq<Row>, at: seq<nat>)
    requires b.polls.Valid()
    ensures var b' := AnsweredAll(b, group, at);
      Gives(b, b', NewsTo(group, at)) && forall i :: i in at ==> i !in b'.polls.elems
  {
    if at != [] {
      var front, i := at[..|at| - 1], at[|at| - 1];
      var b' := AnsweredAll(b, group, front);
      AnsweredAllGives(b, group, front);
      assert at == front + [i];
      if i in b'.polls.elems {
        GiveOne(b', i, News(group), NewsTo(group, [i]));
      }
      GivesTransitive(b, b', Answered(b', group, i), NewsTo(group, front), NewsTo(group, [i]), NewsTo(group, at));
    }
  }

  /** The reason for every answer of a whole reply. */
  ghost function NewsAmong(captured: map<string, seq<nat>>, rows: seq<Row>, order: seq<string>): Sent -> bool {
    (x: Sent) => exists q :: q in order && q in captured && x.index in captured[q] && x.answer == News(Group(rows, q))
  }

  lemma {:induction false} AnsweredGroupsGives(b: Board, captured: map<string, seq<nat>>, rows: seq<Row>, order: seq<string>)
    requires b.polls.Valid() && forall q :: q in order ==> q in captured
    ensures var b' := AnsweredGroups(b, captured, rows, order);
      && Gives(b, b', NewsAmong(captured, rows, order))
      && forall q, i :: q in order && i in captured[q] ==> i !in b'.polls.elems
  {
    if order != [] {
      var front, q := order[..|order| - 1], order[|order| - 1];
      assert order == front + [q];
      var b' := AnsweredGroups(b, captured, rows, front);
      AnsweredGroupsGives(b, captured, rows, front);
      AnsweredAllGives(b', Group(rows, q), captured[q]);
      GivesTransitive(b, b', AnsweredGroups(b, captured, rows, order),
        NewsAmong(captured, rows, front), NewsTo(Group(rows, q), captured[q]), NewsAmong(captured, rows, order));
    }
  }

  // ---------- the table over whole runs ----------

  datatype Outcome = Waiting | Found(rows: seq<Row>, at: nat) | Failed

  /** A query in flight or finished; at is the size of the collection when the database ran it. */
  datatype Query = Query(conditions: seq<Condition>, captured: map<string, seq<nat>>, limit: int, outcome: Outcome, replied: bool)

  /** registered and stored only grow; timers holds the polls whose timer has not fired yet. */
  datatype State = State(board: Board, registered: seq<Poll>, timers: set<nat>, queries: seq<Query>, stored: seq<Row>)

  datatype Event =
    | Register(p: Poll)
    | Expire(index: nat)
    | Store(row: Row)
    | Ask(captured: map<string, seq<nat>>, limit: int)
    | Execute(query: nat, rows: seq<Row>)
    | Fail(query: nat)
    | Reply(query: nat, order: seq<string>)

  predicate Matches(r: Row, conditions: seq<Condition>) {
    exists c :: c in conditions && r.time > c.after && r.qrid == c.qrid
  }

  function Matching(stored: seq<Row>, conditions: seq<Condition>): seq<Row> {
    if stored == [] then []
    else
      Matching(stored[..|stored| - 1], conditions)
      + if Matches(stored[|stored| - 1], conditions) then [stored[|stored| - 1]] else []
  }

  ghost predicate NewestFirst(rows: seq<Row>) {
    forall k, l :: 0 <= k < l < |rows| ==> rows[k].time >= rows[l].time
  }

  /** getByProperties: the newest matching rows, newest first, at most limit of them; a limit that is
      not positive means no limit. */
  ghost predicate IsResult(rows: seq<Row>, stored: seq<Row>, conditions: seq<Condition>, limit: int) {
    var all := Matching(stored, conditions);
    && NewestFirst(rows)
    && multiset(rows) <= multiset(all)
    && |rows| == (if 0 < limit < |all| then limit else |all|)
    && forall r, t :: r in multiset(all) - multiset(rows) && t in rows ==> t.time >= r.time
  }

  ghost predicate Enabled(s: State, e: Event) {
    match e
    case Register(_) => true
    case Expire(i) => i in s.timers && i < |s.registered|
    case Store(_) => true
    case Ask(captured, _) =>
      var at := s.board.polls.Live(s.board.polls.length);
      at != [] && IsCapture(captured, s.board.polls.elems, at)
    case Execute(q, rows) =>
      && q < |s.queries| && s.queries[q].outcome.Waiting?
      && IsResult(rows, s.stored, s.queries[q].conditions, s.queries[q].limit)
    case Fail(q) => q < |s.queries| && s.queries[q].outcome.Waiting?
    case Reply(q, order) =>
      && q < |s.queries| && s.queries[q].outcome.Found? && !s.queries[q].replied
      && Qrids(s.queries[q].outcome.rows) <= s.queries[q].captured.Keys
      && IsOrder(order, Qrids(s.queries[q].outcome.rows))
  }

  ghost function Apply(s: State, e: Event): State
    requires Enabled(s, e)
  {
    match e
    case Register(p) =>
      s.(board := Board(s.board.polls.Push(p), s.board.sent), registered := s.registered + [p],
         timers := s.timers + {s.board.polls.length})
    case Expire(i) => s.(board := TimedOut(s.board, i, s.registered[i].client), timers := s.timers - {i})
    case Store(row) => s.(stored := s.stored + [row])
    case Ask(captured, limit) =>
      var polls := s.board.polls;
      s.(queries := s.queries + [Query(Conditions(polls.elems, polls.Live(polls.length)), captured, limit, Waiting, false)])
    case Execute(q, rows) => s.(queries := s.queries[q := s.queries[q].(outcome := Found(rows, |s.stored|))])
    case Fail(q) => s.(queries := s.queries[q := s.queries[q].(outcome := Failed)])
    case Reply(q, order) =>
      s.(board := AnsweredGroups(s.board, s.queries[q].captured, s.queries[q].outcome.rows, order),
         queries := s.queries[q := s.queries[q].(replied := true)])
  }

  // ---------- invariants ----------

  /** A live slot holds the poll that was registered at its index, and its timer is still running. */
  ghost predicate Valid(board: Board, registered: seq<Poll>, timers: set<nat>) {
    && board.polls.length == |registered|
    && board.polls.Valid()
    && (forall i :: i in board.polls.elems ==> board.polls.elems[i] == registered[i] && i in timers)
    && OnceEach(board)
  }

  /** What a query remembers fits the polls that were registered. */
  ghost predicate Fits(q: Query, registered: seq<Poll>) {
    && (forall k, i :: k in q.captured && i in q.captured[k] ==> IsCapturedFor(q, registered, i, k))
    && (forall c :: c in q.conditions ==> exists i :: IsSource(q, registered, i, c))
  }

  ghost predicate IsCapturedFor(q: Query, registered: seq<Poll>, i: nat, k: string) {
    i < |registered| && registered[i].qrid == k && ConditionOf(registered[i]) in q.conditions
  }

  ghost predicate IsSource(q: Query, registered: seq<Poll>, i: nat, c: Condition) {
    i < |registered| && c == ConditionOf(registered[i]) && c.qrid in q.captured && i in q.captured[c.qrid]
  }

  /** What a query found was in the collection when it ran. */
  ghost predicate Sound(q: Query, stored: seq<Row>) {
    q.outcome.Found? ==>
      q.outcome.at <= |stored| && IsResult(q.outcome.rows, stored[..q.outcome.at], q.conditions, q.limit)
  }

  /** After its reply no captured poll with news is still waiting. */
  ghost predicate Served(q: Query, polls: JsArray<Poll>) {
    q.replied ==>
      && q.outcome.Found?
      && forall k, i :: k in Qrids(q.outcome.rows) && k in q.captured && i in q.captured[k] ==>
           i < polls.length && i !in polls.elems
  }

  /** The news x came from query q: all its rows for that QR-ID, and there were some. */
  ghost predicate Backed(x: Sent, q: Query, p: Poll) {
    && x.answer.News? && q.outcome.Found?
    && p.qrid in q.captured && x.index in q.captured[p.qrid]
    && x.answer.rows == Group(q.outcome.rows, p.qrid) && p.qrid in Qrids(q.outcome.rows)
  }

  ghost predicate Accounted(x: Sent, registered: seq<Poll>, queries: seq<Query>) {
    && x.index < |registered|
    && x.client == registered[x.index].client
    && (x.answer.News? ==> exists k :: 0 <= k < |queries| && Backed(x, queries[k], registered[x.index]))
  }

  ghost predicate Inv(s: State) {
    && Valid(s.board, s.registered, s.timers)
    && (forall k :: 0 <= k < |s.queries| ==>
          Fits(s.queries[k], s.registered) && Sound(s.queries[k], s.stored) && Served(s.queries[k], s.board.polls))
    && (forall x :: x in s.board.sent ==> Accounted(x, s.registered, s.queries))
  }

  // ---------- each step keeps the invariant ----------

  lemma FitsLater(q: Query, registered: seq<Poll>, p: Poll)
    requires Fits(q, registered)
    ensures Fits(q, registered + [p])
  {
    var later := registered + [p];
    forall k, i | k in q.captured && i in q.captured[k] ensures IsCapturedFor(q, later, i, k) {
      assert IsCapturedFor(q, registered, i, k);
    }
    forall c | c in q.conditions ensures exists i :: IsSource(q, later, i, c) {
      var i :| IsSource(q, registered, i, c);
      assert IsSource(q, later, i, c);
    }
  }

  lemma SoundLater(q: Query, stored: seq<Row>, r: Row)
    requires Sound(q, stored)
    ensures Sound(q, stored + [r])
  {
    if q.outcome.Found? {
      assert (stored + [r])[..q.outcome.at] == stored[..q.outcome.at];
    }
  }

  lemma AccountedLater(x: Sent, registered: seq<Poll>, queries: seq<Query>, registered': seq<Poll>, queries': seq<Query>)
    requires Accounted(x, registered, queries)
    requires registered <= registered' && |queries| <= |queries'|
    requires forall k :: 0 <= k < |queries| ==>
      queries'[k].captured == queries[k].captured
      && (queries[k].outcome.Found? ==> queries'[k].outcome == queries[k].outcome)
    ensures Accounted(x, registered', queries')
  {
    if x.answer.News? {
      var k :| 0 <= k < |queries| && Backed(x, queries[k], registered[x.index]);
      assert Backed(x, queries'[k], registered'[x.index]);
    }
  }

  lemma RegisterKeeps(s: State, p: Poll)
    requires Inv(s)
    ensures Inv(Apply(s, Register(p)))
  {
    var s' := Apply(s, Register(p));
    forall k | 0 <= k < |s'.queries| ensures Fits(s'.queries[k], s'.registered) && Served(s'.queries[k], s'.board.polls) {
      FitsLater(s.queries[k], s.registered, p);
    }
    forall x | x in s'.board.sent ensures Accounted(x, s'.registered, s'.queries) {
      AccountedLater(x, s.registered, s.queries, s'.registered, s'.queries);
    }
  }

  function Expiry(i: nat): Sent -> bool { (x: Sent) => x.index == i && x.answer.Timeout? }

  lemma ExpireKeeps(s: State, i: nat)
    requires Inv(s) && Enabled(s, Expire(i))
    ensures Inv(Apply(s, Expire(i)))
  {
    var s' := Apply(s, Expire(i));
    if i in s.board.polls.elems {
      GiveOne(s.board, i, Timeout, Expiry(i));
      forall x | x in s'.board.sent ensures Accounted(x, s.registered, s.queries) {
        var k :| 0 <= k < |s'.board.sent| && s'.board.sent[k] == x;
      }
    }
  }

  lemma StoreKeeps(s: State, r: Row)
    requires Inv(s)
    ensures Inv(Apply(s, Store(r)))
  {
    forall k | 0 <= k < |s.queries| ensures Sound(s.queries[k], s.stored + [r]) {
      SoundLater(s.queries[k], s.stored, r);
    }
  }

  lemma CapturedIndex(registered: seq<Poll>, polls: map<nat, Poll>, at: seq<nat>, i: nat)
    requires forall j :: j in at ==> j in polls && j < |registered| && polls[j] == registered[j]
    requires i in at
    ensures i < |registered| && ConditionOf(registered[i]) in Conditions(polls, at)
  {
    var n :| 0 <= n < |at| && at[n] == i;
    assert Conditions(polls, at)[n] == ConditionOf(registered[i]);
  }

  lemma ConditionSource(registered: seq<Poll>, polls: map<nat, Poll>, at: seq<nat>, c: Condition) returns (i: nat)
    requires forall j :: j in at ==> j in polls && j < |registered| && polls[j] == registered[j]
    requires c in Conditions(polls, at)
    ensures i in at && i < |registered| && c == ConditionOf(registered[i])
  {
    var n :| 0 <= n < |at| && Conditions(polls, at)[n] == c;
    i := at[n];
  }

  lemma CapturedFits(q: Query, registered: seq<Poll>, polls: map<nat, Poll>, at: seq<nat>)
    requires forall j :: j in at ==> j in polls && j < |registered| && polls[j] == registered[j]
    requires IsCapture(q.captured, polls, at) && q.conditions == Conditions(polls, at)
    ensures Fits(q, registered)
  {
    forall k, i | k in q.captured && i in q.captured[k] ensures IsCapturedFor(q, registered, i, k) {
      CapturedIndex(registered, polls, at, i);
    }
    forall c | c in q.conditions ensures exists i :: IsSource(q, registered, i, c) {
      var i := ConditionSource(registered, polls, at, c);
      assert polls[i].qrid == c.qrid;
      assert IsSource(q, registered, i, c);
    }
  }

  lemma AskKeeps(s: State, captured: map<string, seq<nat>>, limit: int)
    requires Inv(s) && Enabled(s, Ask(captured, limit))
    ensures Inv(Apply(s, Ask(captured, limit)))
  {
    var s', polls := Apply(s, Ask(captured, limit)), s.board.polls;
    CapturedFits(s'.queries[|s.queries|], s.registered, polls.elems, polls.Live(polls.length));
    forall x | x in s'.board.sent ensures Accounted(x, s'.registered, s'.queries) {
      AccountedLater(x, s.registered, s.queries, s'.registered, s'.queries);
    }
  }

  lemma FinishKeeps(s: State, e: Event)
    requires Inv(s) && Enabled(s, e) && (e.Execute? || e.Fail?)
    ensures Inv(Apply(s, e))
  {
    var s' := Apply(s, e);
    assert s.stored[..|s.stored|] == s.stored;
    forall k | 0 <= k < |s'.queries|
      ensures Fits(s'.queries[k], s'.registered) && Sound(s'.queries[k], s'.stored) && Served(s'.queries[k], s'.board.polls)
    {
      assert Fits(s.queries[k], s.registered) && Served(s.queries[k], s.board.polls);
      if k == e.query {
        FitsAlike(s.queries[k], s'.queries[k], s.registered);
      }
    }
    forall x | x in s'.board.sent ensures Accounted(x, s'.registered, s'.queries) {
      AccountedLater(x, s.registered, s.queries, s'.registered, s'.queries);
    }
  }

  lemma FitsAlike(q: Query, q': Query, registered: seq<Poll>)
    requires Fits(q, registered) && q'.conditions == q.conditions && q'.captured == q.captured
    ensures Fits(q', registered)
  {
    forall k, i | k in q.captured && i in q.captured[k] ensures IsCapturedFor(q', registered, i, k) {
      assert IsCapturedFor(q, registered, i, k);
    }
    forall c | c in q.conditions ensures exists i :: IsSource(q', registered, i, c) {
      var i :| IsSource(q, registered, i, c);
      assert IsSource(q', registered, i, c);
    }
  }

  lemma ReplyAccounts(s: State, k: nat, order: seq<string>, x: Sent)
    requires Inv(s) && Enabled(s, Reply(k, order)) && x in Apply(s, Reply(k, order)).board.sent
    ensures Accounted(x, s.registered, s.queries)
  {
    var s', q := Apply(s, Reply(k, order)), s.queries[k];
    AnsweredGroupsGives(s.board, q.captured, q.outcome.rows, order);
    var n :| 0 <= n < |s'.board.sent| && s'.board.sent[n] == x;
    if n < |s.board.sent| {
      assert x in s.board.sent;
    } else {
      assert Fits(q, s.registered);
      assert Backed(x, q, s.registered[x.index]);
    }
  }

  lemma ReplyServes(s: State, k: nat, order: seq<string>, n: nat)
    requires Inv(s) && Enabled(s, Reply(k, order)) && n < |s.queries|
    ensures var s' := Apply(s, Reply(k, order)); Served(s'.queries[n], s'.board.polls)
  {
    var q := s.queries[k];
    AnsweredGroupsGives(s.board, q.captured, q.outcome.rows, order);
    assert Fits(q, s.registered) && Served(s.queries[n], s.board.polls);
  }

  lemma ReplyKeeps(s: State, k: nat, order: seq<string>)
    requires Inv(s) && Enabled(s, Reply(k, order))
    ensures Inv(Apply(s, Reply(k, order)))
  {
    var s', q := Apply(s, Reply(k, order)), s.queries[k];
    AnsweredGroupsGives(s.board, q.captured, q.outcome.rows, order);
    forall n | 0 <= n < |s'.queries|
      ensures Fits(s'.queries[n], s'.registered) && Sound(s'.queries[n], s'.stored) && Served(s'.queries[n], s'.board.polls)
    {
      ReplyServes(s, k, order, n);
      FitsAlike(s.queries[n], s'.queries[n], s.registered);
    }
    forall x | x in s'.board.sent ensures Accounted(x, s'.registered, s'.queries) {
      ReplyAccounts(s, k, order, x);
      AccountedLater(x, s.registered, s.queries, s'.registered, s'.queries);
    }
  }

  lemma StepKeepsInv(s: State, e: Event)
    requires Inv(s) && Enabled(s, e)
    ensures Inv(Apply(s, e))
  {
    match e
    case Register(p) => RegisterKeeps(s, p);
    case Expire(i) => ExpireKeeps(s, i);
    case Store(r) => StoreKeeps(s, r);
    case Ask(captured, limit) => AskKeeps(s, captured, limit);
    case Execute(_, _) => FinishKeeps(s, e);
    case Fail(_) => FinishKeeps(s, e);
    case Reply(k, order) => ReplyKeeps(s, k, order);
  }

  ghost predicate Run(states: seq<State>, events: seq<Event>) {
    && |states| == |events| + 1
    && states[0].board == Board(Empty(), []) && states[0].registered == [] && states[0].timers == {}
    && states[0].queries == []
    && forall i :: 0 <= i < |events| ==> Enabled(states[i], events[i]) && states[i + 1] == Apply(states[i], events[i])
  }

  lemma {:induction false} RunInv(states: seq<State>, events: seq<Event>, i: nat)
    requires Run(states, events) && i < |states|
    ensures Inv(states[i])
  {
    if i > 0 {
      RunInv(states, events, i - 1);
      StepKeepsInv(states[i - 1], events[i - 1]);
    }
  }
  // ---------- what a client can rely on ----------

  /** Each poll is answered at most once, through its own answer function, and exactly once as soon as its
      timer has fired, in every interleaving of registrations, timers, queries and late replies. */
  lemma EachPollIsAnsweredOnce(states: seq<State>, events: seq<Event>, n: nat, i: nat)
    requires Run(states, events) && n < |states| && i < |states[n].registered|
    ensures var s := states[n];
      && Count(s.board.sent, i) <= 1
      && (i !in s.timers ==> Count(s.board.sent, i) == 1)
      && (forall x :: x in s.board.sent && x.index == i ==> x.client == s.registered[i].client)
  {
    RunInv(states, events, n);
  }

  lemma {:induction false} GroupOf(rows: seq<Row>, q: string)
    ensures forall r :: r in Group(rows, q) <==> r in rows && r.qrid == q
    ensures NewestFirst(rows) ==> NewestFirst(Group(rows, q))
  {
    if rows != [] {
      var front, last := rows[..|rows| - 1], rows[|rows| - 1];
      assert rows == front + [last];
      GroupOf(front, q);
      forall k | 0 <= k < |Group(front, q)| ensures NewestFirst(rows) ==> Group(front, q)[k].time >= last.time {
        assert Group(front, q)[k] in front;
      }
    }
  }

  /** How often a row occurs. */
  function Copies(rows: seq<Row>, r: Row): nat { multiset(rows)[r] }

  lemma CopiesOfAppend(rows: seq<Row>, last: Row, r: Row)
    ensures Copies(rows + [last], r) == Copies(rows, r) + if last == r then 1 else 0
  {
  }

  lemma {:induction false} GroupCopies(rows: seq<Row>, q: string, r: Row)
    ensures Copies(Group(rows, q), r) == if r.qrid == q then Copies(rows, r) else 0
  {
    if rows != [] {
      var front, last := rows[..|rows| - 1], rows[|rows| - 1];
      assert rows == front + [last];
      GroupCopies(front, q, r);
      CopiesOfAppend(front, last, r);
      CopiesOfAppend(Group(front, q), last, r);
      assert last.qrid != q ==> Group(rows, q) == Group(front, q);
    }
  }

  lemma {:induction false} MatchingCopies(stored: seq<Row>, conditions: seq<Condition>, r: Row)
    ensures Copies(Matching(stored, conditions), r) == if Matches(r, conditions) then Copies(stored, r) else 0
  {
    if stored != [] {
      var front, last := stored[..|stored| - 1], stored[|stored| - 1];
      assert stored == front + [last];
      MatchingCopies(front, conditions, r);
      CopiesOfAppend(front, last, r);
      CopiesOfAppend(Matching(front, conditions), last, r);
      assert !Matches(last, conditions) ==> Matching(stored, conditions) == Matching(front, conditions);
    }
  }

  lemma Occurs(rows: seq<Row>, r: Row)
    ensures r in rows <==> Copies(rows, r) > 0
  {
    assert r in rows <==> r in multiset(rows);
  }

  /** poll_max did not cut the result of q off. */
  ghost predicate Uncut(q: Query, stored: seq<Row>) {
    q.limit <= 0 || |Matching(stored, q.conditions)| <= q.limit
  }

  /** A result that is shorter than poll_max was not cut off. */
  lemma ShortIsUncut(q: Query, stored: seq<Row>)
    requires q.outcome.Found? && IsResult(q.outcome.rows, stored, q.conditions, q.limit)
    requires q.limit <= 0 || |q.outcome.rows| < q.limit
    ensures Uncut(q, stored)
  {
  }

  /** A result holds only matching rows, none more often than the collection, all of them if it was not cut off,
      and never an older row in the place of a newer one. */
  lemma ResultIs(q: Query, stored: seq<Row>, r: Row)
    requires q.outcome.Found? && IsResult(q.outcome.rows, stored, q.conditions, q.limit)
    ensures r in q.outcome.rows ==> r in stored && Matches(r, q.conditions)
    ensures Copies(q.outcome.rows, r) <= Copies(stored, r)
    ensures Uncut(q, stored) && Matches(r, q.conditions) ==> Copies(q.outcome.rows, r) == Copies(stored, r)
    ensures Matches(r, q.conditions) && Copies(q.outcome.rows, r) < Copies(stored, r) ==>
              forall t :: t in q.outcome.rows ==> t.time >= r.time
  {
    var rows, all := q.outcome.rows, Matching(stored, q.conditions);
    MatchingCopies(stored, q.conditions, r);
    Occurs(rows, r);
    Occurs(stored, r);
    assert multiset(rows)[r] <= multiset(all)[r];
    assert Copies(rows, r) < Copies(all, r) ==> r in multiset(all) - multiset(rows);
    if Uncut(q, stored) {
      assert |multiset(all) - multiset(rows)| == |all| - |rows|;
    }
  }

  /** The poll at index i is one that query q was made for, and row r is for its QR-ID and news to it. */
  ghost predicate IsNewsTo(i: nat, r: Row, q: Query, registered: seq<Poll>) {
    && r.qrid in q.captured && i in q.captured[r.qrid]
    && i < |registered| && registered[i].date < r.time
  }

  /** Row r is for this QR-ID, and news to one of its polls that q was made for. */
  ghost predicate IsNews(r: Row, qrid: string, q: Query, registered: seq<Poll>) {
    r.qrid == qrid && exists i :: IsNewsTo(i, r, q, registered)
  }

  /** Row r in an answer: it is there only if it is news, at most as often as it was stored, exactly as often if
      poll_max did not cut the result off, and nothing older is there if a copy of it is missing. */
  ghost predicate RowIsRight(r: Row, rows: seq<Row>, qrid: string, q: Query, registered: seq<Poll>, stored: seq<Row>) {
    && Copies(rows, r) <= Copies(stored, r)
    && (r in rows ==> r in stored && IsNews(r, qrid, q, registered))
    && (IsNews(r, qrid, q, registered) ==>
          && (Uncut(q, stored) ==> Copies(rows, r) == Copies(stored, r))
          && (Copies(rows, r) < Copies(stored, r) ==> forall t :: t in rows ==> t.time >= r.time))
  }

  /** The rows are the news that query q could see for this QR-ID, newest first. */
  ghost predicate IsNewsFor(rows: seq<Row>, qrid: string, q: Query, registered: seq<Poll>, stored: seq<Row>) {
    && rows != [] && NewestFirst(rows)
    && forall r :: RowIsRight(r, rows, qrid, q, registered, stored)
  }

  /** The conditions of a query match a row exactly if it is news to a poll that the query was made for. */
  lemma MatchesIffNews(r: Row, q: Query, registered: seq<Poll>)
    requires Fits(q, registered)
    ensures Matches(r, q.conditions) <==> IsNews(r, r.qrid, q, registered)
  {
    if Matches(r, q.conditions) {
      var c :| c in q.conditions && r.time > c.after && r.qrid == c.qrid;
      var i :| IsSource(q, registered, i, c);
      assert IsNewsTo(i, r, q, registered);
    }
    if i: nat :| IsNewsTo(i, r, q, registered) {
      assert IsCapturedFor(q, registered, i, r.qrid);
      assert ConditionOf(registered[i]) in q.conditions;
    }
  }

  lemma GroupIsNews(qrid: string, q: Query, registered: seq<Poll>, stored: seq<Row>)
    requires Fits(q, registered) && q.outcome.Found? && IsResult(q.outcome.rows, stored, q.conditions, q.limit)
    requires qrid in Qrids(q.outcome.rows)
    ensures IsNewsFor(Group(q.outcome.rows, qrid), qrid, q, registered, stored)
  {
    var rows := Group(q.outcome.rows, qrid);
    GroupOf(q.outcome.rows, qrid);
    var r :| r in q.outcome.rows && r.qrid == qrid;
    assert r in rows;
    forall r
      ensures RowIsRight(r, rows, qrid, q, registered, stored)
    {
      RowOfGroup(r, qrid, q, registered, stored);
    }
  }

  lemma RowOfGroup(r: Row, qrid: string, q: Query, registered: seq<Poll>, stored: seq<Row>)
    requires Fits(q, registered) && q.outcome.Found? && IsResult(q.outcome.rows, stored, q.conditions, q.limit)
    ensures RowIsRight(r, Group(q.outcome.rows, qrid), qrid, q, registered, stored)
  {
    ResultIs(q, stored, r);
    GroupOf(q.outcome.rows, qrid);
    GroupCopies(q.outcome.rows, qrid, r);
    MatchesIffNews(r, q, registered);
  }

  /** What a poll is answered with, whenever it is answered with transactions. */
  lemma NewsIsRight(states: seq<State>, events: seq<Event>, n: nat, x: Sent)
    requires Run(states, events) && n < |states|
    requires x in states[n].board.sent && x.answer.News?
    ensures var s := states[n];
      && x.index < |s.registered|
      && exists k :: 0 <= k < |s.queries| && s.queries[k].outcome.Found? && s.queries[k].outcome.at <= |s.stored|
           && Backed(x, s.queries[k], s.registered[x.index])
           && IsNewsFor(x.answer.rows, s.registered[x.index].qrid, s.queries[k], s.registered,
                        s.stored[..s.queries[k].outcome.at])
  {
    RunInv(states, events, n);
    var s := states[n];
    var k :| 0 <= k < |s.queries| && Backed(x, s.queries[k], s.registered[x.index]);
    assert Fits(s.queries[k], s.registered) && Sound(s.queries[k], s.stored);
    GroupIsNews(s.registered[x.index].qrid, s.queries[k], s.registered, s.stored[..s.queries[k].outcome.at]);
  }

  /** Whatever a query found is told: once it has been replied to, every poll it was made for whose QR-ID is that of
      a row in the result has its one answer. */
  lemma FoundReachesEveryPoll(states: seq<State>, events: seq<Event>, n: nat, k: nat, i: nat, r: Row)
    requires Run(states, events) && n < |states| && k < |states[n].queries|
    requires var q := states[n].queries[k];
      q.replied && q.outcome.Found? && r in q.outcome.rows && r.qrid in q.captured && i in q.captured[r.qrid]
    ensures Count(states[n].board.sent, i) == 1
  {
    RunInv(states, events, n);
    var s := states[n];
    var q := s.queries[k];
    assert Served(q, s.board.polls);
    assert r.qrid in Qrids(q.outcome.rows);
  }

  /** Nobody is forgotten: once a query that was not cut off has been replied to, every poll it was made for
      whose QR-ID had a newer row in the collection has its one answer. */
  lemma NewsReachesEveryPoll(states: seq<State>, events: seq<Event>, n: nat, k: nat, i: nat, r: Row)
    requires Run(states, events) && n < |states| && k < |states[n].queries|
    requires var s := states[n]; var q := s.queries[k];
      && q.replied && q.outcome.Found? && q.outcome.at <= |s.stored| && Uncut(q, s.stored[..q.outcome.at])
      && r in s.stored[..q.outcome.at] && IsNewsTo(i, r, q, s.registered)
    ensures Count(states[n].board.sent, i) == 1
  {
    RunInv(states, events, n);
    var s := states[n];
    var q := s.queries[k];
    assert Fits(q, s.registered) && Sound(q, s.stored);
    ResultIs(q, s.stored[..q.outcome.at], r);
    MatchesIffNews(r, q, s.registered);
    Occurs(q.outcome.rows, r);
    Occurs(s.stored[..q.outcome.at], r);
    FoundReachesEveryPoll(states, events, n, k, i, r);
  }

  /** Every QR-ID in a result has remembered indices, so the lookup in the reply never fails: a query that
      has found rows can be replied to in any order of the groups. */
  lemma EveryGroupIsCaptured(states: seq<State>, events: seq<Event>, n: nat, k: nat, order: seq<string>)
    requires Run(states, events) && n < |states| && k < |states[n].queries|
    requires var q := states[n].queries[k];
      q.outcome.Found? && !q.replied && IsOrder(order, Qrids(q.outcome.rows))
    ensures Enabled(states[n], Reply(k, order))
  {
    RunInv(states, events, n);
    var s := states[n];
    var q := s.queries[k];
    assert Fits(q, s.registered) && Sound(q, s.stored);
    forall g | g in Qrids(q.outcome.rows) ensures g in q.captured {
      var r :| r in q.outcome.rows && r.qrid == g;
      ResultIs(q, s.stored[..q.outcome.at], r);
      var c :| c in q.conditions && r.time > c.after && r.qrid == c.qrid;
      var i :| IsSource(q, s.registered, i, c);
    }
  }

  // ---------- a shared answer ----------

  const OLD := Poll(0, 0, "a")
  const NEW := Poll(1, 10, "a")
  const ROW := Row(0, 5, "a")
  const BOTH := JsArray(2, map[0 := OLD, 1 := NEW])
  const BOTH_ASKED := map["a" := [0, 1]]

  /** Two clients poll the same QR-ID, and there is one row, which only the first of them does not know. */
  function Polled(queries: seq<Query>): State {
    State(Board(BOTH, []), [OLD, NEW], {0, 1}, queries, [ROW])
  }

  function SharedQuery(outcome: Outcome): Query {
    Query([Condition(0, "a"), Condition(10, "a")], BOTH_ASKED, 50, outcome, false)
  }

  lemma VisitOne(polls: JsArray<Poll>, n: nat, p: Poll, conditions: seq<Condition>, captured: map<string, seq<nat>>,
                 conditions': seq<Condition>, captured': map<string, seq<nat>>)
    requires Visited(polls, n, conditions, captured) && n in polls.elems && polls.elems[n] == p
    requires conditions' == conditions + [ConditionOf(p)]
    requires captured' == Remembered(captured, p.qrid, n)
    ensures Visited(polls, n + 1, conditions', captured')
  {
    VisitPoll(polls, n, conditions, captured);
  }

  function NoneCaptured(): map<string, seq<nat>> { map[] }

  lemma FirstCaptured()
    ensures map["a" := [0]] == Remembered(NoneCaptured(), "a", 0)
  {
    var nothing: seq<nat> := [];
    assert nothing + [0] == [0];
  }

  lemma BothCaptured()
    ensures Remembered(map["a" := [0]], "a", 1) == BOTH_ASKED
  {
    assert map["a" := [0]]["a"] + [1] == [0, 1];
  }

  lemma BothAreVisited()
    ensures Visited(BOTH, 2, SharedQuery(Waiting).conditions, BOTH_ASKED)
  {
    NothingVisited(BOTH);
    FirstCaptured();
    VisitOne(BOTH, 0, OLD, [], NoneCaptured(), [Condition(0, "a")], map["a" := [0]]);
    BothCaptured();
    VisitOne(BOTH, 1, NEW, [Condition(0, "a")], map["a" := [0]], SharedQuery(Waiting).conditions, BOTH_ASKED);
  }

  lemma BothAreAsked()
    ensures Enabled(Polled([]), Ask(BOTH_ASKED, 50))
    ensures Apply(Polled([]), Ask(BOTH_ASKED, 50)) == Polled([SharedQuery(Waiting)])
  {
    BothAreVisited();
    assert 1 in BOTH.Live(2);
  }

  lemma RowMatches()
    ensures Matching([ROW], SharedQuery(Waiting).conditions) == [ROW]
  {
    var conditions := SharedQuery(Waiting).conditions;
    assert conditions[0] in conditions && Matches(ROW, conditions);
    assert [ROW][..0] == [];
  }

  lemma WholeResult(r: Row, conditions: seq<Condition>, limit: int)
    requires Matching([r], conditions) == [r] && limit > 0
    ensures IsResult([r], [r], conditions, limit)
  {
  }

  lemma OnlyQueryRuns(s: State, rows: seq<Row>)
    requires |s.queries| == 1 && s.queries[0].outcome.Waiting?
    requires IsResult(rows, s.stored, s.queries[0].conditions, s.queries[0].limit)
    ensures Enabled(s, Execute(0, rows))
    ensures Apply(s, Execute(0, rows)) == s.(queries := [s.queries[0].(outcome := Found(rows, |s.stored|))])
  {
  }

  lemma RowIsFound()
    ensures Enabled(Polled([SharedQuery(Waiting)]), Execute(0, [ROW]))
    ensures Apply(Polled([SharedQuery(Waiting)]), Execute(0, [ROW])) == Polled([SharedQuery(Found([ROW], 1))])
  {
    RowMatches();
    WholeResult(ROW, SharedQuery(Waiting).conditions, 50);
    OnlyQueryRuns(Polled([SharedQuery(Waiting)]), [ROW]);
  }

  lemma BothAreAnswered()
    ensures var s := Polled([SharedQuery(Found([ROW], 1))]);
      && Enabled(s, Reply(0, ["a"]))
      && Apply(s, Reply(0, ["a"])).board.sent == [Sent(0, 0, News([ROW])), Sent(1, 1, News([ROW]))]
  {
    var b := Board(BOTH, []);
    assert ROW.qrid in Qrids([ROW]) && Qrids([ROW]) == {"a"};
    assert [ROW][..0] == [] && Group([ROW], "a") == [ROW];
    assert [0, 1][..1] == [0] && [0][..0] == [];
    assert AnsweredAll(b, [ROW], [0]) == Answered(b, [ROW], 0);
    assert ["a"][..0] == [];
    assert AnsweredGroups(b, BOTH_ASKED, [ROW], ["a"]) == AnsweredAll(b, [ROW], [0, 1]);
  }

  lemma BothAreRegistered() returns (states: seq<State>, events: seq<Event>)
    ensures Run(states, events) && |events| == 3 && states[3] == Polled([])
  {
    var s0 := State(Board(Empty(), []), [], {}, [], []);
    var s1 := Apply(s0, Register(OLD));
    var s2 := Apply(s1, Register(NEW));
    assert s2.board.polls.elems == BOTH.elems;
    events := [Register(OLD), Register(NEW), Store(ROW)];
    states := [s0, s1, s2, Apply(s2, Store(ROW))];
    assert s2.registered == [OLD, NEW] && [] + [ROW] == [ROW];
  }

  lemma RunOn(states: seq<State>, events: seq<Event>, e: Event)
    requires Run(states, events) && Enabled(states[|events|], e)
    ensures Run(states + [Apply(states[|events|], e)], events + [e])
  {
  }

  /** A client can be answered with a row that is not newer than its own date, because another client of
      its QR-ID has an older date. */
  lemma SharedNews() returns (states: seq<State>, events: seq<Event>)
    ensures Run(states, events)
    ensures Sent(1, NEW.client, News([ROW])) in states[|events|].board.sent && ROW.time < NEW.date
  {
    states, events := BothAreRegistered();
    BothAreAsked();
    RowIsFound();
    BothAreAnswered();
    RunOn(states, events, Ask(BOTH_ASKED, 50));
    var s4 := Polled([SharedQuery(Waiting)]);
    states, events := states + [s4], events + [Ask(BOTH_ASKED, 50)];
    RunOn(states, events, Execute(0, [ROW]));
    var s5 := Polled([SharedQuery(Found([ROW], 1))]);
    states, events := states + [s5], events + [Execute(0, [ROW])];
    RunOn(states, events, Reply(0, ["a"]));
    states, events := states + [Apply(s5, Reply(0, ["a"]))], events + [Reply(0, ["a"])];
  }
}
