/** What the settlement protocol guarantees in every disciplined run of any number of workers. */
module SettlementTheorems {
  import opened Ledger
  import opened Settlement
  import opened SettlementInvariant

  /** Freshly started workers over a ledger that is covered so far. */
  ghost predicate Initial(s: State) {
    && s.intents == map[] && s.arriving == map[] && s.slots == map[] && s.chains == map[]
    && s.limbo == {} && s.removals == {} && s.nextTrid == 0
    && Covered(s.ledger)
    && |s.origins| == |s.ledger| && (forall o :: o in s.origins ==> o == -1)
    && s.replies == [] && s.refusals == [] && s.requests == map[]
  }

  /** Each step is something the code can do, under the assumptions A1-A4. */
  ghost predicate Steps(states: seq<State>, events: seq<Event>) {
    && |states| == |events| + 1
    && forall i :: 0 <= i < |events| ==>
         Enabled(states[i], events[i]) && Disciplined(states[i], events[i]) && states[i + 1] == Apply(states[i], events[i])
  }

  lemma StepsOn(states: seq<State>, events: seq<Event>, e: Event)
    requires Steps(states, events)
    requires var s := states[|events|]; Enabled(s, e) && Disciplined(s, e)
    ensures Steps(states + [Apply(states[|events|], e)], events + [e])
  {
    var states', events' := states + [Apply(states[|events|], e)], events + [e];
    forall i | 0 <= i < |events'|
      ensures Enabled(states'[i], events'[i]) && Disciplined(states'[i], events'[i])
      ensures states'[i + 1] == Apply(states'[i], events'[i])
    {
      assert states'[i] == states[i];
      if i < |events| {
        assert states'[i + 1] == states[i + 1] && events'[i] == events[i];
      }
    }
  }

  ghost predicate Run(states: seq<State>, events: seq<Event>) {
    Steps(states, events) && Initial(states[0])
  }

  /** P holds after every step with a permitted event if it holds before. */
  ghost predicate Inductive(P: State -> bool, permitted: Event -> bool) {
    forall s, e :: P(s) && permitted(e) && Enabled(s, e) && Disciplined(s, e) ==> P(Apply(s, e))
  }

  lemma {:induction false} Along(
    states: seq<State>, events: seq<Event>, P: State -> bool, permitted: Event -> bool, k: nat, i: nat)
    requires Steps(states, events) && k <= i < |states|
    requires forall m :: k <= m < |events| ==> permitted(events[m])
    requires P(states[k]) && Inductive(P, permitted)
    ensures P(states[i])
    decreases i
  {
    if k < i {
      Along(states, events, P, permitted, k, i - 1);
    }
  }

  lemma InitialInv(s: State)
    requires Initial(s)
    ensures Inv(s)
  {
    assert forall k :: 0 <= k < |s.origins| ==> s.origins[k] in s.origins;
  }

  lemma RunInv(states: seq<State>, events: seq<Event>, i: nat)
    requires Run(states, events) && i < |states|
    ensures Inv(states[i])
  {
    InitialInv(states[0]);
    forall s, e | Inv(s) && Enabled(s, e) && Disciplined(s, e) ensures Inv(Apply(s, e)) {
      StepKeepsInv(s, e);
    }
    Along(states, events, s => Inv(s), e => true, 0, i);
  }

  // ---------- safety ----------

  /** No account is ever overdrawn, however the workers, unlocked credits and spawns interleave. */
  lemma NoOverdraft(states: seq<State>, events: seq<Event>, i: nat, a: nat)
    requires Run(states, events) && i < |states|
    ensures Balance(states[i].ledger, a) >= 0.0
  {
    RunInv(states, events, i);
    CoveredIsSolvent(states[i].ledger, a);
  }

  // From the granted permission to the end of writeComplete.

  /** A settled payment whose intent is still there is its sender's oldest. */
  ghost predicate Leaving(s: State) {
    forall t :: t in s.removals && t in s.intents ==> Head(s, s.intents[t].sender, t)
  }

  /** The intent of a stored row is older than its sender's other intents. */
  lemma StoredIsHead(s: State, c: nat)
    requires Identity(s) && Locking(s) && Origins(s) && Fifo(s)
    requires c in s.chains && s.chains[c].phase.Written? && s.chains[c].trid in s.intents
    ensures Head(s, s.intents[s.chains[c].trid].sender, s.chains[c].trid)
  {
    var t := s.chains[c].trid;
    assert GoodEntry(s, t, s.slots[s.chains[c].slot].entry);
    var k :| 0 <= k < |s.origins| && s.origins[k] == t;
    forall u | u in s.intents && s.intents[u].sender == s.intents[t].sender
      ensures s.intents[t].time <= s.intents[u].time
    {
      assert u != t ==> s.origins[k] < u;
    }
  }

  lemma FinishLeaving(s: State, c: nat, answer: Answer)
    requires Leaving(s) && c in s.chains
    requires s.chains[c].trid in s.intents ==> Head(s, s.intents[s.chains[c].trid].sender, s.chains[c].trid)
    ensures Leaving(Finish(s, c, answer))
  {
  }

  lemma DecideLeaving(s: State, e: Event)
    requires Identity(s) && Locking(s) && Leaving(s) && Enabled(s, e) && e.Decide?
    ensures Leaving(Apply(s, e))
  {
    var p := s.chains[e.chain].phase;
    if Computed(p.seen) - p.pe.entry.sent < 0.0 {
      FinishLeaving(s, e.chain, NoMoney);
    } else {
      assert Apply(s, e) == Advance(s, e.chain, Writing(p.pe));
    }
  }

  lemma OtherLeaving(s: State, e: Event)
    requires Basic(s) && Leaving(s) && Enabled(s, e) && Disciplined(s, e) && !e.Decide? && !e.Acknowledge?
    ensures Leaving(Apply(s, e))
  {
  }

  lemma {:induction false} RunLeaving(states: seq<State>, events: seq<Event>, i: nat)
    requires Run(states, events) && i < |states|
    ensures Leaving(states[i])
  {
    if i > 0 {
      var s, e := states[i - 1], events[i - 1];
      RunLeaving(states, events, i - 1);
      RunInv(states, events, i - 1);
      if e.Decide? {
        DecideLeaving(s, e);
      } else if e.Acknowledge? {
        if s.chains[e.chain].trid in s.intents {
          StoredIsHead(s, e.chain);
        }
        FinishLeaving(s, e.chain, Ok);
      } else {
        OtherLeaving(s, e);
      }
    }
  }

  /** Chain c is past its permission: its intent was found to be the oldest, and it works on a live slot. */
  ghost predicate Permitted(s: State, c: nat) {
    c in s.chains && !s.chains[c].phase.Asked? && s.chains[c].slot in s.slots
  }

  /** Intent t of sender a has got its permission and its removal by writeComplete has not happened yet. */
  ghost predicate Holds(s: State, a: nat, t: nat) {
    && t in s.intents && s.intents[t].sender == a
    && (t in s.removals || exists c :: Permitted(s, c) && s.chains[c].trid == t)
  }

  ghost predicate WorksOn(s: State, c: nat, t: nat) {
    c in s.chains && s.chains[c].trid == t && Busy(s.chains[c].phase)
  }

  lemma HolderIsHead(s: State, a: nat, t: nat)
    requires Inv(s) && Leaving(s) && Holds(s, a, t)
    ensures Head(s, a, t)
  {
    if t !in s.removals {
      var c :| Permitted(s, c) && s.chains[c].trid == t;
      if s.chains[c].phase.Written? {
        StoredIsHead(s, c);
      } else {
        assert Entitled(s.chains[c].phase);
      }
    }
  }

  /** Mutual exclusion, over the whole time from the permission to writeComplete: at most one payment per
      sender holds it, and at most one chain works on that payment. */
  lemma OneSettlementPerSender(states: seq<State>, events: seq<Event>, i: nat, a: nat, t: nat, u: nat)
    requires Run(states, events) && i < |states| && Holds(states[i], a, t) && Holds(states[i], a, u)
    ensures t == u
    ensures forall c, d :: WorksOn(states[i], c, t) && WorksOn(states[i], d, t) ==> c == d
  {
    RunInv(states, events, i);
    RunLeaving(states, events, i);
    HolderIsHead(states[i], a, t);
    HolderIsHead(states[i], a, u);
  }

  /** In particular, no two chains of one sender are reading its balance or writing its row. */
  lemma OneChainPerSender(states: seq<State>, events: seq<Event>, i: nat, c: nat, d: nat)
    requires Run(states, events) && i < |states|
    requires var s := states[i];
      && c in s.chains && (s.chains[c].phase.Reading? || s.chains[c].phase.Writing?)
      && d in s.chains && (s.chains[d].phase.Reading? || s.chains[d].phase.Writing?)
      && s.chains[c].sender == s.chains[d].sender
    ensures c == d
  {
    RunInv(states, events, i);
    MutualExclusion(states[i], c, d);
  }

  /** One sender's payments enter the ledger in the order in which their intents were saved,
      across workers, crashes and expired intents. */
  lemma FirstComeFirstServed(states: seq<State>, events: seq<Event>, i: nat, k: nat, l: nat)
    requires Run(states, events) && i < |states|
    requires var s := states[i];
      && k < l < |s.ledger| && |s.origins| == |s.ledger|
      && s.origins[k] >= 0 && s.origins[l] >= 0 && s.ledger[k].sender == s.ledger[l].sender
    ensures states[i].origins[k] < states[i].origins[l]
  {
    RunInv(states, events, i);
  }

  /** A captured slot index denotes the payment it was captured for, or a hole. */
  lemma CapturedIndexIsStable(states: seq<State>, events: seq<Event>, i: nat, c: nat)
    requires Run(states, events) && i < |states| && c in states[i].chains
    ensures var s := states[i]; var ch := s.chains[c];
      ch.slot in s.slots ==>
        && s.slots[ch.slot].trid == ch.trid
        && (Busy(ch.phase) ==> s.slots[ch.slot] == ch.phase.pe)
  {
    RunInv(states, events, i);
  }

  /** The balance a chain computes from three aggregations evaluated at different moments lies
      between the true balance at the first of them and the true balance now. */
  lemma TornReadsAreSafe(states: seq<State>, events: seq<Event>, i: nat, c: nat)
    requires Run(states, events) && i < |states|
    requires c in states[i].chains && states[i].chains[c].phase.Reading?
    requires states[i].chains[c].phase.seen.Keys == {Income, Payments, TaxIncome}
    ensures var s := states[i]; var p := s.chains[c].phase; var a := SenderOf(p.pe.entry);
      && p.mark <= |s.ledger|
      && Balance(s.ledger[..p.mark], a) <= Computed(p.seen) <= Balance(s.ledger, a)
  {
    RunInv(states, events, i);
    ComputedIsSandwiched(states[i], c);
  }

  // ---------- how states evolve ----------

  /** s' is a later state than s: the ledger and the records only grow. */
  ghost predicate Extends(s: State, s': State) {
    && s.ledger <= s'.ledger && s.origins <= s'.origins && s.replies <= s'.replies && s.refusals <= s'.refusals
    && s.nextTrid <= s'.nextTrid
    && Sub(s.requests, s'.requests)
    && (forall t :: t in s'.requests && t !in s.requests ==> s'.requests[t].at >= |s.ledger|)
  }

  /** Only stores and spawns touch the ledger, only announcements the requests. */
  lemma RowsGrow(s: State, e: Event)
    requires Enabled(s, e) && Disciplined(s, e)
    ensures var s' := Apply(s, e);
      if e.Store? || e.Spawn? then exists row, o :: s'.ledger == s.ledger + [row] && s'.origins == s.origins + [o]
      else s'.ledger == s.ledger && s'.origins == s.origins
    ensures !e.Announce? ==> Apply(s, e).requests == s.requests && Apply(s, e).nextTrid == s.nextTrid
  {
    if e.Store? || e.Spawn? {
      RowIsAppended(s, e);
    } else if Advances(e) {
      AdvanceKeepsRows(s, e);
    }
  }

  lemma RowIsAppended(s: State, e: Event)
    requires Enabled(s, e) && (e.Store? || e.Spawn?)
    ensures var s' := Apply(s, e);
      exists row, o :: s'.ledger == s.ledger + [row] && s'.origins == s.origins + [o]
    ensures Apply(s, e).requests == s.requests && Apply(s, e).nextTrid == s.nextTrid
  {
    var row := if e.Store? then s.chains[e.chain].phase.pe.entry else e.entry;
    var o := if e.Store? then s.chains[e.chain].phase.pe.trid else -1;
    assert Apply(s, e).ledger == s.ledger + [row] && Apply(s, e).origins == s.origins + [o];
  }

  ghost predicate SameRows(s: State, s': State) {
    s'.ledger == s.ledger && s'.origins == s.origins && s'.requests == s.requests && s'.nextTrid == s.nextTrid
  }

  lemma AdvanceKeepsRows(s: State, e: Event)
    requires Enabled(s, e) && Advances(e) && !e.Store?
    ensures SameRows(s, Apply(s, e))
  {
    if e.Decide? {
      DecisionKeepsRows(s, e.chain);
    } else if e.Evaluate? || e.Callback? {
      LookupKeepsRows(s, e);
    }
  }

  lemma DecisionKeepsRows(s: State, c: nat)
    requires Enabled(s, Decide(c))
    ensures SameRows(s, Apply(s, Decide(c)))
  {
    var p := s.chains[c].phase;
    assert Apply(s, Decide(c))
        == if Computed(p.seen) - p.pe.entry.sent < 0.0 then Refuse(s, c) else Advance(s, c, Writing(p.pe));
  }

  lemma LookupKeepsRows(s: State, e: Event)
    requires Enabled(s, e) && (e.Evaluate? || e.Callback?)
    ensures SameRows(s, Apply(s, e))
  {
  }

  /** Answers are only given by decisions, acknowledgements and reported errors. */
  lemma AnswersGrow(s: State, e: Event)
    requires Enabled(s, e) && Disciplined(s, e)
    ensures var s' := Apply(s, e);
      if e.Decide? || e.Acknowledge? || e.Abort? || e.FailSave? then s.replies <= s'.replies && s.refusals <= s'.refusals
      else s'.replies == s.replies && s'.refusals == s.refusals
  {
  }

  lemma StepExtends(s: State, e: Event)
    requires s.nextTrid !in s.requests && Enabled(s, e) && Disciplined(s, e)
    ensures Extends(s, Apply(s, e))
  {
    RowsGrow(s, e);
    AnswersGrow(s, e);
  }

  lemma ExtendsTransitive(s: State, s': State, s'': State)
    requires Extends(s, s') && Extends(s', s'')
    ensures Extends(s, s'')
  {
  }

  lemma NextExtends(states: seq<State>, events: seq<Event>, i: nat)
    requires Run(states, events) && i < |events|
    ensures Extends(states[i], states[i + 1])
  {
    RunInv(states, events, i);
    StepExtends(states[i], events[i]);
  }

  /** A reflexive and transitive relation between neighbours holds over any distance. */
  lemma {:induction false} OverDistance(states: seq<State>, R: (State, State) -> bool, i: nat, j: nat)
    requires i <= j < |states| && forall k :: i <= k < j ==> R(states[k], states[k + 1])
    requires forall s :: R(s, s)
    requires forall s, s', s'' :: R(s, s') && R(s', s'') ==> R(s, s'')
    ensures R(states[i], states[j])
    decreases j
  {
    if i < j {
      OverDistance(states, R, i, j - 1);
      assert R(states[j - 1], states[j - 1 + 1]);
    }
  }

  ghost function Extension(): (State, State) -> bool { (s, s') => Extends(s, s') }

  lemma RunExtends(states: seq<State>, events: seq<Event>, i: nat, j: nat)
    requires Run(states, events) && i <= j < |states|
    ensures Extends(states[i], states[j])
  {
    forall k | i <= k < j ensures Extension()(states[k], states[k + 1]) {
      NextExtends(states, events, k);
    }
    ExtensionIsOrder();
    OverDistance(states, Extension(), i, j);
  }

  lemma ExtensionIsOrder()
    ensures forall s :: Extension()(s, s)
    ensures forall s, s', s'' :: Extension()(s, s') && Extension()(s', s'') ==> Extension()(s, s'')
  {
    forall s, s', s'' | Extension()(s, s') && Extension()(s', s'') ensures Extension()(s, s'') {
      ExtendsTransitive(s, s', s'');
    }
  }

  // ---------- where everything comes from ----------

  /** Event j is the announcement of intent t. */
  ghost predicate IsAnnouncement(states: seq<State>, events: seq<Event>, j: nat, t: int)
    requires |states| == |events| + 1
  {
    j < |events| && events[j].Announce? && states[j].nextTrid == t
  }

  /** Whatever state s knows about intent t is what announcement e said, when the ledger had at rows: the
      request, the intent document, the payment on its way to the slot, and the payment in the slot. */
  ghost predicate Tells(s: State, t: int, e: Event, at: nat)
    requires e.Announce?
  {
    && 0 <= t < s.nextTrid && e.entry.sender.Account?
    && t in s.requests && s.requests[t] == Request(e.entry, at)
    && (t in s.intents ==> s.intents[t] == Intent(e.entry.sender.id, e.time))
    && (t in s.arriving ==> s.arriving[t] == Arrival(e.worker, e.entry))
    && (forall id :: id in s.slots && s.slots[id].trid == t ==>
          s.slots[id].entry == e.entry && id.worker == e.worker)
  }

  lemma AnnouncementTells(s: State, e: Event)
    requires Basic(s) && e.Announce? && Enabled(s, e)
    ensures Tells(Apply(s, e), s.nextTrid, e, |s.ledger|)
  {
  }

  lemma CreationTells(s: State, e: Event, t: int, a: Event, at: nat)
    requires a.Announce? && Tells(s, t, a, at) && Enabled(s, e) && (e.Announce? || e.Enqueue?)
    ensures Tells(Apply(s, e), t, a, at)
  {
  }

  lemma FinishTells(s: State, c: nat, answer: Answer, t: int, a: Event, at: nat)
    requires a.Announce? && Tells(s, t, a, at) && c in s.chains
    ensures Tells(Finish(s, c, answer), t, a, at)
  {
  }

  lemma DecisionTells(s: State, c: nat, t: int, a: Event, at: nat)
    requires a.Announce? && Tells(s, t, a, at) && Enabled(s, Decide(c))
    ensures Tells(Apply(s, Decide(c)), t, a, at)
  {
    var p := s.chains[c].phase;
    FinishTells(s, c, NoMoney, t, a, at);
    assert Apply(s, Decide(c))
        == if Computed(p.seen) - p.pe.entry.sent < 0.0 then Refuse(s, c) else Advance(s, c, Writing(p.pe));
  }

  lemma LookupTells(s: State, e: Event, t: int, a: Event, at: nat)
    requires a.Announce? && Tells(s, t, a, at) && Enabled(s, e) && (e.Evaluate? || e.Callback?)
    ensures Tells(Apply(s, e), t, a, at)
  {
  }

  lemma OtherTells(s: State, e: Event, t: int, a: Event, at: nat)
    requires a.Announce? && Tells(s, t, a, at) && Enabled(s, e)
    requires !(e.Announce? || e.Enqueue? || e.Decide? || e.Acknowledge? || e.Evaluate? || e.Callback?)
    ensures Tells(Apply(s, e), t, a, at)
  {
  }

  lemma StepTells(s: State, e: Event, t: int, a: Event, at: nat)
    requires a.Announce? && Tells(s, t, a, at) && Enabled(s, e)
    ensures Tells(Apply(s, e), t, a, at)
  {
    if e.Announce? || e.Enqueue? {
      CreationTells(s, e, t, a, at);
    } else if e.Decide? {
      DecisionTells(s, e.chain, t, a, at);
    } else if e.Acknowledge? {
      FinishTells(s, e.chain, Ok, t, a, at);
    } else if e.Evaluate? || e.Callback? {
      LookupTells(s, e, t, a, at);
    } else {
      OtherTells(s, e, t, a, at);
    }
  }

  /** What a run knows about a payment, at any later time and on whatever worker, is what was announced. */
  lemma RunTells(states: seq<State>, events: seq<Event>, j: nat, i: nat)
    requires Run(states, events) && j < i < |states| && events[j].Announce?
    ensures Tells(states[i], states[j].nextTrid, events[j], |states[j].ledger|)
  {
    RunInv(states, events, j);
    AnnouncementTells(states[j], events[j]);
    var t, a, at := states[j].nextTrid, events[j], |states[j].ledger|;
    var P := s => Tells(s, t, a, at);
    forall s, e | P(s) && Enabled(s, e) && Disciplined(s, e) ensures P(Apply(s, e)) {
      StepTells(s, e, t, a, at);
    }
    Along(states, events, P, e => true, j + 1, i);
  }

  lemma NextTrid(s: State, e: Event)
    requires Enabled(s, e) && Disciplined(s, e)
    ensures Apply(s, e).nextTrid == if e.Announce? then s.nextTrid + 1 else s.nextTrid
  {
    RowsGrow(s, e);
  }

  /** Every intent has been announced. */
  lemma {:induction false} WasAnnounced(states: seq<State>, events: seq<Event>, i: nat, t: nat) returns (j: nat)
    requires Run(states, events) && i < |states| && t < states[i].nextTrid
    ensures j < i && IsAnnouncement(states, events, j, t)
  {
    TridsStartAtZero(states, events);
    RunNextTrid(states, events, i - 1);
    if t < states[i - 1].nextTrid {
      j := WasAnnounced(states, events, i - 1, t);
    } else {
      j := i - 1;
    }
  }

  lemma TridsStartAtZero(states: seq<State>, events: seq<Event>)
    requires Run(states, events)
    ensures states[0].nextTrid == 0
  {
  }

  lemma RunNextTrid(states: seq<State>, events: seq<Event>, i: nat)
    requires Run(states, events) && i < |events|
    ensures states[i + 1].nextTrid == if events[i].Announce? then states[i].nextTrid + 1 else states[i].nextTrid
  {
    NextTrid(states[i], events[i]);
  }

  /** ... and only once. */
  lemma AnnouncedOnce(states: seq<State>, events: seq<Event>, j: nat, k: nat, t: int)
    requires Run(states, events) && IsAnnouncement(states, events, j, t) && IsAnnouncement(states, events, k, t)
    ensures j == k
  {
    NextTrid(states[j], events[j]);
    NextTrid(states[k], events[k]);
    if j < k {
      RunExtends(states, events, j + 1, k);
    } else if k < j {
      RunExtends(states, events, k + 1, j);
    }
  }

  // ---------- where the rows come from ----------

  predicate Appends(e: Event) { e.Store? || e.Spawn? }

  /** The positions of the events among the first n that append a row. */
  function Appending(events: seq<Event>, n: nat): (at: seq<nat>)
    requires n <= |events|
    ensures forall k :: 0 <= k < |at| ==> at[k] < n && Appends(events[at[k]])
    ensures forall k, l :: 0 <= k < l < |at| ==> at[k] < at[l]
    ensures forall j :: 0 <= j < n && Appends(events[j]) ==> j in at
  {
    if n == 0 then []
    else Appending(events, n - 1) + if Appends(events[n - 1]) then [n - 1] else []
  }

  /** Event e, happening in s, gives this row: a spawn its own entry, a store the entry of the payment whose
      chain it is about. */
  ghost predicate GivesRow(s: State, e: Event, row: Entry, origin: int) {
    match e
    case Spawn(entry) => row == entry && origin == -1
    case Store(c) => c in s.chains && origin == s.chains[c].trid
    case _ => false
  }

  lemma StoreGivesRow(s: State, c: nat)
    requires Identity(s) && Enabled(s, Store(c))
    ensures var s' := Apply(s, Store(c));
      && |s'.ledger| == |s.ledger| + 1 && |s'.origins| == |s.origins| + 1
      && GivesRow(s, Store(c), s'.ledger[|s.ledger|], s'.origins[|s.origins|])
  {
    assert s.slots[s.chains[c].slot] == s.chains[c].phase.pe;
  }

  lemma NextRow(states: seq<State>, events: seq<Event>, i: nat)
    requires Run(states, events) && i < |events|
    ensures var s, s' := states[i], states[i + 1];
      && |s.origins| == |s.ledger| && s.ledger <= s'.ledger && s.origins <= s'.origins
      && (if Appends(events[i]) then
            && |s'.ledger| == |s.ledger| + 1 == |s'.origins|
            && GivesRow(s, events[i], s'.ledger[|s.ledger|], s'.origins[|s.ledger|])
          else s'.ledger == s.ledger && s'.origins == s.origins)
  {
    RunInv(states, events, i);
    if events[i].Store? {
      StoreGivesRow(states[i], events[i].chain);
    } else {
      RowsGrow(states[i], events[i]);
    }
  }

  /** From position base on, the rows are what the events at these positions give, in this order. */
  ghost predicate RowsFrom(states: seq<State>, events: seq<Event>, at: seq<nat>, base: nat,
                           ledger: seq<Entry>, origins: seq<int>)
    requires |states| == |events| + 1
  {
    && |ledger| == |origins| == base + |at|
    && forall n :: 0 <= n < |at| ==>
         at[n] < |events| && GivesRow(states[at[n]], events[at[n]], ledger[base + n], origins[base + n])
  }

  lemma OneMoreRow(states: seq<State>, events: seq<Event>, at: seq<nat>, base: nat, j: nat,
                   ledger: seq<Entry>, origins: seq<int>, ledger': seq<Entry>, origins': seq<int>)
    requires |states| == |events| + 1 && RowsFrom(states, events, at, base, ledger, origins)
    requires ledger <= ledger' && origins <= origins' && |ledger'| == |ledger| + 1 == |origins'|
    requires j < |events| && GivesRow(states[j], events[j], ledger'[|ledger|], origins'[|ledger|])
    ensures RowsFrom(states, events, at + [j], base, ledger', origins')
  {
  }

  /** The new rows of a run are exactly what its store and spawn events give, one row per event, in their
      order; the older rows stay. */
  lemma {:induction false} RowsComeFromEvents(states: seq<State>, events: seq<Event>, i: nat)
    requires Run(states, events) && i < |states|
    ensures states[0].ledger <= states[i].ledger
    ensures RowsFrom(states, events, Appending(events, i), |states[0].ledger|, states[i].ledger, states[i].origins)
  {
    if i > 0 {
      RowsComeFromEvents(states, events, i - 1);
      NextRow(states, events, i - 1);
      if Appends(events[i - 1]) {
        var s, s' := states[i - 1], states[i];
        OneMoreRow(states, events, Appending(events, i - 1), |states[0].ledger|, i - 1,
          s.ledger, s.origins, s'.ledger, s'.origins);
      }
    } else {
      RunInv(states, events, 0);
    }
  }

  /** The row of a store holds the entry that was announced for its intent. */
  lemma RowWasAnnounced(states: seq<State>, events: seq<Event>, i: nat, k: nat) returns (j: nat)
    requires Run(states, events) && i < |states|
    requires k < |states[i].origins| == |states[i].ledger| && states[i].origins[k] >= 0
    ensures j < i && IsAnnouncement(states, events, j, states[i].origins[k])
    ensures events[j].entry == states[i].ledger[k]
  {
    RunInv(states, events, i);
    assert states[i].origins[k] in states[i].origins;
    j := WasAnnounced(states, events, i, states[i].origins[k]);
    RunTells(states, events, j, i);
  }

  /** A row without an intent that was not there at the beginning is a spawned one. */
  lemma RowWasSpawned(states: seq<State>, events: seq<Event>, i: nat, k: nat) returns (j: nat)
    requires Run(states, events) && i < |states|
    requires |states[0].ledger| <= k < |states[i].origins| == |states[i].ledger| && states[i].origins[k] < 0
    ensures j < i && events[j] == Spawn(states[i].ledger[k])
  {
    RowsComeFromEvents(states, events, i);
    var at := Appending(events, i);
    j := at[k - |states[0].ledger|];
    RunInv(states, events, j);
  }

  // ---------- exactly-once settlement ----------

  /** Row k is the one and only row of intent t, and it holds this entry. */
  ghost predicate OnlyRow(s: State, t: nat, entry: Entry, k: nat) {
    && k < |s.ledger| && |s.origins| == |s.ledger|
    && s.origins[k] == t && s.ledger[k] == entry
    && forall l :: 0 <= l < |s.origins| && l != k ==> s.origins[l] != t
  }

  /** Once a payment is answered, from then on for ever: "ok" means that exactly one row stands for it, with
      the entry that was announced for it, and "nomoney" that there is none, and no second final answer
      contradicts the first. Event a is the payment's announcement. */
  lemma ExactlyOnce(states: seq<State>, events: seq<Event>, i: nat, j: nat, r: Reply) returns (a: nat)
    requires Run(states, events) && i <= j < |states|
    requires r in states[i].replies && r.answer != Failed
    ensures a < i && IsAnnouncement(states, events, a, r.trid)
    ensures r.answer == Ok ==> exists k :: OnlyRow(states[j], r.trid, events[a].entry, k)
    ensures r.answer == NoMoney ==> r.trid !in states[j].origins
    ensures var rs := states[j].replies;
      forall m, n :: 0 <= m < n < |rs| && rs[m].answer != Failed && rs[n].answer != Failed ==> rs[m].trid != rs[n].trid
  {
    RunInv(states, events, i);
    a := WasAnnounced(states, events, i, r.trid);
    RunExtends(states, events, i, j);
    RunInv(states, events, j);
    var s := states[j];
    assert r in s.replies;
    if r.answer == Ok {
      var k := AnnouncedRow(states, events, a, j);
    }
  }

  lemma AnnouncedRow(states: seq<State>, events: seq<Event>, a: nat, j: nat) returns (k: nat)
    requires Run(states, events) && a < j < |states| && events[a].Announce?
    requires states[a].nextTrid in states[j].origins
    ensures OnlyRow(states[j], states[a].nextTrid, events[a].entry, k)
  {
    var s, t := states[j], states[a].nextTrid;
    RunInv(states, events, j);
    RunTells(states, events, a, j);
    k :| 0 <= k < |s.origins| && s.origins[k] == t;
  }

  /** Even without an answer, no intent ever leads to two rows. */
  lemma AtMostOneRow(states: seq<State>, events: seq<Event>, i: nat, k: nat)
    requires Run(states, events) && i < |states|
    requires k < |states[i].origins| == |states[i].ledger| && states[i].origins[k] >= 0
    ensures OnlyRow(states[i], states[i].origins[k], states[i].ledger[k], k)
  {
    RunInv(states, events, i);
  }
}
