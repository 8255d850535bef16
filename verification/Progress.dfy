/** Progress of the settlement protocol while no worker crashes, no intent expires and no database
    call fails (server/api/actions/transactions.js:263-269). */
module Progress {
  import opened Ledger
  import opened Settlement
  import opened SettlementInvariant
  import opened SettlementTheorems

  predicate Smooth(e: Event) {
    !(e.FailSave? || e.Abort? || e.LoseRemoval? || e.Crash? || e.Expire? || e.LateStore? || e.Delete?)
  }

  ghost predicate HasSlot(s: State, t: nat) {
    exists id :: id in s.slots && s.slots[id].trid == t
  }

  /** No slot has lost its intent, no intent is an orphan that blocks its sender. */
  ghost predicate Healthy(s: State) {
    && (forall id :: id in s.slots ==> s.slots[id].trid in s.intents)
    && (forall t :: t in s.arriving ==> t in s.intents)
    && (forall t :: t in s.intents ==> t in s.arriving || t in s.removals || HasSlot(s, t))
  }

  ghost predicate Sane(s: State) { Inv(s) && Healthy(s) }

  /** A stretch of a run without failures. */
  ghost predicate Stretch(states: seq<State>, events: seq<Event>) {
    Steps(states, events) && Sane(states[0]) && forall e :: e in events ==> Smooth(e)
  }

  /** Nothing is under way; payments may be waiting in their slots. */
  ghost predicate Quiet(s: State) {
    s.chains == map[] && s.removals == {} && s.arriving == map[]
  }

  /** A settled payment's slot goes and its removal is requested. */
  lemma FinishHealthy(s: State, c: nat, answer: Answer)
    requires Identity(s) && Healthy(s) && c in s.chains && Busy(s.chains[c].phase)
    ensures Healthy(Finish(s, c, answer))
  {
    var s' := Finish(s, c, answer);
    forall t | t in s'.intents ensures t in s'.arriving || t in s'.removals || HasSlot(s', t) {
      if HasSlot(s, t) && t != s.chains[c].trid {
        var id :| id in s.slots && s.slots[id].trid == t;
        assert id in s'.slots;
      }
    }
  }

  lemma DecisionHealthy(s: State, c: nat)
    requires Identity(s) && Healthy(s) && Enabled(s, Decide(c))
    ensures Healthy(Apply(s, Decide(c)))
  {
    var p := s.chains[c].phase;
    if Computed(p.seen) - p.pe.entry.sent < 0.0 {
      FinishHealthy(s, c, NoMoney);
      SameHealth(Finish(s, c, NoMoney), Refuse(s, c));
      assert Apply(s, Decide(c)) == Refuse(s, c);
    } else {
      SameHealth(s, Advance(s, c, Writing(p.pe)));
      assert Apply(s, Decide(c)) == Advance(s, c, Writing(p.pe));
    }
  }

  lemma EnqueueHealthy(s: State, e: Event)
    requires Inside(s) && Healthy(s) && Enabled(s, e) && e.Enqueue?
    ensures Healthy(Apply(s, e))
  {
    var s' := Apply(s, e);
    forall t | t in s'.intents ensures t in s'.arriving || t in s'.removals || HasSlot(s', t) {
      if t == e.trid {
        assert SlotId(s.arriving[t].worker, s.lengths[s.arriving[t].worker]) in s'.slots;
      } else if HasSlot(s, t) {
        var id :| id in s.slots && s.slots[id].trid == t;
        assert id in s'.slots && s'.slots[id].trid == t;
      }
    }
  }

  lemma RemoveHealthy(s: State, e: Event)
    requires Locking(s) && Healthy(s) && Enabled(s, e) && e.Remove?
    ensures Healthy(Apply(s, e))
  {
    var s' := Apply(s, e);
    forall t | t in s'.intents ensures t in s'.arriving || t in s'.removals || HasSlot(s', t) {
      if HasSlot(s, t) {
        var id :| id in s.slots && s.slots[id].trid == t;
        assert id in s'.slots;
      }
    }
  }

  lemma AnnounceHealthy(s: State, e: Event)
    requires Healthy(s) && Enabled(s, e) && e.Announce?
    ensures Healthy(Apply(s, e))
  {
    var s' := Apply(s, e);
    forall t | t in s'.intents ensures t in s'.arriving || t in s'.removals || HasSlot(s', t) {
      if HasSlot(s, t) {
        var id :| id in s.slots && s.slots[id].trid == t;
        assert id in s'.slots;
      }
    }
  }

  /** The other failure-free steps concern the ledger and the chains only. */
  lemma SameSlots(s: State, e: Event)
    requires Enabled(s, e) && Smooth(e)
    requires !(e.Announce? || e.Enqueue? || e.Remove? || e.Decide? || e.Acknowledge?)
    ensures var s' := Apply(s, e);
      s'.intents == s.intents && s'.slots == s.slots && s'.arriving == s.arriving && s'.removals == s.removals
      && s'.lengths == s.lengths
  {
    if e.Evaluate? || e.Callback? {
      LookupKeepsSlots(s, e);
    } else if e.Read? || e.Store? {
      LedgerKeepsSlots(s, e);
    }
  }

  lemma LookupKeepsSlots(s: State, e: Event)
    requires Enabled(s, e) && (e.Evaluate? || e.Callback?)
    ensures Apply(s, e) == s.(chains := Apply(s, e).chains)
  {
  }

  lemma LedgerKeepsSlots(s: State, e: Event)
    requires Enabled(s, e) && (e.Read? || e.Store?)
    ensures var s' := Apply(s, e); s' == s.(chains := s'.chains, ledger := s'.ledger, origins := s'.origins)
  {
  }

  lemma SameHealth(s: State, s': State)
    requires Healthy(s)
    requires s'.intents == s.intents && s'.slots == s.slots && s'.arriving == s.arriving && s'.removals == s.removals
    ensures Healthy(s')
  {
    forall t | t in s'.intents ensures t in s'.arriving || t in s'.removals || HasSlot(s', t) {
      if HasSlot(s, t) {
        var id :| id in s.slots && s.slots[id].trid == t;
        assert id in s'.slots;
      }
    }
  }

  lemma StepHealthy(s: State, e: Event)
    requires Inside(s) && Identity(s) && Locking(s) && Healthy(s)
    requires Enabled(s, e) && Disciplined(s, e) && Smooth(e)
    ensures Healthy(Apply(s, e))
  {
    if e.Announce? {
      AnnounceHealthy(s, e);
    } else if e.Enqueue? {
      EnqueueHealthy(s, e);
    } else if e.Remove? {
      RemoveHealthy(s, e);
    } else if e.Decide? {
      DecisionHealthy(s, e.chain);
    } else if e.Acknowledge? {
      FinishHealthy(s, e.chain, Ok);
    } else {
      SameSlots(s, e);
      SameHealth(s, Apply(s, e));
    }
  }

  lemma StepSane(s: State, e: Event)
    requires Sane(s) && Enabled(s, e) && Disciplined(s, e) && Smooth(e)
    ensures Sane(Apply(s, e))
  {
    StepKeepsInv(s, e);
    StepHealthy(s, e);
  }

  ghost function Sanity(): State -> bool { s => Sane(s) }

  function Smoothness(): Event -> bool { e => Smooth(e) }

  lemma SanityPersists()
    ensures Inductive(Sanity(), Smoothness())
  {
    forall s, e | Sane(s) && Smooth(e) && Enabled(s, e) && Disciplined(s, e) ensures Sane(Apply(s, e)) {
      StepSane(s, e);
    }
  }

  lemma StretchSane(states: seq<State>, events: seq<Event>, i: nat)
    requires Stretch(states, events) && i < |states|
    ensures Sane(states[i])
  {
    SanityPersists();
    Along(states, events, Sanity(), Smoothness(), 0, i);
  }

  /** Every failure-free run is a stretch from its first state on. */
  lemma SmoothRunIsStretch(states: seq<State>, events: seq<Event>)
    requires Run(states, events) && forall e :: e in events ==> Smooth(e)
    ensures Stretch(states, events)
  {
    InitialInv(states[0]);
  }

  // ---------- a head that is asked for settles ----------

  /** Payment pe is still in its slot and its intent is its sender's oldest, or the slot is a hole. */
  ghost predicate HeadOrGone(s: State, id: SlotId, pe: Pending) {
    && In(s, id)
    && (id in s.slots ==> s.slots[id] == pe && Head(s, SenderOf(pe.entry), pe.trid))
  }

  /** Chain c works on the slot, or it is a hole. */
  ghost predicate PursuedOrGone(s: State, id: SlotId, c: nat) {
    id in s.slots ==> c in s.chains && s.chains[c].slot == id
  }

  lemma NewIntentIsNoHead(s: State, e: Event, id: SlotId, pe: Pending)
    requires Basic(s) && HeadOrGone(s, id, pe) && Enabled(s, e) && Disciplined(s, e) && e.Announce?
    ensures HeadOrGone(Apply(s, e), id, pe)
  {
  }

  lemma RemovalLeavesHead(s: State, e: Event, id: SlotId, pe: Pending)
    requires Locking(s) && HeadOrGone(s, id, pe) && Enabled(s, e) && e.Remove?
    ensures HeadOrGone(Apply(s, e), id, pe)
  {
  }

  lemma SlotChangeLeavesHead(s: State, e: Event, id: SlotId, pe: Pending)
    requires HeadOrGone(s, id, pe) && Enabled(s, e) && (e.Enqueue? || e.Decide? || e.Acknowledge?)
    ensures HeadOrGone(Apply(s, e), id, pe)
  {
  }

  lemma StepHeadOrGone(s: State, e: Event, id: SlotId, pe: Pending)
    requires Basic(s) && Locking(s) && HeadOrGone(s, id, pe)
    requires Enabled(s, e) && Disciplined(s, e) && Smooth(e)
    ensures HeadOrGone(Apply(s, e), id, pe)
  {
    if e.Announce? {
      NewIntentIsNoHead(s, e, id, pe);
    } else if e.Remove? {
      RemovalLeavesHead(s, e, id, pe);
    } else if e.Enqueue? || e.Decide? || e.Acknowledge? {
      SlotChangeLeavesHead(s, e, id, pe);
    } else {
      SameSlots(s, e);
    }
  }

  /** Intent times are strictly increasing, so the oldest intent is unique: a head is not denied. */
  lemma OldestIsUnique(s: State, a: nat, t: nat, first: int)
    requires Locking(s) && Head(s, a, t) && IsOldest(s.intents, a, first)
    ensures first == t
  {
  }

  lemma EvaluatedChainStays(s: State, e: Event, id: SlotId, pe: Pending, c: nat)
    requires Identity(s) && Locking(s) && HeadOrGone(s, id, pe) && id in s.slots && e.Evaluate? && Enabled(s, e)
    requires c in s.chains && s.chains[c].slot == id
    ensures c in Apply(s, e).chains && Apply(s, e).chains[c].slot == id
  {
    if e.chain == c {
      OldestIsUnique(s, SenderOf(pe.entry), pe.trid, e.first);
    }
  }

  /** A callback ends its chain only at a hole. */
  lemma CallbackChainStays(s: State, e: Event, c: nat)
    requires Enabled(s, e) && e.Callback?
    requires c in s.chains && s.chains[c].slot in s.slots
    ensures c in Apply(s, e).chains && Apply(s, e).chains[c].slot == s.chains[c].slot
  {
  }

  /** A refusal or acknowledgement ends its chain only with its slot. */
  lemma FinishedChainStays(s: State, d: nat, answer: Answer, c: nat)
    requires c in s.chains && d in s.chains && s.chains[c].slot in Finish(s, d, answer).slots
    ensures c in Finish(s, d, answer).chains && Finish(s, d, answer).chains[c].slot == s.chains[c].slot
  {
  }

  lemma FinishedOrAdvanced(s: State, e: Event)
    requires Enabled(s, e) && (e.Decide? || e.Acknowledge?)
    ensures var s', f := Apply(s, e), Finish(s, e.chain, Ok);
      || (s'.slots == f.slots && s'.chains == f.chains)
      || (s'.slots == s.slots && exists p :: s'.chains == Advance(s, e.chain, p).chains)
  {
  }

  lemma OtherChainsStay(s: State, e: Event, c: nat)
    requires Enabled(s, e) && Smooth(e) && !(e.Evaluate? || e.Callback? || e.Decide? || e.Acknowledge?)
    requires c in s.chains && c < s.nextChain
    ensures c in Apply(s, e).chains && Apply(s, e).chains[c].slot == s.chains[c].slot
  {
  }

  lemma StepChainStays(s: State, e: Event, id: SlotId, pe: Pending, c: nat)
    requires Identity(s) && Locking(s) && HeadOrGone(s, id, pe) && id in s.slots
    requires Enabled(s, e) && Smooth(e) && id in Apply(s, e).slots
    requires c in s.chains && c < s.nextChain && s.chains[c].slot == id
    ensures c in Apply(s, e).chains && Apply(s, e).chains[c].slot == id
  {
    if e.Evaluate? {
      EvaluatedChainStays(s, e, id, pe, c);
    } else if e.Callback? {
      CallbackChainStays(s, e, c);
    } else if e.Decide? || e.Acknowledge? {
      FinishedOrAdvanced(s, e);
      if Apply(s, e).slots == Finish(s, e.chain, Ok).slots {
        FinishedChainStays(s, e.chain, Ok, c);
      }
    } else {
      OtherChainsStay(s, e, c);
    }
  }

  lemma StepStaysGone(s: State, e: Event, id: SlotId)
    requires Enabled(s, e) && Smooth(e) && In(s, id) && id !in s.slots
    ensures In(Apply(s, e), id) && id !in Apply(s, e).slots
  {
  }

  /** Payment pe is its sender's head until it is settled, and chain c, if there is one, works on it. */
  ghost predicate Tracked(s: State, id: SlotId, pe: Pending, c: int) {
    Sane(s) && HeadOrGone(s, id, pe) && (c >= 0 ==> PursuedOrGone(s, id, c))
  }

  lemma StepTracked(s: State, e: Event, id: SlotId, pe: Pending, c: int)
    requires Tracked(s, id, pe, c) && Enabled(s, e) && Disciplined(s, e) && Smooth(e)
    ensures Tracked(Apply(s, e), id, pe, c)
  {
    StepSane(s, e);
    StepHeadOrGone(s, e, id, pe);
    if id !in s.slots {
      StepStaysGone(s, e, id);
    } else if c >= 0 && id in Apply(s, e).slots {
      StepChainStays(s, e, id, pe, c);
    }
  }

  /** A head stays tracked along any failure-free stretch. */
  lemma StretchTracked(states: seq<State>, events: seq<Event>, id: SlotId, pe: Pending, c: int, k: nat, i: nat)
    requires Stretch(states, events) && k <= i < |states| && Tracked(states[k], id, pe, c)
    ensures Tracked(states[i], id, pe, c)
  {
    var P := s => Tracked(s, id, pe, c);
    forall s, e | P(s) && Smooth(e) && Enabled(s, e) && Disciplined(s, e) ensures P(Apply(s, e)) {
      StepTracked(s, e, id, pe, c);
    }
    Along(states, events, P, e => Smooth(e), k, i);
  }

  /** A query for a head does not end before the head is settled. */
  lemma StretchAsked(states: seq<State>, events: seq<Event>, id: SlotId, pe: Pending, k: nat)
    requires Stretch(states, events) && k < |events| && HeadOrGone(states[0], id, pe) && events[k] == Ask(id)
    ensures Tracked(states[|events|], id, pe, states[k].nextChain)
  {
    StretchTracked(states, events, id, pe, -1, 0, k);
    StepTracked(states[k], events[k], id, pe, -1);
    StretchTracked(states, events, id, pe, states[k].nextChain, k + 1, |events|);
  }

  /** Slot id is empty at the end, or a tick has visited it and the chain that the tick started has ended. */
  ghost predicate Served(states: seq<State>, events: seq<Event>, id: SlotId)
    requires |states| == |events| + 1
  {
    || id !in states[|events|].slots
    || exists k :: 0 <= k < |events| && events[k] == Ask(id) && states[k].nextChain !in states[|events|].chains
  }

  /** A round: every slot that waits at its beginning is served, and the saves and removals of payments
      announced before it are through at its end. It may begin and end at any moment: other chains, new
      payments and their saves and removals may be under way at both ends, and ticks may overlap. */
  ghost predicate Round(states: seq<State>, events: seq<Event>) {
    && Stretch(states, events)
    && (forall id :: id in states[0].slots ==> Served(states, events, id))
    && (forall t :: t in states[|events|].arriving ==> t >= states[0].nextTrid)
    && (forall t :: t in states[|events|].removals ==> t >= states[0].nextTrid)
  }

  /** A head that a tick has visited is settled when the chain that the tick started has ended, whatever
      else is under way at both moments. */
  lemma AskedHeadSettles(states: seq<State>, events: seq<Event>, id: SlotId, k: nat)
    requires Stretch(states, events) && id in states[0].slots
    requires var pe := states[0].slots[id]; Head(states[0], SenderOf(pe.entry), pe.trid)
    requires k < |events| && events[k] == Ask(id) && states[k].nextChain !in states[|events|].chains
    ensures id !in states[|events|].slots
  {
    StretchAsked(states, events, id, states[0].slots[id], k);
  }

  /** Every sender's head is settled within one round. */
  lemma RoundSettlesHeads(states: seq<State>, events: seq<Event>, id: SlotId)
    requires Round(states, events) && id in states[0].slots
    requires var pe := states[0].slots[id]; Head(states[0], SenderOf(pe.entry), pe.trid)
    ensures id !in states[|events|].slots
  {
    assert Served(states, events, id);
    if id in states[|events|].slots {
      var k :| 0 <= k < |events| && events[k] == Ask(id) && states[k].nextChain !in states[|events|].chains;
      AskedHeadSettles(states, events, id, k);
    }
  }

  // ---------- queues drain ----------

  /** The payments of sender a that have been announced and are not settled. */
  ghost function Queue(s: State, a: nat): set<nat> {
    set t | t in s.intents && s.intents[t].sender == a && t !in s.removals
  }

  predicate Quieter(e: Event) { Smooth(e) && !e.Announce? }

  /** Nothing but settlement goes on between s and s'. */
  ghost predicate NothingNew(s: State, s': State) {
    s'.nextTrid == s.nextTrid && forall a :: Queue(s', a) <= Queue(s, a)
  }

  lemma StepNothingNew(s: State, e: Event)
    requires Enabled(s, e) && Quieter(e)
    ensures NothingNew(s, Apply(s, e))
  {
    if e.Evaluate? || e.Callback? {
      LookupKeepsSlots(s, e);
    } else if e.Read? || e.Store? {
      LedgerKeepsSlots(s, e);
    } else if e.Decide? || e.Acknowledge? {
      FinishTakesSlots(s, e);
    }
  }

  lemma FinishTakesSlots(s: State, e: Event)
    requires Enabled(s, e) && (e.Decide? || e.Acknowledge?)
    ensures var s' := Apply(s, e); s'.intents == s.intents && s.removals <= s'.removals && s'.nextTrid == s.nextTrid
  {
  }

  /** Intent t has left its worker's callbacks; if it is in a slot, the slot is id. */
  ghost predicate Placed(s: State, t: nat, id: SlotId) {
    && t < s.nextTrid && t !in s.arriving
    && forall j :: j in s.slots && s.slots[j].trid == t ==> j == id
  }

  lemma StepPlaced(s: State, e: Event, t: nat, id: SlotId)
    requires Placed(s, t, id) && Enabled(s, e) && Smooth(e)
    ensures Placed(Apply(s, e), t, id)
  {
    if e.Evaluate? || e.Callback? {
      LookupKeepsSlots(s, e);
    } else if e.Read? || e.Store? {
      LedgerKeepsSlots(s, e);
    }
  }

  lemma StretchPlaced(states: seq<State>, events: seq<Event>, t: nat, id: SlotId)
    requires Stretch(states, events) && Placed(states[0], t, id)
    ensures Placed(states[|events|], t, id)
  {
    var P := s => Placed(s, t, id);
    forall s, e | P(s) && Smooth(e) && Enabled(s, e) && Disciplined(s, e) ensures P(Apply(s, e)) {
      StepPlaced(s, e, t, id);
    }
    Along(states, events, P, e => Smooth(e), 0, |events|);
  }

  lemma StretchNothingNew(states: seq<State>, events: seq<Event>)
    requires Stretch(states, events) && forall e :: e in events ==> Quieter(e)
    ensures NothingNew(states[0], states[|events|])
  {
    var P := s => NothingNew(states[0], s);
    forall s, e | P(s) && Quieter(e) && Enabled(s, e) && Disciplined(s, e) ensures P(Apply(s, e)) {
      StepNothingNew(s, e);
    }
    Along(states, events, P, e => Quieter(e), 0, |events|);
  }

  lemma Cardinality<T>(xs: set<T>, ys: set<T>)
    requires xs <= ys
    ensures |xs| <= |ys|
  {
    if xs != {} {
      var x :| x in xs;
      Cardinality(xs - {x}, ys - {x});
    }
  }

  /** A settled payment has left its queue, once its removal is requested. */
  lemma SettledLeavesQueue(states: seq<State>, events: seq<Event>, id: SlotId)
    requires Round(states, events) && id in states[0].slots && id !in states[|events|].slots
    ensures forall a :: states[0].slots[id].trid !in Queue(states[|events|], a)
  {
    var s, s' := states[0], states[|events|];
    var t := s.slots[id].trid;
    assert Placed(s, t, id);
    StretchPlaced(states, events, t, id);
    StretchSane(states, events, |events|);
    assert !HasSlot(s', t);
  }

  /** Once arrivals have stopped, a round lengthens no queue, and it shortens the queue of every sender
      whose oldest intent waits in a slot. */
  lemma RoundShortensQueue(states: seq<State>, events: seq<Event>, a: nat)
    requires Round(states, events) && forall e :: e in events ==> Quieter(e)
    ensures Queue(states[|events|], a) <= Queue(states[0], a)
    ensures forall id :: IsHeadSlot(states[0], a, id) ==> |Queue(states[|events|], a)| < |Queue(states[0], a)|
  {
    StretchNothingNew(states, events);
    var q, q' := Queue(states[0], a), Queue(states[|events|], a);
    forall id | IsHeadSlot(states[0], a, id) ensures |q'| < |q| {
      var t := states[0].slots[id].trid;
      RoundSettlesHeads(states, events, id);
      SettledLeavesQueue(states, events, id);
      assert t in q && t !in q';
      Cardinality(q', q - {t});
    }
  }

  ghost predicate IsHeadSlot(s: State, a: nat, id: SlotId) {
    id in s.slots && SenderOf(s.slots[id].entry) == a && Head(s, a, s.slots[id].trid)
  }

  /** No save and no removal is under way; chains may be. */
  ghost predicate Clear(s: State) {
    s.arriving == map[] && s.removals == {}
  }

  lemma RoundClears(states: seq<State>, events: seq<Event>)
    requires Round(states, events) && forall e :: e in events ==> Quieter(e)
    ensures Clear(states[|events|])
  {
    StretchNothingNew(states, events);
    StretchSane(states, events, |events|);
  }

  /** The oldest intent of a sender exists, and if no save or removal is under way it has a slot. */
  lemma FindHead(s: State, a: nat, t: nat) returns (id: SlotId)
    requires Sane(s) && Clear(s) && t in s.intents && s.intents[t].sender == a
    ensures IsHeadSlot(s, a, id)
    decreases t
  {
    if u: nat :| u < t && u in s.intents && s.intents[u].sender == a {
      id := FindHead(s, a, u);
    } else {
      assert HasSlot(s, t);
      id :| id in s.slots && s.slots[id].trid == t;
      assert GoodEntry(s, t, s.slots[id].entry);
    }
  }

  ghost predicate LinkedByRound(q: State, q': State) {
    exists states, events :: Round(states, events) && (forall e :: e in events ==> Quieter(e))
      && states[0] == q && states[|events|] == q'
  }

  lemma LinkClears(q: State, q': State, a: nat)
    requires LinkedByRound(q, q')
    ensures Clear(q') && Sane(q') && |Queue(q', a)| <= |Queue(q, a)|
    ensures Clear(q) && Queue(q, a) != {} ==> |Queue(q', a)| < |Queue(q, a)|
  {
    var states, events :| Round(states, events) && (forall e :: e in events ==> Quieter(e))
      && states[0] == q && states[|events|] == q';
    RoundClears(states, events);
    StretchSane(states, events, |events|);
    RoundShortensQueue(states, events, a);
    Cardinality(Queue(q', a), Queue(q, a));
    if Clear(q) && Queue(q, a) != {} {
      var t :| t in Queue(q, a);
      var id := FindHead(q, a, t);
    }
  }

  /** No queue is longer than n. */
  ghost predicate Longest(s: State, n: int) {
    forall a :: |Queue(s, a)| <= n
  }

  lemma NobodyWaits(s: State)
    requires Sane(s) && Clear(s) && Longest(s, 0)
    ensures s.intents == map[] && s.slots == map[]
  {
    forall a ensures Queue(s, a) == {} {
      assert |Queue(s, a)| <= 0;
    }
    assert forall t :: t in s.intents ==> t in Queue(s, s.intents[t].sender);
  }

  lemma LinkLengthensNone(q: State, q': State, n: int)
    requires LinkedByRound(q, q') && Longest(q, n)
    ensures Sane(q') && Clear(q') && Longest(q', n)
  {
    LinkClears(q, q', 0);
    forall a ensures |Queue(q', a)| <= n {
      LinkClears(q, q', a);
      assert |Queue(q, a)| <= n;
    }
  }

  /** No save or removal is under way, and no queue is longer than n. */
  ghost predicate AtMost(s: State, n: nat) {
    Sane(s) && Clear(s) && Longest(s, n)
  }

  lemma LinkCounts(q: State, q': State, n: nat)
    requires LinkedByRound(q, q') && AtMost(q, n) && n > 0
    ensures AtMost(q', n - 1)
  {
    LinkLengthensNone(q, q', n);
    forall a ensures |Queue(q', a)| <= n - 1 {
      LinkClears(q, q', a);
      assert |Queue(q, a)| <= n;
    }
  }

  /** A quantity that every link lowers is 0 after so many links. */
  lemma {:induction false} Countdown(
    bounds: seq<State>, n: nat, linked: (State, State) -> bool, atMost: (State, nat) -> bool)
    requires |bounds| == n + 1 && atMost(bounds[0], n)
    requires forall i :: 0 <= i < n ==> linked(bounds[i], bounds[i + 1])
    requires forall q, q', m: nat :: linked(q, q') && atMost(q, m) && m > 0 ==> atMost(q', m - 1)
    ensures atMost(bounds[n], 0)
  {
    if n > 0 {
      assert linked(bounds[0], bounds[0 + 1]);
      Countdown(bounds[1..], n - 1, linked, atMost);
    }
  }

  ghost function Link(): (State, State) -> bool { (q, q') => LinkedByRound(q, q') }

  ghost function Bound(): (State, nat) -> bool { (s: State, n: nat) => AtMost(s, n) }

  lemma LinksCountDown()
    ensures forall q, q', m: nat :: Link()(q, q') && Bound()(q, m) && m > 0 ==> Bound()(q', m - 1)
  {
    forall q, q', m: nat | Link()(q, q') && Bound()(q, m) && m > 0 ensures Bound()(q', m - 1) {
      LinkCounts(q, q', m);
    }
  }

  lemma ClearQueuesDrain(bounds: seq<State>, n: nat)
    requires |bounds| == n + 1 && Bound()(bounds[0], n)
    requires forall i :: 0 <= i < n ==> Link()(bounds[i], bounds[i + 1])
    ensures bounds[n].intents == map[] && bounds[n].slots == map[]
  {
    LinksCountDown();
    Countdown(bounds, n, Link(), Bound());
    NobodyWaits(bounds[n]);
  }

  /** Once arrivals have stopped, at whatever moment, every payment is settled and removed after one round
      more than the longest queue is long; the first one finishes saves and removals that were under way. */
  lemma QueuesDrain(bounds: seq<State>, n: nat)
    requires |bounds| == n + 2 && Longest(bounds[0], n)
    requires forall i :: 0 <= i <= n ==> LinkedByRound(bounds[i], bounds[i + 1])
    ensures bounds[n + 1].intents == map[] && bounds[n + 1].slots == map[]
  {
    assert LinkedByRound(bounds[0], bounds[0 + 1]);
    LinkLengthensNone(bounds[0], bounds[1], n);
    var rest := bounds[1..];
    forall i | 0 <= i < n ensures Link()(rest[i], rest[i + 1]) {
      assert LinkedByRound(bounds[i + 1], bounds[i + 1 + 1]);
    }
    ClearQueuesDrain(rest, n);
  }

  // ---------- no deadlock ----------

  /** s' can be reached from s without failures and without new payments. */
  ghost predicate Reaches(s: State, s': State) {
    exists states, events :: Steps(states, events) && (forall e :: e in events ==> Quieter(e))
      && states[0] == s && states[|events|] == s'
  }

  lemma ReachesItself(s: State)
    ensures Reaches(s, s)
  {
    var states, events: seq<Event> := [s], [];
    assert Steps(states, events);
  }

  lemma ReachesOn(s: State, s': State, e: Event)
    requires Reaches(s, s') && Enabled(s', e) && Disciplined(s', e) && Quieter(e)
    ensures Reaches(s, Apply(s', e))
  {
    var states, events :| Steps(states, events) && (forall f :: f in events ==> Quieter(f))
      && states[0] == s && states[|events|] == s';
    StepsOn(states, events, e);
    assert Steps(states + [Apply(s', e)], events + [e]);
  }

  /** State s with one chain for the payment in slot id, in phase p. */
  function With(s: State, id: SlotId, p: Phase): State
    requires id in s.slots
  {
    var pe := s.slots[id];
    s.(chains := map[s.nextChain := Chain(id, pe.trid, SenderOf(pe.entry), p)], nextChain := s.nextChain + 1)
  }

  lemma HeadIsGranted(s: State, id: SlotId)
    requires s.chains == map[] && id in s.slots && Head(s, SenderOf(s.slots[id].entry), s.slots[id].trid)
    ensures Reaches(s, With(s, id, Granted))
  {
    var c, t := s.nextChain, s.slots[id].trid;
    ReachesItself(s);
    ReachesOn(s, s, Ask(id));
    assert Apply(s, Ask(id)) == With(s, id, Asked);
    ReachesOn(s, With(s, id, Asked), Evaluate(c, t));
    assert Apply(With(s, id, Asked), Evaluate(c, t)) == With(s, id, Granted);
  }

  lemma CallbackReads(s: State, id: SlotId)
    requires id in s.slots && s.chains == map[] && Reaches(s, With(s, id, Granted))
    ensures Reaches(s, With(s, id, Reading(s.slots[id], map[], 0)))
  {
    ReachesOn(s, With(s, id, Granted), Callback(s.nextChain));
    assert Apply(With(s, id, Granted), Callback(s.nextChain)) == With(s, id, Reading(s.slots[id], map[], 0));
  }

  lemma ReadIs(s: State, id: SlotId, p: Phase, g: Aggregate)
    requires id in s.slots && p.Reading? && g !in p.seen
    ensures var a := With(s, id, p);
      && Enabled(a, Read(s.nextChain, g))
      && Apply(a, Read(s.nextChain, g)) == With(s, id, Observe(p, g, s.ledger, SenderOf(p.pe.entry)))
  {
  }

  lemma ReadsOn(s: State, id: SlotId, p: Phase, g: Aggregate) returns (q: Phase)
    requires id in s.slots && p.Reading? && g !in p.seen && Reaches(s, With(s, id, p))
    ensures q.Reading? && q.pe == p.pe && q.seen == p.seen[g := Total(s.ledger, g, SenderOf(p.pe.entry))]
    ensures Reaches(s, With(s, id, q))
  {
    q := Observe(p, g, s.ledger, SenderOf(p.pe.entry));
    ReadIs(s, id, p, g);
    ReachesOn(s, With(s, id, p), Read(s.nextChain, g));
  }

  /** The results of the three aggregations on one ledger. */
  lemma AllRead(seen: map<Aggregate, real>, l: seq<Entry>, a: nat)
    requires seen == map[Income := Total(l, Income, a), Payments := Total(l, Payments, a), TaxIncome := Total(l, TaxIncome, a)]
    ensures seen.Keys == {Income, Payments, TaxIncome}
    ensures Computed(seen) == Balance(l, a)
    ensures forall g :: g in seen ==> seen[g] == Total(l, g, a)
  {
  }

  lemma ReadsAll(s: State, id: SlotId) returns (p: Phase)
    requires id in s.slots && Reaches(s, With(s, id, Reading(s.slots[id], map[], 0)))
    ensures p.Reading? && p.pe == s.slots[id] && p.seen.Keys == {Income, Payments, TaxIncome}
    ensures forall g :: g in p.seen ==> p.seen[g] == Total(s.ledger, g, SenderOf(p.pe.entry))
    ensures Reaches(s, With(s, id, p))
  {
    var p1 := ReadsOn(s, id, Reading(s.slots[id], map[], 0), Income);
    var p2 := ReadsOn(s, id, p1, Payments);
    p := ReadsOn(s, id, p2, TaxIncome);
    AllRead(p.seen, s.ledger, SenderOf(p.pe.entry));
  }

  lemma HeadCanRead(s: State, id: SlotId) returns (p: Phase)
    requires s.chains == map[] && id in s.slots && Head(s, SenderOf(s.slots[id].entry), s.slots[id].trid)
    ensures p.Reading? && p.pe == s.slots[id] && p.seen.Keys == {Income, Payments, TaxIncome}
    ensures forall g :: g in p.seen ==> p.seen[g] == Total(s.ledger, g, SenderOf(p.pe.entry))
    ensures Reaches(s, With(s, id, p))
  {
    HeadIsGranted(s, id);
    CallbackReads(s, id);
    p := ReadsAll(s, id);
  }

  /** An accepted payment is written and acknowledged. */
  lemma WriteSettles(s: State, id: SlotId) returns (s': State)
    requires s.removals == {} && id in s.slots && Reaches(s, With(s, id, Writing(s.slots[id])))
    ensures Reaches(s, s')
    ensures s'.chains == map[] && s'.slots == s.slots - {id} && s'.removals == {s.slots[id].trid}
    ensures s'.arriving == s.arriving && s'.intents == s.intents
  {
    var s1 := With(s, id, Writing(s.slots[id]));
    ReachesOn(s, s1, Store(s.nextChain));
    var s2 := Apply(s1, Store(s.nextChain));
    ReachesOn(s, s2, Acknowledge(s.nextChain));
    s' := Apply(s2, Acknowledge(s.nextChain));
  }

  lemma RefusalSettles(s: State, id: SlotId, p: Phase) returns (s': State)
    requires s.removals == {} && id in s.slots && p.Reading? && p.pe == s.slots[id]
    requires p.seen.Keys == {Income, Payments, TaxIncome} && Reaches(s, With(s, id, p))
    requires Computed(p.seen) - p.pe.entry.sent < 0.0
    ensures Reaches(s, s')
    ensures s'.chains == map[] && s'.slots == s.slots - {id} && s'.removals == {s.slots[id].trid}
    ensures s'.arriving == s.arriving && s'.intents == s.intents
    ensures s'.replies == s.replies + [Reply(s.slots[id].trid, NoMoney)] && s'.origins == s.origins
  {
    ReachesOn(s, With(s, id, p), Decide(s.nextChain));
    s' := Apply(With(s, id, p), Decide(s.nextChain));
  }

  lemma DecisionWrites(s: State, id: SlotId, p: Phase)
    requires id in s.slots && p.Reading? && p.pe == s.slots[id]
    requires p.seen.Keys == {Income, Payments, TaxIncome} && Reaches(s, With(s, id, p))
    requires Computed(p.seen) - p.pe.entry.sent >= 0.0
    ensures Reaches(s, With(s, id, Writing(p.pe)))
  {
    ReachesOn(s, With(s, id, p), Decide(s.nextChain));
    assert Apply(With(s, id, p), Decide(s.nextChain)) == With(s, id, Writing(p.pe));
  }

  lemma DecisionSettles(s: State, id: SlotId, p: Phase) returns (s': State)
    requires s.removals == {} && id in s.slots && p.Reading? && p.pe == s.slots[id]
    requires p.seen.Keys == {Income, Payments, TaxIncome} && Reaches(s, With(s, id, p))
    ensures Reaches(s, s')
    ensures s'.chains == map[] && s'.slots == s.slots - {id} && s'.removals == {s.slots[id].trid}
    ensures s'.arriving == s.arriving && s'.intents == s.intents
  {
    if Computed(p.seen) - p.pe.entry.sent < 0.0 {
      s' := RefusalSettles(s, id, p);
    } else {
      DecisionWrites(s, id, p);
      s' := WriteSettles(s, id);
    }
  }

  /** Whenever nothing is under way, every head can be settled. */
  lemma HeadCanSettle(s: State, id: SlotId) returns (s': State)
    requires Quiet(s) && id in s.slots && Head(s, SenderOf(s.slots[id].entry), s.slots[id].trid)
    ensures Reaches(s, s') && Quiet(s') && s'.slots == s.slots - {id}
    ensures s'.intents == s.intents - {s.slots[id].trid}
  {
    var p := HeadCanRead(s, id);
    s' := DecisionSettles(s, id, p);
    var t := s.slots[id].trid;
    ReachesOn(s, s', Remove(t));
    s' := Apply(s', Remove(t));
  }

  lemma ReachedIsSane(s: State, s': State)
    requires Sane(s) && Reaches(s, s')
    ensures Sane(s')
  {
    var states, events :| Steps(states, events) && (forall e :: e in events ==> Quieter(e))
      && states[0] == s && states[|events|] == s';
    StretchSane(states, events, |events|);
  }

  lemma ReachesTransitive(s: State, s': State, s'': State)
    requires Reaches(s, s') && Reaches(s', s'')
    ensures Reaches(s, s'')
  {
    var states, events :| Steps(states, events) && (forall e :: e in events ==> Quieter(e))
      && states[0] == s' && states[|events|] == s'';
    for i := 0 to |events|
      invariant Reaches(s, states[i])
    {
      ReachesOn(s, states[i], events[i]);
    }
  }

  /** From every quiet moment, all waiting payments can be settled: there is no deadlock. */
  lemma {:induction false} AllCanSettle(s: State) returns (s': State)
    requires Sane(s) && Quiet(s)
    ensures Reaches(s, s') && Quiet(s') && s'.slots == map[]
    decreases |s.slots|
  {
    if id :| id in s.slots {
      var a := SenderOf(s.slots[id].entry);
      assert GoodEntry(s, s.slots[id].trid, s.slots[id].entry) && s.slots[id].trid in s.intents;
      var head := FindHead(s, a, s.slots[id].trid);
      var s1 := HeadCanSettle(s, head);
      ReachedIsSane(s, s1);
      Fewer(s.slots, head);
      s' := AllCanSettle(s1);
      ReachesTransitive(s, s1, s');
    } else {
      ReachesItself(s);
      s' := s;
    }
  }

  // From any state to a quiet one.

  /** How many steps a chain may still take. */
  function Rank(p: Phase): nat {
    match p
    case Asked => 7
    case Granted => 6
    case Reading(_, seen, _) =>
      2 + (if Income in seen then 0 else 1) + (if Payments in seen then 0 else 1) + (if TaxIncome in seen then 0 else 1)
    case Writing(_) => 1
    case Written(_) => 0
  }

  /** Chain c can go on without breaking A1. */
  ghost predicate Unhindered(s: State, c: nat) {
    c in s.chains && (Busy(s.chains[c].phase) || forall d :: d in s.chains ==> !Busy(s.chains[d].phase))
  }

  /** Some intent of the sender is the oldest, or there is none. */
  lemma OldestExists(intents: map<nat, Intent>, a: nat) returns (first: int)
    ensures IsOldest(intents, a, first)
  {
    first := -1;
    var rest := intents.Keys;
    while rest != {}
      invariant rest <= intents.Keys
      invariant first >= 0 ==> first in intents && first !in rest && intents[first].sender == a
      invariant forall t :: t in intents.Keys - rest && intents[t].sender == a ==>
                  first >= 0 && intents[first].time <= intents[t].time
      decreases |rest|
    {
      var t :| t in rest;
      if intents[t].sender == a && (first < 0 || intents[t].time < intents[first].time) {
        first := t;
      }
      rest := rest - {t};
    }
  }

  /** The event moves chain c on or ends it, and leaves all other chains alone. */
  ghost predicate MovesOn(s: State, c: nat, s': State)
    requires c in s.chains
  {
    && s'.arriving == s.arriving && s'.lengths == s.lengths
    && (s'.chains == s.chains - {c}
        || exists p :: Rank(p) < Rank(s.chains[c].phase) && (Busy(s.chains[c].phase) ==> Busy(p))
             && s'.chains == s.chains[c := s.chains[c].(phase := p)])
  }

  lemma AskedMoves(s: State, c: nat) returns (e: Event)
    requires Unhindered(s, c) && s.chains[c].phase.Asked?
    ensures Enabled(s, e) && Disciplined(s, e) && Quieter(e) && MovesOn(s, c, Apply(s, e))
  {
    var first := OldestExists(s.intents, s.chains[c].sender);
    e := Evaluate(c, first);
    assert Rank(Granted) < Rank(s.chains[c].phase);
    assert Apply(s, e) == if first == s.chains[c].trid then Advance(s, c, Granted) else EndChain(s, c);
  }

  lemma GrantedMoves(s: State, c: nat) returns (e: Event)
    requires Unhindered(s, c) && s.chains[c].phase.Granted?
    ensures Enabled(s, e) && Disciplined(s, e) && Quieter(e) && MovesOn(s, c, Apply(s, e))
  {
    e := Callback(c);
    var id := s.chains[c].slot;
    if id in s.slots {
      var p := Reading(s.slots[id], map[], 0);
      assert Rank(p) < Rank(s.chains[c].phase);
      assert Apply(s, e) == Advance(s, c, p);
    }
  }

  lemma ReadingMoves(s: State, c: nat) returns (e: Event)
    requires Unhindered(s, c) && s.chains[c].phase.Reading?
    ensures Enabled(s, e) && Disciplined(s, e) && Quieter(e) && MovesOn(s, c, Apply(s, e))
  {
    var p := s.chains[c].phase;
    if g :| g in {Income, Payments, TaxIncome} && g !in p.seen {
      e := Read(c, g);
      var q := Observe(p, g, s.ledger, SenderOf(p.pe.entry));
      assert Rank(q) < Rank(p);
      assert Apply(s, e) == Advance(s, c, q);
    } else {
      AllAggregates(p.seen);
      e := DecisionMoves(s, c);
    }
  }

  lemma AllAggregates(seen: map<Aggregate, real>)
    requires forall g :: g in {Income, Payments, TaxIncome} ==> g in seen
    ensures seen.Keys == {Income, Payments, TaxIncome}
  {
    forall g | g in seen.Keys ensures g in {Income, Payments, TaxIncome} {
      assert g.Income? || g.Payments? || g.TaxIncome?;
    }
  }

  lemma DecisionMoves(s: State, c: nat) returns (e: Event)
    requires c in s.chains && s.chains[c].phase.Reading?
    requires s.chains[c].phase.seen.Keys == {Income, Payments, TaxIncome}
    ensures Enabled(s, e) && Disciplined(s, e) && Quieter(e) && MovesOn(s, c, Apply(s, e))
  {
    e := Decide(c);
    var p := s.chains[c].phase;
    if Computed(p.seen) - p.pe.entry.sent < 0.0 {
      assert Apply(s, e) == Refuse(s, c);
    } else {
      assert Rank(Writing(p.pe)) < Rank(p);
      assert Apply(s, e) == Advance(s, c, Writing(p.pe));
    }
  }

  lemma WritingMoves(s: State, c: nat) returns (e: Event)
    requires Unhindered(s, c) && (s.chains[c].phase.Writing? || s.chains[c].phase.Written?)
    ensures Enabled(s, e) && Disciplined(s, e) && Quieter(e) && MovesOn(s, c, Apply(s, e))
  {
    if s.chains[c].phase.Writing? {
      e := Store(c);
      var p := Written(s.chains[c].phase.pe);
      assert Rank(p) < Rank(s.chains[c].phase);
      assert Apply(s, e).chains == s.chains[c := s.chains[c].(phase := p)];
    } else {
      e := Acknowledge(c);
      assert Apply(s, e) == Finish(s, c, Ok);
    }
  }

  lemma ChainMoves(s: State, c: nat) returns (e: Event)
    requires Unhindered(s, c)
    ensures Enabled(s, e) && Disciplined(s, e) && Quieter(e) && MovesOn(s, c, Apply(s, e))
  {
    match s.chains[c].phase
    case Asked => e := AskedMoves(s, c);
    case Granted => e := GrantedMoves(s, c);
    case Reading(_, _, _) => e := ReadingMoves(s, c);
    case Writing(_) => e := WritingMoves(s, c);
    case Written(_) => e := WritingMoves(s, c);
  }

  lemma ChainCanMove(s0: State, s: State, c: nat) returns (s': State)
    requires Reaches(s0, s) && Unhindered(s, c)
    ensures Reaches(s0, s') && MovesOn(s, c, s')
  {
    var e := ChainMoves(s, c);
    ReachesOn(s0, s, e);
    s' := Apply(s, e);
  }

  lemma MovedIsUnhindered(s: State, c: nat, s': State)
    requires Unhindered(s, c) && MovesOn(s, c, s') && s'.chains != s.chains - {c}
    ensures Unhindered(s', c) && Rank(s'.chains[c].phase) < Rank(s.chains[c].phase)
    ensures s'.chains - {c} == s.chains - {c}
  {
  }

  /** An unhindered chain can run to its end, and nothing else has to move for it. */
  lemma ChainCanEnd(s0: State, s: State, c: nat) returns (s': State)
    requires Reaches(s0, s) && Unhindered(s, c)
    ensures Reaches(s0, s')
    ensures s'.chains == s.chains - {c} && s'.arriving == s.arriving && s'.lengths == s.lengths
    decreases Rank(s.chains[c].phase)
  {
    s' := ChainCanMove(s0, s, c);
    if s'.chains != s.chains - {c} {
      MovedIsUnhindered(s, c, s');
      s' := ChainCanEnd(s0, s', c);
    }
  }

  lemma ChainsCanEnd(s0: State, s: State) returns (s': State)
    requires Reaches(s0, s)
    ensures Reaches(s0, s') && s'.chains == map[] && s'.arriving == s.arriving && s'.lengths == s.lengths
    decreases |s.chains|
  {
    s' := s;
    if c: nat :| c in s.chains {
      if d: nat :| d in s.chains && Busy(s.chains[d].phase) {
        s' := ChainCanEnd(s0, s, d);
        Fewer(s.chains, d);
      } else {
        s' := ChainCanEnd(s0, s, c);
        Fewer(s.chains, c);
      }
      s' := ChainsCanEnd(s0, s');
    }
  }

  lemma SavesCanEnd(s0: State, s: State) returns (s': State)
    requires Reaches(s0, s) && s.chains == map[]
    requires forall t :: t in s.arriving ==> s.arriving[t].worker in s.lengths
    ensures Reaches(s0, s') && s'.chains == map[] && s'.arriving == map[]
    decreases |s.arriving|
  {
    s' := s;
    if t: nat :| t in s.arriving {
      ReachesOn(s0, s, Enqueue(t));
      s' := Apply(s, Enqueue(t));
      Fewer(s.arriving, t);
      s' := SavesCanEnd(s0, s');
    }
  }

  lemma RemovalsCanEnd(s0: State, s: State) returns (s': State)
    requires Reaches(s0, s) && s.chains == map[] && s.arriving == map[]
    ensures Reaches(s0, s') && Quiet(s')
    decreases |s.removals|
  {
    s' := s;
    if t: nat :| t in s.removals {
      ReachesOn(s0, s, Remove(t));
      s' := RemovalsCanEnd(s0, Apply(s, Remove(t)));
    }
  }

  /** Whatever is under way can come to its end. */
  lemma CanBecomeQuiet(s: State) returns (s': State)
    requires Sane(s)
    ensures Reaches(s, s') && Sane(s') && Quiet(s')
  {
    ReachesItself(s);
    var s1 := ChainsCanEnd(s, s);
    var s2 := SavesCanEnd(s, s1);
    s' := RemovalsCanEnd(s, s2);
    ReachedIsSane(s, s');
  }

  // ---------- rounds exist ----------

  lemma AskIsHarmless(s: State, id: SlotId)
    requires id in s.slots
    ensures Enabled(s, Ask(id)) && Disciplined(s, Ask(id)) && Quieter(Ask(id)) && Apply(s, Ask(id)).slots == s.slots
  {
  }

  /** A tick of every worker: all the given slots are asked for. */
  lemma AskEach(s: State, ids: set<SlotId>) returns (states: seq<State>, events: seq<Event>)
    requires ids <= s.slots.Keys
    ensures Steps(states, events) && states[0] == s && states[|events|].slots == s.slots
    ensures forall e :: e in events ==> Quieter(e)
    ensures forall id :: id in ids ==> Ask(id) in events
    decreases |ids|
  {
    if ids == {} {
      states, events := [s], [];
    } else {
      var id :| id in ids;
      states, events := AskEach(s, ids - {id});
      AskIsHarmless(states[|events|], id);
      StepsOn(states, events, Ask(id));
      states, events := states + [Apply(states[|events|], Ask(id))], events + [Ask(id)];
    }
  }

  lemma StepsConcat(states: seq<State>, events: seq<Event>, states': seq<State>, events': seq<Event>)
    requires Steps(states, events) && Steps(states', events') && states[|events|] == states'[0]
    ensures Steps(states + states'[1..], events + events')
  {
    var all, es := states + states'[1..], events + events';
    forall i | 0 <= i < |es|
      ensures Enabled(all[i], es[i]) && Disciplined(all[i], es[i]) && all[i + 1] == Apply(all[i], es[i])
    {
      if i < |events| {
        assert all[i] == states[i] && all[i + 1] == states[i + 1];
      } else {
        var j := i - |events|;
        assert all[i] == states'[j] && all[i + 1] == states'[j + 1] && es[i] == events'[j];
      }
    }
  }

  /** A stretch that asks for every waiting slot and ends quietly is a round. */
  lemma QuietEndIsRound(states: seq<State>, events: seq<Event>)
    requires Stretch(states, events) && Quiet(states[|events|])
    requires forall id :: id in states[0].slots ==> Ask(id) in events
    ensures Round(states, events)
  {
    forall id | id in states[0].slots ensures Served(states, events, id) {
      var k :| 0 <= k < |events| && events[k] == Ask(id);
    }
  }

  /** From every failure-free state, however busy, some round begins that brings no new payments. */
  lemma RoundExists(s: State) returns (states: seq<State>, events: seq<Event>)
    requires Sane(s)
    ensures Round(states, events) && states[0] == s && forall e :: e in events ==> Quieter(e)
  {
    var first, asks := AskEach(s, s.slots.Keys);
    StretchSane(first, asks, |asks|);
    var s' := CanBecomeQuiet(first[|asks|]);
    var rest, others := PathOf(first[|asks|], s');
    StepsConcat(first, asks, rest, others);
    states, events := first + rest[1..], asks + others;
    QuietEndIsRound(states, events);
  }

  lemma PathOf(s: State, s': State) returns (states: seq<State>, events: seq<Event>)
    requires Reaches(s, s')
    ensures Steps(states, events) && (forall e :: e in events ==> Quieter(e))
    ensures states[0] == s && states[|events|] == s'
  {
    states, events :| Steps(states, events) && (forall e :: e in events ==> Quieter(e))
      && states[0] == s && states[|events|] == s';
  }

  /** No deadlock: in a run without failures every state, however busy, can go on without new payments to
      one in which every payment is settled and no intent is left. */
  lemma NoDeadlock(states: seq<State>, events: seq<Event>, i: nat) returns (s': State)
    requires Run(states, events) && i < |states| && forall e :: e in events ==> Smooth(e)
    ensures Reaches(states[i], s') && Quiet(s') && s'.slots == map[] && s'.intents == map[]
  {
    SmoothRunIsStretch(states, events);
    StretchSane(states, events, i);
    s' := SaneCanSettle(states[i]);
  }

  lemma SaneCanSettle(s: State) returns (s': State)
    requires Sane(s)
    ensures Reaches(s, s') && Quiet(s') && s'.slots == map[] && s'.intents == map[]
  {
    var s1 := CanBecomeQuiet(s);
    s' := AllCanSettle(s1);
    ReachesTransitive(s, s1, s');
    ReachedIsSane(s1, s');
    NothingLeft(s');
  }

  lemma NothingLeft(s: State)
    requires Healthy(s) && Quiet(s) && s.slots == map[]
    ensures s.intents == map[]
  {
    assert forall t :: t !in s.intents;
  }

  lemma Fewer<K, V>(m: map<K, V>, k: K)
    requires k in m
    ensures |m - {k}| < |m|
  {
    assert (m - {k}).Keys == m.Keys - {k};
  }
}
