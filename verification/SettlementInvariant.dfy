/** The invariant of disciplined runs of the settlement protocol. */
module SettlementInvariant {
  import opened Ledger
  import opened Settlement

  // ---------- assumptions ----------

  /** (A1) No other chain works on the slot that chain c is about to work on. */
  ghost predicate Uncontested(s: State, c: nat)
    requires c in s.chains
  {
    forall d :: d in s.chains && d != c && s.chains[d].slot == s.chains[c].slot ==> !Busy(s.chains[d].phase)
  }

  /** (A2) A new intent is younger than every pending intent of its sender. */
  ghost predicate Youngest(intents: map<nat, Intent>, sender: nat, time: int) {
    forall t :: t in intents && intents[t].sender == sender ==> intents[t].time < time
  }

  /** The assumptions the code makes about its surroundings, event by event:
      A1 for the permission callback, A2 for new intents, A3 for the TTL and for database calls
      that report an error, A4 for deletions, and amounts that are not negative. */
  ghost predicate Disciplined(s: State, e: Event)
    requires Enabled(s, e)
  {
    match e
    case Announce(w, entry, time) => Sound(entry) && Youngest(s.intents, entry.sender.id, time)
    case Callback(c) => s.chains[c].slot in s.slots ==> Uncontested(s, c)
    case Spawn(entry) => Sound(entry)
    case Abort(c) => !s.chains[c].phase.Written?
    case Expire(t) =>
      forall c :: c in s.chains && s.chains[c].trid == t ==> s.chains[c].phase.Asked? || s.chains[c].phase.Written?
    case LateStore(pe) => false
    case Delete(k) => false
    case _ => true
  }

  // ---------- the invariant ----------

  /** Identifiers are fresh. */
  ghost predicate Basic(s: State) {
    && |s.origins| == |s.ledger|
    && (forall t :: t in s.intents ==> t < s.nextTrid)
    && (forall t :: t in s.requests <==> 0 <= t < s.nextTrid)
    && (forall t :: t in s.requests ==> s.requests[t].at <= |s.ledger|)
    && (forall t :: t in s.arriving ==> t < s.nextTrid)
    && (forall id :: id in s.slots ==> s.slots[id].trid < s.nextTrid)
    && (forall c :: c in s.chains ==> c < s.nextChain && s.chains[c].trid < s.nextTrid)
    && (forall o :: o in s.origins ==> o < s.nextTrid)
    && (forall r :: r in s.replies ==> r.trid < s.nextTrid)
    && (forall t :: t in s.removals ==> t < s.nextTrid)
  }

  predicate In(s: State, id: SlotId) {
    id.worker in s.lengths && id.index < s.lengths[id.worker]
  }

  /** Slots and captured indices lie inside their workers' arrays: push only appends. */
  ghost predicate Inside(s: State) {
    && (forall id :: id in s.slots ==> In(s, id))
    && (forall c :: c in s.chains ==> In(s, s.chains[c].slot))
    && (forall t :: t in s.arriving ==> s.arriving[t].worker in s.lengths)
  }

  ghost predicate GoodEntry(s: State, t: nat, e: Entry) {
    && e.sender.Account? && Sound(e)
    && t in s.requests && s.requests[t].entry == e
    && (t in s.intents ==> s.intents[t].sender == e.sender.id)
  }

  /** A captured slot index denotes the intent it was captured for, or a hole. */
  ghost predicate Identity(s: State) {
    && (forall i, j :: i in s.slots && j in s.slots && s.slots[i].trid == s.slots[j].trid ==> i == j)
    && (forall i :: i in s.slots ==>
          s.slots[i].trid !in s.arriving && GoodEntry(s, s.slots[i].trid, s.slots[i].entry))
    && (forall t :: t in s.arriving ==> GoodEntry(s, t, s.arriving[t].entry))
    && (forall c :: c in s.chains && s.chains[c].slot in s.slots ==>
          && s.slots[s.chains[c].slot].trid == s.chains[c].trid
          && SenderOf(s.slots[s.chains[c].slot].entry) == s.chains[c].sender)
    && (forall c :: c in s.chains && Busy(s.chains[c].phase) ==>
          s.chains[c].slot in s.slots && s.slots[s.chains[c].slot] == s.chains[c].phase.pe)
  }

  ghost predicate Head(s: State, sender: nat, t: nat) {
    t in s.intents && IsOldest(s.intents, sender, t)
  }

  predicate Entitled(p: Phase) { p.Granted? || p.Reading? || p.Writing? }

  /** The lock: a chain past its permission query is about its sender's oldest intent. */
  ghost predicate Locking(s: State) {
    && (forall c, d :: c in s.chains && d in s.chains && c != d && s.chains[c].slot == s.chains[d].slot ==>
          !(Busy(s.chains[c].phase) && Busy(s.chains[d].phase)))
    && (forall t, u :: t in s.intents && u in s.intents && t < u && s.intents[t].sender == s.intents[u].sender ==>
          s.intents[t].time < s.intents[u].time)
    && (forall c :: c in s.chains && Entitled(s.chains[c].phase) && s.chains[c].slot in s.slots ==>
          Head(s, s.chains[c].sender, s.chains[c].trid))
    && (forall id :: id in s.slots ==> s.slots[id].trid !in s.removals)
    && (forall t :: t in s.arriving ==> t !in s.removals)
  }

  ghost predicate HasWriter(s: State, id: SlotId) {
    exists c :: c in s.chains && s.chains[c].slot == id && s.chains[c].phase.Written?
  }

  /** Which intents have led to a row. */
  ghost predicate Origins(s: State) {
    && |s.origins| == |s.ledger|
    && (forall k :: 0 <= k < |s.origins| && s.origins[k] >= 0 ==>
          && s.origins[k] !in s.arriving
          && s.ledger[k].sender.Account?
          && s.origins[k] in s.requests
          && s.requests[s.origins[k]].entry == s.ledger[k] && s.requests[s.origins[k]].at <= k)
    && (forall id :: id in s.slots && s.slots[id].trid in s.origins ==> HasWriter(s, id))
    && (forall c :: c in s.chains && s.chains[c].phase.Written? ==> s.chains[c].trid in s.origins)
    && (forall k, l :: 0 <= k < l < |s.origins| && s.origins[k] >= 0 ==> s.origins[k] != s.origins[l])
  }

  /** One sender's rows are in the order of their intents, and its pending intents come later. */
  ghost predicate Fifo(s: State) {
    && |s.origins| == |s.ledger|
    && (forall k, l :: 0 <= k < l < |s.origins| && 0 <= s.origins[k] && 0 <= s.origins[l] ==>
          s.ledger[k].sender == s.ledger[l].sender ==> s.origins[k] < s.origins[l])
    && (forall k, t :: 0 <= k < |s.origins| && 0 <= s.origins[k] && t in s.intents && t != s.origins[k] ==>
          s.ledger[k].sender == Account(s.intents[t].sender) ==> s.origins[k] < t)
  }

  ghost predicate Settled(s: State, t: nat) {
    t !in s.arriving && forall id :: id in s.slots ==> s.slots[id].trid != t
  }

  /** What the answers given so far mean. */
  ghost predicate Answers(s: State) {
    && (forall r :: r in s.replies && r.answer != Failed ==>
          Settled(s, r.trid) && (r.trid in s.origins <==> r.answer == Ok))
    && (forall i, j :: 0 <= i < j < |s.replies| && s.replies[i].answer != Failed && s.replies[j].answer != Failed ==>
          s.replies[i].trid != s.replies[j].trid)
  }

  /** What a chain has seen lies between the totals at its mark and the totals now. */
  ghost predicate Sandwiched(s: State, p: Phase)
    requires p.Reading?
  {
    p.seen.Keys != {} ==>
      var a := SenderOf(p.pe.entry);
      && p.mark <= |s.ledger|
      && (p.pe.trid in s.requests ==> s.requests[p.pe.trid].at <= p.mark)
      && Total(s.ledger[..p.mark], Payments, a) == Total(s.ledger, Payments, a)
      && forall g :: g in p.seen ==> Total(s.ledger[..p.mark], g, a) <= p.seen[g] <= Total(s.ledger, g, a)
  }

  /** A recorded refusal was right at its mark. */
  ghost predicate RightlyRefused(s: State, r: Refusal) {
    && r.mark <= |s.ledger| && r.trid in s.requests && s.requests[r.trid].entry == r.entry
    && s.requests[r.trid].at <= r.mark
    && r.entry.sender.Account?
    && Balance(s.ledger[..r.mark], r.entry.sender.id) < r.entry.sent
  }

  ghost predicate Money(s: State) {
    && Covered(s.ledger)
    && (forall c :: c in s.chains && s.chains[c].phase.Reading? ==> Sandwiched(s, s.chains[c].phase))
    && (forall c :: c in s.chains && s.chains[c].phase.Writing? ==> Affordable(s.ledger, s.chains[c].phase.pe.entry))
    && (forall r :: r in s.refusals ==> RightlyRefused(s, r))
  }

  ghost predicate Inv(s: State) {
    Basic(s) && Inside(s) && Identity(s) && Locking(s) && Origins(s) && Fifo(s) && Answers(s) && Money(s)
  }

  // ---------- frames: each part of the invariant depends on some fields only ----------

  lemma IdentityFrame(s: State, s': State)
    requires Identity(s)
    requires s'.slots == s.slots && s'.arriving == s.arriving && s'.intents == s.intents && s'.chains == s.chains
    requires s'.requests == s.requests
    ensures Identity(s')
  {
  }

  lemma LockingFrame(s: State, s': State)
    requires Locking(s)
    requires s'.slots == s.slots && s'.arriving == s.arriving && s'.chains == s.chains
    requires s'.removals == s.removals && s'.intents == s.intents
    ensures Locking(s')
  {
  }

  lemma OriginsFrame(s: State, s': State)
    requires Origins(s)
    requires s'.slots == s.slots && s'.arriving == s.arriving && s'.chains == s.chains && s'.requests == s.requests
    requires s'.ledger == s.ledger && s'.origins == s.origins
    ensures Origins(s')
  {
    forall id | id in s'.slots && s'.slots[id].trid in s'.origins ensures HasWriter(s', id) {
      assert HasWriter(s, id);
    }
  }

  lemma FifoFrame(s: State, s': State)
    requires Fifo(s)
    requires s'.ledger == s.ledger && s'.origins == s.origins && s'.intents == s.intents
    ensures Fifo(s')
  {
  }

  lemma AnswersFrame(s: State, s': State)
    requires Answers(s)
    requires s'.slots == s.slots && s'.arriving == s.arriving && s'.replies == s.replies && s'.origins == s.origins
    ensures Answers(s')
  {
  }

  lemma MoneyFrame(s: State, s': State)
    requires Money(s)
    requires s'.ledger == s.ledger && s'.chains == s.chains && s'.requests == s.requests && s'.refusals == s.refusals
    ensures Money(s')
  {
  }

  // ---------- steps that only take away ----------

  ghost predicate Sub<K, V>(m: map<K, V>, n: map<K, V>) {
    forall k :: k in m ==> k in n && m[k] == n[k]
  }

  /** Intents, slots, chains, arrivals or removal requests disappear, nothing appears, except
      that an error may be reported. A writer goes no earlier than its slot, a busy chain no later,
      and no entitled chain loses its intent. */
  ghost predicate Shrinks(s: State, s': State) {
    && s' == s.(intents := s'.intents, arriving := s'.arriving, lengths := s'.lengths, slots := s'.slots,
                chains := s'.chains, limbo := s'.limbo, removals := s'.removals, replies := s'.replies)
    && Sub(s'.intents, s.intents) && Sub(s'.arriving, s.arriving) && Sub(s'.slots, s.slots) && Sub(s'.chains, s.chains)
    && s'.removals <= s.removals
    && (s'.replies == s.replies || exists t: nat :: t < s.nextTrid && s'.replies == s.replies + [Reply(t, Failed)])
    && (forall c :: c in s'.chains && Entitled(s'.chains[c].phase) && s'.chains[c].slot in s'.slots ==>
          s'.chains[c].trid in s.intents ==> s'.chains[c].trid in s'.intents)
    && (forall c :: c in s.chains && s.chains[c].phase.Written? && s.chains[c].slot in s'.slots ==> c in s'.chains)
    && (forall c :: c in s'.chains && Busy(s'.chains[c].phase) ==> s'.chains[c].slot in s'.slots)
  }

  lemma ShrinkBasic(s: State, s': State)
    requires Basic(s) && Shrinks(s, s')
    ensures Basic(s')
  {
  }

  lemma ShrinkIdentity(s: State, s': State)
    requires Identity(s) && Shrinks(s, s')
    ensures Identity(s')
  {
  }

  lemma ShrinkLocking(s: State, s': State)
    requires Locking(s) && Shrinks(s, s')
    ensures Locking(s')
  {
  }

  lemma ShrinkOrigins(s: State, s': State)
    requires Origins(s) && Shrinks(s, s')
    ensures Origins(s')
  {
    forall id | id in s'.slots && s'.slots[id].trid in s'.origins ensures HasWriter(s', id) {
      assert HasWriter(s, id);
    }
  }

  lemma ShrinkFifo(s: State, s': State)
    requires Fifo(s) && Shrinks(s, s')
    ensures Fifo(s')
  {
  }

  lemma ShrinkAnswers(s: State, s': State)
    requires Answers(s) && Shrinks(s, s')
    ensures Answers(s')
  {
  }

  lemma ShrinkMoney(s: State, s': State)
    requires Money(s) && Shrinks(s, s')
    ensures Money(s')
  {
  }

  lemma ShrinkKeeps(s: State, s': State)
    requires Inv(s) && Shrinks(s, s') && Inside(s')
    ensures Inv(s')
  {
    ShrinkBasic(s, s');
    ShrinkIdentity(s, s');
    ShrinkLocking(s, s');
    ShrinkOrigins(s, s');
    ShrinkFifo(s, s');
    ShrinkAnswers(s, s');
    ShrinkMoney(s, s');
  }

  // ---------- steps that move one chain on ----------

  ghost predicate Movable(s: State, c: nat, p: Phase) {
    && c in s.chains && !s.chains[c].phase.Written? && Entitled(p)
    && (s.chains[c].slot in s.slots ==> Head(s, s.chains[c].sender, s.chains[c].trid))
    && (Busy(p) ==> s.chains[c].slot in s.slots && s.slots[s.chains[c].slot] == p.pe && Uncontested(s, c))
    && (p.Reading? ==> Sandwiched(s, p))
    && (p.Writing? ==> Affordable(s.ledger, p.pe.entry))
  }

  lemma MoveOrigins(s: State, c: nat, p: Phase)
    requires Origins(s) && Movable(s, c, p)
    ensures Origins(Advance(s, c, p))
  {
    var s' := Advance(s, c, p);
    forall id | id in s'.slots && s'.slots[id].trid in s'.origins ensures HasWriter(s', id) {
      assert HasWriter(s, id);
      var d :| d in s.chains && s.chains[d].slot == id && s.chains[d].phase.Written?;
      assert d in s'.chains && s'.chains[d] == s.chains[d];
    }
  }

  lemma MoveLocking(s: State, c: nat, p: Phase)
    requires Locking(s) && Movable(s, c, p)
    ensures Locking(Advance(s, c, p))
  {
  }

  lemma MoveIdentity(s: State, c: nat, p: Phase)
    requires Identity(s) && Movable(s, c, p)
    ensures Identity(Advance(s, c, p))
  {
  }

  lemma MoveMoney(s: State, c: nat, p: Phase)
    requires Money(s) && Movable(s, c, p)
    ensures Money(Advance(s, c, p))
  {
  }

  lemma MoveBasic(s: State, c: nat, p: Phase)
    requires Basic(s) && Inside(s) && c in s.chains
    ensures Basic(Advance(s, c, p)) && Inside(Advance(s, c, p))
  {
  }

  lemma MoveKeeps(s: State, c: nat, p: Phase)
    requires Inv(s) && Movable(s, c, p)
    ensures Inv(Advance(s, c, p))
  {
    MoveBasic(s, c, p);
    MoveOrigins(s, c, p);
    MoveLocking(s, c, p);
    MoveIdentity(s, c, p);
    MoveMoney(s, c, p);
    FifoFrame(s, Advance(s, c, p));
    AnswersFrame(s, Advance(s, c, p));
  }

  // ---------- final answers ----------

  /** Intent t without a slot is answered for good and its removal requested. */
  function AnswerFor(s: State, t: nat, a: Answer, refusals: seq<Refusal>): State {
    s.(removals := s.removals + {t}, replies := s.replies + [Reply(t, a)], refusals := refusals)
  }

  lemma AnswerAnswers(s: State, t: nat, a: Answer, refusals: seq<Refusal>)
    requires Answers(s) && a != Failed && Settled(s, t) && (t in s.origins <==> a == Ok)
    requires forall r :: r in s.replies && r.answer != Failed ==> r.trid != t
    ensures Answers(AnswerFor(s, t, a, refusals))
  {
    var s' := AnswerFor(s, t, a, refusals);
    forall r | r in s'.replies && r.answer != Failed
      ensures Settled(s', r.trid) && (r.trid in s'.origins <==> r.answer == Ok)
    {
      assert r in s.replies || r == Reply(t, a);
      assert Settled(s, r.trid);
    }
  }

  lemma AnswerLocking(s: State, t: nat, a: Answer, refusals: seq<Refusal>)
    requires Locking(s) && Settled(s, t)
    ensures Locking(AnswerFor(s, t, a, refusals))
  {
  }

  lemma AnswerMoney(s: State, t: nat, a: Answer, refusals: seq<Refusal>)
    requires Money(s) && forall r :: r in refusals ==> RightlyRefused(s, r)
    ensures Money(AnswerFor(s, t, a, refusals))
  {
  }

  lemma AnswerBasic(s: State, t: nat, a: Answer, refusals: seq<Refusal>)
    requires Basic(s) && Inside(s) && t < s.nextTrid
    ensures Basic(AnswerFor(s, t, a, refusals)) && Inside(AnswerFor(s, t, a, refusals))
  {
  }

  lemma AnswerKeeps(s: State, t: nat, a: Answer, refusals: seq<Refusal>)
    requires Inv(s) && a != Failed && t < s.nextTrid
    requires Settled(s, t) && (t in s.origins <==> a == Ok)
    requires forall r :: r in s.replies && r.answer != Failed ==> r.trid != t
    requires forall r :: r in refusals ==> RightlyRefused(s, r)
    ensures Inv(AnswerFor(s, t, a, refusals))
  {
    var s' := AnswerFor(s, t, a, refusals);
    AnswerBasic(s, t, a, refusals);
    AnswerAnswers(s, t, a, refusals);
    AnswerLocking(s, t, a, refusals);
    AnswerMoney(s, t, a, refusals);
    IdentityFrame(s, s');
    OriginsFrame(s, s');
    FifoFrame(s, s');
  }

  // ---------- mutual exclusion and new rows ----------

  /** At most one chain per sender is between its permission and the end of its write. */
  lemma MutualExclusion(s: State, c: nat, d: nat)
    requires Identity(s) && Locking(s)
    requires c in s.chains && (s.chains[c].phase.Reading? || s.chains[c].phase.Writing?)
    requires d in s.chains && (s.chains[d].phase.Reading? || s.chains[d].phase.Writing?)
    requires s.chains[c].sender == s.chains[d].sender
    ensures c == d
  {
    var t, u := s.chains[c].trid, s.chains[d].trid;
    assert Head(s, s.chains[c].sender, t) && Head(s, s.chains[d].sender, u);
    assert t == u;
  }

  /** What is known when the row of a writing chain is stored. */
  ghost predicate Storable(s: State, c: nat) {
    && c in s.chains && s.chains[c].phase.Writing?
    && var pe := s.chains[c].phase.pe;
    && pe.trid == s.chains[c].trid
    && pe.trid !in s.origins && pe.trid !in s.arriving && pe.trid < s.nextTrid
    && pe.trid in s.requests && s.requests[pe.trid].entry == pe.entry && s.requests[pe.trid].at <= |s.ledger|
    && pe.entry.sender.Account? && Sound(pe.entry) && Affordable(s.ledger, pe.entry)
    && s.chains[c].slot in s.slots && s.slots[s.chains[c].slot] == pe
    && Head(s, pe.entry.sender.id, pe.trid)
    && forall d :: d in s.chains && d != c && (s.chains[d].phase.Reading? || s.chains[d].phase.Writing?) ==>
         SenderOf(s.chains[d].phase.pe.entry) != pe.entry.sender.id
  }

  lemma BusyIsNotStored(s: State, c: nat)
    requires Identity(s) && Locking(s) && Origins(s)
    requires c in s.chains && (s.chains[c].phase.Reading? || s.chains[c].phase.Writing?)
    ensures s.chains[c].trid !in s.origins
  {
    assert !HasWriter(s, s.chains[c].slot);
  }

  lemma WritingIsStorable(s: State, c: nat)
    requires Inv(s) && c in s.chains && s.chains[c].phase.Writing?
    ensures Storable(s, c)
  {
    BusyIsNotStored(s, c);
    var pe := s.chains[c].phase.pe;
    assert s.slots[s.chains[c].slot] == pe;
    assert GoodEntry(s, pe.trid, pe.entry);
    forall d | d in s.chains && d != c && (s.chains[d].phase.Reading? || s.chains[d].phase.Writing?)
      ensures SenderOf(s.chains[d].phase.pe.entry) != pe.entry.sender.id
    {
      if s.chains[d].sender == s.chains[c].sender {
        MutualExclusion(s, c, d);
      }
    }
  }

  function StoreOf(s: State, c: nat): State
    requires c in s.chains && s.chains[c].phase.Writing?
  {
    var pe := s.chains[c].phase.pe;
    Append(Advance(s, c, Written(pe)), pe.entry, pe.trid)
  }

  lemma StoreOrigins(s: State, c: nat)
    requires Identity(s) && Origins(s) && Storable(s, c)
    ensures Origins(StoreOf(s, c))
  {
    var s' := StoreOf(s, c);
    forall id | id in s'.slots && s'.slots[id].trid in s'.origins ensures HasWriter(s', id) {
      if id == s.chains[c].slot {
        assert s'.chains[c].slot == id && s'.chains[c].phase.Written?;
      } else {
        assert s.slots[id].trid in s.origins;
        assert HasWriter(s, id);
        var d :| d in s.chains && s.chains[d].slot == id && s.chains[d].phase.Written?;
        assert s'.chains[d] == s.chains[d];
      }
    }
  }

  lemma StoreFifo(s: State, c: nat)
    requires Locking(s) && Fifo(s) && Storable(s, c)
    ensures Fifo(StoreOf(s, c))
  {
  }

  lemma StoreAnswers(s: State, c: nat)
    requires Answers(s) && Storable(s, c)
    ensures Answers(StoreOf(s, c))
  {
  }

  lemma StoreIdentity(s: State, c: nat)
    requires Identity(s) && Storable(s, c)
    ensures Identity(StoreOf(s, c))
  {
  }

  lemma StoreLocking(s: State, c: nat)
    requires Locking(s) && Storable(s, c)
    ensures Locking(StoreOf(s, c))
  {
  }

  lemma StoreBasic(s: State, c: nat)
    requires Basic(s) && Inside(s) && Storable(s, c)
    ensures Basic(StoreOf(s, c)) && Inside(StoreOf(s, c))
  {
  }

  /** A new row of another sender never invalidates what a chain has seen or found affordable. */
  lemma ForeignRow(s: State, s': State, e: Entry, p: Phase)
    requires Sound(e) && s'.ledger == s.ledger + [e] && s'.requests == s.requests
    requires p.Reading? || p.Writing?
    requires e.sender != Account(SenderOf(p.pe.entry))
    ensures p.Reading? && Sandwiched(s, p) ==> Sandwiched(s', p)
    ensures p.Writing? && Affordable(s.ledger, p.pe.entry) ==> Affordable(s'.ledger, p.pe.entry)
  {
    var a := SenderOf(p.pe.entry);
    TotalOfAppend(s.ledger, e, Income, a);
    TotalOfAppend(s.ledger, e, Payments, a);
    TotalOfAppend(s.ledger, e, TaxIncome, a);
    if p.Reading? && p.seen.Keys != {} && p.mark <= |s.ledger| {
      assert s'.ledger[..p.mark] == s.ledger[..p.mark];
    }
  }

  lemma RefusalsKept(s: State, s': State, e: Entry)
    requires s'.ledger == s.ledger + [e] && s'.requests == s.requests
    ensures forall r :: RightlyRefused(s, r) ==> RightlyRefused(s', r)
  {
    forall r | RightlyRefused(s, r) ensures RightlyRefused(s', r) {
      assert s'.ledger[..r.mark] == s.ledger[..r.mark];
    }
  }

  /** Money survives a new row: nobody else is reading or writing for its sender. */
  lemma AppendMoney(s: State, s': State, e: Entry)
    requires Money(s) && Sound(e) && Affordable(s.ledger, e)
    requires s'.ledger == s.ledger + [e] && s'.requests == s.requests && s'.refusals == s.refusals
    requires forall c :: c in s'.chains && (s'.chains[c].phase.Reading? || s'.chains[c].phase.Writing?) ==>
               && c in s.chains && s'.chains[c] == s.chains[c]
               && e.sender != Account(SenderOf(s.chains[c].phase.pe.entry))
    ensures Money(s')
  {
    CoveredAppend(s.ledger, e);
    RefusalsKept(s, s', e);
    forall c | c in s'.chains && (s'.chains[c].phase.Reading? || s'.chains[c].phase.Writing?)
      ensures s'.chains[c].phase.Reading? ==> Sandwiched(s', s'.chains[c].phase)
      ensures s'.chains[c].phase.Writing? ==> Affordable(s'.ledger, s'.chains[c].phase.pe.entry)
    {
      ForeignRow(s, s', e, s.chains[c].phase);
    }
  }

  lemma StoreMoney(s: State, c: nat)
    requires Money(s) && Storable(s, c)
    ensures Money(StoreOf(s, c))
  {
    AppendMoney(s, StoreOf(s, c), s.chains[c].phase.pe.entry);
  }

  lemma StoreKeeps(s: State, c: nat)
    requires Inv(s) && c in s.chains && s.chains[c].phase.Writing?
    ensures Inv(StoreOf(s, c))
  {
    WritingIsStorable(s, c);
    StoreBasic(s, c);
    StoreIdentity(s, c);
    StoreLocking(s, c);
    StoreOrigins(s, c);
    StoreFifo(s, c);
    StoreAnswers(s, c);
    StoreMoney(s, c);
  }

  lemma SpawnOrigins(s: State, e: Entry)
    requires Origins(s) && e.sender.Magic?
    ensures Origins(Append(s, e, -1))
  {
    var s' := Append(s, e, -1);
    forall id | id in s'.slots && s'.slots[id].trid in s'.origins ensures HasWriter(s', id) {
      assert HasWriter(s, id);
    }
  }

  lemma SpawnRest(s: State, e: Entry)
    requires Basic(s) && Inside(s) && Fifo(s) && e.sender.Magic?
    ensures var s' := Append(s, e, -1); Basic(s') && Inside(s') && Fifo(s')
  {
  }

  lemma SpawnAnswers(s: State, e: Entry)
    requires Answers(s)
    ensures Answers(Append(s, e, -1))
  {
  }

  lemma SpawnKeeps(s: State, e: Entry)
    requires Inv(s) && e.sender.Magic? && Sound(e)
    ensures Inv(Append(s, e, -1))
  {
    var s' := Append(s, e, -1);
    SpawnOrigins(s, e);
    SpawnRest(s, e);
    SpawnAnswers(s, e);
    IdentityFrame(s, s');
    LockingFrame(s, s');
    AppendMoney(s, s', e);
  }

  // ---------- new intents, slots and chains ----------

  lemma AnnounceRest(s: State, e: Event)
    requires e.Announce? && Basic(s) && Inside(s) && Fifo(s) && Answers(s) && Enabled(s, e)
    ensures var s' := Apply(s, e); Basic(s') && Inside(s') && Fifo(s') && Answers(s')
  {
    assert forall k :: 0 <= k < |s.origins| ==> s.origins[k] in s.origins;
  }

  lemma AnnounceIdentity(s: State, e: Event)
    requires e.Announce? && Basic(s) && Identity(s) && Enabled(s, e) && Disciplined(s, e)
    ensures Identity(Apply(s, e))
  {
  }

  lemma AnnounceLocking(s: State, e: Event)
    requires e.Announce? && Basic(s) && Locking(s) && Enabled(s, e) && Disciplined(s, e)
    ensures Locking(Apply(s, e))
  {
  }

  lemma AnnounceOrigins(s: State, e: Event)
    requires e.Announce? && Basic(s) && Origins(s) && Enabled(s, e)
    ensures Origins(Apply(s, e))
  {
    var s' := Apply(s, e);
    forall id | id in s'.slots && s'.slots[id].trid in s'.origins ensures HasWriter(s', id) {
      assert HasWriter(s, id);
    }
  }

  lemma AnnounceMoney(s: State, e: Event)
    requires e.Announce? && Basic(s) && Identity(s) && Money(s) && Enabled(s, e)
    ensures Money(Apply(s, e))
  {
  }

  lemma EnqueueIdentity(s: State, e: Event)
    requires e.Enqueue? && Basic(s) && Inside(s) && Identity(s) && Enabled(s, e)
    ensures Identity(Apply(s, e))
  {
  }

  lemma EnqueueLocking(s: State, e: Event)
    requires e.Enqueue? && Inside(s) && Locking(s) && Enabled(s, e)
    ensures Locking(Apply(s, e))
  {
  }

  lemma EnqueueOrigins(s: State, e: Event)
    requires e.Enqueue? && Origins(s) && Enabled(s, e)
    requires e.trid !in s.origins
    ensures Origins(Apply(s, e))
  {
    var s' := Apply(s, e);
    forall id | id in s'.slots && s'.slots[id].trid in s'.origins ensures HasWriter(s', id) {
      assert HasWriter(s, id);
    }
  }

  lemma EnqueueRest(s: State, e: Event)
    requires e.Enqueue? && Basic(s) && Inside(s) && Answers(s) && Enabled(s, e)
    ensures var s' := Apply(s, e); Basic(s') && Inside(s') && Answers(s')
  {
  }

  lemma ArrivalIsNotStored(s: State, t: nat)
    requires Origins(s) && t in s.arriving
    ensures t !in s.origins
  {
  }

  lemma EnqueueFrames(s: State, e: Event)
    requires e.Enqueue? && Enabled(s, e) && Fifo(s) && Money(s)
    ensures Fifo(Apply(s, e)) && Money(Apply(s, e))
  {
    FifoFrame(s, Apply(s, e));
    MoneyFrame(s, Apply(s, e));
  }

  lemma AskBasic(s: State, e: Event)
    requires e.Ask? && Basic(s) && Inside(s) && Enabled(s, e)
    ensures Basic(Apply(s, e)) && Inside(Apply(s, e))
  {
  }

  lemma AskIdentity(s: State, e: Event)
    requires e.Ask? && Basic(s) && Identity(s) && Enabled(s, e)
    ensures Identity(Apply(s, e))
  {
  }

  lemma AskLocking(s: State, e: Event)
    requires e.Ask? && Basic(s) && Locking(s) && Enabled(s, e)
    ensures Locking(Apply(s, e))
  {
  }

  lemma AskMoney(s: State, e: Event)
    requires e.Ask? && Basic(s) && Money(s) && Enabled(s, e)
    ensures Money(Apply(s, e))
  {
  }

  lemma AskOrigins(s: State, e: Event)
    requires e.Ask? && Basic(s) && Origins(s) && Enabled(s, e)
    ensures Origins(Apply(s, e))
  {
    var s' := Apply(s, e);
    forall id | id in s'.slots && s'.slots[id].trid in s'.origins ensures HasWriter(s', id) {
      assert HasWriter(s, id);
      var d :| d in s.chains && s.chains[d].slot == id && s.chains[d].phase.Written?;
      assert s'.chains[d] == s.chains[d];
    }
  }

  // ---------- every disciplined step keeps the invariant ----------

  lemma AnnounceKeeps(s: State, e: Event)
    requires Inv(s) && e.Announce? && Enabled(s, e) && Disciplined(s, e)
    ensures Inv(Apply(s, e))
  {
    AnnounceRest(s, e);
    AnnounceIdentity(s, e);
    AnnounceLocking(s, e);
    AnnounceOrigins(s, e);
    AnnounceMoney(s, e);
  }

  lemma EnqueueKeeps(s: State, e: Event)
    requires Inv(s) && e.Enqueue? && Enabled(s, e)
    ensures Inv(Apply(s, e))
  {
    EnqueueRest(s, e);
    EnqueueIdentity(s, e);
    EnqueueLocking(s, e);
    ArrivalIsNotStored(s, e.trid);
    EnqueueOrigins(s, e);
    EnqueueFrames(s, e);
  }

  lemma AskKeeps(s: State, e: Event)
    requires Inv(s) && e.Ask? && Enabled(s, e)
    ensures Inv(Apply(s, e))
  {
    AskBasic(s, e);
    AskIdentity(s, e);
    AskLocking(s, e);
    AskOrigins(s, e);
    AskMoney(s, e);
    FifoFrame(s, Apply(s, e));
    AnswersFrame(s, Apply(s, e));
  }

  lemma CrashShrinks(s: State, e: Event)
    requires Inside(s) && Identity(s) && e.Crash? && Enabled(s, e)
    ensures Shrinks(s, Apply(s, e)) && Inside(Apply(s, e))
  {
  }

  lemma RemovalShrinks(s: State, e: Event)
    requires Basic(s) && Inside(s) && Identity(s) && Locking(s) && Enabled(s, e)
    requires e.Remove? || e.LoseRemoval?
    ensures Shrinks(s, Apply(s, e)) && Inside(Apply(s, e))
  {
    if e.Remove? {
      var s' := s.(intents := s.intents - {e.trid}, removals := s.removals - {e.trid});
      assert Apply(s, e) == s';
      IntentGoes(s, s', e.trid);
    } else {
      assert Apply(s, e) == s.(removals := s.removals - {e.trid});
    }
  }

  /** The intent of a settled payment goes; no entitled chain on a live slot is about it. */
  lemma IntentGoes(s: State, s': State, t: nat)
    requires Inside(s) && Identity(s) && Locking(s) && t in s.removals
    requires s' == s.(intents := s.intents - {t}, removals := s.removals - {t})
    ensures Shrinks(s, s') && Inside(s')
  {
  }

  lemma ExpireShrinks(s: State, e: Event)
    requires Inside(s) && Identity(s) && e.Expire? && Enabled(s, e) && Disciplined(s, e)
    ensures Shrinks(s, Apply(s, e)) && Inside(Apply(s, e))
  {
  }

  lemma AbortShrinks(s: State, e: Event)
    requires Basic(s) && Inside(s) && Identity(s) && e.Abort? && Enabled(s, e) && Disciplined(s, e)
    ensures Shrinks(s, Apply(s, e)) && Inside(Apply(s, e))
  {
  }

  lemma FailSaveShrinks(s: State, e: Event)
    requires Basic(s) && Inside(s) && Identity(s) && e.FailSave? && Enabled(s, e)
    ensures Shrinks(s, Apply(s, e)) && Inside(Apply(s, e))
  {
  }

  /** Denied permissions, vanished slots, errors, removals, crashes and expiry only take away. */
  lemma TakingAwayKeeps(s: State, e: Event)
    requires Inv(s) && Enabled(s, e) && Disciplined(s, e)
    requires e.Remove? || e.LoseRemoval? || e.Crash? || e.Expire? || e.Abort? || e.FailSave?
    ensures Inv(Apply(s, e))
  {
    if e.Crash? {
      CrashShrinks(s, e);
    } else if e.Expire? {
      ExpireShrinks(s, e);
    } else if e.Abort? {
      AbortShrinks(s, e);
    } else if e.FailSave? {
      FailSaveShrinks(s, e);
    } else {
      RemovalShrinks(s, e);
    }
    ShrinkKeeps(s, Apply(s, e));
  }

  lemma DropShrinks(s: State, c: nat)
    requires Inside(s) && Identity(s) && c in s.chains && !s.chains[c].phase.Written?
    ensures Shrinks(s, EndChain(s, c)) && Inside(EndChain(s, c))
  {
  }

  lemma DropKeeps(s: State, c: nat)
    requires Inv(s) && c in s.chains && !s.chains[c].phase.Written?
    ensures Inv(EndChain(s, c))
  {
    DropShrinks(s, c);
    ShrinkKeeps(s, EndChain(s, c));
  }

  lemma EvaluateKeeps(s: State, e: Event)
    requires Inv(s) && e.Evaluate? && Enabled(s, e)
    ensures Inv(Apply(s, e))
  {
    if e.first == s.chains[e.chain].trid {
      MoveKeeps(s, e.chain, Granted);
    } else {
      DropKeeps(s, e.chain);
    }
  }

  lemma CallbackKeeps(s: State, e: Event)
    requires Inv(s) && e.Callback? && Enabled(s, e) && Disciplined(s, e)
    ensures Inv(Apply(s, e))
  {
    var slot := s.chains[e.chain].slot;
    if slot in s.slots {
      MoveKeeps(s, e.chain, Reading(s.slots[slot], map[], 0));
    } else {
      DropKeeps(s, e.chain);
    }
  }

  /** One more aggregation, evaluated now, is sandwiched as well. */
  lemma ObserveSandwiched(s: State, p: Phase, g: Aggregate)
    requires p.Reading? && g !in p.seen && Sandwiched(s, p)
    requires p.pe.trid in s.requests ==> s.requests[p.pe.trid].at <= |s.ledger|
    requires Covered(s.ledger)
    ensures Sandwiched(s, Observe(p, g, s.ledger, SenderOf(p.pe.entry)))
  {
    assert s.ledger[..|s.ledger|] == s.ledger;
    if p.seen != map[] {
      assert forall k :: 0 <= k < |s.ledger| ==> Sound(s.ledger[k]);
      TotalsGrow(s.ledger, p.mark, |s.ledger|, SenderOf(p.pe.entry));
    }
  }

  lemma ReadMoves(s: State, e: Event)
    requires Basic(s) && Identity(s) && Locking(s) && Money(s) && e.Read? && Enabled(s, e)
    ensures var p := s.chains[e.chain].phase;
      Movable(s, e.chain, Observe(p, e.aggregate, s.ledger, SenderOf(p.pe.entry)))
  {
    ObserveSandwiched(s, s.chains[e.chain].phase, e.aggregate);
  }

  lemma ReadKeeps(s: State, e: Event)
    requires Inv(s) && e.Read? && Enabled(s, e)
    ensures Inv(Apply(s, e))
  {
    var p := s.chains[e.chain].phase;
    ReadMoves(s, e);
    MoveKeeps(s, e.chain, Observe(p, e.aggregate, s.ledger, SenderOf(p.pe.entry)));
  }

  /** The computed balance is between the true balance at the mark and the true balance now. */
  lemma ComputedIsSandwiched(s: State, c: nat)
    requires Money(s) && c in s.chains && s.chains[c].phase.Reading?
    requires s.chains[c].phase.seen.Keys == {Income, Payments, TaxIncome}
    ensures var p := s.chains[c].phase; var a := SenderOf(p.pe.entry);
      && p.mark <= |s.ledger|
      && Balance(s.ledger[..p.mark], a) <= Computed(p.seen) <= Balance(s.ledger, a)
  {
    var p := s.chains[c].phase;
    assert Income in p.seen && Payments in p.seen && TaxIncome in p.seen;
    assert Sandwiched(s, p);
  }

  function WithoutSlot(s: State, c: nat): State
    requires c in s.chains
  {
    EndChain(s, c).(slots := s.slots - {s.chains[c].slot})
  }

  lemma DeleteShrinks(s: State, c: nat)
    requires Inside(s) && Identity(s) && Locking(s) && c in s.chains && Busy(s.chains[c].phase)
    ensures Shrinks(s, WithoutSlot(s, c)) && Inside(WithoutSlot(s, c))
    ensures Settled(WithoutSlot(s, c), s.chains[c].trid)
    ensures s.slots[s.chains[c].slot].trid == s.chains[c].trid
  {
    var s' := WithoutSlot(s, c);
    forall d | d in s'.chains && Busy(s'.chains[d].phase) ensures s'.chains[d].slot in s'.slots {
      assert s.chains[d].slot in s.slots && s.chains[d].slot != s.chains[c].slot;
    }
  }

  /** The slot of a busy chain is deleted together with the chain. */
  lemma DeleteKeeps(s: State, c: nat)
    requires Inv(s) && c in s.chains && Busy(s.chains[c].phase)
    ensures Inv(WithoutSlot(s, c)) && Settled(WithoutSlot(s, c), s.chains[c].trid)
    ensures forall r :: r in s.replies && r.answer != Failed ==> r.trid != s.chains[c].trid
  {
    DeleteShrinks(s, c);
    ShrinkKeeps(s, WithoutSlot(s, c));
    forall r | r in s.replies && r.answer != Failed ensures r.trid != s.chains[c].trid {
      assert Settled(s, r.trid);
    }
  }

  /** A refusal is right at the first of its balance reads. */
  lemma RefusalIsRight(s: State, c: nat)
    requires Basic(s) && Identity(s) && Money(s) && c in s.chains && s.chains[c].phase.Reading?
    requires s.chains[c].phase.seen.Keys == {Income, Payments, TaxIncome}
    requires Computed(s.chains[c].phase.seen) - s.chains[c].phase.pe.entry.sent < 0.0
    ensures var p := s.chains[c].phase; RightlyRefused(s, Refusal(p.pe.trid, p.pe.entry, p.mark))
  {
    var p := s.chains[c].phase;
    ComputedIsSandwiched(s, c);
    assert p.seen.Keys != {} && Sandwiched(s, p);
    assert GoodEntry(s, p.pe.trid, s.slots[s.chains[c].slot].entry);
  }

  lemma RefusalsAreRight(s: State, c: nat, refusals: seq<Refusal>)
    requires Basic(s) && Identity(s) && Money(s) && c in s.chains && s.chains[c].phase.Reading?
    requires s.chains[c].phase.seen.Keys == {Income, Payments, TaxIncome}
    requires Computed(s.chains[c].phase.seen) - s.chains[c].phase.pe.entry.sent < 0.0
    requires var p := s.chains[c].phase; refusals == s.refusals + [Refusal(p.pe.trid, p.pe.entry, p.mark)]
    ensures forall r :: r in refusals ==> RightlyRefused(WithoutSlot(s, c), r)
  {
    RefusalIsRight(s, c);
    forall r | r in refusals ensures RightlyRefused(WithoutSlot(s, c), r) {
      assert RightlyRefused(s, r);
    }
  }

  lemma RefuseKeeps(s: State, c: nat)
    requires Inv(s) && c in s.chains && s.chains[c].phase.Reading?
    requires s.chains[c].phase.seen.Keys == {Income, Payments, TaxIncome}
    requires Computed(s.chains[c].phase.seen) - s.chains[c].phase.pe.entry.sent < 0.0
    ensures Inv(Refuse(s, c))
  {
    var p := s.chains[c].phase;
    BusyIsNotStored(s, c);
    DeleteKeeps(s, c);
    var refusals := s.refusals + [Refusal(p.pe.trid, p.pe.entry, p.mark)];
    RefusalsAreRight(s, c, refusals);
    AnswerKeeps(WithoutSlot(s, c), s.chains[c].trid, NoMoney, refusals);
    assert Refuse(s, c) == AnswerFor(WithoutSlot(s, c), s.chains[c].trid, NoMoney, refusals);
  }

  lemma AcceptMoves(s: State, c: nat)
    requires Identity(s) && Locking(s) && Money(s) && c in s.chains && s.chains[c].phase.Reading?
    requires s.chains[c].phase.seen.Keys == {Income, Payments, TaxIncome}
    requires Computed(s.chains[c].phase.seen) - s.chains[c].phase.pe.entry.sent >= 0.0
    ensures Movable(s, c, Writing(s.chains[c].phase.pe))
  {
    ComputedIsSandwiched(s, c);
  }

  lemma AcceptKeeps(s: State, c: nat)
    requires Inv(s) && c in s.chains && s.chains[c].phase.Reading?
    requires s.chains[c].phase.seen.Keys == {Income, Payments, TaxIncome}
    requires Computed(s.chains[c].phase.seen) - s.chains[c].phase.pe.entry.sent >= 0.0
    ensures Inv(Advance(s, c, Writing(s.chains[c].phase.pe)))
  {
    AcceptMoves(s, c);
    MoveKeeps(s, c, Writing(s.chains[c].phase.pe));
  }

  lemma DecideKeeps(s: State, e: Event)
    requires Inv(s) && e.Decide? && Enabled(s, e)
    ensures Inv(Apply(s, e))
  {
    var p := s.chains[e.chain].phase;
    if Computed(p.seen) - p.pe.entry.sent < 0.0 {
      RefuseKeeps(s, e.chain);
      assert Apply(s, e) == Refuse(s, e.chain);
    } else {
      AcceptKeeps(s, e.chain);
      assert Apply(s, e) == Advance(s, e.chain, Writing(p.pe));
    }
  }

  lemma AcknowledgeKeeps(s: State, e: Event)
    requires Inv(s) && e.Acknowledge? && Enabled(s, e)
    ensures Inv(Apply(s, e))
  {
    DeleteKeeps(s, e.chain);
    AnswerKeeps(WithoutSlot(s, e.chain), s.chains[e.chain].trid, Ok, s.refusals);
  }

  predicate Creates(e: Event) { e.Announce? || e.Enqueue? || e.Ask? || e.Spawn? }

  lemma CreationKeeps(s: State, e: Event)
    requires Inv(s) && Enabled(s, e) && Disciplined(s, e) && Creates(e)
    ensures Inv(Apply(s, e))
  {
    if e.Announce? {
      AnnounceKeeps(s, e);
    } else if e.Enqueue? {
      EnqueueKeeps(s, e);
    } else if e.Ask? {
      AskKeeps(s, e);
    } else {
      SpawnKeeps(s, e.entry);
    }
  }

  predicate Advances(e: Event) {
    e.Evaluate? || e.Callback? || e.Read? || e.Decide? || e.Store? || e.Acknowledge?
  }

  lemma AdvanceKeeps(s: State, e: Event)
    requires Inv(s) && Enabled(s, e) && Disciplined(s, e) && Advances(e)
    ensures Inv(Apply(s, e))
  {
    if e.Evaluate? {
      EvaluateKeeps(s, e);
    } else if e.Callback? {
      CallbackKeeps(s, e);
    } else if e.Read? {
      ReadKeeps(s, e);
    } else if e.Decide? {
      DecideKeeps(s, e);
    } else if e.Store? {
      StoreKeeps(s, e.chain);
    } else {
      AcknowledgeKeeps(s, e);
    }
  }

  /** Every disciplined step of the protocol keeps the invariant. */
  lemma StepKeepsInv(s: State, e: Event)
    requires Inv(s) && Enabled(s, e) && Disciplined(s, e)
    ensures Inv(Apply(s, e))
  {
    if Creates(e) {
      CreationKeeps(s, e);
    } else if Advances(e) {
      AdvanceKeeps(s, e);
    } else {
      TakingAwayKeeps(s, e);
    }
  }
}
