/** One API worker's part of the settlement protocol, callback by callback
    (server/api/actions/transactions.js:218-269). Each callback's effect on the worker is a function; the
    class carries it out, and each event of the state machine is that effect, with the calls it sends. */
module Workers {
  import opened JsArrays
  import opened Ledger
  import opened Settlement
  import opened SettlementInvariant

  /** What a callback sends out: answers to clients and calls to the database, in order. */
  datatype Call =
    | Answered(trid: nat, answer: Answer)
    | CheckPermission(index: nat, trid: nat, sender: nat)
    | GetBalance(index: nat, pe: Pending)
    | Write(index: nat, pe: Pending)
    | WriteComplete(trid: nat)

  /** A worker's array and the calls it has sent. */
  datatype Local = Local(pending: JsArray<Pending>, sent: seq<Call>)

  // ---------- the effects of the callbacks ----------

  function AfterQueue(l: Local, pe: Pending): Local {
    Local(l.pending.Push(pe), l.sent)
  }

  function PermissionFor(a: JsArray<Pending>, i: nat): Call
    requires i in a.elems
  {
    CheckPermission(i, a.elems[i].trid, SenderOf(a.elems[i].entry))
  }

  /** What one tick sends for the slots at the given indices. */
  function Permissions(a: JsArray<Pending>, at: seq<nat>): seq<Call>
    requires forall i :: i in at ==> i in a.elems
  {
    seq(|at|, k requires 0 <= k < |at| => PermissionFor(a, at[k]))
  }

  function AfterTick(l: Local): Local {
    Local(l.pending, l.sent + Permissions(l.pending, l.pending.Live(l.pending.length)))
  }

  /** onWritePermission(i) */
  function AfterPermission(l: Local, i: nat): Local {
    if i in l.pending.elems then Local(l.pending, l.sent + [GetBalance(i, l.pending.elems[i])]) else l
  }

  /** The callback of getBalance; pe, trid and i are captured. */
  function AfterBalance(l: Local, i: nat, trid: nat, pe: Pending, bal: real): Local {
    if bal - pe.entry.sent < 0.0 then
      Local(l.pending.Delete(i), l.sent + [Answered(trid, NoMoney), WriteComplete(trid)])
    else
      Local(l.pending, l.sent + [Write(i, pe)])
  }

  /** The callback of a successful write. */
  function AfterWrite(l: Local, i: nat, trid: nat): Local {
    Local(l.pending.Delete(i), l.sent + [Answered(trid, Ok), WriteComplete(trid)])
  }

  lemma PermissionsOfNext(a: JsArray<Pending>, i: nat)
    ensures Permissions(a, a.Live(i + 1))
         == Permissions(a, a.Live(i)) + if i in a.elems then [PermissionFor(a, i)] else []
  {
  }

  // ---------- the callbacks ----------

  class Worker {
    var pending: JsArray<Pending>
    var sent: seq<Call>

    constructor ()
      ensures Now() == Local(Empty(), [])
    {
      pending := Empty();
      sent := [];
    }

    function Now(): Local
      reads this
    {
      Local(pending, sent)
    }

    /** transaction_queue */
    method Queue(trid: nat, entry: Entry)
      modifies this
      ensures Now() == AfterQueue(old(Now()), Pending(trid, entry))
    {
      pending := pending.Push(Pending(trid, entry));
    }

    /** The interval function: one permission query per live slot, holes are skipped. */
    method Tick()
      modifies this`sent
      ensures Now() == AfterTick(old(Now()))
    {
      var i := 0;
      while i < pending.length
        invariant i <= pending.length && sent == old(sent) + Permissions(pending, pending.Live(i))
      {
        PermissionsOfNext(pending, i);
        if i in pending.elems {
          var pe := pending.elems[i];
          sent := sent + [CheckPermission(i, pe.trid, SenderOf(pe.entry))];
        }
        i := i + 1;
      }
    }

    /** onWritePermission: the slot is looked up again, another callback may have been faster. */
    method OnWritePermission(i: nat)
      modifies this`sent
      ensures Now() == AfterPermission(old(Now()), i)
    {
      if i !in pending.elems {
        return;
      }
      sent := sent + [GetBalance(i, pending.elems[i])];
    }

    method OnBalance(i: nat, trid: nat, pe: Pending, bal: real)
      modifies this
      ensures Now() == AfterBalance(old(Now()), i, trid, pe, bal)
    {
      if bal - pe.entry.sent < 0.0 {
        sent := sent + [Answered(trid, NoMoney)];
        sent := sent + [WriteComplete(trid)];
        pending := pending.Delete(i);
      } else {
        sent := sent + [Write(i, pe)];
      }
    }

    method OnWritten(i: nat, trid: nat)
      modifies this
      ensures Now() == AfterWrite(old(Now()), i, trid)
    {
      sent := sent + [Answered(trid, Ok)];
      pending := pending.Delete(i);
      sent := sent + [WriteComplete(trid)];
    }
  }

  // ---------- workers in the state machine ----------

  /** Worker w's array in a state of the protocol is a. */
  ghost predicate HasArray(s: State, w: nat, a: JsArray<Pending>) {
    && w in s.lengths && s.lengths[w] == a.length
    && (forall i :: i in a.elems <==> SlotId(w, i) in s.slots)
    && (forall i :: i in a.elems ==> a.elems[i] == s.slots[SlotId(w, i)])
  }

  /** Every worker has exactly one array. */
  lemma HasOneArray(s: State, w: nat) returns (a: JsArray<Pending>)
    requires w in s.lengths
    ensures HasArray(s, w, a) && forall b :: HasArray(s, w, b) ==> b == a
  {
    var at := set id | id in s.slots && id.worker == w :: id.index;
    a := JsArray(s.lengths[w], map i | i in at :: s.slots[SlotId(w, i)]);
    forall i: nat ensures i in at <==> SlotId(w, i) in s.slots {
      if SlotId(w, i) in s.slots {
        assert SlotId(w, i).index == i;
      }
    }
    forall b | HasArray(s, w, b) ensures b == a {
      assert b.elems == a.elems;
    }
  }

  /** The slots and array lengths of the other workers are the same. */
  ghost predicate OthersKeep(s: State, s': State, w: nat) {
    && (forall id: SlotId :: id.worker != w ==> (id in s'.slots <==> id in s.slots))
    && (forall id: SlotId :: id.worker != w && id in s.slots && id in s'.slots ==> s'.slots[id] == s.slots[id])
    && s'.lengths.Keys == s.lengths.Keys
    && (forall v :: v in s.lengths && v in s'.lengths && v != w ==> s'.lengths[v] == s.lengths[v])
  }

  // ---------- calls in the state machine ----------

  /** What a call of worker w does to the rest of the system; chain c with record ch is the one whose
      callback sends it. A callback that sends no further query or write is the last of its chain. */
  ghost function Performed(s: State, w: nat, c: nat, ch: Chain, call: Call): State {
    match call
    case Answered(t, a) => s.(replies := s.replies + [Reply(t, a)])
    case CheckPermission(i, t, sender) =>
      s.(chains := s.chains[s.nextChain := Chain(SlotId(w, i), t, sender, Asked)], nextChain := s.nextChain + 1)
    case GetBalance(i, pe) =>
      s.(chains := s.chains[c := Chain(SlotId(w, i), ch.trid, ch.sender, Reading(pe, map[], 0))])
    case Write(i, pe) => s.(chains := s.chains[c := Chain(SlotId(w, i), ch.trid, ch.sender, Writing(pe))])
    case WriteComplete(t) => s.(removals := s.removals + {t})
  }

  ghost function PerformedAll(s: State, w: nat, c: nat, ch: Chain, calls: seq<Call>): State {
    if calls == [] then s
    else Performed(PerformedAll(s, w, c, ch, calls[..|calls| - 1]), w, c, ch, calls[|calls| - 1])
  }

  lemma PerformedTwo(s: State, w: nat, c: nat, ch: Chain, x: Call, y: Call)
    ensures PerformedAll(s, w, c, ch, [x]) == Performed(s, w, c, ch, x)
    ensures PerformedAll(s, w, c, ch, [x, y]) == Performed(Performed(s, w, c, ch, x), w, c, ch, y)
  {
    assert [x][..0] == [] && [x, y][..1] == [x];
  }

  /** From s to s' exactly this has happened: worker w has got the array of l, and the calls of l, which a
      callback of chain c has sent, are performed; base is s without the chain or request that called back. */
  ghost predicate IsEffect(base: State, s': State, w: nat, c: nat, ch: Chain, l: Local) {
    && HasArray(s', w, l.pending) && OthersKeep(base, s', w)
    && s' == PerformedAll(base.(slots := s'.slots, lengths := s'.lengths), w, c, ch, l.sent)
  }

  lemma NewPhase(chains: map<nat, Chain>, c: nat, p: Phase)
    requires c in chains
    ensures (chains - {c})[c := Chain(chains[c].slot, chains[c].trid, chains[c].sender, p)]
         == chains[c := chains[c].(phase := p)]
  {
  }

  // ---------- each event is a callback ----------

  /** Enqueue is transaction_queue on the worker that announced the payment; it sends nothing. */
  lemma EnqueueIsQueue(s: State, t: nat, a: JsArray<Pending>, c: nat, ch: Chain)
    requires Enabled(s, Enqueue(t)) && HasArray(s, s.arriving[t].worker, a)
    ensures var w, entry := s.arriving[t].worker, s.arriving[t].entry;
      IsEffect(s.(arriving := s.arriving - {t}), Apply(s, Enqueue(t)), w, c, ch,
               AfterQueue(Local(a, []), Pending(t, entry)))
  {
  }

  /** Callback is onWritePermission. */
  lemma CallbackIsOnWritePermission(s: State, c: nat, a: JsArray<Pending>)
    requires Enabled(s, Callback(c)) && HasArray(s, s.chains[c].slot.worker, a)
    ensures var ch := s.chains[c];
      IsEffect(EndChain(s, c), Apply(s, Callback(c)), ch.slot.worker, c, ch,
               AfterPermission(Local(a, []), ch.slot.index))
  {
    var ch, base := s.chains[c], EndChain(s, c);
    var w, i := ch.slot.worker, ch.slot.index;
    assert SlotId(w, i) == ch.slot;
    if ch.slot in s.slots {
      var pe := s.slots[ch.slot];
      PerformedTwo(base, w, c, ch, GetBalance(i, pe), GetBalance(i, pe));
      NewPhase(s.chains, c, Reading(pe, map[], 0));
    }
  }

  /** Decide is the callback of getBalance, with the balance that the three aggregations give. The refusals
      are a record for the proofs and no part of the system. */
  lemma DecideIsOnBalance(s: State, c: nat, a: JsArray<Pending>)
    requires Enabled(s, Decide(c)) && HasArray(s, s.chains[c].slot.worker, a)
    ensures var ch, s' := s.chains[c], Apply(s, Decide(c));
      IsEffect(EndChain(s, c).(refusals := s'.refusals), s', ch.slot.worker, c, ch,
               AfterBalance(Local(a, []), ch.slot.index, ch.trid, ch.phase.pe, Computed(ch.phase.seen)))
  {
    var ch := s.chains[c];
    var w, i, pe, t := ch.slot.worker, ch.slot.index, ch.phase.pe, ch.trid;
    assert SlotId(w, i) == ch.slot;
    if Computed(ch.phase.seen) - pe.entry.sent < 0.0 {
      FinishIsTwoCalls(s, c, NoMoney, Refuse(s, c).refusals, a);
    } else {
      PerformedTwo(EndChain(s, c), w, c, ch, Write(i, pe), Write(i, pe));
      NewPhase(s.chains, c, Writing(pe));
    }
  }

  lemma FinishIsTwoCalls(s: State, c: nat, answer: Answer, refusals: seq<Refusal>, a: JsArray<Pending>)
    requires c in s.chains && HasArray(s, s.chains[c].slot.worker, a)
    ensures var ch := s.chains[c];
      IsEffect(EndChain(s, c).(refusals := refusals), Finish(s, c, answer).(refusals := refusals), ch.slot.worker, c, ch,
               Local(a.Delete(ch.slot.index), [] + [Answered(ch.trid, answer), WriteComplete(ch.trid)]))
  {
    var ch := s.chains[c];
    var w, i, t := ch.slot.worker, ch.slot.index, ch.trid;
    assert SlotId(w, i) == ch.slot;
    var s' := Finish(s, c, answer).(refusals := refusals);
    var base := EndChain(s, c).(refusals := refusals, slots := s'.slots);
    PerformedTwo(base, w, c, ch, Answered(t, answer), WriteComplete(t));
    assert [] + [Answered(t, answer), WriteComplete(t)] == [Answered(t, answer), WriteComplete(t)];
  }

  /** Acknowledge is the callback of the ledger write. */
  lemma AcknowledgeIsOnWritten(s: State, c: nat, a: JsArray<Pending>)
    requires Enabled(s, Acknowledge(c)) && HasArray(s, s.chains[c].slot.worker, a)
    ensures var ch := s.chains[c];
      IsEffect(EndChain(s, c), Apply(s, Acknowledge(c)), ch.slot.worker, c, ch,
               AfterWrite(Local(a, []), ch.slot.index, ch.trid))
  {
    FinishIsTwoCalls(s, c, Ok, s.refusals, a);
  }

  /** A crashed worker starts again like a new one: its array is empty, its callbacks never come, its writes
      under way are in limbo. The others and the database do not notice. */
  lemma CrashIsRestart(s: State, w: nat)
    requires Enabled(s, Crash(w))
    ensures HasArray(Apply(s, Crash(w)), w, Empty()) && OthersKeep(s, Apply(s, Crash(w)), w)
    ensures var s' := Apply(s, Crash(w));
      && (forall c :: c in s'.chains <==> c in s.chains && s.chains[c].slot.worker != w)
      && (forall c :: c in s'.chains ==> s'.chains[c] == s.chains[c])
      && (forall t :: t in s'.arriving <==> t in s.arriving && s.arriving[t].worker != w)
      && (forall t :: t in s'.arriving ==> s'.arriving[t] == s.arriving[t])
      && (forall pe :: pe in s'.limbo <==> pe in s.limbo || IsWritten(s, w, pe))
      && s'.ledger == s.ledger && s'.intents == s.intents && s'.removals == s.removals && s'.replies == s.replies
  {
    var s' := Apply(s, Crash(w));
    forall pe | IsWritten(s, w, pe) ensures pe in s'.limbo {
      var c :| c in s.chains && s.chains[c].slot.worker == w && s.chains[c].phase == Writing(pe);
      assert s.chains[c].phase.pe == pe;
    }
  }

  /** Worker w has sent the write of pe and not heard of it yet. */
  ghost predicate IsWritten(s: State, w: nat, pe: Pending) {
    exists c :: c in s.chains && s.chains[c].slot.worker == w && s.chains[c].phase == Writing(pe)
  }

  /** Nothing else touches an array: no query, no failed call, and nothing that the database does on its own. */
  lemma ArraysStay(s: State, e: Event)
    requires Enabled(s, e) && !e.Enqueue? && !e.Decide? && !e.Acknowledge? && !e.Crash?
    ensures Apply(s, e).slots == s.slots && Apply(s, e).lengths == s.lengths
  {
    if e.Evaluate? || e.Callback? {
      LookupKeepsArrays(s, e);
    }
  }

  lemma LookupKeepsArrays(s: State, e: Event)
    requires Enabled(s, e) && (e.Evaluate? || e.Callback?)
    ensures Apply(s, e).slots == s.slots && Apply(s, e).lengths == s.lengths
  {
  }

  /** The Ask events of slots of worker w, one after the other. */
  ghost function AskedAll(s: State, w: nat, at: seq<nat>): (s': State)
    requires forall i :: i in at ==> SlotId(w, i) in s.slots
    ensures s'.slots == s.slots && s'.lengths == s.lengths
  {
    if at == [] then s
    else
      assert at[|at| - 1] in at;
      Apply(AskedAll(s, w, at[..|at| - 1]), Ask(SlotId(w, at[|at| - 1])))
  }

  lemma {:induction false} PermissionsAreAsks(
    s: State, w: nat, a: JsArray<Pending>, at: seq<nat>, c: nat, ch: Chain)
    requires HasArray(s, w, a) && forall i :: i in at ==> i in a.elems
    ensures PerformedAll(s, w, c, ch, Permissions(a, at)) == AskedAll(s, w, at)
  {
    if at != [] {
      var front, i := at[..|at| - 1], at[|at| - 1];
      assert at == front + [i];
      PermissionsAreAsks(s, w, a, front, c, ch);
      var calls := Permissions(a, at);
      assert calls[..|calls| - 1] == Permissions(a, front);
    }
  }

  /** A tick is the Ask events of all live slots of the worker, in ascending order, and nothing else. */
  lemma TickIsAsks(s: State, w: nat, a: JsArray<Pending>, c: nat, ch: Chain)
    requires HasArray(s, w, a) && Inside(s)
    ensures var at := a.Live(a.length);
      && (forall i :: i in at <==> SlotId(w, i) in s.slots)
      && IsEffect(s, AskedAll(s, w, at), w, c, ch, AfterTick(Local(a, [])))
  {
    var at := a.Live(a.length);
    assert [] + Permissions(a, at) == Permissions(a, at);
    forall i: nat ensures i in at <==> SlotId(w, i) in s.slots {
      assert SlotId(w, i) in s.slots ==> In(s, SlotId(w, i));
    }
    PermissionsAreAsks(s, w, a, at, c, ch);
    assert s.(slots := s.slots, lengths := s.lengths) == s;
  }
}
