/** The settlement protocol as a state machine. Several workers share the transaction ledger and
    the pendingTransactions collection (server/api/actions/transactions.js:207-269 and
    server/api/db/transactions.js:49-113); every event below is one atomic database operation or
    one callback that runs to completion on its worker. Enabled allows everything the code can do;
    Disciplined names the assumptions A1-A4 under which it is safe. */
module Settlement {
  import opened Ledger

  /** A position in a worker's pending_transactions array. */
  datatype SlotId = SlotId(worker: nat, index: nat)

  /** What transaction_queue pushes: the id of the write intent and the entry to be written. */
  datatype Pending = Pending(trid: nat, entry: Entry)

  /** A document of the pendingTransactions collection. */
  datatype Intent = Intent(sender: nat, time: int)

  /** An intent that is saved while the callback that will enqueue it has not run yet. */
  datatype Arrival = Arrival(worker: nat, entry: Entry)

  /** How far one chain permission -> balance -> write has come. */
  datatype Phase =
    | Asked                                                            // permission query sent
    | Granted                                                          // its answer is on the way
    | Reading(pe: Pending, seen: map<Aggregate, real>, mark: nat)      // aggregations running
    | Writing(pe: Pending)                                             // ledger write sent
    | Written(pe: Pending)                                             // row stored, callback to come

  /** One tick's visit to one slot; trid, sender and slot are what the closures captured. */
  datatype Chain = Chain(slot: SlotId, trid: nat, sender: nat, phase: Phase)

  datatype Answer = Ok | NoMoney | Failed
  datatype Reply = Reply(trid: nat, answer: Answer)

  /** A refused payment; mark is the ledger's length at the first of its three balance reads. */
  datatype Refusal = Refusal(trid: nat, entry: Entry, mark: nat)

  /** What was asked for, and the ledger's length when its intent was announced. */
  datatype Request = Request(entry: Entry, at: nat)

  /** The whole system. The last four fields are records of the past that no step reads: which
      intent each row came from, the answers given, the refusals, and the requests. */
  datatype State = State(
    ledger: seq<Entry>,
    intents: map<nat, Intent>,
    arriving: map<nat, Arrival>,
    lengths: map<nat, nat>,          // length of each worker's array
    slots: map<SlotId, Pending>,     // its elements; a missing index is a hole
    chains: map<nat, Chain>,
    limbo: set<Pending>,             // writes that failed or whose worker crashed
    removals: set<nat>,              // writeComplete requests under way
    nextTrid: nat,
    nextChain: nat,
    origins: seq<int>,               // intent of each row, -1 for spawned or older rows
    replies: seq<Reply>,
    refusals: seq<Refusal>,
    requests: map<int, Request>)

  datatype Event =
    | Announce(worker: nat, entry: Entry, time: int)   // intent document saved
    | Enqueue(trid: nat)                               // its callback pushes the slot
    | Ask(slot: SlotId)                                // a tick visits a live slot
    | Evaluate(chain: nat, first: int)                 // oldest intent of the sender, -1 if none
    | Callback(chain: nat)                             // onWritePermission
    | Read(chain: nat, aggregate: Aggregate)           // one of the three aggregations
    | Decide(chain: nat)                               // the getBalance callback
    | Store(chain: nat)                                // the ledger write happens
    | Acknowledge(chain: nat)                          // the write callback
    | Remove(trid: nat)                                // findOneAndRemove happens
    | Spawn(entry: Entry)                              // transaction_write without an intent
    | FailSave(trid: nat)                              // an intent is stored, but its save reports an error
    | Abort(chain: nat)                                // a database call reports an error
    | LoseRemoval(trid: nat)                           // findOneAndRemove fails
    | Crash(worker: nat)
    | Expire(trid: nat)                                // the TTL removes an intent
    | LateStore(pe: Pending)                           // a failed write happens after all
    | Delete(row: nat)                                 // transaction_delete

  function SenderOf(e: Entry): nat { if e.sender.Account? then e.sender.id else 0 }

  /** A possible result of find({sender}).sort({time}).limit(1). */
  ghost predicate IsOldest(intents: map<nat, Intent>, sender: nat, first: int) {
    if first < 0 then
      forall t :: t in intents ==> intents[t].sender != sender
    else
      && first in intents && intents[first].sender == sender
      && forall t :: t in intents && intents[t].sender == sender ==> intents[first].time <= intents[t].time
  }

  function Computed(seen: map<Aggregate, real>): real
    requires seen.Keys == {Income, Payments, TaxIncome}
  {
    seen[Income] + seen[TaxIncome] - seen[Payments]
  }

  /** A chain between its callback and the end of its write. */
  predicate Busy(p: Phase) { p.Reading? || p.Writing? || p.Written? }

  ghost predicate Enabled(s: State, e: Event) {
    match e
    case Announce(w, entry, time) => w in s.lengths && entry.sender.Account?
    case Enqueue(t) => t in s.arriving && s.arriving[t].worker in s.lengths
    case Ask(slot) => slot in s.slots
    case Evaluate(c, first) =>
      c in s.chains && s.chains[c].phase.Asked? && IsOldest(s.intents, s.chains[c].sender, first)
    case Callback(c) => c in s.chains && s.chains[c].phase.Granted?
    case Read(c, g) => c in s.chains && s.chains[c].phase.Reading? && g !in s.chains[c].phase.seen
    case Decide(c) =>
      c in s.chains && s.chains[c].phase.Reading? && s.chains[c].phase.seen.Keys == {Income, Payments, TaxIncome}
    case Store(c) => c in s.chains && s.chains[c].phase.Writing?
    case Acknowledge(c) => c in s.chains && s.chains[c].phase.Written?
    case Remove(t) => t in s.removals
    case Spawn(entry) => entry.sender.Magic?
    case FailSave(t) => t in s.arriving
    case Abort(c) => c in s.chains
    case LoseRemoval(t) => t in s.removals
    case Crash(w) => w in s.lengths
    case Expire(t) => t in s.intents
    case LateStore(pe) => pe in s.limbo
    case Delete(k) => k < |s.ledger|
  }

  function Advance(s: State, c: nat, p: Phase): State
    requires c in s.chains
  {
    s.(chains := s.chains[c := s.chains[c].(phase := p)])
  }

  function EndChain(s: State, c: nat): State {
    s.(chains := s.chains - {c})
  }

  function Append(s: State, e: Entry, origin: int): State {
    s.(ledger := s.ledger + [e], origins := s.origins + [origin])
  }

  /** The final callbacks: answer, ask for the removal of the intent, delete the slot. */
  function Finish(s: State, c: nat, answer: Answer): State
    requires c in s.chains
  {
    var ch := s.chains[c];
    EndChain(s, c).(slots := s.slots - {ch.slot},
                    removals := s.removals + {ch.trid},
                    replies := s.replies + [Reply(ch.trid, answer)])
  }

  /** One aggregation result arrives; the first one fixes the mark. */
  function Observe(p: Phase, g: Aggregate, l: seq<Entry>, a: nat): Phase
    requires p.Reading?
  {
    p.(seen := p.seen[g := Total(l, g, a)],
       mark := if p.seen == map[] then |l| else p.mark)
  }

  function Refuse(s: State, c: nat): State
    requires c in s.chains && s.chains[c].phase.Reading?
  {
    var p := s.chains[c].phase;
    Finish(s, c, NoMoney).(refusals := s.refusals + [Refusal(p.pe.trid, p.pe.entry, p.mark)])
  }

  function Apply(s: State, e: Event): State
    requires Enabled(s, e)
  {
    match e
    case Announce(w, entry, time) =>
      s.(intents := s.intents[s.nextTrid := Intent(entry.sender.id, time)],
         arriving := s.arriving[s.nextTrid := Arrival(w, entry)],
         requests := s.requests[s.nextTrid := Request(entry, |s.ledger|)],
         nextTrid := s.nextTrid + 1)
    case Enqueue(t) =>
      var a := s.arriving[t];
      s.(arriving := s.arriving - {t},
         slots := s.slots[SlotId(a.worker, s.lengths[a.worker]) := Pending(t, a.entry)],
         lengths := s.lengths[a.worker := s.lengths[a.worker] + 1])
    case Ask(slot) =>
      var pe := s.slots[slot];
      s.(chains := s.chains[s.nextChain := Chain(slot, pe.trid, SenderOf(pe.entry), Asked)],
         nextChain := s.nextChain + 1)
    case Evaluate(c, first) =>
      if first == s.chains[c].trid then Advance(s, c, Granted) else EndChain(s, c)
    case Callback(c) =>
      var slot := s.chains[c].slot;
      if slot in s.slots then Advance(s, c, Reading(s.slots[slot], map[], 0)) else EndChain(s, c)
    case Read(c, g) =>
      Advance(s, c, Observe(s.chains[c].phase, g, s.ledger, SenderOf(s.chains[c].phase.pe.entry)))
    case Decide(c) =>
      var p := s.chains[c].phase;
      if Computed(p.seen) - p.pe.entry.sent < 0.0 then Refuse(s, c) else Advance(s, c, Writing(p.pe))
    case Store(c) =>
      var pe := s.chains[c].phase.pe;
      Append(Advance(s, c, Written(pe)), pe.entry, pe.trid)
    case Acknowledge(c) => Finish(s, c, Ok)
    case Remove(t) => s.(intents := s.intents - {t}, removals := s.removals - {t})
    case Spawn(entry) => Append(s, entry, -1)
    case FailSave(t) => s.(arriving := s.arriving - {t}, replies := s.replies + [Reply(t, Failed)])
    case Abort(c) =>
      var ch := s.chains[c];
      EndChain(s, c).(replies := s.replies + [Reply(ch.trid, Failed)],
                      limbo := if ch.phase.Writing? then s.limbo + {ch.phase.pe} else s.limbo)
    case LoseRemoval(t) => s.(removals := s.removals - {t})
    case Crash(w) =>
      s.(lengths := s.lengths[w := 0],
         slots := map id | id in s.slots && id.worker != w :: s.slots[id],
         chains := map c | c in s.chains && s.chains[c].slot.worker != w :: s.chains[c],
         arriving := map t | t in s.arriving && s.arriving[t].worker != w :: s.arriving[t],
         limbo := s.limbo + set c | c in s.chains && s.chains[c].slot.worker == w && s.chains[c].phase.Writing?
                            :: s.chains[c].phase.pe)
    case Expire(t) => s.(intents := s.intents - {t})
    case LateStore(pe) => Append(s.(limbo := s.limbo - {pe}), pe.entry, pe.trid)
    case Delete(k) =>
      s.(ledger := s.ledger[..k] + s.ledger[k + 1..],
         origins := if k < |s.origins| then s.origins[..k] + s.origins[k + 1..] else s.origins)
  }
}
