/** After failures: what crashes, lost removals and failed saves leave behind, the TTL clears away
    (server/api/db/transactions.js:49-63). */
module Recovery {
  import opened Ledger
  import opened Settlement
  import opened SettlementInvariant
  import opened SettlementTheorems
  import opened Progress

  /** Nothing new and no new failures; the TTL may remove intents. */
  predicate Recovering(e: Event) { Quieter(e) || e.Expire? }

  ghost predicate Recovers(s: State, s': State) {
    exists states, events :: Steps(states, events) && (forall e :: e in events ==> Recovering(e))
      && states[0] == s && states[|events|] == s'
  }

  lemma RecoversOn(s: State, s': State, e: Event)
    requires Recovers(s, s') && Enabled(s', e) && Disciplined(s', e) && Recovering(e)
    ensures Recovers(s, Apply(s', e))
  {
    var states, events :| Steps(states, events) && (forall f :: f in events ==> Recovering(f))
      && states[0] == s && states[|events|] == s';
    StepsOn(states, events, e);
    assert Steps(states + [Apply(s', e)], events + [e]);
  }

  lemma RecoversItself(s: State)
    ensures Recovers(s, s)
  {
    var states, events: seq<Event> := [s], [];
    assert Steps(states, events);
  }

  lemma RecoversFurther(s: State, s': State, s'': State)
    requires Recovers(s, s') && Reaches(s', s'')
    ensures Recovers(s, s'')
  {
    var states, events := PathOf(s', s'');
    for i := 0 to |events|
      invariant Recovers(s, states[i])
    {
      RecoversOn(s, states[i], events[i]);
    }
  }

  lemma ReachedKeepsInv(s: State, s': State)
    requires Inv(s) && Reaches(s, s')
    ensures Inv(s')
  {
    var states, events := PathOf(s, s');
    forall t, e | Inv(t) && Enabled(t, e) && Disciplined(t, e) ensures Inv(Apply(t, e)) {
      StepKeepsInv(t, e);
    }
    Along(states, events, t => Inv(t), e => true, 0, |events|);
  }

  /** Whatever is under way can come to its end, also after failures. */
  lemma ComesToRest(s: State) returns (s': State)
    requires Inv(s)
    ensures Reaches(s, s') && Inv(s') && Quiet(s')
  {
    ReachesItself(s);
    var s1 := ChainsCanEnd(s, s);
    var s2 := SavesCanEnd(s, s1);
    s' := RemovalsCanEnd(s, s2);
    ReachedKeepsInv(s, s');
  }

  /** Some sender's oldest intent is found among the intents of that sender. */
  lemma OldestIntent(s: State, t: nat) returns (head: nat)
    requires Locking(s) && t in s.intents
    ensures head in s.intents && Head(s, s.intents[head].sender, head)
    decreases t
  {
    if u: nat :| u < t && u in s.intents && s.intents[u].sender == s.intents[t].sender {
      head := OldestIntent(s, u);
    } else {
      head := t;
    }
  }

  /** An intent that blocks its sender, because the worker that would have settled it or the call that would
      have removed it has failed, goes with the TTL; the sender's next intent is the oldest then. */
  lemma ExpiryPassesTheTurn(s: State, t: nat, u: nat)
    requires Locking(s) && t in s.intents && u in s.intents && t < u && s.intents[t].sender == s.intents[u].sender
    requires forall v :: v in s.intents && s.intents[v].sender == s.intents[u].sender && v != t ==> u <= v
    ensures Head(s, s.intents[t].sender, t) && !Head(s, s.intents[u].sender, u)
    ensures var s' := Apply(s, Expire(t));
      Head(s', s.intents[u].sender, u) && t !in s'.intents && s'.slots == s.slots && s'.ledger == s.ledger
  {
  }

  lemma ExpiryTakesOne(s: State, t: nat)
    requires Inv(s) && Quiet(s) && t in s.intents
    ensures Enabled(s, Expire(t)) && Disciplined(s, Expire(t)) && Inv(Apply(s, Expire(t)))
    ensures Quiet(Apply(s, Expire(t))) && Apply(s, Expire(t)).intents == s.intents - {t}
  {
    StepKeepsInv(s, Expire(t));
  }

  lemma WaitingHeadGoes(s: State, id: SlotId) returns (s': State)
    requires Inv(s) && Quiet(s) && id in s.slots
    requires var t := s.slots[id].trid; t in s.intents && Head(s, s.intents[t].sender, t)
    ensures Reaches(s, s') && Inv(s') && Quiet(s') && s'.intents == s.intents - {s.slots[id].trid}
  {
    assert GoodEntry(s, s.slots[id].trid, s.slots[id].entry);
    s' := HeadCanSettle(s, id);
    ReachedKeepsInv(s, s');
  }

  /** A waiting head is settled, an orphaned one expires: either way there is one intent less. */
  lemma HeadGoes(s0: State, s: State, t: nat) returns (s': State)
    requires Recovers(s0, s) && Inv(s) && Quiet(s) && t in s.intents && Head(s, s.intents[t].sender, t)
    ensures Recovers(s0, s') && Inv(s') && Quiet(s') && s'.intents == s.intents - {t}
  {
    if id :| id in s.slots && s.slots[id].trid == t {
      s' := WaitingHeadGoes(s, id);
      RecoversFurther(s0, s, s');
    } else {
      ExpiryTakesOne(s, t);
      RecoversOn(s0, s, Expire(t));
      s' := Apply(s, Expire(t));
    }
  }

  lemma IntentsGo(s0: State, s: State) returns (s': State)
    requires Recovers(s0, s) && Inv(s) && Quiet(s)
    ensures Recovers(s0, s') && Inv(s') && Quiet(s') && s'.intents == map[]
    decreases |s.intents|
  {
    s' := s;
    if t: nat :| t in s.intents {
      var head := OldestIntent(s, t);
      s' := HeadGoes(s0, s, head);
      Fewer(s.intents, head);
      s' := IntentsGo(s0, s');
    }
  }

  /** After any crashes, failed calls, lost removals and expired intents, nobody is blocked for ever: from every
      reachable state the system can go on, with the TTL and without new payments, to one in which nothing is
      under way and no intent is left. What then still stands in a slot has lost its intent. */
  lemma EverythingRecovers(states: seq<State>, events: seq<Event>, i: nat) returns (s': State)
    requires Run(states, events) && i < |states|
    ensures Recovers(states[i], s') && Quiet(s') && s'.intents == map[]
    ensures Inv(s')
  {
    RunInv(states, events, i);
    var s := states[i];
    var s1 := ComesToRest(s);
    RecoversItself(s);
    RecoversFurther(s, s, s1);
    s' := IntentsGo(s, s1);
  }
}
