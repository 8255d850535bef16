/** How a request becomes a ledger entry: the checks and the amounts of transaction and
    transaction_normal (server/api/actions/transactions.js:281-425). */
module Payments {
  import opened Options
  import opened Tax
  import opened Ledger
  import opened Decimals
  import S = Settlement
  import I = SettlementInvariant

  /** An amount in a request: absent (the code then puts false), a number, or something else. */
  datatype Amount = Absent | NaN | Infinite | NotANumber(truthy: bool) | Finite(value: real)

  predicate Truthy(a: Amount) {
    match a
    case Absent => false
    case NaN => false
    case Infinite => true
    case NotANumber(truthy) => truthy
    case Finite(v) => v != 0.0
  }

  datatype Error =
    | Underspecified | Overspecified | InvalidAmount | NoTaxAccount | InvalidSender | InvalidRecipient
    | CommentTooLong | TooManyDecplaces | InvalidPassword

  /** Either an answer at once, or an entry to be written at once or to be queued. */
  datatype Outcome = Rejected(error: Error) | Spawned(entry: Entry) | Queued(entry: Entry)

  /** Documents found in the students collection, and whether an account is the magic one. */
  datatype Parties = Parties(taxIncome: Option<nat>, sender: Option<nat>, recipient: Option<nat>,
                             spawn: bool, destroy: bool)

  /** The amounts of an entry, of which exactly one was given. */
  function Amounts(sent: Amount, received: Amount, percent: real, u: Scale): (real, real, real)
    requires Truthy(sent) != Truthy(received) && percent != -100.0
    requires (Truthy(sent) ==> sent.Finite?) && (Truthy(received) ==> received.Finite?)
  {
    if Truthy(sent) then
      var tax := GrossToTax(sent.value, percent, u);
      (sent.value, sent.value - tax, tax)
    else
      var tax := NetToTax(received.value, percent, u);
      (received.value + tax, received.value, tax)
  }

  predicate BadAmount(a: Amount) {
    Truthy(a) && (!a.Finite? || a.value <= 0.0)
  }

  /** transaction */
  function Transaction(sent: Amount, received: Amount, percent: real, u: Scale, p: Parties): Outcome
    requires percent != -100.0
  {
    if !Truthy(sent) && !Truthy(received) then Rejected(Underspecified)
    else if Truthy(sent) && Truthy(received) then Rejected(Overspecified)
    else if BadAmount(sent) then Rejected(InvalidAmount)
    else if BadAmount(received) then Rejected(InvalidAmount)
    else if p.taxIncome.None? then Rejected(NoTaxAccount)
    else if !p.spawn && p.sender.None? then Rejected(InvalidSender)
    else if !p.destroy && p.recipient.None? then Rejected(InvalidRecipient)
    else
      var (s, r, t) := Amounts(sent, received, percent, u);
      var sender := if p.spawn then Magic else Account(p.sender.value);
      var recipient := if p.destroy then Magic else Account(p.recipient.value);
      var entry := Entry(sender, recipient, p.taxIncome.value, s, r, t);
      if p.spawn then Spawned(entry) else Queued(entry)
  }

  /** What the request's numbers look like as text; a number's text is that of section 9.8.1. */
  function Places(a: Amount, text: string): int {
    if Truthy(a) then NDecimals(text) else 0
  }

  /** transaction_normal; the limit k is hgc_tr_decimal_places. */
  function Normal(sent: Amount, sentText: string, received: Amount, receivedText: string, commentLength: nat,
                  maxComment: nat, k: nat, passwordOk: bool, percent: real, u: Scale, p: Parties): Outcome
    requires percent != -100.0
  {
    if commentLength > maxComment then Rejected(CommentTooLong)
    else if Places(sent, sentText) > k then Rejected(TooManyDecplaces)
    else if Places(received, receivedText) > k then Rejected(TooManyDecplaces)
    else if p.sender.None? then Rejected(InvalidSender)
    else if !passwordOk then Rejected(InvalidPassword)
    else Transaction(sent, received, percent, u, p)
  }

  // ---------- properties ----------

  predicate Positive(a: Amount) { a.Finite? && a.value > 0.0 }

  /** Exactly one positive amount is given, and nothing else that counts as an amount. */
  predicate OneAmount(sent: Amount, received: Amount) {
    (Positive(sent) && !Truthy(received)) || (Positive(received) && !Truthy(sent))
  }

  /** Everybody whom the payment concerns is found. */
  predicate AllFound(p: Parties) {
    p.taxIncome.Some? && (p.spawn || p.sender.Some?) && (p.destroy || p.recipient.Some?)
  }

  /** A request gets through exactly if it gives one positive amount and all parties exist; a spawn
      comes from the magic account, a destruction goes to it, everything else moves between accounts. */
  lemma AcceptedIff(sent: Amount, received: Amount, percent: real, u: Scale, p: Parties)
    requires percent != -100.0
    ensures var o := Transaction(sent, received, percent, u, p);
      && (!o.Rejected? <==> OneAmount(sent, received) && AllFound(p))
      && (o.Spawned? ==> p.spawn) && (o.Queued? ==> !p.spawn)
      && (!o.Rejected? ==> (o.entry.sender.Magic? <==> p.spawn) && (o.entry.recipient.Magic? <==> p.destroy))
  {
  }

  /** What an accepted request moves: the sender pays and the recipient gets the amounts of the entry, the tax
      account found gets the tax, the magic account neither pays nor gets, and nobody else is concerned. One
      account can be several of these. */
  lemma AcceptedMoves(sent: Amount, received: Amount, percent: real, u: Scale, p: Parties, l: seq<Entry>, a: nat)
    requires percent != -100.0 && !Transaction(sent, received, percent, u, p).Rejected?
    ensures var e := Transaction(sent, received, percent, u, p).entry;
      Balance(l + [e], a) == Balance(l, a)
        - (if !p.spawn && p.sender == Some(a) then e.sent else 0.0)
        + (if !p.destroy && p.recipient == Some(a) then e.received else 0.0)
        + (if p.taxIncome == Some(a) then e.tax else 0.0)
  {
    BalanceOfAppend(l, Transaction(sent, received, percent, u, p).entry, a);
  }

  /** The amounts of an accepted request: the given one as it was given, the tax on it rounded up to the
      grid, and the other one so that the tax is paid out of the difference. */
  lemma AcceptedAmounts(sent: Amount, received: Amount, percent: real, u: Scale, p: Parties)
    requires percent != -100.0 && !Transaction(sent, received, percent, u, p).Rejected?
    ensures var e := Transaction(sent, received, percent, u, p).entry;
      && e.sent == e.received + e.tax
      && (if Truthy(sent) then sent == Finite(e.sent) && IsTaxOfGross(e.tax, e.sent, percent, u)
          else received == Finite(e.received) && IsTaxOfNet(e.tax, e.received, percent, u))
  {
    if Truthy(sent) {
      GrossTaxIs(sent.value, percent, u);
    } else {
      NetTaxIs(received.value, percent, u);
    }
  }

  /** What each answer means. */
  predicate IsReason(error: Error, sent: Amount, received: Amount, p: Parties) {
    match error
    case Underspecified => !Truthy(sent) && !Truthy(received)
    case Overspecified => Truthy(sent) && Truthy(received)
    case InvalidAmount => (Truthy(sent) && !Positive(sent)) || (Truthy(received) && !Positive(received))
    case NoTaxAccount => p.taxIncome == None
    case InvalidSender => !p.spawn && p.sender == None
    case InvalidRecipient => !p.destroy && p.recipient == None
    case _ => false
  }

  /** The order in which transaction looks for reasons. */
  function Rank(error: Error): int {
    match error
    case Underspecified => 0
    case Overspecified => 1
    case InvalidAmount => 2
    case NoTaxAccount => 3
    case InvalidSender => 4
    case InvalidRecipient => 5
    case _ => 6
  }

  function Reasons(sent: Amount, received: Amount, p: Parties): Error -> bool {
    (error: Error) => IsReason(error, sent, received, p)
  }

  predicate IsFirstReason(error: Error, r: Error -> bool) {
    r(error) && forall e :: r(e) ==> Rank(error) <= Rank(e)
  }

  /** A request is only refused for a reason that it gives, and among several for the one that counts first. */
  lemma RejectionIsReal(sent: Amount, received: Amount, percent: real, u: Scale, p: Parties)
    requires percent != -100.0
    ensures var o := Transaction(sent, received, percent, u, p);
      o.Rejected? ==> IsFirstReason(o.error, Reasons(sent, received, p))
  {
  }

  /** For transaction_normal the sender and the password count before the amounts. */
  function NormalRank(error: Error): int {
    match error
    case CommentTooLong => 0
    case TooManyDecplaces => 1
    case InvalidSender => 2
    case InvalidPassword => 3
    case _ => Rank(error) + 4
  }

  /** What makes transaction_normal refuse, given the reasons r that transaction has. */
  predicate IsNormalReason(error: Error, tooLong: bool, tooFine: bool, passwordOk: bool, p: Parties, r: Error -> bool) {
    match error
    case CommentTooLong => tooLong
    case TooManyDecplaces => tooFine
    case InvalidSender => p.sender == None
    case InvalidPassword => !passwordOk
    case _ => r(error)
  }

  predicate IsFirstNormalReason(error: Error, tooLong: bool, tooFine: bool, passwordOk: bool, p: Parties, r: Error -> bool) {
    && IsNormalReason(error, tooLong, tooFine, passwordOk, p, r)
    && forall e :: IsNormalReason(e, tooLong, tooFine, passwordOk, p, r) ==> NormalRank(error) <= NormalRank(e)
  }

  /** The checks before those of transaction, whose outcome is t. */
  function Guarded(tooLong: bool, tooFine: bool, passwordOk: bool, p: Parties, t: Outcome): Outcome {
    if tooLong then Rejected(CommentTooLong)
    else if tooFine then Rejected(TooManyDecplaces)
    else if p.sender.None? then Rejected(InvalidSender)
    else if !passwordOk then Rejected(InvalidPassword)
    else t
  }

  lemma GuardedReason(tooLong: bool, tooFine: bool, passwordOk: bool, p: Parties, r: Error -> bool, t: Outcome)
    requires t.Rejected? ==> IsFirstReason(t.error, r) && (r(InvalidSender) ==> p.sender == None)
    requires !r(CommentTooLong) && !r(TooManyDecplaces) && !r(InvalidPassword)
    ensures var o := Guarded(tooLong, tooFine, passwordOk, p, t);
      o.Rejected? ==> IsFirstNormalReason(o.error, tooLong, tooFine, passwordOk, p, r)
  {
  }

  /** Some given amount has more than k decimal places. */
  predicate TooFine(sent: Amount, sentText: string, received: Amount, receivedText: string, k: nat) {
    (Truthy(sent) && NDecimals(sentText) > k) || (Truthy(received) && NDecimals(receivedText) > k)
  }

  /** A payment between accounts gets through if and only if the comment is short enough, no given amount has
      more than k decimal places, the sender exists and the password is right, exactly one positive amount is
      given and everybody is found; then it moves what its accounts and amounts say. */
  lemma NormalAcceptedIff(sent: Amount, sentText: string, received: Amount, receivedText: string, commentLength: nat,
                          maxComment: nat, k: nat, passwordOk: bool, percent: real, u: Scale, p: Parties)
    requires percent != -100.0
    ensures var o := Normal(sent, sentText, received, receivedText, commentLength, maxComment, k, passwordOk, percent, u, p);
      && (!o.Rejected? <==>
            && commentLength <= maxComment && !TooFine(sent, sentText, received, receivedText, k)
            && p.sender.Some? && passwordOk
            && OneAmount(sent, received) && AllFound(p))
      && (!o.Rejected? ==> o == Transaction(sent, received, percent, u, p))
  {
    AcceptedIff(sent, received, percent, u, p);
  }

  /** Its refusals, too, name the reason that counts first. */
  lemma NormalRejectionIsReal(
    sent: Amount, sentText: string, received: Amount, receivedText: string, commentLength: nat,
    maxComment: nat, k: nat, passwordOk: bool, percent: real, u: Scale, p: Parties)
    requires percent != -100.0
    ensures var o := Normal(sent, sentText, received, receivedText, commentLength, maxComment, k, passwordOk, percent, u, p);
      var tooFine := TooFine(sent, sentText, received, receivedText, k);
      o.Rejected? ==>
        IsFirstNormalReason(o.error, commentLength > maxComment, tooFine, passwordOk, p, Reasons(sent, received, p))
  {
    var t := Transaction(sent, received, percent, u, p);
    RejectionIsReal(sent, received, percent, u, p);
    var tooFine := TooFine(sent, sentText, received, receivedText, k);
    GuardedReason(commentLength > maxComment, tooFine, passwordOk, p, Reasons(sent, received, p), t);
    assert Normal(sent, sentText, received, receivedText, commentLength, maxComment, k, passwordOk, percent, u, p)
        == Guarded(commentLength > maxComment, tooFine, passwordOk, p, t);
  }

  lemma TaxIsNonNegative(v: real, t: real, u: Scale)
    requires v >= 0.0 && t >= 0.0
    ensures TaxOnNet(v, t, u) >= 0.0 && TaxOnGross(v, t, u) >= 0.0
  {
    RoundUpBounds(Exact(t, v), u);
    RoundUpBounds(ExactInGross(t, v), u);
    DivideAtMost(-(t * v), 0.0, 1.0 + t);
    assert t * v >= 0.0;
    assert -(t * v) / (1.0 + t) == -ExactInGross(t, v);
  }

  /** A gross amount on the grid covers its own tax. */
  lemma NetOfGridIsNonNegative(gross: real, t: real, u: Scale)
    requires gross >= 0.0 && t >= 0.0 && OnGrid(gross, u)
    ensures gross - TaxOnGross(gross, t, u) >= 0.0
  {
    var g :| Units(gross, g, u);
    GrossTaxUnits(gross, g, t, u);
    assert Units(0.0, 0, u);
    UnitsCompare(0.0, 0, gross, g, u);
    AffordableNet(0, g, t);
    UnitsCompare(TaxOnGross(gross, t, u), UnitsOfGrossTax(g, t), gross, g, u);
  }

  /** Every accepted on-grid payment is sound and balanced, charges the given gross amount or
      delivers the given net amount exactly, and stays on the grid. */
  lemma AcceptedIsSound(sent: Amount, received: Amount, percent: real, u: Scale, p: Parties)
    requires percent >= 0.0
    requires sent.Finite? ==> OnGrid(sent.value, u)
    requires received.Finite? ==> OnGrid(received.value, u)
    ensures var o := Transaction(sent, received, percent, u, p);
      !o.Rejected? ==>
        var e := o.entry;
        && Sound(e) && Balanced(e) && e.sent > 0.0
        && OnGrid(e.sent, u) && OnGrid(e.received, u)
        && (if Truthy(sent) then e.sent == sent.value else e.received == received.value)
  {
    var o := Transaction(sent, received, percent, u, p);
    if !o.Rejected? {
      var t := percent / 100.0;
      var v := if Truthy(sent) then sent.value else received.value;
      TaxIsNonNegative(v, t, u);
      NetOfGridIsNonNegative(v, t, u);
      ConversionsStayOnGrid(v, percent, u);
    }
  }

  /** What is accepted on the grid is what the settlement protocol asks for: an account's payment may
      be announced with a young enough time, a spawn may be written at any moment. */
  lemma AcceptedIsDisciplined(sent: Amount, received: Amount, percent: real, u: Scale, p: Parties,
                              s: S.State, w: nat, time: int)
    requires percent >= 0.0
    requires sent.Finite? ==> OnGrid(sent.value, u)
    requires received.Finite? ==> OnGrid(received.value, u)
    ensures var o := Transaction(sent, received, percent, u, p);
      && (o.Spawned? ==> S.Enabled(s, S.Spawn(o.entry)) && I.Disciplined(s, S.Spawn(o.entry)))
      && (o.Queued? && w in s.lengths && I.Youngest(s.intents, o.entry.sender.id, time) ==>
            S.Enabled(s, S.Announce(w, o.entry, time)) && I.Disciplined(s, S.Announce(w, o.entry, time)))
  {
    AcceptedIsSound(sent, received, percent, u, p);
  }

  lemma {:induction false} FinerGrid(v: real, k: nat, d: nat)
    requires k <= d && OnGrid(v, Pow10(k))
    ensures OnGrid(v, Pow10(d))
    decreases d
  {
    if k < d {
      FinerGrid(v, k, d - 1);
      var n :| Units(v, n, Pow10(d - 1));
      TenfoldGrid(v, n, Pow10(d - 1));
    }
  }

  lemma TenfoldGrid(v: real, n: int, u: Scale)
    requires Units(v, n, u)
    ensures Units(v, 10 * n, 10.0 * u)
  {
    Associate(v, u, 10.0);
  }

  /** The amount of a request is the number s * 10^(n - |s|), with its text. */
  ghost predicate IsNumber(a: Amount, text: string, s: string, n: int) {
    && ShortestDigits(s) && (forall c :: c in s ==> IsDigit(c))
    && a == Finite(Value(s, n)) && text == Text(s, n)
  }

  lemma ShortIsOnGrid(text: string, s: string, n: int, k: nat, d: nat)
    requires k <= d && (forall c :: c in s ==> IsDigit(c)) && IsNumber(Finite(Value(s, n)), text, s, n)
    requires NDecimals(text) <= k
    ensures OnGrid(Value(s, n), Pow10(d))
  {
    CheckIsExact(s, n, k);
    FinerGrid(Value(s, n), k, d);
  }

  /** With at most hgc_decimal_places allowed decimal places, every accepted normal payment of a
      positive number is sound: the check keeps all amounts on the grid. */
  lemma NormalIsSound(gross: bool, text: string, s: string, n: int, commentLength: nat, maxComment: nat,
                      k: nat, d: nat, passwordOk: bool, percent: real, p: Parties)
    requires k <= d && percent >= 0.0 && (forall c :: c in s ==> IsDigit(c))
    requires IsNumber(Finite(Value(s, n)), text, s, n)
    ensures var a := Finite(Value(s, n));
      var o := if gross then Normal(a, text, Absent, "", commentLength, maxComment, k, passwordOk, percent, Pow10(d), p)
               else Normal(Absent, "", a, text, commentLength, maxComment, k, passwordOk, percent, Pow10(d), p);
      !o.Rejected? ==>
        && Sound(o.entry) && Balanced(o.entry) && o.entry.sent > 0.0
        && OnGrid(o.entry.sent, Pow10(d)) && OnGrid(o.entry.received, Pow10(d))
  {
    var a, u := Finite(Value(s, n)), Pow10(d);
    if NDecimals(text) <= k {
      ShortIsOnGrid(text, s, n, k, d);
      AcceptedIsSound(a, Absent, percent, u, p);
      AcceptedIsSound(Absent, a, percent, u, p);
    }
  }

  /** Off the grid soundness fails: of a tenth of a unit nothing is left after a tax of one unit. */
  lemma OffGridIsUnsound()
    ensures var o := Transaction(Finite(0.000001), Absent, 10.0, Pow10(5),
                                 Parties(Some(0), Some(1), Some(2), false, false));
      o.Queued? && o.entry.received < 0.0
  {
    FivePlaces();
    assert Ceil(0.1 * 0.000001 / 1.1 * 100000.0) == 1;
  }

  lemma FivePlaces()
    ensures Pow10(5) == 100000.0
  {
    assert Tens(1) == 10 && Tens(2) == 100 && Tens(3) == 1000 && Tens(4) == 10000;
  }

  /** Exactly when a gross amount covers its own tax: its whole units must cover the exact tax. */
  lemma CoversOwnTaxIff(gross: real, t: real, u: Scale)
    requires gross >= 0.0 && t >= 0.0
    ensures gross - TaxOnGross(gross, t, u) >= 0.0 <==> ExactInGross(t, gross) * u <= (gross * u).Floor as real
  {
    var exact := ExactInGross(t, gross);
    RoundUpUnits(exact, u);
    MultiplyMonotone(TaxOnGross(gross, t, u), gross, u);
    CeilAtMost(exact * u, (gross * u).Floor);
    assert Ceil(exact * u) as real <= gross * u <==> Ceil(exact * u) <= (gross * u).Floor;
  }
}
