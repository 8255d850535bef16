# A verified model of the HGC money system

The repository runs the currency (HGC) and the attendance checks of a school state: API workers in Node.js
share one MongoDB database, and browser clients show its data. This project models the parts in which money,
time or answers could go wrong, in Dafny, and proves what the code relies on. `dafny verify dfyconfig.toml`
checks all of it.

## What is modelled

**Settlement of payments.** `Settlement.dfy` is a state machine with one event per atomic database operation
or callback: an intent is saved, its callback pushes a slot, a tick asks for permission for every live slot,
three aggregations read the balance at three different moments, the row is stored or the payment refused, the
intent is removed; spawned money and other senders' credits land at any time; workers crash, the TTL removes
intents, saves, writes and other database calls fail, administrators delete rows. `Enabled` and `Apply` are
these steps, failures included. `Disciplined` (`SettlementInvariant.dfy`) holds the assumptions that the code
makes without enforcing them:

- A1: when a permission callback starts to work on a slot, no other chain is working on it. The guard
  `if (!pe) return` only notices slots that are already deleted.
- A2: the time of a new intent is later than the times of its sender's pending intents.
- A3: the TTL does not remove an intent whose payment is between its permission and its write, and a write
  that reports an error is not carried out, neither before the report nor later.
- A4: no row is deleted.
- The entries are sound: no negative amounts. `Payments.dfy` shows which requests lead to such entries.

`SettlementTheorems.dfy` holds the safety theorems about all runs of any number of workers,
`Linearization.dfy` the refinement to a bank that serves one request after the other, `Traces.dfy` what answers
and balances are made of, `Progress.dfy` what happens when nothing fails and `Recovery.dfy` what happens after
failures. The theorems name rows, answers and entries by the events of the run, so that nothing depends on what a
step writes down about itself. `Witnesses.dfy` has three reachable states from which one step that breaks A1, A3
or A4 leads to an overdrawn account or to the answer "nomoney" for a payment that was made. In `Workers.dfy` the effect of each callback on its worker is a function; the
methods of a class carry it out on the array they change, and each worker event of the state machine is proved
to be that effect together with the calls it sends. `Database.dfy` holds the database calls as methods on the
collections. `JsArrays.dfy` is the array with holes that `push` and `delete` make.

**Amounts.** `Tax.dfy` is the rounding and the conversions between gross and net amounts, over real numbers and
for any grid of smallest units; the server and the tax calculator of the app use the same formulas.
`Decimals.dfy` is the check for the number of decimal places, with its regular expression and the text that
ECMA-262 edition 5.1, section 9.8.1, gives to a number. `Payments.dfy` puts both together: from a request to an
entry. `Ledger.dfy` has balances and conservation. `AdminTotals.dfy` compares what the administrator's list
shows with what the server books.

**Second readers.** `Statement.dfy` compares the running sum of the account statement with the balance,
`Polling.dfy` is the table of waiting clients with its timers and late database replies, `PollTraces.dfy` tells
its contents and answers by the events of the run, `ConfigCache.dfy` is the configuration log and each worker's
copy.

**Attendance and cards.** `Attendance.dfy` compares `calc_checkin_time` with the plain measure of all instants
whose latest event is a checkin. `IdCards.dfy` is the sheet of identity cards.

Five promises of the code hold only under a condition, which the model states exactly, with an input for which
it fails:

- The statement's sum equals the balance if and only if no row has brought the account negative tax
  (`Statement.StatementAgreesIff`); `get_last_transactions` leaves such rows out. The `transaction`
  action does not refuse a negative configured rate, and with one they come about
  (`Statement.NegativeRateHidesTax`).
- All loads of one configuration log have the same effect, and workers converge, if and only if the latest
  changes of each key agree on its value (`ConfigCache.LoadsAgreeIff`). Two different values saved in the same
  millisecond, with no later change of that key, make loads differ (`ConfigCache.TiesDiverge`).
- If the loaded part of the log is decided in this sense, a worker's configuration equals the replayed log if
  and only if every default that it has removed locally is in that part (`ConfigCache.CacheEqualsReplayIff`): a
  removal that did not reach the log is never undone and never shared (`ConfigCache.LostRemoval`). The replayed
  log is the defaults overridden by the latest value of each key by time, since saves of several workers can
  land out of order (`ConfigCache.SavesOutOfOrder`).
- The attendance of a student does not depend on the order in which the sort leaves simultaneous events, if and
  only if simultaneous events have the same kind (`Attendance.MeasureOfSameEventsIff`, `Attendance.TiesMatter`).
- A gross amount covers its own tax if and only if it is large enough for the rounding
  (`Payments.CoversOwnTaxIff`); on the grid it always is. `master_transaction` does not check the grid, and
  `Payments.OffGridIsUnsound` is an amount for which the recipient would lose money.

Where documentation and code disagree, the model follows the code: the comment at
`server/api/config/index.js:41-47` describes a default argument that `get` does not have, and the one at
`client/common/checkintime.js:30` speaks of the last checkin where the code takes the last event of any kind.
Two consequences of the code may surprise: a polling client can be answered with rows that are not newer than
its own date, if another client of the same QR-ID has an older one (`server/api/actions/polling.js:97-99`,
`Polling.SharedNews`); and
the administrator's list shows no tax for a row without a tax rate, while the server applies its default
(`AdminTotals.SameRateIff`).

## Model

| member | source | states |
|---|---|---|
| Ledger.Conservation | server/api/actions/transactions.js:320-359 | For every ledger of transfers, self-transfers, taxed spawns, destructions and changing tax recipients, all balances together are what the magic account sent minus what it received |
| Ledger.CoveredIsSolvent | server/api/actions/transactions.js:207-217 | If every row could be paid when it was appended, no account, the tax account and self-payers included, has a negative balance |
| Ledger.TotalsGrow | server/api/db/transactions.js:150-199 | While nobody appends a payment of the account, income and tax income only grow and payments stay |
| Ledger.TornReadsAreSandwiched | server/api/db/transactions.js:138-200 | Aggregations evaluated at three moments in any order give a value between the true balance at the first and at the last moment |
| SettlementInvariant.StepKeepsInv | server/api/actions/transactions.js:218-269 | Every step of every worker, crash, expiry, error or spawn keeps the invariant of the protocol: identities, lock, order, answers and money |
| SettlementTheorems.NoOverdraft | server/api/actions/transactions.js:207-217 | In every reachable state every account has a balance of at least 0 |
| SettlementTheorems.OneSettlementPerSender | server/api/db/transactions.js:82-113 | In every reachable state at most one payment per sender holds its permission, from the granted query until writeComplete has removed the intent, and at most one chain works on it |
| SettlementTheorems.OneChainPerSender | server/api/actions/transactions.js:245-260 | In every reachable state at most one chain per sender reads its balance or writes its row |
| SettlementTheorems.FirstComeFirstServed | server/api/db/transactions.js:68-94 | One sender's rows stand in the ledger in the order of their intents, across workers, crashes and expired intents |
| SettlementTheorems.CapturedIndexIsStable | server/api/actions/transactions.js:245-261 | An index captured by a callback denotes the intent it was captured for or a hole, for ever |
| SettlementTheorems.TornReadsAreSafe | server/api/db/transactions.js:138-200 | In every reachable state a complete balance is a lower bound of the true balance, and not below the true balance at its first read |
| SettlementTheorems.RunTells | server/api/actions/transactions.js:219-227 | At every later moment and on whatever worker, the intent, the payment under way, the slot and the request hold the sender, time, worker and entry that were announced |
| SettlementTheorems.RowsComeFromEvents | server/api/actions/transactions.js:352-363 | The new rows of a run are those of its store and spawn events, one per event and in their order; a spawn gives its own entry, a store the row of the intent whose chain it is about; older rows stay |
| SettlementTheorems.RowWasAnnounced | server/api/actions/transactions.js:361-363 | Each row with an intent holds the entry that was announced for that intent |
| SettlementTheorems.RowWasSpawned | server/api/actions/transactions.js:352-359 | Each new row without an intent holds the entry of a spawn |
| SettlementTheorems.ExactlyOnce | server/api/actions/transactions.js:229-259 | From its answer on, "ok" means exactly one row, with the entry that was announced, "nomoney" none, and there is no second final answer |
| SettlementTheorems.AtMostOneRow | server/api/actions/transactions.js:255-258 | No intent leads to two rows, also if its worker crashed before it answered |
| Linearization.RunRefinesBank | server/api/actions/transactions.js:245-269 | A bank that serves the history one by one, appending if the balance suffices and refusing otherwise, ends with exactly this ledger and these answers |
| Linearization.HistoryIsComplete | server/api/actions/transactions.js:245-269 | The history holds every row and every refusal exactly once |
| Linearization.HistoryRespectsRealTime | server/api/actions/transactions.js:249-259 | What has taken effect before a request was made stands before it in the history: payments take effect when their row is stored, refusals at their first read |
| Linearization.AnswersComeFromHistory | server/api/actions/transactions.js:249-259 | Every final answer a client has got is the bank's answer to the operation of the history with that request's intent and the entry that was announced for it |
| Traces.AnswersComeFromEvents | server/api/actions/transactions.js:229-259 | The answers of a run, in order, are one "ok" per acknowledged write, one "nomoney" per balance that was too small and one error per failed save or call, each for its own payment |
| Traces.WasRead | server/api/db/transactions.js:150-199 | Each of the three values of a balance is the result of its aggregation on the ledger of the moment at which it was evaluated |
| Progress.AskedHeadSettles | server/api/actions/transactions.js:263-269 | Between any two moments without failures: a sender's oldest payment that a tick has asked for is settled once the chain of that query has ended |
| Progress.RoundSettlesHeads | server/api/actions/transactions.js:263-269 | Every round of ticks, however busy at both ends, settles the oldest payment of every sender that has one in a slot |
| Progress.RoundExists | server/api/actions/transactions.js:263-269 | From every failure-free state, however busy, a round without new payments can be run |
| Progress.RoundShortensQueue | server/api/actions/transactions.js:263-269 | Once arrivals have stopped, a round lengthens no queue and makes the queue of every sender whose oldest intent waits in a slot strictly shorter |
| Progress.QueuesDrain | server/api/actions/transactions.js:263-269 | From any state, one round more than the longest queue is long settles and removes every payment; chains may be in flight at the ends of all rounds |
| Progress.ClearQueuesDrain | server/api/actions/transactions.js:263-269 | If no save or removal is under way at the beginning, as many rounds as the longest queue is long are enough |
| Progress.CanBecomeQuiet | server/api/actions/transactions.js:245-269 | From every failure-free state all chains, saves and removals under way can come to their end |
| Progress.NoDeadlock | server/api/actions/transactions.js:245-269 | From every state of every run without failures, however busy, all payments can be settled and all intents removed |
| Traces.IntentStandsIff | server/api/db/transactions.js:68-113 | An intent stands if and only if it was announced and has been neither removed nor expired since |
| Traces.RemovalStandsIff | server/api/db/transactions.js:107-113 | The removal of an intent is under way if and only if its payment has its final answer and the removal has neither happened nor failed |
| Recovery.ExpiryPassesTheTurn | server/api/db/transactions.js:49-63 | The expiry of the intent that blocks a sender makes the sender's next intent the oldest, and changes neither slots nor ledger |
| Recovery.EverythingRecovers | server/api/db/transactions.js:49-63 | From every reachable state, after any crashes, failed calls and lost removals, the system can go on with the TTL and without new payments to a state with nothing under way and no intent left |
| Witnesses.OverlapOverdraws | server/api/actions/transactions.js:246-249 | A reachable state in which a second chain passes the guard, and then disciplined steps pay twice and overdraw the account: A1 is needed |
| Witnesses.DeletionOverdraws | server/api/actions/transactions.js:509-521 | A reachable state in which a deleted row makes a checked payment overdraw the account: A4 is needed |
| Witnesses.LateWriteMisleads | server/api/db/transactions.js:96-105 | A reachable state in which a write that had reported an error happens after all, and the retried payment is then answered "nomoney" although its row stands: A3 is needed |
| Workers.Worker.constructor | server/api/actions/transactions.js:218 | A worker starts with an empty array |
| Workers.Worker.Queue | server/api/actions/transactions.js:219-227 | Carries out AfterQueue: the payment is pushed, nothing is sent |
| Workers.Worker.Tick | server/api/actions/transactions.js:263-268 | Carries out AfterTick: one permission query per live slot in ascending order, none for holes |
| Workers.Worker.OnWritePermission | server/api/actions/transactions.js:246-249 | Carries out AfterPermission: the balance is asked for exactly if the slot is still there |
| Workers.Worker.OnBalance | server/api/actions/transactions.js:249-260 | Carries out AfterBalance: too little money gives a refusal, the removal of the intent and a hole, otherwise the write is sent and the array unchanged |
| Workers.Worker.OnWritten | server/api/actions/transactions.js:235-258 | Carries out AfterWrite: answer "ok", a hole, removal of the intent |
| Workers.TickIsAsks | server/api/actions/transactions.js:263-268 | Performing the calls of AfterTick is exactly the Ask events of the worker's live slots in ascending order |
| Workers.HasOneArray | server/api/actions/transactions.js:218 | In every state of the machine each worker has exactly one array |
| Workers.EnqueueIsQueue | server/api/actions/transactions.js:361-363 | The event Enqueue is exactly AfterQueue on the announcing worker, all other workers keep their arrays |
| Workers.CallbackIsOnWritePermission | server/api/actions/transactions.js:246-249 | The event Callback is exactly AfterPermission on the chain's worker and the performance of its calls |
| Workers.AcknowledgeIsOnWritten | server/api/actions/transactions.js:255-258 | The event Acknowledge is exactly AfterWrite on the chain's worker and the performance of its calls |
| Workers.CrashIsRestart | server/api/main.js:10-16 | A crashed worker has the array of a new one, its chains and saves are gone, its writes may still happen; all other workers, the ledger, the intents and the answers stay |
| Workers.ArraysStay | server/api/actions/transactions.js:245-261 | No other event touches an array; in particular a payment whose database call has failed stays in its slot |
| Workers.DecideIsOnBalance | server/api/actions/transactions.js:249-260 | The event Decide is exactly AfterBalance with the balance of the three aggregations, on the chain's worker, and the performance of its calls |
| Database.TransactionDb.SaveIntent | server/api/db/transactions.js:68-80 | A new intent with its sender and time |
| Database.TransactionDb.CheckWritePermission | server/api/db/transactions.js:82-94 | Permission exactly for the oldest intent of the sender if times differ, for some oldest one otherwise |
| Database.TransactionDb.WriteTransaction | server/api/db/transactions.js:96-105 | One row is appended |
| Database.TransactionDb.WriteComplete | server/api/db/transactions.js:107-113 | The intent is gone, the others stay |
| Database.TransactionDb.RunAggregate | server/api/db/transactions.js:150-199 | The aggregation on the present ledger |
| Database.Aggregated | server/api/db/transactions.js:150-199 | One sum over the matching rows, or no document if there are none |
| Database.BalanceQuery.OnAggregated | server/api/db/transactions.js:157-199 | The callback that completes the three values, and no other, calls back once with their balance |
| Database.GetBalance | server/api/db/transactions.js:138-200 | In every order of the three callbacks, and with each aggregation evaluated on a ledger of its own, the callback is called exactly once, with the value of all three |
| Database.GetTornBalance | server/api/db/transactions.js:138-200 | On one growing ledger without payments of the account, that one call reports a value between the true balance at the first and at the last evaluation |
| Tax.NetTaxIs | server/api/actions/transactions.js:202-205 | The tax on a net amount is so many hundredths of it, rounded up to the grid |
| Tax.GrossTaxIs | server/api/actions/transactions.js:197-200 | The tax in a gross amount is percent parts in 100 + percent of it, rounded up to the grid |
| Tax.GrossNetGalois | server/api/actions/transactions.js:197-205 | On the grid, the gross amount for N is at most G if and only if N is at most the net amount of G, for every tax of at least 0 |
| Tax.NetRoundTrip | server/api/actions/transactions.js:325-327 | From net to gross and back is the identity |
| Tax.GrossRoundTrip | client/app/www/js/taxcalc.js:13-33 | From gross to net and back never exceeds the gross amount and loses less than 1 + tax units |
| Tax.ConversionsStayOnGrid | server/api/actions/transactions.js:320-327 | Converted amounts of the grid are on the grid |
| Tax.NetToGrossStrictlyMonotone | client/app/www/js/taxcalc.js:18-31 | A larger net amount costs strictly more |
| Tax.LeastOnGrid | server/api/actions/transactions.js:9-13 | Rounding up gives the least amount on the grid that is not below the value |
| Tax.SplittingNeverSavesTax | server/api/actions/transactions.js:197-205 | For gross2tax and for net2tax, at every rate: the taxes of the parts of a payment add up to at least the tax on their sum, by less than one unit per part |
| Decimals.MatchesAsRegex | server/api/actions/transactions.js:392-393 | The scanner matches at a position exactly if the rest is a fraction and an exponent as in the regular expression |
| Decimals.NDecimalsOfText | server/api/actions/transactions.js:392-396 | On the text of any number, the result is the number of places of its shortest decimal form |
| Decimals.CheckIsExact | server/api/actions/transactions.js:411-416 | At most k places if and only if the number is a whole number of units of 10^-k |
| Payments.AcceptedIff | server/api/actions/transactions.js:289-363 | A request gets through if and only if it has exactly one positive amount and all parties exist; what is then spawned, destroyed or queued |
| Payments.RejectionIsReal | server/api/actions/transactions.js:289-318 | Every refusal names a reason that the request gives, and among several the one that is looked for first |
| Payments.AcceptedMoves | server/api/actions/transactions.js:333-350 | On every ledger, for every account: the given sender loses the sent amount unless it is a spawn, the given recipient gains the received amount unless it is a destruction, the tax account gains the tax, these add up where they coincide, and nobody else is concerned |
| Payments.AcceptedAmounts | server/api/actions/transactions.js:320-327 | The given amount stays as it is, the tax is the exact tax on it rounded up to the grid, and sent is received plus tax |
| Payments.NormalAcceptedIff | server/api/actions/transactions.js:398-425 | transaction_normal lets a payment through if and only if the comment is short enough, every given amount has at most k places, the sender exists, the password is right, exactly one positive amount is given and everybody is found; it then is that of transaction |
| Payments.NormalRejectionIsReal | server/api/actions/transactions.js:407-424 | Each refusal of transaction_normal names a real reason, and among several the one that is looked for first: comment, decimal places, sender, password, and then those of transaction |
| Payments.AcceptedIsSound | server/api/actions/transactions.js:320-350 | An accepted amount on the grid gives tax and received amount of at least 0, and sent is received plus tax |
| Payments.AcceptedIsDisciplined | server/api/actions/transactions.js:352-363 | Such entries are the ones the settlement theorems ask for |
| Payments.NormalIsSound | server/api/actions/transactions.js:398-425 | With no more decimal places than the grid has, every accepted payment of a number is sound |
| Payments.OffGridIsUnsound | server/api/actions/transactions.js:484-499 | At five decimal places, an unchecked amount off the grid for which the received amount is negative |
| Payments.CoversOwnTaxIff | server/api/actions/transactions.js:325-327 | Exactly which gross amounts cover their own rounded tax |
| Attendance.Sort | client/common/checkintime.js:19-22 | The events are sorted by time and are the same events |
| Attendance.LastBefore | client/common/checkintime.js:33-42 | The last event before the window, if there is one |
| Attendance.Intervals | client/common/checkintime.js:44-68 | Closed, disjoint, ordered intervals inside the window, as long together as the true measure; presence is the state at the end |
| Attendance.CalcCheckinTime | client/common/checkintime.js:11-77 | For every list of events the measure of the instants whose latest event is a checkin, in seconds, at most half a second off, and the presence at the end; also what comes out if the window ends before it begins |
| Attendance.InsideMeans | client/common/checkintime.js:33-58 | Inside at an instant means that the last event up to it is a checkin |
| Attendance.MeasureCounts | client/common/checkintime.js:70-76 | The measure is the number of instants of the window at which the student is inside |
| Attendance.MeasureAdds | client/common/checkintime.js:33-74 | Unrounded time adds up over adjacent windows, whatever happens at the instant between them |
| Attendance.SortedIsUnique | client/common/checkintime.js:19-22 | If events at the same time have the same kind there is only one sorted order |
| Attendance.MeasureOfSameEventsIff | client/common/checkintime.js:13-74 | All sortings of the events give the same unrounded time and presence in every window if and only if events at the same time have the same kind |
| Attendance.TiesMatter | client/common/checkintime.js:19-22 | A checkin and a checkout at the same instant: two sortings with different times |
| Statement.LastTransactions | server/api/actions/transactions.js:106-135 | All rows of the first query as they are, then, for each row of the second with positive tax, in order, an untaxed transfer of that tax from its payer to this QR-ID, marked as transformed |
| Statement.RenderRow | client/userterminal/site/statement/scripts.js:20-40 | The change of the displayed balance, and a description that fits it |
| Statement.Render | client/userterminal/site/statement/scripts.js:19-40 | Beside each row stands the sum of that row and all below it; the last balance is the sum of all rows |
| Statement.StatementVersusBalance | server/api/actions/transactions.js:106-135 | With a stable QR-ID, displayed sum and balance differ by exactly the negative tax income, however the queries sort |
| Statement.StatementAgreesIff | client/userterminal/site/statement/scripts.js:28-35 | They agree if and only if the account got no negative tax, also with self-transfers and a tax account that taxes itself |
| Statement.NegativeRateHidesTax | server/api/actions/transactions.js:118-120 | A payment at a configured rate of -10 percent after which the tax account's statement shows 0 and its balance is -1 |
| Polling.PollTable.Register | server/api/actions/polling.js:56-61 | The new poll gets the next index, all others keep theirs |
| Polling.PollTable.OnTimeout | server/api/actions/polling.js:63-68 | A live poll is answered with nothing and becomes a hole; a hole stays one |
| Polling.PollTable.Capture | server/api/actions/polling.js:100-101 | The index is added to the list of its QR-ID |
| Polling.PollTable.Tick | server/api/actions/polling.js:84-107 | One condition per live poll and, per QR-ID, the indices of its live polls |
| Polling.PollTable.HandleDbPollAnswer | server/api/actions/polling.js:77-82 | A live poll is answered and becomes a hole, a hole is skipped |
| Polling.PollTable.OnReply | server/api/actions/polling.js:110-123 | All groups are answered to all captured indices, in some order of the groups |
| Polling.GroupRows | server/api/actions/polling.js:112-116 | The rows per QR-ID, in the order of the result |
| Polling.StepKeepsInv | server/api/actions/polling.js:56-123 | Registrations, timers, stored rows, queries, failures and replies keep the table's invariant |
| Polling.EachPollIsAnsweredOnce | server/api/actions/polling.js:56-82 | In every interleaving each poll is answered at most once, by its own answer function, and exactly once after its timer |
| Polling.NewsIsRight | server/api/actions/polling.js:108-122 | A reply is not empty, newest first, and consists of the rows of this QR-ID that are newer than the date of one of its polls the query was made for: exactly these, each as often as it was stored, if poll_max did not cut the result off, otherwise none older than a missing one |
| Polling.NewsReachesEveryPoll | server/api/actions/polling.js:97-122 | After the reply to a query that poll_max did not cut off, every poll it was made for that had a newer row is answered |
| Polling.FoundReachesEveryPoll | server/api/actions/polling.js:110-122 | Also after the reply to a query that was cut off, every poll it was made for whose QR-ID is that of a row in the result is answered |
| Polling.ShortIsUncut | server/api/actions/polling.js:108-110 | A result below poll_max was not cut off |
| Polling.SharedNews | server/api/actions/polling.js:97-101 | A run in which a client is answered with a row older than its own date, because another client of its QR-ID has an older date |
| Polling.EveryGroupIsCaptured | server/api/actions/polling.js:118-119 | Every QR-ID of a result has remembered indices, in every reachable state |
| PollTraces.TableIsTold | server/api/actions/polling.js:56-67 | The polls, the stored transactions and the number of queries are those of the events so far, and a timer runs from the registration of its poll until it fires |
| PollTraces.QueryWasAsked | server/api/actions/polling.js:84-108 | Every query was asked by a tick, with its limit, and remembers and asks for every poll that was waiting at that moment |
| PollTraces.ResultWasGiven | server/api/actions/polling.js:108-110 | What a query found is what the database gave it, from the transactions stored at that moment |
| PollTraces.RepliedIff | server/api/actions/polling.js:110-122 | A query has been replied to if and only if its reply is among the events |
| PollTraces.TimeoutWasTimed | server/api/actions/polling.js:63-67 | An empty answer is the work of the poll's own timer |
| PollTraces.FoundIsTold | server/api/actions/polling.js:77-82 | A poll for which a replied query found something has been answered with news, unless its timer has fired |
| ConfigCache.ConfigDb.Set | server/api/db/config.js:21-26 | The change is appended to the log |
| ConfigCache.ConfigDb.Load | server/api/db/config.js:36-61 | Every logged key once, with a value that no later entry replaces |
| ConfigCache.Cache.constructor | server/api/config/index.js:7 | A worker starts with the defaults |
| ConfigCache.Cache.UpdateConfig | server/api/config/index.js:14-28 | Every loaded setting is carried out, null as a removal |
| ConfigCache.Cache.Del | server/api/config/index.js:36-39 | The key is gone from this worker's copy at once, and its removal goes to the log |
| ConfigCache.Cache.Get | server/api/config/index.js:48-50 | The value of the copy, or nothing |
| ConfigCache.Cache.Set | server/api/config/index.js:31-33 | Only the log changes, the copy waits for the next load |
| ConfigCache.LoadsAgreeIff | server/api/db/config.js:41-46 | For every copy: all loads of a log have the same effect if and only if the latest changes of each key agree on its value |
| ConfigCache.SnapshotAt | server/api/config/index.js:15-27 | After a load of a decided log, logged keys have their latest values and other keys what they had |
| ConfigCache.UpdateIsReplayIff | server/api/config/index.js:14-28 | A load makes any copy equal to the replayed log if and only if the copy had the defaults wherever the log is silent |
| ConfigCache.CacheEqualsReplayIff | server/api/config/index.js:14-39 | After loads of earlier logs in any order and with any ties, and local removals, a load of a decided log gives exactly the replay if and only if every locally removed default is in the log |
| ConfigCache.WorkersConverge | server/api/config/index.js:9-13 | Two such workers that have loaded the same decided log agree |
| ConfigCache.ReloadIsIdempotent | server/api/config/index.js:56-60 | Loading the same decided log again changes nothing |
| ConfigCache.LateDelivery | server/api/config/index.js:14-28 | A late older delivery takes back the keys it knows and only those |
| ConfigCache.ReplayInOrder | server/api/db/config.js:41-46 | If the saves of each key landed in the order of their times, the replay is what the changes do one after the other |
| ConfigCache.SavesOutOfOrder | server/api/db/config.js:21-26 | A log whose saves landed the other way round: the later time wins |
| ConfigCache.TiesDiverge | server/api/db/config.js:41-46 | An undecided log with two loads that lead to different copies |
| ConfigCache.LostRemoval | server/api/config/index.js:36-39 | A removed default whose save is lost stays removed on this worker only, however the log grows without that key |
| ConfigCache.LostFirstRemoval | server/api/config/index.js:36-39 | A concrete such worker |
| AdminTotals.Totals | client/adminpanel/site/maketransaction/scripts.js:135-161 | For every list the shown sent amount is the shown received amount plus the shown tax, and the totals are the sums over the rows |
| AdminTotals.Average | client/adminpanel/site/maketransaction/scripts.js:163-165 | The averages obey the same identity and multiply back to the totals; they are 0 for the empty list |
| AdminTotals.SameRateIff | client/adminpanel/site/maketransaction/scripts.js:60-65 | Exactly when list and server use different tax rates |
| AdminTotals.RowWithinUnits | client/adminpanel/site/maketransaction/scripts.js:143-159 | For one row, the server's tax is the shown tax or less than one unit more |
| AdminTotals.ServerTaxVersusShownTax | client/adminpanel/site/maketransaction/scripts.js:135-161 | For every list with equal rates, the server's tax is at least the shown tax, by less than one unit per row; senders pay at least and recipients get at most what was shown |
| IdCards.FitsIff | client/adminpanel/site/idcards/scripts.js:54-55 | A card position lies on the page if and only if it is below the computed amount |
| IdCards.Pdf.RenderStudentCard | client/adminpanel/site/idcards/scripts.js:180-196 | The card is drawn at its place, the picture counter goes up for a student with a picture |
| IdCards.Pdf.RenderRow | client/adminpanel/site/idcards/scripts.js:258-265 | One row of cards, or its beginning if the list ends |
| IdCards.Pdf.RenderStudents | client/adminpanel/site/idcards/scripts.js:254-269 | The loops end; every element is drawn once and in order at the place with its index; the number of pages, with an empty last page if the list fills its pages; the number of pictures to load |
| IdCards.CardsAreInOrder | client/adminpanel/site/idcards/scripts.js:256-264 | Later elements come later in reading order, so no two share page, row and column |
| IdCards.CardsFollowEachOther | client/adminpanel/site/idcards/scripts.js:256-264 | The first card is drawn in the corner of the first page, each next one exactly one card and one margin to the right, or at the left edge that much below after a full row, or in the corner of the next page after a full page |
| IdCards.CardsReadLeftToRight | client/adminpanel/site/idcards/scripts.js:262-263 | Column 0 is drawn at the left edge and row 0 at the top; of two cards on a page the later one is further right in the same row, or further down, by at least a card and a margin |
| IdCards.CardsDoNotOverlap | client/adminpanel/site/idcards/scripts.js:262-263 | Two cards of one page are at least a margin apart |
| IdCards.CardsAreOnPage | client/adminpanel/site/idcards/scripts.js:262-263 | Every card lies within the page |
| IdCards.EndsIffOneFits | client/adminpanel/site/idcards/scripts.js:256-260 | The loops can meet the end of the list if and only if one card fits on the page |

## Left out

- Encryption, certificates, passwords, HTTP and the spawning of workers: an authorised request is an event or a method call.
- The inside of MongoDB and mongoose: collections are sequences and maps with atomic single operations; a query sees one state of its collection.
- Floating point: amounts are real numbers, so rounding errors of the binary format and of `toFixed` do not appear. The display rounding of statement, totals and calculator is left out.
- Runs that break A1 to A4, apart from the three witnesses; deleting students and editing profiles are not events. `transaction_delete` is the event Delete, which disciplined runs exclude.
- The second "ok" on the spawn path and the several error answers that one getBalance can give: Abort and FailSave stand for one error answer each, and ExactlyOnce is about final answers only.
- `spawn_money`, `destroy_money` and `master_transaction` skip the check of decimal places: their amounts are assumed to be on the grid where soundness is claimed. Soundness is claimed for tax rates of at least 0; a rate of -100 percent (a division by zero) is left out.
- Payments.Transaction takes the outcome of the lookups in the students collection as parameters; texts of numbers with a sign and amounts that are not numbers are only checked as far as the branches of `transaction` look at them.
- Statement.LastTransactions: both queries are taken of one state of the ledger and with no limit on the amount, as the statement requests them.
- Attendance: only checkin and checkout events, with valid dates in whole milliseconds; the last interval is closed when it is added instead of being kept unfinished in the array.
- Polling: dates are whole milliseconds; QR-IDs that are names of properties of every JavaScript object are left out; a reply that throws is not modelled, EveryGroupIsCaptured shows that the lookup does not.
- ConfigCache: values are strings; the append of a removal may reach the log at any later time, which is why the theorems treat it apart from the local half; what a replay is when the loaded part of the log is not decided stays open, since then no two loads need agree.
- Workers.Worker: the settlement theorems are about runs of the state machine; each worker event of it is tied to the callback's effect, and the class to the same effects, call by call.
- IdCards: what is drawn inside a card, the sorting by type, and the loading of the pictures after the loop. RenderStudents needs room for one card, without which the original loops never end.
- The form fields of the tax calculator and of the administrator's panel, the readable formats, all of the DOM, PDF, webcam, radio and gateway code, and the performance statistics.
