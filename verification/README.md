# AML evaluation pipeline: model and proofs

The service decides whether a money transfer is approved, flagged or rejected. It keeps the last 24 hours of
each account in a Redis sorted set guarded by a per-account lock, commits the verdict together with an outbox
event, and lets a relay and a consumer copy the event to a history table and an audit table that later
decisions read back. This project models that pipeline and proves what holds in every state of every
interleaving of evaluators, failures, expiries, relays, redeliveries and cleanups.

`dafny verify dfyconfig.toml` checks everything.

## How it is organised

- `Domain`, `Sums`: transactions, verdicts, constants; sums over transaction lists and keyed tables.
- `Verdict`, `Rules`: rule results to status, level and score; the four rules and the engine's order.
- `History`, `Context`, `Statistics`: the history table with its window queries; the loop that builds the account
  context; what both say of the transactions behind the rows.
- `Window`, `Members`, `VolumeCache`: the sliding window, the text members Redis really stores, and the cache
  methods that change them in place, proved to act on the window.
- `Stores`, `Service`: the database with its outbox, the cleaner, the history listener, and one whole evaluation.
- `Account`, `Limit`, `Sandwich`, `Pattern`, `Watch`, `Serial`, `Burst`, `Expiry`, `Dormancy`, `Receivers`: one
  account or receiver, the invariants of its steps, and what they imply.
- `Pipeline`, `Convergence`: tables, write-ahead log, relay, topic, consumer and cleaner.
- `Machine`, `Interleaving`, `Effects`: the whole service as one step machine with a program counter per
  evaluator, the invariant every action keeps, and what one action does to one account.
- `Solo`, `Refinement`: an uninterrupted evaluation of the machine, and the service's code against it.
- `Stage`, `Performance`: one evaluator's steps on an otherwise idle machine, and runs with a given outline.
- `Overshoot`, `Pacing`, `Untimed`, `Guarantees`, `Outcomes`: the theorems over all runs.
- `Escapes`, `Crowd`: the runs that show where a claim stops or that a bound is attained.

## How to read the run theorems

`Run(actions)` is the state after any list of actions from an empty system. An action that is not possible
leaves the state as it is, so the theorems cover every interleaving. Failures are actions: the evaluation
throws before or in the save, the cache write or the sender write fails and the exception is swallowed, an
evaluator dies anywhere, a key is lost or expires, the relay or the consumer falls back.

`Log(s)` is the list of committed events read off the write-ahead log, and the guarantees are stated on it:
`TxsOf`, `ApprovedOf` and `VerdictsOf` pick an account's committed transactions, its approved ones, and whether
the daily-volume rule passed each.

The conditions of the theorems are conditions on the list of actions:

- `Reliable`: no cache write failed, no evaluator died, no sorted set was lost other than by expiry.
- `NoExpiry`: no sorted set expired.
- `NotAhead`: no transaction of the account is dated ahead of the clock when its metrics are read.
- `AfterExpiries`: no read of the account is dated at or before the deadline of an earlier expiry of its set.
- `LagsAtMost`: `NotAhead`, each instant lies at most so far behind the clock at its read, and the set expires
  strictly after its deadline.
- `SendersReliable`: no cache write failed, no evaluator died, no sender set was lost other than by expiry.

An account's record keeps history variables beside its sorted set. Those the theorems mention are `seen` (the
instants read under the lock, in lock order), `ops` (its evaluations and the losses of its set, in lock order),
`beats` (their outline, the evaluation in progress included), `unseen` (the committed transactions the set did not
show to the latest approval, because their cache write failed or their set went), `overlooked` (what every approval
missed) and `blind` (whether some approval missed one of a trailing window). `Serializable` ties `beats` to `ops`,
and `ops` to the set and the log. A receiver's `failed` holds the senders whose write failed or whose set was lost,
`missing` also those that went by expiry.

An outline is a list of beats: a turn is one evaluation that read the metrics, with its transaction or just its
instant, its fate (aborted before the commit, entered into the set, or omitted from it) and whether the set was lost
between its read and its cache write; a lapse is a loss of the set at any other time, by expiry or otherwise. From a
committed turn a later one is hidden (`Pattern.Hides`) if the first was omitted, or if a beat between the two lost
the set or read an instant more than 24 hours ahead of the first. `NoEscape` says that of the committed turns of a
window none is hidden from a later one; `Possible`, that every loss finds an entry of an earlier turn.

Amounts are whole numbers of 1/10000 of a currency unit, the scale of the transactions table; instants are epoch
milliseconds.

## Where the code and its own words differ

- The daily limit is a claim about every 24 hours. It is false of the code for some outlines, and the exact
  condition is on the outline, which a reader of the request order can check: `NoEscape`
  (`Guarantees.WindowExactly`, `Guarantees.TrailingExactly`, `Guarantees.SpanExactly`: if and only if, for every
  outline whose losses find an entry to lose). Wherever the outline hides a transaction of a window from a later
  one, `Escapes.HiddenEscapes` gives a run that approves exactly twice the limit in it. Three cases:
  - Without failures and expiries what hides is a straddle: three instants in lock order of which the second lies
    more than 24 hours ahead of the first and the third back within the window
    (`Guarantees.EveryWindowExactly`). Instants that never go back straddle nothing.
  - An expiry hides what was cached before it. It does no harm if every expired entry is more than 24 hours older
    than what follows, which dates not ahead of the clock and not at or before an expired deadline ensure
    (`Guarantees.DailyLimit`). A transaction dated ahead of the clock outlives its own entry, since the set
    expires 24 hours after the write, not after the date: with two such dates within 24 hours of each other and
    an expiry between them the limit can be exceeded (`Escapes.AheadEscapes`), with dates further apart or the
    expiry elsewhere it cannot (`Guarantees.InstantsExactly`).
  - A swallowed cache failure hides the transaction that was not entered from every later one.
- The REST mapper (`src/main/java/io/github/anakidkin/aml/mapper/TransactionApiMapper.java:24`) dates a request
  before it waits for the lock, so instants can go back. What such requests are promised is the limit in every
  window shorter than 24 hours by the longest such delay, and no more: `Guarantees.LagExactly` is an if and only if.
- An account counts as active if its set shows an entry dated after the candidate, which no trim removes: with
  instants that go back it is not dormant though nothing was committed in the 30 days before the candidate
  (`Escapes.LaterEntryIsActivity`; `Guarantees.DormancyInRun` says that this is the only exception).
- `addTransaction` is documented as adding an approved transaction; the service calls it for every status except
  REJECTED. The model follows the code, so flagged amounts use up the window too.
- `getUniqueCounterparties24h` and the counterparty rule speak of the accounts one account fans out to; the code
  counts the senders toward the receiving account. The model counts senders.
- The race test speaks of one REJECTED transaction; with the configured rules no result is ever BLOCKED, so the
  second transaction is FLAGGED and REJECTED is unreachable (`Rules.ConfiguredDecision`).
- The score can go down when a result is added; `Verdict.ScoreDropsExactly` says exactly when.

## Model

| member | source | states |
|---|---|---|
| Guarantees.DailyLimit | src/main/java/io/github/anakidkin/aml/service/impl/TransactionEvaluationServiceImpl.java:51-85 | in every reachable state, for any order of instants: the committed approvals of an account dated in the 24 hours ending at the latest instant seen under its lock total at most the limit plus committed amounts invisible to the latest approval, each of which was omitted from the set or had its set lost after it; at most the limit itself if nothing failed or expired, and also with expiries if nothing failed, no transaction was dated ahead of the clock at its read, and no read was dated at or before the deadline of an earlier expiry (the exact condition is `Guarantees.TrailingExactly`) |
| Guarantees.WindowExactly | src/main/java/io/github/anakidkin/aml/cache/AccountVolumeCache.java:37-49 | for every outline whose losses each find an entry to lose, and every window of at most 24 hours: the outline hides no committed transaction of the window from a later one (by omission, by a loss between them, or by an instant between them more than 24 hours ahead) if and only if every run with that outline keeps the window within the limit, whatever the amounts, the interleaving, the failures and expiries; and, if the outline omits nothing, if and only if every run without failures does |
| Guarantees.TrailingExactly | src/main/java/io/github/anakidkin/aml/cache/AccountVolumeCache.java:37-49 | the same for the 24 hours ending at or after every instant: exactly if no omission and no loss or expiry comes between two committed transactions of that window |
| Guarantees.SpanExactly | src/main/java/io/github/anakidkin/aml/cache/AccountVolumeCache.java:37-49 | the same for all windows of a length up to 24 hours at once |
| Guarantees.InstantsExactly | src/main/java/io/github/anakidkin/aml/cache/AccountVolumeCache.java:37-72 | for every list of instants and expiries, between and within evaluations: it hides no instant from a later one within the length if and only if every run without failures over exactly these instants and expiries keeps every window of that length within the limit, whichever evaluations are aborted |
| Guarantees.WindowLimit | src/main/java/io/github/anakidkin/aml/service/impl/TransactionEvaluationServiceImpl.java:51-85 | in any run at all, with failures, losses and expiries: a window of at most 24 hours in which the outline hides nothing is within the limit |
| Guarantees.WindowSeen | src/main/java/io/github/anakidkin/aml/service/impl/TransactionEvaluationServiceImpl.java:51-85 | in any run at all: a window of at most 24 hours is within the limit if no committed transaction of it is trimmed before a later one and no approval in it missed one of it, even if entries were lost and read back from the table |
| Guarantees.EveryWindowExactly | src/main/java/io/github/anakidkin/aml/cache/AccountVolumeCache.java:37-49 | the case without expiries: no three instants straddle a length up to 24 hours if and only if every run that reads exactly these instants, without failures and expiries, keeps every window of that length within the limit |
| Guarantees.EveryWindowLimit | src/main/java/io/github/anakidkin/aml/cache/AccountVolumeCache.java:37-49 | without failures and expiries, if no three instants read under an account's lock straddle a length, every window of that length has approved total at most 100,000 |
| Guarantees.EveryWindowSeen | src/main/java/io/github/anakidkin/aml/service/impl/TransactionEvaluationServiceImpl.java:51-85 | in any run at all, every window of a length is within the limit if no three instants straddle it and no approval missed a committed transaction that close to it |
| Guarantees.OrderedWindowLimit | src/main/java/io/github/anakidkin/aml/cache/AccountVolumeCache.java:37-49 | if an account's instants never go back in lock order, every 24-hour window anywhere in the run is within the limit |
| Guarantees.LaggedWindowLimit | src/main/java/io/github/anakidkin/aml/mapper/TransactionApiMapper.java:24 | with expiries but nothing failed: if every instant lies at most `lag` behind the clock at its read, every window shorter than 24 hours by `lag` is within the limit; with no lag, every 24-hour window |
| Guarantees.LagExactly | src/main/java/io/github/anakidkin/aml/mapper/TransactionApiMapper.java:24 | exactly: every run without failures whose instants lie at most `lag` behind the clock keeps every window of a length up to 24 hours within the limit if and only if length and lag together do not exceed 24 hours (for longer windows of one run the condition is that of `Guarantees.SpanExactly` on its outline) |
| Escapes.HiddenEscapes | src/main/java/io/github/anakidkin/aml/cache/AccountVolumeCache.java:37-72 | for any outline that hides a committed transaction of a window from a later one: a run of the machine with that outline, without failures if it omits nothing, that puts exactly twice the limit into the window |
| Escapes.PossibleRuns | src/main/java/io/github/anakidkin/aml/cache/AccountVolumeCache.java:37-72 | every outline whose losses each find an entry to lose is the outline of some run |
| Escapes.StraddleEscapes | src/main/java/io/github/anakidkin/aml/cache/AccountVolumeCache.java:37-49 | for any instants of which three straddle: a run of the machine that reads exactly these instants, without failures and expiries, and whose committed approvals put exactly twice the limit into one window of that length |
| Escapes.AheadEscapes | src/main/java/io/github/anakidkin/aml/cache/AccountVolumeCache.java:67-72 | a run of two transactions dated ahead of the clock, in order, with an expiry between them, both after the expired deadline, nothing failed, and the 24 hours ending at the latest instant hold exactly twice the limit |
| Escapes.DelayEscapes | src/main/java/io/github/anakidkin/aml/mapper/TransactionApiMapper.java:24 | if length and lag together exceed 24 hours: a run without failures or dates ahead of the clock, every instant at most `lag` behind it, that puts exactly twice the limit into a window of that length |
| Guarantees.VolumeSandwich | src/main/java/io/github/anakidkin/aml/cache/AccountVolumeCache.java:39-49 | with instants that never go back, the volume read is at least the committed 24-hour sum less the committed amounts that were missed, at most the committed 48-hour sum, and exactly the 24-hour sum if no seed was ever written and nothing was missed; each missed transaction was omitted from the set or had the set lost between its own evaluation and this read, never omitted in a run without failures, and none is missed without failures and expiry |
| Guarantees.MissedWithoutSet | src/main/java/io/github/anakidkin/aml/cache/AccountVolumeCache.java:84-105 | a read that finds no set returns the table's sum, and each committed transaction it misses was omitted or lost with its set and lies outside the 24 hours of the read, or has no history row, or is a repeated commit of a transaction the sum counts |
| Guarantees.Serializable | src/main/java/io/github/anakidkin/aml/service/impl/TransactionEvaluationServiceImpl.java:47-85 | between evaluations, in any run: the sorted set, the volume verdict of every evaluation, the account's instants, committed transactions and committed volume verdicts in the log, and its outline are those of running its evaluations one at a time in lock order, each loss of the set at its place among or within them; no loss occurs if nothing failed or expired |
| Guarantees.RaceOutcome | src/integrationTest/java/io/github/anakidkin/aml/AmlPipelineRaceConditionTest.java:66-81 | any interleaving without failures and expiries, all reads of the account within 24 hours, evaluations in flight or aborted: of its committed events those whose volume rule passed come first, pass exactly while the running total of committed amounts fits, and for equal amounts number exactly min(n, limit / a) |
| Guarantees.ExpiryChangesNothing | src/main/java/io/github/anakidkin/aml/cache/AccountVolumeCache.java:67-72 | if nothing failed, nothing was dated ahead of the clock at its read and no read at or before an earlier expiry, leaving an account's expiries out of the run gives the same log, tables, locks, sender sets, evaluators and other accounts, and a set that differs only by entries at least 24 hours older than an expired deadline |
| Guarantees.ExpiryChangesNoRead | src/main/java/io/github/anakidkin/aml/cache/AccountVolumeCache.java:67-72 | after such a run, a read dated after the set's deadline and after every earlier expiry returns the same metrics and leaves the same empty set whether or not the set has expired |
| Guarantees.CommitBeforeCache | src/main/java/io/github/anakidkin/aml/service/impl/OutboxServiceImpl.java:28-58 | in every reachable state the transaction rows are exactly those of the committed events, a row exists if and only if an event with its id was committed, no row is rejected, and every entry of a sorted set is a committed, non-rejected transaction of that account |
| Guarantees.EventuallyConsistent | src/main/java/io/github/anakidkin/aml/listener/TransactionEvaluatedHistoryListener.java:22-34 | from every reachable state, draining relay and consumer ends with exactly one history row per distinct committed transaction, with its receiver, amount, currency and category, and one audit row per rule result, with the rule's own version, status and hardness and the score 0, 100 or 50 |
| Outcomes.DrainRuns | src/main/java/io/github/anakidkin/aml/listener/TransactionEvaluatedHistoryListener.java:22-34 | every reachable run can go on, by relay and consumer steps alone, to exactly those drained tables |
| Outcomes.VerdictInRun | src/main/java/io/github/anakidkin/aml/service/impl/TransactionProjectionServiceImpl.java:49-82 | once an evaluation commits, and whatever the run does afterwards, draining leaves one audit row under each rule's code, flagged if and only if the rule's own condition held: more than 10 senders; volume read plus amount above 100,000; dormant and amount at least 50,000; P2P ratio above 0.80 |
| Outcomes.RowInRun | src/main/java/io/github/anakidkin/aml/service/impl/OutboxServiceImpl.java:34-39 | the commit stores the transaction with the status, level and score that the four rule conditions give, on the volume that was read, keeping an instant already stored |
| Outcomes.StatisticsInRun | src/main/java/io/github/anakidkin/aml/service/impl/AccountContextServiceImpl.java:43-71 | the context an evaluation is decided on, for any list that holds each transaction behind a history row once: volume, count and senders as read, dormant if and only if nothing is cached and no listed transaction lies in the 30 days before the candidate, ratio above 0.80 if and only if more than four fifths of the listed amount is P2P; and such a list of committed transactions exists |
| Outcomes.DrainedStatistics | src/main/java/io/github/anakidkin/aml/repository/CassandraHistoryRepository.java:17-36 | from every reachable state, the drained table's sum, count and P2P sum over any window are those of the list with each committed transaction once |
| Guarantees.DormancyInRun | src/main/java/io/github/anakidkin/aml/service/impl/AccountContextServiceImpl.java:43-66 | not dormant implies a committed transaction dated within the 30 days before the candidate, or else instants that have gone back, a set that shows a member dated after the candidate, and a committed transaction dated after it; dormant implies every committed transaction of those days is absent from the history table and from the sorted set |
| Escapes.LaterEntryIsActivity | src/main/java/io/github/anakidkin/aml/cache/AccountVolumeCache.java:44-49 | for every instant a run without failures and expiries in which nothing is committed in the candidate's 30 days, the only committed transaction is dated one millisecond after it, and the candidate's account is not dormant |
| Overshoot.BoundedOvershoot | src/main/java/io/github/anakidkin/aml/rules/impl/CounterpartyCountRule.java:45 | with at most C evaluations toward a receiver in flight at any time, at most 10 + C distinct senders are approved toward it within the last 24 hours of the clock, plus those whose write failed or whose set was lost; without such failures at most 10 + C, however often the set expired; and over the whole run at most 10 + C plus those the set failed to show for any reason |
| Crowd.OvershootAttained | src/main/java/io/github/anakidkin/aml/rules/impl/CounterpartyCountRule.java:45 | the bound is attained: for every C of at least one a run with at most C evaluations in flight, without failures, losses and expiries, in which exactly 10 + C senders are approved |
| Overshoot.SenderCoverage | src/main/java/io/github/anakidkin/aml/cache/AccountVolumeCache.java:74-78 | a sender added by an action of the run less than 24 hours ago is in the held set, unless the set has been lost other than by expiry since; the same for the record of the latest add of each sender |
| Overshoot.ReceiverInRun | src/main/java/io/github/anakidkin/aml/cache/AccountVolumeCache.java:53-57 | in every run the receiver's record of approved senders is exactly that of the committed approved events, no older than them, and its sender set covers the last 24 hours |
| Overshoot.CappedInRun | src/main/java/io/github/anakidkin/aml/service/impl/TransactionEvaluationServiceImpl.java:58-74 | the counting invariants behind both overshoot bounds hold at the end of every run with at most C evaluations in flight |
| Receivers.RemembersAfterExpiry | src/main/java/io/github/anakidkin/aml/cache/AccountVolumeCache.java:74-78 | a sender set that expires forgets no sender approved within the last 24 hours |
| Interleaving.EveryRun | src/main/java/io/github/anakidkin/aml/service/impl/TransactionEvaluationServiceImpl.java:45-86 | mutual exclusion, the account invariants, the pipeline invariant and the agreement of log, rows and account records hold in every reachable state |
| Interleaving.InvByStep | src/main/java/io/github/anakidkin/aml/service/impl/TransactionEvaluationServiceImpl.java:45-86 | every single action of the machine keeps that invariant |
| Interleaving.InvByCommit | src/main/java/io/github/anakidkin/aml/service/impl/OutboxServiceImpl.java:28-58 | committing row, outbox event and verdict in one step keeps the invariant |
| Interleaving.InvByCrash | src/main/java/io/github/anakidkin/aml/service/impl/TransactionEvaluationServiceImpl.java:71-85 | an evaluator that dies at any point keeps the invariant: nothing committed is forgotten by the log, nothing uncommitted is cached |
| Interleaving.VolumeVerdict | src/main/java/io/github/anakidkin/aml/rules/impl/DailyVolumeLimitRule.java:47-55 | the committed event's daily-volume result is PASSED if and only if the volume its evaluation read plus the amount fits the limit |
| Interleaving.HistoryBacked | src/main/java/io/github/anakidkin/aml/service/impl/TransactionProjectionServiceImpl.java:33-47 | in every invariant state each history row of an account comes from a committed transaction and carries its amount |
| Interleaving.EventsCoherent | src/main/java/io/github/anakidkin/aml/entity/AuditLogEntity.java:24-38 | committed events that share a history or audit key carry equal content, given that the lock step refuses a transaction whose history key names a different earlier one |
| Untimed.ExpiryRefines | src/main/java/io/github/anakidkin/aml/cache/AccountVolumeCache.java:67-72 | every pair of runs with and without an account's expiries stays alike, step by step |
| Pacing.TimelyRun | src/main/java/io/github/anakidkin/aml/cache/AccountVolumeCache.java:67-72 | the conditions on the actions make the account's record timely: nothing failed, nothing dated ahead, nothing late |
| Pacing.LaggedInRun | src/main/java/io/github/anakidkin/aml/mapper/TransactionApiMapper.java:24 | with a bounded lag no later turn is dated more than the lag before an earlier one, and whatever a loss of the set took away is dated at least 24 hours less the lag before every later turn |
| Solo.SoloEnds | src/main/java/io/github/anakidkin/aml/service/impl/TransactionEvaluationServiceImpl.java:45-86 | the state an uninterrupted evaluation ends in, for a full cache write and for a failure before either of its two counted writes |
| Refinement.EvaluateAsMachine | src/main/java/io/github/anakidkin/aml/service/impl/TransactionEvaluationServiceImpl.java:45-86 | one call of the service's `Evaluate`, on stores that hold what a machine state says, expiries included, returns the event the machine commits and leaves stores that hold what the machine's uninterrupted (or aborted, or timed-out) evaluation leaves |
| Refinement.ExpireVolumeAsMachine | src/main/java/io/github/anakidkin/aml/cache/AccountVolumeCache.java:72 | a sorted set whose expiry has come goes from the cache exactly when the machine lets it expire, and the stores still hold what the machine's state says |
| Refinement.ExpireSendersAsMachine | src/main/java/io/github/anakidkin/aml/cache/AccountVolumeCache.java:78 | the same for a sender set |
| Effects.DeathOnlyLeaves | src/main/java/io/github/anakidkin/aml/service/impl/TransactionEvaluationServiceImpl.java:71-85 | an evaluator that dies at any point changes no table, set, sender set, expiry or other evaluator, and frees its lock |
| Effects.FailingOnlyLeaves | src/main/java/io/github/anakidkin/aml/service/impl/TransactionEvaluationServiceImpl.java:58-85 | so does an exception before the commit |
| Effects.LossOnlyEmpties | src/main/java/io/github/anakidkin/aml/cache/AccountVolumeCache.java:72 | losing an account's sorted set empties it and changes nothing else any code reads |
| Effects.SendersLossOnlyEmpties | src/main/java/io/github/anakidkin/aml/cache/AccountVolumeCache.java:78 | the same for a sender set |
| Limit.SafeByRead | src/main/java/io/github/anakidkin/aml/cache/AccountVolumeCache.java:33-50 | reading the metrics, by hit or by seed, keeps the daily-limit invariant, and the volume returned covers every committed amount of a trailing window that is not invisible |
| Limit.SafeByCommit | src/main/java/io/github/anakidkin/aml/rules/impl/DailyVolumeLimitRule.java:47-49 | an approval decided on a volume that passes keeps every trailing window within the limit plus what it did not see |
| Limit.SafeByAdd | src/main/java/io/github/anakidkin/aml/cache/AccountVolumeCache.java:67-72 | adding the committed transaction to the set keeps the invariant |
| Limit.SafeByDrop | src/main/java/io/github/anakidkin/aml/service/impl/TransactionEvaluationServiceImpl.java:71-73 | a swallowed cache failure keeps the invariant and moves the transaction to the invisible ones |
| Limit.SafeByFlush | src/main/java/io/github/anakidkin/aml/cache/AccountVolumeCache.java:72 | losing or expiring the set at any point keeps the invariant and moves its entries to the invisible ones |
| Limit.TrailingLimit | src/main/java/io/github/anakidkin/aml/rules/impl/DailyVolumeLimitRule.java:47-49 | what the invariant says about the window ending at the latest instant |
| Watch.WatchedByRead | src/main/java/io/github/anakidkin/aml/cache/AccountVolumeCache.java:37-49 | a read keeps every committed transaction accounted for, trims only what an instant more than 24 hours ahead left behind, misses only what was omitted or lost, and returns a volume that covers every window around the candidate in which nothing is trimmed or missed |
| Watch.WatchedByCommit | src/main/java/io/github/anakidkin/aml/rules/impl/DailyVolumeLimitRule.java:47-49 | an approval keeps every window of at most 24 hours in which nothing is trimmed or overlooked within the limit |
| Watch.WatchedByFlush | src/main/java/io/github/anakidkin/aml/cache/AccountVolumeCache.java:72 | losing or expiring the set marks the outline, and every transaction it held was committed before the mark |
| Pattern.TrailingWindow | src/main/java/io/github/anakidkin/aml/cache/AccountVolumeCache.java:37-49 | nothing trims the 24 hours ending at or after every instant, so there only omissions and losses hide |
| Pattern.SpacedNeverEscapes | src/main/java/io/github/anakidkin/aml/cache/AccountVolumeCache.java:37-49 | turns that fall back by at most a lag, and losses of nothing younger than 24 hours less the lag, hide nothing in windows shorter than 24 hours by it |
| Pattern.OrderedNeverStraddles | src/main/java/io/github/anakidkin/aml/cache/AccountVolumeCache.java:37-44 | instants that never go back straddle nothing |
| Sandwich.CloseByRead | src/main/java/io/github/anakidkin/aml/cache/AccountVolumeCache.java:39-49 | the bounds between the volume read and the committed log survive a read, whether the set exists or is seeded |
| Sandwich.MarkerSpan | src/main/java/io/github/anakidkin/aml/cache/AccountVolumeCache.java:94-97 | a seed that survives the trim and the entries after it together stay within the committed 48-hour sum |
| Serial.SerializedByFlush | src/main/java/io/github/anakidkin/aml/cache/AccountVolumeCache.java:72 | a loss of the set at any point of an evaluation takes its place in the serial order and keeps the agreement with it |
| Serial.SerializedByClose | src/main/java/io/github/anakidkin/aml/service/impl/TransactionEvaluationServiceImpl.java:80-85 | releasing the lock appends the evaluation, torn or not, and keeps the agreement |
| Burst.ExactByRead | src/main/java/io/github/anakidkin/aml/cache/AccountVolumeCache.java:39-49 | within 24 hours and with nothing lost, the volume read is exactly the total of all committed amounts |
| Burst.RaceTest | src/integrationTest/java/io/github/anakidkin/aml/AmlPipelineRaceConditionTest.java:66-81 | if passing means that the running total fits, n equal amounts a pass exactly min(n, limit / a) times |
| Burst.FitsIsPrefix | src/integrationTest/java/io/github/anakidkin/aml/AmlPipelineRaceConditionTest.java:66-81 | and if a later transaction passes, every earlier one passes |
| Expiry.ExpiryInvisible | src/main/java/io/github/anakidkin/aml/cache/AccountVolumeCache.java:67-72 | for one account, in any order of instants: a read dated after the deadline sees an empty window with or without the expiry, and the table answers zero |
| Expiry.FreshByRead | src/main/java/io/github/anakidkin/aml/cache/AccountVolumeCache.java:84-97 | reads keep the fact that whatever the set held was dated at least 24 hours before the deadline it lived under |
| Dormancy.DormancySound | src/main/java/io/github/anakidkin/aml/service/impl/AccountContextServiceImpl.java:66 | for one account and any table backed by its commits: not dormant means a committed transaction of the 30 days before the candidate, or instants that have gone back and a set that shows a member dated after it; dormant means that every committed transaction of those days is in neither table nor set |
| Dormancy.CountMeansByRead | src/main/java/io/github/anakidkin/aml/cache/AccountVolumeCache.java:46-49 | a non-zero count is evidence of a committed transaction dated within the 48 hours before the candidate, seed markers included, or of a member of the set and a committed transaction dated after it, which instants that never go back exclude; a zero count leaves no set |
| Pipeline.RunsAreSound | src/main/java/io/github/anakidkin/aml/listener/TransactionEvaluatedHistoryListener.java:22-34 | every run of saves, relays, projections, fall-backs and cleanups keeps the pipeline invariant |
| Pipeline.NothingIsLost | src/main/java/io/github/anakidkin/aml/scheduler/OutboxCleanerScheduler.java:20-48 | a committed event is still unread in the log, waits in the topic, or is in both tables, whatever the cleaner deleted |
| Pipeline.TopicInOrder | src/main/java/io/github/anakidkin/aml/service/impl/OutboxServiceImpl.java:41-58 | unless the relay falls back, the topic is the committed events of the log read so far, once and in order |
| Pipeline.FallBackRepeats | src/main/java/io/github/anakidkin/aml/listener/TransactionEvaluatedHistoryListener.java:22-34 | relay and consumer may start again from any earlier place, and the tables keep what they hold |
| Pipeline.CleanupIs | src/main/java/io/github/anakidkin/aml/scheduler/OutboxCleanerScheduler.java:43-45 | a cleanup with the slot less than 10 MB behind leaves exactly the outbox rows created within the last hour, logs each deletion once, and changes nothing else |
| Pipeline.CleanupSkips | src/main/java/io/github/anakidkin/aml/scheduler/OutboxCleanerScheduler.java:31-41 | a cleanup that finds no slot, or one 10 MB or more behind, changes nothing |
| Pipeline.OutboxRowStays | src/main/java/io/github/anakidkin/aml/scheduler/OutboxCleanerScheduler.java:20-48 | in every run a saved event's outbox row stays until a cleanup that finds the slot caught up more than an hour later |
| Convergence.Progress | src/main/java/io/github/anakidkin/aml/listener/TransactionEvaluatedHistoryListener.java:22-34 | unless everything is drained a step is possible, and each one lowers the pair of unread log and owed writes |
| Convergence.DrainEnds | src/main/java/io/github/anakidkin/aml/listener/TransactionEvaluatedHistoryListener.java:22-34 | draining terminates in a quiescent, sound pipeline with the log, rows and outbox unchanged |
| Convergence.Converged | src/main/java/io/github/anakidkin/aml/service/impl/TransactionProjectionServiceImpl.java:25-82 | a quiescent pipeline holds exactly one row per distinct event key in both tables, each with the fields of the event's transaction, or of its rule result and the score 0, 100 or 50 |
| Convergence.Confluent | src/main/java/io/github/anakidkin/aml/service/impl/TransactionProjectionServiceImpl.java:33-74 | two runs that commit the same events, in any order and with any repeats, crashes and redeliveries, drain to equal history and audit tables |
| Convergence.CleanupInvisible | src/main/java/io/github/anakidkin/aml/scheduler/OutboxCleanerScheduler.java:20-48 | removing every cleanup from a run does not change what it drains to |
| Convergence.DrainedTables | src/main/java/io/github/anakidkin/aml/service/impl/TransactionProjectionServiceImpl.java:25-31 | the drained tables of any run are exactly those of its commits |
| Convergence.SumCountsOnce | src/main/java/io/github/anakidkin/aml/repository/CassandraHistoryRepository.java:23-27 | over drained tables the window sum equals the sum over a list with each committed transaction once |
| Convergence.CommitsAreEvents | src/main/java/io/github/anakidkin/aml/service/impl/OutboxServiceImpl.java:34-58 | the committed events are the outbox inserts of the log: neither cleanup nor delivery adds or removes one |
| Convergence.RowsByStep | src/main/java/io/github/anakidkin/aml/entity/TransactionEntity.java:29 | transaction rows are the upserts of the committed events, at most one per id, in every pipeline step |
| Convergence.RowHolds | src/main/java/io/github/anakidkin/aml/entity/TransactionEntity.java:30-56 | a row holds the instant of the first committed event with its id, which is not updatable, and all else, status, level and score included, of the last one |
| History.SumAtMostCommitted | src/main/java/io/github/anakidkin/aml/repository/CassandraHistoryRepository.java:23-27 | the table never sums a window higher than the committed log does |
| History.KindsPartition | src/main/java/io/github/anakidkin/aml/repository/CassandraHistoryRepository.java:29-36 | the two groups partition the window: their sums and counts add up to the ungrouped ones |
| Context.BuildAccountContext | src/main/java/io/github/anakidkin/aml/service/impl/AccountContextServiceImpl.java:30-79 | the loop over grouped rows yields the totals, the last P2P amount, the ratio and the dormancy flag of its input |
| Context.GroupsAreRaw | src/main/java/io/github/anakidkin/aml/service/impl/AccountContextServiceImpl.java:49-64 | the loop's totals over grouped rows equal the sum, count and P2P sum over the raw rows |
| Context.RatioLaws | src/main/java/io/github/anakidkin/aml/rules/impl/P2pUtilizationRatioRule.java:46 | the ratio lies in [0, 1] and exceeds 0.80 if and only if 5 * p2p > 4 * total |
| Context.ContextFromRaw | src/main/java/io/github/anakidkin/aml/service/impl/AccountContextServiceImpl.java:49-71 | the context built from grouped rows is dormant if and only if there is no cached entry and no raw row, and the P2P rule fires if and only if more than four fifths of the raw amount is P2P |
| Context.LastP2pGroup | src/main/java/io/github/anakidkin/aml/service/impl/AccountContextServiceImpl.java:53-64 | of several P2P groups the last one's amount counts, none meaning zero |
| Statistics.StatsOfList | src/main/java/io/github/anakidkin/aml/repository/CassandraHistoryRepository.java:29-36 | the grouped query returns one row per kind that occurs, with the number and sum of the listed transactions of that kind in the window; the context's totals are those of all of them and its P2P sum that of the P2P ones |
| Statistics.ContextOfList | src/main/java/io/github/anakidkin/aml/service/impl/AccountContextServiceImpl.java:43-79 | the ratio is the P2P share of the listed amount; it exceeds 0.80 if and only if 5 * P2P > 4 * all; dormant if and only if nothing is cached and nothing listed lies in the window |
| Verdict.VerdictPermutes | src/main/java/io/github/anakidkin/aml/service/impl/TransactionEvaluationServiceImpl.java:88-145 | status, level and score depend only on the multiset of results |
| Verdict.VerdictExactly | src/main/java/io/github/anakidkin/aml/service/impl/TransactionEvaluationServiceImpl.java:88-145 | status, level and score in figures: from whether some result is blocked, whether some flagged one is hard, and how many are flagged |
| Verdict.VerdictConsistent | src/main/java/io/github/anakidkin/aml/service/impl/TransactionEvaluationServiceImpl.java:96-145 | score within 100; rejected if and only if critical; approved if and only if score at most 35; each level fixes the score's band |
| Verdict.AppendNeverSoftens | src/main/java/io/github/anakidkin/aml/service/impl/TransactionEvaluationServiceImpl.java:96-134 | appending results never lowers status or level |
| Verdict.ScoreDropsExactly | src/main/java/io/github/anakidkin/aml/service/impl/TransactionEvaluationServiceImpl.java:137-145 | appending results lowers the score if and only if three soft flags and no hard flag meet a hard flag and no block |
| Verdict.ScoreCanDrop | src/main/java/io/github/anakidkin/aml/service/impl/TransactionEvaluationServiceImpl.java:137-145 | a concrete case in which it does |
| Rules.EngineOrder | src/main/java/io/github/anakidkin/aml/service/impl/RuleEngineServiceImpl.java:18-21 | the engine's list is sorted by priority, keeps every rule exactly once, and keeps registration order within a priority |
| Rules.RegistrationIrrelevant | src/main/java/io/github/anakidkin/aml/service/impl/RuleEngineServiceImpl.java:28-30 | registering the rules in another order does not change status, level or score |
| Rules.ResultsAre | src/main/java/io/github/anakidkin/aml/config/AmlRulesConfig.java:16-22 | the configured engine reports the four rules in this order, each under its own code, flagged if and only if its own condition holds |
| Rules.RuleReports | src/main/java/io/github/anakidkin/aml/service/impl/RuleEngineServiceImpl.java:18-30 | for any registration order: the four results, each under its code with version 0, hard or not, and flagged if and only if its own condition on volume and amount, senders, dormancy and amount, or ratio holds; the hard ones first |
| Rules.HardFirst | src/main/java/io/github/anakidkin/aml/service/impl/RuleEngineServiceImpl.java:18-21 | any list of rules runs with the two hard rules first and the two behavioural rules after them, each group as registered |
| Rules.ConfiguredVerdict | src/main/java/io/github/anakidkin/aml/service/impl/TransactionEvaluationServiceImpl.java:88-145 | for any registration order: status, level and score from the four conditions |
| Rules.ConfiguredFlags | src/main/java/io/github/anakidkin/aml/config/AmlRulesConfig.java:16-22 | the configured rules never block; a hard flag means more than 10 senders or a volume above the limit; otherwise the flags counted are a dormant spike and a high P2P ratio |
| Rules.ConfiguredDecision | src/main/java/io/github/anakidkin/aml/config/AmlRulesConfig.java:16-22 | with the configured rules in any order a transaction is never rejected, and is approved if and only if volume and amount fit the limit, at most 10 senders are known, and the dormant spike and the P2P ratio do not both hold |
| Rules.ConfiguredScoreMonotone | src/main/java/io/github/anakidkin/aml/service/impl/TransactionEvaluationServiceImpl.java:137-145 | with the configured rules, appending results never lowers the score |
| VolumeCache.AccountVolumeCache.CalculateSum | src/main/java/io/github/anakidkin/aml/cache/AccountVolumeCache.java:107-117 | the loop sums exactly the readable amounts of all members, and fails if and only if one is unreadable |
| VolumeCache.AccountVolumeCache.Get24hMetrics | src/main/java/io/github/anakidkin/aml/cache/AccountVolumeCache.java:33-50 | metrics and the set left behind, on a hit and on a miss: a hit removes exactly the scores from 0 to 24 hours before the instant and leaves every expiry alone unless the set is emptied, a seed starts one; nothing else in Redis changes |
| VolumeCache.AccountVolumeCache.FetchAndPopulate | src/main/java/io/github/anakidkin/aml/cache/AccountVolumeCache.java:84-105 | one seed member at the transaction's instant, expiring a day later, if the table's sum is positive, no set otherwise |
| VolumeCache.AccountVolumeCache.AddTransaction | src/main/java/io/github/anakidkin/aml/cache/AccountVolumeCache.java:64-82 | the new state of set, senders, activity mark and their expiries, for success and for a failure before each of the three writes |
| VolumeCache.ReadRefines | src/main/java/io/github/anakidkin/aml/cache/AccountVolumeCache.java:39-49 | reading the text set and reading the window it stands for give the same volume and count and leave corresponding sets |
| VolumeCache.AddRefines | src/main/java/io/github/anakidkin/aml/cache/AccountVolumeCache.java:70-71 | with a fresh name the added member is new and stands for the added transaction |
| Members.EncodeSums | src/main/java/io/github/anakidkin/aml/cache/AccountVolumeCache.java:107-117 | the text set of any window sums to its volume and has its size, equal amounts and equal instants included |
| Members.EncodeTrim | src/main/java/io/github/anakidkin/aml/cache/AccountVolumeCache.java:44 | removing the scores below the window start is trimming the window |
| Members.MemberDecodes | src/main/java/io/github/anakidkin/aml/cache/AccountVolumeCache.java:70-71 | splitting a member at the colon gives back its name and amount |
| Members.OtherMembers | src/main/java/io/github/anakidkin/aml/cache/AccountVolumeCache.java:107-117 | text without a colon or with more than one adds nothing to the sum, and a single part after the colon is read as a number or is an error |
| Members.MemberInjective | src/main/java/io/github/anakidkin/aml/cache/AccountVolumeCache.java:70-71 | different names or amounts give different members |
| Stores.Database.Save | src/main/java/io/github/anakidkin/aml/service/impl/OutboxServiceImpl.java:28-58 | row, outbox row and their log records appear together, or a failure at any point leaves all three as they were |
| Stores.Database.CleanupProcessedEvents | src/main/java/io/github/anakidkin/aml/scheduler/OutboxCleanerScheduler.java:20-48 | no change if the slot is missing or 10,485,760 bytes or more behind; otherwise a row stays if and only if it was created at most 3,600,000 ms ago, the deletions are counted and logged, and the committed events stay |
| Stores.HistoryWriter.OnTransactionEvaluated | src/main/java/io/github/anakidkin/aml/listener/TransactionEvaluatedHistoryListener.java:22-34 | the tables after a delivery that fails after any number of writes, the history row and the audit rows with all their fields; it rethrows exactly if a write was missing |
| Stores.DeliveryIsConsumerSteps | src/main/java/io/github/anakidkin/aml/service/impl/TransactionProjectionServiceImpl.java:25-31 | n consumer steps of the pipeline leave the tables that a delivery of n writes leaves |
| Service.AuditExplainsLevel | src/main/java/io/github/anakidkin/aml/service/impl/TransactionProjectionServiceImpl.java:77-82 | for the configured rules, some audit row scores 100 if and only if the transaction's level is HIGH, and all score 0 if and only if it is LOW |
| Service.TransactionEvaluationService.Evaluate | src/main/java/io/github/anakidkin/aml/service/impl/TransactionEvaluationServiceImpl.java:45-86 | the lock is free again on every path; it fails exactly if a cached amount is unreadable, the context cannot be built or the save fails; a timeout or failure leaves the database as it was; a success commits the configured verdict on the context read before, then adds exactly one member and one sender unless the cache fails; for every outcome, what Redis then holds, expiries included |
| Service.TransactionEvaluationService.EvaluateLocked | src/main/java/io/github/anakidkin/aml/service/impl/TransactionEvaluationServiceImpl.java:58-76 | the same for the part under the lock |
| Service.TransactionEvaluationService.BuildContext | src/main/java/io/github/anakidkin/aml/service/impl/AccountContextServiceImpl.java:43-47 | the context shows the volume and count of the trimmed or seeded set and the size of the sender set; what Redis then holds, and when there is no context |

## Left out

- Members.MemberDecodes: the amount is written as the decimal count of the smallest unit, where the service writes Java's rendering of a double; both contain no colon, which is all the splitting needs.
- Interleaving.EventsCoherent: rests on the lock step refusing a transaction that shares account, kind, instant and id (one history row) with a different earlier one; the service accepts such a transaction, and its history row is then the one projected last.
- Guarantees.WindowExactly: for an outline in which a loss finds only a seed from the history table, only one direction is stated (`Guarantees.WindowLimit`); such a seed presupposes projected history, which may show a later read what the outline hides, so there the condition is sufficient and not necessary. The same holds for `Guarantees.TrailingExactly`, `Guarantees.SpanExactly` and `Guarantees.InstantsExactly`.
- HyperLogLog: its estimation error; the sender set is an exact set.
- Floating point: amounts, sums and the ratio are exact, and the score is an integer.
- Instants: whole milliseconds from 1970 on; the trim's lower bound of 0 is modelled on the text set.
- One Redis step: each read, seed and add runs atomically together with its expiry, so a set that was written but never got its expiry is not modelled; the three writes of `addTransaction` can fail separately in the cache class, and in the step machine the set and the sender write fail separately while the activity mark is dropped.
- The activity mark: `account_active` and `hasHistoricalActivity` are kept by the cache class and used by no rule, so the step machine leaves them out.
- The lock: Redisson is a perfect mutex whose attempt may time out; a lease that runs out while its holder still works is not modelled, a holder that dies is.
- The wait for the lock: an attempt on a taken lock gives up without a trace; interruption while waiting is not distinguished from it.
- The commit clock: it advances between two commits, so no two evaluations share an audit instant; without it two evaluations of one id in the same millisecond could overwrite each other's audit rows.
- The sender count: `getUniqueCounterparties24h` only looks up a size, so it has no row of its own; what the count is worth is said by `Overshoot.BoundedOvershoot` and `Overshoot.SenderCoverage`.
- Kafka and Debezium internals: delivery is at least once from the log, in order, with arbitrary fall-backs; partitions, the dead letters of an error handler and the slot's retention are not modelled, and the replication lag is a parameter of the cleaner.
- An unreadable payload: the listener method rethrows it, but the step machine's topic holds readable events only.
- Update marks: the instant of a row's last update is not modelled.
- Rows that age out: the history and audit tables keep every row.
- Currencies: amounts of different currencies are added up, as the service does.
- Trigger reasons, execution times, logging, metrics, controllers, mappers, JSON and the inbound topic: no invariants.
