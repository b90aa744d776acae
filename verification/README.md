# dunlin, modelled and proved in Dafny

dunlin is a status page: it probes services, opens and closes incidents, tells
subscribers about them, and keeps time series and daily uptime. This project models
the parts of it that keep state over unbounded time and proves what they promise over
whole runs. `dafny verify dfyconfig.toml` checks everything.

How it is laid out:

- **The subscription ledger and its dispatcher.** `Ledger` has the subscriber and outbox
  tables with every transaction as a function from one state to the next. `Delivery` is
  the dispatcher as a state machine: it reads a batch, then sends row by row and writes
  what came of each send in one to three statements, while transactions of the web pages
  and the bot fall between any two of its steps and a crash, or a failing statement, may
  end a pass at any. `LedgerInvariants`, `DeliveryInvariants` and `SubscriberInvariants`
  say what always holds; `DeliveryTheorems` and `QuarantineTheorems` draw the results;
  `Scenarios` and `QuarantineScenarios` have the runs that show where those end, and the
  exact conditions. `Backoff` and `FailureWindow` are
  the retry schedule and the counter behind quarantine, `Pacer` the gaps between sends.
  `LedgerEffects` says of each transaction, column by column, what it does to the tables;
  `Pass` the same of the dispatcher's turns and whole passes, and `DispatchRuns` of each
  statement and row in every run. `Database` has the transactions and passes statement by
  statement on a class and shows each to be the function the theorems are about and to do
  what is said of it there.
- **Maintenance windows.** `Maintenance` is the tick with its claims, stale reads, early
  ends and crashes; `MaintenanceStore` the same as methods with loops.
- **The Telegram bot.** `BotPolling` runs the bot beside the whole dispatcher machine and
  compares it with an ideal bot that answers each message once; `Bot` is one round as
  a method. `Escape` is the text it sends.
- **The alert engine.** `CheckMachine` is the counter machine of one check and its
  definition by history, `AlertEngine` the engine over the incident tables with
  operators, reloads and restarts, `EngineEffects` what each action does to machines,
  tables and notices, `Restart` what a restart rebuilds, `Engine` the class, and
  `IncidentNews` what subscribers hear of it all.
- **Time series and days.** `Aggregate` is what an hourly row holds. `Samples` is
  aggregation, pruning and the series index against everything ever written, with crashes
  inside a pass; `SampleStore` the methods. `Days`
  is calendar days in a time zone, `Uptime` the bars and the 90-day figure.
- **The login limiter.** `LoginLimiter` against a log that forgets nothing.

A run is a sequence of states from empty tables (or, for a restart, from tables another
run left), each following from the one before by an enabled action, and the theorems are
about every state of every run. Fields named as history record what happened; no step
reads them. `HistoryIsTheRun` and `SubscriberHistoryIsTheRun` in `DeliveryTheorems`,
`HistoryIsTheRun` in `Samples`, `ClaimsAreTheRun`, `NotesAreTheStory` and `LogIsTheRun` say
that they hold what can be counted on the actions; `rawCut` and `owed` of `Samples` and
`ideal` and `done` of `BotPolling` have no such lemma and are to be read off the step that
sets them. Where a class and a function describe the same operation, the method's contract
says they agree, and lemmas named "…IsARun" place whole methods in the machine.
`Paths` has what a path of a machine is.

The dispatcher reads the time once before each batch, and everything it writes is stamped
with that time, however long the batch takes: when a row was sent or given up, when it may
be tried again, and the failure window of a subscriber. The model keeps that time apart
from when each send began and ended.

What the models assume:

- A database transaction, or a statement outside one, is one atomic step. Ids are never
  reused.
- The clock the dispatcher reads does not go back from one batch to the next. Nothing is
  asked of the times the web pages read.
- A keyed hash is injective, so a token names its purpose, row and nonce. Random
  placeholders differ. A column that stores a token's hash stores the token here.
- What a send comes to, what Telegram hands out, which of equally new incidents a query
  picks and in what order an `INSERT … SELECT` queues rows are arguments: the theorems
  hold for all of them.
- A time zone is a base offset and a list of changes. What is asked of it is stated where
  it is used: offsets under a day and changes two days apart, both on quarter hours (on
  minutes for `local_to_ts`), and, for tiling, a calendar that is never set back.
- Sample values are reals and percentages exact; integers do not overflow.

Where the code and its documentation disagree, the model follows the code:

- README.md:301-306 says ten failures within an hour quarantine a webhook. The counter's
  window opens at its first failure and does not slide, so ten failures within minutes
  can be missed. `FailureWindow.TenFailuresQuarantine` has the exact condition and
  `FailureWindow.TenWithinAnHourCanBeMissed` an example.
- `RetryAfter` is documented as retried no sooner than the service asked. The wait is
  reckoned from before the batch, so a row late in a slow batch can be sent again much
  sooner: `Scenarios.RetriedTooSoon`, and `Scenarios.WaitKeptIff` for when it cannot.
- README.md:307 and the comment on the failure window say that a successful send clears
  the count. It does unless the program is stopped, or the database fails, between
  sending the message and clearing: `QuarantineScenarios.SuccessUnheard`, and
  `QuarantineTheorems.SuccessClearsIff` for when it does.
- The tenth failure within the window quarantines unless the program is stopped, or the
  database fails, between counting it and quarantining: `QuarantineScenarios.TenthMissed`,
  `QuarantineTheorems.QuarantineAtTheTenth`.
- The comment on `maintenance_tick` says a window ended before it began was called off.
  The code treats one ended within its first second the same way, although it may have
  been announced as started: `Maintenance.ClosingIsTold`, `Maintenance.StartedMayBeTheLast`.
- An incident opened while subscriptions were switched off is heard of later without its
  opening (`IncidentNews.EndOutOfTheBlue`); only incidents opened during maintenance are
  kept quiet for good (`IncidentNews.NothingOutOfTheBlue`).
- The comments on `insert_samples` and `distinct_series` say that the series rows keep in
  step with the raw ones. A crash between a sample's two statements leaves its series out
  until the next sample: `Samples.SeriesLost`, `Samples.SeriesIndexIsExact`.

## Model

| member | source | states |
|---|---|---|
| `DeliveryTheorems.AtMostOnceUnlessCrashed` | src/subscriptions/dispatch.rs:340-499 | in every run, with web and bot transactions falling between any two steps of a stale batch, a row's successful sends number at most one more than the crashes that fell between a send of this row and the write recording it |
| `DeliveryTheorems.TriesAreFewAndSpread` | src/subscriptions/dispatch.rs:22-39 | a row of which no crash loses a send, whatever else crashes, is tried at most 8 times, and its k-th retry begins at least 30·(2^k − 1) seconds after the time read before its first batch; counted from the end of the first try, less by as much as that came late |
| `DeliveryTheorems.TriesPerCrash` | src/subscriptions/dispatch.rs:438-495 | each crash between a send of a row and the write recording it costs this row at most one try beyond its 8 |
| `DeliveryTheorems.NeverSentAndFailed` | src/subscriptions/dispatch.rs:440-509 | no outbox row ever holds both a sent and a failed time |
| `DeliveryTheorems.NeverTriedAgain` | src/subscriptions/dispatch.rs:353-366 | once either time is recorded, the row is not handed to its channel again for the rest of the run |
| `DeliveryTheorems.WaitsAreHonoured` | src/subscriptions/dispatch.rs:471-495 | in every run a row's next try begins after the one before ended, and is the same attempt again only if a crash lost that one; otherwise it comes no sooner than the schedule and the service asked, reckoned from the time read before the earlier batch |
| `Scenarios.WaitKeptIff` | src/subscriptions/dispatch.rs:471-528 | the exact condition: in all runs the next attempt begins at least w seconds after the end of this one, w being the schedule's wait, the one the service asked for or any other, if and only if the send ended no later than the longer of those two waits less w after the time read before its batch, or w is at most the 5 seconds the loop sleeps between batches; where the program may be restarted between the two attempts, at most 0 |
| `Scenarios.RetriedTooSoon` | src/subscriptions/dispatch.rs:116-122 | a run without a crash in which a chat refuses a message with a wait of 31 seconds and is sent it again 5 seconds later, because the row before it in the batch, for another chat, took 29 |
| `DeliveryTheorems.RowIsRescheduled` | src/subscriptions/dispatch.rs:471-495 | a failed row is given up exactly if the refusal was permanent or it was the 8th attempt, and otherwise waits for the longer of the two waits from the batch's time |
| `DeliveryTheorems.NoRowIsLeft` | src/subscriptions/dispatch.rs:397-400 | no undelivered event belongs to a pending subscriber in any run, so the arm that leaves a row where it is, is never taken for any row of any batch |
| `DeliveryTheorems.QuarantineHolds` | src/subscriptions/dispatch.rs:357-366 | while a subscriber stays quarantined, each of its rows stays exactly as it was or is deleted, once no batch read before the quarantine still holds one |
| `QuarantineTheorems.QuarantineNeedsTenFailures` | src/subscriptions/dispatch.rs:135-183 | every quarantine in every run, the first or a later one, was written for ten actions that counted failures in less than 3600 s with no clearing from the first to the last, the last at the very time the quarantine bears; a successful send lies between them only if a crash cut its turn short before it cleared the counter, so none does where no crash fell so |
| `QuarantineTheorems.SuccessClearsIff` | src/subscriptions/dispatch.rs:440-450 | exactly when a count can outlive a success: a successful send clears the counter by the end of its turn if and only if no crash cuts the turn short; otherwise the count stands as if nothing had been sent, unless a sign-up cleared it meanwhile |
| `QuarantineScenarios.SuccessUnheard` | src/subscriptions/dispatch.rs:440-450 | a run: nine failures, a message delivered and recorded as sent, a crash before the counter is cleared, and one failure more that quarantines, with the success in the midst of the ten |
| `QuarantineTheorems.QuarantineAtTheTenth` | src/subscriptions/dispatch.rs:141-172 | whatever transactions fall into the turn of a counted failure, as long as they do not remove the subscriber: the quarantine is written if and only if the failure brings the count replayed from the whole trace to ten and no crash falls between the two statements, also if a sign-up has cleared the counter between them; and the subscriber comes out quarantined if and only if, besides, no sign-up undid that later in the turn |
| `QuarantineTheorems.CountIsOfFailures` | src/subscriptions/dispatch.rs:141-172 | the count a failure brings the counter to is that of the actions, it the last, that counted failures within an hour of the first with no clearing between and no success but those a crash kept from the counter; ten at most, unless a crash lost a quarantine before |
| `QuarantineTheorems.OnlyACrashMisses` | src/subscriptions/dispatch.rs:141-172 | in every run a subscriber whose trace counts ten is quarantined or about to be, unless a crash fell between counting a failure of it and quarantining it |
| `QuarantineScenarios.TenthMissed` | src/subscriptions/dispatch.rs:141-172 | a run of ten failures of a webhook in 45 seconds from a cleared counter that quarantines nobody, for a crash between the tenth one's two statements; the next failure does, as the eleventh, if and only if it comes while the window is open |
| `DeliveryTheorems.LinksAreFew` | src/subscriptions/mod.rs:448-561 | counted on the actions of every run, per subscriber row: links followed never outnumber links issued, one unsent confirmation at most, and while unconfirmed the k-th next link is issued at least 900·k seconds after the first |
| `DeliveryTheorems.HistoryIsTheRun` | src/subscriptions/dispatch.rs:340-499 | the tries, successes and lost sends in the state are those counted on the sequence of actions itself |
| `DeliveryTheorems.SubscriberHistoryIsTheRun` | src/subscriptions/mod.rs:448-655 | so are the links issued, followed and open of each subscriber, what happened to its failure counter, and the quarantines a crash lost |
| `DeliveryInvariants.RunsAreSound` | src/subscriptions/dispatch.rs:340-509 | every state of every run has sound tables, rows and batch: each row's tries, successes and losses are accounted for by what its columns say |
| `DeliveryInvariants.ExecuteKeeps` | src/subscriptions/mod.rs:170-196 | each outside transaction keeps all table invariants, changes no outbox row it does not delete, and adds only untried ones under new ids |
| `DeliveryInvariants.SettleFirstRows` | src/subscriptions/dispatch.rs:440-470 | the first write after a send marks its own row only after a success, removes exactly the rows of a subscriber that is gone, and touches no other |
| `SubscriberInvariants.RunsKeepSubscribers` | src/subscriptions/mod.rs:448-655 | in every run each subscriber's link expiry is that of its last unconfirmed link, its failure counter that replayed from its trace, and a count at the limit without a quarantine means one is due or was lost |
| `SubscriberInvariants.OneConfirmable` | src/subscriptions/mod.rs:639-655 | a confirm token opens one subscriber at most |
| `LedgerInvariants.SignUpIssues` | src/subscriptions/mod.rs:448-561 | a sign-up that is not suppressed leaves exactly one undelivered row for its subscriber, the new confirmation, with new choices, cleared counters and a link good for a day, and touches nobody else; a suppressed one changes nothing |
| `LedgerInvariants.SignUpKeeps` | src/subscriptions/mod.rs:448-561 | signing up keeps addresses unique, tokens own, one unsent confirmation and no undelivered event on a pending row |
| `LedgerInvariants.LinkChatKeeps` | src/subscriptions/telegram.rs:346-431 | linking a chat keeps the same, also where a chat already known takes over the pending row's choices |
| `LedgerInvariants.FanOutKeeps` | src/subscriptions/mod.rs:170-196 | queueing an event keeps the same, as it reaches active subscribers only |
| `LedgerInvariants.FanOutRows` | src/subscriptions/mod.rs:170-196 | the rows added are fresh and undelivered, one for each recipient listed and all of active subscribers, and no older row changes |
| `LedgerInvariants.PruneKeeps` | src/subscriptions/mod.rs:762-777 | each of the three deletions, a transaction of its own, keeps the same and changes no row it leaves |
| `LedgerInvariants.CountersKeep` | src/subscriptions/dispatch.rs:141-183 | counting a failure, quarantining for it and clearing the counter each keep all table invariants, whatever came in between |
| `Backoff.RetryDelayIsExact` | src/subscriptions/dispatch.rs:36-39 | for every number of attempts from 1 on the delay is min(3600, 30·2^(a−1)); capping the shift loses nothing |
| `Backoff.SpacedTriesSpread` | src/subscriptions/dispatch.rs:22-39 | tries spaced by the schedule spread at least 30·(2^k − 1) seconds by the k-th retry |
| `FailureWindow.CounterIsBurst` | src/subscriptions/dispatch.rs:141-183 | the stored counter is exactly the burst of failures the trace ends with, all within an hour of its first |
| `FailureWindow.TenFailuresQuarantine` | src/subscriptions/dispatch.rs:141-172 | the exact condition: ten failures in under an hour quarantine if and only if no older window is still open, or it takes in enough of them; from a cleared counter always, at the tenth and not before |
| `FailureWindow.TenWithinAnHourCanBeMissed` | README.md:301-306 | ten failures within 500 seconds that do not quarantine, because an older failure's window swallowed half of them |
| `LedgerEffects.SignUpDoes` | src/subscriptions/mod.rs:448-561 | for sound tables a sign-up queues a confirmation if and only if nobody has the address, or whoever has it is not active and was sent no link in the last 900 seconds; then exactly one row, old or new, gets the form's choices, a cleared counter and a link good for a day, its unsent confirmation and what its quarantine held back are dropped, and nothing else changes; otherwise nothing does |
| `LedgerEffects.SignUpByLinkDoes` | src/subscriptions/mod.rs:572-611 | always one new pending row with its own placeholder and link, and nothing queued |
| `LedgerEffects.ConfirmDoes` | src/subscriptions/mod.rs:639-655 | column by column: the row that waits for the link in time becomes active and uses the link up, every other stays |
| `LedgerEffects.UnsubscribeDoes` | src/subscriptions/mod.rs:668-674 | exactly the rows with the token go, with exactly their outbox rows |
| `LedgerEffects.LinkChatDoes` | src/subscriptions/telegram.rs:346-431 | the answer is Subscribed, Expired or Invalid as a Telegram row waits for the token in time, too late or not at all; where the chat has a row that takes the pending row's components, its all-components and its maintenance choice, is active with a cleared counter, and the pending row goes with its outbox rows; where not, the pending row keeps its choices and gets the address; nothing else changes |
| `LedgerEffects.StopChatDoes` | src/subscriptions/telegram.rs:434-440 | exactly the rows of the chat go, with exactly their outbox rows |
| `LedgerEffects.FanOutDoes` | src/subscriptions/mod.rs:170-196 | each active subscriber that follows the event's component, and wants maintenance if it is that, gets one new untried row, nobody else any, and nothing else changes |
| `LedgerEffects.PruneDoes` | src/subscriptions/mod.rs:762-777 | the three deletions leave exactly the subscribers neither 7 days past their link while pending nor 90 in quarantine, and exactly their rows not sent or given up 30 days ago |
| `LedgerEffects.PruneStepsDo` | src/subscriptions/mod.rs:762-777 | the same of each deletion alone |
| `Database.Tables.SignUp` | src/subscriptions/mod.rs:448-561 | the statements together do what SignUpDoes says, and are the transaction of the machine, whichever branch they take |
| `Database.Tables.SignUpByLink` | src/subscriptions/mod.rs:572-611 | likewise what SignUpByLinkDoes says; the answer is the new row's token |
| `Database.Tables.Confirm` | src/subscriptions/mod.rs:639-655 | at most one row changes, the pending one with this live link, which becomes active and loses it; the answer tells a link that worked from one whose row waits for it too late and from an unknown one |
| `Database.Tables.CheckConfirm` | src/subscriptions/mod.rs:622-636 | the same three answers without the change |
| `Database.Tables.Unsubscribe` | src/subscriptions/mod.rs:668-674 | exactly the row of this token goes, with its outbox rows, and the answer says whether there was one |
| `Database.Tables.LinkChat` | src/subscriptions/telegram.rs:346-431 | the statements and the answer are what LinkChatDoes says |
| `Database.Tables.StopChat` | src/subscriptions/telegram.rs:434-440 | every row of the chat goes; where none was found nothing changed |
| `Database.Tables.FanOut` | src/subscriptions/mod.rs:170-196 | one row for each active subscriber the event concerns, none for others, and the count returned is theirs |
| `Database.Tables.Prune` | src/subscriptions/mod.rs:762-777 | what is left after the three deletions: exactly the subscribers neither a week past their link nor 90 days in quarantine, and exactly their rows that were not sent or given up 30 days ago |
| `Database.Tables.ReadDue` | src/subscriptions/dispatch.rs:353-366 | the batch is the first 100 rows by id that are neither sent nor given up, whose time has come, whose subscriber is pending or active and whose channel is on, each as the tables have it, and none of them is passed over for a later one |
| `Database.Tables.DispatchDue` | src/subscriptions/dispatch.rs:340-499 | one uninterrupted pass, on the columns before and after: subscribers whose channel says they are gone go with their rows, each other row of the batch is as its turn leaves it, none else changes, and each of the five statistics is the number of turns it counts |
| `Passes.ConfirmationsGoOut` | src/subscriptions/dispatch.rs:380-411 | a confirmation read while its subscriber was pending and the link good, and delivered, is recorded as sent with one attempt more; one is given up untried if and only if its subscriber was read otherwise; an event of an active subscriber is handed over whenever its payload parses and the channel answers |
| `Passes.PassDoes` | src/subscriptions/dispatch.rs:340-499 | what the first n turns leave of every row, from its columns and its subscriber's when the batch was read |
| `Passes.TurnDoes` | src/subscriptions/dispatch.rs:371-499 | one turn, column by column: handed over, given up or left, and after each of the six outcomes the row, the counter, the quarantine and the removals |
| `Passes.PassCounts` | src/subscriptions/dispatch.rs:330-338 | each statistic is the number of turns of its kind, counted as a set |
| `Passes.BatchIsRead` | src/subscriptions/dispatch.rs:353-366 | a batch of the machine, too, is the first 100 due rows, said column by column |
| `DispatchRuns.TurnIsSettledAtReading` | src/subscriptions/dispatch.rs:380-411 | in every run, whether the row at hand can be sent, or given up untried, is settled by its own and its subscriber's columns in the state its batch was read from, however stale: pending with a link good then, or active for an event |
| `DispatchRuns.StatementsWrite` | src/subscriptions/dispatch.rs:440-509 | what each statement of a turn writes into which columns, and that the quarantine follows if and only if the failure counts and the counter comes to ten |
| `DispatchRuns.TransactionsDo` | src/subscriptions/mod.rs:170-196 | in the machine each transaction from outside does exactly what is said of it column by column |
| `Database.Tables.CountFailureOf` | src/subscriptions/dispatch.rs:141-172 | undisturbed, the counter goes on within an hour of its first failure and starts over after, at ten the subscriber is quarantined at this time, and the answer says whether this failure did that |
| `Database.PassIsARun` | src/subscriptions/dispatch.rs:340-499 | an uninterrupted pass of the program is a run of the machine, so the theorems hold of it |
| `Maintenance.EndIsLast` | src/subscriptions/mod.rs:317-378 | in every run of ticks, early ends, on/off reloads and crashes, no message of a window repeats, and after Completed or Cancelled none comes but a late announcement: so one of the two at most, and never Started after it |
| `Maintenance.ProgressIsOwed` | src/subscriptions/mod.rs:323-378 | what was queued for a window besides its announcement is exactly what its two claims owe, in that order |
| `Maintenance.CancelledWasAnnounced` | src/subscriptions/mod.rs:358-374 | Cancelled has Scheduled queued before it and a window whose end is not past its start; Completed shows an end past the start |
| `Maintenance.ClosingIsTold` | src/subscriptions/mod.rs:350-378 | a claimed window gets Completed if and only if messages were on and it was read as ending after its start; Cancelled if and only if not so and it had been announced |
| `Maintenance.OpeningIsTold` | src/subscriptions/mod.rs:323-348 | in every run a window gets Started if and only if its start was claimed with messages on and it was read as ending later than that |
| `Maintenance.ClaimsAreTheRun` | src/subscriptions/mod.rs:323-378 | how and whether each of a window's two claims was made is what the actions did, each once |
| `Maintenance.StartedMayBeTheLast` | src/subscriptions/mod.rs:363-370 | a run in which a window announced as started and ended within its first second is never announced as over |
| `Maintenance.TickIsExact` | src/subscriptions/mod.rs:317-378 | an undisturbed tick leaves no due window unclaimed and queues for each exactly the one message it is owed, or none |
| `Maintenance.EndIsHeard` | src/db.rs:622-630 | a window ended by an operator is closed by the next undisturbed tick, whenever that is, and its subscribers then hear it completed exactly if it had begun, cancelled exactly if it had not and they knew of it, and never that it started |
| `Maintenance.TickIsARun` | src/subscriptions/mod.rs:317-378 | the program's tick is a path of the machine |
| `Maintenance.RunsAreSound` | src/subscriptions/mod.rs:265-378 | in every state, each message is about a window there is, shows its start and an end no earlier than the window's, and the flags say which claims were made |
| `MaintenanceStores.MaintenanceStore.Tick` | src/subscriptions/mod.rs:317-378 | each window is claimed as started once its start or end has come and as over once its end has; one whose end has come and was unclaimed gets Completed, or Cancelled if it never lasted and was announced, another that has begun gets Started, and no times change |
| `MaintenanceStores.MaintenanceStore.Select` | src/subscriptions/mod.rs:318-324 | each due (or ended) unclaimed window once, sorted by start (or end), as it stands |
| `MaintenanceStores.MaintenanceStore.StartMaintenance` | src/web.rs:2233-2288 | whatever the form holds, the new window starts at the time given or the nearest from now to 366 days on, lasts the minutes given or the nearest from one to 366 days, and its announcement is queued if and only if messages are on and it starts later; no other row changes |
| `BotPolling.EachOnce` | src/subscriptions/telegram.rs:529-563 | wherever rounds are cut short, the tables and their recorded history equal those of a bot that answered each message once |
| `BotPolling.InOrder` | src/subscriptions/telegram.rs:529-563 | the answers among the actions, in order, are to the messages one by one from the first: each is to the message after the one answered before, or to that one again |
| `BotPolling.PassedIsAnswered` | src/subscriptions/telegram.rs:534-560 | every message the offset has passed was answered by an action of the run, and where no answer met an error, with its effect |
| `BotPolling.LogIsTheRun` | src/subscriptions/telegram.rs:529-563 | the log and the sets of messages answered with and without an error are those of the answers among the actions |
| `BotPolling.ReplayChangesNothing` | src/subscriptions/telegram.rs:346-440 | a start link or a stop that has been answered changes nothing when answered again, whatever ran in between |
| `BotPolling.AnswerSettles` | src/subscriptions/telegram.rs:460-519 | once answered, a message's link or chat cannot take effect again |
| `BotPolling.TransactionInherits` | src/subscriptions/mod.rs:448-674 | no web transaction reopens a Telegram row's link or gives a chat a row |
| `BotPolling.RunsAreSound` | src/subscriptions/telegram.rs:529-563 | at every point of every run the messages in hand are the ones from the offset on, and the tables satisfy the dispatcher's invariants |
| `Bots.Bot.PollOnce` | src/subscriptions/telegram.rs:529-563 | a round links the chat of each start message and deletes the rows of each stop, as LinkChatDoes and StopChatDoes say, in turn, and leaves the offset just past the last message |
| `Bots.RoundIsARun` | src/subscriptions/telegram.rs:529-563 | a round of the program is an undisturbed round of the machine |
| `Escape.EscapeWithin` | src/subscriptions/telegram.rs:170-187 | the whole escaped text if and only if it fits, else the escape of the longest prefix that leaves room for the ellipsis; within the budget if and only if that is at least 1 or the text is empty; what precedes the ellipsis reads back as that prefix |
| `Escape.EscapedIsEntities` | src/notifier.rs:379-385 | the three replacements in their order do what escaping each character once would |
| `Escape.RoundTrip` | src/subscriptions/telegram.rs:162-166 | what a reader sees of an escaped text is the text |
| `Escape.Render` | src/subscriptions/telegram.rs:202-214 | the head with the subject cut to 256 characters, the longest escaped prefix of the body that fits, and the foot; a message fits 4096 characters if and only if its head and foot do, with one to spare for a body; an unsubscribe address of up to 554 characters always leaves that |
| `Pacers.Pacer.Turn` | src/subscriptions/dispatch.rs:414-437 | every send begins a channel's gap after the last one on the channel ended and an address's gap after the last to the address, in any sequence of turns, and no later than that; a row is put off only for its address |
| `Pacers.Pacer.Record` | src/subscriptions/dispatch.rs:316-326 | forgetting addresses loses no gap of up to a minute |
| `CheckMachines.DownMatchesHistory` | src/alert.rs:56-94 | after any results a check is down if and only if some run of max(1, failures_to_open) failures has no later run of max(1, successes_to_resolve) successes |
| `CheckMachines.OpensAtEdges` | src/alert.rs:56-94 | an opening is reported exactly when the history goes from up to down |
| `CheckMachines.CountersCount` | src/alert.rs:56-94 | the counters are the lengths of the current runs |
| `CheckMachines.CheckMachine.OnResult` | src/alert.rs:56-94 | the fields updated in place follow the specified step and report its transition |
| `AlertEngine.IncidentsResolveOnce` | src/alert.rs:242-337 | over all runs of results, operators, reloads and restarts: one open automatic incident per component, one automatic resolution and one recovery notice per incident at most, and none while it is open |
| `AlertEngine.OnlyOpenIncidentsAreAnnounced` | src/alert.rs:242-354 | no reminder or recovery is issued for an incident already closed when the result came in |
| `AlertEngine.RunsKeep` | src/alert.rs:146-354 | the invariant behind it holds in every state of every run |
| `AlertEngine.CloseAllKeeps` | src/alert.rs:186-213 | closing orphaned incidents resolves each of them once and no other |
| `Restarts.AnyRestartIsInvisible` | src/alert.rs:146-159 | for a config whose checks file under different components and with operators' incidents elsewhere, a restart at any point of any run changes no incident, sends nothing, and rebuilds each check's state and incident |
| `Restarts.RestartIsInvisible` | src/alert.rs:146-159 | the same for one restart, and the rebuilt machines stay in step with the table |
| `Restarts.FirstStart` | src/alert.rs:167-225 | the first start on any tables left behind gets in step with them |
| `Restarts.RunsStayInStep` | src/alert.rs:229-354 | through a whole run each machine is up with nothing open on its component, or down on the one incident open there |
| `Restarts.RestartsHideIff` | src/alert.rs:146-159 | restarts are invisible at every point of every run under a config if and only if no two of its checks file their incidents under one component |
| `Restarts.SharedComponentShows` | src/config.rs:631-637 | for any two checks that do, whatever their thresholds, a run from empty tables after which the one is up and would come back down on the incident of the other |
| `EngineEffects.HandleDoes` | src/alert.rs:229-354 | for any probe result the machine, the incidents, the timeline and the notices after it: under maintenance no notice; otherwise exactly one Down of the incident then held when the check goes down, one Up of the incident it held when it recovers from one, one Reminder of it when it stays down and the interval has passed or none was kept, and none else |
| `EngineEffects.OpeningsAreAnnounced` | src/alert.rs:294-308 | in every run an unmuted result that takes a check down is announced at once with the incident it then holds, and a muted one sends nothing |
| `EngineEffects.NoticesAreTheRun` | src/alert.rs:229-354 | all notices of a run are those of its probe results, in order |
| `EngineEffects.ForgetDoes` | src/alert.rs:167-225 | exactly the open automatic incidents of components nothing watches are closed, each once with a timeline entry and no notice; a machine stays if and only if its check does and its incident was not closed |
| `EngineEffects.RestartDoes` | src/alert.rs:146-159 | after a start exactly the checks with an open incident on their component have a machine: down on the newest, all counters at nothing |
| `EngineEffects.MonitoredIs` | src/alert.rs:174-185 | a component is watched if a check files its incidents there, or it names a check, present or not |
| `EngineEffects.IncidentComponentIs` | src/config.rs:631-637 | a check files under the first component that mirrors it, or under its own name if none does |
| `Engines.Engine.Handle` | src/alert.rs:229-354 | the statements together do what HandleDoes says, with the incident looked up where one is opened |
| `Engines.Engine.ActiveIncidentFor` | src/db.rs:483-492 | the newest open incident of the component, or none exactly if there is none |
| `Engines.Engine.ForgetUnmonitored` | src/alert.rs:167-225 | the loop does what ForgetDoes says, closing in the order returned |
| `Engines.Engine.Bootstrap` | src/alert.rs:146-159 | the loops do what RestartDoes says |
| `IncidentNews.NothingOutOfTheBlue` | src/subscriptions/mod.rs:211-262 | subscribers never hear of an incident opened during maintenance; of any other the opening is queued once, and an update or resolution comes without it if and only if an event opened the incident while subscriptions were off |
| `IncidentNews.EndOutOfTheBlue` | src/subscriptions/mod.rs:211-262 | a run in which it does: opened with subscriptions off, resolved with them on |
| `IncidentNews.NotesAreTheStory` | src/alert.rs:186-213 | the incidents noted as quiet or missed are those the events opened during maintenance, or with subscriptions off |
| `IncidentNews.OpeningsAreHeard` | src/alert.rs:267-292 | the opening of an incident is queued if and only if it was opened neither during maintenance nor with subscriptions off |
| `IncidentNews.EventTells` | src/alert.rs:267-335 | in every story each event queues, with subscriptions on, exactly the opening, update or resolutions it brings, but for quiet incidents, and nothing with them off |
| `IncidentNews.StoriesKeep` | src/alert.rs:186-213 | this holds through results, operators, reloads and restarts in any order |
| `Samples.HourlyRowsAreExact` | src/rollup.rs:20-36 | after any mix of inserts, passes and crashes, an hour between the start of the first recorded pass and the last boundary, within retention and not reached by a sample after it was last rolled up, has a row if and only if a sample of it is among the inserts of the run; its average times the number of those samples is their sum, and its least and greatest are values of theirs that bound all |
| `Samples.HistoryIsTheRun` | src/db.rs:59-87 | what is noted of samples written, late or left without an index row, of the first boundary and the hourly cutoff is what the actions did |
| `Samples.SeriesIndexIsExact` | src/db.rs:59-87 | the exact condition, at every point of every run: a key is listed if and only if a raw sample of it remains, and with the time of the newest, if and only if no raw sample newer than its index row had its second statement pending, lost or undone, and the index row has not outlived its sample in a raw prune not followed up |
| `Samples.IndexIsExactAtRest` | src/db.rs:340-353 | with every second statement run and every raw prune followed up by its series prune, the picker lists all series exactly |
| `Samples.SeriesLost` | src/db.rs:59-87 | a run of two steps, a sample written and a crash, that leaves its series out of the picker |
| `Samples.NextSampleMakesUp` | src/db.rs:71-84 | indexing the newest sample of the series makes that good |
| `Samples.HalfPruneIsMadeUp` | src/rollup.rs:33-34 | a series prune with a cutoff no earlier makes up for one a crash skipped |
| `Samples.RollupAgainIsRollupOnce` | src/db.rs:185-199 | aggregating a range again, up to the same hour or a later one, leaves the rows of aggregating it once |
| `Aggregates.AggregateIs` | src/db.rs:185-199 | a row's average times the number of the samples of its hour is the sum of their values, added up over the set in any order, and its least and greatest are attained and bound them all |
| `Aggregates.AggregateMeans` | src/db.rs:185-199 | so the average lies between the two |
| `Samples.RunsKeep` | src/rollup.rs:20-40 | the relation of raw, hourly and series tables to everything ever written holds in every state |
| `Samples.RollUpRowExact` | src/db.rs:185-199 | rows aggregated from a raw table pruned up to mid-hour before equal those of the full history |
| `SampleStores.SampleStore.RunOnce` | src/rollup.rs:20-36 | each hour from the last boundary to this one has a row for each series with a sample there, with the least, average and greatest of just those; other rows stay; exactly the samples, index rows and hourly rows past retention go; and the boundary moves up to the hour |
| `SampleStores.PassDoes` | src/rollup.rs:20-36 | the same of the composed statements of the machine |
| `SampleStores.LastSampleStays` | src/db.rs:59-70 | after a list of samples the last one with each key stays, and all others stay as they were |
| `SampleStores.SeriesDatesNewest` | src/db.rs:71-84 | in whatever order samples come, each series is dated by the newest of what it had and what came |
| `SampleStores.SampleStore.InsertSamples` | src/db.rs:59-87 | the loop's two inserts per sample leave the tables those two lemmas describe |
| `SampleStores.InsertsAreARun` | src/db.rs:59-87 | the loop undisturbed is a path of the machine that leaves no second statement out |
| `SampleStores.WholePassIsARun` | src/rollup.rs:20-36 | a pass of the program is a path of the machine |
| `Days.StartOf` | src/days.rs:67-85 | the first instant at which the local clock reads the date's midnight or later, also for a midnight in a gap and a date skipped whole |
| `Days.FirstOfDate` | src/days.rs:67-85 | that instant is the first whose local date is at least the given one |
| `Days.LocalToTs` | src/days.rs:91-110 | the second in which the local clock first reads the given time or later, fractions included: the time's earlier occurrence, or the end of the gap it falls in |
| `Days.EarliestIs` | src/days.rs:112-118 | the first instant at which the clock shows exactly this time, or none if it never does |
| `Days.ClockShows` | src/days.rs:59-61 | the local clock shows the time plus the offset of the last change so far, and the date is its whole days |
| `Days.DayOn` | src/days.rs:32-42 | a day runs from its date's first instant to the next date's, and never ends before it starts |
| `Days.LastDays` | src/days.rs:121-133 | consecutive dates ending with the one of now, each with its own day |
| `Days.StripTiles` | src/days.rs:121-133 | the days leave no gap and no overlap, each instant of their range is in exactly one, and the last holds now |
| `Days.DaysTileIff` | src/days.rs:32-46 | every day holds exactly the instants of its date if and only if no change of the clock turns the calendar back |
| `Days.InDayIffOnDate` | src/days.rs:44-46 | an instant is in a day exactly if the clock shows the day's date |
| `Days.BackOverMidnight` | src/days.rs:32-42 | a clock set back over midnight puts an instant into the day after the date it shows |
| `Uptime.UptimeBars` | src/status.rs:59-79 | for a zone of quarter hours a bar is empty exactly if no result falls on its local date; otherwise its value times their number is 100 times the number of good ones, so it is 100 exactly if all are good and 0 exactly if none is |
| `Uptime.CountedIs` | src/db.rs:288-304 | the tallies are the numbers of elements of the sets of results and good results on the date |
| `Uptime.SlotsCountDirectly` | src/db.rs:288-304 | summing the 900-second slots that start on a date counts exactly the results of that date |
| `Uptime.StripAddsUp` | src/web.rs:594-596 | the days of a strip add up to all results from its start to now, which is what all slots add up to: the bars and the 90-day figure agree |
| `Uptime.StripIsRetained` | src/rollup.rs:12-14 | whatever the retention, no result the strip shows has been pruned, if the zone's offset dropped by no more than a day since the strip began |
| `LoginLimiters.BlocksIff` | src/web_auth.rs:49-60 | the log blocks an address if and only if it has as many failures less than the window old with no success after them as the limit, counted as a set |
| `LoginLimiters.LoginLimiter.IsBlocked` | src/web_auth.rs:49-60 | with a limit of at least 1 it answers whether there are that many such failures in the untrimmed log; and it answers as that log does if and only if the limit is at least 1 or the address is tracked |
| `LoginLimiters.LoginLimiter.RecordFailure` | src/web_auth.rs:62-75 | trimming, and the sweep at 1024 addresses, lose nothing any later answer depends on; after a sweep only addresses with recent failures are tracked |
| `LoginLimiters.LoginLimiter.RecordSuccess` | src/web_auth.rs:82-84 | the address starts over, others keep their answers |
| `LoginLimiters.LoginLimiter.Admit` | src/web/subscribe.rs:154-164 | lets through exactly what the untrimmed log would and records it; used from the start, it never lets through more than the limit in any window of that many seconds, wherever it begins |
| `LoginLimiters.NeverMoreThanMax` | src/web_auth.rs:39-47 | when each event is checked and then recorded, no window holds more than the limit for one address |
| `LoginLimiters.CheckedFirstMore` | src/web/subscribe.rs:154-164 | checking first keeps the log one in which every event was checked first |
| `LoginLimiters.RecentTwice` | src/web_auth.rs:55-72 | what an earlier trim dropped any later trim would drop |

## Left out

- Network clients, TLS inspection, Docker, systemd and all probing: a probe is its outcome, a send what it came to.
- SQL, pooling and migrations, with rows that existed before the subscription tables did: every run starts from empty tables.
- HMAC, SHA-256, argon2, random tokens, cookies, CSRF and webhook address filtering.
- Mail wording, templates, badges, the status sentence, `check_state` and `overall`, and the Prometheus text: each is readable from one branch.
- TOML parsing and validation, but for `incident_component` and the retention limits.
- Database errors as such: one ends a pass of the dispatcher, the maintenance tick, the rollup or the bot as a crash does, which their machines allow at every step; one while the bot answers is a step of its own.
- Delivery order per subscriber, which the code does not promise.
- The rest of a batch for a subscriber that this same batch quarantines: its status was read before.
- `check_unsubscribe`, which only looks.
- Overflow of the failure, success and attempt counters.
- What makes the payload of an outbox row not parse; the dispatcher may find any event so.
- Sessions and check results in `run_once`; subscribers are pruned by `Database.Tables.Prune`, whose three deletions are separate steps of the machine.
- Scenarios.WaitKeptIff: speaks of attempts whose result reached the outbox; one a crash lost is made again as soon as the next batch is read.
- Sending is bounded by 30 seconds each; how long pacing and the database take is not bounded. The machine may hold any row back, as pacing does, and does not itself keep the gaps; the runs in `Scenarios` and `QuarantineScenarios` keep them.
- Database.Tables.FanOut: adds its rows one by one where the program has a single statement, and leaves their order open.
- Database.Tables.DispatchDue: takes what each row's turn meets as an argument; interruptions are in the machine, not in the method, and pacing is in `Pacers`.
- Pacers.Pacer.Turn: requires gaps of at most a minute, as all of the program's are; a longer one could be forgotten once 10,000 addresses are remembered.
- MaintenanceStores.MaintenanceStore.StartMaintenance: does the insert and the announcement without a pause; in the machine they are two steps, and the second may never come.
- Maintenance.ClosingIsTold: speaks of the end as the tick read it; an operator whose clock is behind the tick's may still move it afterwards.
- AlertEngine.IncidentsResolveOnce: takes `handle`, and each operator action, as one step without database errors.
- IncidentNews.NothingOutOfTheBlue: takes an incident's insert and its announcement as one step.
- Restarts.AnyRestartIsInvisible: the failure and success counters and the time of the last reminder are not kept across a restart.
- Samples.HourlyRowsAreExact: excepts rows that a sample arriving after its hour's rollup would have changed, which the code does not revisit, and hours before the first recorded boundary.
- Days.LocalToTs: leap seconds are not modelled.
- Days.DayOn: dates are unbounded, so the end of the date type's range is not reached.
- Uptime.StripAddsUp: takes no result as later than now, and the slots as read at that moment.
- BotPolling.PassedIsAnswered: every update has an id, one bot polls, and Telegram keeps messages until they are confirmed; replies that fail to go out are not modelled.
- LoginLimiters.LoginLimiter.Admit: checks and records as one step, where two requests at once could both pass the check.
- LoginLimiters.LoginLimiter.IsBlocked: time does not go back.
