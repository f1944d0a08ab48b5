# Ledger, detector and barrier of the agent simulation

The `Agent/` directory simulates users who move funds through a mixer while a
detector watches. A server keeps one ledger per user, a client thread per user
rebuilds that ledger from the server's text replies, a sliding-window detector
judges the client's ledger, and a trigger shared by all threads asks each of
them once for a performance figure. This project models that machinery in
Dafny 4.11 and proves what holds over every run of it. Check it with
`dafny verify dfyconfig.toml`.

## How the model is laid out

| file | content |
|---|---|
| `Ledger.dfy`, `RunLength.dfy`, `Wire.dfy` | ledger entries and sorting, run-length encoding, the comma-separated text |
| `UserModel.dfy` | the server's user as a value and what each operation does to it |
| `BadUser.dfy`, `Handlers.dfy` | the user object updated in place, and the handlers over the list of users, proved against `UserModel` |
| `ServerRuns.dfy`, `StageBudget.dfy` | invariants of one user over arbitrary runs |
| `Window.dfy` | ten-minute windows: the detector and the sliding average |
| `MyThread.dfy`, `ClientRuns.dfy` | the client thread as value and object, and its runs |
| `AverageRuns.dfy` | what goes into a thread's stored averages over a run, and what never does |
| `Protocol.dfy` | server and client joined by a channel that may lose replies |
| `Barrier.dfy` | the trigger and its two locks, statement by statement |
| `Statements.dfy`, `Serial.dfy` | the handlers' work on a user statement by statement; when a split operation equals a whole one |
| `Registry.dfy` | the handlers as interleaved threads over the lists of users and locks |
| `Overlap.dfy`, `ResetOverlap.dfy` | a reply and one report or reset, in every interleaving of their statements |
| `Races.dfy`, `Balance.dfy` | these overlaps in the schedules of `Registry`; money against ledger over every schedule |
| `TransactionCsv.dfy` | the table written at the end |

Conventions. Money is counted in whole units of 0.01 ETH, one per transfer, so
the floating-point sums of the program become integers; hourly budgets are
`real` units. A model's answer is an arbitrary `Reply`, a random draw an
arbitrary number in its range, a planning call an arbitrary plan. Every method
of a class is proved to turn the object's `View()` into a function of the old
one, and the theorems are about those functions.

## What the proofs found

- The hour's counter and the hour's list do not always agree. An empty plan
  clears the counter and raises before the list is cleared, and a list of
  non-numbers is charged before it raises. `StageExactIff` gives the exact
  guard, `StageExactFails` a run.
- The reply `[0]` is written as `-1`, the text the client skips; it is the only
  such list (`PlanTravels`).
- A failure report looks for minute 10 x (group - 1) exactly, never another
  minute of its ten-minute group (`ReportReaches`). The running count is not set
  back between users of one id: once one of them has been hit, the first record
  of every later one is marked, whatever its minute (`ReportAcrossUsers`,
  `CarryExample`). The money goes down regardless.
- With twelve slots and four threads the trigger, once raised, is never lowered
  (`Shipped`); it can be lowered exactly when every slot has a thread
  (`LoweredIff`).
- Resets and reports take no lock, and loads and stores of clock, money and
  ledger interleave with those of a request. A report whose store falls between
  the load and the store of a charge is lost; a charge whose store falls between
  those of a report is lost as a whole; in every other interleaving the outcome
  is that of one of the two orders (`ReportOverlapIff`, `LostReport`,
  `LostCharge`).
- For a reset the outcome is that of one of the two orders exactly if it comes
  before the reply loads the clock and opens no other hour, or before the reply
  stores it and finds it at zero, or wipes out everything the reply wrote
  (`ResetOverlapIff`, `RaceExample`). Inside the charge it brings the old money
  back without a record (`ResetInCharge`).
- Over every schedule money and ledger differ by exactly what `BalanceAlways`
  notes, and no update is lost unless two handlers have the money in hand at once
  (`LostOnlyByClash`).
- The row written for a user is not the padded series: it lines up with the
  header only for a user active in every minute of the range (`AlignedIff`).
- A pass divides by zero exactly if it ends the thread and the last minute
  recorded is 0 on completing, or -1 when caught (`CrashAnyIff`). With minutes in
  the ten that are asked for, that is a first reply wholly in minute 0 that
  reaches the target (`CrashIff`, `CrashExample`); a list of zeros from the server
  is recorded at minute -1 (`CaughtCrash`).
- The place up to which entries have been averaged is an index, but it is used
  on a sorted copy. With minutes inside the ten that are asked for no entry goes
  into two averages (`AveragedOnce`); with later minutes one can
  (`CountedTwice`), and `AverageAny` says which entries take part in any case.
- That place survives a restart: as many entries of the new ledger as had been
  averaged or skipped before never enter an average (`AveragableIff`).

## Model

| member | source | states |
|---|---|---|
| `Ledger.AscendingUnique` | Agent/User.py:277 | a multiset of minutes has only one ascending arrangement, so `sort` is determined |
| `RunLength.EncodeLoop` | Agent/User.py:316-328 | the run-length loop with its final flush computes the encoding, here without the sort |
| `RunLength.EncodeExact` | Agent/User.py:280-296 | the runs are non-empty, neighbours differ, and they expand to the list they came from |
| `RunLength.EncodingUnique` | Agent/User.py:280-296 | no other such list of runs expands to the same list |
| `RunLength.EncodeExpand` | Agent/test.py:81-93 | encoding inverts expansion on canonical runs |
| `RunLength.EncodeIncreasing` | Agent/User.py:277-296 | the runs of a sorted list have strictly increasing minutes within the list's bounds |
| `Wire.WireRoundTrip` | Agent/test.py:171 | split-and-int gives back every non-empty list of integers that was joined |
| `Wire.NatCanonical` | Agent/User.py:298-300 | numbers are written without leading zeros |
| `Wire.SentinelExact` | Agent/test.py:167 | the skipped texts stand only for the empty list and for [-1] |
| `Server.DecisionAgrees` | Agent/User.py:402-426 | for all draws: what `handle_result` decodes is the returned list plus one, the length test fires exactly for the empty list, and both texts agree |
| `Server.DecisionSorted` | Agent/User.py:407-423 | the list a rule-driven user submits is already in order |
| `Server.BuildTexts` | Agent/User.py:403-423 | the nested loops write the minutes drawn, once from 0 and once from 1; read back, the text has each minute as often as its draw says, in order, and no other |
| `Server.BadUser.constructor` | Agent/User.py:36-56 | a new user starts at time zero with empty ledgers, nothing charged and the plan it was given |
| `Server.BadUser.RecordRuns` | Agent/User.py:280-296 | the loop appends exactly the runs to both ledgers, with clock time and with time within the hour |
| `Server.BadUser.HandleResult` | Agent/User.py:267-305 | state, text and success flag for every kind of reply with whole minutes; the clock stands still only if the outer text does not parse |
| `Server.BadUser.RequestForPlan` | Agent/User.py:171-220 | hour opening, budget gate, reply handling, and the errors of an empty plan and of a model call that raises |
| `Server.BadUser.MakeDecision` | Agent/User.py:402-426 | records the drawn minutes and returns the text `handle_result` computes for them, which tells exactly the draws |
| `UserModel.MinutesExact` | Agent/User.py:407-413 | each minute occurs as often as its draw says and the list is as long as the draws add up to |
| `ServerRuns.DecidedTotal` | Agent/User.py:425 | a decision charges and records what was drawn, all told |
| `Server.BadUser.Ask` | Agent/User.py:164-224 | rule-driven users decide, the others plan |
| `Server.BadUser.Reset` | Agent/User.py:338-341 | ledger, money and clock are cleared, plan time and hour fields survive |
| `Server.BadUser.PlanOverall` | Agent/User.py:139-140 | a new plan is stamped with the current clock |
| `ServerRuns.PlannedNow` | Agent/User.py:139-140 | a new plan, and a new user's first one, is opened at its first entry |
| `ServerRuns.HourBudget` | Agent/User.py:172-177 | until the next reset or replan the hour opened after n ticks, n a multiple of six, has budget plan[(n / 6) mod length] |
| `ServerRuns.BudgetInForce` | Agent/User.py:172-185 | every request of a planning user works against the plan's entry for the hours gone by since the plan was made |
| `ServerRuns.GateExact` | Agent/User.py:183-185 | a list is charged and recorded exactly if less has been charged to the hour than its budget; the clock moves either way |
| `Server.BadUser.IllegalListAppend` | Agent/User.py:393-400 | publishes minute and net transfers of every record in order, then resets |
| `Server.BadUser.ArrestedListAppend` | Agent/User.py:388-391 | notes the clock, then resets |
| `Server.BadUser.ReportFailure` | Agent/main.py:82-88 | marks the first record whose running count reaches the rank, no other, and always lowers the money |
| `UserModel.ReportedExact` | Agent/main.py:82-88 | of all records exactly the one the scan stops at has one more failure |
| `Handlers.FailedTransactions` | Agent/main.py:76-88 | every user of the id is charged back, with the running count carried from one to the next; the others are untouched |
| `Handlers.CarryExact` | Agent/main.py:79-87 | the count a user starts from is at the rank exactly if the rank is not positive or an earlier user of the id was hit; below it, it is all those users offered |
| `Handlers.CarryZero` | Agent/main.py:79-81 | the first user of an id starts from zero |
| `Handlers.ReportAcrossUsers` | Agent/main.py:79-88 | per user of the id: record 0 marked after an earlier hit, else the record at minute 10 x (group - 1) if it completes what was offered so far, else none |
| `Handlers.CarryExample` | Agent/main.py:79-88 | two users of one id: a report about minute 0 marks a record of minute 13 |
| `Handlers.GetAccountTransactions` | Agent/main.py:45-67 | only the first user of the id is asked; an unknown id gets the empty text |
| `Handlers.Intercepted` | Agent/main.py:118-132 | the caught user is reset, the others replan up to the first planning call that fails |
| `ServerRuns.RunsUnique` | Agent/User.py:277-296 | what is recorded is the one canonical list of runs spelling an ascending rearrangement of the reply |
| `ServerRuns.Conservation` | Agent/User.py:278-296 | over every run of whole operations: money = sent - failed - reports that found nothing + units charged but never recorded |
| `ServerRuns.PublishedTotal` | Agent/User.py:393-400 | what an interception publishes lists the ledger's minutes and differs from the money counter by exactly those two amounts |
| `ServerRuns.SharedTailAlways` | Agent/User.py:286-296 | over every run, of the hour's list and the whole ledger (minute of the hour, count) one is a suffix of the other |
| `ServerRuns.StepStageExact` | Agent/User.py:172-178 | a step keeps the hour's counter equal to the hour's list exactly if the breaking guard does not hold |
| `ServerRuns.StageExactIff` | Agent/User.py:172-185 | they agree throughout a run exactly if no step meets the guard |
| `ServerRuns.StageExactFails` | Agent/User.py:174-178 | a three-event run after which they differ |
| `ServerRuns.TidyAlways` | Agent/User.py:273-296 | with minutes in 1..10 every reachable ledger is strictly increasing, within ten minutes of the clock, and clocks are multiples of ten |
| `ServerRuns.SixthTick` | Agent/User.py:172 | after a replan an hour starts exactly on every sixth tick |
| `ServerRuns.HitIsFirst` | Agent/main.py:82-87 | the scan's index is the first at which the running count reaches the rank |
| `ServerRuns.ReportReaches` | Agent/main.py:82-87 | for every carried count, on an increasing ledger: a report finds a record exactly if the ledger is not empty and the count is enough already or the record at minute 10 x (group - 1) makes it so; record 0 or that one is marked |
| `ServerRuns.ReachableReport` | Agent/main.py:76-88 | in every reachable state and for every carried count a report lowers the money by one and the failures rise by one exactly under that condition |
| `StageBudget.HourNeverOver` | Agent/User.py:173-185 | in every reachable state the hour's money is zero or less than one reply over the hour's budget |
| `StageBudget.BudgetHolds` | Agent/User.py:171-185 | a reset-free run spends at most, plan by plan, the budgets of the hours begun plus one reply each |
| `StageBudget.SpentIsSent` | Agent/User.py:278-279 | what a reset-free run spends is in the ledger, except lists that could not be recorded |
| `Window.ScanIsWindow` | Agent/test.py:99-104 | on an increasing ledger the early-breaking scan is the full sum of the ten minutes ending at the entry |
| `Window.Dominated` | Agent/test.py:99-104 | every ten-minute window is empty or dominated by one that ends at an entry |
| `Window.SafeIff` | Agent/test.py:96-115 | no draw can fail the check exactly if no ten minutes anywhere exceed 100 transfers |
| `Window.VerdictExact` | Agent/test.py:98-115 | an increasing ledger is rejected exactly if some draw, taken from the end, lies below 0.7, 0.8 or 0.9 for more than 100, 200 or 250 transfers in the ten minutes up to its entry |
| `Window.ScanStretch` | Agent/test.py:99-104 | in any order: the scan adds up the longest stretch back from an entry whose minutes are at most nine older |
| `Window.VerdictMonotone` | Agent/test.py:98-115 | more transfers or lower draws never turn a rejection into a pass |
| `Window.DoubleCount` | Agent/test.py:55-76 | the sum over windows equals the sum over entries weighted by the windows covering them |
| `Window.SlidingSum` | Agent/test.py:51-76 | from `loc` on every entry has weight 1 to 10, before it weight 0 |
| `Client.MyThread.HandleRes` | Agent/test.py:80-94 | appends the reply's runs at the thread's clock and adds its size to the money |
| `Client.MyThread.CountBack` | Agent/test.py:99-104 | the inner loop computes the scan |
| `Client.MyThread.Check` | Agent/test.py:96-115 | false exactly if some draw, taken from the end, lies below the bar of its count; one draw per entry until then |
| `Client.SumWindow` | Agent/test.py:61-67 | the filtered sum is the window sum |
| `Client.MyThread.CalculateIndication` | Agent/test.py:36-78 | appends the average of all full windows from `loc` and moves `loc`, or changes nothing |
| `ClientRuns.WindowsIff` | Agent/test.py:51-57 | on an increasing ledger there is a full window exactly if the last entry is nine minutes or more after the one at `loc` |
| `ClientRuns.WindowsAnyIff` | Agent/test.py:42-57 | in any order the same for the `loc`-th and the last entry in time order |
| `Client.MyThread.HandleResponse` | Agent/test.py:166-244 | one pass of the thread's loop, with every way it can end |
| `ClientRuns.TidyAlways` | Agent/test.py:80-94 | every ledger a thread builds is strictly increasing and lies before its clock |
| `ClientRuns.AverageExact` | Agent/test.py:45-78 | exactly if the last entry is nine minutes or more after the one at `loc`, an average is stored and `loc` moves to the end; it is the double count of exactly the entries from `loc` on; otherwise nothing changes |
| `ClientRuns.SafeAverage` | Agent/test.py:55-78 | where the detector can never strike, no stored average exceeds 100 |
| `ClientRuns.AverageAny` | Agent/test.py:42-78 | for every ledger with nine minutes between those two: the average stored is the double count of all entries, and an entry takes part exactly if its minute is not before that of the `loc`-th in time order |
| `ClientRuns.CountedTwice` | Agent/test.py:42-52 | a run with minutes beyond ten that stores two averages, minute 20 taking part in both |
| `AverageRuns.AveragedOnce` | Agent/test.py:76-78 | over every well-timed run, restarts included: the stored averages are those of disjoint stretches of all entries ever recorded, each entry of a stretch taking part with weight 1 to 10 and no other |
| `AverageRuns.AveragableIff` | Agent/test.py:223-225 | an entry of the current ledger is or can still come into an average exactly if it is not among the first `loc`-at-restart ones |
| `AverageRuns.GivenUp` | Agent/test.py:223-225 | of the entries a restart discards exactly the averaged ones are ever in an average |
| `AverageRuns.HistoryGoesOn` | Agent/test.py:36-94 | the continuations those two speak of are the continued runs |
| `ClientRuns.Completion` | Agent/test.py:227-241 | a thread never caught stops within as many replies as its target has units, and within one reply of it |
| `ClientRuns.PassIsRun` | Agent/test.py:193-241 | a pass of the loop is such a run of events and continues only below the target |
| `ClientRuns.PassEnds` | Agent/test.py:207-244 | for every run and reply: when a pass ends caught, completed or crashed, and what money, ledger and clock it leaves |
| `ClientRuns.ArrestExact` | Agent/test.py:184 | the draw against a ten-thousandth of the clock: never up to minute 3000, always past 10000 |
| `ClientRuns.CrashAnyIff` | Agent/test.py:207-232 | for every run and every reply: a pass divides by zero exactly if it is caught for good with last minute -1, or completes with last minute 0 |
| `ClientRuns.CrashIff` | Agent/test.py:227-232 | with minutes 0 to 9: exactly if it is not struck, the thread is at time zero, the reply's last minute is 0 and the reply reaches the target |
| `ClientRuns.CrashExample` | Agent/test.py:227-232 | for every target a first reply and draws under which the thread crashes on completing |
| `ClientRuns.CaughtCrash` | Agent/test.py:207-213 | more than a hundred zeros from the server and a draw under which the thread crashes on being caught |
| `Protocol.PlanTravels` | Agent/User.py:297-301 | the client reads back the sorted list less one, and skips only the text of [0] |
| `Protocol.AnswerExact` | Agent/User.py:171-220 | which of error, `-1`, the empty text and a list a planning user answers, case by case |
| `Protocol.AbsorbedIs` | Agent/test.py:166-174 | for replies with whole minutes: the client takes every answer of the server without failing, and records exactly the mirrored ones |
| `Protocol.Drift` | Agent/test.py:153-174 | clock gap = 10 x (delivered answers that did not move the server) - 10 x (lost ones that did) |
| `Protocol.StandsStill` | Agent/User.py:171-220 | a request leaves the server's clock where it was exactly on an empty plan at an hour's start or a consulted model without decodable answer; a rule-driven decision always moves it |
| `Protocol.Mirror` | Agent/test.py:80-94 | server ledger = all batches; client ledger = the delivered ones in order, same counts, times moved by the gap less eleven |
| `Protocol.FaithfulMirror` | Agent/test.py:153-174 | over a link that loses nothing the clocks agree and the client's ledger is the server's shifted by eleven |
| `Protocol.FaithfulTotal` | Agent/test.py:94 | and it holds the same total |
| `Protocol.BothTidy` | Agent/test.py:171-174 | with minutes in 1..10 both ledgers stay strictly increasing, whatever is lost |
| `Protocol.DetectorExact` | Agent/test.py:175 | on every reachable client ledger the detector can strike exactly if some ten minutes exceed 100 |
| `Barrier.Atomic` | Agent/test.py:180-205 | under every schedule the sections behave as single steps in order of release |
| `Barrier.SectionExact` | Agent/test.py:180-205 | over every schedule, from what a section found to what it leaves: the first raises the trigger; the second, finding it raised, has its slot filled and its indication run once, itself exactly if the slot was empty, and lowers the trigger exactly if that was the last slot; only a rank without a slot dies |
| `Barrier.NoDeadlock` | Agent/test.py:193-195 | the holder of the outer lock can always move, and if nobody holds it every live thread can |
| `Barrier.OncePerRank` | Agent/test.py:196-205 | each rank runs its indication at most once, the trigger is lowered at most once and only with all slots filled |
| `Barrier.SlotsGrow` | Agent/test.py:196-205 | no statement empties a slot, and the one that lowers the trigger finds every slot filled |
| `Barrier.NeverLowered` | Agent/test.py:193-205 | with fewer threads than slots a raised trigger stays raised |
| `Barrier.Shipped` | Agent/test.py:9-12 | twelve slots, four threads: the trigger is never lowered |
| `Barrier.LoweredIff` | Agent/test.py:199-205 | some schedule lowers the trigger exactly if there is at least one slot and a thread for each |
| `Registry.ListsInStep` | Agent/main.py:24-29 | over every schedule the lock list trails the user list by at most one, and not at all while the registration lock is free |
| `Registry.RankTruncates` | Agent/User.py:173 | the rank of an hour is truncated toward zero, also when a reset has put the clock before the plan |
| `Registry.SectionsHold` | Agent/main.py:47-51 | a request past its boundary test still finds plan, time stamp and hour fields as it left them |
| `Registry.OnlyUnderLock` | Agent/main.py:124-128 | whoever changes those fields of a published user holds that user's lock |
| `Registry.Exclusive` | Agent/main.py:49-51 | no two threads are in the same user's section |
| `Registry.UndisturbedIsSerial` | Agent/main.py:49-50 | a section whose clock was not set back since its boundary test, and into whose final statements nobody writes, has the effect of running alone after all unlocked statements before them, on every way out of it |
| `Registry.SerialIff` | Agent/main.py:49-50 | over every schedule: a reply whose statements nobody disturbs comes out as if the request had run after the unlocked handlers exactly if it would have opened the same hour then |
| `Registry.GateSerialIff` | Agent/User.py:183-185 | the same for leaving at a closed gate, whatever the answer would have been |
| `Registry.StuckSerialIff` | Agent/User.py:172-177 | and for dying on an empty plan: exactly if the request would have died there then |
| `Registry.SilentSerialIff` | Agent/User.py:206-213 | and for a model without decodable answer: exactly in the same hour, or stuck with nothing else to differ in |
| `Serial.ResetRaceIff` | Agent/main.py:120-122 | a whole reset between gate and reply matches one of the two sequential orders exactly if there is no decodable answer or the hour after the reset is the open one |
| `Serial.ReportFirst` | Agent/main.py:76-88 | a whole report between gate and reply is as if it had come first |
| `Statements.ApplyingAlone` | Agent/User.py:272-296 | undisturbed, the statements of `handle_result` do what the whole operation does |
| `Statements.UnlockedAlone` | Agent/User.py:338-341 | and so do those of a reset and of a report |
| `Overlap.ReportOverlapIff` | Agent/User.py:278 | a reply and a report in every interleaving: one of the two orders but for the money, which is right exactly if neither store falls between the other's load and store, else off by the report or by the whole charge |
| `ResetOverlap.ResetOverlapIff` | Agent/User.py:338-341 | a reply and a reset in every interleaving: exactly when the outcome is that of one of the two orders, and by how much money and ledger are apart |
| `Races.OverlapReached` | Agent/main.py:80-88 | from any schedule with a request waiting undisturbed, every interleaving of its reply with a reset or report comes about |
| `Races.ReportRace` | Agent/main.py:80-88 | `ReportOverlapIff` for the user after any such schedule |
| `Races.ResetRace` | Agent/main.py:120-122 | `ResetOverlapIff` for the user after any such schedule |
| `Races.RaceExample` | Agent/main.py:120-122 | for every budget a schedule of two threads after which the user is in neither sequential state, for every decodable reply |
| `Races.ResetInCharge` | Agent/User.py:278 | a schedule after which the money of before a reset is there again and nothing in the ledger shows it |
| `Races.LostReport` | Agent/main.py:88 | a schedule after which a report has left no trace in the money |
| `Races.LostCharge` | Agent/User.py:278 | a schedule after which a whole charge has left none |
| `Balance.BalanceAlways` | Agent/User.py:278-296 | over every schedule and at every moment: money = ledger + what handlers at work still owe, but for lost updates, resets, unmatched reports and unrecorded lists, each to its amount |
| `Balance.SettledBalance` | Agent/User.py:278-296 | the same with nobody at work: nothing is owed |
| `Balance.LostOnlyByClash` | Agent/main.py:88 | no update is lost in any schedule in which nobody writes a user's money while another handler has it loaded |
| `TransactionCsv.RowExact` | Agent/test.py:316-323 | an increasing ledger's row is its counts in order, total unchanged |
| `TransactionCsv.LastWins` | Agent/test.py:320 | in any ledger the cell of a minute is the count of its last entry |
| `TransactionCsv.FirstPlaces` | Agent/test.py:320-322 | and cells stand in the order of the minutes' first entries |
| `TransactionCsv.RowTotalIff` | Agent/test.py:320-323 | the dictionary keeps the total exactly if no minute occurs twice |
| `TransactionCsv.RowFits` | Agent/test.py:310-325 | no row is longer than the header over the global range |
| `TransactionCsv.AlignedIff` | Agent/test.py:322-325 | row and padded series agree exactly for a user active in every minute |
| `TransactionCsv.SaveTransaction` | Agent/test.py:300-335 | nothing to write exactly if all ledgers are empty; otherwise the header runs without gaps from the first minute anybody was active in to the last, and each row fits it |

## Left out

- Language-model calls, prompts, experience summaries and `Judger.py`: foreign calls; only their decoded result enters, as an input.
- `parse_model_response_from_plan`: JSON and regular-expression library behaviour; its result is the plan that `PlanOverall` stores.
- JSON decoding of replies: replaced by the `Reply` cases, except for the bracketed lists `make_decision` itself produces; lists with fractional minutes are not among the cases.
- The branch with `use_plan = False` (`call_llm`, second half of `handle_result`): the configuration switches it off; its ledger loop is `RunLength.EncodeLoop`.
- Floating-point rounding: amounts are exact units; rounding of repeated additions of 0.01 is not modelled.
- Flask routing, request validation, HTTP, sleeps, logging and file output: only delivered, lost and failed replies remain.
- Counters and lists that only feed the summary file (`overtime`, `interception_times`, `ratio_list` and the like), plotting, and `save_to_local`.
- `/judge`, `add_baduser_sequence`, `draw.py`, `transaction_generate.py`, `.history/`: outside the ledger, or unable to change state.
- The mixing protocol, its contracts and key generation are not part of this model.
- Server.BadUser.HandleResult: lists with fractional minutes are not a case; the program records them, and its time stamps then stop being integers.
- Protocol.AbsorbedIs: holds for lists of integers; on a fractional minute the client's `int` raises and ends the thread.
- Handlers.FailedTransactions: the user objects are taken to be distinct, as registration creates them.
- TransactionCsv.SaveTransaction: user ids are taken to be distinct, as the threads number themselves.
- Client.MyThread.HandleResponse: the target is taken to be positive, as configured; whether the trigger asks for an indication is an input here and is modelled in `Barrier`.
- In `Registry` a handler's search for its user is an arbitrary index, and the loop of `intercepted` is a series of locked replans; resets and reports may hit any user between any two statements of another handler. Single steps are: the boundary test and, apart from it, the opening of the hour; the gate, which only reads what the lock guards; a report's scan with its mark; the posting of one record to both lists with its time stamp.
- Transaction objects are values: the two ledgers hold separately constructed objects, so no aliasing is lost.
