# royalnet: the bot supervisor and the statistics updater, in Dafny

This project models two parts of royalnet:

- **`bots.py`** is the supervisor.
  - It creates the Discord, Telegram and Reddit bot processes and the statistics updater.
  - The Discord and Telegram bots share the two ends of one pipe.
  - It starts the processes; in Python's debug mode the statistics updater is not started.
  - Every ten seconds it restarts any process whose exit code is set.
  - On a keyboard interrupt it writes `"stop"` on the Telegram end of the pipe, then joins the four processes in order.
- **`statsupdate.py`** is the statistics updater.
  - `update_block` drives each tracked item of a block through `item.update`.
  - A failed update is logged, at a level set by the HTTP status, and reported as a crash; the item is then skipped.
  - A truthy change is handed to the block's change callback.
  - After a successful item the updater sleeps `delay - elapsed` seconds, or 0 when that is negative.
  - `new_dota_rank` and `new_lol_rank` build the Telegram notifications.
  - `process` runs five blocks (Steam, Dota, League of Legends, osu!, Overwatch), commits after each, and pauses 1800 seconds.

The files:

- `wrappers.dfy` holds `Option`.
- `statsupdate.dfy` is the module `StatsUpdate`. It mixes pure functions with methods.
  - An item is identified by its position in the block.
  - The outside world is an input: what `item.update` returned or raised, the clock time the item took, and which Telegram send fails.
  - What the updater does is a trace of events.
  - `ItemStep`, `RunFrom` and `PassFrom` are the reference definitions.
  - The methods `UpdateItem`, `UpdateBlock`, `RunBlock` and `Pass` follow the source's code, including its loops, and each is proved to compute its reference definition.
- `bots.dfy` is the module `Bots`.
  - The functions `AfterStartup`, `AfterPoll` and `AfterShutdown` define the supervisor's steps over a value `Table`. The table maps each role to its process handle, and also holds the next fresh process id and a log.
  - The class `Supervisor` holds the same state in fields and updates it in place, as the script updates its globals.
  - Each method is proved to produce exactly the table the function gives.
  - The lemmas prove well-formedness (every role has a process fitting it, ids are distinct and fresh), restart and shutdown behaviour.

Where a reader might expect a more forgiving program, the model follows the code:

- **The change callback can end a block.** It is called outside the `try`, so it can raise out of `update_block`.
  - When no callback is given and the change is truthy, calling `None` raises.
  - `new_lol_rank` unpacks its change before its own `try`, so it raises on any change that is not a triple.
  - The exception ends the pass before that block's commit, and ends the worker.
- **A failed item does not sleep.** The `except` branches `continue` past the sleep.
- **Failures other than HTTP are logged as warnings**, not errors.
- **Joins can raise.** Joining a process that was never started raises, which is always the case for the statistics updater in debug mode. The remaining joins then do not happen.

## Model

| member | source | states |
|---|---|---|
| StatsUpdate.Classify | statsupdate.py:43-48 | An HTTP failure is a warning exactly when `str(status)` starts with "5", i.e. the status is non-negative with leading decimal digit 5; otherwise an error |
| StatsUpdate.ThreeDigitStatus | statsupdate.py:43-48 | For a three-digit status code the warning level holds exactly for 500..599 |
| StatsUpdate.NegativeStatus | statsupdate.py:43 | A negative status code ("-5..." as a string) is never classified as a server error |
| StatsUpdate.FailureLevel | statsupdate.py:41-59 | An HTTP failure is logged at its classified level; any other exception at warning |
| StatsUpdate.ResponseOf | statsupdate.py:49-62 | A crash report carries status code and body exactly for HTTP failures, and only the item otherwise |
| StatsUpdate.SleepTime | statsupdate.py:67-68 | The sleep is never negative and never exceeds `delay`; elapsed plus sleep reaches `delay`, and equals it whenever there is a sleep; no sleep when the item took at least `delay` |
| StatsUpdate.Raises | statsupdate.py:72-85 | Whether the callback raises out of its call: `new_dota_rank` never does; `new_lol_rank` never does on a triple and always does on a single delta, which it cannot unpack |
| StatsUpdate.Fatal | statsupdate.py:65-66 | Only a successful update with a truthy change can end the block; in the Dota block nothing can; in a block without a callback exactly a truthy change does |
| StatsUpdate.ItemStep | statsupdate.py:36-68 | One iteration starts with the item's update and ends the block exactly when the item is fatal (truthy change with an absent or raising callback) |
| StatsUpdate.ItemAttempted | statsupdate.py:36-40 | Every event of an item's step concerns that item, and the update is started exactly once |
| StatsUpdate.ItemLogs | statsupdate.py:41-59 | A failed item is logged once at its failure level; a successful one is not logged |
| StatsUpdate.ItemReports | statsupdate.py:49-63 | A failed item gets exactly one crash report with its response data; a successful one none |
| StatsUpdate.ItemCalls | statsupdate.py:65-66 | The callback is called once exactly when the update succeeded with a truthy change and a callback is given |
| StatsUpdate.ItemSleeps | statsupdate.py:57-68 | A successful item sleeps `SleepTime(delay, elapsed)` once unless it raised; a failed item never sleeps |
| StatsUpdate.UpdateItem | statsupdate.py:36-68 | The loop body computes the events of `ItemStep`, and raises exactly when the item is fatal |
| StatsUpdate.RunFrom | statsupdate.py:36-68 | An item that ended the block lies in the block, at or after the starting position |
| StatsUpdate.RunEscape | statsupdate.py:36-66 | The block runs to its end exactly when no item is fatal; otherwise it stops at the first fatal item |
| StatsUpdate.RunAttempts | statsupdate.py:36-40 | The items are attempted once each, in list order, up to the end of the run |
| StatsUpdate.RunPerItem | statsupdate.py:36-68 | The events about item `j` in a block run are that item's own step if it was attempted, and nothing otherwise |
| StatsUpdate.RunReports | statsupdate.py:41-64 | A run's crash reports are exactly one per failed attempted item, in order, each with its response data |
| StatsUpdate.RunCalls | statsupdate.py:65-66 | A run's callback calls are exactly one per attempted item with a truthy change, when a callback is given |
| StatsUpdate.NoCallbackEscape | statsupdate.py:65-66 | A block without a callback raises exactly when some item's update returns a truthy change |
| StatsUpdate.RunSummary | statsupdate.py:35-68 | A whole block run stops at the first fatal item or runs to its end, and attempts exactly the items up to there |
| StatsUpdate.UpdateBlock | statsupdate.py:35-68 | `update_block`'s loop produces the reference run, stops at the first fatal item, and attempts items 0 up to there in order |
| StatsUpdate.Deliver | statsupdate.py:86-109 | Messages are sent in order inside one `try`; a failing send is swallowed with a warning and the later sends are skipped |
| StatsUpdate.NewDotaRank | statsupdate.py:72-78 | One rank-up message with the profile's username, rank name and number; a failing send is only warned about |
| StatsUpdate.LolMessages | statsupdate.py:87-107 | One Markdown message per present sub-delta, each showing that queue's old and new rank, in the order SOLO/DUO, FLEX, 3V3 |
| StatsUpdate.NewLolRank | statsupdate.py:81-109 | What is delivered is a prefix of those messages; all of them when no send fails, and a warning exactly when one does |
| StatsUpdate.FlexOnly | statsupdate.py:94-100 | A change with only the FLEX part present yields exactly one FLEX message |
| StatsUpdate.EmptyTupleCallsButSendsNothing | statsupdate.py:81-85 | A triple with three absent parts is truthy, so the callback is called without raising, and nothing is sent |
| StatsUpdate.ScheduleOrder | statsupdate.py:116-128 | The schedule visits Steam, Dota, League of Legends, osu! and Overwatch in that order |
| StatsUpdate.BlockRuns | statsupdate.py:116-128 | Each block of the pass runs its table's items with that block's delay and callback |
| StatsUpdate.RunBlock | statsupdate.py:116-129 | One stanza of `process` runs the block and commits after it unless it raised |
| StatsUpdate.PassCrash | statsupdate.py:112-131 | The blocks before the first one that raised all complete, and the pass ends with that block |
| StatsUpdate.PassCommits | statsupdate.py:116-129 | The pass commits once after every completed block, in schedule order |
| StatsUpdate.PassBlocks | statsupdate.py:116-128 | The pass runs the blocks in schedule order, up to and including the one that raised |
| StatsUpdate.PassPauses | statsupdate.py:130-131 | The 1800-second pause happens once exactly when no block raised |
| StatsUpdate.PassEndsWithCooldown | statsupdate.py:130-131 | Without a raise, the pause is the last step of the pass |
| StatsUpdate.KindsDistinct | statsupdate.py:116-128 | No table is visited twice in a pass |
| StatsUpdate.PassOutcome | statsupdate.py:112-131 | About the reference pass `PassFrom`: a full pass commits all five tables in order and ends with exactly one pause; a pass cut short by a block never pauses and never commits that block |
| StatsUpdate.Pass | statsupdate.py:112-131 | One iteration of `process` computes the reference pass and has the outcome above |
| Bots.SpecOf | bots.py:17-20 | Each process is created with at most one argument, and exactly the Discord and Telegram bots get a pipe end; which end each gets is stated by `Bots.StopReachesDiscord` |
| Bots.Initial | bots.py:16-20 | At import time there is a process for every role, not started, with its role's spec and ids 0 to 3 in creation order; the next id is 4 and nothing is logged |
| Bots.StopReachesDiscord | bots.py:16-18 | Only the Discord bot is created with end 0, the peer of end 1, on which the stop message is written |
| Bots.Checked | bots.py:36-59 | The poll loop checks every role except the stats updater in debug mode, each once, in the order Discord, Telegram, Reddit, stats updater |
| Bots.Start | bots.py:24 | `start()` marks the process running, keeps its id and spec, keeps the roles and the next id, and logs one start with that id |
| Bots.AfterStartup | bots.py:23-33 | Startup leaves a process for every role, four ids used, and four log entries |
| Bots.StartupState | bots.py:16-33 | After startup the table is well formed and every process has its role's spec and creation-order id (0 to 3). All are running except the stats updater in debug mode, which stays created, and the log records the starts in order |
| Bots.Supervisor.constructor | bots.py:16-33 | Creating and starting the processes yields exactly the startup state |
| Bots.Supervisor.StartProcess | bots.py:24 | `start()` marks the process running and logs it; nothing else changes |
| Bots.Supervisor.ProcessExit | bots.py:36 | A running process ends with some exit code (the environment's step); the table stays well formed |
| Bots.Restarted | bots.py:36-41 | A check keeps every role covered |
| Bots.RestartEffect | bots.py:36-41 | An exited process is replaced by a fresh id with the same spec, running, and the exit and restart are logged. A process without an exit code is left untouched, as are the other roles; the table stays well formed |
| Bots.Supervisor.Revive | bots.py:36-41 | One `if process.exitcode is not None:` block computes `Restarted` and keeps the table well formed |
| Bots.CheckAll | bots.py:36-59 | The checks of a poll pass keep a process for every role; what they do is stated by `Bots.CheckAllWf`, `Bots.CheckAllRestarts`, `Bots.CheckAllLog` and `Bots.CheckExits` |
| Bots.CheckAllWf | bots.py:35-59 | The checks of a poll pass keep the table well formed and never reuse an id |
| Bots.CheckAllRestarts | bots.py:35-59 | Distinct checks restart exactly the checked processes that have exited, each with a fresh id and its own spec. Every other process is left unchanged |
| Bots.SupervisedStarted | bots.py:36-59 | A supervised process is either exited or running, never merely created |
| Bots.PollWf | bots.py:35-60 | A poll pass keeps the table well formed |
| Bots.PollRestarts | bots.py:35-60 | A poll pass restarts exactly the supervised processes that have exited, whatever the exit code, with fresh ids and their own specs. It leaves the others alone and ends with every supervised process running |
| Bots.CheckAllLog | bots.py:35-59 | The checks extend the log by exactly their exit and restart events |
| Bots.PollLog | bots.py:35-60 | A poll pass keeps the old log, adds only exit and restart events, and ends with one ten-second sleep |
| Bots.AfterPoll | bots.py:35-60 | A poll pass keeps a process for every role and ends with the ten-second sleep |
| Bots.CheckExits | bots.py:36-58 | Distinct checks of supervised roles notice exactly the exits of the processes they check, each with its id and exit code, in check order |
| Bots.PollExits | bots.py:35-60 | The exits a poll pass logs are exactly those of the supervised processes that have exited, each with its id and exit code, in the order Discord, Telegram, Reddit, stats updater |
| Bots.Supervisor.Poll | bots.py:35-60 | One iteration of the `while True:` loop computes `AfterPoll` and keeps the table well formed |
| Bots.Join | bots.py:66 | `join()` keeps every role covered |
| Bots.JoinOthers | bots.py:66-72 | Joining one process leaves the others unchanged |
| Bots.JoinEffect | bots.py:66-72 | A joined process has ended, with the exit code it already had if any; its id is kept and the join is logged |
| Bots.JoinFrom | bots.py:66-72 | The joins keep a process for every role and the next id, and only append to the log |
| Bots.Supervisor.JoinProcess | bots.py:66-72 | A started process is joined; joining a never-started one raises, and only that is logged |
| Bots.AfterShutdown | bots.py:61-72 | Shutdown keeps a process for every role and the next id, keeps the old log, and writes "stop" first |
| Bots.ShutdownWf | bots.py:61-72 | Shutdown keeps the table well formed |
| Bots.ShutdownLog | bots.py:61-72 | The stop message is sent once, before any join, and the four processes are joined in poll order. In debug mode the join of the never-started stats updater raises, as the last step |
| Bots.ShutdownHandles | bots.py:61-72 | After shutdown every process has ended and none is replaced; in debug mode the stats updater stays never started |
| Bots.Supervisor.Shutdown | bots.py:61-72 | The interrupt handler computes `AfterShutdown` and keeps the table well formed |

## Left out

- Real processes, pipes and signals.
  - Process handles are values.
  - A process ending is the `ProcessExit` step.
  - The exit code a joined process ends with is the input `exits`.
  - What the Discord bot does on receiving `"stop"` is not part of this model: the worker modules are not modelled.
  - Which processes hold which pipe ends is modelled only as the arguments each process is created with. With a fork start method every child, and the supervisor itself, inherits both ends, so who actually reads the stop message is not modelled.
- Blocking waits:
  - `join()` is modelled as returning, since the model has no notion of time.
  - A join that never returns, because the process never ends, is not represented.
- The keyboard interrupt is modelled only between two poll passes (`Supervisor.Shutdown` after `Supervisor.Poll`). An interrupt in the middle of a pass, or during startup, is not modelled.
- The endless loops of `bots.py` and `process` are modelled one pass at a time (`Supervisor.Poll`, `StatsUpdate.Pass`).
- `StatsUpdate.Pass` is one loop over a five-entry schedule, where the source writes five stanzas out.
- Clocks and sleeping:
  - The input `elapsed` is what `time.clock()` advanced over one item, in whole seconds. It runs from before `item.update` to after the change callback, so the callback's time is included. On Unix `time.clock()` measures processor time, not wall-clock time, so the real gap between items can exceed `delay` by any amount of waiting. Float seconds are not modelled.
  - A sleep is an event that records its length.
- The database session, the ORM queries and what `item.update` does.
  - An update's result is the input `Outcome`.
  - A session commit is an event.
  - The rollback state after an exception is not modelled.
- Sentry scopes and extra context beyond the level and the response data; the logging text and its colours.
- Reported: records the context passed to `sentry.extra_context` for this report. The Raven client keeps its extra context between captures until it is cleared. A non-HTTP report after an HTTP one therefore still carries the earlier "response", and the model does not show that.
- An `HTTPError` without a response is not modelled. Its `e.response.status_code` raises inside the handler, ending the block. `HttpError` always carries a status.
- Exceptions that are not `Exception`s, such as `KeyboardInterrupt` or `SystemExit` raised inside `item.update`, are not modelled. They pass `except Exception` and end the block; `Failed` stands only for `Exception`s.
- Telegram I/O:
  - A failing send is the input `failAt`.
  - Message text is kept as its fields (user, queue, old and new rank); the Italian wording and Markdown markup are not modelled.
- Configuration loading, the Telegram bot object and the Sentry client set up at import time.
- `dirty.py` (the `Dirty` values in the League of Legends change) is not part of this model. A sub-delta is present or absent, standing for its truth value, and carries its old and new rank.
- `NewLolRank`: takes the three parts of an already unpacked change. A change that is not a triple, which the source fails to unpack, is modelled where the callback is called: `Raises` ends the block.
- StatsUpdate.PassFrom: the reference pass has no contract of its own, since each clause tried made the proofs of `Pass` run out of resource; `PassCrash`, `PassCommits`, `PassBlocks`, `PassPauses` and `PassOutcome` state what it does.
- Bots.PollLog: states only which kinds of event a poll logs; the exit notices, with their ids, codes and order, are pinned down by `Bots.PollExits`, while the restart notices are checked only through `Bots.PollRestarts` on the handles.
- Bots.Start: its contract does not list that the other roles' processes are unchanged; `Bots.Supervisor.StartProcess` is proved equal to it, and `Bots.RestartEffect` states that frame for restarts.
- Bots.SpecOf: its own contract says which processes get a pipe end, not which end or which entry point; the pipe ends are stated by `Bots.StopReachesDiscord`, and the entry points only by its body.
