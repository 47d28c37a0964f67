# DaemonVigil core, modelled in Dafny

DaemonVigil is a companion bot. A per-user heartbeat timer periodically asks
a language-model "decision engine" whether to send the user a message. User
messages get direct replies. Every engine call is priced and appended to a
usage ledger, and a `status` chat command reports the costs. This project
models that core and proves properties of it.

- `Scheduler` (`scheduler.dfy`) models the multi-user scheduler. It keeps one
  recurring job per user under the id `heartbeat_<user>`, plus a table of
  per-user enabled flags. The class `HeartbeatScheduler` holds both as fields
  that its methods update in place, and each method is proved against a pure
  transition on a `Table` snapshot.
- `Storage` (`storage.dfy`) models the JSON document stores. The message
  history and the scratchpad of notes are classes over a `JsonStorage` file
  object, whose document is read, changed and written back whole.
- `UsageTracker` (`usage_tracker.dfy`) models the usage ledger:
  - the price table and the cost of one call;
  - the append-only ledger;
  - the windowed totals;
  - the status report.
- `Commands` (`commands.dfy`) models the command router: normalisation with
  Python's `strip()` and `lower()`, and the `status` command.
- `Claude` (`claude.dfy`) models the two engine call sites:
  - the heartbeat builds the context, calls the engine, logs usage, and acts
    on the reply's blocks;
  - the direct reply concatenates the reply's text, then sends and stores it.
- `Migration` (`migration.dfy`) models the single-user to multi-user
  migration: the chat-id guard, the initial user configuration and registry,
  and the ledger rewrite that attributes entries to the user.
- `Text` (`text.dfy`) holds the Python string and list behaviour the model
  relies on: `str.strip()` (Python's `isspace` set), ASCII `lower()`,
  `"\n".join`, `s[:n]` and `s[start:]` with Python's index clamping.

Several things are parameters rather than modelled:

- the clock: `now` for the usage records, a caller-supplied ISO `stamp` for the one message a direct reply stores, and for the heartbeat a sequence of readings `stamps`, one per stored message, because `add_message` reads the clock on every call;
- the decision engine (a function from `Request` to `Reply`);
- the interval trigger's first fire time (`firstRun`);
- the per-user configuration lookup (`configOf`);
- the messaging transport (an `Outbox` object recording what it sends).

The scheduler's `heartbeat_job` calls `claude.process_heartbeat` with
per-user arguments (`src/scheduler.py:57-62`). The `process_heartbeat` in
`src/claude.py:48` has a different signature and reads the global single-user
stores. The model follows `src/claude.py` for the heartbeat itself. From
`heartbeat_job` it keeps only the enable gate.

## Model

| member | source | states |
|---|---|---|
| Scheduler.JobIdInjective | src/scheduler.py:84 | two users share a job id exactly when they are the same user |
| Scheduler.AtMostOneJobPerUser | src/scheduler.py:84-94 | in a store keyed by job id, the set of jobs running for a user is exactly `{heartbeat_<user>}` or empty |
| Scheduler.Added | src/scheduler.py:84-97 | `add_user` leaves the user exactly one job with the given interval and sets their flag; every other user's job and flag are unchanged; the store stays well keyed |
| Scheduler.Removed | src/scheduler.py:109-117 | `remove_user` drops the user's job and flag, so the user counts as enabled again; other users are unchanged; removing an unknown user changes nothing |
| Scheduler.Paused | src/scheduler.py:119-123 | pausing only clears that user's flag; the job store is untouched |
| Scheduler.Resumed | src/scheduler.py:125-129 | resuming only sets that user's flag; the job store is untouched |
| Scheduler.StatusIn | src/scheduler.py:136-145 | `job_exists` holds iff the user has a job; `next_run` is that job's next run, or none; `enabled` is the flag with default true |
| Scheduler.PauseThenResume | src/scheduler.py:119-129 | pause then resume keeps the same job and next run and leaves the user enabled |
| Scheduler.ReAddReplaces | src/scheduler.py:86-97 | adding a user twice does not grow the store (`replace_existing`); the user has one job, with the second call's settings |
| Scheduler.ActiveUsers | src/scheduler.py:152-153 | the users started are exactly the registry's active users |
| Scheduler.StartedSchedules | src/scheduler.py:155-167 | after the start loop every listed user has the job and flag of their configuration, and everyone else keeps theirs |
| Scheduler.StartJobsExactlyActive | src/scheduler.py:147-167 | starting an empty scheduler gives a job to a user iff that user is active in the registry, with the configured interval and flag |
| Scheduler.HeartbeatScheduler.constructor | src/scheduler.py:19-31 | a new scheduler has no jobs and no flags |
| Scheduler.HeartbeatScheduler.HeartbeatJob | src/scheduler.py:48-51 | the heartbeat proceeds iff the user is enabled in the table (`EnabledIn`: no flag, or a true flag) |
| Scheduler.HeartbeatScheduler.AddUser | src/scheduler.py:70-97 | the new state is `Added` of the old state; interval and flag default to 15 and true |
| Scheduler.HeartbeatScheduler.RemoveUser | src/scheduler.py:109-117 | the new state is `Removed` of the old state |
| Scheduler.HeartbeatScheduler.PauseUser | src/scheduler.py:119-123 | the new state is `Paused` of the old state |
| Scheduler.HeartbeatScheduler.ResumeUser | src/scheduler.py:125-129 | the new state is `Resumed` of the old state |
| Scheduler.HeartbeatScheduler.IsEnabled | src/scheduler.py:131-134 | the answer is `EnabledIn` of the current table: a user without a flag is enabled, otherwise the flag decides |
| Scheduler.HeartbeatScheduler.GetUserStatus | src/scheduler.py:136-145 | the answer is `StatusIn` of the current table: the flag, whether the job exists, and its next run exactly when it exists |
| Scheduler.HeartbeatScheduler.Start | src/scheduler.py:147-170 | the loop's final state is the fold of `add_user` over the active users, in order (`Started`) |
| Storage.JsonStorage.constructor | src/storage.py:14-23 | opening a store keeps an existing document, or creates the empty structure |
| Storage.JsonStorage.EnsureFileExists | src/storage.py:19-23 | an absent file gets the empty structure; an existing one is unchanged |
| Storage.JsonStorage.Read | src/storage.py:29-33 | reading returns the stored document |
| Storage.JsonStorage.Write | src/storage.py:35-39 | writing replaces the whole document |
| Storage.MessageStorage.constructor | src/storage.py:42-46 | the history starts as the document on disk, or empty |
| Storage.MessageStorage.AddMessage | src/storage.py:48-56 | exactly one message (time, role, content) is appended; earlier messages are unchanged |
| Storage.MessageStorage.GetRecentMessages | src/storage.py:58-64 | a positive limit gives the last `min(limit, n)` messages in order; no limit or 0 gives all; a negative limit drops the first `-limit` |
| Storage.MessageStorage.ClearMessages | src/storage.py:66-68 | the history becomes empty |
| Storage.ScratchpadStorage.constructor | src/storage.py:71-75 | the scratchpad starts as the document on disk, or empty |
| Storage.ScratchpadStorage.AddNote | src/storage.py:77-84 | exactly one note (time, text) is appended; earlier notes are unchanged |
| Storage.ScratchpadStorage.GetNotes | src/storage.py:86-89 | all notes, in order, without changing the store |
| Storage.ScratchpadStorage.ClearNotes | src/storage.py:91-93 | the scratchpad becomes empty |
| UsageTracker.PricingFor | src/usage_tracker.py:34 | a listed model gets its own prices; any other model gets the fallback's 3.00 / 15.00 |
| UsageTracker.CalculateCost | src/usage_tracker.py:22-48 | token counts and model pass through; each cost is tokens times price per million; the total is their sum |
| UsageTracker.UsageLedger.constructor | src/usage_tracker.py:19 | the ledger is the file on disk, if any |
| UsageTracker.UsageLedger.LogApiUsage | src/usage_tracker.py:51-59 | exactly one record is appended, creating the file if absent; earlier lines are unchanged |
| UsageTracker.UsageLedger.GetUsageStats | src/usage_tracker.py:62-112 | no file gives all zeros; otherwise the sums and request count equal the fold `Tally` over the lines; total tokens are input plus output; the result is `StatsFor`, the statistics the report is built from |
| UsageTracker.TallyAppend | src/usage_tracker.py:89-101 | the totals of two ledger parts add up to the totals of their concatenation |
| UsageTracker.TallyCountsRequests | src/usage_tracker.py:95-101 | `request_count` is the number of lines that are well formed, complete and inside the window |
| UsageTracker.UncountedAddNothing | src/usage_tracker.py:91-104 | a malformed, incomplete or too-old line adds nothing, wherever it is in the ledger |
| UsageTracker.LoggedRecordCounts | src/usage_tracker.py:51-101 | a record logged at or after the cutoff adds exactly its tokens, its cost and one request |
| UsageTracker.WiderWindowCountsMore | src/usage_tracker.py:82-101 | an earlier cutoff never counts fewer requests; on a ledger without negative amounts it never gives smaller sums |
| UsageTracker.StatsFor | src/usage_tracker.py:62-112 | without a file all zeros; otherwise the request count is the number of counted lines, and total tokens are input plus output |
| UsageTracker.FormatUsageReport | src/usage_tracker.py:115-141 | the report names the model; it says "no usage" iff nothing was counted today; otherwise it carries the 1-, 7- and 30-day windows |
| UsageTracker.ReportWindowsNested | src/usage_tracker.py:122-135 | the week counts at least as many requests as today, and the month at least as many as the week |
| UsageTracker.PartialEntryLeaksTokens | src/usage_tracker.py:98-104 | under the loop as written, an entry without `output_tokens` adds its input tokens but no request (see Findings) |
| UsageTracker.AsWrittenAgreesWhenComplete | src/usage_tracker.py:89-104 | on a ledger with no incomplete entries, the loop as written and the corrected fold agree |
| Commands.HandleStatus | src/commands.py:37-46 | exactly one message, the usage report, goes to the requesting chat |
| Commands.HandleCommand | src/commands.py:10-34 | handled iff the stripped, lower-cased command is `status`; then the status report is sent; otherwise nothing is sent |
| Commands.StatusIsPaddedWord | src/commands.py:22-24 | a command accepted as `status` is white space around a word that lower-cases to `status` |
| Commands.PaddedWordIsStatus | src/commands.py:22-24 | white space around any letter case of `status` is accepted |
| Commands.NormalizeIdempotent | src/commands.py:22 | normalising an already normalised command changes nothing |
| Commands.PaddedCapitalisedStatus | src/commands.py:22-26 | `"  Status\n"` is the status command |
| Commands.TrailingWordIsNotStatus | src/commands.py:22-34 | `"status now"` is not the status command |
| Claude.NotesSectionLayout | src/claude.py:77-81 | without notes the section is absent; otherwise it is the header, the last `min(10, n)` notes in order, and an empty line |
| Claude.ConversationSectionLayout | src/claude.py:83-89 | the conversation header always comes first; the placeholder follows when there are no messages; otherwise every message once, in order |
| Claude.PlaceholderIffNoHistory | src/claude.py:77-89 | the context has "(No conversation history yet)" as a line of its own iff there is no recent message |
| Claude.NotesContextLines | src/claude.py:77-81 | the notes loop builds exactly the notes section (also used at src/claude.py:184-188) |
| Claude.ConversationContextLines | src/claude.py:83-89 | the conversation loop builds exactly the conversation section |
| Claude.BuildHeartbeatContext | src/claude.py:75-91 | the context is the notes section then the conversation section, joined with newlines |
| Claude.RecentWindowOfStore | src/claude.py:69 | what `get_recent_messages(limit)` returns is the window the request is specified with |
| Claude.ErrorStops | src/claude.py:129-131 | after a `send_message` call without a message, later blocks change nothing |
| Claude.DebugDeliversNothing | src/claude.py:137-141 | in debug mode nothing is sent or stored |
| Claude.DebugKeepsResult | src/claude.py:129-146 | debug mode changes what is delivered but never the result record |
| Claude.ErrorIffNotWellFormed | src/claude.py:129-154 | an error is recorded iff some `send_message` call lacks its message (the `KeyError` of line 131, caught at 152-154), and its text is then `'message'` |
| Claude.WellFormedReply | src/claude.py:129-141 | when every `send_message` call has a message: no error; outside debug mode every such message is delivered once, in order; `message_sent` is the last one delivered |
| Claude.ToolCalledIffSendCall | src/claude.py:129-135 | without an error, `tool_called` holds iff the reply contains a `send_message` call |
| Claude.ReasoningIsLastText | src/claude.py:143-145 | without an error, `reasoning` is the last text block's text, and absent iff there is no text block |
| Claude.ActOnBlocks | src/claude.py:129-146 | the block loop's result, sends and stored messages are those of the block fold `Interpret`; the `k`-th stored message carries the `k`-th clock reading |
| Claude.HandleHeartbeatReply | src/claude.py:115-146 | a reply appends one `heartbeat` usage record before the blocks are acted on |
| Claude.ProcessHeartbeat | src/claude.py:48-156 | the engine gets the built context. On failure only the error is set, and nothing is logged, sent or stored. On a reply there is one usage record, then the block fold's effects |
| Claude.TextOfAppend | src/claude.py:221-224 | the reply text of a concatenation is the concatenation of the reply texts |
| Claude.TextOfEmptyIff | src/claude.py:221-226 | the reply text is empty iff every text block is empty |
| Claude.ConcatText | src/claude.py:221-224 | the loop's text is the text blocks concatenated in order |
| Claude.ConversationTurns | src/claude.py:173-178 | each recent message becomes one turn with its role and content, in order |
| Claude.HandleUserReply | src/claude.py:206-235 | a reply appends one `user_response` record with a 50-character preview; the text is sent and stored iff it is not empty |
| Claude.RespondToUser | src/claude.py:159-238 | the engine gets the recent turns, plus the notes context only when there are notes; on failure nothing changes |
| Migration.InitialConfig | scripts/migrate_to_multi_user.py:98-107 | the new configuration has heartbeats enabled, the configured interval and context size, and `created_at == updated_at` |
| Migration.InitialRegistry | scripts/migrate_to_multi_user.py:115-126 | the registry holds exactly the migrating user, active, registered and last seen now |
| Migration.StampedLineByLine | scripts/migrate_to_multi_user.py:147-159 | the rewrite keeps the line count and order; malformed lines and entries that have a `user_id` are kept; others gain the user's id and nothing else |
| Migration.CountsPartition | scripts/migrate_to_multi_user.py:143-159 | updated plus malformed is at most the line count; each count is zero iff no line of its kind exists |
| Migration.StampedCounts | scripts/migrate_to_multi_user.py:152-159 | after the rewrite no entry lacks a `user_id`, and the malformed lines are the same in number |
| Migration.StampedIdempotent | scripts/migrate_to_multi_user.py:152-155 | a second run leaves the lines unchanged and updates nothing |
| Migration.RewriteLedger | scripts/migrate_to_multi_user.py:143-162 | the loop's lines are the stamped ledger; `updated_count` is the number of entries without `user_id`; `error_count` is the number of malformed lines |
| Migration.DataDirectory.Migrate | scripts/migrate_to_multi_user.py:26-168 | it succeeds iff the chat id is set, non-empty and not `"None"`; otherwise nothing changes. On success the config is written, the registry is replaced by the user alone, and an existing ledger is rewritten |
| Migration.MigratedUserIsScheduled | scripts/migrate_to_multi_user.py:98-126 | starting the scheduler on the migrated registry and config gives the user exactly one enabled job with the configured interval, and nobody else a job |

## Left out

- Timer-library scheduling: firing times, `max_instances` and `coalesce` are not modelled. A job's next run time is a value the caller supplies.
- `stop` (`src/scheduler.py:172-176`) and the timer start inside `start` (`src/scheduler.py:169`) only start or shut down the timer library, which is not modelled; neither changes the job store or the flags.
- Locks, threads and concurrent access to the flag table and the JSON files are not modelled; every operation is one atomic step.
- JSON serialisation and file layout (indentation, key order, the `messages` / `notes` wrapper objects, line endings) are not modelled.
- A document missing its `messages` or `notes` key (handled by `data.get(..., [])`) is not modelled; stores always hold a list.
- Ledger lines whose JSON is not an object, whose fields have the wrong JSON type, or whose timestamp has no UTC offset make the source raise an uncaught `TypeError` or `AttributeError`. The model's ledger records are typed, so it has no such lines.
- In the migration, a `user_id` that is JSON `null` counts as present in the source. The model cannot tell it apart from an absent key.
- UsageTracker.CalculateCost: costs are exact reals; the 6-decimal rounding of each cost is not modelled.
- UsageTracker.UsageLedger.GetUsageStats: the total cost is the exact sum; the 4-decimal rounding of the reported total is not modelled.
- The report is a datatype, not text: number formatting and the emoji layout of `format_usage_report` are left out.
- Python's full Unicode `lower()` is not modelled; `Text.Lower` folds only A–Z.
- The system prompt file and its fallback text (`load_system_prompt`) are not modelled; the request carries only the context appended to it.
- The engine call itself is not modelled; `Reply` abstracts its failure modes into one error string.
- Transport failures are not modelled: a send that raises after some blocks were handled is outside the model, since the outbox never fails.
- In `respond_to_user`, the exception path only logs, so a failure after the usage was logged is not modelled.
- `config.get_claude_model` is not part of this model. The model name, the context size and the heartbeat interval are parameters.
- The user registry and the per-user storage behind `get_user_registry` and `get_user_storage` are not part of this model. The registry is a sequence of user records and the configuration lookup is a function.
- Scheduler.HeartbeatScheduler.HeartbeatJob: models only the enable gate of `heartbeat_job`. Its call into the decision engine uses a signature that `src/claude.py` does not provide, so the heartbeat is modelled by `Claude.ProcessHeartbeat` instead.
- The migration's file copies, moves and backups are not modelled, and neither are the directory creation and the console output. This includes moving `messages.json` and `scratchpad.json` into the user directory, or creating them empty (`scripts/migrate_to_multi_user.py:62-92`). The documents it writes are fields of `DataDirectory`.
- The global store instances (`src/storage.py:97-98`) are objects passed to the operations that use them.

## Findings

| source | as written | input that shows it | evidently intended | confidence | as-written member | corrected member |
|---|---|---|---|---|---|---|
| src/usage_tracker.py:98-104 | The running sums are updated key by key. An entry missing `output_tokens` raises `KeyError` after its input tokens were added, and one missing `total_cost` raises after both token counts were added. The request is then skipped, so it is left out of `request_count`, but its tokens stay in the totals. | A ledger with the single line `{"timestamp": <now>, "input_tokens": 100}` gives `input_tokens == 100` and `request_count == 0` | An entry that is skipped contributes nothing: the sums cover exactly the counted requests | not executed; only hand-edited or foreign ledger lines lack these keys | UsageTracker.TallyAsWritten, with UsageTracker.PartialEntryLeaksTokens | UsageTracker.Tally, used by UsageTracker.UsageLedger.GetUsageStats (UsageTracker.TallyCountsRequests, UsageTracker.UncountedAddNothing) |
