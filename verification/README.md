# AI Conversation Simulator — a Dafny model of the turn engine and the conversation store

The AI Conversation Simulator lets two chat bots talk to each other. Each bot has a
name, a system prompt and a model. A background thread alternates the bots: each
reply is sent to the other bot as its next input. Every message is stored in a SQLite
database. Socket handlers start, pause, resume and re-prompt the conversation.

This project models two parts of it as pure Dafny functions over immutable values:

- `engine.dfy` (module `Engine`) is the turn loop `run_conversation`. Each bot keeps its
  own history. The loop stores the seed under bot1, then alternates responders bot2,
  bot1, bot2, …. The chat-completion call is an oracle, a sequence of `Reply(text)` /
  `Failure` results. The `conversation_active` flag is a sequence of the values the loop
  reads, one per iteration.
- `database.dfy` (module `Database`) is `DatabaseManager`. A map of conversation rows
  and a sequence of message rows replace the two tables, and counters replace
  AUTOINCREMENT. The store invariant `Valid` says each conversation's
  `total_tokens`/`total_cost` equal the sums over its messages. Every operation
  preserves it for an existing conversation; the as-written inserts on an unknown
  id do not (see "## Findings").
- `server.dfy` (module `Server`) holds the socket handlers (start, pause, resume,
  update prompts, disconnect) and the `export_conversation` endpoint. State is the
  global flag, the thread and the current conversation id. While the thread is
  alive, it is `Some(run)`, carrying its arguments and loop state. One loop iteration
  is the transition `ThreadTick`. The invariant `AppValid` ties the store to the loop:
  the running conversation's stored messages are exactly the loop's log.
- `sorting.dfy` is a stable insertion sort standing in for `ORDER BY`; `wrappers.dfy`
  is `Option`, standing in for Python's `None`.

Abstractions:
- Timestamps are integers ordered like the stored `"%Y-%m-%d %H:%M:%S"` text. Each
  operation that stamps a row takes the clock reading as a parameter. The plain-text
  export takes the timestamp rendering as a function parameter.
- Costs are natural numbers in a fixed small currency unit instead of SQLite REAL, so
  the sum invariant is exact.
- Whether `delete_conversation` raises inside its transaction is a boolean parameter.

Behaviour of the code the model keeps:
- The loop stores replies with `add_message`, so no tokens or cost are recorded and
  the running conversation's totals stay zero (`Server.RunningConversationHasNoTokens`).
- `start` is refused whenever the flag is set, and a failed completion call ends the
  thread without clearing the flag. So after an error, both start and resume are refused
  until a pause (`Server.ErrorBlocksStartUntilPause`).
- Resume only sets the flag of a live thread; it never rebuilds a dead loop.
- The server stores messages through `Database.AddMessageChecked`, where the code calls
  `add_message`. The two agree here: the server invariant keeps the running
  conversation in the store, and `Server.ThreadTick` states the stored result as
  `add_message`'s.

## Model

| member | source | states |
|---|---|---|
| Database.InitDb | src/database/db_manager.py:19-57 | the freshly created tables are empty and satisfy the store invariant |
| Database.CreateConversation | src/database/db_manager.py:59-83 | exactly one row is added, with totals 0; its id is the AUTOINCREMENT counter's value, which then moves past it; all messages and the message counter are unchanged; whenever ids lie below the counter (orphan messages or not) the id was unused and every other row is unchanged; in a valid store the new id holds no messages and the invariant is preserved |
| Database.AddMessage | src/database/db_manager.py:85-99 | as written: appends one row, with the next message id, with zero prompt, completion and total tokens and zero cost; the message counter moves past that id; the conversation table and its counter are unchanged; the invariant is preserved for an existing conversation |
| Database.AddMessageWithTokens | src/database/db_manager.py:101-124 | as written: the row gets the next message id and the message counter moves past it; the conversation counter is unchanged; the row's total is prompt + completion; that conversation's totals grow by the same total and cost; no other conversation changes; the invariant is preserved for an existing conversation |
| Database.AddMessageChecked | src/database/db_manager.py:85-99 | corrected insert: refused (store untouched) exactly when the conversation does not exist; otherwise as `add_message`, preserving the invariant |
| Database.AddMessageWithTokensChecked | src/database/db_manager.py:101-124 | corrected insert with tokens: refused exactly for unknown conversations; otherwise preserves the totals invariant |
| Database.OrphanTokensBreakTotals | src/database/db_manager.py:109-121 | tokens stored for a not-yet-used id are adopted by the conversation later given that id, whose totals then disagree with its messages |
| Database.OrphanMessageAdoptedByNewConversation | src/database/db_manager.py:92-96 | a message stored for a not-yet-used id shows up under the conversation later given that id |
| Database.GetConversationById | src/database/db_manager.py:183-197 | returns the row exactly when one has that id, and `None` otherwise |
| Database.GetMessages | src/database/db_manager.py:199-214 | returns exactly the messages of that conversation (as a multiset), in nondecreasing timestamp order |
| Database.GetMessagesInStoredOrder | src/database/db_manager.py:204 | if the clock never went backwards, the listing is the insertion order |
| Database.GetAllConversations | src/database/db_manager.py:167-181 | every returned row is a stored conversation; whenever ids lie below the counter (orphan messages or not) every conversation is returned; timestamps are nonincreasing |
| Database.GetConversationTokenStats | src/database/db_manager.py:126-165 | `None` exactly for unknown ids; otherwise the stored totals (equal to the message sums in a valid store), and one entry per bot that spoke, holding that bot's sums of prompt, completion and total tokens and of cost |
| Database.SumOverBotsIsSum | src/database/db_manager.py:140-148 | grouping by bot name loses nothing: per-bot sums over distinct names that cover all speakers add up to the conversation's sum |
| Database.PerBotStatsAddUp | src/database/db_manager.py:150-165 | in a valid store the per-bot `total_tokens` and `cost`, in any order, add up to the conversation's stored totals |
| Database.UpdateBotSystemPrompts | src/database/db_manager.py:216-243 | changes exactly the prompts given (not `None`) on that conversation only; with both `None` the store is unchanged; ids stay below the counter, and the invariant is preserved |
| Database.DeleteConversation | src/database/db_manager.py:245-271 | on success no row and no message of that id remain, and every other conversation and its messages are unchanged; on failure the store is exactly as before; both AUTOINCREMENT counters are unchanged either way; ids stay below the counter, and the invariant is preserved |
| Database.DeletedIdNotReused | src/database/db_manager.py:27 | whenever ids lie below the counter (orphan messages or not), a conversation created after a delete gets an id that no earlier conversation held, the deleted one included |
| Engine.Begin | src/main.py:202-211 | the seed is the first stored message, attributed to bot1; each history is its system prompt alone |
| Engine.NextCall | src/main.py:224-241 | the call uses the responder's model and its history plus one trailing user turn holding the current message |
| Engine.Step | src/main.py:224-266 | a failure stops the loop; a reply grows only the responder's history, by the user turn and the assistant turn; it is stored under the responder and becomes the next input |
| Engine.HistoryOfWellShaped | src/main.py:247-252 | every history is a system turn followed by user/assistant pairs, so its length is odd |
| Engine.HistoryLengths | src/main.py:203-204 | the two histories together hold two turns per stored message |
| Engine.StepPreservesReachable | src/main.py:246-266 | after a successful turn the state is still the one determined by the stored messages: histories rebuilt from them, alternation kept |
| Engine.NextCallFromLog | src/main.py:227-232 | the request is the responder's history rebuilt from the stored messages plus the last stored message as user turn; its length is even |
| Engine.RunConversation | src/main.py:194-274 | the loop only runs while the flag is read set; stored messages are the seed (bot1) and then the replies, alternating bot2, bot1, …; their count is 1 + successful turns; a failure stores nothing and ends the loop; every call is the responder's history plus the previous message |
| Server.InitialApp | src/main.py:32-35 | the server starts inactive with no thread and no current conversation, over the database file as found (kept across restarts); a valid store gives a valid server state |
| Server.FirstStartIsEmpty | src/database/db_manager.py:19-57 | on a fresh database file the server starts with empty tables in a valid state |
| Server.StartConversation | src/main.py:119-157 | while active: error and no state change; otherwise exactly one new conversation whose row holds the requested names, prompts and models (defaults "Bot 1"/"Bot 2", "You are a helpful AI assistant.", "gpt-3.5-turbo") with zero totals, other rows unchanged, the seed (default "Hello! Let's have a conversation.") stored exactly as `add_message` stores it, under bot1's name with its own clock reading and all token and cost columns zero, flag set, thread started with the same settings; the server invariant is preserved |
| Server.PauseConversation | src/main.py:159-163 | always succeeds and changes only the flag, leaving it clear |
| Server.PauseIdempotent | src/main.py:159-163 | pausing twice is the same as pausing once |
| Server.Disconnect | src/main.py:113-117 | clears the flag exactly as a pause does |
| Server.ResumeConversation | src/main.py:165-173 | succeeds and sets the flag exactly when the thread is alive; otherwise error and no change |
| Server.UpdateSystemPrompts | src/main.py:175-192 | while inactive: error, no change; while active: only the stored prompts of the current conversation change, never the running loop's histories |
| Server.ThreadTick | src/main.py:221-274 | a clear flag or a failed call ends the thread without touching the flag; a reply advances the loop and stores one message under the responder's name; the server invariant is preserved |
| Server.ErrorBlocksStartUntilPause | src/main.py:271-274 | after a failed call, start and resume are refused until a pause, after which start succeeds |
| Server.RunningConversationHasNoTokens | src/main.py:254-255 | the running conversation's stored totals stay zero because the loop stores messages without tokens |
| Server.StoredMessagesAlternate | src/main.py:207-266 | the running conversation's stored messages are the loop's log: bot1's name at even positions, bot2's at odd ones |
| Server.ExportText | src/main.py:94-97 | the text export is empty exactly for no messages, and otherwise starts with `[` and ends with a blank line |
| Server.ExportTextAppend | src/main.py:95-97 | the export of a concatenation is the concatenation of the exports |
| Server.ExportTextAt | src/main.py:95-97 | the block of message `i` sits between the exports of the messages before and after it, so the export is the in-order concatenation of blocks |
| Server.ExportConversation | src/main.py:68-106 | unknown conversations are not found; the format defaults to csv; `txt` returns the text export of the listed messages; any other format is invalid |

## Left out

- Flask routes other than the export, templating, CORS, Socket.IO `emit`, `print`, and the HTTP/JSON response shapes are transport plumbing. Handler replies keep only their status and message text.
- The OpenAI call is an oracle of `Reply` / `Failure` results. `temperature` and `max_tokens` are not modelled.
- Threading is not modelled. Each handler and each loop iteration is one atomic step, and the `time.sleep(1)` delay is dropped. A pause quickly followed by a start can leave the old thread running next to the new one; the model keeps a single thread handle.
- The seed `add_message` and its emit happen in the thread before the loop's first flag check. The model performs them as part of `Server.StartConversation`, with the seed's own clock reading `seedNow`, separate from the conversation row's `now`.
- Engine.RunConversation: it runs over finite sequences of flag readings and call results. When they run out it stops with `OutOfObservations`, which stands for the rest of an unbounded run.
- `datetime.now()` formatting is not modelled. Timestamps are abstract integers, and the text export takes the rendering as a parameter.
- Database.GetMessages: for messages with equal timestamps, SQL leaves their order unspecified. The model keeps insertion order there, since its sort is stable (`Sorting.SortByStable`).
- Database.GetAllConversations: it states membership in both directions and the order, but not that each row appears exactly once.
- Costs are exact naturals in a small unit, not SQLite REAL floating point.
- CSV export is left out because `csv.writer`'s quoting rules are library behaviour. `Server.ExportConversation` returns the rows it would write.
- SQLite connections, SQL text and database errors are not modelled. The only failure modelled is the delete transaction's, given as a boolean.
- `get_models` and `index` only return the constant list of model names.
- `src/static/js/app.js` is browser UI and is not part of this model.

## Findings

| source | as written | input that shows it | evidently intended | confidence | as-written member | corrected member |
|---|---|---|---|---|---|---|
| src/database/db_manager.py:92-96 | `add_message` inserts a row for any `conversation_id`; foreign keys are not enforced because no `PRAGMA foreign_keys` is issued | on an empty database, `add_message(1, "Bot 1", "hi")` then `create_conversation(...)`: the new conversation 1 already lists a message | the docstring says "to an existing conversation": unknown ids are refused | medium, not executed | Database.OrphanMessageAdoptedByNewConversation | Database.AddMessageChecked |
| src/database/db_manager.py:109-121 | `add_message_with_tokens` inserts the message even when the totals UPDATE matches no conversation row | on an empty database, `add_message_with_tokens(1, "Bot 1", "hi", 3, 4, 5)` then `create_conversation(...)`: conversation 1 has `total_tokens = 0`, but its messages sum to 7 | unknown ids are refused, so totals always equal the message sums | medium, not executed | Database.OrphanTokensBreakTotals | Database.AddMessageWithTokensChecked |
