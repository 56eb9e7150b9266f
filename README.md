# Bot registry and command queue, in Dafny

This project models the Flask bot-management service of `server_improved.py`
and its predecessor `server.py`. It then proves properties of the model.

`server_improved.py` keeps two module-level dictionaries:
- `bots` maps a bot id to its attribute record.
- `bot_commands` maps a bot id to its list of pending command entries.

Six request handlers read and change them: register, send command, fetch
pending commands, clear, list, and unregister. `health` reports the bot count.
A validator, `validate_json_data`, refuses bodies that are missing, empty, or
lack a non-empty required field. `server.py` keeps one dictionary and
validates nothing.

The project has these modules:

- `Values` (`values.dfy`) holds the values the handlers see.
  - JSON values (`Json`).
  - The dictionary key a JSON value becomes (`Key`, `KeyOf`). Python's `True == 1` is modelled, and lists or objects cannot be hashed.
  - Python's `str.strip()` over the full `str.isspace()` set.
  - The emptiness test the validator applies.
- `Validation` (`validation.dfy`) models `validate_json_data`, with its early returns in field order.
- `Registry` (`registry.dfy`) holds the two dictionaries as one value, `State(order, bots, queues)`.
  - `order` is the iteration order of `bots`, which `list_bots` makes visible.
  - It has one transition function per handler, each from a state to a new state and a `Response`.
  - Each handler holds `bot_lock` for its whole critical section, so each handler is one atomic step.
- `RegistryInvariant` (`invariant.dfy`) proves that every handler keeps the registry invariant.
  - `bots` and `bot_commands` have the same keys.
  - `order` lists each key once.
  - Every record names its own key and carries both timestamps.
- `RegistryProperties` (`properties.dfy`) holds properties across several calls: no lost updates, poll and clear, unregister and re-register, and counts.
- `RegistryFrames` (`frames.dfy`) shows that a handler naming one bot touches no other bot. Within a record, it writes only the fields the code assigns.
- `ImprovedServer` (`improved_server.dfy`) is the service as an object.
  - Class `BotServer` has fields `order`, `bots` and `botCommands`.
  - Its handler methods update those fields in place, as the Python handlers do.
  - Each method is proved to produce exactly the state and response that the matching `Registry` function gives.
  - `list_bots` builds the list in a loop, with an inner loop over the field names it copies.
- `BasicServer` (`basic_server.dfy`) models `server.py`: `register` stores the body, and `command` is a membership test with no `modifies` clause.
- `Comparison` (`comparison.dfy`) shows where the two servers disagree on the same request.

The clock reading `datetime.now().isoformat()` is the parameter `now`.

`register` overwrites `registered_at` on every registration, including a
re-registration of a known bot (server_improved.py:58).
`RegistryProperties.ReregisterReplaces` states this.

## Model

| member | source | states |
|---|---|---|
| Values.KeyOf | server_improved.py:62-65 | a JSON value is usable as a dictionary key unless it is a list or an object; strings, integers, `None` and booleans (as 1/0) become keys |
| Values.LStrip | server_improved.py:28 | `lstrip()` keeps a suffix, drops only whitespace, and is empty exactly when the string is all whitespace |
| Values.RStrip | server_improved.py:28 | `rstrip()` keeps a prefix, drops only whitespace, and is empty exactly when the string is all whitespace |
| Values.Strip | server_improved.py:28 | `strip()` is empty exactly when the string is all whitespace, and otherwise starts and ends with a non-space character |
| Values.StripKeepsMiddle | server_improved.py:28 | `strip()` cuts a whitespace-only prefix and suffix and keeps the rest unchanged |
| Values.IsEmptyValue | server_improved.py:28 | `not v or not str(v).strip()`: a string is empty exactly when it is all whitespace; any other value exactly when it is falsy |
| Values.EmptyValueMeaning | server_improved.py:28-29 | which values the validator calls empty: `None`, `False`, `0`, `[]`, `{}` and all-whitespace strings |
| Validation.Message | server_improved.py:23-29 | the refusal text names the refused field at a fixed place |
| Validation.MessageIdentifiesReason | server_improved.py:23-29 | different refusal reasons never give the same message text |
| Validation.CheckFields | server_improved.py:25-31 | the field loop succeeds exactly when every field is present and non-empty; otherwise it reports the first failing field, "missing" before "empty" |
| Validation.ValidateJsonData | server_improved.py:20-31 | a missing or empty body is refused as "no data"; otherwise the result is valid exactly when every required field is present, and the first failing field is reported |
| Validation.Accepted | server_improved.py:25-31 | a body with every required field present and non-empty passes |
| Registry.Without | server_improved.py:218 | `del` drops exactly that key from the iteration order and keeps the others distinct; an absent key changes nothing, and a present one shortens the order by one |
| Registry.WithoutCutsOut | server_improved.py:218 | deleting a key that occurs only at index `p` gives the order before `p` followed by the order after it |
| Registry.WithoutKeepsOrder | server_improved.py:218 | the remaining keys keep their order: the result is the old order with the one occurrence of the key cut out |
| Registry.Stamped | server_improved.py:58-59 | the stored record has the body's keys plus `registered_at` and `last_seen`, both `now`, and every other field as sent |
| Registry.Pending | server_improved.py:139 | `bot_commands.get(bot_id, [])`: a bot's queue, or no commands when it has none |
| Registry.Upsert | server_improved.py:56-65 | the critical section of `register`: the bot is known, both stamps are `now`, an existing queue survives, and a new key goes last in iteration order |
| Registry.Register | server_improved.py:43-76 | a validation failure gives 400 and no state change; an unhashable id gives 500 and no state change; otherwise the body is upserted and the id is echoed |
| Registry.NewEntry | server_improved.py:102-109 | the entry holds the command, `timestamp = now` and `status = "pending"`, and holds `params` exactly when the body has it |
| Registry.Enqueue | server_improved.py:111 | one entry is appended at the end of that bot's queue; records and the key set do not change |
| Registry.SendCommand | server_improved.py:79-122 | 400 on a validation failure; 500 on an unhashable id; 404 and no change for an unknown bot; otherwise one entry is enqueued; a command is sent exactly when the bot has a record and a queue |
| Registry.GetCommands | server_improved.py:125-145 | 404 for an unknown id; otherwise the whole queue in enqueue order, queues and order unchanged, and `last_seen = now` |
| Registry.ClearCommands | server_improved.py:152-170 | 404 for an unknown id; otherwise it reports the old queue length and leaves the queue empty |
| Registry.UnregisterBot | server_improved.py:207-226 | 404 for an unknown id; otherwise the record, the queue and the key in iteration order are all gone |
| Registry.Whitelisted | server_improved.py:190-192 | exactly `name`, `version` and `status` are copied, when the record has them, with their values |
| Registry.Summarize | server_improved.py:183-192 | a summary carries the id, both stamps (or null), the queue length and the whitelisted fields |
| Registry.Summaries | server_improved.py:181-194 | one summary per key, in iteration order |
| Registry.ListBots | server_improved.py:177-200 | one summary per registered bot, in iteration order; every registered bot is listed; `total_count` is the number of bots |
| Registry.OrderCountsBots | server_improved.py:199 | under the invariant, the iteration order has one entry per registered bot, so the listing's length is the bot count |
| Registry.EveryBotListed | server_improved.py:181-194 | a list with one summary per key of the iteration order names every registered bot and no other |
| Registry.Health | server_improved.py:34-40 | status "healthy", the clock reading, and `registered_bots` equal to the number of bots |
| RegistryInvariant.EmptyKeepsInv | server_improved.py:16-17 | the empty registry satisfies the invariant |
| RegistryInvariant.UpsertKeepsInv | server_improved.py:56-65 | the register critical section keeps the invariant |
| RegistryInvariant.RegisterKeepsInv | server_improved.py:43-76 | `register` keeps the invariant |
| RegistryInvariant.SendCommandKeepsInv | server_improved.py:93-111 | `send_command` keeps the invariant |
| RegistryInvariant.GetCommandsKeepsInv | server_improved.py:128-139 | `get_commands` keeps the invariant |
| RegistryInvariant.ClearCommandsKeepsInv | server_improved.py:155-163 | `clear_commands` keeps the invariant |
| RegistryInvariant.UnregisterBotKeepsInv | server_improved.py:210-220 | `unregister_bot` keeps the invariant, so the key sets of `bots` and `bot_commands` stay equal |
| RegistryProperties.SendAccepted | server_improved.py:85-111 | a valid body for a known bot with a queue enqueues exactly its entry and answers with the command |
| RegistryProperties.RegisterThenPoll | server_improved.py:62-65 | after registering, a poll finds the bot; for a new bot the queue is empty |
| RegistryProperties.EnqueueAllAppends | server_improved.py:111 | appends in sequence leave the old queue followed by the new entries in order, and change no other queue and no record |
| RegistryProperties.SendAllEnqueues | server_improved.py:93-111 | accepted sends in sequence are exactly the enqueues of their entries |
| RegistryProperties.SendAllAppendsEach | server_improved.py:93-111 | no lost updates: N accepted sends leave exactly N more entries, in call order, with other queues, records and the invariant unchanged |
| RegistryProperties.SendTwiceThenPoll | server_improved.py:102-139 | two sends and then a poll return both commands in the order sent |
| RegistryProperties.ClearThenPollThenClear | server_improved.py:155-163 | a clear reports the dropped count; after it a poll finds nothing, and a second clear reports 0 and changes nothing |
| RegistryProperties.UnregisterForgets | server_improved.py:210-220 | after unregistering, poll, clear, a second unregister and send are all 404 and change nothing |
| RegistryProperties.UnregisterUnlists | server_improved.py:210-220 | after unregistering, the listing shows no summary for the bot and its `total_count` is one lower |
| RegistryProperties.ReregisterAfterUnregister | server_improved.py:62-65 | commands do not leak across an unregister and re-register: the new queue is empty |
| RegistryProperties.UnregisterUndoesFirstRegister | server_improved.py:210-220 | unregistering a freshly registered bot gives back exactly the earlier registry |
| RegistryProperties.EnqueueTwiceThenPoll | server_improved.py:111-139 | two appends to an empty queue, then a poll, return the two entries in order |
| RegistryProperties.WithoutAppended | server_improved.py:218 | deleting a key that was the last one inserted gives back the earlier iteration order |
| RegistryProperties.UnregisterUndoesUpsert | server_improved.py:56-65 | deleting a key that the register critical section had just created gives back the earlier state |
| RegistryProperties.ReregisterReplaces | server_improved.py:56-65 | re-registering drops attributes the new body lacks, overwrites `registered_at`, and keeps the pending queue and the order |
| RegistryProperties.ListingAgreesWithHealth | server_improved.py:34-40 | `total_count` of the listing equals `registered_bots` of health |
| RegistryProperties.RegisterCount | server_improved.py:56-65 | registering raises the count by one exactly when it stores a new bot |
| RegistryProperties.UnregisterCount | server_improved.py:210-220 | unregistering lowers the count by one exactly when the bot was known; send, poll and clear leave it unchanged |
| RegistryFrames.UpsertOnlyTouches | server_improved.py:56-65 | the register critical section changes no other bot's record or queue |
| RegistryFrames.RegisterOnlyTouches | server_improved.py:43-76 | `register` changes no other bot's record or queue |
| RegistryFrames.RegisterStoresBody | server_improved.py:58-65 | the stored record has exactly the body's keys plus the two stamps, with the body's values |
| RegistryFrames.SendCommandOnlyTouches | server_improved.py:93-111 | `send_command` changes no other bot's queue or any record |
| RegistryFrames.GetCommandsOnlyTouches | server_improved.py:128-139 | `get_commands` changes no other bot |
| RegistryFrames.GetCommandsOnlyStamps | server_improved.py:136 | a poll writes `last_seen` and leaves every other field of the record unchanged |
| RegistryFrames.ClearCommandsOnlyTouches | server_improved.py:155-163 | `clear_commands` changes no other bot |
| RegistryFrames.UnregisterBotOnlyTouches | server_improved.py:210-220 | `unregister_bot` changes no other bot |
| ImprovedServer.BotServer.constructor | server_improved.py:16-17 | both dictionaries start empty, which satisfies the invariant |
| ImprovedServer.BotServer.Register | server_improved.py:43-76 | updates the fields in place to exactly `Registry.Register`'s state and response, and keeps the invariant |
| ImprovedServer.BotServer.SendCommand | server_improved.py:79-122 | updates the fields in place to exactly `Registry.SendCommand`'s state and response, and keeps the invariant |
| ImprovedServer.BotServer.GetCommands | server_improved.py:125-149 | updates the fields in place to exactly `Registry.GetCommands`'s state and response, and keeps the invariant |
| ImprovedServer.BotServer.ClearCommands | server_improved.py:152-174 | updates the fields in place to exactly `Registry.ClearCommands`'s state and response, and keeps the invariant |
| ImprovedServer.BotServer.UnregisterBot | server_improved.py:207-230 | updates the fields in place to exactly `Registry.UnregisterBot`'s state and response, and keeps the invariant |
| ImprovedServer.BotServer.ListBots | server_improved.py:177-200 | the answer is exactly `Registry.ListBots` of the current state |
| ImprovedServer.BotServer.CollectSummaries | server_improved.py:181-194 | the `bot_list` loop builds exactly one summary per key, in iteration order (`Registry.Summaries`) |
| ImprovedServer.BotServer.CopyWhitelisted | server_improved.py:190-192 | the inner loop copies exactly the whitelisted fields the record has |
| ImprovedServer.BotServer.Health | server_improved.py:34-40 | the report is `Registry.Health` of the current state |
| BasicServer.RegisterStep | server.py:7-12 | success exactly when the body has a hashable `bot_id`, and then the body replaces any earlier record; otherwise an exception and no change |
| BasicServer.CommandReply | server.py:14-22 | an exception unless both keys are present and the id is hashable; then "success" exactly when the bot is registered, else "failure" |
| BasicServer.RegisterThenCommand | server.py:10-19 | a command right after registration succeeds, and the stored record is the last body |
| BasicServer.Server.constructor | server.py:5 | `bots` starts empty |
| BasicServer.Server.Register | server.py:7-12 | assigns into `bots` exactly as `RegisterStep` says |
| BasicServer.Server.Command | server.py:14-22 | answers as `CommandReply` and, having no `modifies` clause, leaves `bots` unchanged |
| Comparison.MissingBotId | server_improved.py:49-52 | a body without `bot_id` is a 400 naming the field in the improved server and an exception in `server.py`; neither changes state |
| Comparison.BlankBotId | server_improved.py:28-29 | a blank `bot_id` is refused by the improved server but stored by `server.py` |
| Comparison.BothReplaceRecords | server.py:11 | in both servers re-registration drops attributes the new body lacks |

## Left out

- Flask glue is not modelled: routing, `request.get_json()`/`request.json`, `jsonify`, the 404/405/500 error handlers (server_improved.py:232-242) and the `__main__` block. Each handler's result is a `Response` value; `Registry.StatusCode` gives its HTTP status. Response message texts are given only for validation failures (`Validation.Message`).
- Logging calls are left out: they only produce output.
- The clock is a parameter `now`. Registry.Upsert: `register` reads the clock twice (server_improved.py:58-59), so in Python the two stamps can differ by a tick; the model gives both the same `now`.
- `bot_lock` and threads are left out. Each handler is one atomic transition, and interleavings are not modelled. `get_commands` returns its queue as a value, a snapshot taken under the lock. The live list that Python hands to `jsonify` after releasing the lock is not modelled.
- The broad `except Exception` paths are modelled only for the two exceptions that can actually arise:
  - A list or object `bot_id` cannot be hashed (`TypeError`).
  - `bot_commands[bot_id]` fails when the queue is missing (`KeyError`), which the invariant rules out.
  Other failures inside Flask are not modelled.
- Request bodies are a JSON object or absent (`None`). A JSON array, string or number as the whole body is left out, and so are JSON floating-point numbers.
- Python keeps the first key object of equal keys (`1` and `True`). The model identifies them as one `Key` and reports that `Key` in listings.
- ImprovedServer.BotServer.Register: the handler methods ensure `old(Valid()) ==> Valid()` rather than requiring `Valid()`, because the Python handlers run on any state. The same holds for the other handler methods.
- `example_bot_client.py` is not part of this model. It is an HTTP client loop with sleeps and signal handlers.
- `test_server.py` is not replayed as one run. Its steps (test_server.py:154-163) are covered one by one:
  - registration, then a poll: `RegisterThenPoll`;
  - two sends, then a poll: `SendTwiceThenPoll`;
  - clear, poll, clear: `ClearThenPollThenClear`;
  - unregister, then the listing and every other handler: `UnregisterForgets`, `UnregisterCount`;
  - the listing count: `ListingAgreesWithHealth`;
  - the two error cases: `Comparison.MissingBotId` and `ValidateJsonData`.
