# T&C gate bot — a Dafny model of its membership gating and moderation

This project models the core of a Telegram bot that guards group chats. When
people join a group the bot mutes every human among them and posts the terms
with a single "I Accept" button addressed to that person. Pressing the button,
which only its addressee may do, lifts the restriction, records the acceptance
in SQLite, deletes the prompt and announces the user. Chat administrators can
switch a per-chat voice-only mode on and off. While it is on, a catch-all
handler deletes every non-voice message from non-admins. The bot owner can, in
a private chat, export the acceptances as CSV and list the configured groups.

The Bot API and the database are state. The calls the platform carries out
are appended to an ordered effects log; the role lookup (`get_chat_member`)
only reads the members' statuses and leaves no entry, and a delete the
platform refuses (the message is already gone) leaves no entry either:

- `Telegram.Bot` (telegram.dfy) holds the permission flags per (chat, user),
  the members' statuses, the set of messages that still exist, the next
  message id and the log of calls (`RestrictCall`, `SendCall`, `DeleteCall`,
  `AnswerCall`, `DocumentCall`).
- `Database.Database` (database.dfy) holds `accepted_users` as a sequence in
  rowid order. `UniqueUsers` is its UNIQUE `user_id` constraint, and
  `InsertOrIgnore` is the statement that `add_user_acceptance` runs. The
  per-chat settings are a map from chat id to (title, mode), where a missing
  chat means the mode is not `"on"`.
- The handlers are methods over both: `UserJoin.OnUserJoin` and
  `UserJoin.ProcessTcAccept` in user_join.dfy, and the `Admin` methods in
  admin.dfy. Every handler except `OnUserJoin` returns an `Outcome`: `Done`,
  or `Raised(...)` for an exception that ends the coroutine. `OnUserJoin`
  returns nothing and cannot fail here, because restricting a member and
  sending a message are taken to succeed (see "## Left out").
- keyboards/inline.py is `Inline.TcKeyboard`. `PyText` spells out the Python
  built-ins the handlers lean on: `str(int)`, `int(str)`, `str.split` and
  `str.startswith`.
- scenarios.dfy walks through the handlers using only their contracts:
  - a join followed by the addressee's click on the same state;
  - a wrong-user click;
  - a repeated click once the prompt is gone;
  - the voice-only toggle.

Inputs the bot reads from outside are parameters:
- the acceptance timestamp (`datetime.utcnow().isoformat()`) is `now`;
- the configuration (the formatted terms text, `T_AND_C_VERSION`, `BOT_OWNER_ID`) is a `Runtime.Config`;
- the order in which the store lists group settings is `order`.

## Behaviour of the code worth knowing

- Acceptances are keyed by user alone, as `db/database.py:13` makes them, not
  by (user, chat). A user who already accepted in one chat and accepts in
  another is unrestricted there, but no row is added: the first row wins.
- The stored row holds no chat id and no snapshot of the terms text, only
  the user id, username, timestamp and version (`db/database.py:11-17`).
- A failed role lookup in `is_admin` is not treated as "not an admin". The
  exception ends the handler. So in a voice-only chat such a message is kept,
  and a toggle command gets no reply.
- In the accept handler the steps are not independent. If the insert fails,
  nothing after it runs. If the prompt is already gone, the delete raises and
  no confirmation is sent. A repeated press of a prompt that was already
  deleted therefore unrestricts again and stops there.
- A payload that passed the `user_accept:` filter always has a field at index
  1 (`UserJoin.FilteredPayloadHasTarget`). Only `int()` can fail on it, and
  the failure ends the handler without answering the press.
- `/export_users` replies "Exporting user data..." after fetching the rows
  but before it checks whether there are any, so the "nothing yet" reply
  comes second.
- `int(BOT_OWNER_ID)` is evaluated on every owner command. A value that is
  not an integer makes every owner command raise.

## Model

| member | source | states |
|---|---|---|
| PyText.NatToDecimalDigits | keyboards/inline.py:7 | `str(n)` of the id in the payload is a non-empty run of digits with no leading zero |
| PyText.IntRoundTrip | handlers/user_join.py:59 | `int(str(i)) == i` for every integer, negative ones included |
| PyText.Split | handlers/user_join.py:59 | `split(":")` yields at least one piece and no piece contains the separator |
| PyText.JoinSplit | handlers/user_join.py:59 | joining the pieces of a split with the separator gives back the original string |
| Inline.AcceptPayload | keyboards/inline.py:7 | the button's callback data, `user_accept:` followed by `str(user_id)` |
| Inline.TcKeyboard | keyboards/inline.py:5-10 | the markup: one row holding the single accept button for that user |
| Inline.TcKeyboardShape | keyboards/inline.py:5-10 | the keyboard has one row holding one button with the accept label, and its payload is `user_accept:` followed by `str(user_id)` only |
| UserJoin.AcceptFilter | handlers/user_join.py:56 | the callback filter: the payload starts with `user_accept:` |
| UserJoin.ParseAcceptPayload | handlers/user_join.py:59 | `int(data.split(":")[1])`: None when there is no second piece or `int()` rejects it, else the parsed target id |
| UserJoin.AcceptPayloadRoundTrip | handlers/user_join.py:56-59 | the button's payload passes the `user_accept:` filter and `int(data.split(":")[1])` returns the user id it was built from |
| UserJoin.AcceptPayloadInjective | keyboards/inline.py:7 | two users never get the same payload, so a button addresses exactly one user |
| UserJoin.FilteredPayloadHasTarget | handlers/user_join.py:56-59 | any payload the filter lets through splits into at least two pieces, the first being `user_accept` |
| UserJoin.WelcomeText | handlers/user_join.py:45-48 | the prompt text, `Welcome, <full name>!` followed by the formatted terms |
| UserJoin.ConfirmationText | handlers/user_join.py:79 | the announcement: the user's HTML mention followed by the fixed sentence |
| UserJoin.NonBots | handlers/user_join.py:29-34 | the new members the loop serves, in event order, bots skipped |
| UserJoin.PromptCalls | handlers/user_join.py:38-53 | one served joiner's calls: the restrict, then the prompt with that joiner's keyboard |
| UserJoin.JoinEffects | handlers/user_join.py:29-53 | the calls of one join event, joiner by joiner, prompts taking consecutive message ids |
| UserJoin.RestrictAll | handlers/user_join.py:38-43 | the permissions after a join event: each served joiner restricted in that chat |
| UserJoin.PermissionSets | handlers/user_join.py:11-23 | the restricted set denies all four capabilities and the unrestricted set grants all four |
| UserJoin.NonBotsMembers | handlers/user_join.py:29-34 | a new member is served exactly when it is in the event and is not a bot |
| UserJoin.NonBotsConcat | handlers/user_join.py:29-34 | skipping bots commutes with concatenation, so served joiners keep the event's order |
| UserJoin.JoinEffectsLength | handlers/user_join.py:29-53 | a batch issues exactly two calls per served joiner |
| UserJoin.JoinEffectsAt | handlers/user_join.py:29-53 | served joiner k gets calls 2k and 2k+1, which are exactly its own pair of calls with message id firstId + k, so joiners are served in event order |
| UserJoin.PromptCallsShape | handlers/user_join.py:38-53 | a joiner's pair is a restrict denying all four capabilities, then a prompt into the same chat with the welcome text, a keyboard built from the joiner's own id and no reply target |
| UserJoin.JoinEffectsStep | handlers/user_join.py:29-53 | serving one more joiner appends exactly that joiner's pair of calls to the batch's calls |
| UserJoin.NoCallsFor | handlers/user_join.py:32-34 | no call of a batch restricts or prompts an id that no served joiner has |
| UserJoin.BotsUntouched | handlers/user_join.py:32-34 | a bot in the event gets no restrict call and no prompt |
| UserJoin.RestrictAllEffect | handlers/user_join.py:38-43 | after a batch every served joiner holds the restricted set in that chat and every other (chat, user) pair keeps its permissions |
| UserJoin.GateJoiner | handlers/user_join.py:38-53 | for one joiner: restrict, then send the prompt, and nothing else changes |
| UserJoin.OnUserJoin | handlers/user_join.py:26-53 | the log grows by exactly the batch's calls in order, the served joiners are restricted and their prompts now exist |
| UserJoin.ProcessTcAccept | handlers/user_join.py:56-79 | an unparsable id changes nothing. A wrong presser gets only the "not for you" alert: no permission change, no row, no delete. The addressee is unrestricted, then recorded (insert or ignore), then the prompt is deleted, then confirmed, and a failing step stops the later ones |
| Database.InsertOrIgnore | db/database.py:24-27 | `INSERT OR IGNORE` under the UNIQUE `user_id`: the table unchanged when the user has a row, else the row appended |
| Database.Find | db/database.py:13 | the lookup on the unique index returns a stored row for that user, and finds none exactly when no row has that user id |
| Database.FindAppend | db/database.py:24-27 | appending a row changes a lookup only for a user that had no row and is the new row's user |
| Database.InsertRecordsUser | db/database.py:21-28 | after an insert the user has a row. It is the pre-existing row, with the table unchanged, or else exactly the given username, supplied timestamp and version |
| Database.InsertKeepsOthers | db/database.py:24-27 | an insert leaves the row of every other user as it was |
| Database.InsertIsAppendOnly | db/database.py:24-27 | an insert adds at most one row at the end and never changes or removes existing rows |
| Database.InsertKeepsUnique | db/database.py:13 | an insert never produces two rows with the same user id |
| Database.InsertIdempotent | db/database.py:25 | a second insert for the same user, whatever its username, time or version, leaves the table as the first one did |
| Database.RepeatedInsertsOneRow | db/database.py:25 | after any number of inserts for one user, the table has no duplicates and that user's row is the one stored before or the first inserted |
| Database.Database.InitDb | db/database.py:8-19 | creating the table if absent is idempotent and keeps existing rows |
| Database.Database.AddUserAcceptance | db/database.py:21-28 | the table becomes `InsertOrIgnore` of the old table with the given user, username, version and timestamp. Before init_db the statement fails and nothing changes |
| Database.Database.SetVoiceOnlyMode | handlers/admin.py:30 | upserts the chat's title and mode and touches nothing else |
| Database.Database.GetVoiceOnlyMode | handlers/admin.py:102 | returns the stored mode, or None for a chat never configured |
| Database.Database.GetAllUserAcceptances | handlers/admin.py:58 | returns every row in table order, and fails before the table exists |
| Database.Database.GetAllGroupSettings | handlers/admin.py:85 | returns one setting per configured chat in the given order |
| Admin.IsAdmin | handlers/admin.py:15-18 | true iff the member's status is ADMINISTRATOR or CREATOR, false for every other status, and None when the lookup fails |
| Admin.SetModeCommand | handlers/admin.py:21-45 | a non-admin gets the rejection reply and the settings are untouched. An admin's chat gets the mode and its current title, then the confirmation reply |
| Admin.VoiceOnlyOn | handlers/admin.py:21-32 | for an admin, sets the chat's mode to "on" with its current title and replies. For a non-admin, only the rejection reply |
| Admin.VoiceOnlyOff | handlers/admin.py:35-45 | for an admin, sets the chat's mode to "off" with its current title and replies. For a non-admin, only the rejection reply |
| Admin.OwnerGate | handlers/admin.py:53-56 | the guard passes iff the sender is the owner and the chat is private. A non-owner is rejected as such whatever the chat type, and an owner outside a private chat gets the private-chat rejection |
| Admin.CsvRow | handlers/admin.py:66-68 | one exported line: user id, username (empty for none), version, timestamp |
| Admin.CsvLines | handlers/admin.py:66-68 | the exported file: the six-name header, then one line per row in table order |
| Admin.WriteCsv | handlers/admin.py:64-68 | the CSV holds the header, then one line per acceptance in table order |
| Admin.ExportUsers | handlers/admin.py:50-74 | `db` is not in `modifies`: the store is never changed. A bad owner id raises with the bot unchanged. A rejected caller gets only the rejection, one new message. For the owner: a missing table raises before any reply. Otherwise "Exporting" comes first, then the "nothing yet" reply for an empty table, else the CSV document. Two new messages exist afterwards |
| Admin.AsciiUpperModes | handlers/admin.py:91 | `upper()` renders the two stored modes "on" and "off" as "ON" and "OFF" |
| Admin.GroupEntry | handlers/admin.py:91 | one group's paragraph: title (`None` when missing) and the mode in capitals |
| Admin.GroupEntries | handlers/admin.py:89-91 | the paragraphs of all groups in the order given |
| Admin.GroupEntriesAppend | handlers/admin.py:89-91 | appending a group appends exactly its paragraph, so the listing has one entry per group, in order |
| Admin.BuildListing | handlers/admin.py:89-91 | the listing is the header followed by every group's paragraph in order |
| Admin.ShowGroups | handlers/admin.py:77-94 | a bad owner id raises with the bot unchanged. A rejected caller gets only the rejection. For the owner: the "not configured" reply when there are no settings, else the listing of every configured chat. Each reply is one new message |
| Admin.FilterDecision | handlers/admin.py:104-109 | remove iff mode is "on", the author's status is known and is not admin or creator, and the message is not voice. Any other mode, absence included, keeps the message whatever the author |
| Admin.DeleteNonVoiceMessages | handlers/admin.py:97-115 | the message is deleted exactly when the decision says remove and it still exists. A refused delete is swallowed. The role is looked up only in a voice-only chat |

## Left out

- ParseInt: models `int()` on an optional sign followed by ASCII digits only. Python's `int()` also accepts surrounding whitespace, underscores between digits and non-ASCII digits; here these count as malformed.
- MentionHtml: the user's name is not HTML-escaped in the confirmation link.
- AsciiUpper: upper-cases ASCII letters only. Python's `str.upper` covers all of Unicode, but the stored modes are only ever "on" or "off".
- ShowGroups: the MarkdownV2 parse mode is not modelled. The platform may refuse the listing because of unescaped characters.
- ExportUsers: the document is the list of CSV lines, not its quoted serialization. The loop also reads `user['chat_id']` and `user['t_and_c_content']` (handlers/admin.py:68), columns the table in db/database.py:11-17 does not have. If the rows carry only the table's columns, that lookup raises, so a non-empty export ends after "Exporting user data..." and sends no document. The model assumes rows the writer can read and leaves those two cells out.
- Bot API calls other than delete and the role lookup are assumed to succeed. A failed restrict, send or answer would end a handler the same way a failed delete does.
- Message ids come from one counter for all chats. Restricting a member does not change its reported status.
- The autoincrement `id` column of `accepted_users` is not modelled; nothing reads it.
- The accessors `get_all_user_acceptances`, `set_voice_only_mode`, `get_voice_only_mode` and `get_all_group_settings` are imported by the handlers but not defined in `db/database.py`.
  - `Database.Database.GetAllUserAcceptances` assumes the first returns the table's rows in rowid order and fails when the table is missing.
  - The group-settings accessors are modelled as an upsert into a map and reads of it.
- The order of the settings that `get_all_group_settings` returns is an input.
- Handler dispatch is an assumption, not modelled. The join router is included before the admin router (main.py:35-36), and the catch-all filter is registered last (handlers/admin.py:97-98). So commands, joins and accept presses never reach the filter. The filter sees only group and supergroup messages, which is its `requires`.
- `/start` (main.py:22-25), process start-up, polling and logging are left out.
- Loading configuration from the environment (config.py) is left out. The formatted terms text, the version and the owner id string are parameters. In particular, the name user_join.py imports for the terms text (handlers/user_join.py:5) differs from the one config.py defines (config.py:15). The terms text is taken as an opaque string.
- Concurrency is left out. Handlers run one at a time, and racing clicks are modelled as successive calls.
