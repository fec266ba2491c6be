# Incident-intake bot: a Dafny model of its core

The bot collects an incident report from a Telegram chat. It runs a small
state machine (theme, description, contact, file), stores the report in
SQLite, and then makes one delivery attempt: an HTTP POST to a REST
endpoint (`/api`) or a plain-text mail (`/smtp`). This project models that
core as pure Dafny functions and proves properties about it.

Modules, following the program's structure:

- `Basics`: `Option`, `Result`, Python's `dict.get`, and the truth value of a string-or-`None`.
- `Store` (`db.py`): the `users` table as a map with insert-if-absent semantics. The `incident` table as an append-only sequence in rowid order, with its AUTOINCREMENT counter and NOT NULL columns. `register_user` and `register_incident`.
- `JsonValues`: decoded JSON and the Python operations the dispatcher applies to it: truth value, `[key]` and `in`.
- `Intake` (`handlers.py`): the FSM handlers. The command and text handlers each merge a single key into the FSM data dict and set the next state; `incident_file` merges the path only when a file exists there, and `prepare_to_send` merges none. There are two completion paths, `incident_file` and `prepare_to_send`.
- `Dispatch` (`handlers.py`): `send_incident`. It persists the report, sends the registration reply, then makes one POST or one mail. Every exception that escapes `send_incident` is recorded in the result.
- `Conversation`: aiogram's routing of updates to handlers, traces of updates, and whole-chat scenarios.

I/O is passed in as parameters:

- the HTTP answer (`HttpOutcome`);
- the SMTP result (`SmtpOutcome`);
- the downloaded document and whether a file exists at its path (`Document`);
- the date of `date.today()`.

An exception that escapes `send_incident` ends it, so no reply follows it. The model records it in `Outcome.raised`. A message without a document in the `file` state raises before anything changes (handlers.py:103); the model leaves the chat as it was and records no outcome for it.

### Behaviour of the code as written

- **Starting an intake does not clear earlier fields.** `/api` and `/smtp` only merge `from_command` (handlers.py:54, 67). Completion clears only the state, never the data (handlers.py:107, 126). Fields from an earlier report therefore carry over (`Conversation.StaleContactCarriesOver`).
- **Skipped fields are stored and posted as `''`.** A skipped contact or file is read with the default `''` (handlers.py:111-112, 130-131), so it is stored and posted as `''`.
- **A non-200 answer gets no reply.** `data_from_api` is assigned only on status 200 (handlers.py:166-167). Any other status raises `UnboundLocalError` at line 168. The user gets no integration-failure message (`Dispatch.NonOkStatusGetsNoReply`).
- **The echo is read under `json`.** The code reads `body['json']['incident']` (handlers.py:169). An answer carrying `incident` at top level raises `KeyError` (`Dispatch.EchoWithoutJsonKeyRaises`).
- **`send_incident` does not register the user.** Users are registered only by `/start` (handlers.py:42).
- **The send button works in any state.** It also works with no intake at all, because the callback handler has no filter (handlers.py:123).
- **A mail body outside ASCII is never sent.** `smtplib` encodes a `str` message with the ASCII codec inside `sendmail` (handlers.py:193), so a Cyrillic field raises `UnicodeEncodeError`, which line 195 turns into the SMTP-error reply (`Dispatch.NonAsciiThemeMailFails`).
- **Theme and description can be missing.** A message with no text stores `None` as the theme or description. The later insert then violates NOT NULL and the dispatch raises before any reply (`Conversation.TextlessThemeFailsStorage`).

## Model

| member | source | states |
|---|---|---|
| `Store.GetUser` | db.py:72-81 | Looking up a user id gives the stored row exactly when the id is present, and that row carries the id. |
| `Store.SetUser` | db.py:83-90 | A key already present leaves the table unchanged. Otherwise the row is inserted under its own id, every other row stays, and an id clash is a primary-key error. Key/id consistency is preserved. |
| `Store.UserKeys` | db.py:120-125 | `keys()` lists exactly the stored ids, each once, in ascending (rowid) order. |
| `Store.RegisterUser` | db.py:241-245 | After registration the id is present. A known id leaves the database unchanged. A new id gets (id, firstname, username, today). No other user and no incident changes. Validity is preserved. |
| `Store.RegisterUserIsSetUser` | db.py:241-245 | `register_user` through `Users.__setitem__` never raises and yields the table that `RegisterUser` describes. |
| `Store.RegisterUserIdempotent` | db.py:241-245 | Registering the same id twice equals registering it once; the first registration's data is kept. |
| `Store.FirstOfUser` | db.py:186-194 | Gives the index of the first row in rowid order whose `user` is the given id. `None` exactly when no row has that user. |
| `Store.HasIncidentOf` | db.py:223-231 | `user in Incident()` holds exactly when some incident row has that user. |
| `Store.GetIncidentOf` | db.py:186-195 | `Incident()[user]` returns a row exactly when that user has an incident, and it is that user's first row in rowid order. |
| `Store.SetIncident` | db.py:197-204 | The insert fails exactly when theme or description is `None`, naming `theme` when both are, else the missing column (NOT NULL, theme checked first). Otherwise it appends one row with the given values under an id above every existing id, keeps earlier rows, and keeps the table valid. |
| `Store.IncidentKeys` | db.py:233-238 | `keys()` lists each row's id in rowid order, strictly increasing. |
| `Store.IncidentKeysGrowByOne` | db.py:233-238 | An insert adds exactly one key at the end, absent before and above every existing key. |
| `Store.FirstOfUserAppend` | db.py:186-195 | After an append, a user's first row is unchanged if they had one. If they had none, it is the new row exactly when that row is theirs. |
| `Store.RegisterIncident` | db.py:248-252 | Succeeds exactly when theme and description are present. It appends one row with the given fields, leaves `users` untouched and keeps the database valid. |
| `Store.RegisterIncidentMembership` | db.py:180-184 | After a successful `register_incident`, the user is `in Incident()`, other users' membership is unchanged, and a user who already had an incident gets the same row back. |
| `JsonValues.Contains` | handlers.py:170 | `key in j` holds on an object exactly when subscripting it by `key` succeeds, on an array exactly when some element is that string, and on a string exactly when `key` is one of its slices. It raises on null, booleans and numbers. |
| `JsonValues.OccursIffSlice` | handlers.py:170 | The left-to-right substring scan succeeds exactly when the key is the slice of the text at some index. |
| `JsonValues.Encode` | handlers.py:162 | `json.dumps` writes `None`, and only `None`, as `null`; everything else becomes a JSON string. |
| `JsonValues.EncodeInjective` | handlers.py:162 | A string is written as a JSON string of the same text, and two fields serialize alike only if they are equal. |
| `JsonValues.Decode` | handlers.py:162 | Decoding succeeds exactly on `null` and strings. |
| `JsonValues.DecodeEncode` | handlers.py:162 | Decoding an encoded field gives the field back. |
| `Intake.OnApi` | handlers.py:46-56 | `/api` moves to `theme` and merges exactly `from_command = 'api'` into the data. Nothing else is cleared. |
| `Intake.OnSmtp` | handlers.py:59-69 | `/smtp` moves to `theme` and merges exactly `from_command = 'smtp'` into the data. Nothing else is cleared. |
| `Intake.OnTheme` | handlers.py:72-76 | A message in `theme` stores its text (possibly `None`) as the theme, changes no other key, and moves to `description`. |
| `Intake.OnDescription` | handlers.py:79-86 | A message in `description` stores its text as the description, changes no other key, and moves to `contact`. |
| `Intake.OnContact` | handlers.py:89-97 | A message in `contact` stores its text as the contact, changes no other key, and moves to `file`. |
| `Intake.TextStepsAdvanceByOne` | handlers.py:72-97 | Each text step writes its own key and moves to its successor state. |
| `Intake.Complete` | handlers.py:107-119 | Completion clears the state and keeps the data. Each report field and the channel is the stored value when present, otherwise `''`. |
| `Intake.OnFile` | handlers.py:100-120 | Completes exactly when the message has a document; without one it raises and nothing changes. The path is recorded (one key) only if a file exists there. The other fields and the channel come from the session. |
| `Intake.MissingFileCompletesLikeButton` | handlers.py:100-140 | A file message whose download left no file completes exactly as the send button does in the same session. |
| `Intake.PrepareToSend` | handlers.py:123-140 | The send button clears the state from any state. It keeps the data and reads each field and the channel with default `''`. |
| `Dispatch.Payload` | handlers.py:148-155 | The POST body is an object with the single key `incident`, holding exactly `theme`, `description`, `contact` and `file`. |
| `Dispatch.PayloadRoundTrip` | handlers.py:148-162 | Reading the report back out of the serialized payload gives the report. |
| `Dispatch.ApiVerdict` | handlers.py:161-175 | After the POST there is exactly one outcome, a reply or an exception. The success reply comes exactly when the 200 answer echoes `theme` and `description` under `json.incident`. A 200 body that does not decode raises with no reply. So does a truthy body lacking `json` or `incident`, or an `incident` that `in` cannot search (null, boolean, number). The error reply comes for a falsy 200 body, and for an echoed `incident` that `in` can search (a dict, list or string) but that lacks `theme` or `description`. A transport failure raises. Any non-200 status raises with no reply. |
| `Dispatch.EchoOfPayloadConfirms` | handlers.py:164-171 | An endpoint that echoes the posted JSON under `json` confirms every report. |
| `Dispatch.EchoWithoutJsonKeyRaises` | handlers.py:168-169 | A 200 answer holding only `incident` at top level makes the handler raise, with no reply. |
| `Dispatch.SmtpBodyIsPrefixAndPresentFields` | handlers.py:177-185 | The mail body is `Incident info:` followed by the non-empty fields in order, with no separators. |
| `Dispatch.SmtpBodyPieces` | handlers.py:177-185 | Each `if field: text += field` appends that field's text, or nothing when it is empty or `None`. |
| `Dispatch.EmptyReportGivesBarePrefix` | handlers.py:177-185 | With every field empty or `None`, the body is exactly the prefix. |
| `Dispatch.SmtpReplies` | handlers.py:186-197 | The mail attempt adds at most one reply. None is added exactly when the server accepts the mail and the body is ASCII. Otherwise the one reply is the SMTP-error reply: it carries the server's exception text for a failed connection, or for a failed delivery of an ASCII body; a non-ASCII body gives the encoding error whenever the connection was made. |
| `Dispatch.NonOkStatusGetsNoReply` | handlers.py:161-168 | For every stored report on `api`, a non-200 answer leaves "registered" as the only reply and raises on the unbound result. The row stays stored. |
| `Dispatch.NonAsciiThemeMailFails` | handlers.py:178-197 | A theme with a non-ASCII character makes every mail attempt that got a connection end in the encoding-error reply. |
| `Dispatch.SendIncident` | handlers.py:143-197 | Storage fails exactly when theme or description is `None`; then nothing is stored, replied or delivered. Otherwise one row with the report's fields is appended and "registered" is the first reply. There is a POST exactly on channel `api` and a mail exactly on channel `smtp`. The POST carries exactly `Payload(report)`, which decodes back to the report, and the mail body is prefix plus present fields. The success reply comes exactly when the POST is confirmed. On `api`, the replies after "registered" and the escaping exception are exactly those of the answer's verdict. On any other channel but `smtp` (such as `''` after the send button on a fresh chat), "registered" is the only reply and nothing is raised. Only the `api` branch or storage can raise. On SMTP, the replies after "registered" are those of the mail attempt, so "registered" alone comes exactly when the server accepts an ASCII body. Validity is preserved. |
| `Conversation.Handle` | handlers.py:33-140 | Only the file-with-document message and the send button dispatch, and both clear the state. A message with no state changes nothing. Each intake state is entered only from its predecessor (`theme` only by a command). Only commands change the channel, no field is ever removed, and validity is preserved. |
| `Conversation.Trace` | handlers.py:33-140 | Each world in a trace is the previous world after one update. |
| `Conversation.FileReachedOnlyInOrder` | handlers.py:46-97 | From no state, `file` is reached only after a command entering `theme`, then messages entering `description`, `contact` and `file`, in that order. |
| `Conversation.MessageInTextState` | handlers.py:72-97 | In a text state, a message goes to that state's handler: it records the text and moves one state on. |
| `Conversation.DocumentInFileState` | handlers.py:100-120 | In `file`, a message with a document completes and dispatches the session's report. |
| `Conversation.ButtonDispatches` | handlers.py:123-140 | The send button dispatches the session's fields on its channel, from any state. |
| `Conversation.StartThemeDescription` | handlers.py:46-86 | A command plus two messages lead to `contact`, with the channel, theme and description merged over the earlier data. |
| `Conversation.FirstIncidentOnEmptyDb` | db.py:161-169 | On an empty database the first stored incident gets id 1. |
| `Conversation.ApiIntakeOnFreshChat` | handlers.py:46-86 | `/api`, "Bad signal", "Was better before" on a fresh chat leave exactly those three fields, waiting for the contact. |
| `Conversation.ApiConfirmedFromContact` | handlers.py:123-175 | From there the send button against a confirming echo stores row 1 with `''` contact and file, posts the payload, and replies "registered" then "sent". |
| `Conversation.ScenarioApiConfirmed` | handlers.py:46-175 | The whole `/api` chat ending with the send button: stored, posted, confirmed, no state left. |
| `Conversation.ScenarioApiServerError` | handlers.py:161-168 | The same chat answered with status 500: the incident is stored and "registered" is the only reply, because the handler raises on the unbound result. |
| `Conversation.SmtpIntakeOnFreshChat` | handlers.py:59-97 | `/smtp` and three text messages on a fresh chat leave exactly those four fields, waiting for the file. |
| `Conversation.SmtpFileFromFileState` | handlers.py:100-197 | From there a downloaded file stores row 1 and sends one mail joining theme, description, contact and path. |
| `Conversation.ScenarioSmtpWithFile` | handlers.py:59-197 | The whole `/smtp` chat ending with a file: one row, one mail with the fields in order, one reply. |
| `Conversation.ScenarioSmtpBody` | handlers.py:177-185 | The mail body for T, D, c@x.com and the path is their concatenation after the prefix, and it is ASCII. |
| `Conversation.StaleContactCarriesOver` | handlers.py:46-56 | A new `/api` intake without a contact step stores the contact left from the previous one. |
| `Conversation.SendButtonWithoutIntake` | handlers.py:123-140 | On a fresh chat the send button stores an incident with empty theme and description, and delivers nothing. |
| `Conversation.SendButtonTwiceStoresTwice` | handlers.py:123-158 | Pressing the send button twice stores two identical rows, differing only in id. |
| `Conversation.TextlessThemeFailsStorage` | handlers.py:72-74 | A text-less theme message stores `None`. The later insert then raises before any reply and the database is unchanged. |

## Left out

- `bot.py`, `settings.py`, logging and the reply texts. Replies are modelled by kind only; keyboards and the `callback_answer` flag are not modelled.
- Asynchronous scheduling and concurrency between chats. Each chat is modelled as one sequence of updates processed in order.
- The SQLite connection lifecycle: the singleton `__new__`, `__enter__`/`__exit__`/`__del__`, cursors and SQL text. Table scans without `ORDER BY` are modelled in rowid order.
- The return values of the two `__setitem__` methods. `fetchone()` after an INSERT is always `None` and no caller uses it.
- The foreign key from `incident.user` to `users.id`. SQLite leaves it unenforced unless the pragma is set, and the code never sets it.
- The 64-bit limit of AUTOINCREMENT ids. Ids are unbounded integers.
- The download itself. `bot.download` is taken as done, and its result is the `Document` flag for whether a file exists at the path. A download that raises is not modelled.
- `msg.document.file_name` being `None`. That case is not modelled.
- JSON numbers other than integers. A number in the echo is only tested for truth, or makes a subscript or `in` raise; neither depends on its value.
- The SMTP host and addresses, and the individual protocol steps. The server side is one `SmtpOutcome`: it fails before the body is encoded (connect, greeting), fails after it, or accepts the mail. Only the ASCII encoding of the body is computed.
- A callback whose message is inaccessible.
- The `__main__` block of `db.py`.
