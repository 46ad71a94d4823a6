# Smart Inclusion USSD menu — a Dafny model

This project models the USSD request handler of the Smart Inclusion
system (`ussd()` in `app.py`). Farmers use the handler to register and to report
crop production and livestock. The server keeps no session state. Every
request carries the whole path of the user's choices as one `*`-separated
string. The handler decodes that path into steps. From the first step (the
top-level selection) and the number of steps, it decides the reply:

- a `CON` prompt that asks for the next answer;
- an `END` message that closes the session;
- an `END` message plus exactly one record handed to the record store.

The model has four modules:

- `Steps` (`steps.dfy`) decodes the path. `Decode` is `text.split("*")`
  for non-empty text and no steps for the empty text. Lemmas show that
  decoding and joining with `*` are inverse, that empty steps are kept, and
  that the number of steps is the number of `*` plus one.
- `Records` (`records.dfy`) holds the three record shapes, one per
  table: `Farmer`, `CropReport` and `LivestockReport`.
- `Menu` (`menu.dfy`) holds `Transition`, the handler's if/elif chain
  written branch for branch as a pure function. `ByTable` restates the
  menu as a table of flows. Each flow has fixed prompts, a terminal length
  (6 for registration, 3 for each report), a record it builds and a
  success and a failure message. `TransitionFollowsTable` proves that the
  two agree. The lemmas about the menu are stated in terms of that table.
- `Session` (`session.dfy`) holds `RecordStore`, a class with a
  `seq<Record>` field that stands in for the database. Its `Handle`
  method is the handler itself: the same if/elif chain, assigning
  `response` and calling `Insert` in the three terminal branches. `Handle`
  is proved against `Transition`. Its response is `Reply` of the outcome.
  The store grows by exactly `Written` of the outcome, which is at most one
  record.

Whether the database accepts an insert (the insert and the commit both
succeed) is a boolean parameter. When it does not, the handler's failure
message is returned. The uncommitted row is lost with the connection, so
the store is unchanged.

The menu's welcome text lists option 4 as "Check Market Prices", option 5
as "Farming Tips" and option 6 as "Weather Update". The handler answers
the single step `4` with the farming tip and `5` with the weather. It
answers `6` with `END Invalid option`. The model keeps the code's
behaviour (`Menu.Transition`, `Menu.SixIsInvalidOption`). It does not
invent a market-prices reply.

## Model

| member | source | states |
|---|---|---|
| Steps.Split | app.py:61 | splitting gives one piece more than there are `*` in the text, and no piece contains `*` |
| Steps.Decode | app.py:61 | the empty text, and only it, gives no steps; otherwise there are (number of `*`) + 1 steps, none containing `*` |
| Steps.JoinSplit | app.py:61 | the split pieces joined with `*` give the text back |
| Steps.SplitJoin | app.py:61 | splitting `*`-free tokens joined with `*` gives the same tokens |
| Steps.JoinDecode | app.py:61 | the decoded steps joined with `*` reproduce the request text exactly |
| Steps.DecodeJoin | app.py:61 | every step sequence except `[""]` is decoded from its own join, empty steps included |
| Steps.DecodeSingle | app.py:61 | a text decodes to the single step `s` exactly when the text is `s` (this is why `text == "4"` and `steps == ["4"]` coincide) |
| Steps.EmptyStepKept | app.py:61 | `1**x` decodes to `1`, an empty step, and `x` |
| Menu.Transition | app.py:61-142 | the empty text gets the welcome menu; the reply is a prompt exactly for the empty text or a flow selection below its terminal length; a persisted record carries the caller's phone number |
| Menu.TransitionFollowsTable | app.py:63-142 | the if/elif chain equals the flow table applied to the decoded steps, where 4 and 5 are answered only as the whole text |
| Menu.Flow.TerminalLength | app.py:82-124 | a registration completes at 6 steps, a crop or livestock report at 3 |
| Menu.PromptsInFixedOrder | app.py:71-123 | below the terminal length the n-th step of a flow gets the flow's n-th prompt (name, location, farm size, crops, livestock; crop, quantity; animal, count) |
| Menu.PersistExactlyAtTerminalLength | app.py:82-96 | a record is produced if and only if the selection is 1, 2 or 3 and the path has exactly that flow's terminal length |
| Menu.PersistedRecordReplaysPath | app.py:82-134 | a persisted record holds the phone and every step after the selection verbatim (joined back they give the text), with the flow's own success and failure messages |
| Menu.OverflowIsInvalidInput | app.py:97-136 | a path longer than its flow's terminal length ends with `Invalid input.` |
| Menu.OtherSelections | app.py:137-142 | outside the flows the tip is given if and only if the steps are exactly `4`, the weather if and only if exactly `5`, and every other path is `Invalid option` |
| Menu.SixIsInvalidOption | app.py:141-142 | a path whose first step is `6` ends with `Invalid option` |
| Menu.NodeDependsOnSelectionAndLength | app.py:71-142 | when nothing is persisted, the outcome depends only on the selection and the number of steps, not on the other steps' content or the phone |
| Session.Reply | app.py:63-142 | every response starts with `CON ` or `END `, `CON ` exactly for prompts; a prompt is `CON ` plus the prompt, a final message is `END ` plus the message, and a persisting outcome is `END ` plus the success message if the store accepted the record and the failure message otherwise |
| Session.Written | app.py:88-96 | at most one record is written, and only when the outcome persists and the store accepts it |
| Session.RecordStore.Insert | app.py:88-93 | an accepted insert appends the record; a rejected one leaves the store unchanged and reports failure |
| Session.RecordStore.Handle | app.py:56-144 | the response is the reply for the path's outcome, and the store grows by exactly what that outcome writes |
| Session.Replay | app.py:61-144 | sending the same request twice to a store holding anything gives the same response both times, even after the first one stored a record; nothing deduplicates, so an accepted completed path is stored twice |
| Session.StoreChangesOnlyAtTerminalLength | app.py:82-134 | the store changes if and only if the insert is accepted and the path has exactly a flow's terminal length, and then by the one record built from the path |
| Session.CropReportCompleted | app.py:105-115 | `2*crop*quantity` stores `CropReport(phone, crop, quantity)` with the success text, or nothing with the failure text |
| Session.LivestockReportCompleted | app.py:124-134 | `3*animal*count` stores `LivestockReport(phone, animal, count)` with the success text, or nothing with `Livestock reporting failed. Please try again.` |
| Session.RegistrationCompleted | app.py:82-96 | `1*name*location*farmSize*crops*livestock` stores the Farmer record with all five answers verbatim, or nothing with the failure text |
| Session.QuantityPromptFollowsCrop | app.py:103-104 | `2*crop` asks for the quantity and writes nothing |
| Session.TipWithMoreStepsIsInvalid | app.py:137-142 | `4` followed by any further step is `Invalid option` and writes nothing |

## Left out

- HTTP routing and form access (`request.form.get`): the inputs are plain strings. `sessionId` and `serviceCode` are read but never used, so they are not modelled.
- The SQLite connection lifecycle, the schema creation and the SQL text (`get_db`, `close_connection`, `init_db`). They are replaced by the `RecordStore` sequence and a boolean that says whether the insert and commit succeed.
- The exception types caught around the inserts. Only success versus failure affects the reply.
- Auto-assigned ids and creation timestamps. The database fills these in, not the handler.
- `dashboard()`, `broadcast()` and `index()`. They are presentation and transport with no menu logic.
- Concurrent requests racing on the store are not modelled. Each `Handle` call is one atomic step.
- Menu.Transition: does not prove the welcome text against a list of six option titles. Proving long string literals equal is too costly for the verifier. The text is kept as the exact literal the handler sends.
