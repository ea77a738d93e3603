# SmartBot Builder front end: a Dafny model of its state logic

This project models the only stateful logic of the SmartBot Builder web
front end, a React console for creating organization chatbots and chatting
with them. Each React component becomes one Dafny module of pure
transition functions over immutable records and sequences.

- `CreateBot` (`frontend/src/pages/CreateBot.tsx`) is the organization
  draft. It holds the common fields and the mode (`Automatic` or `Manual`).
  It has a PDF slot that only accepts `application/pdf` files. It has three
  collections: employees, products and services. New entries go only at
  the end, validated and trimmed when they are added, and entries leave
  only by index. The
  submit checks errors in a fixed order and returns either a payload or a
  `Rejection`. The submit never changes the draft.
- `ChatInterface` (`frontend/src/components/ChatInterface.tsx`) is the
  chat panel. The log starts with a bot greeting and only grows. The input
  is sent untrimmed. The asynchronous send is split into two steps:
  - `Begin` checks the guard, appends the user message optimistically and
    returns the query.
  - `Settle` appends exactly one bot message, either the answer or the
    error text, and clears `isLoading`.

  The server reply is the abstract `Outcome`: `Ok(response)`,
  `NotOk(error?)` or `Thrown(message)`.
- `CreateChatbotForm` (`frontend/src/components/CreateChatbotForm.tsx`)
  is the simple form. It validates without trimming, returns the callback
  call it makes, and resets after a successful submit.
- `Dashboard` (`frontend/src/pages/Dashboard.tsx`) is the list of bots,
  with the new bot added at the front, the selection by name, and the
  props it passes to the chat panel. It never passes an `organizationId`,
  so every send from the dashboard is refused by the chat's guard.
- `Text` holds `String.prototype.trim`. Trimming is defined and proved
  for any character class, and `Trim` uses the class `IsWhitespace`.
  `Text` also holds the decimal `toString` of clock readings. `Browser`
  holds the file record `{name, type}`. `Wrappers` holds `Option` and
  `Result`.

Nondeterminism and the browser environment enter as parameters:
- `Date.now()` and `toLocaleTimeString()` are a `Clock` value.
- `Math.random()` is a real number in [0, 1).
- The date string of `toISOString` is a plain string.
- The server's reply is an `Outcome`.

The model follows the code as written:
- `CreateBot`'s submit does not reset the draft.
- It trims the collection entries when they are added, not when the form
  is submitted.
- Its manual payload carries the collections exactly as stored.
- The chat does not demand an organization id up front. A missing or
  empty id makes every send a no-op.

## Model

| member | source | states |
|---|---|---|
| Text.TrimStartBy | frontend/src/pages/CreateBot.tsx:49 | the leading half of `trim`: the result is a suffix of the input, everything cut off is whitespace, and the result does not start with whitespace |
| Text.TrimEndBy | frontend/src/pages/CreateBot.tsx:49 | the trailing half of `trim`: the result is a prefix, everything cut off is whitespace, and the result does not end with whitespace |
| Text.TrimBy | frontend/src/pages/CreateBot.tsx:49 | trimming for any character class: no class character at either end, empty exactly when the whole input is in the class, and the identity on trimmed input |
| Text.Trim | frontend/src/pages/CreateBot.tsx:49-53 | `trim()` leaves no whitespace at either end, is empty exactly when the input is all whitespace (so `!s.trim()` is `Blank(s)`), and leaves an already trimmed string unchanged |
| Text.TrimIdempotent | frontend/src/pages/CreateBot.tsx:53 | trimming a trimmed value changes nothing, so entries stored trimmed stay trimmed |
| Text.TrimKeepsInfix | frontend/src/pages/CreateBot.tsx:53 | `trim` only removes whitespace from the two ends: what is left is a contiguous piece of the input |
| Text.DecimalString | frontend/src/components/ChatInterface.tsx:46 | `Date.now().toString()` is a non-empty string of decimal digits with no leading zero |
| Text.DecimalRoundTrip | frontend/src/components/ChatInterface.tsx:46 | reading the decimal text back gives the clock value |
| Text.DecimalStringInjective | frontend/src/components/ChatInterface.tsx:46-72 | two ids made from the clock are equal exactly when the clock readings are |
| Browser.FirstFile | frontend/src/pages/CreateBot.tsx:40 | `files?.[0]` is absent exactly when nothing is selected, and otherwise is the first file |
| CreateBot.AddEntry | frontend/src/pages/CreateBot.tsx:48-84 | an add is refused exactly when the name or the detail is blank after trimming. Otherwise it appends exactly one entry with the trimmed values at the end, leaves the earlier entries alone, clears both inputs, and the new entry is valid |
| CreateBot.RemoveIndex | frontend/src/pages/CreateBot.tsx:59 | `filter((_, i) => i !== index)` drops exactly the element at `index` and keeps the rest in order. An index outside the list changes nothing |
| CreateBot.RemoveEntry | frontend/src/pages/CreateBot.tsx:58-88 | a remove leaves the entries filtered by position (`RemoveIndex`: every other entry, in order), keeps both inputs, and keeps a valid collection valid |
| CreateBot.AddStep | frontend/src/pages/CreateBot.tsx:48-84 | an Add button is refused exactly when its name or detail input is blank after trimming, and a refusal changes nothing. Otherwise its collection becomes `AddEntry`'s result and nothing else changes. The collection stays valid |
| CreateBot.RemoveStep | frontend/src/pages/CreateBot.tsx:58-88 | a Remove button turns its own collection into `RemoveEntry`'s result, changes nothing else, keeps it valid, and reports nothing |
| CreateBot.PdfChangeStep | frontend/src/pages/CreateBot.tsx:39-46 | the PDF slot takes the first file only when its type is `application/pdf`. A non-PDF file is refused and keeps the previous file. No selection does nothing |
| CreateBot.SubmitDraft | frontend/src/pages/CreateBot.tsx:90-139 | a payload is built exactly when the name and description are not blank and, in automatic mode, a PDF is stored, or, in manual mode, the organization name is not blank and there is a product or a service. Error precedence: blank name or description first in either mode. Then a missing PDF (automatic), or a blank organization name and then no product and no service (manual). Payloads carry the trimmed common fields, the PDF's name or the trimmed organization fields, and the collections as stored |
| CreateBot.SubmitStep | frontend/src/pages/CreateBot.tsx:90-139 | a submit leaves the draft exactly as it was, on success and on failure, and reports `Created` with the payload exactly on success and `Rejected` with `SubmitDraft`'s error on every failure |
| CreateBot.EditField | frontend/src/pages/CreateBot.tsx:173-331 | typing into an input gives that input exactly the typed value and leaves every other input, the mode, the PDF and every stored entry as they were |
| CreateBot.Handle | frontend/src/pages/CreateBot.tsx:183 | a mode switch changes only the mode, and only a submit can produce a payload |
| CreateBot.HandlePreservesInv | frontend/src/pages/CreateBot.tsx:39-88 | every event keeps every stored entry non-empty and trimmed, and keeps the stored file a PDF |
| CreateBot.RunPreservesInv | frontend/src/pages/CreateBot.tsx:39-88 | the draft invariant holds after any sequence of events |
| CreateBot.ReachableDraftsAreValid | frontend/src/pages/CreateBot.tsx:15-37 | every draft reachable from the empty initial draft satisfies the draft invariant |
| CreateBot.AddThenRemoveRestores | frontend/src/pages/CreateBot.tsx:53-59 | an accepted add followed by a remove at the old length restores the original entries |
| CreateBot.ModeSwitchIsNonDestructive | frontend/src/pages/CreateBot.tsx:183 | switching mode and back restores the draft: the other mode's data is never cleared |
| CreateBot.SubmitDependsOnlyOnActiveData | frontend/src/pages/CreateBot.tsx:94-135 | two drafts that agree on the common fields, the mode and that mode's data submit to the same result |
| CreateBot.EmployeesDoNotGateSubmit | frontend/src/pages/CreateBot.tsx:118-121 | whether a manual submit succeeds never depends on the employees |
| CreateBot.ManualPayloadIsWellFormed | frontend/src/pages/CreateBot.tsx:112-135 | a manual payload from a valid draft has valid entries, a non-empty organization name and at least one product or service |
| CreateBot.AutomaticPayloadNamesAPdf | frontend/src/pages/CreateBot.tsx:99-108 | an automatic payload from a valid draft names a stored file whose type is `application/pdf` |
| CreateBot.ManualScenario | frontend/src/pages/CreateBot.tsx:62-139 | in manual mode with the fields filled in, adding the product "Widget"/"Nice" and submitting yields a payload holding it, and the draft is not reset afterwards |
| ChatInterface.Init | frontend/src/components/ChatInterface.tsx:22-31 | the panel mounts with exactly one bot message holding the greeting, an empty input and `isLoading` false |
| ChatInterface.Type | frontend/src/components/ChatInterface.tsx:160 | typing changes only the input, even while a request is in flight |
| ChatInterface.Begin | frontend/src/components/ChatInterface.tsx:40-62 | the guard `CanSend` (line 43): a send is a no-op when the trimmed input is empty, the organization id is missing or empty, or a request is in flight. Otherwise it appends exactly one user message with the untrimmed input, clears the input, sets `isLoading`, and sends the input as captured before clearing |
| ChatInterface.ReplyText | frontend/src/components/ChatInterface.tsx:67-87 | the bot text is the answer on an ok status. Otherwise it is the error prefix plus the `error` field, or "Failed to get response" when that is absent or empty, or plus the exception message |
| ChatInterface.Settle | frontend/src/components/ChatInterface.tsx:71-90 | exactly one bot message is appended after the existing ones, in either branch, and `isLoading` is false afterwards |
| ChatInterface.InitAlternates | frontend/src/components/ChatInterface.tsx:22-31 | the initial log is well shaped: the greeting, with no request open |
| ChatInterface.BeginKeepsAlternation | frontend/src/components/ChatInterface.tsx:43-54 | a begin keeps the alternating shape |
| ChatInterface.SettleKeepsAlternation | frontend/src/components/ChatInterface.tsx:78-90 | settling the open request keeps the alternating shape and closes it |
| ChatInterface.SendAddsOneExchange | frontend/src/components/ChatInterface.tsx:40-90 | an awaited send either changes nothing or adds exactly two messages, the user's input and then the reply, and never leaves `isLoading` set |
| ChatInterface.ConverseKeepsShape | frontend/src/components/ChatInterface.tsx:52-87 | over any sequence of typing and awaited sends, the log only grows (earlier messages are never removed, edited or reordered), keeps alternating, and no request stays open |
| ChatInterface.ConversationsFromInitAlternate | frontend/src/components/ChatInterface.tsx:22-90 | from a freshly mounted panel the log reads bot, user, bot, and so on, starting with the greeting |
| ChatInterface.HelloScenario | frontend/src/components/ChatInterface.tsx:22-90 | sending "hello" to organization "42" and getting the answer "hi" leaves the log as the greeting, the user's "hello" and the bot's "hi", with `isLoading` false |
| ChatInterface.ReplyAndNextMessageMayShareId | frontend/src/components/ChatInterface.tsx:46-72 | message ids are not unique: a reply settled at millisecond t and a message sent at t + 1 share an id |
| CreateChatbotForm.SetName | frontend/src/components/CreateChatbotForm.tsx:70 | typing the name changes only the name |
| CreateChatbotForm.SetDescription | frontend/src/components/CreateChatbotForm.tsx:84 | typing the description changes only the description |
| CreateChatbotForm.Submit | frontend/src/components/CreateChatbotForm.tsx:19-35 | refused, with no callback and no change, exactly when a field is the empty string. Otherwise the callback is called once with the untrimmed fields, and the form resets to "", "" and no file |
| CreateChatbotForm.FileChange | frontend/src/components/CreateChatbotForm.tsx:37-42 | the first selected file of any type is stored. No selection changes nothing. The text fields never change |
| CreateChatbotForm.FileNeverAffectsSubmit | frontend/src/components/CreateChatbotForm.tsx:22-30 | the stored file never affects validation or the callback arguments |
| CreateChatbotForm.SecondSubmitIsRefused | frontend/src/components/CreateChatbotForm.tsx:27-30 | because of the reset, a second submit right after an accepted one is refused |
| CreateChatbotForm.BlankFieldsPass | frontend/src/components/CreateChatbotForm.tsx:22-25 | any non-empty name and description made only of whitespace are accepted and passed on exactly as typed |
| Dashboard.LocationIndex | frontend/src/pages/Dashboard.tsx:70-71 | `Math.floor(Math.random() * locations.length)` is always a position in the location list |
| Dashboard.CreateChatbot | frontend/src/pages/Dashboard.tsx:69-81 | exactly one bot is added at the front and the old list follows unchanged. It has the name and description as given, one of the eight locations, and the clock's id and date. The selection is kept |
| Dashboard.ChatWithCard | frontend/src/pages/Dashboard.tsx:83-85 | choosing a card selects that bot's name, not its id, and leaves the list alone |
| Dashboard.ChatSection | frontend/src/pages/Dashboard.tsx:163-172 | the chat panel is shown exactly when the selection is a non-empty string, and it gets that name and never an organization id |
| Dashboard.InitialState | frontend/src/pages/Dashboard.tsx:22-67 | six sample bots with ids "1" to "6" in order, no selection, and no chat panel |
| Dashboard.ChoosingOpensChat | frontend/src/pages/Dashboard.tsx:155-172 | choosing a card with a non-empty name opens the chat for that name, with no organization id |
| Dashboard.CreatedCardsStayChoosable | frontend/src/pages/Dashboard.tsx:69-85 | after a bot is created its card, now first, opens the chat for it (when its name is non-empty), and the card that was at position `i` still selects the same bot from position `i + 1` |
| Dashboard.DashboardChatNeverSends | frontend/src/pages/Dashboard.tsx:172 | every send from the dashboard's chat panel is refused by the guard, with no query and no change, because no organization id is passed |

## Left out

- The JSX markup, styling, toasts, `console.log` and the auto-scroll effect (ChatInterface.tsx:34-38) are left out. A refusal is reported as a `Rejection` or as no query. Toast texts are not modelled.
- `fetch`, HTTP status codes and JSON parsing are left out. The server reply is only the `Outcome` value. A reply whose `response` field is missing is not modelled: `Ok` always carries a string.
- `Date.now`, `toLocaleTimeString`, `toISOString` and `Math.random` are parameters. The model does not claim that message ids or bot ids are unique, and they can collide.
- React's asynchronous state updates are not modelled. That includes stale closures and two sends in one tick. A send is `Begin` followed later by `Settle`, with no real concurrency.
- The chat panel has no React key, so its log survives a change of selection on the dashboard. This lifetime is not modelled.
- A file is only its name and type. The `accept` filters of the file pickers are not modelled. A `null` file list and an empty one are the same empty sequence.
- The browser's native `required` check on the text inputs is not modelled. It can stop an empty field from reaching the submit handler, and the handler refuses such a field anyway.
- `CreateChatbotForm` is not rendered by the dashboard, and nothing calls `handleCreateChatbot`. Both are modelled separately, and no wiring between them is assumed.
- The creation endpoint is not modelled, because `CreateBot` only logs its payload. The Flask server and its database are not part of this model.
- Text.IsWhitespace: lists the ECMAScript WhiteSpace and LineTerminator code points as of current Unicode. Only the scenario lemmas (`ChatInterface.HelloScenario`, `CreateBot.ScenarioAddAccepted`, `CreateBot.ScenarioSubmitAccepted` and `CreateBot.ManualScenario`, which is built on them) depend on the set, because they need their sample letters not to be whitespace.
