# Chat session and saved-note store of a React Native chat app

The app forwards what the user types to a chat-completion endpoint and shows
the exchange. It also lets the user bookmark any shown message in the
device's key-value storage. This project models the two parts of it that hold
state, and proves what each operation does to that state.

* **The chat session (`App.js`).** The `ChatApp.Session` class holds the
  transcript (`messages`), the "assistant is typing" flag (`isTyping`), the
  two picker values, the loaded saved-note list and the modal flag.
  - `OnSend` puts in one `user` entry.
  - `SetContext` puts in one `system` directive `"Act as " + mode`.
  - `SelectMode` / `SelectLength` are the pickers plus the effect that calls
    `setContext` when either value changes.
  - `SendMessageAPI` is split at its `await`. `StartRequest` raises the flag
    and builds the request body. `FinishRequest` puts in the reply and lowers
    the flag.
  - The reply is a parameter: the response's `choices`, or a failure.
  - Pure helpers: `GetMaxTokens` (length label to token budget) and
    `Transcript.RemoveKeys` (drops `_id` and `user` from every entry).
* **The message row and the note store (`src/components/CustomMessage.js`).**
  - `RenderMessage` hides missing and `system` entries and picks the side of
    every other row.
  - `NoteStorage.SaveMessage` is the read–push–write of the `savedMessages`
    list. Storage is a `Slot` value (absent, a list of notes, or unparsable
    text), not JSON text. Storage failures are a parameter.

`GiftedChat.append` is not part of this model. The model fixes the
convention of that library's default (inverted) mode: a new entry is put in
front of all earlier ones, so `messages` is newest first.
`Transcript.Chronological` reads it oldest first.
`Transcript.AppendAllChronological` proves that, read that way, the
transcript only ever grows at its end.

The request carries the updated transcript itself, with `_id` and `user`
fields. `onSend` computes the stripped `payload` only to log it, and the
model follows the code in this.

## Model

| member | source | states |
|---|---|---|
| `Transcript.RemoveKeys` | App.js:26-31 | keeps length and order; every output entry has the input entry's `role` and `content` |
| `Transcript.RemoveKeysConcat` | App.js:26-31 | stripping works entry by entry: stripping a joined transcript equals joining the stripped parts |
| `Transcript.GiftedAppend` | App.js:56-59 | one insertion (as at App.js:90-93 and App.js:117-119 too): exactly one entry more, the new entry in front, the earlier transcript as the unchanged tail |
| `Transcript.Chronological` | App.js:56-59 | the oldest-first reading of the newest-first transcript has the same length |
| `Transcript.ChronologicalAppend` | App.js:56-59 | read oldest first, one insertion puts the new entry last, after the unchanged earlier transcript |
| `Transcript.AppendAllChronological` | App.js:55-59 | append-only: after any run of insertions, read oldest first, the transcript is the earlier transcript, unchanged, followed by the new entries in arrival order |
| `Transcript.AppendAllKeepsPrior` | App.js:117-119 | each insertion adds exactly one entry; in the stored newest-first order the earlier transcript is the unchanged tail |
| `CustomMessage.RenderMessage` | src/components/CustomMessage.js:5-45 | renders nothing exactly when the entry is missing or has role `system`; otherwise shows its content, on the user side exactly when its role is `user` |
| `CustomMessage.VisibleRows` | src/components/CustomMessage.js:78 | every entry goes through `renderMessage` (wired at App.js:176): at most one row per entry, and every row shown is the render of some entry |
| `CustomMessage.VisibleRowsCount` | src/components/CustomMessage.js:6-8 | a transcript shows exactly one row per non-`system` entry |
| `CustomMessage.DirectiveHidden` | src/components/CustomMessage.js:6-8 | putting in a `system` entry leaves the shown rows unchanged |
| `CustomMessage.ShownEntry` | src/components/CustomMessage.js:36-45 | putting in any other entry shows it as one new row in front of the unchanged earlier rows |
| `CustomMessage.ReadList` | src/components/CustomMessage.js:21-22 | the read step (the same as App.js:129-130): fails exactly when the stored text does not parse; otherwise gives the stored list, or `[]` when nothing (a falsy value) is stored |
| `CustomMessage.AfterSave` | src/components/CustomMessage.js:21-28 | a save can be written exactly when the read step succeeds, and then writes a list: the read list with the new record pushed at its end |
| `CustomMessage.NoteStorage.SaveMessage` | src/components/CustomMessage.js:19-34 | saves exactly when no storage call fails and the stored text parses; then the slot holds the earlier list (empty when absent) plus `{time, message}` at its end; on any failure the slot is unchanged and nothing is rethrown |
| `CustomMessage.SaveOntoAbsent` | src/components/CustomMessage.js:21-28 | with nothing stored, a save leaves the one-record list `[{time, message}]` |
| `CustomMessage.SaveThenLoad` | src/components/CustomMessage.js:22-28 | a load after a save gives the earlier list grown by one: earlier records unchanged and in order, and the last record is the saved one |
| `CustomMessage.CountSaved` | src/components/CustomMessage.js:27 | a save raises the number of records with message `text` by one when the saved text is `text`, and by nothing otherwise |
| `CustomMessage.CountAppend` | src/components/CustomMessage.js:27 | the `push` at the end raises the count of the pushed record's text by one and leaves every other text's count |
| `CustomMessage.SavedTwice` | src/components/CustomMessage.js:23-28 | no deduplication: saving the same text twice adds two records of it |
| `ChatApp.GetMaxTokens` | App.js:67-78 | total: always 500, 1500 or 3000; 500 exactly for `short`, 3000 exactly for `long`, 1500 for `medium`, any other label and null |
| `ChatApp.ModeText` | App.js:87 | the `${mode}` of the template literal: the mode's text, or `"null"` for a null mode |
| `ChatApp.UserEntry` | App.js:46-53 | the `user` entry: `_id` the send time, `user._id` 2, strips to role `user` with the typed text, and renders on the user side |
| `ChatApp.DirectiveEntry` | App.js:81-88 | the `system` entry: `_id` the call time, `user._id` 2, content `"Act as "` followed by the mode (`"Act as null"` for a null mode), and it renders nothing |
| `ChatApp.ReplyEntry` | App.js:108-115 | the reply entry: `_id` the reply time, `user._id` 1, and it strips back to exactly `choices[0].message` |
| `ChatApp.FirstChoice` | App.js:113-114 | there is a reply message exactly when the response has at least one choice, and it is `choices[0].message` |
| `ChatApp.AfterReply` | App.js:108-124 | with no first choice the transcript is unchanged; with one, exactly one entry more, in front of the unchanged transcript, stripping to the choice's role and content and stamped with the reply time |
| `ChatApp.ReplyOutcome` | App.js:108-124 | a reply with a first choice adds exactly one entry in front of the unchanged transcript, stripping to `choices[0].message`'s role and content; a failure or an empty `choices` leaves the transcript unchanged |
| `ChatApp.SendThenReply` | App.js:45-64 | one user send, read oldest first: the old transcript, then the user entry, then the reply entry when there is one |
| `ChatApp.DirectiveThenSend` | App.js:80-96 | a directive and then a user send: read oldest first the transcript ends with the directive and then the user entry; the request, newest first, starts with the user entry's and then the directive's role and content |
| `ChatApp.Session.constructor` | App.js:34-39 | initial state: empty transcript, flag down, mode `friend`, length `medium`, modal closed, no loaded notes |
| `ChatApp.Session.StartRequest` | App.js:99-106 | the flag is up while the request is out; the request names model `gpt-4o`, carries the given transcript and asks for `GetMaxTokens(length)` tokens |
| `ChatApp.Session.FinishRequest` | App.js:107-124 | the transcript gains the reply entry when there is a first choice and is unchanged otherwise; the flag is down in both outcomes |
| `ChatApp.Session.SendMessageAPI` | App.js:99-125 | the whole request cycle: the request is the full given transcript with `gpt-4o` and the length's budget; afterwards the reply is in and the flag is down |
| `ChatApp.Session.OnSend` | App.js:45-65 | with at least one outgoing message: one `user` entry with the first message's text in front of the earlier entries; the request carries that updated transcript; the reply is handled as above. With none, nothing changes and nothing is sent |
| `ChatApp.Session.SetContext` | App.js:80-97 | one `system` entry `"Act as " + mode` (`null` for a null mode) in front of the earlier entries; the request carries it with the current length's budget |
| `ChatApp.Session.SelectMode` | App.js:41-43 | the mode becomes the picked value; a directive is sent exactly when the value changed, and it uses the new mode |
| `ChatApp.Session.SelectLength` | App.js:41-43 | the length becomes the picked value; a directive is sent exactly when the value changed; it uses the current mode and the new length's budget |
| `ChatApp.Session.LogSavedMessages` | App.js:127-136 | succeeds exactly when the read works and the stored text parses; then the loaded list is the stored list (empty when absent) and the modal is open; otherwise nothing changes |
| `ChatApp.Session.CloseModal` | App.js:209-211 | the modal is closed, as by the "Close" button and by the backdrop press at App.js:191 |
| `ChatApp.GuideScenario` | App.js:41-65 | mode `guide`, length `short`, user sends "Hello": the transcript ends with "Act as guide" then "Hello" and the send carries both entries; it asks for 500 tokens only because the model hands the current length to `OnSend`, while the app's memoised `onSend` keeps `medium` and asks for 1500 |

## Left out

- `src/services/sendMessageAPI.js` (the HTTP POST through axios, its headers,
  base URL and key) is network I/O. Its outcome is the `Reply` parameter. A
  response without a `choices` array is modelled as `Failed`, because reading
  `choices[0]` then throws into the same `catch`.
- `GiftedChat.append` is a library call that is not shown. The model fixes
  its default newest-first convention, as stated above.
- `formatDate` and the modal's `"<Month Day> : <text>"` line depend on locale
  date formatting. They are not modelled.
- Timestamps (`new Date().getTime()`, `toISOString()`) are parameters
  (`sentAt`, `repliedAt`, `time`). Nothing is claimed about `_id` uniqueness.
- Concurrency is not modelled: requests in flight at the same time, the
  order their replies arrive in, and a reply landing between two other
  operations. Each request is modelled as finished before the next
  operation. React's `setState` batching, strict-mode double calls of state
  updaters and render scheduling are left out too.
- ChatApp.Session.OnSend: the length is a parameter. In the source the
  callback is memoised with an empty dependency list, so it keeps the first
  render's `sendMessageAPI` and length (`medium`, 1500 tokens). This stale
  closure is not modelled.
- ChatApp.Session.SelectMode: React runs the effect once on mount as well.
  That first run is the client's `SetContext(selectedMode, …)` call, as
  `GuideScenario` shows, and is not built into the constructor.
- JSON text is not modelled. Storage holds a `Slot`. A stored value that is
  valid JSON but not a list is not modelled; in the source it makes
  `messages.push` throw in `saveMessage`, but not in `logSavedMessages`.
- The `logSavedMessages` helper inside `CustomMessage.js` only logs, so it is
  left out, like all `console` output. The `await` of it after a save cannot
  change the slot.
- The pickers, modal, `FlatList`, buttons and `StyleSheet` styling are UI
  and are not modelled.
