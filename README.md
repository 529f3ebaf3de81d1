# LineaScope chat session, modelled in Dafny

LineaScope's website page (`pages/index.js`, the `Home` component) shows a
chat beside a preview frame for a website. The page is a small state machine
over six pieces of React state:
- `userInput`: the question field;
- `history`: the last two turn texts;
- `loading`: whether a request is in flight;
- `websiteUrl`: the URL field;
- `currentSrc`: the URL shown in the preview frame;
- `messages`: the append-only chat log, which starts with one greeting.

This project models that state as the class `HomeSession.Session`, with one
method per event handler. The pure decisions of the page are functions:
- `KeyPolicy.HandleEnter`: the Enter-key policy;
- `ChatLog.DeriveHistory`: the history-sync effect;
- `ChatLog.BubbleStyle`: the waiting-bubble condition;
- `JsText.Trim`: JavaScript's `trim`, used by the blank-input guard.

The asynchronous submit handler is split at its `await`:
- `SubmitStart` runs up to the request and returns the request body (`Request`).
- `Complete(outcome)` applies the response. `outcome` is one of `HttpNotOk`,
  `Unauthorized` or `Ok(text)`, and stands in for `fetch` and `response.json()`.

The class invariant `Valid()` says two things:
- the log has the shape every reachable log has: the greeting at index 0,
  questions at odd indices, replies at even ones, and `loading` exactly when
  the log has even length;
- `history` is what the sync effect derives from the log alone.

Every handler keeps the invariant. Every handler only appends to the log: the
new log has the old one as a prefix.

Files:
- `js_text.dfy`: module `JsText`.
- `chat_log.dfy`: module `ChatLog`, which holds the turns, the history and the bubble style.
- `key_policy.dfy`: module `KeyPolicy`.
- `session.dfy`: module `HomeSession`, the state and the handlers.
- `scenarios.dfy`: module `Scenarios`, short sessions driven through the handlers.

Facts about the code that the model keeps:
- The user turn and the request carry `userInput` as typed. Only the blank
  guard at pages/index.js:71 trims it (lines 76 and 88 use it untrimmed).
- `history` is computed, but the request body holds only `question` and
  `webUrl` (line 88). So `Request` has just those two fields.
- The history pair is taken by position only. `ChatLog.HistoryPairKinds`
  shows that while a request is pending, the pair is (previous answer,
  pending question).
- Shift+Enter on an empty field is suppressed too, so no newline is inserted
  (lines 116-121). This is the `Suppress` case of `KeyPolicy.HandleEnter`.

## Model

| member | source | states |
|---|---|---|
| `JsText.TrimStart` | pages/index.js:71 | the result is the suffix of the input left after dropping leading whitespace: everything dropped is whitespace and the result does not start with whitespace |
| `JsText.TrimEnd` | pages/index.js:71 | the result is the prefix left after dropping trailing whitespace: everything dropped is whitespace and the result does not end with whitespace |
| `JsText.Trim` | pages/index.js:71 | `trim()` is the infix of the input between a blank prefix and a blank suffix; it is `""` exactly when every character is JavaScript whitespace; a non-empty result neither starts nor ends with whitespace |
| `JsText.TrimIsInfix` | pages/index.js:71 | given what `TrimStart` and `TrimEnd` promise, trimming both ends leaves the infix of the input between a blank prefix and a blank suffix |
| `JsText.TrimEnds` | pages/index.js:71 | given what `TrimStart` and `TrimEnd` promise, trimming both ends gives `""` exactly on a blank input, and otherwise a string that neither starts nor ends with whitespace |
| `JsText.TrimsToEmpty` | pages/index.js:71 | the guard `userInput.trim() === ""` holds exactly when every character is JavaScript whitespace; `SubmitStart` tests this equivalent `IsBlank` |
| `KeyPolicy.HandleEnter` | pages/index.js:115-123 | Enter without Shift on a non-empty field submits; Enter on an empty field only suppresses the default; any other key, or Shift+Enter on a non-empty field, is left to the browser (each as an if-and-only-if) |
| `ChatLog.DeriveHistory` | pages/index.js:127-128 | with 3 or more turns, history becomes a single pair; with fewer, the previous history is kept. Its properties are proved in `HistoryDependsOnLogOnly` and `HistoryPairKinds`, and in `Session.Valid()`'s clause `history == DeriveHistory(messages, [])` |
| `ChatLog.HistoryDependsOnLogOnly` | pages/index.js:126-130 | on an append-only log starting from history `[]`, keeping the previous history when the log has fewer than 3 turns is never observable: the history the effect leaves is a function of the current log alone |
| `ChatLog.AppendKeepsWellFormed` | pages/index.js:50-108 | appending a turn of the kind due next keeps the log reachable: it still starts with the greeting, kinds still alternate, and a request is pending exactly when the new turn is a question |
| `ChatLog.HistoryPairKinds` | pages/index.js:126-130 | on a reachable log of 3 or more turns, the two newest turns, which the history pair is taken from whatever their kinds, are (question, answer) once settled, but (previous answer, pending question) while loading |
| `ChatLog.BubbleStyle` | pages/index.js:176 | a turn gets the reply style exactly when it is an `apiMessage`; the waiting style only goes to the newest turn, and only while loading |
| `ChatLog.WaitingBubbleIsPendingQuestion` | pages/index.js:176 | on a reachable log, the waiting animation shows on a bubble exactly when loading is true and that bubble is the newest |
| `HomeSession.Session.constructor` | pages/index.js:22-32 | the page starts with the one-greeting log, empty history, input and URLs, and not loading; the invariant holds |
| `HomeSession.Session.SyncHistory` | pages/index.js:126-130 | the effect sets history from the grown log and the previous history, and re-establishes the invariant that history depends only on the log |
| `HomeSession.Session.WebChange` | pages/index.js:59-61 | the URL field becomes the typed value; nothing else changes |
| `HomeSession.Session.ButtonClick` | pages/index.js:63-66 | the preview frame's URL becomes the typed URL; nothing else changes |
| `HomeSession.Session.InputChange` | pages/index.js:193-205 | while not loading, the question field becomes the typed value; nothing else changes |
| `HomeSession.Session.SubmitStart` | pages/index.js:68-89 | blank input: nothing changes and no request is made. Input with no URL: the typed question and the no-website reply are appended, loading ends false, the input is kept, no request is made. Otherwise: the typed question is appended, loading becomes true, and the request is exactly `(userInput, websiteUrl)`. The log only grows |
| `HomeSession.Session.HandleError` | pages/index.js:50-57 | appends exactly one `apiMessage` "There seems to be an error", sets loading false and clears the input |
| `HomeSession.Session.Complete` | pages/index.js:92-108 | a not-ok response or an "Unauthorized" result appends exactly the error reply; an ok result appends exactly its text as an `apiMessage`; either way loading ends and the input is cleared |
| `HomeSession.Session.KeyDown` | pages/index.js:115-123 | the default is prevented exactly when the key policy says so. Unless the policy submits non-blank input, nothing changes. When it does, the effect is that of `SubmitStart` |
| `Scenarios.ExampleExchange` | pages/index.js:75-108 | URL set and question asked, then answered: the log is the greeting, the question and the answer; the input is cleared and loading is off; the request carried the question and URL; the question was the waiting bubble while pending |
| `Scenarios.MissingWebsiteKeepsQuestion` | pages/index.js:50-80 | the no-website reply keeps the question in the field, while an error reply clears it; the log records both exchanges |
| `Scenarios.BlankEnterChangesNothing` | pages/index.js:68-119 | Enter on a spaces-only field prevents the default but appends nothing, sends nothing and does not start loading |
| `Scenarios.RequestUsesTypedUrl` | pages/index.js:59-89 | the frame keeps the URL of the last click, while the request uses the URL currently typed |
| `Scenarios.HistoryAfterTwoExchanges` | pages/index.js:126-130 | after two settled exchanges, history is the last question and its answer; the request did not include it |

## Left out

- JSX markup, `Head`, navigation links, icons, the placeholder text and CSS (pages/index.js:132-226): these are presentation only. The bubble-style choice (line 176) is the one exception, and it is modelled.
- `ReactMarkdown` rendering of message text (line 181): a foreign library.
- The scroll-to-bottom and focus effects (lines 38-46) and `console.log` (line 91): DOM and console side effects.
- The Clerk sign-out button (lines 12-17): an external authentication call.
- `fetch` and `response.json()` (lines 83-99): they appear only as the `Outcome` value given to `Complete`. The model also leaves out the render that happens between clearing the input (line 98) and parsing the body. The model does clear the input before it checks for "Unauthorized", as the code does.
- Rejected promises, which `handleSubmit` never catches. If `fetch` rejects (line 83), for instance on a network error, the question stays appended, no reply is added and `loading` stays true for good; the model can only show this as `Complete` never being called. If `response.json()` rejects (line 99), the same happens, except that the input was already cleared at line 98; the model has no state with `loading` true and an empty input, because `HttpNotOk` covers only a response that is not ok (line 92).
- Malformed response bodies, where `data.result` is missing and line 102 throws, or where `text` is missing and an undefined message is appended: `Ok` always carries a string.
- Unmounting the component and responses that race it: the model has one request in flight at a time. The textarea and the button are `disabled={loading}` (lines 194, 210), and the model states this as `requires loading` on `Complete` and `requires !loading` on `SubmitStart`, `KeyDown` and `InputChange`.
- The 512-character `maxLength` on the question field (line 199): the browser enforces it.
- The iframe's `sandbox` attribute (line 168): a constant string with nothing to verify.
- React's render and commit timing: the history effect runs at the end of each handler that changed the log. On the missing-website path it runs once, after both appends, because React batches state updates inside an event handler.
- JavaScript strings are UTF-16 code units, while the model's strings are sequences of Unicode scalar values. This does not change `trim`, because every whitespace character lies in the Basic Multilingual Plane.
