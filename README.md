# A verified model of the grammo chat core

grammo is a chat client in the browser, written in React and TypeScript, with a Django backend. The backend keeps one language-model agent per HTTP session. This project models the three parts of it that carry logic:

- **The error classifier** (`getErrorMessage`, module `Errors`). It is a pure, first-match-wins table. It maps a caught error (whether it is a `TypeError`, plus its message) to a kind (`network`, `server` or `unknown`) and one of six fixed texts. The JavaScript string operations it relies on, `includes`, `startsWith` and `replace` with a string pattern, live in module `Strings`. So do the two the client uses, `trim` and the decimal text `${response.status}`.
- **The client's chat-request state machine** (module `ChatClient`, class `App`). The class holds the state of `App.tsx` (input, transcript, session counter, active-session flag, retrieving flag) and of the `useSendChat` hook (the shown error and the abort-controller reference). It has one method per event:
  - the user typing, changing mode or tone, and submitting;
  - the effect that starts a request;
  - each way the request's promise chain settles: success payload, invalid payload, non-2xx status, another rejection, or abort;
  - the `finally` step;
  - a reset of the conversation.

  A ghost field `stage` records where the promise chain is. The methods' preconditions on it encode the order in which the browser delivers these events. `Valid()` is the invariant every event preserves:
  - `isRetrieving` is set exactly while a request is in progress;
  - the abort reference is held exactly from a request's start to its `finally`;
  - no error is shown between submission and outcome;
  - a shown error is one of the six;
  - at most one request is in flight.

  Module `Scenarios` proves the outcome of whole sequences of events, for any input text and reply.
- **The backend** (modules `AgentManager` and `Views`). `SESSION_AGENTS` is a `map<string, Agent>` held by class `Manager`. `get_or_create_agent`, `get_agent` and `end_session` are `Manager`'s methods and function. The `chat`, `end` and `hello` views are functions and methods choosing the HTTP response. Module `Protocol` connects the two sides: it proves which backend responses pass the client's success test, and which banner the client shows for each of the others.

Some consequences of the code that a reader might not expect:

1. A reset neither aborts the request in flight nor discards its late reply:
   - the result handlers never compare `chatSession` (`frontend/src/hooks/useSendChat.tsx:74-89`);
   - the cleanup that aborts runs only when `isRetrieving` changes or the component unmounts (`frontend/src/hooks/useSendChat.tsx:110-115`).

   `Scenarios.ResetDuringRequest` proves the consequence: a reply to a request sent before a reset is appended to the emptied transcript.
2. A reset leaves `isRetrieving` as it is: `resetChat` does not touch it (`frontend/src/App.tsx:50-63`), and neither does `App.Reset`.
3. A shown error blocks submission: the submit button's `disabled` expression includes `error !== null` (`frontend/src/App.tsx:146`), and only a reset clears the error. `Scenarios.ErrorBlocksUntilReset` proves this.
4. A 2xx answer whose body is JSON `null` makes the success test throw a `TypeError` (`frontend/src/hooks/useSendChat.tsx:76`). The client then shows the network error, not the invalid-response error; `App.ResolveOk` states this.

## Model

| member | source | states |
|---|---|---|
| Strings.StartsWith | frontend/src/utils/errors.ts:15 | `startsWith`: the pattern is a prefix of the string (a definition) |
| Strings.Contains | frontend/src/utils/errors.ts:9-11 | `includes`: the pattern occurs at some position, defined through `IndexOf` (a definition) |
| Strings.IndexOf | frontend/src/utils/errors.ts:9-11 | `indexOf`: -1 or a position where the pattern occurs, and no earlier position where it does |
| Strings.ReplaceFirst | frontend/src/utils/errors.ts:17 | `replace` with a string pattern and a replacement without `$`: the input itself when the pattern does not occur, otherwise the first occurrence replaced by the replacement and everything around it kept |
| Strings.ReplacePrefix | frontend/src/utils/errors.ts:17 | replacing a pattern the string starts with removes exactly that prefix ("HTTP_404" becomes "404") |
| Strings.ContainsChars | frontend/src/utils/errors.ts:9-11 | every character of a contained string occurs in the containing one |
| Strings.ContainsTooLong | frontend/src/utils/errors.ts:9-11 | a pattern longer than the string is never contained in it |
| Strings.TrimStart | frontend/src/hooks/useSendChat.tsx:31 | `trimStart`: a suffix of the input, preceded only by white space, empty exactly when the input is blank, and not starting with white space |
| Strings.TrimEnd | frontend/src/hooks/useSendChat.tsx:31 | `trimEnd`: a prefix of the input, followed only by white space, empty exactly when the input is blank, and not ending with white space |
| Strings.IsSpace | frontend/src/hooks/useSendChat.tsx:31 | the characters `trim` strips: ECMAScript WhiteSpace and LineTerminator (a definition) |
| Strings.Trim | frontend/src/hooks/useSendChat.tsx:31 | `trim`: the part of the input between a blank prefix and a blank suffix; empty exactly when every character is ECMAScript white space; neither end of a non-empty result is white space |
| Strings.TrimmedSlice | frontend/src/hooks/useSendChat.tsx:31 | trimming white space off the start and then off the end leaves a slice of the input with a blank part removed at each end |
| Strings.DecimalString | frontend/src/hooks/useSendChat.tsx:69 | `${response.status}`: non-empty, digits only, no leading zero |
| Strings.DecimalRoundTrip | frontend/src/hooks/useSendChat.tsx:69 | reading back the decimal text of a number gives the number |
| Strings.ThreeDigits | frontend/src/hooks/useSendChat.tsx:69 | a three-digit status is written as its hundreds, tens and units digits |
| Errors.IsNetworkFailure | frontend/src/utils/errors.ts:7-12 | the first row's test: a `TypeError`, or a message containing one of the three connection phrases (a definition) |
| Errors.Classify | frontend/src/utils/errors.ts:1-38 | the result is always one of the six fixed outcomes; the kind is network exactly for the first row, and server exactly for the `HTTP_` and `INVALID_RESPONSE` rows |
| Errors.HttpFailure | frontend/src/hooks/useSendChat.tsx:67-70 | the error thrown for a non-2xx status is not a `TypeError` and starts with `HTTP_` |
| Errors.StatusError | frontend/src/utils/errors.ts:15-27 | the reference table by status number gives kind server for every status |
| Errors.TypeErrorWins | frontend/src/utils/errors.ts:7-14 | any `TypeError`, even one whose message is "HTTP_500", yields the network outcome |
| Errors.ConnectionPhraseWins | frontend/src/utils/errors.ts:7-14 | any message that contains one of the three connection phrases yields the network outcome, whatever surrounds the phrase |
| Errors.HttpRowReached | frontend/src/utils/errors.ts:15-17 | for a short code, `HTTP_<code>` is not a network failure, starts with `HTTP_`, and the status code extracted from it is exactly `<code>` |
| Errors.HttpCodeRule | frontend/src/utils/errors.ts:15-27 | once the `HTTP_` row is reached (the message is not a network failure), the code alone chooses: codes starting with "5" give the server-error outcome, 400/401/403 the invalid request, any other the generic HTTP outcome |
| Errors.ThreeDigitCode | frontend/src/utils/errors.ts:18-21 | for a three-digit status, its text starts with "5" exactly for 500-599, and is "400", "401" or "403" exactly for that number |
| Errors.StatusClassification | frontend/src/utils/errors.ts:15-27 | for every status from 100 to 999, classifying `HTTP_<status>` equals the table by status number |
| Errors.OtherHttpCodes | frontend/src/utils/errors.ts:24-27 | an `HTTP_` message that is not a network failure, whose code does not start with "5" and is not 400/401/403, gives the generic HTTP outcome, even when the code is not a number |
| Errors.MissingChar | frontend/src/utils/errors.ts:9-11 | a string lacking one of the pattern's characters does not contain the pattern |
| Errors.NeitherNetworkNorHttp | frontend/src/utils/errors.ts:7-15 | a short message with no 'e' that does not start with 'H' matches neither the network row nor the `HTTP_` row |
| Errors.InvalidResponseClassification | frontend/src/utils/errors.ts:28-30 | `INVALID_RESPONSE` yields the invalid-response outcome |
| Errors.UnknownOtherwise | frontend/src/utils/errors.ts:31-35 | every message matching no earlier row yields the unknown outcome, near misses of `INVALID_RESPONSE` included |
| Errors.NoEcho | frontend/src/utils/errors.ts:3-37 | the displayed text differs from the error's own message unless that message is one of the six fixed texts |
| Errors.EveryOutcomeReachable | frontend/src/utils/errors.ts:7-35 | each of the six outcomes is produced by some error: the table has no dead row |
| ChatClient.Accepts | frontend/src/hooks/useSendChat.tsx:76 | the success test: the payload is not `null`, its status is "success" and its response a non-empty string (a definition) |
| ChatClient.IsOk | frontend/src/hooks/useSendChat.tsx:67 | `response.ok`: the status is from 200 to 299 (a definition) |
| ChatClient.SubmitEnabled | frontend/src/App.tsx:146 | the submit button is enabled exactly when the input is not blank, nothing is being retrieved and no error is shown |
| ChatClient.App.constructor | frontend/src/App.tsx:16-25 | the first render: empty input and transcript, session 0, no active session, not retrieving, no error, no abort controller, and the invariant holds |
| ChatClient.App.Type | frontend/src/App.tsx:121 | the input's `onChange` sets the input text and nothing else |
| ChatClient.App.SetMode | frontend/src/App.tsx:101 | the mode drop-down sets the mode and nothing else |
| ChatClient.App.SetTone | frontend/src/App.tsx:111 | the tone drop-down sets the tone and nothing else |
| ChatClient.App.Submit | frontend/src/App.tsx:41-48 | a submission is accepted exactly when the button is enabled; it then sets `isRetrieving` and marks the session active; a refused one changes nothing |
| ChatClient.App.Start | frontend/src/hooks/useSendChat.tsx:28-64 | unless retrieving with a non-blank input nothing changes; otherwise exactly one untrimmed user message is appended, the input and error are cleared, and the body posted carries the message, session counter, mode and tone; a shown error is never cleared without a send |
| ChatClient.App.Send | frontend/src/hooks/useSendChat.tsx:35-64 | the start step past its guard: abort reference held, user message appended at the end, input and error cleared, the chat request appended to the requests sent |
| ChatClient.App.ResolveOk | frontend/src/hooks/useSendChat.tsx:74-89 | a payload passing the success test appends exactly one assistant message with its response and leaves no error; a `null` payload appends nothing and shows the network error; any other payload appends nothing and shows the invalid-response error |
| ChatClient.App.ResolveNull | frontend/src/hooks/useSendChat.tsx:76 | reading `status` of a `null` payload throws a `TypeError`, shown as the network error whatever its message |
| ChatClient.App.ResolveInvalid | frontend/src/hooks/useSendChat.tsx:85-88 | a 2xx payload failing the success test shows the invalid-response error and leaves the transcript alone |
| ChatClient.App.ResolveHttp | frontend/src/hooks/useSendChat.tsx:67-70 | a non-2xx status shows the classification of `HTTP_<status>`, which for three-digit statuses is the table by status number; the transcript is left alone |
| ChatClient.App.ResolveError | frontend/src/hooks/useSendChat.tsx:90-102 | any other rejection shows its classification and leaves the transcript alone |
| ChatClient.App.ResolveAbort | frontend/src/hooks/useSendChat.tsx:92-94 | an abort changes neither the transcript nor the error |
| ChatClient.App.Finally | frontend/src/hooks/useSendChat.tsx:103-107 | after every outcome `isRetrieving` is false and the abort reference is cleared; the request counts as completed |
| ChatClient.App.Reset | frontend/src/App.tsx:50-63 | posts the end request on every call, empties the transcript, marks the session inactive, adds exactly one to the session counter and clears the error, as the effect on the counter does (useSendChat.tsx:24-26); the input, preferences and `isRetrieving` are left alone |
| Scenarios.SubmitFirst | frontend/src/App.tsx:41-48 | from the first render, a non-blank text typed and submitted is accepted, and the start step is still to run |
| Scenarios.SendFirst | frontend/src/hooks/useSendChat.tsx:28-64 | the first submission followed by the start step: one user message and one request with session 0 and the current preferences |
| Scenarios.Exchange | frontend/src/hooks/useSendChat.tsx:28-107 | a message answered with a success payload leaves exactly the user message and the reply, no error, and nothing retrieving |
| Scenarios.FailFirst | frontend/src/hooks/useSendChat.tsx:65-107 | a message answered with a 5xx status keeps the user message and shows the server-error banner |
| Scenarios.ErrorBlocksUntilReset | frontend/src/App.tsx:146 | after a server error no text can be submitted; after a reset the transcript is empty and the text is accepted |
| Scenarios.ResetDuringRequest | frontend/src/hooks/useSendChat.tsx:74-115 | a reset while a request is in flight neither aborts it nor discards its reply: the reply becomes the only message of the new session |
| Scenarios.ResetWithoutSession | frontend/src/App.tsx:50-62 | a reset posts the end request even when no session was active |
| Scenarios.BlankInputIgnored | frontend/src/hooks/useSendChat.tsx:31-33 | input made only of white space can be neither submitted nor sent |
| Wrappers.Get | backend/agent_manager/__init__.py:49 | `dict.get`: `None` exactly when the key is absent, otherwise the stored value |
| AgentManager.HasKey | backend/agent_manager/__init__.py:32 | the negation of `not session_key`: the key is set and non-empty (a definition) |
| AgentManager.Session.constructor | backend/agent_manager/__init__.py:30-32 | a session nothing has been stored in has no key |
| AgentManager.Session.Existing | backend/agent_manager/__init__.py:30 | a session the client's cookie identifies has that key |
| AgentManager.Session.Create | backend/agent_manager/__init__.py:33-34 | `session.create()` gives the session a key from the session store |
| AgentManager.Session.Flush | backend/api/views.py:56 | `session.flush()` unsets the session's key |
| AgentManager.Manager.constructor | backend/agent_manager/__init__.py:26 | the table starts empty |
| AgentManager.Manager.GetAgent | backend/agent_manager/__init__.py:47-49 | a lookup, found exactly when the key has an agent and then that agent, and reading the table without changing it |
| AgentManager.Manager.GetOrCreateAgent | backend/agent_manager/__init__.py:28-44 | without a key: a new key, the new agent stored under it and returned; with a key: session and table unchanged and the lookup returned, `None` when the key has no agent |
| AgentManager.Manager.GetOrCreateAgentFixed | backend/agent_manager/__init__.py:28-44 | as intended: the agent under the session's key is always returned, and a key without one gets a new agent |
| AgentManager.Manager.EndSession | backend/agent_manager/__init__.py:51-57 | true exactly when the key had an agent; that key has none afterwards and every other entry is kept; otherwise nothing changes, so a second call returns false |
| Views.Truthy | backend/api/views.py:23 | the negation of `not message`: the message is present and non-empty (a definition) |
| Views.Hello | backend/api/views.py:6-8 | a 200 whose `message` is the fixed greeting |
| Views.LastContent | backend/api/views.py:38-40 | present exactly when the answer's message list is non-empty and its last message has non-empty content, and then that content |
| Views.Reply | backend/api/views.py:38-49 | 200 exactly when the last message has content, with status "success" and the non-empty content as response; otherwise the 500 "Server Error" |
| Views.Chat | backend/api/views.py:18-49 | a missing or empty message gets 400 "Invalid message." with the table and session untouched; otherwise agent fetched or created, then the reply, or the 500 page when the session's key has no agent or `invoke` raises |
| Views.StaleKeyStuck | backend/agent_manager/__init__.py:44 | as written, a session whose key has no agent gets the 500 page from `chat`, 404 from `end` without a flush, and the 500 page again |
| Views.ChatFixed | backend/api/views.py:18-49 | with the intended lookup, a truthy message gets the reply chosen from the agent's answer unless `invoke` itself raises, and the session's key then has an agent |
| Views.End | backend/api/views.py:52-62 | flush and success exactly when the key had an agent, which is then removed; otherwise 404 "No active session." and nothing changes |
| Protocol.PayloadOf | frontend/src/hooks/useSendChat.tsx:76 | the client's reading of `data.status` and `data.response` off the JSON object the backend sends (a definition) |
| Protocol.AgentReplyUnderstood | backend/api/views.py:38-49 | for an answer `invoke` returned, the client accepts the reply exactly when it is a 200, and then appends the last content; the 500 is shown as the server-error banner |
| Protocol.RefusalUnderstood | backend/api/views.py:23-27 | the 400 refusal is shown as the invalid-request banner |
| Protocol.UnhandledErrorUnderstood | backend/api/views.py:29-36 | the 500 page of an unhandled error is shown as the server-error banner |
| Protocol.NoSessionStatus | backend/api/views.py:59-62 | informational only: the end view's 404 would classify as the generic HTTP outcome, but the client never reads the end request's response (App.tsx:51-59), so no banner results |

## Left out

- Concurrency: `fetch`, Promise scheduling, `AbortController` and React's rendering and effect scheduling are not simulated. Each outcome of a request is an event method. The preconditions on the ghost `stage` encode the order in which the browser delivers these events.
- Unmounting the component, the one event that makes the cleanup at `frontend/src/hooks/useSendChat.tsx:110-114` abort a request. Only its consequence is modelled, as `App.ResolveAbort`.
- `console.log` (`frontend/src/hooks/useSendChat.tsx:29`): output only.
- JSON fields other than strings. A payload is `null` or has optional string fields `status` and `response`; the backend's `message` and `content` are optional strings. A numeric or object `response`, or a non-string `message`, is not modelled.
- A parse error in the body of a 2xx response is not modelled as such. Its `SyntaxError` is covered by `App.ResolveError`, like any other rejection.
- The outcome of the end request. The client never reads it, so `App.Reset` only records that the request was posted.
- The agent: the HuggingFace model, `create_agent`, its memory and `agent.invoke` are foreign. An agent is an opaque identity, and the outcome of `invoke` (an answer, or an exception) is an input of `Views.Chat`.
- Session keys: the session store's key generation is foreign, so the new key is an input. The conversation `thread_id` passed to `invoke` is not modelled.
- Environment loading and model construction (`backend/agent_manager/__init__.py:1-24`).
- The other front-end files are not part of this model: `Chat.tsx`, `Dropdown.tsx` and `Tooltip.tsx` render; `useFormHeight.tsx` measures the DOM; `vite.config.ts` configures the build.
- `useLocalStorage.tsx` is not part of this model: mode and tone are opaque strings given to the constructor.
- `useEndChat.tsx` is not part of this model. It holds the `beforeunload` notification, and App.tsx passes it a boolean, so its length guard never holds.
- Strings.IsSpace: a Dafny `char` is a Unicode code point, while JavaScript strings are sequences of UTF-16 code units. Lengths and indices therefore differ from JavaScript's for text with characters above U+FFFF. No white space lies above U+FFFF, so the blank test is unaffected.
- Strings.ReplaceFirst: the replacement patterns of `String.prototype.replace` (`$&`, `$$`, `` $` ``, `$'`) are not expanded; it requires a replacement without `$`. The classifier's only call passes "".
- Errors.StatusClassification: stated only for statuses from 100 to 999, the range a browser reports. Other statuses are covered only through `Errors.HttpCodeRule`.
- Errors.HttpRowReached: stated for codes of at most six characters, which covers every decimal status text; longer `HTTP_` messages are covered only by `Errors.Classify`'s own contract.

## Findings

| source | as written | input that shows it | evidently intended | confidence | as-written member | corrected member |
|---|---|---|---|---|---|---|
| backend/agent_manager/__init__.py:44 | a session whose key is set but has no entry in the in-memory `SESSION_AGENTS` gets `None`. `chat` then calls `invoke` on `None` (backend/api/views.py:30), which raises and becomes a 500 page. `end` answers 404 without flushing, so the client's reset does not recover either | a session key kept by the session store across a server restart, so the table is empty: `chat` gives 500, `end` gives 404, `chat` gives 500 again | "get the agent for this session or create a new one": such a session gets a new agent under its key | medium, not executed | Views.StaleKeyStuck | Views.ChatFixed |
