# Portfolio chat endpoint, chat widget and theme toggle, in Dafny

This project models the parts of a personal portfolio site that carry
behaviour: the `POST /api/chat` handler with its in-memory, fixed-window
rate limiter (`src/app/api/chat/route.ts`), the chat widget's send state
machine (`src/components/Chatbot.tsx`) and the light/dark theme provider
(`src/app/context/ThemeContext.tsx`).

Modules:

- `RateLimit` (`rate_limit.dfy`): the table `rateLimitMap` from a client key
  to a `Window(count, resetTime)`, the limits (20 requests, one hour in
  milliseconds), the one-call function `Step`, a `Run` of calls, and the
  class `Limiter` whose method `Check` updates the table in place. The clock
  (`Date.now()`) is the parameter `now`.
- `ChatRoute` (`chat_route.dfy`): the client key from `x-forwarded-for`,
  the `slice(-6)` history limit, the transcript rendering (as a function and
  as the handler's loop), the prompt template, and the handler itself as a
  function `Handle` over the limiter's table together with the method
  `Post` that runs it against a `Limiter`. The biography document and the
  instruction block of the prompt are opaque strings (`PromptText`). The
  generative model is an oracle `string -> Reply` that returns a text or
  fails.
- `Chatbot` (`chatbot.dfy`): the widget state (open flag, messages, input,
  loading flag), the guard, the two halves of `sendMessage` around the
  network wait, the whole send as the function `Send`, and the Enter-key
  rule. The network result is an input (`FetchResult`); message ids are
  parameters, since the source builds them from the clock and a random
  number.
- `Theme` (`theme.dfy`): the toggle rule, the `useTheme` missing-provider
  error, and the provider class with its mount effect and setters.
- `JsText` (`js_text.dfy`): JavaScript's `trim` (its whitespace set, as the
  ECMAScript standard defines WhiteSpace and LineTerminator) and the blank
  test. `Wrappers` (`wrappers.dfy`): `Option` for absent values and
  `Result` for thrown errors.

The model follows the code as this revision has it: the limit is 20 requests per hour; the limiter runs before the body is
read, so a request without a message uses up quota and then gets 400 (and
gets 429, not 400, once the quota is used); and the widget shows one fixed
apology for every failure, without telling a connection failure from a
server error.

## Model

| member | source | states |
|---|---|---|
| `JsText.Trim` | src/app/api/chat/route.ts:132-136 | `trim` gives a contiguous piece of the input that is empty exactly when the input is all whitespace and otherwise starts and ends with a non-whitespace character |
| `JsText.TrimIdempotent` | src/app/api/chat/route.ts:136 | trimming an already trimmed text changes nothing, so the answer returned is stable under a second trim |
| `RateLimit.WellFormed` | src/app/api/chat/route.ts:16 | the table invariant, every stored count in 1..20, holds of the empty table the module starts with |
| `RateLimit.WellFormedUpdate` | src/app/api/chat/route.ts:35-38 | storing a window whose count is in 1..20 keeps the invariant |
| `RateLimit.Live` | src/app/api/chat/route.ts:33 | a live record exists, and a record is still live at exactly its reset time |
| `RateLimit.Step` | src/app/api/chat/route.ts:29-48 | one limiter call changes at most the entry of its own key, never removes an entry (the key set becomes the old one plus the key), and keeps every count in 1..20 |
| `RateLimit.NewWindowAllows` | src/app/api/chat/route.ts:33-40 | a key with no record or with `now > resetTime` is allowed and gets `{count: 1, resetTime: now + 3600000}` |
| `RateLimit.ExpiryIsStrict` | src/app/api/chat/route.ts:33 | at `now == resetTime` the old window still applies: a full window still denies and is not reset |
| `RateLimit.DenyIffQuotaUsed` | src/app/api/chat/route.ts:42-44 | a call is denied exactly when the key's record is live and its count is at least 20, and a denial leaves the table unchanged |
| `RateLimit.IncrementBelowQuota` | src/app/api/chat/route.ts:46-47 | a live record under quota allows the call, its count goes up by exactly one and its reset time stays |
| `RateLimit.Run` | src/app/api/chat/route.ts:29-48 | a run of calls gives one verdict per call and adds at most the one key to the table |
| `RateLimit.RunInLiveWindow` | src/app/api/chat/route.ts:42-47 | inside a live window holding `c` requests, the i-th further call is allowed exactly when `c + i < 20`, and the record ends at `min(c + n, 20)` with its reset time unchanged |
| `RateLimit.QuotaPerWindow` | src/app/api/chat/route.ts:18-48 | from a fresh window, calls that fall inside the window the first one opens are allowed for the first 20 and denied from then on |
| `RateLimit.TwentyThenDenied` | src/app/api/chat/route.ts:18-21 | twenty calls inside one fresh window are allowed and the twenty-first is denied |
| `RateLimit.Limiter.constructor` | src/app/api/chat/route.ts:16 | the table starts empty |
| `RateLimit.Limiter.Check` | src/app/api/chat/route.ts:29-48 | `checkRateLimit` updates the table in place exactly as `Step` says, keeps the count invariant, and never drops a key |
| `ChatRoute.FirstField` | src/app/api/chat/route.ts:25 | `split(',')[0]` is a comma-free prefix of the header that ends at a comma or at the end of the header |
| `ChatRoute.FirstFieldUnique` | src/app/api/chat/route.ts:25 | that prefix is the only one with those properties |
| `ChatRoute.ClientKey` | src/app/api/chat/route.ts:23-27 | an absent or empty header gives `"unknown"`; otherwise the key is the untrimmed text before the first comma |
| `ChatRoute.ClientKeyOfChain` | src/app/api/chat/route.ts:24-26 | for a header `first,rest` the key is `first` exactly as written, spaces included, and empty when the header starts with a comma; a header without a comma is its own key |
| `ChatRoute.LimitHistory` | src/app/api/chat/route.ts:73 | absent history becomes empty; otherwise the result is the suffix of the history of length `min(6, n)`, in the original order |
| `ChatRoute.Speaker` | src/app/api/chat/route.ts:96 | the label is `User` exactly for a user turn and `Assistant` otherwise |
| `ChatRoute.LinesSnoc` | src/app/api/chat/route.ts:95-97 | each further turn appends its own line `label: text` plus a newline to the transcript |
| `ChatRoute.LinesShape` | src/app/api/chat/route.ts:95-97 | every turn contributes a line of at least seven characters and a non-empty transcript ends with a newline |
| `ChatRoute.LinesAppend` | src/app/api/chat/route.ts:95-97 | the transcript of two histories joined is the two transcripts joined |
| `ChatRoute.LinesCons` | src/app/api/chat/route.ts:95-97 | the transcript consists of the first turn's `User: `/`Assistant: ` line followed by the rest's |
| `ChatRoute.Context` | src/app/api/chat/route.ts:92-98 | the context is empty exactly for an empty history and otherwise begins with the `Conversation History:` heading |
| `ChatRoute.BuildContext` | src/app/api/chat/route.ts:92-98 | the `forEach` loop that appends one line per turn yields exactly `Context` of the history |
| `ChatRoute.Prompt` | src/app/api/chat/route.ts:100-126 | the prompt begins with the biography and its length is the sum of its six parts |
| `ChatRoute.PromptLayout` | src/app/api/chat/route.ts:100-126 | the prompt starts with the biography, then the context, then the `Current User Question: ` heading, ends with the `Instructions:` block, and the question can be read back out of it |
| `ChatRoute.Respond` | src/app/api/chat/route.ts:66-136 | past the limiter every error is exactly 400 `Message is required` or 500 `Failed to process your message. Please try again.` (the single catch: a body that is not JSON, a failed model call, blank output), a 400 means the message was absent or empty, and an answer is non-empty with no whitespace at either end |
| `ChatRoute.Handle` | src/app/api/chat/route.ts:50-144 | a POST keeps the limiter's invariant and never drops a key, a 429 leaves the table as it was, and every error is one of the four fixed responses: 500 `Gemini API key not configured`, 429 `Too many requests. Please try again later.`, 400 `Message is required`, 500 `Failed to process your message. Please try again.` |
| `ChatRoute.MissingKeySkipsLimiter` | src/app/api/chat/route.ts:52-55 | without an API key the answer is 500 `Gemini API key not configured` and the limiter's table is untouched |
| `ChatRoute.LimiterRunsBeforeBody` | src/app/api/chat/route.ts:57-66 | with an API key the table moves by one limiter step whatever the body holds, a denied request gets 429, and an allowed one gets `Respond`'s answer for its body |
| `ChatRoute.MissingMessageUsesQuota` | src/app/api/chat/route.ts:57-70 | an allowed request whose message is absent or the empty string uses up quota and then gets 400 `Message is required` |
| `ChatRoute.AnswerComesFromModel` | src/app/api/chat/route.ts:50-144 | an answer needs an API key, an allowed request and a non-empty message, and is the trimmed, non-blank model output for the prompt built from the last six turns |
| `ChatRoute.AnswerWhenAllChecksPass` | src/app/api/chat/route.ts:128-136 | with an API key, an allowed request, a non-empty message and non-blank model output for the prompt, the request is counted and the answer is the trimmed output |
| `ChatRoute.BlankModelOutputFails` | src/app/api/chat/route.ts:132-134 | an all-whitespace model output is a 500 with the generic message |
| `ChatRoute.FailuresAreGeneric` | src/app/api/chat/route.ts:66-142 | with an API key and an allowed request, a body that is not JSON, a failed model call or a blank model output is counted and gets 500 `Failed to process your message. Please try again.` from the single catch |
| `ChatRoute.Post` | src/app/api/chat/route.ts:50-144 | the handler as it runs against the shared limiter gives the response and new table that `Handle` describes |
| `Chatbot.CanSend` | src/components/Chatbot.tsx:38 | a send proceeds exactly when the input is not all whitespace and no request is loading (the same test enables the send button, line 249) |
| `Chatbot.ReplyText` | src/components/Chatbot.tsx:65-83 | an ok response's `response` text, and the fixed apology for a non-ok response or a thrown error |
| `Chatbot.Begin` | src/components/Chatbot.tsx:40-49 | the user message with the untrimmed input is appended after the unchanged earlier messages, the input is cleared and loading is on |
| `Chatbot.Finish` | src/components/Chatbot.tsx:63-86 | exactly one bot message with the reply text is appended after the unchanged earlier messages and loading is off |
| `Chatbot.SendsOnKey` | src/components/Chatbot.tsx:90 | only Enter sends, never with Shift held, and Enter without Shift always does |
| `Chatbot.Send` | src/components/Chatbot.tsx:37-87 | a blank input or a request in flight changes nothing; otherwise the messages grow by the untrimmed input as a user message and then exactly one bot message (the response when ok, the apology on any failure), earlier messages stay, the input is cleared and loading ends false |
| `Chatbot.InFlightBlocksResend` | src/components/Chatbot.tsx:38-49 | after the synchronous part of a send the guard refuses a second send, one user message has been appended and the input is cleared |
| `Chatbot.ChatWidget.constructor` | src/components/Chatbot.tsx:15-26 | the widget starts closed, with an empty input, not loading, and exactly one greeting from the bot |
| `Chatbot.ChatWidget.Open` | src/components/Chatbot.tsx:104 | the floating button opens the panel and changes nothing else |
| `Chatbot.ChatWidget.Close` | src/components/Chatbot.tsx:150 | the close button hides the panel and keeps the conversation |
| `Chatbot.ChatWidget.Type` | src/components/Chatbot.tsx:231-242 | typing sets the input, except while loading, when the text box is disabled |
| `Chatbot.ChatWidget.BeginSend` | src/components/Chatbot.tsx:37-61 | the guard, then the user message appended, the input cleared and loading set; the posted body carries the original input and the messages as they were before the append |
| `Chatbot.ChatWidget.FinishSend` | src/components/Chatbot.tsx:63-86 | exactly one bot message is appended, with the response text when ok and the apology otherwise, and loading is cleared on every path |
| `Chatbot.ChatWidget.SendMessage` | src/components/Chatbot.tsx:37-87 | the whole send changes the state as `Send` says and posts a body only when the guard passes |
| `Chatbot.ChatWidget.HandleKeyPress` | src/components/Chatbot.tsx:89-94 | Enter without Shift prevents the default and sends; any other key, Shift+Enter included, changes nothing |
| `Theme.Toggled` | src/app/context/ThemeContext.tsx:44-46 | toggling always gives the other theme: light to dark and dark to light |
| `Theme.ToggleTwice` | src/app/context/ThemeContext.tsx:45 | toggling twice restores the original theme |
| `Theme.UseTheme` | src/app/context/ThemeContext.tsx:15-21 | the hook fails with `useTheme must be used within a ThemeProvider` exactly when no provider value is present, and otherwise returns it |
| `Theme.ThemeProvider.constructor` | src/app/context/ThemeContext.tsx:27-29 | the provider starts light and not hydrated |
| `Theme.ThemeProvider.ProvidedTheme` | src/app/context/ThemeContext.tsx:52-68 | children, and with them the context value, are rendered exactly when the provider is hydrated, and the value is the current theme |
| `Theme.ThemeProvider.Mount` | src/app/context/ThemeContext.tsx:32-35 | the mount effect forces light and marks hydrated, after which the hook returns light |
| `Theme.ThemeProvider.ToggleTheme` | src/app/context/ThemeContext.tsx:44-46 | the theme becomes the other one |
| `Theme.ThemeProvider.SetTheme` | src/app/context/ThemeContext.tsx:48-50 | the theme becomes exactly the given one whatever it was, so a repeat changes nothing |

## Left out

- The Gemini client (`getAIClient`, `getGenerativeModel`, `generateContent`) and its sampling settings: a foreign library call with floating-point configuration, modelled only as the oracle `model: string -> Reply`.
- The `!aiClient` branch of the handler: once the API key is known to be present the client is always created, so the branch cannot be taken; exceptions from the client library are modelled as `ModelFailed`.
- `console.error` logging, the chat `GET` probe and the `/api/health` endpoint: they only read the environment and write logs.
- `request.json()` parsing is abstract: a body that is not JSON is `None` and gets the generic 500; fields of the wrong JSON type (a number as the message, say) are not modelled.
- Numbers are unbounded integers; JavaScript numbers are doubles, which represent the millisecond clock and counts up to 20 exactly, so nothing is lost.
- `RateLimit.Limiter.Check`: the source increments `count` on the stored record object in place; the model replaces the map entry by a new value. Nothing else holds a reference to the record, so the two cannot be told apart.
- Sharing of the limiter across processes, instances or concurrent requests: the model is one process handling one request at a time.
- Message timestamps and the clock- and random-based message ids: ids are parameters and timestamps are dropped.
- `Chatbot.ChatWidget.SendMessage`: the wait for the network is not modelled as an interleaving point; the two halves `BeginSend` and `FinishSend` are separate methods so that the in-flight state can be stated, but other updates between them are not explored.
- Scrolling (`scrollIntoView`), `setAttribute('data-theme', …)`, animation, styling and all presentational components.
- The contents of the biography document and of the prompt's instruction list: opaque strings in `PromptText`.
