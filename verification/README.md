# Usage-quota gate of the Esifi AI web application

This project is a Dafny model of the part of Esifi that decides whether a paid AI call may run and what it costs. It covers five pieces:

- **Usage ledger** (`lib/api-limit.ts`). A per-user count of metered calls. `incrementApiLimit` creates a record with count 1 or adds one. `checkApiLimit` reports whether the free allowance (`MAX_FREE_COUNTS` = 5) remains. `getApiLimitCount` reads the count.
- **Subscription check** (`lib/subscription.ts`). A user is Pro when a subscription record exists, its Stripe price id is truthy, and its period end plus one day (`DAY_IN_MS` = 86 400 000 ms) is after the current time.
- **Quota gate**. The pre-check `!freeTrial && !isPro ⇒ 403` and the post-success charge `if (!isPro) incrementApiLimit()`, which every metered handler repeats.
- **Request handlers** `POST /api/text-writer`, `POST /api/conversation` (with its save sub-path) and `POST /api/speech`. Each handler is a method over the ledger object, the subscription records, a clock reading `now`, the caller's identity and the parsed body. Provider outcomes are inputs. The requests sent to providers are outputs, so "no provider call" can be stated.
- **Text-writer helpers**. Word truncation, `trim().split(/\s+/).slice(0, maxWords).join(" ")`, modelled with the ECMAScript meaning of each step. The `humanizeText` poll loop runs over a finite sequence of poll replies.

Modules: `Wrappers` (Option), `JsValues` (JavaScript truthiness, chat messages, replies), `ApiLimit`, `Subscription`, `QuotaGate`, `WordTruncation`, `TextWriter`, `Conversation`, `Speech`.

Behaviour of the source that the model keeps:

- The increment is a read-then-write pair: `findUnique`, then `update` or `create` (`lib/api-limit.ts:11-24`). It is not an atomic upsert.
- The Pro check needs a *truthy* price id, so an empty string counts as absent (`lib/subscription.ts:26-29`). A missing period end gives `undefined + DAY_IN_MS`, which is NaN, and the comparison is then false.
- The text-writer and conversation handlers parse the body before checking identity, inside their `try` (`app/api/text-writer/route.ts:69-76`, `app/api/conversation/route.ts:26-33`). A body that does not parse therefore gives 500 even for a signed-out caller.
- The speech handler checks identity first. Its `req.json()` sits outside any `try` (`app/api/speech/route.ts:9-15`), so a parse failure escapes the handler.
- The speech handler has no 400 branch. A missing `message` goes straight to the provider (`app/api/speech/route.ts:29-37`).
- A provider error's `statusCode` becomes the response status through `Response.json` (`app/api/speech/route.ts:46-49`). A missing status falls back to 200. The status is converted to an unsigned 16-bit integer (modulo 65536). A converted status outside 200..599, or one of 204/205/304, makes `Response.json` throw.
- The poll loop has no bound and no failure status (`app/api/text-writer/route.ts:41-65`). Only `"done"` ends it, or an exception from `fetch`/`json()`.
- The conversation handler charges the caller before it reads `choices[0].message` (`app/api/conversation/route.ts:57-61`). A reply without a choice, or without a message, is a 500 after the charge. See "Findings".
- An identity of `""` is falsy (`!userId`), so it is treated as signed out everywhere.

## Model

| member | source | states |
|---|---|---|
| `ApiLimit.GetApiLimitCount` | lib/api-limit.ts:44-58 | a signed-in caller with a record reads exactly the stored count; a signed-out caller or one without a record reads 0 |
| `ApiLimit.CheckApiLimit` | lib/api-limit.ts:27-42 | false when signed out; for a signed-in caller, true exactly when the count read by getApiLimitCount is below MAX_FREE_COUNTS |
| `ApiLimit.Incremented` | lib/api-limit.ts:5-25 | signed out leaves the ledger as it was; otherwise the caller's key is added if missing, the caller's count rises by exactly 1 (from 0 to 1 for a new record), and every other record is unchanged |
| `ApiLimit.UsageLedger.IncrementApiLimit` | lib/api-limit.ts:5-25 | the read-then-update on the ledger object leaves `counts == Incremented(old(counts), userId)`: a new record holds 1, an existing one its old count plus 1 |
| `ApiLimit.RepeatedIncrements` | lib/api-limit.ts:11-24 | n consecutive increments raise the caller's count by exactly n and leave every other user's record unchanged |
| `ApiLimit.FreshUserAllowance` | lib/api-limit.ts:15-41 | from no record, after n increments the count is n and checkApiLimit is true iff n < 5 |
| `Subscription.CheckSubscription` | lib/subscription.ts:6-32 | false when signed out, without a record, without a truthy price id, or without a period end (NaN comparison); with both present, true iff periodEnd > now − DAY_IN_MS |
| `Subscription.GraceBoundary` | lib/subscription.ts:26-31 | a period end of exactly now − 86 400 000 is lapsed, and one millisecond later is active |
| `Subscription.ActiveEarlier` | lib/subscription.ts:26-29 | active at `now` implies active at every earlier clock reading |
| `QuotaGate.Allowed` | app/api/text-writer/route.ts:86-91 | Pro callers always pass; signed-out callers never do; other callers pass iff their count is below MAX_FREE_COUNTS |
| `QuotaGate.Settled` | app/api/text-writer/route.ts:109-111 | the ledger changes only for a served non-Pro caller, and then by exactly one increment |
| `QuotaGate.ServedRequests` | app/api/speech/route.ts:39-41 | n served requests raise a free-tier caller's count by n and a Pro caller's by 0; other users are untouched |
| `QuotaGate.FreeTierExhaustion` | lib/api-limit.ts:33-41 | a new non-Pro caller passes the gate after n served requests iff n < 5, and the count is then n |
| `WordTruncation.TrimStartCutsSpace` | app/api/text-writer/route.ts:104 | everything trimStart removes from the front is whitespace |
| `WordTruncation.TrimEndCutsSpace` | app/api/text-writer/route.ts:104 | everything trimEnd removes from the back is whitespace |
| `WordTruncation.Trim` | app/api/text-writer/route.ts:104 | the result starts and ends with a non-space character (or is empty), and text already in that form is returned unchanged |
| `WordTruncation.TrimCutsSpace` | app/api/text-writer/route.ts:104 | trim returns a contiguous slice of the text, and only whitespace lies before and after that slice |
| `WordTruncation.SplitOnSpaces` | app/api/text-writer/route.ts:104 | `split(/\s+/)` never gives an empty list; the empty string gives [""]; non-empty trimmed text gives only words; the pieces joined by " " are the text with each whitespace run collapsed |
| `WordTruncation.JoinOfWordsTrimmed` | app/api/text-writer/route.ts:105 | `join(" ")` of a non-empty list of words is non-empty trimmed text that starts with the first word's first character |
| `WordTruncation.SplitFromWords` | app/api/text-writer/route.ts:104 | splitting non-empty trimmed text on whitespace runs yields only non-empty pieces without whitespace |
| `WordTruncation.JoinSplitFrom` | app/api/text-writer/route.ts:104-105 | joining the pieces of `split(/\s+/)` with " " replaces every whitespace run by one space and keeps all other characters in order |
| `WordTruncation.SplitFromJoin` | app/api/text-writer/route.ts:104-105 | splitting a non-empty list of words joined by single spaces gives the list back |
| `WordTruncation.SplitJoin` | app/api/text-writer/route.ts:104-105 | round trip through `split(/\s+/)` and through `trim().split(/\s+/)`: both give back a non-empty list of words that was joined by single spaces |
| `WordTruncation.SliceEnd` | app/api/text-writer/route.ts:105 | the end index of `slice(0, end)`: absent keeps the whole length; a non-negative end is capped at the length; a negative end drops that many from the back, or everything when there are fewer |
| `WordTruncation.TakeWords` | app/api/text-writer/route.ts:105 | `slice(0, maxWords)` keeps a prefix; all words when the limit is absent or at least their number; exactly min(maxWords, count) words for a non-negative limit |
| `WordTruncation.Truncate` | app/api/text-writer/route.ts:104-105 | the truncated text is trimmed, and empty for blank text or a limit of 0 |
| `WordTruncation.Words` | app/api/text-writer/route.ts:104 | the words of a text are non-empty and space-free, none exist exactly when the trimmed text is empty, and joined by spaces they give the text with whitespace runs collapsed |
| `WordTruncation.TruncatedWords` | app/api/text-writer/route.ts:103-105 | the truncated text is the first words kept by `slice(0, maxWords)` joined by single spaces, its own words are exactly those, and there are at most maxWords of them |
| `WordTruncation.KeepsAllWords` | app/api/text-writer/route.ts:104-105 | with maxWords absent or at least the word count, every word is kept |
| `WordTruncation.TruncateIdempotent` | app/api/text-writer/route.ts:104-105 | for maxWords absent or non-negative, truncating the truncated text changes nothing |
| `TextWriter.HumanizeText` | app/api/text-writer/route.ts:41-65 | returns the output of the first reply whose status is "done", after exactly that many polls with none ending the loop earlier; a thrown submit or poll gives a failure; with no ending reply, the loop is still polling after all replies |
| `TextWriter.NatText` | app/api/text-writer/route.ts:97 | the decimal numeral of a number: non-empty digits, no leading zero, and reading the digits back gives the number |
| `TextWriter.MaxWordsText` | app/api/text-writer/route.ts:97 | `${maxWords}`: "undefined" when absent; otherwise digits that read back as the number, after a "-" when it is negative |
| `TextWriter.Prompt` | app/api/text-writer/route.ts:93-98 | two messages: the instruction, then a user message made of the content unchanged, the "Maximum words: " label, and the limit's text |
| `TextWriter.Post` | app/api/text-writer/route.ts:68-118 | guard order 500 (bad body), 401, 500 (no key), 400, 403; chat called iff all guards pass, with the instruction first; humanizer given the truncated answer; 200 iff the first ending poll is "done", carrying its output; any other answered request after the humanizer call is 500 "Internal Error"; the ledger is settled with one charge only for a served non-Pro caller |
| `Conversation.ConversationStore.Create` | app/api/conversation/route.ts:74-78 | appends exactly one record |
| `Conversation.ChatAnswer` | app/api/conversation/route.ts:61-64 | the chat answer is 200 with the message exactly when the first choice exists and has a message; otherwise it is 500 "Internal Error" |
| `Conversation.ChargedOnFailedAnswer` | app/api/conversation/route.ts:57-61 | as written, a signed-in non-Pro caller whose completion has no choice, or no message, gets a 500 and is still charged one increment |
| `Conversation.SettledAfterAnswer` | app/api/conversation/route.ts:57-61 | the corrected settlement: the ledger is unchanged unless the answer is a 200, and then a non-Pro caller is charged exactly one increment |
| `Conversation.Post` | app/api/conversation/route.ts:22-87 | chat only on `/api/conversation` and save only on `/api/conversation/conversations`, otherwise no response and no change; chat guards 500, 401, 500, 400, 403 in order; provider gets PRE_PROMPT followed by the client's messages in order; once the provider is called the reply is ChatAnswer of its outcome; a non-Pro caller is charged once whenever the provider returned, even when the answer is then a 500; save adds exactly one record with the caller and messages, or 401 with the store unchanged |
| `Speech.ErrorReply` | app/api/speech/route.ts:46-49 | a provider error answers with its statusCode when it is in 200..599 and allows a body, and with 200 when absent; otherwise the status is taken modulo 65536 and the call throws unless that value is an allowed status, which is then the answer |
| `Speech.Post` | app/api/speech/route.ts:8-50 | 401 before the body is read; 403 without a provider call when the gate refuses; the message is passed to the provider as given; success gives 200 audio/mpeg and one charge for a non-Pro caller; failure leaves the ledger unchanged; a 400 can only come from a provider statusCode equal to 400 modulo 65536 |
| `Speech.FreeTierScenario` | app/api/speech/route.ts:17-45 | a new free-tier caller's six successful speech requests get 200 five times and then 403, and the count ends at 5 |

## Left out

- Identity, database, chat-completion, text-to-speech and humanization services are not modelled. Their results are inputs: the identity `userId`, the ledger and subscription records, and each provider's outcome.
- The clock (`Date.now()`) is the integer parameter `now`. The 5-second wait before each poll is not modelled. `HumanizeText` reports how many polls were made.
- Concurrency is not modelled. The increment is a non-atomic read-then-update, so two racing requests can lose an update. A sequential model cannot show this and does not claim to exclude it.
- `TextWriter.HumanizeText`: the real loop never ends without a "done". The model runs over a finite sequence of replies and reports `StillPolling` (and the handler `Pending`) when they run out.
- Failures of the database calls (`findUnique`, `update`, `create`) are not modelled. Every store access succeeds.
- The API-key configuration check is a boolean input. The `isProduction` key choice in the speech handler picks the same key either way and is not modelled.
- Request bodies are parsed values: a body that does not parse, or fields that are present or absent. `maxWords` is an integer or absent. Other JSON values converted by `slice` and by the template literal are not modelled. In the text-writer handler the chat answer is the first choice's content or nothing, and an empty `choices` list counts as the call throwing, since `choices[0].message` is read before anything is charged (`app/api/text-writer/route.ts:101`). In the conversation handler an empty `choices` list is its own outcome, `NoChoices`, because there it is read after the charge.
- `Conversation.SavedConversation`: `JSON.stringify(messages)` is kept as the message list it encodes, not as JSON text. What the database does with an absent `messages` is not modelled.
- Response bodies are abstracted to a payload tag with its data. The speech provider's voice settings (similarity 0.5, stability 0.5) and the chat model names are not modelled.
- The UI components, `constants.ts` beyond `MAX_FREE_COUNTS`, and `app/api/conversation/conversations.ts` are not part of this model. The last one repeats the save branch of the conversation route.
- `TextWriter.MaxWordsText`: assumes |maxWords| < 10^21. JavaScript writes larger numbers in exponent form (such as "1e+21"), which the model does not produce.
- `Speech.ErrorReply`: `statusCode` is modelled as an integer or absent. The WebIDL conversion of a fractional, NaN, infinite or non-numeric `statusCode` (truncation, or 0) is not modelled.

## Findings

| source | as written | input that shows it | evidently intended | confidence | as-written member | corrected member |
|---|---|---|---|---|---|---|
| app/api/conversation/route.ts:57-61 | `incrementApiLimit()` runs before `choices[0].message` is read and serialised | a signed-in non-Pro caller whose completion has an empty `choices` list, or a first choice without `message`: the reply is 500 "Internal Error" and the count still rises by one | charge only for a request answered with 200, as the text-writer and speech handlers do | not executed; the order of the statements is on the page | `Conversation.ChargedOnFailedAnswer` | `Conversation.SettledAfterAnswer` |
