# Shinga chat support: a Dafny model of the chat stream, its relay and the self-care pages

Shinga is a mental-health support web app. The user chats with an AI companion in English,
Shona or Ndebele, keeps a journal, ticks off weekly self-care challenges and reads daily
affirmations. This project models the parts of it that hold logic:

- **The chat page** (`ChatClient`, `EventStream`). The page sends the conversation to the
  relay. It decodes the relay's reply, a server-sent event stream, into the last assistant
  message.
  - `EventStream` states the decoder as functions. `Drain` is the inner line loop and `Feed`
    the outer read loop.
  - Its lemmas prove that how the reply is cut into chunks does not matter.
    - An unparsable payload that is put back blocks at the same place under every cut.
    - A well-formed reply yields exactly the concatenated deltas.
  - `ChatClient.ChatPage` holds the page's state. Its `ReadReply` and `DrainLines` are the
    page's loops, proved to compute `Feed` and `Drain`. `HandleLine` is one pass of the
    inner loop's body; its `stop` result is that loop's `break`. `HandlePayload` is the
    `try` around `JSON.parse`.
  - `StreamEffect` states what a send does to the message list and the toasts, for every
    way the network can behave.
- **The relay** (`ChatRelay`), the edge function between the page and the AI gateway, as a
  function of the request, the API key and the gateway's answer. It covers:
  - the CORS preflight;
  - system prompt selection with its English fallback;
  - the forwarded conversation;
  - the mapping of gateway failures to 429, 402 and 500.
- **The journal** (`Journal`): the search filter and `saveEntry`, with the table of inserted
  rows as part of the page's state.
- **The weekly challenges** (`Challenges`): the completion test, the progress count and the
  toggle that completes the first open row or inserts a completed one.
- **The affirmations** (`Affirmations`): the three tables of eight texts and the cyclic
  "next" button.
- **`EndToEnd`** connects the relay and the page. It shows:
  - every relay error reaches the page as the matching toast;
  - a well-formed gateway stream becomes exactly one new assistant message.

Inputs the program gets from the outside world are parameters of the model:
- the gateway's and the relay's answers: `gateway`, `server`, and chunk sequences with an
  optional read error;
- `JSON.parse` of a payload: `parse`;
- the environment's API key;
- the database's error result;
- the current time stamp: `now`.

Two behaviours of `streamChat` are easy to misread:

- **The catch block in `streamChat`** (src/pages/Chat.tsx:120-133) always removes the last
  message.
  - A read that fails mid-stream therefore removes the partially filled assistant reply
    rather than leaving the partial answer visible (`ReadFailureDropsReply`).
  - A `fetch` that rejects before any response removes the user's own message, since no
    placeholder was added yet (`RejectionDropsUserTurn`).
- **A payload that does not parse** is put back in front of the buffer after its trailing
  "\r" was dropped, not as it arrived. `ClassifyStable` proves this changes nothing: the
  put-back line is classified as before.

## Model

| member | source | states |
|---|---|---|
| Text.TrimSpec | src/pages/Journal.tsx:84 | `trim()` gives the empty string exactly when the text is all whitespace, and otherwise neither starts nor ends with whitespace |
| Text.IndexOfSpec | src/pages/Chat.tsx:85 | `indexOf("\n")` is -1 exactly when there is no newline, and otherwise the position of the first one |
| Text.IncludesAt | src/pages/Journal.tsx:76 | a text that occurs at some position is found by `includes` |
| Text.IncludesSomewhere | src/pages/Journal.tsx:76 | what `includes` finds occurs at some position: with `IncludesAt`, `includes` holds exactly when such a position exists |
| Text.ToLowerIdempotent | src/pages/Journal.tsx:76-77 | lower-casing twice is lower-casing once, and its result holds no upper-case letter |
| EventStream.SplitLineNone | src/pages/Chat.tsx:85 | the buffer holds a complete line exactly when it holds a newline |
| EventStream.SplitLineJoin | src/pages/Chat.tsx:86-87 | the cut-off line holds no newline, and line, newline and rest make up the buffer |
| EventStream.SplitLineWithin | src/pages/Chat.tsx:85-87 | text behind a complete line does not change the line cut off; it ends up in the rest |
| EventStream.Feed | src/pages/Chat.tsx:79 | once the terminator has been seen, no further chunk changes the decoder |
| EventStream.ClassifyComment | src/pages/Chat.tsx:90 | a line starting with ":" is skipped, with or without "\r" |
| EventStream.ClassifyBlank | src/pages/Chat.tsx:90 | a whitespace-only line is skipped |
| EventStream.SkippedLine | src/pages/Chat.tsx:90 | comment lines and blank lines are the lines the page skips |
| EventStream.ClassifyOtherField | src/pages/Chat.tsx:91 | a line without the `data: ` field is skipped |
| EventStream.ClassifyDataFrame | src/pages/Chat.tsx:89-97 | `data: <json>`, with or without "\r", gives the payload `json`, or the terminator for `[DONE]` |
| EventStream.ClassifyStable | src/pages/Chat.tsx:113-116 | the put-back line, without its "\r", is classified as the original line was |
| EventStream.DrainSettles | src/pages/Chat.tsx:84-118 | when the inner loop ends without the terminator, the buffer has no complete line or is blocked on an unparsable payload |
| EventStream.BlockedAppend | src/pages/Chat.tsx:113-116 | a buffer blocked on an unparsable line stays blocked on it, with the text unchanged, whatever is appended |
| EventStream.DrainAppend | src/pages/Chat.tsx:82-118 | appending text to the buffer before the inner loop agrees with running the loop first and appending to what it leaves |
| EventStream.DrainGrows | src/pages/Chat.tsx:102-103 | the inner loop only appends to the assistant text |
| EventStream.FeedGrows | src/pages/Chat.tsx:79-119 | the outer loop only appends to the assistant text |
| EventStream.FeedSnoc | src/pages/Chat.tsx:79-82 | one more chunk is one more round of the outer loop, or nothing once done |
| EventStream.FeedSplit | src/pages/Chat.tsx:79-119 | reading chunks in two parts is reading the first part and continuing with the second |
| EventStream.FeedAfterDone | src/pages/Chat.tsx:94-96 | after the terminator, later chunks are never read |
| EventStream.TruncationKeepsText | src/pages/Chat.tsx:80-81 | a reply cut short keeps every delta decoded before the cut |
| EventStream.FeedAgreesWithDrain | src/pages/Chat.tsx:79-119 | reading chunks one by one agrees, in text and done flag, with draining their concatenation at once |
| EventStream.ChunkingIrrelevant | src/pages/Chat.tsx:79-119 | the page's decoder over any chunking equals one drain of the whole text |
| EventStream.SameTextSameResult | src/pages/Chat.tsx:79-119 | two chunkings of the same text give the same assistant text and done flag |
| EventStream.IgnoredLineAnywhere | src/pages/Chat.tsx:85-90 | a skipped line inserted at any line boundary of the buffer changes neither the assistant text nor whether the stream ends |
| EventStream.SkippedLinesInvisible | src/pages/Chat.tsx:79-119 | comment and blank lines anywhere in the reply, under any chunking, change neither the assistant text nor whether the stream ends |
| EventStream.BlockedForever | src/pages/Chat.tsx:113-116 | a complete line that never parses stops decoding for good: no text is added and the stream never ends |
| EventStream.FeedFrames | src/pages/Chat.tsx:79-119 | a reply sent one frame per chunk yields the payloads' deltas in order and ends at `[DONE]` |
| EventStream.WellFormedReply | src/pages/Chat.tsx:79-119 | any chunking of well-formed frames followed by `data: [DONE]` yields exactly the concatenated deltas and ends the stream |
| EventStream.HelloExample | src/pages/Chat.tsx:79-119 | frames carrying "Hel" and "lo", then the terminator, give "Hello" however they are chunked |
| ChatClient.DropLast | src/pages/Chat.tsx:132 | `slice(0, -1)` removes exactly the last message, and leaves the empty list empty |
| ChatClient.ReadLine | src/pages/Chat.tsx:89-97 | the line's handling before the parse is the page's classifier, applied after the "\r" is dropped |
| ChatClient.StreamKeepsEarlierMessages | src/pages/Chat.tsx:31-134 | whatever the network does, a send keeps every message but possibly the last and appends at most the assistant reply |
| ChatClient.FailedStatusKeepsMessages | src/pages/Chat.tsx:47-68 | a failed status or missing body leaves the list unchanged, with the 429 toast exactly for 429, the 402 toast exactly for 402, and the generic one otherwise |
| ChatClient.SuccessAppendsReply | src/pages/Chat.tsx:77-119 | a body read to its end or to `[DONE]` appends exactly one assistant message holding the decoded text, and no toast |
| ChatClient.ReadFailureDropsReply | src/pages/Chat.tsx:120-133 | a read error before `[DONE]` removes the partial reply and shows a connection toast |
| ChatClient.RejectionDropsUserTurn | src/pages/Chat.tsx:120-133 | a rejected `fetch` removes the user's just-added message, and shows the "unable to connect" toast exactly when the error mentions "Failed to fetch" |
| ChatClient.ChunkingInvisible | src/pages/Chat.tsx:79-119 | whether the body ends normally or with a read error, the page's final list and toast do not depend on how the reply was chunked |
| ChatClient.ChatPage.constructor | src/pages/Chat.tsx:16-19 | empty list, empty input, not loading, language "en" |
| ChatClient.ChatPage.SetInput | src/pages/Chat.tsx:249 | the input becomes the typed text and nothing else changes |
| ChatClient.ChatPage.SetLanguage | src/pages/Chat.tsx:171 | the language becomes the chosen one and nothing else changes |
| ChatClient.ChatPage.DrainLines | src/pages/Chat.tsx:84-118 | the inner loop computes `Drain`, and the last message always holds the assistant text so far |
| ChatClient.ChatPage.HandleLine | src/pages/Chat.tsx:86-117 | handling one cut line either stops the loop in exactly the state `Drain` ends in, or leaves the rest of the buffer to drain toward that same end state; the last message holds the text so far |
| ChatClient.ChatPage.HandlePayload | src/pages/Chat.tsx:99-116 | a payload that does not parse puts its line back in front of the buffer and stops the loop with the text unchanged; one that parses continues with its delta, if any, appended to the text, and the last message shows that text |
| ChatClient.ChatPage.ShowReply | src/pages/Chat.tsx:104-111 | the last message is replaced by the assistant's text so far, and nothing else changes |
| ChatClient.ChatPage.ReadReply | src/pages/Chat.tsx:70-119 | after the empty assistant message is appended, the read loop ends in the state `Feed` gives for the chunks, and the last message holds that text |
| ChatClient.ChatPage.StreamChat | src/pages/Chat.tsx:31-134 | the request carries the earlier messages, the user's message and the language; the list and the toasts end as `StreamEffect` says |
| ChatClient.ChatPage.HandleSend | src/pages/Chat.tsx:136-146 | blank input or a send in flight changes nothing; otherwise the input is cleared, the trimmed text is appended as the user's turn, and the result is `StreamEffect` of that list |
| ChatClient.TwoSends | src/pages/Chat.tsx:136-146 | two sends on a fresh page, against a server that always streams a reply, leave user, assistant, user, assistant; each reply is what the server's answer to the conversation so far decodes to |
| ChatRelay.SystemPrompt | supabase/functions/chat/index.ts:14-70 | "sn" and "nd" select their own prompt; every other value, and an absent one, selects English |
| ChatRelay.Translate | supabase/functions/chat/index.ts:88-121 | an ok gateway status streams the body unchanged as 200; 429 and 402 keep their status; every other status becomes 500 with the generic message |
| ChatRelay.Serve | supabase/functions/chat/index.ts:8-134 | every response carries the CORS headers; the status is 200, 402, 429 or 500; the preflight gets no body; a bad body or a missing key gives 500 with the thrown message; otherwise the gateway's answer to the forwarded conversation is translated (2xx streamed, 429 and 402 kept, others 500), and a rejected fetch gives 500 with its message |
| ChatRelay.PreflightIgnoresTheRest | supabase/functions/chat/index.ts:9-11 | the preflight's answer depends on nothing but the method |
| ChatRelay.ForwardsConversation | supabase/functions/chat/index.ts:72-86 | the gateway gets the chosen system prompt, then the client's messages unchanged, with streaming on and the key as bearer token |
| ChatRelay.OnlyThatRequestMatters | supabase/functions/chat/index.ts:72-121 | the answer depends on the gateway only through its answer to that one request |
| ChatRelay.MissingKeyNeverCallsGateway | supabase/functions/chat/index.ts:17-20 | a missing or empty key fails before the gateway is asked |
| ChatRelay.ErrorHidesUpstreamText | supabase/functions/chat/index.ts:107-116 | the gateway's error body never reaches the client |
| Journal.Matching | src/pages/Journal.tsx:74-78 | the search never shows more entries than there are |
| Journal.Filter | src/pages/Journal.tsx:70-81 | a query that trims to nothing shows every entry |
| Journal.FilterAppend | src/pages/Journal.tsx:74-78 | filtering keeps the entries' order: filtering a concatenation filters each part |
| Journal.FilterMembers | src/pages/Journal.tsx:74-78 | for a non-blank query, an entry is shown exactly when it is loaded and its title or content contains the query, ignoring case |
| Journal.SearchIgnoresQueryCase | src/pages/Journal.tsx:74-78 | a query and its lower-cased form show the same entries |
| Journal.QueryIsNotTrimmed | src/pages/Journal.tsx:71-78 | the blank test trims the query but the match does not: " b" finds "a b" and not "b" |
| Journal.SubmissionIsClean | src/pages/Journal.tsx:84-101 | the form is rejected exactly when there is no user or the title or content is all whitespace; what is inserted is trimmed, non-empty and the user's |
| Journal.JournalPage.constructor | src/pages/Journal.tsx:14-22 | empty query and form, closed editor, not saving |
| Journal.JournalPage.SetSearchQuery | src/pages/Journal.tsx:70-81 | typing a query shows `Filter` of the loaded entries |
| Journal.JournalPage.SetTitle | src/pages/Journal.tsx:159 | the title becomes the typed text and nothing else changes |
| Journal.JournalPage.SetContent | src/pages/Journal.tsx:166 | the content becomes the typed text and nothing else changes |
| Journal.JournalPage.SaveEntry | src/pages/Journal.tsx:83-123 | a rejected form only shows "Missing information"; a failed insert shows its message and keeps the form; a success inserts the trimmed entry, clears and closes the form; `saving` ends false |
| Challenges.IsChallengeCompleted | src/pages/Challenges.tsx:117-119 | a challenge is completed exactly when some row of its type has a completion time |
| Challenges.CompletedCount | src/pages/Challenges.tsx:193 | the count never exceeds the number of rows |
| Challenges.FindOpen | src/pages/Challenges.tsx:76 | the first open row of the type, or none when every row of the type is completed |
| Challenges.CountBounds | src/pages/Challenges.tsx:188-193 | the count is 0 exactly when no row is completed, and the row count exactly when all are |
| Challenges.CountComplete | src/pages/Challenges.tsx:79-84 | completing one open row adds one to the count |
| Challenges.ToggleCompletes | src/pages/Challenges.tsx:76-105 | after a toggle the challenge is completed, the count grows by exactly one, and completed rows stay as they were |
| Challenges.ToggleChangesOneRow | src/pages/Challenges.tsx:76-105 | a toggle stamps the first open row of the type and changes nothing else, or, when there is none, appends one completed row |
| Challenges.CountIsNotCapped | src/pages/Challenges.tsx:188-193 | the progress count counts rows, so it can pass the five challenge types |
| Challenges.ChallengeBoard.constructor | src/pages/Challenges.tsx:20-21 | the board starts with the given user and rows and no toasts |
| Challenges.ChallengeBoard.ToggleChallenge | src/pages/Challenges.tsx:72-115 | no user: nothing; a database error: its toast only; otherwise the rows become `Toggled` with the matching toast |
| Challenges.ChallengeBoard.Progress | src/pages/Challenges.tsx:193 | the count of completed rows over the five challenge types, the count never exceeding the rows |
| Affirmations.Table | src/pages/Affirmations.tsx:8-39 | every language's table has eight entries |
| Affirmations.Next | src/pages/Affirmations.tsx:81 | "next" moves one on and wraps from the last entry to the first |
| Affirmations.AdvanceIsRotation | src/pages/Affirmations.tsx:80-82 | pressing "next" k times moves k places round the table |
| Affirmations.FullCycle | src/pages/Affirmations.tsx:80-82 | eight presses come back to the same affirmation |
| Affirmations.AffirmationsPage.constructor | src/pages/Affirmations.tsx:42-43 | English, first affirmation |
| Affirmations.AffirmationsPage.CurrentAffirmation | src/pages/Affirmations.tsx:77-78 | the shown text is the current language's entry at the current position |
| Affirmations.AffirmationsPage.HandleNext | src/pages/Affirmations.tsx:80-82 | the position becomes `Next` of the old one and stays valid |
| Affirmations.AffirmationsPage.SetLanguage | src/pages/Affirmations.tsx:117-139 | switching language keeps the position, which stays valid in the new table |
| EndToEnd.RelayErrorsReachPage | src/pages/Chat.tsx:47-68 | every error response of the relay leaves the page's list unchanged with the toast for its status |
| EndToEnd.GatewayRateLimitReachesPage | supabase/functions/chat/index.ts:89-97 | a gateway 429 ends as the page's "Too many requests" toast |
| EndToEnd.StreamedReplyReachesPage | supabase/functions/chat/index.ts:119-121 | a well-formed gateway stream passes the relay unchanged and becomes exactly one assistant message holding its deltas |

## Left out

- Network, streams and text decoding.
  - `fetch`, `ReadableStream` reads and `TextDecoder` are not modelled. The reply is a
    sequence of text chunks followed by its end or by a read error.
  - Multi-byte characters split across reads are not modelled.
- `JSON.parse` and the `choices?.[0]?.delta?.content` path are a parameter (`parse`): they
  map a payload to an exception or an optional content string. JSON itself is not modelled.
- The body the relay sends upstream is modelled as fields. Its JSON serialization is not.
- Text literals.
  - The relay's system prompts are the `Prompt` tag with their texts in `PromptText`.
  - The affirmations are reached through `Affirmation`.
  - Lemmas reason about the tags, never about the texts.
- Toasts are tags. Their titles and descriptions are not modelled.
- Relay inputs not modelled:
  - A JSON body whose `messages` is not an array is left out. Spreading it throws a runtime
    `TypeError` whose message the runtime decides.
  - A `language` naming an inherited object property, such as "constructor", is left out.
    The model treats every string other than "sn" and "nd" as English.
- `console.log`/`console.error` and the relay's reading of the gateway's error text, which
  is only logged.
- Supabase. The following are not part of this model:
  - authentication and the redirect to the sign-in page;
  - the `user` lookup, treated as an input;
  - the `loadEntries` and `loadChallenges` queries, with their ordering and this-week date
    filter.
  - After a successful insert or update, the page's rows are taken to be the reloaded
    table. `Journal.JournalPage.SaveEntry` records the insert in `table` and leaves
    `entries` to the reload.
- Challenges.ChallengeBoard.ToggleChallenge: the database update addresses a row by its
  `id`. The model addresses it by its position in the loaded rows, which is the same row
  while the loaded list matches the table.
- `new Date().toISOString()` is the parameter `now`, which must be non-empty, as every ISO
  time stamp is.
- React.
  - State updates are applied in program order.
  - Batching of `setState` and the asynchronous interleaving of two sends are not modelled.
    `isLoading` guards the second.
  - Rendering, scrolling, the Enter-key handler and the progress bar's width are left out.
- `toLowerCase` is modelled for the ASCII letters only.
- The mood tracker, home, resources, about and navigation pages are display glue and are
  not part of this model.
