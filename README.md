# my-chat-ui, modelled in Dafny

This project models the rule-bearing core of my-chat-ui. The application is a chat front end for a local Ollama server. It has an Express back end that keeps chat sessions, messages and settings in JSON files, and it offers an OpenAI-compatible endpoint guarded by an API key. Its React client keeps its state in a Zustand store.

Each core source file becomes one Dafny module:

- `Storage` (server/storage/jsonStorage.ts): the JSON-file store as a class `JsonStorage`. It holds three documents: the session list, one message list per session, and the settings record. Each document is missing, unparseable or stored. Every read-modify-write operation is a method that states the whole new state. The store's invariant is that session ids are unique and every session's `messageCount` equals the length of its message list. `AddMessage`, `DeleteSession` and `GetMessages` keep it unconditionally. `CreateSession` keeps it for a fresh id. `UpdateSession` keeps it for a patch that leaves `id` and `messageCount` alone.
- `SessionRoutes`, `ChatRoutes`, `SettingsRoutes`, `OpenAIRoutes` (server/routes/*.ts): the route handlers as methods over a `JsonStorage`. Each states its validation order, its status and error code, and shows that a rejected request writes nothing. The list handler sorts in place with an insertion sort proved to give a permutation ordered by recency. The stream handlers accumulate text. Regenerate scans backwards for the last assistant message. `OpenAIRoutes` builds the server-sent-events framing (section 9.2 of the WHATWG HTML Standard) and proves that the framed stream can be split back into its JSON payloads. `JsonText` models the JSON string escaping the frames depend on.
- `Auth`, `ErrorHandler`, `ApiKey` (server/middleware/*.ts, server/utils/apiKey.ts): the bearer-token decision chain (the header form of section 2.1 of RFC 6750), the error-envelope mapping, and key generation, format, masking and extraction.
- `OllamaService` (server/services/ollamaService.ts): the newline-delimited JSON stream parser as a buffering loop. Its chunks are strings that are already decoded, and the parser is proved to depend only on their concatenation. The module also covers token estimation, the model lookup, the error classification of completions, and the service singleton with its base URL.
- `TitleGenerator` and `ThinkMarkup` (server/utils/titleGenerator.ts): think-block stripping, the four ordered title strategies, the AI title with its fallbacks, and title validation and normalisation. Titles are proved non-empty and at most 30 UTF-16 units long, and normalisation is proved idempotent.
- `ClientStore`, `ClientApi`, `MessageItem` (src/store/index.ts, src/services/api.ts, src/components/chat/MessageItem.tsx): the store as a class `AppStore` with one method per reducer, the request retry loop with its exponential backoff, the error-message choice, and the thinking/answer split of a reply.

Shared records (sessions, messages, settings, models) live in `Types`. `Option` and `Result` live in `Wrappers`. JavaScript string helpers (`trim`, `indexOf`, `substring` and their kin) live in `Text`.

Strings are sequences of `char`, and one `char` stands for one UTF-16 code unit, so lengths agree with JavaScript's `length`. Whitespace is the set that JavaScript's `\s` and `trim` use. A case-insensitive tag match folds ASCII letters only, which is what a non-Unicode JavaScript regular expression does for these tags.

Everything outside the program is a parameter or an oracle: the completion backend and the model listing, `JSON.parse` of a stream line, generated ids, the clock, and random bytes. An HTTP response is the sequence of pieces written to it. Each handler's result says whether the backend was called and with which messages.

Several behaviours of the code differ from what its comments suggest, and the model follows the code:

- Regenerate appends a new assistant message and keeps the old one (`ChatRoutes.Regenerate`).
- Only the first pattern of each list in `parseMessageContent` can ever match, because `<think[^>]*>` also matches `<thinking>` (`MessageItem.OnlyFirstPatternsCount`).
- A think block closed by `</THINK>` counts as unfinished, because the completeness test is case-sensitive while the match is not (`MessageItem.CompleteIffClosedLowerCase`).
- The last line of an Ollama stream is never parsed unless it ends in a newline (`OllamaService.UnterminatedTailIgnored`).
- `total_tokens` can be one less than the sum of the prompt and completion estimates (`OpenAIRoutes.UsageBounds`).
- `addMessage` for an unknown session stores the message while no session changes.
- The session routes answer 404 for an unknown session where storage itself would return an empty list.

## Model

| member | source | states |
|---|---|---|
| ApiKey.Hex | server/utils/apiKey.ts:8 | the hex text of `n` bytes has `2n` characters, all lower-case hex digits |
| ApiKey.DigitValue | server/utils/apiKey.ts:8 | a lower-case hex digit has a value below 16 that encodes back to the same digit |
| ApiKey.Unhex | server/utils/apiKey.ts:8 | decoding hex text gives half as many bytes as characters |
| ApiKey.UnhexHex | server/utils/apiKey.ts:8 | decoding the hex text of some bytes gives those bytes back |
| ApiKey.HexUnhex | server/utils/apiKey.ts:8 | every even-length string of lower-case hex digits is the hex text of the bytes it decodes to |
| ApiKey.GeneratedKeyIsValid | server/utils/apiKey.ts:7-17 | a generated key passes the format check exactly when it was made from 16 random bytes |
| ApiKey.ValidKeyIsGenerated | server/utils/apiKey.ts:7-17 | every key that passes the format check is the key generated from the 16 bytes it encodes |
| ApiKey.KeyBytes | server/utils/apiKey.ts:16 | a well-formed key encodes exactly 16 bytes |
| ApiKey.ValidKeyLength | server/utils/apiKey.ts:16 | a well-formed key is 46 characters long |
| ApiKey.GenerateInjective | server/utils/apiKey.ts:7-10 | different random bytes never give the same key |
| ApiKey.CapturedIsSpacedToken | server/utils/apiKey.ts:25-26 | whatever is captured after the scheme is a non-empty run of whitespace followed by a token with no line terminator, reaching the end |
| ApiKey.SpacedTokenCaptured | server/utils/apiKey.ts:25-26 | whenever some token fits the pattern, one is captured, and it is no longer than that token (the whitespace run is greedy) |
| ApiKey.ExtractBearerTokenCorrect | server/utils/apiKey.ts:22-27 | no header gives no token; a returned token fits `^Bearer\s+(.+)$` case-insensitively and is the shortest that fits; no token is returned only when nothing fits |
| ApiKey.SchemeOfBearer | server/utils/apiKey.ts:25 | `Bearer ` followed by anything matches the scheme case-insensitively |
| ApiKey.BearerTokenExtracted | server/utils/apiKey.ts:22-27 | `Bearer <token>`, with a token that does not start with whitespace and has no line break, yields exactly that token |
| ApiKey.Stars | server/utils/apiKey.ts:37 | `'*'.repeat(n)` is `n` stars |
| ApiKey.MaskApiKey | server/utils/apiKey.ts:32-40 | keys shorter than 12 become `***`; longer keys keep their length, their first 8 and last 4 characters, and every character between becomes `*` |
| ApiKey.MaskIdempotent | server/utils/apiKey.ts:32-40 | masking a masked key changes nothing |
| ApiKey.MaskedKeyIsNotValid | server/utils/apiKey.ts:15-40 | the masked form of a valid key never passes the format check, so a displayed key cannot be used as a credential |
| Auth.AuthenticateApiKey | server/middleware/auth.ts:18-83 | the request proceeds exactly when the bearer token is well formed and equals the stored key, and then carries the token. A missing token, a malformed token, a failing settings read, a missing stored key and a wrong key each get their own 401/500 answer, in the source's order |
| Auth.OnlyStoredKeyPasses | server/middleware/auth.ts:57-71 | a request that proceeds presented, in a well-formed `Bearer` header, the key held in the settings |
| Auth.StoredKeyAccepted | server/middleware/auth.ts:18-71 | `Bearer <stored key>` always proceeds with that key |
| Auth.OptionalApiKeyAuth | server/middleware/auth.ts:88-99 | no (or an empty) header proceeds without a key; any other header is judged as by `authenticateApiKey` |
| ErrorHandler.CreateError | server/middleware/errorHandler.ts:15-26 | the error keeps message and details; status defaults to 500 and code to `INTERNAL_ERROR` |
| ErrorHandler.HandleError | server/middleware/errorHandler.ts:28-73 | the HTTP status equals the envelope status; `ValidationError`, `CastError` and `MongoNetworkError` get their fixed status, code and message; other errors keep a non-zero status (else 500) and a non-empty code (else `INTERNAL_ERROR`); production hides the message of a 500; the stack appears only in development and details only when truthy |
| ErrorHandler.EnvelopeNeverBlank | server/middleware/errorHandler.ts:38-60 | the answered message and code are never empty |
| ErrorHandler.CreatedErrorAnswered | server/middleware/errorHandler.ts:24-73 | an error made by `createError` with defaults is answered with 500, `INTERNAL_ERROR`, and its message except in production |
| ErrorHandler.AppErrorPassesThrough | server/middleware/errorHandler.ts:28-73 | an application error with an explicit non-500 status, code and message is answered with exactly those |
| Storage.ReadOr | server/storage/jsonStorage.ts:36-45 | a readable document gives its contents; a missing or unparseable one gives the default |
| Storage.DefaultSettings | server/storage/jsonStorage.ts:163-170 | default model `llama3.2`, temperature 0.7, 2048 tokens and endpoint `http://localhost:11434` unless the environment names others; theme `auto`; no key |
| Storage.Merge | server/storage/jsonStorage.ts:93-97 | every field the patch carries replaces the session's, the others stay, and `updatedAt` becomes now |
| Storage.TitlePatch | server/routes/sessions.ts:163-164 | a patch that sets the title and touches neither the id nor the message count |
| Storage.Override | server/storage/jsonStorage.ts:175-177 | every setting the patch carries replaces the stored one, every other stays |
| Storage.OverrideIdempotent | server/storage/jsonStorage.ts:175-177 | applying the same settings patch twice is applying it once |
| Storage.OverrideNothing | server/storage/jsonStorage.ts:175-177 | an empty patch leaves the settings as they are |
| Storage.FindIndex | server/storage/jsonStorage.ts:87 | `findIndex`: -1 exactly when no session has the id, otherwise the first index holding it |
| Storage.RemoveAt | server/storage/jsonStorage.ts:113 | `splice(i, 1)`: one element shorter, the elements before `i` unchanged and those after moved down by one |
| Storage.OnlyIndex | server/storage/jsonStorage.ts:87 | with unique ids, the index of a session holding an id is the index found for it |
| Storage.AppendKeepsValid | server/storage/jsonStorage.ts:57-74 | appending a session with a fresh id and a matching count keeps ids unique and counts matching the message files |
| Storage.RemoveKeepsValid | server/storage/jsonStorage.ts:105-121 | removing a session together with its messages keeps ids unique and counts matching, and leaves no session with that id |
| Storage.ReadBackKeepsCounts | server/storage/jsonStorage.ts:36-45 | writing back the default of an unreadable message file leaves every count matching |
| Storage.RecountKeepsValid | server/storage/jsonStorage.ts:124-144 | storing a session's new messages and setting its count to their number keeps the store consistent |
| Storage.ReplaceKeepsValid | server/storage/jsonStorage.ts:85-103 | replacing a session by one with the same id and count keeps the store consistent |
| Storage.JsonStorage.constructor | server/storage/jsonStorage.ts:18-25 | the store starts from the given documents and environment |
| Storage.JsonStorage.GetSessions | server/storage/jsonStorage.ts:81-83 | the stored sessions (none when the file is missing or unreadable, which is then written back empty); nothing else changes |
| Storage.JsonStorage.GetSession | server/storage/jsonStorage.ts:76-79 | none exactly when no session has the id, otherwise the first one with it |
| Storage.JsonStorage.CreateSession | server/storage/jsonStorage.ts:57-74 | the new session has the given title, model and id, both timestamps now and no messages, and is appended; a fresh id keeps the store consistent |
| Storage.JsonStorage.UpdateSession | server/storage/jsonStorage.ts:85-103 | an unknown id changes nothing and yields none; otherwise that session alone is replaced by the merge, which is returned; a patch that leaves id and count alone keeps the store consistent |
| Storage.JsonStorage.DeleteSession | server/storage/jsonStorage.ts:105-121 | true exactly when the id was found; then that session and its message file are gone, and the store stays consistent |
| Storage.JsonStorage.GetMessages | server/storage/jsonStorage.ts:146-149 | the session's stored messages, none when the file is missing or unreadable (then written back empty) |
| Storage.JsonStorage.DeleteMessages | server/storage/jsonStorage.ts:151-160 | always true; the message file is gone |
| Storage.JsonStorage.AddMessage | server/storage/jsonStorage.ts:124-144 | the message is appended to its session's file; the session, when it exists, gets the new count and `updatedAt`; the store stays consistent |
| Storage.JsonStorage.GetSettings | server/storage/jsonStorage.ts:163-173 | the stored settings, or the defaults (written back) when the file is missing or unreadable |
| Storage.JsonStorage.UpdateSettings | server/storage/jsonStorage.ts:175-183 | the current settings overridden by the patch are stored and returned |
| SessionRoutes.SortByRecency | server/routes/sessions.ts:16 | the sessions end up ordered most recently updated first and are a permutation of those read |
| SessionRoutes.InsertLeft | server/routes/sessions.ts:16 | one insertion step extends the ordered prefix by one element and keeps the multiset of sessions |
| SessionRoutes.Swap | server/routes/sessions.ts:16 | exchanging two neighbours changes only those two places and keeps the multiset |
| SessionRoutes.ListSessions | server/routes/sessions.ts:11-25 | the listing holds exactly the stored sessions, most recent first, and `total` is their number; the store is unchanged |
| SessionRoutes.CreateSession | server/routes/sessions.ts:28-51 | a new empty session is appended, with the given model or else the default model, and the given title or else `New Chat <date>` |
| SessionRoutes.GetSession | server/routes/sessions.ts:54-68 | the first session with the id, or `SESSION_NOT_FOUND` (404) |
| SessionRoutes.UpdateSession | server/routes/sessions.ts:71-93 | a body with neither title nor model is refused with 400 before storage is touched; otherwise an unknown id is 404 and a known one is merged and returned |
| SessionRoutes.DeleteSession | server/routes/sessions.ts:96-115 | an unknown id is 404 and changes nothing; a known one removes the session and its messages |
| SessionRoutes.GetSessionMessages | server/routes/sessions.ts:118-138 | an unknown session is 404, a known one answers with its stored messages |
| SessionRoutes.SetTitle | server/routes/sessions.ts:141-176 | a missing, empty or non-string title is 400 `INVALID_REQUEST`; a title `validateTitle` rejects is 400 `INVALID_TITLE` with its message; both leave the store untouched; otherwise an unknown session is 404 and a known one gets the normalised title |
| ThinkMarkup.IndexOf | server/utils/titleGenerator.ts:10 | the first position (used for the `>` closing `[^>]*>`) from `from` on holding the character, or -1 when there is none |
| ThinkMarkup.IndexOfCI | server/utils/titleGenerator.ts:10 | the first position from `from` on where the tag starts, ignoring ASCII case, or -1 (the lazy `[\s\S]*?<\/think>` stops there) |
| ThinkMarkup.OpenTagEnd | server/utils/titleGenerator.ts:10 | when `<think[^>]*>` matches at `i`, it ends just after a `>` beyond the name |
| ThinkMarkup.OpenTagInInfix | server/utils/titleGenerator.ts:13 | an opening tag inside a slice of a text is an opening tag of the text |
| ThinkMarkup.FirstOpenTag | server/utils/titleGenerator.ts:13 | the leftmost opening tag from `from` on, or -1 when there is none |
| ThinkMarkup.CutUnclosed | server/utils/titleGenerator.ts:13 | the text is kept whole, or cut just before an opening tag |
| ThinkMarkup.CutLeavesNoOpenTag | server/utils/titleGenerator.ts:12-13 | after the unterminated block is cut, no opening tag is left anywhere |
| ThinkMarkup.StripLeavesNoOpenTag | server/utils/titleGenerator.ts:105-115 | the cleaned text holds no `<think…>` opening tag at any position |
| ThinkMarkup.TrimmedCutLeavesNoOpenTag | server/utils/titleGenerator.ts:12-16 | cutting and then trimming leaves no opening tag |
| ThinkMarkup.TrimAddsNoOpenTag | server/utils/titleGenerator.ts:16 | trimming a text without opening tags creates none |
| TitleGenerator.Shorten | server/utils/titleGenerator.ts:125 | `s.length <= max ? s : s.substring(0, keep) + '...'` is at most `max` long and empty only for an empty text |
| TitleGenerator.IncludesInfix | server/utils/titleGenerator.ts:138 | a text found in a slice is found in the whole |
| TitleGenerator.FragmentInfix | server/utils/titleGenerator.ts:138 | a fragment (a slice, or a slice followed by `...`) of a slice is a fragment of the whole |
| TitleGenerator.ShortenIsFragment | server/utils/titleGenerator.ts:125 | shortening yields a fragment of the text |
| TitleGenerator.TrimIsFragment | server/utils/titleGenerator.ts:115 | the trimmed text is a slice of the text |
| TitleGenerator.FragmentOfTrim | server/utils/titleGenerator.ts:115 | a fragment of the trimmed text is a fragment of the text |
| TitleGenerator.LeadingAlternative | server/utils/titleGenerator.ts:130-132 | the first of the alternatives the text starts with, and none of the earlier ones matches |
| TitleGenerator.LineEnd | server/utils/titleGenerator.ts:130-132 | `(.*)` stops at the first line terminator: the captured slice has none and the next character is one |
| TitleGenerator.ActionTitle | server/utils/titleGenerator.ts:129-150 | a title taken from an action phrase is 1 to 30 characters and a fragment of the cleaned message |
| TitleGenerator.SentenceEnd | server/utils/titleGenerator.ts:153 | the first sentence-ending mark (`。！？.!?`) from `from` on, or -1 |
| TitleGenerator.BreakCut | server/utils/titleGenerator.ts:164-174 | the cut is after position 10 and at most 27, and below 27 only at one of the break characters |
| TitleGenerator.TitleFromMessage | server/utils/titleGenerator.ts:104-177 | the fallback title is never empty and never longer than 30 characters |
| TitleGenerator.TitleOfText | server/utils/titleGenerator.ts:117-177 | the title of a cleaned text is 1 to 30 characters |
| TitleGenerator.TitleIsDrawnFromMessage | server/utils/titleGenerator.ts:104-177 | a message that cleans to nothing is titled `新对话`; any other title is a fragment of the cleaned message |
| TitleGenerator.TextTitleIsDrawn | server/utils/titleGenerator.ts:117-177 | the same, for a text already cleaned |
| TitleGenerator.QuestionTitle | server/utils/titleGenerator.ts:124-126 | a question is its own title, cut to 27 characters plus `...` when longer than 30 |
| TitleGenerator.ShortPlainTitle | server/utils/titleGenerator.ts:159-162 | a short message with no question, no action phrase and no inner sentence end is its own title |
| TitleGenerator.GenerateTitleFromMessage | server/utils/titleGenerator.ts:104-177 | the loops over patterns and break points compute the fallback title |
| TitleGenerator.MatchActionPatterns | server/utils/titleGenerator.ts:135-150 | the loop over the action patterns returns the first usable extraction |
| TitleGenerator.CutAtBreak | server/utils/titleGenerator.ts:164-176 | the loop over the break points cuts at the first break point found after position 10 |
| TitleGenerator.StripReplyPrefix | server/utils/titleGenerator.ts:55 | removing a leading `标题：`, `Title:` (with following spaces), `答：` or `回答：` leaves a suffix |
| TitleGenerator.StripQuotes | server/utils/titleGenerator.ts:58 | at most one quote is removed at each end, and a text is kept whole only when it neither starts nor ends with a quote |
| TitleGenerator.FirstLine | server/utils/titleGenerator.ts:61 | the text up to the first newline |
| TitleGenerator.BoundAiTitle | server/utils/titleGenerator.ts:69-83 | a title of at most 30 characters is kept; a longer one becomes 14 to 30 characters ending in `...` after a prefix of it |
| TitleGenerator.AiTitleOr | server/utils/titleGenerator.ts:63-93 | an empty answer falls back, an answer of 3 to 30 characters is kept, and whatever is returned is the fallback or 3 to 30 characters |
| TitleGenerator.TitleWithAI | server/utils/titleGenerator.ts:4-99 | a message that cleans to nothing, or a failing completion, gives the fallback title; any title is 1 to 30 characters, and one not from the fallback is at least 3 |
| TitleGenerator.CleanAnswerKept | server/utils/titleGenerator.ts:36-93 | when the model's cleaned answer is 3 to 30 characters, it is the title |
| TitleGenerator.GenerateTitleWithAI | server/utils/titleGenerator.ts:4-99 | the method computes the AI title |
| TitleGenerator.BoundOrFallBack | server/utils/titleGenerator.ts:63-93 | the break-point loop and the checks around it give the bounded title or the fallback |
| TitleGenerator.ValidateTitle | server/utils/titleGenerator.ts:182-194 | accepted exactly when the trimmed title is non-empty and at most 100 characters; otherwise the matching message |
| TitleGenerator.CollapseSpaces | server/utils/titleGenerator.ts:200 | replacing whitespace runs by one space never lengthens the text, keeps it empty only when it was, and keeps whether it starts with whitespace |
| TitleGenerator.CollapseIsCollapsed | server/utils/titleGenerator.ts:200 | afterwards every whitespace character is a plain space and no two are adjacent |
| TitleGenerator.TrimStartLast | server/utils/titleGenerator.ts:200 | trimming the front keeps the last character, unless everything was whitespace |
| TitleGenerator.CollapseLast | server/utils/titleGenerator.ts:200 | collapsing keeps whether the text ends with whitespace |
| TitleGenerator.NormalizeTitleIsNormal | server/utils/titleGenerator.ts:199-201 | a normalised title has no whitespace at either end and only single plain spaces inside |
| TitleGenerator.CollapseFixpoint | server/utils/titleGenerator.ts:200 | collapsing an already collapsed text changes nothing |
| TitleGenerator.NormalIffFixed | server/utils/titleGenerator.ts:199-201 | a title is normal exactly when normalising leaves it unchanged |
| TitleGenerator.NormalizeIdempotent | server/utils/titleGenerator.ts:199-201 | normalising twice is normalising once |
| OllamaService.MessagesToOllamaFormat | server/services/ollamaService.ts:120-125 | one backend message per stored message, in order, with the same role and content |
| OllamaService.GenerateCompletion | server/services/ollamaService.ts:130-172 | success exactly when the backend replies with non-empty content, which is returned; a 404 names the missing model, a 400 is an invalid request, a refused connection says the service is not running, an empty reply and every other failure are `Failed to generate completion: …` |
| OllamaService.GetModels | server/services/ollamaService.ts:87-102 | one available model per listed backend model, with its name as id and name; a failed listing fails with the fixed message |
| OllamaService.IsModelAvailable | server/services/ollamaService.ts:107-115 | true exactly when the listing succeeds and names the model |
| OllamaService.EstimateTokens | server/services/ollamaService.ts:253-256 | `ceil(length / 4)`: the least count whose four-fold covers the text, zero only for the empty text |
| OllamaService.EstimateMonotone | server/services/ollamaService.ts:253-256 | a longer text never gets a smaller estimate |
| OllamaService.SplitLines | server/services/ollamaService.ts:227 | `split('\n')` gives at least one piece and the last piece holds no newline |
| OllamaService.Prepend | server/services/ollamaService.ts:227 | a character put in front of the first piece keeps the number of pieces and changes the last piece only when it is also the first |
| OllamaService.Remainder | server/services/ollamaService.ts:228 | what stays in the buffer holds no newline |
| OllamaService.SplitJoin | server/services/ollamaService.ts:227 | joining the pieces with newlines gives the text back |
| OllamaService.JoinPrepend | server/services/ollamaService.ts:227 | a character put in front of the first piece comes first in the joined text |
| OllamaService.JoinConsChar | server/services/ollamaService.ts:227 | the same for two or more pieces |
| OllamaService.JoinConsSep | server/services/ollamaService.ts:227 | the same for any separator |
| OllamaService.JoinFront | server/services/ollamaService.ts:227 | joining a first piece with the rest puts the separator between them |
| OllamaService.SplitNoNewline | server/services/ollamaService.ts:227 | a text without newlines is one piece |
| OllamaService.SeamEmptyFront | server/services/ollamaService.ts:227 | splitting of appended texts, when the first starts with a newline |
| OllamaService.SeamPrepend | server/services/ollamaService.ts:227 | splitting of appended texts, when the first starts with another character |
| OllamaService.SplitAppend | server/services/ollamaService.ts:224-227 | splitting two appended texts is splitting each and fusing the last piece of the first with the first piece of the second |
| OllamaService.BufferStep | server/services/ollamaService.ts:223-228 | keeping only the unterminated tail in the buffer loses no line: the complete lines of everything read so far are those already handed on followed by those of the buffer plus the new chunk, and the new buffer is the same either way |
| OllamaService.SeamSplit | server/services/ollamaService.ts:224-228 | the complete lines of a fused split are those of the first part followed by those of its last piece fused with the second |
| OllamaService.LineStep | server/services/ollamaService.ts:230-245 | handling one line never yields empty content |
| OllamaService.ProcessLines | server/services/ollamaService.ts:230-246 | no yielded content is ever empty |
| OllamaService.StepFollowed | server/services/ollamaService.ts:230-245 | one line's handling composes with whatever follows it |
| OllamaService.ProcessAppend | server/services/ollamaService.ts:230-246 | handling two runs of lines is handling the first and then, unless it hit `done`, the second |
| OllamaService.StoppedPrefix | server/services/ollamaService.ts:239-241 | once a `done` line is handled, later lines change nothing |
| OllamaService.ConcatAppend | server/services/ollamaService.ts:224 | the text of two runs of chunks is the text of each, one after the other |
| OllamaService.LinesOfPrefix | server/services/ollamaService.ts:223-228 | the complete lines of a prefix of the chunks are a prefix of those of all chunks |
| OllamaService.StreamIsIncremental | server/services/ollamaService.ts:220-248 | the contents yielded after some chunks are a prefix of those yielded after all; once stopped, further chunks change nothing |
| OllamaService.UnterminatedTailIgnored | server/services/ollamaService.ts:228 | a last chunk without a newline yields nothing: the unterminated line left in the buffer at the end is never parsed |
| OllamaService.ProcessSnoc | server/services/ollamaService.ts:230-246 | handling lines plus one more is handling the lines and then that line |
| OllamaService.HandleLine | server/services/ollamaService.ts:231-244 | a blank or unparseable line yields nothing; a parsed line yields its content when non-empty and reports whether it says `done` |
| OllamaService.ProcessCompleteLines | server/services/ollamaService.ts:230-246 | the loop over lines computes the specified outcome |
| OllamaService.ParseStreamResponse | server/services/ollamaService.ts:220-248 | the loop over chunks with its buffer yields exactly what parsing the complete lines of the whole text yields |
| OllamaService.GenerateStream | server/services/ollamaService.ts:177-215 | success exactly when the stream opens, and then yields the parsed stream; a 404 names the model, a refused connection says the service is not running, other failures are `Failed to generate stream: …` |
| OllamaService.InitialBaseUrl | server/services/ollamaService.ts:17-20 | the given URL, else the environment's, else `http://localhost:11434`; never empty |
| OllamaService.Service.constructor | server/services/ollamaService.ts:17-20 | the service starts at the initial base URL |
| OllamaService.Service.UpdateBaseUrl | server/services/ollamaService.ts:34-38 | the base URL becomes the new one |
| OllamaService.Service.GetBaseUrl | server/services/ollamaService.ts:41-43 | the current base URL |
| OllamaService.Registry.constructor | server/services/ollamaService.ts:271 | no instance exists yet |
| OllamaService.Registry.GetOllamaService | server/services/ollamaService.ts:273-281 | the first call creates the one instance; later calls return it, moving it to a non-empty URL that is given |
| OllamaService.Registry.CreateOllamaService | server/services/ollamaService.ts:283-286 | a new instance replaces the old one |
| OllamaService.Registry.GetOllamaServiceWithSettings | server/services/ollamaService.ts:289-299 | the instance ends at the stored endpoint when settings can be read, otherwise at its old or the default URL |
| ChatRoutes.AutoTitled | server/routes/chat.ts:25-35 | only the session with the id changes: it keeps its id, model, count and creation time, gets a title of 1 to 30 characters and is stamped now |
| ChatRoutes.AutoGenerateTitle | server/routes/chat.ts:12-44 | the title is regenerated exactly when the session's messages hold one user message; the messages are read (and written back) but not changed; the store stays consistent |
| ChatRoutes.Retitle | server/routes/chat.ts:25-35 | a found session gets the AI title; an unknown one is left alone |
| ChatRoutes.Admit | server/routes/chat.ts:53-71 | blank content is 400, an unknown session 404, an unavailable model 400 `MODEL_NOT_AVAILABLE`, in that order; otherwise the session is returned; nothing is stored |
| ChatRoutes.SendMessage | server/routes/chat.ts:47-127 | blank content is 400 `INVALID_REQUEST`, an unknown session 404, an unavailable model 400 `MODEL_NOT_AVAILABLE`, and a rejected request changes nothing. An admitted one stores the trimmed user message, with the session's count, `updatedAt` and first-message title updated. It asks the backend with the history including that message and the stored temperature and token limit. It then stores and returns the answer with its token estimate, or fails with 500 `AI_GENERATION_FAILED` keeping the user message. Other sessions' message files and the settings stay as they were, and the store stays consistent |
| ChatRoutes.StoreUserTurn | server/routes/chat.ts:73-84 | the user message is appended to the session's file, the session's count and `updatedAt` follow it, and a first user message retitles the session; the conversation read back ends with that message |
| ChatRoutes.FinishAnswer | server/routes/chat.ts:100-126 | an answer is appended as the assistant's message with its token estimate, and the session's count and `updatedAt` follow; a failure is 500 `AI_GENERATION_FAILED` and changes nothing |
| ChatRoutes.AnswerTurn | server/routes/chat.ts:73-127 | the admitted part of a send: the whole new session list and message files, and the reply, in terms of the backend's answer to the history |
| ChatRoutes.RelayChunks | server/routes/chat.ts:193-203 | every chunk is written as it comes and the full response is their concatenation |
| ChatRoutes.SendStreamMessage | server/routes/chat.ts:130-224 | the same three rejections as a plain send, in the same order, and a rejected request changes nothing. An admitted one stores the user message, with the session's count, `updatedAt` and first-message title updated, and answers 200. An opened stream is written chunk by chunk and stored whole as the assistant's message. A stream that fails to open writes `Error: <message>` and stores nothing more. Other sessions' message files and the settings stay as they were |
| ChatRoutes.FinishStream | server/routes/chat.ts:193-223 | an opened stream's chunks are written and their concatenation is stored, with the session's count and `updatedAt` following; a failed one writes `Error: <message>` and changes nothing |
| ChatRoutes.StreamTurn | server/routes/chat.ts:156-223 | the admitted part of a streamed send: the whole new session list and message files, and what is written, in terms of the stream's outcome |
| ChatRoutes.JsSlice | server/routes/chat.ts:243 | `slice(start, end)` is never longer than the list and, for in-range bounds, is the elements from `start` up to `end` (clamped) |
| ChatRoutes.GetHistory | server/routes/chat.ts:227-255 | an unknown session is 404; otherwise the page `slice(offset, offset + limit)` (defaults 0 and 50) of all messages, with their total. Sessions, settings and every session's messages stay as they were; only a missing message file is written back as empty |
| ChatRoutes.LastAssistant | server/routes/chat.ts:276-282 | the index of the last assistant message, or -1 when there is none |
| ChatRoutes.LastAssistantIndex | server/routes/chat.ts:276-282 | the backwards loop finds that index |
| ChatRoutes.Regenerate | server/routes/chat.ts:258-331 | unknown session 404, no messages 400 `NO_MESSAGES`, no assistant message 400 `NO_AI_MESSAGE`. Otherwise the backend is asked with the messages before the last assistant message, and the answer is appended while the old one is kept, with the session's count and `updatedAt` following. Or the request fails with 500 and the session list and messages stay as they were. Other sessions' message files and the settings never change |
| ChatRoutes.AnswerAgain | server/routes/chat.ts:289-330 | the backend's answer to the context is appended and counted; a failure is 500 `AI_GENERATION_FAILED` and changes nothing |
| SettingsRoutes.CheckSettingsBody | server/routes/settings.ts:54-101 | the body is accepted exactly when each field present is valid (temperature a number in 0..1, token limit a number in 1..8192, theme light/dark/auto, endpoint a non-blank string), the first invalid field in source order names the error, and an accepted body becomes a patch carrying exactly the fields present |
| SettingsRoutes.AcceptedBodyInBounds | server/routes/settings.ts:54-104 | settings updated from an accepted body have their temperature, token limit and endpoint within the checked bounds |
| SettingsRoutes.GetSettings | server/routes/settings.ts:26-46 | the current settings, unchanged |
| SettingsRoutes.PatchSettings | server/routes/settings.ts:49-123 | a rejected body changes nothing; an accepted one overrides the stored settings and returns them |
| SettingsRoutes.Issue | server/routes/settings.ts:126-163 | the generated key is stored with its creation time and returned in full, masked, and inside the masked settings |
| SettingsRoutes.GenerateKey | server/routes/settings.ts:126-163 | the stored key is the returned key; with 16 random bytes it is well formed, and the settings shown carry its masked form, which is not a usable key |
| SettingsRoutes.RefreshKey | server/routes/settings.ts:166-215 | without a stored key the answer is 400 `NO_API_KEY` and nothing changes; otherwise a fresh key replaces the old one |
| SettingsRoutes.RevokeKey | server/routes/settings.ts:218-248 | the key and its creation time are removed, every other setting stays |
| JsonText.EscapeChar | server/routes/openai.ts:118 | the `JSON.stringify` escape of one character is non-empty and holds no line break |
| JsonText.EscapeOneLine | server/routes/openai.ts:118 | an escaped string holds no line break |
| JsonText.QuoteOneLine | server/routes/openai.ts:118 | a quoted string holds no line break, so it cannot end an event-stream frame early |
| JsonText.OneLineAppend | server/routes/openai.ts:118 | two texts without line breaks give one without |
| JsonText.HexValue | server/routes/openai.ts:118 | a hex digit has a value below 16 |
| JsonText.HexDigitValue | server/routes/openai.ts:118 | the digit written for a value reads back as that value |
| JsonText.UnescapeStep | server/routes/openai.ts:118 | reading back one escaped character gives the character, followed by the rest read back |
| JsonText.UnicodeEscapeStep | server/routes/openai.ts:118 | a control character written as `\u00XX` reads back as itself |
| JsonText.UnescapeEscape | server/routes/openai.ts:118 | reading back an escaped string gives the string: the escaping loses nothing |
| OpenAIRoutes.ConvertOpenAIMessages | server/routes/openai.ts:20-28 | one stored message per request message, in order, keeping role and content, with session `temp`, a fresh id and the current time |
| OpenAIRoutes.ConversationReachesBackend | server/routes/openai.ts:20-28 | the backend receives exactly the roles and contents of the request's messages, in order |
| OpenAIRoutes.CheckRequest | server/routes/openai.ts:36-72 | the request goes ahead exactly when it names a model, has a non-empty message list and the model is available; otherwise 400 for a missing model, 400 for missing messages, 404 for an unknown model, in that order |
| OpenAIRoutes.UsageBounds | server/routes/openai.ts:178-186 | prompt and completion estimates never exceed the total, and the total is the sum of the two or one less (each is a separate rounded-up estimate) |
| OpenAIRoutes.CompleteOnce | server/routes/openai.ts:155-205 | a successful completion answers with the reply, the model, the creation second and the usage; a failure answers 500 `server_error` with its message |
| OpenAIRoutes.Frames | server/routes/openai.ts:118 | one `data: …` frame per payload, in order |
| OpenAIRoutes.WritePieces | server/routes/openai.ts:101-120 | the loop writes one chunk frame per piece; only the first carries the `assistant` role |
| OpenAIRoutes.WriteChunks | server/routes/openai.ts:101-137 | what is written is the frames of the pieces, then the `stop` chunk, then `[DONE]` |
| OpenAIRoutes.ErrorFrames | server/routes/openai.ts:141-151 | a failing stream writes a single error frame and no `[DONE]` |
| OpenAIRoutes.PayloadsOfPieces | server/routes/openai.ts:101-136 | the payloads of an opened stream are one chunk per piece, the final chunk and `[DONE]` |
| OpenAIRoutes.StreamCompletion | server/routes/openai.ts:78-151 | the streamed answer is the frames of the payloads of the stream's outcome |
| OpenAIRoutes.ChatCompletions | server/routes/openai.ts:31-206 | a refused request gets its refusal; otherwise the answer is streamed or given once, as the request asks |
| OpenAIRoutes.LineBreakAt | server/routes/openai.ts:118 | the first line break from `from` on, or -1 |
| OpenAIRoutes.UnframeStep | server/routes/openai.ts:118 | reading frames back takes the first frame's payload and then reads the rest |
| OpenAIRoutes.UnframeFrames | server/routes/openai.ts:118 | payloads without line breaks are read back exactly from their frames |
| OpenAIRoutes.DigitsOneLine | server/routes/openai.ts:107 | a written number has no line break |
| OpenAIRoutes.DeltaOneLine | server/routes/openai.ts:111-113 | a written delta has no line break |
| OpenAIRoutes.ConcatOneLine | server/routes/openai.ts:118 | pieces without line breaks concatenate to a text without |
| OpenAIRoutes.FixedPartsOneLine | server/routes/openai.ts:104-116 | the fixed parts of a chunk have no line break |
| OpenAIRoutes.ChunkOneLine | server/routes/openai.ts:104-118 | a serialised chunk is one line |
| OpenAIRoutes.ErrorOneLine | server/routes/openai.ts:143-149 | a serialised stream error is one line |
| OpenAIRoutes.StreamIsReadable | server/routes/openai.ts:101-151 | a client splitting the written stream at its blank lines gets back exactly the payloads sent |
| OpenAIRoutes.StreamShape | server/routes/openai.ts:101-151 | an opened stream sends one chunk per piece (the first with the `assistant` role), then the `stop` chunk, then `[DONE]`; a failed one sends only the error and never `[DONE]` |
| OpenAIRoutes.PayloadsOneLine | server/routes/openai.ts:101-151 | every payload sent is one line |
| OpenAIRoutes.ToOpenAIModel | server/routes/openai.ts:217-222 | the listed model keeps its id, is owned by `ollama`, and its `created` second is the floor of its modification time |
| OpenAIRoutes.ListModels | server/routes/openai.ts:209-241 | one listed model per backend model; a failed listing is 503 `service_unavailable` |
| OpenAIRoutes.FindModel | server/routes/openai.ts:250 | the first model with the id, or -1 when none has it |
| OpenAIRoutes.GetModel | server/routes/openai.ts:244-287 | the model is answered exactly when it is available; an unknown one is 404 `model_not_found`, a failed listing 503 |
| ClientApi.FailureMessage | src/services/api.ts:34-37 | a non-empty `error.message` from the reply body is reported as is; otherwise the message is `HTTP <status>: <statusText>`, from which the status and the text can be read back |
| ClientApi.ApiRequest | src/services/api.ts:17-45 | a 2xx reply gives its parsed body; any other status fails with the failure message |
| ClientApi.DigitsValueOfNatToString | src/services/api.ts:36 | the decimal digits of the status read back as the status |
| ClientApi.ColonAt | src/services/api.ts:36 | the first `:` from `from` on, or the end of the text |
| ClientApi.StatusMessageReadBack | src/services/api.ts:36 | the message `HTTP <status>: <text>` names exactly that status and ends with exactly that text |
| ClientApi.NonEmptyKeepsText | src/services/api.ts:133-137 | skipping the empty decoded chunks hands on all the text and never an empty chunk |
| ClientApi.ReceiveStream | src/services/api.ts:96-146 | a refused request fails with `HTTP <status>: <reply text, or status text when empty>`; an unreadable body fails with `Response body is not readable`; otherwise the loop hands on every non-empty decoded chunk, in order |
| ClientApi.Pow2 | src/services/api.ts:217 | `Math.pow(2, i)` is at least 1 |
| ClientApi.Backoff | src/services/api.ts:216-218 | after the `i`-th failure the wait is `delay * 2^i` |
| ClientApi.BackoffTotal | src/services/api.ts:210-220 | the waits after `n` failures add up to `delay * (2^n - 1)` |
| ClientApi.BackoffStep | src/services/api.ts:216-218 | one more failure adds one doubled wait |
| ClientApi.Double | src/services/api.ts:217 | twice `delay * p` is `delay * 2p` |
| ClientApi.RetryRequest | src/services/api.ts:203-223 | at most `maxRetries + 1` attempts (none when negative), each made only after all earlier ones failed; the first success is returned after waiting `delay * 2^i` after each earlier failure; when all fail, the last error is raised (nothing when no attempt was made) after waits following every failure but the last |
| ClientApi.DefaultSchedule | src/services/api.ts:205-206 | with the defaults a request that keeps failing is made 4 times, with waits of 1, 2 and 4 seconds, 7 seconds in all |
| ClientStore.ChooseModel | src/store/index.ts:97-113 | the requested model when given, else the settings' default model, else the first listed model, else `llama3.2`; never empty |
| ClientStore.FirstListedModelAsFallback | src/store/index.ts:97-113 | the first listed model is chosen exactly when nothing earlier in the order applies or the earlier choice happens to name it |
| ClientStore.WithoutId | src/store/index.ts:154 | `filter(s => s.id !== id)` keeps exactly the sessions with another id |
| ClientStore.WithoutAbsentId | src/store/index.ts:154 | filtering out an id no session has changes nothing |
| ClientStore.ReplaceById | src/store/index.ts:172-174 | every session with the id is replaced by the server's copy, every other one is kept in place |
| ClientStore.ReplaceByIdStable | src/store/index.ts:172-174 | replacing twice with the same copy is replacing once, and the other sessions are untouched |
| ClientStore.SameOthers | src/store/index.ts:154 | lists that agree on every session with another id agree once that id is filtered out |
| ClientStore.AppendedToLast | src/store/index.ts:305-323 | a chunk is appended to the last message when it is the assistant's; otherwise the list is unchanged |
| ClientStore.DropLast | src/store/index.ts:252 | `slice(0, -1)` removes the last message of a non-empty list and leaves an empty one empty |
| ClientStore.FallbackSettings | src/store/index.ts:364-378 | the fallback names the first listed model, or `llama3.2` when none is listed |
| ClientStore.FallbackMatchesServerDefaults | src/store/index.ts:366-377 | with no models listed, the fallback settings equal the server's defaults |
| ClientStore.AppStore.constructor | src/store/index.ts:66-76 | the initial state: no sessions, messages, models or settings; sidebar open; nothing loading, streaming or failing |
| ClientStore.AppStore.LoadSessions | src/store/index.ts:79-89 | a successful load replaces the sessions; a failure keeps them and records its message (or the fixed fallback); loading ends either way |
| ClientStore.AppStore.CreateSession | src/store/index.ts:91-136 | the server is asked with the chosen model; a new session goes in front, becomes current and gets an empty message list; a failure changes nothing but the error |
| ClientStore.AppStore.SelectSession | src/store/index.ts:138-142 | the session becomes current and its messages are loaded |
| ClientStore.AppStore.DeleteSession | src/store/index.ts:144-164 | on success the session and its messages go, and the current session is cleared when it was the one deleted; a failure changes nothing but the error |
| ClientStore.AppStore.UpdateSession | src/store/index.ts:166-181 | on success the server's copy replaces the session; a failure records the error |
| ClientStore.AppStore.UpdateSessionTitle | src/store/index.ts:183-195 | the same, without touching the loading flag |
| ClientStore.AppStore.ChangeSessionModel | src/store/index.ts:197-203 | a model change is a session update |
| ClientStore.AppStore.LoadMessages | src/store/index.ts:206-218 | the session's messages become the server's list; a failure records the error |
| ClientStore.AppStore.SendMessage | src/store/index.ts:220-267 | the user's message is shown at once. On success it is replaced by the server's user and assistant messages, the error is cleared, and the sessions are reloaded when it was the first user message; a failed reload leaves its own error. On failure the shown message stays and the error is recorded. Loading ends |
| ClientStore.AppStore.ReceiveReply | src/store/index.ts:246-266 | the server's reply replaces the last shown message by the two it returns; the error is left as it was unless the first-message reload fails, and a failed send records its error |
| ClientStore.AppStore.ShowMessage | src/store/index.ts:238-243 | one message is appended to the session's list, nothing else changes |
| ClientStore.AppStore.ReplaceLast | src/store/index.ts:249-254 | the last message of the session's list is replaced by two |
| ClientStore.AppStore.AppendChunk | src/store/index.ts:305-324 | a chunk extends the session's last message when it is the assistant's |
| ClientStore.AppStore.DeliverChunks | src/store/index.ts:304-325 | after all chunks, the assistant's last message holds their concatenation appended to what it held |
| ClientStore.AppStore.SendStreamMessage | src/store/index.ts:269-342 | the user message and an assistant message holding every received chunk end the session's list, even when the stream fails; a reload is scheduled exactly when it succeeded and was the first user message; streaming ends |
| ClientStore.AppStore.StreamInto | src/store/index.ts:296-325 | the two messages are shown and the assistant's fills with the chunks |
| ClientStore.AppStore.LoadModels | src/store/index.ts:345-353 | a successful load replaces the models; a failure is silent |
| ClientStore.AppStore.LoadSettings | src/store/index.ts:356-380 | the server's settings, or the fallback settings when loading fails |
| ClientStore.AppStore.UpdateSettings | src/store/index.ts:382-389 | the server's updated settings replace the old; a failure records the error |
| ClientStore.AppStore.ReceiveKey | src/store/index.ts:417-453 | an issued key updates the settings and returns key, masked key and creation time; an empty answer returns nothing; a failure records the error |
| ClientStore.AppStore.GenerateApiKey | src/store/index.ts:417-434 | as above, with `Failed to generate API key` |
| ClientStore.AppStore.RefreshApiKey | src/store/index.ts:436-453 | as above, with `Failed to refresh API key` |
| ClientStore.AppStore.RevokeApiKey | src/store/index.ts:455-468 | true exactly when the server answered with settings, which replace the old; a failure records the error |
| ClientStore.AppStore.ToggleSidebar | src/store/index.ts:392-394 | the sidebar flag flips |
| ClientStore.AppStore.SetSidebarOpen | src/store/index.ts:396-398 | the sidebar flag becomes the given value |
| ClientStore.AppStore.SetLoading | src/store/index.ts:400-402 | the loading flag becomes the given value |
| ClientStore.AppStore.SetError | src/store/index.ts:404-406 | the error becomes the given value |
| ClientStore.AppStore.ClearError | src/store/index.ts:408-410 | the error is cleared |
| ClientStore.AppStore.SetSettingsOpen | src/store/index.ts:412-414 | the settings-dialog flag becomes the given value |
| Types.UserCount | src/store/index.ts:227 | the number of user messages is at most the number of messages |
| Types.UserCountSnoc | server/routes/chat.ts:19 | appending a message adds one user message exactly when it is the user's |
| Types.UserCountZero | src/store/index.ts:227 | no user message is counted exactly when no message is the user's |
| MessageItem.FirstTag | src/components/chat/MessageItem.tsx:32-39 | the leftmost position from `from` on where `<name[^>]*>` matches, or -1 when none does |
| MessageItem.Exec | src/components/chat/MessageItem.tsx:38-39 | `exec` finds nothing exactly when no opening tag is left; otherwise the match starts at the leftmost opening tag, its body starts after the tag's first `>`, and ends at the first closing tag (any case) or at the end of the text |
| MessageItem.ReplaceAll | src/components/chat/MessageItem.tsx:45 | the global replace never lengthens the text and leaves a text without matches as it is |
| MessageItem.FirstMatching | src/components/chat/MessageItem.tsx:37-48 | the first pattern, in list order, that matches anywhere in the content, or -1 |
| MessageItem.FirstIncomplete | src/components/chat/MessageItem.tsx:53-66 | the first of the start-anchored patterns that matches at the very start, or -1 |
| MessageItem.ParseMessageContent | src/components/chat/MessageItem.tsx:25-74 | the two loops with their `break`s compute the parse specified by the patterns |
| MessageItem.LongerNameSubsumed | src/components/chat/MessageItem.tsx:32-34 | wherever `<thinking[^>]*>` matches, `<think[^>]*>` matches too |
| MessageItem.FirstTagSubsumed | src/components/chat/MessageItem.tsx:32-34 | a text with a `<thinking…>` tag has a `<think…>` tag |
| MessageItem.OnlyFirstPatternsCount | src/components/chat/MessageItem.tsx:31-66 | only the first pattern of each list can ever be chosen: the `<thinking` patterns are dead code |
| MessageItem.NoTagUnchanged | src/components/chat/MessageItem.tsx:25-74 | content without a `<think…>` tag has no thinking part and is shown whole and untrimmed |
| MessageItem.BlockSplit | src/components/chat/MessageItem.tsx:37-48 | when the first block has a non-blank body, the thinking part is that body trimmed, the answer is the content with every block removed and trimmed, and the block is complete when its matched text contains `</think>` |
| MessageItem.LeadingTagFallback | src/components/chat/MessageItem.tsx:50-67 | when the first pass finds no thinking text and the content starts with a tag, everything after the tag becomes the (incomplete) thinking part and the answer is empty |
| MessageItem.ExactIsCaseless | src/components/chat/MessageItem.tsx:41 | an exact occurrence of a lower-case tag is also a case-insensitive one |
| MessageItem.EndTagPosition | src/components/chat/MessageItem.tsx:41 | inside a match, `</think>` can only be the closing tag that ended it |
| MessageItem.CompleteIffClosedLowerCase | src/components/chat/MessageItem.tsx:32-41 | a block counts as complete exactly when it is closed by `</think>` in lower case: a block closed by `</THINK>` is treated as still running |
| MessageItem.EndTagMarksCompletion | src/components/chat/MessageItem.tsx:41 | the same, for any placed match |
| MessageItem.InfixFromWhole | src/components/chat/MessageItem.tsx:41 | a text ending a slice is contained in it |
| MessageItem.WholeFromInfix | src/components/chat/MessageItem.tsx:41 | an occurrence inside a slice is an occurrence in the whole text |
| MessageItem.IndexOfShift | src/components/chat/MessageItem.tsx:32 | searching past a prefix finds what searching the rest finds, shifted |
| MessageItem.OpenTagShift | src/components/chat/MessageItem.tsx:32 | an opening tag past a prefix is one of the rest, shifted |
| MessageItem.FirstTagShift | src/components/chat/MessageItem.tsx:32 | the first tag past a prefix is the first of the rest, shifted |
| MessageItem.EmptyBlockMatch | src/components/chat/MessageItem.tsx:32-39 | in `<think></think>` followed by an answer, the match is the empty block at the start |
| MessageItem.EmptyBlockSwallowsAnswer | src/components/chat/MessageItem.tsx:50-67 | as written, a reply starting with an empty `<think></think>` block is shown as an unfinished thought holding `</think>` and the answer, with nothing as the answer |
| MessageItem.EmptyCapture | src/components/chat/MessageItem.tsx:42 | the empty block gives an empty thinking text in the first pass |
| MessageItem.ParseContentIntended | src/components/chat/MessageItem.tsx:25-74 | the parse without the misfiring fallback: content without tags is shown whole, content with a tag is split at its first block, and it agrees with the source whenever a thinking text was found |
| MessageItem.EmptyBlockKeepsAnswer | src/components/chat/MessageItem.tsx:37-48 | with the correction, an empty closed block is dropped and the answer is shown, marked complete |
| MessageItem.EmptyBlockRemoved | src/components/chat/MessageItem.tsx:45 | removing the blocks from `<think></think>` plus an answer leaves the answer |

## Left out

- File system access: the documents are in-memory values (`Doc`), and the `fs` calls, directory creation and JSON formatting are not modelled. `JSON.parse` of a stored file is the choice between `Unparseable` and `Stored`.
- Concurrency: the model is sequential. Two requests whose read-modify-write cycles interleave are not modelled.
- HTTP transport: Express requests and responses, headers, `res.flush`, axios, `fetch` and stream readers are out. A response is a status and body value, or the sequence of pieces written. A request body is a record whose absent fields are `None`.
- `TextDecoder`: the client stream reader receives chunks that are already decoded strings.
- GenerateStream: a stream either fails to open or delivers all of its chunks. A read failure in the middle of the stream is not modelled. In the source that error escapes the generator with its raw message, not the `Failed to generate stream: ` one.
- GenerateStream: each chunk is a string that is already decoded. The server decodes each buffer on its own with `chunk.toString()`, so a UTF-8 sequence split across two buffers comes out garbled. The model does not capture that, and its independence of chunk boundaries holds for decoded text only.
- SendStreamMessage: a stream that fails after some chunks is not modelled. In the source, the chunks already written stay, `Error: <raw message>` follows, and no answer is stored.
- StreamCompletion: the same mid-stream failure is not modelled. In the source, the chunk frames already written stay, one error frame follows, and `[DONE]` is not sent.
- Oracles: the completion backend, the model listing, `JSON.parse` of a stream line, uuids, `new Date()`/`Date.now()` and `randomBytes` are parameters. What the backend returns is not modelled.
- Timers: the retry delays of `retryRequest` are returned as a list of values, and nothing waits. The reload `setTimeout` in the store is not modelled.
- Unicode: a `char` is one UTF-16 code unit of a string without surrogate pairs. Strings holding characters outside the Basic Multilingual Plane are not modelled.
- Floating point: temperatures, token counts and `maxTokens` are `real` or integer values compared against the bounds. `parseInt`/`parseFloat` of query strings and environment variables are out. History paging takes `limit` and `offset` as already-parsed integers.
- ClientApi.ApiRequest: an `error.message` that is present but not a string is not modelled; the body's message is a string or absent.
- ClientApi.RetryRequest: `maxRetries` is an integer; a fractional retry count is not modelled.
- The per-endpoint wrappers of src/services/api.ts are left out: `getSessions`, `createSession`, `getSession`, `updateSession`, `deleteSession`, `updateSessionTitle`, `getMessages`, `sendMessage`, `getModels`, `getModelStatus`, `checkModelAvailability`, `getSettings`, `updateSettings`, `generateApiKey`, `refreshApiKey`, `revokeApiKey` and `checkHealth`. Each only passes its path, method and body to `apiRequest`, which is modelled as `ClientApi.ApiRequest`. `sendStreamMessage` is not one of them: its stream reading is modelled as `ClientApi.ReceiveStream`. `isApiError` is left out too.
- SortByRecency: the order among sessions with equal `updatedAt` is not stated. The source's `Array.prototype.sort` is stable, so such sessions keep their stored order. The insertion sort moves a session only past strictly older ones, but its contract says only that the result is ordered and a permutation.
- server/routes/models.ts, the health checks (`checkHealth`, `getServiceInfo`, `isHealthy`) and `ensureDirectories` are left out: they are thin wrappers over the transport.
- Logging through server/utils/logger.ts and `console` is left out. So is `asyncHandler`, which only forwards a rejected promise to the error handler.
- The React components and their rendering are left out, MessageItem's markup included. Only `parseMessageContent` is modelled.
- General regular expressions: only the specific tag, prefix and bearer grammars the code uses are modelled.
- Server wiring (server/app.ts, server/index.ts, server/routes/index.ts, server/storage/index.ts), rate limiting and signal handling are not part of this model.

## Findings

| source | as written | input that shows it | evidently intended | confidence | as-written member | corrected member |
|---|---|---|---|---|---|---|
| src/components/chat/MessageItem.tsx:50-67 | the start-of-text fallback runs whenever the captured thinking text is empty, including when a closed think block was found | `"<think></think>"` followed by an answer without tags: the answer is shown as an unfinished thought that starts with `</think>`, and the visible answer is empty | the fallback serves only replies without a complete think block, so an empty closed block is dropped and the answer is shown | not executed | MessageItem.EmptyBlockSwallowsAnswer | MessageItem.ParseContentIntended, MessageItem.EmptyBlockKeepsAnswer |
