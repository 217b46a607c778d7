# Assistant core: message router, task list, chat store, speech, search and language-model adapters

This project models, in Dafny, the sequential core of a browser-based voice assistant:

- **Router** (`router.dfy`). `processMessage` classifies a message by case-insensitive substring tests; the first match wins. It then either manages an in-memory task list that lives for the whole session (add, list, complete by number or by name) or returns a canned reply (greeting, well-being, weather, time, name, help, default). `MessageProcessor` keeps the task list in a field. `ProcessMessage` is its method; each task branch is a method of its own.
- **Chat store** (`chat_store.dfy`). An append-only message log that can be cleared, plus the current conversation id. The class `Store` has one method per store action.
- **Speech** (`speech.dfy`). The preferred-voice rule is a pure function. The controller class keeps the speaking and muted flags, the current utterance, the preferred voice and a log of the calls made on the platform engine. Its methods are `speak`, `stopSpeaking` and `toggleMute`, plus the engine's start, end and error callbacks as events.
- **Search** (`search.dfy`). The configuration check and the shaping of the search service's answer are functions. Formatting the results is a loop-based method, proved against a specification function.
- **Language-model adapter** (`openai.dfy`). Resolving the API key, building the chat-completion request, interpreting the answer and the whole `askOpenAI` are functions. The key stored in local storage is a class over a map.
- `strings.dfy` and `sequences.dfy` hold the JavaScript string and array operations these rely on: `toLowerCase`, `includes`, the first case-insensitive match of a two-way alternation, `trim`, `parseInt`, number rendering, `find` and `join`.

The clock, ids and the time text a call needs are parameters (`Router.Environment`). The HTTP services are function parameters (`server`), so "no request is made" becomes "the result does not depend on the server". The speech platform is a sink that receives `cancel` and `speak` calls.

The router answers with canned text and never calls the language-model or search adapters. The chat store has no history window and no deletion. Web search uses one Google custom-search service. `searchGoogle` keeps the first three results, and `formatSearchResults` renders every result it is given.

## Model

| member | source | states |
|---|---|---|
| Strings.ToLower | src/hooks/use-process-message.ts:27 | same length, every ASCII capital lowered, every other character kept |
| Strings.Contains | src/hooks/use-process-message.ts:30 | `includes`: the pattern fits in the text from some position on and occurs there (definition; `Strings.ContainsMeansOccurs` relates it to occurrences) |
| Strings.IndexOf | src/hooks/use-process-message.ts:32 | the first-occurrence search the regular expression in `replace` performs for each alternative: the result is an occurrence of the pattern with none earlier; `None` exactly when `includes` is false and the pattern occurs nowhere |
| Strings.ContainsMeansOccurs | src/hooks/use-process-message.ts:69-71 | `includes` holds exactly when the pattern occurs somewhere; the empty pattern is contained in every string |
| Strings.LeftmostMatch | src/hooks/use-process-message.ts:32 | `/p\|q/i`: the leftmost position where either alternative matches the lowered text, `p` preferred at the same position, with the matched length; none exactly when neither occurs |
| Strings.StripFirst | src/hooks/use-process-message.ts:32 | `replace(/p\|q/i, '')`: the first match is cut out, everything before and after it kept; without a match the text is unchanged |
| Strings.TrimStart | src/hooks/use-process-message.ts:32 | the result is a suffix of the input, what was dropped is white space, and it does not start with white space |
| Strings.TrimEnd | src/hooks/use-process-message.ts:32 | the result is a prefix of the input, what was dropped is white space, and it does not end with white space |
| Strings.Trim | src/hooks/use-process-message.ts:32-34 | `trim()`: a slice of the input with only white space outside it, not starting or ending with white space, and empty exactly when the input is all white space |
| Strings.DigitPrefix | src/hooks/use-process-message.ts:62 | the longest run of digits at the start of the text |
| Strings.ParseInt | src/hooks/use-process-message.ts:62 | `parseInt` is `NaN` exactly when, after white space and an optional sign, no digit follows |
| Strings.ParseIntOfNatToString | src/hooks/use-process-message.ts:62 | `parseInt` of a number's decimal digits, followed by any non-digit text, gives back that number |
| Strings.ParseIntOfSignedDigits | src/hooks/use-process-message.ts:62 | `parseInt` of leading white space, an optional `+` or `-`, any number of leading zeros, the digits of `n` and text that does not continue the digits gives `n`, negated after `-` |
| Strings.LeadingZerosValue | src/hooks/use-process-message.ts:62 | leading zeros do not change the value of a digit string |
| Strings.TrimStartSkipsWhite | src/hooks/use-process-message.ts:62 | the white-space skip of `parseInt` drops exactly the white space in front of text that starts with something else |
| Strings.SignedPrefix | src/hooks/use-process-message.ts:62 | before the digits, `parseInt` skips the white space and one sign, and the result is negative exactly after `-` |
| Strings.ParseIntWithoutDigits | src/hooks/use-process-message.ts:62-64 | text without digits, for one the empty identifier, parses to `NaN` |
| Strings.NatToString | src/hooks/use-process-message.ts:55 | a number's rendering is a non-empty digit string without a leading zero |
| Strings.DigitsValueOfNatToString | src/hooks/use-process-message.ts:55 | reading back the rendered digits of `n` gives `n` |
| Strings.DigitPrefixOfDigits | src/hooks/use-process-message.ts:62 | the digit run of digits followed by a non-digit is exactly those digits |
| Sequences.FindFirst | src/hooks/use-process-message.ts:69-71 | `find`: the first element satisfying the test, with none before it; none exactly when no element satisfies it |
| Sequences.Join | src/hooks/use-process-message.ts:54-56 | `join`: the elements in order with the separator between neighbours, nothing for an empty list (definition; `Sequences.JoinSnoc` gives its step) |
| Sequences.JoinSnoc | src/hooks/use-process-message.ts:54-56 | `join`ing one more element adds the separator and that element at the end |
| Router.Classify | src/hooks/use-process-message.ts:27-101 | the `if`/`else if` chain of `includes` tests on the lowered message, in source order (definition; `Router.ClassifyIsFirstMention` states what it means) |
| Router.AddTitle | src/hooks/use-process-message.ts:32 | the message with its first case-insensitive "add task"/"create task" cut out, trimmed |
| Router.CompleteIdentifier | src/hooks/use-process-message.ts:61 | the message with its first case-insensitive "complete task"/"mark task done" cut out, trimmed |
| Router.ClassifyIsFirstMention | src/hooks/use-process-message.ts:27-101 | the branch chosen is the first one, in the order add, list, complete, hello/hi, how are you, weather, time, name, help, whose phrases the lowered message contains; the default exactly when none is contained |
| Router.TaskLines | src/hooks/use-process-message.ts:54-56 | one listing line per task, in list order: the 1-based number, a check mark if completed else an open circle, the title |
| Router.ListReply | src/hooks/use-process-message.ts:54-56 | the list header followed by the task lines joined by newlines |
| Router.CannedReply | src/hooks/use-process-message.ts:82-101 | the fixed answer of each conversational branch, the time answer around the host's rendered time |
| Router.ListingAfterAdd | src/hooks/use-process-message.ts:42-56 | after a task is appended, the listing is the earlier listing plus one last line for it, numbered after the others |
| Router.CompletionTarget | src/hooks/use-process-message.ts:61-77 | `parseInt(identifier)` in 1..n selects that task, ignoring names; otherwise the first task whose lowered title contains the lowered identifier; otherwise none (both directions) |
| Router.CompleteByNumber | src/hooks/use-process-message.ts:62-66 | "complete task k", with k written in digits in 1..n, completes task k whatever the titles say |
| Router.EmptyIdentifierCompletesFirst | src/hooks/use-process-message.ts:68-74 | an empty identifier completes the first task when there is one |
| Router.ExtendsTransitive | src/hooks/use-process-message.ts:13 | tasks only accumulate over a run of messages: each keeps its place and its completion once set |
| Router.MessageProcessor.constructor | src/hooks/use-process-message.ts:13 | the task list starts empty |
| Router.MessageProcessor.ProcessMessage | src/hooks/use-process-message.ts:18-101 | per branch: add appends exactly one uncompleted task with the trimmed title and quotes it, or asks for a title and changes nothing; list changes nothing and replies with the empty-list text or the listing; complete marks exactly the chosen task or replies not-found; every other message changes nothing and gets its canned reply; no branch removes, reorders or un-completes a task |
| Router.MessageProcessor.CreateTask | src/hooks/use-process-message.ts:34-46 | a non-empty title becomes a new last task with `completed` false and the reply quotes it; an empty one leaves the list and asks for a title |
| Router.MessageProcessor.RenderTasks | src/hooks/use-process-message.ts:50-56 | the empty-list invitation when there are no tasks, else the header and the lines; reads only |
| Router.MessageProcessor.MarkComplete | src/hooks/use-process-message.ts:61-79 | only the chosen task's `completed` becomes true and the reply names it; without one nothing changes and the reply is the not-found text |
| ChatStore.Store.constructor | src/stores/chat-store.ts:23-24 | no messages and no conversation id |
| ChatStore.Store.AddMessage | src/stores/chat-store.ts:25-26 | the log becomes the old log plus the message at the end; the earlier prefix and the conversation id are unchanged |
| ChatStore.Store.ClearMessages | src/stores/chat-store.ts:27 | the log becomes empty; the conversation id is unchanged |
| ChatStore.Store.SetConversationId | src/stores/chat-store.ts:28 | exactly the given id is stored; the log is unchanged |
| ChatStore.ClearIsIdempotent | src/stores/chat-store.ts:27 | clearing twice leaves the same state as clearing once |
| Speech.IsFemaleVoice | src/hooks/use-speech.ts:17-23 | the name contains "female" or "woman" as written, or, lowered, "samantha", "lisa" or "google us english female" |
| Speech.IsEnglishVoice | src/hooks/use-speech.ts:26-29 | the language tag contains "en-" or "en_" |
| Speech.SelectVoice | src/hooks/use-speech.ts:14-33 | the first female voice; failing any, the first English one; failing any, the first voice; none exactly for an empty list |
| Speech.Controller.constructor | src/hooks/use-speech.ts:5-8 | not speaking, not muted, no utterance, no voice |
| Speech.Controller.Mount | src/hooks/use-speech.ts:11-38 | with an engine whose voice list is non-empty, the preferred voice is chosen; nothing else changes |
| Speech.Controller.VoicesChanged | src/hooks/use-speech.ts:41 | with an engine, the preferred voice is chosen again from the new list; nothing else changes |
| Speech.Controller.StopSpeaking | src/hooks/use-speech.ts:80-85 | with an engine: one cancel call and not speaking; without one: nothing |
| Speech.Controller.Speak | src/hooks/use-speech.ts:49-78 | muted or without an engine: no call, no new utterance, flags unchanged; otherwise a cancel, then the new utterance of the text in the preferred voice becomes the only current one and is queued, with speaking off until the engine starts it |
| Speech.Controller.ToggleMute | src/hooks/use-speech.ts:87-92 | flips the mute flag; muting while speaking cancels and stops speaking; otherwise the speaking flag and the engine are untouched |
| Speech.Controller.OnStart | src/hooks/use-speech.ts:72 | the start callback, of any queued utterance, sets speaking |
| Speech.Controller.OnEnd | src/hooks/use-speech.ts:73 | the end callback clears speaking |
| Speech.Controller.OnError | src/hooks/use-speech.ts:74 | the error callback clears speaking |
| Speech.SpeakThenSupersede | src/hooks/use-speech.ts:49-85 | speaking "a" and then "b" leaves exactly one current utterance, that of "b"; stopping then leaves nothing playing |
| Speech.ToggleMuteTwice | src/hooks/use-speech.ts:87-92 | toggling mute twice restores the flag |
| Search.IsUnconfigured | src/utils/search-utils.ts:15 | the key or the engine id is empty or still its shipped placeholder |
| Search.TopResults | src/utils/search-utils.ts:36-40 | the first min(3, n) items in order, with title, link and snippet copied |
| Search.SearchWith | src/utils/search-utils.ts:13-46 | unconfigured: the demo message; a failed request, non-ok status or undecodable body: the error message; missing or empty items: not-found quoting the query; otherwise one to three results |
| Search.SearchGoogle | src/utils/search-utils.ts:4-17 | with the shipped placeholder credentials, always the demo message |
| Search.UnconfiguredAsksNothing | src/utils/search-utils.ts:15-17 | unconfigured, the outcome is the same whatever the server would answer: no query is made |
| Search.FormatSearchResults | src/utils/search-utils.ts:48-62 | a message is returned unchanged; results give the header, then `i. title`, newline, snippet, blank line for each result in order, then the accuracy note |
| Search.Entries | src/utils/search-utils.ts:55-57 | one `i. title`, newline, snippet, blank line entry per result, numbered from 1 in order |
| Search.Formatted | src/utils/search-utils.ts:53-59 | the header, the entries, then the accuracy note |
| Search.EmptyFormatsToHeaderAndNote | src/utils/search-utils.ts:53-59 | no results format to exactly the header followed by the note |
| Search.LinksAreIgnored | src/utils/search-utils.ts:53-59 | results that agree on titles and snippets format to the same text, whatever their links |
| Search.EntriesIgnoreLinks | src/utils/search-utils.ts:55-57 | the entries depend only on titles and snippets |
| OpenAI.ResolveKey | src/utils/openai-utils.ts:71-75 | a non-empty explicit key wins, else a non-empty stored key, else the "OpenAI API key is required" error (both directions) |
| OpenAI.BuildRequest | src/utils/openai-utils.ts:78-98 | the system prompt first and the caller's messages after it in order (n+1 entries), the bearer header, the model or `gpt-4o`, and fixed sampling parameters 0.8, 1500, 0.95, 0.6, 0.5 |
| OpenAI.Interpret | src/utils/openai-utils.ts:101-107 | success exactly for an ok answer with a first choice, whose content is returned; a non-ok answer with a JSON body gives the server's `error.message` when present and non-empty, else "Failed to get response from OpenAI"; a body that is not JSON or a failed request is passed on as the thrown error |
| OpenAI.AskOpenAI | src/utils/openai-utils.ts:66-113 | without any key, the key error; otherwise the interpretation of the server's answer to the request built with the key that wins |
| OpenAI.NoKeyNoRequest | src/utils/openai-utils.ts:71-75 | without a key the outcome is the same whatever the server would answer: the error is raised before any request |
| OpenAI.KeyStorage.constructor | src/utils/openai-utils.ts:25-27 | local storage holds exactly the given entries |
| OpenAI.KeyStorage.GetStoredApiKey | src/utils/openai-utils.ts:29-31 | the stored key, or `null` when there is no entry |
| OpenAI.KeyStorage.SaveApiKey | src/utils/openai-utils.ts:33-39 | the key entry becomes the given key; other entries stay |
| OpenAI.KeyStorage.ClearApiKey | src/utils/openai-utils.ts:41-47 | the key entry is removed; other entries stay |
| OpenAI.StorageRoundTrip | src/utils/openai-utils.ts:27-46 | after saving `k` the stored key is `k`; after clearing it is `null` |

## Left out

- Strings.ToLower: lowers ASCII letters only. JavaScript's `toLowerCase` and the regular expression `i` flag apply Unicode case mapping, which can change other letters (and, for a few characters, the length).
- Strings.ParseInt: decimal only; its own contract gives only when the result is `NaN`, and its value is stated by `Strings.ParseIntOfSignedDigits`. The hexadecimal `0x` prefix of `parseInt` is not modelled. Numbers are exact integers, where JavaScript rounds beyond 2^53; no such number is a valid task position anyway.
- Strings.IsWhite covers the ECMAScript white-space and line-terminator characters listed by name. It does not cover the whole Unicode space-separator category, should that category grow.
- Router.MessageProcessor.ProcessMessage: the 800 ms simulated delay, the `isProcessing` flag, console logging and the `catch` that re-throws are not modelled. No step of the model can fail. Ids, creation instants and the rendered time are inputs (`Environment`), not clock readings.
- ChatStore: the `persist` middleware, which writes the store to local storage under `jarvis-chat-storage`, is not modelled.
- Speech.Controller: no audio, no rate, pitch or volume semantics (the constant 1.0 is carried), no timing of voice enumeration, no removal of the `voiceschanged` handler on unmount.
- Speech.Controller.OnStart, OnEnd, OnError: the platform decides when callbacks fire. The model lets any queued utterance fire them, as the same handlers are attached to every utterance.
- Speech.Controller: React's batching and the stale values its callbacks capture are not modelled. Each operation sees the latest state.
- Search: the URL construction and query-string encoding, the `fetch`, the JSON decoding and the log of the caught error are not modelled. The answer is given as a value.
- OpenAI: the `fetch`, the JSON encoding of the body, the decoding of the answer and the error log are not modelled. A null `content` in the first choice is not distinguished from text.
- OpenAI.KeyStorage.SaveApiKey, OpenAI.KeyStorage.ClearApiKey: the confirmation toasts are not modelled.
- The React components (conversation screen, settings form, voice configuration, avatar, diagnostics) are not part of this model.
