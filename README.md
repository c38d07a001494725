# wechat-bot-chatgpt: the chat session and its message router

This project models the core of a WeChat bot that relays messages to a
chat-completion backend. There are two parts:

- **`GeneralChatMessageProcessor`** holds one conversation's state: a bounded
  history queue, a one-element system-prompt list and the fixed default prompt.
  It has three state-changing operations:
  - `process` asks the backend and records the exchange.
  - `system` sets a custom prompt or restores the default.
  - `reset` forgets the history.

  The string helpers it uses (`format_exc`, `build_bot_reply`, the strip-mention
  and trim step) are pure functions. They are modelled together with the JavaScript
  string operations they rely on (`includes`, `replaceAll`, `trim`).
- **The `message` handler of `index.js`** and its login/logout listeners:
  - a date cutoff, a self-message filter and the group-mention test;
  - the lazily filled `processors` registry, keyed by group id or sender id;
  - the fixed-order command dispatch on `!!!RESET!!!`, `!!!SYSTEM!!!` and
    `!!!SYSTEMRESET!!!`;
  - the `bot_user_name` that login and logout overwrite.

Modules:

- `wrappers.dfy` (`Wrappers`): `Option` and `Result`.
- `js_string.dfy` (`JsString`): the JavaScript string operations, each with
  its characterising lemmas:
  - `includes`, both recursively and by witness index;
  - `trimStart`, `trimEnd` and `trim`, with the ECMAScript whitespace set;
  - `replaceAll` with a literal pattern, with `split` and `join` to describe it.
- `fixed_size_queue.dfy` (`FixedSizeQueue`): the history queue as a value
  (capacity and contents), with `push`, `list` and `clear`, and the
  sliding-window lemmas about pushes. `utils/FixedSizeQueue.js` is not part of
  this model, so its eviction behaviour is an assumption of the model: append,
  then drop the oldest items beyond the capacity.
- `general_chat.dfy` (`GeneralChat`):
  - the message, turn and backend types;
  - the string helpers;
  - a `Session` value with one step function per operation (`ProcessStep`,
    `SystemStep`, `ResetStep`), which serve as the specification;
  - the class `Processor`, whose methods update its fields in place and are
    proved to follow those step functions.
- `router.dfy` (`Router`):
  - the classification `RouteOf` and the command selection `CommandOf`;
  - the handler as a function `Handle` of the registry's sessions, and `Run`
    over a sequence of events;
  - the class `Router`, holding `bot_user_name` and the `processors` map of
    `Processor` objects. Its `OnMessage` is proved to follow `Handle`.

Modelling choices:

- **The backend.** `createChatCompletion` is a total function parameter from the
  request to a `BackendResponse`: either an error, with its text, or a list of
  choices. Reading `choices[0].message` from an answer without a first choice
  throws. A first choice without a message gives `undefined`, and the next
  line's `response_message.role` then throws. The model gives these the
  TypeError texts V8 produces.
- **Outgoing messages.** `room.say` / `talker.say` is the `Outbound` value a
  method returns. It is either to the group with a mention of the sender, or
  directly to the sender.
- **Truthiness of `bot_user_name`.** The name counts as known when it is present
  and not the empty string (JavaScript truthiness, `NameKnown`).
- **Dispatch order.** The SYSTEMRESET marker looks like an extension of the
  SYSTEM marker, but it does not contain it (`SystemMarkerNotInSystemResetMarker`).
  - The code checks RESET, then SYSTEM, then SYSTEMRESET (index.js:71-79), and
    the model follows the code.
  - With that order, a message carrying only the SYSTEMRESET marker still reaches
    `system(true)` (`SystemResetMarkerSelectsResetSystem`).
  - A message carrying both the SYSTEM and the SYSTEMRESET markers takes the
    SYSTEM branch (`CommandOf`).
- **Empty custom prompt.** A custom prompt that becomes empty after the marker is
  removed is accepted, as the code does (`CustomPromptOfBareMarker`).

## Model

| member | source | states |
|---|---|---|
| JsString.Contains | index.js:63-75 | `includes`: a window at the front equals the pattern, or the pattern occurs further on; its meaning is given by `JsString.ContainsAt` |
| JsString.ContainsAt | index.js:71-75 | `includes` holds exactly when some index has a window of the text equal to the pattern (both directions) |
| JsString.ContainsWitness | index.js:63 | a single occurrence at any index makes `includes` true |
| JsString.OccursShift | index.js:71-75 | dropping the first character moves every occurrence past index 0 one place left, and keeps it |
| JsString.IsWhitespace | processors/GeneralChatMessageProcessor.js:21 | the characters `trim` removes at :21, :59, :74 and :90: the ECMAScript WhiteSpace set (TAB, VT, FF, SP, NBSP, ZWNBSP and the Unicode space separators U+1680, U+2000-U+200A, U+202F, U+205F, U+3000) and LineTerminator set (LF, CR, U+2028, U+2029) |
| JsString.LeadingWhitespace | processors/GeneralChatMessageProcessor.js:21 | the count of leading characters is all whitespace and is followed by a non-whitespace character or the end |
| JsString.TrimStart | processors/GeneralChatMessageProcessor.js:21 | `trimStart` leaves a suffix whose removed prefix is all whitespace and whose first character is not whitespace |
| JsString.TrimmedLength | processors/GeneralChatMessageProcessor.js:21 | everything past the kept length is whitespace, and the last kept character is not |
| JsString.TrimEnd | processors/GeneralChatMessageProcessor.js:21 | `trimEnd` leaves a prefix whose removed suffix is all whitespace and whose last character is not whitespace |
| JsString.Trim | processors/GeneralChatMessageProcessor.js:21 | `trim` yields a string with no whitespace at either end that occurs in the input with only whitespace before and after it |
| JsString.InfixOfCuts | processors/GeneralChatMessageProcessor.js:21 | cutting a whitespace prefix and then a whitespace suffix leaves an infix with only whitespace around it |
| JsString.TrimStartOf | processors/GeneralChatMessageProcessor.js:21 | `trimStart` of whitespace followed by a string that does not start with whitespace is that string |
| JsString.TrimEndOf | processors/GeneralChatMessageProcessor.js:21 | `trimEnd` of a string that does not end in whitespace, followed by whitespace, is that string |
| JsString.TrimUnique | processors/GeneralChatMessageProcessor.js:21 | any infix with no whitespace at its ends and only whitespace around it is the result of `trim` (so `trim` is determined by that property) |
| JsString.TrimOfTrimmed | processors/GeneralChatMessageProcessor.js:74 | a string with no whitespace at its ends is unchanged by `trim` |
| JsString.TrimIdempotent | processors/GeneralChatMessageProcessor.js:74 | trimming the already trimmed input text again changes nothing |
| JsString.Split | processors/GeneralChatMessageProcessor.js:13 | splitting at a non-empty pattern gives at least one piece, the first being a prefix of the text |
| JsString.ReplaceAll | processors/GeneralChatMessageProcessor.js:13 | `replaceAll` with a literal pattern, scanning left to right without overlaps; the uses at :21, :59 and :74 are the same operation. Its meaning is given by `JsString.ReplaceAllIsJoinOfSplit`, `JsString.JoinSplit`, `JsString.SplitPiecesFree` and `JsString.SplitFirstCut`, which together fix the result |
| JsString.ReplaceAllIsJoinOfSplit | processors/GeneralChatMessageProcessor.js:13 | `replaceAll(p, rep)` equals splitting at `p` and joining the pieces with `rep` |
| JsString.ReplaceAllBySelf | processors/GeneralChatMessageProcessor.js:13 | replacing a pattern by itself leaves the text unchanged |
| JsString.JoinSplit | processors/GeneralChatMessageProcessor.js:13 | joining the pieces of a split with the pattern gives back the text |
| JsString.JoinPrependHead | processors/GeneralChatMessageProcessor.js:13 | prefixing the first piece prefixes the joined text |
| JsString.SplitPiecesFree | processors/GeneralChatMessageProcessor.js:21 | no piece of a split contains the pattern |
| JsString.SplitFirstCut | processors/GeneralChatMessageProcessor.js:13 | occurrences are cut leftmost first: the first piece holds no occurrence of the pattern, it is the whole text when the pattern never occurs, and otherwise the pattern occurs right after it and the other pieces are the split of the rest after that occurrence |
| JsString.SplitWithoutSeparator | processors/GeneralChatMessageProcessor.js:13 | a text without the separator character splits into itself alone |
| JsString.SplitAtFirstSeparator | processors/GeneralChatMessageProcessor.js:13 | the split of `a + sep + b`, with `a` free of the separator, is `a` followed by the split of `b` |
| JsString.SplitPiecesLackSeparator | processors/GeneralChatMessageProcessor.js:13 | no piece of a split at one character holds that character |
| FixedSizeQueue.LastN | processors/GeneralChatMessageProcessor.js:30-31 | the window holds the last min(n, length) items, in order |
| FixedSizeQueue.Pushed | processors/GeneralChatMessageProcessor.js:30 | (assumed queue behaviour) one push grows the contents by one until the capacity is reached and puts the new item last; with capacity 0 nothing is kept |
| FixedSizeQueue.PushedEvictsOldest | processors/GeneralChatMessageProcessor.js:30 | (assumed) a push keeps the newest capacity-1 old items, in order, in front of the new one |
| FixedSizeQueue.PushedAll | processors/GeneralChatMessageProcessor.js:30-31 | (assumed) any run of pushes never exceeds the capacity |
| FixedSizeQueue.PushedAllIsWindow | processors/GeneralChatMessageProcessor.js:30-31 | (assumed) after any run of pushes the queue holds the last `capacity` items of old contents followed by the pushed items, in push order |
| FixedSizeQueue.LastNOfLastN | processors/GeneralChatMessageProcessor.js:30-31 | taking the window before appending more does not change the final window |
| FixedSizeQueue.Queue.Push | processors/GeneralChatMessageProcessor.js:30 | `push` keeps the capacity and the bound, and its contents are the assumed one-push window |
| FixedSizeQueue.Queue.List | processors/GeneralChatMessageProcessor.js:26 | `list()` is the current contents, oldest first, within the capacity |
| FixedSizeQueue.Queue.Clear | processors/GeneralChatMessageProcessor.js:91 | `clear()` empties the queue and keeps its capacity |
| FixedSizeQueue.NewQueue | processors/GeneralChatMessageProcessor.js:7 | a new queue of the given capacity is empty |
| FixedSizeQueue.WindowOfFour | processors/GeneralChatMessageProcessor.js:30-31 | with capacity four, pushing six items leaves the last four in order |
| GeneralChat.SplitOfQuotedJoin | processors/GeneralChatMessageProcessor.js:13 | quoting the first line and joining with "\n> " splits back into the quoted lines |
| GeneralChat.FormatExc | processors/GeneralChatMessageProcessor.js:12-14 | `format_exc`: "> " followed by the error text with every line break replaced by a line break and "> "; its meaning is given by `GeneralChat.FormatExcLines` and `GeneralChat.FormatExcRoundTrip` |
| GeneralChat.FormatExcLines | processors/GeneralChatMessageProcessor.js:12-14 | the lines of `format_exc(e)` are the lines of `e`, each with "> " in front |
| GeneralChat.FormatExcRoundTrip | processors/GeneralChatMessageProcessor.js:12-14 | every line of `format_exc(e)` starts with "> ", and removing that prefix from each line and joining again restores `e` |
| GeneralChat.BuildBotReply | processors/GeneralChatMessageProcessor.js:16-18 | the reply is a line break followed by the reply text; the name and request take no part |
| GeneralChat.NameKnown | processors/GeneralChatMessageProcessor.js:21 | `bot_user_name` is truthy exactly when it is present and not the empty string; the same test appears at :59 and at index.js:63 |
| GeneralChat.Mention | index.js:63 | the mention is "@" followed by the name |
| GeneralChat.InputText | processors/GeneralChatMessageProcessor.js:21 | the input text never has whitespace at either end, and without a known bot name it is just the trimmed raw text |
| GeneralChat.InputTextRemovesMentions | processors/GeneralChatMessageProcessor.js:21 | with a known name, the input text is the trim of the raw text's pieces between mentions; those pieces rejoined by the mention give the raw text, and none holds the mention |
| GeneralChat.InputTextCanKeepMention | processors/GeneralChatMessageProcessor.js:21 | removal is one left-to-right pass: `@@name` followed by `name` becomes `@name`, so a mention can survive |
| GeneralChat.MentionRejoined | processors/GeneralChatMessageProcessor.js:21 | removing `@name` from `@@name` followed by `name` with `replaceAll` leaves `@name`, which has no whitespace around it |
| GeneralChat.CustomPrompt | processors/GeneralChatMessageProcessor.js:74 | the custom prompt has no whitespace at either end |
| GeneralChat.CustomPromptAfterMarker | processors/GeneralChatMessageProcessor.js:74-75 | the SYSTEM marker, a space and a trimmed prompt without `!` set exactly that prompt |
| GeneralChat.CustomPromptOfBareMarker | processors/GeneralChatMessageProcessor.js:74-75 | the marker alone sets an empty prompt |
| GeneralChat.NoMarkerUnchanged | processors/GeneralChatMessageProcessor.js:74 | a text without `!` is unchanged by removing the SYSTEM marker |
| GeneralChat.NewSession | processors/GeneralChatMessageProcessor.js:4-10 | a new session has exactly one system turn holding the default prompt, stores the default unchanged, and has an empty history of the given capacity |
| GeneralChat.ChatRequest | processors/GeneralChatMessageProcessor.js:22-27 | the request is the system turns, then the history in order, then the user turn holding the input text |
| GeneralChat.ChatRequestStartsWithSystem | processors/GeneralChatMessageProcessor.js:26 | a valid session's request starts with its one system turn |
| GeneralChat.ReplyMessage | processors/GeneralChatMessageProcessor.js:24-29 | the answer is read from the first choice; a thrown backend error, a missing first choice and a missing message each give their error text |
| GeneralChat.ReplyTo | processors/GeneralChatMessageProcessor.js:32-40 | a reply goes into the group, mentioning the sender, exactly when the message came from a group, and otherwise to the sender |
| GeneralChat.ProcessStep | processors/GeneralChatMessageProcessor.js:20-56 | the request is the assembled chat request. On success, the user turn and then the answer are pushed, the result is true, and the reply is the trimmed answer. On failure, the session is unchanged, the result is false, and the reply is the error header followed by the quoted error |
| GeneralChat.PushedTwice | processors/GeneralChatMessageProcessor.js:30-31 | two pushes give the window over the old contents followed by both items |
| GeneralChat.PushedPair | processors/GeneralChatMessageProcessor.js:30-31 | with room for two, the last two entries are the two pushed items in order; without eviction nothing else changes |
| GeneralChat.ProcessAppendsPair | processors/GeneralChatMessageProcessor.js:29-31 | on success the history gains the user turn and then the answer, as its last two entries when there is room for two, and the system prompt list is unchanged |
| GeneralChat.SystemStep | processors/GeneralChatMessageProcessor.js:58-87 | the reset form sets the single default-prompt turn; the set form sets the single turn with the marker-free, re-trimmed input text; neither touches the history; the reply carries the matching header and the new prompt |
| GeneralChat.ResetStep | processors/GeneralChatMessageProcessor.js:89-103 | the history becomes empty, the system prompt list is unchanged, and the reply is the fixed confirmation |
| GeneralChat.ResetThenRequest | processors/GeneralChatMessageProcessor.js:91 | after a reset, the next request is the system turn followed by the user turn alone |
| GeneralChat.Processor.constructor | processors/GeneralChatMessageProcessor.js:4-10 | the new processor holds the new session of that capacity and default prompt |
| GeneralChat.Processor.Process | processors/GeneralChatMessageProcessor.js:20-56 | `process` updates the fields as `ProcessStep` says and returns its result and reply |
| GeneralChat.Processor.RecordExchange | processors/GeneralChatMessageProcessor.js:30-31 | the two pushes leave the system prompt list alone and push the user turn, then the answer |
| GeneralChat.Processor.System | processors/GeneralChatMessageProcessor.js:58-87 | `system` updates the fields as `SystemStep` says and returns its reply |
| GeneralChat.Processor.Reset | processors/GeneralChatMessageProcessor.js:89-103 | `reset` updates the fields as `ResetStep` says and returns its reply |
| Router.RouteOf | index.js:60-81 | a message dated before the cutoff or written by the bot is ignored. A group message is routed to its group exactly when it addresses the bot. A direct message is routed to its sender. Nothing else is routed |
| Router.UnaddressedGroupMessageIgnored | index.js:61-81 | a group message that does not address the bot is ignored, because the direct branch needs no group |
| Router.AddressesBot | index.js:61-63 | a group message addresses the bot when the platform reports a mention, or when the name is truthy and the text with a space appended includes "@" and the name; `Router.RouteOf` and `Router.UnaddressedGroupMessageIgnored` use it |
| Router.Route.Key | index.js:64-84 | a routed message's registry key is the group id for a group message and the sender id for a direct one (`Router.RouteOf` fixes which) |
| Router.CommandOf | index.js:71-79 | the RESET marker selects `reset`; otherwise the SYSTEM marker selects `system(false)`; otherwise the SYSTEMRESET marker selects `system(true)`; otherwise `process` (each case an if-and-only-if) |
| Router.SystemMarkerNotInSystemResetMarker | index.js:73-75 | the SYSTEMRESET marker does not contain the SYSTEM marker |
| Router.ResetMarkerNotInSystemResetMarker | index.js:71-75 | the SYSTEMRESET marker does not contain the RESET marker |
| Router.SystemResetMarkerSelectsResetSystem | index.js:75-76 | a message that is just the SYSTEMRESET marker reaches `system(true)` |
| Router.Dispatch | index.js:71-79 | the selected step keeps the session valid and leaves its capacity and default prompt alone |
| Router.DispatchFollowsCommand | index.js:71-79 | exactly the step the command selects runs; only a chat or a reset touches the history, and only the two system commands touch the prompt |
| Router.Lookup | index.js:64-70 | an id already registered keeps its session; an unseen id gets a new session |
| Router.Handle | index.js:59-104 | an ignored message changes nothing and sends nothing. A routed message adds its key to the registry and replaces only that key's session with the dispatched step's result. All other sessions stay as they were, and the step's reply is sent |
| Router.Run | index.js:48-104 | handling any sequence of events keeps every session valid |
| Router.RunKeepsConversations | index.js:64-70 | no run of events removes a registered conversation |
| Router.RunOfEarlyMessages | index.js:60 | messages dated before the cutoff leave every session unchanged |
| Router.Router.Sessions | index.js:26 | the sessions of the registry have exactly its keys and are all valid |
| Router.Router.constructor | index.js:26-36 | the registry starts empty, the bot name unknown, with the given cutoff and configuration |
| Router.Router.OnLogin | index.js:48-51 | `login` sets the bot name and leaves the registry alone |
| Router.Router.OnLogout | index.js:52-54 | `logout` forgets the bot name and leaves the registry alone |
| Router.Router.Resolve | index.js:64-70 | a processor is created and registered only for an unseen key; an existing one is reused and no other entry changes |
| Router.Router.RunCommand | index.js:71-79 | the processor's new state and the reply are those of `Dispatch` |
| Router.Router.HandleRouted | index.js:64-79 | only the routed key's processor changes, as by `Dispatch` on its prior or new session; every other entry and its state is kept |
| Router.Router.OnMessage | index.js:59-104 | the registry's new sessions and the reply are those of `Handle` on the old sessions; old entries keep their identity, and the bot name is unchanged |

## Left out

- Wechaty setup, QR-code printing and the `scan`/`error` logging (index.js:29-47, 55-58, 107). These are I/O. The `New room`/`New talker` console lines and the `console.log` of the `login` listener (index.js:50) are left out too.
- lowdb configuration loading and OpenAI client construction (index.js:17-23). `history_size` and `default_system_prompt` are constructor parameters, and the backend is a function parameter.
- The clock: `init_date` is a constructor parameter, and message dates are integers compared with it.
- The network: `createChatCompletion` is a total function of the request, and the `model` field of the request is not represented.
- Failures of `say`: the model assumes `room.say` / `talker.say` never fails. A failure after the two history pushes would enter the catch block with the history already updated, and the model does not represent it.
- `response_message.content` being `null`: the model's turns always have string content, so the TypeError that `trim()` would throw after the pushes is not represented.
- Async interleaving at the `await` points: each handler invocation is one atomic sequential step.
- `utils/FixedSizeQueue.js` is not part of this model: its sliding-window behaviour is assumed, not verified. The queue is a value owned by its processor, which shares it with nothing, so in-place mutation of a shared queue is not modelled.
- `message.talker()` is always present, so the `&& message.talker()` guard of the direct branch (index.js:81) is always true in the model.
- The `in` test on a plain object (index.js:64, 84) also finds keys inherited from `Object.prototype`, such as `constructor`. The model's registry is a map that holds only the ids stored in it.
- Strings are sequences of Unicode scalar values, not UTF-16 code units.
- `replaceAll` is modelled for literal patterns and replacements without `$` substitution patterns, which covers all its uses here.
- The Chinese reply texts are opaque constants.
- Router.Dispatch: its own contract states only validity and the untouched capacity and prompt; which step it runs is stated by `Router.DispatchFollowsCommand`.
