# A verified model of the AIVA assistant's conversation core

AIVA is a Turkish-speaking chat assistant with a talking 3D avatar. Around
the user interface, a small amount of sequential logic decides what the
assistant remembers and what it says. This project models that logic in
Dafny and proves what it promises.

The modules follow the repository's files:

- `Speech` (`speech.dfy`) models the text-to-speech helper's mouth simulator.
  - Each tick of an interval timer takes the next character of the
    lowercased utterance and looks up the character's mouth openness in a
    fixed phoneme table.
  - The tick publishes a `{volume, pitch, phoneme}` sample and dispatches a
    VOLUME event.
  - When the text runs out, the next tick stops the simulation and
    publishes silence.
  - The helper is a class. Its timers are an explicit map from handles to
    per-interval state, and one tick is one call to `Tick`.
- `UserStore` (`user_store.dfy`) models the persisted user store.
  - It holds the profile fields and a conversation counter.
  - It also holds the memory record: topic counts, a log of the last ten
    interactions, three duplicate-free lists (liked things, disliked things,
    mentioned names) and the running conversation style.
  - Each action is a method that assigns only the fields it replaces. What
    the action does to the memory is a function on `UserMemory`, and the
    lemmas are stated about that function.
- `Analysis` (`analysis.dfy`) models message analysis:
  - topic detection over the fixed 15-category keyword table, as a loop
    proved against a specification function;
  - what preference extraction and name extraction keep from their regex
    matches;
  - the top-three topic selection and the slots of the personalised system
    prompt;
  - the fixed order of store calls that `analyzeUserMessage` makes.
- `Conversation` (`conversation.dfy`) models three parts of the chat
  service:
  - the conversation-history store (append, bounds-checked feedback
    update, clear, recent messages with JavaScript `slice(-n)` semantics);
  - the keyword fallback responder;
  - the network-free demo-key branch of `chatWithAI`.
- `DemoAI` (`demo_ai.dfy`) models the offline demo responder. It is a
  first-match ladder of keyword tests. Its second rung searches the user's
  comma-separated interests in list order.
- `Strings` and `Common` hold the JavaScript operations the modules share:
  - `includes`, `split`, `join`, `trim` and `||` on strings;
  - `slice(start)`;
  - the `Math.floor(Math.random() * n)` pick.

Inputs stand in for what the model does not compute:

- Lowercasing and uppercasing are uninterpreted functions passed as
  arguments (`CaseMap`).
- Each random draw is a real number in [0, 1).
- Clock readings and fresh message ids are arguments.
- Regex matches are arguments: the capture groups of the preference
  patterns and the matches of the name pattern.

## Model

| member | source | states |
|---|---|---|
| `Common.SliceFromNegative` | src/utils/openai.ts:40-43 | `slice(-n)` for n >= 1 is the last min(n, length) elements in order; `slice(-0)` is the whole sequence |
| `Common.RandomIndex` | client/src/utils/demoAI.ts:71 | `Math.floor(rand * n)` for a draw in [0, 1) is a valid index below n |
| `Common.Pick` | src/utils/openai.ts:90-91 | a random pick from a nonempty list is an element of that list |
| `Strings.OrElse` | client/src/utils/demoAI.ts:14 | the `name or 'dostum'` default: the string itself when nonempty, otherwise the default, so nonempty when the default is |
| `Strings.JoinSplit` | client/src/utils/demoAI.ts:19 | joining the pieces of `split(sep)` with `sep` gives back the string |
| `Strings.SplitJoin` | client/src/utils/analysisUtils.ts:95-96 | the inverse of `JoinSplit`: `split(sep)` of a join of separator-free pieces gives back the pieces |
| `Strings.Utf16Length` | client/src/store/userStore.ts:152 | `message.length` counts UTF-16 code units: at least one and at most two per character |
| `Strings.AstralCountsTwice` | client/src/store/userStore.ts:152 | one character outside the Basic Multilingual Plane makes `length` exceed the character count |
| `Strings.TrimShape` | client/src/utils/demoAI.ts:19 | `trim` keeps a contiguous middle part of the string, with only white space around it and none at either end |
| `Strings.TrimEmptyIffAllWhite` | src/utils/openai.ts:130 | `s.trim() === ""` exactly when `s` is all white space |
| `Strings.TrimIdempotent` | client/src/utils/analysisUtils.ts:69 | trimming twice is trimming once |
| `UserStore.LookupSpec` | client/src/store/userStore.ts:93 | `topics[t]` is found exactly when `t` is a key, and what is found is that key's entry |
| `UserStore.BumpTopic` | client/src/store/userStore.ts:91-93 | the bumped record keeps its keys and their order, adding `t` at the end when it is new |
| `UserStore.BumpTopicCounts` | client/src/store/userStore.ts:93 | after the bump, `topics[t]` is its old value, or 0 when absent, plus one |
| `UserStore.BumpTopicKeepsOthers` | client/src/store/userStore.ts:91-93 | the bump leaves every other key's count, or its absence, unchanged |
| `UserStore.RecordInteraction` | client/src/store/userStore.ts:99-102 | the log gains `now` as its last entry and keeps only the last ten entries, so it never holds more than ten |
| `UserStore.AppendUnique` | client/src/store/userStore.ts:108-119 | an item already present leaves the list as it is; otherwise the item is appended at the end; a duplicate-free list stays duplicate-free |
| `UserStore.InitialMemoryShape` | client/src/store/userStore.ts:42-54 | the initial memory has no topics, no flags set, at most ten interactions and duplicate-free lists |
| `UserStore.MemAddTopic` | client/src/store/userStore.ts:91-105 | `addTopic` changes only `topics` (the bump) and `lastInteractions` (the bounded log) |
| `UserStore.MemAddLiked` | client/src/store/userStore.ts:108-119 | `addLikedThing` changes only `likedThings`: a no-op on a present item, an append otherwise; the lists stay duplicate-free |
| `UserStore.MemAddDisliked` | client/src/store/userStore.ts:122-133 | the same for `dislikedThings` |
| `UserStore.MemAddName` | client/src/store/userStore.ts:136-147 | the same for `mentionedNames` |
| `UserStore.NextAverage` | client/src/store/userStore.ts:155-158 | the new average is the message length for a zero count, and otherwise satisfies avg' * (count + 1) = avg * count + length |
| `UserStore.NextAverageIsMean` | client/src/store/userStore.ts:155-158 | when the average is the mean of the earlier lengths, the update gives the mean including the new length |
| `UserStore.HasEmoji` | client/src/store/userStore.ts:161 | the emoji test matches a character in U+1F300..U+1F6FF; a message that passes it has a `length` larger than its character count |
| `UserStore.IsFormal` | client/src/store/userStore.ts:164-167 | a message passing the formal test contains one of the four phrases, so it has at least 11 characters |
| `UserStore.NextStyle` | client/src/store/userStore.ts:150-179 | the average is updated with `message.length` in UTF-16 code units; the emoji flag is set exactly when it was set already or the message has an emoji; the formal flag is set exactly when it was set already or one of the four phrases occurs |
| `UserStore.StyleAfterFlags` | client/src/store/userStore.ts:150-179 | over any run of messages the flags are sticky, each set exactly when set before or triggered by some message, and the average stays the mean of all lengths |
| `UserStore.MemUpdateStyle` | client/src/store/userStore.ts:150-179 | `updateConversationStyle` changes only the conversation style |
| `UserStore.Merge` | client/src/store/userStore.ts:83-88 | `{...memory, ...patch}`: every field the patch has replaces the memory's field, and every other field is kept |
| `UserStore.MergeEmpty` | client/src/store/userStore.ts:83-88 | an empty patch changes nothing |
| `UserStore.UserStore.constructor` | client/src/store/userStore.ts:58-65 | the store starts with empty profile fields, no login, count 0 and the initial memory |
| `UserStore.UserStore.SetUserInfo` | client/src/store/userStore.ts:67-72 | sets name and interests, sets age or `''` when age is omitted, and stamps the login time |
| `UserStore.UserStore.UpdateConversationCount` | client/src/store/userStore.ts:74-76 | the count grows by exactly one |
| `UserStore.UserStore.SetFavoriteTopic` | client/src/store/userStore.ts:78-80 | sets the favourite topic |
| `UserStore.UserStore.UpdateMemory` | client/src/store/userStore.ts:83-88 | the memory becomes the merge of the old memory and the patch |
| `UserStore.UserStore.AddTopic` | client/src/store/userStore.ts:91-105 | the memory becomes `MemAddTopic` of the old memory |
| `UserStore.UserStore.AddLikedThing` | client/src/store/userStore.ts:108-119 | the memory becomes `MemAddLiked` of the old memory |
| `UserStore.UserStore.AddDislikedThing` | client/src/store/userStore.ts:122-133 | the memory becomes `MemAddDisliked` of the old memory |
| `UserStore.UserStore.AddMentionedName` | client/src/store/userStore.ts:136-147 | the memory becomes `MemAddName` of the old memory |
| `UserStore.UserStore.UpdateConversationStyle` | client/src/store/userStore.ts:150-179 | the memory becomes `MemUpdateStyle` of the old memory, using the current count |
| `Speech.Openness` | client/src/utils/tts.ts:101-145 | a listed character's openness is its table value, any other character's is 0.2, and every value lies in [0.1, 0.8] |
| `Speech.Pitch` | client/src/utils/tts.ts:150 | `Math.random() * 0.3 + 0.7` lies in [0.7, 1.0) |
| `Speech.SampleAt` | client/src/utils/tts.ts:144-152 | the published phoneme is exactly the character at the cursor, its volume is that character's openness and lies in [0.1, 0.8], and the pitch lies in [0.7, 1.0) |
| `Speech.VolumeEventFor` | client/src/utils/tts.ts:155-157 | the VOLUME event for a character carries the character itself and its openness: the table value for a listed character, 0.2 otherwise, always in [0.1, 0.8] |
| `Speech.VolumeTrace` | client/src/utils/tts.ts:144-157 | a session over a text sends one VOLUME event per character, in order, each carrying that character's openness and the character itself |
| `Speech.VolumeTraceStep` | client/src/utils/tts.ts:155-159 | one more tick extends the trace by the event of the next character |
| `Speech.TraceOfAb` | client/src/utils/tts.ts:101-130 | the text "ab" sends 'a' at 0.8, then 'b' at 0.2 |
| `Speech.SpeechSynth.constructor` | client/src/utils/tts.ts:18-29 | the speech store starts silent, not speaking, with no text and no interval armed |
| `Speech.SpeechSynth.SpeakText` | client/src/utils/tts.ts:40-46 | empty text changes nothing; any other text becomes the current text |
| `Speech.SpeechSynth.UtteranceStarted` | client/src/utils/tts.ts:64-71 | `onstart` marks speaking, dispatches START and arms a new interval over the lowercased text with the cursor at 0 |
| `Speech.SpeechSynth.UtteranceEnded` | client/src/utils/tts.ts:73-87 | `onend`/`onerror` mark not speaking, dispatch END, clear the interval the handle names and publish silence |
| `Speech.SpeechSynth.StartMouthSimulation` | client/src/utils/tts.ts:133-137 | arms a fresh interval with the cursor at 0 and overwrites the handle; every interval armed earlier stays live, unchanged |
| `Speech.SpeechSynth.Tick` | client/src/utils/tts.ts:137-160 | before the end, a tick publishes the sample and the VOLUME event for the cursor's character and advances the cursor by one; at the end, it stops the interval the handle names and publishes silence, with no event |
| `Speech.SpeechSynth.StopMouthSimulation` | client/src/utils/tts.ts:163-171 | clears the armed interval, if any, and publishes the zero sample; afterwards no handle is armed, and with none armed nothing else changes |
| `Speech.SpeechSynth.OverlappingUtterances` | client/src/utils/tts.ts:64-87 | two `onstart`s and then one `onend`: the second interval is cleared, the first stays armed with its cursor at 0, the handle is empty and silence is published |
| `Speech.SpeechSynth.LeakedTick` | client/src/utils/tts.ts:137-141 | a leaked interval at the end of its text clears the newer interval the handle names, publishes silence and stays armed itself |
| `Speech.SpeechSynth.WalkText` | client/src/utils/tts.ts:137-160 | the first `len` ticks of a fresh session send exactly the session's trace and leave the cursor at the end |
| `Speech.SpeechSynth.RunSession` | client/src/utils/tts.ts:133-160 | a whole session sends exactly one VOLUME event per character, in order; the tick after the last character clears the interval and publishes silence |
| `Analysis.TopicsIn` | client/src/utils/analysisUtils.ts:29-40 | at most one topic per table entry |
| `Analysis.TopicsInIndices` | client/src/utils/analysisUtils.ts:33-37 | the detected topics are exactly the table entries some of whose keywords occur, in table order |
| `Analysis.TopicsInDistinct` | client/src/utils/analysisUtils.ts:33-37 | with distinct category names, no topic is reported twice |
| `Analysis.TopicsInMembership` | client/src/utils/analysisUtils.ts:29-40 | a topic is reported exactly when an entry with that name has a keyword occurring in the message |
| `Analysis.TopicKeywordsWellFormed` | client/src/utils/analysisUtils.ts:6-22 | the table has 15 distinct categories and no empty keyword |
| `Analysis.ExtractTopics` | client/src/utils/analysisUtils.ts:29-40 | the loop returns the topics of the lowercased message in table order, without duplicates |
| `Analysis.NoKeywordNoTopics` | client/src/utils/analysisUtils.ts:34 | a message without any table keyword yields no topics |
| `Analysis.EmptyMessageNoTopics` | client/src/utils/analysisUtils.ts:6-22 | the empty message yields no topics, since no keyword is empty |
| `Analysis.SharedKeyword` | client/src/utils/analysisUtils.ts:33-37 | a keyword listed under two categories reports both |
| `Analysis.SharedKeywordSpor` | client/src/utils/analysisUtils.ts:8-15 | "spor" yields both "spor" and "sağlık" |
| `Analysis.SharedKeywordProje` | client/src/utils/analysisUtils.ts:13-16 | "proje" yields both "eğitim" and "iş" |
| `Analysis.SharedKeywordTasarim` | client/src/utils/analysisUtils.ts:14-21 | "tasarım" yields both "sanat" and "moda" |
| `Analysis.CapturedMembership` | client/src/utils/analysisUtils.ts:67-71 | a phrase is kept exactly when it is the trim of some nonempty capture |
| `Analysis.CapturedTrimmed` | client/src/utils/analysisUtils.ts:69 | every kept phrase is already trimmed |
| `Analysis.PushCaptures` | client/src/utils/analysisUtils.ts:67-71 | the loop appends the trims of the nonempty captures, in order |
| `Analysis.ExtractPreferences` | client/src/utils/analysisUtils.ts:47-84 | the liked and disliked lists are the kept captures of the like and dislike patterns, pattern by pattern |
| `Analysis.CapturedAllMembership` | client/src/utils/analysisUtils.ts:65-81 | a phrase is kept exactly when some pattern's captures keep it |
| `Analysis.LastWord` | client/src/utils/analysisUtils.ts:95-96 | the last piece of `split(' ')` is the space-free suffix after the final space, or the whole string |
| `Analysis.ExtractNames` | client/src/utils/analysisUtils.ts:91-97 | one name per match, each the last space-separated word of its match |
| `Analysis.NameAfterSpace` | client/src/utils/analysisUtils.ts:92-96 | the last word of "prefix name" is the name |
| `Analysis.InsertByCountSorted` | client/src/utils/analysisUtils.ts:116 | inserting into a list sorted by non-increasing count keeps it sorted |
| `Analysis.SortByCount` | client/src/utils/analysisUtils.ts:116 | the sort is a permutation of the entries |
| `Analysis.SortByCountSorted` | client/src/utils/analysisUtils.ts:116 | the sort orders by non-increasing count |
| `Analysis.TopEntries` | client/src/utils/analysisUtils.ts:115-117 | `slice(0, 3)` of the sorted entries: at most three, and all of them when there are fewer than three |
| `Analysis.TopTopics` | client/src/utils/analysisUtils.ts:115-119 | no topics give the empty string, which the prompt replaces by its placeholder |
| `Analysis.TopEntriesSpec` | client/src/utils/analysisUtils.ts:115-119 | the top entries are min(3, n) of the entries, in non-increasing count, and no entry left out counts more than any chosen one |
| `Analysis.SlotsFor` | client/src/utils/analysisUtils.ts:138-143 | no profile slot of the prompt is ever empty, since each empty value is replaced by its placeholder |
| `Analysis.SlotsForSpec` | client/src/utils/analysisUtils.ts:122-143 | the long-sentence phrase is chosen exactly when `avgLength > 100`, the emoji and formal phrases exactly when those flags are set; an empty name or interest string shows as "Bilinmiyor" and empty liked, disliked, mentioned and topic lists show as their placeholders |
| `Analysis.RenderPrompt` | client/src/utils/analysisUtils.ts:135-157 | the prompt opens with the introduction followed by the user's name, and it contains the three style phrases as one comma-separated summary |
| `Analysis.StyleLinesShape` | client/src/utils/analysisUtils.ts:145-152 | the style section contains the comma-separated style summary |
| `Analysis.StyleSummaryNames` | client/src/utils/analysisUtils.ts:146 | the style summary contains each of its three phrases |
| `Analysis.PromptShows` | client/src/utils/analysisUtils.ts:138-152 | whatever the fixed wording, the rendered prompt contains the name slot and each of the three style phrases |
| `Analysis.PersonalizedSystemMessage` | client/src/utils/analysisUtils.ts:108-158 | the rendered prompt contains the user's name, or "Bilinmiyor" when it is empty, and the message-length, emoji and tone phrases that the memory selects |
| `Analysis.ApplyListCall` | client/src/utils/analysisUtils.ts:180-197 | one list item makes exactly the store action of its list |
| `Analysis.ListCalls` | client/src/utils/analysisUtils.ts:180-197 | one store call per item, in order |
| `Analysis.ApplyCallsSnoc` | client/src/utils/analysisUtils.ts:176-198 | the calls take effect one after another, first to last |
| `Analysis.ApplyCallsConcat` | client/src/utils/analysisUtils.ts:176-198 | running two batches of calls is running the first batch and then the second |
| `Analysis.ApplyList` | client/src/utils/analysisUtils.ts:180-197 | the `forEach` over a list makes one store call per item, in order |
| `Analysis.AnalyzeUserMessage` | client/src/utils/analysisUtils.ts:165-199 | one style update comes first, then the topic, liked, disliked and name calls, each list in order |
| `Analysis.OtherListsKeep` | client/src/utils/analysisUtils.ts:186-197 | liked, disliked and name calls leave the topic counts and the style alone |
| `Analysis.TopicCallsCount` | client/src/utils/analysisUtils.ts:179-182 | adding distinct topics one by one raises each of their counts by exactly one and leaves every other count alone |
| `Analysis.AnalysisEffect` | client/src/utils/analysisUtils.ts:165-199 | one analysis raises the count of each mentioned topic by one, leaves other counts alone, and advances the style exactly once |
| `Conversation.WithFeedback` | src/utils/openai.ts:32-38 | in bounds, only the feedback of entry `index` changes and the length is kept; out of bounds the history is unchanged |
| `Conversation.Recent` | src/utils/openai.ts:40-43 | `slice(-n)` gives the last min(n, length) messages for n >= 1, the whole history for n = 0, and drops the first -n messages for n < 0 |
| `Conversation.ConversationStore.constructor` | src/utils/openai.ts:28 | the history starts empty |
| `Conversation.ConversationStore.AddMessage` | src/utils/openai.ts:29-31 | appends exactly one entry, the message with its fresh id; earlier entries are unchanged |
| `Conversation.ConversationStore.UpdateMessageFeedback` | src/utils/openai.ts:32-38 | the history becomes `WithFeedback` of the old history |
| `Conversation.ConversationStore.ClearHistory` | src/utils/openai.ts:39 | the history becomes empty |
| `Conversation.ConversationStore.GetRecentMessages` | src/utils/openai.ts:40-43 | with the count omitted, returns the last min(10, length) messages in order |
| `Conversation.FallbackResponse` | src/utils/openai.ts:71-92 | the fallback reply is the greeting, one of the three fixed replies, or one of the twelve demo replies |
| `Conversation.FallbackFirstMatch` | src/utils/openai.ts:71-92 | the reply is that of the first rule, in the order greeting, "nasılsın", "teşekkür", "?", that fires; with none firing, it is one of the demo replies |
| `Conversation.FallbackGreetingWins` | src/utils/openai.ts:73-75 | a greeting word wins over all other rules, and the greeting names the user or "dostum" |
| `Conversation.IsDemoKeyIff` | src/utils/openai.ts:130 | the demo branch is taken exactly for an all-white-space key, including the empty key, and for "demo" |
| `Conversation.RecordUserTurn` | src/utils/openai.ts:105-127 | analyses the message into the memory, appends the user message and increments the count by one |
| `Conversation.ChatWithAI` | src/utils/openai.ts:103-145 | with a demo key, no request is made: the user message and then the fallback reply are appended, the count grows by one, and the reply is returned; with another key, only the user turn is recorded before the request |
| `DemoAI.InterestList` | client/src/utils/demoAI.ts:19 | one interest per comma-separated piece, each the lowercased trim of its piece |
| `DemoAI.FirstInterest` | client/src/utils/demoAI.ts:21-25 | finds the first interest, in list order, that the message contains, or none exactly when no interest occurs |
| `DemoAI.Capitalize` | client/src/utils/demoAI.ts:23 | the first character is uppercased and the rest kept; `charAt(0)` of the empty string is empty |
| `DemoAI.FillAddresses` | client/src/utils/demoAI.ts:32-93 | a filled reply template contains the address |
| `DemoAI.SmallTalkReplies` | client/src/utils/demoAI.ts:88-94 | there are five closing replies and each addresses the user |
| `DemoAI.SelectBranch` | client/src/utils/demoAI.ts:11-96 | the greeting rung is taken exactly when a greeting word occurs; an interest rung names a listed interest that occurs in the message, and only for nonempty interests |
| `DemoAI.BranchReply` | client/src/utils/demoAI.ts:14-96 | the joke rung replies with one of the jokes, the closing rung with one of the closing replies addressing the user |
| `DemoAI.DemoResponse` | client/src/utils/demoAI.ts:6-97 | a joke when the joke rung is taken; otherwise a reply that contains the user's name, or "dostum" when it is empty |
| `DemoAI.FindInterest` | client/src/utils/demoAI.ts:21-25 | the walk over the interest list stops at the first interest the message contains, and finds none exactly when none occurs |
| `DemoAI.GetDemoResponse` | client/src/utils/demoAI.ts:6-97 | the early-returning ladder with its interest loop returns exactly the reply of the first rung that applies |
| `DemoAI.MentionsTwo` | client/src/utils/demoAI.ts:36-37 | a `Mentions` of two words holds exactly when one of the two `includes` tests does |
| `DemoAI.MentionsThree` | client/src/utils/demoAI.ts:11-13 | a `Mentions` of three words holds exactly when one of the three `includes` tests does |
| `DemoAI.FirstFiringRule` | client/src/utils/demoAI.ts:11-86 | when rule i is the first of the ten rules, in source order, whose test holds, the ladder takes rule i's rung |
| `DemoAI.NoRuleFires` | client/src/utils/demoAI.ts:87-96 | when no rule's test holds, the ladder reaches the closing rung |
| `DemoAI.RulesInOrder` | client/src/utils/demoAI.ts:11-85 | the rule table lists the rungs in source order |
| `DemoAI.GreetingWins` | client/src/utils/demoAI.ts:11-15 | any lowercased message containing "merhaba", "selam" or "sa" gets the greeting, whatever else it contains |
| `DemoAI.SagolIsGreeted` | client/src/utils/demoAI.ts:11-37 | a message containing "sağol" is greeted, because it contains "sa" |
| `DemoAI.InterestRung` | client/src/utils/demoAI.ts:18-26 | the interest rung is taken exactly when no greeting word occurs, interests are nonempty and some listed interest occurs; it names the first such interest in list order |
| `DemoAI.EmptyInterestMatchesAll` | client/src/utils/demoAI.ts:19-22 | a piece that is empty after trimming occurs in every message, so without a greeting the interest rung is taken |
| `DemoAI.WeatherNeedsBoth` | client/src/utils/demoAI.ts:56-59 | the weather rung needs "hava" together with "nasıl" or "durumu" |
| `DemoAI.InterestReplyOpens` | client/src/utils/demoAI.ts:23 | the interest reply starts with the interest, its first character uppercased |
| `DemoAI.RepliesAddressUser` | client/src/utils/demoAI.ts:14-96 | every reply except a joke contains the name, or "dostum" when the name is empty |
| `DemoAI.InterestReplyAddresses` | client/src/utils/demoAI.ts:23 | the interest reply contains the address |

## Left out

- Web Speech API: utterance set-up (language, pitch, rate), `speechSynthesis.cancel()` and `speak()` are not modelled. `SpeakText` models only the empty-text guard and `setText`. The browser's later calls to `onstart` and `onend`/`onerror` are the methods `UtteranceStarted` and `UtteranceEnded`.
- Timing: `setInterval`'s 50 ms period is not modelled; a tick is a call to `Tick`. When a new session starts before the old utterance's `onend`, two intervals are live at once. `OverlappingUtterances` and `LeakedTick` describe that case, and `Tick` and `StartMouthSimulation` state what happens to each interval; arbitrary interleavings of many sessions are not described by a lemma.
- `window.dispatchEvent`: each event is appended to the `events` field.
- UTF-16: a Dafny string is a sequence of Unicode scalar values, so lone surrogates are not representable. `length` is modelled by `Strings.Utf16Length`, which `UserStore.NextStyle` averages. Indexing is not:
  - `Speech.SpeechSynth.Tick` indexes the lowercased text by scalar value; in JavaScript a character outside the Basic Multilingual Plane takes two ticks, one per surrogate.
  - `DemoAI.Capitalize` keeps the whole first character; `charAt(0)` and `slice(1)` split an astral first character between its two surrogates.
- Floating point: volumes, pitch and `avgLength` are exact reals, so rounding is not modelled.
- Case mapping: `toLowerCase` and `toUpperCase` are uninterpreted `CaseMap` arguments. Locale rules such as Turkish dotted and dotless i, and changes in length, are not modelled.
- Regular expressions: the preference patterns and the name pattern are not modelled. Their capture groups and matches are arguments. The emoji test is modelled exactly, as a range of Unicode scalar values.
- Persistence (the zustand `persist` middleware and localStorage) is left out. So are the `get`/`set` mechanics: each action is a method on the state.
- `crypto.randomUUID()`, `new Date().toISOString()` and `Math.random()` are arguments.
- `Analysis.AnalyzeUserMessage`: every `addTopic` call uses one clock reading, `now`. In the source each call reads the clock separately.
- The network path of `chatWithAI` is left out: the 800 ms delay, `fetch`, JSON parsing and the fallbacks after an error. `ChatWithAI` returns `NetworkRequest` at that point. The history-dependent prompt that the request would carry is modelled by `PersonalizedSystemMessage` but not sent anywhere.
- `Conversation.IsDemoKey`: a JavaScript string cannot be null or undefined here, so `!apiKey` is only the empty-string test.
- `Analysis.PersonalizedSystemMessage`: the rendered text is proved to contain the name and the three style phrases; the other profile lines are stated about the slots (`SlotsForSpec`) rather than the text. The `history` parameter is not read by the source and is omitted.
- `Analysis.TopTopics`: the topic record is an insertion-ordered list of distinct keys, the order in which `Object.entries` reports string keys that are not integer-like. Integer-like keys, which JavaScript lists first, are not modelled, since no topic name is one.
- `Analysis.SortByCount`: stable insertion by count, like JavaScript's `Array.prototype.sort`. Its stability is not stated as a lemma; only sortedness and permutation are proved.
- `DemoAI.DemoResponse`: `name` and `interests` are arguments instead of a read of the user store.
- `chatWithDemoAI` (client/src/utils/demoAI.ts:100-128) is left out: it is an asynchronous wrapper with a timed delay and a callback.
- `extractPreferences`' lowercasing happens before the regex runs, which is not modelled. The captures passed in stand for matches on the lowercased message.
- `Conversation.ConversationStore.GetRecentMessages`: its ensures covers only the default count. Any other count is described by `Recent`'s contract.

## Notes on the source

- The demo thanks rung can never fire on "sağol". Every such message contains "sa", so the greeting rung answers first (`DemoAI.SagolIsGreeted`). The model keeps this behaviour as written.
- `startMouthSimulation` assigns a new interval to the module handle without clearing the previous one (client/src/utils/tts.ts:137). The older interval's handle is then lost, so nothing can ever clear it: the old utterance's `onend`/`onerror` calls `stopMouthSimulation`, which clears the interval the handle names, the newer one (`OverlappingUtterances`). Once the leaked interval reaches the end of its text, every one of its ticks calls `stopMouthSimulation` again, clearing whatever interval the handle names at that moment, which can cut a later session short, and publishing silence, forever (`LeakedTick`). The model keeps this behaviour as written.
