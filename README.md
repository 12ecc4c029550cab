# J.A.R.V.I.S. assistant core in Dafny

J.A.R.V.I.S. is a personal-assistant web application. Its browser side
holds the parts modelled here:

- **The engine** (`JarvisEngine`) keeps two pieces of state. The first is a
  long-term memory of facts about the user. It is sorted by importance,
  highest first, cut to fifty records, and rendered as a bullet list for
  the language model's instructions. The second is a counter of how often
  each command word has been used.
- **The decision engine** (`analyzeContext`) reads one input. Its keyword
  rules give a score, a tone, a strategy flag at score 50, an
  image-request flag and a reasoning trace.
- **The offline fallback** gives a canned reply when the browser is
  offline.
- **The proactivity check** turns the task list into advice about overdue
  tasks, a backlog, or a cleared list.
- **The assistant page** (`Assistant`) runs one exchange (`handleSend`).
  It guards the input, adds the user's entry, consults the engine, saves
  important texts to memory, and builds the request from the
  conversation history. Then it shows the first generated image, or grows
  a streamed reply chunk by chunk. It classifies errors into a quota
  advice or a generic message.
- **The speech step** (`generateSpeech`, with the PCM decoding of
  `playPCM`) decodes the audio and reports quota errors.
- **The dashboard** formats the server's uptime as hours and minutes.

Files:

| file | module | contents |
|---|---|---|
| `wrappers.dfy` | `Wrappers` | `Option` and `Result` |
| `text.dfy` | `Text` | string predicates, lower-casing, split and join, decimal numbers |
| `seqs.dfy` | `Seqs` | `Array.prototype.filter` and its laws |
| `memory.dfy` | `LongTermMemory` | the stable importance sort (in place on an array), consolidation, rendering |
| `context.dfy` | `ContextAnalysis` | the keyword rules of `analyzeContext` as functions and their properties |
| `engine.dfy` | `Engine` | the command counter and the `JarvisEngine` class |
| `offline.dfy` | `OfflineFallback` | `getOfflineResponse` |
| `proactivity.dfy` | `Proactivity` | `checkProactivity` |
| `pcm.dfy` | `Pcm` | the byte-to-sample decoding of `playPCM` |
| `dashboard.dfy` | `Dashboard` | `formatUptime` |
| `exchange.dfy` | `Exchange` | `handleSend`, `generateSpeech`, the proactive effect, and the `Assistant` page class |

How the source's state becomes Dafny state:

- The engine is a class whose methods change its fields.
- The page's React state (transcript, input, loading and speaking flags,
  reasoning log) is a class whose methods stand for the state updates of
  `handleSend`.
- An exchange is split at the call to the remote model. `Submit` runs up
  to the request and records it in `pending`. `Complete` takes what the
  model returned and finishes the exchange.
- Clock readings, the online flag, the local time text, the task list and
  what the remote services return are parameters.

## Model

| member | source | states |
|---|---|---|
| Text.Lower | src/lib/JarvisEngine.ts:125 | lower-casing keeps the length, leaves no capital (A..Z, À..Þ but ×) in the result, and keeps every other character in its place |
| Text.LowerIdempotent | src/lib/JarvisEngine.ts:125 | lower-casing twice is lower-casing once |
| Text.LowerOfLowerCase | src/lib/JarvisEngine.ts:147-164 | a text without capitals, such as every keyword the rules look for, is its own lower-case form |
| Text.LowerAppend | src/lib/JarvisEngine.ts:125 | lower-casing a concatenation is the concatenation of the lower-cased parts |
| Text.TakeUntil | src/lib/JarvisEngine.ts:138 | the first field of `split(' ')` is a prefix of the text, holds no separator, and is followed by the separator when it is shorter than the text |
| Text.TakeUntilAppend | src/lib/JarvisEngine.ts:138 | the first field of `a + sep + b`, with no separator in `a`, is `a` |
| Text.SplitJoin | src/lib/JarvisEngine.ts:120 | splitting the joined parts on a separator that none of them holds gives the parts back |
| Text.JoinSeparators | src/lib/JarvisEngine.ts:120 | joining n parts that do not hold the separator puts exactly n - 1 separators in the text |
| Text.NatToString | src/lib/JarvisEngine.ts:197 | the decimal form of a count is a non-empty string of digits without a leading zero |
| Text.ParseNatToString | src/pages/Dashboard.tsx:20 | the decimal form of a number reads back as the number |
| Seqs.FilterAppend | src/lib/JarvisEngine.ts:195 | filtering distributes over concatenation |
| Seqs.FilterMembership | src/lib/JarvisEngine.ts:195 | an element is kept iff it is in the list and passes the test |
| Seqs.FilterEmpty | src/lib/JarvisEngine.ts:196 | the filter is empty iff no element passes the test |
| Seqs.FilterFirst | src/lib/JarvisEngine.ts:197 | the first element of the filter is the first element of the list that passes the test |
| Seqs.FilterAll | src/lib/JarvisEngine.ts:200 | a list whose every element passes the test is kept whole |
| LongTermMemory.InsertAfterEqual | src/lib/JarvisEngine.ts:100 | one step of the stable sort adds one record; its placement is given by InsertAfterEqualPermutes, InsertAfterEqualSorted and InsertAfterEqualAtEnd |
| LongTermMemory.SortByImportance | src/lib/JarvisEngine.ts:100 | the stable sort highest first; SortSorted and SortOfSorted state that it sorts, permutes and leaves sorted lists alone |
| LongTermMemory.Consolidate | src/lib/JarvisEngine.ts:93-101 | push, sort and keep fifty; its Consolidate* lemmas and FullCacheAdmission state the result |
| LongTermMemory.InsertAfterEqualPermutes | src/lib/JarvisEngine.ts:100 | one insertion step adds exactly the new record to the multiset |
| LongTermMemory.InsertAfterEqualSorted | src/lib/JarvisEngine.ts:100 | inserting into a list sorted by importance keeps it sorted |
| LongTermMemory.SortSorted | src/lib/JarvisEngine.ts:100 | the importance sort gives a list sorted highest first that is a permutation of its input |
| LongTermMemory.SortOfSorted | src/lib/JarvisEngine.ts:100 | sorting an already sorted list changes nothing (the sort is stable) |
| LongTermMemory.InsertAfterEqualAtEnd | src/lib/JarvisEngine.ts:100 | a record no more important than the last one of a sorted list goes to the end |
| LongTermMemory.InsertInPlace | src/lib/JarvisEngine.ts:100 | one pass of the in-place insertion sort inserts `a[i]` into the sorted prefix after its equals and leaves the rest of the array alone |
| LongTermMemory.SortInPlace | src/lib/JarvisEngine.ts:100 | the array ends holding the stable importance sort of its old contents |
| LongTermMemory.ConsolidateShape | src/lib/JarvisEngine.ts:93-101 | after a save the cache holds min(n + 1, 50) records, sorted by importance |
| LongTermMemory.ConsolidateOnlyKnownRecords | src/lib/JarvisEngine.ts:93-101 | every record of the new cache was in the old cache or is the new record, counted with multiplicity |
| LongTermMemory.ConsolidateKeepsMostImportant | src/lib/JarvisEngine.ts:100-101 | every record the cut drops is no more important than any record kept |
| LongTermMemory.ConsolidateSortedCache | src/lib/JarvisEngine.ts:100-101 | on a sorted cache, a save inserts the record after all records at least as important and cuts to fifty |
| LongTermMemory.FullCacheAdmission | src/lib/JarvisEngine.ts:100-101 | a full cache admits a new record iff it is strictly more important than the last record; a tie leaves the cache unchanged |
| LongTermMemory.InsertAfterEqualPosition | src/lib/JarvisEngine.ts:100-101 | in a sorted list a record more important than the last lands within the first n places |
| LongTermMemory.RenderMemories | src/lib/JarvisEngine.ts:117-121 | the bullet list of the cache; RenderEmptyIff and RenderLines state its shape |
| LongTermMemory.RenderEmptyIff | src/lib/JarvisEngine.ts:117-121 | the rendered memory is empty iff the cache is |
| LongTermMemory.RenderLines | src/lib/JarvisEngine.ts:117-121 | with no line break in any fact, the rendering has one `- content` line per record, in cache order, and n - 1 line breaks |
| Engine.Record | src/lib/JarvisEngine.ts:139 | recording a key adds one use of that key and changes no other count |
| Engine.ReplayCounts | src/lib/JarvisEngine.ts:139 | after a run of commands each key's count grows by the number of its uses |
| Engine.RepeatBonusIff | src/lib/JarvisEngine.ts:139-143 | on a fresh engine the repeat bonus is given iff the key was used at least three times before |
| Engine.FourthUseEarnsBonus | src/lib/JarvisEngine.ts:140-143 | the third use counts 3 (no bonus) and the fourth counts 4 (bonus) |
| Engine.JarvisEngine.constructor | src/lib/JarvisEngine.ts:10-17 | a new engine has an empty cache and an empty counter |
| Engine.JarvisEngine.LoadLTM | src/lib/JarvisEngine.ts:70-85 | the stored records replace the cache when the server holds them; otherwise the cache is kept |
| Engine.JarvisEngine.SaveToLTM | src/lib/JarvisEngine.ts:91-115 | the cache becomes the consolidation of the old cache with the new record, sorted and within fifty records; the counter is unchanged |
| Engine.JarvisEngine.GetLTM | src/lib/JarvisEngine.ts:87-89 | the cache as it stands |
| Engine.JarvisEngine.GetLTMAsString | src/lib/JarvisEngine.ts:117-121 | the rendering of the cache, RenderMemories |
| Engine.JarvisEngine.CountCommand | src/lib/JarvisEngine.ts:139 | the counter gains one use of the key, and the new count is returned |
| Engine.JarvisEngine.AnalyzeContext | src/lib/JarvisEngine.ts:124-180 | the result is the rule-by-rule decision for the lower-cased input, with the repeat bonus iff the key's new count exceeds three; the counter gains exactly that key |
| ContextAnalysis.Score | src/lib/JarvisEngine.ts:126-164 | the sum of the bonuses of the rules that fire; ScoreBounds and StrategyByKeywords state its range and threshold |
| ContextAnalysis.Tone | src/lib/JarvisEngine.ts:127-164 | the engineering tone when an engineering word occurs, else the casual tone for a greeting, else the default |
| ContextAnalysis.Trace | src/lib/JarvisEngine.ts:128-171 | the reasoning trace; TraceShape, RuleNotesInOrder and FrequentNoteIff state its shape |
| ContextAnalysis.IsImageRequest | src/lib/JarvisEngine.ts:130-135 | the regular expression or one of the two leading phrases; ImageRequestByPattern states when it holds |
| ContextAnalysis.CommandKey | src/lib/JarvisEngine.ts:138 | the first space-separated word or "unknown"; CommandKeyShape states it |
| ContextAnalysis.Decide | src/lib/JarvisEngine.ts:124-180 | the whole decision; StrategyByKeywords, UrgencyForcesStrategy, TraceShape and UrgentServerExample state its properties |
| ContextAnalysis.RuleNotesInOrder | src/lib/JarvisEngine.ts:147-164 | when two rules fire, the earlier rule's note comes first: the critical note before the engineering note, and the greeting note before the engineering note |
| ContextAnalysis.ScoreBounds | src/lib/JarvisEngine.ts:126-164 | the score lies in 0..135 |
| ContextAnalysis.StrategyByKeywords | src/lib/JarvisEngine.ts:140-166 | strategy mode is on iff an urgency word occurs, or an engineering word occurs together with an analytic word or a greeting; the repeat bonus never changes it |
| ContextAnalysis.UrgencyForcesStrategy | src/lib/JarvisEngine.ts:147-168 | any urgency word forces a score of at least 50 and strategy mode |
| ContextAnalysis.NotesAreNotDecisions | src/lib/JarvisEngine.ts:128-164 | no entry before the decision line starts with `DECISÃO:` |
| ContextAnalysis.TraceShape | src/lib/JarvisEngine.ts:128-171 | the trace opens with the start note and closes with its only `DECISÃO:` line, the strategic one iff the score reaches 50 |
| ContextAnalysis.FrequentNoteIff | src/lib/JarvisEngine.ts:140-143 | the frequent-command note is in the trace iff the repeat bonus was given |
| ContextAnalysis.ImageRequestByPattern | src/lib/JarvisEngine.ts:130-135 | a drawing verb followed later on the same line by a space and a picture noun makes an image request and puts the image note in the trace |
| ContextAnalysis.ImageExample | src/lib/JarvisEngine.ts:131-132 | "gera uma imagem de um gato" is an image request |
| ContextAnalysis.CommandKeyShape | src/lib/JarvisEngine.ts:138 | the command key is the text before the first space, or "unknown" when that is empty |
| ContextAnalysis.UrgentServerExample | src/lib/JarvisEngine.ts:124-180 | "Isto é urgente, há um erro no servidor" scores 90, takes the engineering tone, turns strategy mode on and is no image request |
| OfflineFallback.OfflineResponse | src/lib/JarvisEngine.ts:183-188 | every offline reply starts with the `[MODO OFFLINE]` tag |
| OfflineFallback.OfflinePrecedence | src/lib/JarvisEngine.ts:183-188 | the task hint is given iff "tarefa" occurs; the time echo iff not, but "horas" or "tempo" does; the generic reply iff neither |
| OfflineFallback.TimeEcho | src/lib/JarvisEngine.ts:186 | the time reply; TimeEchoCarriesTime states that the time text can be read back |
| OfflineFallback.TimeEchoCarriesTime | src/lib/JarvisEngine.ts:186 | the local time text can be read back from the time echo |
| OfflineFallback.WhatTimeIsItExample | src/lib/JarvisEngine.ts:186 | "que horas são" is answered with the time echo |
| Proactivity.OverdueFirst | src/lib/JarvisEngine.ts:195-198 | any overdue task gives the alert counting all overdue tasks and naming the first |
| Proactivity.BacklogSecond | src/lib/JarvisEngine.ts:200-203 | with nothing overdue and more than three pending, the advice counts the pending tasks and names the first |
| Proactivity.RestThird | src/lib/JarvisEngine.ts:205-208 | nothing pending and more than five completed gives the congratulation |
| Proactivity.NoAdviceIff | src/lib/JarvisEngine.ts:191-211 | there is no advice iff no rule applies |
| Proactivity.AdviceKind | src/lib/JarvisEngine.ts:191-211 | the alert comes iff a task is overdue; the congratulation iff nothing is overdue or pending and more than five are completed |
| Proactivity.OneOverdueExample | src/lib/JarvisEngine.ts:195-198 | one pending task due a day ago gives the alert for 1 task |
| Proactivity.FourPendingExample | src/lib/JarvisEngine.ts:200-203 | four undated pending tasks give the backlog advice naming the first |
| Proactivity.SixCompletedExample | src/lib/JarvisEngine.ts:205-208 | six completed tasks give the congratulation |
| Proactivity.TwoAndTwoExample | src/lib/JarvisEngine.ts:191-211 | two pending and two completed tasks give no advice |
| Proactivity.CheckProactivity | src/lib/JarvisEngine.ts:191-211 | the advice of the first rule that applies; OverdueFirst, BacklogSecond, RestThird, NoAdviceIff and AdviceKind state it in both directions |
| Pcm.ByteOf | src/pages/Assistant.tsx:238-241 | a byte array element lies in 0..255 and equals the code unit when it is below 256 |
| Pcm.Encode | src/pages/Assistant.tsx:243 | a 16-bit value is two bytes in 0..255 |
| Pcm.Int16Range | src/pages/Assistant.tsx:243 | every byte pair reads as a value in -32768..32767 |
| Pcm.DecodeEncode | src/pages/Assistant.tsx:243 | reading the bytes of a 16-bit value gives the value back |
| Pcm.EncodeDecode | src/pages/Assistant.tsx:243 | the bytes of a value read from a pair are that pair: the reading loses nothing |
| Pcm.SignBit | src/pages/Assistant.tsx:243 | a sample is negative iff the top bit of its high byte is set |
| Pcm.Int16 | src/pages/Assistant.tsx:243 | the signed little-endian value of a byte pair; Int16Range, DecodeEncode, EncodeDecode and SignBit state it |
| Pcm.SampleAt | src/pages/Assistant.tsx:243-246 | sample i of the binary string, from bytes 2i and 2i + 1 |
| Pcm.SamplesRoundTrip | src/pages/Assistant.tsx:236-247 | the binary string of any 16-bit samples has even length and reads back sample by sample as those samples |
| Pcm.DecodePcm | src/pages/Assistant.tsx:236-247 | odd length fails with the range error; otherwise one sample per byte pair, each the little-endian signed value over 32768, all in [-1, 1) |
| Dashboard.UptimeFields | src/pages/Dashboard.tsx:17-21 | for a non-negative uptime the minutes lie in 0..59 and 3600 h + 60 m <= s < 3600 h + 60 m + 60 |
| Dashboard.UnderAnHour | src/pages/Dashboard.tsx:17-21 | less than an hour shows 0 hours and the whole minutes |
| Dashboard.WholeSeconds | src/pages/Dashboard.tsx:18-19 | for whole seconds the fields are `s / 3600` and `(s % 3600) / 60` |
| Dashboard.ParseDisplay | src/pages/Dashboard.tsx:20 | a display built from two digit strings reads back as their two values |
| Dashboard.FormatParse | src/pages/Dashboard.tsx:17-21 | the display of a non-negative uptime reads back as exactly its hours and minutes |
| Dashboard.Example3725 | src/pages/Dashboard.tsx:17-21 | 3725 seconds show as "1h 2m" |
| Dashboard.Hours | src/pages/Dashboard.tsx:18 | the whole hours; UptimeFields and WholeSeconds state them |
| Dashboard.Minutes | src/pages/Dashboard.tsx:19 | the whole minutes of the remainder; UptimeFields and WholeSeconds state them |
| Dashboard.FormatUptime | src/pages/Dashboard.tsx:17-21 | the "Hh Mm" display; FormatParse states that it reads back as its two fields |
| Exchange.UserTextNonEmpty | src/pages/Assistant.tsx:304-320 | whatever passes the guard gets a non-empty entry text, the typed text whenever something was typed |
| Exchange.PlaceholderByKind | src/pages/Assistant.tsx:315-320 | an attachment without text gets the placeholder of its kind (video, then voice, then image); a text of spaces is kept |
| Exchange.PartsShape | src/pages/Assistant.tsx:353-369 | the request has one text part, and a second, inline part iff there is an attachment |
| Exchange.UserText | src/pages/Assistant.tsx:315-320 | the typed text or the attachment's placeholder; UserTextNonEmpty and PlaceholderByKind state it |
| Exchange.RequestParts | src/pages/Assistant.tsx:353-369 | the request parts; PartsShape states their shape |
| Exchange.History | src/pages/Assistant.tsx:371-374 | the history is no longer than the transcript |
| Exchange.HistoryAppend | src/pages/Assistant.tsx:371-374 | the history of a concatenation is the concatenation of the histories |
| Exchange.HistoryIsFilteredTranscript | src/pages/Assistant.tsx:371-374 | the history is the non-system entries, in order, each as a turn, and holds no system turn |
| Exchange.HistoryOfAppended | src/pages/Assistant.tsx:371-374 | a system entry adds nothing to the history; any other entry adds its own turn |
| Exchange.DataUrl | src/pages/Assistant.tsx:386 | the image URL is a `data:` URL |
| Exchange.FirstInlineIsFirst | src/pages/Assistant.tsx:383-389 | the image found is the inline data of the first part that has some, and none is found iff no part has any |
| Exchange.FirstInline | src/pages/Assistant.tsx:383-389 | the first inline data; FirstInlineIsFirst states that it is the first |
| Exchange.FindImageUrl | src/pages/Assistant.tsx:383-389 | the loop gives "" iff no part has inline data, else the data URL of the first part that has some |
| Exchange.ErrorClassification | src/pages/Assistant.tsx:439-443 | the quota advice is shown iff the error names 429, quota or RESOURCE_EXHAUSTED; the generic message otherwise |
| Exchange.ErrorText | src/pages/Assistant.tsx:439-443 | the message for a failure; ErrorClassification states it both ways |
| Exchange.SpeechAlert | src/pages/Assistant.tsx:282-293 | the speech quota entry; SpeechAlertOnlyForServiceQuota states when it appears |
| Exchange.ImageFailureIsGeneric | src/pages/Assistant.tsx:401 | an image response without image data is reported with the generic message |
| Exchange.SpeechAlertOnlyForServiceQuota | src/pages/Assistant.tsx:276-293 | the speech quota alert is added iff the speech service failed with a quota error; audio of odd length fails silently |
| Exchange.UndefinedChunk | src/pages/Assistant.tsx:418 | as written, a chunk without text adds "undefined" to the reply; the corrected accumulation adds nothing |
| Exchange.ConcatSkipsTextless | src/pages/Assistant.tsx:416-420 | the corrected reply is the reply of the chunks that carry text |
| Exchange.ConcatAllText | src/pages/Assistant.tsx:416-420 | when every chunk carries text, both accumulations agree, and the reply is as long as all chunk texts together |
| Exchange.Concat | src/pages/Assistant.tsx:416-420 | the corrected reply text; ConcatSkipsTextless and ConcatAllText state it |
| Exchange.ConcatAsWritten | src/pages/Assistant.tsx:418 | the reply text as written; UndefinedChunk shows how it differs |
| Exchange.Grow | src/pages/Assistant.tsx:413-420 | the transcript after the chunks; GrowFreshPlaceholder and ReceiveStream state it |
| Exchange.Rewrite | src/pages/Assistant.tsx:419 | rewriting keeps the transcript's length |
| Exchange.RewriteTwice | src/pages/Assistant.tsx:416-420 | only the last rewrite counts |
| Exchange.GrowFreshPlaceholder | src/pages/Assistant.tsx:413-420 | with a new id, the stream changes only the placeholder, which ends with the whole reply |
| Exchange.ReceiveStream | src/pages/Assistant.tsx:416-420 | the loop ends with the concatenated reply, and the transcript is rewritten with it |
| Exchange.FailureEndsWithErrorTurn | src/pages/Assistant.tsx:404-450 | a failed exchange ends with exactly one flagged system entry: after everything that was there before when the request is refused, and, when the stream breaks mid-way, after the placeholder holding the text received so far (earlier entries untouched when the id is new) |
| Exchange.BrokenStreamEntries | src/pages/Assistant.tsx:413-450 | a stream that breaks leaves the earlier entries, the placeholder with the received text, and the error entry last |
| Exchange.ImageReplyShowsFirstImage | src/pages/Assistant.tsx:383-397 | a successful image reply shows the first inline image as a data URL |
| Exchange.ImageReply | src/pages/Assistant.tsx:377-402 | the entries of the image branch; ImageReplyShowsFirstImage and FailureEndsWithErrorTurn state them |
| Exchange.StreamReply | src/pages/Assistant.tsx:404-450 | the transcript after the stream branch; FailureEndsWithErrorTurn and GrowFreshPlaceholder state it |
| Exchange.Assistant.constructor | src/pages/Assistant.tsx:41-52 | the page opens with the two greeting entries, idle |
| Exchange.Assistant.Advise | src/pages/Assistant.tsx:139-162 | the engine's advice is appended as a model entry iff there is some and the rendered transcript has at most two entries |
| Exchange.Assistant.Submit | src/pages/Assistant.tsx:303-374 | blank input or a busy page changes nothing; offline, the user entry and the canned reply are appended and the engine is untouched; online, the engine counts and analyses the text, a score of 50 with typed text saves it to memory, and the request carries the history of the earlier transcript plus the user's turn |
| Exchange.Assistant.Open | src/pages/Assistant.tsx:309-330 | the input is cleared, the page is loading and the user's entry is appended |
| Exchange.Assistant.AnswerOffline | src/pages/Assistant.tsx:334-339 | the canned reply is appended and loading stops |
| Exchange.Assistant.Consult | src/pages/Assistant.tsx:342-374 | the decision, the memory save, the reasoning log and the request, as in `Submit`'s online case |
| Exchange.Assistant.Speak | src/pages/Assistant.tsx:261-294 | the speech quota alert is appended exactly for a quota error, and speaking ends once audio was handled |
| Exchange.Assistant.Complete | src/pages/Assistant.tsx:376-453 | the transcript gains the image reply or the stream reply (with its error or speech alert), loading stops and the request is cleared |
| Exchange.Assistant.FinishImage | src/pages/Assistant.tsx:377-402 | the first image, or the error entry, is appended; the caption is spoken when voice is on |
| Exchange.Assistant.FinishStream | src/pages/Assistant.tsx:404-424 | a refusal appends the error entry; otherwise a placeholder is grown chunk by chunk, then followed by the breaking error or the speech step |

## Left out

- Network and persistence are outside the model. This covers the memory fetch and save, the task fetch, the chat log POST and the three remote models. What they return is an input: `LoadLTM`'s `stored`, `Advise`'s tasks, and `Complete`'s `image`, `stream` and `speech`. A failed save leaves the cache as consolidated, which the model has.
- `playFeedbackSound` and the audio context are left out. They only make sounds.
- Audio playback is left out, and so is base64 decoding (`atob`). `Speech.SpeechAudio` carries the decoded binary string.
- `Exchange.Assistant.Speak`: playback is instantaneous here. `isSpeaking` is true only during the playback step.
- `Pcm.DecodePcm`: samples are exact reals, not 32-bit floats. The bytes are read little-endian, as on every platform the page runs on.
- `Dashboard.FormatParse`: the seconds are exact reals, not IEEE doubles. `NaN` and infinities are not modelled, and negative uptimes are formatted but not read back.
- Strings are sequences of Unicode scalar values, not UTF-16 code units. A character outside the Basic Multilingual Plane has length 1 here and 2 in JavaScript. No keyword, separator or byte string the core inspects is affected.
- `Text.Lower`: case mapping covers only ASCII and Latin-1, not the full Unicode table of `toLowerCase`.
- Clock readings are parameters. Every `Date.now()` of one exchange is taken as the same reading, so reply ids are `clock + 1`. Memory records take the id and timestamp as given.
- The system-instruction template `getSystemInstruction` and the reasoning toggle (`jarvis_reasoning`) are left out. The request records the tone, the memory text and the strategy flag that feed the template.
- The voice toggle read from `localStorage` is the `voiceEnabled` parameter.
- The text sent to the speech service is left out. Only the service's answer matters.
- So is the image model's request content. It is the typed text.
- `Engine.JarvisEngine.GetLTM`: the caller gets a copy of the cache, not a reference. The in-place push and sort on the shared array is modelled by a fresh array in `SaveToLTM`.
- Keys of the counter that clash with `Object.prototype` names (e.g. "constructor") are not modelled. The counter is a plain map.
- How an error value becomes text (`message`, `JSON.stringify`, `toString`) is left out. The error enters as its text.
- `Pcm.OddLengthError` is the range error message as V8 words it. Other engines word it differently; either way it is not a quota error.
- `Exchange.Assistant.Submit`: the guard uses the loading flag as one value. The race between the loading ref and React state is not modelled.
- `Exchange.Assistant.Advise`: the effect reads the transcript of the first render. That is the `rendered` parameter.
- The loading of the stored memory at engine construction is asynchronous. It is a separate call, `LoadLTM`.
- `Exchange.ReceiveStream`, `Exchange.Grow`, `Exchange.StreamReply` and `Exchange.Assistant.FinishStream` use the corrected accumulation `Exchange.Concat`: a chunk without text adds nothing, where `fullText += chunk.text` in the page adds the word "undefined". `Exchange.ConcatAsWritten` is the page as written (see ## Findings).
- The remaining page handlers are not part of this model: file upload, recording, copy, settings and rendering.

## Findings

| source | as written | input that shows it | evidently intended | confidence | as-written member | corrected member |
|---|---|---|---|---|---|---|
| src/pages/Assistant.tsx:418 | `fullText += chunk.text` appends the chunk's text even when the chunk carries none, so `undefined` becomes the word "undefined" | a stream whose last chunk carries only metadata (no text part): chunks `[Some("Olá"), None]` give "Olá" + "undefined" | a chunk without text adds nothing to the reply | medium, not executed | Exchange.UndefinedChunk | Exchange.ConcatSkipsTextless |

`Exchange.ConcatAsWritten` is the accumulation as written. `Exchange.UndefinedChunk` exhibits the difference on the input above. `Exchange.Concat` is the corrected accumulation. `Exchange.ReceiveStream` and the rest of the model use it. `Exchange.ConcatSkipsTextless` proves that chunks without text leave it unchanged.
