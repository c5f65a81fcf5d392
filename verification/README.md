# Verification of the Anthropic–Gemini adapter

A Dafny 4.11 model of the stateful parts of the adapter, with machine-checked proofs of what they promise. Run
`dafny verify dfyconfig.toml` to check everything.

The adapter lets an Anthropic client talk to a Gemini upstream. Three pieces of it keep state that is easy to get wrong,
and these are modelled:

1. **The streaming converter and its stop-sequence filter.** `TextStopFilter` is an online multi-pattern matcher that
   holds back exactly the bytes that may still begin a stop sequence. `Converter` wraps it in the state machine that
   turns Gemini chunks into Anthropic stream events. The non-streaming conversion, with its own local enforcement of
   stop sequences, is modelled beside it, and the two are compared.
2. **Request translation and its inverse.** The two passes over the conversation, merging of adjacent turns, folding of
   supplements into tool results, and the round trip of thought signatures through the client.
3. **Shared state.** The two-level bounded signature store, against an unbounded history of the same calls, and the
   token provider, as interleaved steps of any number of callers.

Texts are byte sequences, as Go strings are. Code that works by updating variables is a class or a method with loops,
proved equal to a functional specification (`FeedText`, `RunStream`, `Respond`, `Build`, `Fold`, `Remembered`); the
theorems are about those specifications. Where map iteration order leaves a choice open (which of equally old entries
is evicted, in which order signatures are stored), the specification is a relation and the theorems hold for every
choice.

## How the files fit together

| files | subject |
|---|---|
| `Bytes` | byte strings and sequence lemmas |
| `StopMatching`, `StopFilter`, `StopChunking`, `Utf8` | the stop-sequence filter |
| `AnthropicEvents`, `GeminiModel` | the stream grammar, the client that reassembles messages, decoded Gemini parts |
| `StreamSpec`, `StreamConverter` | the streaming converter: specification and class |
| `StreamLegality`, `StreamText`, `StreamMemos`, `StreamOutcome`, `StopReasons` | theorems about whole streaming runs: grammar, text, what is remembered, name, failure and reason |
| `StreamCalls`, `CallKeys` | repeated calls: how often each is shown, and which cannot be told apart |
| `ResponseConversion`, `ResponseBlocks`, `ResponseOutcome` | the non-streaming conversion; its content block for block; refusals and reasons |
| `StopLoop`, `ResponseSignatures` | what its stop loop returns block for block, and its signature table |
| `Merging`, `Agreement`, `AgreementExactly` | streaming compared with non-streaming |
| `StreamSignatures` | the text blocks of a stream and their signatures |
| `RequestModel`, `FoldSupplements`, `FoldAlgebra` | decoded requests, folding and its algebra |
| `RequestContents`, `RequestTheorems`, `RequestRefusals` | building the turns; well-formedness and splitting; when and why a conversation is refused |
| `ToolResolution`, `ConversationContents` | what every call, result, text and media item of a conversation becomes |
| `RoundTrip`, `ResponseRoundTrip`, `ConversationRoundTrip` | content sent to the client and back: in general, from a response, and inside a longer conversation |
| `StreamRoundTrip`, `StreamCallIds`, `StreamEcho` | the same from a stream: on its message, and on its chunks |
| `SignatureStore`, `SignatureHistory`, `EntryHistory` | the bounded store and the unbounded history: sessions, and the entries in them |
| `SessionMemory` | a streaming run, the store, and a later request, together |
| `TokenProtocol`, `TokenOutcomes` | the token provider: its states; who is served from the cache, and what the cache holds |

## Results that are conditions, not slogans

Some properties one would expect do not hold of the code for every input. The model keeps the code as it is, and the
exact condition is proved instead:

- **Cuts of the stream.** With stops `abcd` and `bc`, the text `abcd` shows nothing in one chunk and `a` when it is cut
  after `abc` (`CutsMatter`). The visible text is independent of the cuts if and only if every proper prefix of a stop
  sequence that contains a stop sequence contains one at its start (`VisibleIndependentExactly`); the reported match is
  independent as well if and only if the first listed stop there is also the one the whole stop sequence reports
  (`OutcomeIndependentExactly`). Whether a stop is found at all never depends on the cuts.
- **Streaming and non-streaming.** A tool call does not flush the streaming filter, while the non-streaming loop
  flushes its filter at every block that is not text; and calls repeated in later chunks are dropped in streaming only.
  The two give the same message if and only if every call that is reached before a stop sequence has been said is no
  repeat and finds nothing held back (`StreamingAgreesExactly`; concrete inputs: `HeldTextDiffers`, `RepeatDiffers`).
- **Repeated calls.** A call of a later chunk is dropped if the stream has shown as many with the same name, arguments
  and signature, run together with colons. Different calls can have one such text (`ColonsShareKeys`), and then one of
  two is never shown (`SharedKeyLosesACall`). Every call is shown as often as the chunk has it that has it most often, in
  all streams made of given calls, if and only if no two of them share their text (`ShownOnceExactly`). Calls that differ
  in one thing only never do (`KeysDifferInOne`), nor do calls of tools without a colon in their names
  (`KeysDifferWithoutColon`).
- **The round trip.** A client may drop any thought_signature fields, of texts and of calls. Calls get their signatures
  back from the carriers, texts only if the field was kept or the server has stored the signature. The lookup of a
  signature under the raw id lets one call pick up the signature of another. So everything is restored, whatever is
  dropped, if and only if no id looks synthesized, what shares a key shares a signature, and no unsigned call has for its
  id the key of something signed (`ResponseRoundTrip.RoundTripExactly`; concrete input: `ToolKeyAsId`). For a stream the
  condition is about the calls of the chunks that are shown, without server state and with a server that remembers the
  run (`StreamEcho.PlainEchoExactly`). Among other messages, with any server table, it is that the conversation resolves
  the keys of each text and call as it should (`EchoRestoredAnywhereExactly`).
- **The non-streaming signature table.** Its entries are made before stop sequences are applied, so a text that is cut
  leaves an entry no block is named by (`StopOrphansEntry`). By the texts of the converted content and the stop list, the
  blocks up to the first whose run of text holds a stop come back; that one is cut at the stop, and those in front of it
  give what was held back before them plus their own, less what is held back after them (`StopLoop.LoopReturns`). Every
  entry names a block of the response if and only if each signed block has one among those that comes back with its id
  or text (`EntriesNameBlocksExactly`).
- **Folding in halves.** Halves of a user turn can be accepted although the whole is refused, exactly when a tool result
  follows supplemental content of the earlier half (`FoldInHalvesExactly`; concrete input:
  `ResultAfterSupplementDiffers`).
- **Retention.** With strictly increasing clock readings a session is found by a snapshot if and only if it was written,
  has not outlived its time, and fewer than `maxSessions` other sessions were written after it (`RetainedExactly`). Of
  the keys written since the session came to be it finds those with fewer than `maxEntries` others written in the same
  call or later, and none with as many written in later calls (`EntryRetained`); between the two the map order decides
  (`OrderDecidesTies`).
- **Rejected tokens.** `RefreshAfterRejection` hands out any other cached token without looking at its expiry; a run in
  which a caller gets an expired one is `ExpiredTokenIsHandedOut`.

Two remarks on the token protocol that follow from how it is modelled: a cancellation step changes only its own caller, so
it commutes with every step of anyone else (`TokenProtocol.CancelCommutes`); and after a rejection the cache is used
exactly if it holds another token (`TokenProtocol.RejectionIgnoresExpiry`).

## Model

| member | source | states |
|---|---|---|
| StopMatching.EarliestStop | pkg/adapter/gemini.go:1273-1285 | the loop over stop sequences returns the least position of the text at which any non-empty stop sequence occurs (or -1), and of those that occur there the first listed |
| StopMatching.MatchesStartInPending | pkg/adapter/gemini.go:1297-1317 | if the text so far is clear and `q` is its longest suffix that may begin a stop, then in any continuation a stop occurs at a place exactly if it starts inside `q` or later, so scanning `q` plus the new text misses nothing |
| StopMatching.ScanFromPending | pkg/adapter/gemini.go:1301-1306 | scanning only pending plus new text gives the same answer, position and matched sequence as scanning all text ever fed |
| StopMatching.KeepFromPending | pkg/adapter/gemini.go:1307-1316 | the longest held-back suffix computed from pending plus new text is the one of all text ever fed |
| StopMatching.StopFreeBefore | pkg/adapter/gemini.go:1273-1285 | what precedes the earliest stop contains no stop sequence, not even one that overlaps the match |
| StopFilter.TextStopFilter.constructor | pkg/adapter/gemini.go:1293-1295 | a new filter has nothing pending and has not stopped |
| StopFilter.TextStopFilter.Feed | pkg/adapter/gemini.go:1297-1318 | visible text, match and whole new state are those of the specification: nothing once stopped; the text before the earliest stop; or all but the longest suffix that may begin a stop |
| StopFilter.TextStopFilter.Flush | pkg/adapter/gemini.go:1320-1327 | releases what was pending and empties it, or nothing after a stop |
| StopFilter.LongestBeginning | pkg/adapter/gemini.go:1307-1314 | the nested loops find the greatest length of a suffix of the text that is a non-empty proper prefix of some stop sequence, or 0 |
| StopFilter.RunInvariant | pkg/adapter/gemini.go:1297-1318 | for every run: unstopped, released ++ pending is everything fed, which has no stop in it, and pending is the longest suffix of everything fed that may begin one; stopped, the release is the text seen at detection cut at its earliest stop and the match is the first listed one there |
| StopFilter.ReleasedIsStopFree | pkg/adapter/gemini.go:1297-1327 | neither what the Feeds release nor what they and the Flush release together contains a stop sequence |
| StopFilter.StoppedIsSilent | pkg/adapter/gemini.go:1298-1300 | after a match, no further Feeds and no Flush change anything |
| StopFilter.HoldBackIsOptimal | pkg/adapter/gemini.go:1307-1317 | whenever something is pending there is a next piece after which the filter stops with the earliest match exactly at the first pending byte, so nothing could have been released earlier |
| StopChunking.WhetherStopsIndependent | pkg/adapter/gemini.go:1297-1327 | for any two cuts of the same text it is the same whether a stop is found, namely exactly when the text contains one |
| StopChunking.VisibleIndependentExactly | pkg/adapter/gemini.go:1273-1327 | all cuts of every text show the same text if and only if every proper prefix of a stop that contains a stop contains one at position 0 |
| StopChunking.OutcomeIndependentExactly | pkg/adapter/gemini.go:1273-1327 | visible text and match are both independent of the cuts if and only if, moreover, such a prefix reports the same stop as the whole stop sequence |
| StopChunking.SimpleListsAreIndependent | pkg/adapter/gemini.go:1273-1327 | no stop strictly inside another is enough for the visible text, and no stop a proper prefix of another in addition for the match |
| StopChunking.VisibleIsCutText | pkg/adapter/gemini.go:1297-1327 | under the condition, the visible text of any cut is the whole text cut at its earliest stop, and the match the one found in the whole text |
| StopChunking.CutsMatter | pkg/adapter/gemini.go:1273-1318 | a concrete list and text for which two cuts show different text |
| Utf8.CutBetweenCharacters | pkg/adapter/gemini.go:1304-1316 | well-formed UTF-8 (sections 3 and 4 of RFC 3629) cut before a byte that is no tail byte gives two well-formed pieces |
| Utf8.FeedKeepsCharacters | pkg/adapter/gemini.go:1297-1318 | from well-formed pending text, new text and stops, one Feed releases and holds back well-formed text |
| Utf8.RunKeepsCharacters | pkg/adapter/gemini.go:1297-1318 | so does every run |
| Utf8.CodePointsAreNeverSplit | pkg/adapter/gemini.go:1297-1327 | every single Feed and Flush output of every run over well-formed pieces is well-formed, although all cuts are byte offsets |
| AnthropicEvents.Completable | pkg/adapter/gemini.go:966-1088 | every trace that has not left the grammar becomes a legal stream by the events that its position in the grammar calls for |
| GeminiModel.KeysAreDistinct | pkg/adapter/gemini.go:1541-1546 | tool keys and text keys are injective and never meet |
| GeminiModel.DecimalIsInjective | pkg/adapter/gemini.go:1533-1539 | counters written in decimal are distinct, so synthesized ids are |
| StreamConverter.Converter.constructor | pkg/adapter/gemini.go:953-964 | the closures' variables start out empty, with a fresh filter, and the converter is sound |
| StreamConverter.Converter.StartMessage | pkg/adapter/gemini.go:966-984 | message_start is written once, with the upstream's id and model or the fallbacks; grammar and signature keying are kept |
| StreamConverter.Converter.CloseText | pkg/adapter/gemini.go:985-1000 | an open text block is closed and its signature remembered under its text; grammar and signature keying are kept |
| StreamConverter.Converter.EmitText | pkg/adapter/gemini.go:1001-1032 | the whole new state after text went through the filter and, if any is visible, to the client; grammar and signature keying are kept |
| StreamConverter.Converter.Filter | pkg/adapter/gemini.go:1001-1011 | text goes through the filter, a match is noted, and nothing else changes |
| StreamConverter.Converter.ShowText | pkg/adapter/gemini.go:1012-1031 | visible text opens the message and a block if need be and is appended to it; grammar and signature keying are kept |
| StreamConverter.Converter.EmitTool | pkg/adapter/gemini.go:1033-1088 | the whole new state after a call: nothing after a stop; a failure for a nameless call; else carrier, if signed, and tool_use block; grammar and signature keying are kept |
| StreamConverter.Converter.ShowCall | pkg/adapter/gemini.go:1052-1086 | the carrier and tool_use blocks and their indices |
| StreamConverter.Converter.Identify | pkg/adapter/gemini.go:1105-1110 | only the first response id and model version count |
| StreamConverter.Converter.ProcessText | pkg/adapter/gemini.go:1138-1144 | text is emitted; an empty text's signature goes to the open block |
| StreamConverter.Converter.ProcessCall | pkg/adapter/gemini.go:1145-1155 | a call is emitted unless as many of its fingerprint have been emitted as this chunk has shown so far |
| StreamConverter.Converter.ProcessPart | pkg/adapter/gemini.go:1131-1155 | one turn of the parts loop, thoughts skipped |
| StreamConverter.Converter.ProcessParts | pkg/adapter/gemini.go:1129-1157 | the loop over a chunk's parts, ending at the first failure |
| StreamConverter.Converter.ProcessData | pkg/adapter/gemini.go:1090-1158 | one chunk: ignorable, undecodable, an upstream error, a blocked prompt, an invalid candidate, or parts; the trace stays inside the grammar and every remembered signature stays keyed by a client block |
| StreamConverter.Converter.ProcessAll | pkg/adapter/gemini.go:1164-1189 | chunks are processed in order up to the first failure |
| StreamConverter.Converter.FlushTail | pkg/adapter/gemini.go:1197-1206 | the held-back tail passes through emitText with the stop list switched off, and the list is restored |
| StreamConverter.Converter.Conclude | pkg/adapter/gemini.go:1213-1228 | the closing events name the stop reason and the matched stop |
| StreamConverter.Converter.Run | pkg/adapter/gemini.go:934-1230 | the loop ends in the state and with the failure of the specification; on success its trace is a legal stream and the client's text is the filter's release over the texts handed to it |
| StreamLegality.EveryRunIsLegal | pkg/adapter/gemini.go:966-1088 | for every chunk list and read outcome: success gives message_start, blocks 0,1,2,... one after the other (text with one or more non-empty deltas, carrier with none, tool_use with exactly one), message_delta, message_stop; failure gives a beginning of such a stream and one error event |
| StreamLegality.LegalHasNoError | pkg/adapter/gemini.go:1193-1196 | no error event stands in a legal stream or its beginning, so a failing run has exactly one |
| StreamText.ClientSeesFilteredText | pkg/adapter/gemini.go:1001-1032 | over a successful run all text deltas together are what the filter, Flush included, releases over the texts handed to emitText, and message_delta names its match |
| StreamText.TextIsConserved | pkg/adapter/gemini.go:1197-1218 | the client gets all text if it has no stop in it; otherwise the text handed by the time of detection, cut at its earliest stop, with stop_reason stop_sequence and the first listed match |
| StreamText.HaltedExactly | pkg/adapter/gemini.go:1006-1008 | the converter is past a match exactly if the texts handed to emitText so far hold a stop sequence |
| StreamText.StoppedStreamIsSilent | pkg/adapter/gemini.go:1033-1036 | once the texts handed over hold a stop sequence, no later chunk, calls included, writes an event |
| StreamText.NothingAfterTheStop | pkg/adapter/gemini.go:1190-1229 | nor does the end of the run, successful or failing, open a block or write a delta |
| StreamText.SilentFromTheMatch | pkg/adapter/gemini.go:1138-1155 | from the very text that completes a stop sequence: nothing opens or fills a block any more, neither a call in the same part, nor later parts of the chunk, later chunks, or the end of the run, whether it succeeds or fails |
| StreamCalls.CallsAreShownOnce | pkg/adapter/gemini.go:1129-1156 | in a successful stream with no stop the client's tool_use blocks whose name, input and signature run together with colons give a certain text number the maximum over all chunks of such calls among a chunk's non-thought parts |
| StreamCalls.EachIsShownOnce | pkg/adapter/gemini.go:1129-1156 | the same for each name, arguments and signature by themselves, if no two of the stream share their text |
| CallKeys.ShownOnceExactly | pkg/adapter/gemini.go:1145-1155 | for any set of calls: all successful streams without a stop that make only these show each of them as often as the chunk that has it most often, if and only if no two of them share their text |
| CallKeys.SharedKeyLosesACall | pkg/adapter/gemini.go:1146-1150 | of any two calls that share it, one in each of two chunks, one is not shown |
| CallKeys.KeysDifferInOne | pkg/adapter/gemini.go:1413-1417 | calls that agree in two of name, arguments and signature and differ in the third never share it |
| CallKeys.KeysDifferWithoutColon | pkg/adapter/gemini.go:1413-1417 | nor do different calls whose names have no colon and whose arguments are not one the beginning of the other, as JSON objects never are |
| CallKeys.ColonsShareKeys | pkg/adapter/gemini.go:1413-1417 | two different calls that do share it |
| StreamOutcome.FailsExactly | pkg/adapter/gemini.go:1090-1196 | a run fails with the first fault of its chunks (undecodable, an upstream error, an unreadable candidate), else if reading failed, and in no other case; its last event says so |
| StreamOutcome.FailedRunKeepsText | pkg/adapter/gemini.go:1190-1196 | the client of a failing run keeps what the filter has released over the chunks before the fault |
| StreamOutcome.StreamTellsReason | pkg/adapter/gemini.go:1213-1218 | every successful run that met no stop names the reason for the last finish reason, a blocked prompt counting as SAFETY, and for whether the client holds a tool_use block |
| StreamOutcome.MessageIsNamed | pkg/adapter/gemini.go:966-984 | the message has the first response id and model version named up to the chunk that first writes anything, or else a synthesized id and the fallback model |
| StopReasons.MapIsTold | pkg/adapter/gemini.go:882-897 | max_tokens exactly for MAX_TOKENS, refusal exactly for the seventeen names of refusals, and otherwise tool_use or end_turn by whether there are calls |
| StreamSignatures.TextsAreSpoken | pkg/adapter/gemini.go:985-1032 | the text blocks of a stream without errors are, in order, the runs of visible text between the calls shown; each shows the signature that came with its first visible text, and what is remembered for its text is the last signature that came with a visible part of it, or in an empty text behind it |
| StreamMemos.SignaturesAreKeyedByClientBlocks | pkg/adapter/gemini.go:985-1055 | every signature remembered in a successful run is under the key of a block exactly as the client reassembles it, tail included, and every signed block is named by one |
| ResponseConversion.Convert | pkg/adapter/gemini.go:758-809 | the parts loop builds the specified content, signature table, tool flag and id counter |
| ResponseBlocks.ContentIsOfParts | pkg/adapter/gemini.go:758-808 | the content of every response, block for block: a text block for each non-empty text that is no thought, with the last signature among its own part and the empty texts that follow with no block between; for each call a tool_use block with its id or the next number, its name, its arguments or an empty object and its signature, behind a carrier if signed; nothing else |
| ResponseOutcome.RespondsExactly | pkg/adapter/gemini.go:714-820 | a response is refused exactly if it has no candidate and no blocked prompt, or an unreadable candidate; a blocked prompt gives a text with its reason and a refusal; otherwise the content of the parts and the reason by finish reason and calls |
| ResponseOutcome.StopsComeLast | pkg/adapter/gemini.go:731 | stop sequences are applied to what is accepted and never change whether it is |
| ResponseConversion.ApplyStopSequences | pkg/adapter/gemini.go:1232-1271 | the block loop gives the specified content, stop reason and stop sequence |
| ResponseSignatures.TableIsOfContent | pkg/adapter/gemini.go:758-808 | before stop sequences are applied the signature table holds exactly the last signature of each key among the signed blocks, late signatures included |
| StopLoop.LoopReturns | pkg/adapter/gemini.go:1232-1271 | for every content and stop list, read off their texts: the blocks up to the first whose run of text holds a stop come back, that one cut at the earliest stop in what was held back and its own text; in front of it each text is what was held back before it plus its own, less what is held back after it, and everything else is unchanged; stop reason and sequence are those found at the cut |
| StopLoop.SurvivesExactly | pkg/adapter/gemini.go:1250-1269 | a block comes back unchanged if and only if it is reached and is no text, or a text whose own bytes and those held back before it are its own and those held back after it, or at the stop what the cut leaves |
| ResponseSignatures.EntriesNameBlocksExactly | pkg/adapter/gemini.go:731 | every entry names a block of the response if and only if, by the texts of the converted content and the stop list, each signed block has a block that the stop loop reaches and that comes back with its id or text |
| ResponseSignatures.UnchangedBlocksAreNamed | pkg/adapter/gemini.go:731 | this is so if the signed blocks come back unchanged, and without a stop list all blocks do |
| ResponseSignatures.StopOrphansEntry | pkg/adapter/gemini.go:1250-1262 | a concrete response whose only entry names no block, because a stop cut its text |
| Agreement.StreamFollowsPlan | pkg/adapter/gemini.go:1090-1158 | a stream without errors is, up to merging of text, a run over an abstract plan of texts, calls and repeated calls |
| Agreement.PlainFollowsPlan | pkg/adapter/gemini.go:744-808 | the non-streaming conversion of the same parts followed by the stop loop is a run over the same plan |
| Agreement.StreamMessage | pkg/adapter/gemini.go:934-1230 | the message a streaming client reassembles, with stop reason and sequence, is that of the plan's streaming run |
| Agreement.PlainMessage | pkg/adapter/gemini.go:710-820 | the non-streaming response is that of the plan's other run |
| AgreementExactly.Lockstep | pkg/adapter/gemini.go:1033-1042 | if every call comes in step both runs go through the same states |
| AgreementExactly.HeldTextMovesAcross | pkg/adapter/gemini.go:1240-1248 | text held back when a call arrives ends up on different sides of the call for good |
| AgreementExactly.RepeatLosesACall | pkg/adapter/gemini.go:1146-1156 | a repeat reached in step leaves the streaming client with fewer calls to the end, whatever follows |
| AgreementExactly.OutOfStepDiffers | pkg/adapter/gemini.go:1129-1158 | any call out of step makes the two contents differ |
| AgreementExactly.StreamingAgreesExactly | pkg/adapter/gemini.go:744-820 | for every response without errors or blocked prompt in whatever chunks, both clients get the same content, stop_reason and stop_sequence if and only if every call comes in step |
| AgreementExactly.TextOnlyAgrees | pkg/adapter/gemini.go:1001-1032 | they always agree on responses without calls, whatever the stop list and the chunks |
| AgreementExactly.NoStopListAgrees | pkg/adapter/gemini.go:1146-1156 | without a stop list they agree if and only if no call is taken for a repeat |
| AgreementExactly.HeldTextDiffers | pkg/adapter/gemini.go:1033-1042 | a concrete stream, text held back before a call, on which the two differ |
| AgreementExactly.RepeatDiffers | pkg/adapter/gemini.go:1146-1150 | a concrete stream, one call in two chunks, on which the two differ |
| FoldSupplements.FoldFunctionResponseSupplements | pkg/adapter/gemini.go:364-411 | the loop gives: the leading responses, the last of which has taken up all later texts and media in order; or the first offence; or the turn as it is if it has no responses |
| FoldSupplements.AppendFunctionResponseText | pkg/adapter/gemini.go:413-432 | text goes under the key the response has: by itself if that had none, else after what was there and a blank line |
| FoldSupplements.JoinHolds | pkg/adapter/gemini.go:1479-1483 | in texts joined with a separator every non-empty text stands whole, after a separator unless it is the first, at the offset given by the lengths of those before it |
| FoldSupplements.JoinLength | pkg/adapter/gemini.go:1479-1483 | the joined text has the lengths of the non-empty texts and of one separator between neighbours |
| FoldSupplements.JoinSnoc | pkg/adapter/gemini.go:413-432 | appending one text at a time the way a tool result takes it up is joining |
| FoldSupplements.FoldIsIdempotent | pkg/adapter/gemini.go:364-411 | a folded turn is all responses or has none, folds to itself, and is empty only if the turn was |
| FoldSupplements.UniformFolds | pkg/adapter/gemini.go:364-411 | a turn that is all responses or has none folds to itself |
| FoldAlgebra.FoldExactly | pkg/adapter/gemini.go:364-411 | a turn is accepted if and only if it is results followed by no result and, if there are results, only by texts and media of the five types a function response may have; it is unchanged without results, and otherwise the last result has its own text and all later ones joined by blank lines, and all later media |
| FoldAlgebra.FoldRefusal | pkg/adapter/gemini.go:373-405 | otherwise the first part that may not stand where it does decides the error |
| FoldAlgebra.HalvesAreAccepted | pkg/adapter/gemini.go:373-380 | if a turn is accepted so is each half, and no result follows supplements of the earlier half |
| FoldAlgebra.FoldInHalves | pkg/adapter/gemini.go:239-252 | folding an accepted turn half by half, as the merging of turns does, gives the same turn |
| FoldAlgebra.FoldInHalvesExactly | pkg/adapter/gemini.go:364-411 | for accepted halves, folding the folded halves together equals folding the whole, error included, if and only if not (the first half has results and supplements and the second has a result) |
| FoldAlgebra.FoldKeepsEverything | pkg/adapter/gemini.go:395-407 | all text of a turn, joined by blank lines, and all media are kept in order |
| FoldAlgebra.ResultAfterSupplementDiffers | pkg/adapter/gemini.go:373-380 | concrete halves that are accepted one after the other and refused together |
| RequestContents.NormalizeResult | pkg/adapter/gemini.go:1429-1490 | a tool result's text, error flag and media, or the first error, as specified |
| RequestContents.ConvertBlockList | pkg/adapter/gemini.go:262-362 | the block loop gives the specified parts, tool names and error, user parts folded |
| RequestContents.LearnFrom | pkg/adapter/gemini.go:188-214 | the first pass gives the specified tables, or nothing if a message is no object |
| RequestContents.BuildContents | pkg/adapter/gemini.go:178-260 | both passes together give the specified turns or error |
| RequestContents.Merge | pkg/adapter/gemini.go:239-258 | parts join the previous turn of the same role, a user turn being folded again |
| RequestTheorems.AcceptedContentsAreWellFormed | pkg/adapter/gemini.go:216-259 | for every accepted message list adjacent turns have different roles, no turn is empty, and each user turn is all functionResponse or has none |
| RequestTheorems.SplitUserMessage | pkg/adapter/gemini.go:239-252 | cutting the blocks of a user message anywhere into two messages, anywhere in a conversation, gives the same turns whenever the uncut conversation is accepted |
| ConversationContents.SourceExactly | pkg/adapter/gemini.go:434-485 | a media source is accepted exactly if it is a document's text, an accepted URL with a declared or inferred type, or base64 data; it becomes that text, the URL with its type, or the data with the declared type, else PDF for a document and PNG for an image |
| RequestRefusals.RefusedExactly | pkg/adapter/gemini.go:178-362 | a conversation is accepted exactly if every message is an object and nothing is wrong with it where it stands (role, content, each block and tool result, the order of a user's parts in the message and behind those of the same turn); otherwise it is refused for the first thing that is |
| ToolResolution.FoldKeepsFaces | pkg/adapter/gemini.go:364-411 | folding keeps every call and response with its name and id, in order |
| ToolResolution.ToolPartsAreResolved | pkg/adapter/gemini.go:185-331 | for every accepted conversation the turns hold, in order, one functionCall per tool_use and one functionResponse per tool_result; a response has the name its tool was last called by before it, else last anywhere; a call has its own signature, else that of the last carrier of its tool key or the server's, else the same for its raw id |
| ConversationContents.NormalizesAll | pkg/adapter/gemini.go:1429-1490 | an accepted tool result has the flag, the texts of its blocks and document sources joined line by line, and all media, in order |
| ConversationContents.ModelTurnsAreWhole | pkg/adapter/gemini.go:185-331 | for every accepted conversation the parts of the model turns are, one for one and in order, what the assistant's blocks become: texts and calls with their resolved signatures, media, results whole |
| ConversationContents.ConversationKeepsEverything | pkg/adapter/gemini.go:216-259 | for every accepted conversation, for user turns, model turns or all alike, the texts of the turns joined by blank lines are those of the messages and the media are those of the messages, in order, through all folding and merging |
| ConversationContents.EchoedTextIsSigned | pkg/adapter/gemini.go:278-288 | an assistant's text block without a signature, anywhere in an accepted conversation, becomes a text part with the signature of the last carrier for its text or else the server's |
| RoundTrip.EchoRestoresExactly | pkg/adapter/gemini.go:188-331 | for all content of texts and calls with their carriers: echoed with any signature fields dropped, of texts and calls, it comes back as one model turn, calls with their signatures, texts with theirs exactly if kept or stored, for every way of dropping, if and only if what shares a key shares a signature and no unsigned call has such a key for its id |
| ResponseRoundTrip.ConvertsToUnits | pkg/adapter/gemini.go:758-808 | the conversion of simple parts gives texts and calls with carriers, and a signature table that holds each key's last signature |
| ResponseRoundTrip.RoundTripExactly | pkg/adapter/gemini.go:744-808 | for every response of single-kind non-thought parts, whether the server remembers nothing or all the conversion told it: the parts come back with the same texts, names, args and ids, every call signature, and each text signature exactly if kept or remembered, for every way of dropping fields, if and only if no id looks synthesized, sharers agree, and no unsigned call's id is a key of something signed |
| ResponseRoundTrip.ToolKeyAsId | pkg/adapter/gemini.go:323-326 | a concrete response, an unsigned call named by the tool key of a signed one, that does not come back |
| StreamRoundTrip.StreamIsWellCarried | pkg/adapter/gemini.go:1056-1086 | in the message reassembled from any successful stream every signed call has its carrier right before it, every carrier its call, and no text is empty |
| StreamRoundTrip.StreamRoundTripExactly | pkg/adapter/gemini.go:1033-1088 | the round trip, without server state, of the message reassembled from any successful stream, under the same condition |
| StreamCallIds.ClientCallsAreThePlans | pkg/adapter/gemini.go:1033-1088 | the calls a streaming client of chunks without errors holds are, in order, those of the chunks that are no repeats and come before a stop sequence has been said, with their own ids, names and arguments, or with ids numbered on from the counter, of which the message has taken one first exactly if the upstream had not named it |
| StreamEcho.RememberedEchoExactly | pkg/adapter/gemini.go:985-1055 | for any successful stream and a server that holds what the run remembered: every text comes back with its own signature if the field was kept, else the run's last one for it, and every call with its own, for every way of dropping fields, if and only if calls of one id agree and no unsigned call's id is a key the run has remembered something under |
| StreamEcho.PlainEchoExactly | pkg/adapter/gemini.go:1033-1158 | both round trips of a stream, without server state and with what the run remembered, as conditions on the ids and signatures of the calls of the chunks that are shown |
| ConversationRoundTrip.EchoRestoredAnywhereExactly | pkg/adapter/gemini.go:216-258 | the round trip inside any accepted conversation with any other messages and any server table: for every way of dropping fields the echoed content comes back in place among the model turns' parts, merged with neighbours or not, if and only if the conversation's carriers and the server resolve each text's key to its signature, or to none if no server is to supply it, each signed call's key to its signature, and an unsigned call's key and raw id to nothing |
| ConversationRoundTrip.AloneIsRecoverable | pkg/adapter/gemini.go:188-331 | for an echo with no other messages that condition is the one of the round trip on its own |
| SessionMemory.StreamedTextIsRegained | pkg/adapter/gemini.go:278-288 | in every accepted conversation that anywhere echoes, without signature field or carrier, a text the run has a signature for, the text gets that signature back while the server's table has it, even if the client never saw it |
| SessionMemory.SignedTextIsRemembered | pkg/adapter/gemini.go:988-991 | every text block the client holds with a signature is among those |
| SessionMemory.LateSignatureIsRemembered | pkg/adapter/gemini.go:1142-1144 | so is a text whose signature comes in an empty part behind it, which the client is given unsigned |
| SessionMemory.RunWritesLatest | pkg/adapter/gemini.go:989-992 | if a session's last store calls under a key are the run's, wherever other calls stand between them, the unbounded history has the run's latest signature for it |
| SessionMemory.RetainedTextIsRegained | pkg/adapter/signature_store.go:45-93 | stream, store and conversation together: while the bounded store retains the entry, and no later call of the session wrote the same text, every accepted conversation that echoes the text anywhere gets the run's signature back |
| SessionMemory.SurvivingTextIsRegained | pkg/adapter/signature_store.go:45-124 | the same with nothing assumed about the store: the entry is there if the session has gone on since it was written and fewer than maxEntries other keys of it have been written in the same call or later |
| SignatureStore.Store.constructor | pkg/adapter/signature_store.go:30-35 | a new store is empty |
| SignatureStore.Store.Snapshot | pkg/adapter/signature_store.go:45-63 | expired sessions go, and the values of the session, if it is there, are returned |
| SignatureStore.Store.Remember | pkg/adapter/signature_store.go:65-94 | the new store is one the relation allows: expired sessions go, a new session in a full store costs one oldest session, every entry is this call's or an untouched old one, older entries are lost first, and what is new only when nothing older is left |
| SignatureStore.Store.Cleanup | pkg/adapter/signature_store.go:96-102 | exactly the sessions older than the time to live go |
| SignatureStore.Store.EvictOldestSession | pkg/adapter/signature_store.go:104-113 | exactly one session goes, written no later than any other |
| SignatureStore.EvictOldestSignature | pkg/adapter/signature_store.go:115-124 | exactly one entry goes, written no later than any other |
| SignatureStore.StoreAll | pkg/adapter/signature_store.go:82-92 | storing in any order keeps the bound, takes nothing from elsewhere, loses older entries first and new ones only when nothing older is left, and loses nothing while there is room |
| SignatureStore.StoreOne | pkg/adapter/signature_store.go:83-91 | one turn of that loop keeps these facts for the keys done so far |
| SignatureHistory.EveryStoreIsBoundedAndSound | pkg/adapter/signature_store.go:65-124 | every reachable store has at most maxSessions sessions of at most maxEntries entries, and each value is the latest one remembered for its session and key |
| SignatureHistory.RetainedExactly | pkg/adapter/signature_store.go:45-112 | for strictly increasing clock readings, a snapshot finds a session if and only if it was written, its last write is not older than the time to live, and fewer than maxSessions distinct sessions were written after it |
| SignatureHistory.FittingCallIsKept | pkg/adapter/signature_store.go:82-93 | after any such run, a call of at most maxEntries signatures leaves all of them present, despite evictions in its own loop |
| EntryHistory.EntryRetained | pkg/adapter/signature_store.go:45-124 | for every run with strictly increasing clock readings and every order of eviction: a snapshot finds an entry, with its latest value, if by the history it finds the session and the key was written in the session's present life with fewer than maxEntries other keys in the same call or later; and if it finds one, fewer than maxEntries keys were written in later calls |
| EntryHistory.EntryRetainedExactly | pkg/adapter/signature_store.go:82-124 | for a key whose last write was the only one of its call still standing, this is an if and only if |
| EntryHistory.OrderDecidesTies | pkg/adapter/signature_store.go:115-124 | one call that brings two keys to a session that holds one may keep either |
| TokenProtocol.EveryStateIsRight | pkg/adapter/token_provider.go:48-84 | the protocol invariant holds in every state of every interleaving |
| TokenProtocol.AtMostOneRefresh | pkg/adapter/token_provider.go:71-84 | at most one refresh is running, whatever callers do |
| TokenProtocol.CacheNeverReverts | pkg/adapter/token_provider.go:131-134 | between any two states of a run the cached pair does not go back to an older refresh's |
| TokenProtocol.CacheIsFromOneRefresh | pkg/adapter/token_provider.go:128-134 | token and expiry in the cache were written by one refresh, and no newer refresh has written |
| TokenProtocol.ReturnedTokens | pkg/adapter/token_provider.go:48-69 | a fast-path token had more than the skew left by its own expiry at the check; a token handed out after a rejection is not the rejected one; a joined caller gets exactly what its flight delivered |
| TokenOutcomes.DecidedByTheCache | pkg/adapter/token_provider.go:48-69 | in every run a caller decides on the pair that was cached when it read it; one that asks for a token is given that token if and only if there is one and the time plus the skew is before its expiry, one whose token was rejected if and only if there is one and it is another; all others go on to join |
| TokenOutcomes.JoinsTheRefresh | pkg/adapter/token_provider.go:71-84 | a caller that joins waits for the refresh that runs, or starts one if none does |
| TokenOutcomes.CacheIsTheAnswer | pkg/adapter/token_provider.go:118-136 | the cached pair is the bearer form of a non-empty token the auth server answered to the flight that wrote it, with the time of the answer plus the lifetime named or 300 seconds; what a flight delivers is such a pair, or nothing exactly after a failure or an answer without a token |
| TokenOutcomes.AnswerIsStored | pkg/adapter/token_provider.go:128-134 | an answer with a token is in hand, and stored as it is |
| TokenProtocol.JoinersShareTheAnswer | pkg/adapter/token_provider.go:71-84 | callers that waited for the same flight have the same outcome |
| TokenProtocol.WaiterIsServed | pkg/adapter/token_provider.go:71-84 | in every reachable state a waiter is served by its flight's own remaining steps, whatever the auth server answers |
| TokenProtocol.ExpiredTokenIsHandedOut | pkg/adapter/token_provider.go:61-69 | from the start of the protocol there is a run in which, at any time after its expiry, a cached token is returned to a caller whose own token was rejected |

## Left out

- Writer failures: the response writer is an append-only trace, so the early returns after a failed write are not modelled.
- Usage numbers (`buildAnthropicUsage`) and the usage fields of events and responses; the id and model of the non-streaming response.
- JSON, base64, SHA-256, URL and MIME parsing: arguments are canonical JSON text, a signature carrier is its decoded key and signature, a media URL comes with whether it is accepted and the type its extension suggests, and the hash in text keys and session keys is the identity.
- The two spellings of the thought signature field: a part or block has one signature, the first non-empty of the two.
- The clock in synthesized ids: a synthesized id is its prefix and a counter, which is what makes two of them distinct.
- SSE line splitting: the streaming model starts from the list of decoded chunks, and a failed read, an oversized event and the scanner's own errors are one flag.
- The check for non-object parts inside the streaming parts loop is modelled although validation has already excluded it.
- Agreement.StreamMessage: compares content up to merging adjacent text, dropping empty text, and abstracting synthesized ids and text signatures, because those are where the two conversions differ by design.
- Agreement.PlainMessage: as Agreement.StreamMessage.
- AgreementExactly.StreamingAgreesExactly: is about responses without errors and without a blocked prompt, because the two report those by different means.
- FoldSupplements.FoldFunctionResponseSupplements: works on values, so the in-place change of functionResponse maps and any aliasing between them are not captured; a response that is no object cannot occur, because only the translation itself builds responses.
- ToolResolution.ToolPartsAreResolved: leaves out the text and media of tool results, which ConversationContents.ConversationKeepsEverything covers.
- ConversationContents.ConversationKeepsEverything: compares texts joined by blank lines, because folding into a tool result joins them so; which reply took up which supplement is FoldSupplements.FoldFunctionResponseSupplements.
- ResponseRoundTrip.RoundTripExactly: is about parts of one kind with non-empty text or a named call; empty texts that only carry a signature and parts with both text and call are not echoed as one block each. RoundTrip.EchoRestoresExactly, about the client's blocks, has no such limit.
- StreamEcho.PlainEchoExactly: is about chunks without errors and without a blocked prompt, which have a plan. StreamRoundTrip.StreamRoundTripExactly and StreamEcho.RememberedEchoExactly, about the message, hold of every successful stream.
- StreamSignatures.TextsAreSpoken: as StreamEcho.PlainEchoExactly.
- EntryHistory.EntryRetained: leaves open the case between its two bounds, which only the map order decides.
- GeminiModel.KeysAreDistinct: for text keys it rests on the text standing for its SHA-256 digest; that digests do not collide is not part of this model.
- SignatureStore.Store.Remember: the clock reading is a parameter; the mutex makes the calls of a store a sequence, so no interleaving inside a call is modelled. The limits are positive, as the configuration check demands.
- TokenProtocol.EveryStateIsRight: is about a state machine on values in which each critical section is one step; a flight is what the singleflight library documents, joiners sharing one running call, and its internals are not part of this model. Why the auth server's answer is unusable (status, decoding, transport) is one failure step.
- Message lists that are no array, system instructions, tools, tool_choice, thinking and generation settings, token counting, and the model-specific request checks: settled by reading a branch.
- Tool schema normalisation and classification (`ensureObjectSchema`, `requiresGeminiParametersJSONSchema`).
- HTTP transport, handlers, header handling, retries, logging and configuration.
