# CMCD reporting engines of the Shaka Player CMCD v2 plugin

This project models the two reporting engines of the plugin in Dafny. They
send Common Media Client Data (CTA-5004) to a reporting server and are proved
correct against their own specifications.

- **Event mode** (`_enableEventMode`, `eventModePlugin.js`) turns player events
  into CMCD records.
  - In json mode the records go into a bounded batch queue. When the queue
    exceeds `batchSize`, the oldest records are evicted.
  - The queue is sent one batch at a time (the `isSending` single-flight flag).
  - A failed batch goes back to the head of the queue, trimmed to capacity.
  - A session counter numbers the records (`sn`). The startup delay (`msd`) is
    reported at most once.
  - In query mode each record is encoded as a CMCD query value.
  - The model is the class `EventMode.EventEngine`, with one method per closure
    operation: the send, its settlement, the append, the two timers and
    `cleanup`. Its ghost history `issued` records the sequence numbers handed
    out, and `msdReports` counts the records that carry the startup delay.
- **Response mode** (`_enableResponseMode`, `responseModePlugin.js`) handles
  every manifest and segment response.
  - It parses the `CMCD` parameter of the request URL into a record
    (`CmcdParser.ParseAndAdd`).
  - It adds the wanted timings `ts`, `ttfb` and `ttlb` and the request's `url`
    (`ResponseMode.AssembleReport`).
  - In json mode it batches the records and sends the batch once it reaches
    `batchSize`. In query mode it sends the original text followed by the new
    pairs.
  - The model is the class `ResponseMode.ResponseEngine`. Its ghost histories
    `received` and `posted` show that every record is sent at most once and
    in arrival order, and that the unsent records are exactly the current
    batch. Response mode has no timer and no flush on teardown, so a last
    batch below `batchSize` is never sent.

A CMCD record is a JavaScript object. In the model it is the subset type
`Cmcd.Record`: a sequence of key/value pairs with no key twice, in insertion
order. `Cmcd.Set` is `obj[key] = value`, and `Cmcd.SetAll` is `Object.assign`.
The transport is outside the model:
- a send started by `EventEngine.Flush` is finished by `EventEngine.Settle`,
  which is told whether the server answered with success, answered with an
  error, or the request failed;
- the response engine returns the request it would start (`Request`).

Where the documented behaviour and the code differ, the model follows the code
and proves the difference as a lemma:
- A boolean `false` is written in the query encoding as its bare key, the same
  token as `true` (`eventModePlugin.js:304-305`, `QueryEncoding.FalseIsBareKey`).
  Reading it back gives `true` (`CmcdParser.ParseOfQueryString`).
- `cleanup` while a send is in flight drops the queued records instead of
  sending them (`eventModePlugin.js:33`, `:394-396`,
  `EventMode.EventEngine.Cleanup`).
- Response query mode puts no comma between the original `CMCD` text and the
  new pairs, so the last original piece is fused with the first new pair
  (`responseModePlugin.js:123`, `ResponseMode.QueryReportFusesPairs`).
- An absent `includeKeys` list passes every key in event mode
  (`shouldIncludeKey`). In response mode it makes
  `config.includeKeys.includes` throw as soon as the response names its request
  and one timing is present. The
  filter then abandons the response (`ResponseMode.Throws`,
  `ResponseMode.AddTiming`).

Modules:

| module | covers |
|---|---|
| `Wrappers` | `Option` |
| `Text` | `indexOf`, `split`/`join`, `trim`, the escapes and unescapes, printing integers |
| `Cmcd` | values, records, property assignment, `Object.assign`, the mode |
| `QueryEncoding` | the event engine's query encoder |
| `CmcdParser` | `parseAndAddCmcdFromString`, and encoding followed by parsing |
| `BatchQueue` | the append-and-trim and requeue rules on sequences |
| `PlayerState` | `getPlayerState` |
| `EventRecord` | the record `sendEventData` builds |
| `EventMode` | the event engine class |
| `ResponseMode` | record assembly and the response engine class |

## Model

| member | source | states |
|---|---|---|
| Text.IndexOf | responseModePlugin.js:55 | the first position of the character, or -1 exactly when it does not occur |
| Text.Split | responseModePlugin.js:53 | at least one piece, no piece holds the separator, and joining the pieces gives the string back |
| Text.SplitJoin | responseModePlugin.js:53 | splitting a join of separator-free pieces gives the same pieces back |
| Text.SplitConcat | responseModePlugin.js:123 | splitting two strings put side by side fuses the last piece of the first with the first piece of the second |
| Text.JoinFused | responseModePlugin.js:123 | joining fused pieces is the concatenation of the two joins |
| Text.Trim | responseModePlugin.js:66-67 | the result is the middle of the text left after removing only white space from each end, and it neither starts nor ends with white space |
| Text.TrimEmpty | responseModePlugin.js:66 | the trim is empty exactly when the text is all white space |
| Text.UnescapeEscape | responseModePlugin.js:111 | the unescape of line 61 undoes the escape of line 111 for every string |
| Text.UnescapeQuotesOfEscapeQuotes | responseModePlugin.js:61 | unescaping quotes undoes escaping them |
| Text.HalveOfDouble | responseModePlugin.js:61 | halving backslash pairs undoes doubling backslashes |
| Text.NatToString | eventModePlugin.js:307 | decimal digits with no leading zero |
| Text.DigitsValueOfNatToString | eventModePlugin.js:307 | the printed digits of a natural number read back as that number |
| Text.IntToStringCanonical | responseModePlugin.js:64 | every printed integer is canonical and reads back as the integer |
| Text.TrimIntToString | responseModePlugin.js:64 | a printed integer has no white space to trim |
| Text.TrimStart | responseModePlugin.js:66 | the suffix left after removing the leading white space, which does not start with white space |
| Text.TrimEnd | responseModePlugin.js:66 | the prefix left after removing the trailing white space, which does not end with white space |
| Text.DoubleBackslashes | responseModePlugin.js:111 | the first `replace` of the escape: characters other than the backslash occur in the result exactly when they occur in the text; properties in `HalveOfDouble`, `UnescapeEscape` |
| Text.EscapeQuotes | eventModePlugin.js:302 | the second `replace` of the escape: characters other than the backslash and the quote are kept, and the result never starts with a quote; properties in `UnescapeQuotesOfEscapeQuotes`, `UnescapeEscape` |
| Text.UnescapeQuotes | responseModePlugin.js:61 | definition; properties in `UnescapeQuotesOfEscapeQuotes`, `UnescapeEscape` |
| Text.HalveBackslashes | responseModePlugin.js:61 | definition; properties in `HalveOfDouble`, `UnescapeEscape` |
| Text.Join | eventModePlugin.js:310 | definition; properties in `Split`, `SplitJoin`, `JoinFused`, `QueryEncoding.JoinThree` |
| Text.Escape | responseModePlugin.js:111 | definition; properties in `UnescapeEscape`, `QueryEncoding.EscapeExample` |
| Text.Unescape | responseModePlugin.js:61 | definition; properties in `UnescapeEscape`, `CmcdParser.QuotedValue` |
| Text.IntToString | eventModePlugin.js:307 | definition; properties in `IntToStringCanonical`, `TrimIntToString`, `CmcdParser.NumberValue` |
| Cmcd.ModeOf | eventModePlugin.js:3 | json exactly for an absent, empty or `'json'` mode, query exactly for `'query'` |
| Cmcd.Lookup | responseModePlugin.js:71 | a value exactly for a key the record has, namely the value stored with it |
| Cmcd.Set | responseModePlugin.js:71 | the key then holds the new value and every other key keeps its value |
| Cmcd.SetKeys | responseModePlugin.js:71 | an existing key keeps its place and a new key goes last |
| Cmcd.SetAll | eventModePlugin.js:282 | a key of the copied object takes its copied value, every other key keeps its own, and the target's keys stay in front |
| Cmcd.SetAllSnoc | eventModePlugin.js:282 | copying one more field at the end is one more assignment |
| Cmcd.SetWhenLookup | eventModePlugin.js:262-280 | a conditional assignment changes the looked-up key only when it fires, and appends the key only when it is new |
| Cmcd.SetWhen | eventModePlugin.js:262-280 | definition; properties in `SetWhenLookup`, `SetWhenFresh`, `SetAllOpt` |
| Cmcd.Truthy | eventModePlugin.js:274 | definition; properties in `EventRecord.PlayStateField`, `EventRecord.EventFieldsLookup` |
| QueryEncoding.Tokens | eventModePlugin.js:299-309 | one token per field, in field order |
| QueryEncoding.EncodeQuery | eventModePlugin.js:299-310 | the loop's result is the comma join of the tokens of the fields in insertion order |
| QueryEncoding.TokensOfQueryString | eventModePlugin.js:310 | the query value splits back into exactly the record's tokens |
| QueryEncoding.TokensConcat | responseModePlugin.js:87-112 | the tokens of two field lists are the tokens of each, one after the other |
| QueryEncoding.EscapeExample | eventModePlugin.js:302 | a quote in a string value is escaped with a backslash |
| QueryEncoding.EncodingExample | eventModePlugin.js:299-310 | `{v: true, sn: 3, cid: 'a"b'}` encodes as `v,sn=3,cid="a\"b"` |
| QueryEncoding.FalseIsBareKey | eventModePlugin.js:304-305 | `false` gives the bare key, the same token as `true` |
| QueryEncoding.Token | eventModePlugin.js:301-308 | definition; properties in `FalseIsBareKey`, `EscapeExample`, `CmcdParser.PairOfToken`, `CmcdParser.TokenHasNoComma` |
| QueryEncoding.QueryString | eventModePlugin.js:310 | definition; properties in `EncodeQuery`, `TokensOfQueryString`, `EncodingExample`, `CmcdParser.ParseOfQueryString` |
| CmcdParser.BlankPairSkipped | responseModePlugin.js:66-72 | a piece adds nothing exactly when it is blank, and a key it adds is never empty |
| CmcdParser.BareKeyPair | responseModePlugin.js:66-68 | a non-blank piece with no `=` after its first character sets its trimmed text to `true` |
| CmcdParser.KeyValuePair | responseModePlugin.js:55-59 | `key=value` with an `=`-free key sets that key to the parsed value |
| CmcdParser.QuotedValue | responseModePlugin.js:60-61 | a quoted escaped string parses to the string that was escaped |
| CmcdParser.AddPairBranches | responseModePlugin.js:55-72 | one step of the `forEach`: `key=value` when `=` is past the first character, else a bare key when non-blank, else nothing |
| CmcdParser.AddPairLookup | responseModePlugin.js:70-72 | a piece changes only the key it sets |
| CmcdParser.ParseAndAdd | responseModePlugin.js:51-74 | an empty string leaves the target unchanged, otherwise the pieces are written in order |
| CmcdParser.UnsetKeyKept | responseModePlugin.js:53-73 | a key that no piece sets keeps the target's value |
| CmcdParser.LastOccurrenceWins | responseModePlugin.js:53-73 | a key set by several pieces takes the value of the last of them |
| CmcdParser.NumberValue | responseModePlugin.js:63-64 | the printed form of a safe integer parses as that number |
| CmcdParser.NumberToken | responseModePlugin.js:63-64 | a printed safe integer parses back to the number |
| CmcdParser.NotANumber | responseModePlugin.js:63-64 | text other than `Infinity` that starts with a character that cannot begin a number stays a string |
| CmcdParser.UndefinedToken | responseModePlugin.js:63-64 | `key=undefined` parses to the string `"undefined"` |
| CmcdParser.TokenHasNoComma | eventModePlugin.js:301-308 | the token of an encodable field holds no comma |
| CmcdParser.PairOfToken | responseModePlugin.js:55-69 | each event-engine token of an encodable field parses back to the field, a boolean as `true` |
| CmcdParser.ReadBackAll | responseModePlugin.js:55-69 | the record with the same keys in the same order and each value through `ReadBack`, the record parsing an encoding is proved to give back |
| CmcdParser.AddTokens | responseModePlugin.js:53-73 | parsing the first `m` tokens gives the first `m` fields read back |
| CmcdParser.ParseOfQueryString | responseModePlugin.js:51-74 | parsing an event-mode query value of encodable fields gives `ReadBackAll` of the record: the same keys in the same order, every boolean (`false` included) as `true`, `undefined` as the string `"undefined"`, other values unchanged |
| CmcdParser.ParseNumber | responseModePlugin.js:63-64 | definition; properties in `NumberValue`, `NotANumber`, `UndefinedToken`; restricted to integers (see "## Left out") |
| CmcdParser.ParseValue | responseModePlugin.js:57-65 | definition; properties in `QuotedValue`, `NumberValue`, `NotANumber` |
| CmcdParser.ParsePair | responseModePlugin.js:55-69 | definition; properties in `BlankPairSkipped`, `BareKeyPair`, `KeyValuePair`, `PairOfToken` |
| CmcdParser.AddPair | responseModePlugin.js:54-73 | definition; properties in `AddPairBranches`, `AddPairLookup` |
| CmcdParser.AddPairs | responseModePlugin.js:53-73 | definition; properties in `AddPairsStep`, `UnsetKeyKept`, `LastOccurrenceWins`, `AddTokens` |
| CmcdParser.ParsedInto | responseModePlugin.js:51-74 | definition; properties in `ParseAndAdd`, `ParseOfQueryString` |
| BatchQueue.AppendedKeepsNewest | eventModePlugin.js:285-291 | after an append the queue is the newest `min(n + 1, batchSize)` records of the pushed queue, in order |
| BatchQueue.AppendedWithinBound | eventModePlugin.js:285-291 | the queue stays within `batchSize` and only the oldest record is evicted, the new record kept last |
| BatchQueue.RequeuedWithinBound | eventModePlugin.js:70-80 | the trim stays within the failed batch and the result is the newest records of the batch, then the records queued meanwhile, within `batchSize` |
| BatchQueue.RequeuedIsSuffix | eventModePlugin.js:86-96 | the requeued queue is a suffix of the failed batch followed by the current queue |
| BatchQueue.RequeueExample | eventModePlugin.js:70-80 | failed `[A,B,C]` with `[D,E]` queued and capacity 4 gives `[B,C,D,E]` |
| BatchQueue.SliceFrom | eventModePlugin.js:75 | definition; properties in `RequeuedWithinBound`, `RequeuedIsSuffix` |
| BatchQueue.Appended | eventModePlugin.js:285-291 | definition; properties in `AppendedKeepsNewest`, `AppendedWithinBound`, `EventMode.EventEngine.Append` |
| BatchQueue.Requeued | eventModePlugin.js:70-96 | definition; properties in `RequeuedWithinBound`, `RequeuedIsSuffix`, `RequeueExample`, `EventMode.EventEngine.Settle` |
| PlayerState.PlayerStateCode | eventModePlugin.js:117-133 | each state code exactly when its condition holds and no earlier one does, and nothing without a media element |
| EventRecord.CommonFieldsLookup | eventModePlugin.js:235-250 | the discovered metrics, with `msd` between them when the gate lets it through |
| EventRecord.TaggedFieldsLookup | eventModePlugin.js:262-272 | `ts`, `e` and, for `ps` events, `sta` override the common fields when allowed |
| EventRecord.EventFieldsLookup | eventModePlugin.js:274-280 | `ec` for error events with a truthy code, and `sn` when numbered, override the rest |
| EventRecord.AdditionalDataWins | eventModePlugin.js:282 | the event's own data has the last word on every key it names |
| EventRecord.SequenceNumberField | eventModePlugin.js:278-280 | a numbered record carries its number, and an unnumbered one carries none |
| EventRecord.StartupDelayField | eventModePlugin.js:235-238 | `msd` is in the record exactly when the gate let it through |
| EventRecord.TimestampAndTag | eventModePlugin.js:262-268 | the timestamp and the event tag are present when allowed |
| EventRecord.PlayStateField | eventModePlugin.js:270-272 | a play-state event reports its own truthy `sta`, otherwise the player's state code |
| EventRecord.Allowed | eventModePlugin.js:135-141 | definition; properties in `TimestampAndTag`, `PlayStateField`, `EventMode.EventEngine.SendEventData` |
| EventRecord.StateValue | eventModePlugin.js:271 | definition; properties in `PlayStateField` |
| EventRecord.CommonFields | eventModePlugin.js:235-250 | definition; properties in `CommonFieldsLookup`, `StartupDelayField` |
| EventRecord.TaggedFields | eventModePlugin.js:262-272 | definition; properties in `TaggedFieldsLookup`, `TimestampAndTag` |
| EventRecord.EventFields | eventModePlugin.js:262-280 | definition; properties in `EventFieldsLookup`, `SequenceNumberField` |
| EventRecord.BuildRecord | eventModePlugin.js:235-282 | definition; properties in `AdditionalDataWins`, `SequenceNumberField`, `StartupDelayField`, `TimestampAndTag`, `PlayStateField` |
| EventMode.EventEngine.constructor | eventModePlugin.js:3-20 | empty queue, idle, counters at zero, and a batch timer only in json mode with a positive period |
| EventMode.EventEngine.RecordPlay | eventModePlugin.js:22-24 | the first `play` time is remembered and later ones ignored |
| EventMode.EventEngine.RecordPlaying | eventModePlugin.js:26-28 | the startup delay is set once, as the time since `play` (a missing `play` counting as zero) |
| EventMode.EventEngine.Flush | eventModePlugin.js:30-38 | nothing happens when the queue is empty or a send is in flight; otherwise the whole queue becomes the in-flight batch and the queue is empty |
| EventMode.EventEngine.Settle | eventModePlugin.js:56-100 | success keeps the queue; an error answer and a failed request both requeue the batch the same way; the engine is idle afterwards |
| EventMode.EventEngine.Append | eventModePlugin.js:284-291 | the queue becomes the append-and-trim of the old queue and stays within `batchSize` |
| EventMode.EventEngine.Deliver | eventModePlugin.js:284-313 | json mode queues the record and starts a send when the queue reaches `batchSize` while idle; query mode yields the record's query value |
| EventMode.EventEngine.TakeCounters | eventModePlugin.js:235-280 | the sequence number is taken and advanced by exactly one when `sn` is allowed; `msd` is taken at most once per session, only while unsent and nonzero |
| EventMode.EventEngine.SendEventData | eventModePlugin.js:255-313 | an unwanted event changes nothing; otherwise the counters move as above and the record built from them is delivered |
| EventMode.EventEngine.BatchTimerTick | eventModePlugin.js:14-19 | a send starts only when the timer is set, the queue is non-empty and no send is in flight |
| EventMode.EventEngine.IntervalTimerTick | eventModePlugin.js:378-383 | a set interval timer sends a `t` event with no data of its own; a cleared one changes nothing |
| EventMode.EventEngine.Cleanup | eventModePlugin.js:385-398 | both timers are cleared and the queue is empty; the queued records are sent only when the engine was idle |
| EventMode.EventEngine.PendingStartupDelay | eventModePlugin.js:235 | definition; properties in `TakeCounters`, `EventRecord.StartupDelayField` |
| EventMode.EventEngine.NextNumber | eventModePlugin.js:278-279 | definition; properties in `TakeCounters`, `SendEventData`, `EventRecord.SequenceNumberField` |
| ResponseMode.CmcdText | responseModePlugin.js:47 | definition: the `CMCD` parameter, or the empty string when there is none, as read at :47 and again at :77; properties in `AssembleReport`, `ResponseEngine.OnResponse` |
| ResponseMode.Wanted | responseModePlugin.js:84 | definition (`config.includeKeys.includes`, as at :84, :92 and :100); properties in `AddTiming`, `AddTimings`, `AddedFieldValues` |
| ResponseMode.TtlbTiming | responseModePlugin.js:100 | the time to the last byte is used exactly when it is present and nonzero |
| ResponseMode.AddedFieldValues | responseModePlugin.js:79-112 | the added fields are the wanted, present `ts`, `ttfb` and `ttlb`, then `url`, in that order |
| ResponseMode.AddedFieldsCopied | responseModePlugin.js:79-112 | writing the timings and `url` into the parsed record is copying the added fields over it |
| ResponseMode.AddedFieldsTokens | responseModePlugin.js:87-112 | the new pairs are the tokens of the added fields: `key=value` timings and then `url="escaped"` |
| ResponseMode.JsonSend | responseModePlugin.js:7-8 | an empty batch is never sent |
| ResponseMode.AddTiming | responseModePlugin.js:83-88 | a present timing consults `includeKeys`, throwing without a list; a wanted one is written into the record and pushed as a pair |
| ResponseMode.AddTimings | responseModePlugin.js:81-105 | the three timing blocks throw exactly when there is no list and some timing is present, and otherwise make the writes and pairs in the order `ts`, `ttfb`, `ttlb` |
| ResponseMode.AssembleReport | responseModePlugin.js:44-112 | the record and the pairs the filter builds, or none when it throws |
| ResponseMode.ResponseEngine.constructor | responseModePlugin.js:3-4 | an empty batch and empty histories |
| ResponseMode.ResponseEngine.Deliver | responseModePlugin.js:114-127 | json mode appends and sends the whole batch in order once it reaches `batchSize`, then clears it, keeping it below `batchSize`; query mode sends the original text followed directly by the joined pairs |
| ResponseMode.ResponseEngine.OnResponse | responseModePlugin.js:41-131 | other request types and responses on which the filter throws change nothing; otherwise the assembled report is delivered |
| ResponseMode.QueryReportFusesPairs | responseModePlugin.js:123 | splitting the reported query value fuses the last original piece with the first new pair |
| ResponseMode.Throws | responseModePlugin.js:81-105 | definition; properties in `AssembleReport` and `ResponseEngine.OnResponse`, and `AddTimings` throws under the same condition |
| ResponseMode.AddedFields | responseModePlugin.js:79-112 | definition; properties in `AddedFieldValues`, `AddedFieldsCopied`, `AddedFieldsTokens` |
| ResponseMode.ResponseReport | responseModePlugin.js:44-112 | definition; properties in `AssembleReport`, `AddedFieldValues`, `AddedFieldsCopied`, `AddedFieldsTokens` |

## Left out

- `fetch`, `URL`, `searchParams` and `console` are I/O. A send is the value or
  state the engine produces, and its outcome is the argument of
  `EventEngine.Settle`. The `CMCD` parameter arrives already decoded, as
  `Response.cmcdParam`, with no percent-decoding.
- The `new URL(...)` calls that can throw on a malformed URL are left out,
  and every URL is taken to be valid. They are `eventModePlugin.js:36`, `:102`
  and `:395`, and `responseModePlugin.js:45` and `:113`.
  - A throw at `eventModePlugin.js:36` comes after `isSending = true` (`:35`)
    and before the splice. The flag would then stay set for good, and every
    later send would return at `:33`.
  - A throw at `:395` happens while cleanup's argument is evaluated, before
    `cmcdBatchArray.length = 0`. The timers would already be cleared, but the
    queue would be neither sent nor emptied.
  - A throw at `responseModePlugin.js:45` or `:113` abandons that response, as
    the missing-list throw does.
- DOM and player event listeners (`eventModePlugin.js:22-28`, `:316-376`,
  `:400`; `responseModePlugin.js:41`) are event plumbing. Each becomes a
  method call: `RecordPlay`, `RecordPlaying`, `SendEventData` or `OnResponse`.
- `setInterval`/`clearInterval` are flags (`batchTimerSet`,
  `intervalTimerSet`). One firing is a call to `BatchTimerTick` or
  `IntervalTimerTick`.
- Metric discovery in `getCommonCmcdData` (`eventModePlugin.js:143-233`,
  `:240-250`) is not modelled. It depends on player statistics,
  `document.hidden`, floating point and `Math.round`. The discovered fields are
  the given `Metrics`; only the `msd` gate is modelled.
- `Date.now()` and the clock are parameters (`now`).
- The `beforeSend` and `afterSend` hooks (`eventModePlugin.js:40-46`, `:60-66`)
  are left out. The engine catches any exception they throw. `beforeSend` is
  given the in-flight array itself (`:42`), the same array the failure branches
  put back in the queue (`:75-79`, `:91-95`). The model assumes the hook leaves
  that array unchanged.
- The send step of event query mode (`eventModePlugin.js:311-312`) refers to an
  undeclared `reportUrl` and throws. The model stops at the built query value
  (`QueryBuilt`).
- CmcdParser.ParseNumber: JavaScript's `Number`/`String` test is modelled only
  for canonical decimal integers within plus or minus 2^53 - 1. Any other
  numeric text (fractions, exponents, `Infinity`, `0x` forms, `-0`) stays a
  string in the model.
- Numbers are integers throughout, and `Num(n)` is exact for every integer.
  Timings are taken as already rounded, so `Math.round` and non-integer timings
  are left out. So are the values the engines never round: the raw playback
  rate `pr` (`eventModePlugin.js:188-190`), and `msd`, `sn` and `df`.
  JavaScript numbers lose precision past 2^53, which the model does not
  capture. Neither does it capture that template literals print values from
  1e21 up in exponent form (`eventModePlugin.js:307`).
- A `batchSize` that is absent or not a number is left out. `batchSize` is a
  natural number.
- Records use JavaScript's insertion order for every key. The special ordering
  of integer-like keys and the `__proto__` key are left out.
- Strings are sequences of characters, with no UTF-16 surrogate handling.
- The JSON serialisation of the batch (`JSON.stringify`) is not modelled. A
  batch request carries the records themselves.
