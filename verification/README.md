# A verified model of the RouterOS client

This project models the parts of the RouterOS API client that are hardest to get right, and proves what
they promise: the tagged request multiplexer, the wire codec, schema discovery with its cache, the
rendering and quoting of commands, and the session facade with its probes and gates.
`dafny verify dfyconfig.toml` checks all of it.

## How it is laid out

| files | what they model |
|---|---|
| `Protocol`, `Tags` | sentences, the reply automata as folds over sentences, tag names |
| `Codec`, `CodecProofs`, `Frames` | the wire format as functions, its round trips, and what any words sent look like to a device |
| `Wire`, `Replies`, `AsyncClient` | the writer, the reader, the reply objects, the sync loop and the async loop as objects and loops |
| `Multiplexer` | a step system: the reader goroutine, any number of callers, listeners' cancel goroutines and `Close`, interleaved in any order |
| `MuxInvariants`, `MuxSteps`, `MuxObjects`, `MuxWire`, `MuxReplies` | the invariants and their preservation, step by step |
| `MuxTheorems`, `MuxFrames`, `MuxScenarios` | what holds in every run, what a device finds on the wire in it, and runs that show what does not hold |
| `Text`, `Commands`, `Quoting`, `ConsoleOutput` | strings, rendering, escaping, the quote automaton, the console normaliser |
| `Inspect`, `Schema` | `/console/inspect` rows, discovery, the TTL cache and overrides |
| `SchemaRaces` | a step system: discoveries of one store that overlap with each other and with registration, deletion and clearing |
| `EndToEnd` | from bytes to the result of a stream, and from a run to the reply of a command |
| `ClientTransport`, `Gates`, `Session`, `SessionTheorems` | the transport seam, both gates, the facade, and every sequence of facade calls |
| `Facade` | a step system: any number of goroutines whose first calls race for the probes and the pipeline |
| `FacadeCalls` | a step system on top of it: any number of `Validate` and `RunStructured` calls at once |

Loops and objects of the source are methods and classes here. Their contracts tie them to functions, and the
theorems are about those functions: `AsyncClient.HandleIsSteps` ties the loop as an object to the steps
of the multiplexer, the contracts of `Session.Session` tie the facade to the effects that `SessionTheorems`
reasons about.

The environment is arbitrary: the device may send any sentence at any time, a read or a
write may fail at any byte, a stream comes in chunks of any size (`Wire.Source.Read`), every
interleaving of goroutines is a run. In the facade, an `Env` says what the n-th sentence of the session
returns, so that a theorem for every `Env` covers every device and every moment at which a context may end.
Some theorems assume more than the case they speak of:

- `MuxReplies.MissedKept`, `MuxReplies.RegisteredAtLookUp`, `MuxTheorems.NoReplyIsLost`, `MuxTheorems.EverythingCounts`: the
  device answers without a tag or with the tag of a command it has received as a whole.
- `AsyncClient.Client.AsyncLoop`, `EndToEnd.LoopReadsStream`, `EndToEnd.HandleAllServes`, `EndToEnd.StreamOverTheWire`: no other
  goroutine works while the loop runs.
- `EndToEnd.NilErrorGivesDone`: `Close` has not been called.
- `Schema.DiscoverIsRecent`, `Schema.CachedIsFresh`: no other command with the same key was discovered; `Schema.CachedIsFresh`
  also a device whose answers do not depend on when they are asked for.
- `Schema.CollidingKeysInterfere`: the device has every command with the first path, and the entry has not expired.
- `MuxFrames.PiecesOfCallsAreRead`, `Gates.DeviceParsesTheLine`: no word has 2^32 bytes or more.

A Go string is a Dafny string. In the codec a char is one byte, below 256; in quoting and in the console
output it is a rune. All characters that are looked at there are ASCII, so that both readings agree on
valid UTF-8. Integers are unbounded; the 32-bit truncation of the length prefix is written out.

## What the code does, where its documentation or a first reading says otherwise

- `readLength` lets first bytes 0xF8 to 0xFF through as lengths of their own, and `encodeLength` drops what is above 32 bits
  (`CodecProofs.UndecodedFirstByte`, `CodecProofs.LengthRoundTrip`).
- A word of a call may be empty, or there may be none. An empty word ends the sentence on the wire: the device reads the
  pieces between the empty words as sentences of their own (`MuxFrames.PiecesOfCallsAreRead`), and only the last piece carries the tag,
  if a word stands before the tag word in it (`MuxFrames.LastPieceCarriesTag`). The device knows every call for what it is, by words and
  tag, if and only if each has a word of its own, none that is empty and none of 2^32 bytes or more
  (`MuxFrames.CallsAreKnownExactly`). `MuxScenarios.EmptyWordHappens` and `MuxScenarios.NoWordHappens` are runs in which it does not.
- A run that finds the loop ended returns with the writer still locked; from then on no call can ever write again
  (`MuxTheorems.OrphanedExactlyWhen`, `MuxTheorems.OrphanedForever`, and a run that gets there in
  `MuxScenarios.OrphanedWriterHappens`).
- After `Close` a pending run returns a nil error and a reply without `Done` (`MuxTheorems.NilErrorMeansDone`
  gives the exact condition, `MuxScenarios.NilErrorWithoutDoneHappens` a run).
- With several error sentences in one reply the async run reports the first and the sync run the last
  (`Replies.SyncAndAsync`, `Replies.TwoTrapsDiffer`).
- The comment on `SchemaKey` says NUL cannot appear in a path or verb. Some two commands with two given paths share a key
  if and only if one path continues the other behind a NUL (`Schema.KeysClashExactly`), and then, and only then, discovering
  the one can make the store answer for the other with the wrong schema (`Schema.CollidingKeysInterfere`). One
  command has its key to itself if and only if neither its path nor its verb holds a NUL (`Schema.OwnKeyExactly`).
- `RegisterCategory` is said to take effect immediately. It does if and only if no overlapping discovery of the command has already
  read the overrides and found otherwise (`SchemaRaces.RegistrationTakesEffectExactly`, a run in which one has in
  `SchemaRaces.StaleCategoryHappens`). After `Delete` or `Clear`, only answers of later discoveries are served if and only if none that can
  still store was under way (`SchemaRaces.DeletionHoldsExactly`).
- `quoteCLIValue` leaves backslashes as they are: a quoted value reads back if and only if it has none
  (`Quoting.QuotedValueReadsBack`). A console line made from a structured command has unbalanced quotes exactly when its loose
  double quotes and the breaks of its quoted values are odd in number together, or its loose single quotes are
  (`Quoting.LinesBalanceExactly`); a value breaks at each loose backslash before a double quote and at a loose one at its end, so
  that without double quotes in it an odd number of final backslashes is refused and an even number is not
  (`Quoting.TrailingBackslashRejected`, `Quoting.SetCommandRefused`). Only a `Gate1` that is used directly renders commands: the
  facade gives it scripts and sends structured commands to Gate 2.
- An attribute name with `=` in it does not come back (`Commands.CommandReadBack`), and sentences with query or proplist
  words are sentences that `ReadSentence` itself would reject (`Commands.ReadableExactlyWithoutQueries`).
- The comment on `ProbeInspect` speaks of traps. A `!fatal`, the end of the session, is an error sentence as
  well: it settles the probe as "not supported" and is not reported (`SessionTheorems.FatalSettlesProbe`).
- Overrides are not consulted when the first probe of a discovery is rejected (`Gates.Gate2SkipsExactly`).
- Attribute names are duplicate-free exactly when the children's names are (`Schema.AttributesMeaning`).

## Model

| member | source | states |
|---|---|---|
| Protocol.RunningHoldsData | reply.go:29-44 | while a reply has not ended it holds exactly its data sentences, in order, and no terminal one |
| Protocol.FinishedIsFrozen | async.go:79-85 | sentences after the end of a stream change nothing in its result |
| Protocol.FoldMeaning | async.go:79-85 | a stream ends at its first ending sentence, with all data sentences before it and the verdict of that sentence |
| Protocol.MineSkipsForeign | async.go:70-77 | sentences with other tags, wherever they come, can be added or removed without changing what is of a stream |
| Tags.TagNameInjective | client.go:69-71 | two tags are equal only if kind and number are: decimal printing is injective, across `r`, `l` and `c` |
| CodecProofs.LeadByteMasks | proto/reader.go:83-96 | the range tests and sums of the model are the bit masks of the source, for every byte |
| CodecProofs.LengthReadBack | proto/reader.go:77-101 | the prefix written for any length is read back as that length modulo 2^32, leaving exactly what follows |
| CodecProofs.LengthRoundTrip | proto/writer.go:72-85 | `readLength` inverts `encodeLength`, with any bytes behind, if and only if the length is below 2^32 |
| CodecProofs.ShortestPrefix | proto/writer.go:72-85 | no prefix that decodes to a length is shorter than the one `encodeLength` writes, first bytes from 0xF8 on excepted |
| CodecProofs.UndecodedFirstByte | proto/reader.go:83-96 | a first byte from 0xF8 on is returned as the length, although the writer uses two bytes for that length |
| CodecProofs.WordRoundTrip | proto/reader.go:103-114 | a word is read back exactly, with nothing else consumed, if and only if its length fits 32 bits |
| CodecProofs.SentenceRoundTrip | proto/reader.go:29-62 | the encoding of any accepted word list reads back as the sentence it stands for, and the rest of the input is untouched |
| CodecProofs.ReadsExactlyWhatParses | proto/reader.go:45-60 | exactly the word lists whose later words are tag or attribute words are accepted |
| CodecProofs.StreamRoundTrip | proto/writer.go:38-50 | any sequence of readable sentences is read back in order by repeated reading, consuming exactly its bytes |
| CodecProofs.CutWord | proto/reader.go:103-114 | a strict prefix of an encoded word is never read as a word |
| CodecProofs.UnfinishedSentenceIsNotRead | proto/reader.go:29-62 | a strict prefix of one encoded sentence never yields a sentence, however the stream ends |
| Frames.FrameRoundTrip | proto/writer.go:38-50 | reading words up to an empty one gives back the words sent, with nothing else consumed, if and only if none is empty and all fit |
| Frames.FramesRoundTrip | proto/writer.go:38-50 | the same for any sequence of sentences |
| Frames.UnfinishedFrameIsNotRead | proto/reader.go:103-114 | a strict prefix of such a sentence is never taken for one |
| Frames.PiecesAreSent | proto/writer.go:38-50 | sending words with empty ones among them is sending the pieces between these as sentences, byte for byte |
| Frames.PiecesAreRead | proto/reader.go:29-38 | so those pieces are what is read, for any words that fit |
| Frames.ReaderAgreesOnTag | proto/reader.go:39-48 | where the reader accepts the words, its tag is the last tag word behind the first word |
| Wire.Writer.BeginSentence | proto/writer.go:32-34 | takes the free lock and writes nothing |
| Wire.Writer.Write | proto/writer.go:62-70 | nothing is accepted after an error; a failing write has accepted a prefix |
| Wire.Writer.Flush | proto/writer.go:52-60 | an error of the flush sticks |
| Wire.Writer.WriteWord | proto/writer.go:46-50 | prefix and word together act as one write of the encoded word, which is appended whole if nothing fails |
| Wire.Writer.EndSentence | proto/writer.go:38-43 | writes the empty word, flushes, gives the lock back and returns the sticky error |
| Wire.Writer.WriteSentence | proto/writer.go:32-70 | with a fault possible in every write and in the flush: nil means that exactly the encoding of the words was appended; in any case the output grew by a prefix of it, and not at all after an earlier error |
| Wire.TwoWritesAreOne | proto/writer.go:46-50 | two writes one after the other are one write of both, also when one of them fails half way |
| Wire.Source.Read | proto/reader.go:64-75 | the stream gives any non-empty chunk of what is pending, or its end |
| Wire.Reader.ReadFull | proto/reader.go:64-70 | the bytes read are the next n of the stream, whatever the chunks; a stream that ends early gives the matching error |
| Wire.Reader.ReadNumber | proto/reader.go:64-75 | the loop computes the big-endian value of the bytes |
| Wire.Reader.ReadLength | proto/reader.go:77-101 | agrees with the length decoder on every input, chunking and end of stream |
| Wire.Reader.ReadWord | proto/reader.go:103-114 | agrees with the word decoder on every input, chunking and end of stream |
| Wire.Reader.ReadSentence | proto/reader.go:29-62 | agrees with the sentence decoder, so that the round trips hold for every way of chunking the stream |
| Replies.Reply.ProcessSentence | reply.go:29-44 | one sentence moves the reply and gives the verdict as the fold says |
| Replies.ListenReply.ProcessSentence | listen.go:121-147 | one sentence moves the listener, its channel and its stop channel as the fold says; a category-2 trap ends it without an error |
| Replies.ListenReply.CloseStop | listen.go:149-153 | closes the stop channel if there is one |
| Replies.ListenReply.Close | chan_reply.go:19-24 | the first error is kept and the channel is closed |
| Replies.RunSync | run.go:93-117 | the sync loop on the bytes of the connection returns what the sentence-by-sentence specification says |
| Replies.SyncRunFolds | run.go:93-117 | what the loop decides on sentences it decides on the bytes that encode them |
| Replies.FoldIsFoldFrom | async.go:79-85 | the async fold can be taken from either end |
| Replies.SyncAndAsync | run.go:106-116 | where the sync loop has a result the async one has too; same reply and nil without errors, first against last error with some, and agreement if and only if those two are equal |
| Replies.TwoTrapsDiffer | run.go:106-116 | two different traps in one reply: the two modes report different ones |
| AsyncClient.Client.Async | async.go:23-37 | only the first call starts the loop and creates the map |
| AsyncClient.Client.NewReply | client.go:69-71 | the counter goes up by one and the new object carries the number |
| AsyncClient.Client.RegisterReply | run.go:54-58 | registers in the map if there is one and changes nothing otherwise |
| AsyncClient.Client.CloseObject | async.go:112-117 | closes one object with the error it has first got |
| AsyncClient.Client.Dispatch | async.go:70-85 | one turn of the loop is look-up, process, delete, close; an unknown tag changes nothing |
| AsyncClient.Client.CloseAll | async.go:89-110 | in whatever order the map is ranged over, every registered object is closed once, with nil after `Close`, and the map is nil |
| AsyncClient.Client.AsyncLoop | async.go:62-87 | the loop dispatches every sentence of the stream, closes what is left with the error of the first one that cannot be read, and returns that error |
| AsyncClient.Client.Close | client.go:152-166 | sets `closing` and nothing else of this state |
| AsyncClient.HandleKeeps | async.go:79-85 | a turn of the loop keeps the map consistent and the channels of registered objects open |
| AsyncClient.HandleIsSteps | async.go:62-87 | a turn of the loop is a sequence of steps of the multiplexer, from read to close |
| MuxSteps.LocksKept | run.go:35-64 | every step keeps the mutexes held by exactly the goroutines between lock and unlock |
| MuxSteps.ThreadsKept | run.go:47-83 | every step keeps, for every goroutine, what it may rely on at its place of the code |
| MuxObjects.ObjectsKeptByLoop | async.go:62-110 | every step of the loop keeps the map and the objects consistent |
| MuxObjects.StreamsKeptByLoop | async.go:62-110 | every step of the loop keeps every object equal to the fold over its own sentences |
| MuxWire.RepliesKept | async.go:62-110 | the same for every step of every goroutine |
| MuxWire.FlushedKept | listen.go:93-104 | a command that is on the wire is registered, or its listener is about to register it under the same lock |
| MuxWire.WireKept | proto/writer.go:32-70 | every step keeps the bytes equal to whole sentences and the open words of the one writer |
| MuxWire.InvKept | async.go:55-110 | every step of every goroutine keeps the whole invariant |
| MuxReplies.MissedKept | run.go:53-64 | with a device that answers complete commands only, no step lets a sentence pass before its call is registered |
| MuxReplies.RegisteredAtLookUp | async.go:70-77 | when the loop looks a sentence up, the object of its tag has been registered |
| MuxTheorems.InvHolds | async.go:55-110 | the invariant holds after every run |
| MuxTheorems.NothingPanics | chan_reply.go:19-24 | in no run is a channel closed twice or sent on after closing, and nothing is registered in the nil map |
| MuxTheorems.LoopEndClosesAll | async.go:89-110 | once the loop has returned, the map is nil and everything registered and not withdrawn has been closed |
| MuxTheorems.EndIsFinal | run.go:54-57 | from then on nothing is registered and no object changes, however the run goes on |
| MuxTheorems.StreamsAreIsolated | async.go:62-87 | at every moment a registered object holds exactly the fold of its own `processSentence` over the sentences with its tag, but for one that is being processed; it is closed exactly when that fold has ended and the loop has let go of it, or the loop has ended, and with the fold's error |
| MuxTheorems.OnlyOwnSentencesMatter | async.go:62-87 | two runs in which a stream saw the same own sentences give it the same result, whatever the other streams did |
| MuxTheorems.ClosedStreamMeaning | listen.go:121-147 | a stream that has finished, before the end of the loop or after, has all its data sentences up to its first ending one, in order |
| MuxTheorems.NoReplyIsLost | run.go:53-64 | with such a device, a sentence with the tag of a call finds it registered unless an earlier one ended it; the first one always does |
| MuxTheorems.EverythingCounts | cancel.go:18-30 | with such a device, the fold of a stream runs over all sentences of its tag: none came before the registration |
| MuxTheorems.NilErrorMeansDone | run.go:66-83 | a run that returned nil has `Done` set to a `!done` with its own tag, except when `Close` was called and the loop ended before the reply did |
| MuxTheorems.TagsAreDistinct | run.go:46-49 | no two calls of a run share a tag |
| MuxTheorems.CancelNamesItsStream | cancel.go:11-31 | the `/cancel` of a finished context, however late, names its own stream and no other |
| MuxTheorems.LockOrder | run.go:35-64 | every goroutine asks for a lock only while all locks it holds come earlier in initMu, probeMu, writer, c.mu |
| MuxTheorems.NoDeadlockCycle | client_transport.go:64-71 | no cycle of goroutines, each waiting for a lock of the next, is ever reached |
| MuxTheorems.SectionNeverWaits | listen.go:93-104 | the holder of c.mu never waits for a lock, and c.mu is never left locked |
| MuxTheorems.OrphanedExactlyWhen | run.go:53-57 | the writer is left locked by exactly one kind of step: a run that finds no tag map |
| MuxTheorems.OrphanedForever | run.go:53-57 | once the writer is left locked, no call ever writes another byte |
| MuxTheorems.WireIsWholeSentences | proto/writer.go:31-70 | the bytes encode the words of the finished calls, call by call, followed by those of at most one open call, that of the current writer; never two callers' words mixed |
| MuxTheorems.NothingAfterError | proto/writer.go:62-70 | after the first write error nothing more is written and no sentence is completed |
| MuxTheorems.EveryCallIsTagged | run.go:46-53 | the words of every finished call end with the tag word of its own object, and those of no two calls with the same one |
| MuxFrames.CallsAreReadExactly | proto/writer.go:38-50 | in every reachable state, reading words up to the empty ones gives exactly the finished calls, followed by what is unfinished, if and only if no word of them is empty or too long; without a write error what is unfinished gives no sentence |
| MuxFrames.PiecesOfCallsAreRead | proto/writer.go:38-50 | whatever words callers pass, the device reads the pieces between the empty ones, in order |
| MuxFrames.LastPieceCarriesTag | run.go:43-53 | the sentence in which a call ends carries the tag of that call's object, and of no other call's, if and only if a word that is not empty stands before the tag word; otherwise it carries none |
| MuxFrames.CallsAreKnownExactly | run.go:43-58 | the device reads every finished call whole and with its own tag if and only if each has a word besides the tag word, none empty and none too long |
| MuxFrames.ReadableCallsComeBack | proto/reader.go:29-62 | where the reader of the library accepts the calls, it reads them back in order, with those tags |
| MuxScenarios.EmptyWordHappens | run.go:43-53 | a run in which a call with an empty word puts a sentence without a tag on the wire |
| MuxScenarios.NoWordHappens | run.go:43-53 | a run in which the tag word of a call is read as its command |
| MuxScenarios.OrphanedWriterHappens | run.go:53-57 | a run that reaches the orphaned writer |
| MuxScenarios.NilErrorWithoutDoneHappens | async.go:95-102 | a run in which a call returns a nil error and no `Done` |
| EndToEnd.LoopReadsStream | async.go:62-87 | the loop on the bytes of any sequence of readable sentences handles exactly those sentences, in order |
| EndToEnd.HandleAllServes | async.go:70-85 | whatever sentences are handled, a registered object ends up with the fold of its own ones, and out of the map and closed exactly when that has ended |
| EndToEnd.StreamOverTheWire | async.go:62-110 | from the interleaved bytes of any sentences to one call: its own sentences folded in order, and at the end of the stream the fold's error, the read error, or nil after `Close` |
| EndToEnd.NilErrorGivesDone | client_transport.go:208-233 | in a run in which `Close` is never called, a command whose run returned nil gets the `!done` with its own tag as its reply |
| Text.SortSorts | transport/contract.go:170-177 | sorting gives an ordered permutation |
| Text.ListsUnique | transport/contract.go:170-177 | a set of keys can be listed in order in one way only |
| Text.SortedKeys | transport/contract.go:170-177 | in whatever order the map is ranged over, the result is its keys in order, each once |
| Text.JoinOfSplit | transport/ssh/output.go:13-28 | joining what was split gives the text back, and no part holds the separator |
| Text.SplitOfJoin | transport/ssh/output.go:13-28 | splitting what was joined gives the parts back when none holds the separator |
| Text.TrimSpaceEmpty | transport/ssh/output.go:15-21 | trimming leaves nothing exactly when everything is white space |
| Commands.Words | transport/contract.go:148-167 | the words are the command word, the attributes in key order, the queries and the proplist, or the script form |
| Commands.CommandReadBack | proto/reader.go:31-61 | a plain command reads back with its word, no tag and a map equal to its attributes if and only if no attribute name has a `=`, and then in key order |
| Commands.CommandRoundTrip | transport/contract.go:148-167 | from a command through the bytes, with the tag a run appends, back to word, tag and attributes |
| Commands.ReadableExactlyWithoutQueries | proto/reader.go:45-60 | a command without script is a sentence the reader accepts if and only if it has neither queries nor proplist |
| Commands.RawSentenceWords | client_transport.go:190-200 | rebuilds word, pairs in wire order and tag |
| Commands.ReadSentencesHaveForm | proto/reader.go:31-61 | the map of a read sentence is the last value of each key of its list, and keys have no `=` |
| Commands.RawWordsRoundTrip | client_transport.go:190-200 | encoding the raw words of any sentence that was read, the empty one excepted, reads back the same sentence |
| Quoting.TwoPassesEscape | gate/gate1.go:23-27 | the two replacement passes in their order are one escape of both characters |
| Quoting.OtherOrderBreaks | gate/gate1.go:23-27 | in the other order they are not |
| Quoting.LiteralRoundTrip | gate/gate1.go:23-27 | a reader that knows only the two escapes recovers exactly the text, for every text |
| Quoting.ScriptHoldsTheLine | gate/gate1.go:212 | the device finds exactly the line in the `:parse` script, with the closing bracket left over, and the script is longer than the line |
| Quoting.HasUnbalancedQuotes | gate/gate1.go:34-52 | the loop over `escaped`, `dq` and `sq` decides as the automaton does |
| Quoting.ScanCounts | gate/gate1.go:34-52 | the automaton counts exactly the quotes that no backslash escapes |
| Quoting.CLI | transport/contract.go:77-102 | writes path, verb, sorted attributes, queries and proplist, or the script verbatim |
| Quoting.ConsoleCLI | transport/contract.go:113-139 | the same with the menu path in the space form |
| Quoting.ValueBalance | transport/contract.go:181-186 | exactly when one rendered value has unbalanced quotes, for every value: by its breaks and its loose single quotes |
| Quoting.LinesBalanceExactly | transport/contract.go:77-139 | for every command, exactly when either console form has unbalanced quotes |
| Quoting.RenderedQuotesBalance | transport/contract.go:77-139 | without backslashes, and with double quotes in values only, both forms pass the quote check if and only if they hold an even number of single quotes |
| Quoting.WithoutSingleQuotesPasses | transport/contract.go:77-139 | so they always pass without single quotes |
| Quoting.QuotedValueReadsBack | transport/contract.go:181-186 | a quoted value reads back if and only if it has no backslash |
| Quoting.BackslashIsLost | transport/contract.go:181-186 | read to its end, a quoted value has lost characters whenever it had a backslash |
| Quoting.TrailingBackslashRejected | transport/contract.go:181-186 | a value without double quotes breaks its quotes if and only if it ends in an odd number of backslashes |
| Quoting.OneValueDecides | transport/contract.go:77-102 | with one attribute and no quotes elsewhere, its value alone decides |
| Quoting.SetCommandRefused | gate/gate1.go:205-211 | a command line with such a value, with a blank and no quotes in it, is refused if and only if the value ends in an odd number of backslashes |
| Quoting.TrailingBackslashLines | gate/gate1.go:205-211 | two lines: one final backslash is refused, two are not |
| ConsoleOutput.TwoPassesNormalize | transport/ssh/output.go:11-12 | the two newline passes are one |
| ConsoleOutput.CleanConsoleOutput | transport/ssh/output.go:10-30 | the index loops compute the specified clean-up |
| ConsoleOutput.TrimRightMeaning | transport/ssh/output.go:24 | exactly trailing spaces and tabs go |
| ConsoleOutput.CleanMeaning | transport/ssh/output.go:10-30 | no CR; the lines are those between the blank ones at both ends, in order, trimmed on the right; first and last not blank; splitting the output gives them back |
| ConsoleOutput.CleanIdempotent | transport/ssh/output.go:10-30 | cleaning twice is cleaning once |
| Inspect.TokensMeaning | schema/inspect.go:19-21 | tokens hold no slash and none is empty |
| Inspect.TokensInOrder | schema/inspect.go:19-21 | together and in order the tokens are the path without its slashes, and put behind slashes again they come back |
| Inspect.HasCommandNode | schema/discover.go:153-160 | finds a command node of that name if there is one |
| Inspect.NamesOfArgumentNodes | schema/discover.go:163-171 | collects the names of argument nodes in order |
| Inspect.ArgumentNamesMeaning | schema/discover.go:163-171 | a name is collected exactly if it is the non-empty name of an argument node |
| Inspect.PickFields | schema/inspect.go:59-67 | the filled fields of a row, or its text when none is filled |
| Inspect.ExtractCompletionNames | schema/inspect.go:56-78 | the nested loops collect the cut and trimmed names in row order |
| Inspect.CompletionNamesMeaning | schema/inspect.go:56-78 | a name is collected exactly if it is a picked field of some row, cut at its first `=` and trimmed, and not empty |
| Inspect.UsableCompletionNames | schema/discover.go:200-208 | drops the structural tokens and keeps the order |
| Inspect.UsableMeaning | schema/discover.go:192-208 | as a set: the names without the structural tokens |
| Inspect.MergeNames | schema/discover.go:175-187 | appends what is new, in the order it is first seen |
| Inspect.MergeMeaning | schema/discover.go:175-187 | as a set the union; no duplicates of its own, the old names in front |
| Schema.AttributesMeaning | schema/discover.go:77-127 | attribute names are sorted, as a set the children's argument names with the usable completions of both probes, and repeat exactly what the children repeat |
| Schema.KeysClashExactly | schema/cache.go:13-17 | some two commands with these paths share a key if and only if one path continues the other behind a NUL |
| Schema.OwnKeyExactly | schema/cache.go:13-17 | a command has its key to itself if and only if neither its path nor its verb holds a NUL |
| Schema.NoClashMeansOwnKey | schema/cache.go:13-17 | discovered commands whose paths do not clash with this one leave it its key |
| Schema.NulFreeMeansNoClash | schema/cache.go:13-17 | paths without NUL do not clash |
| Schema.Cache.Get | schema/cache.go:42-54 | a stored and not expired schema, and an expired one is dropped |
| Schema.Cache.Put | schema/cache.go:57-61 | stores the schema until now plus ttl |
| Schema.Cache.Delete | schema/cache.go:64-68 | drops the entry of one command |
| Schema.Cache.Clear | schema/cache.go:71-75 | drops everything |
| Schema.Store.ProbeAll | schema/discover.go:62-127 | sends exactly the probes that are due, in order, and resolves their answers |
| Schema.Store.Discover | schema/discover.go:56-128 | answers from the cache without sending, or probes and stores; failures are not stored |
| Schema.Store.RegisterCategory | schema/discover.go:33-36 | sets the override and evicts the entry |
| Schema.DiscoverIsRecent | schema/discover.go:56-128 | after any sequence of discoveries that take their time, overrides, deletions, clearings and clock steps in which no other command with the same key was discovered, the answer is that of an uncached discovery under the current overrides: one that starts now, or one of the sequence that missed the cache, probed between its start and its storing, and stored no more than ttl ago |
| Schema.CachedIsFresh | schema/discover.go:56-128 | against a device with fixed answers the cache is invisible |
| Schema.SecondDiscoverIsFree | schema/discover.go:48-49 | a second discovery within ttl sends nothing and answers the same |
| Schema.SharedKeyInterferes | schema/cache.go:13-17 | of two commands with one key, the second is answered with the first one's schema right after that has been discovered |
| Schema.CollidingKeysInterfere | schema/cache.go:13-17 | from an empty cache, discovering a command with one path can spoil another command with a second path if and only if the paths clash |
| Schema.NulPathsCollide | schema/cache.go:13-17 | two such commands |
| SchemaRaces.FlightIsFresh | schema/discover.go:62-127 | a discovery heard out step by step asks as often as the one of `Schema` and finds the same |
| SchemaRaces.RunKeeps | schema/discover.go:56-128 | every run keeps what is known of each discovery and each entry: its probes were due, answered in order between its start and now, and what it found follows from the answers and the override it read |
| SchemaRaces.ServedIsRecent | schema/cache.go:42-61 | however discoveries overlap, what a look-up finds was put together from the answers to all probes due in one discovery of that key, given in order between its start and its storing, and that was no more than ttl ago |
| SchemaRaces.OverrideHoldsExactly | schema/discover.go:116-118 | an override holds for everything served until the next registration if and only if it holds for the entry there is and for every result about to be stored, schemas of a rejected first probe excepted |
| SchemaRaces.RegistrationTakesEffectExactly | schema/discover.go:28-36 | a registration takes effect at once if and only if no overlapping discovery of the command has read the overrides already and found otherwise |
| SchemaRaces.EvictionHoldsExactly | schema/cache.go:63-75 | once there is no entry, only results of discoveries that begin later are stored if and only if none that can still store is under way |
| SchemaRaces.DeletionHoldsExactly | schema/cache.go:63-75 | the same after `Delete` for the command and after `Clear` for all |
| SchemaRaces.StaleCategoryHappens | schema/discover.go:28-36 | a run in which an older category is served after the registration has returned |
| ClientTransport.TranslateReply | client_transport.go:162-175 | rows first, in order, then the terminal sentence |
| ClientTransport.TerminalReply | client_transport.go:208-221 | a command returns its terminal sentence if there is one, else the last row, and fails exactly without both |
| ClientTransport.InspectSentence | client_transport.go:248-252 | the words of an inspect probe |
| ClientTransport.NodesAreRows | client_transport.go:256-269 | the nodes are the data sentences, each once and in order |
| ClientTransport.Transport.List | client_transport.go:227-233 | sends the words of the command once and translates reply or error |
| ClientTransport.Transport.Send | client_transport.go:208-221 | sends the words of the command once and returns the last translated sentence |
| ClientTransport.Transport.InspectNodes | client_transport.go:241-270 | sends one inspect sentence and returns the rows as nodes |
| Gates.Gate1.Run | gate/gate1.go:196-234 | skips, refuses locally, or sends one script and returns the classifier's verdict |
| Gates.DeviceParsesTheLine | gate/gate1.go:212-213 | from the console line through script, bytes and sentence: the device is to parse exactly that line |
| Gates.Gate1SendsNoCommand | gate/gate1.go:212-213 | the sentence of Gate 1 is never that of the checked script |
| Gates.Gate1RefusesLocally | gate/gate1.go:205-211 | a line is refused without a sentence exactly when the gate is in force and an odd number of unescaped quotes of a kind is in it |
| Gates.HasAttribute | schema/schema.go:45-52 | finds a name exactly if it is among the attributes |
| Gates.MissingKeys | gate/gate2.go:45-54 | in whatever order the map is ranged over, the result is the sorted difference |
| Gates.Gate2.Validate | gate/gate2.go:30-75 | skips without inspect, otherwise discovers and reports the unknown keys with what is available |
| Gates.Gate2Exactly | gate/gate2.go:45-74 | with a known command, accepts exactly the commands whose keys are all among the names of the probes, and otherwise reports exactly the others in order with all known names |
| Gates.Gate2SkipsExactly | gate/gate2.go:39-43 | the category is unknown exactly when the first probe was rejected, the override says so, or there is none and the path has no such command |
| Gates.Gate2SendsProbes | gate/gate2.go:35-38 | Gate 2 sends inspect probes only |
| Session.Session.ProbeInspect | client_transport.go:64-84 | the flags, the sentence and the error of the inspect probe |
| Session.Session.ProbeParse | client_transport.go:101-123 | the flags, the sentence and the error of the parse probe |
| Session.Session.EnsureRun | orchestrate.go:18-38 | both probes, then the pipeline, once; an inconclusive probe leaves it unbuilt |
| Session.Session.ValidateWith | orchestrate.go:46-59 | scripts go to Gate 1 and structured commands to Gate 2 |
| Session.Session.Validate | orchestrate.go:66-71 | the pipeline, then the gate |
| Session.Session.Inspect | orchestrate.go:77-82 | the pipeline, then discovery |
| Session.Session.RunStructured | orchestrate.go:89-97 | validation, then the command |
| SessionTheorems.LearnedExactly | client_transport.go:71-122 | when a probe is conclusive, in terms of what the run returned |
| SessionTheorems.SessionHolds | orchestrate.go:18-38 | after any sequence of calls, flags and log agree, and before both probes are settled nothing but probes is sent |
| SessionTheorems.ProbesAreConclusiveOnce | client_transport.go:64-133 | a conclusive probe is the last of its kind; the flags are true exactly when there was one and when it said so; other failures pin nothing |
| SessionTheorems.FlagsArePinned | client_transport.go:64-133 | no later call changes the flags of a settled probe |
| SessionTheorems.RunExecutesExactly | orchestrate.go:89-97 | `RunStructured` sends the command exactly when both probes are settled and its gate passes it, once and last, and returns its reply |
| SessionTheorems.ExecutedIsPassed | orchestrate.go:66-97 | over any sequence of calls the executed commands are those of the `RunStructured` calls whose validation returned nil, once each and in order; no other call executes anything |
| SessionTheorems.ValidateSendsNoCommand | orchestrate.go:61-71 | no sentence of `Validate` equals the validated command, unless that is the parse probe's script or an inspect probe itself |
| SessionTheorems.AttributeWordsInOrder | transport/contract.go:157-159 | the attribute words of a structured command are those of different attributes in the order of their names |
| SessionTheorems.TransportErrorStopsScript | gate/gate1.go:213-216 | a script whose `:parse` sentence fails is not executed; the call returns the translated error and no validation result |
| SessionTheorems.FirstProbeFails | schema/discover.go:68-76 | an error sentence other than `!fatal` on the first probe means an unknown command, remembered for ttl; every other error is returned and not remembered |
| SessionTheorems.FatalSettlesProbe | client_transport.go:71-81 | a `!fatal` settles the inspect probe as unsupported, without an error |
| Facade.FacadeHolds | client_transport.go:64-133 | locks, log and flags agree after every interleaving of first calls |
| Facade.NoDoubleProbe | client_transport.go:64-133 | however first calls race, a conclusive probe is the last of its kind, and outside a probe the flags are what it said |
| Facade.PipelineBuiltOnce | orchestrate.go:18-38 | the pipeline is there only after both kinds are settled, and whoever builds it found it missing, alone under initMu |
| Facade.InitBeforeProbe | orchestrate.go:18-30 | by the call chain of `ensureRun`: who waits for initMu holds neither lock, who waits for probeMu at most initMu, and the holder of probeMu waits for no facade lock |
| FacadeCalls.CallsAreFacadeRuns | orchestrate.go:46-97 | with any number of calls at once the probes and the pipeline do what they do in `Facade`, so that its theorems hold |
| FacadeCalls.CallsHold | orchestrate.go:46-97 | in every run each call has behind it what its place says, and no two calls share a syntax check or a command |
| FacadeCalls.ExecutedAreGated | orchestrate.go:89-97 | however calls overlap, every command sent is that of exactly one `RunStructured` call, sent once, whose own gate had let it through before: not in force, the script accepted in an earlier sentence of that call alone, or the attributes right by what its discovery gave |
| FacadeCalls.OverIsFinal | orchestrate.go:89-97 | a refused call never sends its command, and one that sent it never sends it again |
| FacadeCalls.ValidateNeverExecutes | orchestrate.go:61-71 | no command is sent by a `Validate` call, whatever other calls do meanwhile |

## Left out

- Dialing, TLS, login and MD5, SSH sessions, known hosts and the error tables: network and library calls.
- `proto/io_context.go`: a read that is given up is a read error, and a cut stream is one that ends; when it happens is not modelled.
- The regular expressions of the Gate 1 classifier: `Gates.Classifier` is any function of the text.
- The console adapter of `gate/console.go`: `Gates.Gate1Verdict` is stated for any console line, the adapter itself is not modelled.
- Liveness and fairness: blocking is a step that is not enabled. A full listener queue, an undrained channel and slow I/O with c.mu held only mean that
  the loop does not move; the channel of a listener is the whole list of its sends.
- MuxTheorems.StreamsAreIsolated: the machine starts with the loop, so that calls made before `Async` (sync mode, one caller at a time) are
  not in its runs; they are modelled by `Replies.RunSync`.
- MuxTheorems.TagsAreDistinct: the tag counter is unbounded, so the wrap-around of int64 after 2^63 calls is not modelled.
- MuxTheorems.NoReplyIsLost: assumes a device that answers without a tag or with that of a command it has received whole; for any other device the
  isolation theorems still hold, for the sentences from the registration on.
- Steps of the multiplexer: a critical section of c.mu is one step unless another goroutine can act on its inside. `closeTags` is one step as well: a waiting run whose channel
  is closed while the map is still being ranged over is modelled as returning right after it; the run reads only its own object, which is complete by then.
- AsyncClient.Client.Dispatch: the reply objects are values in a heap field, and the map holds indices into it; the pointers that callers share with the map are not objects of their own.
- Schema.DiscoverIsRecent: discoveries follow each other here; `SchemaRaces` lets them overlap. Durations are integers without a unit.
- SchemaRaces.RegistrationTakesEffectExactly: reading and writing the `overrides` map are atomic steps; Go promises nothing for an unsynchronised map, and may
  abort the program.
- Session.Session.RunStructured: facade calls follow each other here; `FacadeCalls` lets them overlap.
- FacadeCalls.ExecutedAreGated: what the discovery of a call gives is arbitrary there, its probes are sentences of others; `SchemaRaces` says what
  overlapping discoveries can give. Sentences sent below the facade, by `Run` or `Listen`, are not in its runs.
- ClientTransport.TerminalReply: the rendered text of an error without a message is left empty; codes, causes and messages are kept.
- Metrics, latencies, logging, error rendering, the mock, the nativeapi adapter and `InspectChildrenOrEmpty`: nothing hard to state.
