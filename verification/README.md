# A verified model of the airouter gateway's core

This project models the parts of airouter that keep state or splice bytes by hand, and proves what they are for:

- `Dots.dfy`, `Tags.dfy`: the streaming tag stripper of `model_patch.go`, which removes `<dots_function_call>` blocks from text that arrives in arbitrary pieces, its whole-text form, and which bytes make a tag.
- `JsonScan.dfy`, `JsonTree.dfy`, `JsonTokens.dfy`, `JsonSplice.dfy`, `JsonEdits.dfy`, `JsonSqueeze.dfy`: the byte-offset JSON scanner and splicer of `jsonspan.go`. A JSON text is the printing of a tree that carries its insignificant whitespace (RFC 8259, sections 2, 4, 5 and 7). Scanning inverts printing, and each splice is an update of the tree.
- `Rewrite.dfy`, `Gate.dfy`, `Session.dfy`, `Replay.dfy`, `FirstTurns.dfy`, `Sharing.dfy`: what the gateway does with these splices. The model name is replaced, the OpenCode gate is opened (`config.go`), an assistant turn is appended and conversations are identified (`api.go`), with the exact condition under which two share an identity.
- `CommandCode.dfy`, `Responses.dfy`, `CommandCodeReader.dfy`, `StreamEnd.dfy`: the incremental event translator of `commandcode.go` against its whole-body aggregator, both against the events themselves, and how the bytes it delivers end.
- `AttemptTable.dfy`, `LabelCounts.dfy`, `Registry.dfy`: the bounded attempt registry of `metrics.go`, four maps and a window, against a table of rows in admission order, and what each row has counted.
- `TickLog.dfy`, `Ring.dfy`, `QueryRows.dfy`, `Journal.dfy`, `Percentile.dfy`: the one-minute attempt ring, the dashboard query, the journal and the percentiles, against an unbounded log.
- `Fallback.dfy`, `Failover.dfy`: the fallback walk of `api.go`, with its timeout arithmetic, its budget and its two loops, and what ends a walk.
- `Text.dfy`: searching in strings.

Bytes are characters of a `string`. Code the model cannot see is a function parameter: the tag parsers (`Parsers`), `json.Unmarshal` into a string (`Decoder`), `json.Marshal` (`Encoder`, `Codec`), hashes (the hashed bytes are the result), the router and the upstream calls (`script`), random draws and the clock. Loops and state machines of the source are methods and classes. Each is proved equal to a function, and the theorems are about the functions.

## Where the code and its own comments differ

The model follows the code.

- `FlushStream` emits only the held text, so the opening tag of a block that never closes is not shown (`model_patch.go:336-348`). `extractDotsCalls` on an unterminated opener writes only the text from that opener on (`model_patch.go:455-458`, `471-474`), so text before it is lost. The two forms agree exactly on texts that end in neither way: `Dots.StreamMatchesBatch`.
- A key with a backslash is decoded without its quotes (`jsonspan.go:89`, `216`), so it never decodes and the scan of that object fails: `JsonScan.EscapedKeyFails`, `JsonTree.ScanPrintedDoc`.
- `SetLabelCap` promises that the map never passes the cap afterwards. When exactly `n` labels are live and there is no bucket yet, nothing is pruned and the next new label takes the map to `n + 1`: `AttemptTable.ResizeReserves`, `AttemptTable.OverfillingExceeds`; sixteen labels, a cap of sixteen and one more label do it: `AttemptTable.SixteenAndOneMore`.
- A source whose last line is unfinished but still yields output ends without `[DONE]` or an error (`commandcode.go:1365-1371`): `StreamEnd.TrailerIff`, `StreamEnd.NewlineAddsTrailer`; a delta line and an unfinished finish line do it: `StreamEnd.HiWithoutEnd`.
- The comment on `bodySessionID` (`api.go:601-624`) says that the whole messages array is hashed and that distinct conversations never share a session. With a system or user content present, only the model and the first content of each is hashed, without its role, and the parts are only kept apart by zero bytes (`api.go:685-706`). `Sharing.SessionsShared` is the exact condition. Bodies that share: a system turn and a user turn of one content (`Sharing.RolesShare`), no messages and a system turn with the content `[]` (`Sharing.EmptyShares`), a model name with a zero byte in it (`Sharing.NamesShare`), and a chat that goes on without bringing the first content of a missing role (`Sharing.LaterTurnsShareBodies`).
- An attempt is said to cost at most the timeout the budget allows, whatever phase it dies in (`proxy.go:1293-1295`). Where upstream calls are capped, a streaming attempt waits up to 250ms for a slot before its timer starts (`proxy.go:1321`, `2685-2703`), so the bound on silence is the budget exactly when upstream calls are not capped. Without a cap it holds in every run, and with one the silence never passes the budget by more than that wait: `Fallback.HandleStream`. With a cap every prompt size and every wait has a run of at most four attempts that does: `Fallback.SlotWaitOutlastsBudget`.
- The aggregator refuses a response with zero output tokens and no tool call; the reader refuses it only if it has sent nothing: `CommandCode.EmptyGuards`.

## Model

| member | source | states |
|---|---|---|
| Dots.ChunkIndependence | model_patch.go:177-245 | feeding a text in any pieces gives the same output, the same calls in order and the same final state as feeding it whole |
| Dots.ScanSplit | model_patch.go:177-245 | scanning a text and then more text is scanning both at once, from every state |
| Dots.ScanSettles | model_patch.go:177-245 | the state feed leaves behind is one in which it can do nothing more |
| Dots.TextAccounting | model_patch.go:147-245 | emitted pieces, removed raw blocks, stored opening tag and held text are together exactly the bytes fed |
| Dots.StreamAccounting | model_patch.go:147-245 | over a whole stream in any chunks: emitted text and removed blocks in order, the stored opening tag and the held text are exactly the bytes fed |
| Dots.CutsAreFed | model_patch.go:177-245 | and the stream emits the text and the calls of exactly these segments |
| Dots.HeldText | model_patch.go:177-254 | outside a block text is held back exactly when it is empty, a prefix of the opener, or an opener without its `>` |
| Dots.BatchAgreement | model_patch.go:435-482 | on one text the calls always agree, and the shown text agrees exactly when no unterminated opener loses text |
| Dots.StreamMatchesBatch | model_patch.go:331-359 | streaming in any chunks and flushing against extractDotsCalls: same calls always, same text if and only if the text is terminated |
| Dots.UnterminatedBlockDiffers | model_patch.go:471-474 | a concrete text on which the two forms show different text |
| Dots.ExtractDotsCalls | model_patch.go:435-482 | the batch loop computes the function the agreement is about |
| Dots.FieldState.Feed | model_patch.go:177-245 | output, calls and new fields are those of the scan of held text and input; nothing more could be emitted |
| Dots.FieldState.Flush | model_patch.go:331-359 | exactly the held text comes out, and is held no longer |
| Tags.AttributeForm | model_patch.go:209-254 | behind text without a `<`, in stream and batch form: the name, one of `>` `/` space, tab, newline, carriage return, any text up to the first `>`, ended by `/>`: nothing of it is shown and exactly the call read from the tag is found, for every text behind it |
| Tags.BlockForm | model_patch.go:203-245 | the same without the slash: up to the first closing tag nothing is shown and the calls are exactly those read from the tag and the inner text |
| Tags.NotATagForm | model_patch.go:196-201 | any other byte behind the name: the `<` comes out as text, in the stream with the whole name, and no call is found in it |
| Tags.NoTagForm | model_patch.go:177-189 | a text without the name behind a `<` comes out whole and yields no call, in both forms |
| Tags.CloserFound | model_patch.go:235-245 | the closing tag behind an inner text that has none is the first, so no tag is found across the two |
| JsonScan.SkipJSONSpace | jsonspan.go:198-207 | the offset of the next byte that is not whitespace |
| JsonScan.ScanJSONString | jsonspan.go:176-195 | the offset behind the closing quote, escapes skipped, control bytes refused |
| JsonScan.ScanJSONValue | jsonspan.go:127-172 | the end of a value: string, bracketed text by depth, or scalar |
| JsonScan.ScanJSONObjectAt | jsonspan.go:65-123 | the object loop computes the recursive scan |
| JsonScan.ScanJSONObject | jsonspan.go:47-61 | one object between whitespace, and nothing behind it |
| JsonScan.JSONArrayElements | jsonspan.go:443-471 | the element loop computes the recursive scan |
| JsonScan.FindJSONMember | jsonspan.go:226-235 | the last member of that name |
| JsonScan.EscapedKeyFails | jsonspan.go:212-222 | a key with a backslash never decodes, whatever the decoder does |
| JsonScan.ObjectBounded | jsonspan.go:47-123 | every span of a scanned body, well formed or not, lies inside it and is not empty |
| JsonTokens.BlankIs | jsonspan.go:198-207 | whitespace is exactly the four characters of section 2 of RFC 8259 |
| JsonTokens.ScalarForms | jsonspan.go:156-172 | `true`, `false`, `null` and every number of RFC 8259 are scalars of the trees, and a scalar begins like one of them |
| JsonTokens.StringForms | jsonspan.go:176-195 | and so are its strings: escapes, and characters from the space on but the quote |
| JsonTree.ScanPrintedValue | jsonspan.go:127-172 | scanning a printed value ends exactly at its end |
| JsonTree.NestValue | jsonspan.go:132-155 | the bracket counter comes back to its level behind every printed value |
| JsonTree.ScanPrintedObject | jsonspan.go:65-123 | scanning a printed object gives exactly its member spans in order and its closing brace, if and only if no key holds an escape |
| JsonTree.ScanPrintedDoc | jsonspan.go:47-123 | the same for a whole body with any whitespace |
| JsonTree.ScanPrintedArray | jsonspan.go:443-471 | scanning a printed array gives exactly its element spans; anything else is refused |
| JsonSplice.ReplaceLaw | jsonspan.go:239-244 | replacing a value in the bytes replaces it in the tree and changes no other byte |
| JsonSplice.SpliceValue | jsonspan.go:239-244 | an edit inside a member's value is that edit of the value's own text |
| JsonSplice.AddLaw | jsonspan.go:425-437 | adding members at the insertion point adds them to the tree, whitespace at the brace kept |
| JsonSplice.InsertionPointFound | jsonspan.go:425-437 | walking back from the brace finds the end of the last member, and a `{` there means an empty object |
| JsonSplice.InsertLaw | jsonspan.go:250-276 | insertJSONMember adds one member to the tree and nothing else |
| JsonSplice.AddElemsLaw | jsonspan.go:475-495 | adding elements in an array's text adds them to the tree |
| JsonSplice.ArrayInsertionFound | jsonspan.go:475-495 | the insertion offset of an array inside a printed body |
| JsonSplice.AppendElemLaw | api.go:1147-1162 | an element written at the closing bracket is the last element of the tree |
| JsonEdits.PiecesSplice | jsonspan.go:396-409 | writing gaps and replacements left to right is splicing one edit at a time from right to left, and has the precomputed size |
| JsonEdits.SortedUnique | jsonspan.go:385-388 | with distinct starts there is one sorted order |
| JsonEdits.ChainedIffDisjoint | jsonspan.go:389-395 | neighbours in sorted order overlap exactly when some two edits do |
| JsonEdits.ApplyOrderIndependent | jsonspan.go:376-410 | the order in which edits are given does not matter |
| JsonEdits.ApplyJSONEdits | jsonspan.go:380-410 | out-of-range or overlapping edits leave the body as it is, others are all spliced in, with exactly the precomputed size |
| JsonEdits.WritePieces | jsonspan.go:396-409 | the output loop; the size is never negative |
| JsonEdits.InsertJSONMemberReusing | jsonspan.go:283-319 | for every capacity the bytes are those of insertJSONMember; the buffer is reused exactly when the spare room suffices |
| JsonEdits.ShiftRight | jsonspan.go:300-319 | the overlapping move to the right keeps every moved byte |
| JsonSqueeze.HashJSONValue | jsonspan.go:336-364 | what is written to the hash is the text with whitespace outside strings removed |
| JsonSqueeze.HashedText | jsonspan.go:333-364 | the hashed bytes are the printing of the same tree without whitespace |
| JsonSqueeze.HashIgnoresWhitespace | jsonspan.go:333-364 | two texts of one tree are hashed alike |
| Rewrite.FindPrinted | jsonspan.go:226-235 | looking a member up in the bytes finds the member a map would keep |
| Rewrite.ObjectAtPrinted | jsonspan.go:517-523 | an object is found at a span exactly when the value there is one without escaped keys |
| Rewrite.ReplaceMemberLaw | config.go:1203-1214 | replacing a member of a printed body is the map update of the tree, byte for byte |
| Rewrite.SetMemberUpdatesMap | config.go:1203-1214 | read as a map, the body changes at that key and nowhere else |
| Rewrite.SetTwice | config.go:1203-1214 | setting a member twice is setting it once to the last value |
| Rewrite.SetMemberKeeps | config.go:1203-1214 | the rewritten body is again one the scanner accepts |
| Rewrite.ReplaceModelTwice | config.go:1203-1214 | ReplaceModelName twice gives the bytes of the last one alone |
| Rewrite.ReplaceModelLaw | config.go:1203-1214 | the bytes are those of a well-formed body whose map has `model` replaced and nothing else |
| Rewrite.TrimLaw | jsonspan.go:414-419 | trimming takes exactly the outer spaces, of six kinds |
| Gate.HaveGateTools | config.go:420-428 | the loop finds which of the two names some element carries |
| Gate.PlanGate | config.go:401-497 | the rewrite keeps the body or makes exactly these edits |
| Gate.ToolNamePrinted | jsonspan.go:527-547 | the name read from the bytes of a tool is the name in its tree |
| Gate.RealizeTwo | config.go:429-476 | edits of two members, in either order, change both values of the tree |
| Gate.RealizeAndAdd | config.go:429-494 | an edit of a member and an insertion do both |
| Gate.GateLaw | config.go:401-500 | on every well-formed body the scanner accepts, the edits are never rejected and print the gated tree; the body is kept exactly when the gate is open |
| Gate.GateOpens | config.go:401-544 | afterwards `stream` is the scalar `true`, or still the value that already read `true`; behind the old tools stand exactly the missing ones of `bash` and `read`, in order, each of `type` `function` with `parameters` of `type` `object` and a non-empty `properties`; and the tools name both |
| Gate.GateUntouched | config.go:401-500 | every other member, key and whitespace stays, only a missing `stream` or `tools` is added, and the whitespace behind the last member stays last |
| Gate.ElementStays | config.go:456-471 | the tools that were there stay, in their places |
| Gate.GateKeeps | config.go:401-500 | the gated body is again one the scanner accepts |
| Gate.GateTwice | config.go:401-500 | a second application changes nothing |
| Gate.OpencodeGateBody | config.go:401-500 | the method's bytes are the gated tree's; an unscannable body comes back as it is |
| Gate.GateToolAdmitted | config.go:532-544 | by lookups the added tool is a function of that name whose parameters are an object with the property `path`, a string |
| Gate.NamesAreRead | jsonspan.go:527-547 | a name counts as there exactly when some tool has it under `function` and `name`, or else under `name` |
| Gate.GateToolNamed | config.go:532-544 | the tool the gate adds is read back under its name |
| Gate.GateToolWF | config.go:532-544 | and is a well-formed value |
| Session.ScanSession | api.go:640-684 | the loop with its early stops finds the first system and user contents |
| Session.ScanConversation | config.go:265-296 | the same for the conversation identity, which gives up on a broken message |
| Session.SessionFingerprint | api.go:625-709 | the hashed bytes of the session identity |
| Session.SessionRead | api.go:625-709 | on a printed body the session identity is that of its tree |
| Session.ConversationRead | config.go:241-315 | the same for the conversation identity |
| Session.LaterTurnsShare | api.go:640-684 | once both anchors are there, no later message changes the session |
| FirstTurns.SessionAnchorsAreFirst | api.go:640-684 | each session anchor is some content exactly when that is the content of the first turn of its role that has one, with no broken message before it |
| FirstTurns.ConversationAnchorsAreFirst | config.go:265-296 | the conversation has no anchors exactly when a message is broken; else each is the content of the first turn of its role, a missing one counting as empty |
| FirstTurns.LaterTurnsAdd | api.go:640-684 | the anchors of a longer chat are those it had, completed by those of the added messages; behind a broken message nothing is added |
| FirstTurns.LaterTurnsContinue | config.go:265-296 | the same for the conversation, which a broken message ends |
| FirstTurns.MessageSays | api.go:644-670 | a message is broken exactly when it is no object with plain keys or its `role` is no readable string; its role and content are the last `role` and `content` |
| Session.AppendLaw | api.go:1120-1163 | appending the turn in the bytes appends it to the tree: missing or null messages become the array of one, other values are left alone |
| Session.AppendLookups | api.go:1120-1163 | read as a map, only the messages change |
| Session.AppendKeeps | api.go:1120-1163 | the body stays one the scanner accepts |
| Session.TurnIsAssistant | api.go:1077-1118 | the turn that is built is an assistant message, whatever it replays |
| Replay.TurnReadsBack | api.go:1077-1118 | read back by lookups the turn gives its content, its reasoning and exactly the calls whose name arrived, in order; what was empty is not there |
| Replay.CallReadsBack | api.go:1099-1113 | each replayed call gives back its id, type, name and arguments |
| Session.ConversationKept | config.go:241-315 | the conversation identity never changes when the turn is appended |
| Session.SessionKept | api.go:625-709 | the session identity is unchanged if and only if the conversation is anchored on a system or user content, or nothing is appended |
| Sharing.SessionsShared | api.go:625-710 | for all accepted bodies: the same session exactly when the model and the hashed parts agree, or one model name takes in a zero byte and the first content of the other; without a model, exactly when the bytes are the same |
| Sharing.PlainNamesShared | api.go:625-710 | for model names without a zero byte: exactly when model and hashed parts agree |
| Sharing.SplitAtLastNul | api.go:685-698 | the last zero byte of the hashed bytes splits them in one way |
| Sharing.PartsClear | api.go:685-706 | a body without zero bytes gives parts without any |
| Sharing.LaterTurnsShareBodies | api.go:640-710 | a chat with an anchor, and the same chat with messages added, share a session exactly unless an added message brings the first content of a role that had none |
| Sharing.ConversationsShared | config.go:241-315 | two bodies have one conversation identity exactly when model and anchored contents agree, or one model name takes in a zero byte and the first content of the other |
| Sharing.RolesShare | api.go:685-698 | two different bodies: a lone system turn and a lone user turn of the same content share a session |
| Sharing.EmptyShares | api.go:685-706 | two different bodies: no messages, and a system turn with the content `[]` |
| Sharing.AbsorbedShare | api.go:685-698 | two different bodies: a model name that takes in a zero byte and a prompt, and that prompt |
| Sharing.NamesShare | api.go:685-698 | for one: the model `a\u0000"b"` asked by a user, and the model `a` with the system prompt `b` |
| CommandCode.MapIdempotent | commandcode.go:1233-1252 | mapping a mapped finish reason changes nothing |
| CommandCode.FinishReasonsKnown | commandcode.go:1254-1273 | a client sees a reason it knows or the retry marker, which is never lost or made up |
| Responses.ReasonTable | commandcode.go:1233-1252 | every finish reason by its lower-case form without outer space: nothing, the three for calls, the four for length, the failures of the upstream with at most one separator, and any other as it is |
| Responses.ClientReasons | commandcode.go:1254-1273 | what a client may see of it: six as they are, `pause_turn` as `length`, any other as `stop` |
| Responses.AggregateReports | commandcode.go:1592-1735 | for every list of events, which of the four outcomes it has, and then the texts, thoughts and calls in order, the last reason given and the last usage given, billed only with output |
| Responses.ErrorsShown | commandcode.go:1489-1530 | over every run the error objects sent are those of the error events and failed finishes, in order, with their messages |
| CommandCode.RunInStep | commandcode.go:1401-1537 | after every event the translator's state and the client's view match the aggregator's |
| CommandCode.StreamEqualsAggregate | commandcode.go:1401-1735 | with no error and one final finish, a succeeding aggregator and the folded deltas give the same content, reasoning, calls at 0, 1, 2 and on, reason and usage |
| CommandCode.RoleOnce | commandcode.go:1416-1467 | in every run a delta carries the role exactly when it is the first |
| CommandCode.EmptyGuards | commandcode.go:1383-1396 | the reader's empty-response guard fires exactly when the aggregator's does and no text was sent |
| CommandCodeReader.EmitLine | commandcode.go:1344-1356 | a complete line is emitted and the rest follows from the state behind it |
| CommandCodeReader.LineForms | commandcode.go:1401-1412 | nothing, `[DONE]` and a line that begins with `:` carry no event; behind `data:` or without it, the rest does |
| CommandCodeReader.LineTrimmed | commandcode.go:1401-1412 | outer space around a line does not matter |
| CommandCodeReader.StreamReader.DrainLines | commandcode.go:1344-1356 | taking the complete lines out of the carry loses no output |
| CommandCodeReader.StreamReader.EndStream | commandcode.go:1360-1398 | the end of the source adds the last line's output or one trailer |
| CommandCodeReader.StreamReader.Pump | commandcode.go:1340-1399 | reading one chunk changes nothing about the bytes still to come |
| CommandCodeReader.StreamReader.Read | commandcode.go:1326-1338 | the next bytes, at most as many as fit, end of file only when nothing is left |
| CommandCodeReader.StreamReader.ReadAll | commandcode.go:1326-1338 | reading to the end delivers exactly the bytes of the source's translation, whatever the buffer sizes |
| CommandCodeReader.ReadTwice | commandcode.go:1326-1399 | two ways of cutting one source and two ways of reading it deliver the same bytes |
| CommandCodeReader.StreamMatchesBody | commandcode.go:1592-1735 | for every body: the deltas of its stream add up to what the aggregator returns for it, and `[DONE]` follows exactly when the finish is not on an unfinished last line |
| StreamEnd.EventsFound | commandcode.go:1550-1584 | a client finds in the bytes exactly the chunks that were rendered, one event each |
| StreamEnd.DoneIsLast | commandcode.go:1360-1398 | in the delivered bytes `data: [DONE]` comes at most once, and last |
| StreamEnd.TrailerIff | commandcode.go:1360-1398 | for every source, which of the three trailers the last event of the bytes is: none exactly when an unfinished last line still yields output, unless that reads like one of the errors |
| StreamEnd.EndsWithTrailer | commandcode.go:1360-1398 | a source that ends in a newline ends with exactly one of `[DONE]`, the truncation error and the empty-output error, and which |
| StreamEnd.NewlineAddsTrailer | commandcode.go:1362-1398 | a newline at the end of a source adds exactly the trailer an unfinished line with output had kept away, and otherwise nothing |
| StreamEnd.ReadEvents | commandcode.go:1326-1399 | all of this of the bytes that reading delivers, however source and caller cut them |
| StreamEnd.FinishWithoutEnd | commandcode.go:1362-1371 | a delta and a finish on an unfinished line: the client gets both and no end marker |
| StreamEnd.HiWithoutEnd | commandcode.go:1362-1371 | for one, the two lines as an upstream sends them |
| AttemptTable.NeverCollapses | metrics.go:654-662 | the collapse branch is unreachable: a full table has a row to evict |
| AttemptTable.RecordKeeps | metrics.go:634-670 | one attempt keeps distinct labels, the bucket apart, each row's histogram summing to its attempts, and the reserved slot |
| AttemptTable.RunKeeps | metrics.go:485-794 | over every run of attempts and cap changes all of this holds, and the map is at most one over its cap |
| AttemptTable.RunReserves | metrics.go:591-605 | the map stays within its cap through every run in which no cap change fills the window to the brim |
| AttemptTable.FixedCapBounded | metrics.go:591-605 | at a fixed cap the map never exceeds it |
| AttemptTable.ResizeReserves | metrics.go:275-302 | SetLabelCap keeps the reserved slot if and only if it does not leave as many labels as the new cap without a bucket |
| AttemptTable.FilledThenExceeds | metrics.go:291-302 | in that case the next new label takes the map past the cap |
| AttemptTable.OverfillingExceeds | metrics.go:275-302 | from the start: n labels, the cap set to n and one label more leave n + 1 entries, for every n a cap allows below the default |
| AttemptTable.SixteenAndOneMore | metrics.go:275-302 | sixteen labels, a cap of sixteen and a seventeenth label: seventeen entries |
| AttemptTable.RunConserves | metrics.go:742-794 | attempts, failures and latency summed over all keys are the totals ever recorded, through evictions and cap changes |
| AttemptTable.RunFirstInFirstOut | metrics.go:634-728 | the live labels are always the most recently admitted ones, so the victim was the oldest |
| LabelCounts.RowCounts | metrics.go:485-794 | over every run from the empty registry: attempts, failures, latency and each histogram slot of a live label are the sums over exactly the attempts against it since it was last admitted |
| LabelCounts.BucketCounts | metrics.go:742-794 | each histogram slot of the bucket counts exactly the attempts recorded under the bucket's own label |
| LabelCounts.BucketHoldsRest | metrics.go:742-794 | and the attempts, failures and latency that no live row holds are in the bucket |
| Registry.SlotOf | metrics.go:492-500 | the first boundary at or above the duration, else the slot behind the last |
| LabelCounts.LabelKeysDiffer | metrics.go:953-955 | endpoints share a label exactly when their escaped names are equal |
| Registry.FoldEvicts | metrics.go:742-794 | folding three maps into the bucket and dropping the label is evicting the row |
| Registry.CountIsCount | metrics.go:519-574 | counting in the four maps is counting in the row |
| Registry.SizeIs | metrics.go:591-605 | the size of the map is the size of the table |
| Registry.Metrics.Admit | metrics.go:675-697 | a new label gets an empty last row with the next clock, the bucket stays outside the window |
| Registry.Metrics.OldestAdmitted | metrics.go:710-726 | the first live label; stale entries are dropped, and there are none |
| Registry.Metrics.CompactRing | metrics.go:730-738 | labels, clocks and index stay three views of one window |
| Registry.Metrics.RollUpToOverflow | metrics.go:742-794 | the victim's row leaves and its counters are in the bucket |
| Registry.Metrics.BoundedAttemptKey | metrics.go:634-670 | the stored key and the new table, with both counters |
| Registry.Metrics.Attempt | metrics.go:485-576 | the registry acts like the table: one observation recorded under the bounded key |
| Registry.Metrics.SyncRing | metrics.go:306-315 | drops what is not live; under the invariant nothing |
| Registry.Metrics.SetLabelCap | metrics.go:275-302 | the registry acts like the resized table; the loop ends by the number of named labels |
| TickLog.RecordReads | metrics_ring.go:103-133 | each event adds its weight to each counter of its key and to nothing else |
| TickLog.TicksAreLog | metrics_query.go:52-107 | sums over ticks are sums over the log entries of their minutes |
| TickLog.ActiveAreMinutes | metrics_query.go:90-97 | active ticks are the distinct minutes with an attempt |
| TickLog.TouchedIsLogged | metrics_query.go:55-107 | a key appears in a tick exactly when the log has it in that minute |
| TickLog.NameIsFirst | metrics_ring.go:112-116 | the name kept for a key in a tick is that of its first entry |
| Ring.HistoryIsLog | metrics_ring.go:73-148 | over every interleaving of records and advances each minute's tick is the one its log entries make |
| Ring.QueryIsLog | metrics_query.go:28-134 | the query's rows are the log's over the last min(window, ring) minutes: the newest name, attempts, failures, latency, tokens, distinct active minutes, histogram and its percentiles |
| Ring.LogSumIsGiven | metrics_ring.go:103-133 | a sum over the log is the sum over the operations themselves: each attempt and token count with an endpoint, in its minute, under its key |
| Ring.WindowLengths | metrics_dashboard.go:224-235 | 1440 ticks for a day, 10080 for a week, and the whole ring of a week and one tick for thirty days |
| QueryRows.RowSays | metrics_query.go:52-134 | a row by the operations: the endpoint recorded first in the newest minute of the window, the sums over the window, and percentiles exactly when there was an attempt |
| Ring.AttemptRing.RecordAttempt | metrics_ring.go:103-133 | recording in the current slot is recording in the current minute of the history; an empty endpoint records nothing |
| Ring.AttemptRing.RecordDashboardTokens | metrics_ring.go:266-278 | the same for tokens; neither an empty endpoint nor a count that is not positive records anything |
| Ring.AttemptRing.AdvanceTick | metrics_ring.go:144-148 | the buffer forgets its oldest minute only, and hands out the completed tick |
| Ring.AttemptRing.DashboardQuery | metrics_query.go:28-134 | the nested loops over the circular buffer answer for the history |
| Ring.AttemptRing.RestoreJournal | metrics_ring.go:159-174 | whatever the ring holds: afterwards i slots back is minute now - i of the journal, or what was in that slot; over an empty ring only the journal |
| Ring.RestartKeepsWindow | metrics_ring.go:150-174 | after a restart every completed minute of the window is where it would have been; only the minute being filled is lost |
| Ring.RestartQueryIsLog | metrics_ring.go:150-174 | the rows of the query after a restart are the log's over the minutes of its window that were complete |
| Journal.SlotsDistinct | metrics_journal.go:45-51 | two minutes of the window never share a slot |
| Journal.SlotWalksBack | metrics_journal.go:45-51 | the slot of the minute i back is i slots back |
| Journal.ReplayDashboardJournal | metrics_journal.go:121-151 | the loop computes the replay |
| Journal.ReplayIsLast | metrics_journal.go:102-151 | a replay keeps the last line of every minute of the window, and nothing else |
| Journal.PruneDashboardJournal | metrics_journal.go:160-204 | the kept lines, one a minute, in order |
| Journal.PruneThenReplay | metrics_journal.go:153-204 | replaying the pruned journal is replaying the original if and only if the prune loses no line the replay wants |
| Journal.PruneThenReplayLater | metrics_journal.go:153-204 | at a later time: if and only if no line is dated between the prune and the replay |
| Percentile.PercentileFromHistogram | percentile.go:25-100 | the loops compute the three percentiles, without a division by zero |
| Percentile.PercentileLeast | percentile.go:54-91 | the percentile is the least latency whose interpolated share reaches the rank |
| Percentile.OneBucket | percentile.go:54-100 | with all observations in one bucket the percentiles lie 50, 95 and 99 hundredths into it, in milliseconds |
| Percentile.PercentileBracketed | percentile.go:64-86 | it lies between the boundaries of the bucket that holds the rank |
| Percentile.PercentilesOrdered | percentile.go:94-99 | 0 <= p50 <= p95 <= p99 |
| Percentile.PercentileBetween | metrics_query.go:96-108 | a percentile of two summed histograms lies between those of the parts |
| Fallback.BudgetBounds | api.go:1332-1357 | the budget is at most 30s below 50000 tokens and at most 8 minutes always |
| Fallback.BudgetMonotone | api.go:1249-1357 | a larger prompt never gets a smaller budget |
| Fallback.TwoAttemptsFit | api.go:1325-1357 | the budget holds two full attempts exactly when the ceiling that applies does |
| Fallback.SmallestPrompt | api.go:1279-1357 | up to 1000 tokens: 5s for an attempt, 12s for the request |
| Fallback.NormalPrompt | api.go:1279-1357 | then one second more for each 10000 tokens begun, and 20s or 30s |
| Fallback.LargePrompt | api.go:1249-1357 | from 50000 tokens on: 30s and 2s for each further 10000 begun, at most 300s, and twice that and 10s, at most 480s |
| Fallback.BudgetState.AttemptTimeout | api.go:1436-1462 | an attempt never outlasts what is left, and the first leaves a third for a fallback |
| Fallback.BudgetState.ExhaustedNow | api.go:1402-1408 | stops once the silence exceeds the budget, never before the first attempt |
| Fallback.CycleBackSleep | api.go:1477-1505 | sleeps only when the cooldown ends inside the remaining budget, and no longer than that or the ceiling |
| Fallback.InterAttemptWait | api.go:1660-1685 | a pause of a quarter or half a second, and up to a sixteenth of a second, shortened by at most a quarter; none when it would outlast the walk |
| Fallback.ForwardLoop | api.go:1860-1895 | calls until one does not fail at its proxy, all under one deadline: which one ends it, when, and after how many calls |
| Fallback.Judge | api.go:1896-2186 | what the last call leads to: an answer, the other protocol at most once, or the next endpoint after a pause inside the budget; what ends the walk is stated by `Failover.StepStops` |
| Fallback.FairBounds | api.go:1704-1709 | an endpoint that is not picked again once tried, nor flipped twice, has at most two turns, and at most twice the calls of one |
| Fallback.CompletionWalk | api.go:1722-2186 | the loop keeps all bounds at every moment, and an answer comes from the last call of the last turn |
| Fallback.HandleCompletion | api.go:1687-2186 | the method's status, turns and moments (the start of each turn and the end of its calls) are those of the run that `Failover.RunEndsWith` characterises; in every run the whole request is over within its budget, with at most 3*chainLen+1 attempts, two turns for an endpoint and 2*max(1, proxyTries) calls to it |
| Failover.StepStops | api.go:1722-2186 | the exact condition for each status: 200 on an answer or the reply for images, 499 on a client that is gone, 502 on a second hard refusal, 503 on a cancelled router, a spent budget, no attempts left, no time for one, nobody on offer without a cooldown inside the budget, or saturation; on nothing else does a turn stop the walk |
| Failover.StepMoves | api.go:1896-2186 | a failed proxy or endpoint, a bad body, a refused protocol, a retryable or a first hard refusal leads to the next turn, without that endpoint, or without its protocol, or without its host |
| Failover.RunEndsWith | api.go:1722-2186 | a run ends with a status exactly when some turn it gets to meets that condition |
| Failover.FailsOver | api.go:1722-2186 | however many turns fail so, an answer behind them inside budget and attempts is the client's, from that turn |
| Failover.OffersFailOver | api.go:1722-2186 | for one, of the offers themselves: endpoints that are lost, one call each, within the budget together, and one that answers: 200, from the last |
| Failover.RequestsAreSane | api.go:1687-1722 | every request meets what these lemmas ask: time to spend |
| Fallback.LimitsInsideBudget | api.go:2440-2466 | what is left of the budget bounds the first output and every later gap of a stream attempt |
| Fallback.PlayTry | api.go:2455-2466 | output marks progress, and no gap outlasts its limit |
| Fallback.ProxyLoop | api.go:2423-2500 | at most one call per attempt without a proxy and two with one, the second only after a proxy failure before any output; silence stays within the budget and one wait for a slot |
| Fallback.SlotWaitOutlastsBudget | proxy.go:1321 | where calls are capped: for every prompt size and every wait up to 250ms, at most four attempts without output, the last of which waits, leave the client silent for the budget and that wait |
| Fallback.StreamWalk | api.go:2259-2616 | the loop keeps all bounds at every moment, and a stream that ends well comes from the last call of the last turn |
| Fallback.HandleStream | api.go:2188-2616 | the method's status, turns and moments (the start of each turn and the end of each gap between outputs) are those of the run that `Failover.StreamRunEndsWith` characterises; in every run time since the last output never exceeds the budget, and one slot wait where calls are capped; at most 3*chainLen+1 attempts, two turns for an endpoint and four calls to it, two without a proxy |
| Failover.StreamStepStops | api.go:2259-2616 | the exact condition for each status of the stream walk: 200 on a stream that ended well or the reply for images, 499 on a client that is gone, never 502, 503 as above |
| Failover.TurnYields | api.go:2423-2500 | what a turn comes to: its first call, or behind a proxy failure before any output the direct call, if there is time for it |
| Failover.StreamMoves | api.go:2500-2616 | a failed proxy, endpoint or stream, before or after output, and a refused protocol lead to the next turn, without that endpoint, its host or its protocol |
| Failover.StreamRunEndsWith | api.go:2259-2616 | a run ends with a status exactly when some turn it gets to meets the condition |
| Failover.StreamFailsOver | api.go:2259-2616 | however many turns fail so, a stream behind them inside budget and attempts ends well, from that turn |
| Failover.StreamsAreSane | api.go:2188-2259 | every request meets what these lemmas ask: time to spend |

## Left out

- `TransformStreamChunk`, `TransformCompletion` and the parsers of a block: JSON around the text; the parsers are the functions `Parsers`.
- The decode-and-re-encode fallback of `ReplaceModelName` for a body the scanner refuses: the function `decoded`.
- Whitespace outside ASCII in `bytes.TrimSpace` and `strings.TrimSpace`, and letters outside ASCII in `strings.ToLower`.
- Texts that are not RFC 8259: the scanner does not pair bracket kinds, so the theorems are about printed trees. The trees allow a few scalars more than RFC 8259 does.
- Edits with equal starts: `sort.Slice` does not decide their order, so `JsonEdits.ApplyJSONEdits` promises only that out-of-range edits change nothing there.
- The `size < 0` guard of `applyJSONEdits`: `WritePieces` shows that it cannot fire.
- SHA-256 itself: identities are the bytes hashed.
- `Session.TurnIsAssistant` takes JSON-encoded strings from `Encoder`; the merging of tool calls and the content delta replayed by `handleStream` (`api.go:2579-2614`) depend on what the next model echoes.
- Ids made from the clock or at random: `mint`, the same for translator and aggregator; `ccMapError` and the status codes of aggregator failures.
- The 16 MB and 1 MB line limits of `bufio.Scanner`, and read errors other than the end of a source.
- The request, fallback and circuit counters of `metrics.go` and its text export.
- `Registry.Metrics.Attempt` does not model `labelEscape` (the function `escape`), nor rounding of `Seconds()`.
- Overflow of 64-bit counters and of durations.
- `Ring.AttemptRing.RestoreJournal`: maps missing from a journal line are empty, while writing to one in the source would panic if its minute were still current; the clock is after the epoch.
- The wall clock and the ticker: a tick ends when `AdvanceTick` is called.
- `Ring.AttemptRing.DashboardQuery` returns rows as a map, for the order of the source's slice is not determined.
- Rounding of floating point: percentiles are over `real`.
- JSON encoding of journal lines and the files themselves: a line is a tick or unreadable.
- The router and the upstream: an attempt takes at most the time it is given, a script never offers an endpoint already tried, and other steps take no time. The proxies configured for an endpoint (`pool`) do not change during a request.
- A provider's own `timeout` (`proxy.go:1113-1117`, `1343-1345`), which only shortens a call.
- Bodies with a raw zero byte in `Sharing`: the scanner lets one through inside a number or literal, no JSON text has one.
- HTTP handlers, authentication, web pages, the Responses API, cooldown storage and scraping scripts.
