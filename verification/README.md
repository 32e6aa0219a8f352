# agentIDE: a verified model of its algorithmic and protocol cores

This project models, in Dafny 4.11, the parts of agentIDE whose correctness is not obvious from one
function body, and proves what they are for:

- **Patch preview.** The diff engine (`Lines`, `EditScript`, `Hunks`), rebuilding a file from per-hunk
  decisions (`Reconstruct`), what a partial apply does to the distance that is left (`PartialApply`), and
  the review store that applies it, once or again and again under the decisions it keeps (`CodeChangeStore`,
  `RetainedDecisions`).
- **SSH host patterns.** The one-backtracking-point glob loop against its recursive meaning (`HostGlob`).
- **Byte streams.** Length-prefixed frames and the loops that drain them (`Framing`); the PTY reader and the
  agent-stream parser it feeds (`PtyReader`, `AgentStream`).
- **Sessions.** The watermark flow control (`FlowControl`), the host's session table (`HostServer`), and the
  spawn protocol between commands, relays and hosts as steps over FIFO channels (`SpawnProtocol`).
- **Remote files.** The hand-written base64 codec (`Base64`; section 4 of RFC 4648), shell quoting against a
  reader of shell words (`ShellQuote`; section 2.2 of the Shell Command Language, POSIX.1-2017), and the
  write command as a whole, alone (`RemoteFiles`) and beside others (`ConcurrentWrites`).
- **Capture and aggregation.** The body capture of the tap proxy (`Capture`), the assembly of streamed
  content blocks (`SseText`, `SseBlocks`, `HttpExchange`), the dashboard numbers (`TrafficSeries`,
  `TrafficCost`), and the loader's cache (`OtaLoader`).

`Common` and `Decimal` hold shared types. Objects that the program updates in place are classes whose methods
are proved against functions of the old state; the laws are lemmas about those functions. Foreign code
(MessagePack, JSON, SHA-256, dates, pricing) enters as functions given as parameters, and what the world does
(reads, writes, failures, timeouts, order of arrival) as parameters that the results hold for all values of.

Where the code and its own words differ, the model follows the code:

- A rebuilt file takes its trailing newline from the original, so accepting all of a proposal gives the
  proposal exactly under the condition of `PartialApply.AcceptAllGivesProposal`, and a new file loses its
  trailing newline.
- Hunk ids are positional although decisions are kept after an apply, so that rejected hunks are written later
  (`RetainedDecisions.RejectedHunkIsWritten`, `RetainedDecisions.RetainedDecisionsApplyAll`).
- The stdio reader means to go on after a malformed frame, but the failing answer consumes nothing, so its
  loop is never left (`Framing.StdioTerminatesIff`).
- The spawn command guards against a relay that dies, but a dead relay only ever shows as a timeout
  (`SpawnProtocol.SenderIsNeverDropped`).
- A spawn on a connection that is still coming up falls back to the local agent, but is mapped to the connection
  (`SpawnProtocol.MappedToOwnTransport`, `SpawnProtocol.EarlySpawnIsMisrouted`).
- Records of the capture can overtake each other between taking a number and sending
  (`Capture.ChannelIsExact`, `Capture.TasksCanOvertake`).
- No acknowledgement reaches the flow control, so a session that has sent more than 64 KiB stops being read
  (`FlowControl.WithoutAcksTheReaderStalls`).
- A managed file whose name is that of another's temporary file can be damaged or lost by the loader
  (`OtaLoader.ProtectsIffHarmless`, `OtaLoader.ClashLosesFile`).
- The write command is meant to be atomic, but the decoder cannot tell a text cut after whole quads from a
  complete one (`RemoteFiles.WriteIsAtomic`), and writes of one path share their temporary file
  (`ConcurrentWrites.OverlapLosesContent`).
- Accumulated tool input starts from the printed start input, `{}` for a streamed tool use, to which the
  deltas are appended (`SseBlocks.SpanContent`).

## Model

| member | source | states |
|---|---|---|
| Lines.UnlinesSplitLines | apps/frontend/src/lib/diff.ts:46-51 | Rejoining the lines of a content with the content's own trailing newline gives the content back exactly; it has no lines exactly when it is empty |
| Lines.SplitLinesUnlines | apps/frontend/src/lib/diff.ts:199-200 | The lines of a rejoined file are the lines joined, except that an empty last line is lost exactly when no trailing newline is added |
| EditScript.FillTable | apps/frontend/src/lib/diff.ts:70-78 | The table filled backwards holds at every cell the value of the LCS recurrence for the two suffixes |
| EditScript.WalkTable | apps/frontend/src/lib/diff.ts:80-96 | The three loops over the table give the walk that prefers a deletion on ties and consumes both sides |
| EditScript.ComputeScript | apps/frontend/src/lib/diff.ts:58-97 | The computed script is the walk, or delete-all-then-insert-all past 4000 lines on a side |
| EditScript.ScriptTransforms | apps/frontend/src/lib/diff.ts:58-97 | On every input, guarded or not, the script consumes exactly the old lines and produces exactly the new ones |
| EditScript.LcsIsUpperBound | apps/frontend/src/lib/diff.ts:70-78 | No common subsequence of two line lists is longer than the recurrence says |
| EditScript.WalkTransforms | apps/frontend/src/lib/diff.ts:80-96 | The walk is an edit script that keeps exactly as many lines as the top left cell says |
| EditScript.DistanceIsLeastCost | apps/frontend/src/lib/diff.ts:58-97 | The insert/delete distance is the cost of some edit script and of none less |
| EditScript.ScriptIsOptimal | apps/frontend/src/lib/diff.ts:58-97 | Up to 4000 lines a side: as many kept lines as the longest common subsequence, and no edit script with fewer insertions and deletions |
| EditScript.GuardedScriptCost | apps/frontend/src/lib/diff.ts:62-67 | Past the guard the script keeps nothing, which is optimal exactly when the two sides share no line |
| EditScript.TriangleInequality | apps/frontend/src/lib/diff.ts:58-97 | Edit scripts compose, so the distance obeys the triangle inequality |
| Hunks.CoalesceRun | apps/frontend/src/lib/diff.ts:134-160 | The inner loop coalesces the whole run of changes: its displayed lines, the number of old lines and the replacement |
| Hunks.Display | apps/frontend/src/lib/diff.ts:113-163 | The display loop yields the display of every operation and one hunk for each run of changes |
| Hunks.ComputeDiff | apps/frontend/src/lib/diff.ts:104-166 | The diff of two contents is the display and the hunks of their edit script |
| Hunks.DiffShowsBothFiles | apps/frontend/src/lib/diff.ts:104-166 | The context and deleted lines are the old file with numbers 1..n, the context and added lines the new file with numbers 1..m |
| Hunks.HunksAreSeparated | apps/frontend/src/lib/diff.ts:131-162 | At least one unchanged line lies between any two hunks |
| Hunks.HunksPartitionTheChanges | apps/frontend/src/lib/diff.ts:104-166 | Hunks are non-empty maximal runs, numbered h0, h1, ... in order, strictly separated, and every changed line is shown inside the hunk it names |
| Hunks.HunkIdInjective | apps/frontend/src/lib/diff.ts:132 | Different positions give different hunk ids |
| Reconstruct.SortedIsUnique | apps/frontend/src/lib/diff.ts:182 | Sorting by old start recovers the file order from any permutation of separated hunks |
| Reconstruct.RebuildLines | apps/frontend/src/lib/diff.ts:181-196 | The rebuilding loop copies the untouched lines and resolves the hunks in file order |
| Reconstruct.ReconstructContent | apps/frontend/src/lib/diff.ts:176-201 | The rebuilt content joins those lines with the trailing newline of the original |
| Reconstruct.ReconstructionIsReplay | apps/frontend/src/lib/diff.ts:176-201 | From any order of the hunk array and any decisions, the result is the edit script replayed with each hunk resolved on its own |
| Reconstruct.AcceptAllOrNone | apps/frontend/src/lib/diff.ts:186-192 | Accepting every hunk resolves to the new lines, accepting none to the old lines |
| Reconstruct.ChangeBelongsToHunk | apps/frontend/src/lib/diff.ts:131-162 | Every changed operation belongs to a hunk, whose decision is the one it is replayed with |
| Reconstruct.OneDecisionOneSegment | apps/frontend/src/lib/diff.ts:186-192 | Changing one decision changes nothing before and nothing after that hunk's segment |
| PartialApply.PartialApplyIsExact | apps/frontend/src/lib/diff.ts:58-201 | Applying any subset of the hunks of an optimal script covers exactly the cost of that subset: D(applied, new) = D(old, new) - cost and D(old, applied) = cost |
| PartialApply.RejectAllIsIdentity | apps/frontend/src/lib/diff.ts:176-201 | Without an accepted hunk the original content comes back exactly |
| PartialApply.AcceptAllGivesProposal | apps/frontend/src/lib/diff.ts:199-200 | Accepting all gives the new lines; it gives the proposed content exactly when that is empty or both contents agree on a trailing newline |
| PartialApply.NewFileLosesTrailingNewline | apps/frontend/src/lib/diff.ts:199-200 | For every proposal that ends in a newline and any decisions a new file is not written as proposed; with all accepted exactly that newline is missing |
| PartialApply.AppliedLines | apps/frontend/src/lib/diff.ts:176-201 | The lines of the written file are the resolved lines, less an empty last line that is lost |
| PartialApply.LostLineIff | apps/frontend/src/lib/diff.ts:199-200 | The empty last line is lost exactly when the original ends without a newline, the last line of the proposal is empty, and the last hunk is accepted |
| PartialApply.AppliedDistance | apps/frontend/src/lib/diff.ts:176-201 | Up to 4000 lines a side, the distance left after writing is the old distance less the cost of the accepted hunks exactly unless that empty last line is lost; at most one more is left otherwise |
| PartialApply.ReplaceAllIsOneHunk | apps/frontend/src/lib/diff.ts:62-67 | Past the size guard there is exactly one hunk, so an apply is all or nothing |
| PartialApply.ApplyNeverMovesAway | apps/frontend/src/stores/codeChangeStore.ts:175-215 | Whatever is decided and whatever the size, an apply never increases the distance to the proposal |
| PartialApply.RunNeverMovesAway | apps/frontend/src/stores/codeChangeStore.ts:175-215 | No run of applies, each under fresh arbitrary decisions, increases the distance to the proposal |
| PartialApply.FinalAcceptAllReaches | apps/frontend/src/stores/codeChangeStore.ts:175-215 | After any run, accepting everything still shown reaches the proposal exactly under the trailing-newline condition on the current content |
| PartialApply.ApplyActsIffAccepted | apps/frontend/src/stores/codeChangeStore.ts:175-215 | At any size, an apply changes the lines exactly when the two sides differ and some hunk is accepted |
| RetainedDecisions.StaleDecisionAcceptsNextHunk | apps/frontend/src/stores/codeChangeStore.ts:195-215 | A hunk of the next diff counts as accepted exactly when a hunk of its number was accepted before; while the lines differ there is a hunk h0 |
| RetainedDecisions.RejectedHunkIsWritten | apps/frontend/src/stores/codeChangeStore.ts:195-215 | With h0 accepted and h1 rejected, an apply leaves the rejected change as h0, which the next apply writes |
| RetainedDecisions.ApplyStep | apps/frontend/src/stores/codeChangeStore.ts:175-215 | With h0 accepted every apply gets closer to the proposed lines, or everything is done |
| RetainedDecisions.RetainedDecisionsApplyAll | apps/frontend/src/stores/codeChangeStore.ts:175-215 | With h0 accepted, more applies than lines differ write exactly all proposed lines, whatever else was rejected, and then change nothing |
| RetainedDecisions.RetainedDecisionsReach | apps/frontend/src/stores/codeChangeStore.ts:175-215 | The lines reached are the proposed ones unless a single empty line is proposed for a file without a trailing newline; the text reached is the proposal exactly if the endings agree |
| CodeChangeStore.Store.SetHunkDecision | apps/frontend/src/stores/codeChangeStore.ts:151-173 | Only the decision on that hunk of that file changes; an unknown change set or file changes nothing |
| CodeChangeStore.Store.PrepareApply | apps/frontend/src/stores/codeChangeStore.ts:175-200 | The content to be written is the replay of the accepted hunks, and the file counts as decided when every hunk is |
| CodeChangeStore.Store.FoldWritten | apps/frontend/src/stores/codeChangeStore.ts:196-218 | The written content becomes the original of the file as it is by then, whose proposal and decisions stay |
| CodeChangeStore.Store.ApplyAcceptedHunks | apps/frontend/src/stores/codeChangeStore.ts:175-219 | Whatever other calls do to the store while the write is awaited: what is written and whether the file is accepted come from the store at the beginning, and they are folded into the store at the end; a failure folds nothing |
| CodeChangeStore.ApplyTimes | apps/frontend/src/stores/codeChangeStore.ts:175-219 | The store applied to n times holds exactly that iteration: the proposal and the decisions stay as they were |
| HostGlob.SimpleGlobMatch | apps/frontend/src-tauri/src/connection/config.rs:140-172 | The greedy loop with one backtracking point terminates on every input and answers exactly the recursive meaning of `*`, `?` and case-insensitive bytes |
| HostGlob.RetryMatchesFurtherRight | apps/frontend/src-tauri/src/connection/config.rs:149-163 | Whatever an earlier star could still match, the rest of the pattern can match further right than the current place, so forgetting that star loses no match |
| HostGlob.StarAbsorbs | apps/frontend/src-tauri/src/connection/config.rs:149-163 | A star that matches later in the text also matches from any earlier place |
| HostGlob.HostMatches | apps/frontend/src-tauri/src/connection/config.rs:128-137 | The shortcut for `*`, the glob and the plain comparison agree on one meaning |
| HostGlob.PlainPatternIsEquality | apps/frontend/src-tauri/src/connection/config.rs:132-136 | A pattern without wildcards means case-insensitive equality |
| HostGlob.FindHost | apps/frontend/src-tauri/src/connection/config.rs:105-125 | The entry used is the first whose pattern means the alias, and none is used exactly when none does |
| Framing.GetPutU32 | crates/shared-protocol/src/codec.rs:50-51 | A length written in network order is read back from the first four bytes, whatever follows |
| Framing.DecodeIsStable | crates/shared-protocol/src/codec.rs:77-98 | An answer other than "incomplete" is final: appending bytes changes neither a frame nor an error |
| Framing.DecodeEncode | crates/shared-protocol/src/codec.rs:42-98 | A frame decodes to its message and its own length, whatever follows it, and never exceeds the cap |
| Framing.PrefixIsIncomplete | crates/shared-protocol/src/codec.rs:77-92 | Every proper prefix of a frame is incomplete |
| Framing.MessageDecoder.Push | crates/shared-protocol/src/codec.rs:116-118 | Received bytes are appended |
| Framing.MessageDecoder.TryDecode | crates/shared-protocol/src/codec.rs:125-134 | Exactly the returned frame is consumed; an error or a partial frame consumes nothing |
| Framing.DrainUntilError | apps/frontend/src-tauri/src/transport/ssh_channel.rs:106-123 | The drain loop terminates on every buffer and delivers all complete frames, what is left and the error that stopped it; a consumer that drops its channel got the first of them |
| Framing.DrainAppend | apps/frontend/src-tauri/src/transport/ssh_channel.rs:105-124 | Draining can be resumed after more bytes arrive, and an error is final |
| Framing.ReadLoop | apps/frontend/src-tauri/src/transport/ssh_channel.rs:103-124 | Pushing and draining chunk by chunk until the first error, or until the consumer is gone, which then got the first messages |
| Framing.ChunkingDoesNotMatter | apps/frontend/src-tauri/src/transport/ssh_channel.rs:103-124 | On any byte stream the messages and the final error do not depend on the chunking, nor do the bytes left if there is no error |
| Framing.DrainFrames | crates/shared-protocol/src/codec.rs:42-134 | The frames of a message list, cut anywhere, drain to the complete messages and leave a proper prefix of the next frame |
| Framing.StreamRoundTrip | apps/frontend/src-tauri/src/transport/ssh_channel.rs:103-124 | For every message list, chunking and cut, the reader yields the completely received messages in order and keeps a proper prefix of the next frame |
| Framing.WholeStreamRoundTrip | apps/frontend/src-tauri/src/transport/ssh_channel.rs:103-124 | On the whole stream it yields exactly the list and keeps nothing |
| Framing.StdioTerminatesIff | crates/remote-agent-host/src/transport/stdio.rs:36-58 | The stdio drain loop is left exactly when no frame in the buffer errs or the handler is gone before the last message in front of the error |
| Framing.StdioTerminatesIffNoError | crates/remote-agent-host/src/transport/stdio.rs:36-58 | While the handler listens it is left exactly when no frame in the buffer errs |
| Framing.StdioStuck | crates/remote-agent-host/src/transport/stdio.rs:49-57 | After an error it reports that error in every round, as long as anyone takes the reports, consumes nothing and is never left |
| Framing.OverlongHeaderSpins | crates/remote-agent-host/src/transport/stdio.rs:49-57 | Four bytes of an over-long header are enough |
| AgentStream.AgentStreamParser.PushLine | crates/remote-agent-host/src/agent_parse.rs:59-96 | The events of one line, numbered on from the parser's counter, by the kind of line |
| AgentStream.AgentStreamParser.ParseBlocks | crates/remote-agent-host/src/agent_parse.rs:75-84 | The events of the blocks of a message, in order; empty texts and unknown blocks give none |
| AgentStream.StreamIsNumbered | crates/remote-agent-host/src/agent_parse.rs:33-57 | Over a whole stream the agent events are numbered 0, 1, 2, ... without gap, whatever lines carry them; approval requests use no number |
| PtyReader.SplitIsExact | crates/remote-agent-host/src/pty/worker.rs:136-139 | Splitting into lines loses no byte; each line ends in its only newline, and the rest has none |
| PtyReader.SplitAppend | crates/remote-agent-host/src/pty/worker.rs:134-144 | Splitting can be resumed from the rest of the previous read |
| PtyReader.DrainLines | crates/remote-agent-host/src/pty/worker.rs:136-144 | The inner loop feeds the parser exactly the complete lines, in order, and forwards their events |
| PtyReader.FeedParser | crates/remote-agent-host/src/pty/worker.rs:134-149 | One read feeds the lines it completes; the partial line is kept up to the cap |
| PtyReader.ReadLoop | crates/remote-agent-host/src/pty/worker.rs:114-160 | Everything that is handed to the transport, in order: for each read the agent events that its completed lines add, and then its bytes under the next sequence number; no read is made while the session is paused, and the loop ends at the end of the stream, in a pause that does not end, or when the transport does not take a read |
| PtyReader.ReadOnce | crates/remote-agent-host/src/pty/worker.rs:124-157 | One read counts its bytes, takes the next number, and hands on its events and then its bytes |
| PtyReader.AwaitTurn | crates/remote-agent-host/src/pty/worker.rs:119-122 | The reader goes on exactly if the acknowledgements that come in end the pause |
| PtyReader.SentByKind | crates/remote-agent-host/src/pty/worker.rs:128-157 | Of what is sent, the terminal data is every read under consecutive numbers, and the agent events are those that the reads add |
| PtyReader.AgentEventsIgnoreReadSizes | crates/remote-agent-host/src/pty/worker.rs:134-149 | With lines within 1 MiB all the agent events are those of the stream's lines, however it was read |
| PtyReader.TerminalsAreTheStream | crates/remote-agent-host/src/pty/worker.rs:128-157 | The payloads concatenate to the bytes read, and their sequence numbers have no gap |
| PtyReader.BufferIsBounded | crates/remote-agent-host/src/pty/worker.rs:134-149 | The partial-line buffer holds at most 1 MiB between reads and 1 MiB + 64 KiB while a read is split |
| PtyReader.ReadSizesDoNotMatterIff | crates/remote-agent-host/src/pty/worker.rs:134-149 | The lines that reach the parser are those of the stream for every way of reading it exactly when no line exceeds 1 MiB |
| FlowControl.Session.NextSeq | crates/remote-agent-host/src/session/types.rs:89-91 | Sequence numbers are handed out one by one |
| FlowControl.Session.Ack | crates/remote-agent-host/src/session/types.rs:93-98 | The highest acknowledged number is kept |
| FlowControl.Session.RecordAck | crates/remote-agent-host/src/session/types.rs:100-106 | Pending bytes go down, wrapping as a machine word, and the pause ends at or below the low mark |
| FlowControl.Session.RecordSent | crates/remote-agent-host/src/session/types.rs:108-113 | Pending bytes go up and the pause begins above the high mark |
| FlowControl.RunKeepsInv | crates/remote-agent-host/src/session/types.rs:100-113 | Every step of every run keeps: pending = sent - acked, at most 128 KiB, paused above the high mark, not paused at or below the low mark |
| FlowControl.ReachableStates | crates/remote-agent-host/src/pty/worker.rs:119-134 | In every reachable state the invariant holds, and acknowledging all outstanding bytes lets the reader read again |
| FlowControl.WithoutAcksTheReaderStalls | crates/remote-agent-host/src/server.rs:562-567 | As the host never records acknowledgements, a session sends at most 128 KiB in its life, and can be read exactly as long as it has sent at most 64 KiB |
| FlowControl.AckBalancesIffCovered | crates/remote-agent-host/src/session/types.rs:100-106 | An acknowledgement keeps the books balanced exactly when it does not exceed what is outstanding |
| HostServer.SessionRegistry.Register | crates/remote-agent-host/src/session/registry.rs:27-38 | A session is registered unless its id is taken or 32 are registered, with the error of the first that applies |
| HostServer.SessionRegistry.Remove | crates/remote-agent-host/src/session/registry.rs:46-48 | Removing returns what was registered and leaves the others |
| HostServer.RunCalls | crates/remote-agent-host/src/session/registry.rs:27-48 | After any series of registrations and removals a lookup finds what the table of those calls holds, which never exceeds 32 sessions |
| HostServer.FoundWasRegistered | crates/remote-agent-host/src/session/registry.rs:27-48 | What a lookup finds is the pid of a call that registered the session, which no call removed or registered since |
| HostServer.RegisteredIsFound | crates/remote-agent-host/src/session/registry.rs:27-48 | A session that a call registered, and that was left alone since, is found with that pid |
| HostServer.Server.HandleSpawn | crates/remote-agent-host/src/server.rs:311-505 | A spawn is answered once, with an ack exactly when it registered the session; a nack leaves the sessions alone |
| HostServer.Server.HandleClose | crates/remote-agent-host/src/server.rs:507-524 | A close removes session and proxy, and answers an error exactly when the session was unknown |
| HostServer.CapIsKept | crates/remote-agent-host/src/session/registry.rs:27-38 | No request takes the table past 32 sessions |
| SpawnProtocol.AppState.Connect | apps/frontend/src-tauri/src/commands/connection.rs:83 | A connection gets a transport, or a new one in place of a dead one |
| SpawnProtocol.AppState.Disconnect | apps/frontend/src-tauri/src/commands/connection.rs:153 | A connection loses its transport |
| SpawnProtocol.AppState.BeginSpawn | apps/frontend/src-tauri/src/commands/session.rs:169-210 | The transport of the connection is used, or the local agent if it has none; the waiter is registered before anything is sent |
| SpawnProtocol.AppState.TakeRequest | apps/frontend/src-tauri/src/commands/session.rs:212 | The transport takes the request while the command still waits for the sending to return |
| SpawnProtocol.AppState.AfterSend | apps/frontend/src-tauri/src/commands/session.rs:212-215 | A send that fails, before or after its request went out, removes the waiter and returns |
| SpawnProtocol.AppState.RelayDeliver | apps/frontend/src-tauri/src/commands/session.rs:288-302 | The relay removes the waiter of that session and fires it, or does nothing if there is none |
| SpawnProtocol.AppState.WakeUp | apps/frontend/src-tauri/src/commands/session.rs:219-238 | An ack maps the session to the command's own connection; a nack maps nothing |
| SpawnProtocol.AppState.CleanUpAfterTimeout | apps/frontend/src-tauri/src/commands/session.rs:228-231 | A timeout removes the waiter |
| SpawnProtocol.StepKeepsInv | apps/frontend/src-tauri/src/commands/session.rs:169-302 | Every step of commands, relays, hosts and connections, in any order, keeps the protocol invariant; an answer may come before the sending has returned, and connections come up, go away and come back at any time |
| SpawnProtocol.RunKeepsInv | apps/frontend/src-tauri/src/commands/session.rs:205-302 | So does every run |
| SpawnProtocol.FireOnce | apps/frontend/src-tauri/src/commands/session.rs:288-302 | A waiter that fires has not fired before |
| SpawnProtocol.SenderIsNeverDropped | apps/frontend/src-tauri/src/commands/session.rs:223-227 | The "relay closed before ack" return is never taken: the sender stays in the shared map |
| SpawnProtocol.MappedRightly | apps/frontend/src-tauri/src/commands/session.rs:234-238 | Where the invariant holds, a mapped session was in the table of the host at the other end of its command's own transport, under the pid that the command returned |
| SpawnProtocol.MappedToOwnTransport | apps/frontend/src-tauri/src/commands/session.rs:169-238 | In every run, the connection that a session is mapped to has the session's own transport exactly when it had one as the command was started and none came up or went away for it since |
| SpawnProtocol.EarlySpawnIsMisrouted | apps/frontend/src-tauri/src/commands/session.rs:169-238 | A spawn for a connection that is still coming up runs on the local host and ends mapped to the other one |
| SpawnProtocol.CloseReachesOwnHost | apps/frontend/src-tauri/src/commands/session.rs:552-580 | Closing tells the session's own host exactly when its connection has its own transport, and forgets the session either way |
| SpawnProtocol.SpawnSafety | apps/frontend/src-tauri/src/commands/session.rs:169-302 | In every run over any number of connections: waiters fire at most once and only with their own host's answer for their own session; no waiter outlives its command; a session is mapped only after an ack of the host of its own transport, for an entry that this host's table had under the same pid; no host exceeds 32 sessions |
| Base64.EncodeBase64 | apps/frontend/src-tauri/src/commands/files.rs:231-247 | The loop over chunks of three yields the encoding |
| Base64.DecodeBase64 | apps/frontend/src-tauri/src/commands/files.rs:249-276 | The accumulator loop yields the bytes that the sextets pack, up to the first padding character |
| Base64.DecodeStep | apps/frontend/src-tauri/src/commands/files.rs:266-273 | Each round puts out the right byte: the live bits survive the 32-bit shift, whatever falls off the top |
| Base64.ShiftKeepsLowBits | apps/frontend/src-tauri/src/commands/files.rs:268 | Shifting six bits into the 32-bit buffer keeps its low bits |
| Base64.SextetsOfEncoding | apps/frontend/src-tauri/src/commands/files.rs:231-264 | Reading an encoding back gives the six-bit pieces of the bytes |
| Base64.UnpackCut | apps/frontend/src-tauri/src/commands/files.rs:262-274 | Packing those pieces gives the bytes |
| Base64.RoundTrip | apps/frontend/src-tauri/src/commands/files.rs:231-276 | For every byte string, decoding its encoding with foreign bytes inserted anywhere returns it |
| Base64.EncodingShape | apps/frontend/src-tauri/src/commands/files.rs:231-247 | An encoding has 4*ceil(n/3) characters, all of the alphabet or padding |
| Base64.CutEncodingDecodes | apps/frontend/src-tauri/src/commands/files.rs:231-276 | An encoding that is cut after whole quads decodes to the first bytes |
| ShellQuote.QuoteReadsBack | apps/frontend/src-tauri/src/commands/files.rs:227-229 | Whatever follows a quoted text, a POSIX shell reads the text itself and goes on, unquoted, with what follows |
| ShellQuote.QuoteIsOneWord | apps/frontend/src-tauri/src/commands/files.rs:227-229 | A quoted text is one word, equal to the text |
| ShellQuote.SuffixedQuoteIsOneWord | apps/frontend/src-tauri/src/commands/files.rs:119 | A quoted path followed by a plain suffix such as `.rai_tmp` is one word, the path with the suffix |
| ShellQuote.ShellQuoteInjective | apps/frontend/src-tauri/src/commands/files.rs:227-229 | Different texts are quoted differently |
| ShellQuote.WriteCommandTokens | apps/frontend/src-tauri/src/commands/files.rs:117-126 | For every path and content the shell sees exactly the intended tokens of the write command |
| RemoteFiles.WriteIsAtomic | apps/frontend/src-tauri/src/commands/files.rs:115-131 | For every content and path a completed write leaves exactly the content and no temporary file, and a write that stops anywhere leaves every other file as it was, except that a pipe cut after whole quads leaves the first bytes under the path |
| RemoteFiles.PipeCutIsAtomicIff | apps/frontend/src-tauri/src/commands/files.rs:115-131 | A write whose pipe is cut is all or nothing exactly when the cut is inside a quad or behind the whole text, or the file held just those first bytes before |
| ConcurrentWrites.PathIsOldOrMixed | apps/frontend/src-tauri/src/commands/files.rs:115-131 | However many writes of one path overlap and wherever they stop, the path is as it was, or holds at every position a byte that one of the writes has there or a hole; no other file is touched |
| ConcurrentWrites.UndisturbedWriteIsExact | apps/frontend/src-tauri/src/commands/files.rs:115-131 | A write puts exactly its content under the path if no other one opens, writes or renames the shared temporary file between its own opening and its rename |
| ConcurrentWrites.OverlapLosesContent | apps/frontend/src-tauri/src/commands/files.rs:115-131 | Otherwise a write can succeed and leave an empty file |
| RemoteFiles.ReadFile | apps/frontend/src-tauri/src/commands/files.rs:93-99 | Reading returns the file's bytes however the remote encoder breaks its output |
| Capture.CapBody | crates/remote-agent-host/src/tap/record.rs:44-51 | The kept body is a prefix of at most 1 MiB, and is marked truncated exactly when it is not the whole body |
| Capture.FinishOfCapped | crates/remote-agent-host/src/tap/record.rs:65-89 | Capping while capturing gives the same record as capping the whole body at the end |
| Capture.CapGrows | crates/remote-agent-host/src/tap/proxy.rs:906-917 | What one more frame does to a capped body, below, at and past the cap |
| Capture.TeeBody.PollFrame | crates/remote-agent-host/src/tap/proxy.rs:899-927 | The answer is passed on unchanged, the capture stays the capped whole, and the end makes one record of everything seen |
| Capture.TeeBody.Emit | crates/remote-agent-host/src/tap/proxy.rs:875-892 | The record is made once, under the next shared number; later calls do nothing |
| Capture.Outbox.TakeNumber | crates/remote-agent-host/src/tap/proxy.rs:886 | The number is taken first; the record is then in the hands of its task |
| Capture.Outbox.SendHeld | crates/remote-agent-host/src/tap/proxy.rs:887-891 | Any of the tasks that hold a record may be the next to send it |
| Capture.TeeBody.Drop | crates/remote-agent-host/src/tap/proxy.rs:930-935 | Dropping makes the record of what was seen, unless there is one |
| Capture.RecordTranslated | crates/remote-agent-host/src/tap/proxy.rs:793-808 | A translated response is capped and recorded at once, under the next shared number |
| Capture.NumberOrderIsExact | crates/remote-agent-host/src/tap/proxy.rs:875-935 | Exactly the finished or dropped bodies have a record, and one each |
| Capture.Interleave | crates/remote-agent-host/src/tap/proxy.rs:870-935 | For any interleaving of polls, drops, translated responses and sends over any number of bodies: every answer is passed on, and what is sent and what is still held is what the actions say |
| Capture.ChannelIsExact | crates/remote-agent-host/src/tap/proxy.rs:870-935 | What is sent or held is one record for each finished body and translated response, of the whole data it delivered, capped once, with consecutive numbers, each once; the channel has them in the order of numbers exactly when every task that sent one held the lowest number |
| Capture.OneAtATimeKeepsOrder | crates/remote-agent-host/src/tap/proxy.rs:886-891 | Which is so when no task takes a number before the last one has sent |
| Capture.TasksCanOvertake | crates/remote-agent-host/src/tap/proxy.rs:886-891 | Otherwise a higher number can come first |
| SseBlocks.BuildBlocks | apps/frontend/src/lib/httpEventParser.ts:102-244 | The blocks are the contents that the events put out, in order, numbered from 0 |
| SseBlocks.FlushOpen | apps/frontend/src/lib/httpEventParser.ts:199-232 | The end of the message closes the open blocks in the order of opening |
| SseBlocks.SlotsAreIndependent | apps/frontend/src/lib/httpEventParser.ts:111-232 | What is put out for an index is what a machine puts out that sees only that index's events and the end of the message |
| SseBlocks.OwnEventsDecide | apps/frontend/src/lib/httpEventParser.ts:120-232 | The events of other indices do not matter to an index |
| SseBlocks.LivesAreAssembled | apps/frontend/src/lib/httpEventParser.ts:120-232 | When the events of an index are a series of start, deltas, stop or end of message, of which the last may still be open, its blocks are the in-order concatenations of each ended life's own deltas after the initial thinking or tool input, however other indices interleave; an open one is not shown |
| SseText.ParseSse | apps/frontend/src/lib/httpEventParser.ts:77-99 | The line loop yields the events that its reading of the lines gives |
| SseText.RenderedIsReadBack | apps/frontend/src/lib/httpEventParser.ts:77-99 | Every written event whose data is JSON is read back, in order and with its name |
| SseText.CutGivesPrefix | apps/frontend/src/lib/httpEventParser.ts:77-99 | On any text, the events of a cut are the first events of the whole exactly when the piece left of a line is not blank, or no JSON is pending there, or the whole closes next an event with the pending name and value |
| SseText.EveryCutOfWritten | apps/frontend/src/lib/httpEventParser.ts:77-99 | Of a stream as it is written, every cut anywhere keeps the first events |
| SseText.CutBetweenData | apps/frontend/src/lib/httpEventParser.ts:90-96 | Between two data lines a cut closes the event early, which keeps the prefix exactly when both data have the same value |
| HttpExchange.ParseRequestToolResults | apps/frontend/src/lib/httpEventParser.ts:256-299 | The tool results of the user messages, in order, numbered from 0; a body without messages gives none, and it throws exactly on messages that are no list, a null message, a null part of a user message, or a result whose text cannot be extracted |
| HttpExchange.ParseHttpExchange | apps/frontend/src/lib/httpEventParser.ts:307-319 | Unless reading the request throws, tool results come before the response blocks, and no two blocks share an id |
| HttpExchange.IdInjective | apps/frontend/src/lib/httpEventParser.ts:168-236 | An id determines session, exchange, kind and number, whatever the session is called |
| HttpExchange.ExchangeIdsDistinct | apps/frontend/src/lib/httpEventParser.ts:307-319 | Tool results and response blocks of an exchange never share an id |
| HttpExchange.CutResponseShowsFirstBlocks | apps/frontend/src/lib/httpEventParser.ts:65-75 | The blocks of a response body that was cut where the prefix property holds are the first blocks of the whole |
| HttpExchange.CutStreamShowsFirstBlocks | apps/frontend/src/lib/httpEventParser.ts:65-75 | Wherever the recording of a written stream stopped, its blocks are the first blocks of the whole |
| TrafficSeries.BuildTimeSeries | apps/frontend/src/lib/httpTrafficStats.ts:257-289 | Consecutive buckets from that of the first to that of the last time, each with its exact count; together they count every timestamped record once |
| TrafficSeries.SeriesHasNoGap | apps/frontend/src/lib/httpTrafficStats.ts:284-286 | The points are an arithmetic progression that begins at the first and ends at the last record's bucket |
| TrafficSeries.SeriesIsShort | apps/frontend/src/lib/httpTrafficStats.ts:270-275 | Up to six hours there are at most 73 points |
| TrafficSeries.BuildLatencyHistogram | apps/frontend/src/lib/httpTrafficStats.ts:228-255 | Ten bins with their exact counts, which together count every duration that is not negative |
| TrafficSeries.CountInto | apps/frontend/src/lib/httpTrafficStats.ts:236-243 | A duration adds one to the only bin that holds it |
| TrafficSeries.AllPositive | apps/frontend/src/lib/httpTrafficStats.ts:123-125 | No positive duration is left out |
| TrafficSeries.Percentile | apps/frontend/src/lib/httpTrafficStats.ts:74-79 | The smallest value that at least the given share of the values do not exceed; 0 without values |
| TrafficSeries.RankInRange | apps/frontend/src/lib/httpTrafficStats.ts:77 | For a percentage above 0 and up to 100 the rank is the share rounded up, and needs no clamping |
| TrafficCost.GroupConserves | apps/frontend/src/lib/httpTrafficStats.ts:334-364 | Grouping gives distinct buckets that hold exactly their own amounts and together hold all of them |
| TrafficCost.SortKeeps | apps/frontend/src/lib/httpTrafficStats.ts:357-358 | Sorting keeps every bucket, once, and the sum |
| TrafficCost.SortedGroups | apps/frontend/src/lib/httpTrafficStats.ts:341-364 | The rows of a chart are one for every bucket that some record falls into, each with exactly the sum of its own records, and together the sum of all |
| TrafficCost.RoundedSumIsClose | apps/frontend/src/lib/httpTrafficStats.ts:361 | Rounding each bucket to 0.0001 changes the sum by at most 0.00005 for each |
| TrafficCost.BuildDailyTokens | apps/frontend/src/lib/httpTrafficStats.ts:366-415 | The rows are the groups by day, in order; they sum to the usages of the last record of each record's id, and with distinct ids exactly to the totals |
| TrafficCost.BuildDailyCost | apps/frontend/src/lib/httpTrafficStats.ts:334-364 | The rows are the rounded groups by day; they count every record once, and sum within 0.00005 for each row to the costs of the last paid record of each record's id, with distinct ids to the total cost |
| TrafficCost.BuildCostByModel | apps/frontend/src/lib/httpTrafficStats.ts:417-444 | The rows are the rounded groups by model, dearest first, and sum in the same way over the records with a model |
| TrafficCost.CostsShownOfDistinct | apps/frontend/src/lib/httpTrafficStats.ts:334-444 | With distinct ids both cost charts add up to the total cost |
| TrafficCost.ComputeDashboardStats | apps/frontend/src/lib/httpTrafficStats.ts:86-224 | The token, cost, call, latency and time charts all agree with the totals |
| OtaLoader.Cache.Write | crates/ota-loader/src/main.rs:211 | Writing changes one entry only, and passes through every partial content |
| OtaLoader.Cache.Rename | crates/ota-loader/src/main.rs:212 | The rename is one step |
| OtaLoader.Cache.PlaceFile | crates/ota-loader/src/main.rs:209-214 | Verified bytes are written to the temporary file, which is then moved into place |
| OtaLoader.Cache.SyncFile | crates/ota-loader/src/main.rs:170-215 | The source's branches; in every state on the way nothing but the temporary file differs, and the name holds its old content or the listed bytes; success leaves the listed bytes, a matching file is left alone, and only a hash whose first 16 bytes are no whole characters can abort |
| OtaLoader.SyncIsGood | crates/ota-loader/src/main.rs:170-215 | One sync keeps these promises for every hash, directory and world |
| OtaLoader.Cache.SyncFiles | crates/ota-loader/src/main.rs:78-87 | The files are synced in the order of the map until one does not succeed |
| OtaLoader.Cache.CleanStale | crates/ota-loader/src/main.rs:217-240 | Only unmanaged, undotted entries other than manifest.json can go; those that can be removed do |
| OtaLoader.Cache.Run | crates/ota-loader/src/main.rs:78-99 | For any iteration order a run passes through the states of its syncs; if no file that can be downloaded has another managed file as its temporary file, at every point every managed name holds its previous or the listed bytes, and a finished run leaves every managed file matching; nothing else is left but dotted entries, manifest.json and what could not be removed |
| OtaLoader.DotlessNamesDoNotClash | crates/ota-loader/src/main.rs:210 | Names without a leading dot satisfy the condition of the run |
| OtaLoader.ProtectsIffHarmless | crates/ota-loader/src/main.rs:78-215 | For whatever hash the loader uses, the guarantee of a run holds for every directory, order and world exactly when no file that can be downloaded has another managed file as its temporary file |
| OtaLoader.NoClashIsHarmless | crates/ota-loader/src/main.rs:210 | Which is so if no managed file is the temporary file of another |
| OtaLoader.ClashDamages | crates/ota-loader/src/main.rs:209-212 | For every hash, a clash on a file with an obtainable content breaks the guarantee for some order and world |
| OtaLoader.ClashLosesFile | crates/ota-loader/src/main.rs:209-212 | In the other order the clash loses the file: it is gone when both are synced |

## Left out

- Framing: MessagePack bytes and the message variants; the payload codec is an abstract pair that reads back what it wrote. `encode` and `encode_to_vec` are one function here.
- AgentStream.AgentStreamParser.PushLine: does not model the trimming, UTF-8 check and JSON parsing of a line, nor how labels and commands are worded; they are one function from bytes to the meaning of a line.
- PtyReader.ReadLoop: does not model the sleeping between two looks at the pause; a failing read ends the loop like the end of the stream.
- FlowControl: each `Session` method is one atomic step; the interleavings between a counter update and the flag store inside one method are not modelled. The sequence counters' 64-bit wrap-around is not modelled.
- CodeChangeStore: the calls that replace or remove whole change sets enter only as what other calls do while a write is awaited.
- Lines and diffs work on characters, not on UTF-16 code units.
- Reconstruct.ReconstructContent: does not model hunks that reach past the end of the original, for which the program would put out undefined lines; the hunks of a diff never do.
- HostServer.Server.HandleSpawn: does not model the environment, containers, tool lookup and launch records; whether a proxy starts, the tool is found and the terminal opens are inputs.
- HostServer: `shutdown_all`, resizing, input and approval routing only forward to other parts.
- SpawnProtocol: does not model the re-linking of sessions after a restart of the desktop program, and assumes fresh session ids; a reconnected host starts with an empty table; terminal-output scanning in the relay is not modelled.
- HostServer: a proxy started for a spawn that is then refused stays in the table until a close; nothing is claimed about it beyond that.
- Base64 and RemoteFiles: UTF-8 validation of a file that was read.
- ShellQuote: expansions, patterns, here-documents, and operators other than `|`, `>` and `&&`; the reader gives up on them, and the quoted commands contain none.
- RemoteFiles.WriteIsAtomic: does not model directories, permissions, or a path that begins with a hyphen, which `mv` would read as an option; a decoder is taken to fail on a text that was cut inside a quad. Overlapping writes are in `ConcurrentWrites`, where every decoder gets its whole text or dies.
- Capture: header redaction, durations and URLs are copied; the closing of the channel to the desktop, the streaming translation path and the wrap-around of the shared counter are not modelled.
- Capture: the `tap/translate` modules, routing, tunnelling and certificates.
- SseBlocks: `toolLabel` and the pretty-printing of tool input; an action carries its name and raw input. Indices are integers. A Bash tool whose command is not a string makes the label throw, which is not modelled.
- SseText: byte decoding of a body, in particular a character cut in two.
- HttpExchange.ParseRequestToolResults: does not model how the text of one result is extracted, only that this may throw.
- TrafficCost: amounts are reals, so floating-point rounding other than the explicit rounding to 0.0001 is not modelled. The price of a usage is an input.
- TrafficCost.ComputeDashboardStats: does not model label texts, averages, the error rate, and the status, method and host distributions.
- TrafficSeries.Percentile: does not model the rounding of the product of percentage and count in floating point; the rank is exact.
- TrafficSeries.RankInRange: the same, the product is exact.
- OtaLoader.Cache.Run: does not model fetching the manifest and launching the program; manifest names are single path components, and reading a file does not change it.
- The updater inside the desktop program, window, editor and terminal code, SSH, TLS, PTY creation and storage.
