# Verified model of the RTMP live-streaming stack

This project models, in Dafny 4.11, the parts of the repository whose correctness is hardest to see from any
single function, and proves what they promise. `dafny verify dfyconfig.toml` checks all of it.

## What is modelled

**The chunk layer of go-rtmp** (section 5.3 of the RTMP 1.0 specification).

| module | models |
|---|---|
| `Bytes` | the integer widths and byte orders of the source, wrap-around written out |
| `ChunkHeader` | the chunk basic header and chunk message header, as functions on bytes |
| `ChunkStream` | the two memories of one chunk stream: what the writer compresses headers against and what the reader rebuilds them from |
| `Receiving` | the reading half over all chunk streams, on arbitrary bytes |
| `Sending` | the writing half as a state machine: `Write` is the steps Acquire and Enqueue, a turn of the scheduler's `Run` is Take, Emit and Requeue, a change of the chunk size is SetSize |
| `Lossless`, `Compression`, `Histories` | every run of the writer read by its peer: losslessness, header compression against a reference writer that never compresses, and which histories exist |
| `Switching`, `Settling` | changing the chunk size while messages are in progress: when it is seamless, what it breaks otherwise, and how it comes to its end |
| `Scheduling` | when the scheduler blocks, in which order it serves, how many turns it needs, how it cuts a message |
| `Acknowledging` | the message loop message by message, and the byte counters and acknowledgements at every position of the input |
| `HeaderIO`, `ControlState`, `ReadSide`, `WriteSide` | the same code as the source writes it: buffers filled in place, objects per chunk stream, tables, a queue of objects, the peer's state that is shared with the handlers; every method is proved against the functions above |
| `Session` | the two halves together, as objects |
| `Control`, `MessageIO` | the binary messages (sections 5.4.1 to 5.4.5 and 7.1.7 of the specification), as functions and as the source runs them |
| `WireFormat` | what lies where on the wire, in plain arithmetic on the bytes: chunk headers, binary messages and the messaging client's frames |

**The server connection.** `Streams` is the table of message streams with its allocator, `ServerLog` says which
callbacks, replies and state changes may follow each other and what every log of them keeps, `Server` is the
message loop with the handlers of every stream state, and `ServerConn` is the same as methods on objects. `Transcripts`
says entry by entry what each message adds to the log. `Service` puts the chunk layer under the server: the whole message
loop on the bytes that arrive, decoding and handling each message before the next chunk is read by what it has changed;
and `EndToEnd` goes from the messages a client writes to the callbacks of the application on the server.

**The messaging client.** `Cutting` is a receive buffer that is cut into frames, for any header-prefixed format;
`Frames` is the client's format and its buffer.

**The relay's fan-out.** `Relay` is what each subscriber is delivered, whenever it joins and leaves.

The pattern is the same everywhere: a state machine or function on values that can be reasoned about over all
runs, lemmas about it, and classes whose methods update their fields in place and are proved to do one step of it.
A class's ghost field (`model`, `table`, `trace`, `hub`) is the value its fields stand for.

## Main results

- **Losslessness.** For every sequence of writes, on any number of chunk streams, interleaved in any way with the
  turns of the scheduler and with safe changes of the chunk size (below), the peer reads the sent bytes to their end
  and gets the messages in the order they were completed, each whole, with its type and stream. It gets a message's
  own timestamp *exactly if* that does not drift (below), for every single message.
- **Changing the chunk size with messages in progress is seamless** under a condition on each step, whatever turns and
  Writes come between the change, the Write of its announcement and the sending of that: a change must leave everyone in
  line cut by a size that the peer knows when the turn comes, and so must everyone be who joins the line. The conditions
  are exact: after a step that misses its own, the scheduler alone goes on to a chunk that the peer does not read as it
  was sent; and there is a family of runs that lose a message for good. Once the announcement is in line nothing is left
  to check, and when the queue is empty both sides cut by the size that was asked for.
- **The wire format** of chunk headers, binary messages and frames, byte by byte, for what is encoded and for arbitrary
  bytes that are decoded.
- **Compression is transparent.** The same run without header compression delivers exactly what was sent, and the
  compressed run delivers the same but for the timestamps of the messages that drift.
- **Arbitrary input.** Whatever bytes arrive and however the reading ends, every delivered message has exactly the length
  that the headers announced for it, and the reading state stays well formed and bounded.
- **The scheduler blocks on itself if and only if more than 64 chunk streams are allowed.** It serves first come
  first served, round robin, and drains in exactly the computed number of turns.
- **Acknowledgement accounting** of the message loop: at every position of the input that it reaches, also when it
  stops on an error, the counters make up the bytes read, modulo 2^32; and for chunk stream ids 2 to 319 less than half
  the window, 18 bytes and a chunk is unacknowledged there. At every chunk boundary an acknowledgement is sent exactly if
  at least half the window in force was read since the last one.
- **Server history safety** over every run of the message loop, the replies and callbacks failing at any point; and so
  for every sequence of bytes that arrives, which the server's counters make up; and the messages it handles are the
  first of those that a client's chunk layer has sent, all of them if it refuses none.
- **What the server does on each message**, entry by entry, for every state of the stream, every answer of the application
  and every failing write. From end to end: the bytes of a client that connects, creates a stream, publishes and sends
  audio, over every interleaving of its chunk layer, make the server call the application with the audio.
- **The allocator** succeeds exactly while there is room, with the least free id, whatever ids are taken.
- **Frames arrive** whatever the read boundaries; arbitrary bytes are cut the same however they are split.
- **The relay delivers** to every subscriber exactly what is due to one who joined when it did, stated on the published
  tags and their timestamps alone.

## Where the code differs from what one would expect

The model follows the code in each case.

- *Timestamps can be lost, and then drift.* `updateWriterHeader` keeps a non-zero delta when the message stream id
  changes, while the reader resets its delta (chunk_streamer.go:224, 332-335). A timestamp is lost at a message that
  follows, on its chunk stream, a message that switched to another message stream with a later timestamp, and repeats
  that message's length, type, stream and increment; and at the very first message of a chunk stream, if it has
  timestamp 0xFFFFFFFF and message stream 0 (line 412). From there on all messages of the chunk stream are delivered
  with wrong timestamps, until one is earlier than its predecessor or on another message stream, so that its own
  timestamp is sent. `ChunkStream.LosesTimestamp` and `ChunkStream.Drifts` are these conditions,
  `ChunkStream.ClockShows` says that they are exact for every message of every history, and
  `Histories.ExampleLosesTimestamp` is a run of five messages whose last three arrive wrong.
- *A change of the chunk size takes effect before it is announced*, whatever is in progress (stream.go:136-145). Writers
  in line are then cut by a size that the peer does not know yet, and so may be the announcement itself, and a message
  written by another goroutine before the announcement is. `Switching.UnsafeStepMisreads`,
  `Switching.UnsafeSwitchMisreads`, `Switching.UnsafeSwitchLoses`.
- *The scheduler can deadlock.* Its queue holds 64 writers and the loop that empties it also refills it; the default
  limit of chunk streams is 2^32-1. `Scheduling.BlocksIff`.
- *Three-byte basic headers over-read.* `decodeChunkBasicHeader` reads into all of the 64 KB buffer that `readChunk`
  passes (chunk_header.go:41), so chunk streams 320 to 65599 are separated from what follows only if the connection
  happens to deliver no more. The over-read is a parameter; `Receiving.SourceSeparates` says exactly when it harms.
- *fmt 3 chunks carry no extended timestamp* on either side, unlike section 5.3.1.3 of the RTMP 1.0 specification.
- *A message of length 0 makes the reader panic*, as does one whose length has its low 24 bits 0
  (chunk_streamer.go:246-249). `ChunkStream.LengthLimits`.
- *The stream allocator* tries `uint32(i)`, so beyond 2^32 it wraps around; it then fails only when all ids are taken.
- *Stream 0 can be deleted* by a `deleteStream` command, and is never created again (`ServerLog.ControlFirst`, part of
  what every run keeps). The safety results hold for such runs as well.
- *The frame client* panics on length fields from 2^63-25 to 2^64-26 and loops forever on 2^64-25, wherever it comes to
  one. `Frames.BadLengths`, `Frames.AnyBuffer`.
- *A sequence header tag that is also a key frame* is cached as both, so a subscriber is delivered it twice in the place
  of its first video tag, exactly if it is the last header or key frame by then. `Relay.DeliveredTwiceIff`.

## Model

| member | source | states |
|---|---|---|
| `ChunkHeader.BasicRoundTrip` | go-rtmp-master/chunk_header.go:21-79 | decoding an encoded basic header gives it back for ids 2 to 65599, and leaves exactly what follows if and only if the three-byte form does not over-read it |
| `ChunkHeader.MessageRoundTrip` | go-rtmp-master/chunk_header.go:89-238 | for fmt 0 to 3, 24-bit lengths and all 32-bit timestamps including 0xFFFFFF, decoding an encoded message header gives the fields that fmt carries and leaves exactly what follows |
| `ChunkHeader.HeadersRoundTrip` | go-rtmp-master/chunk_streamer.go:196-212 | both headers together, whatever follows |
| `ChunkHeader.DecodeHeaders` | go-rtmp-master/chunk_streamer.go:196-212 | headers take 1 to 18 bytes, plus what is over-read, and announce lengths below 2^24 |
| `WireFormat.BasicHeaderBytes` | go-rtmp-master/chunk_header.go:53-79 | one to three bytes by id, fmt in the top two bits, the id less 64 least significant byte first; refused outside 2 to 65599 |
| `WireFormat.BasicHeaderRead` | go-rtmp-master/chunk_header.go:21-51 | any bytes as a basic header: how many are needed, and the fmt and id they tell |
| `WireFormat.MessageHeaderBytes` | go-rtmp-master/chunk_header.go:161-238 | where each field of a message header lies: 24-bit time and length most significant byte first, the message stream id least significant byte first, and behind a time field of 0xFFFFFF the 32-bit time |
| `WireFormat.MessageHeaderRead` | go-rtmp-master/chunk_header.go:89-159 | any bytes as a message header: how many are needed, and every field as it is read from them |
| `HeaderIO.EncodeChunkBasicHeader` | go-rtmp-master/chunk_header.go:53-79 | the buffer filled in place holds the basic header's encoding; ids outside 2 to 65599 are refused |
| `HeaderIO.EncodeChunkMessageHeader` | go-rtmp-master/chunk_header.go:161-238 | the same for the message header |
| `HeaderIO.DecodeChunkBasicHeader` | go-rtmp-master/chunk_header.go:21-51 | decodes from the connection what the functional codec decodes, and counts every byte it takes |
| `HeaderIO.DecodeChunkMessageHeader` | go-rtmp-master/chunk_header.go:89-159 | the same for the message header |
| `HeaderIO.ChunkStreamerReader.Read` | go-rtmp-master/chunk_streamer_reader.go:20-25 | takes what the connection hands to one read, up to n bytes and at least one before the end, and advances both counters by as many, modulo 2^32 |
| `HeaderIO.ChunkStreamerReader.ReadFull` | go-rtmp-master/chunk_streamer.go:256-259 | reads until there are n bytes or the input ends, however the connection delivers them |
| `HeaderIO.ReadFields` | go-rtmp-master/chunk_header.go:95-152 | the bytes of a message header and the extended timestamp behind them, or nothing left unread |
| `HeaderIO.ChunkStreamerReader.ResetFragmentReadBytes` | go-rtmp-master/chunk_streamer_reader.go:35-37 | only the fragment counter is reset |
| `HeaderIO.AdvanceIs` | go-rtmp-master/chunk_streamer_reader.go:20-25 | counting byte by byte with wrap-around is adding modulo 2^32 |
| `ChunkStream.FirstHeader` | go-rtmp-master/chunk_streamer.go:307-337 | after a first header, of whatever fmt, the reader knows the message and both memories agree on it but for the time, which is the clock's |
| `ChunkStream.ChosenHeader` | go-rtmp-master/chunk_streamer.go:307-337 | the writer's choice of fmt 0 to 3, from the history: fmt 0 exactly when the message's own timestamp must be sent, and otherwise exactly what the reader's memory lacks |
| `ChunkStream.ChosenClock` | go-rtmp-master/chunk_streamer.go:213-235 | what the chosen header carries brings the reader's clock to its next state |
| `ChunkStream.ClockNeverWraps` | go-rtmp-master/chunk_streamer.go:267-268 | the reader's timestamp never wraps around: it is the sum, for every history |
| `ChunkStream.ClockShows` | go-rtmp-master/chunk_streamer.go:213-235 | for every history, the reader shows the last message's own timestamp if and only if no message lost one with none sent since; it is never ahead |
| `ChunkStream.FaithfulMeans` | go-rtmp-master/chunk_streamer.go:221-235 | no message of a history is delivered with a wrong timestamp if and only if none of them loses one |
| `ChunkStream.NextHeader` | go-rtmp-master/chunk_streamer.go:307-337 | a later chunk's header is fmt 3 and changes neither memory |
| `ChunkStream.HeaderCarries` | go-rtmp-master/chunk_streamer.go:213-235 | any chunk's header leaves the reader waiting for exactly what the writer holds, and its timestamp plus delta is what its clock will show |
| `ChunkStream.ChunkCarries` | go-rtmp-master/chunk_streamer.go:236-305 | one chunk keeps the memories in step: both are still inside the message and their buffers join to it, or the reader has completed exactly it, with the timestamp of its clock |
| `ChunkStream.LengthLimits` | go-rtmp-master/chunk_streamer.go:242-249 | the reader expects the message's length exactly for lengths up to 0xFFFFFF, and panics exactly if its low 24 bits are 0 |
| `ChunkStream.PiecesMustAgree` | go-rtmp-master/chunk_streamer.go:250-259 | a chunk is read as it was sent, whatever follows it, if and only if the two sides' sizes cut the same piece |
| `Receiving.SourceSeparates` | go-rtmp-master/chunk_header.go:36-51 | the connection separates a chunk stream's headers from what follows if and only if its id is at most 319 or nothing is ever over-read |
| `Receiving.OverReadLosesBytes` | go-rtmp-master/chunk_header.go:36-51 | an over-read loses bytes of what follows |
| `Receiving.ReadChunkBytes` | go-rtmp-master/chunk_streamer.go:196-272 | reading an encoded chunk, whatever follows it, is reading its payload under the header it carries |
| `Receiving.ReadChunkKeeps` | go-rtmp-master/chunk_streamer.go:196-272 | on arbitrary bytes: buffers no longer than their messages, completed exactly when equal, no more readers than allowed, other chunk streams untouched |
| `Receiving.AnyInput` | go-rtmp-master/chunk_streamer.go:137-154 | over all arbitrary input, however the reading ends: the messages delivered have exactly the lengths that the headers on their chunk streams announced last, each of 1 to 0xFFFFFF bytes, and nothing delivered is taken back; the reading state stays well formed |
| `Receiving.SourceHeadersAtMost` | go-rtmp-master/chunk_header.go:21-51 | the source's headers take at most 18 bytes and what is over-read |
| `Receiving.SourceReadsLengths` | go-rtmp-master/chunk_header.go:89-159 | the source's decoder announces lengths below 2^24 |
| `Receiving.ChunkAtMost` | go-rtmp-master/chunk_streamer.go:196-272 | a chunk takes at most its headers and a chunk size; a failed one at most its headers |
| `Sending.StepOwned` | go-rtmp-master/chunk_streamer.go:158-173 | every step keeps: a busy writer is held, queued once or in flight, exclusively; an idle one is empty; a queued one holds the rest of its message; and no step changes a busy writer but the one whose chunk is written |
| `Sending.RunOwned` | go-rtmp-master/chunk_streamer.go:446-478 | so it is in every reachable state, changes of the chunk size at any time included, and on each chunk stream the written messages are the completed ones and at most one more, in order |
| `Lossless.EmitInSync` | go-rtmp-master/chunk_streamer.go:274-305 | sending one chunk and reading it keeps the two sides in step on every chunk stream |
| `Lossless.DispatchAgrees` | go-rtmp-master/conn_state.go:116-142 | the peer's chunk size becomes the announced one, capped at 0xFFFFFF, when it handles a completed announcement |
| `Lossless.QueueInSync` | go-rtmp-master/stream.go:136-145 | steps that send nothing keep the two sides in step, a change of the chunk size at any time included |
| `Lossless.StepInSync` | go-rtmp-master/chunk_streamer.go:113-135 | so does every step |
| `Lossless.RunInSync` | go-rtmp-master/chunk_streamer.go:446-478 | and every run |
| `Lossless.LosslessMultiplexing` | go-rtmp-master/chunk_streamer.go:113-154 | the peer reads all bytes, gets all completed messages in order and whole; each with its own timestamp if and only if it does not drift, all if and only if no history loses one; and its chunk size is the last one announced, capped at 0xFFFFFF |
| `Lossless.MatchedEach` | go-rtmp-master/chunk_streamer.go:267-271 | each single message is received as it was sent if and only if it does not drift in the history of its chunk stream |
| `Lossless.MatchedMeans` | go-rtmp-master/chunk_streamer.go:267-271 | what is received equals what was sent if and only if every chunk stream's history is faithful |
| `Compression.CompressionIsTransparent` | go-rtmp-master/chunk_streamer.go:307-337 | fmt 0/1/2/3 selection delivers what fmt 0 alone delivers, which is what was sent, but for the timestamps of exactly the messages that drift |
| `Compression.EachStreamInOrder` | go-rtmp-master/chunk_streamer.go:113-135 | when nothing is in progress each chunk stream has delivered what was written on it, in write order, but for the timestamps of exactly the messages that drift |
| `Switching.SafeSwitchesAreSeamless` | go-rtmp-master/stream.go:136-145 | a run each of whose steps meets its condition cuts every chunk as the peer will: changes of the chunk size at any time, with any turns and Writes between a change, the Write of its announcement and the sending of that |
| `Switching.SafeRunsAreLossless` | go-rtmp-master/stream.go:136-145 | so from the start of a connection such a run delivers everything, each message with its own timestamp if and only if it does not drift |
| `Switching.EmitReady` | go-rtmp-master/stream.go:136-145 | every chunk sent, an announcement's included, leaves everyone still in line cut alike when the turn comes |
| `Switching.SafeStepReady` | go-rtmp-master/stream.go:136-145 | so does every step that meets its condition, and it transmits |
| `Switching.SettledReady` | go-rtmp-master/stream.go:137-138 | while both sizes agree and none is being announced, everyone in line is cut alike and everyone may join |
| `Switching.SwitchIsSafe` | go-rtmp-master/stream.go:136-145 | when nothing comes between the change and the queueing of its announcement, one condition before the change makes all its steps safe |
| `Switching.AnnouncementIs` | go-rtmp-master/stream.go:308-319 | what is announced is the new size itself: type 1, message stream 0, chunk stream 2, four bytes most significant first, decoded by the peer as that size |
| `Settling.SwitchSettles` | go-rtmp-master/stream.go:136-145 | as soon as a safe switch has its announcement in line, whoever stands behind it is cut by the new size on both sides |
| `Settling.SettlingStep` | go-rtmp-master/chunk_streamer.go:113-135 | from then on no step but another change has a condition on sizes, and it stays so |
| `Settling.SettlingRun` | go-rtmp-master/chunk_streamer.go:446-478 | over every run, whatever is written |
| `Settling.SwitchTakesEffect` | go-rtmp-master/stream.go:136-145 | after any run, a safe switch to n and turns until the queue is empty: n is announced, the sender cuts by n, the peer by n capped at 0xFFFFFF, and the sizes agree |
| `Switching.ReadAsSentIff` | go-rtmp-master/chunk_streamer.go:250-259 | between two sides in step the next chunk is read as it was sent, whatever follows it, if and only if both sizes cut the same piece off the buffer |
| `Switching.UnsafeStepMisreads` | go-rtmp-master/stream.go:136-145 | after a change, or a joining of the line by a Write or by Run, that misses its condition, the scheduler alone goes on to a chunk that the peer, in step until then, does not read as it was sent |
| `Switching.UnsafeSwitchMisreads` | go-rtmp-master/stream.go:136-145 | so it does after a switch in one piece that misses the condition of that |
| `Switching.FewNeverBlock` | go-rtmp-master/chunk_streamer.go:25-25 | with at most 64 chunk streams the scheduler is never kept from going on |
| `Switching.UnsafeSwitchLoses` | go-rtmp-master/stream.go:136-145 | for any growth of the size: a message one byte longer than the old size is sent whole and never delivered |
| `Histories.AnyHistory` | go-rtmp-master/chunk_streamer.go:113-135 | every list of acceptable messages is the history of some run, which delivers it with the timestamps that the clock shows |
| `Histories.ExampleLosesTimestamp` | go-rtmp-master/chunk_streamer.go:332-335 | five messages of which one loses its timestamp and the last three arrive wrong |
| `Histories.LeadsWrite` | go-rtmp-master/chunk_streamer.go:113-135 | a Write that goes through is a run of the state machine |
| `Settling.LeadsTurn` | go-rtmp-master/chunk_streamer.go:457-478 | a turn of the scheduler is a run of the state machine that the chunk layer allows |
| `Session.Deliver` | go-rtmp-master/chunk_streamer.go:97-135 | the bytes a writing half has put out, whatever it was used for if used well, read by a peer's message loop however the connection delivers them, are its completely sent messages; each with its timestamp if and only if it does not drift; and the peer has counted every byte |
| `Session.PeerReads` | go-rtmp-master/chunk_streamer.go:113-154 | the same of the value-level session that the peer goes through |
| `Session.ReadOff` | go-rtmp-master/chunk_streamer.go:97-111 | a peer set up on any bytes delivers and counts what the whole session says |
| `Scheduling.BlocksIff` | go-rtmp-master/chunk_streamer.go:25-25 | a run that blocks the scheduler on its own queue exists if and only if more than 64 chunk streams are allowed |
| `Scheduling.BusyCount` | go-rtmp-master/chunk_streamer.go:393-424 | queued, held and flying writers together are at most the allowed chunk streams |
| `Scheduling.BlockedForever` | go-rtmp-master/chunk_streamer.go:457-478 | once blocked, nothing is ever sent again |
| `Scheduling.WritesNeverWait` | go-rtmp-master/chunk_streamer.go:440-444 | up to 64 chunk streams a Write always finds a place in the queue |
| `Scheduling.FirstComeFirstServed` | go-rtmp-master/chunk_streamer.go:457-478 | over every run chunks come out in the order of the line, newcomers behind it |
| `Scheduling.RoundRobin` | go-rtmp-master/chunk_streamer.go:457-478 | between two chunks of a writer every writer queued before it sends exactly one |
| `Scheduling.TurnsForIsCeiling` | go-rtmp-master/chunk_streamer.go:277-281 | a message of n bytes takes max(1, ceil(n / chunk size)) turns |
| `Scheduling.TurnIsRun` | go-rtmp-master/chunk_streamer.go:457-478 | a turn of the loop is a run of two or three steps of the state machine |
| `Scheduling.TurnCounts` | go-rtmp-master/chunk_streamer.go:457-478 | every turn brings the queue exactly one turn closer to empty |
| `Scheduling.DrainsExactly` | go-rtmp-master/chunk_streamer.go:457-478 | with no new arrivals the queue is empty after exactly the sum of those, and then everything written is sent |
| `Scheduling.FragmentationLaw` | go-rtmp-master/chunk_streamer.go:274-305 | the chunks of a message join to it; all but the first are fmt 3, all but the last have exactly the chunk size, and there are as many as turns |
| `Scheduling.LaterChunksHaveNoMessageHeader` | go-rtmp-master/chunk_header.go:161-238 | the bytes of a later chunk are its basic header and its payload |
| `Acknowledging.NextMessage` | go-rtmp-master/chunk_streamer.go:137-154 | returns a completed reader of its table, having read at least one byte |
| `Acknowledging.MessageByMessage` | go-rtmp-master/conn.go:154-172 | what NewChunkReader returns next is the next message of the whole session, with its counters, and when it fails the session is over |
| `Acknowledging.SessionReads` | go-rtmp-master/conn.go:154-172 | the whole session delivers what the reading of the input delivers |
| `Acknowledging.DrainedWhole` | go-rtmp-master/conn.go:154-172 | it leaves nothing unread when the reading ends with the input |
| `Acknowledging.AddsUpThroughout` | go-rtmp-master/chunk_streamer.go:145-151 | whatever the chunks and windows: at every position the total, and the last acknowledged number plus the fragment counter, are the bytes read, modulo 2^32 |
| `Acknowledging.EndsWith` | go-rtmp-master/chunk_streamer.go:137-154 | the counters at the last position are those that the session ends with, whether it stops on an error, a refused message or the end of the input |
| `Acknowledging.SessionAddsUp` | go-rtmp-master/chunk_streamer.go:137-154 | so a session that begins with counters that add up ends so |
| `Acknowledging.CheckWithin` | go-rtmp-master/chunk_streamer.go:145-151 | after the check behind a chunk less than half a window is unacknowledged, for every window from -1 |
| `Acknowledging.CheckSends` | go-rtmp-master/chunk_streamer.go:145-151 | the check sends the total and resets exactly if at least half the window was counted, and else changes nothing; for every window, negative ones included |
| `Acknowledging.SendsExactly` | go-rtmp-master/chunk_streamer.go:145-151 | at every chunk boundary of a session an acknowledgement is sent if and only if at least half the window in force was read since the last one |
| `Acknowledging.SessionSends` | go-rtmp-master/chunk_streamer.go:137-154 | so the numbers sent over a whole session are those positions, modulo 2^32 |
| `Acknowledging.AcknowledgedApart` | go-rtmp-master/chunk_streamer.go:145-151 | and they lie at least half the least window apart |
| `Acknowledging.PiecesAtMost` | go-rtmp-master/chunk_streamer.go:196-272 | no chunk of a session takes more than its headers and the chunk size in force |
| `Acknowledging.PiecesSane` | go-rtmp-master/conn_state.go:116-142 | windows delivered from -1 keep all windows in force so, and chunk sizes stay within 0xFFFFFF |
| `Acknowledging.NarrowFits` | go-rtmp-master/chunk_header.go:21-51 | for chunk stream ids 2 to 319 headers take at most 18 bytes, however the connection delivers |
| `Acknowledging.AlwaysFits` | go-rtmp-master/chunk_header.go:21-51 | for all chunk stream ids they take as much as `Receiving.SourceHeadersAtMost` says |
| `Acknowledging.AccountsThroughout` | go-rtmp-master/chunk_streamer.go:137-154 | the message loop from the start of a connection: the counters add up at every position of the input |
| `Acknowledging.WithinThroughout` | go-rtmp-master/chunk_streamer.go:426-432 | if headers take at most b bytes, less than half the window of the last check, b bytes and a chunk is unacknowledged at every position that the loop reaches |
| `Acknowledging.WithinNarrow` | go-rtmp-master/chunk_streamer.go:426-432 | for chunk stream ids 2 to 319 that is 18 bytes |
| `ReadSide.ChunkStreamReader.Enter` | go-rtmp-master/chunk_streamer.go:213-235 | a header updates the reader's fields as the functional reader |
| `ReadSide.ChunkStreamReader.ReadPayload` | go-rtmp-master/chunk_streamer.go:236-271 | so does the payload; false is the panic |
| `ReadSide.ReadSide.PrepareChunkReader` | go-rtmp-master/chunk_streamer.go:373-391 | finds or creates the reader of a chunk stream, and refuses exactly beyond the limit |
| `ReadSide.ReadSide.ReadChunk` | go-rtmp-master/chunk_streamer.go:196-272 | one chunk from the connection: outcome, table, counters and remaining bytes are the functional reading's |
| `ReadSide.ReadSide.Acknowledge` | go-rtmp-master/chunk_streamer.go:145-151 | appends the total and resets the fragment counter exactly if that is at least half the window, and otherwise leaves both as they are |
| `ReadSide.ReadSide.NewChunkReader` | go-rtmp-master/chunk_streamer.go:137-154 | the loop over chunks returns what NextMessage says, with the table, the counters, the acknowledgements and the unread bytes it says, also when it fails |
| `ControlState.StreamControlState.SetChunkSize` | go-rtmp-master/conn_state.go:116-128 | caps at 0xFFFFFF, refuses above the configured limit |
| `ControlState.StreamControlState.SetAckWindowSize` | go-rtmp-master/conn_state.go:134-142 | refuses a window above the configured limit, takes any other |
| `ReadSide.ReadSide.Read` | go-rtmp-master/chunk_streamer.go:97-111 | hands over the next message of the session with its chunk stream, or nothing where that ends |
| `ReadSide.ReadSide.Handle` | go-rtmp-master/message/decoder.go:34-70 | a message that the decoder rejects ends the loop, of whatever type; of the others a SetChunkSize or WinAckSize changes the peer's state or is refused by its limits (stream_handler.go:83-89), and no other message does |
| `ReadSide.ReadSide.RunHandleMessageLoop` | go-rtmp-master/conn.go:154-172 | delivers, acknowledges, counts and leaves unread exactly what the whole session says |
| `ReadSide.ReadSide.HandleMessageLoop` | go-rtmp-master/conn.go:140-152 | however it ends, a panic included; and counters that added up before do then |
| `WriteSide.ChunkStreamWriter.UpdateWriterHeader` | go-rtmp-master/chunk_streamer.go:307-337 | the statements in order compute the functional header choice and leave nothing else changed |
| `WriteSide.ChunkStreamWriter.Accept` | go-rtmp-master/chunk_streamer.go:113-135 | loads the message |
| `WriteSide.WriteSide.PrepareChunkWriter` | go-rtmp-master/chunk_streamer.go:393-424 | finds or creates the writer of a chunk stream, and refuses exactly beyond the limit |
| `WriteSide.WriteSide.NewChunkWriter` | go-rtmp-master/chunk_streamer.go:158-168 | hands over the chunk stream's writer, new if there was none; refused exactly beyond the limit, timed out exactly on a busy writer |
| `WriteSide.WriteSide.Acquire` | go-rtmp-master/chunk_streamer.go:113-132 | with that writer, loaded, the step Acquire; otherwise the same outcome, and nothing is changed |
| `WriteSide.WriteSide.Sched` | go-rtmp-master/chunk_streamer.go:440-444 | puts a loaded writer that waits into the queue |
| `WriteSide.WriteSide.Write` | go-rtmp-master/chunk_streamer.go:113-135 | is the step Acquire, and Enqueue unless the queue is full, when it waits; refused exactly beyond the limit, timed out exactly on a busy writer, and then nothing is changed; for every chunk stream id |
| `WriteSide.WriteSide.SwitchChunkSize` | go-rtmp-master/stream.go:136-145 | the size changes first, even if its message is then refused; with messages in progress or not it is the steps SetSize, Acquire and Enqueue of Switching exactly if the announcement can be written at once, and then the message under way on chunk stream 2 is decoded as the new size |
| `WriteSide.WriteSide.WriteChunk` | go-rtmp-master/chunk_streamer.go:274-305 | the bytes put out are the chunk's, the writer is left as the functional writer; fails, putting out nothing, exactly on ids that have no encoding |
| `WriteSide.WriteSide.RunTurn` | go-rtmp-master/chunk_streamer.go:457-478 | one turn of the loop is one turn of the state machine, on the queue of objects; it ends, putting out nothing, exactly if the head's id has no encoding |
| `Control.RoundTrip` | go-rtmp-master/message/encoder.go:31-143 | decoding what is encoded under its type id gives the message; the encoder refuses exactly the chunk sizes outside 1 to 0x7FFFFFFF |
| `Control.EventRoundTrip` | go-rtmp-master/message/user_control_event_encoder.go:27-117 | the same for the seven user control events |
| `Control.Canonical` | go-rtmp-master/message/decoder.go:34-188 | whatever decodes is the encoding of what it decodes to, up to ignored bytes behind it |
| `Control.EventCanonical` | go-rtmp-master/message/user_control_event_decoder.go:27-159 | the same for the events |
| `WireFormat.MessageBytes` | go-rtmp-master/message/encoder.go:31-143 | type ids and bytes of every binary message, signed words in two's complement; refused exactly outside 1 to 0x7FFFFFFF |
| `WireFormat.EventPut` | go-rtmp-master/message/user_control_event_encoder.go:27-117 | the bytes of the seven events with their numbers 0 to 4, 6 and 7 |
| `WireFormat.MessageIsRead` | go-rtmp-master/message/decoder.go:34-188 | which type ids and bytes the decoder takes |
| `WireFormat.MessageRead` | go-rtmp-master/message/decoder.go:34-188 | and what it makes of them: the message of which the first bytes are the payload |
| `MessageIO.EncodeTo` | go-rtmp-master/message/encoder.go:31-143 | writes exactly the encoding to the held writer, nothing on an error |
| `MessageIO.DecodeFrom` | go-rtmp-master/message/decoder.go:34-188 | reads from the held reader what the functional decoder decodes |
| `MessageIO.EncodeEventTo` | go-rtmp-master/message/user_control_event_encoder.go:27-117 | the same for events |
| `MessageIO.DecodeEventFrom` | go-rtmp-master/message/user_control_event_decoder.go:27-159 | the same for events |
| `Streams.Pigeonhole` | go-rtmp-master/streams.go:54-67 | n ids in use need a table of n entries |
| `Streams.HasRoom` | go-rtmp-master/streams.go:34-52 | a table below its limit with a free id is below its limit and below 2^32 |
| `Streams.RoomIs` | go-rtmp-master/streams.go:34-67 | there is no room exactly at the limit or with 2^32 streams |
| `Streams.LeastFree` | go-rtmp-master/streams.go:54-67 | a table below 2^32 entries has exactly one least free id |
| `Streams.StreamTable.Create` | go-rtmp-master/streams.go:34-52 | fails exactly if the id is taken or the limit reached; the key is the stream's id |
| `Streams.StreamTable.CreateIfAvailable` | go-rtmp-master/streams.go:54-67 | succeeds if and only if fewer streams than the limit (and than 2^32) are live, with the least free id |
| `Streams.StreamTable.Delete` | go-rtmp-master/streams.go:69-83 | removes exactly the stream of that id, fails exactly if there is none |
| `Streams.StreamTable.At` | go-rtmp-master/streams.go:85-92 | finds exactly the live streams |
| `Streams.StreamTable.ChangeState` | go-rtmp-master/stream_handler.go:100-130 | changes that stream's state, and none on Unset |
| `ServerLog.NoteSound` | go-rtmp-master/stream_handler.go:100-130 | any allowed callback, reply or change keeps all safety properties of the log |
| `ServerLog.NoteJustified` | go-rtmp-master/server_data_publish_handler.go:25-55 | a stream that is Publishing has an accepted connect, its creation, its accepted publish and its change behind it, in this order, and was not deleted since |
| `ServerLog.NoteFinal` | go-rtmp-master/server_data_inactive_handler.go:49-118 | a stream that is Publishing or Playing does not change until it is deleted |
| `ServerLog.NoteConnected` | go-rtmp-master/server_control_not_connected_handler.go:45-113 | Connected is entered at most once, by stream 0 |
| `ServerLog.NoteHonest` | go-rtmp-master/server_control_connected_handler.go:84-91 | no success reply is attempted for a connect or publish that was not accepted, or for a stream that was not created or is deleted |
| `ServerLog.NoteControl` | go-rtmp-master/server_conn.go:27-47 | stream 0 is created by the first entry of the log only |
| `ServerLog.ControlStream` | go-rtmp-master/server_conn.go:34-38 | only stream 0 is ever in a control state |
| `Server.OnConnectGood` | go-rtmp-master/server_control_not_connected_handler.go:45-113 | handling connect keeps the properties, wherever one of its writes fails |
| `Server.OnCreateStreamGood` | go-rtmp-master/server_control_connected_handler.go:54-94 | so does createStream, with its deferred replies and the deletion of a stream that could not be announced |
| `Server.OnDeleteStreamGood` | go-rtmp-master/server_control_connected_handler.go:96-111 | so does deleteStream, of stream 0 too |
| `Server.OnStartGood` | go-rtmp-master/server_data_inactive_handler.go:57-113 | so do publish and play |
| `Server.HandleMessageKeeps` | go-rtmp-master/conn.go:174-203 | so does every message, on a live stream or none |
| `Server.ServerHistorySafety` | go-rtmp-master/conn.go:154-203 | for every run: the log is safe (Connected once and by stream 0 only, stream 0 never created again, final states final, media callbacks and success replies justified by what came before), the live streams are in the states allowed to them, no more of them than the limit, no more messages ignored than the threshold |
| `Server.IgnoresExactly` | go-rtmp-master/conn.go:174-189 | messages to missing streams: exactly as many are ignored as the threshold has left, the next one ends the connection, and without the option the first does |
| `Transcripts.ConnectSucceeds` | go-rtmp-master/server_control_not_connected_handler.go:45-113 | an accepted connect whose writes go through: the callback, four replies in their order, and the stream is Connected |
| `Transcripts.ConnectRefused` | go-rtmp-master/server_control_not_connected_handler.go:45-113 | refused: the callback, an error reply, nothing changed, the connection ends |
| `Transcripts.ConnectFails` | go-rtmp-master/server_control_not_connected_handler.go:45-113 | the k-th reply fails: those before it, an error reply, nothing changed, the connection ends |
| `Transcripts.CreateStreamSucceeds` | go-rtmp-master/server_control_connected_handler.go:54-94 | below the limit: the least id not in use is created, Inactive and announced |
| `Transcripts.CreateStreamFails` | go-rtmp-master/server_control_connected_handler.go:54-94 | if that cannot be announced it is deleted again and the connection ends |
| `Transcripts.CreateStreamRefused` | go-rtmp-master/server_control_connected_handler.go:54-94 | refused by the application or for lack of room, with one or two error replies |
| `Transcripts.DeletesStream` | go-rtmp-master/server_control_connected_handler.go:96-111 | the callback and, if accepted and the stream exists, its deletion; otherwise the connection ends |
| `Transcripts.Publishes` | go-rtmp-master/server_data_inactive_handler.go:57-86 | publish: accepted and announced, not announced, refused |
| `Transcripts.Plays` | go-rtmp-master/server_data_inactive_handler.go:88-113 | the same for play |
| `Transcripts.ConnectedCalls` | go-rtmp-master/server_control_connected_handler.go:113-143 | releaseStream, FCPublish and FCUnpublish reach their callbacks |
| `Transcripts.UnknownCommands` | go-rtmp-master/stream_handler.go:168-207 | every other command in every state reaches the callback for unknown ones |
| `Transcripts.ContentCalls` | go-rtmp-master/server_data_publish_handler.go:25-55 | audio, video and metadata reach their own callbacks on a Publishing stream, those for unknown messages and data elsewhere |
| `Transcripts.OtherBodies` | go-rtmp-master/conn.go:191-201 | unknown bodies are passed over, malformed ones and unexpected answers end the connection |
| `Transcripts.PeerStates` | go-rtmp-master/conn_state.go:116-142 | chunk sizes capped at 0xFFFFFF and windows are taken up to the configured limits |
| `Transcripts.Starts` | go-rtmp-master/server_conn.go:27-47 | a new connection has stream 0, NotConnected, if there is room for it |
| `Transcripts.PublisherIsHeard` | go-rtmp-master/server_data_publish_handler.go:30-36 | connect, createStream, publish and audio on a new connection: each step's state, and the whole log, which ends with the audio callback on stream 1 |
| `Transcripts.PublisherLoop` | go-rtmp-master/conn.go:154-172 | so it is in the message loop |
| `ServerConn.Conn.Open` | go-rtmp-master/server_conn.go:27-47 | creates stream 0 NotConnected, fails exactly without room |
| `ServerConn.Conn.OnConnectCommand` | go-rtmp-master/server_control_not_connected_handler.go:45-113 | callback, four writes, state change or error reply, in the order and with the outcome of the transition |
| `ServerConn.Conn.OnCreateStreamCommand` | go-rtmp-master/server_control_connected_handler.go:54-94 | the same for createStream |
| `ServerConn.Conn.OnDeleteStreamCommand` | go-rtmp-master/server_control_connected_handler.go:96-111 | the same for deleteStream |
| `ServerConn.Conn.OnConnectedCommand` | go-rtmp-master/server_control_connected_handler.go:45-149 | the dispatch of the Connected handler |
| `ServerConn.Conn.OnStartCommand` | go-rtmp-master/server_data_inactive_handler.go:49-118 | the same for publish and play |
| `ServerConn.Conn.OnCommand` | go-rtmp-master/stream_handler.go:168-207 | the handler selected by the stream's state handles the command |
| `ServerConn.Conn.OnContent` | go-rtmp-master/server_data_publish_handler.go:25-55 | audio, video and metadata reach their callbacks exactly on a Publishing stream, the others the unknown-message callback |
| `ServerConn.Conn.Handle` | go-rtmp-master/stream_handler.go:73-98 | dispatch by message, with the limits on the peer's chunk size and window |
| `ServerConn.Conn.HandleOne` | go-rtmp-master/conn.go:174-203 | messages to missing streams are ignored up to the threshold, if so configured |
| `ServerConn.Conn.RunHandleMessageLoop` | go-rtmp-master/conn.go:154-172 | the loop over the arriving messages is the run of the transitions |
| `Service.ServedIsLoop` | go-rtmp-master/conn.go:154-203 | the server's state after any bytes is that of the message loop over the messages decoded from them |
| `Service.InterpretIs` | go-rtmp-master/message/message.go:16-32 | which type ids are data, commands, audio, video, chunk sizes and windows, and what their payloads say |
| `Service.DecodableIff` | go-rtmp-master/message/decoder.go:34-70 | the reading half refuses exactly what the handlers get nothing of |
| `Service.BytesAreSafe` | go-rtmp-master/conn.go:154-203 | so for every sequence of bytes, whatever its AMF parts mean and however callbacks and writes turn out: the log is safe, the streams in order and within the limit |
| `Service.ServedCounts` | go-rtmp-master/chunk_streamer.go:137-154 | and the counters make up the bytes read when the loop ends, however it does |
| `Service.HandledAsDispatched` | go-rtmp-master/conn.go:174-203 | a message that the server handles without an error changes the peer's chunk size and window as the reading half has it, if one that sets them is on a live stream |
| `Service.ServesReading` | go-rtmp-master/conn.go:154-172 | so what the server handles is a prefix of what the reading of the input delivers |
| `Service.ClientIsServed` | go-rtmp-master/conn.go:154-172 | of the messages that a client's chunk layer has completely sent the server handles the first ones, in order, whole, and with the timestamps of the reader's clocks |
| `Service.ServerSession.Answer` | go-rtmp-master/conn.go:174-203 | decoding and handling of one message, on the objects, with one state of the peer for both halves |
| `Service.ServerSession.HandleMessage` | go-rtmp-master/conn.go:174-203 | the same, counted |
| `Service.ServerSession.ReadNext` | go-rtmp-master/chunk_streamer.go:97-111 | the next message, or the end of the input; the connection is left as it was |
| `Service.ServerSession.Serve` | go-rtmp-master/conn.go:162-169 | one round of the loop, after which the rest of the loop does the rest |
| `Service.ServerSession.RunHandleMessageLoop` | go-rtmp-master/conn.go:154-172 | state, counters and unread bytes are those of the functional loop |
| `Service.Start` | go-rtmp-master/server_conn.go:27-47 | stream 0 and a streamer that share the peer's state, or nothing without room for stream 0 |
| `Service.ServeConnection` | go-rtmp-master/server_conn.go:27-47 | from its start, whatever bytes arrive: when it ends the log is safe and every byte read is counted |
| `EndToEnd.WelcomeIff` | go-rtmp-master/message/decoder.go:34-70 | exactly which messages a peer takes, by type id, payload and limits |
| `EndToEnd.ServesAll` | go-rtmp-master/conn.go:154-172 | if the server refuses nothing it handles all that the reading delivers, in order, and its state is what that makes of it |
| `EndToEnd.ClientIsHeard` | go-rtmp-master/conn.go:154-203 | so of all that a client's chunk layer has completely sent, over every interleaving |
| `EndToEnd.AudioArrives` | go-rtmp-master/server_data_publish_handler.go:30-36 | the bytes of a client that connects, creates a stream, publishes and sends audio make a new server's log end with the audio callback on stream 1, after everything that must come before |
| `Cutting.CutMore` | integration/messaging-client/client.go:131-156 | more bytes change nothing about the frames cut before, and are cut as if they followed the rest alone |
| `Cutting.ReadBoundaries` | integration/messaging-client/client.go:104-128 | frames, ending and rest do not depend on how the bytes are split into reads |
| `Cutting.RestWaits` | integration/messaging-client/client.go:131-156 | what is left is less than its header announces |
| `Cutting.EndsIff` | integration/messaging-client/client.go:131-156 | processing arbitrary bytes panics, or loops forever, if and only if it comes to a header that makes the size negative, or zero; it waits for more otherwise |
| `Cutting.FramesArrive` | integration/messaging-client/client.go:104-156 | the frames that arrived whole are handed over in order, and what waits is a strict prefix of the next |
| `Frames.FrameRoundTrip` | integration/messaging-client/protocol.go:30-95 | decoding an encoded frame gives it back |
| `Frames.FrameCanonical` | integration/messaging-client/protocol.go:60-95 | bytes that decode are the encoding of their frame |
| `WireFormat.FrameBytes` | integration/messaging-client/protocol.go:30-57 | type, sequence number, timestamp and length, most significant byte first, and the payload behind 25 bytes |
| `WireFormat.FrameIsRead` | integration/messaging-client/protocol.go:60-95 | which bytes are taken as a frame, and of which frame they are the bytes |
| `Frames.ReadsDoNotMatter` | integration/messaging-client/client.go:104-128 | for arbitrary bytes of the client's own format |
| `Frames.FramesDelivered` | integration/messaging-client/client.go:104-156 | for all frames with payloads below 2^63-25 bytes, all splittings, and up to any point |
| `Frames.BadLengths` | integration/messaging-client/client.go:134-141 | behind any encoded frames and before anything, any 25 bytes: the client panics at them exactly if their length field is from 2^63-25 to 2^64-26, and loops there forever exactly at 2^64-25 |
| `Frames.AnyBuffer` | integration/messaging-client/client.go:131-156 | an arbitrary buffer ends in a panic, or an endless loop, if and only if processing comes to such a header, and waits for more otherwise |
| `Frames.EncodeFrame` | integration/messaging-client/protocol.go:30-57 | field after field, the encoding |
| `Frames.DecodeFrame` | integration/messaging-client/protocol.go:60-95 | field after field, the decoding, its two errors and its panic |
| `Frames.Client.ProcessBuffer` | integration/messaging-client/client.go:131-156 | the loop cuts what Cut says and terminates unless a frame of size 0 is announced |
| `Frames.Client.ReceiveLoop` | integration/messaging-client/client.go:104-128 | read after read |
| `Frames.Client.Send` | integration/messaging-client/client.go:71-101 | numbers the frames consecutively, modulo 2^64 |
| `Relay.Subtracts` | go-rtmp-master/example/server_relay_demo/pubsub.go:130-130 | the subtraction is that of integers, modulo 2^32 |
| `Relay.OnEventDelivers` | go-rtmp-master/example/server_relay_demo/pubsub.go:122-133 | the remembered timestamp is the first non-zero one delivered, and is subtracted from all later ones |
| `Relay.DueAppend` | go-rtmp-master/example/server_relay_demo/pubsub.go:71-108 | what is due grows by each published tag, or on the first video tag by the cached ones instead |
| `Relay.PublishKeeps` | go-rtmp-master/example/server_relay_demo/pubsub.go:71-108 | a publish keeps every open subscriber up to date |
| `Relay.CachesAre` | go-rtmp-master/example/server_relay_demo/pubsub.go:78-86 | the cache holds the last sequence header and the last key frame published |
| `Relay.DeliveredTwiceIff` | go-rtmp-master/example/server_relay_demo/pubsub.go:78-102 | the catch-up is the last sequence header and the last key frame published; they are the same published tag, delivered twice, if and only if the last tag that is either is both |
| `Relay.DeliveredTwice` | go-rtmp-master/example/server_relay_demo/pubsub.go:78-102 | every tag that is both is delivered twice to one who joined before it |
| `Relay.RelayRefinement` | go-rtmp-master/example/server_relay_demo/pubsub.go:50-143 | for every history and every subscriber in it: everything up to the first video tag, in its place the cached sequence header and key frame, then everything until it is closed; timestamps shifted |
| `Relay.DueMeans` | go-rtmp-master/example/server_relay_demo/pubsub.go:71-108 | what is due, on the tags alone: in the place of the first video tag heard the last sequence header and then the last key frame published by then |
| `Relay.SubscriberGets` | go-rtmp-master/example/server_relay_demo/pubsub.go:50-143 | what every subscriber of every history gets, on the published tags and their timestamps alone: from the first timestamp that is not 0 on, that is subtracted from each, modulo 2^32 |
| `Relay.ShiftKeepsDifferences` | go-rtmp-master/example/server_relay_demo/pubsub.go:122-133 | the shift starts at 0 and keeps differences modulo 2^32 |
| `Relay.CloneView` | go-rtmp-master/example/server_relay_demo/pubsub.go:145-171 | a fresh tag with the same content |
| `Relay.Sub.Receive` | go-rtmp-master/example/server_relay_demo/pubsub.go:122-133 | shifts and delivers, unless closed |
| `Relay.Sub.Offer` | go-rtmp-master/example/server_relay_demo/pubsub.go:89-102 | one subscriber's part of a publish; the tag and the caches stay as they are |
| `Relay.Pubsub.Publish` | go-rtmp-master/example/server_relay_demo/pubsub.go:71-108 | the loop over the subscribers is the step Publish, and neither the published nor a cached tag is altered by delivery |
| `Relay.Pubsub.Subscribe` | go-rtmp-master/example/server_relay_demo/pubsub.go:50-60 | adds a newcomer |
| `Relay.Pubsub.Unsubscribe` | go-rtmp-master/example/server_relay_demo/pubsub.go:135-143 | closes that subscriber |
| `Relay.Pubsub.Deregister` | go-rtmp-master/example/server_relay_demo/pubsub.go:29-38 | closes all |

## What the chunk-layer results ask of the caller

Three conditions, none of which the code checks:

- `Lossless.FreshPeer`: the peer has read nothing yet, its chunk size is the one the writer starts with, and its limit
  of chunk streams is at least the writer's.
- `Lossless.Transmittable` of every Write: a chunk stream whose headers the connection separates from what follows (ids
  2 to 319, or larger ones if nothing is over-read), a message of 1 to 0xFFFFFF bytes that the peer's message decoder
  takes, and, if it is a SetChunkSize or WinAckSize, on message stream 0 and with a value that the peer is configured to
  accept. A message of these two kinds on a message stream that the peer lacks is ignored or ends the connection
  (conn.go:174-189).
- `Lossless.Transmittable` of every chunk: the writer's chunk size and the one last announced cut the same piece. It
  can fail only between a change of the size and the sending of its announcement. `Switching.SafeStep` is what to check
  so that it does not: at the change, that of everyone in line the new size and the one announced by then cut the same
  piece next; and until the announcement is in line, the same of everyone who joins it, by a Write, that of the
  announcement included, or by Run, that queues a writer again. `Switching.SizesSafe` is enough if the caller sees to it
  that nothing comes between the change and the queueing of its announcement, which the code does not. Once the
  announcement is in line there is nothing to check (`Settling.SettlingRun`).

Without these the code does fail: see the differences above. `Write` itself accepts any chunk stream id; the scheduler's
loop ends on the first one that has no encoding (`WriteSide.WriteSide.RunTurn`). That no timestamp drifts is *not* among
the conditions, it is one side of the if-and-only-if.

## Left out

- Sockets, buffering and flushing, dialling, contexts and deadlines, logging, HTTP calls and the handshake: they only move bytes. A `Write` that waits for a busy writer is modelled by its timeout; those that wait for a place in the queue go on in any order.
- Goroutine interleavings inside a `Write` or inside a turn of `Run` beyond the steps Acquire, Enqueue, Take, Emit and Requeue; data races on shared fields.
- Shutdown and failed encodes (`waitWriters`, `forceCloseWriters`, a writer whose message failed to encode and that stays busy, the state of the writing half after Run has ended).
- The writing of acknowledgements: the numbers to acknowledge are recorded, their delivery is an ordinary `Write`.
- AMF bodies, FLV tags and JSON envelopes: message payloads are opaque bytes; what the decoders make of a command or data message, a body, an unknown body or an error, is a parameter of `Service` and `ReadSide` and given in `Server`. A callback that itself returns an unknown-body error counts as any other error.
- The client side of a connection and its transactions. On the server no transaction is ever created, so a `_result` or `_error` command always fails.
- `StreamControlStateConfig.normalize` and the other configuration defaults: the configured values are parameters.
- Reader fields that only mirror the last chunk's headers, and the bytes that a decoder takes from a completed reader's buffer before the next chunk clears it.
- Masks and shifts are written as divisions and remainders.
- Replies to heartbeats and the handling of frame payloads in the messaging client; its Swift counterpart.
- Relay service registry, viewer counts, playlists, the dashboard and scripts.
- DecodeFrom: the data and command messages of the cited decoder, whose bodies are AMF, come out as an error.
- UnsafeStepMisreads: not for a step during a turn that leaves the queue full; the scheduler may then block on it instead, if more than 64 chunk streams are allowed.
- UnsafeSwitchMisreads: the same.
- ReadSide.ReadSide.RunHandleMessageLoop: for a connection whose message streams exist and whose handlers refuse nothing but what the decoder and the peer's state refuse; the server's loop with its streams and handlers is `Service.ServerSession.RunHandleMessageLoop`.
- ReadSide.ReadSide.HandleMessageLoop: the same.
- ClientIsServed: for messages that set the chunk size or the window only on live streams; on others the server ignores them or ends the connection.
- ServeConnection: `Streamer.Done` ending the loop between two messages, and the OnServe callback.
- WithinThroughout: for windows from -1; a window below -1 makes the threshold, converted to uint32, so large that hardly anything is acknowledged.
