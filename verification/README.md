# The RTMP chunk layer, modelled and proved

This project models the chunk layer of the `rtmp` library: the header codec, the writer that
cuts messages into fragments, the reader that puts an arbitrary interleaving of fragments
together again, the normaliser that decompresses headers, the stream table and the goroutines
that route chunks to multi streams, the control messages, and the handshake. The standard
behind the code is Adobe's RTMP specification 1.0, sections 5.2 (handshake), 5.3 (chunking) and
5.4 (control messages).

Each component comes twice. A value model (datatypes and functions) carries the theorems. The
classes beside it have the source's own fields and update them in place, and their contracts
tie the new state to the value model: `HeaderRef`, `DefaultNormalizer`, `Builder`,
`DefaultReader`, `DefaultWriter`, `DefaultParser`, `AckPacket`, `Handshaker`, `Parser` and
`MultiStream`. Headers are shared by reference, as in the source; the reader's invariant keeps
the value that every header it ever stored or sent has from then on.

| file | what it holds |
|---|---|
| `bytes.dfy` | fixed-width integers, `io.Reader` and `io.Writer` ends |
| `wire.dfy`, `header.dfy` | the chunk header: values and codec, the object |
| `layout.dfy` | the chunk header byte by byte |
| `normalizer.dfy` | header decompression, and the search through the history that it refines |
| `builder.dfy` | reassembly of one message |
| `reader.dfy`, `reader_runs.dfy`, `default_reader.dfy` | one iteration of the receive loop, whole runs, the object |
| `writer.dfy` | fragmentation |
| `multiplexing.dfy` | arbitrary schedules of fragments, and the demultiplexing theorem |
| `lockstep.dfy` | writer against reader while the chunk size changes |
| `standard.dfy` | basic header and extended timestamp of the standard, against those of the code |
| `control.dfy`, `control_wire.dfy` | control messages, alone and across all layers |
| `streams.dfy`, `routing.dfy` | the stream table; fan-out and fan-in as a step relation |
| `closing.dfy` | closing a multi stream: safety, its exact limits, and when it is still possible |
| `end_to_end.dfy` | from the wire to the receiver of a multi stream |
| `handshake.dfy` | the three sequences and the loop over them |

The main results are these.

- **The reader has a specification without state.** For every byte string, the events the
  reader goes through are the only ones that tile the string from its start and of which each
  is the right one after those before it: its payload has the length that the missing bytes and
  the read size in force allow, and it completes exactly the message that began with the first
  fragment on its stream since the last completed message there, under the header that a search
  through the headers read so far finds (`ReaderRuns.ReaderSpecification`).
- **Demultiplexing.** Whatever the interleaving of the fragments, every stream gets exactly its
  messages, in order (`Multiplexing.Demultiplexing`), also at the receiver of a multi stream and
  under any interleaving of the goroutines (`EndToEnd.WireToMultiStream`).
- **Lockstep.** Over any run of writes, with complete or compressed headers, and of changes of
  the chunk size, the reader delivers what was written, and both sides have the same size
  (`Lockstep.WriterReaderLockstep`). The continuation headers that the writer puts in between
  change the meaning of no compressed header (`Lockstep.RepeatsMeanNothing`).
- **Closing.** A careful caller never sees a panic of the routing goroutines
  (`Closing.SafeClose`), the actions after which one is possible are exactly known
  (`Closing.PanicsIff`), and so are the states from which a multi stream can still be closed
  (`Closing.CanCloseIff`).

What these results say about bytes, numbers and the steps of a caller is fixed by statements
whose conclusions are in plain arithmetic or about the list of actions, and name no constant of
the model: the header
(`Layout.HeaderLayout`, `Layout.HeaderSpelling`), type id 1 (`ReaderRuns.TypeOneResizes`), the
control messages (`Controls.ChunkLayout`, `Controls.ParseLayout`), the handshake
(`Handshakes.HandshakeCharacterised`), and which runs the theorems are about
(`Multiplexing.ScheduleGrowsIff`, `Lockstep.LegalGrowsIff`, `Routing.RequestsPossibleIff`).

Where the code does not do what its documentation promises, the model follows the code, and
says exactly when the promise is kept.

- The library calls itself compliant. Its three-byte basic header has the marker 63 and a
  big-endian id, which is not the form of section 5.3.1.1. Code and standard write the same
  header if and only if the id is below 320, and the code understands the standard's header if
  and only if the id is below 320 and not 63 (`Standard.BasicHeaderIsStandardIff`,
  `Standard.ReadersAgreeIff`).
- Comments promise an extended timestamp on type 3 chunks (chunk/extended_timestamp.go:13-14),
  as section 5.3.1.3 does. It is neither written nor read there. A message whose continuation
  headers repeat it gets through if and only if it has no continuation header or no extended
  timestamp (`Standard.RepeatedTimestampIff`), and `DefaultWriter` writes that form if and only
  if there is no continuation header, or no extended timestamp and an id of at most 62
  (`Standard.WriterRepeatsIff`).
- `DefaultWriter` separates fragments by a one-byte header that keeps six bits of the chunk
  stream id. Messages survive that if and only if one fragment suffices or the id is at most 62
  (`Lockstep.WriterRoundTripIff`).
- `DefaultWriter` comes to an end if and only if the write size is positive or there is no
  payload (`Writers.LoopEndsIff`).
- A Set Chunk Size message makes the reader panic if and only if it is shorter than four bytes
  (chunk/default_reader.go:113), and nothing else does (`ReaderRuns.PanicsIffShortMessage`,
  `ReaderRuns.ShortResizePanics`). The model keeps the panic as an outcome.
- `MultiStream` does not defend itself against its callers (`Closing.DangersExist`,
  `Closing.ReuseExists`). Somebody who has called `AwaitClose` may still append streams for as
  long as another appended stream is not done. Once the last one is done, an `Append` before the
  wait has returned can make `sync.WaitGroup` panic, even if the parser has stopped. After the wait
  has returned, an appended stream can find the channel closed, unless the parser has stopped.
  A second `AwaitClose` can close a closed channel, unless its wait cannot return. After a
  careful run nothing else that is done to a multi stream can lead to a panic
  (`Closing.PanicsIff`).

Header types 1 and 2 inherit from the last header on any chunk stream, as chunk/normalizer.go:16-17
documents; type 2 does not inherit the type id (chunk/default_normalizer.go:81-92).

## Model

| member | source | states |
|---|---|---|
| Bytes.Uint32Pads | spec/binary.go:16-18 | reading a short big-endian string is reading it padded with zeros on the left |
| Bytes.Uint24RoundTrip | spec/binary.go:39-47 | the 24-bit writer is undone by the big-endian reader for every value that fits |
| Bytes.Uint32RoundTrip | spec/binary.go:20-22 | the 32-bit writers, big- and little-endian, are undone by their readers |
| Bytes.ReadOrder | spec/binary.go:12-22 | what two, three and four bytes weigh, big-endian and little-endian |
| Bytes.WriteOrder | spec/binary.go:32-61 | the bytes of a number that weighs so much, in either order |
| Bytes.Source.ReadBytes | spec/bytes.go:19-24 | exactly the bytes asked for are consumed, or an error is returned and the source is drained |
| Wire.HeaderRoundTrip | chunk/header.go:20-59 | for all four formats and all id widths, reading a written canonical header followed by anything gives the header back and leaves exactly what followed |
| Wire.RoundTripIffCanonical | chunk/message_header.go:48-112 | the canonical headers are exactly those that round trip |
| Wire.ReadIsCanonical | chunk/header.go:20-37 | whatever the bytes, a header that was read is canonical, took 1 to 18 bytes off the front, and never has an unknown format |
| Wire.RereadIffShortest | chunk/basic_header.go:25-82 | re-encoding a decoded header restores the bytes if and only if no small id was spelt in the three-byte form |
| Wire.BasicRoundTrip | chunk/basic_header.go:25-82 | ids 1 to 62 and 64 to 65599 survive in their one-, two- and three-byte forms |
| Wire.ReadHeaderExtends | chunk/header.go:20-37 | a successful read does not depend on the bytes after the header |
| Layout.HeaderLayout | chunk/header.go:20-37 | for every string of bytes, which byte belongs to which field of which format and what it weighs, when four more follow, and when there are too few |
| Layout.HeaderSpelling | chunk/header.go:43-59 | for every header, the byte at each place |
| Headers.HeaderRef.Read | chunk/header.go:20-37 | the object ends up with the decoded fields and the source at the byte after the header |
| Headers.HeaderRef.Write | chunk/header.go:43-59 | the writer receives exactly the encoding of the object's fields |
| Normalizers.NormalizerRefinesSearch | chunk/default_normalizer.go:29-44 | for every history, the two memories hold what a search through the history finds, and completing the next header with them is that search |
| Normalizers.TypeThreeRepeatsMostRecent | chunk/default_normalizer.go:96-102 | a type 3 header gets the completed message header of the most recent header of another type on its chunk stream |
| Normalizers.OriginIsMostRecent | chunk/default_normalizer.go:63-77 | what the header table remembers of a stream is the most recent header not of type 3, or the first of all |
| Normalizers.TypesOneAndTwoFollowLast | chunk/default_normalizer.go:81-92 | types 1 and 2 take the message stream id, and type 2 also the length and nothing else, from the completed header before on whatever stream |
| Normalizers.DefaultNormalizer.Normalize | chunk/default_normalizer.go:29-44 | the header is completed in place and stored under its stream, and no other header object is written to; entries that already referred to the header change with it |
| Builders.Builder.Append | chunk/builder.go:80-92 | the slice is appended and counted off; too many bytes are reported |
| Builders.Builder.Read | chunk/builder.go:66-74 | exactly n bytes go from the source into the builder, or nothing does |
| Builders.Builder.Build | chunk/builder.go:51-61 | the chunk has the first header and the payloads in order |
| Readers.RunKeepsValid | chunk/default_reader.go:74-106 | over all runs on arbitrary bytes, bytes held and bytes missing of every message under construction add up to its announced length, every completed chunk has that length, and type 1 is never delivered |
| Readers.NeverTooManyBytes | chunk/builder.go:87-89 | the reader never sees ErrTooManyBytes, whatever its state |
| ReaderRuns.ReaderSpecification | chunk/default_reader.go:74-106 | for every byte string, the runs of the reader are exactly the sequences of events that tile it and that are each right after those before |
| ReaderRuns.StateFromEvents | chunk/default_reader.go:108-135 | between iterations memories, table and read size are determined by the events so far; the read size is the one the last Set Chunk Size message carried |
| ReaderRuns.TypeOneResizes | chunk/default_reader.go:95-116 | over every run from any state, a completed message is consumed if and only if its type id is 1, none of those is delivered, and the read size changes with those only, to the number their first four bytes spell |
| ReaderRuns.OpeningIsFirstFragment | chunk/default_reader.go:118-135 | a message in progress began with the first event on its stream after the last one that completed a message there; no message is in progress exactly when every event on the stream was followed up by a completion |
| ReaderRuns.PrefixSafety | chunk/default_reader.go:74-106 | what a prefix of the stream yields is a prefix of what the stream yields |
| ReaderRuns.RunExtends | chunk/default_reader.go:74-106 | a run on a longer input goes on from where the run on the shorter one stopped |
| ReaderRuns.RunComposes | chunk/default_reader.go:74-106 | decoding composes at every fragment boundary |
| ReaderRuns.RunTiles | chunk/default_reader.go:80-93 | headers and payloads follow each other in the input without gap or overlap |
| ReaderRuns.Conservation | chunk/default_reader.go:87-103 | every consumed byte is a header byte, payload of a completed message, or waits in a builder |
| ReaderRuns.PanicsIffShortResize | chunk/default_reader.go:108-116 | in one iteration, a valid reader panics exactly when it completes a type 1 message shorter than four bytes |
| ReaderRuns.PanicsIffShortMessage | chunk/default_reader.go:87-116 | for every input, a run ends in a panic if and only if what follows its events completes a type 1 message shorter than four bytes, by the events and the input alone |
| ReaderRuns.ShortResizePanics | chunk/default_reader.go:108-116 | inputs that make a new reader panic, on every stream and for every such length |
| ReaderRuns.EmittedAreShort | chunk/message_header.go:56-70 | no delivered chunk announces more than 24 bits of length |
| DefaultReaders.DefaultReader.NextHeader | chunk/default_reader.go:80-85 | the next header is read and completed, and all headers known before keep their values |
| DefaultReaders.DefaultReader.TakePayload | chunk/default_reader.go:87-103 | table, channel, read size and source change as the value model says |
| DefaultReaders.DefaultReader.Recv | chunk/default_reader.go:74-106 | the object sends exactly the chunks of the run, in order, and ends in the state of the run with the source drained |
| DefaultReaders.DrainedReaderIdles | chunk/default_reader.go:81-84 | at the end of the input an iteration changes nothing, so stopping there loses nothing |
| Writers.Fragmentation | chunk/default_writer.go:42-56 | the output is the data cut into full pieces and one last non-empty piece, joined by separators; its length is that of the data plus one separator for every piece but the first, and the number of pieces is the quotient rounded up |
| Writers.WriterOutput | chunk/default_writer.go:42-56 | for every stream id, the output is the header and the pieces, with the byte 0xC0 plus the low six bits of the id between any two, and so many bytes long |
| Writers.LoopEndsIff | chunk/default_writer.go:47-50 | the loop uses up the payload after some number of iterations if and only if the write size is positive or the payload empty |
| Writers.DefaultWriter.Write | chunk/default_writer.go:42-63 | header and fragments are appended to the destination |
| Multiplexing.FrameIsStep | chunk/default_reader.go:80-103 | one fragment of any schedule, whatever follows it, is one iteration of the reader |
| Multiplexing.Demultiplexing | chunk/default_reader.go:74-106 | for every schedule, in which messages may begin with compressed headers and the chunk size may change, each stream delivers exactly its messages in order, except for the one still in flight |
| Multiplexing.ScheduleGrowsIff | chunk/default_reader.go:74-106 | which interleavings that is about: after any of them, a message can begin on every stream whose messages are completed, under any header that can be written, and be gone on with on every other stream |
| Multiplexing.DemultiplexingOfCompleteHeaders | chunk/default_reader.go:74-106 | with type 0 first headers and all messages finished, each stream delivers the very chunks put on it |
| Lockstep.WriterIsSchedule | chunk/default_writer.go:42-56 | the writer's bytes for one chunk are a schedule that completes what the chunk means, and nothing else |
| Lockstep.RepeatsMeanNothing | chunk/default_normalizer.go:81-102 | continuation headers leave the meaning of every header that follows as it was |
| Lockstep.WriterReaderLockstep | chunk/default_writer.go:34-63 | over any run of writes and size changes the reader delivers exactly the chunks sent, compressed headers being completed from the headers written before, ends with the writer's size and with no message half-read |
| Lockstep.LegalGrowsIff | chunk/default_writer.go:34-63 | which runs that is about: after any of them, the size can be changed to any but zero, and a chunk sent whose header fits its data, if one fragment suffices or the id is at most 62 |
| Lockstep.CompleteSends | chunk/default_writer.go:42-63 | with type 0 headers that means the very chunks that were sent |
| Lockstep.WriterRoundTripIff | chunk/default_writer.go:51-55 | a header of a given length gets through with every payload if and only if one fragment suffices or the stream id is at most 62 |
| Standard.BasicHeaderIsStandardIff | chunk/basic_header.go:25-82 | the code writes the standard's header, and is understood by a standard reader, if and only if the id is below 320; it understands the standard's header if and only if the id is below 320 and not 63 |
| Standard.ReadersAgreeIff | chunk/basic_header.go:25-51 | on any input the code and a standard reader agree if and only if the first byte is neither's marker of the three-byte form |
| Standard.RepeatedTimestampIff | chunk/default_reader.go:80-85 | fragments whose headers repeat the extended timestamp get through with every payload if and only if there is only one or there is no such timestamp |
| Standard.WriterRepeatsIff | chunk/default_writer.go:51-55 | the writer's bytes are such fragments if and only if there is only one, or there is no such timestamp and the stream id is at most 62 |
| Controls.ParseAfterChunk | control/default_parser.go:45-59 | parsing the chunk of a control message gives it back, the chunk size cut to 24 bits; gives it back unchanged if and only if no such cut was made |
| Controls.ChunkAfterParse | control/default_chunker.go:35-54 | a parsed control message re-encodes to the start of the data it was parsed from, if and only if it is not a chunk size beyond 24 bits |
| Controls.ChunkControl | control/default_chunker.go:35-54 | chunk stream 2, message stream 0, the type id and the encoded body with its length |
| Controls.ChunkLayout | control/default_chunker.go:9-54 | for every control message, chunk stream 2, message stream 0, time 0, and by its kind the type id from 1 to 6 and the bytes of its body |
| Controls.Control.Write | control/control_set_chunk_size.go:34-48 | the body is appended to the writer, the chunk size cut to 24 bits |
| Controls.ReadControl | control/control_event.go:36-52 | each kind reads its body from the source, the event to the end and the others their width, or fails for want of bytes with the source drained |
| Controls.DefaultParser.constructor | control/default_parser.go:32-42 | the table maps exactly the six type ids, each to its kind |
| Controls.DefaultParser.Parse | control/default_parser.go:45-59 | unknown type ids and short bodies are errors, anything else is the control read from the data |
| Controls.ParseLayout | control/default_parser.go:45-59 | for every type id and all data, the kind, what its fields weigh, and when it fails |
| ControlWire.ControlEndToEnd | control/stream.go:50-61 | through chunker, writer, reader and parser a control message arrives equal at every write size, if and only if its body is shorter than 2^24 bytes |
| ControlWire.SetChunkSizeEndToEnd | chunk/default_reader.go:95-116 | a Set Chunk Size message is not delivered and leaves the reader with its size, cut to 24 bits |
| Streams.Parser.GetStream | chunk/parser.go:77-113 | ids keep their stream object; a single request always succeeds; a multiple one fails without effect exactly when an id exists; otherwise each source is the stream of the table for its id, unless the id is repeated later in the request, which orphans it |
| Streams.Parser.GetStreams | chunk/parser.go:77-113 | over any sequence of requests, every stream ever given out for an id stays the one in the table, and every multi stream goes on drawing from the table |
| Streams.FeedsAllIffDistinct | chunk/parser.go:105-110 | the sources of a multi stream are all streams of the table if and only if its ids are distinct |
| Streams.MultiStream.Append | chunk/multi_stream.go:33-47 | sources and wait-group count grow by the appended streams |
| Routing.RoutingIsSafe | chunk/multi_stream.go:33-47 | in every reachable state no chunk is lost, duplicated or reordered on any stream, and the wait group counts the live forwarders, with nobody asleep on a count of zero |
| Routing.FanIn | chunk/parser.go:136-145 | what was emitted on a stream is what came out of its multi stream and then at most one chunk in the forwarder and one in the parser |
| Routing.RequestsPossibleIff | chunk/parser.go:77-113 | from every reachable state, by the actions before it: several streams can be requested at once if and only if none was requested or received on before; when a stream can be appended and AwaitClose be called; one stream can always be requested |
| Routing.ParserStepsIff | chunk/parser.go:136-161 | from every reachable state, the parser receives and stops if and only if it runs and is idle, and hands its chunk on if and only if the forwarder is free or the stream was never given away |
| Routing.ForwarderStepsIff | chunk/multi_stream.go:36-44 | from every reachable state, a forwarder sends if and only if it holds a chunk and the channel is open, and ends if and only if it holds none and its stream is closed |
| Routing.RequestedIsDelivered | chunk/parser.go:96-145 | whatever was done before on other streams, after a request for several a chunk on any of them can be brought to the receiver of the new multi stream |
| Routing.DeliveryPossible | chunk/parser.go:136-145 | while the parser runs and is idle, a chunk on a stream of an open multi stream can be brought to its receiver, after the one in the forwarder |
| Routing.DirectDeliveryPossible | chunk/parser.go:136-145 | and a chunk on a stream that was not given away can be brought to the receiver of the stream |
| Routing.NothingToAwait | chunk/multi_stream.go:51-55 | with no live forwarder, AwaitClose can close the channel at once |
| Routing.ClosedAfter | chunk/parser.go:155-158 | a stream is closed if and only if it existed when the parser stopped |
| Closing.SafeClose | chunk/multi_stream.go:33-55 | if none of the dangerous actions was taken, nobody sends on a closed channel, closes one, or reuses the wait group too early; when the channel is closed, all that was emitted on its streams has come out; and if nothing was appended once the count had been zero since AwaitClose, all its streams are closed and its forwarders gone |
| Closing.PanicsIff | chunk/multi_stream.go:33-55 | after such a run, whatever is done next, some interleaving can panic if and only if that was an Append between the waking of a caller and its return, an Append after the wait with the parser running, or a second AwaitClose whose wait can return |
| Closing.CanCloseIff | chunk/multi_stream.go:33-55 | after such a run, the channel can still be closed if and only if a wait for it has returned, or it is not the case that the parser has stopped and a stream it draws from was requested only after that |
| Closing.DangersExist | chunk/multi_stream.go:33-55 | a run from the start after which an Append finds the wait over, and AwaitClose can be called again |
| Closing.ReuseExists | chunk/multi_stream.go:34-36 | a run from the start after which an Append reuses the wait group before the wait has returned, with the parser stopped |
| EndToEnd.WireToMultiStream | chunk/parser.go:136-161 | from any schedule on the wire and any interleaving of the goroutines, a multi stream's receiver sees for each stream a beginning of its messages, and in the end all finished ones |
| Handshakes.HandshakeCharacterised | handshake/handshaker.go:57-69 | for every input, the failure, what was written and what is left unread: no version, a version other than 3, a short C1, a short C2, a C2 that does not echo the challenge, or success, which consumes 3073 bytes and writes S0, S1, S2, S2 repeating the time and payload of C1 |
| Handshakes.FailureWritesPrefix | handshake/handshaker.go:57-69 | whatever the input and however the run ends, it has written a prefix of the full reply: nothing if the version is missing or wrong, S0 until C1 is complete, everything after that |
| Handshakes.PacketRoundTrip | handshake/packet_ack.go:30-64 | an encoded packet has 1536 bytes and decodes to itself |
| Handshakes.PacketLayout | handshake/packet_ack.go:30-44 | which bytes of a packet are its times, what they weigh, and which are its 1528 payload bytes |
| Handshakes.AckPacket.Read | handshake/packet_ack.go:30-44 | the fields and the payload array are filled in place from exactly 1536 bytes |
| Handshakes.Handshaker.ReadAndCompare | handshake/server_ack_sequence.go:37-48 | C2 is consumed and accepted exactly when its payload is that of S1 |
| Handshakes.Handshaker.WriteAcks | handshake/client_ack_sequence.go:50-65 | S1 and then the echo of C1 are written |
| Handshakes.Handshaker.ReadVersion | handshake/version_sequence.go:34-45 | one byte is consumed and must be the supported version |
| Handshakes.Handshaker.Handshake | handshake/handshaker.go:57-69 | from any sequence on, the loop ends, and failure, output and unread input are those of the value model |

## Left out

- DefaultReaders.DefaultReader.Recv: stops at the first read error, where the source retries for ever; the closer channel and the blocking of the unbuffered channels are not in it.
- Writers.DefaultWriter.Write: a write size of zero with something to write is excluded, because the source's loop does not end then; the destination never fails.
- Streams.MultiStream.Append: starting the goroutine is part of the routing model only.
- Control messages are values, not objects that Read fills in; the Control interface and its reflection are a datatype and a table of kinds.
- Handshake sequences are a datatype, since they differ only behind an interface; the random S1 payload is a parameter.
- Read errors other than running out of bytes, short reads of an io.Reader, and failing writers.
- Mutexes: reader, writer, normaliser and builder are single-threaded here; only the parser and the forwarders are interleaved.
- Go's int is taken to have 64 bits; where it has 32, a Set Chunk Size of 2^31 or more would make the read size negative. Otherwise only a direct call could set a negative read or write size, and those are left out.
- Routing: one receiver per stream before it is appended and none after; a stream of the table is appended once, and a multi stream is not appended to another; an Append of several streams is several appends in a row; streams of a multiple request have distinct ids; whether a goroutine that can go on is ever scheduled, and so whether Close comes to pass; a second Parser.Close, whose send on the closed closer panics.
- NoopNormalizer: the reader is modelled with the default normaliser.
- Sockets and wiring (server, client, rtmp.go), the AMF commands and data frames, and the gate and manager of the cmd package.
