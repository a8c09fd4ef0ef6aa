# RCT protocol: frames, proxy, clients

A Dafny model of the RCT Power protocol code of this repository, with proofs:

- the frame checksum, as the byte loop that computes it, as a 16-bit shift register, and as the
  remainder of long division by x^16 + x^12 + x^5 + 1;
- `make_frame` and the incremental parser `ReceiveFrame`, byte for byte;
- the exchange with the device that the proxy and both clients share: dial, write, read until a new
  parser completes;
- the proxy: the methods that serve one downstream client, and the whole proxy as a state machine
  over any number of client tasks, one lock, one shared connection, a device and a failing network;
- the async and the sync client with their retries and the write that is verified by reading back;
- the value codec.

`dafny verify dfyconfig.toml` checks everything.

## How it is laid out

| file | what it holds |
|---|---|
| `Bytes.dfy`, `Bits.dfy` | bytes, big-endian integers, bit strings |
| `Crc.dfy`, `CrcTheory.dfy` | `crc16` and what it detects |
| `Frame.dfy`, `Receive.dfy` | command bytes, `make_frame`, and `ReceiveFrame` |
| `ParserTheory.dfy`, `FrameTheory.dfy`, `ErrorDetection.dfy` | every reachable parser state, printer and parser, damaged frames |
| `WireFormat.dfy` | the wire format in numbers |
| `Session.dfy` | one downstream client's bytes: what is junk, forwarded, dropped |
| `Network.dfy`, `Exchanges.dfy` | the device, its connections, one exchange |
| `PromptAnswers.dfy` | exchanges whose answer comes |
| `Multiplexer.dfy`, `Proxy.dfy` | the proxy's methods; the proxy as a step system over all runs |
| `TaskRuns.dfy`, `Progress.dfy` | the methods as runs of the step system; what the proxy can always do, with any number of clients |
| `Codec.dfy`, `CodecMeaning.dfy` | values; what encoding and decoding mean, in numbers |
| `Clients.dfy` | the two clients |
| `Completions.dfy`, `LateAnswers.dfy` | what a begun frame can become; late answers and the sync client |
| `VerifiedWrites.dfy` | how attempts end, error by error; verified writes whose WRITE is not answered |
| `EndToEnd.dfy` | results that span all layers |

Code that updates an object in place is a class or a loop here too (`ComputeCrc16`, `MakeFrame`,
`ReceiveFrame`, `Line`, `ServeClient`, `AsyncClient`, `Client`). Each such method is proved equal to a
function of the old state, and the properties are proved of that function. A byte is an integer below
256 and a bit string is a sequence of booleans, most significant bit first.

The outside world is an argument. Every operation on a socket takes the next entry of a script that
says which answers the device gives meanwhile and how the operation ends, so a statement about every
`World` is about every timing, loss and delay. In `Proxy` the interleaving is the list of events. The
device answers the requests of a connection in order, each at most once, with any bytes in which
nothing behind the first frame could start another (`Network.Safe`: junk without a start token may
follow). Pairing is proved for every such device. `Exchanges.SafeExactly` says what the condition means:
such answers, and no others, never leave a start token unread on a connection that is kept. A device
that puts a second frame into an answer is paired wrongly (`Exchanges.TrailingFrameMispairs`).

## Where the code differs from what it says

- A READ frame carries no payload but counts it in its length, so it is read back only if the length
  of the payload is a multiple of 256 (`FrameTheory.RoundTrip`). Lengths that do not fit their field
  are cut to its low bytes, as in a release build; a debug build panics instead.
- A frame that declares length 3 makes `consume` slice backwards and panic, on the byte behind its
  header, and nothing else does (`ParserTheory.PanicsExactly`, `FrameTheory.ThreePanics`). The panic
  unwinds through the proxy's `exchange` past the line that drops the connection, so the connection
  is kept; nothing is outstanding on it (`Proxy.QuietWhenFree`).
- An odd-length checksum input is padded with a zero byte, so for such frames there is a pair of
  changed bytes across the edge of the checksum that goes unnoticed. All bursts of up to 16 bits are
  noticed exactly if the frame's body has even length (`ErrorDetection.AllBurstsRejectedIffEven`).
- A command never has the plant bit once decoded, so the parser's plant branches are never taken
  (`Frame.CommandBytes`) and a PLANT frame is read as a standard one (`FrameTheory.PlantReadsAsStandard`).
- An ENUM is encoded in one byte and decoded from four (`Codec.EnumTooShort`).
- The sync client says that a failed exchange leads to a reconnect, but only a value that cannot be
  decoded does (`LateAnswers.SyncKeepsConnection`). A call is answered by its own answer if no earlier
  call on the connection held ended in a timeout, an I/O error or a bad frame
  (`LateAnswers.SyncAnswersOwn`). After an answer that did not come, some run makes the next call return
  the old answer, whatever that is (`LateAnswers.LostAnswerReturns`). Which connections can be trusted
  is decided exactly by their unread bytes and outstanding requests (`LateAnswers.TrustedExactly`). So a
  verified write can be confirmed by a READ that is never answered (`LateAnswers.SyncAcceptsLate`,
  `EndToEnd.SyncConfirmsUnanswered`).
- The clients do not report the same errors: an expired dial or write is a timeout to the async client
  and an I/O error to the sync one, an expired read is a timeout to both (`VerifiedWrites.HowItEnds`). So
  a verified write of the sync client gives up at once when its write expires
  (`VerifiedWrites.VerifiedErrors`).
- A verified write reports the device's direct answer whatever value it holds
  (`LateAnswers.DirectAnswerUnchecked`); only the read-back is compared (`Clients.NoLateAnswer`), and
  then by an equality that no NaN satisfies (`Clients.UnreadableNotVerified`).

## Model

| member | source | states |
|---|---|---|
| Crc.ComputeCrc16 | src/codec.rs:14-32 | the nested loops over a 32-bit register return the 16-bit shift-register checksum of the padded input |
| Crc.TurnShifts | src/codec.rs:24-29 | one inner turn leaves no bit above bit 15 and is one shift of the register by the polynomial |
| Crc.LoopAbsorbs | src/codec.rs:22-30 | over any input the loop's register stays below 2^16 and equals the shift register fed bit by bit |
| CrcTheory.ShiftInjective | src/codec.rs:24-29 | the step per bit is injective on 16-bit registers |
| CrcTheory.BurstChangesRegister | src/codec.rs:22-30 | messages of any equal length that differ in one window of at most 16 bits leave different registers |
| CrcTheory.ParityOfCrc16 | src/codec.rs:14-32 | the checksum has the bit parity of the input |
| CrcTheory.CrcAffine | src/codec.rs:14-32 | for equal lengths the checksum of a sum is the sum of the checksums and that of zeros |
| CrcTheory.CrcIsRemainder | src/codec.rs:14-32 | the checksum is the remainder of schoolbook long division of the padded message, preset added, by the generator |
| CrcTheory.DivisionIdentity | src/codec.rs:24-29 | long division divides: quotient times generator, plus the remainder, is the dividend |
| Frame.CommandBytes | src/types.rs:35-60 | no command has the plant bit; a byte names a command exactly if it is the command's byte, with or without that bit |
| Frame.MakeFrame | src/frame.rs:18-54 | the printed frame: start token, then command, length field, ids, payload and checksum, escaped |
| Frame.Escape | src/frame.rs:45-53 | the last loop puts the escape token before exactly the two special bytes |
| Receive.ReceiveFrame.constructor | src/frame.rs:79-97 | the state of a new parser |
| Receive.ReceiveFrame.ReadCommand | src/frame.rs:164-178 | the command byte: unknown and EXTENSION are errors; plant bit and long commands lengthen the header |
| Receive.ReceiveFrame.ReadHeader | src/frame.rs:179-210 | the complete header fixes the frame's length and its id |
| Receive.ReceiveFrame.FinishFrame | src/frame.rs:211-226 | the last byte: checksum compared, data cut out, or the panic when the data would end before it starts |
| Receive.ReceiveFrame.PushByte | src/frame.rs:160-229 | an unescaped byte takes the first branch that applies |
| Receive.ReceiveFrame.ConsumeByte | src/frame.rs:136-230 | one turn of the loop: counting, sync, raw bytes, unescaping |
| Receive.ReceiveFrame.Consume | src/frame.rs:134-232 | a slice is fed up to the first verdict, and the result or error reports the bytes taken |
| WireFormat.PrintedInNumbers | src/frame.rs:18-54 | a printed frame is byte 43, then the body with an inserted 45 before each 43 and 45 and nowhere else; the body is the command number, the length (two bytes for commands 3 and 6, one for the others), the address of a PLANT frame, the id, the payload unless the command is 1, and the checksum, each byte by its number |
| WireFormat.CommandsInNumbers | src/types.rs:41-55 | the bytes that name a command are its number and its number plus 64 |
| WireFormat.BytesInNumbers | src/frame.rs:140-162 | which bytes the parser keeps: none before a 43, and an unescaped 45 only marks the next byte |
| WireFormat.SkippedWithout43 | src/frame.rs:140-148 | a stream without byte 43 is skipped whole |
| ParserTheory.CountsToDecidingByte | src/frame.rs:134-232 | the count that `consume` reports, with a frame and with each error, is that of the bytes up to the deciding one, and all of them if none decides |
| ParserTheory.FeedAppend | src/frame.rs:134-232 | feeding a, then b, is feeding a ++ b, up to the first verdict |
| ParserTheory.StepAdvances | src/frame.rs:136-230 | a step keeps a waiting parser equal to what its raw bytes alone determine, and its verdict is that on the unescaped bytes |
| ParserTheory.FeedReaches | src/frame.rs:134-232 | after any input: raw is the segment from the start token on, buffer its unescaping, escaping the pending escape, lengths as declared |
| ParserTheory.FeedJudges | src/frame.rs:134-232 | the verdict on any input is the one on its unescaped bytes, and the first |
| ParserTheory.PanicsExactly | src/frame.rs:211-218 | on every stream `consume` panics exactly if the first frame declares a length of 3 and the byte behind its header has arrived |
| ParserTheory.ClosedFields | src/frame.rs:211-226 | the fields of a completed parser, read off its buffer |
| ParserTheory.Refeed | src/frame.rs:112-115 | the wire bytes alone lead a new parser to the same state and verdict |
| ParserTheory.FeedAfterJunk | src/frame.rs:140-148 | junk without a start token changes the count of consumed bytes and nothing else |
| ParserTheory.DecisionBound | src/frame.rs:150-229 | after a start token every stream is decided within 131089 bytes |
| FrameTheory.RoundTrip | src/frame.rs:18-54 | a printed frame completes on its last byte exactly if its payload fits, with the same command, id and data and the wire bytes as printed |
| FrameTheory.RoundTripAfterJunk | src/frame.rs:134-232 | the same behind any junk without a start token |
| FrameTheory.PrefixFree | src/frame.rs:18-54 | no printed frame is the beginning of another, and equal frames come from equal inputs |
| FrameTheory.ThreePanics | src/frame.rs:211-218 | every body that declares a length of 3 makes the parser panic, on the byte behind its header |
| FrameTheory.PlantReadsAsStandard | src/frame.rs:34-36 | a PLANT frame is read with its address as the id and its id in front of the data |
| FrameTheory.AcceptedIsFrame | src/frame.rs:134-232 | whatever is accepted is start token, command, length, id, data and the checksum of the middle |
| FrameTheory.Rebuilt | src/frame.rs:134-232 | printing the accepted fields gives a frame that is accepted with the same fields; it equals the wire bytes exactly if these have no needless escapes |
| ErrorDetection.DecidedByChecksum | src/frame.rs:211-226 | a body with its declared length is decided on its last byte, by its checksum alone |
| ErrorDetection.OddFlipsRejected | src/frame.rs:211-225 | any odd number of flipped bits in id, payload and checksum is rejected on the last byte |
| ErrorDetection.TwoBytesRejected | src/frame.rs:211-225 | any change of one or two neighbouring bytes in front of the checksum, or in it, is rejected on the last byte |
| ErrorDetection.AllBurstsRejectedIffEven | src/codec.rs:18-20 | all bursts of at most 16 bits are rejected exactly if the body has even length |
| ErrorDetection.ForgedIsIntact | src/codec.rs:18-20 | in every odd body one pair of byte changes keeps the checksum right |
| Session.ChunksDoNotMatter | src/proxy.rs:173-181 | however a stream is cut into reads, a session ends up the same |
| Session.Conservation | src/proxy.rs:180-213 | the bytes read are, in order, exactly junk, forwarded frames, dropped pieces and the pending rest; each piece is what it is called |
| Session.ForwardsExactly | src/proxy.rs:180-213 | a stream of frames, damaged frames and junk, in any chunks, yields exactly the frames, in order |
| Session.FatalExactly | src/frame.rs:211-218 | the pieces that end a session are exactly those that declare a length of 3 |
| Network.SafeWithJunk | src/proxy.rs:145-159 | a frame with bytes behind it is an answer the device may give exactly if these hold no start token |
| Network.PlayAllKeeps | src/proxy.rs:4-7 | no move of the device disturbs a quiet connection or what is known of an answer under way |
| Network.DrainedAwaits | src/proxy.rs:145-159 | reading on: the parser goes on, or its verdict is that on the whole answer and the connection is quiet |
| Exchanges.AwaitFrame | src/proxy.rs:142-160 | the read loop with its parser, for every script: answer, timeout, error or panic |
| Exchanges.Speak | src/proxy.rs:133-161 | write and read loop; a failed write may have reached the device |
| Exchanges.Line.Connect | src/proxy.rs:115-119 | a connection is opened, under a new number, only if there is none |
| Exchanges.Line.Exchange | src/async_client.rs:120-136 | dial if need be, then write and wait |
| Exchanges.ConverseKeeps | src/proxy.rs:4-7 | an exchange that starts with nothing outstanding is answered by the answer to its own request or not at all |
| Exchanges.ConverseCalm | src/frame.rs:211-218 | an exchange does not unwind if no answer declares a length of 3 in its first frame |
| Exchanges.ConverseUnanswered | src/client.rs:135-150 | a request that arrives and is not answered leaves no start token behind, however its exchange ends |
| Exchanges.ReadInPieces | src/proxy.rs:145-159 | an answer read in pieces of any sizes completes as if read at once |
| Exchanges.SafeExactly | src/proxy.rs:145-159 | the answers of which no exchange that completes, or panics, leaves a start token unread are exactly the safe ones |
| Exchanges.TrailingFrameMispairs | src/proxy.rs:145-159 | if what follows the frame in an answer holds another one, that is taken for the answer to the next request |
| PromptAnswers.PromptConverse | src/proxy.rs:107-161 | from every state with nothing outstanding: if dial and write succeed and the answer comes, in pieces of any sizes, the exchange completes with it, whatever else the device does before, and only its request is added |
| PromptAnswers.PromptExactly | src/async_client.rs:145-165 | the same with a script that goes on: the reads that the answer takes are used and nothing behind them |
| Multiplexer.Exchange | src/proxy.rs:107-131 | exchange under the lock; the connection is dropped after any error, kept after an answer or a panic |
| Multiplexer.RelayedKeeps | src/proxy.rs:122-130 | nothing is outstanding on the connection kept after an exchange, however it ends |
| Multiplexer.Forward | src/proxy.rs:182-206 | a complete frame: exchange, then the answer is written to the client; a failed exchange does not end the session |
| Multiplexer.ServeOne | src/proxy.rs:180-213 | the body of the inner loop |
| Multiplexer.ServeChunk | src/proxy.rs:180-214 | the inner loop over one read |
| Multiplexer.ServeClient | src/proxy.rs:163-216 | both loops: session, requests, delivered answers, until the client closes, a write fails or a panic |
| Multiplexer.ServeChunksHandsOn | src/proxy.rs:180-214 | the requests tried are exactly the frames cut off, in order, whatever the network does |
| Multiplexer.ServesEveryFrame | src/proxy.rs:170-215 | for every such stream and chunking all frames are handed on, and no other bytes, if the client stays writable and neither side declares a length of 3 |
| Proxy.NextKeeps | src/proxy.rs:107-216 | every event keeps the invariant: lock, one open connection, quiet when free, sessions, order of requests, each exchange and reply for the frame being handled |
| Proxy.QuietWhenFree | src/proxy.rs:4-7 | in every run at most one connection is open, and while the lock is free it has no outstanding request and no unread start token |
| Proxy.SessionsApart | src/proxy.rs:95-100 | in every run a session is a function of its own client's bytes |
| Proxy.RequestOnRecord | src/proxy.rs:182-185 | in every run each request that reaches the device is a frame of the client it is sent for |
| Proxy.RequestsMerge | src/proxy.rs:163-216 | in every run one client's frames are sent in order, none twice |
| Proxy.RepliesPaired | src/proxy.rs:107-161 | in every run an answer delivered while a client's frame is handled is the frame in the device's answer to the request sent for that very frame; frames and requests of the answers ascend |
| TaskRuns.AcceptAdds | src/proxy.rs:89-102 | in every run a client that connects is one task more, with an empty session, and nothing else changes |
| TaskRuns.ServedIsRun | src/proxy.rs:163-216 | from every run in which the lock is free: whatever the proxy's methods come to for a client that connects, under any script, is how the run goes on, and the other clients' tasks stay as they are |
| TaskRuns.RelayRuns | src/proxy.rs:107-131 | an exchange of the proxy, under any script, is a run of any one of the tasks, from taking the lock to giving it back |
| TaskRuns.UndisturbedServed | src/proxy.rs:163-216 | a frame sent in any chunks, answered, and the answer read in pieces of any sizes: the client gets the frame in the answer, from every state with nothing outstanding upstream |
| TaskRuns.UndisturbedAnswers | src/proxy.rs:163-216 | and every run in which the lock is free can go on so for a client that connects |
| Progress.FrameQueues | src/proxy.rs:180-184 | whoever holds the lock, a client that sends a frame has it queued, byte for byte, and nothing else changes |
| Progress.ClientLeaves | src/proxy.rs:173-176 | a client that goes ends its own task and nothing else |
| Progress.LockReleases | src/proxy.rs:107-131 | in every reachable state whichever task holds the lock can give it back by itself |
| Progress.AnswerQueued | src/proxy.rs:107-193 | in every reachable state with the lock free, every frame that waits, of any task, can be answered and its answer delivered to that client; one request is added, and the other tasks stay as they are |
| Progress.EveryFrameAnswered | src/proxy.rs:88-102 | every run, with any number of clients, can go on so that every frame that waits is answered with its own answer; one that holds the lock may give up, nothing else happens to the other tasks |
| Progress.NewClientServed | src/proxy.rs:88-103 | in every run, whoever holds the lock, a client can connect, send a frame and get the answer to it, the other tasks being left as they are |
| Codec.NormalizedHolds | src/codec.rs:52-76 | what is encoded has the representation of the wire type; what has it already is encoded as it is |
| Codec.IntegerWraps | src/codec.rs:61-66 | an integer keeps its value up to a multiple of 2 to the type's width |
| Codec.RoundTrip | src/codec.rs:35-123 | encoded, with anything behind it, a value is decoded to itself exactly if its type is not ENUM and a text is NUL-free and terminated |
| Codec.EnumTooShort | src/codec.rs:97-106 | an encoded ENUM is always too short to be decoded |
| Codec.ReadBackExactly | src/codec.rs:95-123 | exactly the values of the decoder's own shape, NaN excepted, equal some decoded payload |
| CodecMeaning.DecodedMeans | src/codec.rs:95-123 | for every type and payload: too short exactly below the bytes needed; otherwise the big-endian number of the first bytes, in two's complement for signed types, true exactly for a first byte other than 0, or the text up to the first NUL |
| CodecMeaning.EncodedMeans | src/codec.rs:52-92 | for every type and value: which pairs are errors, and which error; otherwise the bytes hold the value's number modulo the numbers of the type's width, a truth value or the text |
| CodecMeaning.FloatPatterns | src/types.rs:304-317 | the bit patterns that are no numbers, and the two that are zero |
| CodecMeaning.FloatsEqual | src/types.rs:304-317 | equal floats are numbers, with the same bits or both zero |
| Clients.AsyncClient.TryExchange | src/async_client.rs:120-172 | one attempt; any error drops the connection |
| Clients.AsyncClient.Exchange | src/async_client.rs:106-118 | the retry loop |
| Clients.AsyncClient.Read | src/async_client.rs:45-54 | a READ frame with retries |
| Clients.AsyncClient.Write | src/async_client.rs:57-67 | a WRITE frame with retries |
| Clients.AsyncClient.WriteAndVerify | src/async_client.rs:77-104 | first attempt, then rounds of rewriting and reading back |
| Clients.Client.TryExchange | src/client.rs:118-160 | one attempt; only a value that cannot be decoded drops the connection |
| Clients.Client.Exchange | src/client.rs:104-116 | the retry loop |
| Clients.Client.Read | src/client.rs:60-63 | a READ frame with retries |
| Clients.Client.Write | src/client.rs:66-70 | a WRITE frame with retries |
| Clients.Client.WriteAndVerify | src/client.rs:80-102 | first attempt, then rounds of rewriting and reading back |
| Clients.RetriedWent | src/async_client.rs:106-118 | with R attempts at most R exchanges of the one frame are tried, and exactly R if all fail |
| Clients.RetriedLast | src/async_client.rs:114-117 | when all attempts fail the error is that of the last one |
| Clients.VerifyBounds | src/client.rs:80-102 | a verified write ends after at most R WRITE and R * R READ exchanges, and no others; it gives up with a timeout only after exactly R WRITE and at least R READ exchanges |
| Clients.TryKeeps | src/async_client.rs:136-143 | an attempt leaves no connection with anything outstanding, and a value is decoded from the answer to its own request |
| Clients.NoLateAnswer | src/async_client.rs:86-103 | a verified write returns the answer to its first WRITE, or the answer to a READ sent over a newer connection, equal to the value written |
| Clients.UnreadableNotVerified | src/async_client.rs:98-101 | a value that no payload decodes to is never confirmed by the read-back |
| Completions.CarriesCompletes | src/frame.rs:179-226 | undecided bytes whose length field, if there, is at least 5 and whose checksum is right so far have a continuation that completes a frame with data, and that alone is none |
| Completions.CompletesCarries | src/frame.rs:179-226 | and no other undecided bytes can be completed with data |
| LateAnswers.SyncTryKeeps | src/client.rs:118-160 | a call on a connection with nothing outstanding returns its own answer; only a timeout, an I/O error or a bad frame leaves anything outstanding |
| LateAnswers.SyncKeepsConnection | src/client.rs:154-158 | whatever the state and the script, a connection held is dropped exactly after a value that cannot be decoded |
| LateAnswers.SyncAnswersOwn | src/client.rs:118-160 | in every sequence of calls, one that starts when no earlier call on the connection held ended in a timeout, an I/O error or a bad frame is answered by its own answer |
| LateAnswers.SyncTakesOld | src/client.rs:118-160 | while a request waits, some run makes the next call return its answer, whatever the call asks for and whatever the answer holds |
| LateAnswers.TrustedExactly | src/client.rs:118-160 | the connections whose next value is always the call's own answer are exactly these: without an unread start token, those with no outstanding request; with one, those whose unread bytes neither hold a frame with data nor can become one |
| LateAnswers.LostAnswerReturns | src/client.rs:135-150 | after every call whose answer does not come some run makes the next call return the old answer, and its own request is never answered |
| LateAnswers.DirectAnswerUnchecked | src/client.rs:83-88 | for every value that an answer can hold, a verified write of either client can return it, whatever was written |
| LateAnswers.SyncTimesOut | src/client.rs:135-150 | a run in which the request goes out and the call times out |
| LateAnswers.SyncAcceptsLate | src/client.rs:118-160 | a late answer to the WRITE is then taken for the answer to the READ |
| VerifiedWrites.HowItEnds | src/async_client.rs:120-172 | every attempt of either client ends with its first operation that fails, or with a read; which error an expired, broken or closed dial, write or read becomes, and what connection is kept |
| VerifiedWrites.ReadSizes | src/async_client.rs:152-165 | a read returns what is there, up to the size that arrives at once and to 256 |
| VerifiedWrites.SilenceEnds | src/client.rs:135-150 | an attempt of either client whose answer does not come ends in a timeout or an I/O error |
| VerifiedWrites.SilenceTimesOut | src/async_client.rs:136-143 | the async client: on a network where nothing breaks it ends in a timeout, without a connection |
| VerifiedWrites.ReadAnswered | src/async_client.rs:45-54 | a read of either client that is answered in time returns the value in its answer after one READ |
| VerifiedWrites.WriteAnswered | src/async_client.rs:57-67 | a write that is answered in time returns the value in its answer after one WRITE of the encoded value |
| VerifiedWrites.VerifiedErrors | src/async_client.rs:86-104 | a first attempt that ends in an I/O error, a bad frame, a bad value or an answer with data is the only one; after a timeout or an answer without data the call returns an equal value or times out |
| VerifiedWrites.GivesUp | src/async_client.rs:92-103 | when the rounds end in a timeout each was gone through: the WRITE again from the second on, and no read-back confirmed the value |
| VerifiedWrites.CompletesByReading | src/async_client.rs:86-103 | in every run in which the first attempt timed out or brought no data and the READ on the new connection is answered with an equal value, the async client returns that value and only this READ is added |
| VerifiedWrites.CompletesAfterSilence | src/async_client.rs:69-103 | from every state with nothing outstanding, a WRITE never answered or answered late, whatever the device does, and then a READ answered: the value read is returned and the log holds that WRITE and that READ |
| VerifiedWrites.CompletesAfterEmpty | src/async_client.rs:86-103 | the same when the WRITE is answered without data |
| EndToEnd.ValueThroughFrame | src/frame.rs:18-54 | a value encoded, framed, parsed behind junk and decoded is itself, exactly where the codec alone gives it back |
| EndToEnd.SyncConfirmsUnanswered | src/client.rs:80-102 | for every fixed-width number the sync client can confirm a write by a READ that is never answered |
| EndToEnd.Recovery | src/proxy.rs:180-213 | of a stream with noise and damaged frames, in any chunks, exactly the undamaged frames are handed on |
| EndToEnd.RequestsAreFrames | src/proxy.rs:163-216 | in every run of the proxy the requests for such a stream are its undamaged frames |
| EndToEnd.AnswerDeliveredWhole | src/proxy.rs:186-193 | in every run a delivered reply to a well-formed answer is that answer, byte for byte |
| EndToEnd.BodyPrinted | src/frame.rs:25-53 | the bodies that are damaged here are those of printed frames |
| EndToEnd.DamageNoticed | src/frame.rs:211-225 | damage to one or two neighbouring bytes behind the header of a printed frame is noticed, at its last byte |

## Left out

- Frame.MakeFrame: the overflow check of a debug build; the length field keeps its low bytes.
- Receive.ReceiveFrame.ReadHeader: the plant branch, which no input reaches, and with it the address field, which stays 0.
- Codec.RoundTrip: casts between floats and integers are a parameter, and replacing invalid UTF-8 in a decoded text is not modelled: a text is its bytes.
- Codec.NormalizedHolds: the name and value texts inside error values.
- Clients.AsyncClient.TryExchange: a panic in the parser also poisons the client's mutex, so that later calls panic; calls after a panic are not modelled.
- Clients.Client.TryExchange: a request written in part on a connection that is kept; address resolution; a read that would block goes on until the deadline and is one timeout here.
- Exchanges.Speak: a request that reaches the device only in part; a failed write delivers it whole or not at all.
- Exchanges.AwaitFrame: clocks; a passed deadline is a timeout of the next read.
- TaskRuns.AcceptAdds: `serve` ends when accepting fails, and with it the listener; connecting clients always succeed here.
- Progress.EveryFrameAnswered: in which order the lock is granted, and that it is granted at all, is up to the runtime; the model allows every order.
- Sockets, the runtime, connecting and the device are scripts and events.
- Proxy::bind, addresses, log messages, describe_frame and Display texts: presentation.
- src/registry.rs, src/writable.rs, ObjectGroup and the name tables: finite tables and range checks.
- Composite data types: decoded raw, as in the code.
