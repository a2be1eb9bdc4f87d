# A verified model of the smux multiplexer, the ChaCha20 cipher and the stream coders

The project models, in Dafny, three parts of the repository and proves what they are for.

**ChaCha20** (`Words`, `ChaChaCore`, `ChaChaRef`, `Simd`, `BlocksSSE2`, `BlocksAVX2`, `AvxAgreement`, `CounterGuard`,
`Engines`, `Keystreams`, `Ciphers`, `ChaChaVectors`, `CounterReach`). `ChaChaCore` is the block function of RFC 7539 (sections 2.1, 2.3 and
2.4) with the 64-bit counter of the code. The portable loop and the generated SSE2 and AVX2 routines are imperative methods
over words, register files and byte arrays. SSE2 refines the reference for every input. AVX2 gets an exact contract of its
own, and a theorem says for which counters that contract is the reference. `Engines` is the choice of a routine.
`Keystreams` says, for any routine, which bytes a request to the incremental cipher yields and which machine it leaves, and
when that is the next part of one keystream; the methods of `Ciphers.Cipher` compute exactly that for every request.
`ChaChaVectors` proves the vectors of the repository's own tests, byte for byte, of the objects with every routine.
`CounterReach` says which keys and requests bring a cipher to the counters where the guard or the AVX2 routine fails.

**Stream coders** (`Octets`, `Chunks`, `FlowWire`, `FlowObfs`, `FlowRun`, `StreamCoder`, `Duplex`). The noise-padded framing
layer, for all sizes and for connections that end anywhere, and the duplex cipher layer, each as a class whose methods meet
specification functions, and each with a theorem over every run of writes and reads of any sizes.

**smux** (`SmuxFrame`, `Sids`, `Sums`, `SendLoop`, `SendInvariant`, `SendOrder`, `SendHazards`, `SendLimits`,
`SendProgress`, `SendRest`, `SendRace`, `Dispatch`, `Drain`, `Receiver`, `ReceiveWindow`, `ReceiveEof`, `Sessions`, `Pause`,
`PauseRest`, `StreamFlow`, `Callers`, `SendData`, `Integrity`, `Delivery`, `Replies`, `SendStretches`, `Stretches`,
`ShortQueue`).
The codec and `split` are methods. The goroutines of `sendLoop`, `recvLoop` with any number of readers and closers, and the
flow control of a stream are step systems whose steps are single atomic operations or critical sections; the theorems
quantify over all their runs. The code of those goroutines is also there in its imperative form, as classes with the fields
it updates: the dispatcher (`Dispatch.Loop`), the scheduler's loop (`Drain.Scheduler`), the session and its streams
(`Sessions.Session`), and a stream's pauses (`StreamFlow.Stream`). Each method is proved to have the effect of a run of its
goroutine's steps without interference, so the step systems are tied to the code and the theorems about runs cover the
methods. `Callers` is the discipline of `OpenStream`, `Write` and `Close`, and `SendData` what it does for the order of the
data. `Integrity` and `Delivery` put both ends and the bytes of the connection together; `Replies` is about the streams that
the sending side has accepted. `SendStretches` and `Stretches` put runs together for the failures, and `ShortQueue` is the
failure of a queue of one.

Conventions. A ghost `Run` or `Reachable` says that every action was enabled when its turn came. Words are bit-vectors,
`Words.Val` is the number a word stands for. `Octet` is a byte as a number. Arithmetic that the code does in 16, 32 or 64
bits wraps in the model where the code can reach the wrap; the `int32` bucket is proved to stay in range. Where the code
does not do what it is meant to do, the model keeps the code, a lemma gives a reachable failure, and another gives the exact
condition:

- `SmuxFrame.DecodeEncodeIff`: payloads of 65528 to 65535 bytes, which the configuration allows, make `readFrame` panic.
- `AvxAgreement.AvxAgreesIff`: AVX2 agrees with the reference exactly while the low counter word does not wrap.
- `CounterGuard.GuardIff`: the guard of a 12-byte nonce reads a key word. With the portable and the SSE2 routine it protects
  the nonce in one request exactly when the counter is not above that word; with AVX2 (`CounterReach.GuardAvxIff`) exactly
  unless the counter is at its last value and the key word is not. `CounterReach.KeyDecides`: over all sequences of accepted
  requests, and for every routine, it protects the nonce exactly for the keys whose bytes 16 to 19 are all ones, with which it
  accepts nothing.
- `CounterReach.KeyReturns`: with AVX2 accepted requests lead a cipher with a 12-byte nonce back to its first block after 2^32
  blocks, so that the keystream repeats, for all keys but those of two values of that word; with the other routines
  (`CounterReach.ReturnsIff`) only after multiples of 2^64 blocks.
- `Ciphers.Cipher.Seek`: for a 12-byte nonce, seeking returns to the same stream exactly when the number of carries into word
  13, which is the number of blocks produced divided by 2^32, is a multiple of 2^32.
- `FlowWire.SaneIff`: the sizes for which no frame of `FlowObf` exceeds its buffer or its 16-bit offsets; the comment on
  `NewFlowObf` promises noise and data of 0 to 65535 bytes. For other sizes the methods say when they panic.
- `FlowRun.AfterCut`: a reader of a connection that is cut gets what was written before the cut exactly when the cut is not
  inside the noise of a frame; there `Read` returns noise as data, beside the error.
- `SendOrder.OrderIff`, `SendLimits.OrderedIff`: the queue-full exchange can send a stream's requests out of order; runs that
  keep every stream within b unwritten requests are all in order exactly when b is at most `WriteRequestQueueSize`.
- `SendHazards.StuckIff`, `SendLimits.UnstuckIff`: the same exchange can block the dispatcher for ever; the one step that does
  it, and again b at most `WriteRequestQueueSize` as the exact condition over runs.
- `SendRace.LossIff`, `SendRace.LostSpins`: a request that is submitted on a stream after its FIN can be lost with the
  queue that the scheduler deletes, and then the scheduler spins; exactly the calls that submit nothing after a FIN exclude
  that. `Write` can break this: when it races with `Close`, its select (`lib/smux/stream.go:134-140`) may choose the session's
  channel although the stream is closed.
- `ShortQueue.FinEndsIff`: a FIN is the end of its stream's data exactly when `WriteRequestQueueSize` is at least 2.
  `VerifyConfig` allows 1, and then the FIN of a `Close` can overtake the data of a `Write` before it. The bytes themselves are
  delivered in order at every queue size (`Delivery.StreamIntegrity`).
- `Replies.ReplyIff`, `Replies.EarlyReply`: `OpenStream` registers a stream after its SYN is written, and what the acceptor
  answers is delivered exactly when no payload of the stream is handled before that.
- `ReceiveEof.EofIff`, `ReceiveEof.EofTooEarly`: `Read` can return EOF before the last bytes.
- `PauseRest.StalledIff`, `Pause.StalledReachable`, `Pause.SwappedReachable`: a sender can stay paused although all was read;
  when the receiving end has it paused is exactly a pause that came when all was read already and that no data followed, and
  when the sender disagrees is exactly when the command submitted last is not that of the last toggle.

Assumptions, stated where they are used. The peer is honest: it does not reuse stream ids, and its payloads have a bound
(`Delivery.OpenerIsHonest` proves this of the opening side). Nothing is submitted on a stream after its FIN, which
`SendRace.LossIff` shows to be necessary. There are no deadlines, and one `Write` runs at a time on a stream. In `Integrity`
and `Delivery` a call submits its next SYN or PSH only when it has the result of the one before, as `writeFrame` does
(`lib/smux/session.go:543-557`), and `Write` and `Close` of a stream come after its `OpenStream` has returned; a `Close` may
submit its FIN while a `Write` waits. `MaxFrameSize` is at most 65527, which `SmuxFrame.DecodeEncodeIff` shows to be necessary.
`Delivery.FinMeansAll` and `Delivery.NoneFollowsFin` need a queue size of at least 2, which `ShortQueue.FinEndsIff` shows to be
necessary; the other theorems of `Delivery` and `Replies` hold for every queue size.

Definitions are fixed from outside. Where an operation is proved against a function, other statements say what that function
means without naming it: literal vectors and literal frames (`ChaChaVectors`, `SmuxFrame.HeaderBytes`, `FlowWire.FrameBytes`),
the fields that a method leaves (`Ciphers.Cipher.ReKey`, `StreamCoder.Coder.constructor`, `StreamFlow.Stream`,
`Sessions.Session`, `Dispatch.Loop`, `Drain.Scheduler.Turn`), or the property that the function is for.

## Model

| member | source | states |
|---|---|---|
| ChaChaRef.QuarterRoundStep | lib/chacha20/chacha20_ref.go:34-45 | the statements of one quarter round are the quarter round of RFC 7539 section 2.1 on four words |
| ChaChaRef.RoundLoop | lib/chacha20/chacha20_ref.go:32-145 | the loop over chachaRounds computes ten double rounds |
| ChaChaRef.PutWord | lib/chacha20/chacha20_ref.go:164-224 | a word goes out as four little-endian bytes, xored with the input when there is one, also in place |
| ChaChaRef.OneBlock | lib/chacha20/chacha20_ref.go:27-247 | one pass writes the input xored with the block of the state and advances the 64-bit counter by one, touching nothing else |
| ChaChaRef.BlocksRef | lib/chacha20/chacha20_ref.go:16-248 | panics exactly when the guard refuses; otherwise both output paths write input xor keystream, where byte p is a byte of the block function at counter start + p / 64, and advance the counter by nrBlocks |
| ChaChaVectors.QuarterVector | lib/chacha20/chacha20_ref.go:34-45 | the quarter round of section 2.1.1 of RFC 7539 in numbers |
| ChaChaVectors.Rfc7539 | lib/chacha20/chacha20_test.go:287-338 | with every routine: a cipher with the key 0, 1, .., 31 and the 12-byte nonce of section 2.4.2 of RFC 7539, sought to block 1, turns the first 64 bytes of its text into the 64 bytes given there |
| ChaChaVectors.XChaCha20 | lib/chacha20/chacha20_test.go:252-282 | with every routine: the first 64 bytes of the test's keystream for a 24-byte nonce |
| ChaChaVectors.RfcStream | lib/chacha20/chacha20_test.go:287-338 | block 1 of that keystream, from literal key and nonce bytes |
| ChaChaVectors.XSubkey | lib/chacha20/chacha20_ref.go:251-393 | the eight words of the HChaCha20 subkey for the test's key and nonce |
| ChaChaCore.AdvanceAdd | lib/chacha20/chacha20_ref.go:243-247 | advancing by m and then by n blocks is advancing by m + n |
| ChaChaCore.KeyByteShift | lib/chacha20/chacha20_ref.go:243-247 | the keystream after n blocks is the keystream with its first 64n bytes dropped |
| ChaChaCore.AdvanceKeeps | lib/chacha20/chacha20_ref.go:243-247 | producing blocks changes words 12 and 13 only |
| ChaChaCore.CountUpWords | lib/chacha20/chacha20_ref.go:243-247 | a counter step increments word 12 and carries into word 13 exactly at its wrap |
| ChaChaCore.AdvanceNoCarry | lib/chacha20/chacha20_ref.go:243-247 | while the low word does not wrap it counts the blocks and word 13 stays |
| ChaChaCore.AdvanceWords | lib/chacha20/chacha20_ref.go:243-247 | both counter words after any number of blocks: word 12 counts modulo 2^32, word 13 counts the wraps of word 12 |
| CounterGuard.GuardIff | lib/chacha20/chacha20_ref.go:17-23 | with the 64-bit counter of the portable and the SSE2 routine, no request that the guard accepts carries into word 13 if and only if the counter is at most word 8 |
| CounterGuard.GuardExactIff | lib/chacha20/chacha20_amd64.go:32-38 | the guard refuses exactly the requests that would carry if and only if words 8 and 12 are equal |
| CounterGuard.FreshRefused | lib/chacha20/chacha20_ref.go:17-23 | with word 8 at its maximum a fresh cipher refuses every request |
| CounterReach.NonceSafeIff | lib/chacha20/chacha20_ref.go:17-23 | for every routine: from a counter of zero, every sequence of requests that the guard accepts leaves word 13 as it was if and only if word 8 is at its maximum |
| CounterReach.KeyDecides | lib/chacha20/chacha20.go:167-220 | so for a keyed cipher with a 12-byte nonce and any routine the limit protects the nonce if and only if bytes 16 to 19 of the key are all ones |
| CounterReach.GuardAvxIff | lib/chacha20/chacha20_amd64.go:32-38 | with AVX2, no single accepted request changes word 13 if and only if word 12 is not at its maximum or word 8 is |
| CounterReach.TwoRequests | lib/chacha20/chacha20_amd64.go:32-38 | with a zero key word two requests of 2^31 blocks are accepted; with AVX2 they lead back to the fresh state, with the other routines they carry into the nonce |
| CounterReach.AvxReturnsIff | lib/chacha20/chacha20_amd64.go:32-38 | with AVX2, some accepted requests lead back to the fresh state after 2^32 blocks in all if and only if the guard ever accepts two blocks at once |
| CounterReach.KeyReturns | lib/chacha20/chacha20.go:167-220 | the same for a keyed cipher with a 12-byte nonce, by its key word |
| CounterReach.ReturnsIff | lib/chacha20/chacha20_ref.go:243-247 | with the other routines requests lead back to the fresh state if and only if their blocks are a multiple of 2^64 |
| Simd.QuarterRowsColumns | lib/chacha20/chacha20_amd64.py:147-260 | the row operations are four quarter rounds, one per column |
| Simd.RowsRoundDiagonals | lib/chacha20/chacha20_amd64.py:147-377 | with the lane shuffles before and after, the same operations are a diagonal round |
| Simd.RowPassesAreRounds | lib/chacha20/chacha20_amd64.py:147-377 | n passes of the vector loop, on rows, are n double rounds of the reference, on words |
| Simd.PassedLane | lib/chacha20/chacha20_amd64.py:756-945 | in a register of two lanes each lane goes through the passes on its own |
| Simd.RoundsLoop | lib/chacha20/chacha20_amd64.py:404-521 | the rounds loop puts every register group through ten row passes, for 4, 2 or 1 groups of one or two lanes, with the destructive updates and the spilled register |
| Simd.Mix | lib/chacha20/chacha20_amd64.py:40-62 | the add, xor and rotate instructions, through a scratch register, are the row operation on every group |
| BlocksSSE2.VectorPass | lib/chacha20/chacha20_amd64.py:147-377 | one vector pass writes its 4, 2 or 1 blocks of output and advances the counter register by as many |
| BlocksSSE2.BlocksAmd64SSE2 | lib/chacha20/chacha20_amd64.py:81-617 | refinement: for every state with the constants in place, every input and every nrBlocks, the same output bytes and the same final state as blocksRef |
| BlocksAVX2.BlocksAmd64AVX2 | lib/chacha20/chacha20_amd64.py:675-1261 | exact result for every input: which counter each block starts from and which is added back, with the 64-bit and 32-bit additions the routine mixes, and the counter written back |
| BlocksAVX2.PairPass | lib/chacha20/chacha20_amd64.py:756-990 | one pass of pairs writes the blocks of its register groups, lanes put in order |
| BlocksAVX2.LastPairs | lib/chacha20/chacha20_amd64.py:1146-1250 | the last pairs and the odd block, and which lane then holds the counter |
| AvxAgreement.AvxAgreesIff | lib/chacha20/chacha20_amd64.py:765-1250 | all counters of the routine are those of the reference if and only if at most one block is asked for or x[12] + nrBlocks < 2^32 |
| AvxAgreement.AvxRefines | lib/chacha20/chacha20_amd64.py:675-1261 | under that condition the bytes and the final state are those of the reference |
| AvxAgreement.FeedWords | lib/chacha20/chacha20_amd64.py:765-1250 | the counter that AVX2 leaves after any number of blocks: word 12 is right modulo 2^32, word 13 moves only if the very first step carries |
| AvxAgreement.FirstGroups | lib/chacha20/chacha20_amd64.py:675-800 | the blocks of the first register groups start from the right counter even across the wrap of the low word, because the set-up adds in 64 bits |
| CounterReach.AvxAfterSeek | lib/chacha20/chacha20.go:222-234 | after Seek(0xffffffff) with an 8-byte nonce, two blocks by AVX2 leave a counter that is not the next one |
| Engines.BlocksAmd64 | lib/chacha20/chacha20_amd64.go:26-54 | panics exactly when the guard refuses; otherwise, for every request, the output is the input (zero for nil) xor the bytes that the selected routine makes, the final state is the one it leaves, and nothing outside the output changes |
| Engines.Blocks | lib/chacha20/chacha20.go:43-45 | the same for whichever block function was selected |
| Engines.SoundMade | lib/chacha20/chacha20.go:43-45 | where the selected routine is sound, those bytes are the keystream and that state is the advanced one |
| Ciphers.HChaCha | lib/chacha20/chacha20_ref.go:251-393 | the 32 bytes are words 0-3 and 12-15 of the rounds on key and nonce, little-endian |
| Ciphers.Cipher.ReKey | lib/chacha20/chacha20.go:167-220 | the sixteen words for each length of nonce: the constants, the key words, for 24 bytes the first and last row of the rounds on key and first 16 nonce bytes, a zero counter, and the nonce words; anything but a key of 32 and a nonce of 8, 12 or 24 bytes returns its error and changes nothing |
| Ciphers.Cipher.Reset | lib/chacha20/chacha20.go:74-81 | state and buffer are zero |
| Ciphers.Cipher.Seek | lib/chacha20/chacha20.go:222-234 | the counter words and the emptied buffer for every machine; when the machine tells a position, the new one is 64 times the block counter, of the same stream for 8- and 24-byte nonces, for a 12-byte nonce of the same stream if and only if the carries of the blocks produced are a multiple of 2^32; a counter above 32 bits is an error without effect |
| Ciphers.SeekBoth | lib/chacha20/chacha20.go:222-234 | storing both counter words is skipping that many blocks from counter zero |
| Ciphers.Cipher.XORKeyStream | lib/chacha20/chacha20.go:85-127 | for every routine, state and request: panics exactly when a block is needed and the guard refuses it, after using up the buffer; otherwise the bytes are src xor Keystreams.Stream and the machine is Keystreams.After, dst = src included; and while the routine is sound that is the next part of the one keystream |
| Ciphers.GuardSays | lib/chacha20/chacha20.go:99-126 | that panic in numbers: a 12-byte nonce, and a request beyond the buffer whose whole blocks, or 1, and the value of word 8 exceed 2^32 - 1 |
| Ciphers.Cipher.KeyStream | lib/chacha20/chacha20.go:130-163 | the same bytes without a text, the same machine and the same panic |
| Ciphers.Cipher.Pass | lib/chacha20/chacha20.go:99-126 | one iteration of those loops: the rest of the buffer, or from a boundary the whole blocks in one request and the buffer refilled for the rest |
| Keystreams.StreamIs | lib/chacha20/chacha20.go:85-127 | chunking is invisible: from any position, buffer included, a request that is sound for the routine yields the next n bytes of the one keystream and a machine that tells the next position |
| Keystreams.StreamSplit | lib/chacha20/chacha20.go:85-127 | a request that uses up the buffer is the buffer and a request from a boundary, for every routine |
| StreamCoder.XorAtTwice | lib/streamcoder/streamcoder.go:27-38 | coding twice at one position gives the text back |
| StreamCoder.XorAtSplit | lib/streamcoder/streamcoder.go:27-38 | coding the pieces of a text in turn is coding the text |
| StreamCoder.Coder.constructor | lib/streamcoder/streamcoder.go:114-150 | the client encrypts with key bytes 0-31 and nonce bytes 0-11 and decrypts with key bytes 32-63 and nonce bytes 12-23, the server the other way round, both from position 0 |
| StreamCoder.Coder.Write | lib/streamcoder/streamcoder.go:35-38 | appends the slice, encrypted in place, to the connection: for every request with the bytes that the routine makes, while it is sound with the keystream at the encryption position |
| StreamCoder.Coder.Read | lib/streamcoder/streamcoder.go:27-33 | takes n bytes from the connection, however many it returns, and decrypts them in place, in the same sense |
| StreamCoder.Coder.ReKey | lib/streamcoder/streamcoder.go:78-110 | both ciphers restart, on the same halves of the new digest and of the old nonce, by the same roles |
| Duplex.RoundTrip | lib/streamcoder/streamcoder.go:27-150 | every run of writes, reads and common re-keyings of two coders with one key and nonce: in both directions what was read is a prefix of what was written, the rest is under way, and a drained direction has delivered all |
| Duplex.Link.Write | lib/streamcoder/streamcoder.go:35-38 | a Write of two Coder objects on one connection is a step of those runs, or a panic, exactly when the guard refuses, that writes nothing |
| Duplex.Link.Read | lib/streamcoder/streamcoder.go:27-33 | and so is a Read |
| Duplex.Link.ReKey | lib/streamcoder/streamcoder.go:78-110 | and a ReKey of both |
| Duplex.StepKeepsPaired | lib/streamcoder/streamcoder.go:78-110 | each event, re-keying at a quiescent point included, keeps the two coders paired |
| FlowWire.ParseEncoded | lib/streamcoder/flowobf.go:190-209 | parsing undoes encoding, whatever follows on the wire |
| FlowWire.FrameBytes | lib/streamcoder/flowobf.go:190-209 | the bytes of a frame: the noise length and the data length, little-endian, the noise, the data |
| FlowWire.ReadBytes | lib/streamcoder/flowobf.go:143-173 | what is read of given bytes: a frame, frames cut in the data, in the noise and in the header, and frames that do not fit |
| FlowWire.FitsByOffsets | lib/streamcoder/flowobf.go:155-171 | the bounds tests with 16-bit offsets pass exactly when the section fits |
| FlowWire.SaneIff | lib/streamcoder/flowobf.go:122-137 | every noise length that can be drawn for every data length fits the buffer and the 16-bit offsets if and only if the sizes are sane |
| FlowWire.ReadConserves | lib/streamcoder/flowobf.go:38-60 | whatever is on the connection, a read loses, invents and reorders no byte that readFrame yields, and on complete frames reports EOF only when all was read |
| FlowWire.ReadServes | lib/streamcoder/flowobf.go:38-60 | the remainder serves a read alone when it is enough, else it goes first and one more frame follows |
| FlowWire.CutIff | lib/streamcoder/flowobf.go:143-173 | of complete frames cut after c bytes, a reader gets the data before the cut if and only if the cut is not inside the noise of a frame |
| FlowObfs.FlowObf.MkNoise | lib/streamcoder/flowobf.go:190-199 | the noise of the drawn length and its length bytes are in place, or a panic exactly when the noise is longer than the buffer |
| FlowObfs.FlowObf.MkFrame | lib/streamcoder/flowobf.go:201-209 | the frame is the encoding of noise and data, cut off at the end of the buffer, whatever the pool buffer held |
| FlowObfs.FlowObf.Split | lib/streamcoder/flowobf.go:175-188 | the frames of the pieces of the text, in order; a panic exactly for DataLen 0 or when some noise is longer than its buffer |
| FlowObfs.FlowObf.Write | lib/streamcoder/flowobf.go:62-78 | for all sizes and every noise: panics exactly when some frame is longer than its buffer, after the frames before it have gone out; with sane sizes it never does, and what goes out carries exactly the text |
| FlowObfs.SentSnoc | lib/streamcoder/flowobf.go:62-78 | a frame goes out after those before it if and only if its buffer holds it |
| FlowObfs.SentStops | lib/streamcoder/flowobf.go:62-78 | and nothing goes out after one that does not |
| FlowObfs.SaneFits | lib/streamcoder/flowobf.go:175-209 | with sane sizes, every frame of every text can be written and read back, whatever is drawn |
| FlowObfs.FlowObf.ReadFrame | lib/streamcoder/flowobf.go:143-173 | on whatever is on the connection: a panic exactly when a section does not fit, the error of a connection that ends inside a section beside the part of that section, otherwise the data and the rest of the wire |
| FlowObfs.FlowObf.Read | lib/streamcoder/flowobf.go:38-60 | panic, result, error, remainder and wire after a read of any size are those of the function ReadOutcome |
| FlowRun.RoundTrip | lib/streamcoder/flowobf.go:38-78 | every run of writes and reads of any sizes with any noise: read ++ remainder ++ data on the wire = written, and no read panics |
| FlowRun.AfterCut | lib/streamcoder/flowobf.go:38-60 | the connection of any run ends after c more bytes: no read panics, and reading to the end gives what was written before the cut if and only if the cut is not inside noise |
| SmuxFrame.DecodeEncodeIff | lib/smux/session.go:237-257 | for every payload up to 65536 bytes, reading back what the writer wrote gives the frame and the rest if and only if the payload has at most 65527 bytes; from 65528 to 65535 it panics |
| SmuxFrame.HeaderBytes | lib/smux/session.go:376-381 | the bytes of a frame for each command: version 1, command, length and stream id little-endian, payload |
| SmuxFrame.ReadBytes | lib/smux/session.go:237-257 | what readFrame makes of given bytes: a payload, an empty frame, short ones, and every other version |
| SmuxFrame.SelfDelimiting | lib/smux/session.go:376-381 | the concatenated encodings of any frames of that size decode to that list |
| SmuxFrame.WriteFrame | lib/smux/session.go:376-381 | the bytes written for a frame are its encoding |
| SmuxFrame.ReadFrame | lib/smux/session.go:237-257 | readFrame through its buffer is the function Decode, error for error |
| SmuxFrame.Split | lib/smux/stream.go:285-299 | the loop makes the frames of the pieces |
| SmuxFrame.SplitCorrect | lib/smux/stream.go:285-299 | their data together is the input, none is empty, none exceeds frameSize, and all but the last have exactly frameSize bytes |
| SendInvariant.ConservedStep | lib/smux/session.go:399-536 | every step keeps, for every stream: left the queue ++ queued ++ incoming = submitted, in order |
| SendInvariant.AccountedStep | lib/smux/session.go:399-536 | every step keeps: what left a queue is in a goroutine's hand, in writes or on the wire, each once |
| SendInvariant.RetireFrees | lib/smux/session.go:420-426 | the queue that the scheduler deletes is empty and the dispatcher is not about to use it |
| SendInvariant.DirectAloneStep | lib/smux/session.go:488-506 | a FIN that bypasses the queues is the only request its stream ever had in them |
| SendInvariant.ExactlyOnce | lib/smux/session.go:355-539 | in every reachable state every submitted request is in exactly one place and nothing else is anywhere |
| SendOrder.OrderIff | lib/smux/session.go:399-536 | in every run all streams' requests left in submission order if and only if no goroutine sent one while the other held an earlier one of the same stream |
| SendOrder.AlignedStep | lib/smux/session.go:496-523 | a step that does not overtake keeps sent ++ in hand = left the queue, per stream |
| SendOrder.OvertakingBreaks | lib/smux/session.go:496-501 | a step that overtakes breaks the order |
| SendOrder.BrokenStays | lib/smux/session.go:399-536 | and it stays broken |
| SendHazards.ModestInOrder | lib/smux/session.go:475-529 | in runs that keep every stream within bound unwritten requests, bound at most WriteRequestQueueSize, the exchange never happens and every stream's requests leave in order |
| SendLimits.OrderedIff | lib/smux/session.go:474-534 | for every queue size of at least 1 and every bound: all runs that keep every stream within the bound are in order if and only if the bound is at most the queue size |
| SendLimits.UnstuckIff | lib/smux/session.go:474-534 | and none of them gets the dispatcher stuck if and only if the bound is at most the queue size |
| SendLimits.OvertakingReachable | lib/smux/session.go:516-524 | for every queue size, a run with one request more after which the second request of a stream has left before the first |
| SendLimits.StuckReachable | lib/smux/session.go:519-522 | for every queue size, a run with one request more in which the scheduler empties the queue before the dispatcher takes its head |
| SendHazards.StuckIff | lib/smux/session.go:415-524 | the one step that gets the dispatcher stuck: the scheduler receives the last request of the queue whose head the dispatcher is about to take |
| SendHazards.StuckForever | lib/smux/session.go:519-522 | from then on, in every run, the dispatcher is stuck and nothing is accepted |
| SendProgress.CountedStep | lib/smux/session.go:405-532 | every step keeps: reqCount = queued + the scheduler's undecremented request + a request being exchanged - the dispatcher's uncounted request |
| SendProgress.NothingStranded | lib/smux/session.go:402-534 | in every reachable state the count is right, finished streams have no queue, and the scheduler sleeps beside queued work only when a signal is pending or the dispatcher is about to send one |
| SendProgress.ReclaimedStep | lib/smux/session.go:420-426 | every step keeps: the queue of a stream whose FIN has left it is being deleted or gone |
| SendProgress.RestIsDelivered | lib/smux/session.go:355-539 | when no goroutine can move, every submitted request has been written, or the dispatcher is stuck as above |
| SendRest.RestReachable | lib/smux/session.go:355-539 | from every reachable state the goroutines can come to rest by themselves, with all that was submitted written or the dispatcher stuck |
| SendRest.ModestDelivered | lib/smux/session.go:355-539 | while no stream has more than WriteRequestQueueSize requests unwritten, everything submitted can always still be written |
| SendRace.LossIff | lib/smux/session.go:420-426 | for every queue size: every submitted request is in exactly one place in every reachable state if and only if callers submit nothing after a FIN |
| SendRace.LostSpins | lib/smux/session.go:402-436 | after that loss reqCount stays positive beside no queue, and without a new submission sendLoop never comes to rest |
| Dispatch.Loop.Dispatch | lib/smux/session.go:474-534 | one turn of the dispatcher, field by field and as the effect of its steps: queued, counted and signalled; exchanged with the head of a full queue; sent past the queues, signalled for a FIN only; or waiting, for room in the 32 places of writes or with a SYN for room in its queue |
| Dispatch.Loop.Queue | lib/smux/session.go:493-524 | room in the queue or not: append and count, exchange, or wait |
| Dispatch.ExchangeAlone | lib/smux/session.go:496-501 | alone, the exchange moves the head of the queue to writes, or holds it until there is room, and the request to the end of the queue, and counts nothing |
| Dispatch.AloneIsRun | lib/smux/session.go:474-534 | such a turn is a run of the step system |
| Drain.TurnIsRun | lib/smux/session.go:415-435 | the scheduler's steps for one stream, without interference, are a run with the effect of Drain.Scheduler.Turn |
| Drain.Scheduler.Turn | lib/smux/session.go:415-435 | a stream's oldest request goes out and is uncounted, a FIN takes its queue with it |
| Drain.Scheduler.Pass | lib/smux/session.go:406-436 | one pass sends the head of every queue in ascending order of the ids |
| Drain.Scheduler.Drain | lib/smux/session.go:404-436 | the loop ends with all queues empty and reqCount 0 after as many passes as the longest queue; its output is all heads, then all seconds, and so on, each in id order |
| Drain.LeavesInPass | lib/smux/session.go:404-436 | the request at position p of a queue is among those that pass p + 1 sends |
| Drain.ColumnsBound | lib/smux/session.go:404-436 | n passes send at most n requests of each stream |
| Drain.TwoStreams | lib/smux/session.go:404-436 | two streams in numbers: both heads in the order of the ids, then the second request |
| Drain.Listed | lib/smux/session.go:406-413 | the snapshot of the ids, sorted, is the one ascending list of them |
| Sids.SortedUnique | lib/smux/session.go:413-413 | there is only one ascending list of a set of ids |
| Sids.SortedNumbers | lib/smux/session.go:413-413 | it begins with the smallest |
| Receiver.InvStep | lib/smux/session.go:217-300 | every step keeps: a stream is closed by one goroutine, one that is not in the map has an empty buffer, and nothing is pushed to a stream that is not in the map |
| Receiver.CloserFindsStream | lib/smux/session.go:217-226 | streamClosed finds its stream in the map, so its lookup never yields nil |
| ReceiveWindow.BalancedStep | lib/smux/session.go:217-300 | every step of recvLoop, readers, closers and openers keeps the token balance |
| ReceiveWindow.TokensConserved | lib/smux/session.go:217-300 | in every reachable state bucket + bytes in the open streams + tokens held mid-step = MaxReceiveBuffer; until the session closes bucket is in [1 - F, MaxReceiveBuffer], buffers hold at most MaxReceiveBuffer + F - 1, and the int32 does not overflow |
| ReceiveWindow.WakesStep | lib/smux/session.go:161-265 | every step keeps the wake-up property, from the moment recvLoop has seen an empty bucket |
| ReceiveWindow.NoLostWakeup | lib/smux/session.go:161-265 | recvLoop sleeps with tokens in the bucket or in a closed session only while a token is in the channel or somebody is about to post one |
| ReceiveWindow.SleepMeansData | lib/smux/session.go:263-265 | if recvLoop sleeps and nobody else is at work, some open stream has unread data |
| ReceiveEof.ReadInOrder | lib/smux/stream.go:66-89 | whatever interleaves, read ++ buffer = pushed for a stream nobody has closed, and read is always a prefix of pushed |
| ReceiveEof.EofIff | lib/smux/stream.go:74-89 | a Read that finds the buffer empty and then rstflag set returns EOF with all bytes before the FIN read if and only if nothing arrived between its two looks (sole reader of the stream) |
| ReceiveEof.EofQuiet | lib/smux/stream.go:74-89 | with any number of other readers and closers: if nothing arrived between the two looks, all that came before the FIN was read |
| ReceiveEof.NothingAfterFin | lib/smux/session.go:286-300 | what has been pushed to a stream is all there will be if and only if no payload of it is handled any more, whoever reads or closes |
| ReceiveEof.EofTooEarly | lib/smux/stream.go:74-89 | a reachable state in which Read returns EOF although a byte came before the FIN |
| ReceiveEof.ByteLost | lib/smux/stream.go:276-282 | closing the stream then drops that byte |
| Sessions.Session.constructor | lib/smux/session.go:74-105 | a new session is the initial state: the full bucket and no streams |
| Sessions.Session.Receive | lib/smux/session.go:275-313 | the switch of recvLoop, field by field and as the effect of its steps: a SYN registers an unknown stream, a FIN marks a known one, a payload is charged and pushed when the stream is known and dropped when not |
| Sessions.Session.Read | lib/smux/stream.go:66-99 | the bytes, EOF or wait that Read comes to, and every field afterwards: tokens back, a notification when the bucket is positive, at EOF the stream closed and its FIN handed over |
| Sessions.Session.CloseStream | lib/smux/stream.go:159-174 | a second close changes nothing and fails unless the stream was reset; the first one has the effect of the steps of streamClosed, hands a FIN to writeFrame and returns its error |
| Sessions.Session.StreamClosed | lib/smux/session.go:217-226 | the unread bytes become tokens and the stream leaves the map |
| Sessions.Session.ReturnTokens | lib/smux/session.go:229-233 | the tokens are added and recvLoop is notified when the bucket is then positive |
| Sessions.Session.Close | lib/smux/session.go:161-179 | a second close fails without effect; the first marks all open streams, notifies recvLoop and closes the connection |
| Sessions.ReadAlone | lib/smux/stream.go:66-99 | the steps of a Read without interference, in one formula |
| Sessions.AloneIsRun | lib/smux/stream.go:66-179 | what a goroutine does without interference is a run of the step system |
| Pause.PauseOrderIff | lib/smux/stream.go:348-370 | in every run FUL and EMP are submitted in the order of the toggles if and only if no goroutine submits out of turn |
| Pause.InStepAgrees | lib/smux/stream.go:315-370 | commands in step alternate, and delivering them all makes fulflag 1 - empflag |
| Pause.LevelStep | lib/smux/stream.go:240-345 | every step keeps: the stream's bucket = buffered + just read - just pushed bytes |
| Pause.LivelyIff | lib/smux/stream.go:240-370 | the one step that stalls: a step leaves a stream paused with nothing to read and no resume coming if and only if it toggles to paused after everything was read |
| PauseRest.StalledIff | lib/smux/stream.go:240-370 | every run that comes to rest: the receiving end has an empty stream paused if and only if the run has such a late pause with no payload byte after it; the sender is paused if and only if the last command submitted is FUL; the two agree if and only if that is the command of the last toggle, as it is when commands are submitted in turn |
| Pause.DrainedResumes | lib/smux/stream.go:240-370 | if pushing a non-empty payload and submitting a command are single steps, at rest fulflag = 1 - empflag and a paused sender means a non-empty buffer |
| Pause.StalledReachable | lib/smux/stream.go:250-257 | a reachable state at rest in which the sender is paused and everything was read, because the reader was done before the toggle |
| Pause.OnlyDataWakes | lib/smux/stream.go:240-370 | in such a state nothing but an arriving payload can happen |
| Pause.SwappedReachable | lib/smux/stream.go:348-370 | one in which the sender is paused although the receiver asked it to resume, because FUL was submitted after EMP |
| StreamFlow.Stream.PushBytes | lib/smux/stream.go:240-273 | buffer and bucket grow by the payload; FUL is submitted and empflag cleared, once, if and only if the bucket is over the limit or the estimate asks for it; without EnableStreamBuffer only the buffer grows |
| StreamFlow.Stream.ReturnTokens | lib/smux/stream.go:331-345 | the bucket shrinks; EMP is submitted and empflag set, once, if and only if the bucket is not positive or the estimate asks for it; without EnableStreamBuffer nothing |
| StreamFlow.Stream.SendPause | lib/smux/stream.go:348-358 | empflag is cleared and FUL submitted, once |
| StreamFlow.Stream.SendResume | lib/smux/stream.go:360-370 | empflag is set and EMP submitted, once |
| StreamFlow.Stream.PauseWrite | lib/smux/stream.go:314-317 | the flag becomes what the step that delivers a FUL makes of it |
| StreamFlow.Stream.ResumeWrite | lib/smux/stream.go:320-328 | the flag becomes what the step that delivers an EMP makes of it, and a paused writer is notified |
| StreamFlow.PushedKeeps | lib/smux/stream.go:240-273 | pushing a non-empty payload without interference keeps the flags in step and a paused stream non-empty |
| Callers.OrderlyStep | lib/smux/stream.go:126-174 | every step keeps: of a stream whose calls wait for their results at most one request is unwritten, two when the last is its FIN |
| Callers.WaitingIsModest | lib/smux/session.go:543-557 | so such calls never have more than two unwritten requests of a stream |
| SendData.ToldStep | lib/smux/stream.go:126-174 | every step keeps, for every queue size: what was written of a stream, but for its FIN, is all that was submitted or all but the last |
| SendData.DataParts | lib/smux/session.go:355-539 | so the data submitted on a stream is the data written followed by the data not written, even when its FIN has overtaken |
| Integrity.SenderStep | lib/smux/stream.go:102-174 | every step of the composed system, Close during Write included, keeps the invariants of sendLoop, for every queue size |
| Integrity.OrderedStep | lib/smux/stream.go:102-174 | with a queue size of at least 2 it also keeps every stream's requests in order |
| Integrity.WireShaped | lib/smux/session.go:108-140 | for every queue size the SYN of a stream is the first of it on the connection |
| Integrity.DeliversNext | lib/smux/session.go:237-257 | the frame that readFrame returns is the next one that was written |
| Integrity.CarriedStep | lib/smux/session.go:369-397 | every step keeps: the connection holds the encodings of the frames written and not read |
| Integrity.SourceStep | lib/smux/stream.go:126-154 | every step keeps, for the streams opened and those accepted: data submitted ++ frames of the current Write not submitted = bytes passed to Write; SYN comes first and only first on the former and never on the latter |
| Integrity.WriteCuts | lib/smux/stream.go:126-126 | Write cuts its argument into frames of exactly MaxFrameSize bytes and the rest |
| Delivery.SunkStep | lib/smux/session.go:268-313 | every step of the receiving side keeps, per stream: it is unknown until its SYN is handled, and while it is in the map pushed ++ payload in hand = payload read from the connection |
| Delivery.StreamIntegrity | lib/smux/session.go:237-539 | for every queue size, in every reachable state and for every stream of the opening side, however many interleave: bytes read ++ buffer ++ payload in hand, on the connection, in writes, held, queued, unsubmitted = bytes passed to Write, until the acceptor closes the stream |
| Delivery.ReadsBeginning | lib/smux/stream.go:66-156 | at any time, closed or not, and for every queue size, what Read returned is a prefix of what was written on that stream |
| Delivery.FinMeansAll | lib/smux/session.go:286-292 | with a queue size of at least 2: once the FIN is handled, everything submitted on the stream has arrived |
| Delivery.OpenerIsHonest | lib/smux/session.go:108-140 | the opening side meets the honesty that the receiving side assumes |
| Delivery.NoneFollowsFin | lib/smux/session.go:286-300 | with a queue size of at least 2, no payload of a stream is handled after its FIN |
| Replies.ReplyIff | lib/smux/session.go:131-137 | for every run and every stream that the sending side has accepted, until the opener closes it: the bytes passed to Write have arrived or are on their way, in order, if and only if no payload was handled before the opener had registered the stream; then read ++ buffer ++ on its way = written |
| Replies.EarlyReply | lib/smux/session.go:131-137 | a run in which the opener writes its SYN, the acceptor answers with a byte, and the opener handles it before it registers the stream: nothing is on its way and nothing arrived |
| ShortQueue.FinFirst | lib/smux/stream.go:159-174 | with a queue of one, a run of the composed system in which Close during Write sends the FIN first: it is handled and no byte has arrived |
| ShortQueue.FinEndsIff | lib/smux/mux.go:78-80 | FinMeansAll holds in all reachable states if and only if the queue size is at least 2 |

## Left out

- StreamCoder.Coder.Write: assumes that the connection takes the whole slice.
- StreamCoder.Coder.Read: the connection's error is not modelled.
- Duplex.RoundTrip: a panic of the guard ends a run, and its steps assume a sound routine, because an unsound one makes the keystream depend on the sizes of the requests; StreamCoder.Coder says what is made then.
- Duplex.Link.Write: the step is promised while the guard accepts and the routine is sound.
- Duplex.Link.Read: the same.
- FlowObfs.FlowObf.Write: the connection takes whole frames; its write errors are not modelled.
- FlowObfs.FlowObf.ReadFrame: the connection ends, or has what is asked for; other errors of it are not modelled.
- FlowObfs.FlowObf.Read: the same.
- SmuxFrame.ReadFrame: a connection that ends inside a frame is an error; partial reads before that are not observed.
- ReceiveEof.EofIff: states both directions for the only reader of a stream, because other readers may have taken the bytes that arrived; ReceiveEof.EofQuiet has the direction that holds for all.
- Sessions.Session.Read: one look of Read, without the wait for the next one; the stream's own returnTokens is StreamFlow.Stream.ReturnTokens. The imperative methods of session.go and stream.go run without interference there; interleavings are the subject of the step systems, whose streams are values in a map, so aliasing of Stream objects is not captured.
- Sessions.Session.Receive: frames of a peer that does not reuse ids, with room in chAccepts.
- Pause.LivelyIff: is about one step; PauseRest.StalledIff is its consequence for runs.
- SendLoop: the steps in which a closing session ends the goroutines, and write errors; a request then gets no result.
- Receiver: chAccepts is taken to have room, so that recvLoop does not block in it with streamLock held.
- Raw unsafe pointers in the portable output path: little-endian word stores into the byte array.
- Instruction scheduling and register allocation beyond the rounds: the write-out of a group is a loop over its rows, and the stack slots of the generator are variables.
- Stopping writes at the moment of a pause: Write checks fulflag once and bucketNotify may hold an old token, so only the flags are modelled.
- guessBucket, rtt, boostTimeout and deadlines: an arbitrary choice of when to pause and resume early.
- Keepalive timing: only its spurious wake-up of recvLoop; ACK replies to NOP are not followed.
- The session's test mode and WriteCustomCMD: a simpler duplicate of the writer path.
- Stream id allocation and its overflow, hub.go and client.go, FlowStat and FlowDump, SHA-256 and SHA-512, the content of the noise, sync.Pool reuse, CPUID and stack alignment.
