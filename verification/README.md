# mcptp tunnel, verified model

`mcptp` carries a stdio MCP server over one WebSocket. The client reads its standard input and sends it as binary
messages; the server starts a child process, writes those messages to its stdin, and sends its stdout back as binary
messages and its stderr, line by line, as text messages. Text messages are small out-of-band JSON objects (`start_ok`,
`start_err`, `shutdown`, `server_exited`, `process_stderr`).

This project models one tunnel as a state machine over the atomic actions of every goroutine on both sides, together
with the process, the pipes and the socket as an environment that may fail at any step, and proves what holds in every
state of every run. The loops of the goroutines are also written as methods, and proved to be sequences of the machine's
steps. `dafny verify dfyconfig.toml` checks everything.

## Files

| file | subject |
|---|---|
| `Lists.dfy`, `Lines.dfy` | concatenation, subsequences, newline splitting of a stream |
| `Wire.dfy` | frames, close codes, outcomes of a send |
| `ByteBuffers.dfy`, `Accumulators.dfy`, `JsonRpc.dfy` | the byte buffer, the line accumulator over it, and the records it reports |
| `Json.dfy`, `Oob.dfy`, `OobTexts.dfy` | JSON text, the two-level out-of-band codec, and its messages written out as text |
| `ServerWorkers.dfy`, `ClientWorkers.dfy`, `Supervisors.dfy` | the atomic steps of each goroutine |
| `Session.dfy` | the composed machine: channels, pipes, links, process, interrupts, and its runs |
| `SessionControl.dfy`, `SessionStdin.dfy`, `SessionReceiver.dfy`, `SessionStdout.dfy`, `SessionLanguage.dfy`, `SessionExit.dfy` | the inductive invariants: joins and instructions, the two byte streams, what the receiver has read and logged, the frame language, handshake, exit codes and stderr |
| `SessionTheorems.dfy`, `SessionLoss.dfy`, `SessionDrain.dfy`, `SessionUnwind.dfy`, `SessionShutdown.dfy`, `SessionWitnesses.dfy`, `SessionCleanRun.dfy` | the results about all runs, lost output, progress and termination of the drain and of the deferred calls, clean shutdown, two runs that show what the code does not guarantee, and a whole orderly session |
| `ServerLoops.dfy`, `ClientLoops.dfy`, `ServerProxy.dfy`, `ClientProxy.dfy` | the goroutines' loops and the two `proxy` functions as methods |
| `Admission.dfy`, `ServerHandler.dfy` | the connection counter, and one request handled among any number of others |

## What is assumed of the libraries

- Frames in one direction arrive in the order they were sent, and nothing follows a close frame. A send succeeds, or
  fails with the frame lost, or fails although the frame went out whole.
- Reading a close frame makes the WebSocket library echo it unless a close was already sent. The client's library may
  close on its own at any time, with a code other than 1000. `CloseNow` sends nothing.
- A write to a pipe succeeds only if all its bytes were consumed; a failed one may have delivered any prefix. A read
  from a closed pipe fails.
- `Wait` returns nil only for exit code 0 and once everything the process wrote has been handed to the readers of its
  output pipes; an exit status other than 0 is an error; any other error is possible once the process has ended.
- For progress, and only there: a read of a closed pipe and a send whose context is done return, and a goroutine whose
  next step is enabled takes it at some point. Progress never relies on a read of an open pipe failing
  (`SessionDrain.Guaranteed`).
- The only assumption about the codec in the session theorems is `Config.Faithful`: decoding an encoded payload gives
  it back. `SessionShutdown.CodecIsFaithful` discharges it for the codec of `Oob.dfy`.

## Where the code and its comments differ

The model follows the code.

- `senderStdout` stores the accumulator's error in the variable that holds the read error (`server/proxy.go:419`,
  tested at `server/proxy.go:433`). A chunk whose first completed line is not a valid response, such as a notification
  or a request from the process, therefore ends the forwarding after that chunk, and an error that a read returned
  together with data would be dropped (`ServerLoops.SenderIsPlainCopyExactly`,
  `ServerLoops.NotificationEndsForwarding`). `receiverStdin` has no such effect (`ServerLoops.ReceiverIsPlainCopy`).
- When the receiver finishes first with nil, the log call at `server/proxy.go:171-172` dereferences it
  (`SessionWitnesses.FaultReachable`, `SessionTheorems.FaultExactly`).
- The comment at `server/proxy.go:178` says that the workers finish and send what they hold. Cancelling them can lose
  the chunk being sent, even when `Wait` returned nil and the shutdown was acknowledged
  (`SessionWitnesses.OutputLossReachable`). `SessionLoss.OutputCompleteExactly` says exactly when nothing is lost.
- A nonzero remote exit code never becomes the client's: the server turns 1000 into 1011 (`server/proxy.go:248-252`) and
  the client then returns 1 (`SessionTheorems.ExitSoundness`).

## Model

| member | source | states |
|---|---|---|
| SessionTheorems.ReachableInv | server/proxy.go:72-216 | every reachable state of both sides, all goroutines interleaved in any way and the environment failing at any step, satisfies the twelve invariants whose preservation the rows below state |
| SessionTheorems.StepKeepsInv | server/proxy.go:151-215 | every atomic action of a goroutine or of the environment keeps the conjunction of the invariants |
| SessionTheorems.StdinEndToEnd | client/proxy.go:93-112 | the bytes that entered the process's stdin are always a prefix of what the client read; once a 1000 instruction is posted by the receiver they are all of it and the client was at the end of its input |
| SessionTheorems.StdoutEndToEnd | server/proxy.go:399-414 | client stdout is a prefix of what the worker read, a prefix of what the process wrote; once the worker ended, read bytes = bytes on the wire + the chunk of at most 64 KiB lost by a failed send, and no chunk is lost unless a send failed; after a nil `Wait` nothing else of the process's output is missing, and nothing at all if and only if no chunk was lost |
| SessionTheorems.StderrEndToEnd | server/proxy.go:482-518 | the stderr lines the client shows are a subsequence of the texts of the non-empty lines of what the worker read, itself a prefix of the process's stderr, in bytes |
| SessionTheorems.LogFaithfulness | server/proxy.go:321-343 | the request accumulator is fed exactly the messages written whole: all binary messages received, except one still being written or, at the end, the one whose write failed, of which some prefix was written; the request lines it reports are a subsequence of the lines the process was given, and the loop observes the verdict on each of them in order |
| SessionTheorems.ServerFrameLanguage | server/proxy.go:114-215 | the server's frames are a prefix of nothing, start_err, or start_ok followed by output and stderr lines and at most one server_exited, then at most one close; only close follows server_exited and nothing follows close |
| SessionTheorems.PeerCompatibility | server/proxy.go:345-377 | the client sends bounded binary messages, then at most one shutdown, so this server never meets an unknown, malformed or odd message from it; this client raises no alarm about this server, and gives up the handshake only without having read anything, or on start_err or a close |
| SessionTheorems.ExitSoundness | client/proxy.go:131-142 | a 1000 close is on the wire only if `Wait` returned nil; after a handshake the client returns 0 if and only if it heard its stdout worker first and that worker's last frame read was a 1000 close, and 1 otherwise; so 0 means the remote process was waited for and succeeded |
| SessionTheorems.InstructionExactly | server/proxy.go:167-215 | in every reachable state without a fault the close instruction is the first result received; only once the exit is reported, a 1000 has become 1011 "process did not finish gracefully" if and only if `Wait` had failed |
| SessionTheorems.WithinReadLimit | server/proxy.go:295-295 | in neither direction is a binary message longer than 65536 bytes |
| SessionTheorems.JoinExactlyOnce | server/proxy.go:151-215 | no post ever finds its channel full; a supervisor that ended without fault after starting the workers received one result from each, `Wait` returned, and server_exited was attempted once |
| SessionTheorems.FaultExactly | server/proxy.go:168-172 | in every reachable state the server function has dereferenced nil if and only if the receiver finished first and the last client frame it read is a close; it then unwinds with no instruction and no exit report |
| SessionTheorems.ReturnCleans | server/proxy.go:72-99 | on every path, faulting or not, a returned server function has cancelled all contexts, and both pipe helpers can run |
| SessionUnwind.UnwindReturns | server/proxy.go:74-99 | from a reachable state in which the supervisor unwinds, faulted or not, and under any interleaving, it has returned exactly when it has taken as many steps as it had deferred actions left, and its instruction is unchanged |
| SessionUnwind.UnwindProgress | server/proxy.go:82-99 | until then the supervisor's next deferred action is enabled, whatever the others do; an attempted close may end in any way the socket allows |
| ServerHandler.HandleConnection | server/proxy.go:28-70 | with any actions of other requests between any two of its own, a request that is refused, not upgraded, proxied to the end or panicking ends counted in neither counter; it is refused exactly when its increment exceeded the limit |
| SessionTheorems.InitialInv | server/proxy.go:72-111 | the invariants hold before the process is started |
| SessionShutdown.AcknowledgedShutdownIsComplete | server/proxy.go:356-363 | when a close acknowledging the shutdown is on the wire, the process got all the client's input, was waited for and exited with 0, and all its output but one chunk at most is on the wire |
| SessionShutdown.ReachableShutdown | server/proxy.go:359-362 | in every reachable state a nil `Wait` is about a process that exited with code 0, only the receiver acknowledges a shutdown, and such a close on the wire is its posted result unchanged |
| SessionShutdown.CodecIsFaithful | protocol/oob.go:15-66 | the out-of-band codec meets the one assumption of the session theorems |
| SessionDrain.DrainDecreases | server/proxy.go:178-197 | after `Wait`, in the receiver-first branch, no event increases the measure over supervisor stage, worker positions, open pipes and unread bytes, and every step of the drain decreases it |
| SessionDrain.DrainProgress | server/proxy.go:382-388 | as long as the drain lasts, one of its steps is enabled that neither the process nor the socket can withhold: a read of a pipe its helper has closed, a send whose context is done, the helper itself, a post or a receive; it cannot deadlock |
| SessionDrain.DrainLeadsToReport | server/proxy.go:185-196 | the drain ends nowhere but in the exit report |
| SessionDrain.DrainTerminates | server/proxy.go:178-197 | from any reachable state and under any interleaving with all other goroutines, a drain takes fewer steps than the measure of the state it starts in |
| SessionWitnesses.FaultReachable | server/proxy.go:313-316 | a run in which the client's library closes without a shutdown and the server dereferences nil |
| SessionWitnesses.OutputLossReachable | server/proxy.go:188-192 | a run with an acknowledged shutdown and a nil `Wait` after which, however it goes on, no output of the process ever reaches the wire |
| SessionCleanRun.AcknowledgingCloseReachable | server/proxy.go:189-198 | a run in which the server joins every worker, reports exit code 0 and puts the acknowledging close with 1000 on the wire |
| SessionCleanRun.SuccessReachable | client/proxy.go:130-142 | its continuation in which the client reads report and close and returns 0 |
| SessionLoss.OutputCompleteExactly | server/proxy.go:399-414 | after a nil `Wait` and the end of the stdout worker, all output of the process is on the wire if and only if no send of the worker lost its chunk in the run |
| SessionLoss.OutputFrozen | server/proxy.go:402-413 | once the stdout worker has ended, no continuation of the run puts output on the wire |
| SessionControl.SupStepKeepsInv | server/proxy.go:114-215 | in each branch the results taken, the contexts cancelled, `Wait` and the exit report are determined by the position, and a 1000 instruction survives only a nil `Wait` |
| SessionControl.ServerStepKeepsInv | server/proxy.go:151-164 | every result posted is in its channel or was received, once; the close instruction is the first result received, as `Wait` adapted it |
| SessionControl.ClientStepKeepsInv | client/proxy.go:40-81 | the client returns the code of the worker it heard first, which is 1 for the stdin worker |
| SessionStdin.StdinStepKeepsInv | client/proxy.go:93-112 | every step keeps: what was read is what is on the wire plus the chunk being sent, and what the process was given is what was received up to the message being written |
| SessionStdout.StdoutStepKeepsInv | client/proxy.go:143-148 | every step keeps: bytes read by the worker = bytes on the wire + the chunk in flight or lost, and client stdout = bytes received up to the message being written |
| SessionStdout.ProcessStepKeepsInv | server/proxy.go:176-176 | every step keeps: no worker reads what the process did not write, and after a nil `Wait` both have read everything |
| SessionLanguage.LangStepKeepsInv | server/proxy.go:114-215 | every step keeps the frames written so far inside the server's frame language, at the place the supervisor's position says |
| SessionLanguage.LangPrefix | server/proxy.go:114-215 | the frame language is closed under prefixes and has close only at the end |
| SessionLanguage.AfterStartOK | client/proxy.go:149-186 | whatever follows start_ok is output, a stderr line, the exit report or the close |
| SessionExit.WireStepKeepsInv | server/proxy.go:244-254 | every step keeps: 1000 on the wire needs a nil `Wait`, a client close with 1000 is an echo, and every server_exited on the wire reports what `Wait` returned |
| SessionExit.VerdictStepKeepsInv | client/proxy.go:160-177 | every step keeps: the client saw start_ok first, raised no alarm, holds a nonzero exit code only for a failed `Wait`, and ends with 1, or with 0 after a nil `Wait` |
| SessionExit.StderrStepKeepsInv | client/proxy.go:157-159 | every step keeps: stderr lines on the wire are the texts of the delivered ones in order, and the client shows exactly those received |
| SessionExit.HandshakeStepKeepsInv | client/proxy.go:19-38 | every step keeps: a refused handshake read nothing, or one frame that is start_err or a close |
| SessionReceiver.SeenStepKeepsInv | server/proxy.go:298-343 | every step keeps: the receiver's result is nil exactly when the last frame it read is a close, and the log is fed exactly the messages written whole |
| ServerLoops.ReceiverStdin | server/proxy.go:296-379 | the loop writes, posts and observes what the machine's steps do on any script; it stops at the first read that stops it, posts 1000 for shutdown, 1003 for a message it cannot use, nil for a closed socket and 1011 for a failed read or write, and has put exactly the bytes its writes consumed into the pipe |
| ServerLoops.ReceiverIsPlainCopy | server/proxy.go:320-344 | receiverStdin writes the same bytes and posts the same result as a loop that only copies |
| ServerLoops.ObservedAreReported | server/proxy.go:333-344 | what the loop observes is its verdict on each line the accumulator reports, in order |
| ServerLoops.SenderStdout | server/proxy.go:399-465 | the loop, with its shared error variable, sends exactly the frames and posts exactly the instruction of the machine's steps; it stops at the first read that stops it, posts 1000 at end of file or on a closed pipe, 1011 on another read error or after a line that is no response, and on a failed send 1011 when the socket was not closed and nil when it was |
| ServerLoops.ResponsesAreForwarded | server/proxy.go:399-432 | while reads and sends succeed and each chunk that completes a line completes a valid response first, every chunk is sent and nothing is posted |
| ServerLoops.WireConserves | server/proxy.go:400-414 | along those steps the bytes on the wire followed by the lost chunk are everything read |
| ServerLoops.SenderCopiesOverwritten | server/proxy.go:400-464 | on every script senderStdout sends and posts what a plain copy loop does over the same reads with the accumulator's error in place of the read error of each chunk sent |
| ServerLoops.SenderIsPlainCopyExactly | server/proxy.go:418-464 | it sends and posts what the plain copy loop does over the original reads if and only if the two errors agree on every chunk sent, or, at the first chunk where they differ, only one of them is an error and the reads that follow are empty and end in that same error |
| ServerLoops.SenderIsPlainCopyUntilRejected | server/proxy.go:418-464 | over a pipe, which never returns data with an error, it sends what the plain copy loop sends up to and including the first chunk that completes a rejected line, and then posts an internal error |
| ServerLoops.NotificationEndsForwarding | server/proxy.go:418-433 | a chunk completing a line with neither result nor error is the last one sent, and the posted instruction is 1011 |
| ServerLoops.ReadString | server/proxy.go:485-487 | one call takes the next line off the buffer, or everything at the end, reading as much as needed |
| ServerLoops.SenderStderr | server/proxy.go:482-519 | for every cut of the bytes into reads and every outcome of the sends, the lines tried are exactly the non-empty lines of everything read, unterminated last one included, and the delivered ones are those not lost |
| ServerLoops.LinesDone | server/proxy.go:482-518 | after any sequence of the worker's steps that ends its reading, the lines tried are the non-empty lines of everything read |
| ServerWorkers.ErrStepKeepsInv | server/proxy.go:485-517 | at every step the lines tried are the non-empty lines of the text split so far, and delivered lines are a subsequence of them |
| ServerWorkers.LinesByHand | server/proxy.go:485-488 | what the non-empty lines of a text are, from its first newline on |
| ClientLoops.ReceiverStdin | client/proxy.go:93-116 | on any script the loop puts exactly the chunks read, and at the end of its input the shutdown message, on the wire; it posts 1 if and only if a send failed or a read failed otherwise than by end of file, and else waits |
| ClientLoops.SendsWhatItReads | client/proxy.go:93-112 | running those steps, everything read is on the wire unless a send failed; the worker waits for the end of the session only at the end of its input, with the shutdown message as the last frame |
| ClientLoops.SenderStdout | client/proxy.go:130-187 | the loop stops at the first close, failed read or failed write; on a close with 1000 it posts the code of the last exit report, 1 when that report had none and 0 when there was no report, and on any other end 1; it has written the bytes its writes consumed and shown every stderr line before the end |
| ClientProxy.Proxy | client/proxy.go:17-82 | only start_ok as the first message lets the client go on; its result is the code of the worker heard first, whether or not the other posts in time; its actions are a trace of the supervisor machine |
| ServerProxy.HandleProcessWaitError | server/proxy.go:220-255 | the message carries the exit code if and only if the process exited, killed if and only if it was signalled, and Wait's text; the instruction changes if and only if it was 1000, and is never 1000 afterwards |
| ServerProxy.StartProcess | server/proxy.go:113-145 | starts the workers if and only if the start and its message succeeded, else leaves an internal-error instruction; its frames are those of the machine's first two steps |
| ServerProxy.Proxy | server/proxy.go:72-216 | an accepted trace of the supervisor machine; it panics exactly when the receiver came first with nil; the instruction is 1011 when the start or its message failed, the first result when `Wait` returned nil or it was not 1000, and 1011 in place of a 1000 when `Wait` failed; its frames are the start message, the exit report (code 0, not killed, no error after a nil `Wait`) and the close |
| ServerProxy.BodyReaches | server/proxy.go:151-215 | the body leads the machine to unwinding with one result per worker and one exit report, or with a fault, and with the instruction the function ends with |
| ServerProxy.DeferredReaches | server/proxy.go:74-99 | the deferred calls cancel every context and close the socket exactly when there is an instruction |
| ServerProxy.JoinsReachExit | server/proxy.go:167-214 | both branches can run their joins through and reach the exit report with one result per worker |
| Accumulators.Accumulator.ReadCompleteLine | protocol/jsonrpcv2/accumulator.go:70-108 | reports the first completed line, and the buffer then holds what follows the last newline of all bytes; the read-error and short-read branches cannot be taken and the drain loop ends |
| Accumulators.Accumulator.AccumulateRequest | protocol/jsonrpcv2/accumulator.go:21-38 | it returns a record if and only if a line is completed and the first parses to a request with version "2.0" and a method, nothing if and only if no line is completed, and the buffer ends the same whether or not it parses |
| Accumulators.Accumulator.AccumulateResponse | protocol/jsonrpcv2/accumulator.go:47-64 | the same for responses, with version "2.0" and exactly one of result and error |
| Accumulators.ReportsFirstNewline | protocol/jsonrpcv2/accumulator.go:78-88 | a call reports a line if and only if its chunk holds a newline, namely the pending bytes and the chunk up to its first newline |
| Accumulators.PendingIndependentOfChunking | protocol/jsonrpcv2/accumulator.go:73-106 | after any sequence of calls the buffer holds what follows the last newline of everything fed, however it was cut |
| Accumulators.HandledIsEverything | protocol/jsonrpcv2/accumulator.go:73-107 | reported and drained lines in order are all complete lines, and with the residual buffer they concatenate to the whole input |
| Accumulators.ReportedAreLines | protocol/jsonrpcv2/accumulator.go:94-106 | the reported lines are a subsequence of all handled ones |
| Accumulators.LosslessExactly | protocol/jsonrpcv2/accumulator.go:94-106 | every line is reported if and only if no chunk holds more than one newline |
| Accumulators.OneByteChunksReportAll | protocol/jsonrpcv2/accumulator.go:70-108 | feeding one byte at a time reports every line |
| Accumulators.CoarseningReportsLess | protocol/jsonrpcv2/accumulator.go:94-106 | the lines reported under a coarser chunking are a subsequence of those reported under any refinement of it |
| Accumulators.FirstReportIsFirstLine | protocol/jsonrpcv2/accumulator.go:83-88 | however a text is cut, the first line reported is its first line |
| ByteBuffers.ByteBuffer.Write | protocol/jsonrpcv2/accumulator.go:73-73 | appends to the unread bytes, across reset, sliding and reallocation |
| ByteBuffers.ByteBuffer.Read | protocol/jsonrpcv2/accumulator.go:83-88 | takes as many bytes as asked for or there are, and reports end of file only for an empty buffer |
| ByteBuffers.ByteBuffer.Next | protocol/jsonrpcv2/accumulator.go:105-105 | drops the next bytes of the unread contents |
| ByteBuffers.ByteBuffer.IndexByte | protocol/jsonrpcv2/accumulator.go:78-78 | the first position of a byte in the unread contents, or -1 |
| Oob.RoundTrip | protocol/oob.go:15-66 | decoding an encoded payload gives it back, for all five payloads, any strings, any 64-bit integers, any optional exit code |
| Oob.EncodingsDiffer | protocol/oob.go:68-106 | different payloads never share an encoding |
| Oob.DecodeEnvelope | protocol/oob.go:68-71 | the envelope yields the tag and exactly the inner text, whatever that text contains |
| Oob.DecodeFields | protocol/oob.go:180-238 | the fields of each payload are read back, and never as another payload's |
| OobTexts.StartOKText | protocol/oob.go:79-106 | the message as text, member names and type included, and that the decoder reads that text back |
| OobTexts.StartErrText | protocol/oob.go:112-139 | the same for a failed start |
| OobTexts.ShutdownText | protocol/oob.go:145-170 | the same for a shutdown |
| OobTexts.ExitedText | protocol/oob.go:176-205 | the same for an exit report, with its three members in order and null for an absent code |
| OobTexts.StderrText | protocol/oob.go:211-238 | the same for a stderr line |
| OobTexts.DecodesAnyInteger | protocol/oob.go:23-30 | any integer as process id is read exactly when it fits in 64 bits and refused otherwise |
| OobTexts.RefusesUnknownType | protocol/oob.go:62-65 | a type that is none of the five is refused whatever the data |
| OobTexts.DecodesOtherOrder | protocol/oob.go:16-20 | members in another order, with a foreign member between them, decode to the same payload |
| OobTexts.DecodesNullData | protocol/oob.go:68-71 | null data is read as an object without members |
| OobTexts.RefusesNoData | protocol/oob.go:68-71 | a message without data is refused |
| OobTexts.DecodesAfterSpace | protocol/oob.go:16-20 | white space before a message does not matter |
| OobTexts.EscapesByHand | protocol/oob.go:87-94 | the escapes of quote, backslash, control and HTML characters and line separators, literally |
| OobTexts.ReadsSurrogates | protocol/oob.go:16-20 | a surrogate pair is read as its character |
| Json.ReadQuoted | protocol/oob.go:87-94 | a written string literal is read back as the string it was written for, whatever follows it |
| Json.IntTextDenotes | protocol/oob.go:83-85 | a written integer denotes the integer |
| Json.RenderReads | protocol/oob.go:68-71 | the scan of an object finds its members and its end exactly, whatever quotes, braces or escapes the values hold |
| Json.RenderDelimited | protocol/oob.go:68-71 | an object of delimited values is itself delimited, so it can be nested, and is one whole document |
| Admission.Connections.constructor | server/proxy.go:23-26 | no handler is in flight |
| Admission.Connections.Arrive | server/proxy.go:30-36 | a fresh connection id, one more request in flight |
| Admission.Connections.Increment | server/proxy.go:38-40 | the increment returns how many handlers are between their increment and their decrement, this one included |
| Admission.Connections.Check | server/proxy.go:41-51 | a request is refused exactly when that number exceeded the limit |
| Admission.Connections.SkipCheck | server/proxy.go:37-38 | without a limit nothing is counted |
| Admission.Connections.Accept | server/proxy.go:54-60 | a failed upgrade goes straight to the deferred calls |
| Admission.Connections.ProxyEnds | server/proxy.go:61-68 | a proxy that returned or panicked leads to the deferred calls |
| Admission.Connections.Decrement | server/proxy.go:40-40 | the counter is decremented by exactly the handlers that incremented it, and stays the number of handlers in the span |
| Admission.Connections.Done | server/proxy.go:30-31 | one request less in flight |
| Admission.Connections.Others | server/proxy.go:30-68 | any sequence of actions of other requests keeps the counters right and does not touch this request |
| Admission.Connections.AtMostLimitPastCheck | server/proxy.go:38-52 | under any interleaving of any number of handlers, at most the limit of them are past the check at once |

## Left out

- Sockets, HTTP upgrade, TLS, certificate generation, compression, read limits as such: library wrappers.
- Command lines, signals, logging and the texts that go to a terminal, including the client's `exitInfo`, the
  truncation of logged stderr lines and the wrapping of the client's result in exit code 3.
- The texts of wrapped errors in close reasons: a reason is one of an enumeration.
- Loss of frames other than by a failed send, and reordering: excluded by TCP and the WebSocket protocol.
- Closes that the server's WebSocket library would send on a protocol error of its peer: this client commits none
  (`SessionTheorems.PeerCompatibility`).
- `json.Unmarshal` of request and response bodies: a parameter, any partial function from a line to a record.
- JSON beyond the out-of-band messages: the nesting limit of Go's decoder, its replacement of invalid UTF-8 by U+FFFD,
  and the encoder's doing so; strings are sequences of Unicode characters.
- How the bytes of a stderr line become the text of a message: a parameter, any function.
- Buffer growth: `ErrTooLarge`, and the rounding of capacities by Go's allocator.
- Wrap-around of the 64-bit counters.
- Goroutine scheduling: liveness of whole sessions is not claimed, since nothing closes the stdout pipe's writer and a
  blocked pipe write is not released by its context. The client's 100 ms timer is a nondeterministic choice.
- Reaping of a process whose start_ok could not be sent.
- `ErrorCode.String`, `Batch`, `BatchResponse`, `IsReservedMethod` and other one-line predicates; `isLoopbackHost`.
- SessionDrain.DrainTerminates: a read of zero bytes without an error, which the pipes of Go's library do not return for
  non-empty writes, is not counted as a step of the drain.
- ServerLoops.SenderStdout: a script lists the results of successive reads and sends; that later reads depend on
  earlier actions is part of the session machine only.
