# Reactor echo servers in Dafny

A model of the two Java NIO echo servers of the ReactorModel repository, with proofs.

The multi-reactor server works as follows:
- An acceptor reactor deals accepted connections round-robin to N sub-reactors.
- Each sub-reactor owns a worker pool.
- Each connection is driven by a `Handler`. Its states are READING, PROCESSING and SENDING.
  - In READING it reads into a 1024-byte buffer.
  - The processing step is handed to the pool.
  - In SENDING it writes the buffer back.

The single-reactor server works as follows:
- Its `EchoHandler` reads into its own 1024-byte buffer.
- It copies the bytes out and writes the copy back until all of it is gone.
- It then clears the buffer.

The operating system is replaced by explicit inputs:
- what a read finds: bytes, end of stream or a fault;
- how many bytes each write gets rid of, or a fault;
- whether a pool has been shut down;
- whether `accept` returned a connection;
- whether a `close` fails.

Modules:

- `Buffers`: the heap `ByteBuffer`, as a value `Buf` and as a class `ByteBuffer` over an array with `position` and `limit`.
  - Value side: `allocate`, `wrap`, `flip`, `clear`, bulk `get`, and the puts and skips a socket makes.
  - Each class method is proved equal to the corresponding function on values.
- `Channels`: what the handlers need of the socket and of the selection key.
  - `SocketChannel.read` and `write` are the functions `ReadEffect` and `WriteEffect`; the class `Channel` has `Read`, `Write` and `Close`.
  - The channel keeps ghost histories of the bytes received and sent.
  - `SelectionKey` covers `interestOps`, `cancel` and `attach`.
- `Connection`: the multi-reactor handler's state machine, as functions on its whole state `Conn`, with the invariant and the lemmas about it.
- `RoundRobin`: the choice of sub-reactor, its balance, and the 32-bit counter of the code as written.
- `MultiThreadEchoServer`: the classes `WorkerPool`, `Handler`, `SubReactor` and `MainReactor`.
  - Every `Handler` method is proved to follow the `Connection` functions.
  - `Run`, `Read`, `Send` and `CompleteProcessing` keep the handler invariant; `Close` keeps it whenever it held before.
- `EchoServer`: the single-reactor handler.
  - Its run is the function `HandleRead`, and the class `EchoHandler` is proved to follow it.
  - The main theorem is `EchoKeepsInv`: the server only ever sends back a prefix of what it has received, in order. While the connection is open, it has sent back all of it.

Behaviours of the code that the model keeps as they are:
- One would expect a SENDING step to repeat writes until the buffer is flushed. `Handler.send` writes once per write-ready event, and flips the buffer each time (see Findings).
- One would expect a completion on an already closed connection to do nothing. `Processer.run` calls `interestOps` on the cancelled key, which throws `CancelledKeyException` after the state has been set to SENDING. This is modelled as an unchecked exception escaping (`Raised.Unchecked`).
- `MainReactor.running` is never set to false, so only an exception ends the acceptor loop. The model therefore offers the shutdown cascade (`MainReactor.Shutdown`) as an operation of its own.
- The single-reactor handler never closes a connection on end of stream (`NoDataNoReply`). Its key stays registered for reads, so the selector reports it ready again at once, and each run reads -1 and does nothing: nothing in the server ever ends this, so the handler spins on that connection indefinitely.

## Model

| member | source | states |
|---|---|---|
| Buffers.Allocated | Code/src/main/java/com/xiaoyongcai/io/MultiReactor/MultiThreadEchoServer.java:146 | `allocate(capacity)`: a clear buffer of that capacity, all of it writable, every byte zero |
| Buffers.Wrapped | Code/src/main/java/com/xiaoyongcai/io/SingleReactor/EchoServer.java:95 | `wrap(bytes)`: a clear buffer whose pending bytes are exactly `bytes` |
| Buffers.Flipped | Code/src/main/java/com/xiaoyongcai/io/MultiReactor/MultiThreadEchoServer.java:185 | `flip()`: what was written, `data[0..position)`, becomes exactly what is pending; the contents are unchanged |
| Buffers.Cleared | Code/src/main/java/com/xiaoyongcai/io/MultiReactor/MultiThreadEchoServer.java:190 | `clear()`: position 0, limit the capacity, contents unchanged |
| Buffers.Filled | Code/src/main/java/com/xiaoyongcai/io/MultiReactor/MultiThreadEchoServer.java:175 | a channel read's put: the bytes land at the position, in order; the bytes before and after them are untouched; the room shrinks by their number |
| Buffers.Advanced | Code/src/main/java/com/xiaoyongcai/io/MultiReactor/MultiThreadEchoServer.java:186 | moving the position by n splits the pending bytes into the n consumed and the rest |
| Buffers.FlipAfterFill | Code/src/main/java/com/xiaoyongcai/io/SingleReactor/EchoServer.java:84-87 | bytes put into a cleared buffer are, after `flip()`, exactly the pending bytes |
| Buffers.ByteBuffer.Allocate | Code/src/main/java/com/xiaoyongcai/io/MultiReactor/MultiThreadEchoServer.java:146 | a fresh backing array; the buffer equals `Allocated(capacity)` |
| Buffers.ByteBuffer.Wrap | Code/src/main/java/com/xiaoyongcai/io/SingleReactor/EchoServer.java:95 | the buffer shares the given array and equals `Wrapped` of its contents |
| Buffers.ByteBuffer.Flip | Code/src/main/java/com/xiaoyongcai/io/MultiReactor/MultiThreadEchoServer.java:185 | in place, equals `Flipped` of the old buffer |
| Buffers.ByteBuffer.Clear | Code/src/main/java/com/xiaoyongcai/io/SingleReactor/EchoServer.java:101 | in place, equals `Cleared` of the old buffer |
| Buffers.ByteBuffer.Get | Code/src/main/java/com/xiaoyongcai/io/SingleReactor/EchoServer.java:89-90 | copies exactly the next `dst.Length` pending bytes into `dst` and advances past them |
| Buffers.ByteBuffer.Put | Code/src/main/java/com/xiaoyongcai/io/MultiReactor/MultiThreadEchoServer.java:175 | in place, equals `Filled` of the old buffer |
| Buffers.ByteBuffer.Skip | Code/src/main/java/com/xiaoyongcai/io/MultiReactor/MultiThreadEchoServer.java:186 | in place, equals `Advanced` of the old buffer |
| Channels.ReadEffect | Code/src/main/java/com/xiaoyongcai/io/MultiReactor/MultiThreadEchoServer.java:175 | read fails iff the channel is closed or a fault occurs with room left; -1 iff end of stream with room; 0 on an open channel with no room; bytes arriving on an open channel with room give exactly min(arrived, room), and those bytes are stored at the position, appended to the received history, and nothing is sent |
| Channels.WriteEffect | Code/src/main/java/com/xiaoyongcai/io/MultiReactor/MultiThreadEchoServer.java:186 | write succeeds iff the channel is open and either the socket has room or nothing is pending; with nothing pending it returns 0 and changes nothing; otherwise it takes min(room, remaining) leading pending bytes, which are appended to the sent history |
| Channels.DrainsFewer | Code/src/main/java/com/xiaoyongcai/io/SingleReactor/EchoServer.java:95-98 | a write schedule that gets rid of m bytes also gets rid of any fewer |
| Channels.Channel.Accepted | Code/src/main/java/com/xiaoyongcai/io/MultiReactor/MultiThreadEchoServer.java:80 | an accepted channel is open with empty histories |
| Channels.Channel.Read | Code/src/main/java/com/xiaoyongcai/io/MultiReactor/MultiThreadEchoServer.java:175 | equals `ReadEffect` on the channel and the buffer |
| Channels.Channel.Write | Code/src/main/java/com/xiaoyongcai/io/MultiReactor/MultiThreadEchoServer.java:186 | equals `WriteEffect` on the channel and the buffer |
| Channels.Channel.Close | Code/src/main/java/com/xiaoyongcai/io/MultiReactor/MultiThreadEchoServer.java:199-201 | the channel is closed and nothing else changes; closing again changes nothing |
| Channels.SelectionKey.Register | Code/src/main/java/com/xiaoyongcai/io/MultiReactor/MultiThreadEchoServer.java:155 | a new key with the given interest, registered |
| Channels.SelectionKey.Attach | Code/src/main/java/com/xiaoyongcai/io/MultiReactor/MultiThreadEchoServer.java:156 | the attachment is set; interest and validity are unchanged |
| Channels.SelectionKey.InterestOps | Code/src/main/java/com/xiaoyongcai/io/MultiReactor/MultiThreadEchoServer.java:189 | on a valid key the interest becomes `ops`; on a cancelled key it fails and leaves the key as it was |
| Channels.SelectionKey.Cancel | Code/src/main/java/com/xiaoyongcai/io/MultiReactor/MultiThreadEchoServer.java:196-198 | the key is invalid; nothing else changes |
| Connection.Initial | Code/src/main/java/com/xiaoyongcai/io/MultiReactor/MultiThreadEchoServer.java:146-158 | a new handler: READING, clear 1024-byte buffer at position 0, read interest, registered key, nothing pending; the invariant holds |
| Connection.CloseStep | Code/src/main/java/com/xiaoyongcai/io/MultiReactor/MultiThreadEchoServer.java:194-205 | `close()`: key cancelled and socket closed; state, buffer, pending tasks, interest and the byte histories are unchanged |
| Connection.ReadOp | Code/src/main/java/com/xiaoyongcai/io/MultiReactor/MultiThreadEchoServer.java:174-182 | `read()`: an IOException iff the socket is closed or a read fault meets room, and then nothing changes; one more queued task iff bytes arrived on an open socket with room and the pool takes tasks; bytes arriving on an open socket with room always give PROCESSING, with an unchecked exception iff the pool is shut down; in every other case the state is kept; the socket closes exactly on end of stream; nothing is sent and the bytes before the position are kept |
| Connection.SendOp | Code/src/main/java/com/xiaoyongcai/io/MultiReactor/MultiThreadEchoServer.java:184-192 | `send()`: an IOException iff the socket is closed or the write faults with bytes to write; the bytes sent lie between nothing and `data[0..position)`; a write taking all of them gives READING, everything sent, and (on a live key) a cleared buffer with read interest, else an unchecked exception; a shorter write stays SENDING with position k and limit the old position |
| Connection.ProcessStep | Code/src/main/java/com/xiaoyongcai/io/MultiReactor/MultiThreadEchoServer.java:207-220 | `Processer.run`: one task consumed and SENDING; buffer and socket untouched; an unchecked exception iff the key was cancelled, otherwise write interest |
| Connection.InvPreservedByRead | Code/src/main/java/com/xiaoyongcai/io/MultiReactor/MultiThreadEchoServer.java:174-182 | `read()` keeps the invariant, also when it raises |
| Connection.InvPreservedBySend | Code/src/main/java/com/xiaoyongcai/io/MultiReactor/MultiThreadEchoServer.java:184-192 | `send()` keeps the invariant, also when it raises |
| Connection.RunStep | Code/src/main/java/com/xiaoyongcai/io/MultiReactor/MultiThreadEchoServer.java:160-172 | `run()`: an IOException never escapes (it is turned into `close()`) |
| Connection.InvPreservedByRun | Code/src/main/java/com/xiaoyongcai/io/MultiReactor/MultiThreadEchoServer.java:160-192 | every dispatch keeps the handler invariant |
| Connection.InvPreservedByProcess | Code/src/main/java/com/xiaoyongcai/io/MultiReactor/MultiThreadEchoServer.java:207-220 | a completed Processer keeps the invariant |
| Connection.InvPreservedByClose | Code/src/main/java/com/xiaoyongcai/io/MultiReactor/MultiThreadEchoServer.java:194-205 | `close()` keeps the invariant |
| Connection.TransitionsAreLegal | Code/src/main/java/com/xiaoyongcai/io/MultiReactor/MultiThreadEchoServer.java:163-190 | dispatches only stay, go READING to PROCESSING or SENDING to READING; completion goes PROCESSING to SENDING; close keeps the state |
| Connection.ProcessingIgnoresEvents | Code/src/main/java/com/xiaoyongcai/io/MultiReactor/MultiThreadEchoServer.java:161-167 | a dispatch while PROCESSING reads nothing, writes nothing and changes nothing |
| Connection.ReadEventCases | Code/src/main/java/com/xiaoyongcai/io/MultiReactor/MultiThreadEchoServer.java:174-182 | READING: bytes > 0 give PROCESSING with exactly one more task, the bytes stored at 0..n and appended to the received history; 0 bytes change nothing; end of stream or a fault closes |
| Connection.ReadOnShutdownPool | Code/src/main/java/com/xiaoyongcai/io/MultiReactor/MultiThreadEchoServer.java:176-178 | on a shut-down pool the state still becomes PROCESSING, no task is queued, and an unchecked exception escapes |
| Connection.ProcessDoneKeepsData | Code/src/main/java/com/xiaoyongcai/io/MultiReactor/MultiThreadEchoServer.java:216-217 | completion: SENDING with write interest; buffer and socket untouched |
| Connection.SendEventCases | Code/src/main/java/com/xiaoyongcai/io/MultiReactor/MultiThreadEchoServer.java:184-192 | a write taking everything flipped: READING, read interest, cleared buffer, `data[0..position)` sent; a partial write: still SENDING with the written prefix sent |
| Connection.IoFailureCloses | Code/src/main/java/com/xiaoyongcai/io/MultiReactor/MultiThreadEchoServer.java:168-171 | an IOException from read or write (a write fault with bytes to write) closes the connection and leaves the state where it was |
| Connection.CloseIdempotent | Code/src/main/java/com/xiaoyongcai/io/MultiReactor/MultiThreadEchoServer.java:194-205 | closing twice is closing once |
| Connection.ClosedStaysClosed | Code/src/main/java/com/xiaoyongcai/io/MultiReactor/MultiThreadEchoServer.java:160-172 | after close, a dispatch leaves it closed and sends or receives nothing |
| Connection.EchoCycle | Code/src/main/java/com/xiaoyongcai/io/MultiReactor/MultiThreadEchoServer.java:174-190 | READING, PROCESSING, SENDING, READING with a one-call write sends back exactly the (at most 1024) bytes read |
| Connection.ZeroWriteLosesReply | Code/src/main/java/com/xiaoyongcai/io/MultiReactor/MultiThreadEchoServer.java:184-192 | a write event that takes nothing, then any further write event: the re-flip leaves nothing pending, so the handler returns to READING with a cleared buffer having sent none of the reply |
| Connection.TwoSendsResend | Code/src/main/java/com/xiaoyongcai/io/MultiReactor/MultiThreadEchoServer.java:184-192 | two write events in SENDING, the first taking k1 of the bytes: the second starts over from byte 0, so the first k1 bytes are sent twice and the phase ends READING with a cleared buffer |
| Connection.ResendAfterPartialWrite | Code/src/main/java/com/xiaoyongcai/io/MultiReactor/MultiThreadEchoServer.java:184-192 | after a partial write of k1 bytes, the next send sends the first k1 bytes again and never the rest |
| Connection.FixedProcessStep | Code/src/main/java/com/xiaoyongcai/io/MultiReactor/MultiThreadEchoServer.java:207-220 | corrected completion: the buffer is flipped once, its pending bytes are those read |
| Connection.FixedSendOp | Code/src/main/java/com/xiaoyongcai/io/MultiReactor/MultiThreadEchoServer.java:184-192 | corrected `send()`: no IOError escapes; a closed socket, or a fault with bytes pending, closes it and keeps the buffer; otherwise it sends exactly the first min(k, remaining) pending bytes; a shorter write leaves the rest pending in SENDING, a full one gives READING, a cleared buffer and read interest; an unchecked exception only when a full write meets a cancelled key on an open socket, so none while the key is valid exactly when the socket is open |
| Connection.FixedSendAll | Code/src/main/java/com/xiaoyongcai/io/MultiReactor/MultiThreadEchoServer.java:184-192 | corrected sending phase over successive write events keeps a valid buffer |
| Connection.FixedSendDrains | Code/src/main/java/com/xiaoyongcai/io/MultiReactor/MultiThreadEchoServer.java:184-192 | with the correction, any split of writes sends exactly the pending bytes and ends READING, cleared, read interest |
| Connection.FixedEchoCycle | Code/src/main/java/com/xiaoyongcai/io/MultiReactor/MultiThreadEchoServer.java:174-192 | with the correction, the bytes sent back are exactly the bytes read however the writes are split |
| RoundRobin.Target | Code/src/main/java/com/xiaoyongcai/io/MultiReactor/MultiThreadEchoServer.java:82 | the chosen index is below N |
| RoundRobin.TargetSuccessor | Code/src/main/java/com/xiaoyongcai/io/MultiReactor/MultiThreadEchoServer.java:82 | consecutive accepts go to consecutive sub-reactors, wrapping from the last to the first |
| RoundRobin.HitsCount | Code/src/main/java/com/xiaoyongcai/io/MultiReactor/MultiThreadEchoServer.java:80-84 | after k accepts sub-reactor j holds k div N connections, plus one if j < k mod N |
| RoundRobin.Balanced | Code/src/main/java/com/xiaoyongcai/io/MultiReactor/MultiThreadEchoServer.java:80-84 | after at least N accepts every sub-reactor has one; any two differ by at most one |
| RoundRobin.Wrap32 | Code/src/main/java/com/xiaoyongcai/io/MultiReactor/MultiThreadEchoServer.java:23 | Java int wrap-around: the result is in [-2^31, 2^31) and congruent to x mod 2^32 |
| RoundRobin.JavaRem | Code/src/main/java/com/xiaoyongcai/io/MultiReactor/MultiThreadEchoServer.java:82 | Java `%`: equals `a mod b` for a non-negative dividend; for a negative one it lies in (-b, 0]; in both cases `a - r` is a multiple of `b` |
| RoundRobin.AsWrittenAgreesBeforeWrap | Code/src/main/java/com/xiaoyongcai/io/MultiReactor/MultiThreadEchoServer.java:82 | for the first 2^31 accepts the code as written picks count mod N |
| RoundRobin.IndexAsWritten | Code/src/main/java/com/xiaoyongcai/io/MultiReactor/MultiThreadEchoServer.java:82 | the index the code computes from the 32-bit counter lies in (-N, N), and it is negative only once the counter has wrapped |
| RoundRobin.AsWrittenOutOfBoundsAtWrap | Code/src/main/java/com/xiaoyongcai/io/MultiReactor/MultiThreadEchoServer.java:82 | accept number 2^31 with N = 3 computes index -2 |
| RoundRobin.EveryNFailsAtWrap | Code/src/main/java/com/xiaoyongcai/io/MultiReactor/MultiThreadEchoServer.java:82 | for every N >= 2, accept 2^31 or accept 2^31 + 1 computes a negative index |
| MultiThreadEchoServer.WorkerPool.constructor | Code/src/main/java/com/xiaoyongcai/io/MultiReactor/MultiThreadEchoServer.java:99-100 | a new pool accepts tasks |
| MultiThreadEchoServer.WorkerPool.Execute | Code/src/main/java/com/xiaoyongcai/io/MultiReactor/MultiThreadEchoServer.java:178 | a task is accepted iff the pool is not shut down |
| MultiThreadEchoServer.WorkerPool.Shutdown | Code/src/main/java/com/xiaoyongcai/io/MultiReactor/MultiThreadEchoServer.java:109 | the pool no longer accepts tasks |
| MultiThreadEchoServer.Handler.constructor | Code/src/main/java/com/xiaoyongcai/io/MultiReactor/MultiThreadEchoServer.java:150-158 | the handler's state is `Initial` of the channel; its key is fresh and attached to it |
| MultiThreadEchoServer.Handler.Run | Code/src/main/java/com/xiaoyongcai/io/MultiReactor/MultiThreadEchoServer.java:160-172 | follows `RunStep` and keeps the invariant |
| MultiThreadEchoServer.Handler.Read | Code/src/main/java/com/xiaoyongcai/io/MultiReactor/MultiThreadEchoServer.java:174-182 | follows `ReadOp` and keeps the invariant, also when it raises |
| MultiThreadEchoServer.Handler.Send | Code/src/main/java/com/xiaoyongcai/io/MultiReactor/MultiThreadEchoServer.java:184-192 | follows `SendOp`, flip included, and keeps the invariant, also when it raises |
| MultiThreadEchoServer.Handler.Close | Code/src/main/java/com/xiaoyongcai/io/MultiReactor/MultiThreadEchoServer.java:194-205 | follows `CloseStep`; keeps the invariant when it held before |
| MultiThreadEchoServer.Handler.CompleteProcessing | Code/src/main/java/com/xiaoyongcai/io/MultiReactor/MultiThreadEchoServer.java:207-220 | follows `ProcessStep` and keeps the invariant |
| MultiThreadEchoServer.SubReactor.constructor | Code/src/main/java/com/xiaoyongcai/io/MultiReactor/MultiThreadEchoServer.java:97-101 | running, with a fresh pool that accepts tasks |
| MultiThreadEchoServer.SubReactor.Register | Code/src/main/java/com/xiaoyongcai/io/MultiReactor/MultiThreadEchoServer.java:103-105 | a handler in its initial state on this reactor's pool iff the channel is open; it is recorded |
| MultiThreadEchoServer.SubReactor.Stop | Code/src/main/java/com/xiaoyongcai/io/MultiReactor/MultiThreadEchoServer.java:107-111 | not running and the pool shut down |
| MultiThreadEchoServer.MainReactor.constructor | Code/src/main/java/com/xiaoyongcai/io/MultiReactor/MultiThreadEchoServer.java:26-40 | N distinct fresh running sub-reactors, counter 0 |
| MultiThreadEchoServer.MainReactor.Accept | Code/src/main/java/com/xiaoyongcai/io/MultiReactor/MultiThreadEchoServer.java:76-89 | a non-null accept is the next one in order and goes to sub-reactor `count mod N`; the counter grows by exactly one; a null accept changes nothing; only the chosen sub-reactor gains the handler |
| MultiThreadEchoServer.MainReactor.Shutdown | Code/src/main/java/com/xiaoyongcai/io/MultiReactor/MultiThreadEchoServer.java:56-66 | selector closed, then server socket, then every sub-reactor stopped; a failing close skips the rest |
| EchoServer.WriteAll | Code/src/main/java/com/xiaoyongcai/io/SingleReactor/EchoServer.java:95-98 | the write loop sends exactly the pending bytes when it finishes; it sends a prefix of them when a write throws; it always finishes when the channel is open and writes never fail |
| EchoServer.WriteAllStep | Code/src/main/java/com/xiaoyongcai/io/SingleReactor/EchoServer.java:96-98 | one round of the write loop either throws and ends it, or leaves a schedule that still gets rid of the rest |
| EchoServer.WriteAllHitsFault | Code/src/main/java/com/xiaoyongcai/io/SingleReactor/EchoServer.java:95-98 | a write fault reached while bytes are still pending ends the loop with the exception |
| EchoServer.CloseEcho | Code/src/main/java/com/xiaoyongcai/io/SingleReactor/EchoServer.java:106-108 | the socket is closed and its key cancelled; the buffer, the interest and the byte histories are unchanged |
| EchoServer.Replied | Code/src/main/java/com/xiaoyongcai/io/SingleReactor/EchoServer.java:85-103 | the bytes sent are a prefix of `buffer[0, position)`; if the connection stays open they are all of it, and the buffer is cleared with read interest; an interrupted sleep, a cancelled key or a write loop ending in an exception closes the socket |
| EchoServer.HandleRead | Code/src/main/java/com/xiaoyongcai/io/SingleReactor/EchoServer.java:81-112 | one `run()`: a valid buffer of the same size; it never reopens the socket or revalidates the key; the histories only grow; from a clear buffer, nothing received means nothing sent |
| EchoServer.Registered | Code/src/main/java/com/xiaoyongcai/io/SingleReactor/EchoServer.java:71-78 | a new handler: clear 1024-byte buffer, read interest, registered; the invariant holds |
| EchoServer.EchoKeepsInv | Code/src/main/java/com/xiaoyongcai/io/SingleReactor/EchoServer.java:81-112 | every run keeps: sent is a prefix of received, equal while open; buffer clear while open |
| EchoServer.EchoesWhatWasRead | Code/src/main/java/com/xiaoyongcai/io/SingleReactor/EchoServer.java:84-102 | a read of bytes on a live connection sends back exactly the min(\|bytes\|, 1024) read, in order, and leaves the handler open, cleared, read interest |
| EchoServer.NoDataNoReply | Code/src/main/java/com/xiaoyongcai/io/SingleReactor/EchoServer.java:84-85 | position 0 after the read (nothing or end of stream): nothing changes and nothing is closed |
| EchoServer.FailureCloses | Code/src/main/java/com/xiaoyongcai/io/SingleReactor/EchoServer.java:104-110 | a read fault, a write fault reached before the echo is fully written (after any number of partial writes), or an interrupted sleep closes the socket and cancels the key |
| EchoServer.ClosedIsInert | Code/src/main/java/com/xiaoyongcai/io/SingleReactor/EchoServer.java:104-110 | once closed, a run changes nothing |
| EchoServer.EchoHandler.constructor | Code/src/main/java/com/xiaoyongcai/io/SingleReactor/EchoServer.java:73-79 | the handler's state is `Registered` of the channel; the key is attached to it |
| EchoServer.EchoHandler.Close | Code/src/main/java/com/xiaoyongcai/io/SingleReactor/EchoServer.java:107 | follows `CloseEcho` |
| EchoServer.EchoHandler.WriteOut | Code/src/main/java/com/xiaoyongcai/io/SingleReactor/EchoServer.java:96-98 | the loop's effect equals `WriteAll` |
| EchoServer.EchoHandler.WriteOnce | Code/src/main/java/com/xiaoyongcai/io/SingleReactor/EchoServer.java:97 | one `socket.write(output)` advances the loop exactly as `WriteAll` does |
| EchoServer.EchoHandler.CopyOut | Code/src/main/java/com/xiaoyongcai/io/SingleReactor/EchoServer.java:87-95 | the bytes copied and wrapped are exactly the flipped pending bytes; the input buffer ends with nothing pending |
| EchoServer.EchoHandler.EchoBack | Code/src/main/java/com/xiaoyongcai/io/SingleReactor/EchoServer.java:85-103 | follows `Replied` |
| EchoServer.EchoHandler.Run | Code/src/main/java/com/xiaoyongcai/io/SingleReactor/EchoServer.java:81-112 | follows `HandleRead` and keeps the invariant |
| EchoServer.Reactor.constructor | Code/src/main/java/com/xiaoyongcai/io/SingleReactor/EchoServer.java:20-27 | no handler yet |
| EchoServer.Reactor.Accept | Code/src/main/java/com/xiaoyongcai/io/SingleReactor/EchoServer.java:53-65 | a handler in its initial state iff a connection was accepted; it is recorded |

## Left out

- The selectors: `select`, the iteration over selected keys, `wakeup`, `configureBlocking`, and the event loops of both reactors and of the sub-reactors. A readiness event is a method call; `wakeup` has no effect in the model.
- Threads, `volatile` and `synchronized`: the model is sequential. A pool task is a pending count that `CompleteProcessing` consumes.
- Sleeps: `Thread.sleep(100)` and `Thread.sleep(1000000)` take no time here. The single-reactor sleep can be interrupted (the `interrupted` input); the Processer's interruption only re-sets the flag, so it is left out.
- `availableProcessors()`: the number of sub-reactors is the parameter `n`. The pool size (2 × processors) is not modelled, because no behaviour in the model depends on it.
- Logging, `printStackTrace` and the `String` decoding of the received bytes.
- Failure of `SocketChannel.close()` itself, and of `ServerSocketChannel.accept()`; a failing accept has the same effect as a null one.
- Binding the server socket and opening the selectors in the constructors.
- `SubReactor.run`'s own `finally` that closes its selector.
- Both `EchoClient` programs.
- EchoServer.WriteAll: requires that the write schedule gets rid of all the bytes or faults first. The source spins forever against a peer that never drains.
- EchoServer.HandleRead: requires that the schedule gets rid of the bytes the read leaves in the buffer (`Readable`).
- EchoServer.EchoHandler.Run: requires that same schedule for the bytes the read leaves in the buffer.
- EchoServer.EchoHandler.WriteOut: requires that same draining schedule.
- EchoServer.EchoHandler.constructor: requires that the channel has sent back all it received (true of a freshly accepted channel). The invariant about the echo history relies on this.
- MultiThreadEchoServer.MainReactor.Accept: the counter is an unbounded natural, i.e. the corrected behaviour. The 32-bit counter of the code is modelled by `RoundRobin.IndexAsWritten` (see Findings).
- MultiThreadEchoServer.Handler.constructor: requires an open channel. The source throws from `configureBlocking` on a closed one; `SubReactor.Register` models that case by returning no handler.

## Findings

| source | as written | input that shows it | evidently intended | confidence | as-written member | corrected member |
|---|---|---|---|---|---|---|
| Code/src/main/java/com/xiaoyongcai/io/MultiReactor/MultiThreadEchoServer.java:184-192 | `send()` calls `input.flip()` on every write-ready event | read `[1, 2]`, complete processing, a first write that takes 1 byte, a second write with room: the peer receives `[1, 1]` and never `2`; a first write that takes 0 bytes makes the next event send nothing and drop the whole reply (`ZeroWriteLosesReply`) | flip once when SENDING begins, then write what is still pending until nothing remains | high, not executed | Connection.ResendAfterPartialWrite | Connection.FixedEchoCycle |
| Code/src/main/java/com/xiaoyongcai/io/MultiReactor/MultiThreadEchoServer.java:82 | `next.getAndIncrement() % subReactors.length` on a 32-bit `AtomicInteger` | the accept numbered 2^31 with 3 sub-reactors reads the counter as -2^31, and the index is -2: ArrayIndexOutOfBoundsException ends the acceptor; every N >= 2 fails at accept 2^31 or 2^31 + 1 (`EveryNFailsAtWrap`) | index count mod N, never negative | high, not executed | RoundRobin.AsWrittenOutOfBoundsAtWrap | MultiThreadEchoServer.MainReactor.Accept |

The `Handler` class follows the code as written, flip included. The corrected sending phase is the pure `FixedProcessStep`/`FixedSendOp`/`FixedSendAll`, which is proved by `FixedSendDrains` and `FixedEchoCycle`.
