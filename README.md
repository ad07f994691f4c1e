# clockwork-server: the listener/worker handoff in Dafny

This project models the sequential core of clockwork-server, an HTTP server. The server splits
its work between two kinds of thread:

- **Listener threads** run one non-blocking event loop each. Per connection, a `HyperHandler`
  buffers the request body. It then moves the request into a token on a shared work queue,
  suspends, and streams the worker's response events back to the socket.
- **Worker threads** take tokens off the queue and decode the request target. They give the
  request to the application together with a two-stage responder: `start`, then `send`
  repeatedly, then `finish`, which completes the token.

Files and modules:

- `outcomes.dfy` (`Outcomes`): `Option` and `Result`.
- `seqs.dfy` (`Seqs`): `Reverse`, for the `Vec` the handler uses as a stack, and `Concat`, for chunks.
- `http.dfy` (`Http`): the values the core takes from hyper and the web framework, as plain data:
  - bytes, method, status code and headers;
  - the four request-target forms;
  - the interest (`Next`) a callback returns;
  - the wake handle (`Control`).
- `listener.dfy` (`Listener`): the handler as a class whose callbacks update its fields. Small
  classes stand in for the objects it talks to:
  - the shared work queue;
  - the response channel (`try_recv`);
  - the response head;
  - the body encoder.
- `worker.dfy` (`Worker`): target decoding, the responder stages, and the completion of a token.

Each callback returns an `Outcome`. That is either the interest handed back to the event loop or
a `Panic` with its reason. Each `unwrap` and `panic!` in the callbacks becomes such a result, except
the `unwrap` of the socket write at src/listener.rs:180, which is not modelled (see "Left out"). The
`method` and `uri` unwraps of the end-of-body path are the exception: `Valid()` proves they cannot
fail. A `ctrl` already taken by an earlier request gives `Panic(MissingCtrl)`.

The two source files do not agree with each other, and each is modelled as written:

- The listener builds its token with five fields (method, target, body, control, sender). That is
  `Listener.RequestToken`.
- worker.rs declares a token with three fields (target, control, sender). That is
  `Worker.RequestToken`.
- The listener receives `WorkerResponse` events (`Header`, `Data`, `Finish`). worker.rs does not
  define that type, and its sender carries plain byte vectors. `Listener.WorkerResponse` is defined
  from how listener.rs uses it.
- No lemma composes the two sides.

## Model

| member | source | states |
|---|---|---|
| `Listener.HyperHandler.constructor` | src/listener.rs:42-54 | a new handler has no method, target, body, receiver or pending events, holds its control and the shared queue |
| `Listener.HyperHandler.RecvIntoResponses` | src/listener.rs:56-65 | after draining the channel, successive pops yield the previously pending events first and then the received ones in arrival order (`Mailbox() == old(Mailbox()) + received`); the channel is left empty |
| `Listener.HyperHandler.OnRequest` | src/listener.rs:69-74 | method and target are stored, the body buffer is empty, the interest is `Read` |
| `Listener.HyperHandler.OnRequestReadable` | src/listener.rs:76-141 | no buffer: panic, nothing changes; buffer over 8 MiB: `End`, nothing changes; read error: `End`, nothing queued; `Some(n)`/`None`: `Read` with the buffer given by `ReadPass`, nothing queued; end of body: exactly one `HandleRequest` token with the stored method, target and body and a fresh channel whose receiver is kept, fields emptied, `Wait`; a missing control panics with nothing queued; the buffer bound `Valid()` is kept (with the `Some(0)` trim of ## Findings) |
| `Listener.ReadPass` | src/listener.rs:80-117 | a pass is refused exactly when the buffer holds more than 8388608 bytes; otherwise the old buffer is a prefix of the new one and the new one holds at most 8388608 + 4096 bytes; a pass fails exactly on a read error, leaving the buffer grown by the 4096-byte window; otherwise `Some(n)` with n > 0 and `None` are the passes that go on reading, `Some(n)` appending exactly the n bytes read and `None` leaving the buffer as it was; the body ends exactly on `Some(0)`, with the buffer unchanged (the trim of ## Findings) |
| `Listener.ReadPassAsWritten` | src/listener.rs:90-97 | on `Some(0)` the finished body is 4096 bytes longer than the buffer before the pass |
| `Listener.EmptyBodyIsPaddedAsWritten` | src/listener.rs:91-96 | for every buffer within the limit, the pass as written queues it followed by 4096 zero bytes where the trimmed pass queues it alone; on every other read or buffer the two passes agree |
| `Listener.FeedDeliversBody` | src/listener.rs:86-104 | over any run of reads delivering non-empty chunks of at most 4096 bytes and then end of body, the body is queued byte for byte exactly when buffer plus chunks total at most 8 MiB, and the connection is aborted otherwise (with the `Some(0)` trim of ## Findings) |
| `Listener.HyperHandler.OnResponse` | src/listener.rs:143-165 | the oldest pending event is removed; a `Header(s, h)` sets status `s` and headers `h` and returns `Write` if events remain and `Wait` otherwise; any other event or an empty mailbox is a panic that leaves the response untouched |
| `Listener.HyperHandler.OnResponseWritable` | src/listener.rs:167-185 | after receiving, the socket gets exactly the bytes `Drain` writes from the pending events, the events after the stop remain, and the result is `Drain`'s outcome |
| `Listener.HyperHandler.WriteResponses` | src/listener.rs:171-184 | the pop loop writes `Drain(Mailbox()).bytes`, leaves its remaining events pending and returns its outcome |
| `Listener.Drain` | src/listener.rs:171-181 | the events left after a stop are a suffix of the pending ones, strictly shorter unless none were pending; waiting leaves nothing pending |
| `Listener.DrainWritesUntilStop` | src/listener.rs:171-184 | the bytes written are the in-order concatenation of the `Data` payloads before the first non-`Data` event; the outcome is `Wait` exactly when there is no such event, `End` exactly when it is `Finish`, and a panic exactly when it is `Header` |
| `Listener.DrainBodyThenFinish` | src/listener.rs:173-180 | for `Data` events carrying some chunks, then `Finish`, the chunks are written concatenated in order, everything after `Finish` stays pending, and the result is `End` |
| `Listener.WorkQueue.Push` | src/listener.rs:134 | a push appends one command to the shared queue |
| `Listener.Channel.TryRecv` | src/listener.rs:60 | returns the oldest queued event and removes it, or nothing when the channel is empty |
| `Listener.Encoder.Write` | src/listener.rs:180 | a write appends the payload to what the socket has received |
| `Seqs.Reverse` | src/listener.rs:58-64 | reversal keeps the length |
| `Seqs.ReverseAt` | src/listener.rs:58-64 | element k of the reversal is element \|s\| - 1 - k |
| `Seqs.ReverseReverse` | src/listener.rs:58-64 | the two reversals around the receive loop cancel out |
| `Seqs.ReversePop` | src/listener.rs:147 | `pop()` on the stack returns the oldest event of the mailbox and leaves the rest in order |
| `Seqs.ConcatSnoc` | src/worker.rs:90 | appending one more chunk appends it to the concatenated body |
| `Worker.DecodeRequest` | src/worker.rs:20-23 | a request exists exactly when the target is an absolute path, and its path is that path; any other target form is an error that carries it |
| `Worker.HandleRequest` | src/worker.rs:16-32 | any non-absolute-path target is refused before the application runs; otherwise the token's sender gets one message with the application's chunks concatenated, followed by a `Write` wake-up on its control |
| `Worker.CwBodyResponder.Start` | src/worker.rs:73-79 | the body responder holds the same token and an empty body; the header is ignored |
| `Worker.CwBodyResponder.Send` | src/worker.rs:88-91 | the body becomes the old body followed by the chunk; nothing else changes |
| `Worker.Complete` | src/worker.rs:60-63 | exactly two effects: one `Sent` on the token's sender carrying the data, then `Signalled(ctrl, Write)` |
| `Worker.CwBodyResponder.Finish` | src/worker.rs:93-96 | consumes the responder and completes its token with the whole gathered body (`Complete`) |
| `Worker.Respond` | src/worker.rs:88-96 | whatever chunks are sent after `start`, `finish` completes the token exactly once with all of them concatenated in call order |

The linear protocol is enforced by construction:

- A `CwBodyResponder` exists only through `Start`.
- `Send` and `Finish` require that the responder is not yet finished. `Finish` sets the ghost flag
  `finished`, so nothing can use the responder after it. This is how the model states that Rust's
  `finish(self)` moves the responder.

## Left out

- `run_listener` (src/listener.rs:11-26) and `run_worker` (src/worker.rs:7-14) are not modelled. They are event-loop setup (keep-alive, a 10-second idle timeout, 4096 sockets) and a blocking infinite loop around the queue.
- src/server.rs and src/lib.rs are not modelled. They hold thread spawning, socket binding and cloning, the CPU-count default and joining, which are bootstrap and concurrency topology.
- The work queue, the channel and `Control::ready` have no concurrency semantics here:
  - the queue is a sequence that receives pushes;
  - the channel is a sequence of events not yet received;
  - a wake-up is a recorded `Signalled` effect.
- hyper's `Decoder::try_read` is not modelled. A read is an input `ReadResult`, and a read may return at most the 4096-byte window it was handed (`ReadFits`).
- `Listener.Encoder.Write` always accepts the whole payload. It does not model a partial write, which src/listener.rs:180 ignores, or the panic on a write error.
- `Worker.CwBodyResponder.Finish` always succeeds. The panics when the channel's receiver or the event loop has gone (src/worker.rs:61-62) are not modelled.
- Logging (`error!`) and `shrink_to_fit` are not modelled. The latter changes only capacity.
- Listener.HyperHandler.OnRequestReadable: on a panic it states only the reason and that nothing was queued, not the fields left behind. Unwinding drops the handler, so those fields are never read again.
- Worker.HandleRequest: the application is a total function from the request to a head and a list of chunks. Two behaviours are outside the model:
  - an application that panics;
  - an application that drops its responder without calling `finish`, which Rust allows.
- `Worker.CwResponder` is a datatype value, so the model does not prevent it being used twice. Only the body responder's consumption is checked, through the `finished` flag.
- Request headers, the query part and the header given to `start` are opaque or ignored, as in the source.

What the code does, and the model with it:

- The worker sends nothing at `start` or `send`. It buffers the whole body and sends a single message at `finish`, which is the only wake-up. The TODO comments at src/worker.rs:74 and src/worker.rs:89 mark this as a known shortcut.
- The worker's request carries only the path, not the method or the body.
- The source panics on a target that is not an absolute path. The model returns `Err(UnsupportedUri(...))` at the same point.

## Findings

| source | as written | input that shows it | evidently intended | confidence | as-written member | corrected member |
|---|---|---|---|---|---|---|
| src/listener.rs:91-96 | `data.resize(end, 0)` grows the buffer by 4096 zero bytes before the read. The `Ok(Some(0))` arm only calls `shrink_to_fit`, which does not shorten the buffer. | `on_request`, then one read returning `Ok(Some(0))`: the queued body is 4096 zero bytes instead of empty. Any body gets those 4096 zeros appended. | trim the buffer back to `start` on `Some(0)`, as the `None` arm does, so that the body is exactly the bytes read | not executed; high | `Listener.ReadPassAsWritten` (shown by `Listener.EmptyBodyIsPaddedAsWritten`) | `Listener.ReadPass` (proved by `Listener.FeedDeliversBody`; `Listener.HyperHandler.OnRequestReadable` trims on `Some(0)`) |
