# Dual-flow connection of the TapDance client, in Dafny

This project models the dual-flow coordinator of the TapDance client
(`tapdance/conn_dual.go`). The coordinator opens one logical connection to
the station over two raw flows that share one identity. The reader flow is
tagged `HttpGetIncomplete` and carries the download. The writer flow is
tagged `HttpPostIncomplete` and carries the upload.

`dialSplitFlow` builds, wraps and dials the reader, then has it yield the
upload. Only then does it build the writer, with the reader's decoy copied
and pinned. It wraps and dials the writer and has it acquire the upload. On
success a watcher starts: when one flow closes, it closes the other with
the wrapped cause.

The collaborators are foreign calls: `makeTdRaw`, `makeTdFlow`, `Dial`,
`yieldUpload`, `acquireUpload`, a flow's `Write` and its latch
`closeWithErrorOnce`. In the model they behave as follows:

- `makeTdFlow`, `Dial`, `yieldUpload` and `acquireUpload` take their outcome
  (nil or an error) as a parameter, and each call appends a record of itself
  to a `Trace`.
- `makeTdRaw` cannot fail. It takes no outcome and appends a record of the
  tag it was given.
- `closeWithErrorOnce` takes no outcome. It appends a `Closed` record only
  when the close takes effect, that is when the flow was still open.
- A flow's `Write` takes the flow's answer (a count and an error) as a
  parameter. It records the buffer in the flow's own list of writes, not in
  the `Trace`.

The coordinator's contract ties the trace and the returned error to the
functions `HandshakeTrace` and `HandshakeError` of the outcomes. Lemmas then
state what the source promises about those functions.

Files:

- `decimal.dfy` (`Decimal`): base-10 rendering of a session id (Go's
  `strconv.FormatUint(n, 10)`) and its inverse.
- `flows.dfy` (`Flows`): the raw flow, the wrapped flow with its close-once
  latch, and the trace of calls and closes.
- `handshake.dfy` (`Handshake`): the first failing step, the error
  returned, the cleanup owed, the expected trace, and the watcher's error
  message, as values, with the lemmas about them.
- `dual.dfy` (`Dual`): the `DualConn` class, `IdStr`, `Write`,
  `NetworkConn`, the watcher step, and `DialSplitFlow` with its two stages.

Inputs the model takes as parameters:

- The session id, from `sessionsTotal.GetAndInc()`.
- The station public key, from `Assets().GetPubkey()`.
- The 16-byte correlation id, from `crypto/rand`.
- Each collaborator's outcome, the decoy each `Dial` would choose, and the
  socket under each flow.
- Which flow closed first, for the watcher.

Behaviour of the code worth knowing:

- `DualConn` does not override `Close`. `Close` is promoted from the
  embedded connection, which is the reader, so it closes only the reader;
  the watcher then closes the writer.
- A failed reader `Dial` closes nothing, although the reader was already
  wrapped.
- `SetWriteDeadline` is not overridden, so it reaches only the reader.
- The error returned by `rand.Read` is ignored.

## Model

| member | source | states |
|---|---|---|
| `Decimal.FormatUint` | tapdance/conn_dual.go:135 | the rendering of a session id is a non-empty run of decimal digits with no redundant leading zero |
| `Decimal.ParseFormat` | tapdance/conn_dual.go:135 | reading a rendering back gives the number that was rendered |
| `Decimal.FormatParse` | tapdance/conn_dual.go:135 | every canonical digit string is the rendering of the number it denotes, so the rendering is a bijection |
| `Dual.DualConn.IdStr` | tapdance/conn_dual.go:134-136 | the label is `[Session `, then canonical decimal digits that read back as the session id, then `]` |
| `Dual.DualConn.Write` | tapdance/conn_dual.go:130-132 | the buffer goes to the writer flow alone and the writer's count and error are returned unchanged; the reader is untouched and the pairing is kept |
| `Dual.DualConn.NetworkConn` | tapdance/conn_dual.go:138-141 | the socket returned is the reader's, which is also the embedded connection's |
| `Dual.DualConn.RunWatcher` | tapdance/conn_dual.go:114-123 | once one flow has closed, the partner is closed with `in paired readerConn: ` or `in paired writerConn: ` plus the first flow's error; the first flow is untouched, an already-closed partner keeps its own error, both end closed, and the watcher cannot fire again |
| `Dual.DualConn.constructor` | tapdance/conn_dual.go:40 | a new DualConn carries its session id and has no flows yet |
| `Dual.NewRawFlow` | tapdance/conn_dual.go:46-51 | a fresh raw flow carrying the given tag, station key, correlation id, dialer, session id and direction suffix, with no decoy chosen and no pin; the build is recorded |
| `Dual.DialReader` | tapdance/conn_dual.go:46-72 | reader stage: raw reader built with the `HttpGetIncomplete` tag, the key, the correlation id, the dialer, the session id and suffix `R`; it succeeds exactly when wrap, dial and yield do; on success the embedded connection is the reader and its decoy is the one its dial chose |
| `Dual.DialWriter` | tapdance/conn_dual.go:74-99 | writer stage: raw writer built with the `HttpPostIncomplete` tag, the same key, correlation id, dialer and session id, suffix `W`, and the reader's decoy pinned; any failure returns that step's error and closes the flows the trace function names |
| `Dual.DialSplitFlow` | tapdance/conn_dual.go:39-125 | the error returned is that of the first failing step; the calls and closes made are exactly `HandshakeTrace`; on success a fresh, paired, open, watched DualConn is returned; on failure nothing is returned |
| `Handshake.FirstFailure` | tapdance/conn_dual.go:54-99 | the step returned fails and every earlier step succeeded; none is returned only when every step succeeds |
| `Handshake.HandshakeError` | tapdance/conn_dual.go:55-98 | an error is returned exactly when some step's outcome is a failure; the error is that of a failing step all of whose predecessors succeeded, returned as is, not wrapped |
| `Handshake.HandshakeCleanup` | tapdance/conn_dual.go:54-99 | the closes in the trace are exactly, in order, the flows dialed before the failing step, each once, with that step's error |
| `Handshake.FailureCleanup` | tapdance/conn_dual.go:54-99 | success and reader wrap or dial failures close nothing; yield, writer wrap or dial failures close only the reader; an acquire failure closes the reader then the writer; each close carries the returned error |
| `Handshake.WriterBuiltOnlyAfterYield` | tapdance/conn_dual.go:68-76 | the writer raw flow is built exactly when the reader's wrap, dial and yield succeeded, and only after the yield call |
| `Handshake.WriterDecoyPinned` | tapdance/conn_dual.go:80-88 | whenever the writer is wrapped or dialed, it carries the decoy the reader's dial chose, with the pin set |
| `Handshake.PartnerClosedError` | tapdance/conn_dual.go:117-121 | the watcher's error text contains both the role of the flow that closed first and its exact error, and both can be read back from it |
| `Flows.MakeTdRaw` | tapdance/conn_dual.go:46-48 | a fresh raw flow with the given tag, station key and correlation id; the fields it is not given hold Go's zero values |
| `Flows.MakeTdFlow` | tapdance/conn_dual.go:54 | wraps the raw flow in the given role as a fresh open flow, or returns the error and no flow |
| `Flows.FlowConn.Dial` | tapdance/conn_dual.go:58 | returns the dial's error; a successful dial of an unpinned raw flow records the decoy it chose, and a pinned decoy is kept |
| `Flows.FlowConn.YieldUpload` | tapdance/conn_dual.go:68 | returns the yield's error and records the call |
| `Flows.FlowConn.AcquireUpload` | tapdance/conn_dual.go:94 | returns the acquire's error and records the call |
| `Flows.FlowConn.CloseWithErrorOnce` | tapdance/conn_dual.go:70 | the first close wins: an open flow becomes closed with this error and the close is recorded; a closed flow is left as it was |
| `Flows.FlowConn.Write` | tapdance/conn_dual.go:131 | the buffer is recorded as handed to this flow and the flow's answer is returned |

## Left out

- Networking, the TLS and station handshake, and the bodies of `makeTdRaw`,
  `makeTdFlow`, `Dial`, `yieldUpload`, `acquireUpload`, a flow's `Write`,
  `NetworkConn` and `closeWithErrorOnce`. They are in files that are not
  part of this model, so only their outcomes appear, as parameters.
- Flows.FlowConn.CloseWithErrorOnce: the latch is assumed to be "first close
  wins", with the closed signal fired exactly when the terminal error is set.
  Its real body is not part of this model.
- Flows.FlowConn.Dial: how the raw-flow layer picks a decoy is not part of
  this model. A successful dial of an unpinned flow is assumed to record the
  decoy it chose, and a pinned decoy is assumed to be kept.
- Flows.MakeTdRaw: the fields it is not given are assumed to start at Go's
  zero values, because `makeTdRaw` itself is not part of this model.
- Flows.FlowConn.Dial, Flows.FlowConn.YieldUpload, Flows.FlowConn.AcquireUpload:
  apart from the raw flow's decoy and the trace, these calls change nothing,
  and no other code runs during the handshake. So the model assumes that no
  collaborator and no background flow machinery closes a flow while the
  handshake is in progress. The cleanup results (`HandshakeCleanup`,
  `FailureCleanup`) rely on this: at lines 70, 85, 90 and 95 the reader is
  still open, so its `closeWithErrorOnce` takes effect with the step's
  error. If the reader had already been closed, the latch would keep its
  earlier error and record no close.
- Randomness, the session counter and the asset store. The correlation id,
  the session id and the station key are inputs.
- Concurrency. The watcher goroutine and its `select` race become one
  sequential step, `RunWatcher`, told which flow closed first. The thread
  safety of the latch is not modelled.
- The promoted `net.Conn` surface: `Read`, `Close`, the addresses and the
  deadlines. They reach the reader through the embedded connection, which
  `Valid` pins to the reader. Their bodies belong to the flow type, which is
  not part of this model.
- The commented-out yield-confirmation block at lines 100-113, which is dead
  code.
- Dual.DualConn.Write: the flow's answer is a parameter, so the model does
  not state the partial-write or timeout behaviour of the writer flow.
