# Live-replay recorder and relay of the FAF client

This project models the local replay server of the Forged Alliance Forever
client (`ReplayServerImpl`). A running game connects to a local TCP listener
and streams its live replay over it. The server does two things with every
chunk it reads:

- It stores the chunk in an in-memory accumulator. While the accumulator is
  still empty and the buffer holds the FA live-replay marker `P/`, it drops
  everything up to and including the first NUL.
- It mirrors the raw, unstripped chunk to the remote replay server until the
  first `SocketException`. After that it stops relaying and goes on
  recording.

When the game closes the stream, the server stamps the replay info (duration,
recorder, `CLOSED`) and hands the bytes to the replay file writer. Around this
sits a small control state machine. `start` clears the graceful-stop flag.
`stop` flags a graceful stop and closes the published listener. The worker's
`IOException` handler stays silent after a graceful stop; otherwise it fails
the future if it is still pending and posts a "listening failed" notice with a retry action.

Files:

- `Wrappers.dfy`: the `Option` type.
- `Bytes.dfy`: bytes, and the two Guava `Bytes.indexOf` searches as recursive
  functions with their contracts.
- `Recording.dfy`: the read loop as a function of its inputs (`Step`, `RunTo`, `Run`,
  `Drain`), with lemmas about stripping, append-only growth, the relay and
  relay loss.
- `Control.dfy`: the server's state as a value. It has one function per
  operation (`Start`, `Stop`, `Listen`, `OnIoFailure`, `Record`, `Serve`) and
  lemmas about them.
- `ReplayServer.dfy` (module `Server`): the same behaviour as objects. There are classes for
  the accumulator, the relay stream and the server, and an imperative read
  loop over one reused `array<byte>`. Each method is proved equal to the
  matching function above. Two methods without postconditions,
  `GracefulStopScenario` and `SavedSessionScenario`, are usage examples: they
  drive one server object through `start`, listen, serve and `stop` and assert
  what the lemmas `GracefulStopBeforeAccept` and `SavedReplayIsStamped` promise.

The environment is given as inputs:

- each `read` is a `Read`: the bytes it delivered (at least 1, at most 128) and what the
  relay write of that chunk does (`Written`, `SocketFailure`, or another
  `IoFailure`);
- the stream ends either with end-of-stream or with a read that throws;
- a `Session` gives the remote connect outcome, whether `accept` returns, the
  clock at accept and at the end (integers), the user's display name, and
  whether the file writer succeeds;
- `Listen` takes the bound port, or None when the bind throws.

The worker thread of `start` is modelled as two steps: `Listen` (bind, publish,
complete the future) and `Serve` (connect, accept, record, close, handle). A
`stop` can be placed before, between or after them.

Some of the code's behaviour is easy to misread; the model follows the code as written:

- The strip check runs whenever the accumulator is empty, not only on the
  first chunk. A header-only chunk leaves the accumulator empty, so the next
  chunk is checked again.
- The marker is searched in the whole 128-byte buffer, including stale bytes
  past `bytesRead`. The NUL used is the first one in the whole buffer, which
  may come before the marker, not the first NUL after the marker.
- The buffer starts zero-filled. A short first chunk that carries `P/` but no
  NUL therefore finds the NUL of the fill, one past the read length. The
  `write` length is then negative, and the `IndexOutOfBoundsException` escapes
  the worker: no handler runs, no notice is posted and nothing is saved
  (`ShortHeaderWithoutNulFails`, `StaleNulFails`, `CrashIsUnreported`).
- Only a `SocketException` on a relay write is tolerated. Any other
  `IOException` from that write ends the session through the worker's handler,
  which posts the "listening failed" notice.
- A refused remote connect (`ConnectException`) degrades to local-only
  recording with one "unreachable" notice. Any other `IOException` from the
  connect (an unknown host, say) takes the handler path without recording.
- `start` has no "already running" error. The `serverSocket` field is never
  cleared, so a `stop` after a new `start` closes the previous listener and
  silences the new worker's bind failure (`StaleListenerSilencesBindFailure`).

## Model

| member | source | states |
|---|---|---|
| `Bytes.IndexOf` | service/src/main/java/com/faforever/client/replay/ReplayServerImpl.java:149 | the result is -1 exactly when the byte is absent; otherwise it is the index of its first occurrence |
| `Bytes.IndexOfSliceFindsFirst` | service/src/main/java/com/faforever/client/replay/ReplayServerImpl.java:148 | the result is -1 exactly when the marker occurs nowhere; otherwise the marker occurs there and at no earlier index |
| `Bytes.IndexOfSlice` | service/src/main/java/com/faforever/client/replay/ReplayServerImpl.java:148 | Guava's `indexOf(byte[], byte[])`: the result is -1 or an index within the buffer; what it finds is stated by `IndexOfSliceFindsFirst` |
| `Recording.Refill` | service/src/main/java/com/faforever/client/replay/ReplayServerImpl.java:144-147 | a read puts its bytes at the front of the reused buffer and keeps the buffer's length |
| `Recording.WriteRange` | service/src/main/java/com/faforever/client/replay/ReplayServerImpl.java:150 | `ByteArrayOutputStream.write` succeeds exactly when offset and length are non-negative and the range lies inside the buffer |
| `Recording.RunTo` | service/src/main/java/com/faforever/client/replay/ReplayServerImpl.java:144-164 | the loop keeps the one 128-byte buffer through every read |
| `Recording.DataBeginIndex` | service/src/main/java/com/faforever/client/replay/ReplayServerImpl.java:149 | one past the first NUL of the whole buffer: 0 exactly when the buffer holds no NUL, otherwise the byte before it is the first NUL |
| `Recording.LocalWrite` | service/src/main/java/com/faforever/client/replay/ReplayServerImpl.java:148-152 | the local write of one chunk: with a non-empty accumulator or no marker the whole chunk (`NoMarkerKeepsWholeChunk`, `StepAppendsVerbatim`), otherwise from one past the buffer's first NUL (`StripFromFirstNul`); never more than a suffix of the delivered bytes (`LocalWriteStoresSuffix`) |
| `Recording.Step` | service/src/main/java/com/faforever/client/replay/ReplayServerImpl.java:144-163 | one iteration keeps the 128-byte buffer; its other properties are `StepFrame`, `StepAppendsVerbatim`, `StepUnmarked`, `StepStrips`, `StaleNulFails` and `StepIndependentOfRelay` |
| `Recording.Drain` | service/src/main/java/com/faforever/client/replay/ReplayServerImpl.java:141-168 | a throwing read always fails the loop; a loop that ends normally is the run over all reads. Its stored bytes are described by `FirstChunkUnmarked`, `FirstChunkStripped` and `VerbatimOnceNonEmpty` |
| `Recording.LocalWriteStoresSuffix` | service/src/main/java/com/faforever/client/replay/ReplayServerImpl.java:148-152 | whatever the local write stores is a suffix of the bytes the read delivered, never longer than the read |
| `Recording.StepFrame` | service/src/main/java/com/faforever/client/replay/ReplayServerImpl.java:147-163 | one iteration only grows the accumulator, leaves the relay and the loss flag alone once the relay is lost or absent, and fails on the relay only for a non-socket exception on a live relay |
| `Recording.StepAppendsVerbatim` | service/src/main/java/com/faforever/client/replay/ReplayServerImpl.java:148-152 | once the accumulator is non-empty, a chunk is appended verbatim, even if it holds `P/`, and the local write cannot throw |
| `Recording.StripFromFirstNul` | service/src/main/java/com/faforever/client/replay/ReplayServerImpl.java:144-150 | with an empty accumulator and the marker in the buffer, let k be the first NUL of the whole buffer: exactly `buffer[k+1..bytesRead]` is appended when k+1 <= bytesRead, and the write throws otherwise |
| `Recording.NoNulKeepsWholeChunk` | service/src/main/java/com/faforever/client/replay/ReplayServerImpl.java:149-150 | marker present but no NUL: `indexOf` is -1, the begin index is 0 and the whole chunk is stored |
| `Recording.NoMarkerKeepsWholeChunk` | service/src/main/java/com/faforever/client/replay/ReplayServerImpl.java:148-152 | without the marker the whole chunk is stored |
| `Recording.FailureIsFinal` | service/src/main/java/com/faforever/client/replay/ReplayServerImpl.java:165-167 | an exception in the loop ends it: later reads do not change the outcome |
| `Recording.StoredAppendOnly` | service/src/main/java/com/faforever/client/replay/ReplayServerImpl.java:141-152 | the accumulator only grows: earlier contents are a prefix of later ones and its length never decreases |
| `Recording.VerbatimOnceNonEmpty` | service/src/main/java/com/faforever/client/replay/ReplayServerImpl.java:147-153 | once the accumulator is non-empty, the final contents are the contents then followed by every later raw chunk, and no strip failure can happen |
| `Recording.FirstChunkUnmarked` | service/src/main/java/com/faforever/client/replay/ReplayServerImpl.java:144-152 | a non-empty first chunk whose buffer has no marker: the stored bytes are all chunks concatenated, unmodified |
| `Recording.StepUnmarked` | service/src/main/java/com/faforever/client/replay/ReplayServerImpl.java:148-152 | one chunk whose buffer holds no marker is appended whole and cannot make the local write throw |
| `Recording.StepStrips` | service/src/main/java/com/faforever/client/replay/ReplayServerImpl.java:148-152 | a chunk into an empty accumulator, with the marker in the buffer and the chunk's own first NUL at k followed by payload, stores exactly that payload |
| `Recording.FirstChunkStripped` | service/src/main/java/com/faforever/client/replay/ReplayServerImpl.java:148-152 | a first chunk `P/...NUL payload` with a non-empty payload: the stored bytes are the payload followed by every later chunk verbatim |
| `Recording.ShortHeaderWithoutNulFails` | service/src/main/java/com/faforever/client/replay/ReplayServerImpl.java:144-150 | a first chunk shorter than 128 bytes with the marker and no NUL makes the write length negative and the loop fails |
| `Recording.StaleNulFails` | service/src/main/java/com/faforever/client/replay/ReplayServerImpl.java:144-150 | with the accumulator still empty, a chunk without NUL that is shorter than a previous header is stripped from that header's stale NUL, and the write throws |
| `Recording.UnlinkedNeverRelays` | service/src/main/java/com/faforever/client/replay/ReplayServerImpl.java:155 | without a relay stream nothing is relayed, the loss flag stays false and no relay failure can happen |
| `Recording.RelayedIsRawConcat` | service/src/main/java/com/faforever/client/replay/ReplayServerImpl.java:155-157 | while the relay is alive, the remote server holds exactly the raw chunks concatenated (unstripped), and every write so far succeeded |
| `Recording.LostAtFirstSocketFailure` | service/src/main/java/com/faforever/client/replay/ReplayServerImpl.java:155-163 | a lost relay was linked and was lost at the first `SocketException`, on some read m; the server holds exactly the chunks before m |
| `Recording.LossIsPermanent` | service/src/main/java/com/faforever/client/replay/ReplayServerImpl.java:143-163 | `connectionToServerLost` is monotone: once set it stays set, nothing more is relayed and no relay failure can end the loop |
| `Recording.NoIoFailureNoRelayFailure` | service/src/main/java/com/faforever/client/replay/ReplayServerImpl.java:155-163 | when no relay write throws anything but a `SocketException`, relay loss never ends the loop |
| `Recording.StepIndependentOfRelay` | service/src/main/java/com/faforever/client/replay/ReplayServerImpl.java:150-163 | for one chunk, the local write and its failure do not depend on the relay: only a non-socket relay failure makes the linked step differ locally |
| `Recording.StoredIndependentOfRelay` | service/src/main/java/com/faforever/client/replay/ReplayServerImpl.java:147-163 | unless a non-socket relay failure ends it, a run with a relay stores the same bytes and fails the same way as a run without one, whatever the relay writes did |
| `Recording.DrainIndependentOfRelay` | service/src/main/java/com/faforever/client/replay/ReplayServerImpl.java:145-168 | the same for the whole loop, including how the stream ends |
| `Control.Start` | service/src/main/java/com/faforever/client/replay/ReplayServerImpl.java:89-91 | clears the graceful flag and hands out a pending future; listener, info, notices and saved replays are unchanged |
| `Control.Stop` | service/src/main/java/com/faforever/client/replay/ReplayServerImpl.java:80-86 | with a listener, sets the flag and closes exactly that listener; without one the listener stays absent; future, info, notices and saved replays are unchanged (see `StopIsIdempotent`) |
| `Control.OnIoFailure` | service/src/main/java/com/faforever/client/replay/ReplayServerImpl.java:111-121 | the handler touches only the future and appends at most one notice; listener, flag, info and saved replays are unchanged (see `IoFailureSilentIffGraceful`) |
| `Control.Listen` | service/src/main/java/com/faforever/client/replay/ReplayServerImpl.java:98-115 | a successful bind publishes a fresh open listener, completes a pending future with the bound port and posts nothing; a failing one leaves the listener as it was and runs the `IOException` handler (see `StartReportsPort`, `StartReportsFailure`, `StaleListenerSilencesBindFailure`) |
| `Control.InitReplayInfo` | service/src/main/java/com/faforever/client/replay/ReplayServerImpl.java:126-130 | a new info with the game id and the start time, no duration and no recorder; its stamping is stated by `SavedReplayIsStamped` |
| `Control.FinishReplayInfo` | service/src/main/java/com/faforever/client/replay/ReplayServerImpl.java:175-182 | stamps duration = now - start time, the recorder and `CLOSED`; stated by `SavedReplayIsStamped` |
| `Control.Record` | service/src/main/java/com/faforever/client/replay/ReplayServerImpl.java:135-173 | accept, record, stamp and save; its effect on the listener and the saved list is stated by `RecordSavesOnlyOnSuccess`, its end by `CrashIsUnreported` |
| `Control.Serve` | service/src/main/java/com/faforever/client/replay/ReplayServerImpl.java:98-121 | connect, record, close and hand an IOException to the handler; stated by `ServeClosesListener`, `GracefulStopBeforeAccept`, `UnreachableRemoteStillSaves`, `RelayLossKeepsSavedData` and `RelayLossStillSaves` |
| `Control.StopWithoutListenerIsNoOp` | service/src/main/java/com/faforever/client/replay/ReplayServerImpl.java:80-83 | `stop` changes nothing while no listener was ever published |
| `Control.StopIsIdempotent` | service/src/main/java/com/faforever/client/replay/ReplayServerImpl.java:80-86 | with a listener, `stop` sets the graceful flag and closes it without touching notices or the future; a second `stop` keeps that state |
| `Control.IoFailureSilentIffGraceful` | service/src/main/java/com/faforever/client/replay/ReplayServerImpl.java:111-121 | the handler changes nothing exactly when the stop was graceful; otherwise it adds one retry notice for the same game id and fails a pending future |
| `Control.StartReportsPort` | service/src/main/java/com/faforever/client/replay/ReplayServerImpl.java:90-101 | a successful bind right after `start` completes the new future with the bound port, publishes an open listener on it and posts no notice |
| `Control.StartReportsFailure` | service/src/main/java/com/faforever/client/replay/ReplayServerImpl.java:90-121 | a bind failure right after `start` produces one retry notice for the game id and fails the still-pending future |
| `Control.StaleListenerSilencesBindFailure` | service/src/main/java/com/faforever/client/replay/ReplayServerImpl.java:80-115 | a listener left from an earlier session lets `stop` after a new `start` silence that worker's bind failure; its future stays pending |
| `Control.ServeClosesListener` | service/src/main/java/com/faforever/client/replay/ReplayServerImpl.java:98-121 | whichever way the worker ends, its listener is closed, and a replay is saved once exactly when the worker ends with `Saved` |
| `Control.RecordSavesOnlyOnSuccess` | service/src/main/java/com/faforever/client/replay/ReplayServerImpl.java:135-173 | the recording leaves the listener alone and hands one replay to the writer exactly when it ends with `Saved` |
| `Control.GracefulStopBeforeAccept` | service/src/main/java/com/faforever/client/replay/ReplayServerImpl.java:80-121 | a `stop` while the worker waits in `accept` keeps the future's port, posts no failure notice and saves nothing |
| `Control.SavedReplayIsStamped` | service/src/main/java/com/faforever/client/replay/ReplayServerImpl.java:175-182 | the saved info carries the game id, the start time, duration = finish time - accept time, the recorder's name and `CLOSED` |
| `Control.UnreachableRemoteStillSaves` | service/src/main/java/com/faforever/client/replay/ReplayServerImpl.java:106-109 | with the remote refused, the whole recording is saved and exactly one "unreachable" notice is posted |
| `Control.RelayLossKeepsSavedData` | service/src/main/java/com/faforever/client/replay/ReplayServerImpl.java:103-109 | a session with a live relay that saves its replay saves the same replay as the same session with the remote refused |
| `Control.RelayLossStillSaves` | service/src/main/java/com/faforever/client/replay/ReplayServerImpl.java:103-163 | a connected session whose relay writes fail only with `SocketException` ends the same way as with the remote refused, and saves the same replay |
| `Control.CrashIsUnreported` | service/src/main/java/com/faforever/client/replay/ReplayServerImpl.java:165-168 | an unchecked exception in the loop leaves the future unchanged, posts no failure notice and saves nothing |
| `Server.ByteArrayOutput.Write` | service/src/main/java/com/faforever/client/replay/ReplayServerImpl.java:150-152 | appends exactly the requested range, or throws (returns false) and appends nothing |
| `Server.RelayStream.Write` | service/src/main/java/com/faforever/client/replay/ReplayServerImpl.java:157 | a write that goes through appends the range to what the server received; a failing one appends nothing |
| `Server.ReadOnce` | service/src/main/java/com/faforever/client/replay/ReplayServerImpl.java:147-163 | one pass over the buffer, accumulator and relay objects does what `Step` says of their contents before the pass |
| `Server.RecordLoop` | service/src/main/java/com/faforever/client/replay/ReplayServerImpl.java:141-168 | the imperative loop over one reused array returns exactly `Drain` of its inputs |
| `Server.ReplayServerImpl.constructor` | service/src/main/java/com/faforever/client/replay/ReplayServerImpl.java:62-77 | a new server has no listener, no flag, no future, no info, no notices and nothing saved |
| `Server.ReplayServerImpl.Stop` | service/src/main/java/com/faforever/client/replay/ReplayServerImpl.java:80-86 | the new state is `Control.Stop` of the old |
| `Server.ReplayServerImpl.Start` | service/src/main/java/com/faforever/client/replay/ReplayServerImpl.java:89-91 | clears the graceful flag and hands out a pending future; nothing else changes |
| `Server.ReplayServerImpl.HandleIoFailure` | service/src/main/java/com/faforever/client/replay/ReplayServerImpl.java:111-121 | the new state is `Control.OnIoFailure` of the old |
| `Server.ReplayServerImpl.Listen` | service/src/main/java/com/faforever/client/replay/ReplayServerImpl.java:98-101 | publishes the bound listener and completes the future with its port, or handles a bind failure |
| `Server.ReplayServerImpl.CloseLocalSocket` | service/src/main/java/com/faforever/client/replay/ReplayServerImpl.java:98 | closes the published listener and changes nothing else |
| `Server.ReplayServerImpl.InitReplayInfo` | service/src/main/java/com/faforever/client/replay/ReplayServerImpl.java:126-130 | a new info with the game id and the start time; nothing else changes |
| `Server.ReplayServerImpl.FinishReplayInfo` | service/src/main/java/com/faforever/client/replay/ReplayServerImpl.java:175-182 | stamps duration = now - start time, the recorder and `CLOSED`; nothing else changes |
| `Server.ReplayServerImpl.RecordAndRelay` | service/src/main/java/com/faforever/client/replay/ReplayServerImpl.java:135-173 | the new state and the way it ends are those of `Control.Record` |
| `Server.ReplayServerImpl.Serve` | service/src/main/java/com/faforever/client/replay/ReplayServerImpl.java:103-121 | the new state and the way the worker ends are those of `Control.Serve` |

## Left out

- Real sockets, the blocking `accept` and `read`, the `new Thread` worker and the `CompletableFuture`. Reads, write outcomes and connect outcomes are inputs; the future is a value.
- The data race on `serverSocket` and `stoppedGracefully` between the worker and a caller of `stop`. This is concurrency; the model places `stop` between whole steps of the worker.
- Two overlapping `start` calls sharing the same fields. They would need interleaved workers; the model runs one worker at a time.
- `NotificationService`, `I18n` and logging are foreign calls. Notices are recorded as values; the texts and the log are left out, and the retry action is the game id it would pass to `start`.
- `gameService.getByUid` and `replayInfo.updateFromGameInfoBean`: their bodies are not part of this model, so the fields they copy from the game are not modelled.
- `userService.getDisplayName` is an input string. `replayFileWriter.writeReplayDataToFile` is an input saying whether it throws; `saved` records only the calls that returned normally, so a write that throws leaves no trace in the model.
- `Instant.now()` and `Duration` are integer timestamps.
- Closing the accepted socket and the remote socket, and any exception `noCatch` rethrows from `ServerSocket.close`: nothing in the model observes them.
- Server.RelayStream.Write: a failing write relays none of its bytes, although a real socket may have sent part of them before it failed.
- A `ConnectException` raised inside `recordAndRelay` would reach the `ConnectException` handler and record a second time. It is not modelled because no call there can raise one: relay writes already catch it as a `SocketException`.
- The JavaFX controllers, the tooltip monitor, the leaderboard service interface, the `Division` value class and the leaderboard UI tests are outside the recorder.
