/**
 * The live-replay read loop of the replay server as a function of its inputs.
 *
 * The game writes its replay stream to a local socket; the server reads it
 * into one reused 128-byte buffer, appends each chunk to an in-memory
 * accumulator (stripping the "P/...NUL" live-replay header while the
 * accumulator is still empty) and mirrors the raw chunk to the remote
 * replay server until the first failing write.  Each call of `read` is an
 * input `Read`: the bytes it delivered and what the relay write of that
 * chunk would do.
 */
module Recording {
  import opened Wrappers
  import opened Bytes

  /** Size of the reused read buffer. */
  const BufferSize: nat := 128

  /** The FA live-replay marker `'P', '/'`. */
  const LiveReplayPrefix: seq<byte> := [80, 47]

  const Nul: byte := 0

  /** What one write to the remote replay server does. */
  datatype WriteResult =
    | Written          // the bytes went out
    | SocketFailure    // a SocketException: the relay is given up, recording goes on
    | IoFailure        // any other IOException: it ends the session

  /** One successful `read(buffer)`: the bytes it put at the front of the buffer. */
  datatype Read = Read(data: seq<byte>, relay: WriteResult)

  /** How the read loop ends: `read` returns -1, or `read` throws. */
  datatype End = EndOfStream | ReadFailure

  datatype Stream = Stream(chunks: seq<Read>, end: End)

  /**
   * A socket read into a 128-byte buffer blocks until it can deliver at
   * least one byte (or reports the end), and delivers at most 128.
   */
  predicate ValidReads(chunks: seq<Read>) {
    forall i :: 0 <= i < |chunks| ==> 1 <= |chunks[i].data| <= BufferSize
  }

  /**
   * The loop's state: the reused buffer, the accumulated bytes, the bytes
   * the remote server has been sent, and `connectionToServerLost`.
   */
  datatype RunState = RunState(buffer: seq<byte>, stored: seq<byte>, relayed: seq<byte>, lost: bool)

  /** Why the loop stops early; all three are exceptions that leave it. */
  datatype Failure =
    | IndexOutOfBounds   // ByteArrayOutputStream.write refused a negative length
    | RelayWriteFailed   // the relay write threw an IOException that is not a SocketException
    | ReadFailed         // the local read threw

  datatype Progress = Running(state: RunState) | Failed(failure: Failure)

  /** Before the first read: a zero-filled buffer, nothing stored or relayed. */
  function Initial(): RunState {
    RunState(Zeros(BufferSize), [], [], false)
  }

  /** The buffer after `read` put `data` at its front; the bytes past it are stale. */
  function Refill(buffer: seq<byte>, data: seq<byte>): (b: seq<byte>)
    requires |data| <= |buffer|
    ensures |b| == |buffer| && b[..|data|] == data
    ensures b[|data|..] == buffer[|data|..]
  {
    data + buffer[|data|..]
  }

  /**
   * The bytes `ByteArrayOutputStream.write(b, off, len)` appends, or None
   * when its bounds check throws.
   */
  function WriteRange(b: seq<byte>, off: int, len: int): (r: Option<seq<byte>>)
    ensures r.Some? <==> 0 <= off && 0 <= len && off + len <= |b|
    ensures r.Some? ==> r.value == b[off..off + len]
  {
    if off < 0 || len < 0 || off + len > |b| then None else Some(b[off..off + len])
  }

  /** The marker test; it searches the whole buffer, stale bytes included. */
  predicate MarkerSeen(buffer: seq<byte>) {
    IndexOfSlice(buffer, LiveReplayPrefix) != -1
  }

  /** One past the first NUL of the whole buffer, or 0 when it has none. */
  function DataBeginIndex(buffer: seq<byte>): (r: int)
    ensures 0 <= r <= |buffer|
    ensures r > 0 ==> buffer[r - 1] == Nul && Nul !in buffer[..r - 1]
    ensures r == 0 <==> Nul !in buffer
  {
    IndexOf(buffer, Nul) + 1
  }

  /** What the local write of one chunk appends to an accumulator of `size` bytes. */
  function LocalWrite(size: nat, buffer: seq<byte>, n: nat): (r: Option<seq<byte>>)
    requires n <= |buffer|
  {
    if size == 0 && MarkerSeen(buffer) then
      var begin := DataBeginIndex(buffer);
      WriteRange(buffer, begin, n - begin)
    else
      WriteRange(buffer, 0, n)
  }

  /** One loop iteration: refill the buffer, write locally, then relay. */
  function Step(s: RunState, rd: Read, linked: bool): (p: Progress)
    requires |s.buffer| == BufferSize && |rd.data| <= BufferSize
    ensures p.Running? ==> |p.state.buffer| == BufferSize
  {
    var buffer := Refill(s.buffer, rd.data);
    var n := |rd.data|;
    match LocalWrite(|s.stored|, buffer, n)
    case None => Failed(IndexOutOfBounds)
    case Some(chunk) =>
      var t := s.(buffer := buffer, stored := s.stored + chunk);
      if !s.lost && linked then
        match rd.relay
        case Written => Running(t.(relayed := s.relayed + buffer[..n]))
        case SocketFailure => Running(t.(lost := true))
        case IoFailure => Failed(RelayWriteFailed)
      else
        Running(t)
  }

  /**
   * The loop after its first `n` reads; `linked` says whether a relay
   * stream exists (the remote connect succeeded).
   */
  function RunTo(chunks: seq<Read>, n: nat, linked: bool): (p: Progress)
    requires ValidReads(chunks) && n <= |chunks|
    ensures p.Running? ==> |p.state.buffer| == BufferSize
    decreases n
  {
    if n == 0 then Running(Initial())
    else
      match RunTo(chunks, n - 1, linked)
      case Failed(f) => Failed(f)
      case Running(s) => Step(s, chunks[n - 1], linked)
  }

  /** The loop over all the reads. */
  function Run(chunks: seq<Read>, linked: bool): Progress
    requires ValidReads(chunks)
  {
    RunTo(chunks, |chunks|, linked)
  }

  /** The whole loop, including how it ends. */
  function Drain(stream: Stream, linked: bool): (p: Progress)
    requires ValidReads(stream.chunks)
    ensures stream.end == ReadFailure ==> p.Failed?
    ensures p.Running? ==> p == Run(stream.chunks, linked)
  {
    match Run(stream.chunks, linked)
    case Failed(f) => Failed(f)
    case Running(s) => if stream.end == ReadFailure then Failed(ReadFailed) else Running(s)
  }

  /** The raw bytes of reads `lo` up to `hi`, concatenated. */
  function RawConcat(chunks: seq<Read>, lo: nat, hi: nat): seq<byte>
    requires lo <= hi <= |chunks|
    decreases hi
  {
    if lo == hi then [] else RawConcat(chunks, lo, hi - 1) + chunks[hi - 1].data
  }

  // ----- One chunk -----

  /**
   * One iteration only grows the accumulator, leaves the relay alone once
   * it is lost or absent, and fails on the relay only for a non-socket
   * exception on a live relay.
   */
  lemma StepFrame(s: RunState, rd: Read, linked: bool)
    requires |s.buffer| == BufferSize && |rd.data| <= BufferSize
    ensures Step(s, rd, linked).Running? ==> s.stored <= Step(s, rd, linked).state.stored
    ensures Step(s, rd, linked).Running? && (s.lost || !linked) ==>
      Step(s, rd, linked).state.relayed == s.relayed && Step(s, rd, linked).state.lost == s.lost
    ensures Step(s, rd, linked) == Failed(RelayWriteFailed) ==> linked && !s.lost && rd.relay == IoFailure
  {
  }

  /** Once the accumulator holds a byte, a chunk is appended verbatim, even if it holds the marker. */
  lemma {:induction false} StepAppendsVerbatim(s: RunState, rd: Read, linked: bool)
    requires |s.buffer| == BufferSize && |rd.data| <= BufferSize
    requires |s.stored| > 0
    ensures Step(s, rd, linked) != Failed(IndexOutOfBounds)
    ensures Step(s, rd, linked).Running? ==> Step(s, rd, linked).state.stored == s.stored + rd.data
  {
    var buffer := Refill(s.buffer, rd.data);
    assert buffer[0..|rd.data|] == rd.data;
  }

  /**
   * While the accumulator is empty and the marker is in the buffer, the
   * stored bytes start one past the FIRST NUL of the whole buffer, at
   * index k, and end at the read length n; the write throws when k + 1 > n.
   */
  lemma StripFromFirstNul(buffer: seq<byte>, n: nat, k: nat)
    requires n <= |buffer| && MarkerSeen(buffer)
    requires k < |buffer| && buffer[k] == Nul && Nul !in buffer[..k]
    ensures LocalWrite(0, buffer, n) == if k + 1 <= n then Some(buffer[k + 1..n]) else None
  {
    IndexOfIsFirst(buffer, Nul, k);
  }

  /** The marker without any NUL in the buffer: `indexOf` gives -1 and the whole chunk is stored. */
  lemma NoNulKeepsWholeChunk(buffer: seq<byte>, n: nat)
    requires n <= |buffer| && MarkerSeen(buffer) && Nul !in buffer
    ensures LocalWrite(0, buffer, n) == Some(buffer[..n])
  {
    assert buffer[0..n] == buffer[..n];
  }

  /** Whatever the local write stores is a suffix of the bytes the read delivered. */
  lemma LocalWriteStoresSuffix(size: nat, buffer: seq<byte>, n: nat)
    requires n <= |buffer|
    ensures LocalWrite(size, buffer, n).Some? ==>
      |LocalWrite(size, buffer, n).value| <= n &&
      LocalWrite(size, buffer, n).value == buffer[n - |LocalWrite(size, buffer, n).value|..n]
  {
  }

  /** Without the marker nothing is stripped. */
  lemma NoMarkerKeepsWholeChunk(size: nat, buffer: seq<byte>, n: nat)
    requires n <= |buffer| && !MarkerSeen(buffer)
    ensures LocalWrite(size, buffer, n) == Some(buffer[..n])
  {
    assert buffer[0..n] == buffer[..n];
  }

  // ----- The whole loop -----

  /** A failure ends the loop: no later read changes the outcome. */
  lemma {:induction false} FailureIsFinal(chunks: seq<Read>, j: nat, n: nat, linked: bool)
    requires ValidReads(chunks) && j <= n <= |chunks|
    requires RunTo(chunks, j, linked).Failed?
    ensures RunTo(chunks, n, linked) == RunTo(chunks, j, linked)
    decreases n
  {
    if j < n {
      FailureIsFinal(chunks, j, n - 1, linked);
    }
  }

  /** The accumulator is append-only: earlier contents are a prefix of later ones. */
  lemma {:induction false} StoredAppendOnly(chunks: seq<Read>, j: nat, n: nat, linked: bool)
    requires ValidReads(chunks) && j <= n <= |chunks|
    requires RunTo(chunks, n, linked).Running?
    ensures RunTo(chunks, j, linked).Running?
    ensures RunTo(chunks, j, linked).state.stored <= RunTo(chunks, n, linked).state.stored
    ensures |RunTo(chunks, j, linked).state.stored| <= |RunTo(chunks, n, linked).state.stored|
    decreases n
  {
    if j < n {
      StoredAppendOnly(chunks, j, n - 1, linked);
    }
  }

  /**
   * Once the accumulator is non-empty after `j` reads, every later chunk
   * is appended verbatim and the header strip can no longer throw.
   */
  lemma {:induction false} VerbatimOnceNonEmpty(chunks: seq<Read>, j: nat, n: nat, linked: bool)
    requires ValidReads(chunks) && j <= n <= |chunks|
    requires RunTo(chunks, j, linked).Running? && |RunTo(chunks, j, linked).state.stored| > 0
    ensures RunTo(chunks, n, linked) != Failed(IndexOutOfBounds)
    ensures RunTo(chunks, n, linked).Running? ==>
      RunTo(chunks, n, linked).state.stored == RunTo(chunks, j, linked).state.stored + RawConcat(chunks, j, n)
    decreases n
  {
    if j < n {
      VerbatimOnceNonEmpty(chunks, j, n - 1, linked);
      if RunTo(chunks, n - 1, linked).Running? {
        var s := RunTo(chunks, n - 1, linked).state;
        StepAppendsVerbatim(s, chunks[n - 1], linked);
      }
    }
  }

  /** The buffer of the first read: its bytes over the zero fill of `new byte[128]`. */
  function FirstBuffer(chunks: seq<Read>): seq<byte>
    requires ValidReads(chunks) && |chunks| > 0
  {
    Refill(Zeros(BufferSize), chunks[0].data)
  }

  /**
   * A first chunk whose buffer holds no marker: the stored bytes are
   * all the chunks, unmodified.
   */
  lemma FirstChunkUnmarked(chunks: seq<Read>, linked: bool)
    requires ValidReads(chunks) && |chunks| > 0
    requires !MarkerSeen(FirstBuffer(chunks))
    ensures Run(chunks, linked) != Failed(IndexOutOfBounds)
    ensures Run(chunks, linked).Running? ==> Run(chunks, linked).state.stored == RawConcat(chunks, 0, |chunks|)
  {
    assert 1 <= |chunks[0].data|;
    StepUnmarked(Initial(), chunks[0], linked);
    assert RunTo(chunks, 1, linked) == Step(Initial(), chunks[0], linked);
    if RunTo(chunks, 1, linked).Running? {
      assert RunTo(chunks, 1, linked).state.stored == chunks[0].data;
      VerbatimOnceNonEmpty(chunks, 1, |chunks|, linked);
      RawConcatFront(chunks, |chunks|);
    } else {
      FailureIsFinal(chunks, 1, |chunks|, linked);
    }
  }

  /** One chunk whose buffer holds no marker is appended whole. */
  lemma StepUnmarked(s: RunState, rd: Read, linked: bool)
    requires |s.buffer| == BufferSize && |rd.data| <= BufferSize
    requires !MarkerSeen(Refill(s.buffer, rd.data))
    ensures Step(s, rd, linked) != Failed(IndexOutOfBounds)
    ensures Step(s, rd, linked).Running? ==> Step(s, rd, linked).state.stored == s.stored + rd.data
  {
    NoMarkerKeepsWholeChunk(|s.stored|, Refill(s.buffer, rd.data), |rd.data|);
  }

  /** The first chunk's bytes followed by the later ones. */
  lemma {:induction false} RawConcatFront(chunks: seq<Read>, n: nat)
    requires 0 < n <= |chunks|
    ensures RawConcat(chunks, 0, n) == chunks[0].data + RawConcat(chunks, 1, n)
    decreases n
  {
    if n > 1 {
      RawConcatFront(chunks, n - 1);
    }
  }

  /**
   * A first chunk that carries the marker and whose first NUL, at k, is
   * followed by payload: the stored bytes are that payload followed by
   * every later chunk verbatim.
   */
  lemma FirstChunkStripped(chunks: seq<Read>, k: nat, linked: bool)
    requires ValidReads(chunks) && |chunks| > 0
    requires MarkerSeen(FirstBuffer(chunks))
    requires k + 1 < |chunks[0].data| && chunks[0].data[k] == Nul && Nul !in chunks[0].data[..k]
    ensures Run(chunks, linked) != Failed(IndexOutOfBounds)
    ensures Run(chunks, linked).Running? ==>
      Run(chunks, linked).state.stored == chunks[0].data[k + 1..] + RawConcat(chunks, 1, |chunks|)
  {
    StepStrips(Initial(), chunks[0], linked, k);
    if RunTo(chunks, 1, linked).Running? {
      VerbatimOnceNonEmpty(chunks, 1, |chunks|, linked);
    } else {
      FailureIsFinal(chunks, 1, |chunks|, linked);
    }
  }

  /**
   * One chunk into an empty accumulator with the marker in the buffer and
   * the chunk's own first NUL at k, followed by payload: the payload is stored.
   */
  lemma StepStrips(s: RunState, rd: Read, linked: bool, k: nat)
    requires |s.buffer| == BufferSize && |rd.data| <= BufferSize && s.stored == []
    requires MarkerSeen(Refill(s.buffer, rd.data))
    requires k + 1 < |rd.data| && rd.data[k] == Nul && Nul !in rd.data[..k]
    ensures Step(s, rd, linked) != Failed(IndexOutOfBounds)
    ensures Step(s, rd, linked).Running? ==> Step(s, rd, linked).state.stored == rd.data[k + 1..]
  {
    var b := Refill(s.buffer, rd.data);
    var d := rd.data;
    assert b[..k] == d[..k] && b[k] == d[k];
    StripFromFirstNul(b, |d|, k);
    assert b[k + 1..|d|] == d[k + 1..];
  }

  /**
   * A first chunk shorter than the buffer that carries the marker but no
   * NUL: the zero fill supplies the first NUL, one past the read length,
   * so the write length is negative and the loop fails.
   */
  lemma ShortHeaderWithoutNulFails(chunks: seq<Read>, linked: bool)
    requires ValidReads(chunks) && |chunks| > 0
    requires |chunks[0].data| < BufferSize && Nul !in chunks[0].data
    requires MarkerSeen(FirstBuffer(chunks))
    ensures Run(chunks, linked) == Failed(IndexOutOfBounds)
  {
    var d := chunks[0].data;
    var rest := Zeros(BufferSize)[|d|..];
    assert rest[0] == Nul;
    IndexOfAppend(d, rest, Nul);
    FailureIsFinal(chunks, 1, |chunks|, linked);
  }

  /**
   * The strip reads stale bytes: a read that follows a header-only chunk
   * (so the accumulator is still empty), brings no NUL, and is shorter
   * than that header is stripped from the header's NUL, which lies past
   * the read length, and the loop fails.
   */
  lemma StaleNulFails(s: RunState, rd: Read, linked: bool, k: nat)
    requires |s.buffer| == BufferSize && |rd.data| <= k < BufferSize
    requires s.stored == [] && s.buffer[k] == Nul && Nul !in s.buffer[..k]
    requires Nul !in rd.data && MarkerSeen(Refill(s.buffer, rd.data))
    ensures Step(s, rd, linked) == Failed(IndexOutOfBounds)
  {
    var b := Refill(s.buffer, rd.data);
    assert b[..k] == rd.data + s.buffer[|rd.data|..k];
    assert Nul !in b[..k];
    StripFromFirstNul(b, |rd.data|, k);
  }

  // ----- The relay -----

  /** Without a relay stream nothing is relayed and the loss flag stays down. */
  lemma {:induction false} UnlinkedNeverRelays(chunks: seq<Read>, n: nat)
    requires ValidReads(chunks) && n <= |chunks|
    ensures RunTo(chunks, n, false) != Failed(RelayWriteFailed)
    ensures RunTo(chunks, n, false).Running? ==>
      RunTo(chunks, n, false).state.relayed == [] && !RunTo(chunks, n, false).state.lost
    decreases n
  {
    if n > 0 {
      UnlinkedNeverRelays(chunks, n - 1);
    }
  }

  /**
   * While the relay is alive after `n` reads, the remote server has
   * received exactly the raw chunks, unstripped, and every write so far
   * succeeded.
   */
  lemma {:induction false} RelayedIsRawConcat(chunks: seq<Read>, n: nat)
    requires ValidReads(chunks) && n <= |chunks|
    requires RunTo(chunks, n, true).Running? && !RunTo(chunks, n, true).state.lost
    ensures RunTo(chunks, n, true).state.relayed == RawConcat(chunks, 0, n)
    ensures forall i :: 0 <= i < n ==> chunks[i].relay == Written
    decreases n
  {
    if n > 0 {
      var s := RunTo(chunks, n - 1, true).state;
      RelayedIsRawConcat(chunks, n - 1);
      assert Refill(s.buffer, chunks[n - 1].data)[..|chunks[n - 1].data|] == chunks[n - 1].data;
    }
  }

  /**
   * Once the relay is lost it was linked, the loss came from a socket
   * failure on read m, and the server holds exactly the chunks before m.
   */
  lemma {:induction false} LostAtFirstSocketFailure(chunks: seq<Read>, n: nat, linked: bool)
    requires ValidReads(chunks) && n <= |chunks|
    requires RunTo(chunks, n, linked).Running? && RunTo(chunks, n, linked).state.lost
    ensures linked
    ensures exists m :: (0 <= m < n && chunks[m].relay == SocketFailure
      && (forall i :: 0 <= i < m ==> chunks[i].relay == Written)
      && RunTo(chunks, n, linked).state.relayed == RawConcat(chunks, 0, m))
    decreases n
  {
    if !linked {
      UnlinkedNeverRelays(chunks, n);
    } else if RunTo(chunks, n - 1, true).state.lost {
      LostAtFirstSocketFailure(chunks, n - 1, true);
    } else {
      RelayedIsRawConcat(chunks, n - 1);
      assert chunks[n - 1].relay == SocketFailure;
    }
  }

  /**
   * The loss is permanent: after read j it stays set, no further write
   * happens, so the relayed bytes stay as they were and no later relay
   * failure can end the loop.
   */
  lemma {:induction false} LossIsPermanent(chunks: seq<Read>, j: nat, n: nat, linked: bool)
    requires ValidReads(chunks) && j <= n <= |chunks|
    requires RunTo(chunks, j, linked).Running? && RunTo(chunks, j, linked).state.lost
    ensures RunTo(chunks, n, linked) != Failed(RelayWriteFailed)
    ensures RunTo(chunks, n, linked).Running? ==>
      RunTo(chunks, n, linked).state.lost &&
      RunTo(chunks, n, linked).state.relayed == RunTo(chunks, j, linked).state.relayed
    decreases n
  {
    if j < n {
      LossIsPermanent(chunks, j, n - 1, linked);
    }
  }

  /** A relay whose writes never throw anything but a `SocketException` never ends the loop. */
  lemma {:induction false} NoIoFailureNoRelayFailure(chunks: seq<Read>, n: nat)
    requires ValidReads(chunks) && n <= |chunks|
    requires forall i :: 0 <= i < |chunks| ==> chunks[i].relay != IoFailure
    ensures RunTo(chunks, n, true) != Failed(RelayWriteFailed)
    decreases n
  {
    if n > 0 {
      NoIoFailureNoRelayFailure(chunks, n - 1);
    }
  }

  /** The local side of two outcomes agrees: same buffer and stored bytes, or the same local failure. */
  predicate SameLocal(p: Progress, q: Progress) {
    match p
    case Running(s) => q.Running? && q.state.buffer == s.buffer && q.state.stored == s.stored
    case Failed(f) => q == Failed(f)
  }

  /** One chunk: the local write does not look at the relay state. */
  lemma StepIndependentOfRelay(s: RunState, t: RunState, rd: Read)
    requires |s.buffer| == BufferSize && |rd.data| <= BufferSize
    requires t.buffer == s.buffer && t.stored == s.stored
    ensures Step(s, rd, true) == Failed(RelayWriteFailed) || SameLocal(Step(s, rd, true), Step(t, rd, false))
  {
  }

  /**
   * Recording does not depend on the relay: unless a relay write ends the
   * session, a linked run stores exactly what a run without any relay
   * stores, whatever the relay writes did.
   */
  lemma {:induction false} StoredIndependentOfRelay(chunks: seq<Read>, n: nat)
    requires ValidReads(chunks) && n <= |chunks|
    ensures RunTo(chunks, n, true) == Failed(RelayWriteFailed) ||
            SameLocal(RunTo(chunks, n, true), RunTo(chunks, n, false))
    decreases n
  {
    if n > 0 {
      StoredIndependentOfRelay(chunks, n - 1);
      var p, q := RunTo(chunks, n - 1, true), RunTo(chunks, n - 1, false);
      if p.Running? && q.Running? {
        StepIndependentOfRelay(p.state, q.state, chunks[n - 1]);
      }
    }
  }

  /** The same, for the whole loop. */
  lemma DrainIndependentOfRelay(stream: Stream)
    requires ValidReads(stream.chunks)
    ensures Drain(stream, true) == Failed(RelayWriteFailed) || SameLocal(Drain(stream, true), Drain(stream, false))
  {
    StoredIndependentOfRelay(stream.chunks, |stream.chunks|);
  }
}
