/**
 * The replay server as objects: the in-memory accumulator, the relay
 * stream to the remote replay server, and the server whose methods update
 * its fields.  Each method is proved against the functions of `Recording`
 * and `Control`, whose properties are proved there.
 */
module Server {
  import opened Wrappers
  import opened Bytes
  import opened Recording
  import opened Control

  /** `ByteArrayOutputStream`: a byte buffer that only grows. */
  class ByteArrayOutput {
    var bytes: seq<byte>

    constructor ()
      ensures bytes == []
    {
      bytes := [];
    }

    function Size(): nat
      reads this
    {
      |bytes|
    }

    /** `write(b, off, len)`: append `b[off..off + len]`, or throw when the range is not inside `b`. */
    method Write(b: array<byte>, off: int, len: int) returns (ok: bool)
      modifies this
      ensures ok == WriteRange(b[..], off, len).Some?
      ensures bytes == if ok then old(bytes) + WriteRange(b[..], off, len).value else old(bytes)
    {
      if off < 0 || len < 0 || off + len > b.Length {
        ok := false;
      } else {
        bytes := bytes + b[off..off + len];
        ok := true;
      }
    }
  }

  /**
   * The output stream to the remote replay server; `sent` is what the
   * server has received.  Whether a write goes through is the peer's
   * doing, so it is an input.
   */
  class RelayStream {
    var sent: seq<byte>

    constructor ()
      ensures sent == []
    {
      sent := [];
    }

    method Write(b: array<byte>, off: nat, len: nat, outcome: WriteResult)
      requires off + len <= b.Length
      modifies this
      ensures sent == if outcome == Written then old(sent) + b[off..off + len] else old(sent)
    {
      if outcome == Written {
        sent := sent + b[off..off + len];
      }
    }
  }

  /** The loop's state as the objects hold it. */
  function Observed(buffer: array<byte>, replayData: ByteArrayOutput, relay: RelayStream?, lost: bool): RunState
    reads buffer, replayData, relay
  {
    RunState(buffer[..], replayData.bytes, if relay == null then [] else relay.sent, lost)
  }

  /**
   * One pass of the read loop: `read` fills the front of the buffer, the
   * chunk is written to the accumulator, then relayed while the relay is
   * alive.  `failure` is the exception that leaves the loop, if any.
   */
  method ReadOnce(rd: Read, buffer: array<byte>, replayData: ByteArrayOutput, relay: RelayStream?,
                  connectionToServerLost: bool, ghost linked: bool, ghost before: RunState)
    returns (lost: bool, failure: Option<Failure>)
    requires buffer.Length == BufferSize && |rd.data| <= BufferSize && (relay != null) == linked
    requires before == Observed(buffer, replayData, relay, connectionToServerLost)
    modifies buffer, replayData, relay
    ensures Step(before, rd, linked) ==
      if failure.Some? then Failed(failure.value) else Running(Observed(buffer, replayData, relay, lost))
  {
    var bytesRead := |rd.data|;
    forall j | 0 <= j < bytesRead {
      buffer[j] := rd.data[j];
    }
    assert buffer[..] == Refill(before.buffer, rd.data);
    lost := connectionToServerLost;
    failure := None;

    var ok;
    if replayData.Size() == 0 && IndexOfSlice(buffer[..], LiveReplayPrefix) != -1 {
      var dataBeginIndex := IndexOf(buffer[..], 0) + 1;
      ok := replayData.Write(buffer, dataBeginIndex, bytesRead - dataBeginIndex);
    } else {
      ok := replayData.Write(buffer, 0, bytesRead);
    }
    ghost var local := LocalWrite(|before.stored|, buffer[..], bytesRead);
    assert ok == local.Some?;
    if !ok {
      return lost, Some(IndexOutOfBounds);
    }
    assert replayData.bytes == before.stored + local.value;

    if !lost && relay != null {
      relay.Write(buffer, 0, bytesRead, rd.relay);
      if rd.relay == SocketFailure {
        lost := true;
      } else if rd.relay == IoFailure {
        failure := Some(RelayWriteFailed);
      }
    }
  }

  /**
   * The read loop of `recordAndRelay`: read into one reused buffer until
   * the stream ends, store each chunk (header stripped while nothing is
   * stored yet) and relay the raw chunk until the first socket failure.
   */
  method RecordLoop(stream: Stream, linked: bool) returns (p: Progress)
    requires ValidReads(stream.chunks)
    ensures p == Drain(stream, linked)
  {
    var replayData := new ByteArrayOutput();
    var relay: RelayStream? := null;
    if linked {
      relay := new RelayStream();
    }
    var connectionToServerLost := false;
    var buffer := new byte[BufferSize](_ => 0);
    assert buffer[..] == Zeros(BufferSize);
    var chunks := stream.chunks;
    var i := 0;
    while i < |chunks|
      invariant 0 <= i <= |chunks|
      invariant buffer.Length == BufferSize
      invariant (relay != null) == linked
      invariant RunTo(chunks, i, linked) == Running(Observed(buffer, replayData, relay, connectionToServerLost))
    {
      ghost var before := Observed(buffer, replayData, relay, connectionToServerLost);
      assert RunTo(chunks, i + 1, linked) == Step(before, chunks[i], linked);
      var failure;
      connectionToServerLost, failure := ReadOnce(chunks[i], buffer, replayData, relay, connectionToServerLost, linked, before);
      if failure.Some? {
        FailureIsFinal(chunks, i + 1, |chunks|, linked);
        return Failed(failure.value);
      }
      i := i + 1;
    }
    if stream.end == ReadFailure {
      p := Failed(ReadFailed);
    } else {
      p := Running(Observed(buffer, replayData, relay, connectionToServerLost));
    }
  }

  /** The server object: the fields it updates and those of its collaborators it feeds. */
  class ReplayServerImpl {
    var serverSocket: Option<Listener>
    var stoppedGracefully: bool
    /** The future of the latest `start`. */
    var future: Option<Future>
    var replayInfo: Option<ReplayInfo>
    /** What went to the notification service. */
    var notices: seq<Notice>
    /** The calls of the replay file writer that returned normally. */
    var saved: seq<SavedReplay>

    function State(): ServerState
      reads this
    {
      ServerState(serverSocket, stoppedGracefully, future, replayInfo, notices, saved)
    }

    constructor ()
      ensures State() == Fresh()
    {
      serverSocket := None;
      stoppedGracefully := false;
      future := None;
      replayInfo := None;
      notices := [];
      saved := [];
    }

    method Stop()
      modifies this
      ensures State() == Control.Stop(old(State()))
    {
      if serverSocket == None {
        return;
      }
      stoppedGracefully := true;
      serverSocket := Some(serverSocket.value.(closed := true));
    }

    /** `start`: the caller's part; the worker is `Listen` followed by `Serve`. */
    method Start(gameId: int)
      modifies this
      ensures State() == Control.Start(old(State()), gameId)
    {
      stoppedGracefully := false;
      future := Some(Pending);
    }

    /** The worker's `catch (IOException e)`. */
    method HandleIoFailure(gameId: int)
      modifies this
      ensures State() == OnIoFailure(old(State()), gameId)
    {
      if stoppedGracefully {
        return;
      }
      if future == Some(Pending) {
        future := Some(CompletedExceptionally);
      }
      notices := notices + [ListeningFailed(gameId)];
    }

    /** Open the local listener and publish it, then complete the future with its port. */
    method Listen(gameId: int, bound: Option<int>) returns (listening: bool)
      modifies this
      ensures listening == bound.Some?
      ensures State() == Control.Listen(old(State()), gameId, bound)
    {
      if bound.None? {
        HandleIoFailure(gameId);
        return false;
      }
      serverSocket := Some(Listener(bound.value, false));
      if future == Some(Pending) {
        future := Some(Completed(bound.value));
      }
      return true;
    }

    method CloseLocalSocket()
      modifies this
      ensures State() == CloseListener(old(State()))
    {
      if serverSocket.Some? {
        serverSocket := Some(serverSocket.value.(closed := true));
      }
    }

    method InitReplayInfo(gameId: int, now: int)
      modifies this
      ensures State() == old(State()).(replayInfo := Some(Control.InitReplayInfo(gameId, now)))
    {
      replayInfo := Some(ReplayInfo(gameId, now, None, None, Unset));
    }

    method FinishReplayInfo(now: int, recorder: string)
      requires replayInfo.Some?
      modifies this
      ensures State() == old(State()).(replayInfo := Some(Control.FinishReplayInfo(old(replayInfo.value), now, recorder)))
    {
      var info := replayInfo.value;
      replayInfo := Some(info.(duration := Some(now - info.startTime), recorder := Some(recorder), state := Closed));
    }

    method RecordAndRelay(gameId: int, sess: Session, linked: bool) returns (exit: Exit)
      requires ValidReads(sess.stream.chunks)
      modifies this
      ensures Served(State(), exit) == Record(old(State()), gameId, sess, linked)
    {
      if !sess.accepted {
        return IoError;
      }
      InitReplayInfo(gameId, sess.acceptTime);
      var p := RecordLoop(sess.stream, linked);
      if p == Failed(IndexOutOfBounds) {
        return Crashed;
      } else if p.Failed? {
        return IoError;
      }
      FinishReplayInfo(sess.finishTime, sess.recorder);
      if !sess.writeSucceeds {
        return IoError;
      }
      saved := saved + [SavedReplay(p.state.stored, replayInfo.value)];
      return Saved;
    }

    /** Connect to the remote server and record; close the listener; hand an IOException to the handler. */
    method Serve(gameId: int, sess: Session) returns (exit: Exit)
      requires ValidReads(sess.stream.chunks)
      modifies this
      ensures Served(State(), exit) == Control.Serve(old(State()), gameId, sess)
    {
      match sess.connect {
        case Connected =>
          exit := RecordAndRelay(gameId, sess, true);
        case Refused =>
          notices := notices + [ReplayServerUnreachable];
          exit := RecordAndRelay(gameId, sess, false);
        case ConnectFailed =>
          exit := IoError;
      }
      CloseLocalSocket();
      if exit == IoError {
        HandleIoFailure(gameId);
      }
    }
  }

  /** A stop while the worker waits in `accept` leaves no report and saves nothing. */
  method GracefulStopScenario(gameId: int, port: int, sess: Session)
    requires ValidReads(sess.stream.chunks) && !sess.accepted && sess.connect == Connected
  {
    var server := new ReplayServerImpl();
    server.Start(gameId);
    var listening := server.Listen(gameId, Some(port));
    assert listening && server.future == Some(Completed(port));
    server.Stop();
    server.Stop();
    assert server.stoppedGracefully;
    var exit := server.Serve(gameId, sess);
    assert exit == IoError;
    assert server.notices == [] && server.saved == [];
    assert server.future == Some(Completed(port));
  }

  /** A session that ends normally saves its replay once, stamped CLOSED with its duration; a later stop reports nothing. */
  method SavedSessionScenario(gameId: int, port: int, sess: Session)
    requires ValidReads(sess.stream.chunks) && sess.accepted && sess.writeSucceeds
    requires Drain(sess.stream, sess.connect == Connected).Running? && sess.connect != ConnectFailed
  {
    var server := new ReplayServerImpl();
    server.Start(gameId);
    var listening := server.Listen(gameId, Some(port));
    var exit := server.Serve(gameId, sess);
    assert exit == Saved && |server.saved| == 1;
    assert server.saved[0].info.duration == Some(sess.finishTime - sess.acceptTime);
    assert server.saved[0].info.state == Closed;
    server.Stop();
    assert server.serverSocket == Some(Listener(port, true));
    assert ListeningFailed(gameId) !in server.notices;
  }
}
