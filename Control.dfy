/**
 * The replay server's control state as a value, and what `start`, `stop`,
 * the worker and its error handler do to it.
 *
 * The worker thread of `start` is split at the point where another
 * thread can act on it: `Listen` opens the local listener and completes
 * the future with its port, and `Serve` connects to the remote server,
 * accepts the game's connection, records and saves.  `stop` may be
 * called between the two (while the worker waits in `accept`) or at
 * any other point between these steps.
 */
module Control {
  import opened Wrappers
  import opened Bytes
  import opened Recording

  /** The published local `ServerSocket`: its bound port and whether it was closed. */
  datatype Listener = Listener(port: int, closed: bool)

  /** The `CompletableFuture<Integer>` that `start` returns. */
  datatype Future = Pending | Completed(port: int) | CompletedExceptionally

  /** Notifications shown to the user, both of severity WARN. */
  datatype Notice =
    | ReplayServerUnreachable          // the remote connect was refused
    | ListeningFailed(retryGameId: int)  // carries a retry action that calls start(retryGameId)

  datatype GameState = Unset | Closed

  /** The fields of `LocalReplayInfo` that the server sets. */
  datatype ReplayInfo = ReplayInfo(id: int, startTime: int, duration: Option<int>,
                                   recorder: Option<string>, state: GameState)

  /** One call of the replay file writer that returned normally: the accumulated bytes and the info. */
  datatype SavedReplay = SavedReplay(data: seq<byte>, info: ReplayInfo)

  datatype ServerState = ServerState(
    serverSocket: Option<Listener>,
    stoppedGracefully: bool,
    future: Option<Future>,
    replayInfo: Option<ReplayInfo>,
    notices: seq<Notice>,
    saved: seq<SavedReplay>)

  /** The outcome of connecting to the remote replay server. */
  datatype Connect =
    | Connected
    | Refused         // ConnectException: record without relay
    | ConnectFailed   // any other IOException (an unknown host, say): the session ends

  /**
   * What the environment does during one session: the remote connect,
   * whether `accept` returns a connection (it throws when `stop` closed the
   * listener), the clock at accept and at the end, the local stream, the
   * user's display name and whether the replay file writer succeeds.
   */
  datatype Session = Session(connect: Connect, accepted: bool, acceptTime: int, stream: Stream,
                             finishTime: int, recorder: string, writeSucceeds: bool)

  /** How the worker ends. */
  datatype Exit =
    | Saved      // the replay went to the file writer
    | IoError    // an IOException reached the worker's handler
    | Crashed    // an unchecked exception left the worker; no handler ran

  datatype Served = Served(state: ServerState, exit: Exit)

  /** A fresh server: nothing published, no future yet. */
  function Fresh(): ServerState {
    ServerState(None, false, None, None, [], [])
  }

  /** `start`: clears the graceful-stop flag and hands out a new, pending future. */
  function Start(s: ServerState, gameId: int): (r: ServerState)
    ensures !r.stoppedGracefully && r.future == Some(Pending)
    ensures r.serverSocket == s.serverSocket && r.replayInfo == s.replayInfo
    ensures r.notices == s.notices && r.saved == s.saved
  {
    s.(stoppedGracefully := false, future := Some(Pending))
  }

  /** `stop`: nothing without a published listener; otherwise flag the stop and close it. */
  function Stop(s: ServerState): (r: ServerState)
    ensures r.serverSocket.Some? <==> s.serverSocket.Some?
    ensures r.serverSocket.Some? ==> r.stoppedGracefully && r.serverSocket.value == s.serverSocket.value.(closed := true)
    ensures r.future == s.future && r.replayInfo == s.replayInfo
    ensures r.notices == s.notices && r.saved == s.saved
  {
    match s.serverSocket
    case None => s
    case Some(l) => s.(stoppedGracefully := true, serverSocket := Some(l.(closed := true)))
  }

  /** `CompletableFuture.complete`: only a pending future takes the value. */
  function Complete(f: Option<Future>, port: int): Option<Future> {
    if f == Some(Pending) then Some(Completed(port)) else f
  }

  /** `CompletableFuture.completeExceptionally`: only a pending future takes the failure. */
  function CompleteExceptionally(f: Option<Future>): Option<Future> {
    if f == Some(Pending) then Some(CompletedExceptionally) else f
  }

  /** The worker's `catch (IOException e)`: silent after a graceful stop, else fail the future and notify. */
  function OnIoFailure(s: ServerState, gameId: int): (r: ServerState)
    ensures r.serverSocket == s.serverSocket && r.stoppedGracefully == s.stoppedGracefully
    ensures r.replayInfo == s.replayInfo && r.saved == s.saved
    ensures s.notices <= r.notices && |r.notices| <= |s.notices| + 1
  {
    if s.stoppedGracefully then s
    else s.(future := CompleteExceptionally(s.future), notices := s.notices + [ListeningFailed(gameId)])
  }

  /** The first part of the worker: bind on an OS-assigned port (None: the bind threw). */
  function Listen(s: ServerState, gameId: int, bound: Option<int>): (r: ServerState)
    ensures bound.Some? ==> r.serverSocket == Some(Listener(bound.value, false)) && r.notices == s.notices
    ensures bound.Some? ==> r.future == Complete(s.future, bound.value) && r.replayInfo == s.replayInfo
    ensures bound.None? ==> r.serverSocket == s.serverSocket && r == OnIoFailure(s, gameId)
    ensures r.stoppedGracefully == s.stoppedGracefully && r.saved == s.saved
  {
    match bound
    case Some(port) => s.(serverSocket := Some(Listener(port, false)), future := Complete(s.future, port))
    case None => OnIoFailure(s, gameId)
  }

  /** Try-with-resources closes the local listener whichever way the worker leaves. */
  function CloseListener(s: ServerState): ServerState {
    match s.serverSocket
    case None => s
    case Some(l) => s.(serverSocket := Some(l.(closed := true)))
  }

  /** `initReplayInfo`: a new info with the game id and the start time. */
  function InitReplayInfo(gameId: int, now: int): ReplayInfo {
    ReplayInfo(gameId, now, None, None, Unset)
  }

  /** `finishReplayInfo`: stamp the duration since the start, the recorder and CLOSED. */
  function FinishReplayInfo(info: ReplayInfo, now: int, recorder: string): ReplayInfo {
    info.(duration := Some(now - info.startTime), recorder := Some(recorder), state := Closed)
  }

  /**
   * `recordAndRelay`: accept, start the info, run the read loop, finish the
   * info and hand the replay to the file writer.  An exception leaves it
   * with the state as it then is.
   */
  function Record(s: ServerState, gameId: int, sess: Session, linked: bool): Served
    requires ValidReads(sess.stream.chunks)
  {
    if !sess.accepted then Served(s, IoError)
    else
      var info := InitReplayInfo(gameId, sess.acceptTime);
      var s1 := s.(replayInfo := Some(info));
      match Drain(sess.stream, linked)
      case Failed(IndexOutOfBounds) => Served(s1, Crashed)
      case Failed(_) => Served(s1, IoError)
      case Running(r) =>
        var done := FinishReplayInfo(info, sess.finishTime, sess.recorder);
        var s2 := s1.(replayInfo := Some(done));
        if sess.writeSucceeds then Served(s2.(saved := s2.saved + [SavedReplay(r.stored, done)]), Saved)
        else Served(s2, IoError)
  }

  /**
   * The second part of the worker: connect to the remote server and
   * record; then the listener is closed and an IOException goes to the
   * handler.
   */
  function Serve(s: ServerState, gameId: int, sess: Session): Served
    requires ValidReads(sess.stream.chunks)
  {
    var r := match sess.connect
      case Connected => Record(s, gameId, sess, true)
      case Refused => Record(s.(notices := s.notices + [ReplayServerUnreachable]), gameId, sess, false)
      case ConnectFailed => Served(s, IoError);
    var closed := CloseListener(r.state);
    Served(if r.exit == IoError then OnIoFailure(closed, gameId) else closed, r.exit)
  }

  // ----- stop -----

  /** `stop` without a published listener changes nothing. */
  lemma StopWithoutListenerIsNoOp(s: ServerState)
    requires s.serverSocket.None?
    ensures Stop(s) == s
  {
  }

  /** With a listener, `stop` leaves the flag set and the listener closed, and a second `stop` keeps that state. */
  lemma StopIsIdempotent(s: ServerState)
    requires s.serverSocket.Some?
    ensures Stop(s).stoppedGracefully && Stop(s).serverSocket.value.closed
    ensures Stop(Stop(s)) == Stop(s)
    ensures Stop(s).notices == s.notices && Stop(s).future == s.future
  {
  }

  // ----- the IOException handler -----

  /**
   * An IOException reaching the handler is silent exactly when the stop
   * was graceful; otherwise it adds one retry notice for the same game and
   * fails a pending future.
   */
  lemma IoFailureSilentIffGraceful(s: ServerState, gameId: int)
    ensures OnIoFailure(s, gameId) == s <==> s.stoppedGracefully
    ensures !s.stoppedGracefully ==>
      OnIoFailure(s, gameId).notices == s.notices + [ListeningFailed(gameId)] &&
      OnIoFailure(s, gameId).future == CompleteExceptionally(s.future)
  {
    if !s.stoppedGracefully {
      assert |OnIoFailure(s, gameId).notices| == |s.notices| + 1;
    }
  }

  /** A bind failure straight after `start` is reported: one retry notice and an exceptional future. */
  lemma StartReportsFailure(s: ServerState, gameId: int)
    ensures OnIoFailure(Start(s, gameId), gameId).notices == s.notices + [ListeningFailed(gameId)]
    ensures OnIoFailure(Start(s, gameId), gameId).future == Some(CompletedExceptionally)
  {
  }

  /** A successful bind straight after `start` completes the new future with the bound port and posts nothing. */
  lemma StartReportsPort(s: ServerState, gameId: int, port: int)
    ensures Listen(Start(s, gameId), gameId, Some(port)).future == Some(Completed(port))
    ensures Listen(Start(s, gameId), gameId, Some(port)).notices == s.notices
    ensures Listen(Start(s, gameId), gameId, Some(port)).serverSocket == Some(Listener(port, false))
  {
  }

  /**
   * A failed bind is silent when an earlier session left a listener that
   * `stop` closed after this `start`: the field is never cleared, so the
   * new worker's future stays pending forever.
   */
  lemma StaleListenerSilencesBindFailure(s: ServerState, gameId: int)
    requires s.serverSocket.Some?
    ensures Listen(Stop(Start(s, gameId)), gameId, None).future == Some(Pending)
    ensures Listen(Stop(Start(s, gameId)), gameId, None).notices == s.notices
  {
  }

  // ----- a session -----

  /** Whichever way the worker ends, its listener is closed and at most one replay is saved. */
  lemma ServeClosesListener(s: ServerState, gameId: int, sess: Session)
    requires ValidReads(sess.stream.chunks)
    ensures Serve(s, gameId, sess).state.serverSocket == CloseListener(s).serverSocket
    ensures Serve(s, gameId, sess).exit == Saved ==> |Serve(s, gameId, sess).state.saved| == |s.saved| + 1
    ensures Serve(s, gameId, sess).exit != Saved ==> Serve(s, gameId, sess).state.saved == s.saved
  {
    match sess.connect
    case Connected => RecordSavesOnlyOnSuccess(s, gameId, sess, true);
    case Refused => RecordSavesOnlyOnSuccess(s.(notices := s.notices + [ReplayServerUnreachable]), gameId, sess, false);
    case ConnectFailed =>
  }

  /** The recording leaves the listener alone and saves one replay exactly when it ends with Saved. */
  lemma RecordSavesOnlyOnSuccess(s: ServerState, gameId: int, sess: Session, linked: bool)
    requires ValidReads(sess.stream.chunks)
    ensures Record(s, gameId, sess, linked).state.serverSocket == s.serverSocket
    ensures Record(s, gameId, sess, linked).exit == Saved ==> |Record(s, gameId, sess, linked).state.saved| == |s.saved| + 1
    ensures Record(s, gameId, sess, linked).exit != Saved ==> Record(s, gameId, sess, linked).state.saved == s.saved
  {
  }

  /**
   * A graceful stop while the worker waits in `accept`: the future keeps
   * its port, no failure is reported and nothing is saved; only a refused
   * remote connect has left its notice.
   */
  lemma GracefulStopBeforeAccept(s: ServerState, gameId: int, port: int, sess: Session)
    requires ValidReads(sess.stream.chunks) && !sess.accepted
    ensures var r := Serve(Stop(Listen(Start(s, gameId), gameId, Some(port))), gameId, sess).state;
      r.future == Some(Completed(port)) &&
      r.notices == s.notices + (if sess.connect == Refused then [ReplayServerUnreachable] else []) &&
      r.saved == s.saved
  {
  }

  /** The info handed to the file writer: the game id, the duration from accept to finish, the recorder, CLOSED. */
  lemma SavedReplayIsStamped(s: ServerState, gameId: int, sess: Session)
    requires ValidReads(sess.stream.chunks)
    requires Serve(s, gameId, sess).exit == Saved
    ensures var r := Serve(s, gameId, sess).state;
      |r.saved| == |s.saved| + 1 &&
      r.saved[|s.saved|].info == ReplayInfo(gameId, sess.acceptTime,
        Some(sess.finishTime - sess.acceptTime), Some(sess.recorder), Closed)
  {
  }

  /** Without a relay the data saved is exactly what the loop accumulated, with one unreachable notice. */
  lemma UnreachableRemoteStillSaves(s: ServerState, gameId: int, sess: Session)
    requires ValidReads(sess.stream.chunks)
    requires sess.connect == Refused && sess.accepted && sess.writeSucceeds
    requires Drain(sess.stream, false).Running?
    ensures Serve(s, gameId, sess).exit == Saved
    ensures Serve(s, gameId, sess).state.saved[|s.saved|].data == Drain(sess.stream, false).state.stored
    ensures Serve(s, gameId, sess).state.notices == s.notices + [ReplayServerUnreachable]
  {
  }

  /**
   * Losing the remote server (refused at connect, or dropped mid-stream)
   * never changes what is saved: a session with a live relay that saves
   * its replay saves the same bytes as the same session with the remote
   * refused.
   */
  lemma RelayLossKeepsSavedData(s: ServerState, gameId: int, sess: Session)
    requires ValidReads(sess.stream.chunks) && sess.connect == Connected
    requires Serve(s, gameId, sess).exit == Saved
    ensures Serve(s, gameId, sess.(connect := Refused)).exit == Saved
    ensures Serve(s, gameId, sess.(connect := Refused)).state.saved[|s.saved|]
         == Serve(s, gameId, sess).state.saved[|s.saved|]
  {
    DrainIndependentOfRelay(sess.stream);
  }

  /**
   * The converse: when the remote connect succeeds but the relay is later
   * dropped by socket failures only, the session still saves, and saves
   * the same replay as with the remote refused.
   */
  lemma RelayLossStillSaves(s: ServerState, gameId: int, sess: Session)
    requires ValidReads(sess.stream.chunks) && sess.connect == Connected
    requires forall i :: 0 <= i < |sess.stream.chunks| ==> sess.stream.chunks[i].relay != IoFailure
    ensures Serve(s, gameId, sess).exit == Serve(s, gameId, sess.(connect := Refused)).exit
    ensures Serve(s, gameId, sess).exit == Saved ==>
      Serve(s, gameId, sess).state.saved == Serve(s, gameId, sess.(connect := Refused)).state.saved
  {
    DrainIndependentOfRelay(sess.stream);
    NoIoFailureNoRelayFailure(sess.stream.chunks, |sess.stream.chunks|);
  }

  /** An unchecked exception in the loop ends the worker without a report and without saving. */
  lemma CrashIsUnreported(s: ServerState, gameId: int, sess: Session)
    requires ValidReads(sess.stream.chunks)
    requires Serve(s, gameId, sess).exit == Crashed
    ensures Serve(s, gameId, sess).state.future == s.future
    ensures Serve(s, gameId, sess).state.saved == s.saved
    ensures ListeningFailed(gameId) !in Serve(s, gameId, sess).state.notices[|s.notices|..]
  {
  }
}
