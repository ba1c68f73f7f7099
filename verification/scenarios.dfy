/** Client scenarios: sequences of events run against the two state machines,
    proved from their contracts alone. */
module Scenarios {
  import opened Optional
  import opened Lifecycle
  import opened Graceful

  /** Startup gating: not live while a startup task is unresolved, live once
      all have fulfilled. */
  method StartupGatesLiveness() returns (liveWhileRunning: bool, liveWhenFulfilled: bool, status: Lifecycle.Status)
    ensures !liveWhileRunning && liveWhenFulfilled
    ensures status == Ready
  {
    var health := new Health(PartialOptions(None, None, None));
    health.BeforeLive(1);
    health.BeforeLive(2);
    assert health.liveRunning == multiset{1, 2};
    health.LiveTaskFulfilled(1);
    assert health.liveRunning == multiset{2};
    liveWhileRunning := health.IsLive();
    health.LiveTaskFulfilled(2);
    liveWhenFulfilled := health.IsLive();
    health.MarkReady();
    status := health.Status();
  }

  /** A startup task whose promise rejects stays listed, so the instance is
      never live and its status stays Pending. */
  method RejectedStartupTask() returns (live: bool, status: Lifecycle.Status)
    ensures !live && status == Pending
  {
    var health := new Health(PartialOptions(None, None, None));
    health.BeforeLive(3);
    health.LiveTaskRejected(3);
    live := health.IsLive();
    status := health.Status();
  }

  /** Readiness: `markReady` makes the instance ready once no readiness task
      is left, `markNotReady` takes effect at once, and after shutdown neither
      changes the flag or the status. */
  method ReadinessFlag() returns (gated: Lifecycle.Status, ready: Lifecycle.Status, notReady: Lifecycle.Status,
                                  flagAfterShutdown: bool, statusAfterShutdown: Lifecycle.Status,
                                  unreadyFlagAfterShutdown: bool)
    ensures gated == Live && ready == Ready && notReady == NotReady
    ensures flagAfterShutdown && statusAfterShutdown == Terminating
    ensures !unreadyFlagAfterShutdown
  {
    var health := new Health(PartialOptions(None, None, None));
    health.BeforeReady(4);
    health.MarkReady();
    gated := health.Status();
    health.ReadyTaskFulfilled(4);
    ready := health.Status();
    health.MarkNotReady();
    notReady := health.Status();
    health.MarkReady();
    var ran := health.Shutdown();
    health.MarkNotReady();
    flagAfterShutdown := health.isReady;
    statusAfterShutdown := health.Status();
    // An instance shut down while not ready stays not ready.
    var unready := new Health(PartialOptions(None, None, None));
    var ranUnready := unready.Shutdown();
    unready.MarkReady();
    unreadyFlagAfterShutdown := unready.isReady;
  }

  /** With no shutdown delay and no grace period: one pending task holds the
      sequence back until it is completed, a second shutdown and a second
      `markComplete` do nothing, and only the one-second fallback timer is
      ever scheduled. */
  method PendingWorkHoldsBackHooks() returns (secondRan: bool, waiting: ShutdownPhase, secondEmit: bool,
                                              afterComplete: ShutdownPhase, finalTimers: seq<real>)
    ensures !secondRan && waiting == WaitingPending && !secondEmit
    ensures afterComplete == Hooks && finalTimers == [1000.0]
  {
    var health := new Health(PartialOptions(Some(0.0), None, Some(0.0)));
    var work := health.CreatePendingTask();
    var ran := health.Shutdown();
    secondRan := health.Shutdown();
    waiting := health.phase;
    var emitted := health.MarkComplete(work);
    afterComplete := health.phase;
    secondEmit := health.MarkComplete(work);
    health.HooksSettled();
    finalTimers := health.timers;
  }

  /** With the default options the grace-period timer is scheduled at once,
      the delay is taken even when no work is pending, and the fallback comes
      last. */
  method DefaultShutdown() returns (delaying: ShutdownPhase, afterDelay: ShutdownPhase, finalTimers: seq<real>)
    ensures delaying == Delaying && afterDelay == Hooks
    ensures finalTimers == [30000.0, 1000.0]
  {
    var health := new Health(PartialOptions(None, None, None));
    var ran := health.Shutdown();
    delaying := health.phase;
    health.DelayElapsed();
    afterDelay := health.phase;
    health.HooksSettled();
    finalTimers := health.timers;
  }

  /** A plain server with three connections, each serving a response (two
      with headers sent, one without), starts draining: the sweep destroys
      nothing, so all three stay tracked and the grace wait begins. */
  method StartBusyDrain() returns (terminator: Terminator)
    ensures fresh(terminator) && terminator.Valid() && !terminator.isHTTPS
    ensures terminator.trackedSockets == {Socket(1, false), Socket(2, false), Socket(3, false)}
    ensures terminator.seen == terminator.trackedSockets
    ensures terminator.destroyed == {} && terminator.isTerminating && terminator.phase == GraceWait
  {
    var a, b, c := Socket(1, false), Socket(2, false), Socket(3, false);
    terminator := new Terminator(false, None);
    terminator.OnConnection(a);
    terminator.OnConnection(b);
    terminator.OnConnection(c);
    terminator.OnRequest(a, Response(true, false));
    terminator.OnRequest(b, Response(true, false));
    terminator.OnRequest(c, Response(false, false));
    assert terminator.trackedSockets == {a, b, c} && terminator.inFlight.Keys == {a, b, c};
    assert IdleSockets(false, {a, b, c}, terminator.inFlight) == {};
    var ran := terminator.Drain();
  }

  /** The busy drain above, where one socket closes on its own during the
      grace period: the grace period destroys exactly the other two, a
      connection arriving meanwhile is destroyed without being tracked, and
      the drain resolves. */
  method DrainThreeSockets() returns (destroyedBySweep: set<Socket>, lateTracked: bool,
                                     destroyedAtEnd: set<Socket>, result: DrainResult)
    ensures destroyedBySweep == {} && !lateTracked
    ensures destroyedAtEnd == {Socket(1, false), Socket(3, false), Socket(4, false)}
    ensures result == Resolved
  {
    var terminator := StartBusyDrain();
    destroyedBySweep := terminator.destroyed;
    terminator.OnClose(Socket(2, false));
    var late := Socket(4, false);
    terminator.OnConnection(late);
    lateTracked := late in terminator.trackedSockets;
    terminator.GraceElapsed();
    destroyedAtEnd := terminator.destroyed;
    result := terminator.ServerClosed(None);
  }

  /** An HTTPS server: the sweep destroys an idle TLS socket but skips the
      idle raw socket beneath a connection, so the grace wait still happens;
      a failing close rejects the drain, and a second drain call returns at once. */
  method DrainHttps() returns (trackedAfterSweep: set<Socket>, destroyedBySweep: set<Socket>,
                               phaseAfterSweep: DrainPhase, secondRan: bool, result: DrainResult)
    ensures trackedAfterSweep == {Socket(1, false)} && destroyedBySweep == {Socket(2, true)}
    ensures phaseAfterSweep == GraceWait
    ensures !secondRan && result == Rejected("ERR_SERVER_NOT_RUNNING")
  {
    var raw, secure := Socket(1, false), Socket(2, true);
    var terminator := new Terminator(true, Some(2.0));
    terminator.OnConnection(raw);
    terminator.OnConnection(secure);
    var ran := terminator.Drain();
    trackedAfterSweep := terminator.trackedSockets;
    destroyedBySweep := terminator.destroyed;
    phaseAfterSweep := terminator.phase;
    secondRan := terminator.Drain();
    terminator.GraceElapsed();
    result := terminator.ServerClosed(Some("ERR_SERVER_NOT_RUNNING"));
  }
}
