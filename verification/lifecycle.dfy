/** The `Health` lifecycle state machine: liveness and readiness gates,
    ad-hoc pending work, and the shutdown sequence.

    Each asynchronous event `Health` reacts to is a method of the class: a
    startup or readiness task's promise fulfilling or rejecting, the shutdown
    delay elapsing, and the termination-hook promise settling. A task is known by an
    opaque id (two registrations of the same function share an id, as two
    pushes of the same function share an identity), a pending-work handle by a
    fresh number. The ghost multisets count the task invocations that are
    still running and those whose promise rejected. */
module Lifecycle {
  import opened Optional
  import opened JsArray

  type TaskId = nat
  type Handle = nat

  datatype Status = Pending | Live | Ready | NotReady | Terminating

  /** Options after defaults have been applied (seconds are JavaScript numbers). */
  datatype Options = Options(
    shutdownDelaySeconds: real,
    shutdownSignals: seq<string>,
    terminationGracePeriodSeconds: real)

  /** Options as the caller passes them: any field may be left out. */
  datatype PartialOptions = PartialOptions(
    shutdownDelaySeconds: Option<real>,
    shutdownSignals: Option<seq<string>>,
    terminationGracePeriodSeconds: Option<real>)

  const DEFAULT_OPTIONS := Options(5.0, ["SIGTERM", "SIGHUP", "SIGINT"], 30.0)

  /** `{...defaultOptions, ...options}`: a field the caller gives wins, a field
      left out takes its default. */
  function MergeOptions(given: PartialOptions): (o: Options)
    ensures given.shutdownDelaySeconds.Some? ==> o.shutdownDelaySeconds == given.shutdownDelaySeconds.value
    ensures given.shutdownDelaySeconds.None? ==> o.shutdownDelaySeconds == 5.0
    ensures given.shutdownSignals.Some? ==> o.shutdownSignals == given.shutdownSignals.value
    ensures given.shutdownSignals.None? ==> o.shutdownSignals == ["SIGTERM", "SIGHUP", "SIGINT"]
    ensures given.terminationGracePeriodSeconds.Some? ==> o.terminationGracePeriodSeconds == given.terminationGracePeriodSeconds.value
    ensures given.terminationGracePeriodSeconds.None? ==> o.terminationGracePeriodSeconds == 30.0
  {
    Options(
      if given.shutdownDelaySeconds.Some? then given.shutdownDelaySeconds.value else DEFAULT_OPTIONS.shutdownDelaySeconds,
      if given.shutdownSignals.Some? then given.shutdownSignals.value else DEFAULT_OPTIONS.shutdownSignals,
      if given.terminationGracePeriodSeconds.Some? then given.terminationGracePeriodSeconds.value
      else DEFAULT_OPTIONS.terminationGracePeriodSeconds)
  }

  /** Where the shutdown sequence stands. `Idle`: not requested. `Delaying`:
      sleeping for the shutdown delay. `WaitingPending`: subscribed to
      `taskComplete`, waiting for the pending list to empty. `Hooks`: awaiting
      the settlement of the termination-hook list. `Done`: the final
      fallback timer is scheduled. */
  datatype ShutdownPhase = Idle | Delaying | WaitingPending | Hooks | Done

  /** The forced-termination timers (delays in milliseconds) the sequence has
      scheduled by the time it reaches `phase`: the grace-period timer once
      shutdown has begun, when that period is positive, and the one-second
      fallback once the sequence is done. */
  function ScheduledTimers(options: Options, phase: ShutdownPhase): (ms: seq<real>)
    ensures phase == Idle ==> ms == []
    ensures options.terminationGracePeriodSeconds <= 0.0 ==> (ms == [] <==> phase != Done)
    ensures phase == Done ==> |ms| > 0 && ms[|ms| - 1] == 1000.0
    ensures forall i :: 0 <= i < |ms| ==> ms[i] > 0.0
  {
    (if phase != Idle && options.terminationGracePeriodSeconds > 0.0
     then [options.terminationGracePeriodSeconds * 1000.0] else [])
    + (if phase == Done then [1000.0] else [])
  }

  /** Exactly which timers are scheduled: the grace-period timer first, once
      shutdown has begun and only when that period is positive; the fallback
      last, only when the sequence is done; and no other. */
  lemma ScheduledTimersShape(options: Options, phase: ShutdownPhase)
    ensures var ms := ScheduledTimers(options, phase);
      |ms| == (if phase != Idle && options.terminationGracePeriodSeconds > 0.0 then 1 else 0)
              + (if phase == Done then 1 else 0)
    ensures var ms := ScheduledTimers(options, phase);
      phase != Idle && options.terminationGracePeriodSeconds > 0.0 ==>
        ms[0] == options.terminationGracePeriodSeconds * 1000.0
  {
  }

  /** The pending list holds, in creation order and once each, exactly the
      handles created so far (those below `next`) that are not complete. */
  ghost predicate PendingExactly(pending: seq<Handle>, completed: set<Handle>, next: Handle)
  {
    && Increasing(pending)
    && (forall h: Handle :: h in pending <==> h < next && h !in completed)
    && (forall h: Handle :: h in completed ==> h < next)
  }

  /** Completing a listed handle and removing it keeps the pending list exact. */
  lemma CompleteKeepsPendingExactly(pending: seq<Handle>, completed: set<Handle>, next: Handle, h: Handle)
    requires PendingExactly(pending, completed, next)
    requires h < next && h !in completed
    ensures h in pending
    ensures PendingExactly(RemoveFirst(pending, h), completed + {h}, next)
    ensures forall k :: k in RemoveFirst(pending, h) <==> k in pending && k != h
  {
    RemoveFirstIncreasing(pending, h);
    RemoveFirstMembers(pending, h);
  }

  /** A fulfilled invocation's task is listed, and removing its first
      occurrence keeps the list equal to the running and rejected invocations. */
  lemma FulfilledKeepsAccount(tasks: seq<TaskId>, running: multiset<TaskId>, failed: multiset<TaskId>, task: TaskId)
    requires multiset(tasks) == running + failed
    requires task in running
    ensures task in tasks
    ensures multiset(RemoveFirst(tasks, task)) == multiset(tasks) - multiset{task}
    ensures multiset(RemoveFirst(tasks, task)) == (running - multiset{task}) + failed
  {
    assert task in multiset(tasks);
  }

  /** Creating the next handle keeps the pending list exact. */
  lemma CreateKeepsPendingExactly(pending: seq<Handle>, completed: set<Handle>, next: Handle)
    requires PendingExactly(pending, completed, next)
    ensures PendingExactly(pending + [next], completed, next + 1)
  {
    var grown := pending + [next];
    forall i, j | 0 <= i < j < |grown| ensures grown[i] < grown[j] {
      if j == |pending| {
        assert pending[i] in pending;
      }
    }
  }

  class Health {
    const options: Options

    var isReady: bool
    var isTerminating: bool

    var beforeLiveTasks: seq<TaskId>
    var beforeReadyTasks: seq<TaskId>
    var beforeTerminationTasks: seq<TaskId>
    var pendingTasks: seq<Handle>

    /** The `isComplete` flags of the handles' closures: the completed handles. */
    var completed: set<Handle>
    /** Handles are numbered in creation order; this is the next one. */
    var nextHandle: Handle

    var phase: ShutdownPhase
    /** Forced-termination timers scheduled so far, as delays in milliseconds. */
    var timers: seq<real>

    /** Invocations of startup (readiness) tasks whose promise has not settled,
        and those whose promise rejected. */
    ghost var liveRunning: multiset<TaskId>
    ghost var liveFailed: multiset<TaskId>
    ghost var readyRunning: multiset<TaskId>
    ghost var readyFailed: multiset<TaskId>

    ghost predicate Valid()
      reads this
    {
      // A startup or readiness task stays listed until its promise fulfils.
      && multiset(beforeLiveTasks) == liveRunning + liveFailed
      && multiset(beforeReadyTasks) == readyRunning + readyFailed
      // The pending list holds exactly the handles not yet completed, once each.
      && PendingExactly(pendingTasks, completed, nextHandle)
      // The shutdown sequence has begun exactly when the instance is terminating.
      && (phase == Idle <==> !isTerminating)
      // The wait for pending work never misses the moment the list empties.
      && (phase == WaitingPending ==> |pendingTasks| > 0)
      && timers == ScheduledTimers(options, phase)
    }

    /** `new Health(options)`; the signal handlers it installs are calls of
        Shutdown and are not part of this model. */
    constructor (given: PartialOptions)
      ensures Valid()
      ensures options == MergeOptions(given)
      ensures !isReady && !isTerminating && phase == Idle
      ensures beforeLiveTasks == [] && beforeReadyTasks == [] && beforeTerminationTasks == []
      ensures pendingTasks == [] && timers == []
      ensures liveFailed == multiset{} && readyFailed == multiset{}
    {
      options := MergeOptions(given);
      isReady, isTerminating := false, false;
      beforeLiveTasks, beforeReadyTasks, beforeTerminationTasks := [], [], [];
      pendingTasks, completed, nextHandle := [], {}, 0;
      phase, timers := Idle, [];
      liveRunning, liveFailed, readyRunning, readyFailed := multiset{}, multiset{}, multiset{}, multiset{};
    }

    /** The `isLive` getter: live exactly when not terminating and every
        startup task registered so far has fulfilled. */
    function IsLive(): (live: bool)
      reads this
      requires Valid()
      ensures live <==> !isTerminating && liveRunning == multiset{} && liveFailed == multiset{}
    {
      assert |beforeLiveTasks| == |multiset(beforeLiveTasks)|;
      !isTerminating && |beforeLiveTasks| == 0
    }

    /** The `isReady` getter: ready exactly when the flag is set and every
        readiness task has fulfilled. Terminating plays no part. */
    function IsReady(): (ready: bool)
      reads this
      requires Valid()
      ensures ready <==> isReady && readyRunning == multiset{} && readyFailed == multiset{}
    {
      assert |beforeReadyTasks| == |multiset(beforeReadyTasks)|;
      isReady && |beforeReadyTasks| == 0
    }

    /** The `status` getter, decided in the priority order Terminating,
        Pending, Live, Ready, NotReady. */
    function Status(): (s: Status)
      reads this
      requires Valid()
      ensures s == Terminating <==> isTerminating
      ensures s == Pending <==> !isTerminating && |beforeLiveTasks| > 0
      ensures s == Live <==> IsLive() && |beforeReadyTasks| > 0
      ensures s == Ready <==> IsLive() && IsReady()
      ensures s == NotReady <==> IsLive() && !isReady && |beforeReadyTasks| == 0
    {
      if isTerminating then Terminating
      else if |beforeLiveTasks| != 0 then Pending
      else if |beforeReadyTasks| != 0 then Live
      else if isReady then Ready
      else NotReady
    }

    /** `beforeLive(task)`: list the task and start it. */
    method BeforeLive(task: TaskId)
      requires Valid()
      modifies this`beforeLiveTasks, this`liveRunning
      ensures Valid()
      ensures beforeLiveTasks == old(beforeLiveTasks) + [task]
      ensures liveRunning == old(liveRunning) + multiset{task} && liveFailed == old(liveFailed)
      ensures beforeReadyTasks == old(beforeReadyTasks) && beforeTerminationTasks == old(beforeTerminationTasks)
      ensures readyRunning == old(readyRunning) && readyFailed == old(readyFailed)
      ensures pendingTasks == old(pendingTasks) && completed == old(completed) && nextHandle == old(nextHandle)
      ensures isReady == old(isReady) && isTerminating == old(isTerminating)
      ensures phase == old(phase) && timers == old(timers)
    {
      beforeLiveTasks := beforeLiveTasks + [task];
      liveRunning := liveRunning + multiset{task};
    }

    /** The promise of one running invocation of startup task `task`
        fulfils: the first listed occurrence of the task is removed. */
    method LiveTaskFulfilled(task: TaskId)
      requires Valid()
      requires task in liveRunning
      modifies this`beforeLiveTasks, this`liveRunning
      ensures Valid()
      ensures beforeLiveTasks == RemoveFirst(old(beforeLiveTasks), task)
      ensures multiset(beforeLiveTasks) == multiset(old(beforeLiveTasks)) - multiset{task}
      ensures liveRunning == old(liveRunning) - multiset{task} && liveFailed == old(liveFailed)
      ensures beforeReadyTasks == old(beforeReadyTasks) && beforeTerminationTasks == old(beforeTerminationTasks)
      ensures readyRunning == old(readyRunning) && readyFailed == old(readyFailed)
      ensures pendingTasks == old(pendingTasks) && completed == old(completed) && nextHandle == old(nextHandle)
      ensures isReady == old(isReady) && isTerminating == old(isTerminating)
      ensures phase == old(phase) && timers == old(timers)
    {
      var rest := RemoveFirst(beforeLiveTasks, task);
      ghost var running := liveRunning - multiset{task};
      FulfilledKeepsAccount(beforeLiveTasks, liveRunning, liveFailed, task);
      assert multiset(rest) == running + liveFailed;
      beforeLiveTasks, liveRunning := rest, running;
    }

    /** The promise of one running invocation of startup task `task` rejects.
        There is no rejection handler, so the task stays listed for good. */
    method LiveTaskRejected(task: TaskId)
      requires Valid()
      requires task in liveRunning
      modifies this`liveRunning, this`liveFailed
      ensures Valid()
      ensures beforeLiveTasks == old(beforeLiveTasks)
      ensures liveRunning == old(liveRunning) - multiset{task}
      ensures liveFailed == old(liveFailed) + multiset{task}
      ensures !IsLive()
      ensures beforeReadyTasks == old(beforeReadyTasks) && beforeTerminationTasks == old(beforeTerminationTasks)
      ensures readyRunning == old(readyRunning) && readyFailed == old(readyFailed)
      ensures pendingTasks == old(pendingTasks) && completed == old(completed) && nextHandle == old(nextHandle)
      ensures isReady == old(isReady) && isTerminating == old(isTerminating)
      ensures phase == old(phase) && timers == old(timers)
    {
      liveRunning := liveRunning - multiset{task};
      liveFailed := liveFailed + multiset{task};
    }

    /** `beforeReady(task)`: list the task and start it. */
    method BeforeReady(task: TaskId)
      requires Valid()
      modifies this`beforeReadyTasks, this`readyRunning
      ensures Valid()
      ensures beforeReadyTasks == old(beforeReadyTasks) + [task]
      ensures readyRunning == old(readyRunning) + multiset{task} && readyFailed == old(readyFailed)
      ensures beforeLiveTasks == old(beforeLiveTasks) && beforeTerminationTasks == old(beforeTerminationTasks)
      ensures liveRunning == old(liveRunning) && liveFailed == old(liveFailed)
      ensures pendingTasks == old(pendingTasks) && completed == old(completed) && nextHandle == old(nextHandle)
      ensures isReady == old(isReady) && isTerminating == old(isTerminating)
      ensures phase == old(phase) && timers == old(timers)
    {
      beforeReadyTasks := beforeReadyTasks + [task];
      readyRunning := readyRunning + multiset{task};
    }

    /** The promise of one running invocation of readiness task `task`
        fulfils: the first listed occurrence of the task is removed. */
    method ReadyTaskFulfilled(task: TaskId)
      requires Valid()
      requires task in readyRunning
      modifies this`beforeReadyTasks, this`readyRunning
      ensures Valid()
      ensures beforeReadyTasks == RemoveFirst(old(beforeReadyTasks), task)
      ensures multiset(beforeReadyTasks) == multiset(old(beforeReadyTasks)) - multiset{task}
      ensures readyRunning == old(readyRunning) - multiset{task} && readyFailed == old(readyFailed)
      ensures beforeLiveTasks == old(beforeLiveTasks) && beforeTerminationTasks == old(beforeTerminationTasks)
      ensures liveRunning == old(liveRunning) && liveFailed == old(liveFailed)
      ensures pendingTasks == old(pendingTasks) && completed == old(completed) && nextHandle == old(nextHandle)
      ensures isReady == old(isReady) && isTerminating == old(isTerminating)
      ensures phase == old(phase) && timers == old(timers)
    {
      var rest := RemoveFirst(beforeReadyTasks, task);
      ghost var running := readyRunning - multiset{task};
      FulfilledKeepsAccount(beforeReadyTasks, readyRunning, readyFailed, task);
      assert multiset(rest) == running + readyFailed;
      beforeReadyTasks, readyRunning := rest, running;
    }

    /** The promise of one running invocation of readiness task `task`
        rejects; the task stays listed for good. */
    method ReadyTaskRejected(task: TaskId)
      requires Valid()
      requires task in readyRunning
      modifies this`readyRunning, this`readyFailed
      ensures Valid()
      ensures beforeReadyTasks == old(beforeReadyTasks)
      ensures readyRunning == old(readyRunning) - multiset{task}
      ensures readyFailed == old(readyFailed) + multiset{task}
      ensures !IsReady()
      ensures beforeLiveTasks == old(beforeLiveTasks) && beforeTerminationTasks == old(beforeTerminationTasks)
      ensures liveRunning == old(liveRunning) && liveFailed == old(liveFailed)
      ensures pendingTasks == old(pendingTasks) && completed == old(completed) && nextHandle == old(nextHandle)
      ensures isReady == old(isReady) && isTerminating == old(isTerminating)
      ensures phase == old(phase) && timers == old(timers)
    {
      readyRunning := readyRunning - multiset{task};
      readyFailed := readyFailed + multiset{task};
    }

    /** `beforeTermination(handler)`: only listed, never started here. */
    method BeforeTermination(handler: TaskId)
      requires Valid()
      modifies this`beforeTerminationTasks
      ensures Valid()
      ensures beforeTerminationTasks == old(beforeTerminationTasks) + [handler]
      ensures beforeLiveTasks == old(beforeLiveTasks) && beforeReadyTasks == old(beforeReadyTasks)
      ensures liveRunning == old(liveRunning) && liveFailed == old(liveFailed)
      ensures readyRunning == old(readyRunning) && readyFailed == old(readyFailed)
      ensures pendingTasks == old(pendingTasks) && completed == old(completed) && nextHandle == old(nextHandle)
      ensures isReady == old(isReady) && isTerminating == old(isTerminating)
      ensures phase == old(phase) && timers == old(timers)
    {
      beforeTerminationTasks := beforeTerminationTasks + [handler];
    }

    /** `createPendingTask()`: a fresh, incomplete handle joins the pending list. */
    method CreatePendingTask() returns (h: Handle)
      requires Valid()
      modifies this`pendingTasks, this`nextHandle
      ensures Valid()
      ensures h !in old(pendingTasks) && h !in completed
      ensures pendingTasks == old(pendingTasks) + [h]
      ensures nextHandle == h + 1 && h == old(nextHandle) && completed == old(completed)
      ensures beforeLiveTasks == old(beforeLiveTasks) && beforeReadyTasks == old(beforeReadyTasks)
      ensures beforeTerminationTasks == old(beforeTerminationTasks)
      ensures liveRunning == old(liveRunning) && liveFailed == old(liveFailed)
      ensures readyRunning == old(readyRunning) && readyFailed == old(readyFailed)
      ensures isReady == old(isReady) && isTerminating == old(isTerminating)
      ensures phase == old(phase) && timers == old(timers)
    {
      h := nextHandle;
      CreateKeepsPendingExactly(pendingTasks, completed, nextHandle);
      pendingTasks := pendingTasks + [h];
      nextHandle := nextHandle + 1;
    }

    /** `markComplete()` on handle `h`. The first call marks the handle
        complete, removes it from the pending list and emits `taskComplete`;
        the waiting shutdown sequence, when there is one, then proceeds to the
        hooks if the list is now empty. Every later call does nothing. */
    method MarkComplete(h: Handle) returns (emitted: bool)
      requires Valid()
      requires h < nextHandle
      modifies this`completed, this`pendingTasks, this`phase
      ensures Valid()
      ensures emitted <==> h !in old(completed)
      ensures completed == old(completed) + {h}
      ensures emitted ==> pendingTasks == RemoveFirst(old(pendingTasks), h)
      ensures !emitted ==> pendingTasks == old(pendingTasks)
      ensures phase == if emitted && old(phase) == WaitingPending && pendingTasks == [] then Hooks else old(phase)
    {
      if h in completed {
        emitted := false;
      } else {
        Complete(h);
        emitted := true;
      }
    }

    /** The first `markComplete()` on `h`: mark it complete, remove it from
        the pending list, and let a waiting shutdown re-check the list. */
    method Complete(h: Handle)
      requires Valid()
      requires h < nextHandle && h !in completed
      modifies this`completed, this`pendingTasks, this`phase
      ensures Valid()
      ensures completed == old(completed) + {h}
      ensures pendingTasks == RemoveFirst(old(pendingTasks), h)
      ensures forall k :: k in pendingTasks <==> k in old(pendingTasks) && k != h
      ensures phase == if old(phase) == WaitingPending && pendingTasks == [] then Hooks else old(phase)
    {
      var rest := RemoveFirst(pendingTasks, h);
      CompleteKeepsPendingExactly(pendingTasks, completed, nextHandle, h);
      completed := completed + {h};
      pendingTasks := rest;
      // The `taskComplete` listener of a waiting shutdown re-checks the list.
      if phase == WaitingPending && |pendingTasks| == 0 {
        assert ScheduledTimers(options, Hooks) == ScheduledTimers(options, WaitingPending);
        phase := Hooks;
      }
    }

    /** `markReady()`: sets the flag unless terminating. */
    method MarkReady()
      requires Valid()
      modifies this`isReady
      ensures Valid()
      ensures isReady == (old(isReady) || !isTerminating)
      ensures isTerminating ==> Status() == Terminating
      ensures !isTerminating ==> isReady
      ensures isTerminating == old(isTerminating) && phase == old(phase) && timers == old(timers)
      ensures beforeLiveTasks == old(beforeLiveTasks) && beforeReadyTasks == old(beforeReadyTasks)
      ensures beforeTerminationTasks == old(beforeTerminationTasks)
      ensures pendingTasks == old(pendingTasks) && completed == old(completed) && nextHandle == old(nextHandle)
      ensures liveRunning == old(liveRunning) && liveFailed == old(liveFailed)
      ensures readyRunning == old(readyRunning) && readyFailed == old(readyFailed)
    {
      if !isTerminating {
        isReady := true;
      }
    }

    /** `markNotReady()`: clears the flag unless terminating. */
    method MarkNotReady()
      requires Valid()
      modifies this`isReady
      ensures Valid()
      ensures isReady == (old(isReady) && isTerminating)
      ensures isTerminating ==> Status() == Terminating
      ensures !isTerminating ==> !IsReady()
      ensures isTerminating == old(isTerminating) && phase == old(phase) && timers == old(timers)
      ensures beforeLiveTasks == old(beforeLiveTasks) && beforeReadyTasks == old(beforeReadyTasks)
      ensures beforeTerminationTasks == old(beforeTerminationTasks)
      ensures pendingTasks == old(pendingTasks) && completed == old(completed) && nextHandle == old(nextHandle)
      ensures liveRunning == old(liveRunning) && liveFailed == old(liveFailed)
      ensures readyRunning == old(readyRunning) && readyFailed == old(readyFailed)
    {
      if !isTerminating {
        isReady := false;
      }
    }

    /** The step after the shutdown delay: wait for pending work when there is
        some, otherwise go straight on to the hooks without waiting for an
        event that may never come. */
    method AwaitPending()
      requires phase == Delaying || (phase == Idle && isTerminating)
      modifies this`phase
      ensures phase == if |pendingTasks| > 0 then WaitingPending else Hooks
    {
      if |pendingTasks| > 0 {
        phase := WaitingPending;
      } else {
        phase := Hooks;
      }
    }

    /** `shutdown()`. The first call marks the instance terminating, schedules
        the grace-period timer when that period is positive, and runs the
        sequence up to its first wait: the delay when it is positive, else the
        pending-work wait when work is pending, else the hooks. Every later
        call returns at once. */
    method Shutdown() returns (ran: bool)
      requires Valid()
      modifies this`isTerminating, this`timers, this`phase
      ensures Valid()
      ensures ran <==> !old(isTerminating)
      ensures isTerminating
      ensures !ran ==> phase == old(phase) && timers == old(timers)
      ensures ran && options.shutdownDelaySeconds > 0.0 ==> phase == Delaying
      ensures ran && options.shutdownDelaySeconds <= 0.0 && |pendingTasks| > 0 ==> phase == WaitingPending
      ensures ran && options.shutdownDelaySeconds <= 0.0 && |pendingTasks| == 0 ==> phase == Hooks
      ensures ran && options.terminationGracePeriodSeconds > 0.0 ==> timers == [options.terminationGracePeriodSeconds * 1000.0]
      ensures ran && options.terminationGracePeriodSeconds <= 0.0 ==> timers == []
      ensures isReady == old(isReady)
      ensures beforeLiveTasks == old(beforeLiveTasks) && beforeReadyTasks == old(beforeReadyTasks)
      ensures beforeTerminationTasks == old(beforeTerminationTasks)
      ensures pendingTasks == old(pendingTasks) && completed == old(completed) && nextHandle == old(nextHandle)
      ensures liveRunning == old(liveRunning) && liveFailed == old(liveFailed)
      ensures readyRunning == old(readyRunning) && readyFailed == old(readyFailed)
    {
      ran := !isTerminating;
      if ran {
        isTerminating := true;
        if options.terminationGracePeriodSeconds > 0.0 {
          timers := timers + [options.terminationGracePeriodSeconds * 1000.0];
        }
        if options.shutdownDelaySeconds > 0.0 {
          phase := Delaying;
        } else {
          AwaitPending();
        }
      }
    }

    /** The shutdown delay has elapsed. */
    method DelayElapsed()
      requires Valid()
      requires phase == Delaying
      modifies this`phase
      ensures Valid()
      ensures phase == if |pendingTasks| > 0 then WaitingPending else Hooks
      ensures timers == old(timers) && isTerminating && isReady == old(isReady)
      ensures beforeLiveTasks == old(beforeLiveTasks) && beforeReadyTasks == old(beforeReadyTasks)
      ensures beforeTerminationTasks == old(beforeTerminationTasks)
      ensures pendingTasks == old(pendingTasks) && completed == old(completed) && nextHandle == old(nextHandle)
      ensures liveRunning == old(liveRunning) && liveFailed == old(liveFailed)
      ensures readyRunning == old(readyRunning) && readyFailed == old(readyFailed)
    {
      AwaitPending();
    }

    /** `Promise.allSettled(beforeTerminationTasks)` settles. It is handed the
        hook functions, not their promises, so no hook is called and nothing
        has to finish first. The one-second fallback timer is then scheduled. */
    method HooksSettled()
      requires Valid()
      requires phase == Hooks
      modifies this`phase, this`timers
      ensures Valid()
      ensures phase == Done
      ensures timers == old(timers) + [1000.0]
      ensures isTerminating && isReady == old(isReady)
      ensures beforeLiveTasks == old(beforeLiveTasks) && beforeReadyTasks == old(beforeReadyTasks)
      ensures beforeTerminationTasks == old(beforeTerminationTasks)
      ensures pendingTasks == old(pendingTasks) && completed == old(completed) && nextHandle == old(nextHandle)
      ensures liveRunning == old(liveRunning) && liveFailed == old(liveFailed)
      ensures readyRunning == old(readyRunning) && readyFailed == old(readyFailed)
    {
      phase := Done;
      timers := timers + [1000.0];
    }
  }
}
