/** The graceful HTTP drain coordinator built by `gracefulHttpTerminatorTask`.

    The closure state (`isTerminating`, `trackedSockets`) becomes the fields
    of a Terminator object; each server or socket event is a method call. A
    socket is an id with a TLS bit; the response a socket is currently serving
    (its `_httpMessage`) is an entry of `inFlight`; `destroyed` records every
    socket `destroy()` was called on. */
module Graceful {
  import opened Optional

  datatype Socket = Socket(id: nat, isTLS: bool)

  /** An in-flight response: whether its headers have gone out, and whether
      it carries `connection: close`. */
  datatype Response = Response(headersSent: bool, connectionClose: bool)

  /** How the drain task's returned promise ends. */
  datatype DrainResult = Resolved | Rejected(error: string)

  /** Where the drain task stands. `GraceWait`: sleeping for the grace period.
      `Closing`: `server.close` called, its callback not yet run. */
  datatype DrainPhase = NotStarted | GraceWait | Closing | Finished(result: DrainResult)

  /** The initial sweep looks at every socket of a plain server, and only at
      the TLS sockets of an HTTPS server. */
  predicate Swept(isHTTPS: bool, s: Socket)
  {
    !isHTTPS || s.isTLS
  }

  /** The sockets of `tracked` the sweep destroys: those it looks at that
      serve no response. */
  function IdleSockets(isHTTPS: bool, tracked: set<Socket>, inFlight: map<Socket, Response>): (idle: set<Socket>)
  {
    set s | s in tracked && Swept(isHTTPS, s) && s !in inFlight
  }

  /** The responses after `connection: close` has been set on every response
      of `targets` whose headers have not been sent. */
  function WithConnectionClose(inFlight: map<Socket, Response>, targets: set<Socket>): (m: map<Socket, Response>)
    ensures m.Keys == inFlight.Keys
    ensures forall s :: s in m ==> m[s].headersSent == inFlight[s].headersSent
    ensures forall s :: s in m ==>
      (m[s].connectionClose <==> inFlight[s].connectionClose || (s in targets && !inFlight[s].headersSent))
  {
    map s | s in inFlight ::
      if s in targets && !inFlight[s].headersSent then inFlight[s].(connectionClose := true) else inFlight[s]
  }

  /** The sockets of `sockets` the initial sweep looks at. */
  function SweptSockets(isHTTPS: bool, sockets: set<Socket>): (swept: set<Socket>)
  {
    set s | s in sockets && Swept(isHTTPS, s)
  }

  /** Sweeping one more socket adds it to the idle ones exactly when it is
      looked at and serves nothing. */
  lemma IdleSocketsStep(isHTTPS: bool, done: set<Socket>, s: Socket, inFlight: map<Socket, Response>)
    ensures IdleSockets(isHTTPS, done + {s}, inFlight) ==
      IdleSockets(isHTTPS, done, inFlight) + (if Swept(isHTTPS, s) && s !in inFlight then {s} else {})
  {
  }

  /** Sweeping one more socket that serves a response marks that response
      alone, and only when its headers are unsent. */
  lemma WithConnectionCloseStep(inFlight: map<Socket, Response>, targets: set<Socket>, s: Socket)
    requires s in inFlight && s !in targets
    ensures WithConnectionClose(inFlight, targets + {s}) ==
      WithConnectionClose(inFlight, targets)[s :=
        if inFlight[s].headersSent then inFlight[s] else inFlight[s].(connectionClose := true)]
  {
  }

  class Terminator {
    const isHTTPS: bool
    const terminationGracePeriodSeconds: real

    var isTerminating: bool
    var trackedSockets: set<Socket>
    var destroyed: set<Socket>
    var inFlight: map<Socket, Response>
    var phase: DrainPhase

    /** Every socket the server has reported, and those tracked when the drain began. */
    ghost var seen: set<Socket>
    ghost var trackedAtDrain: set<Socket>

    ghost predicate Valid()
      reads this
    {
      && (phase == NotStarted <==> !isTerminating)
      && trackedSockets <= seen && destroyed <= seen
      // A destroyed socket is never tracked again.
      && trackedSockets !! destroyed
      // Nothing is destroyed before the drain begins.
      && (!isTerminating ==> destroyed == {})
      // Once draining, no socket joins the tracked set.
      && (isTerminating ==> trackedSockets <= trackedAtDrain)
      // Once the grace period is over, nothing is left tracked.
      && (phase.Closing? || phase.Finished? ==> trackedSockets == {})
    }

    /** `gracefulHttpTerminatorTask(server, terminationGracePeriodSeconds)`;
        a grace period left out is one second. */
    constructor (isHTTPS: bool, gracePeriod: Option<real>)
      ensures Valid()
      ensures this.isHTTPS == isHTTPS
      ensures terminationGracePeriodSeconds == if gracePeriod.Some? then gracePeriod.value else 1.0
      ensures !isTerminating && phase == NotStarted
      ensures trackedSockets == {} && destroyed == {} && inFlight == map[] && seen == {}
    {
      this.isHTTPS := isHTTPS;
      terminationGracePeriodSeconds := if gracePeriod.Some? then gracePeriod.value else 1.0;
      isTerminating := false;
      trackedSockets, destroyed, inFlight := {}, {}, map[];
      phase := NotStarted;
      seen, trackedAtDrain := {}, {};
    }

    /** The `connection` and `secureConnection` listeners, which run the same
        code for a plain and a TLS socket: while not draining the socket is
        tracked, while draining it is destroyed at once and never tracked. */
    method OnConnection(s: Socket)
      requires Valid()
      requires s !in seen
      modifies this
      ensures Valid()
      ensures !isTerminating ==> trackedSockets == old(trackedSockets) + {s} && destroyed == old(destroyed)
      ensures isTerminating ==> destroyed == old(destroyed) + {s} && trackedSockets == old(trackedSockets)
      ensures s in trackedSockets <==> !isTerminating
      ensures isTerminating == old(isTerminating) && phase == old(phase) && inFlight == old(inFlight)
      ensures seen == old(seen) + {s} && trackedAtDrain == old(trackedAtDrain)
    {
      seen := seen + {s};
      if isTerminating {
        destroyed := destroyed + {s};
      } else {
        trackedSockets := trackedSockets + {s};
      }
    }

    /** A socket's `close` event: it leaves the tracked set, whether it was
        in it or not, and nothing else changes. */
    method OnClose(s: Socket)
      requires Valid()
      modifies this
      ensures Valid()
      ensures trackedSockets == old(trackedSockets) - {s}
      ensures destroyed == old(destroyed) && inFlight == old(inFlight)
      ensures isTerminating == old(isTerminating) && phase == old(phase)
      ensures seen == old(seen) && trackedAtDrain == old(trackedAtDrain)
    {
      trackedSockets := trackedSockets - {s};
    }

    /** A request arrives on `s` with response `res`. Once draining, the
        `request` listener sets `connection: close` on it unless its headers
        have already been sent. */
    method OnRequest(s: Socket, res: Response)
      requires Valid()
      modifies this
      ensures Valid()
      ensures s in inFlight && inFlight[s].headersSent == res.headersSent
      ensures inFlight[s].connectionClose <==> res.connectionClose || (isTerminating && !res.headersSent)
      ensures forall t :: t in old(inFlight) && t != s ==> t in inFlight && inFlight[t] == old(inFlight)[t]
      ensures inFlight.Keys == old(inFlight).Keys + {s}
      ensures trackedSockets == old(trackedSockets) && destroyed == old(destroyed)
      ensures isTerminating == old(isTerminating) && phase == old(phase)
      ensures seen == old(seen) && trackedAtDrain == old(trackedAtDrain)
    {
      var r := res;
      if isTerminating && !res.headersSent {
        r := res.(connectionClose := true);
      }
      inFlight := inFlight[s := r];
    }

    /** The HTTP layer changes the response `s` is serving (its headers go
        out, or it finishes and `s` is idle again); the coordinator only reads it. */
    method HttpMessageChanged(s: Socket, res: Option<Response>)
      requires Valid()
      modifies this
      ensures Valid()
      ensures res.Some? ==> inFlight == old(inFlight)[s := res.value]
      ensures res.None? ==> inFlight == old(inFlight) - {s}
      ensures trackedSockets == old(trackedSockets) && destroyed == old(destroyed)
      ensures isTerminating == old(isTerminating) && phase == old(phase)
      ensures seen == old(seen) && trackedAtDrain == old(trackedAtDrain)
    {
      if res.Some? {
        inFlight := inFlight[s := res.value];
      } else {
        inFlight := inFlight - {s};
      }
    }

    /** `destroySocket`: destroy the socket and stop tracking it. */
    method DestroySocket(s: Socket)
      modifies this`trackedSockets, this`destroyed
      ensures trackedSockets == old(trackedSockets) - {s}
      ensures destroyed == old(destroyed) + {s}
    {
      destroyed := destroyed + {s};
      trackedSockets := trackedSockets - {s};
    }

    /** The sweep over the tracked sockets: destroy those serving nothing, ask
        those whose response headers are unsent to close after the response,
        leave the rest alone; on an HTTPS server skip the non-TLS sockets. */
    method Sweep()
      modifies this`trackedSockets, this`destroyed, this`inFlight
      ensures trackedSockets == old(trackedSockets) - IdleSockets(isHTTPS, old(trackedSockets), old(inFlight))
      ensures destroyed == old(destroyed) + IdleSockets(isHTTPS, old(trackedSockets), old(inFlight))
      ensures inFlight == WithConnectionClose(old(inFlight), SweptSockets(isHTTPS, old(trackedSockets)))
    {
      ghost var all, responses := trackedSockets, inFlight;
      ghost var done: set<Socket> := {};
      var todo := trackedSockets;
      while todo != {}
        invariant todo !! done && todo + done == all
        invariant trackedSockets == all - IdleSockets(isHTTPS, done, responses)
        invariant destroyed == old(destroyed) + IdleSockets(isHTTPS, done, responses)
        invariant inFlight == WithConnectionClose(responses, SweptSockets(isHTTPS, done))
        decreases todo
      {
        var s :| s in todo;
        IdleSocketsStep(isHTTPS, done, s, responses);
        assert SweptSockets(isHTTPS, done + {s}) ==
          SweptSockets(isHTTPS, done) + (if Swept(isHTTPS, s) then {s} else {});
        if Swept(isHTTPS, s) && s in responses {
          WithConnectionCloseStep(responses, SweptSockets(isHTTPS, done), s);
        }
        todo, done := todo - {s}, done + {s};
        if Swept(isHTTPS, s) {
          if s !in inFlight {
            DestroySocket(s);
          } else if !inFlight[s].headersSent {
            inFlight := inFlight[s := inFlight[s].(connectionClose := true)];
          }
        }
      }
    }

    /** The drain task. The first call starts draining: it installs the
        `request` listener, sweeps, and then waits out the grace period if a
        socket is still tracked, or else closes the server. Every later call
        returns at once. */
    method Drain() returns (ran: bool)
      requires Valid()
      modifies this
      ensures Valid()
      ensures ran <==> !old(isTerminating)
      ensures isTerminating
      ensures !ran ==> trackedSockets == old(trackedSockets) && destroyed == old(destroyed)
      ensures !ran ==> inFlight == old(inFlight) && phase == old(phase)
      ensures ran ==> trackedSockets == old(trackedSockets) - IdleSockets(isHTTPS, old(trackedSockets), old(inFlight))
      ensures ran ==> destroyed == old(destroyed) + IdleSockets(isHTTPS, old(trackedSockets), old(inFlight))
      ensures ran ==> inFlight == WithConnectionClose(old(inFlight), SweptSockets(isHTTPS, old(trackedSockets)))
      ensures ran ==> forall s :: s in trackedSockets ==> !Swept(isHTTPS, s) || s in inFlight
      ensures ran && trackedSockets != {} ==> phase == GraceWait
      ensures ran && trackedSockets == {} ==> phase == Closing
      ensures seen == old(seen)
    {
      ran := !isTerminating;
      if ran {
        ghost var tracked, wasDestroyed, responses := trackedSockets, destroyed, inFlight;
        ghost var idle := IdleSockets(isHTTPS, tracked, responses);
        isTerminating := true;
        trackedAtDrain := trackedSockets;
        Sweep();
        assert trackedSockets == tracked - idle && destroyed == wasDestroyed + idle;
        assert inFlight == WithConnectionClose(responses, SweptSockets(isHTTPS, tracked));
        assert trackedSockets <= trackedAtDrain && trackedSockets !! destroyed;
        assert destroyed <= seen;
        forall s | s in trackedSockets ensures !Swept(isHTTPS, s) || s in inFlight {
          assert s in tracked && s !in idle;
        }
        if trackedSockets != {} {
          phase := GraceWait;
        } else {
          phase := Closing;
        }
      }
    }

    /** The grace period has elapsed: every socket still tracked is destroyed,
        and the server is asked to close. */
    method GraceElapsed()
      requires Valid()
      requires phase == GraceWait
      modifies this
      ensures Valid()
      ensures trackedSockets == {}
      ensures destroyed == old(destroyed) + old(trackedSockets)
      ensures phase == Closing
      ensures inFlight == old(inFlight) && isTerminating
      ensures seen == old(seen) && trackedAtDrain == old(trackedAtDrain)
    {
      DestroyTracked();
      phase := Closing;
    }

    /** `for (const socket of trackedSockets) destroySocket(socket)`. */
    method DestroyTracked()
      modifies this`trackedSockets, this`destroyed
      ensures trackedSockets == {}
      ensures destroyed == old(destroyed) + old(trackedSockets)
    {
      var todo := trackedSockets;
      while todo != {}
        invariant todo <= old(trackedSockets)
        invariant trackedSockets == todo
        invariant destroyed == old(destroyed) + (old(trackedSockets) - todo)
        decreases todo
      {
        var s :| s in todo;
        todo := todo - {s};
        DestroySocket(s);
      }
    }

    /** The callback of `server.close`: the drain task resolves exactly when
        no error is reported, and rejects with the error otherwise. */
    method ServerClosed(err: Option<string>) returns (result: DrainResult)
      requires Valid()
      requires phase == Closing
      modifies this
      ensures Valid()
      ensures result == Resolved <==> err.None?
      ensures err.Some? ==> result == Rejected(err.value)
      ensures phase == Finished(result)
      ensures trackedSockets == {} && destroyed == old(destroyed) && inFlight == old(inFlight)
      ensures isTerminating && seen == old(seen) && trackedAtDrain == old(trackedAtDrain)
    {
      if err.Some? {
        result := Rejected(err.value);
      } else {
        result := Resolved;
      }
      phase := Finished(result);
    }
  }
}
