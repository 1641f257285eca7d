/** The Common `HubConnectionProvider` as an object whose fields are its
    refs. Each method performs the source's steps in order and is proved to
    end in the state the corresponding function of `CommonHub` describes. */
module CommonHubProvider {
  import opened Wrappers
  import opened Backoff
  import opened Transport
  import opened Listeners
  import H = CommonHub

  class HubConnectionProvider {
    var conn: Option<Session>
    var connected: bool
    var hubAddress: Option<string>
    var attempts: nat
    var reconnecting: bool
    var listeners: Registry
    var nextId: nat
    var env: Env
    var log: seq<Event>
    var delays: seq<nat>

    /** The refs as one value of the state machine. */
    function Snapshot(): H.State
      reads this
    {
      H.State(conn, connected, hubAddress, attempts, reconnecting, listeners,
              nextId, env, log, delays)
    }

    constructor(env0: Env)
      ensures Snapshot() == H.Initial(env0)
    {
      conn := None;
      connected := false;
      hubAddress := None;
      attempts := 0;
      reconnecting := false;
      listeners := [];
      nextId := 0;
      env := env0;
      log := [];
      delays := [];
    }

    method ClearValues()
      modifies this
      ensures Snapshot() == H.ClearValues(old(Snapshot()))
    {
      conn := None;
      attempts := 0;
      reconnecting := false;
      connected := false;
      hubAddress := None;
      listeners := [];
    }

    /** Build a session tagged `address` and `start` it. */
    method OpenSession(address: string) returns (r: Result<Session>)
      modifies this
      ensures (Snapshot(), r) == H.OpenSession(old(Snapshot()), address)
    {
      var session := NewSession(nextId, address);
      var started := TakeOpen(env);
      nextId := nextId + 1;
      env := started.1;
      log := log + [Open(session.id, address)];
      if started.0 {
        conn := Some(session);
        connected := true;
        return Ok(session);
      }
      connected := false;
      return Err(OpenFailed);
    }

    method Connect(address: string) returns (r: Result<Session>)
      modifies this
      ensures (Snapshot(), r) == H.Connect(old(Snapshot()), address)
    {
      hubAddress := Some(address);
      if conn.Some? {
        if conn.value.hub != address {
          return Err(H.WrongHub);
        }
        return Ok(conn.value);
      }
      r := OpenSession(address);
    }

    method Disconnect() returns (r: Result<()>)
      modifies this
      ensures (Snapshot(), r) == H.Disconnect(old(Snapshot()))
    {
      connected := false;
      if conn.None? {
        ClearValues();
        return Ok(());
      }
      var stopped := TakeStop(env);
      env := stopped.1;
      log := log + [Stop(conn.value.id)];
      ClearValues();
      if stopped.0 {
        return Ok(());
      }
      return Err(CloseFailed);
    }

    method DebugDisconnect()
      modifies this
      ensures Snapshot() == H.DebugDisconnect(old(Snapshot()))
    {
      if conn.None? {
        return;
      }
      var stopped := TakeStop(env);
      env := stopped.1;
      log := log + [Stop(conn.value.id)];
    }

    /** `connection.off(channel)` followed by `connection.on(channel, fn)`. */
    method RebindChannel(e: Entry)
      requires conn.Some?
      modifies `conn, `log
      ensures conn == Some(Rebind(old(conn.value), e))
      ensures log == old(log) + RebindEvents(old(conn.value.id), e)
    {
      conn := Some(Off(conn.value, e.channel));
      log := log + [Unbind(conn.value.id, e.channel)];
      conn := Some(On(conn.value, e.channel, e.handler));
      log := log + [Bind(conn.value.id, e.channel, e.handler)];
    }

    method SetListener(ch: Channel, h: HandlerId) returns (r: Result<()>)
      modifies this
      ensures (Snapshot(), r) == H.SetListener(old(Snapshot()), ch, h)
    {
      if conn.None? {
        return Err(NoConnectionListener);
      }
      listeners := Set(listeners, ch, h);
      RebindChannel(Entry(ch, h));
      return Ok(());
    }

    method InvokeFunction(name: string, args: seq<Arg>) returns (r: Result<Reply>)
      modifies this
      ensures (Snapshot(), r) == H.InvokeFunction(old(Snapshot()), name, args)
    {
      if conn.None? {
        return Err(NoConnectionInvoke);
      }
      var reply := TakeReply(env);
      env := reply.1;
      log := log + [Invoke(conn.value.id, name, args)];
      if reply.0.Some? {
        return Ok(reply.0.value);
      }
      return Err(CallDropped);
    }

    /** `listenersRef.current.forEach(...)`, one entry per iteration. */
    method ReattachLoop(registry: Registry)
      requires conn.Some?
      modifies `conn, `log
      ensures conn == Some(ReattachAll(old(conn.value), registry))
      ensures log == old(log) + ReattachEvents(old(conn.value.id), registry)
    {
      ghost var start := conn.value;
      ghost var log0 := log;
      var i := 0;
      while i < |registry|
        invariant 0 <= i <= |registry|
        invariant conn == Some(ReattachAll(start, registry[..i]))
        invariant conn.value.id == start.id
        invariant log == log0 + ReattachEvents(start.id, registry[..i])
      {
        ReattachPrefix(start, registry, i);
        RebindChannel(registry[i]);
        i := i + 1;
      }
      assert registry[..i] == registry;
    }

    method ReattachListeners()
      modifies `conn, `log
      ensures Snapshot() == H.Reattach(old(Snapshot()))
    {
      if conn.Some? {
        ReattachLoop(listeners);
      }
    }

    /** `ConnectToGroup`, then on success the slot and the listeners. */
    method Rejoin(session: Session, gameKey: string, pseudoId: string) returns (ok: bool)
      modifies this
      ensures (Snapshot(), ok) == H.Rejoin(old(Snapshot()), session, gameKey, pseudoId)
    {
      var rejoin := InvokeFunction(RejoinCall, RejoinArgs(gameKey, pseudoId));
      if rejoin.Err? {
        return false;
      }
      conn := Some(session);
      ReattachListeners();
      return true;
    }

    /** One turn of the loop: the back-off delay, then `connect(hubAddress)`. */
    method LoopTurn() returns (result: Result<Session>)
      requires hubAddress.Some?
      modifies this
      ensures (Snapshot(), result) == H.LoopTurn(old(Snapshot()))
    {
      delays := delays + [Delay(attempts)];
      result := Connect(hubAddress.value);
    }

    /** The loop body: a turn, then either the counter is bumped or the
        re-join decides the outcome of the loop. */
    method LoopIteration(gameKey: string, pseudoId: string) returns (finished: bool, ok: bool)
      requires hubAddress.Some? && attempts < MaxAttempts
      modifies this
      ensures hubAddress.Some?
      ensures finished ==> (Snapshot(), ok) == H.ReconnectLoop(old(Snapshot()), gameKey, pseudoId)
      ensures !finished ==> attempts == old(attempts) + 1
      ensures !finished ==>
        H.ReconnectLoop(Snapshot(), gameKey, pseudoId) == H.ReconnectLoop(old(Snapshot()), gameKey, pseudoId)
    {
      var result := LoopTurn();
      if result.Err? {
        attempts := attempts + 1;
        return false, false;
      }
      ok := Rejoin(result.value, gameKey, pseudoId);
      finished := true;
    }

    /** `attemptReconnect()`, with the closure's `gameKey` and `pseudoId`. */
    method AttemptReconnect(gameKey: string, pseudoId: string) returns (ok: bool)
      modifies this
      ensures (Snapshot(), ok) == H.AttemptReconnect(old(Snapshot()), gameKey, pseudoId)
    {
      log := log + [ClearHost];
      if !Truthy(hubAddress) {
        return false;
      }
      ghost var goal := H.ReconnectLoop(Snapshot(), gameKey, pseudoId);
      while attempts < MaxAttempts
        invariant hubAddress.Some?
        invariant H.ReconnectLoop(Snapshot(), gameKey, pseudoId) == goal
        decreases MaxAttempts - attempts
      {
        var finished, result := LoopIteration(gameKey, pseudoId);
        if finished {
          return result;
        }
      }
      return false;
    }

    method HandleConnectionLost(gameKey: string, pseudoId: string)
      modifies this
      ensures Snapshot() == H.HandleConnectionLost(old(Snapshot()), gameKey, pseudoId)
    {
      if reconnecting || !Truthy(hubAddress) {
        return;
      }
      reconnecting := true;
      attempts := 0;
      log := log + [ShowLoading];
      assert Snapshot() == H.BeginRecovery(old(Snapshot()));
      var reconnected := AttemptReconnect(gameKey, pseudoId);
      if reconnected {
        log := log + [CloseLoading];
        connected := true;
        attempts := 0;
        reconnecting := false;
        return;
      }
      ClearValues();
      log := log + [CloseLoading, GoHome];
    }

    /** The `onclose` observer of the current session. */
    method OnClose(gameKey: string, pseudoId: string)
      modifies this
      ensures Snapshot() == H.OnClose(old(Snapshot()), gameKey, pseudoId)
    {
      if connected && !reconnecting {
        conn := None;
        HandleConnectionLost(gameKey, pseudoId);
      } else {
        ClearValues();
      }
    }

    /** One tick of the 750 ms poll; `fired` says whether it called
        `handleConnectionLost`. */
    method PollTick() returns (fired: bool)
      ensures fired == H.PollFires(Snapshot())
      ensures !fired
    {
      if conn.None? {
        return false;
      }
      if connected && conn.None? && !reconnecting {
        assert false;
      }
      return false;
    }
  }
}
