/** The play `HubConnectionProvider` as an object whose fields are its refs.
    Each method performs the source's steps in order, one assignment per
    ref update, and is proved to end in the state the corresponding
    function of `PlayHub` describes; the properties proved there about
    those functions are therefore properties of these methods. */
module PlayHubProvider {
  import opened Wrappers
  import opened Backoff
  import opened Transport
  import opened Listeners
  import H = PlayHub

  class HubConnectionProvider {
    var conn: Option<Session>
    var connected: bool
    var disconnectTriggered: bool
    var hubName: Option<string>
    var attempts: nat
    var reconnecting: bool
    var listeners: Registry
    var gameKey: string
    var nextId: nat
    var env: Env
    var log: seq<Event>
    var delays: seq<nat>

    /** The refs as one value of the state machine. */
    function Snapshot(): H.State
      reads this
    {
      H.State(conn, connected, disconnectTriggered, hubName, attempts, reconnecting,
              listeners, gameKey, nextId, env, log, delays)
    }

    constructor(env0: Env)
      ensures Snapshot() == H.Initial(env0)
    {
      conn := None;
      connected := false;
      disconnectTriggered := false;
      hubName := None;
      attempts := 0;
      reconnecting := false;
      listeners := [];
      gameKey := "";
      nextId := 0;
      env := env0;
      log := [];
      delays := [];
    }

    /** The effect that copies the session's game key into `gameKeyRef`. */
    method SyncGameKey(key: string)
      modifies this
      ensures Snapshot() == H.SyncGameKey(old(Snapshot()), key)
    {
      gameKey := key;
    }

    method ClearValues()
      modifies this
      ensures Snapshot() == H.ClearValues(old(Snapshot()))
    {
      conn := None;
      attempts := 0;
      reconnecting := false;
      connected := false;
      hubName := None;
      listeners := [];
      disconnectTriggered := false;
      gameKey := "";
    }

    /** Closing the old session on a hub switch; a failing `stop` is ignored. */
    method StopOld()
      requires conn.Some?
      modifies this
      ensures Snapshot() == H.StopOld(old(Snapshot()))
    {
      var stopped := TakeStop(env);
      env := stopped.1;
      log := log + [Stop(conn.value.id)];
      conn := None;
      connected := false;
    }

    /** Build a session tagged `name` and `start` it. */
    method OpenSession(name: string) returns (r: Result<Session>)
      modifies this
      ensures (Snapshot(), r) == H.OpenSession(old(Snapshot()), name)
    {
      var session := NewSession(nextId, name);
      var started := TakeOpen(env);
      nextId := nextId + 1;
      env := started.1;
      log := log + [Open(session.id, name)];
      if started.0 {
        conn := Some(session);
        connected := true;
        return Ok(session);
      }
      connected := false;
      return Err(OpenFailed);
    }

    method Connect(hub: string) returns (r: Result<Session>)
      modifies this
      ensures (Snapshot(), r) == H.Connect(old(Snapshot()), hub)
    {
      var name := H.Normalize(hub);
      hubName := Some(name);
      ghost var s1 := Snapshot();
      assert s1 == old(Snapshot()).(hubName := Some(name));
      if conn.Some? {
        if conn.value.hub == name {
          return Ok(conn.value);
        }
        StopOld();
      }
      assert Snapshot() == if s1.conn.Some? then H.StopOld(s1) else s1;
      r := OpenSession(name);
    }

    method Disconnect() returns (r: Result<()>)
      modifies this
      ensures (Snapshot(), r) == H.Disconnect(old(Snapshot()))
    {
      disconnectTriggered := true;
      if conn.None? {
        ClearValues();
        return Ok(());
      }
      var stopped := TakeStop(env);
      env := stopped.1;
      log := log + [Stop(conn.value.id)];
      ClearValues();
      if stopped.0 {
        return Ok(());
      }
      return Err(CloseFailed);
    }

    method DebugDisconnect()
      modifies this
      ensures Snapshot() == H.DebugDisconnect(old(Snapshot()))
    {
      if conn.None? {
        return;
      }
      var stopped := TakeStop(env);
      env := stopped.1;
      log := log + [Stop(conn.value.id)];
    }

    /** `connection.off(channel)` followed by `connection.on(channel, fn)`. */
    method RebindChannel(e: Entry)
      requires conn.Some?
      modifies `conn, `log
      ensures conn == Some(Rebind(old(conn.value), e))
      ensures log == old(log) + RebindEvents(old(conn.value.id), e)
    {
      conn := Some(Off(conn.value, e.channel));
      log := log + [Unbind(conn.value.id, e.channel)];
      conn := Some(On(conn.value, e.channel, e.handler));
      log := log + [Bind(conn.value.id, e.channel, e.handler)];
    }

    method SetListener(ch: Channel, h: HandlerId) returns (r: Result<()>)
      modifies this
      ensures (Snapshot(), r) == H.SetListener(old(Snapshot()), ch, h)
    {
      if conn.None? {
        return Err(NoConnectionListener);
      }
      listeners := Set(listeners, ch, h);
      RebindChannel(Entry(ch, h));
      return Ok(());
    }

    method InvokeFunction(name: string, args: seq<Arg>) returns (r: Result<Reply>)
      modifies this
      ensures (Snapshot(), r) == H.InvokeFunction(old(Snapshot()), name, args)
    {
      if conn.None? {
        return Err(NoConnectionInvoke);
      }
      var reply := TakeReply(env);
      env := reply.1;
      log := log + [Invoke(conn.value.id, name, args)];
      if reply.0.Some? {
        return Ok(reply.0.value);
      }
      return Err(CallDropped);
    }

    /** `listenersMapRef.current.forEach(...)`, one entry per iteration. */
    method ReattachLoop(registry: Registry)
      requires conn.Some?
      modifies `conn, `log
      ensures conn == Some(ReattachAll(old(conn.value), registry))
      ensures log == old(log) + ReattachEvents(old(conn.value.id), registry)
    {
      ghost var start := conn.value;
      ghost var log0 := log;
      var i := 0;
      while i < |registry|
        invariant 0 <= i <= |registry|
        invariant conn == Some(ReattachAll(start, registry[..i]))
        invariant conn.value.id == start.id
        invariant log == log0 + ReattachEvents(start.id, registry[..i])
      {
        ReattachPrefix(start, registry, i);
        RebindChannel(registry[i]);
        i := i + 1;
      }
      assert registry[..i] == registry;
    }

    method ReattachListeners()
      modifies `conn, `log
      ensures Snapshot() == H.Reattach(old(Snapshot()))
    {
      if conn.Some? {
        ReattachLoop(listeners);
      }
    }

    /** One turn of the loop: the back-off delay, then `connect(hubName)`. */
    method LoopTurn() returns (result: Result<Session>)
      requires hubName.Some?
      modifies this
      ensures (Snapshot(), result) == H.LoopTurn(old(Snapshot()))
    {
      delays := delays + [Delay(attempts)];
      result := Connect(hubName.value);
    }

    /** The loop body: a turn, then either the counter is bumped or the
        new session is kept and the loop is left. */
    method LoopIteration() returns (reconnected: bool)
      requires hubName.Some? && attempts < MaxAttempts
      modifies this
      ensures hubName.Some?
      ensures reconnected ==> (Snapshot(), true) == H.ReconnectLoop(old(Snapshot()))
      ensures !reconnected ==> attempts == old(attempts) + 1
      ensures !reconnected ==> H.ReconnectLoop(Snapshot()) == H.ReconnectLoop(old(Snapshot()))
    {
      var result := LoopTurn();
      if result.Err? {
        attempts := attempts + 1;
        return false;
      }
      conn := Some(result.value);
      return true;
    }

    method AttemptReconnect() returns (ok: bool)
      modifies this
      ensures (Snapshot(), ok) == H.AttemptReconnect(old(Snapshot()))
    {
      if !Truthy(hubName) {
        return false;
      }
      ghost var goal := H.ReconnectLoop(Snapshot());
      while attempts < MaxAttempts
        invariant hubName.Some?
        invariant H.ReconnectLoop(Snapshot()) == goal
        decreases MaxAttempts - attempts
      {
        var reconnected := LoopIteration();
        if reconnected {
          return true;
        }
      }
      return false;
    }

    /** `await connectionRef.current?.stop()` with its error swallowed. */
    method StopQuietly()
      modifies this
      ensures Snapshot() == H.StopQuietly(old(Snapshot()))
    {
      if conn.Some? {
        var stopped := TakeStop(env);
        env := stopped.1;
        log := log + [Stop(conn.value.id)];
      }
    }

    /** Giving up: clear every ref, close the indicator, go home. */
    method GiveUp()
      modifies this
      ensures Snapshot() == H.GiveUp(old(Snapshot()))
    {
      ClearValues();
      log := log + [CloseLoading, GoHome];
    }

    method HandleConnectionLost(pseudoId: string)
      modifies this
      ensures Snapshot() == H.HandleConnectionLost(old(Snapshot()), pseudoId)
    {
      if disconnectTriggered {
        return;
      }
      if reconnecting {
        return;
      }
      reconnecting := true;
      attempts := 0;
      log := log + [ShowLoading];
      assert Snapshot() == H.BeginRecovery(old(Snapshot()));
      var reconnected := AttemptReconnect();
      ghost var a := Snapshot();
      assert (a, reconnected) == H.AttemptReconnect(H.BeginRecovery(old(Snapshot())));
      if !reconnected {
        GiveUp();
        return;
      }
      log := log + [CloseLoading];
      connected := true;
      attempts := 0;
      reconnecting := false;
      assert Snapshot() == H.Emit(a, [CloseLoading]).(connected := true, attempts := 0, reconnecting := false);
      ReattachListeners();
      ghost var s4 := Snapshot();
      var rejoin := InvokeFunction(RejoinCall, RejoinArgs(gameKey, pseudoId));
      assert (Snapshot(), rejoin) == H.InvokeFunction(s4, RejoinCall, RejoinArgs(s4.gameKey, pseudoId));
      if rejoin.Err? {
        StopQuietly();
        GiveUp();
      }
    }

    /** The `onclose` observer of the current session. */
    method OnClose(pseudoId: string)
      modifies this
      ensures Snapshot() == H.OnClose(old(Snapshot()), pseudoId)
    {
      if connected && !reconnecting {
        conn := None;
        HandleConnectionLost(pseudoId);
        return;
      }
      ClearValues();
    }

    /** One tick of the 750 ms poll; `fired` says whether it called
        `handleConnectionLost`. */
    method PollTick() returns (fired: bool)
      ensures fired == H.PollFires(Snapshot())
      ensures !fired
    {
      if conn.None? {
        return false;
      }
      if connected && conn.None? && !reconnecting {
        assert false;
      }
      return false;
    }
  }
}
