/** The hub connection controller of `src/Common/context/HubConnectionProvider.tsx`
    as a state machine over the provider's refs. This copy binds the slot to
    a full hub address and refuses to connect elsewhere while a session is
    open, re-joins the group inside the reconnection loop before
    re-attaching listeners, clears the host flag on every reconnection, and
    never stops a session while recovering. The game key and the pseudo id
    come from the surrounding contexts and are inputs here. */
module CommonHub {
  import opened Wrappers
  import opened Backoff
  import opened Transport
  import opened Listeners

  datatype State = State(
    conn: Option<Session>,        // connectionRef
    connected: bool,              // connectedStateRef
    hubAddress: Option<string>,   // hubAddressRef
    attempts: nat,                // reconnectAttemptsRef
    reconnecting: bool,           // isReconnectingRef
    listeners: Registry,          // listenersRef
    nextId: nat,                  // identity of the next session built
    env: Env,                     // what the transport will do
    log: seq<Event>,              // what the provider has done
    delays: seq<nat>)             // back-off sleeps requested, in milliseconds

  const WrongHub := "Finnes allerede en åpen socket til feil hub. (HubConnectionProvider)"

  predicate Valid(s: State) {
    Unique(s.listeners)
  }

  /** The fields a transport call leaves alone. */
  predicate SameControl(a: State, b: State) {
    && a.attempts == b.attempts && a.reconnecting == b.reconnecting
    && a.listeners == b.listeners && a.delays == b.delays
  }

  /** Every ref at its default value. */
  predicate Cleared(s: State) {
    && s.conn.None? && !s.connected && s.hubAddress.None?
    && s.attempts == 0 && !s.reconnecting && s.listeners == []
  }

  /** The refs as the provider creates them. */
  function Initial(env: Env): (s: State)
    ensures Cleared(s) && Valid(s) && s.log == [] && s.delays == []
  {
    State(None, false, None, 0, false, [], 0, env, [], [])
  }

  function Emit(s: State, events: seq<Event>): State {
    s.(log := s.log + events)
  }

  /** `clearValues`. */
  function ClearValues(s: State): (r: State)
    ensures Cleared(r) && Valid(r)
    ensures r.log == s.log && r.env == s.env && r.nextId == s.nextId && r.delays == s.delays
  {
    s.(conn := None, attempts := 0, reconnecting := false, connected := false,
       hubAddress := None, listeners := [])
  }

  /** Build a session tagged `address` and `start` it. */
  function OpenSession(s: State, address: string): (r: (State, Result<Session>))
    ensures r.0.hubAddress == s.hubAddress && SameControl(r.0, s)
  {
    var session := NewSession(s.nextId, address);
    var outcome := TakeOpen(s.env);
    var s1 := Emit(s.(nextId := s.nextId + 1, env := outcome.1), [Open(session.id, address)]);
    if outcome.0 then (s1.(conn := Some(session), connected := true), Ok(session))
    else (s1.(connected := false), Err(OpenFailed))
  }

  /** `connect(hubAddress)`. */
  function Connect(s: State, address: string): (r: (State, Result<Session>))
    ensures r.0.hubAddress == Some(address) && SameControl(r.0, s)
  {
    var s1 := s.(hubAddress := Some(address));
    if s1.conn.Some? then
      if s1.conn.value.hub != address then (s1, Err(WrongHub)) else (s1, Ok(s1.conn.value))
    else OpenSession(s1, address)
  }

  /** `disconnect()`. */
  function Disconnect(s: State): (State, Result<()>) {
    var s1 := s.(connected := false);
    if s1.conn.None? then (ClearValues(s1), Ok(()))
    else
      var outcome := TakeStop(s1.env);
      var s2 := Emit(s1.(env := outcome.1), [Stop(s1.conn.value.id)]);
      if outcome.0 then (ClearValues(s2), Ok(())) else (ClearValues(s2), Err(CloseFailed))
  }

  /** `debugDisconnect()`: stops the session and leaves the refs alone. */
  function DebugDisconnect(s: State): State {
    if s.conn.None? then s
    else
      var outcome := TakeStop(s.env);
      Emit(s.(env := outcome.1), [Stop(s.conn.value.id)])
  }

  /** `setListener(channel, fn)`. */
  function SetListener(s: State, ch: Channel, h: HandlerId): (State, Result<()>) {
    if s.conn.None? then (s, Err(NoConnectionListener))
    else
      var e := Entry(ch, h);
      (Emit(s.(listeners := Set(s.listeners, ch, h), conn := Some(Rebind(s.conn.value, e))),
            RebindEvents(s.conn.value.id, e)),
       Ok(()))
  }

  /** `invokeFunction(name, ...args)`. */
  function InvokeFunction(s: State, name: string, args: seq<Arg>): (r: (State, Result<Reply>))
    ensures r.0.conn == s.conn && r.0.hubAddress == s.hubAddress && r.0.nextId == s.nextId
    ensures r.0.connected == s.connected && SameControl(r.0, s)
  {
    if s.conn.None? then (s, Err(NoConnectionInvoke))
    else
      var outcome := TakeReply(s.env);
      var s1 := Emit(s.(env := outcome.1), [Invoke(s.conn.value.id, name, args)]);
      if outcome.0.Some? then (s1, Ok(outcome.0.value)) else (s1, Err(CallDropped))
  }

  /** `reattachListeners()`. */
  function Reattach(s: State): State {
    if s.conn.None? then s
    else
      s.(conn := Some(ReattachAll(s.conn.value, s.listeners)),
         log := s.log + ReattachEvents(s.conn.value.id, s.listeners))
  }

  /** One turn of the reconnection loop: the delay is requested, then `connect`. */
  function LoopTurn(s: State): (r: (State, Result<Session>))
    requires s.hubAddress.Some?
    ensures SameControl(r.0, s.(delays := s.delays + [Delay(s.attempts)]))
    ensures r.0.delays == s.delays + [Delay(s.attempts)] && r.0.attempts == s.attempts
    ensures r.0.hubAddress == s.hubAddress
  {
    var s1 := s.(delays := s.delays + [Delay(s.attempts)]);
    Connect(s1, s1.hubAddress.value)
  }

  /** After the transport reconnected: `ConnectToGroup(gameKey, pseudoId, true)`,
      and only when that succeeds, the slot and the listeners. */
  function Rejoin(s: State, session: Session, gameKey: string, pseudoId: string): (State, bool) {
    var i := InvokeFunction(s, RejoinCall, RejoinArgs(gameKey, pseudoId));
    if i.1.Err? then (i.0, false)
    else (Reattach(i.0.(conn := Some(session))), true)
  }

  /** `reconnectAttemptsRef.current++` after a failed turn. */
  function Retry(s: State): State {
    s.(attempts := s.attempts + 1)
  }

  /** The `while (reconnectAttemptsRef.current < maxAttempts)` loop of `attemptReconnect`. */
  function ReconnectLoop(s: State, gameKey: string, pseudoId: string): (r: (State, bool))
    requires s.hubAddress.Some?
    decreases MaxAttempts - s.attempts
  {
    if s.attempts >= MaxAttempts then (s, false)
    else
      var c := LoopTurn(s);
      if c.1.Err? then ReconnectLoop(Retry(c.0), gameKey, pseudoId)
      else Rejoin(c.0, c.1.value, gameKey, pseudoId)
  }

  /** `attemptReconnect()`: `setIsHost(false)` comes first, on every call. */
  function AttemptReconnect(s: State, gameKey: string, pseudoId: string): (State, bool) {
    var s0 := Emit(s, [ClearHost]);
    if !Truthy(s0.hubAddress) then (s0, false) else ReconnectLoop(s0, gameKey, pseudoId)
  }

  /** The first steps of `handleConnectionLost` once its guard passes. */
  function BeginRecovery(s: State): State {
    Emit(s.(reconnecting := true, attempts := 0), [ShowLoading])
  }

  /** `handleConnectionLost()`. */
  function HandleConnectionLost(s: State, gameKey: string, pseudoId: string): State {
    if s.reconnecting || !Truthy(s.hubAddress) then s
    else
      var a := AttemptReconnect(BeginRecovery(s), gameKey, pseudoId);
      if a.1 then Emit(a.0, [CloseLoading]).(connected := true, attempts := 0, reconnecting := false)
      else Emit(ClearValues(a.0), [CloseLoading, GoHome])
  }

  /** The `onclose` observer installed on every session. */
  function OnClose(s: State, gameKey: string, pseudoId: string): State {
    if s.connected && !s.reconnecting then HandleConnectionLost(s.(conn := None), gameKey, pseudoId)
    else ClearValues(s)
  }

  /** The branch of the 750 ms poll that would call `handleConnectionLost`;
      as in the play copy it never fires. */
  function PollFires(s: State): (fires: bool)
    ensures !fires
  {
    if s.conn.None? then false else s.connected && s.conn.None? && !s.reconnecting
  }

  // ---------------------------------------------------------------------
  // Properties

  /** Connecting to the address the open session is tagged with returns
      that session and opens nothing. */
  lemma ConnectSameAddress(s: State, address: string)
    requires s.conn.Some? && s.conn.value.hub == address
    ensures Connect(s, address) == (s.(hubAddress := Some(address)), Ok(s.conn.value))
  {
  }

  /** Connecting elsewhere while a session is open is refused: the session,
      the flags and the transport are untouched, but the stored address is
      already overwritten. */
  lemma ConnectConflict(s: State, address: string)
    requires s.conn.Some? && s.conn.value.hub != address
    ensures Connect(s, address) == (s.(hubAddress := Some(address)), Err(WrongHub))
  {
  }

  /** Idempotent connect: once `connect(address)` succeeded, calling it again
      returns the same session and changes nothing. */
  lemma ConnectTwice(s: State, address: string)
    requires Connect(s, address).1.Ok?
    ensures Connect(Connect(s, address).0, address) == Connect(s, address)
  {
  }

  /** With no session, `connect` opens one tagged with the address; only a
      failing `start` makes it fail. */
  lemma ConnectFresh(s: State, address: string)
    requires s.conn.None?
    ensures var c := Connect(s, address);
      && c.0.log == s.log + [Open(s.nextId, address)]
      && (c.1.Ok? <==> TakeOpen(s.env).0)
      && (c.1.Ok? ==> c.1.value == NewSession(s.nextId, address)
                      && c.0.conn == Some(c.1.value) && c.0.connected)
      && (c.1.Err? ==> c.1.error == OpenFailed && c.0.conn.None? && !c.0.connected)
  {
  }

  /** `setListener` with no session fails and changes nothing. */
  lemma SetListenerWithoutConnection(s: State, ch: Channel, h: HandlerId)
    requires s.conn.None?
    ensures SetListener(s, ch, h) == (s, Err(NoConnectionListener))
  {
  }

  /** `setListener` records `h` as the one handler of `ch` (last write wins)
      and leaves the session delivering `ch` to `h` alone, exactly once: the
      transport saw `off(ch)` and then `on(ch, h)`. */
  lemma SetListenerLastWriteWins(s: State, ch: Channel, h: HandlerId)
    requires Valid(s) && s.conn.Some?
    ensures var (t, r) := SetListener(s, ch, h);
      && r.Ok? && Valid(t)
      && Entry(ch, h) in t.listeners
      && (forall e :: e in t.listeners && e.channel == ch ==> e.handler == h)
      && (forall e: Entry :: e.channel != ch ==> (e in t.listeners <==> e in s.listeners))
      && t.conn.Some? && t.conn.value.id == s.conn.value.id
      && Handlers(t.conn.value, ch) == [h]
      && (forall c :: c != ch ==> Handlers(t.conn.value, c) == Handlers(s.conn.value, c))
      && t.log == s.log + [Unbind(s.conn.value.id, ch), Bind(s.conn.value.id, ch, h)]
  {
    SetLastWriteWins(s.listeners, ch, h);
  }

  /** `invokeFunction` fails only in these two ways, and with no session it
      does not touch the transport. */
  lemma InvokeOutcomes(s: State, name: string, args: seq<Arg>)
    ensures var (t, r) := InvokeFunction(s, name, args);
      && (s.conn.None? ==> t == s && r == Err(NoConnectionInvoke))
      && (s.conn.Some? ==>
            && t.log == s.log + [Invoke(s.conn.value.id, name, args)]
            && (r.Ok? <==> TakeReply(s.env).0.Some?)
            && (r.Ok? ==> r.value == TakeReply(s.env).0.value)
            && (r.Err? ==> r.error == CallDropped))
  {
  }

  /** After `reattachListeners` every registered channel is bound exactly
      once, to its registered handler. */
  lemma ReattachExactlyOnce(s: State)
    requires Valid(s) && s.conn.Some?
    ensures var t := Reattach(s);
      && t.conn.Some? && t.conn.value.id == s.conn.value.id
      && (forall e :: e in s.listeners ==> Handlers(t.conn.value, e.channel) == [e.handler])
      && (forall c :: c !in Channels(s.listeners) ==> Handlers(t.conn.value, c) == Handlers(s.conn.value, c))
      && t.log == s.log + ReattachEvents(s.conn.value.id, s.listeners)
  {
    ReattachBindsOnce(s.conn.value, s.listeners);
  }

  /** One turn of the loop logs at most an `Open`, never a `stop`. */
  lemma LoopTurnNoStop(s: State)
    requires s.hubAddress.Some?
    ensures AppendedWithoutStop(s.log, LoopTurn(s).0.log)
  {
    var c := LoopTurn(s);
    if s.conn.None? {
      AppendNoStop(s.log, [Open(s.nextId, s.hubAddress.value)]);
    } else {
      AppendNoStop(s.log, []);
    }
  }

  /** The re-join step logs the call and the re-attachment, never a `stop`,
      and keeps the registry. */
  lemma RejoinNoStop(s: State, session: Session, gameKey: string, pseudoId: string)
    ensures AppendedWithoutStop(s.log, Rejoin(s, session, gameKey, pseudoId).0.log)
    ensures Rejoin(s, session, gameKey, pseudoId).0.listeners == s.listeners
  {
    var i := InvokeFunction(s, RejoinCall, RejoinArgs(gameKey, pseudoId));
    if s.conn.None? {
      AppendNoStop(s.log, []);
    } else {
      AppendNoStop(s.log, [Invoke(s.conn.value.id, RejoinCall, RejoinArgs(gameKey, pseudoId))]);
    }
    if i.1.Ok? {
      ReattachEventsNoStop(session.id, i.0.listeners);
      AppendNoStop(i.0.log, ReattachEvents(session.id, i.0.listeners));
      AppendedTrans(s.log, i.0.log, Rejoin(s, session, gameKey, pseudoId).0.log);
    }
  }

  /** The reconnection loop keeps the registry and the flag, and never
      stops a session: a session whose re-join fails is abandoned, not closed. */
  lemma {:induction false} ReconnectFrame(s: State, gameKey: string, pseudoId: string)
    requires s.hubAddress.Some?
    ensures var r := ReconnectLoop(s, gameKey, pseudoId);
      && r.0.listeners == s.listeners && r.0.reconnecting == s.reconnecting
      && AppendedWithoutStop(s.log, r.0.log)
    decreases MaxAttempts - s.attempts
  {
    if s.attempts >= MaxAttempts {
      AppendNoStop(s.log, []);
      assert s.log + [] == s.log;
    } else {
      var c := LoopTurn(s);
      LoopTurnNoStop(s);
      if c.1.Err? {
        var n := Retry(c.0);
        assert ReconnectLoop(s, gameKey, pseudoId) == ReconnectLoop(n, gameKey, pseudoId);
        ReconnectFrame(n, gameKey, pseudoId);
        AppendedTrans(s.log, n.log, ReconnectLoop(n, gameKey, pseudoId).0.log);
      } else {
        assert ReconnectLoop(s, gameKey, pseudoId) == Rejoin(c.0, c.1.value, gameKey, pseudoId);
        RejoinNoStop(c.0, c.1.value, gameKey, pseudoId);
        AppendedTrans(s.log, c.0.log, Rejoin(c.0, c.1.value, gameKey, pseudoId).0.log);
      }
    }
  }

  /** A refused re-join ends the loop at once: no further attempt, the
      counter where it was, and the new session left in the slot. */
  lemma RejoinFailureEndsLoop(s: State, gameKey: string, pseudoId: string)
    requires s.hubAddress.Some? && s.attempts < MaxAttempts
    requires LoopTurn(s).1.Ok? && TakeReply(LoopTurn(s).0.env).0.None?
    ensures var c := LoopTurn(s);
      && ReconnectLoop(s, gameKey, pseudoId)
           == (Emit(c.0.(env := TakeReply(c.0.env).1),
                    [Invoke(c.0.conn.value.id, RejoinCall, RejoinArgs(gameKey, pseudoId))]), false)
      && c.0.conn == Some(c.1.value)
      && c.0.attempts == s.attempts && c.0.delays == s.delays + [Delay(s.attempts)]
  {
  }

  /** The loop makes at most `MaxAttempts` attempts and counts only the
      failed opens; it returns true only with a session; it stops early
      without success only because the re-join was refused, which is then
      the last thing it did. */
  lemma {:induction false} ReconnectCounter(s: State, gameKey: string, pseudoId: string)
    requires s.hubAddress.Some? && s.attempts <= MaxAttempts
    ensures var r := ReconnectLoop(s, gameKey, pseudoId);
      && s.attempts <= r.0.attempts <= MaxAttempts
      && (r.1 ==> r.0.attempts < MaxAttempts && r.0.conn.Some?)
      && (!r.1 && r.0.attempts < MaxAttempts ==>
            && r.0.conn.Some? && |r.0.log| > 0
            && r.0.log[|r.0.log| - 1] == Invoke(r.0.conn.value.id, RejoinCall, RejoinArgs(gameKey, pseudoId)))
    decreases MaxAttempts - s.attempts
  {
    if s.attempts < MaxAttempts {
      var c := LoopTurn(s);
      if c.1.Err? {
        var n := Retry(c.0);
        assert ReconnectLoop(s, gameKey, pseudoId) == ReconnectLoop(n, gameKey, pseudoId);
        ReconnectCounter(n, gameKey, pseudoId);
      } else {
        assert ReconnectLoop(s, gameKey, pseudoId) == Rejoin(c.0, c.1.value, gameKey, pseudoId);
        assert c.0.conn == Some(c.1.value);
      }
    }
  }

  /** A turn from an empty slot reaches the transport exactly when the next
      open succeeds; after a failure the slot is still empty and the oracle
      has moved on by one open; after a success the loop's value is the
      re-join's, made with the counter unchanged. */
  lemma TurnFromEmpty(s: State, gameKey: string, pseudoId: string)
    requires s.hubAddress.Some? && s.conn.None? && s.attempts < MaxAttempts
    ensures var c := LoopTurn(s);
      && (c.1.Ok? <==> OpenSucceeds(s.env, 0))
      && (c.1.Err? ==> var n := Retry(c.0);
            && n.conn.None? && n.hubAddress.Some? && n.attempts == s.attempts + 1
            && n.env == TakeOpen(s.env).1
            && ReconnectLoop(s, gameKey, pseudoId) == ReconnectLoop(n, gameKey, pseudoId))
      && (c.1.Ok? ==> ReconnectLoop(s, gameKey, pseudoId) == Rejoin(c.0, c.1.value, gameKey, pseudoId)
                      && Rejoin(c.0, c.1.value, gameKey, pseudoId).0.attempts == s.attempts)
  {
    TakeOpenShifts(s.env, 0);
  }

  /** From an empty slot, as after `onclose`, the transport decides how many
      turns the loop takes: it reaches the transport on turn `j` exactly when
      open `j` is the first of the remaining opens to succeed, and it uses up
      every attempt exactly when none of the remaining turns' opens succeeds. */
  lemma {:induction false} ReconnectFollowsOpens(s: State, gameKey: string, pseudoId: string)
    requires s.hubAddress.Some? && s.conn.None? && s.attempts <= MaxAttempts
    ensures var r := ReconnectLoop(s, gameKey, pseudoId);
      && s.attempts <= r.0.attempts
      && LeadingFailures(s.env, r.0.attempts - s.attempts)
      && (r.0.attempts < MaxAttempts ==> OpenSucceeds(s.env, r.0.attempts - s.attempts))
      && (r.0.attempts < MaxAttempts <==> SomeOpenSucceeds(s.env, MaxAttempts - s.attempts))
    decreases MaxAttempts - s.attempts
  {
    if s.attempts < MaxAttempts {
      TurnFromEmpty(s, gameKey, pseudoId);
      var c := LoopTurn(s);
      if c.1.Err? {
        var n := Retry(c.0);
        ReconnectFollowsOpens(n, gameKey, pseudoId);
        var r := ReconnectLoop(n, gameKey, pseudoId);
        FailedOpenShifts(s.env, r.0.attempts - n.attempts, MaxAttempts - n.attempts);
        if r.0.attempts < MaxAttempts {
          TakeOpenShifts(s.env, r.0.attempts - n.attempts);
        }
      } else {
        assert SomeOpenSucceeds(s.env, MaxAttempts - s.attempts);
      }
    }
  }

  /** Before attempt `k` the loop requests `1000 * 2^k` ms: the delays one
      episode adds are the schedule from the current attempt. */
  lemma {:induction false} DelaysFollowSchedule(s: State, gameKey: string, pseudoId: string)
    requires s.hubAddress.Some? && s.attempts <= MaxAttempts
    ensures var r := ReconnectLoop(s, gameKey, pseudoId);
      |s.delays| <= |r.0.delays| && r.0.delays == s.delays + Schedule(s.attempts, |r.0.delays| - |s.delays|)
    decreases MaxAttempts - s.attempts
  {
    if s.attempts < MaxAttempts {
      var c := LoopTurn(s);
      if c.1.Err? {
        var n := Retry(c.0);
        assert ReconnectLoop(s, gameKey, pseudoId) == ReconnectLoop(n, gameKey, pseudoId);
        DelaysFollowSchedule(n, gameKey, pseudoId);
        var r := ReconnectLoop(n, gameKey, pseudoId);
        ScheduleStep(s.delays, n.delays, r.0.delays, s.attempts, n.attempts);
      } else {
        assert ReconnectLoop(s, gameKey, pseudoId) == Rejoin(c.0, c.1.value, gameKey, pseudoId);
        assert Schedule(s.attempts, 1) == [Delay(s.attempts)];
      }
    }
  }

  /** One delay is requested per turn: up to and including the turn that
      reached the transport, or all the remaining turns. */
  lemma {:induction false} ReconnectTurns(s: State, gameKey: string, pseudoId: string)
    requires s.hubAddress.Some? && s.attempts <= MaxAttempts
    ensures var r := ReconnectLoop(s, gameKey, pseudoId);
      && (r.0.attempts < MaxAttempts ==> |r.0.delays| == |s.delays| + r.0.attempts - s.attempts + 1)
      && (r.0.attempts >= MaxAttempts ==> |r.0.delays| == |s.delays| + MaxAttempts - s.attempts)
    decreases MaxAttempts - s.attempts
  {
    if s.attempts < MaxAttempts {
      var c := LoopTurn(s);
      if c.1.Err? {
        var n := Retry(c.0);
        assert ReconnectLoop(s, gameKey, pseudoId) == ReconnectLoop(n, gameKey, pseudoId);
        ReconnectTurns(n, gameKey, pseudoId);
      } else {
        assert ReconnectLoop(s, gameKey, pseudoId) == Rejoin(c.0, c.1.value, gameKey, pseudoId);
      }
    }
  }

  /** Before attempt `k` the loop requests `1000 * 2^k` ms, so one episode
      requests the schedule from the current attempt to the last one made. */
  lemma ReconnectSchedule(s: State, gameKey: string, pseudoId: string)
    requires s.hubAddress.Some? && s.attempts <= MaxAttempts
    ensures var r := ReconnectLoop(s, gameKey, pseudoId);
      && (r.0.attempts < MaxAttempts ==>
            s.attempts <= r.0.attempts
            && r.0.delays == s.delays + Schedule(s.attempts, r.0.attempts - s.attempts + 1))
      && (r.0.attempts >= MaxAttempts ==>
            r.0.delays == s.delays + Schedule(s.attempts, MaxAttempts - s.attempts))
  {
    ReconnectCounter(s, gameKey, pseudoId);
    DelaysFollowSchedule(s, gameKey, pseudoId);
    ReconnectTurns(s, gameKey, pseudoId);
    var r := ReconnectLoop(s, gameKey, pseudoId);
    if r.0.attempts < MaxAttempts {
      ScheduleCount(s.delays, r.0.delays, s.attempts, r.0.attempts - s.attempts + 1);
    } else {
      ScheduleCount(s.delays, r.0.delays, s.attempts, MaxAttempts - s.attempts);
    }
  }

  /** A successful loop re-attached every registered listener, exactly once,
      on the session it leaves in the slot, a session on the stored address.
      When the loop started from an empty slot, as after `onclose`, no other
      channel is bound on that session. */
  lemma {:induction false} ReconnectBindsOnce(s: State, gameKey: string, pseudoId: string)
    requires s.hubAddress.Some? && Valid(s)
    ensures var r := ReconnectLoop(s, gameKey, pseudoId);
      r.1 ==> && r.0.conn.Some? && r.0.conn.value.hub == s.hubAddress.value
              && (forall e :: e in s.listeners ==> Handlers(r.0.conn.value, e.channel) == [e.handler])
              && (s.conn.None? ==>
                    forall c :: c !in Channels(s.listeners) ==> Handlers(r.0.conn.value, c) == [])
    decreases MaxAttempts - s.attempts
  {
    if s.attempts < MaxAttempts {
      var c := LoopTurn(s);
      if c.1.Err? {
        var n := Retry(c.0);
        assert ReconnectLoop(s, gameKey, pseudoId) == ReconnectLoop(n, gameKey, pseudoId);
        ReconnectBindsOnce(n, gameKey, pseudoId);
      } else {
        assert ReconnectLoop(s, gameKey, pseudoId) == Rejoin(c.0, c.1.value, gameKey, pseudoId);
        var i := InvokeFunction(c.0, RejoinCall, RejoinArgs(gameKey, pseudoId));
        if i.1.Ok? {
          ReattachBindsOnce(c.1.value, s.listeners);
        }
      }
    }
  }

  /** `attemptReconnect` first clears the host flag, whatever else happens. */
  lemma ClearHostFirst(s: State, gameKey: string, pseudoId: string)
    ensures var t := AttemptReconnect(s, gameKey, pseudoId).0;
      |t.log| > |s.log| && t.log[..|s.log|] == s.log && t.log[|s.log|] == ClearHost
  {
    var s0 := Emit(s, [ClearHost]);
    var t := AttemptReconnect(s, gameKey, pseudoId).0;
    if Truthy(s0.hubAddress) {
      ReconnectFrame(s0, gameKey, pseudoId);
      assert t.log[..|s0.log|] == s0.log;
      assert t.log[..|s.log|] == t.log[..|s0.log|][..|s.log|];
    }
  }

  /** Without an address `attemptReconnect` only clears the host flag. */
  lemma AttemptReconnectWithoutAddress(s: State, gameKey: string, pseudoId: string)
    requires !Truthy(s.hubAddress)
    ensures AttemptReconnect(s, gameKey, pseudoId) == (Emit(s, [ClearHost]), false)
  {
  }

  /** `handleConnectionLost` does nothing while a reconnection is under way
      or when no address is stored. */
  lemma HandleLostGuards(s: State, gameKey: string, pseudoId: string)
    requires s.reconnecting || !Truthy(s.hubAddress)
    ensures HandleConnectionLost(s, gameKey, pseudoId) == s
  {
  }

  /** On recovery the indicator closes, the flags are restored and every
      listener is bound exactly once on the new session, a session on the
      stored address; after `onclose` no other channel is bound on it. */
  lemma HandleLostRecovers(s: State, gameKey: string, pseudoId: string)
    requires Valid(s) && !s.reconnecting && Truthy(s.hubAddress)
    requires AttemptReconnect(BeginRecovery(s), gameKey, pseudoId).1
    ensures var t := HandleConnectionLost(s, gameKey, pseudoId);
      && t.connected && t.attempts == 0 && !t.reconnecting
      && t.log == AttemptReconnect(BeginRecovery(s), gameKey, pseudoId).0.log + [CloseLoading]
      && t.conn.Some? && t.conn.value.hub == s.hubAddress.value
      && (forall e :: e in s.listeners ==> Handlers(t.conn.value, e.channel) == [e.handler])
      && (s.conn.None? ==>
            forall c :: c !in Channels(s.listeners) ==> Handlers(t.conn.value, c) == [])
  {
    ReconnectBindsOnce(Emit(BeginRecovery(s), [ClearHost]), gameKey, pseudoId);
  }

  /** When the loop fails, for whatever reason, every ref is cleared, the
      indicator closes and the user is sent home; with a hub that never
      answers all five back-off delays were requested. */
  lemma HandleLostGivesUp(s: State, gameKey: string, pseudoId: string)
    requires !s.reconnecting && Truthy(s.hubAddress)
    requires !AttemptReconnect(BeginRecovery(s), gameKey, pseudoId).1
    ensures var a := AttemptReconnect(BeginRecovery(s), gameKey, pseudoId).0;
      var t := HandleConnectionLost(s, gameKey, pseudoId);
      && Cleared(t)
      && t.log == a.log + [CloseLoading, GoHome]
      && (a.attempts == MaxAttempts ==> t.delays == s.delays + [1000, 2000, 4000, 8000, 16000])
  {
    var b := Emit(BeginRecovery(s), [ClearHost]);
    ReconnectSchedule(b, gameKey, pseudoId);
    FullSchedule();
  }

  /** A recovery on attempt `k` (counting from 0) slept through the first
      `k + 1` delays of the full schedule and no others. */
  lemma HandleLostWaits(s: State, gameKey: string, pseudoId: string)
    requires !s.reconnecting && Truthy(s.hubAddress)
    requires AttemptReconnect(BeginRecovery(s), gameKey, pseudoId).1
    ensures var m := AttemptReconnect(BeginRecovery(s), gameKey, pseudoId).0;
      && m.attempts < MaxAttempts
      && m.delays == s.delays + [1000, 2000, 4000, 8000, 16000][..m.attempts + 1]
  {
    var b := Emit(BeginRecovery(s), [ClearHost]);
    ReconnectCounter(b, gameKey, pseudoId);
    ReconnectSchedule(b, gameKey, pseudoId);
    SchedulePrefix(ReconnectLoop(b, gameKey, pseudoId).0.attempts + 1);
  }

  /** Whatever the counter, the loop never retries without sleeping at
      least one second first. */
  lemma EveryTurnWaits(s: State, gameKey: string, pseudoId: string)
    requires s.hubAddress.Some? && s.attempts <= MaxAttempts
    ensures var r := ReconnectLoop(s, gameKey, pseudoId);
      forall i :: |s.delays| <= i < |r.0.delays| ==> r.0.delays[i] >= BaseDelay
  {
    DelaysFollowSchedule(s, gameKey, pseudoId);
    ScheduleWaits(s.attempts, |ReconnectLoop(s, gameKey, pseudoId).0.delays| - |s.delays|);
  }

  /** Neither a recovery nor giving up ever stops a session. */
  lemma HandleLostNeverStops(s: State, gameKey: string, pseudoId: string)
    ensures AppendedWithoutStop(s.log, HandleConnectionLost(s, gameKey, pseudoId).log)
  {
    if !(s.reconnecting || !Truthy(s.hubAddress)) {
      var b := BeginRecovery(s);
      var b0 := Emit(b, [ClearHost]);
      AppendNoStop(s.log, [ShowLoading, ClearHost]);
      assert b0.log == s.log + [ShowLoading, ClearHost];
      ReconnectFrame(b0, gameKey, pseudoId);
      AppendedTrans(s.log, b0.log, ReconnectLoop(b0, gameKey, pseudoId).0.log);
      var a := ReconnectLoop(b0, gameKey, pseudoId);
      if a.1 {
        AppendNoStop(a.0.log, [CloseLoading]);
      } else {
        AppendNoStop(a.0.log, [CloseLoading, GoHome]);
      }
      AppendedTrans(s.log, a.0.log, HandleConnectionLost(s, gameKey, pseudoId).log);
    } else {
      AppendNoStop(s.log, []);
      assert s.log + [] == s.log;
    }
  }

  /** `disconnect` ends with every ref at its default on every path, stops
      the session if there is one, and fails only when that `stop` throws. */
  lemma DisconnectResets(s: State)
    ensures var (t, r) := Disconnect(s);
      && Cleared(t)
      && t.log == s.log + (if s.conn.Some? then [Stop(s.conn.value.id)] else [])
      && (r.Err? <==> s.conn.Some? && !TakeStop(s.env).0)
      && (r.Err? ==> r.error == CloseFailed)
  {
  }

  /** `disconnect` lowers `connected` before it stops the session, so the
      close the transport then reports takes the `clearValues` branch: no
      sleep, no transport call, no indicator. */
  lemma DisconnectSuppressesReconnect(s: State, gameKey: string, pseudoId: string)
    ensures OnClose(s.(connected := false), gameKey, pseudoId) == ClearValues(s.(connected := false))
    ensures OnClose(Disconnect(s).0, gameKey, pseudoId) == Disconnect(s).0
  {
  }

  /** `debugDisconnect` stops a live session and keeps every ref, so the
      close it causes passes the observer's guard and starts a loss episode
      exactly as an unexpected close does. */
  lemma DebugDisconnectStartsRecovery(s: State, gameKey: string, pseudoId: string)
    requires s.conn.Some? && s.connected && !s.reconnecting
    ensures var d := DebugDisconnect(s);
      && d.log == s.log + [Stop(s.conn.value.id)]
      && d.hubAddress == s.hubAddress && d.listeners == s.listeners && !d.reconnecting
      && OnClose(d, gameKey, pseudoId) == HandleConnectionLost(d.(conn := None), gameKey, pseudoId)
  {
  }

  /** A close reported once everything is cleared leaves everything cleared. */
  lemma OnCloseWhenCleared(s: State, gameKey: string, pseudoId: string)
    requires Cleared(s)
    ensures OnClose(s, gameKey, pseudoId) == s
  {
  }

  /** Every operation keeps the registry's channels distinct, so the lemmas
      that assume `Valid` apply again after each of them, a second loss of
      the connection included. */
  lemma ValidPreserved(s: State, address: string, ch: Channel, h: HandlerId, name: string,
                       args: seq<Arg>, gameKey: string, pseudoId: string)
    requires Valid(s)
    ensures Valid(Connect(s, address).0) && Valid(Disconnect(s).0) && Valid(DebugDisconnect(s))
    ensures Valid(SetListener(s, ch, h).0) && Valid(InvokeFunction(s, name, args).0)
    ensures Valid(HandleConnectionLost(s, gameKey, pseudoId)) && Valid(OnClose(s, gameKey, pseudoId))
  {
    SetLastWriteWins(s.listeners, ch, h);
    LossKeepsValid(s, gameKey, pseudoId);
    LossKeepsValid(s.(conn := None), gameKey, pseudoId);
  }

  /** A loss of the connection, recovered or given up, keeps `Valid`. */
  lemma LossKeepsValid(s: State, gameKey: string, pseudoId: string)
    requires Valid(s)
    ensures Valid(HandleConnectionLost(s, gameKey, pseudoId))
  {
    if s.hubAddress.Some? {
      ReconnectFrame(Emit(BeginRecovery(s), [ClearHost]), gameKey, pseudoId);
    }
  }

  /** A live session on "hub/spin" with one listener, whose next two opens
      fail and the third succeeds, and whose re-join is accepted. */
  function ScenarioStart(): State {
    State(Some(Session(0, "hub/spin", map["state" := [7]])), true,
          Some("hub/spin"), 0, false, [Entry("state", 7)], 1,
          Env([false, false, true], [Some(0)], []), [], [])
  }

  /** In that scenario the loop fails twice, waiting 1s and 2s, then waits 4s,
      opens session 3 and asks the backend to re-join on it. */
  lemma RecoveryScenarioLoop()
    ensures ReconnectLoop(Emit(BeginRecovery(ScenarioStart().(conn := None)), [ClearHost]), "ABCD", "u1")
         == Rejoin(State(Some(NewSession(3, "hub/spin")), true, Some("hub/spin"), 2, true,
                         [Entry("state", 7)], 4, Env([], [Some(0)], []),
                         [ShowLoading, ClearHost, Open(1, "hub/spin"), Open(2, "hub/spin"), Open(3, "hub/spin")],
                         [1000, 2000, 4000]),
                   NewSession(3, "hub/spin"), "ABCD", "u1")
  {
    var b := Emit(BeginRecovery(ScenarioStart().(conn := None)), [ClearHost]);
    var c1 := LoopTurn(b);
    var n1 := Retry(c1.0);
    assert ReconnectLoop(b, "ABCD", "u1") == ReconnectLoop(n1, "ABCD", "u1");
    var c2 := LoopTurn(n1);
    var n2 := Retry(c2.0);
    assert ReconnectLoop(n1, "ABCD", "u1") == ReconnectLoop(n2, "ABCD", "u1");
    var c3 := LoopTurn(n2);
    assert c3.1 == Ok(NewSession(3, "hub/spin"));
    assert ReconnectLoop(n2, "ABCD", "u1") == Rejoin(c3.0, c3.1.value, "ABCD", "u1");
    assert c3.0.log == [ShowLoading, ClearHost, Open(1, "hub/spin"), Open(2, "hub/spin"), Open(3, "hub/spin")];
    assert c3.0.delays == [1000, 2000, 4000];
    assert c3.0.env == Env([], [Some(0)], []);
  }

  /** The whole recovery in that scenario: delays 1s, 2s and 4s, the host flag
      cleared right after the indicator shows, the re-join before the
      re-attachment, and the flags restored. */
  lemma RecoveryScenario()
    ensures var t := OnClose(ScenarioStart(), "ABCD", "u1");
      && t.delays == [1000, 2000, 4000]
      && t.attempts == 0 && !t.reconnecting && t.connected
      && t.conn.Some? && t.conn.value.id == 3 && Handlers(t.conn.value, "state") == [7]
      && t.log == [ShowLoading, ClearHost, Open(1, "hub/spin"), Open(2, "hub/spin"), Open(3, "hub/spin"),
                   Invoke(3, RejoinCall, RejoinArgs("ABCD", "u1")), Unbind(3, "state"), Bind(3, "state", 7),
                   CloseLoading]
  {
    RecoveryScenarioLoop();
    var e := Entry("state", 7);
    assert ReattachEvents(3, [e]) == RebindEvents(3, e) by {
      assert [e][..0] == [];
    }
  }
}
