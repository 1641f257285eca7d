/** The hub connection controller of `src/play/context/HubConnectionProvider.tsx`
    as a state machine over the provider's refs. Every awaited call is one
    step; the transport's behaviour comes from the oracle in `env`. This
    copy normalises the hub names "roulette" and "duel" to "spin",
    switches hubs on a conflicting `connect`, re-attaches listeners before
    re-joining the group, and stops the new session when the re-join fails. */
module PlayHub {
  import opened Wrappers
  import opened Backoff
  import opened Transport
  import opened Listeners

  datatype State = State(
    conn: Option<Session>,        // connectionRef
    connected: bool,              // connectedStateRef
    disconnectTriggered: bool,    // disconnectTriggeredRef
    hubName: Option<string>,      // hubNameRef
    attempts: nat,                // reconnectAttemptsRef
    reconnecting: bool,           // isReconnectingRef
    listeners: Registry,          // listenersMapRef
    gameKey: string,              // gameKeyRef
    nextId: nat,                  // identity of the next session built
    env: Env,                     // what the transport will do
    log: seq<Event>,              // what the provider has done
    delays: seq<nat>)             // back-off sleeps requested, in milliseconds

  predicate Valid(s: State) {
    Unique(s.listeners)
  }

  /** The fields a transport call leaves alone. */
  predicate SameControl(a: State, b: State) {
    && a.attempts == b.attempts && a.reconnecting == b.reconnecting
    && a.listeners == b.listeners && a.gameKey == b.gameKey
    && a.disconnectTriggered == b.disconnectTriggered && a.delays == b.delays
  }

  /** Every ref at its default value. */
  predicate Cleared(s: State) {
    && s.conn.None? && !s.connected && !s.disconnectTriggered && s.hubName.None?
    && s.attempts == 0 && !s.reconnecting && s.listeners == [] && s.gameKey == ""
  }

  /** The refs as the provider creates them. */
  function Initial(env: Env): (s: State)
    ensures Cleared(s) && Valid(s) && s.log == [] && s.delays == []
  {
    State(None, false, false, None, 0, false, [], "", 0, env, [], [])
  }

  function Emit(s: State, events: seq<Event>): State {
    s.(log := s.log + events)
  }

  /** The backend serves "roulette" and "duel" from the "spin" hub. */
  function Normalize(hub: string): string {
    if hub == "roulette" || hub == "duel" then "spin" else hub
  }

  /** `clearValues`. */
  function ClearValues(s: State): (r: State)
    ensures Cleared(r) && Valid(r)
    ensures r.log == s.log && r.env == s.env && r.nextId == s.nextId && r.delays == s.delays
  {
    s.(conn := None, attempts := 0, reconnecting := false, connected := false,
       hubName := None, listeners := [], disconnectTriggered := false, gameKey := "")
  }

  /** `useEffect(() => { gameKeyRef.current = gameKey }, [gameKey])`. */
  function SyncGameKey(s: State, gameKey: string): State {
    s.(gameKey := gameKey)
  }

  /** Build a session tagged `name` and `start` it. */
  function OpenSession(s: State, name: string): (r: (State, Result<Session>))
    ensures r.0.hubName == s.hubName && SameControl(r.0, s)
  {
    var session := NewSession(s.nextId, name);
    var outcome := TakeOpen(s.env);
    var s1 := Emit(s.(nextId := s.nextId + 1, env := outcome.1), [Open(session.id, name)]);
    if outcome.0 then (s1.(conn := Some(session), connected := true), Ok(session))
    else (s1.(connected := false), Err(OpenFailed))
  }

  /** Closing the old session when switching hubs; a failing `stop` is ignored. */
  function StopOld(s: State): (r: State)
    requires s.conn.Some?
    ensures r.hubName == s.hubName && SameControl(r, s)
  {
    var outcome := TakeStop(s.env);
    Emit(s.(env := outcome.1, conn := None, connected := false), [Stop(s.conn.value.id)])
  }

  /** `connect(hubName)`. */
  function Connect(s: State, hub: string): (r: (State, Result<Session>))
    ensures r.0.hubName == Some(Normalize(hub)) && SameControl(r.0, s)
  {
    var name := Normalize(hub);
    var s1 := s.(hubName := Some(name));
    if s1.conn.Some? && s1.conn.value.hub == name then (s1, Ok(s1.conn.value))
    else
      var s2 := if s1.conn.Some? then StopOld(s1) else s1;
      OpenSession(s2, name)
  }

  /** `disconnect()`. */
  function Disconnect(s: State): (State, Result<()>) {
    var s1 := s.(disconnectTriggered := true);
    if s1.conn.None? then (ClearValues(s1), Ok(()))
    else
      var outcome := TakeStop(s1.env);
      var s2 := Emit(s1.(env := outcome.1), [Stop(s1.conn.value.id)]);
      if outcome.0 then (ClearValues(s2), Ok(())) else (ClearValues(s2), Err(CloseFailed))
  }

  /** `debugDisconnect()`: stops the session and leaves the refs alone; the
      transport then reports the close through `OnClose`. */
  function DebugDisconnect(s: State): State {
    if s.conn.None? then s
    else
      var outcome := TakeStop(s.env);
      Emit(s.(env := outcome.1), [Stop(s.conn.value.id)])
  }

  /** `setListener(channel, fn)`. */
  function SetListener(s: State, ch: Channel, h: HandlerId): (State, Result<()>) {
    if s.conn.None? then (s, Err(NoConnectionListener))
    else
      var e := Entry(ch, h);
      (Emit(s.(listeners := Set(s.listeners, ch, h), conn := Some(Rebind(s.conn.value, e))),
            RebindEvents(s.conn.value.id, e)),
       Ok(()))
  }

  /** `invokeFunction(name, ...args)`. */
  function InvokeFunction(s: State, name: string, args: seq<Arg>): (r: (State, Result<Reply>))
    ensures r.0.conn == s.conn && r.0.hubName == s.hubName && r.0.nextId == s.nextId
    ensures r.0.connected == s.connected && SameControl(r.0, s)
  {
    if s.conn.None? then (s, Err(NoConnectionInvoke))
    else
      var outcome := TakeReply(s.env);
      var s1 := Emit(s.(env := outcome.1), [Invoke(s.conn.value.id, name, args)]);
      if outcome.0.Some? then (s1, Ok(outcome.0.value)) else (s1, Err(CallDropped))
  }

  /** `reattachListeners()`. */
  function Reattach(s: State): State {
    if s.conn.None? then s
    else
      s.(conn := Some(ReattachAll(s.conn.value, s.listeners)),
         log := s.log + ReattachEvents(s.conn.value.id, s.listeners))
  }

  /** One turn of the reconnection loop: the delay is requested, then `connect`. */
  function LoopTurn(s: State): (r: (State, Result<Session>))
    requires s.hubName.Some?
    ensures SameControl(r.0, s.(delays := s.delays + [Delay(s.attempts)]))
    ensures r.0.delays == s.delays + [Delay(s.attempts)] && r.0.attempts == s.attempts
  {
    var s1 := s.(delays := s.delays + [Delay(s.attempts)]);
    Connect(s1, s1.hubName.value)
  }

  /** `connectionRef.current = result.value` after a successful turn. */
  function Adopt(s: State, session: Session): State {
    s.(conn := Some(session))
  }

  /** `reconnectAttemptsRef.current++` after a failed turn. */
  function Retry(s: State): State {
    s.(attempts := s.attempts + 1)
  }

  /** The `while (reconnectAttemptsRef.current < maxAttempts)` loop of `attemptReconnect`. */
  function ReconnectLoop(s: State): (r: (State, bool))
    requires s.hubName.Some?
    decreases MaxAttempts - s.attempts
  {
    if s.attempts >= MaxAttempts then (s, false)
    else
      var c := LoopTurn(s);
      if c.1.Err? then ReconnectLoop(Retry(c.0))
      else (Adopt(c.0, c.1.value), true)
  }

  /** `attemptReconnect()`. */
  function AttemptReconnect(s: State): (State, bool) {
    if !Truthy(s.hubName) then (s, false) else ReconnectLoop(s)
  }

  /** The first steps of `handleConnectionLost` once its guards pass. */
  function BeginRecovery(s: State): State {
    Emit(s.(reconnecting := true, attempts := 0), [ShowLoading])
  }

  /** `await connectionRef.current?.stop()` with its error swallowed. */
  function StopQuietly(s: State): State {
    if s.conn.None? then s
    else
      var outcome := TakeStop(s.env);
      Emit(s.(env := outcome.1), [Stop(s.conn.value.id)])
  }

  /** Giving up: clear every ref, close the indicator, go to the home screen. */
  function GiveUp(s: State): (r: State)
    ensures Cleared(r) && r.log == s.log + [CloseLoading, GoHome]
  {
    Emit(ClearValues(s), [CloseLoading, GoHome])
  }

  /** `handleConnectionLost()`, with `pseudoId` from the auth context. */
  function HandleConnectionLost(s: State, pseudoId: string): State {
    if s.disconnectTriggered then s
    else if s.reconnecting then s
    else
      var a := AttemptReconnect(BeginRecovery(s));
      if !a.1 then GiveUp(a.0)
      else
        var s3 := Emit(a.0, [CloseLoading]).(connected := true, attempts := 0, reconnecting := false);
        var s4 := Reattach(s3);
        var i := InvokeFunction(s4, RejoinCall, RejoinArgs(s4.gameKey, pseudoId));
        if i.1.Ok? then i.0 else GiveUp(StopQuietly(i.0))
  }

  /** The `onclose` observer installed on every session. */
  function OnClose(s: State, pseudoId: string): State {
    if s.connected && !s.reconnecting then HandleConnectionLost(s.(conn := None), pseudoId)
    else ClearValues(s)
  }

  /** The branch of the 750 ms poll that would call `handleConnectionLost`:
      it first returns when the slot is empty, then asks for an empty slot,
      so it never fires. */
  function PollFires(s: State): (fires: bool)
    ensures !fires
  {
    if s.conn.None? then false else s.connected && s.conn.None? && !s.reconnecting
  }

  // ---------------------------------------------------------------------
  // Properties

  /** Only "roulette" and "duel" are renamed, both to "spin"; normalising twice changes nothing. */
  lemma NormalizeAliases(hub: string)
    ensures Normalize(hub) == "spin" <==> hub == "roulette" || hub == "duel" || hub == "spin"
    ensures hub != "roulette" && hub != "duel" ==> Normalize(hub) == hub
    ensures Normalize(Normalize(hub)) == Normalize(hub)
  {
  }

  /** Connecting to the hub the live session is tagged with returns that
      session and opens, stops and logs nothing. */
  lemma ConnectSameHub(s: State, hub: string)
    requires s.conn.Some? && s.conn.value.hub == Normalize(hub)
    ensures Connect(s, hub) == (s.(hubName := Some(Normalize(hub))), Ok(s.conn.value))
  {
  }

  /** Idempotent connect: once `connect(hub)` succeeded, calling it again
      returns the same session and changes nothing. */
  lemma ConnectTwice(s: State, hub: string)
    requires Connect(s, hub).1.Ok?
    ensures Connect(Connect(s, hub).0, hub) == Connect(s, hub)
  {
    var c := Connect(s, hub);
    assert c.0.conn == Some(c.1.value) && c.1.value.hub == Normalize(hub);
  }

  /** Connecting to a different hub stops the old session, then opens a
      fresh session tagged with the new name; the conflict itself is never
      an error, only a failing `start` is. */
  lemma ConnectSwitchesHub(s: State, hub: string)
    requires s.conn.Some? && s.conn.value.hub != Normalize(hub)
    ensures var c := Connect(s, hub);
      && c.0.log == s.log + [Stop(s.conn.value.id), Open(s.nextId, Normalize(hub))]
      && c.0.nextId == s.nextId + 1
      && c.0.hubName == Some(Normalize(hub))
      && (c.1.Ok? <==> TakeOpen(TakeStop(s.env).1).0)
      && (c.1.Ok? ==> c.1.value == NewSession(s.nextId, Normalize(hub))
                      && c.0.conn == Some(c.1.value) && c.0.connected)
      && (c.1.Err? ==> c.1.error == OpenFailed && c.0.conn.None? && !c.0.connected)
  {
  }

  /** With no session, `connect` opens one tagged with the normalised name. */
  lemma ConnectFresh(s: State, hub: string)
    requires s.conn.None?
    ensures var c := Connect(s, hub);
      && c.0.log == s.log + [Open(s.nextId, Normalize(hub))]
      && (c.1.Ok? <==> TakeOpen(s.env).0)
      && (c.1.Ok? ==> c.1.value == NewSession(s.nextId, Normalize(hub))
                      && c.0.conn == Some(c.1.value) && c.0.connected)
      && (c.1.Err? ==> c.1.error == OpenFailed && c.0.conn.None? && !c.0.connected)
  {
  }

  /** `setListener` with no session fails and changes nothing. */
  lemma SetListenerWithoutConnection(s: State, ch: Channel, h: HandlerId)
    requires s.conn.None?
    ensures SetListener(s, ch, h) == (s, Err(NoConnectionListener))
  {
  }

  /** `setListener` records `h` as the one handler of `ch` (last write wins)
      and leaves the session delivering `ch` to `h` alone, exactly once: the
      transport saw `off(ch)` and then `on(ch, h)`. */
  lemma SetListenerLastWriteWins(s: State, ch: Channel, h: HandlerId)
    requires Valid(s) && s.conn.Some?
    ensures var (t, r) := SetListener(s, ch, h);
      && r.Ok? && Valid(t)
      && Entry(ch, h) in t.listeners
      && (forall e :: e in t.listeners && e.channel == ch ==> e.handler == h)
      && (forall e: Entry :: e.channel != ch ==> (e in t.listeners <==> e in s.listeners))
      && t.conn.Some? && t.conn.value.id == s.conn.value.id
      && Handlers(t.conn.value, ch) == [h]
      && (forall c :: c != ch ==> Handlers(t.conn.value, c) == Handlers(s.conn.value, c))
      && t.log == s.log + [Unbind(s.conn.value.id, ch), Bind(s.conn.value.id, ch, h)]
  {
    SetLastWriteWins(s.listeners, ch, h);
  }

  /** After `reattachListeners` every registered channel is bound exactly
      once, to its registered handler, and the transport saw an `off` before
      each `on`. */
  lemma ReattachExactlyOnce(s: State)
    requires Valid(s) && s.conn.Some?
    ensures var t := Reattach(s);
      && t.conn.Some? && t.conn.value.id == s.conn.value.id && t.conn.value.hub == s.conn.value.hub
      && (forall e :: e in s.listeners ==> Handlers(t.conn.value, e.channel) == [e.handler])
      && (forall c :: c !in Channels(s.listeners) ==> Handlers(t.conn.value, c) == Handlers(s.conn.value, c))
      && t.log == s.log + ReattachEvents(s.conn.value.id, s.listeners)
  {
    ReattachBindsOnce(s.conn.value, s.listeners);
  }

  /** `invokeFunction` never fails in another way than these two, and with
      no session it does not touch the transport. */
  lemma InvokeOutcomes(s: State, name: string, args: seq<Arg>)
    ensures var (t, r) := InvokeFunction(s, name, args);
      && (s.conn.None? ==> t == s && r == Err(NoConnectionInvoke))
      && (s.conn.Some? ==>
            && t.log == s.log + [Invoke(s.conn.value.id, name, args)]
            && (r.Ok? <==> TakeReply(s.env).0.Some?)
            && (r.Ok? ==> r.value == TakeReply(s.env).0.value)
            && (r.Err? ==> r.error == CallDropped))
  {
  }

  /** Without a hub name `attemptReconnect` makes no attempt. */
  lemma AttemptReconnectWithoutHub(s: State)
    requires !Truthy(s.hubName)
    ensures AttemptReconnect(s) == (s, false)
  {
  }

  /** The reconnection loop keeps the registry, the game key and the flags. */
  lemma {:induction false} ReconnectFrame(s: State)
    requires s.hubName.Some?
    ensures var r := ReconnectLoop(s);
      && r.0.listeners == s.listeners && r.0.gameKey == s.gameKey
      && r.0.reconnecting == s.reconnecting && r.0.disconnectTriggered == s.disconnectTriggered
    decreases MaxAttempts - s.attempts
  {
    if s.attempts < MaxAttempts {
      var c := LoopTurn(s);
      assert ReconnectLoop(s) == if c.1.Err? then ReconnectLoop(Retry(c.0))
                                 else (Adopt(c.0, c.1.value), true);
      if c.1.Err? {
        ReconnectFrame(Retry(c.0));
      }
    }
  }

  /** The reconnection loop makes at most `MaxAttempts` attempts, counts
      only the failed ones, and returns true, with a session, as soon as one
      connects. */
  lemma {:induction false} ReconnectCounter(s: State)
    requires s.hubName.Some? && s.attempts <= MaxAttempts
    ensures var r := ReconnectLoop(s);
      && s.attempts <= r.0.attempts <= MaxAttempts
      && (r.1 <==> r.0.attempts < MaxAttempts)
      && (r.1 ==> r.0.conn.Some?)
    decreases MaxAttempts - s.attempts
  {
    if s.attempts < MaxAttempts {
      var c := LoopTurn(s);
      assert ReconnectLoop(s) == if c.1.Err? then ReconnectLoop(Retry(c.0))
                                 else (Adopt(c.0, c.1.value), true);
      if c.1.Err? {
        ReconnectCounter(Retry(c.0));
      }
    }
  }

  /** A turn from an empty slot succeeds exactly when the next open does;
      after a failure the slot is still empty and the oracle has moved on by
      one open. */
  lemma TurnFromEmpty(s: State)
    requires s.hubName.Some? && s.conn.None? && s.attempts < MaxAttempts
    ensures var c := LoopTurn(s);
      && (c.1.Ok? <==> OpenSucceeds(s.env, 0))
      && (c.1.Err? ==> var n := Retry(c.0);
            && n.conn.None? && n.hubName.Some? && n.attempts == s.attempts + 1
            && n.env == TakeOpen(s.env).1
            && ReconnectLoop(s) == ReconnectLoop(n))
      && (c.1.Ok? ==> ReconnectLoop(s) == (Adopt(c.0, c.1.value), true) && c.0.attempts == s.attempts)
  {
    TakeOpenShifts(s.env, 0);
  }

  /** From an empty slot, as after `onclose`, the loop's outcome is decided
      by the transport alone: it succeeds on turn `j` exactly when open `j`
      is the first of the remaining opens to succeed, and it returns false
      exactly when none of the remaining turns' opens succeeds. */
  lemma {:induction false} ReconnectFollowsOpens(s: State)
    requires s.hubName.Some? && s.conn.None? && s.attempts <= MaxAttempts
    ensures var r := ReconnectLoop(s);
      && s.attempts <= r.0.attempts
      && (r.1 ==> OpenSucceeds(s.env, r.0.attempts - s.attempts))
      && LeadingFailures(s.env, r.0.attempts - s.attempts)
      && (r.1 <==> SomeOpenSucceeds(s.env, MaxAttempts - s.attempts))
    decreases MaxAttempts - s.attempts
  {
    if s.attempts < MaxAttempts {
      TurnFromEmpty(s);
      var c := LoopTurn(s);
      if c.1.Err? {
        var n := Retry(c.0);
        ReconnectFollowsOpens(n);
        var r := ReconnectLoop(n);
        FailedOpenShifts(s.env, r.0.attempts - n.attempts, MaxAttempts - n.attempts);
        if r.1 {
          TakeOpenShifts(s.env, r.0.attempts - n.attempts);
        }
      } else {
        assert SomeOpenSucceeds(s.env, MaxAttempts - s.attempts);
      }
    }
  }

  /** A successful loop leaves in the slot a session on the stored hub name
      (normalised, as `connect` stores it). When the loop started from an
      empty slot, as after `onclose`, that session is a new one with nothing
      bound on it. */
  lemma {:induction false} ReconnectLands(s: State)
    requires s.hubName.Some?
    ensures var r := ReconnectLoop(s);
      r.1 ==> && r.0.conn.Some? && r.0.conn.value.hub == Normalize(s.hubName.value)
              && r.0.hubName == Some(Normalize(s.hubName.value))
              && (s.conn.None? ==> forall c :: Handlers(r.0.conn.value, c) == [])
    decreases MaxAttempts - s.attempts
  {
    if s.attempts < MaxAttempts {
      var c := LoopTurn(s);
      assert ReconnectLoop(s) == if c.1.Err? then ReconnectLoop(Retry(c.0))
                                 else (Adopt(c.0, c.1.value), true);
      if c.1.Err? {
        assert Retry(c.0).conn.None? && Retry(c.0).hubName == Some(Normalize(s.hubName.value));
        ReconnectLands(Retry(c.0));
      }
    }
  }

  /** Before attempt `k` the loop requests a sleep of `1000 * 2^k` ms: the
      delays one episode adds are the schedule from the current attempt. */
  lemma {:induction false} DelaysFollowSchedule(s: State)
    requires s.hubName.Some? && s.attempts <= MaxAttempts
    ensures var r := ReconnectLoop(s);
      |s.delays| <= |r.0.delays| && r.0.delays == s.delays + Schedule(s.attempts, |r.0.delays| - |s.delays|)
    decreases MaxAttempts - s.attempts
  {
    if s.attempts < MaxAttempts {
      var c := LoopTurn(s);
      if c.1.Err? {
        var n := Retry(c.0);
        assert ReconnectLoop(s) == ReconnectLoop(n);
        DelaysFollowSchedule(n);
        var r := ReconnectLoop(n);
        ScheduleStep(s.delays, n.delays, r.0.delays, s.attempts, n.attempts);
      } else {
        var a := Adopt(c.0, c.1.value);
        assert ReconnectLoop(s) == (a, true);
        assert a.delays == s.delays + [Delay(s.attempts)];
        assert Schedule(s.attempts, 1) == [Delay(s.attempts)];
      }
    } else {
      assert Schedule(s.attempts, 0) == [];
    }
  }

  /** One delay is requested per turn: up to and including the successful
      one, or all the remaining turns. */
  lemma {:induction false} ReconnectTurns(s: State)
    requires s.hubName.Some? && s.attempts <= MaxAttempts
    ensures var r := ReconnectLoop(s);
      && (r.0.attempts < MaxAttempts ==> |r.0.delays| == |s.delays| + r.0.attempts - s.attempts + 1)
      && (r.0.attempts >= MaxAttempts ==> |r.0.delays| == |s.delays| + MaxAttempts - s.attempts)
    decreases MaxAttempts - s.attempts
  {
    if s.attempts < MaxAttempts {
      var c := LoopTurn(s);
      if c.1.Err? {
        var n := Retry(c.0);
        assert ReconnectLoop(s) == ReconnectLoop(n);
        ReconnectTurns(n);
      } else {
        assert ReconnectLoop(s) == (Adopt(c.0, c.1.value), true);
      }
    }
  }

  /** Before attempt `k` the loop requests a sleep of `1000 * 2^k` ms, so one
      episode requests the schedule from the current attempt up to the
      successful one, or up to the last one when every attempt fails. */
  lemma ReconnectSchedule(s: State)
    requires s.hubName.Some? && s.attempts <= MaxAttempts
    ensures var r := ReconnectLoop(s);
      && (r.0.attempts < MaxAttempts ==>
            s.attempts <= r.0.attempts
            && r.0.delays == s.delays + Schedule(s.attempts, r.0.attempts - s.attempts + 1))
      && (r.0.attempts >= MaxAttempts ==>
            r.0.delays == s.delays + Schedule(s.attempts, MaxAttempts - s.attempts))
  {
    ReconnectCounter(s);
    DelaysFollowSchedule(s);
    ReconnectTurns(s);
    var r := ReconnectLoop(s);
    if r.0.attempts < MaxAttempts {
      ScheduleCount(s.delays, r.0.delays, s.attempts, r.0.attempts - s.attempts + 1);
    } else {
      ScheduleCount(s.delays, r.0.delays, s.attempts, MaxAttempts - s.attempts);
    }
  }

  /** `handleConnectionLost` does nothing after a user-triggered disconnect
      or while a reconnection is under way. */
  lemma HandleLostGuards(s: State, pseudoId: string)
    requires s.disconnectTriggered || s.reconnecting
    ensures HandleConnectionLost(s, pseudoId) == s
  {
  }

  /** When every attempt fails (or there is no hub name) the controller gives
      up: all refs are cleared, the indicator closes, the user is sent home,
      and with a hub name all five back-off delays were requested. */
  lemma HandleLostGivesUp(s: State, pseudoId: string)
    requires !s.disconnectTriggered && !s.reconnecting
    requires !AttemptReconnect(BeginRecovery(s)).1
    ensures var t := HandleConnectionLost(s, pseudoId);
      && Cleared(t)
      && t.log == AttemptReconnect(BeginRecovery(s)).0.log + [CloseLoading, GoHome]
      && (Truthy(s.hubName) ==> t.delays == s.delays + [1000, 2000, 4000, 8000, 16000])
      && (!Truthy(s.hubName) ==> t.delays == s.delays)
  {
    if Truthy(s.hubName) {
      ReconnectCounter(BeginRecovery(s));
      ReconnectSchedule(BeginRecovery(s));
      FullSchedule();
    }
  }

  /** A recovery on attempt `k` (counting from 0) slept through the first
      `k + 1` delays of the full schedule and no others. */
  lemma HandleLostWaits(s: State)
    requires !s.disconnectTriggered && !s.reconnecting
    requires AttemptReconnect(BeginRecovery(s)).1
    ensures var m := AttemptReconnect(BeginRecovery(s)).0;
      && m.attempts < MaxAttempts
      && m.delays == s.delays + [1000, 2000, 4000, 8000, 16000][..m.attempts + 1]
  {
    var b := BeginRecovery(s);
    ReconnectCounter(b);
    ReconnectSchedule(b);
    SchedulePrefix(AttemptReconnect(b).0.attempts + 1);
  }

  /** Whatever the counter, the loop never retries without sleeping at
      least one second first. */
  lemma EveryTurnWaits(s: State)
    requires s.hubName.Some? && s.attempts <= MaxAttempts
    ensures var r := ReconnectLoop(s);
      forall i :: |s.delays| <= i < |r.0.delays| ==> r.0.delays[i] >= BaseDelay
  {
    DelaysFollowSchedule(s);
    ScheduleWaits(s.attempts, |ReconnectLoop(s).0.delays| - |s.delays|);
  }

  /** On recovery the listeners are re-attached, exactly once each, before
      `ConnectToGroup(gameKey, pseudoId, true)` is invoked on the new session,
      which is a session on the stored hub name; after `onclose` it carries
      no binding for an unregistered channel. If that re-join fails the
      session is stopped and every ref cleared. */
  lemma HandleLostRecovers(s: State, pseudoId: string)
    requires Valid(s) && !s.disconnectTriggered && !s.reconnecting
    requires AttemptReconnect(BeginRecovery(s)).1
    ensures var m := AttemptReconnect(BeginRecovery(s)).0;
      && m.conn.Some?
      && var id := m.conn.value.id;
         var t := HandleConnectionLost(s, pseudoId);
         var rejoined := TakeReply(m.env).0.Some?;
         && t.log == m.log + [CloseLoading] + ReattachEvents(id, s.listeners)
                       + [Invoke(id, RejoinCall, RejoinArgs(s.gameKey, pseudoId))]
                       + (if rejoined then [] else [Stop(id), CloseLoading, GoHome])
         && (rejoined ==>
               && t.connected && t.attempts == 0 && !t.reconnecting
               && t.conn.Some? && t.conn.value.id == id
               && s.hubName.Some? && t.conn.value.hub == Normalize(s.hubName.value)
               && (forall e :: e in s.listeners ==> Handlers(t.conn.value, e.channel) == [e.handler])
               && (s.conn.None? ==>
                     forall c :: c !in Channels(s.listeners) ==> Handlers(t.conn.value, c) == []))
         && (!rejoined ==> Cleared(t))
  {
    var b := BeginRecovery(s);
    ReconnectCounter(b);
    ReconnectFrame(b);
    ReconnectLands(b);
    var m := AttemptReconnect(b).0;
    var s3 := Emit(m, [CloseLoading]).(connected := true, attempts := 0, reconnecting := false);
    ReattachExactlyOnce(s3);
  }

  /** `disconnect` ends with every ref at its default on every path, stops
      the session if there is one, and fails only when that `stop` throws. */
  lemma DisconnectResets(s: State)
    ensures var (t, r) := Disconnect(s);
      && Cleared(t)
      && t.log == s.log + (if s.conn.Some? then [Stop(s.conn.value.id)] else [])
      && (r.Err? <==> s.conn.Some? && !TakeStop(s.env).0)
      && (r.Err? ==> r.error == CloseFailed)
  {
  }

  /** `disconnect` raises `disconnectTriggered` before it stops the
      session, so a close reported while `stop` is awaited starts no
      reconnection: no sleep, no transport call, no indicator. A close
      reported after `disconnect` has returned finds every ref cleared and
      changes nothing. */
  lemma DisconnectSuppressesReconnect(s: State, pseudoId: string)
    ensures var t := OnClose(s.(disconnectTriggered := true), pseudoId);
      t.log == s.log && t.env == s.env && t.nextId == s.nextId && t.delays == s.delays
    ensures OnClose(Disconnect(s).0, pseudoId) == Disconnect(s).0
  {
  }

  /** `debugDisconnect` stops a live session and keeps every ref, so the
      close it causes passes the observer's guard and starts a loss episode
      exactly as an unexpected close does. */
  lemma DebugDisconnectStartsRecovery(s: State, pseudoId: string)
    requires s.conn.Some? && s.connected && !s.reconnecting && !s.disconnectTriggered
    ensures var d := DebugDisconnect(s);
      && d.log == s.log + [Stop(s.conn.value.id)]
      && d.hubName == s.hubName && d.listeners == s.listeners && d.gameKey == s.gameKey
      && !d.disconnectTriggered && !d.reconnecting
      && OnClose(d, pseudoId) == HandleConnectionLost(d.(conn := None), pseudoId)
  {
  }

  /** When the re-join fails, `handleConnectionLost` stops the new session
      while `connected` is up and `isReconnecting` is down, so the close
      that `stop` causes passes the observer's guard and starts a second
      loss episode on the stored hub name. */
  lemma RejoinFailureReentersLoss(s: State, pseudoId: string)
    requires !s.disconnectTriggered && !s.reconnecting
    requires AttemptReconnect(BeginRecovery(s)).1
    ensures var m := AttemptReconnect(BeginRecovery(s)).0;
      var s4 := Reattach(Emit(m, [CloseLoading]).(connected := true, attempts := 0, reconnecting := false));
      var i := InvokeFunction(s4, RejoinCall, RejoinArgs(s4.gameKey, pseudoId));
      i.1.Err? ==>
        var u := StopQuietly(i.0);
        && s4.conn.Some? && u.log == i.0.log + [Stop(s4.conn.value.id)]
        && u.connected && !u.reconnecting && !u.disconnectTriggered
        && s.hubName.Some? && u.hubName == Some(Normalize(s.hubName.value))
        && OnClose(u, pseudoId) == HandleConnectionLost(u.(conn := None), pseudoId)
  {
    var b := BeginRecovery(s);
    ReconnectCounter(b);
    ReconnectFrame(b);
    ReconnectLands(b);
  }

  /** A close reported once everything is cleared leaves everything cleared. */
  lemma OnCloseWhenCleared(s: State, pseudoId: string)
    requires Cleared(s)
    ensures OnClose(s, pseudoId) == s
  {
  }

  /** Every operation keeps the registry's channels distinct, so the lemmas
      that assume `Valid` apply again after each of them, a second loss of
      the connection included. */
  lemma ValidPreserved(s: State, hub: string, ch: Channel, h: HandlerId, name: string,
                       args: seq<Arg>, key: string, pseudoId: string)
    requires Valid(s)
    ensures Valid(SyncGameKey(s, key))
    ensures Valid(Connect(s, hub).0) && Valid(Disconnect(s).0) && Valid(DebugDisconnect(s))
    ensures Valid(SetListener(s, ch, h).0) && Valid(InvokeFunction(s, name, args).0)
    ensures Valid(HandleConnectionLost(s, pseudoId)) && Valid(OnClose(s, pseudoId))
  {
    SetLastWriteWins(s.listeners, ch, h);
    LossKeepsValid(s, pseudoId);
    LossKeepsValid(s.(conn := None), pseudoId);
  }

  /** A loss of the connection, recovered or given up, keeps `Valid`. */
  lemma LossKeepsValid(s: State, pseudoId: string)
    requires Valid(s)
    ensures Valid(HandleConnectionLost(s, pseudoId))
  {
    if s.hubName.Some? {
      ReconnectFrame(BeginRecovery(s));
    }
  }

  /** A live session on "spin" with one listener, whose next two opens fail
      and the third succeeds, and whose re-join is accepted. */
  function ScenarioStart(): State {
    State(Some(Session(0, "spin", map["state" := [7]])), true, false,
          Some("spin"), 0, false, [Entry("state", 7)], "ABCD", 1,
          Env([false, false, true], [Some(0)], []), [], [])
  }

  /** In that scenario the loop fails twice, waiting 1s and 2s, then waits 4s
      and keeps session 3. */
  lemma RecoveryScenarioLoop()
    ensures ReconnectLoop(BeginRecovery(ScenarioStart().(conn := None)))
         == (State(Some(NewSession(3, "spin")), true, false, Some("spin"), 2, true,
                   [Entry("state", 7)], "ABCD", 4, Env([], [Some(0)], []),
                   [ShowLoading, Open(1, "spin"), Open(2, "spin"), Open(3, "spin")],
                   [1000, 2000, 4000]),
             true)
  {
    var b := BeginRecovery(ScenarioStart().(conn := None));
    var c1 := LoopTurn(b);
    var n1 := Retry(c1.0);
    assert ReconnectLoop(b) == ReconnectLoop(n1);
    var c2 := LoopTurn(n1);
    var n2 := Retry(c2.0);
    assert ReconnectLoop(n1) == ReconnectLoop(n2);
    var c3 := LoopTurn(n2);
    assert c3.1 == Ok(NewSession(3, "spin"));
    var m := Adopt(c3.0, c3.1.value);
    assert ReconnectLoop(n2) == (m, true);
    assert m.log == [ShowLoading, Open(1, "spin"), Open(2, "spin"), Open(3, "spin")];
    assert m.delays == [1000, 2000, 4000];
    assert m.env == Env([], [Some(0)], []);
  }

  /** The whole recovery in that scenario: delays 1s, 2s and 4s, the counter
      back at zero, the flag down, and the listener bound once on the new
      session, before the re-join is invoked on it. */
  lemma RecoveryScenario()
    ensures var t := OnClose(ScenarioStart(), "u1");
      && t.delays == [1000, 2000, 4000]
      && t.attempts == 0 && !t.reconnecting && t.connected
      && t.conn.Some? && t.conn.value.id == 3 && Handlers(t.conn.value, "state") == [7]
      && t.log == [ShowLoading, Open(1, "spin"), Open(2, "spin"), Open(3, "spin"), CloseLoading,
                   Unbind(3, "state"), Bind(3, "state", 7), Invoke(3, RejoinCall, RejoinArgs("ABCD", "u1"))]
  {
    RecoveryScenarioLoop();
    var e := Entry("state", 7);
    assert ReattachEvents(3, [e]) == RebindEvents(3, e) by {
      assert [e][..0] == [];
    }
  }
}
