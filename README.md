# tero.app hub connection controller, in Dafny

This project models the core of the tero.app party-game client. That core is its real-time hub connection controller, which exists in two diverging copies:

- `src/play/context/HubConnectionProvider.tsx`, the "play" copy;
- `src/Common/context/HubConnectionProvider.tsx`, the "Common" copy.

Each copy owns these refs:

- one session slot, tagged with a hub name or address;
- the `connected` and `isReconnecting` flags, plus `disconnectTriggered` in the play copy;
- a reconnect attempt counter;
- a listener registry (`Map<channel, handler>`).

It offers `connect`, `disconnect`, `debugDisconnect`, `setListener` and `invokeFunction`. A close observer runs a reconnection loop with bounded exponential back-off. The loop re-attaches the listeners, re-joins the group with `ConnectToGroup(gameKey, pseudoId, true)`, or gives up and clears everything.

The project also models three smaller parts of the client. The first two are pure mappings and guard chains; the create handler is a screen with state:

- the entry-mode / screen mappings of the spin and imposter game roots;
- the change-password guard chain;
- the spin game's create handler, with its `loading` latch and its theme effect.

Structure:

- `Transport`: the session and the transport.
  - A session is a value: an id, the hub it is tagged with, and the handlers bound on each channel.
  - `on` appends a handler to a channel; `off` empties the channel.
  - What `start`, `invoke` and `stop` do comes from an oracle (`Env`), consumed from the front. An exhausted stream fails.
  - Every transport call and every user-interface effect (loading indicator, navigation home, `setIsHost(false)`) is appended to an event log.
  - Requested back-off sleeps are recorded in a separate `delays` list.
- `Listeners`: the registry. A JavaScript `Map` iterates in insertion order and keeps the position of a re-set key, so the registry is a sequence of entries with distinct channels.
- `Backoff`: the delay policy `1000 * 2^k` ms and the schedule of one episode.
- `PlayHub` and `CommonHub`: each copy as a state machine. There is one function per operation over a `State` record that mirrors the refs. Each awaited call is one step, and the lemmas state the properties.
- `PlayHubProvider` and `CommonHubProvider`: each copy as a class whose fields are the refs.
  - Each method performs the source's ref updates one by one: the `while` loop of `attemptReconnect`, and the `forEach` of `reattachListeners` as a loop over the registry.
  - Each method is proved to end in the state the state-machine function describes. Every property proved of the functions therefore holds for the methods.
- `SpinGame`, `ImposterGame` and `GameEntry`: the game roots.
- `ChangePassword`: the change-password handler.
- `SpinCreate`: the spin create screen.

Behaviour of the code that the model keeps, and that is easy to misread:

- Both copies' `disconnect` return `Err("Failed to close down websocket")` when `stop` throws (src/play/context/HubConnectionProvider.tsx:218-221, src/Common/context/HubConnectionProvider.tsx:187-190).
- `connect` leaves the attempt counter alone; only `handleConnectionLost` and `clearValues` reset it (src/play/context/HubConnectionProvider.tsx:79, 99, 285-294).
- The Common copy has no user-initiated-disconnect flag. Its `disconnect` suppresses reconnection by lowering `connected` before `stop` (src/Common/context/HubConnectionProvider.tsx:176-182).
- The play copy re-attaches listeners before the re-join (src/play/context/HubConnectionProvider.tsx:102-104). The Common copy re-joins first, inside `attemptReconnect` (src/Common/context/HubConnectionProvider.tsx:115-122).
- When the re-join fails, the play copy stops the new session (src/play/context/HubConnectionProvider.tsx:105-109). The Common copy returns false without `stop` (src/Common/context/HubConnectionProvider.tsx:116-119).

## Model

| member | source | states |
|---|---|---|
| Transport.On | src/play/context/HubConnectionProvider.tsx:249 | `connection.on(ch, fn)` adds `fn` as one more delivery target of `ch` and leaves every other channel and the session identity alone |
| Transport.Off | src/play/context/HubConnectionProvider.tsx:248 | `connection.off(ch)` removes every handler of `ch` and leaves every other channel alone |
| Transport.NewSession | src/play/context/HubConnectionProvider.tsx:177-182 | a freshly built session has no handler on any channel |
| Listeners.SetLastWriteWins | src/play/context/HubConnectionProvider.tsx:247 | `map.set(ch, fn)` keeps channels distinct, binds `ch` to `fn` and nothing else, keeps every other entry, and adds `ch` to the key set |
| Listeners.SetReplaces | src/play/context/HubConnectionProvider.tsx:247 | `set` on a registered channel replaces its entry in place: channels stay distinct, the key set is unchanged, `ch` maps to `fn` only and every other entry is kept |
| Listeners.SetAppends | src/play/context/HubConnectionProvider.tsx:247 | `set` on a new channel appends one entry: channels stay distinct, the key set gains `ch`, and every other entry is kept |
| Listeners.Rebind | src/play/context/HubConnectionProvider.tsx:248-249 | binding one entry keeps the session's id and hub tag |
| Listeners.RebindHandlers | src/play/context/HubConnectionProvider.tsx:248-249 | `off` then `on` leaves exactly `[fn]` on the channel and every other channel as it was |
| Listeners.ReattachAll | src/play/context/HubConnectionProvider.tsx:279-282 | re-attaching keeps the session's id and hub tag |
| Listeners.ReattachBindsRegistered | src/play/context/HubConnectionProvider.tsx:279-282 | with distinct channels, every registered channel ends with exactly its registered handler |
| Listeners.ReattachLeavesOthers | src/play/context/HubConnectionProvider.tsx:279-282 | a channel that is not registered keeps the handlers it had |
| Listeners.ReattachBindsOnce | src/play/context/HubConnectionProvider.tsx:279-282 | re-attaching the registry keeps the session identity, leaves exactly the one registered handler on every registered channel, and leaves unregistered channels untouched |
| Listeners.ReattachIdempotent | src/Common/context/HubConnectionProvider.tsx:251-254 | re-attaching twice delivers exactly as re-attaching once: no duplicate handlers pile up across reconnections |
| Listeners.ReattachEventsNoStop | src/Common/context/HubConnectionProvider.tsx:251-254 | re-attachment only unbinds and binds; it never stops a session |
| Backoff.DelayDoubles | src/play/context/HubConnectionProvider.tsx:127 | the first delay is the 1000 ms base and each further one doubles the previous one |
| Backoff.Schedule | src/play/context/HubConnectionProvider.tsx:126-131 | the schedule of `n` attempts has exactly `n` delays |
| Backoff.ScheduleAt | src/play/context/HubConnectionProvider.tsx:127 | delay number `i` of a schedule starting at attempt `from` is `1000 * 2^(from + i)` |
| Backoff.FullSchedule | src/play/context/HubConnectionProvider.tsx:118-131 | one full episode of five attempts requests 1000, 2000, 4000, 8000 and 16000 ms |
| Backoff.ScheduleSplit | src/play/context/HubConnectionProvider.tsx:126-131 | the schedule of the first `m` attempts followed by that of the rest is the whole schedule |
| Backoff.ScheduleWaits | src/play/context/HubConnectionProvider.tsx:126-131 | every delay a schedule requests is at least the one-second base delay |
| Backoff.SchedulePrefix | src/play/context/HubConnectionProvider.tsx:118-131 | the first `n` attempts of an episode, `n` at most five, request exactly the first `n` of 1000, 2000, 4000, 8000, 16000 ms |
| PlayHub.Initial | src/play/context/HubConnectionProvider.tsx:36-43 | the refs start at their defaults with an empty log and no delays |
| PlayHub.ClearValues | src/play/context/HubConnectionProvider.tsx:285-294 | `clearValues` resets the slot, counter, flags, hub name, registry, `disconnectTriggered` and game key, and touches nothing of the transport |
| PlayHub.OpenSession | src/play/context/HubConnectionProvider.tsx:177-203 | building and starting a session changes neither the counter, the flags, the registry nor the stored hub name |
| PlayHub.StopOld | src/play/context/HubConnectionProvider.tsx:164-170 | closing the old session on a switch changes neither the counter, the flags, the registry nor the hub name |
| PlayHub.Connect | src/play/context/HubConnectionProvider.tsx:150-204 | after `connect(hub)` the stored hub name is the normalised name, and the counter, flags and registry are as before |
| PlayHub.InvokeFunction | src/play/context/HubConnectionProvider.tsx:258-270 | `invokeFunction` leaves the slot, the hub name, `connected` and every control ref as they were |
| PlayHub.LoopTurn | src/play/context/HubConnectionProvider.tsx:127-131 | one loop turn records the delay of the current attempt and leaves the counter, flags and registry alone |
| PlayHub.GiveUp | src/play/context/HubConnectionProvider.tsx:89-94 | giving up clears every ref, then closes the indicator and goes home |
| PlayHub.PollFires | src/play/context/HubConnectionProvider.tsx:55-61 | the poll's call of `handleConnectionLost` can never happen |
| PlayHub.NormalizeAliases | src/play/context/HubConnectionProvider.tsx:153-155 | exactly "roulette" and "duel" are renamed, both to "spin"; every other name is kept; normalising is idempotent |
| PlayHub.ConnectSameHub | src/play/context/HubConnectionProvider.tsx:158-174 | connecting to the hub the live session is tagged with returns that session and only stores the name: nothing is opened, stopped or logged |
| PlayHub.ConnectTwice | src/play/context/HubConnectionProvider.tsx:150-204 | a second `connect` to the same hub after a successful one changes nothing and returns the same session |
| PlayHub.ConnectSwitchesHub | src/play/context/HubConnectionProvider.tsx:161-170 | connecting to another hub stops the old session, then opens session `nextId` tagged with the new name. It fails only when that `start` fails, never because of the conflict. On success the slot holds it and `connected` is set; on failure the slot is empty and `connected` is false |
| PlayHub.ConnectFresh | src/play/context/HubConnectionProvider.tsx:177-203 | with an empty slot, `connect` opens one session tagged with the normalised name. It succeeds iff `start` does. On success it returns that fresh session in the slot with `connected` set; otherwise it returns the open-failure message with the slot empty and `connected` false |
| PlayHub.SetListenerWithoutConnection | src/play/context/HubConnectionProvider.tsx:243-245 | with no session, `setListener` returns the no-connection error and changes nothing |
| PlayHub.SetListenerLastWriteWins | src/play/context/HubConnectionProvider.tsx:241-256 | with a session, `setListener` succeeds. The registry maps the channel to the new handler only and keeps every other entry. The session holds exactly `[fn]` on that channel and every other channel as before |
| PlayHub.ReattachExactlyOnce | src/play/context/HubConnectionProvider.tsx:272-283 | `reattachListeners` keeps the session identity and leaves exactly one binding, the registered handler, per registered channel. The transport saw an `off` before each `on`, in registry order |
| PlayHub.InvokeOutcomes | src/play/context/HubConnectionProvider.tsx:258-270 | without a session the state is unchanged and the result is "Ingen tilkobling opprettet.". Otherwise one invoke is logged and the result is the reply iff the invoke answers; if it throws the result is "Tilkoblingen ble butt" |
| PlayHub.AttemptReconnectWithoutHub | src/play/context/HubConnectionProvider.tsx:121-124 | without a (non-empty) hub name `attemptReconnect` makes no attempt and returns false |
| PlayHub.ReconnectFrame | src/play/context/HubConnectionProvider.tsx:126-144 | the loop keeps the registry, the game key, `isReconnecting` and `disconnectTriggered` |
| PlayHub.ReconnectCounter | src/play/context/HubConnectionProvider.tsx:126-147 | the counter only grows, and only on failed attempts, up to at most 5. The loop returns true iff fewer than five attempts failed, and then with a session in the slot; otherwise the counter is exactly 5. That the failures are the failed `start` outcomes is `PlayHub.ReconnectFollowsOpens` |
| PlayHub.TurnFromEmpty | src/play/context/HubConnectionProvider.tsx:126-137 | a loop turn from an empty slot succeeds exactly when the next `start` does; after a failure the slot is still empty, the counter is one higher and the next turn sees the following `start` outcome |
| PlayHub.ReconnectFollowsOpens | src/play/context/HubConnectionProvider.tsx:126-144 | from an empty slot the loop succeeds on turn `j` exactly when `start` number `j` is the first of the remaining ones to succeed, and returns false exactly when none of the remaining turns' `start` succeeds |
| PlayHub.ReconnectSchedule | src/play/context/HubConnectionProvider.tsx:126-137 | before attempt `k` the loop requests `1000 * 2^k` ms. The delays added run from the current attempt up to the successful one, or up to the fifth when every attempt fails |
| PlayHub.ReconnectLands | src/play/context/HubConnectionProvider.tsx:126-137 | when the loop succeeds the stored hub name is the normalised one and the slot holds a session tagged with it, and, when the loop began with an empty slot, that session has no binding on any channel |
| PlayHub.HandleLostWaits | src/play/context/HubConnectionProvider.tsx:117-137 | a recovery on attempt `k` has slept through exactly the first `k + 1` delays of 1000, 2000, 4000, 8000, 16000 ms, with `k` below five |
| PlayHub.EveryTurnWaits | src/play/context/HubConnectionProvider.tsx:126-131 | whatever the counter, every delay the loop requests is at least one second |
| PlayHub.DelaysFollowSchedule | src/play/context/HubConnectionProvider.tsx:126-131 | the delays one episode adds are the back-off schedule from the current attempt on, one per turn taken |
| PlayHub.ReconnectTurns | src/play/context/HubConnectionProvider.tsx:126-137 | one delay is requested per turn: for each failed attempt and for the successful one, or for every remaining attempt when all fail |
| PlayHub.HandleLostGuards | src/play/context/HubConnectionProvider.tsx:68-76 | `handleConnectionLost` is a no-op after a user-triggered disconnect or while reconnecting |
| PlayHub.HandleLostGivesUp | src/play/context/HubConnectionProvider.tsx:87-95 | when the loop fails, every ref is cleared and the indicator closes before the user is sent home. With a hub name, all five delays 1s–16s were requested |
| PlayHub.HandleLostRecovers | src/play/context/HubConnectionProvider.tsx:97-114 | on recovery the log is exactly: indicator closed, listeners re-attached, then `ConnectToGroup(gameKey, pseudoId, true)` on the new session. If the re-join is answered, `connected` is on, the counter 0, the flag down, and each listener is bound once on the new session. Otherwise the new session is stopped, everything cleared, the indicator closed and the user sent home |
| PlayHub.DisconnectResets | src/play/context/HubConnectionProvider.tsx:206-223 | `disconnect` ends with every ref at its default on every path, stops the session iff there is one, and fails, with "Failed to close down websocket", iff that `stop` throws |
| PlayHub.DisconnectSuppressesReconnect | src/play/context/HubConnectionProvider.tsx:206-217 | a close reported while `disconnect` awaits `stop`, with `disconnectTriggered` raised, requests no sleep, calls nothing on the transport and logs nothing. A close reported after `disconnect` returns changes nothing |
| PlayHub.OnCloseWhenCleared | src/play/context/HubConnectionProvider.tsx:185-193 | a close reported when every ref is at its default leaves them so |
| PlayHub.DebugDisconnectStartsRecovery | src/play/context/HubConnectionProvider.tsx:185-190 | `debugDisconnect` stops the live session and keeps every ref, so the close it causes starts `handleConnectionLost` exactly as an unexpected close does (lines 225-239) |
| PlayHub.RejoinFailureReentersLoss | src/play/context/HubConnectionProvider.tsx:98-109 | when the re-join fails, the `stop` of the new session happens with `connected` up and the reconnect flags down, so its close starts a second loss episode on the stored hub name |
| PlayHub.ValidPreserved | src/play/context/HubConnectionProvider.tsx:150-294 | `connect`, `disconnect`, the debug disconnect, `setListener`, `invokeFunction`, the game-key effect, `handleConnectionLost` and `onclose` all keep the registry's channels distinct, so the exactly-once lemmas apply again after a second loss |
| PlayHub.LossKeepsValid | src/play/context/HubConnectionProvider.tsx:67-115 | a loss of the connection, recovered or given up, keeps the registry's channels distinct |
| PlayHub.RecoveryScenarioLoop | src/play/context/HubConnectionProvider.tsx:126-144 | in that scenario the loop fails twice, requests 1s, 2s and 4s, and keeps session 3 with the counter at 2 and everything else as the recovery began |
| PlayHub.RecoveryScenario | src/play/context/HubConnectionProvider.tsx:67-148 | a live session on "spin" closes; two opens fail and the third succeeds. The delays are 1s, 2s, 4s; the counter is back at 0 and the flag down; the listener is bound once on session 3 before the re-join is invoked |
| PlayHubProvider.HubConnectionProvider.constructor | src/play/context/HubConnectionProvider.tsx:36-43 | the refs start as `PlayHub.Initial` |
| PlayHubProvider.HubConnectionProvider.SyncGameKey | src/play/context/HubConnectionProvider.tsx:50-52 | the effect copies the session's game key into the ref and changes nothing else |
| PlayHubProvider.HubConnectionProvider.ClearValues | src/play/context/HubConnectionProvider.tsx:285-294 | the refs end as `PlayHub.ClearValues` of their old values |
| PlayHubProvider.HubConnectionProvider.StopOld | src/play/context/HubConnectionProvider.tsx:164-170 | the refs end as `PlayHub.StopOld` of their old values |
| PlayHubProvider.HubConnectionProvider.OpenSession | src/play/context/HubConnectionProvider.tsx:177-203 | refs and result are `PlayHub.OpenSession` of the old refs |
| PlayHubProvider.HubConnectionProvider.Connect | src/play/context/HubConnectionProvider.tsx:150-204 | refs and result are `PlayHub.Connect` of the old refs |
| PlayHubProvider.HubConnectionProvider.Disconnect | src/play/context/HubConnectionProvider.tsx:206-223 | refs and result are `PlayHub.Disconnect` of the old refs |
| PlayHubProvider.HubConnectionProvider.DebugDisconnect | src/play/context/HubConnectionProvider.tsx:225-239 | the refs end as `PlayHub.DebugDisconnect`: the session is stopped and every ref kept |
| PlayHubProvider.HubConnectionProvider.RebindChannel | src/play/context/HubConnectionProvider.tsx:248-249 | the `off` and `on` calls leave the slot as `Listeners.Rebind` of the old session and log the `off` before the `on` |
| PlayHubProvider.HubConnectionProvider.SetListener | src/play/context/HubConnectionProvider.tsx:241-256 | refs and result are `PlayHub.SetListener` of the old refs |
| PlayHubProvider.HubConnectionProvider.InvokeFunction | src/play/context/HubConnectionProvider.tsx:258-270 | refs and result are `PlayHub.InvokeFunction` of the old refs |
| PlayHubProvider.HubConnectionProvider.ReattachLoop | src/play/context/HubConnectionProvider.tsx:279-282 | the `forEach` leaves the slot as `Listeners.ReattachAll` of the registry and logs one `off`/`on` pair per entry, in registry order |
| PlayHubProvider.HubConnectionProvider.ReattachListeners | src/play/context/HubConnectionProvider.tsx:272-283 | the `forEach` loop ends in `PlayHub.Reattach` of the old refs |
| PlayHubProvider.HubConnectionProvider.LoopTurn | src/play/context/HubConnectionProvider.tsx:127-131 | refs and result are `PlayHub.LoopTurn` of the old refs |
| PlayHubProvider.HubConnectionProvider.LoopIteration | src/play/context/HubConnectionProvider.tsx:126-144 | one pass of the loop body. On success the refs are the final state of `PlayHub.ReconnectLoop` from the old refs. On failure the counter has grown by one and the rest of the loop ends as the whole loop would have |
| PlayHubProvider.HubConnectionProvider.AttemptReconnect | src/play/context/HubConnectionProvider.tsx:117-148 | the `while` loop ends in `PlayHub.AttemptReconnect` of the old refs |
| PlayHubProvider.HubConnectionProvider.StopQuietly | src/play/context/HubConnectionProvider.tsx:107-109 | the refs end as `PlayHub.StopQuietly` of their old values |
| PlayHubProvider.HubConnectionProvider.GiveUp | src/play/context/HubConnectionProvider.tsx:110-113 | the refs end as `PlayHub.GiveUp` of their old values |
| PlayHubProvider.HubConnectionProvider.HandleConnectionLost | src/play/context/HubConnectionProvider.tsx:67-115 | the refs end as `PlayHub.HandleConnectionLost` of their old values |
| PlayHubProvider.HubConnectionProvider.OnClose | src/play/context/HubConnectionProvider.tsx:185-193 | the refs end as `PlayHub.OnClose` of their old values |
| PlayHubProvider.HubConnectionProvider.PollTick | src/play/context/HubConnectionProvider.tsx:55-61 | a poll tick never calls `handleConnectionLost` |
| CommonHub.Initial | src/Common/context/HubConnectionProvider.tsx:37-42 | the refs start at their defaults with an empty log and no delays |
| CommonHub.ClearValues | src/Common/context/HubConnectionProvider.tsx:257-264 | `clearValues` empties the slot, counter, flags, address and registry, and touches nothing of the transport |
| CommonHub.OpenSession | src/Common/context/HubConnectionProvider.tsx:145-171 | building and starting a session changes neither the counter, the flags, the registry nor the stored address |
| CommonHub.Connect | src/Common/context/HubConnectionProvider.tsx:131-172 | after `connect(address)` the stored address is `address` on every path, and the counter, flags and registry are as before |
| CommonHub.InvokeFunction | src/Common/context/HubConnectionProvider.tsx:230-242 | `invokeFunction` leaves the slot, the address, `connected` and every control ref as they were |
| CommonHub.LoopTurn | src/Common/context/HubConnectionProvider.tsx:103-107 | one loop turn records the delay of the current attempt and keeps the address, counter, flag and registry |
| CommonHub.PollFires | src/Common/context/HubConnectionProvider.tsx:50-57 | the poll's call of `handleConnectionLost` can never happen |
| CommonHub.ConnectSameAddress | src/Common/context/HubConnectionProvider.tsx:134-143 | connecting to the address of the open session returns it and only stores the address |
| CommonHub.ConnectConflict | src/Common/context/HubConnectionProvider.tsx:133-140 | connecting elsewhere while a session is open returns "Finnes allerede en åpen socket til feil hub. (HubConnectionProvider)". The slot, the flags and the transport are untouched, but the stored address is already the new one |
| CommonHub.ConnectTwice | src/Common/context/HubConnectionProvider.tsx:131-172 | a second `connect` to the same address after a successful one changes nothing and returns the same session |
| CommonHub.ConnectFresh | src/Common/context/HubConnectionProvider.tsx:145-171 | with an empty slot, `connect` opens one session tagged with the address. It succeeds iff `start` does. On success the fresh session is in the slot and `connected` is set; on failure the open-failure message is returned and `connected` is false |
| CommonHub.SetListenerWithoutConnection | src/Common/context/HubConnectionProvider.tsx:212-214 | with no session, `setListener` returns the no-connection error and changes nothing |
| CommonHub.SetListenerLastWriteWins | src/Common/context/HubConnectionProvider.tsx:210-228 | with a session, the registry maps the channel to the new handler only and keeps the other entries. The session holds exactly `[fn]` on that channel |
| CommonHub.InvokeOutcomes | src/Common/context/HubConnectionProvider.tsx:230-242 | without a session nothing changes and the result is "Ingen tilkobling opprettet.". Otherwise one invoke is logged and the result is the reply iff it answers, else "Tilkoblingen ble butt" |
| CommonHub.ReattachExactlyOnce | src/Common/context/HubConnectionProvider.tsx:244-255 | `reattachListeners` leaves exactly one binding, the registered handler, per registered channel, with an `off` before each `on` |
| CommonHub.LoopTurnNoStop | src/Common/context/HubConnectionProvider.tsx:131-172 | `connect` only ever opens; it never stops a session |
| CommonHub.RejoinNoStop | src/Common/context/HubConnectionProvider.tsx:115-123 | the re-join step logs the call and the re-attachment only, never a `stop`, and keeps the registry |
| CommonHub.ReconnectFrame | src/Common/context/HubConnectionProvider.tsx:102-125 | the loop keeps the registry and `isReconnecting`, and never stops a session: a session whose re-join fails is abandoned, not closed |
| CommonHub.RejoinFailureEndsLoop | src/Common/context/HubConnectionProvider.tsx:115-119 | when the transport reconnects but `ConnectToGroup` fails, the loop returns false at once. The counter is unchanged, only that one delay was added, and the new session is left in the slot |
| CommonHub.ReconnectCounter | src/Common/context/HubConnectionProvider.tsx:102-128 | the counter never goes down and stays at most 5. True is returned only with a session in the slot and fewer than five failures. A false result before five failures was caused by a refused re-join, which is the last logged event. That the counter grows exactly on failed opens is `CommonHub.ReconnectFollowsOpens` |
| CommonHub.TurnFromEmpty | src/Common/context/HubConnectionProvider.tsx:102-113 | a loop turn from an empty slot reaches the re-join exactly when the next `start` succeeds, with the counter unchanged; after a failure the slot is still empty, the counter is one higher and the next turn sees the following `start` outcome |
| CommonHub.ReconnectFollowsOpens | src/Common/context/HubConnectionProvider.tsx:102-113 | from an empty slot, every open before the loop's last turn failed, the open of that turn succeeded when the counter ends below 5, and the counter ends below 5 exactly when one of the remaining turns' `start` succeeds |
| CommonHub.ReconnectSchedule | src/Common/context/HubConnectionProvider.tsx:102-113 | before attempt `k` the loop requests `1000 * 2^k` ms. The delays added run from the current attempt up to the last one made: the one that reached the transport, or the fifth |
| CommonHub.HandleLostWaits | src/Common/context/HubConnectionProvider.tsx:90-113 | a recovery on attempt `k` has slept through exactly the first `k + 1` delays of 1000, 2000, 4000, 8000, 16000 ms, with `k` below five |
| CommonHub.EveryTurnWaits | src/Common/context/HubConnectionProvider.tsx:102-107 | whatever the counter, every delay the loop requests is at least one second |
| CommonHub.DelaysFollowSchedule | src/Common/context/HubConnectionProvider.tsx:102-107 | the delays one episode adds are the back-off schedule from the current attempt on, one per turn taken |
| CommonHub.ReconnectTurns | src/Common/context/HubConnectionProvider.tsx:102-113 | one delay is requested per turn: for each failed open and for the turn that reached the transport, or for every remaining attempt when all opens fail. Which turn that is follows from the `start` outcomes by `CommonHub.ReconnectFollowsOpens` |
| CommonHub.ReconnectBindsOnce | src/Common/context/HubConnectionProvider.tsx:121-123 | a successful loop leaves the new session in the slot with each registered listener bound exactly once |
| CommonHub.ClearHostFirst | src/Common/context/HubConnectionProvider.tsx:95 | `attemptReconnect` clears the host flag first, on every call, before anything else is logged |
| CommonHub.AttemptReconnectWithoutAddress | src/Common/context/HubConnectionProvider.tsx:95-100 | without a (non-empty) address `attemptReconnect` only clears the host flag and returns false |
| CommonHub.HandleLostGuards | src/Common/context/HubConnectionProvider.tsx:63 | `handleConnectionLost` is a no-op while reconnecting or when no address is stored |
| CommonHub.HandleLostRecovers | src/Common/context/HubConnectionProvider.tsx:76-82 | on recovery the indicator closes, `connected` is on, the counter 0, the flag down, and each listener is bound once on the new session |
| CommonHub.HandleLostGivesUp | src/Common/context/HubConnectionProvider.tsx:85-87 | when the loop fails, for whatever reason, every ref is cleared and the indicator closes before the user is sent home. After five failed opens the delays were 1s–16s |
| CommonHub.HandleLostNeverStops | src/Common/context/HubConnectionProvider.tsx:62-88 | neither recovering nor giving up ever stops a session |
| CommonHub.DisconnectResets | src/Common/context/HubConnectionProvider.tsx:174-192 | `disconnect` ends with every ref at its default, stops the session iff there is one, and fails iff that `stop` throws |
| CommonHub.DisconnectSuppressesReconnect | src/Common/context/HubConnectionProvider.tsx:174-182 | because `connected` is lowered before `stop`, the observer takes the `clearValues` branch. A close reported after `disconnect` changes nothing |
| CommonHub.OnCloseWhenCleared | src/Common/context/HubConnectionProvider.tsx:153-161 | a close reported when every ref is at its default leaves them so |
| CommonHub.DebugDisconnectStartsRecovery | src/Common/context/HubConnectionProvider.tsx:153-161 | `debugDisconnect` stops the live session and keeps every ref, so the close it causes starts `handleConnectionLost` exactly as an unexpected close does (lines 194-208) |
| CommonHub.ValidPreserved | src/Common/context/HubConnectionProvider.tsx:131-264 | `connect`, `disconnect`, the debug disconnect, `setListener`, `invokeFunction`, `handleConnectionLost` and `onclose` all keep the registry's channels distinct, so the exactly-once lemmas apply again after a second loss |
| CommonHub.LossKeepsValid | src/Common/context/HubConnectionProvider.tsx:62-88 | a loss of the connection, recovered or given up, keeps the registry's channels distinct |
| CommonHub.RecoveryScenarioLoop | src/Common/context/HubConnectionProvider.tsx:102-123 | in that scenario the loop fails twice, requests 1s, 2s and 4s, opens session 3 and hands it to the re-join step with the counter at 2 |
| CommonHub.RecoveryScenario | src/Common/context/HubConnectionProvider.tsx:62-129 | two failed opens, then a success and an accepted re-join. The delays are 1s, 2s, 4s; the host flag is cleared right after the indicator shows; the re-join comes before the re-attachment; the flags are restored |
| CommonHubProvider.HubConnectionProvider.constructor | src/Common/context/HubConnectionProvider.tsx:37-42 | the refs start as `CommonHub.Initial` |
| CommonHubProvider.HubConnectionProvider.ClearValues | src/Common/context/HubConnectionProvider.tsx:257-264 | the refs end as `CommonHub.ClearValues` of their old values |
| CommonHubProvider.HubConnectionProvider.OpenSession | src/Common/context/HubConnectionProvider.tsx:145-171 | refs and result are `CommonHub.OpenSession` of the old refs |
| CommonHubProvider.HubConnectionProvider.Connect | src/Common/context/HubConnectionProvider.tsx:131-172 | refs and result are `CommonHub.Connect` of the old refs |
| CommonHubProvider.HubConnectionProvider.Disconnect | src/Common/context/HubConnectionProvider.tsx:174-192 | refs and result are `CommonHub.Disconnect` of the old refs |
| CommonHubProvider.HubConnectionProvider.DebugDisconnect | src/Common/context/HubConnectionProvider.tsx:194-208 | the refs end as `CommonHub.DebugDisconnect`: the session is stopped and every ref kept |
| CommonHubProvider.HubConnectionProvider.RebindChannel | src/Common/context/HubConnectionProvider.tsx:220-221 | the `off` and `on` calls leave the slot as `Listeners.Rebind` of the old session and log the `off` before the `on` |
| CommonHubProvider.HubConnectionProvider.SetListener | src/Common/context/HubConnectionProvider.tsx:210-228 | refs and result are `CommonHub.SetListener` of the old refs |
| CommonHubProvider.HubConnectionProvider.InvokeFunction | src/Common/context/HubConnectionProvider.tsx:230-242 | refs and result are `CommonHub.InvokeFunction` of the old refs |
| CommonHubProvider.HubConnectionProvider.ReattachLoop | src/Common/context/HubConnectionProvider.tsx:251-254 | the `forEach` leaves the slot as `Listeners.ReattachAll` of the registry and logs one `off`/`on` pair per entry, in registry order |
| CommonHubProvider.HubConnectionProvider.ReattachListeners | src/Common/context/HubConnectionProvider.tsx:244-255 | the `forEach` loop ends in `CommonHub.Reattach` of the old refs |
| CommonHubProvider.HubConnectionProvider.Rejoin | src/Common/context/HubConnectionProvider.tsx:115-123 | refs and result are `CommonHub.Rejoin` of the old refs |
| CommonHubProvider.HubConnectionProvider.LoopTurn | src/Common/context/HubConnectionProvider.tsx:103-107 | refs and result are `CommonHub.LoopTurn` of the old refs |
| CommonHubProvider.HubConnectionProvider.LoopIteration | src/Common/context/HubConnectionProvider.tsx:102-125 | one pass of the loop body. When it ends the loop, refs and result are those of `CommonHub.ReconnectLoop` from the old refs. After a failed open the counter has grown by one and the rest of the loop ends as the whole loop would have |
| CommonHubProvider.HubConnectionProvider.AttemptReconnect | src/Common/context/HubConnectionProvider.tsx:90-129 | the `while` loop ends in `CommonHub.AttemptReconnect` of the old refs |
| CommonHubProvider.HubConnectionProvider.HandleConnectionLost | src/Common/context/HubConnectionProvider.tsx:62-88 | the refs end as `CommonHub.HandleConnectionLost` of their old values |
| CommonHubProvider.HubConnectionProvider.OnClose | src/Common/context/HubConnectionProvider.tsx:153-161 | the refs end as `CommonHub.OnClose` of their old values |
| CommonHubProvider.HubConnectionProvider.PollTick | src/Common/context/HubConnectionProvider.tsx:50-57 | a poll tick never calls `handleConnectionLost` |
| SpinGame.InitialScreenCases | src/SpinGame/SpinGame.tsx:19-30 | the first screen is Create iff the user is the creator and Game iff the user is the host; every other entry mode gets Lobby |
| SpinGame.RenderInjective | src/SpinGame/SpinGame.tsx:32-41 | each screen renders its own component: Create → CreateScreen, Game → GameScreen, Lobby → LobbyScreen |
| SpinGame.MountedComponent | src/SpinGame/SpinGame.tsx:14-17 | after mounting, creators see CreateScreen, hosts GameScreen, everybody else LobbyScreen |
| SpinGame.MountOnce | src/SpinGame/SpinGame.tsx:14-17 | the mount effect sets the screen to the initial screen once; a later run changes nothing |
| ImposterGame.InitialScreenCases | src/imposter/ImposterGame.tsx:19-30 | Create iff creator, Game iff host, Lobby otherwise; never `Started` |
| ImposterGame.RenderCases | src/imposter/ImposterGame.tsx:32-41 | `Started` falls to the default arm and renders LobbyScreen. Two screens render the same component iff they are equal or both are Lobby/Started |
| ImposterGame.MountedComponent | src/imposter/ImposterGame.tsx:14-17 | after mounting, creators see CreateScreen, hosts GameScreen, everybody else LobbyScreen |
| ImposterGame.MountOnce | src/imposter/ImposterGame.tsx:14-17 | the mount effect sets the screen to the initial screen once; a later run changes nothing |
| ChangePassword.NoTokenDoesNothing | src/Hub/screens/ChangePasswordScreen/ChangePasswordScreen.tsx:24-27 | without an access token: no modal, no service call, no navigation |
| ChangePassword.MismatchFirst | src/Hub/screens/ChangePasswordScreen/ChangePasswordScreen.tsx:29-37 | differing new passwords get "Nye passord matcher ikke" and no call, even when the password is also too short |
| ChangePassword.ShortRefused | src/Hub/screens/ChangePasswordScreen/ChangePasswordScreen.tsx:34-37 | matching passwords shorter than 8 get "Passordet må være minst 8 tegn" and no call |
| ChangePassword.CallIffValid | src/Hub/screens/ChangePasswordScreen/ChangePasswordScreen.tsx:39 | the service is called iff the token is present, the passwords match and are at least 8 long. The call is `(token, old, new)`, with the old password unchecked |
| ChangePassword.ReplyHandling | src/Hub/screens/ChangePasswordScreen/ChangePasswordScreen.tsx:40-45 | a service error shows the service's message and does not navigate. Success shows nothing and goes back exactly once. Nothing else ever goes back |
| SpinCreate.ProceedIff | src/SpinGame/screens/CreateScreen/CreateScreen.tsx:61-81 | a press reaches the service iff nothing is pending, a category and a name are given and there is a pseudo id. The call is made with that pseudo id |
| SpinCreate.RefusalOrder | src/SpinGame/screens/CreateScreen/CreateScreen.tsx:62-78 | while loading a press does nothing. Otherwise the missing category ("Du må velge kategori", info) is reported before the empty name ("Spillet må ha ett navn", info), and both before the missing pseudo id (error) |
| SpinCreate.ThemeCases | src/SpinGame/screens/CreateScreen/CreateScreen.tsx:45-59 | Duel gives (Beige, BeigeLight, refresh-cw) and Roulette gives (SkyBlue, SkyBlueLight, rotate-cw). Any other game type keeps the current theme. Re-running the effect changes nothing |
| SpinCreate.CreateScreenState.constructor | src/SpinGame/screens/CreateScreen/CreateScreen.tsx:27-31 | the screen starts not loading, with theme (BeigeLight, Beige, refresh-cw) |
| SpinCreate.CreateScreenState.ApplyTheme | src/SpinGame/screens/CreateScreen/CreateScreen.tsx:45-59 | the effect sets the theme to `ThemeFor` its type and the old theme, and nothing else |
| SpinCreate.CreateScreenState.HandleCreateGame | src/SpinGame/screens/CreateScreen/CreateScreen.tsx:61-81 | while loading nothing happens. A refusal shows its modal, leaves `loading` false and makes no call. Otherwise `loading` is set and the call `(pseudoId, gameType, request)` is issued. The session fields are untouched either way |
| SpinCreate.CreateScreenState.ResumeCreateGame | src/SpinGame/screens/CreateScreen/CreateScreen.tsx:83-94 | a service error shows its message and sets no session field. Success sets the game key, the hub address, the Creator entry mode and the Lobby screen. `loading` ends false either way |

## Left out

- The SignalR library is not modelled: the builder, URL, logging level, `start`, `stop`, `invoke`, `on`, `off` and `onclose`. Sessions are values; outcomes come from the `Env` oracle. The `HUB_URL_BASE` prefix of the play copy's URL is not modelled, and sessions are tagged with the name only.
- Timers are not modelled.
  - The back-off `setTimeout` is recorded as a requested delay, not slept.
  - The extra 300 ms pause before going home in the play copy is not modelled.
  - The poll's `setInterval` scheduling is not modelled; only one tick's decision is.
- Concurrency and interleavings are not modelled in general. A close that a `stop` triggers is modelled as `OnClose` applied to a chosen state, not as part of the operation that stops. For `disconnect`, the lemmas `DisconnectSuppressesReconnect` cover both orders: the close during the awaited `stop` and the close after `disconnect` returns. The manual-close action of the loading indicator, which can run while the loop is awaiting, is not modelled.
- PlayHub.Connect: the hub-switch `stop` (src/play/context/HubConnectionProvider.tsx:164-170) runs while `connected` is still true, so the old session's `onclose` (:185-190) would call `handleConnectionLost`. The model does not compose that close with `Connect`; no lemma states what the reconnection it starts does to the new session.
- PlayHub.HandleConnectionLost: when the re-join fails, the `stop` of the new session (src/play/context/HubConnectionProvider.tsx:105-109) runs after `connected` was raised and `isReconnecting` lowered (:98-100), so that session's `onclose` (:185-190) passes its guard and would start a second `handleConnectionLost` while the first one goes on to `clearValues` and the home screen. `RejoinFailureReentersLoss` proves that this close starts a new episode; how the two episodes interleave is not modelled.
- `gameKey` and `pseudoId`: the Common copy reads `gameKey` from the render in which its callbacks were created (a stale closure), and both copies read `pseudoId` that way. Both are parameters of the model.
- Modals, navigation and `setIsHost` are events in the log; console logging is dropped.
- `setListener`'s catch ("Noe gikk galt.") and `connect`'s catch around anything but `start` are not modelled: `on`/`off` and the builder never throw here.
- String lengths are Dafny character counts, not JavaScript UTF-16 code units (the 8-character password rule).
- The `GameEntryMode`, `GameType`, `GameCategory` and `Color` definitions are not part of this model.
  - They are transcribed as the values the screens use. `Quiz`, `Duel` and `Roulette` are values of their own; every other game type is `OtherGame`.
  - A chosen category is taken to be truthy: string-valued enums are assumed.
- What `case Participant || Member` evaluates to is not modelled; both that arm and `default` give Lobby.
- SpinGame.Render: the spin root's `default` arm is reachable only for a screen value outside the enum, which the datatype cannot hold.
- ImposterGame.Render: in the imposter root the listed value `Started` takes the `default` arm, and the model renders LobbyScreen for it; any other value outside the enum is not modelled.
- The session providers (`GlobalSessionProvider`, `SpinGameProvider`, the other game providers) are not modelled: they are plain `useState` setters. `SpinGameProvider.setThemeColors` is the same mapping as `SpinCreate.ThemeFor`.
- The rest of the client is not modelled: the create screen's `opacity` and form inputs, the style files, and the screens that only render or call services.
