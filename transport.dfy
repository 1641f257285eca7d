/** The hub transport as the providers see it. A session is a value
    carrying its identity, the hub it is tagged with (`_hubName`) and the
    handlers bound on each channel; the outcomes of opening, invoking and
    stopping come from an oracle; every call the providers make on the
    transport and every user-interface effect is appended to an event log. */
module Transport {
  import opened Wrappers

  type Channel = string

  /** Handlers are opaque; two equal ids are the same function. */
  type HandlerId = nat

  /** Replies of remote calls are opaque too. */
  type Reply = nat

  datatype Session = Session(id: nat, hub: string, bindings: map<Channel, seq<HandlerId>>)

  /** The handlers a session delivers messages of `ch` to, in binding order. */
  function Handlers(s: Session, ch: Channel): seq<HandlerId> {
    if ch in s.bindings then s.bindings[ch] else []
  }

  /** `connection.on(ch, h)`: one more delivery target for `ch`. */
  function On(s: Session, ch: Channel, h: HandlerId): (r: Session)
    ensures r.id == s.id && r.hub == s.hub
    ensures Handlers(r, ch) == Handlers(s, ch) + [h]
    ensures forall c :: c != ch ==> Handlers(r, c) == Handlers(s, c)
  {
    s.(bindings := s.bindings[ch := Handlers(s, ch) + [h]])
  }

  /** `connection.off(ch)`: removes every handler of `ch`. */
  function Off(s: Session, ch: Channel): (r: Session)
    ensures r.id == s.id && r.hub == s.hub
    ensures Handlers(r, ch) == []
    ensures forall c :: c != ch ==> Handlers(r, c) == Handlers(s, c)
  {
    s.(bindings := s.bindings[ch := []])
  }

  /** A fresh session has no handlers. */
  function NewSession(id: nat, hub: string): (r: Session)
    ensures forall c :: Handlers(r, c) == []
  {
    Session(id, hub, map[])
  }

  /** Positional arguments of a remote call. */
  datatype Arg = Text(text: string) | Flag(flag: bool)

  datatype Event =
    | Open(session: nat, hub: string)         // build a session and `start` it
    | Stop(session: nat)                      // `connection.stop()`
    | Invoke(session: nat, name: string, args: seq<Arg>)
    | Unbind(session: nat, channel: Channel)  // `connection.off(channel)`
    | Bind(session: nat, channel: Channel, handler: HandlerId)
    | ShowLoading                             // `displayLoadingModal`
    | CloseLoading                            // `closeLoadingModal`
    | GoHome                                  // `resetToHomeScreen`
    | ClearHost                               // `setIsHost(false)`

  /** None of `events` is a `stop` of a session. */
  predicate NoStop(events: seq<Event>) {
    forall i :: 0 <= i < |events| ==> !events[i].Stop?
  }

  /** `b` is `a` followed by events none of which stops a session. */
  predicate AppendedWithoutStop(a: seq<Event>, b: seq<Event>) {
    |a| <= |b| && b[..|a|] == a && NoStop(b[|a|..])
  }

  /** Appending without a stop composes. */
  lemma AppendedTrans(a: seq<Event>, b: seq<Event>, c: seq<Event>)
    requires AppendedWithoutStop(a, b) && AppendedWithoutStop(b, c)
    ensures AppendedWithoutStop(a, c)
  {
    assert c[..|a|] == c[..|b|][..|a|];
    forall i | 0 <= i < |c| - |a| ensures !c[|a|..][i].Stop? {
      if |a| + i < |b| {
        assert c[|a| + i] == b[|a| + i] == b[|a|..][i];
      } else {
        assert c[|a| + i] == c[|b|..][|a| + i - |b|];
      }
    }
  }

  /** Appending events without a stop. */
  lemma AppendNoStop(a: seq<Event>, x: seq<Event>)
    requires NoStop(x)
    ensures AppendedWithoutStop(a, a + x)
  {
    assert (a + x)[..|a|] == a;
    assert (a + x)[|a|..] == x;
  }

  /** Outcomes the transport will produce, consumed from the front:
      whether each `start` succeeds, the reply of each `invoke` (None: it
      throws) and whether each `stop` succeeds. An exhausted stream fails. */
  datatype Env = Env(opens: seq<bool>, replies: seq<Option<Reply>>, stops: seq<bool>)

  function TakeOpen(e: Env): (r: (bool, Env))
    ensures r.1.replies == e.replies && r.1.stops == e.stops
  {
    if e.opens == [] then (false, e) else (e.opens[0], e.(opens := e.opens[1..]))
  }

  /** Open number `j` (counting from 0) of the oracle succeeds. */
  predicate OpenSucceeds(e: Env, j: nat) {
    j < |e.opens| && e.opens[j]
  }

  /** None of the first `j` opens succeeds. */
  predicate LeadingFailures(e: Env, j: nat) {
    forall k :: 0 <= k < j ==> !OpenSucceeds(e, k)
  }

  /** One of the first `n` opens succeeds. */
  predicate SomeOpenSucceeds(e: Env, n: nat) {
    exists k :: 0 <= k < n && OpenSucceeds(e, k)
  }

  /** Taking an open shifts the remaining outcomes by one. */
  lemma TakeOpenShifts(e: Env, j: nat)
    ensures TakeOpen(e).0 == OpenSucceeds(e, 0)
    ensures OpenSucceeds(TakeOpen(e).1, j) == OpenSucceeds(e, j + 1)
  {
  }

  /** After a failed first open, the outcomes that follow are those of the
      oracle shifted by one. */
  lemma {:induction false} FailedOpenShifts(e: Env, j: nat, n: nat)
    requires !OpenSucceeds(e, 0)
    ensures LeadingFailures(TakeOpen(e).1, j) ==> LeadingFailures(e, j + 1)
    ensures SomeOpenSucceeds(TakeOpen(e).1, n) <==> SomeOpenSucceeds(e, n + 1)
  {
    var f := TakeOpen(e).1;
    if LeadingFailures(f, j) {
      forall k | 0 <= k < j + 1 ensures !OpenSucceeds(e, k) {
        if k > 0 { TakeOpenShifts(e, k - 1); }
      }
    }
    if SomeOpenSucceeds(f, n) {
      var k :| 0 <= k < n && OpenSucceeds(f, k);
      TakeOpenShifts(e, k);
    }
    if SomeOpenSucceeds(e, n + 1) {
      var k :| 0 <= k < n + 1 && OpenSucceeds(e, k);
      TakeOpenShifts(e, k - 1);
      assert OpenSucceeds(f, k - 1);
    }
  }

  function TakeReply(e: Env): (r: (Option<Reply>, Env))
    ensures r.1.opens == e.opens && r.1.stops == e.stops
  {
    if e.replies == [] then (None, e) else (e.replies[0], e.(replies := e.replies[1..]))
  }

  function TakeStop(e: Env): (r: (bool, Env))
    ensures r.1.opens == e.opens && r.1.replies == e.replies
  {
    if e.stops == [] then (false, e) else (e.stops[0], e.(stops := e.stops[1..]))
  }

  // Messages and remote names shared by both providers.
  const NoConnectionListener := "Ingen tilkobling opprettet. (HubConnectionProvider)"
  const NoConnectionInvoke := "Ingen tilkobling opprettet."
  const CallDropped := "Tilkoblingen ble butt"
  const OpenFailed := "En feil skjedde ved tilkoblingen. (HubConnectionProvider)"
  const CloseFailed := "Failed to close down websocket"
  const RejoinCall := "ConnectToGroup"

  /** The arguments of the rejoin call `ConnectToGroup(gameKey, pseudoId, true)`. */
  function RejoinArgs(gameKey: string, pseudoId: string): seq<Arg> {
    [Text(gameKey), Text(pseudoId), Flag(true)]
  }
}
