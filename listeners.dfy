/** The listener registry both providers keep (`listenersMapRef`, a
    JavaScript `Map` from channel to handler) and its re-attachment onto a
    session after a reconnection. A `Map` iterates in insertion order and
    `set` on a present key keeps its position, so the registry is a
    sequence of entries with distinct channels. */
module Listeners {
  import opened Wrappers
  import opened Transport

  datatype Entry = Entry(channel: Channel, handler: HandlerId)

  type Registry = seq<Entry>

  predicate Unique(r: Registry) {
    forall i, j :: 0 <= i < j < |r| ==> r[i].channel != r[j].channel
  }

  function Channels(r: Registry): set<Channel> {
    set e | e in r :: e.channel
  }

  /** `map.set(ch, h)`: replaces the entry of `ch` in place, or appends a new one. */
  function Set(r: Registry, ch: Channel, h: HandlerId): Registry {
    if ch in Channels(r) then
      seq(|r|, i requires 0 <= i < |r| => if r[i].channel == ch then Entry(ch, h) else r[i])
    else
      r + [Entry(ch, h)]
  }

  /** `set` on a registered channel: the entry is replaced where it stands. */
  lemma SetReplaces(r: Registry, ch: Channel, h: HandlerId)
    requires Unique(r) && ch in Channels(r)
    ensures Unique(Set(r, ch, h))
    ensures Entry(ch, h) in Set(r, ch, h)
    ensures forall e :: e in Set(r, ch, h) && e.channel == ch ==> e.handler == h
    ensures forall e: Entry :: e.channel != ch ==> (e in Set(r, ch, h) <==> e in r)
    ensures Channels(Set(r, ch, h)) == Channels(r)
  {
    var t := Set(r, ch, h);
    var e0 :| e0 in r && e0.channel == ch;
    var k :| 0 <= k < |r| && r[k] == e0;
    assert t[k] == Entry(ch, h);
    forall e: Entry | e.channel != ch ensures e in t <==> e in r {
      if e in r {
        var j :| 0 <= j < |r| && r[j] == e;
        assert t[j] == e;
      }
      if e in t {
        var j :| 0 <= j < |t| && t[j] == e;
        assert r[j] == e;
      }
    }
    forall c | c in Channels(t) ensures c in Channels(r) {
      var e :| e in t && e.channel == c;
      var j :| 0 <= j < |t| && t[j] == e;
      assert r[j].channel == c;
    }
    forall c | c in Channels(r) ensures c in Channels(t) {
      var e :| e in r && e.channel == c;
      var j :| 0 <= j < |r| && r[j] == e;
      assert t[j].channel == c;
    }
  }

  /** `set` on a new channel: one entry is appended. */
  lemma SetAppends(r: Registry, ch: Channel, h: HandlerId)
    requires Unique(r) && ch !in Channels(r)
    ensures Unique(Set(r, ch, h))
    ensures Entry(ch, h) in Set(r, ch, h)
    ensures forall e :: e in Set(r, ch, h) && e.channel == ch ==> e.handler == h
    ensures forall e: Entry :: e.channel != ch ==> (e in Set(r, ch, h) <==> e in r)
    ensures Channels(Set(r, ch, h)) == Channels(r) + {ch}
  {
    var t := Set(r, ch, h);
    assert t == r + [Entry(ch, h)];
    assert t[|r|] == Entry(ch, h);
    forall e | e in t && e.channel == ch ensures e.handler == h {
      assert e in r ==> e.channel in Channels(r);
    }
    forall i, j | 0 <= i < j < |t| ensures t[i].channel != t[j].channel {
      if j == |r| {
        assert r[i] in r;
      }
    }
  }

  /** Last write wins: after `set`, `ch` is bound to `h` and to nothing else,
      every other channel keeps its entry, and channels stay distinct. */
  lemma SetLastWriteWins(r: Registry, ch: Channel, h: HandlerId)
    requires Unique(r)
    ensures Unique(Set(r, ch, h))
    ensures Entry(ch, h) in Set(r, ch, h)
    ensures forall e :: e in Set(r, ch, h) && e.channel == ch ==> e.handler == h
    ensures forall e: Entry :: e.channel != ch ==> (e in Set(r, ch, h) <==> e in r)
    ensures Channels(Set(r, ch, h)) == Channels(r) + {ch}
  {
    if ch in Channels(r) {
      SetReplaces(r, ch, h);
    } else {
      SetAppends(r, ch, h);
    }
  }

  /** Bind one entry without duplicates: `off(channel)` then `on(channel, handler)`. */
  function Rebind(s: Session, e: Entry): (r: Session)
    ensures r.id == s.id && r.hub == s.hub
  {
    On(Off(s, e.channel), e.channel, e.handler)
  }

  /** After `off` then `on` the channel delivers to the new handler only,
      and every other channel is as it was. */
  lemma RebindHandlers(s: Session, e: Entry)
    ensures Handlers(Rebind(s, e), e.channel) == [e.handler]
    ensures forall c :: c != e.channel ==> Handlers(Rebind(s, e), c) == Handlers(s, c)
  {
    var t := Off(s, e.channel);
    assert Handlers(t, e.channel) == [];
  }

  /** `RebindHandlers` at one channel. */
  lemma RebindHandlersAt(s: Session, e: Entry, c: Channel)
    ensures Handlers(Rebind(s, e), c) == if c == e.channel then [e.handler] else Handlers(s, c)
  {
    RebindHandlers(s, e);
  }

  function RebindEvents(id: nat, e: Entry): seq<Event> {
    [Unbind(id, e.channel), Bind(id, e.channel, e.handler)]
  }

  /** `listeners.forEach((fn, channel) => { off(channel); on(channel, fn) })`,
      written from the last entry so that a loop over prefixes follows it. */
  function ReattachAll(s: Session, r: Registry): (t: Session)
    ensures t.id == s.id && t.hub == s.hub
  {
    if r == [] then s else Rebind(ReattachAll(s, r[..|r| - 1]), r[|r| - 1])
  }

  function ReattachEvents(id: nat, r: Registry): seq<Event> {
    if r == [] then [] else ReattachEvents(id, r[..|r| - 1]) + RebindEvents(id, r[|r| - 1])
  }

  /** One more entry of the registry re-attached, as one turn of the loop. */
  lemma ReattachPrefix(s: Session, r: Registry, i: nat)
    requires i < |r|
    ensures ReattachAll(s, r[..i + 1]) == Rebind(ReattachAll(s, r[..i]), r[i])
    ensures ReattachEvents(s.id, r[..i + 1]) == ReattachEvents(s.id, r[..i]) + RebindEvents(s.id, r[i])
  {
    assert r[..i + 1][..i] == r[..i];
  }

  /** Re-attachment only unbinds and binds; it never stops a session. */
  lemma {:induction false} ReattachEventsNoStop(id: nat, r: Registry)
    ensures NoStop(ReattachEvents(id, r))
  {
    if r != [] {
      ReattachEventsNoStop(id, r[..|r| - 1]);
      var a, b := ReattachEvents(id, r[..|r| - 1]), RebindEvents(id, r[|r| - 1]);
      assert forall i :: |a| <= i < |a| + |b| ==> (a + b)[i] == b[i - |a|];
    }
  }

  /** With distinct channels, the last entry's channel is not among the others. */
  lemma LastChannelFresh(r: Registry)
    requires Unique(r) && r != []
    ensures Unique(r[..|r| - 1])
    ensures r[|r| - 1].channel !in Channels(r[..|r| - 1])
    ensures Channels(r) == Channels(r[..|r| - 1]) + {r[|r| - 1].channel}
    ensures forall e :: e in r ==> e == r[|r| - 1] || e in r[..|r| - 1]
  {
    var init, last := r[..|r| - 1], r[|r| - 1];
    assert r == init + [last];
    forall e | e in init ensures e.channel != last.channel {
      var k :| 0 <= k < |init| && init[k] == e;
      assert r[k] == e;
    }
  }

  /** Every registered channel ends with exactly one binding, its handler. */
  lemma {:induction false} ReattachBindsRegistered(s: Session, r: Registry)
    requires Unique(r)
    ensures forall e :: e in r ==> Handlers(ReattachAll(s, r), e.channel) == [e.handler]
  {
    if r != [] {
      var init, last := r[..|r| - 1], r[|r| - 1];
      LastChannelFresh(r);
      ReattachBindsRegistered(s, init);
      var p := ReattachAll(s, init);
      assert ReattachAll(s, r) == Rebind(p, last);
      forall e | e in r ensures Handlers(ReattachAll(s, r), e.channel) == [e.handler] {
        RebindHandlersAt(p, last, e.channel);
        if e != last {
          assert e in init && e.channel in Channels(init);
          assert Handlers(p, e.channel) == [e.handler];
        }
      }
    }
  }

  /** A channel outside the registry keeps the handlers it had. */
  lemma {:induction false} ReattachLeavesOthers(s: Session, r: Registry)
    ensures forall c :: c !in Channels(r) ==> Handlers(ReattachAll(s, r), c) == Handlers(s, c)
  {
    if r != [] {
      var init, last := r[..|r| - 1], r[|r| - 1];
      ReattachLeavesOthers(s, init);
      var p := ReattachAll(s, init);
      assert ReattachAll(s, r) == Rebind(p, last);
      assert r == init + [last];
      forall c | c !in Channels(r) ensures Handlers(ReattachAll(s, r), c) == Handlers(s, c) {
        assert last in r;
        assert c !in Channels(init) by {
          forall e | e in init ensures e.channel != c {
            assert e in r;
          }
        }
        RebindHandlersAt(p, last, c);
      }
    }
  }

  /** Re-attachment leaves exactly one binding, the registered handler, on
      every registered channel, and leaves every other channel alone. */
  lemma ReattachBindsOnce(s: Session, r: Registry)
    requires Unique(r)
    ensures ReattachAll(s, r).id == s.id && ReattachAll(s, r).hub == s.hub
    ensures forall e :: e in r ==> Handlers(ReattachAll(s, r), e.channel) == [e.handler]
    ensures forall c :: c !in Channels(r) ==> Handlers(ReattachAll(s, r), c) == Handlers(s, c)
  {
    ReattachBindsRegistered(s, r);
    ReattachLeavesOthers(s, r);
  }

  /** Re-attaching twice has the same effect as re-attaching once: no
      duplicate deliveries can pile up across reconnections. */
  lemma ReattachIdempotent(s: Session, r: Registry, c: Channel)
    requires Unique(r)
    ensures Handlers(ReattachAll(ReattachAll(s, r), r), c) == Handlers(ReattachAll(s, r), c)
  {
    ReattachBindsOnce(s, r);
    ReattachBindsOnce(ReattachAll(s, r), r);
    if c in Channels(r) {
      var e :| e in r && e.channel == c;
    }
  }
}
