/** The stateful side of `DrizzleWebSocket` (tornado_drizzle/drizzle_web_socket.py):
    `open` joins '__all__', `on_close` leaves every key it joined, and
    `on_message` runs the action's effects and writes exactly one reply.
    The registry is the one shared Subscriber.Registry, passed in. */
module DrizzleWebSocket {
  import opened Wrappers
  import opened JsonValue
  import opened RegistrySpec
  import opened Subscriber
  import opened Router

  /** One effect of an action, performed for socket c. */
  function RunEffect(h: Hub, c: ConnId, e: Effect): Hub {
    match e
    case SubscribeTo(key) => Enqueue(h, Entry(key, c))
    case UnsubscribeFrom(key) => Remove(h, key, c)
    case PublishTo(key, m) => Broadcast(h, key, m)
  }

  /** An action's effects, in the order it performed them. */
  function RunEffects(h: Hub, c: ConnId, effects: seq<Effect>): Hub
    decreases |effects|
  {
    if effects == [] then h else RunEffects(RunEffect(h, c, effects[0]), c, effects[1..])
  }

  /** A new socket (`__init__` gives it an empty `subscribed_keys`) that opens:
      `yield subscribe('__all__', self)` only queues the pair. */
  method Open(reg: Registry, c: ConnId)
    requires reg.Valid() && c !in reg.subscribedKeys
    modifies reg
    ensures reg.Valid()
    ensures reg.Model() == Enqueue(Register(old(reg.Model()), c), Entry(Key(ALL), c))
  {
    reg.AddSocket(c);
    reg.Subscribe(Key(ALL), c);
  }

  /** `on_close`: `unsubscribe(key, self)` for every key of a snapshot of
      `subscribed_keys`. The socket ends in no set and with no keys; no other
      socket's membership changes. */
  method OnClose(reg: Registry, c: ConnId)
    requires reg.Valid() && c in reg.subscribedKeys
    modifies reg
    ensures reg.Valid()
    ensures reg.Model() == old(reg.Model()).(state := Detach(old(reg.Model()).state, c))
    ensures forall k :: c !in Members(reg.Model().state, k)
    ensures KeysOf(reg.Model().state, c) == {}
  {
    ghost var st0 := reg.Model().state;
    var snapshot := reg.subscribedKeys[c];
    ghost var done: seq<string> := [];
    while snapshot != {}
      invariant reg.Valid() && c in reg.subscribedKeys
      invariant reg.queue == old(reg.queue)
      invariant reg.scheduled == old(reg.scheduled) && reg.outbox == old(reg.outbox)
      invariant reg.Model().state == DiscardAll(st0, done, c)
      invariant snapshot == KeysOf(reg.Model().state, c)
      invariant forall k :: k in done <==> k in KeysOf(st0, c) && k !in snapshot
      invariant forall i, j :: 0 <= i < j < |done| ==> done[i] != done[j]
      decreases snapshot
    {
      var k :| k in snapshot;
      ghost var before := reg.Model().state;
      assert c in Members(before, k);
      reg.Unsubscribe(k, c);
      DiscardEffect(before, k, c);
      DiscardAllSnoc(st0, done, k, c);
      done := done + [k];
      snapshot := snapshot - {k};
    }
    DiscardAllIsDetach(st0, done, c);
    DetachEffect(st0, c);
  }

  /** Performs an action's effects on the registry for socket c. */
  method ApplyEffects(reg: Registry, c: ConnId, effects: seq<Effect>)
    requires reg.Valid() && c in reg.subscribedKeys
    modifies reg
    ensures reg.Valid() && c in reg.subscribedKeys
    ensures reg.Model() == RunEffects(old(reg.Model()), c, effects)
  {
    var i := 0;
    while i < |effects|
      invariant 0 <= i <= |effects|
      invariant reg.Valid() && c in reg.subscribedKeys
      invariant RunEffects(reg.Model(), c, effects[i..]) == RunEffects(old(reg.Model()), c, effects)
    {
      assert effects[i..][1..] == effects[i + 1..];
      match effects[i] {
        case SubscribeTo(key) => reg.Subscribe(key, c);
        case UnsubscribeFrom(key) => reg.Unsubscribe(key, c);
        case PublishTo(key, m) => reg.Publish(key, m);
      }
      i := i + 1;
    }
  }

  /** Where `on_message` resumes after `yield handler_action(message)`: at once
      when the action's future was already resolved, otherwise after an IOLoop turn. */
  function Resume(h: Hub, ready: bool): Hub {
    if ready then h else Turn(h)
  }

  /** `on_message`: the action's effects happen (its publishes only schedule
      writes), the IOLoop takes a turn if the action's future was pending, then
      exactly one reply is written to the socket, in `finally`. */
  method OnMessage(reg: Registry, c: ConnId, decoded: Option<Json>, routes: map<string, HandlerClass>)
    requires reg.Valid() && c in reg.subscribedKeys
    modifies reg
    ensures reg.Valid()
    ensures var reply := Handle(decoded, routes);
      reg.Model() == RegistrySpec.Send(Resume(RunEffects(old(reg.Model()), c, reply.effects), reply.ready),
                                       c, ToWire(reply.response))
  {
    var reply := Handle(decoded, routes);
    ApplyEffects(reg, c, reply.effects);
    if !reply.ready {
      reg.RunTurn();
    }
    reg.Send(c, ToWire(reply.response));
  }

  /** Where the reply, which always carries `request_id`, lands among the socket's
      writes. When the action's future was resolved, the reply is the one message
      `on_message` writes, and the writes the action or anyone before it scheduled
      land after it once the IOLoop runs them. When it was pending, the IOLoop has
      already made those writes, so the reply comes after them and nothing is left
      scheduled. */
  lemma ReplyOrder(h: Hub, c: ConnId, decoded: Option<Json>, routes: map<string, HandlerClass>)
    ensures var reply := Handle(decoded, routes);
      var wire := ToWire(reply.response);
      var acted := RunEffects(h, c, reply.effects);
      var h' := RegistrySpec.Send(Resume(acted, reply.ready), c, wire);
      && "request_id" in wire.fields
      && Inbox(h.scheduled, c) <= Inbox(acted.scheduled, c)
      && (reply.ready ==>
            && Inbox(h'.outbox, c) == Inbox(h.outbox, c) + [wire]
            && Inbox(Flush(h').outbox, c) == Inbox(h.outbox, c) + [wire] + Inbox(acted.scheduled, c))
      && (!reply.ready ==>
            && Inbox(h'.outbox, c) == Inbox(h.outbox, c) + Inbox(acted.scheduled, c) + [wire]
            && h'.scheduled == map[])
  {
    var reply := Handle(decoded, routes);
    RunEffectsOnlySchedules(h, c, reply.effects, c);
    RequestIdAttached(decoded, routes);
  }

  /** The case of an action that publishes to '__all__', which its own socket
      joined on `open`, and whose future is resolved: the socket gets the reply
      first and its own copy after it, once the IOLoop runs. */
  lemma SelfPublishLandsAfterReply(h: Hub, c: ConnId, m: Json, wire: Json)
    requires c in Members(h.state, ALL) && c !in h.scheduled
    ensures var h' := RegistrySpec.Send(RunEffects(h, c, [PublishTo(ALL, m)]), c, wire);
      && Inbox(h'.outbox, c) == Inbox(h.outbox, c) + [wire]
      && Inbox(Flush(h').outbox, c) == Inbox(h.outbox, c) + [wire, m]
  {
    var effects := [PublishTo(ALL, m)];
    assert effects[1..] == [];
    assert RunEffects(h, c, effects) == Broadcast(h, ALL, m);
    DeliverExactlyOnce(h.scheduled, Members(h.state, ALL), m);
  }

  /** The same action with a pending future (a plain method returning None): the
      IOLoop's turn writes the socket's own copy before the reply. */
  lemma SelfPublishLandsBeforeReply(h: Hub, c: ConnId, m: Json, wire: Json)
    requires c in Members(h.state, ALL) && c !in h.scheduled
    ensures var h' := RegistrySpec.Send(Turn(RunEffects(h, c, [PublishTo(ALL, m)])), c, wire);
      Inbox(h'.outbox, c) == Inbox(h.outbox, c) + [m, wire]
  {
    SelfPublishSchedules(h, c, m);
    SendPlacement(RunEffects(h, c, [PublishTo(ALL, m)]), c, wire, false);
  }

  /** Publishing to '__all__' schedules exactly one copy for a member with nothing
      pending, and writes nothing. */
  lemma SelfPublishSchedules(h: Hub, c: ConnId, m: Json)
    requires c in Members(h.state, ALL) && c !in h.scheduled
    ensures var acted := RunEffects(h, c, [PublishTo(ALL, m)]);
      Inbox(acted.scheduled, c) == [m] && Inbox(acted.outbox, c) == Inbox(h.outbox, c)
  {
    var effects := [PublishTo(ALL, m)];
    assert effects[1..] == [];
    assert RunEffects(h, c, effects) == Broadcast(h, ALL, m);
    DeliverExactlyOnce(h.scheduled, Members(h.state, ALL), m);
  }

  /** The reply written straight away, or after an IOLoop turn has made the
      socket's scheduled writes. */
  lemma SendPlacement(h: Hub, c: ConnId, wire: Json, ready: bool)
    ensures var h' := RegistrySpec.Send(Resume(h, ready), c, wire);
      && (ready ==>
            && Inbox(h'.outbox, c) == Inbox(h.outbox, c) + [wire]
            && Inbox(Flush(h').outbox, c) == Inbox(h.outbox, c) + [wire] + Inbox(h.scheduled, c))
      && (!ready ==> Inbox(h'.outbox, c) == Inbox(h.outbox, c) + Inbox(h.scheduled, c) + [wire]
                     && h'.scheduled == map[])
  {
    FlushInbox(RegistrySpec.Send(h, c, wire), c);
    FlushInbox(h, c);
  }

  /** A socket's writes after a flush: what it had, then what was scheduled for it. */
  lemma FlushInbox(h: Hub, c: ConnId)
    ensures Inbox(Flush(h).outbox, c) == Inbox(h.outbox, c) + Inbox(h.scheduled, c)
    ensures Inbox(Turn(h).outbox, c) == Inbox(h.outbox, c) + Inbox(h.scheduled, c)
  {
  }

  /** An action's effects write nothing themselves; they only add to what is
      scheduled for each socket. */
  lemma {:induction false} RunEffectsOnlySchedules(h: Hub, c: ConnId, effects: seq<Effect>, d: ConnId)
    ensures RunEffects(h, c, effects).outbox == h.outbox
    ensures Inbox(h.scheduled, d) <= Inbox(RunEffects(h, c, effects).scheduled, d)
    decreases |effects|
  {
    if effects != [] {
      var h1 := RunEffect(h, c, effects[0]);
      if effects[0].PublishTo? {
        DeliverExactlyOnce(h.scheduled, Members(h.state, effects[0].key), effects[0].message);
      }
      assert Inbox(h.scheduled, d) <= Inbox(h1.scheduled, d);
      RunEffectsOnlySchedules(h1, c, effects[1..], d);
    }
  }

  /** The scenario of a publish: A and B joined "room1", X did not. Once the IOLoop
      has run the scheduled writes, A and B have one more copy each, at the end,
      and X has nothing more. */
  lemma PublishReachesOnlyMembers(h: Hub, a: ConnId, b: ConnId, x: ConnId, m: Json)
    requires Consistent(h.state)
    requires "room1" in KeysOf(h.state, a) && "room1" in KeysOf(h.state, b)
    requires "room1" !in KeysOf(h.state, x)
    ensures var before, after := Flush(h), Flush(Broadcast(h, "room1", m));
      && Inbox(after.outbox, a) == Inbox(before.outbox, a) + [m]
      && Inbox(after.outbox, b) == Inbox(before.outbox, b) + [m]
      && Inbox(after.outbox, x) == Inbox(before.outbox, x)
  {
    assert a in Members(h.state, "room1") && b in Members(h.state, "room1");
    assert x !in Members(h.state, "room1");
    DeliverExactlyOnce(h.scheduled, Members(h.state, "room1"), m);
  }
}
