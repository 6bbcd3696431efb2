/** tornado_drizzle/subscriber.py as a stateful object. The module-level
    `subscriptions` dict and queue `q` become fields of one Registry, each
    socket's `subscribed_keys` set lives in `subscribedKeys` under the
    socket's identity, the writes `publish` hands to `spawn_callback` wait in
    `scheduled` until the IOLoop runs them, and every `write_message` that has
    run is appended to `outbox`.
    Each method is proved against the matching transition of RegistrySpec. */
module Subscriber {
  import opened JsonValue
  import opened RegistrySpec

  class Registry {
    var subscriptions: map<string, set<ConnId>>
    var subscribedKeys: map<ConnId, set<string>>
    var queue: seq<Entry>
    var scheduled: map<ConnId, seq<Json>>
    var outbox: map<ConnId, seq<Json>>

    ghost function Model(): Hub
      reads this
    {
      Hub(State(subscriptions, subscribedKeys), queue, scheduled, outbox)
    }

    ghost predicate Valid()
      reads this
    {
      Good(Model())
    }

    /** `subscriptions = {}` and `q = Queue()` at import time. */
    constructor ()
      ensures Valid()
      ensures Model() == Hub(State(map[], map[]), [], map[], map[])
    {
      subscriptions, subscribedKeys := map[], map[];
      queue, scheduled, outbox := [], map[], map[];
    }

    /** A new socket object comes with an empty `subscribed_keys`. */
    method AddSocket(c: ConnId)
      requires Valid() && c !in subscribedKeys
      modifies this
      ensures Valid()
      ensures Model() == Register(old(Model()), c)
    {
      subscribedKeys := subscribedKeys[c := {}];
      assert Model().state.subs == old(Model()).state.subs;
      forall k, c' ensures c' in Members(Model().state, k) <==> k in KeysOf(Model().state, c') {
        assert c' in Members(old(Model()).state, k) <==> k in KeysOf(old(Model()).state, c');
      }
    }

    /** `subscribe(key, socket)`: only puts the pair at the tail of the queue. */
    method Subscribe(key: SubKey, c: ConnId)
      requires Valid() && c in subscribedKeys
      modifies this
      ensures Valid()
      ensures Model() == Enqueue(old(Model()), Entry(key, c))
    {
      queue := queue + [Entry(key, c)];
    }

    /** One turn of the `subscriber` loop: take the head of the queue and apply it. */
    method Step()
      requires Valid() && queue != []
      modifies this
      ensures Valid()
      ensures Model() == Consume(old(Model()))
    {
      ConsumeGood(Model());
      var e := queue[0];
      queue := queue[1..];
      match e.key {
        case Key(k) =>
          if k !in subscriptions {
            subscriptions := subscriptions[k := {}];
          }
          subscriptions := subscriptions[k := subscriptions[k] + {e.conn}];
          subscribedKeys := subscribedKeys[e.conn := subscribedKeys[e.conn] + {k}];
        case Unhashable(_) =>
          // dropped; the consumer as written dies here (RegistrySpec.DrainAsWritten)
      }
    }

    /** The consumer working until the queue is empty. */
    method RunConsumer()
      requires Valid()
      modifies this
      ensures Valid()
      ensures Model() == old(Model()).(state := Drain(old(Model()).state, old(queue)), queue := [])
    {
      while queue != []
        invariant Valid()
        invariant scheduled == old(scheduled) && outbox == old(outbox)
        invariant Drain(Model().state, queue) == Drain(old(Model()).state, old(queue))
        decreases |queue|
      {
        Step();
      }
    }

    /** `unsubscribe(key, socket)`: an inline discard-if-present on both sides. */
    method Unsubscribe(key: string, c: ConnId)
      requires Valid() && c in subscribedKeys
      modifies this
      ensures Valid()
      ensures Model() == Remove(old(Model()), key, c)
    {
      DiscardConsistent(Model().state, key, c);
      if key in subscriptions {
        subscriptions := subscriptions[key := subscriptions[key] - {c}];
        subscribedKeys := subscribedKeys[c := subscribedKeys[c] - {key}];
      }
    }

    /** `publish(key, message)`: one `write_message` per current member of the key,
        handed to `spawn_callback`; none of them has run when `publish` returns. */
    method Publish(key: string, m: Json)
      requires Valid()
      modifies this
      ensures Valid()
      ensures Model() == Broadcast(old(Model()), key, m)
    {
      BroadcastGood(Model(), key, m);
      if key in subscriptions {
        var targets := subscriptions[key];
        var pending := targets;
        while pending != {}
          invariant pending <= targets
          invariant subscriptions == old(subscriptions) && subscribedKeys == old(subscribedKeys)
          invariant queue == old(queue) && outbox == old(outbox)
          invariant scheduled.Keys == old(scheduled).Keys + (targets - pending)
          invariant forall c :: Inbox(scheduled, c)
                             == Inbox(old(scheduled), c) + (if c in targets - pending then [m] else [])
          decreases pending
        {
          var c :| c in pending;
          scheduled := scheduled[c := Inbox(scheduled, c) + [m]];
          pending := pending - {c};
        }
        assert scheduled == Deliver(old(scheduled), targets, m);
      } else {
        BroadcastToEmptyKey(Model(), key, m);
      }
    }

    /** The IOLoop running the oldest write scheduled for socket c. */
    method RunWrite(c: ConnId)
      requires Valid() && c in scheduled
      modifies this
      ensures Valid()
      ensures Model() == RegistrySpec.RunWrite(old(Model()), c)
    {
      RunWriteGood(Model(), c);
      var pending := scheduled[c];
      outbox := outbox[c := Inbox(outbox, c) + [pending[0]]];
      if |pending| == 1 {
        scheduled := scheduled - {c};
      } else {
        scheduled := scheduled[c := pending[1..]];
      }
    }

    /** The IOLoop running every scheduled write, socket by socket. */
    method RunScheduled()
      requires Valid()
      modifies this
      ensures Valid()
      ensures Model() == Flush(old(Model()))
    {
      while scheduled != map[]
        invariant Valid()
        invariant Flush(Model()) == Flush(old(Model()))
        decreases scheduled.Keys
      {
        var c :| c in scheduled;
        ghost var before := scheduled.Keys;
        while c in scheduled
          invariant Valid()
          invariant Flush(Model()) == Flush(old(Model()))
          invariant scheduled.Keys <= before
          decreases |Inbox(scheduled, c)|
        {
          FlushAfterRunWrite(Model(), c);
          RunWrite(c);
        }
      }
      FlushIdle(Model());
    }

    /** An IOLoop turn: the consumer drains the queue and every scheduled write runs. */
    method RunTurn()
      requires Valid()
      modifies this
      ensures Valid()
      ensures Model() == Turn(old(Model()))
    {
      RunConsumer();
      RunScheduled();
    }

    /** `write_message`: append one message to what the socket has been sent. */
    method Send(c: ConnId, m: Json)
      requires Valid()
      modifies this
      ensures Valid()
      ensures Model() == RegistrySpec.Send(old(Model()), c, m)
    {
      outbox := outbox[c := Inbox(outbox, c) + [m]];
    }
  }
}
