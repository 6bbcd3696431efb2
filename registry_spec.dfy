/** The state of tornado_drizzle/subscriber.py as values: the module-level
    `subscriptions` map (key to set of sockets), every socket's own
    `subscribed_keys`, the FIFO queue `q` that `subscribe` feeds and the
    single `subscriber` coroutine drains, and what has been written to each
    socket. The class in subscriber.dfy is proved against these functions. */
module RegistrySpec {
  import opened JsonValue

  /** A socket, by identity. */
  type ConnId = nat

  /** The key every socket joins when it opens. */
  const ALL: string := "__all__"

  /** A queued subscription key. Handler code passes strings; `Unhashable` is
      a dict or list passed as a key, which the consumer cannot use as a
      dict key (see ApplyEntry and DrainAsWritten). */
  datatype SubKey = Key(name: string) | Unhashable(value: Json)

  /** One `(key, socket)` pair in the queue. */
  datatype Entry = Entry(key: SubKey, conn: ConnId)

  /** `subscriptions` and every socket's `subscribed_keys`. */
  datatype State = State(subs: map<string, set<ConnId>>, keys: map<ConnId, set<string>>)

  /** Everything subscriber.py owns or touches: the registry, the queue, the
      writes `publish` has handed to `spawn_callback` that the IOLoop has not
      run yet (per socket, in the order they will run), and the messages
      written to each socket, in order. */
  datatype Hub = Hub(
    state: State,
    queue: seq<Entry>,
    scheduled: map<ConnId, seq<Json>>,
    outbox: map<ConnId, seq<Json>>)

  function Members(st: State, k: string): set<ConnId> {
    if k in st.subs then st.subs[k] else {}
  }

  function KeysOf(st: State, c: ConnId): set<string> {
    if c in st.keys then st.keys[c] else {}
  }

  /** What a per-socket message map holds for c. */
  function Inbox(box: map<ConnId, seq<Json>>, c: ConnId): seq<Json> {
    if c in box then box[c] else []
  }

  /** The two-way invariant: c is in subscriptions[k] exactly when k is in c's subscribed_keys. */
  ghost predicate Consistent(st: State) {
    forall k, c :: c in Members(st, k) <==> k in KeysOf(st, c)
  }

  // ---------------------------------------------------------------------------
  // The mutations

  /** The consumer applying `(k, c)`: create the key's set on first sight, then add on both sides. */
  function Add(st: State, k: string, c: ConnId): State {
    var subs := if k in st.subs then st.subs else st.subs[k := {}];
    State(subs[k := subs[k] + {c}], st.keys[c := KeysOf(st, c) + {k}])
  }

  /** `unsubscribe(k, c)`: discard on both sides, and only when k is a known key. */
  function Discard(st: State, k: string, c: ConnId): State {
    if k in st.subs then State(st.subs[k := st.subs[k] - {c}], st.keys[c := KeysOf(st, c) - {k}])
    else st
  }

  /** One entry taken off the queue by the consumer. An entry whose key cannot
      be hashed is dropped; the code as written stops the consumer instead
      (DrainAsWritten). */
  function ApplyEntry(st: State, e: Entry): State {
    match e.key
    case Key(k) => Add(st, k, e.conn)
    case Unhashable(_) => st
  }

  /** The consumer emptying the queue, in FIFO order. */
  function Drain(st: State, q: seq<Entry>): State
    decreases |q|
  {
    if q == [] then st else Drain(ApplyEntry(st, q[0]), q[1..])
  }

  /** The consumer loop as written: on an unhashable key, `key not in subscriptions`
      raises TypeError, the `try/finally` lets it escape the `while True`, and the
      coroutine ends. Returns the final state and the entries no one will consume. */
  function DrainAsWritten(st: State, q: seq<Entry>): (State, seq<Entry>)
    decreases |q|
  {
    if q == [] then (st, [])
    else match q[0].key
      case Key(k) => DrainAsWritten(Add(st, k, q[0].conn), q[1..])
      case Unhashable(_) => (st, q[1..])
  }

  /** `on_close`'s loop over a snapshot of the socket's keys. */
  function DiscardAll(st: State, ks: seq<string>, c: ConnId): State
    decreases |ks|
  {
    if ks == [] then st else DiscardAll(Discard(st, ks[0], c), ks[1..], c)
  }

  /** The socket taken out of every set, and its own key set emptied. */
  function Detach(st: State, c: ConnId): State {
    State(map k | k in st.subs :: st.subs[k] - {c}, if c in st.keys then st.keys[c := {}] else st.keys)
  }

  /** One copy of m appended for every target, in no particular order between targets. */
  function Deliver(box: map<ConnId, seq<Json>>, targets: set<ConnId>, m: Json): map<ConnId, seq<Json>> {
    map c | c in box.Keys + targets :: Inbox(box, c) + (if c in targets then [m] else [])
  }

  // Transitions of the whole hub

  function Register(h: Hub, c: ConnId): Hub {
    h.(state := h.state.(keys := h.state.keys[c := {}]))
  }

  function Enqueue(h: Hub, e: Entry): Hub {
    h.(queue := h.queue + [e])
  }

  function Consume(h: Hub): Hub
    requires h.queue != []
  {
    h.(state := ApplyEntry(h.state, h.queue[0]), queue := h.queue[1..])
  }

  function Remove(h: Hub, k: string, c: ConnId): Hub {
    h.(state := Discard(h.state, k, c))
  }

  /** `publish` schedules one write per member; nothing is written yet. */
  function Broadcast(h: Hub, k: string, m: Json): Hub {
    h.(scheduled := Deliver(h.scheduled, Members(h.state, k), m))
  }

  /** The IOLoop running the oldest write scheduled for c. */
  function RunWrite(h: Hub, c: ConnId): Hub
    requires c in h.scheduled && h.scheduled[c] != []
  {
    var pending := h.scheduled[c];
    h.(outbox := h.outbox[c := Inbox(h.outbox, c) + [pending[0]]],
       scheduled := if |pending| == 1 then h.scheduled - {c} else h.scheduled[c := pending[1..]])
  }

  /** Every scheduled write run: each socket's writes land after what it already has. */
  function Flush(h: Hub): Hub {
    h.(outbox := map c | c in h.outbox.Keys + h.scheduled.Keys :: Inbox(h.outbox, c) + Inbox(h.scheduled, c),
       scheduled := map[])
  }

  /** One IOLoop turn that runs every pending callback: the consumer, woken by the
      queued pairs, drains the queue, and every scheduled write is made. */
  function Turn(h: Hub): Hub {
    Flush(h).(state := Drain(h.state, h.queue), queue := [])
  }

  function Send(h: Hub, c: ConnId, m: Json): Hub {
    h.(outbox := h.outbox[c := Inbox(h.outbox, c) + [m]])
  }

  /** The invariant the hub keeps: the two-way invariant, every queued socket
      exists, and a socket with scheduled writes has at least one. */
  ghost predicate Good(h: Hub) {
    && Consistent(h.state)
    && (forall i :: 0 <= i < |h.queue| ==> h.queue[i].conn in h.state.keys)
    && (forall c :: c in h.scheduled ==> h.scheduled[c] != [])
  }

  // ---------------------------------------------------------------------------
  // Lemmas about the consumer step

  /** After applying (k, c), c is in subscriptions[k] and k in c's keys; the key's
      set is created empty only if k was new; every other set and every other
      socket's keys are as before. */
  lemma AddEffect(st: State, k: string, c: ConnId)
    ensures var r := Add(st, k, c);
      && c in r.subs[k] && k in r.keys[c]
      && r.subs[k] == Members(st, k) + {c}
      && r.keys[c] == KeysOf(st, c) + {k}
      && r.subs.Keys == st.subs.Keys + {k}
      && (forall k' :: k' != k && k' in st.subs ==> r.subs[k'] == st.subs[k'])
      && (forall c' :: c' != c ==> KeysOf(r, c') == KeysOf(st, c'))
  {
  }

  lemma AddConsistent(st: State, k: string, c: ConnId)
    requires Consistent(st)
    ensures Consistent(Add(st, k, c))
  {
    var r := Add(st, k, c);
    AddEffect(st, k, c);
    forall k', c' ensures c' in Members(r, k') <==> k' in KeysOf(r, c') {
      assert c' in Members(st, k') <==> k' in KeysOf(st, c');
    }
  }

  /** Applying the same pair twice is applying it once. */
  lemma AddIdempotent(st: State, k: string, c: ConnId)
    ensures Add(Add(st, k, c), k, c) == Add(st, k, c)
  {
    var once := Add(st, k, c);
    assert once.subs[k := once.subs[k] + {c}] == once.subs;
    assert once.keys[c := KeysOf(once, c) + {k}] == once.keys;
  }

  lemma ConsumeGood(h: Hub)
    requires Good(h) && h.queue != []
    ensures Good(Consume(h))
  {
    var e := h.queue[0];
    if e.key.Key? { AddConsistent(h.state, e.key.name, e.conn); }
    var h' := Consume(h);
    forall i | 0 <= i < |h'.queue|
      ensures h'.queue[i].conn in h'.state.keys
    {
      assert h'.queue[i] == h.queue[i + 1];
    }
  }

  /** Draining q1 then q2 is draining q1 + q2: the registry sees entries in queue order. */
  lemma {:induction false} DrainAppend(st: State, q1: seq<Entry>, q2: seq<Entry>)
    ensures Drain(st, q1 + q2) == Drain(Drain(st, q1), q2)
    decreases |q1|
  {
    if q1 == [] {
      assert q1 + q2 == q2;
    } else {
      assert (q1 + q2)[0] == q1[0];
      assert (q1 + q2)[1..] == q1[1..] + q2;
      DrainAppend(ApplyEntry(st, q1[0]), q1[1..], q2);
    }
  }

  /** Draining never removes a membership. */
  lemma {:induction false} DrainGrows(st: State, q: seq<Entry>, k: string, c: ConnId)
    ensures Members(st, k) <= Members(Drain(st, q), k)
    ensures KeysOf(st, c) <= KeysOf(Drain(st, q), c)
    decreases |q|
  {
    if q != [] {
      DrainGrows(ApplyEntry(st, q[0]), q[1..], k, c);
    }
  }

  /** Every queued pair with a usable key is in force once the queue is drained. */
  lemma {:induction false} DrainAppliesEveryKeyedEntry(st: State, q: seq<Entry>, i: nat)
    requires i < |q| && q[i].key.Key?
    ensures q[i].conn in Members(Drain(st, q), q[i].key.name)
    ensures q[i].key.name in KeysOf(Drain(st, q), q[i].conn)
    decreases |q|
  {
    if i == 0 {
      AddEffect(st, q[0].key.name, q[0].conn);
      DrainGrows(ApplyEntry(st, q[0]), q[1..], q[0].key.name, q[0].conn);
    } else {
      DrainAppliesEveryKeyedEntry(ApplyEntry(st, q[0]), q[1..], i - 1);
    }
  }

  lemma {:induction false} DrainConsistent(st: State, q: seq<Entry>)
    requires Consistent(st)
    ensures Consistent(Drain(st, q))
    decreases |q|
  {
    if q != [] {
      if q[0].key.Key? { AddConsistent(st, q[0].key.name, q[0].conn); }
      DrainConsistent(ApplyEntry(st, q[0]), q[1..]);
    }
  }

  /** N distinct sockets, none yet in k, queued for k: k's set grows by exactly N. */
  lemma {:induction false} DrainAddsDistinct(st: State, q: seq<Entry>, k: string)
    requires forall i :: 0 <= i < |q| ==> q[i].key == Key(k) && q[i].conn !in Members(st, k)
    requires forall i, j :: 0 <= i < j < |q| ==> q[i].conn != q[j].conn
    ensures |Members(Drain(st, q), k)| == |Members(st, k)| + |q|
    decreases |q|
  {
    if q != [] {
      var st' := Add(st, k, q[0].conn);
      assert Members(st', k) == Members(st, k) + {q[0].conn};
      forall i | 0 <= i < |q[1..]|
        ensures q[1..][i].key == Key(k) && q[1..][i].conn !in Members(st', k)
      {
        assert q[1..][i] == q[i + 1];
      }
      DrainAddsDistinct(st', q[1..], k);
    }
  }

  // ---------------------------------------------------------------------------
  // The consumer as written stops at the first unhashable key

  /** Once an unhashable entry reaches the consumer, nothing queued after it is
      ever applied: the state is what the hashable prefix made it, and the rest
      of the queue is stranded. */
  lemma {:induction false} ConsumerHaltsOnUnhashableKey(st: State, q1: seq<Entry>, bad: Json, c: ConnId, q2: seq<Entry>)
    requires forall i :: 0 <= i < |q1| ==> q1[i].key.Key?
    ensures DrainAsWritten(st, q1 + [Entry(Unhashable(bad), c)] + q2) == (Drain(st, q1), q2)
    decreases |q1|
  {
    var q := q1 + [Entry(Unhashable(bad), c)] + q2;
    if q1 == [] {
      assert q[0] == Entry(Unhashable(bad), c) && q[1..] == q2;
    } else {
      assert q[0] == q1[0];
      assert q[1..] == q1[1..] + [Entry(Unhashable(bad), c)] + q2;
      ConsumerHaltsOnUnhashableKey(Add(st, q1[0].key.name, q1[0].conn), q1[1..], bad, c, q2);
    }
  }

  /** Concretely: socket 1 invokes the inherited `subscribe` action (its message,
      a dict, becomes the key), then socket 2 opens. As written, socket 2 never
      joins '__all__'; with the entry dropped instead, it does. */
  lemma StrandedOpen(msg: map<string, Json>)
    ensures var q := [Entry(Unhashable(JObj(msg)), 1), Entry(Key(ALL), 2)];
      && 2 !in Members(DrainAsWritten(State(map[], map[]), q).0, ALL)
      && DrainAsWritten(State(map[], map[]), q).1 == [Entry(Key(ALL), 2)]
      && 2 in Members(Drain(State(map[], map[]), q), ALL)
  {
    var q := [Entry(Unhashable(JObj(msg)), 1), Entry(Key(ALL), 2)];
    ConsumerHaltsOnUnhashableKey(State(map[], map[]), [], JObj(msg), 1, [Entry(Key(ALL), 2)]);
    assert [] + [Entry(Unhashable(JObj(msg)), 1)] + [Entry(Key(ALL), 2)] == q;
    DrainAppliesEveryKeyedEntry(State(map[], map[]), q, 1);
  }

  // ---------------------------------------------------------------------------
  // unsubscribe and on_close

  /** unsubscribe(k, c) on a known key removes c from k's set and k from c's keys,
      leaves the (possibly empty) entry for k in place, and changes nothing else;
      on an unknown key it changes nothing at all. */
  lemma DiscardEffect(st: State, k: string, c: ConnId)
    ensures var r := Discard(st, k, c);
      && (k !in st.subs ==> r == st)
      && (k in st.subs ==>
            && r.subs.Keys == st.subs.Keys
            && r.subs[k] == st.subs[k] - {c}
            && KeysOf(r, c) == KeysOf(st, c) - {k})
      && (forall k' :: k' != k ==> Members(r, k') == Members(st, k'))
      && (forall c' :: c' != c ==> KeysOf(r, c') == KeysOf(st, c'))
  {
  }

  lemma DiscardConsistent(st: State, k: string, c: ConnId)
    requires Consistent(st)
    ensures Consistent(Discard(st, k, c))
  {
    var r := Discard(st, k, c);
    DiscardEffect(st, k, c);
    forall k', c' ensures c' in Members(r, k') <==> k' in KeysOf(r, c') {
      assert c' in Members(st, k') <==> k' in KeysOf(st, c');
    }
  }

  /** Detaching keeps the invariant, leaves c in no set with no keys, and
      touches no other socket. */
  lemma DetachEffect(st: State, c: ConnId)
    requires Consistent(st)
    ensures var r := Detach(st, c);
      && Consistent(r)
      && KeysOf(r, c) == {}
      && (forall k :: c !in Members(r, k))
      && (forall k :: Members(r, k) == Members(st, k) - {c})
      && (forall c' :: c' != c ==> KeysOf(r, c') == KeysOf(st, c'))
  {
    var r := Detach(st, c);
    forall k', c' ensures c' in Members(r, k') <==> k' in KeysOf(r, c') {
      assert c' in Members(st, k') <==> k' in KeysOf(st, c');
    }
  }

  /** Closing one member of k shrinks k's set by exactly one. */
  lemma DetachShrinksByOne(st: State, c: ConnId, k: string)
    requires Consistent(st) && c in Members(st, k)
    ensures |Members(Detach(st, c), k)| == |Members(st, k)| - 1
  {
    DetachEffect(st, c);
  }

  lemma {:induction false} DiscardAllSnoc(st: State, ks: seq<string>, k: string, c: ConnId)
    ensures DiscardAll(st, ks + [k], c) == Discard(DiscardAll(st, ks, c), k, c)
    decreases |ks|
  {
    if ks == [] {
      assert ([] + [k])[1..] == [];
    } else {
      assert (ks + [k])[0] == ks[0];
      assert (ks + [k])[1..] == ks[1..] + [k];
      DiscardAllSnoc(Discard(st, ks[0], c), ks[1..], k, c);
    }
  }

  /** Detaching after discarding one of c's own keys is detaching. */
  lemma DetachAbsorbsDiscard(st: State, k: string, c: ConnId)
    requires Consistent(st) && k in KeysOf(st, c)
    ensures Detach(Discard(st, k, c), c) == Detach(st, c)
  {
    var r := Discard(st, k, c);
    assert c in Members(st, k);
    assert k in st.subs;
    assert r.subs.Keys == st.subs.Keys;
    forall k' | k' in r.subs ensures r.subs[k'] - {c} == st.subs[k'] - {c} {
      if k' == k { assert r.subs[k'] == st.subs[k] - {c}; }
    }
    assert Detach(r, c).subs == Detach(st, c).subs;
    assert c in st.keys;
    assert Detach(r, c).keys == st.keys[c := {}];
  }

  /** Under the two-way invariant, unsubscribing c from every key of a snapshot
      of its keys, in any order, is detaching it. */
  lemma {:induction false} DiscardAllIsDetach(st: State, ks: seq<string>, c: ConnId)
    requires Consistent(st)
    requires forall k :: k in ks <==> k in KeysOf(st, c)
    requires forall i, j :: 0 <= i < j < |ks| ==> ks[i] != ks[j]
    ensures DiscardAll(st, ks, c) == Detach(st, c)
    decreases |ks|
  {
    if ks == [] {
      forall k ensures k !in KeysOf(st, c) {
        assert k !in ks;
      }
      assert KeysOf(st, c) == {};
      forall k | k in st.subs ensures st.subs[k] - {c} == st.subs[k] {
        assert k !in KeysOf(st, c);
        assert c !in Members(st, k);
      }
      assert Detach(st, c).subs == st.subs;
      assert Detach(st, c).keys == st.keys;
    } else {
      var k0 := ks[0];
      var st' := Discard(st, k0, c);
      DiscardConsistent(st, k0, c);
      assert k0 in ks;
      assert k0 in KeysOf(st, c);
      assert c in Members(st, k0);
      DiscardEffect(st, k0, c);
      assert KeysOf(st', c) == KeysOf(st, c) - {k0};
      forall k ensures k in ks[1..] <==> k in KeysOf(st', c) {
        if k in ks[1..] {
          var j :| 0 <= j < |ks[1..]| && ks[1..][j] == k;
          assert ks[j + 1] == k;
        }
        if k in KeysOf(st', c) {
          assert k in ks;
          var j :| 0 <= j < |ks| && ks[j] == k;
          assert j != 0;
          assert ks[1..][j - 1] == k;
        }
      }
      DiscardAllIsDetach(st', ks[1..], c);
      DetachAbsorbsDiscard(st, ks[0], c);
    }
  }

  // ---------------------------------------------------------------------------
  // publish

  /** Each target gets exactly one more copy of m at the end of what it had; nobody else gets anything. */
  lemma DeliverExactlyOnce(outbox: map<ConnId, seq<Json>>, targets: set<ConnId>, m: Json)
    ensures forall c :: Inbox(Deliver(outbox, targets, m), c)
                     == Inbox(outbox, c) + (if c in targets then [m] else [])
  {
  }

  /** Publishing to a key no one is in schedules nothing. */
  lemma BroadcastToEmptyKey(h: Hub, k: string, m: Json)
    requires Members(h.state, k) == {}
    ensures Broadcast(h, k, m) == h
  {
    var d := Deliver(h.scheduled, {}, m);
    assert d.Keys == h.scheduled.Keys;
    forall c | c in d ensures d[c] == h.scheduled[c] {
      assert d[c] == Inbox(h.scheduled, c) + [];
    }
    assert d == h.scheduled;
  }

  /** Publishing keeps the hub's invariant. */
  lemma BroadcastGood(h: Hub, k: string, m: Json)
    requires Good(h)
    ensures Good(Broadcast(h, k, m))
  {
    var d := Deliver(h.scheduled, Members(h.state, k), m);
    forall c | c in d ensures d[c] != [] {
      if c !in Members(h.state, k) {
        assert c in h.scheduled && d[c] == h.scheduled[c] + [];
      }
    }
  }

  // ---------------------------------------------------------------------------
  // The IOLoop running scheduled writes

  /** Running one scheduled write changes nothing about where all of them end up:
      writes to one socket land in the order they were scheduled. */
  lemma FlushAfterRunWrite(h: Hub, c: ConnId)
    requires c in h.scheduled && h.scheduled[c] != []
    ensures Flush(RunWrite(h, c)) == Flush(h)
  {
    var h', pending := RunWrite(h, c), h.scheduled[c];
    assert Inbox(h'.outbox, c) + Inbox(h'.scheduled, c) == Inbox(h.outbox, c) + pending by {
      if |pending| == 1 {
        assert pending == [pending[0]];
      } else {
        assert [pending[0]] + pending[1..] == pending;
      }
    }
    forall d | d != c
      ensures Inbox(h'.outbox, d) + Inbox(h'.scheduled, d) == Inbox(h.outbox, d) + Inbox(h.scheduled, d)
    {
    }
    assert h'.outbox.Keys + h'.scheduled.Keys == h.outbox.Keys + h.scheduled.Keys;
  }

  /** Running a scheduled write keeps the hub's invariant. */
  lemma RunWriteGood(h: Hub, c: ConnId)
    requires Good(h) && c in h.scheduled
    ensures Good(RunWrite(h, c))
  {
  }

  /** With nothing scheduled, running the IOLoop changes nothing. */
  lemma FlushIdle(h: Hub)
    requires h.scheduled == map[]
    ensures Flush(h) == h
  {
    var o := Flush(h).outbox;
    assert o.Keys == h.outbox.Keys;
    forall c | c in o ensures o[c] == h.outbox[c] {
      assert o[c] == h.outbox[c] + [];
    }
  }
}
