# tornado_drizzle in Dafny

tornado_drizzle adds a small request/response and publish/subscribe protocol
to Tornado websockets. Each client message is a JSON object with `resource`,
`action` and `request_id`, and optionally a `data` object. The socket checks
it against `MESSAGE_SCHEMA`, looks `resource` up in the application's
`drizzle_handler_routes`, and calls the named method on a fresh handler
instance. It then writes back exactly one reply: `{data, request_id}` on
success, or `{error, code, request_id}` on failure. Subscriptions go through
a queue. `subscribe(key, socket)` only enqueues the pair; a single consumer
coroutine applies the pairs to the module-wide `subscriptions` dict and to
the socket's own `subscribed_keys`. `publish(key, message)` schedules one
`write_message` per current member of the key on the IOLoop, and
`unsubscribe` removes a membership at once.

The project has these parts:

- `schema.dfy` (`MessageSchema`) holds `MESSAGE_SCHEMA` as data and a small
  draft-04 validator for it (`required`, `properties`, `type`, `oneOf`). The
  validator is proved to accept exactly the messages of the reference
  predicate `WellFormed`. Every way a message can fail is tied to the text
  that is reported.
- `registry_spec.dfy` (`RegistrySpec`) holds the registry as a value: the
  two-way map between keys and sockets, the queue, the writes scheduled
  for each socket, and what each socket has been sent. It also defines the transitions of `subscriber.py` on that
  value and proves the lemmas about them.
- `subscriber.dfy` (`Subscriber.Registry`) is the registry as a class with
  mutable fields. Each method is proved against the matching transition.
  The consumer loop is `Step` and `RunConsumer`. The IOLoop running the
  scheduled writes is `RunWrite` and `RunScheduled`.
- `router.dfy` (`Router`) models the `on_message` pipeline as a function
  from the decoded payload and the route table to the reply and the
  registry effects of the action. It includes `_find_handler`,
  `_find_handler_action` (Python attribute lookup, the inherited
  `DrizzleHandler.subscribe` included) and `_make_error_response`.
- `websocket.dfy` (`DrizzleWebSocket`) holds `open`, `on_close` and
  `on_message` as methods on the shared `Registry`.

## Model

| member | source | states |
|---|---|---|
| Subscriber.Registry.constructor | tornado_drizzle/subscriber.py:6-7 | the registry starts with no subscriptions, an empty queue, nothing scheduled and nothing sent |
| Subscriber.Registry.AddSocket | tornado_drizzle/drizzle_web_socket.py:38-41 | a new socket starts with an empty `subscribed_keys`, and the two-way invariant is kept |
| Subscriber.Registry.Subscribe | tornado_drizzle/subscriber.py:33-35 | `subscribe` only appends (key, socket) to the tail of the queue; no membership changes |
| Subscriber.Registry.Step | tornado_drizzle/subscriber.py:12-20 | one turn of the corrected consumer removes the head of the queue and applies it (creates the key's set if missing, adds the socket on both sides), and the invariant is kept; an entry with an unhashable key is dropped, where the code as written dies (`RegistrySpec.DrainAsWritten`) |
| Subscriber.Registry.RunConsumer | tornado_drizzle/subscriber.py:10-20 | running the corrected consumer until the queue is empty leaves the registry equal to the queue applied in order; the consumer as written stops at the first unhashable key (`RegistrySpec.ConsumerHaltsOnUnhashableKey`) |
| Subscriber.Registry.Unsubscribe | tornado_drizzle/subscriber.py:38-41 | `unsubscribe` discards the socket from the key's set and the key from the socket's keys, only when the key exists |
| Subscriber.Registry.Publish | tornado_drizzle/subscriber.py:23-30 | `publish` schedules the message once for each current member of the key and for nobody else; nothing is written yet |
| Subscriber.Registry.RunWrite | tornado_drizzle/subscriber.py:27-30 | the IOLoop runs the oldest write scheduled for a socket: it is appended to what the socket has been sent |
| Subscriber.Registry.RunScheduled | tornado_drizzle/subscriber.py:27-30 | once the IOLoop has run every scheduled write, each socket has its scheduled messages after what it already had, in the order they were scheduled |
| Subscriber.Registry.RunTurn | tornado_drizzle/subscriber.py:10-30 | an IOLoop turn that runs every pending callback: the corrected consumer applies the whole queue in order (the consumer as written stops at the first unhashable key), and every scheduled write is made |
| Subscriber.Registry.Send | tornado_drizzle/drizzle_web_socket.py:131 | `write_message` called directly appends one message to what that socket has been sent, at once |
| RegistrySpec.AddEffect | tornado_drizzle/subscriber.py:15-18 | after a pair is applied, the socket is in the key's set and the key is in the socket's keys; no other key or socket changes |
| RegistrySpec.AddConsistent | tornado_drizzle/subscriber.py:15-18 | applying a pair keeps "socket in subscriptions[k] iff k in socket.subscribed_keys" |
| RegistrySpec.AddIdempotent | tornado_drizzle/subscriber.py:15-18 | applying the same pair twice is the same as applying it once (set semantics) |
| RegistrySpec.ConsumeGood | tornado_drizzle/subscriber.py:13-20 | a consumer turn keeps the invariant and keeps every queued socket registered |
| RegistrySpec.DrainAppend | tornado_drizzle/subscriber.py:10-20 | draining q1 and then q2 is draining q1 + q2, so the pairs are applied in FIFO order |
| RegistrySpec.DrainGrows | tornado_drizzle/subscriber.py:10-20 | the consumer never removes a membership |
| RegistrySpec.DrainAppliesEveryKeyedEntry | tornado_drizzle/subscriber.py:10-20 | every queued pair with a string key is in force on both sides once the queue is drained |
| RegistrySpec.DrainConsistent | tornado_drizzle/subscriber.py:10-20 | draining any queue keeps the two-way invariant |
| RegistrySpec.DrainAddsDistinct | tornado_drizzle/subscriber.py:10-20 | N distinct new sockets queued for k grow k's set by exactly N |
| RegistrySpec.ConsumerHaltsOnUnhashableKey | tornado_drizzle/subscriber.py:13-20 | with an unhashable key the consumer applies exactly the pairs before it, then stops, and every later pair stays queued |
| RegistrySpec.StrandedOpen | tornado_drizzle/drizzle_web_socket.py:31-33 | concrete case: after a client's `subscribe` action, another socket's `open` never reaches '__all__' as written; with the corrected consumer it does |
| RegistrySpec.DiscardEffect | tornado_drizzle/subscriber.py:38-41 | unsubscribing from a known key removes exactly that membership on both sides; from an unknown key it changes nothing |
| RegistrySpec.DiscardConsistent | tornado_drizzle/subscriber.py:38-41 | `unsubscribe` keeps the two-way invariant |
| RegistrySpec.DetachEffect | tornado_drizzle/drizzle_web_socket.py:50-53 | a closed socket is in no set and has no keys; every other socket keeps its memberships; the invariant is kept |
| RegistrySpec.DetachShrinksByOne | tornado_drizzle/drizzle_web_socket.py:50-53 | closing a member of k shrinks k's set by exactly one |
| RegistrySpec.DiscardAllSnoc | tornado_drizzle/drizzle_web_socket.py:52-53 | the `on_close` loop unsubscribes keys one after another, in list order |
| RegistrySpec.DetachAbsorbsDiscard | tornado_drizzle/drizzle_web_socket.py:52-53 | unsubscribing from one of the socket's own keys and then closing is the same as closing |
| RegistrySpec.DiscardAllIsDetach | tornado_drizzle/drizzle_web_socket.py:50-53 | unsubscribing from every key of a snapshot of `subscribed_keys`, in any order, detaches the socket completely |
| RegistrySpec.DeliverExactlyOnce | tornado_drizzle/subscriber.py:25-30 | each target gets exactly one more copy of the message at the end of what is scheduled for it; every other socket gets nothing |
| RegistrySpec.BroadcastToEmptyKey | tornado_drizzle/subscriber.py:25 | publishing to a key with no members, or to an unknown key, schedules nothing |
| RegistrySpec.BroadcastGood | tornado_drizzle/subscriber.py:23-30 | `publish` keeps the registry's invariant |
| RegistrySpec.FlushAfterRunWrite | tornado_drizzle/subscriber.py:27-30 | running one scheduled write does not change where all of them end up: each socket's writes land in the order they were scheduled |
| RegistrySpec.RunWriteGood | tornado_drizzle/subscriber.py:27-30 | running a scheduled write keeps the registry's invariant |
| RegistrySpec.FlushIdle | tornado_drizzle/subscriber.py:27-30 | with nothing scheduled, running the IOLoop writes nothing |
| DrizzleWebSocket.Open | tornado_drizzle/drizzle_web_socket.py:46-48 | `open` registers the socket and only queues ('__all__', socket) |
| DrizzleWebSocket.OnClose | tornado_drizzle/drizzle_web_socket.py:50-53 | after `on_close` the socket is in no set and has no keys; other sockets, the queue, the scheduled writes and the written messages are unchanged |
| DrizzleWebSocket.ApplyEffects | tornado_drizzle/drizzle_web_socket.py:80 | the action's subscribe, unsubscribe and publish calls take effect in the order it made them |
| DrizzleWebSocket.OnMessage | tornado_drizzle/drizzle_web_socket.py:55-131 | a message runs the effects of the action (its publishes only schedule writes); if the future the action returned was pending, the IOLoop takes a turn; then exactly one reply is written to its own socket |
| DrizzleWebSocket.ReplyOrder | tornado_drizzle/drizzle_web_socket.py:80-131 | the reply carries `request_id`; with a resolved future it is the one message `on_message` writes and every scheduled write, the action's own included, lands after it; with a pending future those writes are made during the turn and the reply comes after them, with nothing left scheduled |
| DrizzleWebSocket.SelfPublishLandsAfterReply | tornado_drizzle/subscriber.py:23-30 | an action with a resolved future that publishes to '__all__', which its own socket joined, gives that socket the reply first and its own copy after it |
| DrizzleWebSocket.SelfPublishLandsBeforeReply | tornado_drizzle/drizzle_web_socket.py:80 | the same action with a pending future (a plain method returning None) gives that socket its own copy first and the reply after it |
| DrizzleWebSocket.SelfPublishSchedules | tornado_drizzle/subscriber.py:23-30 | publishing to '__all__' schedules exactly one copy for a member with nothing pending and writes nothing |
| DrizzleWebSocket.SendPlacement | tornado_drizzle/drizzle_web_socket.py:80-131 | the reply is written straight after the action when its future was resolved, and after the socket's scheduled writes when the IOLoop took a turn |
| DrizzleWebSocket.FlushInbox | tornado_drizzle/subscriber.py:27-30 | once the IOLoop has run the scheduled writes, a socket has what it had, then what was scheduled for it, in order |
| DrizzleWebSocket.RunEffectsOnlySchedules | tornado_drizzle/subscriber.py:23-30 | an action's effects write nothing themselves; they only add to what is scheduled for each socket |
| DrizzleWebSocket.PublishReachesOnlyMembers | tornado_drizzle/subscriber.py:23-30 | A and B in "room1" get one copy each, at the end, once the IOLoop has run the writes; X, who is not in it, gets nothing |
| Router.FindHandlerAction | tornado_drizzle/drizzle_web_socket.py:133-151 | the lookup succeeds iff the attribute exists and is a method; it returns the subclass's own method, or else DrizzleHandler's; otherwise the error names the action and the class |
| Router.FindHandler | tornado_drizzle/drizzle_web_socket.py:153-162 | the lookup succeeds iff the resource is routed, and returns its handler class; otherwise the error is "resource '<r>' not found in drizzle_handler_routes" |
| Router.MakeErrorResponse | tornado_drizzle/drizzle_web_socket.py:164-165 | once `request_id` is attached, an error reply is a dict with exactly `error`, `code` and `request_id` |
| Router.Handle | tornado_drizzle/drizzle_web_socket.py:55-131 | no action runs, no reply is a success, and the IOLoop takes no turn, unless the message decoded, validated as an object, and both lookups succeeded; every exception, from the checks or from the action, goes through the same `except` clauses by type |
| Router.DecodeFailureReply | tornado_drizzle/drizzle_web_socket.py:81-88 | an undecodable payload gets `{error: "Expected Json encodable string", code: VALIDATION_ERROR, request_id: None}` |
| Router.SchemaFailureReply | tornado_drizzle/drizzle_web_socket.py:89-96 | a message that breaks the schema gets the validator's text with VALIDATION_ERROR, `request_id` None, and no action runs |
| Router.MissingFieldReply | tornado_drizzle/drizzle_web_socket.py:89-96 | a missing required field is answered with jsonschema's text for it, which starts with "'<field>' is a required property" |
| Router.NonObjectReply | tornado_drizzle/drizzle_web_socket.py:65 | a JSON non-object passes the schema and then fails at `message['request_id']` with "Unknown error" and `request_id` None |
| Router.ResourceNotFoundReply | tornado_drizzle/drizzle_web_socket.py:153-162 | an unrouted resource gets RESOURCE_NOT_FOUND with "resource '<r>' not found in drizzle_handler_routes" and the client's `request_id` |
| Router.ActionNotFoundReply | tornado_drizzle/drizzle_web_socket.py:106-114 | a missing or non-method action gets ACTION_NOT_FOUND with "action definition '<a>' not found in handler <Class>" |
| Router.ActionRaisesReply | tornado_drizzle/drizzle_web_socket.py:80-120 | an exception from the action is matched by type: JSONDecodeError gets "Expected Json encodable string", jsonschema's ValidationError its own text with VALIDATION_ERROR, MissingDrizzleHandler and MissingDrizzleAction their own text with RESOURCE_NOT_FOUND and ACTION_NOT_FOUND, anything else "Unknown error"; the client's `request_id` is attached and the action's earlier effects stand |
| Router.SuccessReply | tornado_drizzle/drizzle_web_socket.py:80 | success is exactly `{data: <the action's result>, request_id: <the client's value>}` |
| Router.RequestIdAttached | tornado_drizzle/drizzle_web_socket.py:60-65 | every reply carries `request_id`: the client's value once an object has validated, None otherwise |
| Router.InheritedInitReachable | tornado_drizzle/drizzle_web_socket.py:28-29 | the action "__init__" reaches DrizzleHandler's `__init__`, which returns None; `yield None` lets the IOLoop take a turn, and the reply is a success with `data` None |
| Router.InheritedSubscribeReachable | tornado_drizzle/drizzle_web_socket.py:31-33 | the action "subscribe" reaches the inherited `DrizzleHandler.subscribe`, queues the whole message dict as a key, and succeeds with `data` None |
| MessageSchema.Validate | tornado_drizzle/drizzle_web_socket.py:167-171 | `jsonschema.validate` raises nothing iff the message is a non-object, or an object with string `resource` and `action`, a string or number `request_id`, and an object `data` when present |
| MessageSchema.ErrorsEmptyIffWellFormed | tornado_drizzle/conf.py:4-32 | the draft-04 reading of MESSAGE_SCHEMA finds no error exactly on the messages of the field-by-field reading |
| MessageSchema.Describe | tornado_drizzle/drizzle_web_socket.py:94-96 | the error text, `str(e)`, starts with jsonschema's message and ends with "On instance", the path of the field at fault, and its value |
| MessageSchema.NonObjectPasses | tornado_drizzle/conf.py:4-32 | the schema has no top-level `type`, so a non-object has no error |
| MessageSchema.ObjectErrors | tornado_drizzle/conf.py:4-32 | the errors for an object are its missing required fields, then the checks of `request_id`, `resource`, `action` and `data`, in that order |
| MessageSchema.MessageRequiredErrors | tornado_drizzle/conf.py:6-10 | one "required" violation per missing field, in declared order |
| MessageSchema.MessagePropertyErrors | tornado_drizzle/conf.py:11-31 | each declared property is checked only when present |
| MessageSchema.MessageResourceOnwardErrors | tornado_drizzle/conf.py:22-30 | after `request_id`, `resource`, `action` and `data` are checked in that order, each only when present |
| MessageSchema.MessageActionAndDataErrors | tornado_drizzle/conf.py:25-30 | `action` must be a string and `data` an object |
| MessageSchema.PropertyErrorsStep | tornado_drizzle/conf.py:11-31 | a property's sub-schema is checked at its own path, only when the property is present |
| MessageSchema.TypeSchemaErrors | tornado_drizzle/conf.py:14-30 | a `type` schema has no error iff the value has that JSON type |
| MessageSchema.RequestIdMatchesOne | tornado_drizzle/conf.py:12-21 | a string or a number matches exactly one `oneOf` branch; anything else matches none |
| MessageSchema.RequestIdErrors | tornado_drizzle/conf.py:12-21 | `request_id` has no error iff it is a string or a number |
| MessageSchema.MissingRequiredReported | tornado_drizzle/conf.py:6-10 | the first missing field in declared order is the reported violation |
| MessageSchema.ResourceTypeReported | tornado_drizzle/conf.py:22-24 | when `request_id` is valid, a non-string `resource` is reported as not of type 'string' |
| MessageSchema.ActionTypeReported | tornado_drizzle/conf.py:25-27 | when `request_id` is valid and `resource` is a string, a non-string `action` is reported as not of type 'string' |
| MessageSchema.RequestIdTypeReported | tornado_drizzle/conf.py:12-21 | a `request_id` that is neither string nor number is reported as a `oneOf` failure; it is the first property checked, so that is the error jsonschema 2.x raises |
| MessageSchema.DataMustBeObject | tornado_drizzle/conf.py:28-30 | a present non-object `data` makes the message invalid |
| MessageSchema.ExtraFieldAccepted | tornado_drizzle/conf.py:11-31 | adding a field the schema does not declare leaves a message valid exactly when it was valid before |

## Left out

- Logging through `DrizzleLogger` and `logger` (utils.py and the `spawn_callback` log calls) has no effect on the protocol. utils.py is not part of this model.
- The Tornado transport is not modelled: a write is a message appended to what the socket has been sent.
- RunScheduled, RunWrite: the IOLoop runs every callback in the order it was scheduled. The model keeps that order per socket, which is all any one socket can see, but lets the environment run different sockets' writes in any order.
- RunWrite: a scheduled `write_message` to a socket that has closed in the meantime raises WebSocketClosedError inside the callback. The model appends it all the same.
- OnMessage, ReplyOrder: an action whose future is already done when `on_message` yields it runs without the IOLoop taking a turn. That holds for coroutine actions that only publish, subscribe or unsubscribe, and for the inherited `subscribe`. Any other action is modelled as pending, with exactly one IOLoop turn before the reply, in which the consumer drains the queue and every scheduled write is made. Pending actions include coroutines that await I/O, the inherited `__init__`, and plain methods that return None. Other sockets' messages arriving during that turn, and an action's effects interleaved with several turns, are not modelled.
- InheritedInitReachable: the model assumes Tornado 4.5 or later, where `yield None` is `gen.moment`. Before 4.5, `yield None` raises BadYieldError, so the action "__init__" would get "Unknown error". A plain method that returns a value which cannot be yielded (a string, a number) gets BadYieldError too; such an action is written as an `Outcome` whose result is `OtherException`.
- OnMessage: action results are assumed to be JSON-encodable. A result that is not (a `set`, a `datetime`) makes `write_message(response)` raise inside `finally`; the exception escapes `on_message`, and no reply is written.
- The consumer coroutine runs concurrently with the sockets. The model makes its turns explicit (`Step`, `RunConsumer`), so any interleaving is some sequence of calls. It does not address the race in which a socket closes while a pair for it is still queued.
- `json.loads` is not modelled: the payload arrives already decoded, as `Option<Json>`, with None for a JSONDecodeError. A decode that fails in some other way would take the "Unknown error" path and is not modelled.
- Validate: the repository does not pin a jsonschema version. The model follows jsonschema 2.x, whose `validate` raises the first error in keyword order. From 3.0 on, `validate` raises the error `best_match` picks. That pick prefers a `type` error over the `oneOf` error of `request_id`, and descends into the `oneOf` branches' own errors. Under 3.x, `RequestIdTypeReported` and `SchemaFailureReply` would name a different error whenever several fields fail.
- Describe: the text is jsonschema 2.x's `str(e)`, except for `Repr`. `Repr` prints arrays and objects as `[...]` and `{...}`, and does not escape quotes or backslashes inside strings. This abbreviates the instance dump of a `required` error, which is the whole message. It also abbreviates the first line of a `type` or `oneOf` error whose value is an array or object: the model gives "[...] is not of type 'string'" where jsonschema prints "[1, 2] is not of type 'string'".
- Step, RunConsumer, RunTurn, OnMessage: these model the corrected consumer, which drops an entry whose key is unhashable and goes on. The IOLoop turn that `OnMessage` takes for a pending action drains the queue with this consumer too. The consumer as written dies at that entry (`RegistrySpec.DrainAsWritten`; see Findings).
- Numbers are integers; floats are not modelled.
- Python's `True == 1` aliasing of dictionary keys does not apply: keys in the model are strings or unhashable values.
- Handler constructors are assumed not to raise, and `getattr` of a property that raises is not modelled. The inherited `__init__` used as an action returns None (see InheritedInitReachable).
- `init_drizzle` (conf.py:35-37) only starts the consumer and stores the route table. Here the route table is a parameter, and the consumer is driven by `Step`/`RunConsumer`.
- The module-global registry is one `Registry` object passed to every socket operation. Each socket's `subscribed_keys` is kept in the registry under the socket's identity, not on the socket object.
- `check_origin` always returns True and is not modelled.

## Findings

| source | as written | input that shows it | evidently intended | confidence | as-written member | corrected member |
|---|---|---|---|---|---|---|
| tornado_drizzle/subscriber.py:13-20 with tornado_drizzle/drizzle_web_socket.py:31-33 | an action named "subscribe" resolves to the inherited `DrizzleHandler.subscribe(message)`. That queues the whole message dict as a key. The consumer's `key not in subscriptions` raises TypeError (a dict is unhashable). `try/finally` does not catch it, so the `while True` coroutine ends, and no later subscription, including every socket's '__all__' on `open`, is ever applied | `{"resource": "<any routed resource>", "action": "subscribe", "request_id": 1}`, then any socket opens | a bad key is skipped and the consumer keeps serving the queue | not executed; high | RegistrySpec.ConsumerHaltsOnUnhashableKey | RegistrySpec.DrainAppliesEveryKeyedEntry |
