/** The request/response protocol of `DrizzleWebSocket.on_message`
    (tornado_drizzle/drizzle_web_socket.py): decode, validate against
    MESSAGE_SCHEMA, read `request_id`, find the handler class for
    `resource`, find the action method for `action`, run it, and attach
    `request_id` to whatever response came out, in every case. */
module Router {
  import opened Wrappers
  import opened JsonValue
  import opened MessageSchema
  import opened RegistrySpec

  /** What an action does to the registry on behalf of its own socket. */
  datatype Effect =
    | SubscribeTo(subKey: SubKey)
    | UnsubscribeFrom(key: string)
    | PublishTo(key: string, message: Json)

  /** The exceptions the `except` clauses of `on_message` tell apart, whether the
      checks before the call or the action itself raised them, with `str(e)`
      where the reply uses it. */
  datatype Raised =
    | JsonDecodeError
    | SchemaValidationError(text: string)
    | MissingDrizzleHandler(text: string)
    | MissingDrizzleAction(text: string)
    | OtherException(detail: string)

  /** What `yield handler_action(message)` gives: what the action did before
      returning or raising, its result or its exception, and whether the future
      was already resolved when yielded. When it was not, the IOLoop takes a turn
      before `on_message` resumes. */
  datatype Outcome = Outcome(effects: seq<Effect>, result: Result<Json, Raised>, ready: bool)

  /** A class attribute: a method (a bound `types.MethodType` once looked up on
      an instance) or anything else (a plain value, a staticmethod, ...). */
  datatype Member = Method(run: Json -> Outcome) | Attribute

  /** A DrizzleHandler subclass: its name and the attributes it defines or overrides. */
  datatype HandlerClass = HandlerClass(name: string, members: map<string, Member>)

  /** What `_make_error_response` builds, or the `data` of a success. */
  datatype Body = Data(data: Json) | Error(error: string, code: string)

  /** The dict written back: the body plus `request_id`, attached in `finally`. */
  datatype Response = Response(body: Body, requestId: Json)

  /** The reply, the action's effects, and whether `on_message` reached `finally`
      without the IOLoop taking a turn. */
  datatype Reply = Reply(response: Response, effects: seq<Effect>, ready: bool)

  const VALIDATION_ERROR: string := "VALIDATION_ERROR"
  const RESOURCE_NOT_FOUND: string := "RESOURCE_NOT_FOUND"
  const ACTION_NOT_FOUND: string := "ACTION_NOT_FOUND"
  const DECODE_ERROR_TEXT: string := "Expected Json encodable string"
  const UNKNOWN_ERROR_TEXT: string := "Unknown error"

  function ResourceNotFoundText(resource: string): string {
    "resource '" + resource + "' not found in drizzle_handler_routes"
  }

  function ActionNotFoundText(action: string, handlerName: string): string {
    "action definition '" + action + "' not found in handler " + handlerName
  }

  /** `_make_error_response(message, code='VALIDATION_ERROR')`: once `finally` has
      attached `request_id`, the reply is a dict with exactly these three fields. */
  function MakeErrorResponse(message: string, code: string := VALIDATION_ERROR): (r: Body)
    ensures forall requestId :: (ToWire(Response(r, requestId))
      == JObj(map["error" := JStr(message), "code" := JStr(code), "request_id" := requestId]))
  {
    Error(message, code)
  }

  /** DrizzleHandler's own methods, which every subclass inherits unless it overrides them:
      the coroutine `subscribe(key)` queues the given key for the handler's socket
      (`q.put` on an unbounded queue is resolved at once); `__init__` only rebinds
      the transient handler's socket and returns None, and `yield None` is
      `gen.moment` (Tornado 4.5 on), so the IOLoop takes a turn. Both give None. */
  function InheritedMembers(): map<string, Member> {
    map[
      "subscribe" := Method(key => Outcome([SubscribeTo(Unhashable(key))], Ok(JNull), true)),
      "__init__" := Method(_ => Outcome([], Ok(JNull), false))
    ]
  }

  /** `getattr(handler_obj, name)`: the instance attribute `client_socket` shadows
      the class; then the subclass's own attributes; then DrizzleHandler's. */
  function LookupAttribute(cls: HandlerClass, name: string): Option<Member> {
    if name == "client_socket" then Some(Attribute)
    else if name in cls.members then Some(cls.members[name])
    else if name in InheritedMembers() then Some(InheritedMembers()[name])
    else None
  }

  /** Whether `name` reaches a method of an instance of cls. */
  predicate IsAction(cls: HandlerClass, name: string) {
    && name != "client_socket"
    && (name in cls.members ==> cls.members[name].Method?)
    && (name !in cls.members ==> name in InheritedMembers())
  }

  /** `_find_handler`: the route table lookup; a miss is MissingDrizzleHandler
      naming the resource. */
  function FindHandler(routes: map<string, HandlerClass>, resource: string): (r: Result<HandlerClass, string>)
    ensures r.Ok? <==> resource in routes
    ensures r.Ok? ==> r.value == routes[resource]
    ensures r.Err? ==> r.error == "resource '" + resource + "' not found in drizzle_handler_routes"
  {
    if resource in routes then Ok(routes[resource]) else Err(ResourceNotFoundText(resource))
  }

  /** `_find_handler_action`: a missing attribute and one that is not a method are
      reported alike. */
  function FindHandlerAction(cls: HandlerClass, action: string): (r: Result<Json -> Outcome, string>)
    ensures r.Ok? <==> IsAction(cls, action)
    ensures r.Ok? ==> r.value == (if action in cls.members then cls.members[action].run
                                  else InheritedMembers()[action].run)
    ensures r.Err? ==> r.error == "action definition '" + action + "' not found in handler " + cls.name
  {
    match LookupAttribute(cls, action)
    case Some(Method(run)) => Ok(run)
    case _ => Err(ActionNotFoundText(action, cls.name))
  }

  /** The `try` body from the handler lookup on: the lookups raise
      MissingDrizzleHandler and MissingDrizzleAction, then the action runs. */
  function Dispatch(message: map<string, Json>, routes: map<string, HandlerClass>): Outcome
    requires "resource" in message && message["resource"].JStr?
    requires "action" in message && message["action"].JStr?
  {
    match FindHandler(routes, message["resource"].s)
    case Err(text) => Outcome([], Err(MissingDrizzleHandler(text)), true)
    case Ok(cls) =>
      match FindHandlerAction(cls, message["action"].s)
      case Err(text) => Outcome([], Err(MissingDrizzleAction(text)), true)
      case Ok(run) => run(JObj(message))
  }

  /** The `except` clauses in order: JSONDecodeError gets a fixed text, jsonschema's
      ValidationError and the two lookup errors their own text, anything else
      "Unknown error". */
  function Caught(e: Raised): Body {
    match e
    case JsonDecodeError => MakeErrorResponse(DECODE_ERROR_TEXT)
    case SchemaValidationError(text) => MakeErrorResponse(text)
    case MissingDrizzleHandler(text) => MakeErrorResponse(text, RESOURCE_NOT_FOUND)
    case MissingDrizzleAction(text) => MakeErrorResponse(text, ACTION_NOT_FOUND)
    case OtherException(_) => MakeErrorResponse(UNKNOWN_ERROR_TEXT)
  }

  /** The message decoded, validated as an object, its resource is routed and its
      action names a method: the point where `handler_action(message)` is called. */
  predicate ActionFound(decoded: Option<Json>, routes: map<string, HandlerClass>) {
    && decoded.Some? && decoded.value.JObj? && WellFormed(decoded.value)
    && decoded.value.fields["resource"].s in routes
    && IsAction(routes[decoded.value.fields["resource"].s], decoded.value.fields["action"].s)
  }

  /** `on_message`, given what `json.loads` made of the payload (None when it
      raised JSONDecodeError). No action runs, no reply is a success, and the
      IOLoop takes no turn, unless every check before the call passed. */
  function Handle(decoded: Option<Json>, routes: map<string, HandlerClass>): (r: Reply)
    ensures (r.effects != [] || r.response.body.Data? || !r.ready) ==> ActionFound(decoded, routes)
  {
    match decoded
    case None => Reply(Response(Caught(JsonDecodeError), JNull), [], true)
    case Some(message) =>
      match Validate(message)
      case Some(v) => Reply(Response(Caught(SchemaValidationError(Describe(v))), JNull), [], true)
      case None =>
        if !message.JObj? then
          // `message['request_id']` on a list, string, number, bool or None raises TypeError
          Reply(Response(Caught(OtherException("TypeError")), JNull), [], true)
        else
          var requestId := message.fields["request_id"];
          var outcome := Dispatch(message.fields, routes);
          var body := match outcome.result
            case Ok(data) => Data(data)
            case Err(e) => Caught(e);
          Reply(Response(body, requestId), outcome.effects, outcome.ready)
  }

  /** The response dict as it goes on the wire. */
  function ToWire(r: Response): Json {
    match r.body
    case Data(d) => JObj(map["data" := d, "request_id" := r.requestId])
    case Error(e, code) => JObj(map["error" := JStr(e), "code" := JStr(code), "request_id" := r.requestId])
  }

  // ---------------------------------------------------------------------------
  // The error taxonomy, case by case

  /** An undecodable payload: exactly the fixed validation error, with `request_id` None. */
  lemma DecodeFailureReply(routes: map<string, HandlerClass>)
    ensures Handle(None, routes) == Reply(Response(Error(DECODE_ERROR_TEXT, VALIDATION_ERROR), JNull), [], true)
    ensures ToWire(Handle(None, routes).response)
         == JObj(map["error" := JStr("Expected Json encodable string"),
                     "code" := JStr("VALIDATION_ERROR"),
                     "request_id" := JNull])
  {
  }

  /** A schema failure: the validator's text, code VALIDATION_ERROR, `request_id`
      None because it is read only after validation, and no action runs. */
  lemma SchemaFailureReply(message: Json, routes: map<string, HandlerClass>)
    requires !WellFormed(message)
    ensures Validate(message).Some?
    ensures Handle(Some(message), routes)
         == Reply(Response(Error(Describe(Validate(message).value), VALIDATION_ERROR), JNull), [], true)
  {
  }

  /** A message missing a required field is answered with jsonschema's text for
      it, which starts with "'<field>' is a required property" (the first missing
      one in declared order). */
  lemma MissingFieldReply(f: map<string, Json>, i: nat, routes: map<string, HandlerClass>)
    requires i < 3
    requires Message().required[i] !in f
    requires forall k :: 0 <= k < i ==> Message().required[k] in f
    ensures var name := Message().required[i];
      && Handle(Some(JObj(f)), routes).response
         == Response(Error(Describe(Violation([], MissingRequired(name, JObj(f)))), VALIDATION_ERROR), JNull)
      && "'" + name + "' is a required property" <= Handle(Some(JObj(f)), routes).response.body.error
  {
    MissingRequiredReported(f, i);
  }

  /** A JSON array, string, number, bool or null passes the schema and then fails
      at `message['request_id']`: the generic error, `request_id` None. */
  lemma NonObjectReply(message: Json, routes: map<string, HandlerClass>)
    requires !message.JObj?
    ensures Handle(Some(message), routes)
         == Reply(Response(Error(UNKNOWN_ERROR_TEXT, VALIDATION_ERROR), JNull), [], true)
  {
  }

  /** An unknown resource: RESOURCE_NOT_FOUND naming it, with the client's `request_id`. */
  lemma ResourceNotFoundReply(f: map<string, Json>, routes: map<string, HandlerClass>)
    requires WellFormed(JObj(f))
    requires f["resource"].s !in routes
    ensures Handle(Some(JObj(f)), routes)
         == Reply(Response(Error(ResourceNotFoundText(f["resource"].s), RESOURCE_NOT_FOUND), f["request_id"]), [], true)
  {
    var text := ResourceNotFoundText(f["resource"].s);
    assert FindHandler(routes, f["resource"].s) == Err(text);
    assert Dispatch(f, routes) == Outcome([], Err(MissingDrizzleHandler(text)), true);
    assert Caught(MissingDrizzleHandler(text)) == Error(text, RESOURCE_NOT_FOUND);
    assert Validate(JObj(f)) == None;
  }

  /** An action that is absent, or that names an attribute which is not a method,
      gets the same ACTION_NOT_FOUND answer naming the action and the class. */
  lemma ActionNotFoundReply(f: map<string, Json>, routes: map<string, HandlerClass>)
    requires WellFormed(JObj(f)) && f["resource"].s in routes
    requires var cls := routes[f["resource"].s]; var a := f["action"].s;
      || (a !in cls.members && a !in InheritedMembers())
      || (a in cls.members && cls.members[a].Attribute?)
      || a == "client_socket"
    ensures var cls := routes[f["resource"].s];
      Handle(Some(JObj(f)), routes)
      == Reply(Response(Error(ActionNotFoundText(f["action"].s, cls.name), ACTION_NOT_FOUND), f["request_id"]), [], true)
  {
    var cls := routes[f["resource"].s];
    assert Validate(JObj(f)) == None;
    assert Dispatch(f, routes) == Outcome([], Err(MissingDrizzleAction(ActionNotFoundText(f["action"].s, cls.name))), true);
  }

  /** An action that raises goes through the same `except` clauses as the checks
      before it, matched by type: a JSONDecodeError gets the fixed decode text,
      jsonschema's ValidationError, MissingDrizzleHandler and MissingDrizzleAction
      their own text under their own code, anything else "Unknown error". The
      client's `request_id` is attached, and what the action did before raising stands. */
  lemma ActionRaisesReply(f: map<string, Json>, routes: map<string, HandlerClass>, effects: seq<Effect>, e: Raised, ready: bool)
    requires WellFormed(JObj(f)) && f["resource"].s in routes
    requires FindHandlerAction(routes[f["resource"].s], f["action"].s).Ok?
    requires FindHandlerAction(routes[f["resource"].s], f["action"].s).value(JObj(f)) == Outcome(effects, Err(e), ready)
    ensures var r := Handle(Some(JObj(f)), routes);
      && r.effects == effects && r.ready == ready && r.response.requestId == f["request_id"]
      && r.response.body == match e
           case JsonDecodeError => Error("Expected Json encodable string", "VALIDATION_ERROR")
           case SchemaValidationError(text) => Error(text, "VALIDATION_ERROR")
           case MissingDrizzleHandler(text) => Error(text, "RESOURCE_NOT_FOUND")
           case MissingDrizzleAction(text) => Error(text, "ACTION_NOT_FOUND")
           case OtherException(_) => Error("Unknown error", "VALIDATION_ERROR")
  {
  }

  /** Success: exactly `{data: result, request_id: <the client's own value>}`. */
  lemma SuccessReply(f: map<string, Json>, routes: map<string, HandlerClass>, effects: seq<Effect>, result: Json, ready: bool)
    requires WellFormed(JObj(f)) && f["resource"].s in routes
    requires FindHandlerAction(routes[f["resource"].s], f["action"].s).Ok?
    requires FindHandlerAction(routes[f["resource"].s], f["action"].s).value(JObj(f)) == Outcome(effects, Ok(result), ready)
    ensures Handle(Some(JObj(f)), routes) == Reply(Response(Data(result), f["request_id"]), effects, ready)
    ensures ToWire(Handle(Some(JObj(f)), routes).response)
         == JObj(map["data" := result, "request_id" := f["request_id"]])
  {
  }

  /** Every reply carries `request_id`: the client's value once the message has
      validated as an object, None otherwise. */
  lemma RequestIdAttached(decoded: Option<Json>, routes: map<string, HandlerClass>)
    ensures var r := Handle(decoded, routes).response;
      && "request_id" in ToWire(r).fields
      && ToWire(r).fields["request_id"] == r.requestId
      && (if decoded.Some? && decoded.value.JObj? && WellFormed(decoded.value)
          then r.requestId == decoded.value.fields["request_id"]
          else r.requestId == JNull)
  {
  }

  /** A client can name the inherited `subscribe` as its action: the whole message,
      a dict, is queued as a subscription key for the client's socket and the
      reply is a success with `data` None. */
  lemma InheritedSubscribeReachable(f: map<string, Json>, routes: map<string, HandlerClass>)
    requires WellFormed(JObj(f)) && f["resource"].s in routes
    requires f["action"] == JStr("subscribe") && "subscribe" !in routes[f["resource"].s].members
    ensures Handle(Some(JObj(f)), routes)
         == Reply(Response(Data(JNull), f["request_id"]), [SubscribeTo(Unhashable(JObj(f)))], true)
  {
  }

  /** A client can name the inherited `__init__` as its action: it returns None,
      `yield None` lets the IOLoop take a turn, and the reply is a success with
      `data` None. */
  lemma InheritedInitReachable(f: map<string, Json>, routes: map<string, HandlerClass>)
    requires WellFormed(JObj(f)) && f["resource"].s in routes
    requires f["action"] == JStr("__init__") && "__init__" !in routes[f["resource"].s].members
    ensures Handle(Some(JObj(f)), routes) == Reply(Response(Data(JNull), f["request_id"]), [], false)
  {
  }
}
