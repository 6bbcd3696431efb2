/** The inbound message schema of tornado_drizzle/conf.py and the part of
    JSON Schema draft-04 it relies on: `required` (section 5.4.3 of the
    draft-04 validation specification), `properties` (5.4.4), `type`
    (5.5.2) and `oneOf` (5.5.5). `required` and `properties` only constrain
    objects; the schema has no top-level `type`, so any non-object value
    passes. */
module MessageSchema {
  import opened Wrappers
  import opened JsonValue

  datatype JsonType = StringType | NumberType | ObjectType

  datatype Property = Property(name: string, schema: Schema)

  /** A draft-04 schema restricted to the four keywords the message schema uses.
      An empty `oneOf` stands for the keyword being absent (draft-04 forbids an empty array). */
  datatype Schema = Schema(
    required: seq<string>,
    properties: seq<Property>,
    typeOf: Option<JsonType>,
    oneOf: seq<Schema>)

  datatype ViolationKind =
    | MissingRequired(name: string, instance: Json)
    | WrongType(instance: Json, expected: JsonType)
    | OneOfCount(instance: Json, matched: nat)

  /** One validation error: where in the instance it is and what failed. */
  datatype Violation = Violation(path: seq<string>, kind: ViolationKind)

  predicate HasType(j: Json, t: JsonType) {
    match t
    case StringType => j.JStr?
    case NumberType => j.JNum?
    case ObjectType => j.JObj?
  }

  function TypeSchema(t: JsonType): Schema {
    Schema([], [], Some(t), [])
  }

  /** `{"oneOf": [{"type": "string"}, {"type": "number"}]}` */
  function RequestIdSchema(): Schema {
    Schema([], [], None, [TypeSchema(StringType), TypeSchema(NumberType)])
  }

  /** MESSAGE_SCHEMA, keyword by keyword, in its declared order. */
  function Message(): Schema {
    Schema(
      ["resource", "action", "request_id"],
      [ Property("request_id", RequestIdSchema()),
        Property("resource", TypeSchema(StringType)),
        Property("action", TypeSchema(StringType)),
        Property("data", TypeSchema(ObjectType)) ],
      None,
      [])
  }

  // ---------------------------------------------------------------------------
  // Draft-04 validation: every error, in keyword order

  function Errors(s: Schema, j: Json, path: seq<string>): seq<Violation>
    decreases s, 1
  {
    RequiredErrors(s.required, j, path)
    + PropertyErrors(s, 0, j, path)
    + TypeErrors(s.typeOf, j, path)
    + (if |s.oneOf| > 0 && MatchCount(s, 0, j, path) != 1
       then [Violation(path, OneOfCount(j, MatchCount(s, 0, j, path)))]
       else [])
  }

  function RequiredErrors(names: seq<string>, j: Json, path: seq<string>): seq<Violation> {
    if !j.JObj? || names == [] then []
    else
      (if names[0] in j.fields then [] else [Violation(path, MissingRequired(names[0], j))])
      + RequiredErrors(names[1..], j, path)
  }

  function PropertyErrors(s: Schema, i: nat, j: Json, path: seq<string>): seq<Violation>
    requires i <= |s.properties|
    decreases s, 0, |s.properties| - i
  {
    if !j.JObj? || i == |s.properties| then []
    else
      var p := s.properties[i];
      (if p.name in j.fields then Errors(p.schema, j.fields[p.name], path + [p.name]) else [])
      + PropertyErrors(s, i + 1, j, path)
  }

  function TypeErrors(t: Option<JsonType>, j: Json, path: seq<string>): seq<Violation> {
    if t.Some? && !HasType(j, t.value) then [Violation(path, WrongType(j, t.value))] else []
  }

  /** How many of the `oneOf` branches from index i on accept j. */
  function MatchCount(s: Schema, i: nat, j: Json, path: seq<string>): nat
    requires i <= |s.oneOf|
    decreases s, 0, |s.oneOf| - i
  {
    if i == |s.oneOf| then 0
    else (if Errors(s.oneOf[i], j, path) == [] then 1 else 0) + MatchCount(s, i + 1, j, path)
  }

  /** `jsonschema.validate(message, MESSAGE_SCHEMA)`: None when valid, otherwise
      the violation it raises. jsonschema 2.x raises the first error `iter_errors`
      yields, and that walks the keywords and the properties in declared order. */
  function Validate(j: Json): (r: Option<Violation>)
    ensures r.None? <==> WellFormed(j)
  {
    ErrorsEmptyIffWellFormed(j);
    var errs := Errors(Message(), j, []);
    if errs == [] then None else Some(errs[0])
  }

  // ---------------------------------------------------------------------------
  // The reference reading of the schema, written out field by field

  /** What MESSAGE_SCHEMA admits: any non-object, or an object with string
      `resource` and `action`, a string-or-number `request_id`, and `data`
      an object when present. Other fields are free. */
  predicate WellFormed(j: Json) {
    j.JObj? ==>
      var f := j.fields;
      && "resource" in f && "action" in f && "request_id" in f
      && f["resource"].JStr? && f["action"].JStr?
      && (f["request_id"].JStr? || f["request_id"].JNum?)
      && ("data" in f ==> f["data"].JObj?)
  }

  // ---------------------------------------------------------------------------
  // Lemmas

  lemma TypeSchemaErrors(t: JsonType, v: Json, path: seq<string>)
    ensures Errors(TypeSchema(t), v, path)
         == if HasType(v, t) then [] else [Violation(path, WrongType(v, t))]
  {
    assert PropertyErrors(TypeSchema(t), 0, v, path) == [];
  }

  /** The two `oneOf` branches are disjoint: a string or a number matches
      exactly one of them, anything else (bool and null included) none. */
  lemma RequestIdMatchesOne(v: Json, path: seq<string>)
    ensures MatchCount(RequestIdSchema(), 0, v, path) == if v.JStr? || v.JNum? then 1 else 0
  {
    var s := RequestIdSchema();
    TypeSchemaErrors(StringType, v, path);
    TypeSchemaErrors(NumberType, v, path);
    assert MatchCount(s, 2, v, path) == 0;
    assert MatchCount(s, 1, v, path) == if v.JNum? then 1 else 0;
  }

  lemma RequestIdErrors(v: Json, path: seq<string>)
    ensures Errors(RequestIdSchema(), v, path)
         == if v.JStr? || v.JNum? then [] else [Violation(path, OneOfCount(v, 0))]
  {
    RequestIdMatchesOne(v, path);
    assert PropertyErrors(RequestIdSchema(), 0, v, path) == [];
  }

  function FieldErrors(f: map<string, Json>, name: string, s: Schema): seq<Violation> {
    if name in f then Errors(s, f[name], [name]) else []
  }

  function Missing(f: map<string, Json>, name: string): seq<Violation> {
    if name in f then [] else [Violation([], MissingRequired(name, JObj(f)))]
  }

  lemma PropertyErrorsStep(s: Schema, i: nat, f: map<string, Json>, name: string, sub: Schema)
    requires i < |s.properties| && s.properties[i] == Property(name, sub)
    ensures PropertyErrors(s, i, JObj(f), []) == FieldErrors(f, name, sub) + PropertyErrors(s, i + 1, JObj(f), [])
  {
    assert [] + [name] == [name];
  }

  lemma MessageRequiredErrors(f: map<string, Json>)
    ensures RequiredErrors(Message().required, JObj(f), [])
         == Missing(f, "resource") + Missing(f, "action") + Missing(f, "request_id")
  {
    var names, j := Message().required, JObj(f);
    assert RequiredErrors(names[3..], j, []) == [];
    assert RequiredErrors(names[2..], j, []) == Missing(f, "request_id");
    assert RequiredErrors(names[1..], j, []) == Missing(f, "action") + Missing(f, "request_id");
  }

  lemma MessageActionAndDataErrors(f: map<string, Json>)
    ensures PropertyErrors(Message(), 2, JObj(f), [])
         == FieldErrors(f, "action", TypeSchema(StringType)) + FieldErrors(f, "data", TypeSchema(ObjectType))
  {
    var m := Message();
    assert PropertyErrors(m, 4, JObj(f), []) == [];
    PropertyErrorsStep(m, 3, f, "data", TypeSchema(ObjectType));
    PropertyErrorsStep(m, 2, f, "action", TypeSchema(StringType));
  }

  lemma MessageResourceOnwardErrors(f: map<string, Json>)
    ensures PropertyErrors(Message(), 1, JObj(f), [])
         == FieldErrors(f, "resource", TypeSchema(StringType))
          + (FieldErrors(f, "action", TypeSchema(StringType)) + FieldErrors(f, "data", TypeSchema(ObjectType)))
  {
    MessageActionAndDataErrors(f);
    PropertyErrorsStep(Message(), 1, f, "resource", TypeSchema(StringType));
  }

  lemma MessagePropertyErrors(f: map<string, Json>)
    ensures PropertyErrors(Message(), 0, JObj(f), [])
         == FieldErrors(f, "request_id", RequestIdSchema())
          + (FieldErrors(f, "resource", TypeSchema(StringType))
          + (FieldErrors(f, "action", TypeSchema(StringType)) + FieldErrors(f, "data", TypeSchema(ObjectType))))
  {
    MessageResourceOnwardErrors(f);
    PropertyErrorsStep(Message(), 0, f, "request_id", RequestIdSchema());
  }

  /** The errors of an object message, keyword by keyword. */
  lemma ObjectErrors(f: map<string, Json>)
    ensures Errors(Message(), JObj(f), [])
         == Missing(f, "resource") + Missing(f, "action") + Missing(f, "request_id")
          + FieldErrors(f, "request_id", RequestIdSchema())
          + FieldErrors(f, "resource", TypeSchema(StringType))
          + FieldErrors(f, "action", TypeSchema(StringType))
          + FieldErrors(f, "data", TypeSchema(ObjectType))
  {
    MessageRequiredErrors(f);
    MessagePropertyErrors(f);
  }

  /** Non-objects (arrays, strings, numbers, booleans, null) pass: there is no top-level `type`. */
  lemma NonObjectPasses(j: Json)
    requires !j.JObj?
    ensures Errors(Message(), j, []) == []
  {
    assert PropertyErrors(Message(), 0, j, []) == [];
  }

  /** The draft-04 reading of MESSAGE_SCHEMA and the field-by-field reading
      agree on every value. */
  lemma ErrorsEmptyIffWellFormed(j: Json)
    ensures Errors(Message(), j, []) == [] <==> WellFormed(j)
  {
    if j.JObj? {
      var f := j.fields;
      ObjectErrors(f);
      if "request_id" in f { RequestIdErrors(f["request_id"], ["request_id"]); }
      if "resource" in f { TypeSchemaErrors(StringType, f["resource"], ["resource"]); }
      if "action" in f { TypeSchemaErrors(StringType, f["action"], ["action"]); }
      if "data" in f { TypeSchemaErrors(ObjectType, f["data"], ["data"]); }
    } else {
      NonObjectPasses(j);
    }
  }

  /** An object missing `resource`, `action` or `request_id` is rejected, and
      the first missing one in declared order is the one reported. */
  lemma MissingRequiredReported(f: map<string, Json>, i: nat)
    requires i < 3
    requires Message().required[i] !in f
    requires forall k :: 0 <= k < i ==> Message().required[k] in f
    ensures Validate(JObj(f)) == Some(Violation([], MissingRequired(Message().required[i], JObj(f))))
  {
    var j := JObj(f);
    var req := RequiredErrors(Message().required, j, []);
    MessageRequiredErrors(f);
    assert |req| > 0 && req[0] == Violation([], MissingRequired(Message().required[i], j));
    assert Errors(Message(), j, [])[0] == req[0];
  }

  /** With the required fields present and `request_id` valid, a non-string
      `resource` is reported at path ["resource"] with the offending value. */
  lemma ResourceTypeReported(f: map<string, Json>)
    requires "resource" in f && "action" in f && "request_id" in f
    requires f["request_id"].JStr? || f["request_id"].JNum?
    requires !f["resource"].JStr?
    ensures Validate(JObj(f)) == Some(Violation(["resource"], WrongType(f["resource"], StringType)))
  {
    ObjectErrors(f);
    RequestIdErrors(f["request_id"], ["request_id"]);
    TypeSchemaErrors(StringType, f["resource"], ["resource"]);
  }

  /** The same for a non-string `action` once `resource` is a string. */
  lemma ActionTypeReported(f: map<string, Json>)
    requires "resource" in f && "action" in f && "request_id" in f
    requires f["request_id"].JStr? || f["request_id"].JNum?
    requires f["resource"].JStr? && !f["action"].JStr?
    ensures Validate(JObj(f)) == Some(Violation(["action"], WrongType(f["action"], StringType)))
  {
    ObjectErrors(f);
    RequestIdErrors(f["request_id"], ["request_id"]);
    TypeSchemaErrors(StringType, f["resource"], ["resource"]);
    TypeSchemaErrors(StringType, f["action"], ["action"]);
  }

  /** A bool or null `request_id` is rejected by the `oneOf`, reported with no branch matching. */
  lemma RequestIdTypeReported(f: map<string, Json>)
    requires "resource" in f && "action" in f && "request_id" in f
    requires !(f["request_id"].JStr? || f["request_id"].JNum?)
    ensures Validate(JObj(f)) == Some(Violation(["request_id"], OneOfCount(f["request_id"], 0)))
  {
    ObjectErrors(f);
    RequestIdErrors(f["request_id"], ["request_id"]);
  }

  /** `data` is optional, but when present it must be an object. */
  lemma DataMustBeObject(f: map<string, Json>)
    requires WellFormed(JObj(f - {"data"}))
    ensures Validate(JObj(f)) == None <==> ("data" in f ==> f["data"].JObj?)
  {
  }

  /** Extra fields are accepted: there is no `additionalProperties`, so adding
      an undeclared field neither makes a message valid nor invalid. */
  lemma ExtraFieldAccepted(f: map<string, Json>, name: string, v: Json)
    requires name !in {"resource", "action", "request_id", "data"}
    ensures Validate(JObj(f[name := v])).None? <==> Validate(JObj(f)).None?
  {
  }

  // ---------------------------------------------------------------------------
  // The text of a violation: `str(e)` of jsonschema 2.x's ValidationError, that is
  // the message, then "Failed validating <keyword> in schema<path>:" with the
  // failing sub-schema pretty-printed and indented, then "On instance<path>:"
  // with the offending value, indented.

  function TypeName(t: JsonType): string {
    match t
    case StringType => "string"
    case NumberType => "number"
    case ObjectType => "object"
  }

  function Digits(n: nat): string
    decreases n
  {
    var d := ['0', '1', '2', '3', '4', '5', '6', '7', '8', '9'][n % 10];
    if n < 10 then [d] else Digits(n / 10) + [d]
  }

  /** Python's repr of a scalar; containers are abbreviated. */
  function Repr(j: Json): string {
    match j
    case JNull => "None"
    case JBool(b) => if b then "True" else "False"
    case JNum(n) => if n < 0 then "-" + Digits(-n) else Digits(n)
    case JStr(s) => "'" + s + "'"
    case JArr(_) => "[...]"
    case JObj(_) => "{...}"
  }

  /** `format_as_index`: `['a']['b']`. */
  function Subscripts(path: seq<string>): string {
    if path == [] then "" else "['" + path[0] + "']" + Subscripts(path[1..])
  }

  /** Where in the schema the sub-schema for an instance path sits. */
  function SchemaPath(path: seq<string>): seq<string> {
    if path == [] then [] else ["properties", path[0]] + SchemaPath(path[1..])
  }

  /** `pprint.pformat(MESSAGE_SCHEMA, width=72)`, every line indented by four spaces. */
  const MESSAGE_SCHEMA_DUMP: string := "    {'$schema': 'http://json-schema.org/draft-04/schema#',\n     'properties': {'action': {'type': 'string'},\n                    'data': {'type': 'object'},\n                    'request_id': {'oneOf': [{'type': 'string'},\n                                             {'type': 'number'}]},\n                    'resource': {'type': 'string'}},\n     'required': ['resource', 'action', 'request_id']}"

  /** jsonschema's `message`: the first line of the text. */
  function Headline(v: Violation): string {
    match v.kind
    case MissingRequired(name, _) => "'" + name + "' is a required property"
    case WrongType(inst, t) => Repr(inst) + " is not of type '" + TypeName(t) + "'"
    case OneOfCount(inst, n) =>
      // n >= 2 cannot happen for MESSAGE_SCHEMA (RequestIdMatchesOne)
      Repr(inst) + (if n == 0 then " is not valid under any of the given schemas"
                    else " is valid under each of the given schemas")
  }

  function Keyword(v: Violation): string {
    match v.kind
    case MissingRequired(_, _) => "required"
    case WrongType(_, _) => "type"
    case OneOfCount(_, _) => "oneOf"
  }

  /** The sub-schema of MESSAGE_SCHEMA that owns the failing keyword, as printed. */
  function SchemaDump(v: Violation): string {
    match v.kind
    case MissingRequired(_, _) => MESSAGE_SCHEMA_DUMP
    case WrongType(_, t) => "    {'type': '" + TypeName(t) + "'}"
    case OneOfCount(_, _) => "    {'oneOf': [{'type': 'string'}, {'type': 'number'}]}"
  }

  function Instance(v: Violation): Json {
    match v.kind
    case MissingRequired(_, inst) => inst
    case WrongType(inst, _) => inst
    case OneOfCount(inst, _) => inst
  }

  /** `str(e)` for a violation of MESSAGE_SCHEMA. Every reply to a message the
      schema rejects starts with jsonschema's message, and names the keyword and
      the field at fault. */
  function Describe(v: Violation): (r: string)
    ensures Headline(v) <= r
    ensures var tail := InstanceLine(v); |tail| <= |r| && r[|r| - |tail|..] == tail
  {
    var head := Headline(v) + "\n\nFailed validating '" + Keyword(v) + "' in schema"
      + Subscripts(SchemaPath(v.path)) + ":\n" + SchemaDump(v);
    assert Headline(v) <= head;
    head + InstanceLine(v)
  }

  /** "On instance['field']:" and the offending value, the end of `str(e)`. */
  function InstanceLine(v: Violation): string {
    "\n\nOn instance" + Subscripts(v.path) + ":\n    " + Repr(Instance(v))
  }
}
