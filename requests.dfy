/** The two request schemas (`ChatCompletionInput`, `EmbeddingsInput`) with
    their declared defaults, and the validation that turns a decoded JSON
    body into one of them or into the list of offending fields. */
module Requests {
  import opened Wrappers
  import opened Json

  /** One chat message: an open mapping (`dict`), typically role and content. */
  type Message = map<string, Json>

  /** `stop: str | list | None`: a single string, an untyped list, or null. */
  datatype Stop = StopText(text: string) | StopList(items: seq<Json>) | StopNull

  // Defaults declared on `ChatCompletionInput` and `EmbeddingsInput`.
  const DefaultTemperature: real := 1.0
  const DefaultTopP: real := 1.0
  const DefaultN: int := 1
  const DefaultStream: bool := false
  const DefaultStop: Stop := StopText("")
  const DefaultMaxTokens: int := 7
  const DefaultPresencePenalty: real := 0.0
  const DefaultFrequencePenalty: real := 0.0
  const DefaultLogitBias: Option<map<string, Json>> := Some(map[])
  const DefaultUser: string := ""

  /** A validated chat completion request. The field `frequence_penalty`
      keeps the schema's own spelling; `float` fields are `real`. */
  datatype ChatCompletionInput = ChatCompletionInput(
    model: string,
    messages: seq<Message>,
    temperature: real := DefaultTemperature,
    top_p: real := DefaultTopP,
    n: int := DefaultN,
    stream: bool := DefaultStream,
    stop: Stop := DefaultStop,
    max_tokens: int := DefaultMaxTokens,
    presence_penalty: real := DefaultPresencePenalty,
    frequence_penalty: real := DefaultFrequencePenalty,
    logit_bias: Option<map<string, Json>> := DefaultLogitBias,
    user: string := DefaultUser)

  /** A validated embeddings request. */
  datatype EmbeddingsInput = EmbeddingsInput(model: string, input: string, user: string := DefaultUser)

  // ---------------------------------------------------------------------
  // The schemas as tables.

  /** The declared type of a field, as a kind of JSON value it accepts. */
  datatype Kind =
    | KString      // str
    | KMessages    // list[dict]
    | KNumber      // float
    | KInteger     // int
    | KBool        // bool
    | KStop        // str | list | None
    | KDictOrNull  // dict | None

  /** One declared field: its name, its type, and whether it lacks a default. */
  datatype Field = Field(name: string, kind: Kind, required: bool)

  predicate Fits(k: Kind, v: Json) {
    match k
    case KString => v.JString?
    case KMessages => v.JArray? && forall i :: 0 <= i < |v.items| ==> v.items[i].JObject?
    case KNumber => v.JInt? || v.JReal?
    case KInteger => v.JInt?
    case KBool => v.JBool?
    case KStop => v.JString? || v.JArray? || v.JNull?
    case KDictOrNull => v.JObject? || v.JNull?
  }

  /** `ChatCompletionInput`'s fields, in declaration order. */
  const ChatSchema: seq<Field> := [
    Field("model", KString, true),
    Field("messages", KMessages, true),
    Field("temperature", KNumber, false),
    Field("top_p", KNumber, false),
    Field("n", KInteger, false),
    Field("stream", KBool, false),
    Field("stop", KStop, false),
    Field("max_tokens", KInteger, false),
    Field("presence_penalty", KNumber, false),
    Field("frequence_penalty", KNumber, false),
    Field("logit_bias", KDictOrNull, false),
    Field("user", KString, false)]

  /** `EmbeddingsInput`'s fields, in declaration order. */
  const EmbeddingsSchema: seq<Field> := [
    Field("model", KString, true),
    Field("input", KString, true),
    Field("user", KString, false)]

  function Names(schema: seq<Field>): set<string> {
    set i | 0 <= i < |schema| :: schema[i].name
  }

  /** Why a body was refused: a required field is absent, or a field is
      present with a value of the wrong kind. */
  datatype FieldError = Missing(field: string) | WrongType(field: string)

  /** Field `f` of body `p` is as the schema demands. */
  predicate FieldOk(p: Payload, f: Field) {
    if f.name in p then Fits(f.kind, p[f.name]) else !f.required
  }

  predicate SchemaOk(p: Payload, schema: seq<Field>) {
    forall i :: 0 <= i < |schema| ==> FieldOk(p, schema[i])
  }

  /** The fault, if any, of field `f` of body `p`. */
  function FieldErrors(p: Payload, f: Field): seq<FieldError> {
    if f.name !in p then (if f.required then [Missing(f.name)] else [])
    else if Fits(f.kind, p[f.name]) then []
    else [WrongType(f.name)]
  }

  /** The faults of all fields of `schema`, in declaration order (the
      validation library reports every failing field, not just the first). */
  function SchemaErrors(p: Payload, schema: seq<Field>): seq<FieldError>
    decreases |schema|
  {
    if schema == [] then [] else FieldErrors(p, schema[0]) + SchemaErrors(p, schema[1..])
  }

  /** An error names a field that really is at fault. */
  predicate Justified(p: Payload, schema: seq<Field>, e: FieldError) {
    match e
    case Missing(name) => name !in p && exists i :: 0 <= i < |schema| && schema[i].name == name && schema[i].required
    case WrongType(name) => name in p && exists i :: 0 <= i < |schema| && schema[i].name == name && !Fits(schema[i].kind, p[name])
  }

  // ---------------------------------------------------------------------
  // Reading a field whose kind has been checked.

  /** The real a JSON number denotes. */
  function NumberValue(v: Json): real
    requires Fits(KNumber, v)
  {
    if v.JInt? then v.i as real else v.r
  }

  function MessagesOf(v: Json): seq<Message>
    requires Fits(KMessages, v)
  {
    seq(|v.items|, i requires 0 <= i < |v.items| => v.items[i].fields)
  }

  function StopOf(v: Json): Stop
    requires Fits(KStop, v)
  {
    if v.JString? then StopText(v.s) else if v.JArray? then StopList(v.items) else StopNull
  }

  function DictOrNullOf(v: Json): Option<map<string, Json>>
    requires Fits(KDictOrNull, v)
  {
    if v.JObject? then Some(v.fields) else None
  }

  function StringOr(p: Payload, name: string, default: string): string
    requires name in p ==> Fits(KString, p[name])
  {
    if name in p then p[name].s else default
  }

  function NumberOr(p: Payload, name: string, default: real): real
    requires name in p ==> Fits(KNumber, p[name])
  {
    if name in p then NumberValue(p[name]) else default
  }

  function IntegerOr(p: Payload, name: string, default: int): int
    requires name in p ==> Fits(KInteger, p[name])
  {
    if name in p then p[name].i else default
  }

  // ---------------------------------------------------------------------
  // Validation.

  /** The chat schema, field by field: what an accepted body looks like. */
  lemma ChatSchemaFields(p: Payload)
    ensures SchemaOk(p, ChatSchema) <==>
      && "model" in p && Fits(KString, p["model"])
      && "messages" in p && Fits(KMessages, p["messages"])
      && ("temperature" in p ==> Fits(KNumber, p["temperature"]))
      && ("top_p" in p ==> Fits(KNumber, p["top_p"]))
      && ("n" in p ==> Fits(KInteger, p["n"]))
      && ("stream" in p ==> Fits(KBool, p["stream"]))
      && ("stop" in p ==> Fits(KStop, p["stop"]))
      && ("max_tokens" in p ==> Fits(KInteger, p["max_tokens"]))
      && ("presence_penalty" in p ==> Fits(KNumber, p["presence_penalty"]))
      && ("frequence_penalty" in p ==> Fits(KNumber, p["frequence_penalty"]))
      && ("logit_bias" in p ==> Fits(KDictOrNull, p["logit_bias"]))
      && ("user" in p ==> Fits(KString, p["user"]))
  {
    var s := ChatSchema;
    if SchemaOk(p, s) {
      assert FieldOk(p, s[0]) && FieldOk(p, s[1]) && FieldOk(p, s[2]) && FieldOk(p, s[3]);
      assert FieldOk(p, s[4]) && FieldOk(p, s[5]) && FieldOk(p, s[6]) && FieldOk(p, s[7]);
      assert FieldOk(p, s[8]) && FieldOk(p, s[9]) && FieldOk(p, s[10]) && FieldOk(p, s[11]);
    }
  }

  lemma EmbeddingsSchemaFields(p: Payload)
    ensures SchemaOk(p, EmbeddingsSchema) <==>
      && "model" in p && Fits(KString, p["model"])
      && "input" in p && Fits(KString, p["input"])
      && ("user" in p ==> Fits(KString, p["user"]))
  {
    var s := EmbeddingsSchema;
    if SchemaOk(p, s) {
      assert FieldOk(p, s[0]) && FieldOk(p, s[1]) && FieldOk(p, s[2]);
    }
  }

  /** Validates a chat completion body: success exactly when every declared
      field is as the schema demands, with every absent optional field at its
      declared default; otherwise every fault, in declaration order. Keys
      the schema does not declare are not looked at. */
  function ValidateChat(p: Payload): (r: Result<ChatCompletionInput, seq<FieldError>>)
    ensures r.Success? <==> SchemaOk(p, ChatSchema)
    ensures r.Failure? ==> r.error == SchemaErrors(p, ChatSchema) && |r.error| > 0
  {
    if !SchemaOk(p, ChatSchema) then
      SchemaErrorsEmpty(p, ChatSchema);
      Failure(SchemaErrors(p, ChatSchema))
    else
      Success(ChatFromBody(p))
  }

  /** The request an accepted chat body denotes: each field's value, or its
      declared default when the body omits it. */
  function ChatFromBody(p: Payload): ChatCompletionInput
    requires SchemaOk(p, ChatSchema)
  {
    ChatSchemaFields(p);
    ChatCompletionInput(
      model := p["model"].s,
      messages := MessagesOf(p["messages"]),
      temperature := NumberOr(p, "temperature", DefaultTemperature),
      top_p := NumberOr(p, "top_p", DefaultTopP),
      n := IntegerOr(p, "n", DefaultN),
      stream := if "stream" in p then p["stream"].b else DefaultStream,
      stop := if "stop" in p then StopOf(p["stop"]) else DefaultStop,
      max_tokens := IntegerOr(p, "max_tokens", DefaultMaxTokens),
      presence_penalty := NumberOr(p, "presence_penalty", DefaultPresencePenalty),
      frequence_penalty := NumberOr(p, "frequence_penalty", DefaultFrequencePenalty),
      logit_bias := if "logit_bias" in p then DictOrNullOf(p["logit_bias"]) else DefaultLogitBias,
      user := StringOr(p, "user", DefaultUser))
  }

  /** Validates an embeddings body, in the same way as `ValidateChat`. */
  function ValidateEmbeddings(p: Payload): (r: Result<EmbeddingsInput, seq<FieldError>>)
    ensures r.Success? <==> SchemaOk(p, EmbeddingsSchema)
    ensures r.Failure? ==> r.error == SchemaErrors(p, EmbeddingsSchema) && |r.error| > 0
  {
    EmbeddingsSchemaFields(p);
    if !SchemaOk(p, EmbeddingsSchema) then
      SchemaErrorsEmpty(p, EmbeddingsSchema);
      Failure(SchemaErrors(p, EmbeddingsSchema))
    else
      Success(EmbeddingsInput(p["model"].s, p["input"].s, StringOr(p, "user", DefaultUser)))
  }

  // ---------------------------------------------------------------------
  // What a schema's fault list says, for any schema.

  /** No fault is reported exactly when the body is as the schema demands. */
  lemma {:induction false} SchemaErrorsEmpty(p: Payload, schema: seq<Field>)
    ensures SchemaErrors(p, schema) == [] <==> SchemaOk(p, schema)
    decreases |schema|
  {
    if schema != [] {
      SchemaErrorsEmpty(p, schema[1..]);
      assert forall i :: 1 <= i < |schema| ==> schema[i] == schema[1..][i - 1];
    }
  }

  /** Every reported fault is real. */
  lemma {:induction false} SchemaErrorsSound(p: Payload, schema: seq<Field>, e: FieldError)
    requires e in SchemaErrors(p, schema)
    ensures Justified(p, schema, e)
    decreases |schema|
  {
    if e in FieldErrors(p, schema[0]) {
      assert schema[0].name == e.field;
    } else {
      SchemaErrorsSound(p, schema[1..], e);
      var i :| 0 <= i < |schema[1..]| && schema[1..][i].name == e.field;
      assert schema[i + 1].name == e.field;
    }
  }

  /** Every fault is reported: a missing required field as `Missing`, a
      field of the wrong kind as `WrongType`. */
  lemma {:induction false} SchemaErrorsComplete(p: Payload, schema: seq<Field>, i: nat)
    requires i < |schema|
    ensures schema[i].required && schema[i].name !in p ==> Missing(schema[i].name) in SchemaErrors(p, schema)
    ensures schema[i].name in p && !Fits(schema[i].kind, p[schema[i].name]) ==> WrongType(schema[i].name) in SchemaErrors(p, schema)
    decreases |schema|
  {
    if i > 0 {
      SchemaErrorsComplete(p, schema[1..], i - 1);
      assert schema[1..][i - 1] == schema[i];
    }
  }

  /** Bodies `p` and `q` hold the same values under the keys `names`. */
  predicate AgreeOn(p: Payload, q: Payload, names: set<string>) {
    forall f :: f in names ==> (f in p <==> f in q) && (f in p ==> p[f] == q[f])
  }

  /** What is reported depends only on the keys the schema declares. */
  lemma {:induction false} SchemaErrorsDependOnDeclared(p: Payload, q: Payload, schema: seq<Field>)
    requires AgreeOn(p, q, Names(schema))
    ensures SchemaErrors(p, schema) == SchemaErrors(q, schema)
    ensures SchemaOk(p, schema) <==> SchemaOk(q, schema)
    decreases |schema|
  {
    if schema != [] {
      assert schema[0].name in Names(schema);
      assert Names(schema[1..]) <= Names(schema) by {
        forall i | 0 <= i < |schema[1..]| ensures schema[1..][i].name in Names(schema) {
          assert schema[1..][i] == schema[i + 1];
        }
      }
      SchemaErrorsDependOnDeclared(p, q, schema[1..]);
    }
    SchemaErrorsEmpty(p, schema);
    SchemaErrorsEmpty(q, schema);
  }

  // ---------------------------------------------------------------------
  // Writing a request out as a body (the inverse of validation).

  function EncodeMessages(ms: seq<Message>): seq<Json> {
    seq(|ms|, i requires 0 <= i < |ms| => JObject(ms[i]))
  }

  lemma MessagesRoundTrip(ms: seq<Message>)
    ensures Fits(KMessages, JArray(EncodeMessages(ms)))
    ensures MessagesOf(JArray(EncodeMessages(ms))) == ms
  {
  }

  function EncodeStop(s: Stop): Json {
    match s
    case StopText(t) => JString(t)
    case StopList(items) => JArray(items)
    case StopNull => JNull
  }

  function EncodeDictOrNull(d: Option<map<string, Json>>): Json {
    match d
    case Some(m) => JObject(m)
    case None => JNull
  }

  /** The body that carries every field of `req`. */
  function ChatPayload(req: ChatCompletionInput): Payload {
    map[
      "model" := JString(req.model),
      "messages" := JArray(EncodeMessages(req.messages)),
      "temperature" := JReal(req.temperature),
      "top_p" := JReal(req.top_p),
      "n" := JInt(req.n),
      "stream" := JBool(req.stream),
      "stop" := EncodeStop(req.stop),
      "max_tokens" := JInt(req.max_tokens),
      "presence_penalty" := JReal(req.presence_penalty),
      "frequence_penalty" := JReal(req.frequence_penalty),
      "logit_bias" := EncodeDictOrNull(req.logit_bias),
      "user" := JString(req.user)]
  }

  function EmbeddingsPayload(req: EmbeddingsInput): Payload {
    map["model" := JString(req.model), "input" := JString(req.input), "user" := JString(req.user)]
  }
}
