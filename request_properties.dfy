/** What validation guarantees for the two request schemas: which bodies
    are refused and why, which defaults an accepted body gets, and that
    writing a request out as a body and validating it gives it back. */
module RequestProperties {
  import opened Wrappers
  import opened Json
  import opened Requests

  // ---------------------------------------------------------------------
  // Chat completion validation.

  /** A rejected chat body names only real faults, and all of them. */
  lemma ChatRejection(p: Payload)
    requires ValidateChat(p).Failure?
    ensures forall e :: e in ValidateChat(p).error ==> Justified(p, ChatSchema, e)
    ensures forall i :: 0 <= i < |ChatSchema| && !FieldOk(p, ChatSchema[i]) ==>
      (if ChatSchema[i].name in p then WrongType(ChatSchema[i].name) else Missing(ChatSchema[i].name)) in ValidateChat(p).error
  {
    forall e | e in ValidateChat(p).error ensures Justified(p, ChatSchema, e) {
      SchemaErrorsSound(p, ChatSchema, e);
    }
    forall i | 0 <= i < |ChatSchema| && !FieldOk(p, ChatSchema[i])
      ensures (if ChatSchema[i].name in p then WrongType(ChatSchema[i].name) else Missing(ChatSchema[i].name)) in ValidateChat(p).error
    {
      SchemaErrorsComplete(p, ChatSchema, i);
    }
  }

  /** A chat body without `model`, or without `messages`, is refused, naming that field. */
  lemma ChatMissingRequired(p: Payload, name: string)
    requires name == "model" || name == "messages"
    requires name !in p
    ensures ValidateChat(p).Failure? && Missing(name) in ValidateChat(p).error
  {
    ChatSchemaFields(p);
    SchemaErrorsComplete(p, ChatSchema, if name == "model" then 0 else 1);
  }

  /** The outcome depends only on the keys the schema declares: two bodies
      that agree on them validate alike. */
  lemma ChatDependsOnlyOnDeclared(p: Payload, q: Payload)
    requires AgreeOn(p, q, Names(ChatSchema))
    ensures ValidateChat(p) == ValidateChat(q)
  {
    var s := ChatSchema;
    SchemaErrorsDependOnDeclared(p, q, s);
    if SchemaOk(p, s) {
      assert ChatFromBody(p) == ChatFromBody(q) by {
        assert s[0].name in Names(s) && s[1].name in Names(s) && s[2].name in Names(s) && s[3].name in Names(s);
        assert s[4].name in Names(s) && s[5].name in Names(s) && s[6].name in Names(s) && s[7].name in Names(s);
        assert s[8].name in Names(s) && s[9].name in Names(s) && s[10].name in Names(s) && s[11].name in Names(s);
        ChatSchemaFields(p);
        ChatSchemaFields(q);
      }
    }
  }

  /** In particular, `frequency_penalty` (the spelling of the wider API, not
      of this schema) is ignored: it neither sets `frequence_penalty` nor
      causes a refusal, whatever its value. */
  lemma ChatIgnoresFrequencyPenalty(p: Payload, v: Json)
    ensures ValidateChat(p["frequency_penalty" := v]) == ValidateChat(p)
  {
    var s := ChatSchema;
    assert "frequency_penalty" !in Names(s);
    ChatDependsOnlyOnDeclared(p["frequency_penalty" := v], p);
  }

  /** A body with only `model` and `messages` (any number of messages, none
      included) is accepted, and every other field takes its declared default. */
  lemma ChatMinimalBody(model: string, messages: seq<Message>)
    ensures ValidateChat(map["model" := JString(model), "messages" := JArray(EncodeMessages(messages))])
      == Success(ChatCompletionInput(model, messages))
  {
    var p := map["model" := JString(model), "messages" := JArray(EncodeMessages(messages))];
    assert p["model"] == JString(model);
    assert "temperature" !in p && "top_p" !in p && "n" !in p && "stream" !in p && "stop" !in p;
    assert "max_tokens" !in p && "presence_penalty" !in p && "frequence_penalty" !in p;
    assert "logit_bias" !in p && "user" !in p;
    ChatSchemaFields(p);
    MessagesRoundTrip(messages);
    assert SchemaOk(p, ChatSchema);
    assert ChatFromBody(p) == ChatCompletionInput(model, messages);
  }

  /** `stop` accepts a string, a list or null, and nothing else: setting it
      on a body whose other fields are acceptable is accepted exactly when
      the value is one of those. */
  lemma ChatStopKinds(p: Payload, v: Json)
    requires ValidateChat(p - {"stop"}).Success?
    ensures ValidateChat(p["stop" := v]).Success? <==> Fits(KStop, v)
  {
    var q, q' := p - {"stop"}, p["stop" := v];
    ChatSchemaFields(q);
    ChatSchemaFields(q');
    assert forall k :: k != "stop" ==> (k in q <==> k in q') && (k in q ==> q[k] == q'[k]);
  }

  /** Validation inverts encoding: a request written out as a body validates back to itself. */
  lemma ChatRoundTrip(req: ChatCompletionInput)
    ensures ValidateChat(ChatPayload(req)) == Success(req)
  {
    var p := ChatPayload(req);
    assert p["model"] == JString(req.model) && p["messages"] == JArray(EncodeMessages(req.messages));
    assert p["temperature"] == JReal(req.temperature) && p["top_p"] == JReal(req.top_p);
    assert p["n"] == JInt(req.n) && p["stream"] == JBool(req.stream) && p["stop"] == EncodeStop(req.stop);
    assert p["max_tokens"] == JInt(req.max_tokens) && p["presence_penalty"] == JReal(req.presence_penalty);
    assert p["frequence_penalty"] == JReal(req.frequence_penalty) && p["logit_bias"] == EncodeDictOrNull(req.logit_bias);
    assert p["user"] == JString(req.user);
    MessagesRoundTrip(req.messages);
    ChatSchemaFields(p);
    assert StopOf(EncodeStop(req.stop)) == req.stop;
    assert DictOrNullOf(EncodeDictOrNull(req.logit_bias)) == req.logit_bias;
    assert SchemaOk(p, ChatSchema);
    var r := ValidateChat(p).value;
    assert r.model == req.model && r.messages == req.messages && r.temperature == req.temperature;
    assert r.top_p == req.top_p && r.n == req.n && r.stream == req.stream && r.stop == req.stop;
    assert r.max_tokens == req.max_tokens && r.presence_penalty == req.presence_penalty;
    assert r.frequence_penalty == req.frequence_penalty && r.logit_bias == req.logit_bias && r.user == req.user;
  }

  /** The value a field of kind `k` reads back as once validated: a JSON
      integer given for a `float` field becomes the equal real, and every
      other accepted value is kept as it is. */
  function Normalized(k: Kind, v: Json): Json {
    if k == KNumber && v.JInt? then JReal(v.i as real) else v
  }

  /** A valid `messages` value reads back as the same list of objects. */
  lemma MessagesReadBack(v: Json)
    requires Fits(KMessages, v)
    ensures JArray(EncodeMessages(MessagesOf(v))) == v
  {
    assert EncodeMessages(MessagesOf(v)) == v.items by {
      forall i | 0 <= i < |v.items| ensures EncodeMessages(MessagesOf(v))[i] == v.items[i] {
        assert v.items[i].JObject?;
      }
    }
  }

  /** Field `name` of a validated request, written out as `written`, is as
      body `p` gives it: the body's value (normalized) when `p` carries the
      field, and `default` otherwise. */
  predicate KeptOrDefault(p: Payload, name: string, kind: Kind, written: Json, default: Json) {
    if name in p then written == Normalized(kind, p[name]) else written == default
  }

  /** Every field of an accepted chat body is filled in on its own: a field
      the body carries keeps its value (a `float` given as an integer as the
      equal real), and a field it omits takes its declared default, whatever
      else the body carries. */
  lemma ChatAcceptedFields(p: Payload)
    requires ValidateChat(p).Success?
    ensures
      var r := ValidateChat(p).value;
      && "model" in p && p["model"] == JString(r.model)
      && "messages" in p && p["messages"] == JArray(EncodeMessages(r.messages))
      && KeptOrDefault(p, "temperature", KNumber, JReal(r.temperature), JReal(DefaultTemperature))
      && KeptOrDefault(p, "top_p", KNumber, JReal(r.top_p), JReal(DefaultTopP))
      && KeptOrDefault(p, "n", KInteger, JInt(r.n), JInt(DefaultN))
      && KeptOrDefault(p, "stream", KBool, JBool(r.stream), JBool(DefaultStream))
      && KeptOrDefault(p, "stop", KStop, EncodeStop(r.stop), EncodeStop(DefaultStop))
      && KeptOrDefault(p, "max_tokens", KInteger, JInt(r.max_tokens), JInt(DefaultMaxTokens))
      && KeptOrDefault(p, "presence_penalty", KNumber, JReal(r.presence_penalty), JReal(DefaultPresencePenalty))
      && KeptOrDefault(p, "frequence_penalty", KNumber, JReal(r.frequence_penalty), JReal(DefaultFrequencePenalty))
      && KeptOrDefault(p, "logit_bias", KDictOrNull, EncodeDictOrNull(r.logit_bias), EncodeDictOrNull(DefaultLogitBias))
      && KeptOrDefault(p, "user", KString, JString(r.user), JString(DefaultUser))
  {
    var r := ValidateChat(p).value;
    ChatSchemaFields(p);
    assert r == ChatFromBody(p);
    MessagesReadBack(p["messages"]);
    if "stop" in p {
      assert EncodeStop(StopOf(p["stop"])) == p["stop"];
    }
    if "logit_bias" in p {
      assert EncodeDictOrNull(DictOrNullOf(p["logit_bias"])) == p["logit_bias"];
    }
  }

  /** A body that sets `temperature` and nothing else optional keeps that
      temperature, integer or fraction, and defaults every other field. */
  lemma ChatTemperatureOnly(model: string, messages: seq<Message>, v: Json)
    requires v.JInt? || v.JReal?
    ensures ValidateChat(map["model" := JString(model), "messages" := JArray(EncodeMessages(messages)), "temperature" := v])
      == Success(ChatCompletionInput(model, messages, temperature := if v.JInt? then v.i as real else v.r))
  {
    var p := map["model" := JString(model), "messages" := JArray(EncodeMessages(messages)), "temperature" := v];
    assert p["model"] == JString(model) && p["temperature"] == v;
    assert "top_p" !in p && "n" !in p && "stream" !in p && "stop" !in p && "max_tokens" !in p;
    assert "presence_penalty" !in p && "frequence_penalty" !in p && "logit_bias" !in p && "user" !in p;
    ChatSchemaFields(p);
    MessagesRoundTrip(messages);
    assert SchemaOk(p, ChatSchema);
    assert ChatFromBody(p) == ChatCompletionInput(model, messages, temperature := NumberValue(v));
  }

  // ---------------------------------------------------------------------
  // Embeddings validation.

  lemma EmbeddingsRejection(p: Payload)
    requires ValidateEmbeddings(p).Failure?
    ensures forall e :: e in ValidateEmbeddings(p).error ==> Justified(p, EmbeddingsSchema, e)
    ensures forall i :: 0 <= i < |EmbeddingsSchema| && !FieldOk(p, EmbeddingsSchema[i]) ==>
      (if EmbeddingsSchema[i].name in p then WrongType(EmbeddingsSchema[i].name) else Missing(EmbeddingsSchema[i].name)) in ValidateEmbeddings(p).error
  {
    forall e | e in ValidateEmbeddings(p).error ensures Justified(p, EmbeddingsSchema, e) {
      SchemaErrorsSound(p, EmbeddingsSchema, e);
    }
    forall i | 0 <= i < |EmbeddingsSchema| && !FieldOk(p, EmbeddingsSchema[i])
      ensures (if EmbeddingsSchema[i].name in p then WrongType(EmbeddingsSchema[i].name) else Missing(EmbeddingsSchema[i].name)) in ValidateEmbeddings(p).error
    {
      SchemaErrorsComplete(p, EmbeddingsSchema, i);
    }
  }

  /** An embeddings body without `model`, or without `input`, is refused, naming that field. */
  lemma EmbeddingsMissingRequired(p: Payload, name: string)
    requires name == "model" || name == "input"
    requires name !in p
    ensures ValidateEmbeddings(p).Failure? && Missing(name) in ValidateEmbeddings(p).error
  {
    EmbeddingsSchemaFields(p);
    SchemaErrorsComplete(p, EmbeddingsSchema, if name == "model" then 0 else 1);
  }

  /** A body with `model` and `input` only is accepted with `user` at its default. */
  lemma EmbeddingsMinimalBody(model: string, input: string)
    ensures ValidateEmbeddings(map["model" := JString(model), "input" := JString(input)])
      == Success(EmbeddingsInput(model, input))
  {
    EmbeddingsSchemaFields(map["model" := JString(model), "input" := JString(input)]);
  }

  lemma EmbeddingsDependsOnlyOnDeclared(p: Payload, q: Payload)
    requires AgreeOn(p, q, Names(EmbeddingsSchema))
    ensures ValidateEmbeddings(p) == ValidateEmbeddings(q)
  {
    var s := EmbeddingsSchema;
    SchemaErrorsDependOnDeclared(p, q, s);
    assert s[0].name in Names(s) && s[1].name in Names(s) && s[2].name in Names(s);
    EmbeddingsSchemaFields(p);
    EmbeddingsSchemaFields(q);
  }

  lemma EmbeddingsRoundTrip(req: EmbeddingsInput)
    ensures ValidateEmbeddings(EmbeddingsPayload(req)) == Success(req)
  {
    EmbeddingsSchemaFields(EmbeddingsPayload(req));
  }
}
