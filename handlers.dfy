/** The three routes of the mock router. The web framework validates the
    JSON body against the request schema before the handler runs and answers
    with a validation error (HTTP 422) when it does not fit; the handler is
    called with the validated body only. */
module Handlers {
  import opened Wrappers
  import opened Json
  import opened Requests
  import opened Responses
  import RequestProperties

  /** `GET /`. */
  function HandleHealth(): (r: HealthResponse)
    ensures r == HealthResponse(status := true)
  {
    Health()
  }

  /** `POST /chat/completions`: validation, then the fixed reply. */
  function HandleChat(p: Payload, id: string, now: real): (r: Result<ChatCompletionResponse, seq<FieldError>>)
    ensures r.Success? <==> SchemaOk(p, ChatSchema)
    ensures r.Failure? ==> r.error == SchemaErrors(p, ChatSchema) && |r.error| > 0
    ensures r.Success? ==> r.value == ChatCompletions(ValidateChat(p).value, id, now) && WellFormedChat(r.value)
  {
    match ValidateChat(p)
    case Failure(e) => Failure(e)
    case Success(body) =>
      ChatCompletionsWellFormed(body, id, now);
      Success(ChatCompletions(body, id, now))
  }

  /** `POST /embeddings`: validation, then the constant vector. */
  function HandleEmbeddings(p: Payload): (r: Result<EmbeddingsResponse, seq<FieldError>>)
    ensures r.Success? <==> SchemaOk(p, EmbeddingsSchema)
    ensures r.Failure? ==> r.error == SchemaErrors(p, EmbeddingsSchema) && |r.error| > 0
    ensures r.Success? ==> r.value == Embeddings(ValidateEmbeddings(p).value) && WellFormedEmbeddings(r.value)
  {
    match ValidateEmbeddings(p)
    case Failure(e) => Failure(e)
    case Success(body) =>
      EmbeddingsWellFormed(body);
      Success(Embeddings(body))
  }

  /** Every accepted chat request gets the same reply for the same
      identifier and clock reading. */
  lemma ChatReplyIndependentOfRequest(p: Payload, q: Payload, id: string, now: real)
    requires HandleChat(p, id, now).Success? && HandleChat(q, id, now).Success?
    ensures HandleChat(p, id, now) == HandleChat(q, id, now)
  {
    ChatIgnoresBody(ValidateChat(p).value, ValidateChat(q).value, id, now);
  }

  /** An accepted embeddings request is answered with its own model name. */
  lemma EmbeddingsEchoModel(p: Payload)
    requires HandleEmbeddings(p).Success?
    ensures "model" in p && p["model"].JString?
    ensures HandleEmbeddings(p).value.model == p["model"].s
  {
    EmbeddingsSchemaFields(p);
  }

  /** A body without `model` is refused by both POST routes, and each names
      the missing field. */
  lemma MissingModelRejected(p: Payload, id: string, now: real)
    requires "model" !in p
    ensures HandleChat(p, id, now).Failure? && Missing("model") in HandleChat(p, id, now).error
    ensures HandleEmbeddings(p).Failure? && Missing("model") in HandleEmbeddings(p).error
  {
    SchemaErrorsComplete(p, ChatSchema, 0);
    SchemaErrorsComplete(p, EmbeddingsSchema, 0);
  }

  /** A chat request with one user message and nothing else is answered with
      the fixed one-choice reply. */
  lemma ChatExample(id: string, now: real)
    ensures
      var message := JObject(map["role" := JString("user"), "content" := JString("hi")]);
      var p := map["model" := JString("gpt-x"), "messages" := JArray([message])];
      HandleChat(p, id, now) == Success(ChatCompletionResponse(
        id := id,
        model := "chat-mock",
        object_ := "chat.completion",
        created := EpochSeconds(now),
        choices := [Choice("assistant", 0, ChatMessage("assistant", "Hello world"), "stop")],
        usage := ChatUsage(0, 0, 0)))
  {
    var message := JObject(map["role" := JString("user"), "content" := JString("hi")]);
    var p := map["model" := JString("gpt-x"), "messages" := JArray([message])];
    var m := message.fields;
    RequestProperties.ChatMinimalBody("gpt-x", [m]);
    assert EncodeMessages([m]) == [message];
    var body := ChatCompletionInput("gpt-x", [m]);
    assert ValidateChat(p) == Success(body);
    assert ChatCompletions(body, id, now).choices == [Choice("assistant", 0, ChatMessage("assistant", "Hello world"), "stop")];
  }

  /** The embeddings request `{"model": "embed-1", "input": "hello"}` gets
      exactly this reply. */
  lemma EmbeddingsExample()
    ensures
      var p := map["model" := JString("embed-1"), "input" := JString("hello")];
      HandleEmbeddings(p) == Success(EmbeddingsResponse(
        object_ := "list",
        data := [EmbeddingObject(object_ := "embedding", index := 0, embedding := [0.1, 0.1, 0.1])],
        model := "embed-1",
        usage := EmbeddingUsage(prompt_tokens := 0, total_tokens := 0)))
  {
    RequestProperties.EmbeddingsMinimalBody("embed-1", "hello");
  }
}
