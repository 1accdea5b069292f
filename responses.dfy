/** The response schemas and the three synthesizers (`health`,
    `chat_completions`, `embeddings`). None of them reads the request beyond
    the embeddings `model`; the identifier and the clock reading that the
    chat handler draws from `uuid` and the wall clock are parameters. */
module Responses {
  import opened Requests

  // ---------------------------------------------------------------------
  // Response schemas, with the defaults they declare.

  /** The `message` of a chat choice. */
  datatype ChatMessage = ChatMessage(role: string, content: string)

  /** One element of `choices` (a plain dict in the handler). */
  datatype Choice = Choice(role: string, index: int, message: ChatMessage, finish_reason: string)

  datatype ChatUsage = ChatUsage(prompt_tokens: int := 0, completion_tokens: int := 0, total_tokens: int := 0)

  /** `object_` is serialized as `object`, a reserved word in Dafny. */
  datatype ChatCompletionResponse = ChatCompletionResponse(
    id: string,
    model: string,
    object_: string := "chat.completion",
    created: int,
    choices: seq<Choice>,
    usage: ChatUsage := ChatUsage())

  datatype EmbeddingObject = EmbeddingObject(object_: string := "embedding", index: int := 0, embedding: seq<real>)

  datatype EmbeddingUsage = EmbeddingUsage(prompt_tokens: int := 0, total_tokens: int := 0)

  datatype EmbeddingsResponse = EmbeddingsResponse(
    object_: string := "list",
    data: seq<EmbeddingObject>,
    model: string := "",
    usage: EmbeddingUsage)

  datatype HealthResponse = HealthResponse(status: bool)

  // ---------------------------------------------------------------------
  // The shapes the emulated API promises its clients.

  /** A chat completion response as clients of the emulated API expect it:
      the fixed object tag, at least one choice, each choice's `index` its
      position, and token counts that are non-negative and add up. */
  predicate WellFormedChat(r: ChatCompletionResponse) {
    && r.object_ == "chat.completion"
    && |r.choices| > 0
    && (forall i :: 0 <= i < |r.choices| ==> r.choices[i].index == i)
    && 0 <= r.usage.prompt_tokens && 0 <= r.usage.completion_tokens
    && r.usage.total_tokens == r.usage.prompt_tokens + r.usage.completion_tokens
  }

  /** An embeddings response as clients expect it: the list tag, each
      element tagged and indexed by its position, all vectors of one length,
      and non-negative token counts with prompt tokens within the total. */
  predicate WellFormedEmbeddings(r: EmbeddingsResponse) {
    && r.object_ == "list"
    && (forall i :: 0 <= i < |r.data| ==> r.data[i].object_ == "embedding" && r.data[i].index == i)
    && (forall i, j :: 0 <= i < |r.data| && 0 <= j < |r.data| ==> |r.data[i].embedding| == |r.data[j].embedding|)
    && 0 <= r.usage.prompt_tokens <= r.usage.total_tokens
  }

  // ---------------------------------------------------------------------
  // Synthesizers.

  /** `health`: the liveness probe. */
  function Health(): (r: HealthResponse)
    ensures r.status
  {
    HealthResponse(status := true)
  }

  /** The model name every chat response carries, whatever was requested. */
  const MockModel: string := "chat-mock"

  /** The texts the chat handler enumerates into choices. */
  const ReplyTexts: seq<string> := ["Hello world"]

  /** Python's `int(x)` of a clock reading in seconds: truncation toward zero. */
  function EpochSeconds(t: real): (r: int)
    ensures 0.0 <= t ==> 0 <= r && r as real <= t < r as real + 1.0
    ensures t < 0.0 ==> r <= 0 && r as real - 1.0 < t <= r as real
  {
    if t >= 0.0 then t.Floor else -((-t).Floor)
  }

  /** The choice built for reply `text` at position `index`. */
  function AssistantChoice(index: int, text: string): Choice {
    Choice(role := "assistant", index := index, message := ChatMessage("assistant", text), finish_reason := "stop")
  }

  /** The list comprehension over `enumerate(texts, start)`: one assistant
      choice per text, each indexed by its position. */
  function EnumerateChoices(texts: seq<string>, start: nat): (r: seq<Choice>)
    ensures |r| == |texts|
    ensures forall i :: 0 <= i < |r| ==> r[i].index == start + i && r[i].message.content == texts[i]
    ensures forall i :: 0 <= i < |r| ==> r[i].role == "assistant" && r[i].message.role == "assistant" && r[i].finish_reason == "stop"
    decreases |texts|
  {
    if texts == [] then [] else [AssistantChoice(start, texts[0])] + EnumerateChoices(texts[1..], start + 1)
  }

  /** `chat_completions`: a fixed one-choice reply. `id` stands for
      `str(uuid.uuid4())` and `now` for the wall-clock reading in seconds. */
  function ChatCompletions(body: ChatCompletionInput, id: string, now: real): (r: ChatCompletionResponse)
    ensures r.id == id && r.created == EpochSeconds(now)
    ensures r.model == "chat-mock" && r.object_ == "chat.completion"
    ensures |r.choices| == 1
    ensures forall i :: 0 <= i < |r.choices| ==>
      && r.choices[i].index == i
      && r.choices[i].role == "assistant"
      && r.choices[i].message == ChatMessage("assistant", "Hello world")
      && r.choices[i].finish_reason == "stop"
    ensures r.usage.prompt_tokens == 0 && r.usage.completion_tokens == 0 && r.usage.total_tokens == 0
  {
    ChatCompletionResponse(
      id := id,
      model := MockModel,
      object_ := "chat.completion",
      created := EpochSeconds(now),
      choices := EnumerateChoices(ReplyTexts, 0),
      usage := ChatUsage(prompt_tokens := 0, completion_tokens := 0, total_tokens := 0))
  }

  /** `embeddings`: one constant placeholder vector, the same for every
      request, echoing the requested model. */
  function Embeddings(body: EmbeddingsInput): (r: EmbeddingsResponse)
    ensures r.model == body.model && r.object_ == "list"
    ensures |r.data| == 1 && r.data[0].object_ == "embedding" && r.data[0].index == 0
    ensures |r.data[0].embedding| == 3 && r.data[0].embedding == [0.1, 0.1, 0.1]
    ensures forall j, k :: 0 <= j < 3 && 0 <= k < 3 ==> r.data[0].embedding[j] == r.data[0].embedding[k]
    ensures r.usage.prompt_tokens == 0 && r.usage.total_tokens == 0
  {
    EmbeddingsResponse(
      object_ := "list",
      data := [EmbeddingObject(embedding := [0.1, 0.1, 0.1])],
      model := body.model,
      usage := EmbeddingUsage())
  }

  // ---------------------------------------------------------------------
  // Properties of the synthesizers.

  lemma ChatCompletionsWellFormed(body: ChatCompletionInput, id: string, now: real)
    ensures WellFormedChat(ChatCompletions(body, id, now))
  {
  }

  /** For a given identifier and clock reading the reply is the same for
      every request: the body is never read. */
  lemma ChatIgnoresBody(a: ChatCompletionInput, b: ChatCompletionInput, id: string, now: real)
    ensures ChatCompletions(a, id, now) == ChatCompletions(b, id, now)
  {
  }

  /** A client can tell mock traffic apart: unless it asked for the model
      `chat-mock` itself, the reply's model differs from the requested one. */
  lemma ChatModelNotEchoed(body: ChatCompletionInput, id: string, now: real)
    requires body.model != MockModel
    ensures ChatCompletions(body, id, now).model != body.model
  {
  }

  /** `created` follows the clock: a later reading never gives an earlier
      timestamp, and the timestamp is the reading to within a second. */
  lemma CreatedFollowsClock(a: ChatCompletionInput, b: ChatCompletionInput, id1: string, id2: string, t1: real, t2: real)
    requires t1 <= t2
    ensures ChatCompletions(a, id1, t1).created <= ChatCompletions(b, id2, t2).created
    ensures -1.0 < ChatCompletions(a, id1, t1).created as real - t1 < 1.0
  {
    var c1, c2 := EpochSeconds(t1), EpochSeconds(t2);
    if t1 < 0.0 && 0.0 <= t2 {
      assert c1 <= 0 <= c2;
    }
  }

  lemma EmbeddingsWellFormed(body: EmbeddingsInput)
    ensures WellFormedEmbeddings(Embeddings(body))
  {
  }

  /** The embeddings reply depends on the request through its model alone. */
  lemma EmbeddingsDependOnModelOnly(a: EmbeddingsInput, b: EmbeddingsInput)
    ensures Embeddings(a) == Embeddings(b) <==> a.model == b.model
  {
    if Embeddings(a) == Embeddings(b) {
      assert Embeddings(a).model == Embeddings(b).model;
    }
  }
}
