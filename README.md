# Generic LLM API mock: a Dafny model

The prem-daemon generic mock (`resources/mocks/generic/main.py`) stands in
for a language-model provider. It serves three routes: a liveness probe, a
chat completion endpoint and an embeddings endpoint. It never runs a model.
Each POST body is validated against a request schema. An accepted body
gets a canned reply, and a refused one gets a validation error.

This project models that behaviour as pure Dafny. The source has no state
and no loops (its one comprehension builds a list), so the model is
datatypes, functions and lemmas:

- `Json` is the decoded JSON value a body consists of. A body is a
  `Payload`, a map from keys to values.
- `Requests` holds the two request schemas `ChatCompletionInput` and
  `EmbeddingsInput` as datatypes with their declared defaults. It also holds
  each schema as a table of fields (name, accepted kind, required) and the
  validation `ValidateChat` / `ValidateEmbeddings`. Validation returns the
  populated request or the list of faulty fields in declaration order. The
  encoding `ChatPayload` / `EmbeddingsPayload` writes a request back out as a
  body. It is the partner validation is proved to invert.
- `RequestProperties` holds what validation promises:
  - which bodies are refused, and the error list names exactly the real faults;
  - that each field of an accepted body is kept, and each absent field takes
    its declared default, independently of the others;
  - that keys the schema does not declare are ignored;
  - the round trip from request to body and back.
- `Responses` holds the response schemas and the three synthesizers
  `Health`, `ChatCompletions` and `Embeddings`, with the response shapes
  clients rely on (`WellFormedChat`, `WellFormedEmbeddings`).
- `Handlers` holds the routes, validation followed by synthesis, and two
  worked examples of complete request/reply pairs.

The chat handler reads a fresh UUID and the wall clock. Both are parameters
here: `id` is the identifier string and `now` is the clock reading in
seconds since the epoch. `created` is Python's `int()` of that reading,
which truncates toward zero (`EpochSeconds`).

Where the code is looser than the provider API it emulates, the model
follows the code:

- Nothing requires `model` to be non-empty: `model: str` accepts `""`.
- `stop` is declared `str | list | None`, so a list of any JSON values is
  accepted, not only a list of strings.
- The chat schema spells its penalty field `frequence_penalty` (line 27). A
  body's `frequency_penalty` key is an undeclared key, so it is ignored
  (`RequestProperties.ChatIgnoresFrequencyPenalty`).

## Model

| member | source | states |
|---|---|---|
| Requests.ChatSchemaFields | resources/mocks/generic/main.py:17-29 | A chat body fits the schema iff `model` is a string, `messages` a list of objects, and each optional field, when present, has its declared type (float, int, bool, `str \| list \| None`, `dict \| None`, str) |
| Requests.EmbeddingsSchemaFields | resources/mocks/generic/main.py:41-44 | An embeddings body fits iff `model` and `input` are strings and `user`, when present, is a string |
| Requests.ValidateChat | resources/mocks/generic/main.py:17-29 | Validation succeeds exactly when the body fits the chat schema; otherwise it fails with the non-empty list of field faults |
| Requests.ValidateEmbeddings | resources/mocks/generic/main.py:41-44 | The same for the embeddings schema |
| Requests.SchemaErrorsEmpty | resources/mocks/generic/main.py:17-29 | No fault is reported iff every declared field is as the schema demands |
| Requests.SchemaErrorsSound | resources/mocks/generic/main.py:17-29 | Every reported fault is real: a `Missing` names a required declared field absent from the body, a `WrongType` a present declared field of the wrong type |
| Requests.SchemaErrorsComplete | resources/mocks/generic/main.py:17-29 | Every real fault is reported: an absent required field as `Missing`, a mistyped field as `WrongType` |
| Requests.SchemaErrorsDependOnDeclared | resources/mocks/generic/main.py:17-29 | Faults and acceptance depend only on the values under the declared keys |
| Requests.MessagesRoundTrip | resources/mocks/generic/main.py:19 | Any list of message dicts written out as JSON is a valid `messages` value and reads back unchanged |
| RequestProperties.ChatRejection | resources/mocks/generic/main.py:17-29 | A refused chat body's error list contains only justified faults and contains the fault of every field that does not fit |
| RequestProperties.ChatMissingRequired | resources/mocks/generic/main.py:18-19 | A chat body without `model`, or without `messages`, is refused with `Missing` for that field |
| RequestProperties.ChatDependsOnlyOnDeclared | resources/mocks/generic/main.py:17-29 | Two chat bodies that agree on the twelve declared keys validate to the same result |
| RequestProperties.ChatIgnoresFrequencyPenalty | resources/mocks/generic/main.py:27 | Adding or changing a `frequency_penalty` key never changes the validation result |
| RequestProperties.ChatMinimalBody | resources/mocks/generic/main.py:17-29 | A body with only `model` and `messages`, including an empty message list, is accepted: temperature 1.0, top_p 1.0, n 1, stream false, stop "", max_tokens 7, penalties 0.0, logit_bias {}, user "" |
| RequestProperties.ChatStopKinds | resources/mocks/generic/main.py:24 | For any body that is accepted without its `stop` key, setting `stop` to a value keeps it accepted iff the value is a string, a list or null |
| RequestProperties.ChatAcceptedFields | resources/mocks/generic/main.py:17-29 | For every accepted chat body, `model` and `messages` are the body's values, and each of the ten optional fields independently is the body's value when present (a `float` given as an integer as the equal real; `stop` and `logit_bias` written back as sent) and its declared default when absent |
| RequestProperties.MessagesReadBack | resources/mocks/generic/main.py:19 | A valid `messages` value, once validated and written out again, is the value the body carried |
| RequestProperties.ChatTemperatureOnly | resources/mocks/generic/main.py:20-29 | A body setting only `temperature` (integer or fraction) among the optional fields keeps that temperature and defaults the other nine |
| RequestProperties.ChatRoundTrip | resources/mocks/generic/main.py:17-29 | Every chat request written out as a body validates back to itself |
| RequestProperties.EmbeddingsRejection | resources/mocks/generic/main.py:41-44 | A refused embeddings body's error list contains only justified faults and every field's fault |
| RequestProperties.EmbeddingsMissingRequired | resources/mocks/generic/main.py:42-43 | An embeddings body without `model`, or without `input`, is refused with `Missing` for that field |
| RequestProperties.EmbeddingsMinimalBody | resources/mocks/generic/main.py:41-44 | A body with only `model` and `input` is accepted with `user` "" |
| RequestProperties.EmbeddingsDependsOnlyOnDeclared | resources/mocks/generic/main.py:41-44 | Two embeddings bodies that agree on `model`, `input` and `user` validate alike |
| RequestProperties.EmbeddingsRoundTrip | resources/mocks/generic/main.py:41-44 | Every embeddings request written out as a body validates back to itself |
| Responses.Health | resources/mocks/generic/main.py:71-74 | The health reply's status is true |
| Responses.EpochSeconds | resources/mocks/generic/main.py:83 | `int()` of a clock reading: within one second of the reading, rounded toward zero |
| Responses.EnumerateChoices | resources/mocks/generic/main.py:84-92 | One choice per text; choice i has index start + i and content text i; role "assistant" in the choice and its message; finish_reason "stop" |
| Responses.ChatCompletions | resources/mocks/generic/main.py:77-94 | Reply has the given id, created = `int(now)`, model "chat-mock", object "chat.completion", exactly one choice whose index is its position, role "assistant", message {assistant, "Hello world"}, finish_reason "stop", and all-zero usage |
| Responses.Embeddings | resources/mocks/generic/main.py:97-104 | Reply echoes the request's model, object "list", one element with object "embedding" and index 0 whose vector is the placeholder `[0.1, 0.1, 0.1]` for every request (three equal entries), and zero usage |
| Responses.ChatCompletionsWellFormed | resources/mocks/generic/main.py:77-94 | Every chat reply is well formed: object tag, a non-empty choice list indexed by position, and usage counts that are non-negative and sum to the total |
| Responses.ChatIgnoresBody | resources/mocks/generic/main.py:77-94 | For a fixed id and clock reading, any two chat requests get the same reply |
| Responses.ChatModelNotEchoed | resources/mocks/generic/main.py:81 | Unless "chat-mock" was requested, the reply's model differs from the requested one |
| Responses.CreatedFollowsClock | resources/mocks/generic/main.py:83 | A later clock reading never gives an earlier `created`, and `created` is within one second of the reading |
| Responses.EmbeddingsWellFormed | resources/mocks/generic/main.py:97-104 | Every embeddings reply is well formed: list tag, elements tagged and indexed by position, vectors of one length, prompt tokens within the total |
| Responses.EmbeddingsDependOnModelOnly | resources/mocks/generic/main.py:97-104 | Two embeddings requests get the same reply iff they name the same model |
| Handlers.HandleHealth | resources/mocks/generic/main.py:71-74 | `GET /` answers `{status: true}` |
| Handlers.HandleChat | resources/mocks/generic/main.py:77-94 | `POST /chat/completions` answers iff the body fits the chat schema, with the fixed, well-formed reply for the validated request; otherwise with the body's field faults |
| Handlers.HandleEmbeddings | resources/mocks/generic/main.py:96-104 | `POST /embeddings` answers iff the body fits the embeddings schema, with the well-formed reply for the validated request; otherwise with the field faults |
| Handlers.ChatReplyIndependentOfRequest | resources/mocks/generic/main.py:77-94 | Every accepted chat body gets the same reply for the same id and clock reading |
| Handlers.EmbeddingsEchoModel | resources/mocks/generic/main.py:97-103 | An accepted embeddings body has a string `model`, and the reply carries exactly that string |
| Handlers.MissingModelRejected | resources/mocks/generic/main.py:17-44 | A body without `model` is refused by both POST routes, each naming `model` as missing |
| Handlers.ChatExample | resources/mocks/generic/main.py:77-94 | `{"model": "gpt-x", "messages": [{"role": "user", "content": "hi"}]}` gets exactly the one-choice "Hello world" reply with zero usage |
| Handlers.EmbeddingsExample | resources/mocks/generic/main.py:97-104 | `{"model": "embed-1", "input": "hello"}` gets exactly `{object: "list", data: [{object: "embedding", index: 0, embedding: [0.1, 0.1, 0.1]}], model: "embed-1", usage: {0, 0}}` |

## Left out

- Web framework, CORS middleware, logging setup and the server entry point (lines 1-14, 69, 107-124): transport and process wiring with no logic of the mock's own.
- `uuid.uuid4()` and `dt.now()`: the identifier and the clock reading are parameters. That identifiers are fresh for each response cannot be stated without a model of randomness.
- The class-level defaults `id = uuid.uuid4()` and `created = int(dt.now().timestamp())` of `ChatCompletionResponse` (lines 33 and 36): they are evaluated once at import, but the handler always supplies both fields, so they never reach a reply.
- The validation library's lax coercions (numeric strings to numbers, `1`/`0` to booleans, integral floats to ints): `float` fields accept a JSON integer or fraction, and `int`, `bool` and `str` fields accept only their own JSON kind.
- Requests.ValidateChat: a malformed element of `messages` is reported as one `WrongType("messages")` fault, not at its index inside the list.
- Floating point: `float` is modelled as `real`, so rounding, NaN and infinities are not modelled.
- `async` handlers and concurrent requests: each request is handled in isolation, and the handlers share no state.
- The HTTP status codes and the JSON shape of the validation error body: a refusal is modelled as the list of faulty fields.
