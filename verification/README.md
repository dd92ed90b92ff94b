# Chat completion use case, modelled in Dafny

This project models the chat-completion use case of a Go chat service. It covers one call of
`ChatComplitionUseCase.Execute`, which takes one user message to one assistant reply:

1. The call finds the chat by id. When the lookup error text is exactly `"chat not found"`, it builds a new chat seeded with the caller's system message and persists it with `CreateChat`. Any other lookup error fails the call.
2. It appends the user's message.
3. It sends the chat's whole history to the completion service as a streaming request.
4. It reads the stream. After every increment it publishes the cumulative reply to the output channel.
5. At end-of-file it appends the assistant's message, saves the chat with `SaveChat` and returns the reply.

It also models the `Model` value object (`NewModel` and its two getters) that the use case builds for a new chat.

The collaborators are inputs to the model:

- The chat gateway is the outcome of the lookup (a chat, or an error known by its text), plus whether `CreateChat` and `SaveChat` succeed.
- The completion client is whether the stream opens, the responses it yields, and whether it then ends with end-of-file or with a read error.
- The entity code the use case calls (`NewMessage`, `NewChat`, `Chat.AddMessage`) is an `EntityRules` value. It says whether each construction or append is accepted and which id a new chat receives.

A call returns its result and three logs: the gateway calls in order (each with the chat as it was at that moment), the completion requests issued, and every record sent to the output channel.

Modules:

- `Wrappers`: `Option` and `Result`.
- `Entities`: `Model`, `NewModel` and the getters, and the shapes of `Message`, `ChatConfig` and `Chat`.
- `ChatCompletionStream`: the input and output records, the collaborators, `CreateNewChat` and the specification `Run`. `Run` is built from the phase functions `ResolveChat`, `WithUserMessage`, `BuildRequest`, `Publications`, `Concat` and `WithAssistantMessage`. The module also holds the imperative `Execute` and its two loops, `ProjectHistory` and `ReceiveAll`. `Execute` is proved equal to `Run`.
- `ChatCompletionProperties`: what a call promises, proved about `Run`.

Three behaviours of the code worth noting:

- Any lookup error other than `"chat not found"` returns at once (internal/usecase/chatcomplitionstream/complition.go:72-74). The call never goes on with a missing chat.
- `NewModel` accepts any integer as the token ceiling, zero and negative ones included.
- The completion request does not carry `N`.

## Model

| member | source | states |
|---|---|---|
| `Entities.NewModelKeepsArguments` | internal/domain/entities/model.go:11-24 | for every name and every integer, including values ≤ 0, `NewModel` succeeds, and `GetModelName` and `GetMaxTokens` give back exactly the name and the ceiling it was built from |
| `Entities.NewModelFromGetters` | internal/domain/entities/model.go:11-24 | every Model is what `NewModel` builds from its own getters' results |
| `Entities.NewModelInjective` | internal/domain/entities/model.go:11-16 | two models are equal exactly when they were built from the same name and the same ceiling |
| `ChatCompletionStream.History` | internal/usecase/chatcomplitionstream/complition.go:85-91 | the projected history has one entry per chat message, in the same order, with role and content unchanged |
| `ChatCompletionStream.NewChatConfig` | internal/usecase/chatcomplitionstream/complition.go:154-164 | a new chat's config holds the model `NewModel(Config.Model, Config.ModelMaxTokens)`, and every other field is copied from the caller's config |
| `ChatCompletionStream.CreateNewChat` | internal/usecase/chatcomplitionstream/complition.go:153-174 | the chat is built exactly when the entity code accepts both the system message and the chat; it fails with the initial-message error exactly when the system message is rejected, and with the chat error exactly when the message is accepted but the chat is not; a new chat has the fresh id and the caller's user id, the model `NewModel(Config.Model, Config.ModelMaxTokens)`, every other config field copied from the input, and exactly one message: the system message with `InitialSystemMessage` |
| `ChatCompletionStream.WithUserMessage` | internal/usecase/chatcomplitionstream/complition.go:76-83 | fails with the user-message error exactly when the message is rejected, and with the append error exactly when the message is accepted but the append is not; succeeds exactly when both are accepted, and then the chat has the user message at the end and is otherwise unchanged |
| `ChatCompletionStream.WithAssistantMessage` | internal/usecase/chatcomplitionstream/complition.go:132-139 | fails with the assistant-message error exactly when the reply message is rejected, and with the append error exactly when the message is accepted but the append is not; succeeds exactly when both are accepted, and then the chat has the assistant message with the full reply at the end and is otherwise unchanged |
| `ChatCompletionStream.PublicationsStep` | internal/usecase/chatcomplitionstream/complition.go:122-129 | one more increment extends the running text by that delta and adds exactly one record, carrying the extended text, at the end of the published log |
| `ChatCompletionStream.ProjectHistory` | internal/usecase/chatcomplitionstream/complition.go:84-91 | the loop builds exactly `History` of the chat's messages |
| `ChatCompletionStream.ReceiveAll` | internal/usecase/chatcomplitionstream/complition.go:111-130 | reports failure exactly when the stream ends with a read error rather than end-of-file; publishes one cumulative record per increment, in order, whether or not the stream fails; at end-of-file the final text is all the deltas joined |
| `ChatCompletionStream.Execute` | internal/usecase/chatcomplitionstream/complition.go:57-151 | the result, the gateway calls, the requests and the published records are exactly those of `Run`, so every property below holds of the procedure |
| `ChatCompletionProperties.ConcatAppend` | internal/usecase/chatcomplitionstream/complition.go:111-126 | the running reply over two consecutive runs of deltas is the first run's text followed by the second's |
| `ChatCompletionProperties.ConcatPrefix` | internal/usecase/chatcomplitionstream/complition.go:122-126 | the text after fewer increments is a prefix of the text after more |
| `ChatCompletionProperties.PublicationsArePrefixChain` | internal/usecase/chatcomplitionstream/complition.go:122-129 | one record per delta, each with the chat's id and user id; each record's content is a prefix of every later record's content, so content length never decreases |
| `ChatCompletionProperties.LastPublicationIsFullReply` | internal/usecase/chatcomplitionstream/complition.go:122-149 | all the deltas joined equal the last published content, or `""` when there were no increments |
| `ChatCompletionProperties.HelloIsPublishedCumulatively` | internal/usecase/chatcomplitionstream/complition.go:111-130 | the increments `"Hel"` and `"lo"` publish `"Hel"` and then `"Hello"`, and the reply is `"Hello"` |
| `ChatCompletionProperties.HistoryAppend` | internal/usecase/chatcomplitionstream/complition.go:80-91 | the history after appending a message is the earlier history followed by that message's role and content |
| `ChatCompletionProperties.ResolutionCalls` | internal/usecase/chatcomplitionstream/complition.go:58-75 | resolving the chat calls `FindChatById` with the input's chat id first, makes at most one more gateway call, and never calls `SaveChat` |
| `ChatCompletionProperties.FoundChatIsNeverCreated` | internal/usecase/chatcomplitionstream/complition.go:58-75 | when the lookup finds the chat, the call goes on with that chat, unchanged, after the lookup alone; the first gateway call is the lookup and `CreateChat` is never called |
| `ChatCompletionProperties.MissingChatIsCreatedOnce` | internal/usecase/chatcomplitionstream/complition.go:60-71 | on exactly `"chat not found"`: a failed build ends the call after the lookup alone; otherwise the second gateway call is `CreateChat` with the new chat, which holds only the system message at that point; no later call is a create; a failed create ends the call with no request and no publish; after a successful create the call goes on with that same chat |
| `ChatCompletionProperties.OtherLookupErrorFailsFast` | internal/usecase/chatcomplitionstream/complition.go:72-74 | any other lookup error fails the call with the fetch error after the lookup alone: no create, no request, no publish, no save |
| `ChatCompletionProperties.RequestCarriesHistory` | internal/usecase/chatcomplitionstream/complition.go:76-106 | a request is issued exactly when the chat resolves and the user's message is accepted; it is the only one, and it carries the resolved chat's history in order followed by the user's message, the config's model name, MaxTokens, Stop and sampling values, and streaming mode set to true |
| `ChatCompletionProperties.PublishedRecordsAreCumulative` | internal/usecase/chatcomplitionstream/complition.go:107-130 | nothing is published unless the chat resolves, the user's message is accepted and the stream opens; then there is exactly one record per increment, in arrival order; the k-th record carries the chat's id and user id and the first k+1 deltas joined, and each record's content is a prefix of every later one |
| `ChatCompletionProperties.CompletedStreamIsSaved` | internal/usecase/chatcomplitionstream/complition.go:93-150 | when the chat resolves, the user message is accepted, the stream opens and reaches end-of-file, and the assistant message is accepted: one request is issued and one record is published per increment; `SaveChat` is called exactly once, as the last gateway call, with the chat holding both new messages, whether or not the save succeeds; the call succeeds exactly when the save does, returning the chat's id, the input's user id and the joined deltas, and otherwise fails with the save error |
| `ChatCompletionProperties.SaveOnlyAfterFullReply` | internal/usecase/chatcomplitionstream/complition.go:58-143 | `SaveChat` is called if and only if the chat resolved, the user message was accepted, the stream opened and reached end-of-file, and the assistant message was accepted |
| `ChatCompletionProperties.FailedStepsEndTheCall` | internal/usecase/chatcomplitionstream/complition.go:76-139 | once the chat has resolved, a rejected user message ends the call with that step's error and no request; a stream that does not open ends it with the completion error after the request alone; a rejected assistant message ends it with that step's error after every increment is published, and with no save |
| `ChatCompletionProperties.StreamFailureSkipsSave` | internal/usecase/chatcomplitionstream/complition.go:114-120 | a read error other than end-of-file fails the call and `SaveChat` is never called; once streaming has started, the error is the streaming error and every increment received before it stays published |
| `ChatCompletionProperties.SuccessfulRunSavesReply` | internal/usecase/chatcomplitionstream/complition.go:132-150 | a successful call read to end-of-file; `SaveChat` is its last gateway call and its only save, and receives the resolved chat with the user message and then the assistant message (all deltas joined) appended; it returns the chat's id, the input's user id (published records carry the chat's user id) and the joined deltas, which equal the last published content or `""` |

## Left out

- The OpenAI client and the network (complition.go:93-119). The stream is a finite list of responses followed by end-of-file or a read error. Each increment is the delta text of the response's first choice.
- `Execute`, `ReceiveAll` and `Run` require every response to have at least one choice. The source indexes `Choices[0]` unchecked, and a response without choices would panic. That panic is not modelled.
- The gateway implementation. `FindChatById`, `CreateChat` and `SaveChat` are outcomes given as inputs. Each call is logged with a copy of the chat as it was when the call was made. The source passes one chat pointer to `CreateChat` and then keeps appending to that chat; a gateway that held on to the pointer would see those later appends. Aliasing is not modelled.
- The entity code: `NewMessage`, `NewChat`, `Chat.AddMessage`, token counting and the token budget. It is not part of this model. Whether each step is accepted comes from `EntityRules`. An accepted append adds the message at the end and changes nothing else in the chat. `Chat.AddMessage` updates the chat in place; here it returns the extended chat and `Execute` rebinds its local variable.
- The float sampling parameters (Temperature, TopP, PresencePenalty, FrequencyPenalty). They are carried as 32-bit patterns and copied, never computed on.
- The goroutine and channel handoff (complition.go:129). Each send is an entry appended to the returned log of published records. Blocking, backpressure, the consumer and `context` cancellation are not modelled.
- The exact error texts. Each error return is a phase tag. The source's user-message error at complition.go:78 reuses the text "error creating new chat" from complition.go:65. The model gives the two returns different tags.
- The `ChatComplitionUseCase` struct and its constructor `NewChatComplitionUseCase` (complition.go:43-55). They only wire the collaborators, which are parameters here.
- The getters `GetMaxTokens` and `GetModelName` are functions on an immutable value, so they cannot change the Model. No separate contract states this.
