/**
 * The chat-completion use case of internal/usecase/chatcomplitionstream/complition.go:
 * one cycle from a user message to the assistant's reply.
 *
 * The collaborators are inputs. The chat gateway is the outcome of its lookup
 * plus whether create and save succeed. The completion client is whether the
 * stream opens, the responses it yields, and how it ends. The entity code is
 * an `EntityRules` value. The effects of one call are returned as logs:
 *  - the gateway calls in order, each with the chat it was given;
 *  - the completion requests issued;
 *  - every record sent to the output channel, in order.
 *
 * `Run` specifies the whole call phase by phase. `Execute` is the procedure
 * as the source writes it, with its two loops, and it is proved equal to `Run`.
 */
module ChatCompletionStream {
  import opened Wrappers
  import opened Entities

  /** The exact text of the lookup error that means "create a new chat". */
  const ChatNotFound: string := "chat not found"

  /** The configuration a caller supplies for a chat that does not exist yet. */
  datatype ConfigInput = ConfigInput(
    model: string,
    modelMaxTokens: int,
    temperature: Float32,
    topP: Float32,
    n: int,
    stop: seq<string>,
    maxTokens: int,
    presencePenalty: Float32,
    frequencyPenalty: Float32,
    initialSystemMessage: string)

  datatype Input = Input(chatID: string, userID: string, userMessage: string, config: ConfigInput)

  /** Both the records sent to the output channel and the final result have this shape. */
  datatype Output = Output(chatID: string, userID: string, content: string)

  /** What FindChatById answers: the chat, or an error known only by its text. */
  datatype Lookup = Found(chat: Chat) | LookupFailed(message: string)

  datatype ChatGateway = ChatGateway(lookup: Lookup, createSucceeds: bool, saveSucceeds: bool)

  /** One call made on the gateway. The chat is as it was at the moment of the call. */
  datatype GatewayCall = FindChatById(chatID: string) | CreateChat(chat: Chat) | SaveChat(chat: Chat)

  /** A history entry as the completion service receives it. */
  datatype WireMessage = WireMessage(role: string, content: string)

  datatype CompletionRequest = CompletionRequest(
    model: string,
    messages: seq<WireMessage>,
    maxTokens: int,
    temperature: Float32,
    topP: Float32,
    presencePenalty: Float32,
    frequencyPenalty: Float32,
    stop: seq<string>,
    stream: bool)

  /** One candidate of a stream response; only its delta text is modelled. */
  datatype Choice = Choice(deltaContent: string)

  datatype StreamResponse = StreamResponse(choices: seq<Choice>)

  /** How the stream ends after its last response: end-of-file, or a read error. */
  datatype StreamEnd = EndOfStream | ReadFailure

  datatype CompletionClient = CompletionClient(opens: bool, responses: seq<StreamResponse>, ending: StreamEnd)

  /** What one read of the stream gives. */
  datatype Received = Increment(response: StreamResponse) | EOF | ReadError

  /** Why createNewChat failed. */
  datatype ChatBuildError = InitialMessageRejected | ChatRejected

  /** The phase that failed, one tag per error return of Execute. */
  datatype ErrorKind =
    | CreatingNewChat(cause: ChatBuildError)
    | PersistingNewChat
    | FetchingExistingChat
    | CreatingUserMessage
    | AddingUserMessage
    | CreatingCompletion
    | StreamingResponse
    | CreatingAssistantMessage
    | AddingAssistantMessage
    | SavingChat

  /** The result of one call together with everything it did to its collaborators. */
  datatype Outcome = Outcome(
    result: Result<Output, ErrorKind>,
    calls: seq<GatewayCall>,
    requests: seq<CompletionRequest>,
    published: seq<Output>)

  /** Every response has a first choice; the source indexes it unchecked. */
  predicate EveryResponseHasChoice(responses: seq<StreamResponse>)
  {
    forall i :: 0 <= i < |responses| ==> |responses[i].choices| > 0
  }

  /** The delta text of the first choice of each response, in arrival order. */
  function Deltas(responses: seq<StreamResponse>): seq<string>
    requires EveryResponseHasChoice(responses)
  {
    seq(|responses|, i requires 0 <= i < |responses| => responses[i].choices[0].deltaContent)
  }

  /** The read at a given position of the forward-only stream. */
  function Recv(client: CompletionClient, position: nat): Received
  {
    if position < |client.responses| then Increment(client.responses[position])
    else if client.ending == EndOfStream then EOF
    else ReadError
  }

  /** The concatenation of a sequence of deltas. */
  function Concat(deltas: seq<string>): string
  {
    if deltas == [] then "" else Concat(deltas[..|deltas| - 1]) + deltas[|deltas| - 1]
  }

  /** The records published for a sequence of deltas: the k-th carries the first k + 1 deltas joined. */
  function Publications(chat: Chat, deltas: seq<string>): seq<Output>
  {
    seq(|deltas|, k requires 0 <= k < |deltas| => Output(chat.id, chat.userID, Concat(deltas[..k + 1])))
  }

  /** The wire form of a message: its role and content. */
  function ToWire(m: Message): WireMessage
  {
    WireMessage(m.role, m.content)
  }

  /** The history sent to the completion service: every message, in order, with role and content unchanged. */
  function History(messages: seq<Message>): (h: seq<WireMessage>)
    ensures |h| == |messages|
    ensures forall i :: 0 <= i < |messages| ==> h[i].role == messages[i].role && h[i].content == messages[i].content
  {
    if messages == [] then [] else History(messages[..|messages| - 1]) + [ToWire(messages[|messages| - 1])]
  }

  /** The request for a chat's whole history, always in streaming mode. N is not part of it. */
  function BuildRequest(chat: Chat): CompletionRequest
  {
    CompletionRequest(
      chat.config.model.name, History(chat.messages), chat.config.maxTokens,
      chat.config.temperature, chat.config.topP,
      chat.config.presencePenalty, chat.config.frequencyPenalty,
      chat.config.stop, true)
  }

  /** Every field of a chat config except the model is copied from the caller's config. */
  predicate ConfigCopied(config: ChatConfig, input: ConfigInput)
  {
    && config.temperature == input.temperature
    && config.topP == input.topP
    && config.n == input.n
    && config.stop == input.stop
    && config.maxTokens == input.maxTokens
    && config.presencePenalty == input.presencePenalty
    && config.frequencyPenalty == input.frequencyPenalty
  }

  /** The config of a new chat: the model built from the caller's name and ceiling, every other field copied. */
  function NewChatConfig(input: ConfigInput): (config: ChatConfig)
    ensures config.model == NewModel(input.model, input.modelMaxTokens)
    ensures ConfigCopied(config, input)
  {
    ChatConfig(
      NewModel(input.model, input.modelMaxTokens), input.temperature, input.topP, input.n, input.stop,
      input.maxTokens, input.presencePenalty, input.frequencyPenalty)
  }

  /** The seed message of a new chat: the caller's system message for the new chat's model. */
  function SeedMessage(input: ConfigInput): Message
  {
    Message("system", input.initialSystemMessage, NewModel(input.model, input.modelMaxTokens))
  }

  /**
   * A new chat for an unknown id, seeded with the caller's system message. It is
   * built exactly when the entity code accepts both the seed message and the
   * chat; otherwise the error names the step that refused.
   */
  function CreateNewChat(input: Input, rules: EntityRules): (r: Result<Chat, ChatBuildError>)
    ensures r == Err(InitialMessageRejected) <==>
      !rules.acceptsMessage("system", input.config.initialSystemMessage, NewModel(input.config.model, input.config.modelMaxTokens))
    ensures r == Err(ChatRejected) <==>
      && rules.acceptsMessage("system", input.config.initialSystemMessage, NewModel(input.config.model, input.config.modelMaxTokens))
      && !rules.acceptsChat(input.userID, SeedMessage(input.config), NewChatConfig(input.config))
    ensures r.Ok? <==>
      && rules.acceptsMessage("system", input.config.initialSystemMessage, NewModel(input.config.model, input.config.modelMaxTokens))
      && rules.acceptsChat(input.userID, SeedMessage(input.config), NewChatConfig(input.config))
    ensures r.Ok? ==>
      && r.value.id == rules.freshChatID
      && r.value.userID == input.userID
      && r.value.config == NewChatConfig(input.config)
      && r.value.config.model == NewModel(input.config.model, input.config.modelMaxTokens)
      && ConfigCopied(r.value.config, input.config)
      && r.value.messages == [SeedMessage(input.config)]
      && r.value.messages == [Message("system", input.config.initialSystemMessage, r.value.config.model)]
  {
    var model := NewModel(input.config.model, input.config.modelMaxTokens);
    var config := NewChatConfig(input.config);
    match NewMessage(rules, "system", input.config.initialSystemMessage, model)
    case None => Err(InitialMessageRejected)
    case Some(initial) =>
      match NewChat(rules, input.userID, initial, config)
      case None => Err(ChatRejected)
      case Some(chat) => Ok(chat)
  }

  /** The chat a call works on, and the gateway calls made to obtain it. */
  datatype Resolution = Resolution(chat: Result<Chat, ErrorKind>, calls: seq<GatewayCall>)

  /** Phase 1: find the chat; on exactly "chat not found", build and persist a new one. */
  function ResolveChat(gateway: ChatGateway, rules: EntityRules, input: Input): Resolution
  {
    var find := [FindChatById(input.chatID)];
    match gateway.lookup
    case Found(chat) => Resolution(Ok(chat), find)
    case LookupFailed(message) =>
      if message != ChatNotFound then Resolution(Err(FetchingExistingChat), find)
      else
        match CreateNewChat(input, rules)
        case Err(cause) => Resolution(Err(CreatingNewChat(cause)), find)
        case Ok(chat) =>
          Resolution(if gateway.createSucceeds then Ok(chat) else Err(PersistingNewChat), find + [CreateChat(chat)])
  }

  /** Phase 2: the chat with the user's message appended. */
  function WithUserMessage(rules: EntityRules, chat: Chat, input: Input): (r: Result<Chat, ErrorKind>)
    ensures r == Err(CreatingUserMessage) <==> !rules.acceptsMessage("user", input.userMessage, chat.config.model)
    ensures r == Err(AddingUserMessage) <==>
      && rules.acceptsMessage("user", input.userMessage, chat.config.model)
      && !rules.acceptsAppend(chat, Message("user", input.userMessage, chat.config.model))
    ensures r.Ok? <==>
      && rules.acceptsMessage("user", input.userMessage, chat.config.model)
      && rules.acceptsAppend(chat, Message("user", input.userMessage, chat.config.model))
    ensures r.Ok? ==> r.value == chat.(messages := chat.messages + [Message("user", input.userMessage, chat.config.model)])
  {
    match NewMessage(rules, "user", input.userMessage, chat.config.model)
    case None => Err(CreatingUserMessage)
    case Some(userMessage) =>
      match AddMessage(rules, chat, userMessage)
      case None => Err(AddingUserMessage)
      case Some(asked) => Ok(asked)
  }

  /** Phase 5: the chat with the assistant's full reply appended. */
  function WithAssistantMessage(rules: EntityRules, chat: Chat, full: string): (r: Result<Chat, ErrorKind>)
    ensures r == Err(CreatingAssistantMessage) <==> !rules.acceptsMessage("assistant", full, chat.config.model)
    ensures r == Err(AddingAssistantMessage) <==>
      && rules.acceptsMessage("assistant", full, chat.config.model)
      && !rules.acceptsAppend(chat, Message("assistant", full, chat.config.model))
    ensures r.Ok? <==>
      && rules.acceptsMessage("assistant", full, chat.config.model)
      && rules.acceptsAppend(chat, Message("assistant", full, chat.config.model))
    ensures r.Ok? ==> r.value == chat.(messages := chat.messages + [Message("assistant", full, chat.config.model)])
  {
    match NewMessage(rules, "assistant", full, chat.config.model)
    case None => Err(CreatingAssistantMessage)
    case Some(reply) =>
      match AddMessage(rules, chat, reply)
      case None => Err(AddingAssistantMessage)
      case Some(answered) => Ok(answered)
  }

  /** Phases 2 to 6 for a resolved chat: ask, stream, answer, save. */
  function Converse(
    gateway: ChatGateway, client: CompletionClient, rules: EntityRules, input: Input,
    chat: Chat, calls: seq<GatewayCall>): Outcome
    requires EveryResponseHasChoice(client.responses)
  {
    match WithUserMessage(rules, chat, input)
    case Err(e) => Outcome(Err(e), calls, [], [])
    case Ok(asked) =>
      var request := BuildRequest(asked);
      if !client.opens then Outcome(Err(CreatingCompletion), calls, [request], [])
      else
        var deltas := Deltas(client.responses);
        var published := Publications(asked, deltas);
        if client.ending == ReadFailure then Outcome(Err(StreamingResponse), calls, [request], published)
        else
          match WithAssistantMessage(rules, asked, Concat(deltas))
          case Err(e) => Outcome(Err(e), calls, [request], published)
          case Ok(answered) =>
            var saved := calls + [SaveChat(answered)];
            if gateway.saveSucceeds then
              Outcome(Ok(Output(answered.id, input.userID, Concat(deltas))), saved, [request], published)
            else
              Outcome(Err(SavingChat), saved, [request], published)
  }

  /** The whole call: what it returns and what it does to its collaborators. */
  function Run(gateway: ChatGateway, client: CompletionClient, rules: EntityRules, input: Input): Outcome
    requires EveryResponseHasChoice(client.responses)
  {
    var resolved := ResolveChat(gateway, rules, input);
    match resolved.chat
    case Err(e) => Outcome(Err(e), resolved.calls, [], [])
    case Ok(chat) => Converse(gateway, client, rules, input, chat, resolved.calls)
  }

  /** Taking one more delta adds one record that carries the longer concatenation. */
  lemma PublicationsStep(chat: Chat, deltas: seq<string>, i: nat)
    requires i < |deltas|
    ensures Concat(deltas[..i + 1]) == Concat(deltas[..i]) + deltas[i]
    ensures Publications(chat, deltas[..i + 1]) ==
      Publications(chat, deltas[..i]) + [Output(chat.id, chat.userID, Concat(deltas[..i + 1]))]
  {
    assert deltas[..i + 1][..i] == deltas[..i];
    assert deltas[..i + 1][..i + 1] == deltas[..i + 1];
    var longer, shorter := Publications(chat, deltas[..i + 1]), Publications(chat, deltas[..i]);
    forall k | 0 <= k < i
      ensures longer[k] == shorter[k]
    {
      assert deltas[..i + 1][..k + 1] == deltas[..i][..k + 1];
    }
    var last := Output(chat.id, chat.userID, Concat(deltas[..i + 1]));
    assert |longer| == i + 1 && longer[i] == last;
    assert longer == shorter + [last];
  }

  /** Copies the role and content of every message, in order, into the request's history. */
  method ProjectHistory(messages: seq<Message>) returns (wire: seq<WireMessage>)
    ensures wire == History(messages)
  {
    wire := [];
    for i := 0 to |messages|
      invariant wire == History(messages[..i])
    {
      assert messages[..i + 1][..i] == messages[..i];
      wire := wire + [WireMessage(messages[i].role, messages[i].content)];
    }
    assert messages[..|messages|] == messages;
  }

  /**
   * Reads the stream until it ends. Each increment is appended to the running
   * reply and the reply so far is published. Reports whether the stream ended
   * with a read error rather than end-of-file.
   */
  method ReceiveAll(client: CompletionClient, chat: Chat) returns (fullResponse: string, published: seq<Output>, failed: bool)
    requires EveryResponseHasChoice(client.responses)
    ensures failed <==> client.ending == ReadFailure
    ensures published == Publications(chat, Deltas(client.responses))
    ensures !failed ==> fullResponse == Concat(Deltas(client.responses))
  {
    ghost var deltas := Deltas(client.responses);
    fullResponse, published, failed := "", [], false;
    var position := 0;
    while true
      invariant position <= |client.responses|
      invariant fullResponse == Concat(deltas[..position])
      invariant published == Publications(chat, deltas[..position])
      decreases |client.responses| - position
    {
      var received := Recv(client, position);
      if received.EOF? {
        break;
      }
      if received.ReadError? {
        failed := true;
        break;
      }
      PublicationsStep(chat, deltas, position);
      fullResponse := fullResponse + received.response.choices[0].deltaContent;
      published := published + [Output(chat.id, chat.userID, fullResponse)];
      position := position + 1;
    }
    assert deltas[..position] == deltas;
  }

  /**
   * One user turn to one assistant turn. Each increment of the stream is
   * appended to the running reply and the reply so far is published.
   */
  method Execute(gateway: ChatGateway, client: CompletionClient, rules: EntityRules, input: Input)
    returns (result: Result<Output, ErrorKind>, calls: seq<GatewayCall>, requests: seq<CompletionRequest>, published: seq<Output>)
    requires EveryResponseHasChoice(client.responses)
    ensures Outcome(result, calls, requests, published) == Run(gateway, client, rules, input)
  {
    calls, requests, published := [FindChatById(input.chatID)], [], [];
    var chat: Chat;
    match gateway.lookup {
      case Found(found) =>
        chat := found;
      case LookupFailed(message) =>
        if message != ChatNotFound {
          result := Err(FetchingExistingChat);
          return;
        }
        var created := CreateNewChat(input, rules);
        if created.Err? {
          result := Err(CreatingNewChat(created.error));
          return;
        }
        chat := created.value;
        calls := calls + [CreateChat(chat)];
        if !gateway.createSucceeds {
          result := Err(PersistingNewChat);
          return;
        }
    }

    assert ResolveChat(gateway, rules, input) == Resolution(Ok(chat), calls);
    ghost var resolved := chat;
    assert Run(gateway, client, rules, input) == Converse(gateway, client, rules, input, resolved, calls);

    var userMessage := NewMessage(rules, "user", input.userMessage, chat.config.model);
    if userMessage.None? {
      result := Err(CreatingUserMessage);
      return;
    }
    var asked := AddMessage(rules, chat, userMessage.value);
    if asked.None? {
      result := Err(AddingUserMessage);
      return;
    }
    chat := asked.value;
    assert WithUserMessage(rules, resolved, input) == Ok(chat);

    var messages := ProjectHistory(chat.messages);
    var request := CompletionRequest(
      chat.config.model.name, messages, chat.config.maxTokens,
      chat.config.temperature, chat.config.topP,
      chat.config.presencePenalty, chat.config.frequencyPenalty,
      chat.config.stop, true);
    requests := [request];
    if !client.opens {
      result := Err(CreatingCompletion);
      return;
    }

    var fullResponse, failed;
    fullResponse, published, failed := ReceiveAll(client, chat);
    if failed {
      result := Err(StreamingResponse);
      return;
    }

    var assistant := NewMessage(rules, "assistant", fullResponse, chat.config.model);
    if assistant.None? {
      result := Err(CreatingAssistantMessage);
      return;
    }
    var answered := AddMessage(rules, chat, assistant.value);
    if answered.None? {
      result := Err(AddingAssistantMessage);
      return;
    }
    chat := answered.value;

    calls := calls + [SaveChat(chat)];
    if !gateway.saveSucceeds {
      result := Err(SavingChat);
      return;
    }
    result := Ok(Output(chat.id, input.userID, fullResponse));
  }
}
