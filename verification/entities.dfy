/**
 * Domain entities of the chat service.
 *
 * `Model` is the immutable value object of internal/domain/entities/model.go.
 * `Message`, `ChatConfig` and `Chat` are the shapes the completion use case
 * reads and builds. Their own construction and append rules (validation,
 * token counting, the token budget) are not part of this model: they enter
 * only as the verdicts an `EntityRules` value gives, so every constructor
 * here may fail, and the model never decides why.
 */
module Entities {
  import opened Wrappers

  /** Which remote model a chat targets and the token ceiling of that model. */
  datatype Model = Model(name: string, maxTokens: int)
  {
    function GetMaxTokens(): int { maxTokens }

    function GetModelName(): string { name }
  }

  /** Builds a Model. It never fails and does not validate: any integer is a token ceiling. */
  function NewModel(name: string, maxTokens: int): Model
  {
    Model(name, maxTokens)
  }

  /** An IEEE-754 single-precision value, carried bit for bit and never computed on. */
  type Float32 = bv32

  /** One turn of a conversation. The token count the entity also keeps is not modelled. */
  datatype Message = Message(role: string, content: string, model: Model)

  /** The sampling parameters and the model of a chat, fixed when the chat is created. */
  datatype ChatConfig = ChatConfig(
    model: Model,
    temperature: Float32,
    topP: Float32,
    n: int,
    stop: seq<string>,
    maxTokens: int,
    presencePenalty: Float32,
    frequencyPenalty: Float32)

  /** A conversation: its identity, its owner, its ordered messages and its config. */
  datatype Chat = Chat(id: string, userID: string, messages: seq<Message>, config: ChatConfig)

  /**
   * The decisions of the entity code this model does not contain: whether a
   * message may be built, whether a chat may be built, whether a message may
   * be appended to a chat, and the identity a new chat receives.
   */
  datatype EntityRules = EntityRules(
    acceptsMessage: (string, string, Model) -> bool,
    acceptsChat: (string, Message, ChatConfig) -> bool,
    acceptsAppend: (Chat, Message) -> bool,
    freshChatID: string)

  /** Builds a message of the given role for the given model, or fails. */
  function NewMessage(rules: EntityRules, role: string, content: string, model: Model): Option<Message>
  {
    if rules.acceptsMessage(role, content, model) then Some(Message(role, content, model)) else None
  }

  /** Builds a chat seeded with its initial message, or fails. */
  function NewChat(rules: EntityRules, userID: string, initial: Message, config: ChatConfig): Option<Chat>
  {
    if rules.acceptsChat(userID, initial, config) then Some(Chat(rules.freshChatID, userID, [initial], config)) else None
  }

  /** The chat with one more message at the end, or a failure that leaves the chat as it was. */
  function AddMessage(rules: EntityRules, chat: Chat, m: Message): Option<Chat>
  {
    if rules.acceptsAppend(chat, m) then Some(chat.(messages := chat.messages + [m])) else None
  }

  /** NewModel keeps both of its arguments, whatever they are: the getters give them back. */
  lemma NewModelKeepsArguments(name: string, maxTokens: int)
    ensures NewModel(name, maxTokens).GetModelName() == name
    ensures NewModel(name, maxTokens).GetMaxTokens() == maxTokens
  {
  }

  /** A Model is determined by what its getters return. */
  lemma NewModelFromGetters(m: Model)
    ensures NewModel(m.GetModelName(), m.GetMaxTokens()) == m
  {
  }

  /** Two models built from different arguments differ. */
  lemma NewModelInjective(name1: string, maxTokens1: int, name2: string, maxTokens2: int)
    ensures NewModel(name1, maxTokens1) == NewModel(name2, maxTokens2) <==> name1 == name2 && maxTokens1 == maxTokens2
  {
  }
}
