/**
 * What one call of the chat-completion use case promises, proved about the
 * specification `Run` (and therefore about `Execute`, which is equal to it).
 */
module ChatCompletionProperties {
  import opened Wrappers
  import opened Entities
  import opened ChatCompletionStream

  /** Joining two runs of deltas is joining their concatenations. */
  lemma {:induction false} ConcatAppend(a: seq<string>, b: seq<string>)
    ensures Concat(a + b) == Concat(a) + Concat(b)
    decreases |b|
  {
    if b == [] {
      assert a + b == a;
    } else {
      var front := b[..|b| - 1];
      assert (a + b)[..|a + b| - 1] == a + front;
      ConcatAppend(a, front);
    }
  }

  /** The text after fewer deltas is a prefix of the text after more. */
  lemma ConcatPrefix(deltas: seq<string>, j: nat, k: nat)
    requires j <= k <= |deltas|
    ensures Concat(deltas[..j]) <= Concat(deltas[..k])
  {
    assert deltas[..k] == deltas[..j] + deltas[j..k];
    ConcatAppend(deltas[..j], deltas[j..k]);
  }

  /**
   * One record per delta, each carrying the chat's identity and owner; every
   * record's content is a prefix of every later one's, so lengths never shrink.
   */
  lemma PublicationsArePrefixChain(chat: Chat, deltas: seq<string>)
    ensures |Publications(chat, deltas)| == |deltas|
    ensures forall k :: 0 <= k < |deltas| ==>
      Publications(chat, deltas)[k].chatID == chat.id && Publications(chat, deltas)[k].userID == chat.userID
    ensures forall j, k :: 0 <= j <= k < |deltas| ==>
      Publications(chat, deltas)[j].content <= Publications(chat, deltas)[k].content
  {
    forall j, k | 0 <= j <= k < |deltas|
      ensures Publications(chat, deltas)[j].content <= Publications(chat, deltas)[k].content
    {
      ConcatPrefix(deltas, j + 1, k + 1);
    }
  }

  /** The last record carries all the deltas joined; with no deltas, the joined text is empty. */
  lemma LastPublicationIsFullReply(chat: Chat, deltas: seq<string>)
    ensures Concat(deltas) == if deltas == [] then "" else Publications(chat, deltas)[|deltas| - 1].content
  {
    assert deltas[..|deltas|] == deltas;
  }

  /** Increments "Hel" and "lo" publish "Hel" then "Hello", and the reply is "Hello". */
  lemma HelloIsPublishedCumulatively(chat: Chat)
    ensures Publications(chat, ["Hel", "lo"]) ==
      [Output(chat.id, chat.userID, "Hel"), Output(chat.id, chat.userID, "Hello")]
    ensures Concat(["Hel", "lo"]) == "Hello"
  {
    var deltas := ["Hel", "lo"];
    assert deltas[..1] == ["Hel"] && ["Hel"][..0] == [];
    assert deltas[..2] == deltas;
    assert Concat(["Hel"]) == "Hel";
    assert Concat(deltas) == "Hel" + "lo";
    var published := Publications(chat, deltas);
    assert published[0] == Output(chat.id, chat.userID, "Hel");
    assert published[1] == Output(chat.id, chat.userID, "Hello");
  }

  /** The history of a chat with one more message is its old history plus that message. */
  lemma HistoryAppend(messages: seq<Message>, m: Message)
    ensures History(messages + [m]) == History(messages) + [WireMessage(m.role, m.content)]
  {
    assert (messages + [m])[..|messages|] == messages;
  }

  /** The lookup phase always starts with FindChatById, makes at most one more call, and never saves. */
  lemma ResolutionCalls(gateway: ChatGateway, rules: EntityRules, input: Input)
    ensures var calls := ResolveChat(gateway, rules, input).calls;
      && 1 <= |calls| <= 2
      && calls[0] == FindChatById(input.chatID)
      && forall call <- calls :: !call.SaveChat?
  {
  }

  /** A chat the lookup finds is the chat the call goes on with, as it is: CreateChat is never called. */
  lemma FoundChatIsNeverCreated(gateway: ChatGateway, client: CompletionClient, rules: EntityRules, input: Input)
    requires EveryResponseHasChoice(client.responses)
    requires gateway.lookup.Found?
    ensures var o := Run(gateway, client, rules, input);
      && ResolveChat(gateway, rules, input) == Resolution(Ok(gateway.lookup.chat), [FindChatById(input.chatID)])
      && o == Converse(gateway, client, rules, input, gateway.lookup.chat, [FindChatById(input.chatID)])
      && |o.calls| > 0
      && o.calls[0] == FindChatById(input.chatID)
      && forall call <- o.calls :: !call.CreateChat?
  {
  }

  /**
   * On exactly "chat not found", a new chat holding only the system message is
   * built and CreateChat is called once with it, right after the lookup; a
   * failure of either step ends the call with nothing requested or published.
   * After a successful create, the call goes on with that same chat.
   */
  lemma MissingChatIsCreatedOnce(gateway: ChatGateway, client: CompletionClient, rules: EntityRules, input: Input)
    requires EveryResponseHasChoice(client.responses)
    requires gateway.lookup == LookupFailed(ChatNotFound)
    ensures var o := Run(gateway, client, rules, input);
      match CreateNewChat(input, rules)
      case Err(cause) => o == Outcome(Err(CreatingNewChat(cause)), [FindChatById(input.chatID)], [], [])
      case Ok(chat) =>
        && chat.messages == [Message("system", input.config.initialSystemMessage, chat.config.model)]
        && |o.calls| >= 2
        && o.calls[..2] == [FindChatById(input.chatID), CreateChat(chat)]
        && (forall i :: 2 <= i < |o.calls| ==> !o.calls[i].CreateChat?)
        && (!gateway.createSucceeds ==> o == Outcome(Err(PersistingNewChat), o.calls[..2], [], []))
        && (gateway.createSucceeds ==>
              && ResolveChat(gateway, rules, input) == Resolution(Ok(chat), [FindChatById(input.chatID), CreateChat(chat)])
              && o == Converse(gateway, client, rules, input, chat, [FindChatById(input.chatID), CreateChat(chat)]))
  {
    var o := Run(gateway, client, rules, input);
    var find := [FindChatById(input.chatID)];
    match CreateNewChat(input, rules)
    case Err(cause) =>
      assert ResolveChat(gateway, rules, input) == Resolution(Err(CreatingNewChat(cause)), find);
    case Ok(chat) =>
      var resolution := ResolveChat(gateway, rules, input);
      assert resolution.calls == find + [CreateChat(chat)];
      if gateway.createSucceeds {
        assert o == Converse(gateway, client, rules, input, chat, resolution.calls);
        ResolutionCalls(gateway, rules, input);
      }
  }

  /** Any other lookup error ends the call at once: no create, no request, no publish, no save. */
  lemma OtherLookupErrorFailsFast(gateway: ChatGateway, client: CompletionClient, rules: EntityRules, input: Input)
    requires EveryResponseHasChoice(client.responses)
    requires gateway.lookup.LookupFailed? && gateway.lookup.message != ChatNotFound
    ensures Run(gateway, client, rules, input) == Outcome(Err(FetchingExistingChat), [FindChatById(input.chatID)], [], [])
  {
  }

  /**
   * A request is issued exactly when the chat resolves and the user's message
   * is accepted. The one request carries the resolved chat's whole history in
   * order followed by the user's message, the chat config's model name,
   * MaxTokens, Stop and sampling values, and streaming mode.
   */
  lemma RequestCarriesHistory(gateway: ChatGateway, client: CompletionClient, rules: EntityRules, input: Input)
    requires EveryResponseHasChoice(client.responses)
    ensures var o := Run(gateway, client, rules, input);
      var resolved := ResolveChat(gateway, rules, input).chat;
      o.requests != [] <==> resolved.Ok? && WithUserMessage(rules, resolved.value, input).Ok?
    ensures var o := Run(gateway, client, rules, input);
      var resolved := ResolveChat(gateway, rules, input).chat;
      o.requests != [] ==>
        && resolved.Ok?
        && |o.requests| == 1
        && o.requests[0].messages == History(resolved.value.messages) + [WireMessage("user", input.userMessage)]
        && o.requests[0].model == resolved.value.config.model.name
        && o.requests[0].maxTokens == resolved.value.config.maxTokens
        && o.requests[0].stop == resolved.value.config.stop
        && o.requests[0].temperature == resolved.value.config.temperature
        && o.requests[0].topP == resolved.value.config.topP
        && o.requests[0].presencePenalty == resolved.value.config.presencePenalty
        && o.requests[0].frequencyPenalty == resolved.value.config.frequencyPenalty
        && o.requests[0].stream
  {
    var o := Run(gateway, client, rules, input);
    var resolution := ResolveChat(gateway, rules, input);
    if resolution.chat.Err? {
      assert o.requests == [];
      return;
    }
    var chat := resolution.chat.value;
    assert o == Converse(gateway, client, rules, input, chat, resolution.calls);
    var asked := WithUserMessage(rules, chat, input);
    if asked.Err? {
      assert o.requests == [];
      return;
    }
    var userMessage := Message("user", input.userMessage, chat.config.model);
    assert asked.value == chat.(messages := chat.messages + [userMessage]);
    assert o.requests == [BuildRequest(asked.value)];
    HistoryAppend(chat.messages, userMessage);
  }

  /**
   * Once the chat resolves, the user's message is accepted and the stream
   * opens, every increment read yields exactly one record,
   * in arrival order: the k-th carries the resolved chat's id and owner and the
   * first k + 1 deltas joined, and each content is a prefix of every later one.
   * Before the stream opens nothing is published.
   */
  lemma PublishedRecordsAreCumulative(gateway: ChatGateway, client: CompletionClient, rules: EntityRules, input: Input)
    requires EveryResponseHasChoice(client.responses)
    ensures var o := Run(gateway, client, rules, input);
      var resolved := ResolveChat(gateway, rules, input).chat;
      var deltas := Deltas(client.responses);
      if resolved.Err? || WithUserMessage(rules, resolved.value, input).Err? || !client.opens then o.published == []
      else
        && |o.published| == |client.responses|
        && (forall k :: 0 <= k < |o.published| ==>
              o.published[k] == Output(resolved.value.id, resolved.value.userID, Concat(deltas[..k + 1])))
        && (forall j, k :: 0 <= j <= k < |o.published| ==> o.published[j].content <= o.published[k].content)
  {
    var o := Run(gateway, client, rules, input);
    var resolution := ResolveChat(gateway, rules, input);
    if resolution.chat.Err? {
      assert o.requests == [];
      return;
    }
    var chat := resolution.chat.value;
    assert o == Converse(gateway, client, rules, input, chat, resolution.calls);
    var asked := WithUserMessage(rules, chat, input);
    if asked.Err? {
      assert o.requests == [];
      return;
    }
    if !client.opens {
      assert o.published == [];
      return;
    }
    var deltas := Deltas(client.responses);
    assert o.published == Publications(asked.value, deltas);
    assert asked.value.id == chat.id && asked.value.userID == chat.userID;
    PublicationsArePrefixChain(asked.value, deltas);
  }

  /**
   * A call whose chat resolves, whose user message is accepted, whose stream
   * opens and ends with end-of-file, and whose assistant message is accepted,
   * issues one request, publishes one record per increment, and calls SaveChat
   * exactly once, as its last gateway call, with the chat holding both new
   * messages, whether or not the save succeeds. The call succeeds exactly when
   * the save does, and otherwise fails with the save error.
   */
  lemma CompletedStreamIsSaved(gateway: ChatGateway, client: CompletionClient, rules: EntityRules, input: Input)
    requires EveryResponseHasChoice(client.responses)
    requires ResolveChat(gateway, rules, input).chat.Ok?
    requires WithUserMessage(rules, ResolveChat(gateway, rules, input).chat.value, input).Ok?
    requires client.opens && client.ending == EndOfStream
    requires WithAssistantMessage(rules, WithUserMessage(rules, ResolveChat(gateway, rules, input).chat.value, input).value,
      Concat(Deltas(client.responses))).Ok?
    ensures var o := Run(gateway, client, rules, input);
      var chat := ResolveChat(gateway, rules, input).chat.value;
      var reply := Concat(Deltas(client.responses));
      && |o.requests| == 1
      && |o.published| == |client.responses|
      && |o.calls| >= 2
      && (forall i :: 0 <= i < |o.calls| - 1 ==> !o.calls[i].SaveChat?)
      && o.calls[|o.calls| - 1] == SaveChat(chat.(messages := chat.messages + [
           Message("user", input.userMessage, chat.config.model),
           Message("assistant", reply, chat.config.model)]))
      && (o.result.Ok? <==> gateway.saveSucceeds)
      && (o.result.Ok? ==> o.result.value == Output(chat.id, input.userID, reply))
      && (!gateway.saveSucceeds ==> o.result == Err(SavingChat))
  {
    var o := Run(gateway, client, rules, input);
    var resolution := ResolveChat(gateway, rules, input);
    var chat := resolution.chat.value;
    ResolutionCalls(gateway, rules, input);
    assert o == Converse(gateway, client, rules, input, chat, resolution.calls);
    var asked := WithUserMessage(rules, chat, input).value;
    assert asked == chat.(messages := chat.messages + [Message("user", input.userMessage, chat.config.model)]);
    var deltas := Deltas(client.responses);
    var answered := WithAssistantMessage(rules, asked, Concat(deltas)).value;
    assert answered == asked.(messages := asked.messages + [Message("assistant", Concat(deltas), chat.config.model)]);
    assert o.calls == resolution.calls + [SaveChat(answered)];
  }

  /**
   * SaveChat is called exactly when every earlier step succeeded: the chat
   * resolved, the user's message was accepted, the stream opened and reached
   * end-of-file, and the assistant's message was accepted.
   */
  lemma SaveOnlyAfterFullReply(gateway: ChatGateway, client: CompletionClient, rules: EntityRules, input: Input)
    requires EveryResponseHasChoice(client.responses)
    ensures var o := Run(gateway, client, rules, input);
      var resolved := ResolveChat(gateway, rules, input).chat;
      (exists call <- o.calls :: call.SaveChat?) <==>
        && resolved.Ok?
        && WithUserMessage(rules, resolved.value, input).Ok?
        && client.opens
        && client.ending == EndOfStream
        && WithAssistantMessage(rules, WithUserMessage(rules, resolved.value, input).value, Concat(Deltas(client.responses))).Ok?
  {
    var o := Run(gateway, client, rules, input);
    var resolution := ResolveChat(gateway, rules, input);
    ResolutionCalls(gateway, rules, input);
    if resolution.chat.Err? {
      assert o.calls == resolution.calls;
      return;
    }
    var chat := resolution.chat.value;
    assert o == Converse(gateway, client, rules, input, chat, resolution.calls);
    var asked := WithUserMessage(rules, chat, input);
    if asked.Err? || !client.opens || client.ending == ReadFailure {
      assert o.calls == resolution.calls;
      return;
    }
    var answered := WithAssistantMessage(rules, asked.value, Concat(Deltas(client.responses)));
    if answered.Err? {
      assert o.calls == resolution.calls;
    } else {
      assert o.calls == resolution.calls + [SaveChat(answered.value)];
      assert o.calls[|o.calls| - 1].SaveChat?;
    }
  }

  /**
   * Each failure after the chat resolves ends the call at once with the tag of
   * the step that failed: a rejected user message before any request, a stream
   * that does not open after the request alone, and a rejected assistant
   * message after every increment has been published, without a save.
   */
  lemma FailedStepsEndTheCall(gateway: ChatGateway, client: CompletionClient, rules: EntityRules, input: Input)
    requires EveryResponseHasChoice(client.responses)
    requires ResolveChat(gateway, rules, input).chat.Ok?
    ensures var o := Run(gateway, client, rules, input);
      var resolution := ResolveChat(gateway, rules, input);
      var asked := WithUserMessage(rules, resolution.chat.value, input);
      var deltas := Deltas(client.responses);
      && (asked.Err? ==> o == Outcome(Err(asked.error), resolution.calls, [], []))
      && (asked.Ok? && !client.opens ==>
            o == Outcome(Err(CreatingCompletion), resolution.calls, [BuildRequest(asked.value)], []))
      && (asked.Ok? && client.opens && client.ending == EndOfStream &&
          WithAssistantMessage(rules, asked.value, Concat(deltas)).Err? ==>
            o == Outcome(Err(WithAssistantMessage(rules, asked.value, Concat(deltas)).error), resolution.calls,
                         [BuildRequest(asked.value)], Publications(asked.value, deltas)))
  {
    var resolution := ResolveChat(gateway, rules, input);
    assert Run(gateway, client, rules, input) == Converse(gateway, client, rules, input, resolution.chat.value, resolution.calls);
  }

  /**
   * A read error other than end-of-file fails the call: the assistant message
   * is not added and SaveChat is not called, while every record published
   * before the error stays published.
   */
  lemma StreamFailureSkipsSave(gateway: ChatGateway, client: CompletionClient, rules: EntityRules, input: Input)
    requires EveryResponseHasChoice(client.responses)
    requires client.ending == ReadFailure
    ensures var o := Run(gateway, client, rules, input);
      && o.result.Err?
      && (forall call <- o.calls :: !call.SaveChat?)
      && (o.requests != [] && client.opens ==>
            o.result == Err(StreamingResponse) && |o.published| == |client.responses|)
  {
  }

  /**
   * A successful call read the stream to end-of-file, appended the user's and
   * then the assistant's message, called SaveChat once and last with that chat,
   * and returns the joined deltas (the last published content, or "" when none
   * arrived) under the chat's id and the caller's user id.
   */
  lemma SuccessfulRunSavesReply(gateway: ChatGateway, client: CompletionClient, rules: EntityRules, input: Input)
    requires EveryResponseHasChoice(client.responses)
    requires Run(gateway, client, rules, input).result.Ok?
    ensures var o := Run(gateway, client, rules, input);
      var resolved := ResolveChat(gateway, rules, input).chat;
      var reply := Concat(Deltas(client.responses));
      && client.opens
      && client.ending == EndOfStream
      && resolved.Ok?
      && |o.calls| >= 2
      && (forall i :: 0 <= i < |o.calls| - 1 ==> !o.calls[i].SaveChat?)
      && o.calls[|o.calls| - 1] == SaveChat(resolved.value.(messages := resolved.value.messages + [
           Message("user", input.userMessage, resolved.value.config.model),
           Message("assistant", reply, resolved.value.config.model)]))
      && o.result.value == Output(resolved.value.id, input.userID, reply)
      && reply == if o.published == [] then "" else o.published[|o.published| - 1].content
  {
    var o := Run(gateway, client, rules, input);
    var resolution := ResolveChat(gateway, rules, input);
    assert resolution.chat.Ok?;
    var chat := resolution.chat.value;
    ResolutionCalls(gateway, rules, input);
    assert o == Converse(gateway, client, rules, input, chat, resolution.calls);
    var asked := WithUserMessage(rules, chat, input);
    assert asked.Ok?;
    assert asked.value == chat.(messages := chat.messages + [Message("user", input.userMessage, chat.config.model)]);
    var deltas := Deltas(client.responses);
    var published := Publications(asked.value, deltas);
    assert client.opens && client.ending == EndOfStream;
    var answered := WithAssistantMessage(rules, asked.value, Concat(deltas));
    assert answered.Ok?;
    assert answered.value == asked.value.(messages := asked.value.messages + [Message("assistant", Concat(deltas), chat.config.model)]);
    assert o == Outcome(Ok(Output(answered.value.id, input.userID, Concat(deltas))),
      resolution.calls + [SaveChat(answered.value)], [BuildRequest(asked.value)], published);
    LastPublicationIsFullReply(asked.value, deltas);
  }
}
