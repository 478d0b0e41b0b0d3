/**
 * The conversation page: the request settings it derives from the selected chat and
 * prompt, and the state machine it layers over the chat registry. The streaming
 * client is reduced to the events it reports (its message buffer changing, a
 * response arriving, the stream finishing or failing), and the title-generation call
 * to a record of the requests issued.
 */
module Conversation {
  import opened Common
  import opened Strings
  import opened Chats
  import opened Prompts
  import ConfigPanel

  /** The placeholder in a prompt body that the current date replaces. */
  const DatePlaceholder := "<CURRENT_DATE>"

  /** The error shown for the chat it was recorded against. */
  datatype ErrorState = ErrorState(hasError: bool, selectedChatId: string)

  /** The settings sent with every completion request (`chatConfig`). */
  datatype RequestSettings = RequestSettings(
    userPrompt: string,
    model: string,
    temperature: real,
    topP: real,
    maxTokens: int)

  /** What the send button asks of the streaming client. */
  datatype StreamCommand = Stop | Submit

  /**
   * A title request: the messages sent to the title endpoint and the chat selected
   * when it was issued. The `onSuccess` callback of the mutation is rebuilt on every
   * render, so the one the request runs with holds that render's selection.
   */
  datatype TitleRequest = TitleRequest(chatId: string, messages: seq<Message>)

  /** `chatList[id]`, with `None` for a missing chat. */
  function Lookup(chatList: map<string, Chat>, id: string): (r: Option<Chat>)
    ensures r.Some? <==> id in chatList
    ensures r.Some? ==> r.value == chatList[id]
  {
    if id in chatList then Some(chatList[id]) else None
  }

  /**
   * `userPrompt`: empty when no prompt is selected; otherwise the selected body with
   * its first date placeholder replaced by `currentDate`. Looking up a selected id
   * that is not stored throws, which is `None` here.
   */
  function UserPrompt(promptList: map<string, Prompt>, selectedPromptId: string, currentDate: string): (r: Option<string>)
    ensures selectedPromptId == "" ==> r == Some("")
    ensures r.None? <==> selectedPromptId != "" && selectedPromptId !in promptList
    ensures selectedPromptId != "" && selectedPromptId in promptList && !Includes(promptList[selectedPromptId].prompt, DatePlaceholder) ==>
              r == Some(promptList[selectedPromptId].prompt)
    ensures selectedPromptId != "" && selectedPromptId in promptList ==>
              var body := promptList[selectedPromptId].prompt;
              forall i :: FirstAt(body, DatePlaceholder, i) ==> r == Some(body[..i] + currentDate + body[i + |DatePlaceholder|..])
  {
    if selectedPromptId == "" then Some("")
    else if selectedPromptId !in promptList then None
    else Some(ReplaceFirst(promptList[selectedPromptId].prompt, DatePlaceholder, currentDate))
  }

  /** `chat?.model || DEFAULT_CHAT_CONFIG.model`. */
  function EffectiveModel(chat: Option<Chat>): (m: string)
    ensures chat.Some? && chat.value.model.Some? && chat.value.model.value != "" ==> m == chat.value.model.value
    ensures m == ConfigPanel.DefaultModel || (chat.Some? && chat.value.model == Some(m) && m != "")
  {
    if chat.Some? && chat.value.model.Some? && chat.value.model.value != "" then chat.value.model.value
    else ConfigPanel.DefaultModel
  }

  /** `chat?.temperature || DEFAULT_CHAT_CONFIG.temperature`. */
  function EffectiveTemperature(chat: Option<Chat>): (t: real)
    ensures chat.Some? && chat.value.temperature.Some? && chat.value.temperature.value != 0.0 ==> t == chat.value.temperature.value
    ensures t == ConfigPanel.DefaultTemperature || (chat.Some? && chat.value.temperature == Some(t) && t != 0.0)
  {
    if chat.Some? && chat.value.temperature.Some? && chat.value.temperature.value != 0.0 then chat.value.temperature.value
    else ConfigPanel.DefaultTemperature
  }

  /** `chat?.topP || DEFAULT_CHAT_CONFIG.topP`. */
  function EffectiveTopP(chat: Option<Chat>): (p: real)
    ensures chat.Some? && chat.value.topP.Some? && chat.value.topP.value != 0.0 ==> p == chat.value.topP.value
    ensures p == ConfigPanel.DefaultTopP || (chat.Some? && chat.value.topP == Some(p) && p != 0.0)
  {
    if chat.Some? && chat.value.topP.Some? && chat.value.topP.value != 0.0 then chat.value.topP.value
    else ConfigPanel.DefaultTopP
  }

  /** `chat?.maxTokens || DEFAULT_CHAT_CONFIG.maxTokens`. */
  function EffectiveMaxTokens(chat: Option<Chat>): (n: int)
    ensures chat.Some? && chat.value.maxTokens.Some? && chat.value.maxTokens.value != 0 ==> n == chat.value.maxTokens.value
    ensures n == ConfigPanel.DefaultMaxTokens || (chat.Some? && chat.value.maxTokens == Some(n) && n != 0)
  {
    if chat.Some? && chat.value.maxTokens.Some? && chat.value.maxTokens.value != 0 then chat.value.maxTokens.value
    else ConfigPanel.DefaultMaxTokens
  }

  /**
   * `chatConfig`: the prompt text and the selected chat's own generation settings
   * where they are set and truthy, the defaults elsewhere. It is undefined (throws)
   * exactly when a selected prompt id is not stored.
   */
  function DeriveChatConfig(
    chatList: map<string, Chat>, selectedChatId: string,
    promptList: map<string, Prompt>, selectedPromptId: string,
    currentDate: string): (r: Option<RequestSettings>)
    ensures r.None? <==> selectedPromptId != "" && selectedPromptId !in promptList
    ensures r.Some? ==> Some(r.value.userPrompt) == UserPrompt(promptList, selectedPromptId, currentDate)
    ensures r.Some? && selectedChatId !in chatList ==>
              && r.value.model == ConfigPanel.DefaultModel
              && r.value.temperature == ConfigPanel.DefaultTemperature
              && r.value.topP == ConfigPanel.DefaultTopP
              && r.value.maxTokens == ConfigPanel.DefaultMaxTokens
    ensures r.Some? && selectedChatId in chatList ==>
              var chat := Some(chatList[selectedChatId]);
              && r.value.model == EffectiveModel(chat)
              && r.value.temperature == EffectiveTemperature(chat)
              && r.value.topP == EffectiveTopP(chat)
              && r.value.maxTokens == EffectiveMaxTokens(chat)
  {
    match UserPrompt(promptList, selectedPromptId, currentDate)
    case None => None
    case Some(userPrompt) =>
      var chat := Lookup(chatList, selectedChatId);
      Some(RequestSettings(userPrompt, EffectiveModel(chat), EffectiveTemperature(chat),
                           EffectiveTopP(chat), EffectiveMaxTokens(chat)))
  }

  /**
   * A chat the registry created carries no generation settings, so the request uses
   * every default.
   */
  lemma NewChatUsesDefaults(id: string, now: int)
    ensures var chat := Some(NewChatValue(id, now));
      && EffectiveModel(chat) == ConfigPanel.DefaultModel
      && EffectiveTemperature(chat) == ConfigPanel.DefaultTemperature
      && EffectiveTopP(chat) == ConfigPanel.DefaultTopP
      && EffectiveMaxTokens(chat) == ConfigPanel.DefaultMaxTokens
  {
  }

  /** With the prompt registry's invariant the settings are always defined. */
  lemma ChatConfigDefined(chatList: map<string, Chat>, selectedChatId: string, prompts: PromptStore, currentDate: string)
    requires prompts.Valid()
    ensures DeriveChatConfig(chatList, selectedChatId, prompts.promptList, prompts.selectedPromptId, currentDate).Some?
  {
  }

  /** `handleSendMessage`: stop a loading stream, otherwise submit; never both. */
  function SendCommand(isLoading: bool): (c: StreamCommand)
    ensures c == Stop <==> isLoading
    ensures c == Submit <==> !isLoading
  {
    if isLoading then Stop else Submit
  }

  /** The page's own state beside the chat and prompt registries it reads. */
  class ChatPage {
    const chats: ChatsStore
    const prompts: PromptStore
    /** The streaming client's message buffer: the messages on screen. */
    var messages: seq<Message>
    var finishedStream: bool
    var errorState: ErrorState
    /** The title requests issued so far, in order. */
    var titleRequests: seq<TitleRequest>

    ghost predicate Valid()
      reads this, chats, prompts
    {
      chats.Valid() && prompts.Valid()
    }

    constructor (chats: ChatsStore, prompts: PromptStore)
      requires chats.Valid() && prompts.Valid()
      ensures Valid() && this.chats == chats && this.prompts == prompts
      ensures messages == [] && !finishedStream && errorState == ErrorState(false, "") && titleRequests == []
    {
      this.chats := chats;
      this.prompts := prompts;
      messages := [];
      finishedStream := false;
      errorState := ErrorState(false, "");
      titleRequests := [];
    }

    /** The streaming client replaced its buffer (a submitted message, a streamed chunk, a retry). */
    method BufferChanged(buffer: seq<Message>)
      modifies this
      ensures messages == buffer
      ensures finishedStream == old(finishedStream) && errorState == old(errorState)
      ensures titleRequests == old(titleRequests)
    {
      messages := buffer;
    }

    /** `onResponse`: clears the error, recorded against the selected chat. */
    method OnResponse()
      modifies this
      ensures errorState == ErrorState(false, chats.selectedChatId)
      ensures messages == old(messages) && finishedStream == old(finishedStream)
      ensures titleRequests == old(titleRequests)
    {
      errorState := ErrorState(false, chats.selectedChatId);
    }

    /** `onError`: sets the error, recorded against the selected chat; the buffer is kept. */
    method OnError()
      modifies this
      ensures errorState == ErrorState(true, chats.selectedChatId)
      ensures messages == old(messages) && finishedStream == old(finishedStream)
      ensures titleRequests == old(titleRequests)
    {
      errorState := ErrorState(true, chats.selectedChatId);
    }

    /** `onFinish`: flags the stream as finished, for the commit effect. */
    method OnFinish()
      modifies this
      ensures finishedStream
      ensures messages == old(messages) && errorState == old(errorState)
      ensures titleRequests == old(titleRequests)
    {
      finishedStream := true;
    }

    /**
     * `loadChat(chatId)`. An unknown id changes nothing. For another stored chat, it
     * becomes the selection and the error state is cleared, recorded against the
     * previous selection. In every stored case the chat's messages are loaded into
     * the buffer.
     */
    method LoadChat(chatId: string)
      requires Valid()
      modifies this, chats
      ensures Valid()
      ensures chats.keys == old(chats.keys) && chats.chatList == old(chats.chatList)
      ensures chats.isStoreHydrated == old(chats.isStoreHydrated)
      ensures finishedStream == old(finishedStream) && titleRequests == old(titleRequests)
      ensures chatId !in old(chats.chatList) ==>
                && chats.selectedChatId == old(chats.selectedChatId)
                && messages == old(messages) && errorState == old(errorState)
      ensures chatId in old(chats.chatList) ==> messages == old(chats.chatList)[chatId].messages
      ensures chatId in old(chats.chatList) && chatId != old(chats.selectedChatId) ==>
                && chats.selectedChatId == chatId
                && errorState == ErrorState(false, old(chats.selectedChatId))
      ensures chatId in old(chats.chatList) && chatId == old(chats.selectedChatId) ==>
                chats.selectedChatId == old(chats.selectedChatId) && errorState == old(errorState)
    {
      if chatId in chats.chatList {
        if chatId != chats.selectedChatId {
          var previous := chats.selectedChatId;
          chats.selectedChatId := chatId;
          errorState := ErrorState(false, previous);
        }
        messages := chats.chatList[chatId].messages;
      }
    }

    /**
     * One run of the hydration effect, with `id` and `now` the id and clock reading a
     * new chat would get. Before hydration nothing happens. After it, an empty
     * selection creates and selects a new chat; then the chat selected when the effect
     * was scheduled is reloaded into the buffer if it is stored.
     */
    method HydrationEffect(id: string, now: int)
      requires Valid()
      modifies this, chats
      ensures Valid()
      ensures errorState == old(errorState) && finishedStream == old(finishedStream)
      ensures titleRequests == old(titleRequests)
      ensures chats.isStoreHydrated == old(chats.isStoreHydrated)
      ensures !old(chats.isStoreHydrated) ==>
                && chats.keys == old(chats.keys) && chats.chatList == old(chats.chatList)
                && chats.selectedChatId == old(chats.selectedChatId) && messages == old(messages)
      ensures old(chats.isStoreHydrated) && old(chats.selectedChatId) == "" ==>
                && chats.selectedChatId == id
                && chats.keys == JsObject.PutFirst(old(chats.keys), id)
                && chats.chatList == (if id in old(chats.chatList) then old(chats.chatList)
                                      else old(chats.chatList)[id := NewChatValue(id, now)])
                && messages == (if "" in old(chats.chatList) then old(chats.chatList)[""].messages else old(messages))
      ensures old(chats.isStoreHydrated) && old(chats.selectedChatId) != "" ==>
                && chats.keys == old(chats.keys) && chats.chatList == old(chats.chatList)
                && chats.selectedChatId == old(chats.selectedChatId)
                && messages == old(chats.chatList)[old(chats.selectedChatId)].messages
    {
      if !chats.isStoreHydrated {
        return;
      }
      // The effect's `loadChat` closure sees the state of the render that scheduled it.
      var selected := chats.selectedChatId;
      var snapshot := chats.chatList;
      if selected == "" {
        chats.NewChat(id, now);
      }
      if selected in snapshot {
        messages := snapshot[selected].messages;
      }
    }

    /**
     * One run of the commit effect. When a stream has finished, the buffer becomes the
     * selected chat's message list and the flag is cleared; a title request with the
     * buffer is issued exactly when the buffer holds at least two messages and the
     * chat's title is still the default. Reading the title of a selected chat that is
     * not stored throws: `fault` reports it, after the commit.
     */
    method CommitEffect() returns (fault: bool)
      requires Valid()
      modifies this, chats
      ensures Valid()
      ensures chats.keys == old(chats.keys) && chats.selectedChatId == old(chats.selectedChatId)
      ensures chats.isStoreHydrated == old(chats.isStoreHydrated)
      ensures messages == old(messages) && errorState == old(errorState)
      ensures !old(finishedStream) ==>
                && !fault && finishedStream == old(finishedStream)
                && chats.chatList == old(chats.chatList) && titleRequests == old(titleRequests)
      ensures old(finishedStream) ==>
                var selected := old(chats.selectedChatId);
                var before := old(chats.chatList);
                && !finishedStream
                && chats.chatList == (if selected in before then before[selected := before[selected].(messages := old(messages))] else before)
                && fault == (|old(messages)| >= 2 && selected !in before)
                && titleRequests == old(titleRequests) +
                     (if |old(messages)| >= 2 && selected in before && before[selected].title == Some(NewChatTitle)
                      then [TitleRequest(selected, old(messages))] else [])
    {
      fault := false;
      if !finishedStream {
        return;
      }
      var selected := chats.selectedChatId;
      var before := chats.chatList;
      chats.AddChatMessage(messages, selected);
      finishedStream := false;
      if |messages| >= 2 {
        if selected !in before {
          fault := true;
        } else if before[selected].title == Some(NewChatTitle) {
          titleRequests := titleRequests + [TitleRequest(selected, messages)];
        }
      }
    }

    /**
     * The `onSuccess` of an issued title request: the chat the request was issued for
     * takes the generated title if it is still stored; otherwise nothing changes.
     */
    method OnTitleSuccess(request: TitleRequest, title: string)
      requires Valid()
      requires request in titleRequests
      modifies chats
      ensures Valid()
      ensures chats.keys == old(chats.keys) && chats.selectedChatId == old(chats.selectedChatId)
      ensures chats.isStoreHydrated == old(chats.isStoreHydrated)
      ensures var id := request.chatId;
        chats.chatList == if id in old(chats.chatList)
                          then old(chats.chatList)[id := old(chats.chatList)[id].(title := Some(title))]
                          else old(chats.chatList)
    {
      chats.UpdateProp(Title, title, request.chatId);
    }
  }
}
