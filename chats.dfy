/**
 * The chat registry: a persisted, ordered collection of chats keyed by id, the id of
 * the selected chat, and a flag that turns true once persisted state has been
 * rehydrated. Every action is total: an unknown chat id leaves the state unchanged.
 */
module Chats {
  import opened Common
  import opened JsObject

  /** The title a chat carries until a generated title replaces it. */
  const NewChatTitle := "New Chat"

  /**
   * One conversation. Besides the declared fields, the page reads optional per-chat
   * generation settings; no action of the registry ever sets them.
   */
  datatype Chat = Chat(
    id: string,
    system: Option<string>,
    title: Option<string>,
    messages: seq<Message>,
    dateTime: int,
    model: Option<string>,
    temperature: Option<real>,
    topP: Option<real>,
    maxTokens: Option<int>)

  /** The chat `newChat` builds for `id` at time `now`. */
  function NewChatValue(id: string, now: int): (c: Chat)
    ensures c.id == id && c.title == Some(NewChatTitle) && c.messages == [] && c.dateTime == now
    ensures c.system.None? && c.model.None? && c.temperature.None? && c.topP.None? && c.maxTokens.None?
  {
    Chat(id, None, Some(NewChatTitle), [], now, None, None, None, None)
  }

  /** The chat properties `updateProp` accepts: only the title. */
  datatype ChatProp = Title

  class ChatsStore {
    /** The keys of `chatList` in enumeration order. */
    var keys: seq<string>
    var chatList: map<string, Chat>
    var selectedChatId: string
    var isStoreHydrated: bool

    /** Each chat is stored under its own id, and the selection is empty or names a stored chat. */
    ghost predicate Valid()
      reads this
    {
      && KeyOrder(keys, chatList)
      && (forall k :: k in chatList ==> chatList[k].id == k)
      && (selectedChatId == "" || selectedChatId in chatList)
    }

    constructor ()
      ensures Valid()
      ensures keys == [] && chatList == map[] && selectedChatId == "" && !isStoreHydrated
    {
      keys, chatList, selectedChatId, isStoreHydrated := [], map[], "", false;
    }

    /** `setStoreHydrated`: changes the hydration flag and nothing else. */
    method SetStoreHydrated(isHydrated: bool)
      requires Valid()
      modifies this
      ensures Valid()
      ensures isStoreHydrated == isHydrated
      ensures keys == old(keys) && chatList == old(chatList) && selectedChatId == old(selectedChatId)
    {
      isStoreHydrated := isHydrated;
    }

    /** The persistence layer's rehydration callback: marks the store hydrated. */
    method OnRehydrateStorage()
      requires Valid()
      modifies this
      ensures Valid()
      ensures isStoreHydrated
      ensures keys == old(keys) && chatList == old(chatList) && selectedChatId == old(selectedChatId)
    {
      SetStoreHydrated(true);
    }

    /**
     * `newChat(id)` at clock reading `now`: the id moves to the front of the order and
     * becomes the selection. A fresh id gets a new chat; an id already present keeps
     * its chat, because the spread of the old list overrides the new value.
     */
    method NewChat(id: string, now: int)
      requires Valid()
      modifies this
      ensures Valid()
      ensures keys == PutFirst(old(keys), id)
      ensures id !in old(chatList) ==> chatList == old(chatList)[id := NewChatValue(id, now)]
      ensures id in old(chatList) ==> chatList == old(chatList)
      ensures selectedChatId == id
      ensures isStoreHydrated == old(isStoreHydrated)
    {
      if id !in chatList {
        chatList := chatList[id := NewChatValue(id, now)];
      }
      keys := PutFirst(keys, id);
      selectedChatId := id;
    }

    /**
     * `addChatMessage(messages, chatId)`: the chat's message list becomes exactly
     * `messages` (a replacement, not an append); nothing else changes.
     */
    method AddChatMessage(messages: seq<Message>, chatId: string)
      requires Valid()
      modifies this
      ensures Valid()
      ensures chatId !in old(chatList) ==> chatList == old(chatList)
      ensures chatId in old(chatList) ==>
                chatList == old(chatList)[chatId := old(chatList)[chatId].(messages := messages)]
      ensures keys == old(keys) && selectedChatId == old(selectedChatId)
      ensures isStoreHydrated == old(isStoreHydrated)
    {
      if chatId in chatList {
        chatList := chatList[chatId := chatList[chatId].(messages := messages)];
      }
    }

    /** `updateProp('title', value, chatId)`: only that chat's title changes. */
    method UpdateProp(prop: ChatProp, value: string, chatId: string)
      requires Valid()
      modifies this
      ensures Valid()
      ensures chatId !in old(chatList) ==> chatList == old(chatList)
      ensures chatId in old(chatList) ==>
                chatList == old(chatList)[chatId := old(chatList)[chatId].(title := Some(value))]
      ensures keys == old(keys) && selectedChatId == old(selectedChatId)
      ensures isStoreHydrated == old(isStoreHydrated)
    {
      if chatId in chatList {
        chatList := chatList[chatId := chatList[chatId].(title := Some(value))];
      }
    }

    /**
     * `deleteChat(chatId)`: removes exactly that chat, keeps the order of the others,
     * and selects the first remaining key (or nothing), whether or not the deleted
     * chat was selected. An unknown id changes nothing, the selection included.
     */
    method DeleteChat(chatId: string)
      requires Valid()
      modifies this
      ensures Valid()
      ensures chatId !in old(chatList) ==>
                keys == old(keys) && chatList == old(chatList) && selectedChatId == old(selectedChatId)
      ensures chatId in old(chatList) ==>
                && chatList == old(chatList) - {chatId}
                && keys == Without(old(keys), chatId)
                && selectedChatId == (if keys == [] then "" else keys[0])
      ensures forall i :: 0 <= i < |old(keys)| && old(keys)[i] == chatId ==>
                keys == old(keys)[..i] + old(keys)[i + 1..]
      ensures isStoreHydrated == old(isStoreHydrated)
    {
      if chatId in chatList {
        forall i | 0 <= i < |keys| && keys[i] == chatId {
          WithoutAt(keys, i);
        }
        chatList := chatList - {chatId};
        keys := Without(keys, chatId);
        selectedChatId := if keys == [] then "" else keys[0];
      }
    }
  }
}
