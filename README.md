# BullsAI chat client: conversation state

A Dafny model of the client-side conversation state of the BullsAI ChatGPT web client
(a Next.js app built on zustand stores and the `@ai-sdk/react` streaming hook). It covers:

- the **chat registry** (`useChatsStore`): an ordered, keyed collection of chats, the
  selected chat id and the hydration flag, as the class `Chats.ChatsStore`;
- the **prompt and configuration registry** (`useConfigStore`): prompts with a reserved,
  undeletable `defaultPrompt`, the selected prompt and the generation settings, as
  `Config.ConfigStore`;
- the older **prompt registry** (`usePromptStore`), which the conversation page still
  reads, as `Prompts.PromptStore`;
- the **conversation page** (`src/app/beta/page.tsx`): the request settings derived from
  the selected chat and prompt (`Conversation.DeriveChatConfig`) and the page's state
  machine over the chat registry (`Conversation.ChatPage`: loading a chat, the
  stream's response, finish and error events, the hydration effect, the commit effect
  with its title rule, and the title update);
- the **configuration panel** (`src/components/chatConfig.tsx`): the prompt form with its
  validation and add-or-edit dispatch, the tag text round trip, reset to defaults, the
  model catalogue lookup and the `o1-` test (module `ConfigPanel`);
- the **sidebar search** (`src/components/aside.tsx`): the case-insensitive title filter
  (module `Aside`).

JavaScript objects used as records keep their keys in insertion order, and the code
relies on it (a new chat goes first; deleting a chat selects `Object.keys(...)[0]`).
Module `JsObject` models an object as a sequence of distinct keys beside a map:
`{ [k]: v, ...obj }` puts `k` first, and the spread keeps `obj[k]` when `k` was already
there; `delete` removes the key and keeps the order of the rest. Keys are assumed never
to look like array indices, which JavaScript would list first. Module `Strings` models
`indexOf`/`includes`, `replace` with a string pattern (first occurrence only), `split`
and `join`, and lower-casing restricted to ASCII letters.

Clock readings, `crypto.randomUUID()` and the current date string are parameters:
`NewChat` and `HydrationEffect` take the id and `Date.now()` value, the `AddPrompt`
methods and `HandleSavePrompt` take the new id, with the precondition that it is not a
stored id. The date string passed to `DeriveChatConfig` stands for `getCurrentDate()`.

The model follows the code where it behaves differently from what its own comments
and names suggest:

- `deleteChat` always moves the selection to the first remaining key (or `''`), even when
  the deleted chat was not the selected one.
- `deletePrompt('defaultPrompt')` returns the prompt map itself as the state update, so
  zustand merges every prompt into the store's top-level state under its id. The model
  keeps those entries in `ConfigStore.strayFields`; the prompt map and the selection
  are unchanged, as intended. Prompt ids are assumed never to equal a field name of the
  store.
- The title response is stored as it arrives; no quote stripping exists in the page.
- The title request's `onSuccess` belongs to the render that issued the request, so the
  generated title goes to the chat that was selected then, not to the one selected when
  the response arrives (`ChatPage.titleRequests` records that chat's id).
- The commit effect reads `chatList[selectedChatId].title` once the buffer holds two
  messages; for a selection that is not stored this throws. `CommitEffect` reports that
  as `fault`, after the commit has been applied. In the same way `DeriveChatConfig` is
  `None` when a selected prompt id is not stored, where the lookup of its body throws
  (with the `getCurrentDate` import resolved as described under "## Left out").

A few places where the model does not follow the code are listed under "## Left out":
the missing `setSelectedChatId`, the missing initial `selectedChatId`, the
argument-less `newChat()` call, and the `getCurrentDate` import from a module that does
not export it.

## Model

| member | source | states |
|---|---|---|
| `Chats.ChatsStore.constructor` | src/hooks/useChatStore.ts:27-29 | no chats, empty selection, not hydrated |
| `Chats.NewChatValue` | src/hooks/useChatStore.ts:33-38 | a new chat has the given id and time, title `New Chat`, no messages, no system prompt and no settings |
| `Chats.ChatsStore.SetStoreHydrated` | src/hooks/useChatStore.ts:30 | only the hydration flag changes, to the given value; the invariant "selection is `''` or a stored key" holds |
| `Chats.ChatsStore.OnRehydrateStorage` | src/hooks/useChatStore.ts:74-77 | rehydration sets the flag to true and changes nothing else |
| `Chats.ChatsStore.NewChat` | src/hooks/useChatStore.ts:31-41 | a fresh id gets a chat with that id, title `New Chat`, no messages and the given time; an existing id keeps its chat; either way the id goes first in key order, is selected, and every other chat is unchanged |
| `Chats.ChatsStore.AddChatMessage` | src/hooks/useChatStore.ts:42-49 | unknown id: no change; known id: its message list becomes exactly the given list (replacement), its other fields, all other chats, order and selection unchanged |
| `Chats.ChatsStore.UpdateProp` | src/hooks/useChatStore.ts:50-58 | only the named chat's title changes; unknown id: no change |
| `Chats.ChatsStore.DeleteChat` | src/hooks/useChatStore.ts:59-70 | unknown id: no change, selection included; known id: exactly that chat is removed, the rest keep their order, and the selection is the first remaining key or `''`, whether or not the deleted chat was selected |
| `JsObject.PutFirst` | src/hooks/useChatStore.ts:40 | the key order of `{ [k]: v, ...obj }`: `k` first, then the other keys in their old order, each once; a fresh `k` goes in front of the unchanged order, an existing one moves from its place to the front |
| `JsObject.Without` | src/hooks/useChatStore.ts:63-64 | deleting a key leaves exactly the other keys, still without duplicates |
| `JsObject.WithoutAt` | src/hooks/useChatStore.ts:63-65 | deleting the key at index `i` leaves the keys before and after it in their order |
| `JsObject.WithoutAbsent` | src/hooks/useConfigStore.ts:83 | spreading an object that lacks the new key keeps its key order after the new key |
| `JsObject.WithoutOrder` | src/hooks/useChatStore.ts:63-64 | deleting an absent key keeps the order; deleting the key at index `i` leaves the keys before and after it |
| `JsObject.Values` | src/components/aside.tsx:32 | `Object.values`: one value per key, the value of the `i`-th key at index `i` |
| `Config.ConfigStore.constructor` | src/hooks/useConfigStore.ts:51-62 | only the default prompt is stored, the selection is `''`, no setting is given |
| `Config.ConfigStore.SetSelectedPromptId` | src/hooks/useConfigStore.ts:63-74 | `null` selects `defaultPrompt`, a stored id selects it, an unknown id changes nothing; prompts and settings unchanged |
| `Config.AddKeepsValid` | src/hooks/useConfigStore.ts:75-84 | adding a prompt under a fresh id at the front of the order keeps every prompt under its own id, the key order exact and the default prompt present |
| `Config.DeleteKeepsValid` | src/hooks/useConfigStore.ts:85-98 | removing any prompt but the default one, with the selection falling back to `defaultPrompt`, keeps the registry well formed |
| `Config.ConfigStore.AddPrompt` | src/hooks/useConfigStore.ts:75-84 | a fresh id adds exactly one prompt with the given title, body and tags, first in order; all other prompts and the selection kept |
| `Config.ConfigStore.DeletePrompt` | src/hooks/useConfigStore.ts:85-98 | `defaultPrompt`: prompts and selection unchanged (the map is merged into the top-level state); any other id: exactly that key removed, order kept, selection reset to `defaultPrompt` iff it equalled the id, even an unstored one |
| `Config.ConfigStore.EditPrompt` | src/hooks/useConfigStore.ts:99-106 | unknown id: no change; known id: title, body and tags replaced, id and place kept, other prompts and selection unchanged |
| `Config.ConfigStore.UpdateProp` | src/hooks/useConfigStore.ts:107-111 | sets exactly one setting; the prompts and the selection are unchanged; the default prompt stays present |
| `Prompts.PromptStore.constructor` | src/hooks/usePromptStore.ts:23-24 | no prompts and selection `''` |
| `Prompts.PromptStore.SetSelectedPromptId` | src/hooks/usePromptStore.ts:25-32 | a stored id is selected; an unknown id changes nothing |
| `Prompts.PromptStore.AddPrompt` | src/hooks/usePromptStore.ts:33-42 | one new prompt with the given fields under a fresh id, first in order; the key set only grows, the selection is kept and stays `''` or a stored key |
| `Strings.IndexOf` | src/components/aside.tsx:32 | the first-occurrence search underneath `includes` and `replace`: the result is an occurrence with none before it; none means no occurrence at all |
| `Strings.ReplaceFirst` | src/app/beta/page.tsx:34 | `replace` with a string pattern: only the first occurrence is replaced; no occurrence leaves the string unchanged |
| `Strings.Includes` | src/components/aside.tsx:32 | `includes` holds iff the pattern occurs at some index |
| `Strings.Join` | src/components/chatConfig.tsx:29 | `join`: empty for no items; otherwise starts with the first item, followed by the separator when there are more |
| `Strings.Split` | src/components/chatConfig.tsx:48 | `split` always yields at least one piece |
| `Strings.SplitPieces` | src/components/chatConfig.tsx:48 | no piece of a split contains the separator |
| `Strings.JoinSplit` | src/components/chatConfig.tsx:48 | joining the pieces of a split gives the original string |
| `Strings.SeparatorAfter` | src/components/chatConfig.tsx:29 | in `t + ", " + rest` with `t` free of the separator, the first separator is the one after `t` |
| `Strings.SplitJoin` | src/components/chatConfig.tsx:29 | splitting a join of a non-empty list whose items hold no separator gives the list back |
| `Strings.IncludesEmpty` | src/components/aside.tsx:32 | every string includes the empty filter |
| `Strings.Lower` | src/components/aside.tsx:32 | lower-casing keeps the length and maps every character |
| `ConfigPanel.Find` | src/components/chatConfig.tsx:245 | `find`: a result is the first entry whose value equals the model, no earlier entry matching; none exactly when no entry matches |
| `ConfigPanel.SelectedModel` | src/components/chatConfig.tsx:245 | the catalogue entry whose value equals the configured model, or none when no entry does |
| `ConfigPanel.MaxTokensBound` | src/components/chatConfig.tsx:395 | the response-length bound is the matching catalogue entry's `maxTokens`, else 4096 |
| `ConfigPanel.O1ModelSelected` | src/components/chatConfig.tsx:247 | `model?.includes('o1-')`: true iff a model is set and `o1-` occurs in it |
| `ConfigPanel.O1Catalogue` | src/components/chatConfig.tsx:185-188 | the `o1-` test holds for `o1-mini` and `o1-preview` and fails for both GPT-4o entries |
| `ConfigPanel.MiniIdPairFree` | src/components/chatConfig.tsx:186 | the GPT-4o mini id contains no `o` followed by `1` |
| `ConfigPanel.NoO1` | src/components/chatConfig.tsx:247 | a model id with no `o` followed by `1` is not an o1 model |
| `ConfigPanel.SelectedPrompt` | src/components/chatConfig.tsx:240-243 | the prompt iff the selected id is non-empty and stored, else none |
| `ConfigPanel.TagsFromText` | src/components/chatConfig.tsx:48 | saving always yields at least one tag |
| `ConfigPanel.TagsText` | src/components/chatConfig.tsx:29 | the form's tag text for a non-empty tag list with no tag containing `, ` splits back into that list on save |
| `ConfigPanel.TagsTextRoundTrip` | src/components/chatConfig.tsx:48 | any tag text survives split then join |
| `ConfigPanel.TagsNotBlank` | src/components/chatConfig.tsx:45-48 | the tags text is empty exactly when splitting it gives the single empty tag |
| `ConfigPanel.CanSave` | src/components/chatConfig.tsx:45 | saving goes ahead iff title and body are non-empty and the tags text does not split into the single empty tag |
| `ConfigPanel.Editing` | src/components/chatConfig.tsx:47 | a `promptId` is truthy iff it is neither null nor `''` |
| `ConfigPanel.PromptForm.constructor` | src/components/chatConfig.tsx:17-22 | an empty form for the given edit id |
| `ConfigPanel.PromptForm.Input` | src/components/chatConfig.tsx:61-89 | the inputs set title, tags and body, nothing else |
| `ConfigPanel.PromptForm.LoadPrompt` | src/components/chatConfig.tsx:24-31 | a stored prompt being edited fills the form, tags joined by `, `; otherwise nothing changes |
| `ConfigPanel.PromptForm.Reset` | src/components/chatConfig.tsx:33-41 | clears the three fields and the edit id |
| `ConfigPanel.PromptForm.HandleSavePrompt` | src/components/chatConfig.tsx:43-53 | an empty title, body or tags text changes nothing; otherwise `editPrompt` when an id is being edited, else `addPrompt`, with tags from `split(', ')`, then the form and edit id are cleared; the selection is never changed |
| `ConfigPanel.HandleResetDefault` | src/components/chatConfig.tsx:249-256 | model, channel, temperature, top-p and max tokens equal the defaults and `defaultPrompt` is selected; prompts kept |
| `Conversation.UserPrompt` | src/app/beta/page.tsx:34 | `''` when no prompt is selected; otherwise the body with only its first `<CURRENT_DATE>` replaced, unchanged without one; undefined exactly for an unstored selected id |
| `Conversation.Lookup` | src/app/beta/page.tsx:35-38 | `chatList[selectedChatId]?.`: a chat exactly when the id is stored, and then the stored chat |
| `Conversation.EffectiveModel` | src/app/beta/page.tsx:35 | the chat's model when present and non-empty, else the default model |
| `Conversation.EffectiveTemperature` | src/app/beta/page.tsx:36 | the chat's temperature when present and non-zero, else the default |
| `Conversation.EffectiveTopP` | src/app/beta/page.tsx:37 | the chat's top-p when present and non-zero, else the default |
| `Conversation.EffectiveMaxTokens` | src/app/beta/page.tsx:38 | the chat's max tokens when present and non-zero, else the default |
| `Conversation.DeriveChatConfig` | src/app/beta/page.tsx:32-41 | the request settings: a missing chat gets every default, a stored chat its truthy values; undefined exactly when a selected prompt id is not stored |
| `Conversation.NewChatUsesDefaults` | src/hooks/useChatStore.ts:33-38 | a chat made by `newChat` carries no settings, so its requests use every default |
| `Conversation.ChatConfigDefined` | src/app/beta/page.tsx:34 | under the prompt registry's invariant the prompt lookup never fails, so the request settings are defined (given the `getCurrentDate` import resolves) |
| `Conversation.SendCommand` | src/app/beta/page.tsx:105-109 | `stop` iff a stream is loading, `handleSubmit` otherwise, never both |
| `Conversation.ChatPage.constructor` | src/app/beta/page.tsx:20-24 | not finished, no error, recorded against `''` |
| `Conversation.ChatPage.BufferChanged` | src/app/beta/page.tsx:45 | the streaming client's buffer is replaced; the page's own state is kept |
| `Conversation.ChatPage.OnResponse` | src/app/beta/page.tsx:50-56 | the error is cleared and keyed to the selected chat |
| `Conversation.ChatPage.OnFinish` | src/app/beta/page.tsx:57-59 | the finished flag is set, nothing else changes |
| `Conversation.ChatPage.OnError` | src/app/beta/page.tsx:60-66 | the error is set and keyed to the selected chat; the buffer, with the user's message, is kept |
| `Conversation.ChatPage.LoadChat` | src/app/beta/page.tsx:85-99 | unknown id: no change; another stored id: selected, error cleared and keyed to the previous selection; any stored id: its stored messages fill the buffer |
| `Conversation.ChatPage.HydrationEffect` | src/app/beta/page.tsx:129-137 | before hydration nothing happens; after it an empty selection creates and selects a new chat, and a stored selection is reloaded into the buffer |
| `Conversation.ChatPage.CommitEffect` | src/app/beta/page.tsx:143-152 | after a finished stream the buffer becomes the selected chat's messages and the flag clears; a title request fires iff the buffer has at least 2 messages and the title is `New Chat`; without a finished stream nothing changes |
| `Conversation.ChatPage.OnTitleSuccess` | src/app/beta/page.tsx:72-74 | for an issued request, the chat selected when it was issued takes the generated title if it is still stored, whatever is selected now; otherwise, and for everything else, nothing changes |
| `Aside.FilterChats` | src/components/aside.tsx:32 | a chat is kept iff it has a title whose lower-cased form includes the lower-cased filter; the result is a subsequence of the input; each kept chat appears as often as in the input |
| `Aside.Matches` | src/components/aside.tsx:32 | a chat matches iff it has a title and the lower-cased filter occurs in its lower-cased title |
| `Aside.FilteredChatList` | src/components/aside.tsx:30-33 | every listed chat matches the filter, every stored matching chat is listed, and nothing else is |
| `Aside.EmptyFilter` | src/components/aside.tsx:32 | with an empty filter the list is exactly the chats that have a title |
| `Aside.SubsequenceElements` | src/components/aside.tsx:32 | a filtered list adds no new chats |
| `Aside.SubsequenceDistinct` | src/components/aside.tsx:32 | a subsequence of a duplicate-free list is duplicate-free |
| `Aside.FilteredChatListDistinct` | src/components/aside.tsx:30-33 | with chats stored under their ids, the filtered list is in store order and holds no chat twice |

## Left out

- Rendering, layout, popovers and DOM handling (`hidePopover`, the JSX of every file), and the other components and pages of the app.
- The streaming client's internals (`useChat`): it is reduced to `BufferChanged`, `OnResponse`, `OnFinish` and `OnError`; whether `stop` triggers `onFinish` is the client's business and is not modelled.
- The network calls: the completion and title endpoints, and the mutation hook's fetch. A title request is recorded in `ChatPage.titleRequests`; a failed title request changes nothing and is not a separate event.
- Persistence to local storage: the stores are plain state; only the hydration flag is modelled.
- `getCurrentDate`, `Date.now()` and `crypto.randomUUID()`: their values are parameters.
- `toLocaleLowerCase`: lower-casing is modelled for ASCII letters only.
- `parseFloat`/`parseInt` and floating point: temperature and top-p are exact reals, so NaN is not modelled; `null` and `undefined` settings are both `None`.
- `Config.ConfigStore.UpdateProp`: the TypeScript signature accepts any value type for any setting; the model accepts only values of the setting's declared type, which is what every caller passes.
- Integer-like object keys, which JavaScript enumerates before other keys: ids are assumed not to be such strings.
- `Chats.ChatsStore.constructor`: the store's initial state has no `selectedChatId`, so in the code it starts `undefined`; on a fresh store the hydration effect's `=== ''` test then fails, so the effect creates no chat. The model starts the selection at `''`, the value the page's logic expects.
- `Conversation.ChatPage.LoadChat`: the page calls `setSelectedChatId`, which the chat store does not define, so in the code switching to another stored chat throws a TypeError and the selection never changes. The model performs the plain selection update the page expects.
- `Conversation.ChatPage.HydrationEffect`: the page calls `newChat()` without an id, so in the code the new key is the string `undefined` and the selection becomes `undefined` rather than a string. The model passes a fresh id in as a parameter.
- `Strings.ReplaceFirst`: the `$&`, `$$`, `` $` `` and `$'` patterns that `replace` expands in a replacement string are not modelled; the replacement is inserted literally, which agrees with the code for date strings, which contain no `$`.
- `Conversation.ChatPage.OnResponse`, `Conversation.ChatPage.OnError`: the streaming client's callbacks are assumed to be the ones of the current render, so the error state is keyed to the selection when the event arrives; a client that kept the callbacks captured when the request started would key it to the selection at that time.
- `Conversation.UserPrompt`, `Conversation.DeriveChatConfig`, `Conversation.ChatConfigDefined`: `src/app/beta/page.tsx:15` imports `getCurrentDate` from `src/hooks/usePromptStore.ts`, which does not export it (it is defined in `src/hooks/useConfigStore.ts:32-39`). As written, the build's type check fails, or at run time every non-empty selected prompt id throws, stored or not. The model assumes the import resolves to the `useConfigStore` function and takes its result as the `currentDate` parameter.
