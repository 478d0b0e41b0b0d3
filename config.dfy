/**
 * The prompt and configuration registry the configuration panel edits: a persisted
 * map of prompts holding a reserved default prompt that cannot be deleted, the
 * selected prompt id, and the generation settings.
 */
module Config {
  import opened Common
  import opened JsObject

  /** The id of the reserved default prompt. */
  const DefaultPromptId := "defaultPrompt"

  /** The body of the default prompt; `<CURRENT_DATE>` is resolved when it is used. */
  const BasePrompt :=
    "You are ChatGPT, an AI language model designed to assist users by providing helpful and accurate information. Current date: <CURRENT_DATE>. \n"
    + "When interacting with users, adhere to the following principles:\n"
    + "Understand the Query: Accurately comprehend the user's question or request.\n"
    + "Provide Relevant Information: Offer information that is pertinent to the query, drawing on a wide range of knowledge.\n"
    + "Be Clear and Concise: Ensure that responses are easy to understand and to the point.\n"
    + "Maintain a Conversational Tone: Interact in a way that feels natural and engaging, similar to a human conversation.\n"
    + "Adapt to User Preferences: Tailor responses based on the user's stated preferences and context.\n"
    + "Acknowledge Knowledge Gaps: If you don't know the answer to a query, acknowledge this and do not generate false or inaccurate information.\n"
    + "Request Additional Information: If more information is needed to provide a quality answer, ask the user for the extra details you need."

  const DefaultPrompt := Prompt(DefaultPromptId, "Default BullsAI prompt", BasePrompt, ["default"])

  /** One call of `updateProp(prop, value)`: which setting, and its new value (`None` for null). */
  datatype Setting =
    | PromptSetting(prompt: Option<string>)
    | ModelSetting(model: Option<string>)
    | ChannelSetting(channel: Option<string>)
    | TemperatureSetting(temperature: Option<real>)
    | TopPSetting(topP: Option<real>)
    | MaxTokensSetting(maxTokens: Option<int>)

  /**
   * Each prompt is stored under its own id, the default prompt is always present,
   * and the selection is empty or a stored id.
   */
  ghost predicate PromptsValid(keys: seq<string>, promptList: map<string, Prompt>, selectedPromptId: string) {
    && KeyOrder(keys, promptList)
    && (forall k :: k in promptList ==> promptList[k].id == k)
    && DefaultPromptId in promptList
    && (selectedPromptId == "" || selectedPromptId in promptList)
  }

  /** Adding a prompt under a fresh id, at the front of the order, keeps the registry well formed. */
  lemma AddKeepsValid(keys: seq<string>, promptList: map<string, Prompt>, selectedPromptId: string, entry: Prompt)
    requires PromptsValid(keys, promptList, selectedPromptId)
    requires entry.id !in promptList
    ensures PromptsValid([entry.id] + keys, promptList[entry.id := entry], selectedPromptId)
  {
    assert entry.id !in keys;
    DistinctCons(entry.id, keys);
  }

  /** Removing a prompt other than the default one keeps the registry well formed once the selection falls back. */
  lemma DeleteKeepsValid(keys: seq<string>, promptList: map<string, Prompt>, selectedPromptId: string, id: string)
    requires PromptsValid(keys, promptList, selectedPromptId)
    requires id != DefaultPromptId
    ensures PromptsValid(Without(keys, id), promptList - {id},
                         if selectedPromptId == id then DefaultPromptId else selectedPromptId)
  {
  }

  class ConfigStore {
    var selectedPromptId: string
    /** The keys of `promptList` in enumeration order. */
    var keys: seq<string>
    var promptList: map<string, Prompt>
    var prompt: Option<string>
    var model: Option<string>
    var channel: Option<string>
    var temperature: Option<real>
    var topP: Option<real>
    var maxTokens: Option<int>
    /**
     * Top-level state entries that `deletePrompt` of the default prompt merges in:
     * there the prompt map itself is handed to the store as the state update, so
     * every prompt also lands in the store's state under its own id.
     */
    var strayFields: map<string, Prompt>

    /**
     * Each prompt is stored under its own id, the default prompt is always present,
     * and the selection is empty or a stored id.
     */
    ghost predicate Valid()
      reads this
    {
      PromptsValid(keys, promptList, selectedPromptId)
    }

    /** The settings, which `updateProp` changes one at a time. */
    ghost function Settings(): (Option<string>, Option<string>, Option<string>, Option<real>, Option<real>, Option<int>)
      reads this
    {
      (prompt, model, channel, temperature, topP, maxTokens)
    }

    /** The initial state: only the default prompt, nothing selected, no setting given. */
    constructor ()
      ensures Valid()
      ensures selectedPromptId == ""
      ensures keys == [DefaultPromptId] && promptList == map[DefaultPromptId := DefaultPrompt]
      ensures prompt == None && model == None && channel == None
      ensures temperature == None && topP == None && maxTokens == None
      ensures strayFields == map[]
    {
      selectedPromptId := "";
      keys := [DefaultPromptId];
      promptList := map[DefaultPromptId := DefaultPrompt];
      prompt, model, channel := None, None, None;
      temperature, topP, maxTokens := None, None, None;
      strayFields := map[];
    }

    /**
     * `setSelectedPromptId(id)`: `null` (here `None`) selects the default prompt, a
     * stored id selects that prompt, and an unknown id changes nothing.
     */
    method SetSelectedPromptId(id: Option<string>)
      requires Valid()
      modifies this
      ensures Valid()
      ensures id.None? ==> selectedPromptId == DefaultPromptId
      ensures id.Some? && id.value in old(promptList) ==> selectedPromptId == id.value
      ensures id.Some? && id.value !in old(promptList) ==> selectedPromptId == old(selectedPromptId)
      ensures keys == old(keys) && promptList == old(promptList)
      ensures Settings() == old(Settings()) && strayFields == old(strayFields)
    {
      if id.None? {
        selectedPromptId := DefaultPromptId;
      } else if id.value in promptList {
        selectedPromptId := id.value;
      }
    }

    /**
     * `addPrompt(title, prompt, tags)`, with `freshId` the value of `crypto.randomUUID()`:
     * one new prompt, first in order; every other prompt and the selection are kept.
     */
    method AddPrompt(title: string, prompt: string, tags: seq<string>, freshId: string)
      requires Valid()
      requires freshId !in promptList
      modifies this
      ensures Valid()
      ensures promptList == old(promptList)[freshId := Prompt(freshId, title, prompt, tags)]
      ensures keys == [freshId] + old(keys)
      ensures selectedPromptId == old(selectedPromptId)
      ensures Settings() == old(Settings()) && strayFields == old(strayFields)
    {
      var entry := Prompt(freshId, title, prompt, tags);
      AddKeepsValid(keys, promptList, selectedPromptId, entry);
      promptList, keys := promptList[freshId := entry], [freshId] + keys;
    }

    /**
     * `deletePrompt(id)`. For the default prompt the prompt map and the selection stay
     * as they are (the map is merged into the top-level state). Any other id is
     * removed, the others keep their order, and the selection falls back to the
     * default prompt exactly when it equalled `id`, even if `id` was not stored.
     */
    method DeletePrompt(id: string)
      requires Valid()
      modifies this
      ensures Valid()
      ensures id == DefaultPromptId ==>
                && keys == old(keys) && promptList == old(promptList)
                && selectedPromptId == old(selectedPromptId)
                && strayFields == old(strayFields) + old(promptList)
      ensures id != DefaultPromptId ==>
                && promptList == old(promptList) - {id}
                && keys == Without(old(keys), id)
                && selectedPromptId == (if old(selectedPromptId) == id then DefaultPromptId else old(selectedPromptId))
                && strayFields == old(strayFields)
      ensures Settings() == old(Settings())
    {
      if id == DefaultPromptId {
        strayFields := strayFields + promptList;
        return;
      }
      DeleteKeepsValid(keys, promptList, selectedPromptId, id);
      promptList, keys := promptList - {id}, Without(keys, id);
      if selectedPromptId == id {
        selectedPromptId := DefaultPromptId;
      }
    }

    /**
     * `editPrompt(id, title, prompt, tags)`: a stored prompt keeps its id and place and
     * takes the new title, body and tags; an unknown id changes nothing.
     */
    method EditPrompt(id: string, title: string, prompt: string, tags: seq<string>)
      requires Valid()
      modifies this
      ensures Valid()
      ensures id !in old(promptList) ==> promptList == old(promptList)
      ensures id in old(promptList) ==> promptList == old(promptList)[id := Prompt(id, title, prompt, tags)]
      ensures keys == old(keys) && selectedPromptId == old(selectedPromptId)
      ensures Settings() == old(Settings()) && strayFields == old(strayFields)
    {
      if id in promptList {
        promptList := promptList[id := promptList[id].(title := title, prompt := prompt, tags := tags)];
      }
    }

    /** `updateProp(prop, value)`: sets exactly that one setting. */
    method UpdateProp(setting: Setting)
      requires Valid()
      modifies this
      ensures Valid()
      ensures Settings() == match setting
        case PromptSetting(v) => old(Settings()).(0 := v)
        case ModelSetting(v) => old(Settings()).(1 := v)
        case ChannelSetting(v) => old(Settings()).(2 := v)
        case TemperatureSetting(v) => old(Settings()).(3 := v)
        case TopPSetting(v) => old(Settings()).(4 := v)
        case MaxTokensSetting(v) => old(Settings()).(5 := v)
      ensures selectedPromptId == old(selectedPromptId)
      ensures keys == old(keys) && promptList == old(promptList) && strayFields == old(strayFields)
    {
      match setting
      case PromptSetting(v) => prompt := v;
      case ModelSetting(v) => model := v;
      case ChannelSetting(v) => channel := v;
      case TemperatureSetting(v) => temperature := v;
      case TopPSetting(v) => topP := v;
      case MaxTokensSetting(v) => maxTokens := v;
    }
  }
}
