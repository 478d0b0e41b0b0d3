/**
 * The earlier prompt registry, still the one the conversation page reads: a persisted
 * map of prompts, initially empty, and the selected prompt id.
 */
module Prompts {
  import opened Common
  import opened JsObject

  class PromptStore {
    var selectedPromptId: string
    /** The keys of `promptList` in enumeration order. */
    var keys: seq<string>
    var promptList: map<string, Prompt>

    /** Each prompt is stored under its own id, and the selection is empty or a stored id. */
    ghost predicate Valid()
      reads this
    {
      && KeyOrder(keys, promptList)
      && (forall k :: k in promptList ==> promptList[k].id == k)
      && (selectedPromptId == "" || selectedPromptId in promptList)
    }

    constructor ()
      ensures Valid()
      ensures selectedPromptId == "" && keys == [] && promptList == map[]
    {
      selectedPromptId, keys, promptList := "", [], map[];
    }

    /** `setSelectedPromptId(id)`: selects a stored prompt; an unknown id changes nothing. */
    method SetSelectedPromptId(id: string)
      requires Valid()
      modifies this
      ensures Valid()
      ensures selectedPromptId == if id in old(promptList) then id else old(selectedPromptId)
      ensures keys == old(keys) && promptList == old(promptList)
    {
      if id in promptList {
        selectedPromptId := id;
      }
    }

    /**
     * `addPrompt(title, prompt, tags)`, with `freshId` the value of `crypto.randomUUID()`:
     * one new prompt, first in order; every other prompt and the selection are kept.
     */
    method AddPrompt(title: string, prompt: string, tags: seq<string>, freshId: string)
      requires Valid()
      requires freshId !in promptList
      modifies this
      ensures Valid()
      ensures promptList == old(promptList)[freshId := Prompt(freshId, title, prompt, tags)]
      ensures keys == [freshId] + old(keys)
      ensures selectedPromptId == old(selectedPromptId)
    {
      promptList := promptList[freshId := Prompt(freshId, title, prompt, tags)];
      WithoutAbsent(keys, freshId);
      keys := PutFirst(keys, freshId);
    }
  }
}
