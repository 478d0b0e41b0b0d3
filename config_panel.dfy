/**
 * The rules of the configuration panel: the default chat configuration, the model
 * catalogue and the lookups over it, the prompt form with its validation and its
 * tag text, and resetting the settings to their defaults.
 */
module ConfigPanel {
  import opened Common
  import opened Strings
  import opened Config

  /** `DEFAULT_CHAT_CONFIG`. */
  const DefaultModel := "gpt-4o-2024-08-06"
  const DefaultChannel := "default"
  const DefaultTemperature: real := 0.5
  const DefaultTopP: real := 0.9
  const DefaultMaxTokens := 16384

  /** The bound on the response length when the model is not in the catalogue. */
  const FallbackMaxTokens := 4096

  /** How tags are shown in the form's text field and read back from it. */
  const TagSeparator := ", "

  /** The marker whose presence in a model id disables the sampling settings. */
  const O1Marker := "o1-"

  /** One entry of `CONFIG.models`. */
  datatype ModelOption = ModelOption(name: string, value: string, maxTokens: int)

  const Models: seq<ModelOption> := [
    ModelOption("OpenAI GPT-4o", "gpt-4o-2024-08-06", 16384),
    ModelOption("OpenAI GPT-4o Mini", "gpt-4o-mini-2024-07-18", 16384),
    ModelOption("OpenAI GPT o1 Mini", "o1-mini", 32768),
    ModelOption("OpenAI GPT o1 Preview", "o1-preview", 32768)
  ]

  /** `options.find((m) => m.value === model)`. */
  function Find(options: seq<ModelOption>, model: Option<string>): (r: Option<ModelOption>)
    ensures r.Some? ==> exists i :: 0 <= i < |options| && options[i] == r.value && FirstMatch(options, model, i)
    ensures r.Some? ==> model == Some(r.value.value)
    ensures r.None? <==> forall m :: m in options ==> model != Some(m.value)
  {
    if options == [] then None
    else if model == Some(options[0].value) then
      assert options[0] == options[0] && FirstMatch(options, model, 0);
      Some(options[0])
    else
      var r := Find(options[1..], model);
      assert r.Some? ==> exists i :: 0 <= i < |options| && options[i] == r.value && FirstMatch(options, model, i) by {
        if r.Some? {
          var i :| 0 <= i < |options[1..]| && options[1..][i] == r.value && FirstMatch(options[1..], model, i);
          assert FirstMatch(options, model, i + 1);
        }
      }
      r
  }

  /** No entry before index `i` has `model` as its value. */
  predicate FirstMatch(options: seq<ModelOption>, model: Option<string>, i: int)
    requires 0 <= i <= |options|
  {
    forall j :: 0 <= j < i ==> model != Some(options[j].value)
  }

  /** `selectedModel`: the catalogue entry for the configured model, if there is one. */
  function SelectedModel(model: Option<string>): (r: Option<ModelOption>)
    ensures r.Some? ==> r.value in Models && model == Some(r.value.value)
    ensures r.None? <==> forall m :: m in Models ==> model != Some(m.value)
  {
    Find(Models, model)
  }

  /**
   * `selectedModel?.maxTokens || 4_096`: the upper bound of the response-length
   * inputs, taken from the catalogue entry of the configured model, else 4096.
   */
  function MaxTokensBound(model: Option<string>): (n: int)
    ensures (forall m :: m in Models ==> model != Some(m.value)) ==> n == FallbackMaxTokens
    ensures forall m :: m in Models && model == Some(m.value) ==> n == m.maxTokens
  {
    match SelectedModel(model)
    case None => FallbackMaxTokens
    case Some(m) => if m.maxTokens != 0 then m.maxTokens else FallbackMaxTokens
  }

  /** `model?.includes('o1-')`: no model counts as false. */
  predicate O1ModelSelected(model: Option<string>): (b: bool)
    ensures b <==> model.Some? && exists i :: OccursAt(model.value, O1Marker, i)
  {
    model.Some? && Includes(model.value, O1Marker)
  }

  /** The two o1 entries of the catalogue are recognised, the two GPT-4o entries are not. */
  lemma O1Catalogue()
    ensures O1ModelSelected(Some("o1-mini")) && O1ModelSelected(Some("o1-preview"))
    ensures !O1ModelSelected(Some("gpt-4o-2024-08-06")) && !O1ModelSelected(Some("gpt-4o-mini-2024-07-18"))
  {
    assert O1ModelSelected(Some("o1-mini")) by { IncludesAt("o1-mini", O1Marker, 0); }
    assert O1ModelSelected(Some("o1-preview")) by { IncludesAt("o1-preview", O1Marker, 0); }
    assert !O1ModelSelected(Some("gpt-4o-2024-08-06")) by { NoO1("gpt-4o-2024-08-06"); }
    assert !O1ModelSelected(Some("gpt-4o-mini-2024-07-18")) by {
      MiniIdPairFree();
      NoO1("gpt-4o-mini-2024-07-18");
    }
  }

  /** The GPT-4o mini id has its only `o` at index 5, followed by `-`. */
  lemma MiniIdPairFree()
    ensures NoO1Pair("gpt-4o-mini-2024-07-18")
  {
    var s := "gpt-4o-mini-2024-07-18";
    forall i | 0 <= i < |s| - 1 ensures !(s[i] == 'o' && s[i + 1] == '1') {
      if s[i] == 'o' {
        assert i == 5;
      }
    }
  }

  /** No `o` in `s` is followed by `1`. */
  predicate NoO1Pair(s: string) {
    forall i :: 0 <= i < |s| - 1 ==> !(s[i] == 'o' && s[i + 1] == '1')
  }

  /** A string in which no `o` is followed by `1` does not include the marker. */
  lemma NoO1(s: string)
    requires NoO1Pair(s)
    ensures !O1ModelSelected(Some(s))
  {
    forall j ensures !OccursAt(s, O1Marker, j) {
      if 0 <= j && j + 3 <= |s| {
        assert !(s[j] == 'o' && s[j + 1] == '1');
        assert s[j..j + 3][0] == s[j] && s[j..j + 3][1] == s[j + 1];
      }
    }
  }

  /**
   * `selectedPrompt`: the selected prompt when the selected id is non-empty and
   * stored, and nothing otherwise.
   */
  function SelectedPrompt(selectedPromptId: string, promptList: map<string, Prompt>): (r: Option<Prompt>)
    ensures r.Some? <==> selectedPromptId != "" && selectedPromptId in promptList
    ensures r.Some? ==> r.value == promptList[selectedPromptId]
  {
    if selectedPromptId != "" && selectedPromptId in promptList then Some(promptList[selectedPromptId]) else None
  }

  /** The form's text for a tag list: `tags.join(', ')`. */
  function TagsText(tags: seq<string>): (text: string)
    ensures |tags| > 0 && (forall t :: t in tags ==> !Includes(t, TagSeparator)) ==> TagsFromText(text) == tags
  {
    if |tags| > 0 && (forall t :: t in tags ==> !Includes(t, TagSeparator)) then
      SplitJoin(tags, TagSeparator);
      Join(tags, TagSeparator)
    else
      Join(tags, TagSeparator)
  }

  /** The tag list read back from the form's text: `tags.split(', ')`. */
  function TagsFromText(text: string): (tags: seq<string>)
    ensures |tags| >= 1
  {
    Split(text, TagSeparator)
  }

  /** Reading tags from any text and showing them again gives the text back. */
  lemma TagsTextRoundTrip(text: string)
    ensures TagsText(TagsFromText(text)) == text
  {
    JoinSplit(text, TagSeparator);
  }

  /** The guard of `handleSavePrompt`: title, body and tags text are all non-empty. */
  predicate CanSave(title: string, prompt: string, tags: string): (b: bool)
    ensures b <==> title != "" && prompt != "" && TagsFromText(tags) != [""]
  {
    TagsNotBlank(tags);
    title != "" && prompt != "" && tags != ""
  }

  /** The tags text is empty exactly when saving it would give the single empty tag. */
  lemma TagsNotBlank(tags: string)
    ensures tags == "" <==> TagsFromText(tags) == [""]
  {
    if TagsFromText(tags) == [""] {
      JoinSplit(tags, TagSeparator);
    }
  }

  /** A truthy `promptId` prop: present and non-empty. */
  predicate Editing(promptId: Option<string>): (b: bool)
    ensures b <==> promptId != None && promptId != Some("")
  {
    promptId.Some? && promptId.value != ""
  }

  /**
   * The prompt form. `promptId` is the id being edited, held by the surrounding modal
   * and cleared through `handleEditPrompt(null)`.
   */
  class PromptForm {
    const store: ConfigStore
    var title: string
    var prompt: string
    var tags: string
    var promptId: Option<string>

    ghost predicate Valid()
      reads this, store
    {
      store.Valid()
    }

    constructor (store: ConfigStore, promptId: Option<string>)
      requires store.Valid()
      ensures Valid() && this.store == store && this.promptId == promptId
      ensures title == "" && prompt == "" && tags == ""
    {
      this.store := store;
      this.promptId := promptId;
      title, prompt, tags := "", "", "";
    }

    /** The three inputs' `onChange` handlers. */
    method Input(title: string, prompt: string, tags: string)
      modifies this
      ensures this.title == title && this.prompt == prompt && this.tags == tags
      ensures promptId == old(promptId)
    {
      this.title, this.prompt, this.tags := title, prompt, tags;
    }

    /**
     * The effect that fills the form when a stored prompt is opened for editing, the
     * tags shown joined by `, `; otherwise the form is left as it is.
     */
    method LoadPrompt()
      requires Valid()
      modifies this
      ensures Valid() && promptId == old(promptId)
      ensures Editing(promptId) && promptId.value in store.promptList ==>
                var p := store.promptList[promptId.value];
                title == p.title && prompt == p.prompt && tags == TagsText(p.tags)
      ensures !(Editing(promptId) && promptId.value in store.promptList) ==>
                title == old(title) && prompt == old(prompt) && tags == old(tags)
    {
      if Editing(promptId) && promptId.value in store.promptList {
        var p := store.promptList[promptId.value];
        title, prompt, tags := p.title, p.prompt, TagsText(p.tags);
      }
    }

    /** `reset`: clears the form and the id being edited. */
    method Reset()
      modifies this
      ensures title == "" && prompt == "" && tags == "" && promptId == None
    {
      title, prompt, tags := "", "", "";
      promptId := None;
    }

    /**
     * `handleSavePrompt`, with `freshId` the id a new prompt would get. With an empty
     * title, body or tags text nothing changes. Otherwise the edited prompt is
     * replaced (when an id is being edited) or a new prompt is added, with the tags
     * split on `, `, and the form is reset.
     */
    method HandleSavePrompt(freshId: string)
      requires Valid()
      requires freshId !in store.promptList
      modifies this, store
      ensures Valid()
      ensures !CanSave(old(title), old(prompt), old(tags)) ==>
                && title == old(title) && prompt == old(prompt) && tags == old(tags) && promptId == old(promptId)
                && store.keys == old(store.keys) && store.promptList == old(store.promptList)
      ensures CanSave(old(title), old(prompt), old(tags)) ==>
                && title == "" && prompt == "" && tags == "" && promptId == None
                && var saved := TagsFromText(old(tags));
                (if Editing(old(promptId)) then
                   && store.keys == old(store.keys)
                   && var id := old(promptId).value;
                   store.promptList == (if id in old(store.promptList)
                                        then old(store.promptList)[id := Prompt(id, old(title), old(prompt), saved)]
                                        else old(store.promptList))
                 else
                   && store.keys == [freshId] + old(store.keys)
                   && store.promptList == old(store.promptList)[freshId := Prompt(freshId, old(title), old(prompt), saved)])
      ensures store.selectedPromptId == old(store.selectedPromptId)
      ensures store.Settings() == old(store.Settings()) && store.strayFields == old(store.strayFields)
    {
      if !CanSave(title, prompt, tags) {
        return;
      }
      if Editing(promptId) {
        store.EditPrompt(promptId.value, title, prompt, TagsFromText(tags));
      } else {
        store.AddPrompt(title, prompt, TagsFromText(tags), freshId);
      }
      Reset();
    }
  }

  /**
   * `handleResetDefault`: the model, channel, temperature, top-p and response length
   * take their default values and the default prompt is selected; the prompts and the
   * stored custom prompt text are kept.
   */
  method HandleResetDefault(store: ConfigStore)
    requires store.Valid()
    modifies store
    ensures store.Valid()
    ensures store.model == Some(DefaultModel) && store.channel == Some(DefaultChannel)
    ensures store.temperature == Some(DefaultTemperature) && store.topP == Some(DefaultTopP)
    ensures store.maxTokens == Some(DefaultMaxTokens)
    ensures store.selectedPromptId == DefaultPromptId
    ensures store.prompt == old(store.prompt)
    ensures store.keys == old(store.keys) && store.promptList == old(store.promptList)
    ensures store.strayFields == old(store.strayFields)
  {
    store.UpdateProp(ModelSetting(Some(DefaultModel)));
    store.UpdateProp(ChannelSetting(Some(DefaultChannel)));
    store.UpdateProp(TemperatureSetting(Some(DefaultTemperature)));
    store.UpdateProp(TopPSetting(Some(DefaultTopP)));
    store.UpdateProp(MaxTokensSetting(Some(DefaultMaxTokens)));
    store.SetSelectedPromptId(None);
  }
}
