/** The intention store of a spread: whether the user writes their own intention or picks a
  * preset, the text they wrote, and the preset they picked. */
module IntentionStore {
  import opened Common

  datatype IntentionMode = Custom | Preset

  /** `IntentionState`: the mode, the custom text, and the optional preset id and label. */
  datatype IntentionState = IntentionState(mode: IntentionMode, customText: string,
                                           presetId: Option<string>, presetLabel: Option<string>)

  /** A new or reset store: preset mode, no text, no preset. */
  const INITIAL: IntentionState := IntentionState(Preset, "", None, None)

  /** `makeIntentionStore(spreadId)`: one store per spread. */
  class Store {
    const spreadId: string
    var mode: IntentionMode
    var customText: string
    var presetId: Option<string>
    var presetLabel: Option<string>

    function State(): IntentionState
      reads this
    {
      IntentionState(mode, customText, presetId, presetLabel)
    }

    constructor (spreadId: string)
      ensures this.spreadId == spreadId && State() == INITIAL
    {
      this.spreadId := spreadId;
      mode := Preset;
      customText := "";
      presetId := None;
      presetLabel := None;
    }

    /** `setMode(mode)`: only the mode changes; the text and the preset are kept. */
    method SetMode(m: IntentionMode)
      modifies this`mode
      ensures State() == old(State()).(mode := m)
    {
      mode := m;
    }

    /** `setCustomText(v)`: only the text changes. */
    method SetCustomText(v: string)
      modifies this`customText
      ensures State() == old(State()).(customText := v)
    {
      customText := v;
    }

    /** `selectPreset(id, label)` with the label as `text`: preset mode with that preset; the custom text is kept. */
    method SelectPreset(id: string, text: string)
      modifies this`mode, this`presetId, this`presetLabel
      ensures State() == old(State()).(mode := Preset, presetId := Some(id), presetLabel := Some(text))
    {
      mode := Preset;
      presetId := Some(id);
      presetLabel := Some(text);
    }

    /** `reset()`: back to the initial state. */
    method Reset()
      modifies this`mode, this`customText, this`presetId, this`presetLabel
      ensures State() == INITIAL
    {
      mode := Preset;
      customText := "";
      presetId := None;
      presetLabel := None;
    }
  }
}
