/**
 * The chat configuration store (`app/store/config.ts`): the model list, the
 * number and model validators, the default configuration, and the store's
 * `reset` and `update` transitions. JavaScript numbers are modelled as reals
 * with explicit NaN and non-number cases.
 */
module AppConfig {
  import opened Wrappers

  /** A JavaScript value passed where a number is expected. */
  datatype NumberArg = Number(value: real) | NaN | NotNumber

  function Max(a: real, b: real): real { if a >= b then a else b }
  function Min(a: real, b: real): real { if a <= b then a else b }

  /**
   * `limitNumber(x, min, max, defaultValue)`: the default for NaN or a
   * non-number; otherwise `x` clamped into `[min, max]` (and `max` whenever
   * `min > max`, since the upper clamp is applied last).
   */
  function LimitNumber(x: NumberArg, min: real, max: real, defaultValue: real): (r: real)
    ensures !x.Number? ==> r == defaultValue
    ensures x.Number? && min <= max ==> min <= r <= max
    ensures x.Number? && min <= x.value <= max ==> r == x.value
    ensures x.Number? && min <= max && x.value < min ==> r == min
    ensures x.Number? && x.value > max ==> r == max
    ensures x.Number? && min > max ==> r == max
  {
    if !x.Number? then defaultValue
    else Min(max, Max(min, x.value))
  }

  /** Clamping is idempotent: a limited value is left as it is (the default only has to lie in range itself). */
  lemma LimitNumberIdempotent(x: NumberArg, min: real, max: real, defaultValue: real)
    requires !x.Number? ==> min <= defaultValue <= max
    ensures var once := LimitNumber(x, min, max, defaultValue);
      LimitNumber(Number(once), min, max, defaultValue) == once
  {
  }

  datatype ModelEntry = ModelEntry(name: string, available: bool)

  const EnableGpt4 := true

  /** `ALL_MODELS`. */
  const AllModels := [
    ModelEntry("gpt-4", EnableGpt4),
    ModelEntry("gpt-4-0314", EnableGpt4),
    ModelEntry("gpt-4-32k", EnableGpt4),
    ModelEntry("gpt-4-32k-0314", EnableGpt4),
    ModelEntry("gpt-3.5-turbo", true),
    ModelEntry("gpt-3.5-turbo-0301", true)
  ]

  /** Some entry of the list has this name and is available. */
  ghost predicate Listed(models: seq<ModelEntry>, name: string) {
    exists i :: 0 <= i < |models| && models[i].name == name && models[i].available
  }

  /** `models.some((m) => m.name === name && m.available)`. */
  function SomeAvailable(models: seq<ModelEntry>, name: string): (b: bool)
    ensures b <==> Listed(models, name)
  {
    if models == [] then false
    else if models[0].name == name && models[0].available then true
    else
      var rest := SomeAvailable(models[1..], name);
      assert Listed(models[1..], name) ==> Listed(models, name) by {
        if Listed(models[1..], name) {
          var i :| 0 <= i < |models| - 1 && models[1..][i].name == name && models[1..][i].available;
          assert models[i + 1] == models[1..][i];
        }
      }
      assert Listed(models, name) ==> Listed(models[1..], name) by {
        if Listed(models, name) {
          var i :| 0 <= i < |models| && models[i].name == name && models[i].available;
          assert i != 0;
          assert models[1..][i - 1] == models[i];
        }
      }
      rest
  }

  /**
   * `limitModel(name)`: the name itself exactly when it is an available
   * model, otherwise `ALL_MODELS[4].name`, "gpt-3.5-turbo"; either way an
   * available model.
   */
  function LimitModel(name: string): (r: string)
    ensures r == name <==> Listed(AllModels, name)
    ensures !Listed(AllModels, name) ==> r == "gpt-3.5-turbo"
    ensures Listed(AllModels, r)
  {
    assert AllModels[4].name == "gpt-3.5-turbo" && AllModels[4].available;
    if SomeAvailable(AllModels, name) then name else AllModels[4].name
  }

  /** `ModalConfigValidator.model`. */
  function ValidateModel(x: string): (r: string)
    ensures Listed(AllModels, r)
    ensures Listed(AllModels, x) ==> r == x
    ensures !Listed(AllModels, x) ==> r == "gpt-3.5-turbo"
  {
    LimitModel(x)
  }

  /** `ModalConfigValidator.max_tokens`: `[0, 32000]`, default 2000. */
  function ValidateMaxTokens(x: NumberArg): (r: real)
    ensures 0.0 <= r <= 32000.0
    ensures !x.Number? ==> r == 2000.0
    ensures x.Number? && 0.0 <= x.value <= 32000.0 ==> r == x.value
    ensures x.Number? && x.value < 0.0 ==> r == 0.0
    ensures x.Number? && x.value > 32000.0 ==> r == 32000.0
  {
    LimitNumber(x, 0.0, 32000.0, 2000.0)
  }

  /** `ModalConfigValidator.presence_penalty`: `[-2, 2]`, default 0. */
  function ValidatePresencePenalty(x: NumberArg): (r: real)
    ensures -2.0 <= r <= 2.0
    ensures !x.Number? ==> r == 0.0
    ensures x.Number? && -2.0 <= x.value <= 2.0 ==> r == x.value
    ensures x.Number? && x.value < -2.0 ==> r == -2.0
    ensures x.Number? && x.value > 2.0 ==> r == 2.0
  {
    LimitNumber(x, -2.0, 2.0, 0.0)
  }

  /** `ModalConfigValidator.temperature`: `[0, 2]`, default 1. */
  function ValidateTemperature(x: NumberArg): (r: real)
    ensures 0.0 <= r <= 2.0
    ensures !x.Number? ==> r == 1.0
    ensures x.Number? && 0.0 <= x.value <= 2.0 ==> r == x.value
    ensures x.Number? && x.value < 0.0 ==> r == 0.0
    ensures x.Number? && x.value > 2.0 ==> r == 2.0
  {
    LimitNumber(x, 0.0, 2.0, 1.0)
  }

  datatype SubmitKey = Enter | CtrlEnter | ShiftEnter | AltEnter | MetaEnter
  datatype Theme = Auto | Dark | Light

  datatype ModelConfig = ModelConfig(model: string, temperature: real, max_tokens: real, presence_penalty: real)

  /** `ChatConfig`, the type of `DEFAULT_CONFIG`. */
  datatype ChatConfig = ChatConfig(
    historyMessageCount: int,
    compressMessageLengthThreshold: int,
    sendBotMessages: bool,
    submitKey: SubmitKey,
    avatar: string,
    fontSize: int,
    theme: Theme,
    tightBorder: bool,
    sendPreviewBubble: bool,
    sidebarWidth: int,
    disablePromptHint: bool,
    modelConfig: ModelConfig
  )

  /** `DEFAULT_CONFIG`. */
  const DefaultConfig := ChatConfig(
    historyMessageCount := 4,
    compressMessageLengthThreshold := 1000,
    sendBotMessages := true,
    submitKey := CtrlEnter,
    avatar := "1f603",
    fontSize := 14,
    theme := Auto,
    tightBorder := false,
    sendPreviewBubble := true,
    sidebarWidth := 300,
    disablePromptHint := false,
    modelConfig := ModelConfig("gpt-3.5-turbo", 1.0, 2000.0, 0.0)
  )

  /** The default model settings are fixed points of the validators. */
  lemma DefaultModelConfigValid()
    ensures ValidateModel(DefaultConfig.modelConfig.model) == DefaultConfig.modelConfig.model
    ensures ValidateTemperature(Number(DefaultConfig.modelConfig.temperature)) == DefaultConfig.modelConfig.temperature
    ensures ValidateMaxTokens(Number(DefaultConfig.modelConfig.max_tokens)) == DefaultConfig.modelConfig.max_tokens
    ensures ValidatePresencePenalty(Number(DefaultConfig.modelConfig.presence_penalty)) == DefaultConfig.modelConfig.presence_penalty
  {
    assert AllModels[4].name == "gpt-3.5-turbo" && AllModels[4].available;
  }

  /** Which painting controls a model supports (`features`). */
  datatype Features = Features(
    negative_prompt: bool,
    seed: bool,
    steps: bool,
    cfg_scale: bool,
    width: bool,
    height: bool,
    sampler_index: bool,
    batch_size: bool
  )

  datatype PaintingModel = PaintingModel(name: string, available: bool, features: Features)

  /** `PAINTING_MODELS`. */
  const PaintingModels := [
    PaintingModel("HuggingFace", true, Features(
      negative_prompt := true, seed := false, steps := true, cfg_scale := true,
      width := true, height := true, sampler_index := false, batch_size := false)),
    PaintingModel("StableDiffusion", true, Features(
      negative_prompt := true, seed := true, steps := true, cfg_scale := true,
      width := true, height := true, sampler_index := true, batch_size := true))
  ]

  /** `PaintingOptions`: every field may be left unset. */
  datatype PaintingOptions = PaintingOptions(
    model: Option<string>,
    negative_prompt: Option<string>,
    seed: Option<real>,
    steps: Option<real>,
    cfg_scale: Option<real>,
    width: Option<real>,
    height: Option<real>,
    sampler_index: Option<string>,
    batch_size: Option<real>
  )

  /** The `useAppConfig` store: its state and its two transitions. */
  class AppConfigStore {
    var config: ChatConfig

    /** The store starts as a copy of `DEFAULT_CONFIG`. */
    constructor ()
      ensures config == DefaultConfig
    {
      config := DefaultConfig;
    }

    /** `reset()`: every field back to `DEFAULT_CONFIG`. */
    method Reset()
      modifies this
      ensures config == DefaultConfig
    {
      config := DefaultConfig;
    }

    /** `update(updater)`: the updater is applied to a copy of the state, and the copy becomes the state. */
    method Update(updater: ChatConfig -> ChatConfig)
      modifies this
      ensures config == updater(old(config))
    {
      var copy := config;
      copy := updater(copy);
      config := copy;
    }
  }
}
