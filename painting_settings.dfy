/**
 * The selection logic of the painting settings panel
 * (`app/components/painting-settings.tsx`): the model dictionary, the list of
 * available models and the default one, the features of the selected model,
 * which controls are disabled, the single-field option updates and the values
 * the controls show. Rendering is left out.
 */
module PaintingSettings {
  import opened Wrappers
  import opened AppConfig

  /** The dictionary `buildDict` fills: each item, in order, overwrites the entry of its key. */
  function DictOf<T>(list: seq<T>, keyOf: T -> string): map<string, T> {
    if list == [] then map[]
    else DictOf(list[..|list| - 1], keyOf)[keyOf(list[|list| - 1]) := list[|list| - 1]]
  }

  /** `buildDict(list, key)`: one loop over the list, assigning `dict[item[key]] = item`. */
  method BuildDict<T>(list: seq<T>, keyOf: T -> string) returns (dict: map<string, T>)
    ensures dict == DictOf(list, keyOf)
  {
    dict := map[];
    for i := 0 to |list|
      invariant dict == DictOf(list[..i], keyOf)
    {
      assert list[..i + 1][..i] == list[..i];
      dict := dict[keyOf(list[i]) := list[i]];
    }
    assert list[..|list|] == list;
  }

  /** The keys of the dictionary are exactly the keys of the items. */
  lemma {:induction false} DictOfKeys<T>(list: seq<T>, keyOf: T -> string)
    ensures DictOf(list, keyOf).Keys == set x | x in list :: keyOf(x)
  {
    if list != [] {
      var init := list[..|list| - 1];
      DictOfKeys(init, keyOf);
      assert list == init + [list[|list| - 1]];
      assert (set x | x in list :: keyOf(x)) == (set x | x in init :: keyOf(x)) + {keyOf(list[|list| - 1])};
    }
  }

  /** The last item carrying a key wins: the entry is that item, and no later item has the key. */
  lemma {:induction false} DictOfLastWins<T>(list: seq<T>, keyOf: T -> string, k: string)
    requires k in DictOf(list, keyOf)
    ensures exists i :: (0 <= i < |list| && keyOf(list[i]) == k && DictOf(list, keyOf)[k] == list[i]
      && forall j :: i < j < |list| ==> keyOf(list[j]) != k)
  {
    var n := |list| - 1;
    if keyOf(list[n]) == k {
      assert DictOf(list, keyOf)[k] == list[n];
    } else {
      var init := list[..n];
      DictOfLastWins(init, keyOf, k);
      var i :| 0 <= i < |init| && keyOf(init[i]) == k && DictOf(init, keyOf)[k] == init[i]
        && forall j :: i < j < |init| ==> keyOf(init[j]) != k;
      assert list[i] == init[i];
      forall j | i < j < |list| ensures keyOf(list[j]) != k {
        if j < n { assert list[j] == init[j]; }
      }
    }
  }

  function NameOf(m: PaintingModel): string { m.name }

  /** `modelList`: the names of the available models, in their order. */
  function ModelList(models: seq<PaintingModel>): (names: seq<string>)
    ensures |names| <= |models|
    ensures forall n :: n in names <==> exists m :: m in models && m.available && m.name == n
  {
    if models == [] then []
    else (if models[0].available then [models[0].name] else []) + ModelList(models[1..])
  }

  /** `modelList` keeps the models' order: the list of a concatenation is the concatenation of the lists. */
  lemma {:induction false} ModelListAppend(a: seq<PaintingModel>, b: seq<PaintingModel>)
    ensures ModelList(a + b) == ModelList(a) + ModelList(b)
  {
    if a == [] {
      assert a + b == b;
    } else {
      var head := if a[0].available then [a[0].name] else [];
      assert (a + b)[0] == a[0];
      assert (a + b)[1..] == a[1..] + b;
      ModelListAppend(a[1..], b);
      calc {
        ModelList(a + b);
        head + ModelList(a[1..] + b);
        head + (ModelList(a[1..]) + ModelList(b));
        (head + ModelList(a[1..])) + ModelList(b);
        ModelList(a) + ModelList(b);
      }
    }
  }

  /** Each model's name, when it is available, stands between the names of the models before it and after it. */
  lemma ModelListOrder(a: seq<PaintingModel>, m: PaintingModel, b: seq<PaintingModel>)
    ensures ModelList(a + [m] + b) == ModelList(a) + (if m.available then [m.name] else []) + ModelList(b)
  {
    ModelListAppend(a + [m], b);
    ModelListAppend(a, [m]);
    assert [m][1..] == [];
  }

  /** `defaultModel = modelList[0]`: some available model's name, undefined when no model is available. */
  function DefaultModel(models: seq<PaintingModel>): (r: Option<string>)
    ensures r.None? <==> forall m :: m in models ==> !m.available
    ensures r.Some? ==> exists m :: m in models && m.available && m.name == r.value
  {
    var names := ModelList(models);
    assert forall m :: m in models && m.available ==> m.name in names;
    if names == [] then None
    else
      assert names[0] in names;
      Some(names[0])
  }

  /** The default model is the name of the first available model. */
  lemma {:induction false} DefaultModelIsFirstAvailable(models: seq<PaintingModel>)
    ensures DefaultModel(models).Some? ==> exists i :: (0 <= i < |models| && models[i].available
      && models[i].name == DefaultModel(models).value && forall j :: 0 <= j < i ==> !models[j].available)
  {
    if models == [] {
    } else if models[0].available {
      assert ModelList(models) == [models[0].name] + ModelList(models[1..]);
      assert DefaultModel(models) == Some(models[0].name);
      assert 0 < |models| && models[0].available && models[0].name == DefaultModel(models).value;
    } else {
      var rest := models[1..];
      DefaultModelIsFirstAvailable(rest);
      assert ModelList(models) == ModelList(rest);
      assert DefaultModel(models) == DefaultModel(rest);
      if DefaultModel(rest).Some? {
        var i :| 0 <= i < |rest| && rest[i].available
          && rest[i].name == DefaultModel(rest).value && forall j :: 0 <= j < i ==> !rest[j].available;
        assert models[i + 1] == rest[i];
        forall j | 0 <= j < i + 1 ensures !models[j].available {
          if j > 0 { assert models[j] == rest[j - 1]; }
        }
        assert 0 <= i + 1 < |models| && models[i + 1].available && models[i + 1].name == DefaultModel(models).value;
      }
    }
  }

  /** With the shipped models, the list is both models and the default is Hugging Face. */
  lemma ShippedModels()
    ensures ModelList(PaintingModels) == ["HuggingFace", "StableDiffusion"]
    ensures DefaultModel(PaintingModels) == Some("HuggingFace")
  {
    assert PaintingModels[1..][1..] == [];
  }

  /** A property key: JavaScript turns an `undefined` key into the text "undefined". */
  function KeyString(name: Option<string>): string {
    name.GetOr("undefined")
  }

  /** The dictionary key the panel looks up: `options.model ?? defaultModel`. */
  function SelectedKey(models: seq<PaintingModel>, options: PaintingOptions): string {
    KeyString(if options.model.Some? then options.model else DefaultModel(models))
  }

  /**
   * `modelFeatures = modelDict[options.model ?? defaultModel]?.features`:
   * defined exactly when some model (available or not) has that name, and then
   * the features of the last such model.
   */
  function ModelFeatures(models: seq<PaintingModel>, options: PaintingOptions): (r: Option<Features>)
    ensures r.Some? <==> exists m :: m in models && m.name == SelectedKey(models, options)
    ensures r.Some? ==> exists i :: (0 <= i < |models| && models[i].name == SelectedKey(models, options)
      && r.value == models[i].features && forall j :: i < j < |models| ==> models[j].name != SelectedKey(models, options))
  {
    var dict := DictOf(models, NameOf);
    var key := SelectedKey(models, options);
    DictOfKeys(models, NameOf);
    assert key in dict <==> exists m :: m in models && m.name == key by {
      if key in dict {
        var m :| m in models && NameOf(m) == key;
      }
      if exists m :: m in models && m.name == key {
        var m :| m in models && m.name == key;
        assert NameOf(m) == key;
      }
    }
    if key in dict then
      DictOfLastWins(models, NameOf, key);
      Some(dict[key].features)
    else None
  }

  /** The controls whose `disabled` state follows a feature flag. */
  datatype Control = Sampler | Width | Height | Steps | CfgScale | Seed | BatchSize | NegativePrompt

  function Flag(f: Features, c: Control): bool {
    match c
    case Sampler => f.sampler_index
    case Width => f.width
    case Height => f.height
    case Steps => f.steps
    case CfgScale => f.cfg_scale
    case Seed => f.seed
    case BatchSize => f.batch_size
    case NegativePrompt => f.negative_prompt
  }

  /** `disabled={!modelFeatures?.flag}`: disabled when the flag is false or there are no features. */
  predicate Disabled(features: Option<Features>, c: Control) {
    features.None? || !Flag(features.value, c)
  }

  /**
   * `disabled={!modelFeatures?.flag}` in general: a control is enabled exactly
   * when the last model carrying the selected name supports it.
   */
  lemma ControlEnabledIffSupported(models: seq<PaintingModel>, options: PaintingOptions, c: Control)
    ensures !Disabled(ModelFeatures(models, options), c) <==>
      exists i :: (0 <= i < |models| && models[i].name == SelectedKey(models, options)
        && (forall j :: i < j < |models| ==> models[j].name != SelectedKey(models, options))
        && Flag(models[i].features, c))
  {
    var key := SelectedKey(models, options);
    var r := ModelFeatures(models, options);
    if exists i :: (0 <= i < |models| && models[i].name == key
        && (forall j :: i < j < |models| ==> models[j].name != key) && Flag(models[i].features, c)) {
      var i :| 0 <= i < |models| && models[i].name == key
        && (forall j :: i < j < |models| ==> models[j].name != key) && Flag(models[i].features, c);
      assert models[i] in models;
      var k :| 0 <= k < |models| && models[k].name == key && r.value == models[k].features
        && forall j :: k < j < |models| ==> models[j].name != key;
      assert k == i;
    }
  }

  /** With Hugging Face selected (or defaulted), exactly seed, sampler and batch size are disabled. */
  lemma HuggingFaceDisables(options: PaintingOptions, c: Control)
    requires options.model.None? || options.model == Some("HuggingFace")
    ensures Disabled(ModelFeatures(PaintingModels, options), c) <==> c == Seed || c == Sampler || c == BatchSize
  {
    ShippedModels();
    var r := ModelFeatures(PaintingModels, options);
    assert SelectedKey(PaintingModels, options) == "HuggingFace";
    assert PaintingModels[0].name == "HuggingFace" && PaintingModels[1].name != "HuggingFace";
    assert r == Some(PaintingModels[0].features);
  }

  /** With Stable Diffusion selected, no control is disabled. */
  lemma StableDiffusionEnablesAll(options: PaintingOptions, c: Control)
    requires options.model == Some("StableDiffusion")
    ensures !Disabled(ModelFeatures(PaintingModels, options), c)
  {
    var r := ModelFeatures(PaintingModels, options);
    assert PaintingModels[1].name == "StableDiffusion";
    assert r == Some(PaintingModels[1].features);
  }

  /** A model name that no model carries leaves no features, so every control is disabled. */
  lemma UnknownModelDisablesAll(options: PaintingOptions, c: Control)
    requires options.model.Some? && options.model.value != "HuggingFace" && options.model.value != "StableDiffusion"
    ensures Disabled(ModelFeatures(PaintingModels, options), c)
  {
    var key := SelectedKey(PaintingModels, options);
    forall m | m in PaintingModels ensures m.name != key {
      assert m == PaintingModels[0] || m == PaintingModels[1];
    }
  }

  /** The option fields the panel edits. */
  datatype Field = ModelField | SamplerField | WidthField | HeightField | StepsField
    | CfgScaleField | SeedField | BatchSizeField | NegativePromptField

  /** A control's value: text or a number. */
  datatype Value = Text(text: string) | Num(num: real)

  /** The value of one option field, unset or set. */
  function Get(o: PaintingOptions, f: Field): Option<Value> {
    match f
    case ModelField => if o.model.Some? then Some(Text(o.model.value)) else None
    case SamplerField => if o.sampler_index.Some? then Some(Text(o.sampler_index.value)) else None
    case NegativePromptField => if o.negative_prompt.Some? then Some(Text(o.negative_prompt.value)) else None
    case WidthField => if o.width.Some? then Some(Num(o.width.value)) else None
    case HeightField => if o.height.Some? then Some(Num(o.height.value)) else None
    case StepsField => if o.steps.Some? then Some(Num(o.steps.value)) else None
    case CfgScaleField => if o.cfg_scale.Some? then Some(Num(o.cfg_scale.value)) else None
    case SeedField => if o.seed.Some? then Some(Num(o.seed.value)) else None
    case BatchSizeField => if o.batch_size.Some? then Some(Num(o.batch_size.value)) else None
  }

  /** Text fields take text and the others numbers, as the handlers' event values do. */
  predicate Fits(f: Field, v: Value) {
    if f == ModelField || f == SamplerField || f == NegativePromptField then v.Text? else v.Num?
  }

  /** `setOptions({ ...options, field: value })`: that field is set and every other field is kept. */
  function SetOption(o: PaintingOptions, f: Field, v: Value): (r: PaintingOptions)
    requires Fits(f, v)
    ensures Get(r, f) == Some(v)
    ensures forall g :: g != f ==> Get(r, g) == Get(o, g)
  {
    match f
    case ModelField => o.(model := Some(v.text))
    case SamplerField => o.(sampler_index := Some(v.text))
    case NegativePromptField => o.(negative_prompt := Some(v.text))
    case WidthField => o.(width := Some(v.num))
    case HeightField => o.(height := Some(v.num))
    case StepsField => o.(steps := Some(v.num))
    case CfgScaleField => o.(cfg_scale := Some(v.num))
    case SeedField => o.(seed := Some(v.num))
    case BatchSizeField => o.(batch_size := Some(v.num))
  }

  /** `samplerList[0]`. */
  const DefaultSampler := "Euler a"

  /**
   * The value a control shows: the option when set; otherwise the default
   * model, the first sampler, or the field of `DIFFUSION_OPTIONS_DEFAULTS`.
   */
  function Shown(o: PaintingOptions, defaults: PaintingOptions, models: seq<PaintingModel>, f: Field): (r: Option<Value>)
    ensures Get(o, f).Some? ==> r == Get(o, f)
    ensures Get(o, f).None? && f == ModelField ==> r == if DefaultModel(models).Some? then Some(Text(DefaultModel(models).value)) else None
    ensures Get(o, f).None? && f == SamplerField ==> r == Some(Text(DefaultSampler))
    ensures Get(o, f).None? && f != ModelField && f != SamplerField ==> r == Get(defaults, f)
  {
    if Get(o, f).Some? then Get(o, f)
    else if f == ModelField then (if DefaultModel(models).Some? then Some(Text(DefaultModel(models).value)) else None)
    else if f == SamplerField then Some(Text(DefaultSampler))
    else Get(defaults, f)
  }

  /** After a handler sets a field, the control shows the new value, and every other control is unaffected. */
  lemma SetThenShown(o: PaintingOptions, defaults: PaintingOptions, models: seq<PaintingModel>, f: Field, v: Value, g: Field)
    requires Fits(f, v)
    ensures Shown(SetOption(o, f, v), defaults, models, f) == Some(v)
    ensures g != f ==> Shown(SetOption(o, f, v), defaults, models, g) == Shown(o, defaults, models, g)
  {
  }
}
