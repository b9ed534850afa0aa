/**
 * The render graph for one video: parameters are merged in layers
 * (configuration defaults, then the named preset, then the caller's keyword
 * arguments), defaults are filled in, and a node graph with either one or
 * two sampling stages is emitted. The graph's keys are the decimal strings
 * "1" to "8"; here they are the numbers they spell.
 */
module WanWorkflow {
  import opened Values

  /** A link to output `slot` of node `node` (the list `[node, slot]`). */
  datatype Link = Link(node: nat, slot: nat)

  /**
   * A graph node. Its `inputs` dictionary is split in two: the inputs that
   * link to other nodes' outputs, and the inputs that hold plain values.
   */
  datatype Node = Node(classType: string, links: map<string, Link>, settings: map<string, Value>)

  type Workflow = map<nat, Node>

  /** Every link of `n` names a node of `wf` with a key in 1..k-1, at output 0. */
  predicate LinksBelow(n: Node, wf: Workflow, k: nat)
  {
    forall name :: name in n.links ==>
      n.links[name].node in wf && 1 <= n.links[name].node < k && n.links[name].slot == 0
  }

  /** Every link of `n` reads output 0 of one of the `targets`. */
  predicate LinksTo(n: Node, targets: set<nat>)
  {
    forall name :: name in n.links ==> n.links[name].node in targets && n.links[name].slot == 0
  }

  /** Every link points to an existing node with a smaller key, at output 0. */
  predicate Linked(wf: Workflow)
  {
    forall k :: k in wf ==> LinksBelow(wf[k], wf, k)
  }

  /** Adding a node whose links point to earlier nodes keeps the graph linked. */
  lemma AddNodeLinked(wf: Workflow, k: nat, n: Node, targets: set<nat>)
    requires Linked(wf) && k !in wf && LinksTo(n, targets)
    requires forall t :: t in targets ==> t in wf && 1 <= t < k
    ensures Linked(wf[k := n])
  {
    assert LinksBelow(n, wf, k);
    var wf' := wf[k := n];
    forall j | j in wf' ensures LinksBelow(wf'[j], wf', j) {
      if j == k {
        assert wf'[j] == n;
      } else {
        assert wf'[j] == wf[j] && LinksBelow(wf[j], wf, j);
      }
    }
  }

  // ---------------------------------------------------------------------
  // Parameters

  /**
   * The preset named by the `preset` argument, or no entries when the name
   * is not a preset (a missing name and a non-string name look up nothing).
   */
  function PresetLayer(kwargs: map<string, Value>, presets: map<string, map<string, Value>>): map<string, Value>
  {
    var name := Get(kwargs, "preset", Null);
    if name.Str? && name.s in presets then presets[name.s] else map[]
  }

  /** True when a preset name is given (a truthy `preset` argument). */
  predicate HasPreset(kwargs: map<string, Value>)
  {
    Truthy(Get(kwargs, "preset", Null))
  }

  /** A given preset name that cannot be a dictionary key (a list or a mapping). */
  predicate UnhashablePreset(kwargs: map<string, Value>)
  {
    HasPreset(kwargs) && (kwargs["preset"].List? || kwargs["preset"].Dict?)
  }

  /**
   * The parameters the graph reads: with a preset, the defaults updated by
   * the preset and then by the arguments; without one, the arguments alone.
   */
  function MergeParams(kwargs: map<string, Value>, presets: map<string, map<string, Value>>,
                       defaults: map<string, Value>): map<string, Value>
  {
    if HasPreset(kwargs) then
      var merged := defaults;
      var merged := merged + PresetLayer(kwargs, presets);
      merged + kwargs
    else kwargs
  }

  /**
   * Without a preset the arguments are taken as they are; with one, a key
   * is merged when any layer has it, and the arguments win over the preset,
   * which wins over the defaults.
   */
  lemma MergePrecedence(kwargs: map<string, Value>, presets: map<string, map<string, Value>>,
                        defaults: map<string, Value>, key: string)
    ensures !HasPreset(kwargs) ==> MergeParams(kwargs, presets, defaults) == kwargs
    ensures var merged := MergeParams(kwargs, presets, defaults);
      HasPreset(kwargs) ==>
      && (key in merged <==> key in kwargs || key in PresetLayer(kwargs, presets) || key in defaults)
      && (key in merged ==>
            merged[key] == (if key in kwargs then kwargs[key]
                            else if key in PresetLayer(kwargs, presets) then PresetLayer(kwargs, presets)[key]
                            else defaults[key]))
  {
  }

  /**
   * Where a parameter comes from, layer by layer: the argument, else (only
   * when a preset is named) the preset's entry, else the configuration
   * default, else the built-in `fallback`.
   */
  function Resolve(key: string, fallback: Value, kwargs: map<string, Value>,
                   presets: map<string, map<string, Value>>, defaults: map<string, Value>): Value
  {
    if key in kwargs then kwargs[key]
    else if HasPreset(kwargs) && key in PresetLayer(kwargs, presets) then PresetLayer(kwargs, presets)[key]
    else if HasPreset(kwargs) && key in defaults then defaults[key]
    else fallback
  }

  /** Reading a merged parameter with a fallback is resolving it layer by layer. */
  lemma MergedGetResolves(key: string, fallback: Value, kwargs: map<string, Value>,
                          presets: map<string, map<string, Value>>, defaults: map<string, Value>)
    ensures Get(MergeParams(kwargs, presets, defaults), key, fallback)
         == Resolve(key, fallback, kwargs, presets, defaults)
  {
    MergePrecedence(kwargs, presets, defaults, key);
  }

  /** A nested section that is present but is not a mapping (`.get` on it fails). */
  predicate BadSection(m: map<string, Value>, name: string)
  {
    name in m && !m[name].Dict?
  }

  /** `m.get(name, {})` for a nested section that is a mapping when present. */
  function Section(m: map<string, Value>, name: string): map<string, Value>
  {
    if name in m && m[name].Dict? then m[name].entries else map[]
  }

  /** `dual_stage.enabled`, false when absent. */
  predicate DualStage(m: map<string, Value>)
  {
    Truthy(Get(Section(m, "dual_stage"), "enabled", Bool(false)))
  }

  /** The sampling steps: `high_quality_steps` overrides `steps` in high quality mode. */
  function Steps(m: map<string, Value>): Value
  {
    var steps := Get(m, "steps", Int(50));
    if Get(m, "quality_mode", Str("standard")) == Str("high") then Get(m, "high_quality_steps", steps) else steps
  }

  // The other parameters the graph reads, each with its built-in fallback.

  function Seed(m: map<string, Value>): Value            { Get(m, "seed", Int(42)) }
  function Cfg(m: map<string, Value>): Value             { Get(m, "cfg", Num("7.0")) }
  function DualPassCfg(m: map<string, Value>): Value     { Get(m, "dual_pass_cfg", Num("3.5")) }
  function Width(m: map<string, Value>): Value           { Get(m, "width", Int(1280)) }
  function Height(m: map<string, Value>): Value          { Get(m, "height", Int(720)) }
  function Frames(m: map<string, Value>): Value          { Get(m, "frames", Int(81)) }
  function FrameRate(m: map<string, Value>): Value       { Get(m, "frame_rate", Int(24)) }
  function EncoderName(m: map<string, Value>): Value     { Get(m, "text_encoder_name", Str("umt5-xxl-enc-bf16.safetensors")) }
  function ModelName(m: map<string, Value>): Value       { Get(m, "model_name", Str("wan2.2_t2v_high_noise_14B_fp8_scaled.safetensors")) }
  function VaeName(m: map<string, Value>): Value         { Get(m, "vae_name", Str("Wan2_1_VAE_bf16.safetensors")) }
  function FilenamePrefix(m: map<string, Value>): Value  { Get(m, "filename_prefix", Str("wan_output")) }
  function NegativePrompt(m: map<string, Value>): Value  { Get(m, "negative_prompt", Str("")) }
  function StageOneScheduler(m: map<string, Value>): Value { Get(Section(m, "schedulers"), "stage_one", Str("euler")) }
  function StageTwoScheduler(m: map<string, Value>): Value { Get(Section(m, "schedulers"), "stage_two", Str("beta")) }
  function StageOneSteps(m: map<string, Value>): Value   { Get(Section(m, "dual_stage"), "stage_one_steps", Steps(m)) }
  function StageTwoSteps(m: map<string, Value>): Value   { Get(Section(m, "dual_stage"), "stage_two_steps", Steps(m)) }
  function Denoise(m: map<string, Value>): Value         { Get(Section(m, "dual_stage"), "denoise", Num("0.45")) }

  /** Node `n` holds `v` as its input `key`. */
  predicate Carries(n: Node, key: string, v: Value)
  {
    key in n.settings && n.settings[key] == v
  }

  // ---------------------------------------------------------------------
  // Nodes. Each node is built by a method, so that the callers reason only
  // about what its contract says and never about its literal inputs.

  /** Node 1: the cached text encoder holding the positive and negative prompts. */
  method TextEncoderNode(prompt: string, m: map<string, Value>) returns (n: Node)
    ensures n.classType == "WanVideoTextEncodeCached" && n.links == map[]
    ensures Carries(n, "positive_prompt", Str(prompt))
    ensures Carries(n, "negative_prompt", NegativePrompt(m))
    ensures Carries(n, "model_name", EncoderName(m))
  {
    n := Node("WanVideoTextEncodeCached", map[], map[
      "model_name" := EncoderName(m),
      "precision" := Str("bf16"),
      "positive_prompt" := Str(prompt),
      "negative_prompt" := NegativePrompt(m),
      "quantization" := Str("disabled"),
      "use_disk_cache" := Bool(true),
      "device" := Str("gpu")]);
  }

  /** Node 2: the diffusion model loader. */
  method ModelLoaderNode(m: map<string, Value>) returns (n: Node)
    ensures n.classType == "WanVideoModelLoader" && n.links == map[]
    ensures Carries(n, "model", ModelName(m))
  {
    n := Node("WanVideoModelLoader", map[], map[
      "model" := ModelName(m),
      "base_precision" := Str("bf16"),
      "quantization" := Str("fp8_e4m3fn_scaled"),
      "load_device" := Str("offload_device")]);
  }

  /** Node 3: the VAE loader. */
  method VaeLoaderNode(m: map<string, Value>) returns (n: Node)
    ensures n.classType == "WanVideoVAELoader" && n.links == map[]
    ensures Carries(n, "model_name", VaeName(m))
  {
    n := Node("WanVideoVAELoader", map[], map[
      "model_name" := VaeName(m),
      "precision" := Str("bf16")]);
  }

  /** Node 4: the empty video embeddings of the requested size and length. */
  method EmptyEmbedsNode(m: map<string, Value>) returns (n: Node)
    ensures n.classType == "WanVideoEmptyEmbeds" && n.links == map[]
    ensures Carries(n, "width", Width(m)) && Carries(n, "height", Height(m)) && Carries(n, "num_frames", Frames(m))
  {
    n := Node("WanVideoEmptyEmbeds", map[], map[
      "width" := Width(m),
      "height" := Height(m),
      "num_frames" := Frames(m)]);
  }

  /** A sampler's steps, guidance scale, seed and scheduler. */
  predicate SamplerSet(n: Node, steps: Value, cfg: Value, seed: Value, scheduler: Value)
  {
    Carries(n, "steps", steps) && Carries(n, "cfg", cfg) && Carries(n, "seed", seed) && Carries(n, "scheduler", scheduler)
  }

  /**
   * The links of a sampler: the model (node 2), the embeddings (node 4)
   * and the text embeddings (node 1), and for a second stage also the
   * samples of node `samples`.
   */
  function SamplerLinks(samples: Option<nat>): map<string, Link>
  {
    var links := map["model" := Link(2, 0), "image_embeds" := Link(4, 0), "text_embeds" := Link(1, 0)];
    if samples.Some? then links["samples" := Link(samples.value, 0)] else links
  }

  /**
   * A sampler reading the model (node 2), the embeddings (node 4) and the
   * text embeddings (node 1); a second stage also reads the samples of the
   * first stage and carries a denoise strength.
   */
  method SamplerNode(steps: Value, cfg: Value, seed: Value, scheduler: Value,
                     samples: Option<nat>, denoise: Option<Value>) returns (n: Node)
    ensures n.classType == "WanVideoSampler"
    ensures LinksTo(n, {1, 2, 4} + (if samples.Some? then {samples.value} else {}))
    ensures n.links == SamplerLinks(samples)
    ensures SamplerSet(n, steps, cfg, seed, scheduler)
    ensures denoise.Some? <==> "denoise_strength" in n.settings
    ensures denoise.Some? ==> n.settings["denoise_strength"] == denoise.value
  {
    var links := map["model" := Link(2, 0), "image_embeds" := Link(4, 0), "text_embeds" := Link(1, 0)];
    var settings := map[
      "steps" := steps,
      "cfg" := cfg,
      "shift" := Num("5.0"),
      "seed" := seed,
      "force_offload" := Bool(true),
      "scheduler" := scheduler,
      "riflex_freq_index" := Int(0)];
    if samples.Some? {
      links := links["samples" := Link(samples.value, 0)];
    }
    if denoise.Some? {
      settings := settings["denoise_strength" := denoise.value];
    }
    n := Node("WanVideoSampler", links, settings);
  }

  /** The decode node, reading the samples of node `samplerKey` and the VAE (node 3). */
  method DecodeNode(samplerKey: nat) returns (n: Node)
    ensures n.classType == "WanVideoDecode"
    ensures LinksTo(n, {samplerKey, 3})
    ensures n.links == map["samples" := Link(samplerKey, 0), "vae" := Link(3, 0)]
  {
    n := Node("WanVideoDecode", map["samples" := Link(samplerKey, 0), "vae" := Link(3, 0)], map[
      "enable_vae_tiling" := Bool(false),
      "tile_x" := Int(272),
      "tile_y" := Int(272),
      "tile_stride_x" := Int(144),
      "tile_stride_y" := Int(128)]);
  }

  /** The video combine node, reading the images of node `decodeKey`. */
  method CombineNode(decodeKey: nat, m: map<string, Value>) returns (n: Node)
    ensures n.classType == "VHS_VideoCombine"
    ensures LinksTo(n, {decodeKey})
    ensures n.links == map["images" := Link(decodeKey, 0)]
    ensures Carries(n, "frame_rate", FrameRate(m)) && Carries(n, "filename_prefix", FilenamePrefix(m))
  {
    n := Node("VHS_VideoCombine", map["images" := Link(decodeKey, 0)], map[
      "frame_rate" := FrameRate(m),
      "loop_count" := Int(0),
      "filename_prefix" := FilenamePrefix(m),
      "format" := Str("video/h264-mp4"),
      "pingpong" := Bool(false),
      "save_output" := Bool(true)]);
  }

  // ---------------------------------------------------------------------
  // The graph

  /** The key of the sampler whose output is decoded: 6 with two stages, 5 with one. */
  function LastSamplerKey(dual: bool): nat
  {
    if dual then 6 else 5
  }

  /** The key of the decode node: 7 with two stages, 6 with one. */
  function DecodeKey(dual: bool): nat
  {
    if dual then 7 else 6
  }

  /** The key of the combine node: 8 with two stages, 7 with one. */
  function CombineKey(dual: bool): nat
  {
    if dual then 8 else 7
  }

  /** The sampler keys: 5 and 6 with two stages, 5 with one. */
  function SamplerKeys(dual: bool): set<nat>
  {
    if dual then {5, 6} else {5}
  }

  /**
   * Nodes 1 to 4 are the text encoder, the model loader, the VAE loader and
   * the empty embeddings, none of which reads another node.
   */
  predicate LoadersTyped(wf: Workflow)
  {
    && 1 in wf && 2 in wf && 3 in wf && 4 in wf
    && wf[1].links == map[] && wf[2].links == map[] && wf[3].links == map[] && wf[4].links == map[]
    && wf[1].classType == "WanVideoTextEncodeCached"
    && wf[2].classType == "WanVideoModelLoader"
    && wf[3].classType == "WanVideoVAELoader"
    && wf[4].classType == "WanVideoEmptyEmbeds"
  }

  /** A sampler with exactly the links `SamplerLinks(samples)`. */
  predicate SamplerWired(n: Node, samples: Option<nat>)
  {
    n.classType == "WanVideoSampler" && n.links == SamplerLinks(samples)
  }

  /**
   * The samplers are wired: the first (or only) stage reads no samples, and
   * a second stage refines the samples of the first.
   */
  predicate StagesWired(wf: Workflow, dual: bool)
  {
    && 5 in wf && SamplerWired(wf[5], None)
    && (dual ==> 6 in wf && SamplerWired(wf[6], Some(5)))
  }

  /** The shape every graph has, with one or two sampling stages. */
  predicate Shaped(wf: Workflow, dual: bool)
  {
    && wf.Keys == {1, 2, 3, 4} + SamplerKeys(dual) + {DecodeKey(dual), CombineKey(dual)}
    && Linked(wf)
    && LoadersTyped(wf)
    && StagesWired(wf, dual)
    && wf[DecodeKey(dual)].classType == "WanVideoDecode"
    && wf[DecodeKey(dual)].links == map["samples" := Link(LastSamplerKey(dual), 0), "vae" := Link(3, 0)]
    && wf[CombineKey(dual)].classType == "VHS_VideoCombine"
    && wf[CombineKey(dual)].links == map["images" := Link(DecodeKey(dual), 0)]
  }

  /** Nodes 1 to 4 hold the prompt, the model names and the embedding size read from `m`. */
  predicate LoadersSet(wf: Workflow, prompt: string, m: map<string, Value>)
  {
    && 1 in wf && 2 in wf && 3 in wf && 4 in wf
    && Carries(wf[1], "positive_prompt", Str(prompt))
    && Carries(wf[1], "negative_prompt", NegativePrompt(m))
    && Carries(wf[1], "model_name", EncoderName(m))
    && Carries(wf[2], "model", ModelName(m))
    && Carries(wf[3], "model_name", VaeName(m))
    && Carries(wf[4], "width", Width(m)) && Carries(wf[4], "height", Height(m)) && Carries(wf[4], "num_frames", Frames(m))
  }

  /**
   * The samplers hold the parameters read from `m`: one stage with the
   * common steps and no denoise strength, or a first stage with its own
   * steps and a second stage with its steps, guidance, scheduler and
   * denoise strength.
   */
  predicate StagesSet(wf: Workflow, m: map<string, Value>)
  {
    if DualStage(m) then
      && 5 in wf && 6 in wf
      && SamplerSet(wf[5], StageOneSteps(m), Cfg(m), Seed(m), StageOneScheduler(m))
      && "denoise_strength" !in wf[5].settings
      && SamplerSet(wf[6], StageTwoSteps(m), DualPassCfg(m), Seed(m), StageTwoScheduler(m))
      && Carries(wf[6], "denoise_strength", Denoise(m))
    else
      && 5 in wf
      && SamplerSet(wf[5], Steps(m), Cfg(m), Seed(m), StageOneScheduler(m))
      && "denoise_strength" !in wf[5].settings
  }

  /** The combine node holds the frame rate and the file name prefix read from `m`. */
  predicate OutputsSet(wf: Workflow, m: map<string, Value>, dual: bool)
  {
    CombineKey(dual) in wf
    && Carries(wf[CombineKey(dual)], "frame_rate", FrameRate(m))
    && Carries(wf[CombineKey(dual)], "filename_prefix", FilenamePrefix(m))
  }

  /** Every parameter the graph holds is the one read from `m`. */
  predicate Configured(wf: Workflow, prompt: string, m: map<string, Value>)
  {
    LoadersSet(wf, prompt, m) && StagesSet(wf, m) && OutputsSet(wf, m, DualStage(m))
  }

  /** Nodes 1 to 4: the loaders and the empty embeddings, which read no other node. */
  method Loaders(prompt: string, m: map<string, Value>) returns (wf: Workflow)
    ensures wf.Keys == {1, 2, 3, 4} && Linked(wf)
    ensures LoadersTyped(wf)
    ensures LoadersSet(wf, prompt, m)
  {
    var encoder := TextEncoderNode(prompt, m);
    var loader := ModelLoaderNode(m);
    var vae := VaeLoaderNode(m);
    var embeds := EmptyEmbedsNode(m);
    wf := map[1 := encoder, 2 := loader, 3 := vae, 4 := embeds];
    forall k | k in wf ensures LinksBelow(wf[k], wf, k) {
      assert LinksTo(wf[k], {});
    }
  }

  /**
   * Adds the samplers to the loaders: one with the common steps, or a first
   * stage and a second stage that refines the first stage's samples.
   */
  method AddSamplers(wf: Workflow, m: map<string, Value>) returns (wf': Workflow)
    requires wf.Keys == {1, 2, 3, 4} && Linked(wf)
    ensures wf'.Keys == wf.Keys + SamplerKeys(DualStage(m)) && Linked(wf')
    ensures forall k :: k in wf ==> wf'[k] == wf[k]
    ensures StagesWired(wf', DualStage(m))
    ensures StagesSet(wf', m)
  {
    if DualStage(m) {
      wf' := AddTwoStages(wf, m);
    } else {
      wf' := AddOneStage(wf, m);
    }
  }

  /** One sampler (node 5) with the common steps and the first scheduler. */
  method AddOneStage(wf: Workflow, m: map<string, Value>) returns (wf': Workflow)
    requires wf.Keys == {1, 2, 3, 4} && Linked(wf)
    ensures wf'.Keys == {1, 2, 3, 4, 5} && Linked(wf')
    ensures forall k :: k in wf ==> wf'[k] == wf[k]
    ensures SamplerWired(wf'[5], None)
    ensures SamplerSet(wf'[5], Steps(m), Cfg(m), Seed(m), StageOneScheduler(m))
    ensures "denoise_strength" !in wf'[5].settings
  {
    var only := SamplerNode(Steps(m), Cfg(m), Seed(m), StageOneScheduler(m), None, None);
    AddNodeLinked(wf, 5, only, {1, 2, 4});
    wf' := wf[5 := only];
  }

  /**
   * Two samplers: node 5 with the first stage's steps and scheduler, and
   * node 6 refining node 5's samples with the second stage's steps,
   * scheduler, guidance and denoise strength.
   */
  method AddTwoStages(wf: Workflow, m: map<string, Value>) returns (wf': Workflow)
    requires wf.Keys == {1, 2, 3, 4} && Linked(wf)
    ensures wf'.Keys == {1, 2, 3, 4, 5, 6} && Linked(wf')
    ensures forall k :: k in wf ==> wf'[k] == wf[k]
    ensures SamplerWired(wf'[5], None) && SamplerWired(wf'[6], Some(5))
    ensures SamplerSet(wf'[5], StageOneSteps(m), Cfg(m), Seed(m), StageOneScheduler(m))
    ensures "denoise_strength" !in wf'[5].settings
    ensures SamplerSet(wf'[6], StageTwoSteps(m), DualPassCfg(m), Seed(m), StageTwoScheduler(m))
    ensures Carries(wf'[6], "denoise_strength", Denoise(m))
  {
    var first := SamplerNode(StageOneSteps(m), Cfg(m), Seed(m), StageOneScheduler(m), None, None);
    AddNodeLinked(wf, 5, first, {1, 2, 4});
    var second := SamplerNode(StageTwoSteps(m), DualPassCfg(m), Seed(m), StageTwoScheduler(m), Some(5), Some(Denoise(m)));
    AddNodeLinked(wf[5 := first], 6, second, {1, 2, 4, 5});
    wf' := wf[5 := first][6 := second];
  }

  /**
   * The graph for already merged parameters `m` whose sections are
   * mappings: three loader nodes and the empty embeddings, one or two samplers, a decode node reading
   * the last sampler and a combine node reading the decode node, each
   * holding the parameters read from `m`.
   */
  method Graph(prompt: string, m: map<string, Value>) returns (wf: Workflow)
    ensures Shaped(wf, DualStage(m))
    ensures Configured(wf, prompt, m)
  {
    wf := Loaders(prompt, m);
    wf := AddSamplers(wf, m);
    wf := AddOutputs(wf, m, DualStage(m));
  }

  /** Adds the decode node reading the last sampler and the combine node reading it. */
  method AddOutputs(wf: Workflow, m: map<string, Value>, dual: bool) returns (wf': Workflow)
    requires wf.Keys == {1, 2, 3, 4} + SamplerKeys(dual) && Linked(wf)
    ensures wf'.Keys == wf.Keys + {DecodeKey(dual), CombineKey(dual)} && Linked(wf')
    ensures forall k :: k in wf ==> wf'[k] == wf[k]
    ensures wf'[DecodeKey(dual)].classType == "WanVideoDecode"
    ensures wf'[DecodeKey(dual)].links == map["samples" := Link(LastSamplerKey(dual), 0), "vae" := Link(3, 0)]
    ensures wf'[CombineKey(dual)].classType == "VHS_VideoCombine"
    ensures wf'[CombineKey(dual)].links == map["images" := Link(DecodeKey(dual), 0)]
    ensures OutputsSet(wf', m, dual)
  {
    var decode := DecodeNode(LastSamplerKey(dual));
    AddNodeLinked(wf, DecodeKey(dual), decode, {LastSamplerKey(dual), 3});
    var combine := CombineNode(DecodeKey(dual), m);
    AddNodeLinked(wf[DecodeKey(dual) := decode], CombineKey(dual), combine, {DecodeKey(dual)});
    wf' := wf[DecodeKey(dual) := decode][CombineKey(dual) := combine];
  }

  /** Why `build_wan_workflow` raises, if it does, checked in the order the code meets them. */
  function WanError(kwargs: map<string, Value>, presets: map<string, map<string, Value>>,
                    defaults: map<string, Value>): Option<Error>
  {
    var m := MergeParams(kwargs, presets, defaults);
    if UnhashablePreset(kwargs) then Some(TypeError("preset"))
    else if BadSection(m, "schedulers") then Some(AttributeError("schedulers"))
    else if BadSection(m, "dual_stage") then Some(AttributeError("dual_stage"))
    else None
  }

  /** The graph `build_wan_workflow` returns: shaped, and holding the merged parameters. */
  predicate Built(wf: Workflow, prompt: string, kwargs: map<string, Value>,
                  presets: map<string, map<string, Value>>, defaults: map<string, Value>)
  {
    var m := MergeParams(kwargs, presets, defaults);
    Shaped(wf, DualStage(m)) && Configured(wf, prompt, m)
  }

  /** A nested section by layers: the resolved value when it is a mapping, else empty. */
  function ResolvedSection(name: string, kwargs: map<string, Value>,
                           presets: map<string, map<string, Value>>, defaults: map<string, Value>)
    : map<string, Value>
  {
    var v := Resolve(name, Dict(map[]), kwargs, presets, defaults);
    if v.Dict? then v.entries else map[]
  }

  /**
   * The sampling steps by layers: `steps` (fallback 50), replaced by
   * `high_quality_steps` when `quality_mode` resolves to "high".
   */
  function ResolvedSteps(kwargs: map<string, Value>, presets: map<string, map<string, Value>>,
                         defaults: map<string, Value>): Value
  {
    var steps := Resolve("steps", Int(50), kwargs, presets, defaults);
    if Resolve("quality_mode", Str("standard"), kwargs, presets, defaults) == Str("high")
    then Resolve("high_quality_steps", steps, kwargs, presets, defaults)
    else steps
  }

  /** A section of the merged parameters is the section resolved layer by layer. */
  lemma MergedSectionResolves(name: string, kwargs: map<string, Value>,
                              presets: map<string, map<string, Value>>, defaults: map<string, Value>)
    ensures Section(MergeParams(kwargs, presets, defaults), name) == ResolvedSection(name, kwargs, presets, defaults)
  {
    MergedGetResolves(name, Dict(map[]), kwargs, presets, defaults);
  }

  /** The merged steps are the steps resolved layer by layer. */
  lemma MergedStepsResolve(kwargs: map<string, Value>, presets: map<string, map<string, Value>>,
                           defaults: map<string, Value>)
    ensures Steps(MergeParams(kwargs, presets, defaults)) == ResolvedSteps(kwargs, presets, defaults)
  {
    var steps := Resolve("steps", Int(50), kwargs, presets, defaults);
    MergedGetResolves("steps", Int(50), kwargs, presets, defaults);
    MergedGetResolves("quality_mode", Str("standard"), kwargs, presets, defaults);
    MergedGetResolves("high_quality_steps", steps, kwargs, presets, defaults);
  }

  /**
   * What the graph holds, parameter by parameter, as the layers resolve
   * it: argument, preset, configuration default, fallback.
   */
  predicate ResolvedParams(wf: Workflow, prompt: string, kwargs: map<string, Value>,
                           presets: map<string, map<string, Value>>, defaults: map<string, Value>)
  {
    var dual := DualStage(MergeParams(kwargs, presets, defaults));
    var steps := ResolvedSteps(kwargs, presets, defaults);
    var stages := ResolvedSection("dual_stage", kwargs, presets, defaults);
    && {1, 4, 5, CombineKey(dual)} <= wf.Keys && (dual ==> 6 in wf)
    && Carries(wf[1], "positive_prompt", Str(prompt))
    && Carries(wf[4], "width", Resolve("width", Int(1280), kwargs, presets, defaults))
    && Carries(wf[4], "height", Resolve("height", Int(720), kwargs, presets, defaults))
    && Carries(wf[4], "num_frames", Resolve("frames", Int(81), kwargs, presets, defaults))
    && Carries(wf[5], "seed", Resolve("seed", Int(42), kwargs, presets, defaults))
    && Carries(wf[5], "cfg", Resolve("cfg", Num("7.0"), kwargs, presets, defaults))
    && Carries(wf[CombineKey(dual)], "frame_rate", Resolve("frame_rate", Int(24), kwargs, presets, defaults))
    && (!dual ==> Carries(wf[5], "steps", steps))
    && (dual ==>
          && Carries(wf[5], "steps", Get(stages, "stage_one_steps", steps))
          && Carries(wf[6], "steps", Get(stages, "stage_two_steps", steps))
          && Carries(wf[6], "seed", Resolve("seed", Int(42), kwargs, presets, defaults)))
  }

  /** A built graph holds the parameters as the layers resolve them. */
  lemma BuiltResolves(wf: Workflow, prompt: string, kwargs: map<string, Value>,
                      presets: map<string, map<string, Value>>, defaults: map<string, Value>)
    requires Built(wf, prompt, kwargs, presets, defaults)
    ensures ResolvedParams(wf, prompt, kwargs, presets, defaults)
  {
    MergedGetResolves("seed", Int(42), kwargs, presets, defaults);
    MergedGetResolves("cfg", Num("7.0"), kwargs, presets, defaults);
    MergedGetResolves("width", Int(1280), kwargs, presets, defaults);
    MergedGetResolves("height", Int(720), kwargs, presets, defaults);
    MergedGetResolves("frames", Int(81), kwargs, presets, defaults);
    MergedGetResolves("frame_rate", Int(24), kwargs, presets, defaults);
    MergedStepsResolve(kwargs, presets, defaults);
    MergedSectionResolves("dual_stage", kwargs, presets, defaults);
  }

  /**
   * `build_wan_workflow(prompt, **kwargs)`, with the configuration's presets
   * and defaults as inputs. Every parameter the graph holds is the one the
   * layers resolve to: argument, preset, configuration default, fallback.
   */
  method BuildWanWorkflow(prompt: string, kwargs: map<string, Value>,
                          presets: map<string, map<string, Value>>,
                          defaults: map<string, Value>) returns (r: Result<Workflow>)
    ensures WanError(kwargs, presets, defaults).Some? ==> r == Err(WanError(kwargs, presets, defaults).value)
    ensures WanError(kwargs, presets, defaults).None? ==> r.Ok?
    ensures r.Ok? ==> Built(r.value, prompt, kwargs, presets, defaults)
    ensures r.Ok? ==> ResolvedParams(r.value, prompt, kwargs, presets, defaults)
  {
    var error := WanError(kwargs, presets, defaults);
    if error.Some? {
      return Err(error.value);
    }
    var m := MergeParams(kwargs, presets, defaults);
    var wf := Graph(prompt, m);
    BuiltResolves(wf, prompt, kwargs, presets, defaults);
    return Ok(wf);
  }
}
