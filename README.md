# dmovie2511 automation core in Dafny

This project models the Python automation package that drives a ComfyUI
render server to make text-to-video clips with the Wan 2.2 model. It
covers the package's own logic; everything the package does against the
outside world is an input or is left out. The model covers five parts.

- **Prompt enrichment** (`enrich_prompt`):
  - the prompt is stripped, or replaced by a default subject;
  - seven descriptors are picked by a code-point checksum;
  - seven sentences are joined;
  - a filler sentence is appended until there are 80 words;
  - the result is cut to 120 words.
- **The render graph** (`build_wan_workflow`):
  - when a truthy `preset` argument is given, the configuration defaults, that preset and the caller's arguments are merged, with later layers winning; without one, the caller's arguments are used alone;
  - each parameter takes a built-in fallback;
  - the emitted graph has three loader nodes and an empty-embeddings node, one or two sampler stages, a decode node and a combine node;
  - every link points to an earlier node.
- **Generation bookkeeping** (`generate_video`, `generate_templates`):
  - the mode is dispatched: `wan`, a configured template, or an empty graph;
  - the prompt is logged under its digest;
  - each job appends three event records (`queue_start`, `queued`, `completed`) to an append-only log;
  - templates are run one after another and stop at the first failure.
- **The configuration accessors** (`load_config`, `load_*`, `load_templates`):
  - a missing section reads as an empty mapping;
  - every template is laid over the defaults.
- **The command line** (`main`):
  - the command is selected;
  - `--preset` is extracted;
  - the `--schedule`/`--no-schedule` flags are stripped, and the last one wins;
  - the first argument is split into prompt keys at `||`, and each key is resolved against the prompts and then the templates;
  - the `scheduled` command's preset-filter scan is modelled;
  - `render` is handled.

  `main` returns the action it would perform as a value.

Python behaviour is written out explicitly:
- truthiness;
- `dict.get` with defaults;
- `dict.update`, where the right side wins;
- `str.split()` on Unicode whitespace;
- `str.strip()`;
- `str.split("||")`;
- `list.index`.

The exceptions the code raises (`KeyError`, `IndexError`, `AttributeError`, `TypeError`) become `Err` results.

Modules:
- `Values` (values.dfy): dynamic values, errors, results.
- `Text` (text.dfy): Python string operations.
- `Enrich` (enrich.dfy).
- `WanWorkflow` (workflow.dfy).
- `Config` (config.dfy).
- `Generation` (generation.dfy): includes the `Ledger` class, the event log appended in place.
- `Cli` (cli.dfy).

`automation/cli.py:6-12` imports `pending_scheduled_jobs` and `run_scheduled_jobs` from `automation/core.py`, but that file defines neither. `import automation.cli` therefore raises `ImportError`, and `main` as written never runs. The `Cli` module models `main` as if that import succeeded, and has:
- no scheduler;
- as its log, the three records per job that `generate_video` writes;
- the pending jobs as an input of the `scheduled` command.

`batch_generate` (automation/core.py:333-335) runs its jobs concurrently with `asyncio.gather` (see "Left out").

## Model

| member | source | states |
|---|---|---|
| Values.NonFiniteTruthy | automation/core.py:211 | the YAML floats `.inf`, `-.Inf` and `.NaN` are truthy, so they enable the dual stage |
| Values.FractionTruthy | automation/core.py:211 | a fraction with a zero integer part such as `0.45` is truthy |
| Values.ZeroFalsy | automation/core.py:211 | a zero with an exponent such as `0.0e+5` is falsy |
| Text.Words | automation/core.py:100 | `split()` yields only non-empty pieces free of whitespace |
| Text.WordsOfSpaceConcat | automation/core.py:101-103 | splitting `prompt + " " + filler` yields the words of `prompt` followed by those of `filler`, so each padding step appends exactly the filler's words |
| Text.WordsOfJoin | automation/core.py:104-105 | splitting a single-space join of words gives back exactly those words, so the 120-word cut has exactly 120 words |
| Text.TrimStart | automation/core.py:81 | `lstrip` removes exactly the leading whitespace: the result is a suffix, everything removed is whitespace, and it does not start with whitespace |
| Text.TrimEnd | automation/core.py:81 | `rstrip` removes exactly the trailing whitespace, symmetrically |
| Text.StripShape | automation/core.py:81 | a stripped text is empty or starts and ends with a non-whitespace character |
| Text.StripIdempotent | automation/core.py:81 | stripping twice is stripping once |
| Text.SplitBarsJoin | automation/cli.py:63 | joining the `split("||")` pieces with `\|\|` rebuilds the argument (round trip) |
| Text.SplitBarsFirstPrefix | automation/cli.py:63 | the first prompt key is a prefix of the argument |
| Text.SplitBarsPiecesFree | automation/cli.py:63 | no prompt key contains `\|\|` |
| Text.SplitBarsLeftmost | automation/cli.py:63 | the split is leftmost: no prompt key but the last ends with `\|`, so each separator is the first `\|\|` after the previous one |
| Text.SplitBarsUnique | automation/cli.py:63 | keys that join back to the argument, contain no `\|\|` and, but for the last, do not end with `\|` are exactly the `split("\|\|")` pieces |
| Enrich.PickDescriptor | automation/core.py:75-77 | the picked descriptor is an entry of the table |
| Enrich.CodePointSumAppend | automation/core.py:71-72 | the checksum of a concatenation is the sum of the checksums |
| Enrich.CodePointSumOrderFree | automation/core.py:71-72 | the checksum depends only on the multiset of characters |
| Enrich.AnagramsPickAlike | automation/core.py:71-77 | two subjects that are anagrams get the same descriptor at every offset |
| Enrich.Subject | automation/core.py:81 | the subject is the stripped prompt, or the default subject when that is empty |
| Enrich.FillFramed | automation/core.py:89-97 | a filled sentence opens with its frame's opening text and closes with its closing text, and what lies between is the slot (round trip) |
| Enrich.Segments | automation/core.py:82-97 | there is one sentence per frame, seven in all |
| Enrich.SegmentsFramed | automation/core.py:89-97 | each sentence is framed by its frame's text, and the first one carries the subject |
| Enrich.Filler | automation/core.py:99 | the filler sentence splits into exactly its twelve words |
| Enrich.HouseWellFormed | automation/core.py:13-54 | the package's tables are all non-empty, there are seven sentence frames, and the filler has twelve words |
| Enrich.Pad | automation/core.py:100-103 | padding reaches at least 80 words and stops within one filler of 80; it keeps a prompt that already has 80 words unchanged, and the prompt's words stay a prefix |
| Enrich.PadWords | automation/core.py:100-103 | the padded prompt's words are the prompt's words followed by exactly `Copies` copies of the filler's words: none from 80 words on, otherwise the fewest copies that reach 80 |
| Enrich.EnrichWith | automation/core.py:80-106 | the enriched prompt has between 80 and 120 words |
| Enrich.EnrichedPrompt | automation/core.py:80-106 | `enrich_prompt` with the package's tables yields 80 to 120 words |
| Enrich.EnrichedOpensWithSentences | automation/core.py:89-106 | the result opens with the words of the seven sentences, as many as fit in 120 |
| Enrich.EnrichedIgnoresSurroundingSpace | automation/core.py:81 | whitespace around the caller's prompt does not change the result |
| Enrich.BlankPromptUsesDefault | automation/core.py:81 | a blank prompt is enriched as the default subject |
| Enrich.EnrichPrompt | automation/core.py:80-106 | the padding loop and the cut produce `EnrichWith` of the prompt, with 80 to 120 words |
| WanWorkflow.AddNodeLinked | automation/core.py:173-289 | adding a node whose links name existing, lower-numbered nodes keeps every link of the graph pointing backwards to an existing node |
| WanWorkflow.MergePrecedence | automation/core.py:140-148 | without a preset, the arguments are used as given; with one, a key is present when any layer has it, and the arguments win over the preset, which wins over the defaults |
| WanWorkflow.MergedGetResolves | automation/core.py:140-159 | reading a merged parameter with a fallback is the layer-by-layer resolution: argument, then preset, then default, then fallback |
| WanWorkflow.MergedSectionResolves | automation/core.py:165-168 | a nested section of the merged parameters (`schedulers`, `dual_stage`) is that section resolved layer by layer, or empty when it is not a mapping |
| WanWorkflow.MergedStepsResolve | automation/core.py:150-153 | the merged steps are `steps` resolved by layers (fallback 50), replaced by `high_quality_steps` when `quality_mode` resolves to `high` |
| WanWorkflow.BuiltResolves | automation/core.py:149-289 | every built graph holds the prompt, size, frames, seed, cfg, frame rate and steps (with the stage overrides) as the layers resolve them |
| WanWorkflow.TextEncoderNode | automation/core.py:174-185 | the text encoder node carries the prompt, the negative prompt (fallback empty) and the encoder name, and has no links |
| WanWorkflow.ModelLoaderNode | automation/core.py:186-194 | the model loader carries the model name (with its fallback) and has no links |
| WanWorkflow.VaeLoaderNode | automation/core.py:195-201 | the VAE loader carries the VAE name (with its fallback) and has no links |
| WanWorkflow.EmptyEmbedsNode | automation/core.py:202-209 | the embeddings node carries width, height and frame count with fallbacks 1280, 720 and 81, and has no links |
| WanWorkflow.SamplerNode | automation/core.py:212-262 | a sampler's links are exactly `model`, `image_embeds` and `text_embeds` to nodes 2, 4 and 1, plus `samples` only for a second stage; only a second stage carries a denoise strength |
| WanWorkflow.DecodeNode | automation/core.py:266-277 | the decode node's links are exactly `samples` from the last sampler and `vae` from node 3 |
| WanWorkflow.CombineNode | automation/core.py:278-289 | the combine node's only link is `images` from the decode node; it carries the frame rate (fallback 24) and the filename prefix |
| WanWorkflow.Loaders | automation/core.py:173-210 | nodes 1 to 4 form a linked graph, and none of them has any link; they are a `WanVideoTextEncodeCached`, a `WanVideoModelLoader`, a `WanVideoVAELoader` and a `WanVideoEmptyEmbeds` node; node 1 carries the prompt, the negative prompt (fallback empty) and the encoder name, node 2 the model name, node 3 the VAE name, and node 4 width, height and frames, each with its fallback |
| WanWorkflow.AddSamplers | automation/core.py:211-265 | one or two samplers are added, as `dual_stage.enabled` says; each is a `WanVideoSampler` whose links are exactly `model` from node 2, `image_embeds` from node 4 and `text_embeds` from node 1, plus node 5's `samples` for the second stage only, so the first or only stage reads no samples; they carry the stage parameters `AddOneStage` and `AddTwoStages` state; the earlier nodes are unchanged |
| WanWorkflow.AddOneStage | automation/core.py:247-265 | node 5 is a sampler whose links are exactly nodes 2, 4 and 1 as its model, image embeddings and text embeddings (no samples); it carries the common steps (fallback 50, `high_quality_steps` in high quality mode), cfg (fallback 7.0), the seed (fallback 42) and the `stage_one` scheduler (fallback euler), and no denoise; the earlier nodes are unchanged |
| WanWorkflow.AddTwoStages | automation/core.py:211-246 | nodes 5 and 6 are samplers linked to nodes 2, 4 and 1 as their model, image embeddings and text embeddings; node 5 has no other link, and node 6 has only node 5's `samples` besides; node 5 carries `stage_one_steps` (falling back to the common steps), cfg, the seed and the `stage_one` scheduler; node 6 reads node 5's samples and carries `stage_two_steps`, `dual_pass_cfg` (fallback 3.5), the seed, the `stage_two` scheduler (fallback beta) and the denoise strength (fallback 0.45); the earlier nodes are unchanged |
| WanWorkflow.AddOutputs | automation/core.py:266-289 | the decode and combine nodes get keys 6/7 or 7/8 and link backwards; the decode node's links are exactly the last sampler's samples and the VAE of node 3, and the combine node's only link is the decode node's images; the combine node carries the frame rate (fallback 24) and the filename prefix (fallback `wan_output`); the earlier nodes are unchanged |
| WanWorkflow.Graph | automation/core.py:149-290 | the graph has its full shape and is linked: the node keys, every node's class type, and every node's exact link map (nodes 1-4 none; each sampler nodes 2, 4 and 1, and the second stage also node 5; the decode node the last sampler and node 3; the combine node the decode node), so no other link exists; and every node parameter is the merged parameter with its fallback, as the loader, stage and output rows state |
| WanWorkflow.BuildWanWorkflow | automation/core.py:139-290 | it fails with `TypeError` on an unhashable preset, and with `AttributeError` on a `schedulers` or `dual_stage` section that is not a mapping, in that order; otherwise the graph has the full shape and wiring `Graph` states, is configured, and the prompt, width, height, frames, seed, cfg, frame rate and steps (fallback 50, `high_quality_steps` in high quality mode, the `dual_stage` stage overrides) are the layered resolution of each parameter |
| Config.SectionOf | automation/workflows.py:7-14 | an empty or null document gives empty sections; a missing section is empty; a document that is not a mapping fails with `AttributeError` |
| Config.EmptyDocumentSections | automation/workflows.py:7-39 | with an empty document every accessor yields an empty mapping |
| Config.AddCompleted | automation/workflows.py:53-55 | a copy of the defaults updated with a template's values completes that template |
| Config.CompleteAll | automation/workflows.py:51-55 | it yields one entry per template, in order, each the template's values laid over the defaults; with no templates it yields an empty table whatever the defaults are; it succeeds exactly when the defaults are a mapping (or there are no templates) and every template is; otherwise it fails with `TypeError` on the defaults, or on the first template that is not a mapping |
| Config.LoadTemplates | automation/workflows.py:47-56 | the same, read from the document, with the accessor errors first |
| Generation.Ledger.Write | automation/core.py:63-68 | a write appends one record and changes nothing else |
| Generation.PrepareJob | automation/core.py:295-309 | it fails exactly as `.strip` on a non-string template prompt or `build_wan_workflow` would; the used prompt is the caller's or the template's; an unknown mode gives an empty graph; otherwise the graph is built (shaped and wired as `WanWorkflow.Graph` states, linked and configured) from the template's and caller's arguments for the enriched used prompt, so it holds their resolved parameters (`WanWorkflow.BuiltResolves`) |
| Generation.BuildForPrompt | automation/core.py:299-307 | the graph is built, shaped and wired as `WanWorkflow.Graph` states, linked and configured, from the given arguments for the enriched text, with the same errors as `build_wan_workflow` |
| Generation.Trail | automation/core.py:310-321 | one job's records are start (with the word count), queued and completed (with the prompt id), all under one mode, preset and digest |
| Generation.GenerateVideo | automation/core.py:293-322 | it fails exactly when preparing fails, and then logs and queues nothing; otherwise it appends the job's three records, returns the history, and the graph it hands to `queue_prompt` (line 314) is the job's graph: empty for an unknown mode, otherwise the graph built (as `PrepareJob` states) for the enriched used prompt |
| Generation.KnownTemplates | automation/core.py:326 | only template names are selected |
| Generation.KnownTemplatesMembers | automation/core.py:326 | a name is selected exactly when it is given and is a template |
| Generation.KnownTemplatesOfConcat | automation/core.py:326 | selection keeps the given order: it distributes over concatenation |
| Generation.SelectAllTemplates | automation/core.py:326 | without names, every template is selected |
| Generation.Trails | automation/core.py:328-329 | the first n jobs of a run leave three records per job, the last three being the n-th job's trail |
| Generation.Histories | automation/core.py:327-330 | the i-th result is the i-th job's history |
| Generation.GenerateTemplate | automation/core.py:329 | one template job appends its trail, or fails and logs nothing |
| Generation.GenerateSelected | automation/core.py:327-330 | either every job prepares and succeeds, giving the histories in order and one trail per job, or it stops at the first failing job: every earlier job prepared, and only their trails are logged |
| Generation.PreparedAll | automation/core.py:327-330 | the first `n` jobs of a run prepare without error exactly when each of them does |
| Generation.GenerateTemplates | automation/core.py:325-330 | the same, over all templates in order or over the given names that are templates: on failure the failing job is the first one, and every earlier job prepared |
| Cli.CommandNamedInverse | automation/cli.py:24 | command words and commands correspond one to one |
| Cli.SelectCommand | automation/cli.py:23-29 | a leading command word is the command and the rest are its arguments; otherwise the command is `automate` with every word |
| Cli.IndexOf | automation/cli.py:45 | the position is the first occurrence |
| Cli.ExtractPreset | automation/cli.py:43-47 | it fails with `IndexError` exactly when the first `--preset` is the last word; otherwise the preset is the word after the first `--preset`, and both are removed; putting them back at the first `--preset`'s position rebuilds the arguments (round trip) |
| Cli.StripSchedule | automation/cli.py:49-59 | the loop keeps the non-flag words and the last flag's value |
| Cli.KeptWordsMembers | automation/cli.py:51-58 | no schedule flag is kept, and every other word is |
| Cli.KeptWordsConcat | automation/cli.py:51-58 | the kept words keep their order |
| Cli.ScheduleOverrideLastWins | automation/cli.py:49-61 | the override is `b` exactly when the last schedule flag asks for `b` |
| Cli.ScheduleOverrideNone | automation/cli.py:49-61 | there is no override exactly when no flag is given |
| Cli.Kwargs | automation/cli.py:48-61 | `preset` is passed only when non-empty; `use_schedule` only when a flag was given; nothing else is passed |
| Cli.PromptKeys | automation/cli.py:62-67 | the keys join back to the first argument, no key contains `\|\|` and no key but the last ends with `\|`, which by `Text.SplitBarsUnique` is exactly `split("\|\|")`; the tail is the rest; without arguments the key is the configured default (`KeyError` when missing) |
| Cli.TemplateTailFirst | automation/cli.py:73-77 | the mode a template key supplies is the first key that is not a prompt name, and there is none when every key is a prompt name |
| Cli.ResolvePrompts | automation/cli.py:68-78 | it fails exactly when some key is neither a prompt nor a template, with `KeyError` on the first such key; otherwise there is one prompt per key, a template key giving the empty prompt, and the tail comes from the first template key when it was empty |
| Cli.Automate | automation/cli.py:42-84 | each error in order (preset value, default key, unknown key); one prompt gives a single generation and several give a batch, with the mode and keyword arguments read from the command line |
| Cli.ScanPresetFilter | automation/cli.py:88-96 | the index-driven scan yields the front-to-back pairing of `--preset X` |
| Cli.PairedPresetSome | automation/cli.py:107-114 | a filter exists exactly when some `--preset` has a word after it |
| Cli.PairedPresetIgnoresLastWord | automation/cli.py:107-114 | a final `--preset` without a value is ignored |
| Cli.PairedPresetLastPairWins | automation/cli.py:107-114 | a final `--preset X` pair wins over earlier ones |
| Cli.MatchingMembers | automation/cli.py:98-99 | an entry is kept exactly when its preset is the filter |
| Cli.MatchingConcat | automation/cli.py:116-117 | filtering keeps the entries' order |
| Cli.FilteredMembers | automation/cli.py:97-99 | an entry is selected exactly when it is pending and the filter is missing, empty or its preset |
| Cli.ScheduledOutcome | automation/cli.py:85-128 | `--run-now` runs the selected entries, otherwise they are listed; the notice comes exactly when the filter selects no pending entry; otherwise the entries are exactly the pending entries the filter selects, in pending order |
| Cli.Scheduled | automation/cli.py:85-128 | the scan and filter compute the `scheduled` outcome |
| Cli.RenderOutcome | automation/cli.py:139-147 | the prompt named by the first argument is rendered to the next argument or `output.mp4`, `KeyError` when it names no prompt; without arguments the `script` default key's prompt is rendered to `output.mp4`, with `KeyError` on that key when it names no prompt, or on `script` when there is no default |
| Cli.Run | automation/cli.py:22-147 | each command's action: start the server, automate, scheduled, templates (names, or all when none are given), experiments, download, render |

## Left out

- `ComfyUIClient` (HTTP and websocket traffic with the render server): each job's server replies and clock readings are an `Exchange` input.
- Server failures: the waits and any exceptions they raise are not modelled.
- The SHA-256 prompt digest: it is the function parameter `digestOf`.
- `_write_log`: modelled as an append to `Ledger.records`. The file, its JSON encoding and the UTC clock are not modelled; the timestamps are inputs.
- `batch_generate`: its point is the concurrent `asyncio.gather` of `generate_video` calls, which is not modelled. `main` returns a `QueueBatch` action instead.
- The scheduler (`pending_scheduled_jobs`, `run_scheduled_jobs`): it is not part of this model, because `automation/core.py` does not define it. The pending entries are an input of `Cli.Scheduled`. The listing's text formatting (`print`) is not modelled; the entries to list are returned instead.
- `start-server`, `experiments` (automation/tracking.py), `download-models` (automation/models.py) and `render` (automation/script.py): returned as actions. The called code is not part of this model.
- YAML parsing: the parsed document is an input `Value`.
- Template order: the order in which the configuration lists the templates is an input of `Config.LoadTemplates`, because a Python dict keeps insertion order and a Dafny map does not.
- Numbers with a fractional part (`7.0`, `3.5`, `0.45`, `5.0`) are kept as their literal text, since the code only copies them. `round(elapsed, 2)` is part of the `Exchange` input.
- Graph keys: the graph's keys are the strings `"1"` to `"8"`. The model uses the numbers they spell, and a link `["2", 0]` is a `Link(2, 0)`.
- Generation.OutputNodes: the output node names are a set; the order of `list(outputs)` is not kept.
- Generation.Settings: the presets and defaults sections are typed as mappings from string names to mappings. Not modelled, therefore: a `presets` or `defaults` section that is not a mapping; a preset entry that is not a mapping (`presets: {fast: null}` makes `merged.update(None)` raise `TypeError` at automation/core.py:146, and a list of pairs is accepted there); and a preset name that is not a string (a YAML integer key is found by `presets.get(1, {})` at automation/core.py:143, but `WanWorkflow.PresetLayer` looks up string names only).
- Generation.Settings: the prompt style (descriptor tables, sentence frames, default subject, filler) is a parameter. `Enrich.House` holds the package's constants, and `Enrich.EnrichedPrompt` is `enrich_prompt` with them.
- Config.CompleteAll: `dict(defaults)` and `update(values)` also accept a list of pairs. The model treats any defaults or template value that is not a mapping as a `TypeError`.
- Values.Truthy: a number reads as true when it is `.inf` or `.nan`, or when its mantissa has a non-zero digit. So a non-zero mantissa whose exponent underflows to 0.0, such as `1.0e-400`, still reads as true; Python reads it as false.
- Cli.Run: the prompt map and the default keys are typed as string-to-string mappings, as `load_prompts` and `load_prompt_defaults` declare. The pending entries are mappings.
- Generation.GenerateTemplate: the graph each template job hands to `queue_prompt` is not returned; `Generation.GenerateVideo` states it for one job, and carrying it through the template run made the proofs too costly.
- Generation.GenerateSelected: the graphs the template jobs queue, one per job, are not returned or stated, for the same reason.
- Generation.GenerateTemplates: the graphs the template jobs queue are not returned or stated, for the same reason.
- Enrich.Segments: the contract, with `Enrich.SegmentsFramed`, states each sentence's framing and the first sentence's subject. It does not state which table entry fills each of the other six slots; `Enrich.PickDescriptor` only promises that the entry comes from its table.
