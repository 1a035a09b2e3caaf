# comfyBuildParams: a workflow turned into a parameter template

This project models how the StableSwarmUI ComfyUI workflow editor helper turns a
ComfyUI workflow into a parameter template. The workflow arrives as two graphs:

- the visual graph (nodes with titles and declared inputs, plus links);
- the execution graph, also called the API prompt (node id -> `{class_type, inputs}`).

`comfyBuildParams` makes three maps from the visual graph: the labels, the
redirects to titled `PrimitiveNode`s, and the positional input paths. It then
walks every node of the execution graph and applies the claim rules in order:

1. the `EmptyLatentImage` width/height pair;
2. the ten sampler claims;
3. the positive and negative prompt encoders;
4. the generic per-field rule.

Each claim rewrites the field in place into a placeholder. The two placeholder
forms are `%%_COMFYFIXME_${id[+seed]:value}_ENDFIXME_%%` and
`${id:escaped default}`. A claim may also register a parameter definition under
an id that is not yet taken. Finally the rewritten graph is serialised into the
hidden `comfyworkflowraw` parameter. `replaceParamsToComfy` then builds the
list the UI shows:

1. the raw parameter;
2. the server's retained defaults;
3. every generated parameter.

Files and modules:

- `text.dfy` (`Text`): prefix and substring tests, decimal rendering of ids, and
  the `${` → `(` / `}` → `)` escaping with its round trip.
- `graph.dfy` (`Graph`): the two input graphs, values, ordered node inputs, and
  `Env`, which holds the helpers this file calls but does not define.
- `classify.dfy` (`Classify`): `injectType`, the classification branches of
  `addParam`, the placeholder grammars and the group priority. These are pure
  functions.
- `registry.dfy` (`Registry`): parameter definitions and the collision loop of
  `addSimpleParam`.
- `annotate.dfy` (`Annotate`): the label, redirect and path maps. Each is the
  fold its loop performs.
- `rules.dfy` (`Rules`): the claim rules of the main loop as functions from
  the state they read and change to the new state, with the invariants they
  keep. `rule_facts.dfy` (`RuleFacts`) proves what each rule does.
- `builder.dfy` (`Builder`): the state shared by `comfyBuildParams`'s closure,
  as the class `ParamBuilder`. Its nested functions and loops are methods of
  that class that change the class fields in place. Each method is proved
  equal to the rule function of `Rules` on the state it changes.
- `assemble.dfy` (`Assemble`): the list built by `replaceParamsToComfy`.

Where the code does something other than the evident intent, the model follows
the code:

- The placeholder written by `claimOnce` (line 272) never carries `+seed`. So a
  claimed `seed` becomes `%%_COMFYFIXME_${seed:…}_ENDFIXME_%%`, not
  `${seed+seed:…}`. For a field fed by a primitive node, line 272 also
  overwrites the placeholder that `addParam` had just written.
- The width/height rule is not all-or-nothing. `&&` short-circuits, so a width
  claim that succeeded stays written when the height claim then fails.
- The prompt encoders get `${prompt}` / `${negativeprompt}`, with no default.
- The two-value dropdown branch (line 230) tests `inputId in [...]`. That test
  looks at the array's property names (`"0"`, `"1"`, `length`), not at its
  elements, so it never fires for `add_noise` or `return_with_leftover_noise`.
- `groups` (line 149) is never added to, so the renaming of lines 154-156
  never happens and two nodes with the same label share a group id.
- The loop at line 109 tests the title but pushes the id. The model keeps no
  de-duplication and requires `NoStaticLoop`, the condition under which that
  loop terminates.
- Line 278 pushes `aspectratio` without a membership test. So `retained` is
  free of duplicates except for `aspectratio`. It is pushed twice when a later
  `EmptyLatentImage` node has both width and height fed by primitive nodes:
  claims through a redirect do not consult `retained`, so that node's pair
  succeeds even after an earlier node claimed `width` and `height` by name.

## Model

| member | source | states |
|---|---|---|
| `Text.Escape` | src/BuiltinExtensions/ComfyUIBackend/Assets/comfy_workflow_editor_helper.js:240 | The escaped default contains no `}` and no `${`. |
| `Text.ReplaceDollarBrace` | src/BuiltinExtensions/ComfyUIBackend/Assets/comfy_workflow_editor_helper.js:240 | `replaceAll('${', '(')` leaves no `${` in its result. |
| `Text.ReplaceCloseBrace` | src/BuiltinExtensions/ComfyUIBackend/Assets/comfy_workflow_editor_helper.js:240 | `replaceAll('}', ')')` keeps the length and maps each `}` to `)`, position by position. |
| `Text.EscapeRoundTrip` | src/BuiltinExtensions/ComfyUIBackend/Assets/comfy_workflow_editor_helper.js:240 | For a default without `(` or `)`, mapping `(`→`${` and `)`→`}` rebuilds the original exactly. |
| `Text.ParenthesisIsNotRecovered` | src/BuiltinExtensions/ComfyUIBackend/Assets/comfy_workflow_editor_helper.js:272 | Without that condition the round trip fails: `(` comes back as `${`. |
| `Graph.SetInput` | src/BuiltinExtensions/ComfyUIBackend/Assets/comfy_workflow_editor_helper.js:279 | `node.inputs[key] = v`: the class is kept and the key gets the new value. An existing key keeps its place in the key order; a new key (as `batch_size` can be) is appended. The node's well-formedness is kept. |
| `Graph.SetInputTwice` | src/BuiltinExtensions/ComfyUIBackend/Assets/comfy_workflow_editor_helper.js:215-272 | A second write to an existing field overrides the first, as line 272 overrides what `addParam` wrote at line 215 or 240. |
| `Classify.InjectType` | src/BuiltinExtensions/ComfyUIBackend/Assets/comfy_workflow_editor_helper.js:167-172 | An id in the `comfyrawworkflowinput` namespace gets the type inserted right after the prefix, with its tail kept. Any other id is returned unchanged. The namespace is kept in both directions. |
| `Classify.InjectTypeInjective` | src/BuiltinExtensions/ComfyUIBackend/Assets/comfy_workflow_editor_helper.js:167-172 | For a fixed type, two different ids never inject to the same id. |
| `Classify.NumberKind` | src/BuiltinExtensions/ComfyUIBackend/Assets/comfy_workflow_editor_helper.js:174-213 | A numeric field is an integer exactly for seed/noise_seed, width/height and steps/start_at_step/end_at_step, and a decimal otherwise. Only seed and noise_seed are seed-capable. Ranges are non-empty and steps are positive. |
| `Classify.ClassifyField` | src/BuiltinExtensions/ComfyUIBackend/Assets/comfy_workflow_editor_helper.js:174-244 | `batch_size` is forced to 1 exactly when numeric. A value that is neither number nor string is left alone, and exactly those are. A string `SaveImage.filename_prefix`, or a string `ckpt_name` of `CheckpointLoaderSimple` node `'4'`, gets `${prefix:}` or `${model:error_missing_model}`. A registered string is `model` exactly for `CheckpointLoaderSimple.ckpt_name` (enumerating `allModels`), `dropdown` exactly for an own property of a pair on `KSamplerAdvanced` (enumerating enable/disable), and `text` otherwise, with view `big`, the default range and step 1. A registered number has the kind `NumberKind` gives. |
| `Classify.DropdownNeverForNamedFields` | src/BuiltinExtensions/ComfyUIBackend/Assets/comfy_workflow_editor_helper.js:230-238 | For `add_noise` / `return_with_leftover_noise` on `KSamplerAdvanced`, a string value is registered as free text with no enumeration. |
| `Classify.AddParamValue` | src/BuiltinExtensions/ComfyUIBackend/Assets/comfy_workflow_editor_helper.js:175-244 | A left-alone field keeps its value. Every other field becomes a placeholder, or 1 for `batch_size`. A registered numeric or text field opens with its own grammar. |
| `Classify.NumericPlaceholderShape` | src/BuiltinExtensions/ComfyUIBackend/Assets/comfy_workflow_editor_helper.js:215 | The numeric placeholder opens with `%%_COMFYFIXME_${` and then the id. Next comes `+seed:` when seed-capable, `:` otherwise. It closes with `}_ENDFIXME_%%`. |
| `Classify.StringPlaceholderShape` | src/BuiltinExtensions/ComfyUIBackend/Assets/comfy_workflow_editor_helper.js:240 | The text placeholder is `${`, the id, then `:`. Its final `}` is its only `}`, whatever the default held. |
| `Classify.ClaimText` | src/BuiltinExtensions/ComfyUIBackend/Assets/comfy_workflow_editor_helper.js:272 | The claim placeholder opens with the numeric or the text grammar, by the claim's kind, and is seen as a placeholder by the generic rule. |
| `Classify.GroupLabel` | src/BuiltinExtensions/ComfyUIBackend/Assets/comfy_workflow_editor_helper.js:152 | The group label is the node's label (or, when absent or empty, its class type) followed by exactly ` (Node <id>)`. |
| `Classify.GroupLabelPriority` | src/BuiltinExtensions/ComfyUIBackend/Assets/comfy_workflow_editor_helper.js:152-166 | A node whose label or class type contains "Prompt" gets priority −10; one containing "EmptyLatent" gets at most −7; one containing "KSampler" at most −5, whatever the ` (Node …)` suffix adds. |
| `Classify.GroupPriority` | src/BuiltinExtensions/ComfyUIBackend/Assets/comfy_workflow_editor_helper.js:157-166 | Priority is −10 exactly if the group label contains "Prompt". Otherwise it is −7 for "EmptyLatent", −5 for "KSampler", and 0 exactly when it contains none of the three. |
| `Registry.MakeParam` | src/BuiltinExtensions/ComfyUIBackend/Assets/comfy_workflow_editor_helper.js:69-95 | The definition carries the given name, default, id, type, values, view, range, step, visibility and toggle flag. It sorts at priority 5, is basic, is never saved and is not extra-hidden. Its group carries the given name, id and priority and is closed, basic, not togglable and never saved. The description is `The <name> input for <group name>` followed by ` (<type>)`. |
| `Registry.FreshId` | src/BuiltinExtensions/ComfyUIBackend/Assets/comfy_workflow_editor_helper.js:64-68 | The chosen id is not among the keys already taken. It is the base id itself, or base + `numberToLetters(k)` for the least `k` whose candidate is free. |
| `Registry.FreshChoiceUnique` | src/BuiltinExtensions/ComfyUIBackend/Assets/comfy_workflow_editor_helper.js:64-68 | The key picked by the collision loop depends only on the keys already taken. |
| `Registry.CandidatesCard` | src/BuiltinExtensions/ComfyUIBackend/Assets/comfy_workflow_editor_helper.js:66-67 | With an injective `numberToLetters`, the first n suffixed candidates are n distinct ids. This bounds the loop. |
| `Registry.TakenCandidatesBound` | src/BuiltinExtensions/ComfyUIBackend/Assets/comfy_workflow_editor_helper.js:66-67 | If n suffixed candidates are all taken, there are at least n keys. So the collision loop terminates. |
| `Registry.RegisteredKeepsRegistry` | src/BuiltinExtensions/ComfyUIBackend/Assets/comfy_workflow_editor_helper.js:69-95 | Registering adds exactly one key that was absent before and keeps every earlier entry. Each entry's `id` is its own key and the insertion order has no repeats. |
| `Annotate.TitleLabelsSound` | src/BuiltinExtensions/ComfyUIBackend/Assets/comfy_workflow_editor_helper.js:101-104 | Every first-pass label is the non-empty title of a visual node with that id. |
| `Annotate.TitleLabelsComplete` | src/BuiltinExtensions/ComfyUIBackend/Assets/comfy_workflow_editor_helper.js:101-104 | Every titled visual node gets a first-pass label. |
| `Annotate.RedirectsSound` | src/BuiltinExtensions/ComfyUIBackend/Assets/comfy_workflow_editor_helper.js:105-118 | Every redirect entry `toNode.toSlot` comes from a link out of a titled `PrimitiveNode`. It holds that node's namespaced id, which starts with `comfyrawworkflowinput`. |
| `Annotate.RedirectsComplete` | src/BuiltinExtensions/ComfyUIBackend/Assets/comfy_workflow_editor_helper.js:113-117 | Every slot fed by a titled `PrimitiveNode` has a redirect entry. |
| `Annotate.NoStaticLoopGuard` | src/BuiltinExtensions/ComfyUIBackend/Assets/comfy_workflow_editor_helper.js:109-112 | Under `NoStaticLoop`, the de-duplication guard is false for every titled primitive node, so its loop body never runs. |
| `Annotate.NodeInputPathsAt` | src/BuiltinExtensions/ComfyUIBackend/Assets/comfy_workflow_editor_helper.js:120-124 | The input declared at position x maps to `node.x`, unless a later input has the same name. |
| `Annotate.PromptLinkLabelsSound` | src/BuiltinExtensions/ComfyUIBackend/Assets/comfy_workflow_editor_helper.js:132-147 | The pass over the execution graph keeps every earlier label, or sets it to "Positive Prompt" / "Negative Prompt". |
| `Annotate.LinkLabelStepAt` | src/BuiltinExtensions/ComfyUIBackend/Assets/comfy_workflow_editor_helper.js:137-143 | One field labels node `s` exactly when it is a `positive` / `negative` link on slot 0 out of `s`, with the mark its name gives; otherwise the label of `s` is untouched. |
| `Annotate.NodeLinkLabelsLastWriter` | src/BuiltinExtensions/ComfyUIBackend/Assets/comfy_workflow_editor_helper.js:135-145 | Within one node, the last field that links to `s` decides its label, whatever earlier fields wrote. |
| `Annotate.PromptLinkLabelsLastWriter` | src/BuiltinExtensions/ComfyUIBackend/Assets/comfy_workflow_editor_helper.js:132-147 | Across the execution graph, the last field of the last node that links to `s` decides its label, whatever earlier nodes or passes put there. |
| `Annotate.PromptLinkLabelsUnwritten` | src/BuiltinExtensions/ComfyUIBackend/Assets/comfy_workflow_editor_helper.js:132-147 | A node that no field links to keeps exactly the label (or the absence of one) that the earlier passes gave it. |
| `Rules.RetainAppend` | src/BuiltinExtensions/ComfyUIBackend/Assets/comfy_workflow_editor_helper.js:270 | Appending a name that is absent, or `aspectratio`, keeps `defaultParamsRetain` starting with `images`, `model` and free of repeats other than `aspectratio`. |
| `Rules.NodeRewrittenTrans` | src/BuiltinExtensions/ComfyUIBackend/Assets/comfy_workflow_editor_helper.js:150-313 | Two exclusive rewrites of a node in a row are one exclusive rewrite. |
| `Rules.SetInputRewrites` | src/BuiltinExtensions/ComfyUIBackend/Assets/comfy_workflow_editor_helper.js:178-279 | Writing a placeholder, or 1 into `batch_size`, is an exclusive rewrite of the node; into an existing field it keeps the key order. |
| `Rules.Redirect` | src/BuiltinExtensions/ComfyUIBackend/Assets/comfy_workflow_editor_helper.js:257 | There is a redirect exactly when the field's positional path exists, has a `nodeStatics` entry, and that entry is non-empty; it is then one of the primitive ids, and in the generated namespace when they all are. |
| `Rules.ParamFor` | src/BuiltinExtensions/ComfyUIBackend/Assets/comfy_workflow_editor_helper.js:247 | The definition `addParam` registers carries the returned id, the input label, the original value, the kind's type and values, and the node's group name, id and priority; it is visible and toggleable. |
| `Rules.GenericBase` | src/BuiltinExtensions/ComfyUIBackend/Assets/comfy_workflow_editor_helper.js:311 | The generic rule's id is the redirect when there is one, and otherwise `cleanParamName(prefix + groupLabel + inputId)`; either way it is in the generated namespace. |
| `Rules.GenericValue` | src/BuiltinExtensions/ComfyUIBackend/Assets/comfy_workflow_editor_helper.js:302-313 | A value that is already a placeholder, or a sampler's `control_after_generate`, is left as is. Any other field keeps its value or becomes a rewrite value. |
| `RuleFacts.AddParamStepKeeps` | src/BuiltinExtensions/ComfyUIBackend/Assets/comfy_workflow_editor_helper.js:173-250 | `addParam` keeps the builder invariants and every earlier definition, leaves the retained list and the key order alone, and changes no field but its own. |
| `RuleFacts.AddParamStepRegisters` | src/BuiltinExtensions/ComfyUIBackend/Assets/comfy_workflow_editor_helper.js:173-250 | `addParam` returns the type-injected id exactly when it registers. A registering id ends up in `params` (under its own id) and in `idsUsed`; on its first use the registry gains exactly `ParamFor(...)` at the end of the order, and otherwise the registry is unchanged. A registered field holds the numeric or text placeholder of that id; a left-alone node is unchanged. |
| `RuleFacts.ClaimOnceStepKeeps` | src/BuiltinExtensions/ComfyUIBackend/Assets/comfy_workflow_editor_helper.js:251-276 | `claimOnce` keeps the builder invariants and every earlier definition, only appends to the retained list, and changes no field but the claimed one. |
| `RuleFacts.ClaimOnceStepResult` | src/BuiltinExtensions/ComfyUIBackend/Assets/comfy_workflow_editor_helper.js:251-276 | `claimOnce` succeeds exactly when the class matches, the value has the claimed type, and either a redirect exists or the cleaned name is not yet retained. On failure nothing changes. On success the field holds the claim placeholder (`ClaimText`, whose numeric form has no `+seed`) of the parameter name (no redirect) or of the id `addParam` returned (redirect). Without a redirect the cleaned name is appended to the retained list and the registry is unchanged; with one the retained list is unchanged. |
| `RuleFacts.ClaimOnceStepRegisters` | src/BuiltinExtensions/ComfyUIBackend/Assets/comfy_workflow_editor_helper.js:257-272 | With a redirect, a sampler or latent claim registers: the id is the primitive id with its type injected, it is in `params` and `idsUsed`, and on first use it is added as a definition named after the primitive, in group `primitives`/`Primitives`; a repeated id leaves the registry unchanged. |
| `RuleFacts.LatentStepKeeps` | src/BuiltinExtensions/ComfyUIBackend/Assets/comfy_workflow_editor_helper.js:277-281 | The width/height rule keeps the builder invariants and every earlier definition, and changes no field other than width, height and batch_size. |
| `RuleFacts.LatentStepOutcome` | src/BuiltinExtensions/ComfyUIBackend/Assets/comfy_workflow_editor_helper.js:277-281 | The rule ends the node exactly when the width claim and then the height claim (seeing the width's retained name) both succeed. A failed width claim changes nothing. A succeeded width claim stays written when the height claim fails. When both succeed, both fields hold numeric placeholders, `batch_size` is 1 and `aspectratio` is appended after the claimed names. |
| `RuleFacts.LatentStepRetains` | src/BuiltinExtensions/ComfyUIBackend/Assets/comfy_workflow_editor_helper.js:277-281 | The width/height rule only appends to the retained list. |
| `RuleFacts.EmptyLatentScenario` | src/BuiltinExtensions/ComfyUIBackend/Assets/comfy_workflow_editor_helper.js:277-281 | An `EmptyLatentImage` with numeric width and height, no redirects and unclaimed names ends up with `%%_COMFYFIXME_${width:…}`, `…${height:…}` and `batch_size` 1, retains width, height and `aspectratio`, and registers nothing. |
| `RuleFacts.FieldsMembers` | src/BuiltinExtensions/ComfyUIBackend/Assets/comfy_workflow_editor_helper.js:282-291 | A field is among a claim list's fields exactly when some claim in the list names it. |
| `RuleFacts.SamplerFoldKeeps` | src/BuiltinExtensions/ComfyUIBackend/Assets/comfy_workflow_editor_helper.js:282-291 | A run of claims keeps the builder invariants, every earlier definition and the key order, only appends to the retained list, and changes no field that none of the claims names. |
| `RuleFacts.SamplerFoldOtherClass` | src/BuiltinExtensions/ComfyUIBackend/Assets/comfy_workflow_editor_helper.js:282-291 | Claims for another class change nothing. |
| `RuleFacts.SamplerFoldConcat` | src/BuiltinExtensions/ComfyUIBackend/Assets/comfy_workflow_editor_helper.js:282-291 | Running two lists of claims one after the other is running their concatenation. |
| `RuleFacts.SamplerFoldKSampler` | src/BuiltinExtensions/ComfyUIBackend/Assets/comfy_workflow_editor_helper.js:282-291 | On a `KSampler` node the ten claims act exactly as the five `KSampler` claims: the `KSamplerAdvanced` ones change nothing. |
| `RuleFacts.SamplerFoldByName` | src/BuiltinExtensions/ComfyUIBackend/Assets/comfy_workflow_editor_helper.js:282-291 | Claims by name on a node of their class (no redirects, distinct fields and cleaned names, none yet retained) each write the placeholder of their own parameter name, append the cleaned names in order, register nothing and change no other field. |
| `RuleFacts.KSamplerScenario` | src/BuiltinExtensions/ComfyUIBackend/Assets/comfy_workflow_editor_helper.js:282-286 | A `KSampler` with numeric seed/steps/cfg and string sampler_name/scheduler, no redirects and unclaimed names ends up with the placeholders of `seed`, `steps`, `comfy_sampler`, `comfy_scheduler` and `cfg_scale` (no `+seed`), retains those five cleaned names in order, registers nothing and keeps every other field. |
| `RuleFacts.PromptStepOutcome` | src/BuiltinExtensions/ComfyUIBackend/Assets/comfy_workflow_editor_helper.js:292-301 | The positive and negative rules never both apply. The rule fires `prompt` exactly when a `CLIPTextEncode` with a string `text` has a group label starting with "Positive Prompt" and `prompt` is not yet retained, and `negativeprompt` likewise. When it fires, `text` becomes `${prompt}` / `${negativeprompt}`, the name is appended and nothing is registered; otherwise nothing changes. |
| `RuleFacts.PromptStepKeeps` | src/BuiltinExtensions/ComfyUIBackend/Assets/comfy_workflow_editor_helper.js:292-301 | The prompt rules keep the builder invariants and the registry, and change no field other than `text`. |
| `RuleFacts.GenericValueLocal` | src/BuiltinExtensions/ComfyUIBackend/Assets/comfy_workflow_editor_helper.js:302-313 | The generic rule's action, id and value for a field depend only on the node's class and that field's value. |
| `RuleFacts.GenericStepKeeps` | src/BuiltinExtensions/ComfyUIBackend/Assets/comfy_workflow_editor_helper.js:303-312 | One generic step keeps the builder invariants, every earlier definition, the retained list, the key order and every other field. |
| `RuleFacts.GenericStepOutcome` | src/BuiltinExtensions/ComfyUIBackend/Assets/comfy_workflow_editor_helper.js:303-312 | One generic step writes the field's generic value and nothing else in the node. A registering field's id ends up in `params` and `idsUsed`; on its first use the registry gains exactly `ParamFor(...)` with the field's label at the end of the order; otherwise the registry is unchanged. |
| `RuleFacts.GenericFoldKeeps` | src/BuiltinExtensions/ComfyUIBackend/Assets/comfy_workflow_editor_helper.js:302-313 | The generic loop keeps the builder invariants, every earlier definition, the retained list, the key order, the set of fields, and every field it does not visit. |
| `RuleFacts.GenericFoldValues` | src/BuiltinExtensions/ComfyUIBackend/Assets/comfy_workflow_editor_helper.js:302-313 | After the generic loop over distinct keys, every visited field holds the generic value of its value before the loop, and every registering field's id is in `params`. |
| `RuleFacts.GenericValueSettled` | src/BuiltinExtensions/ComfyUIBackend/Assets/comfy_workflow_editor_helper.js:302-313 | The value the generic rule leaves is settled: a placeholder, `batch_size` 1, a skipped field, a link or an opaque value. |
| `RuleFacts.GenericFoldSettled` | src/BuiltinExtensions/ComfyUIBackend/Assets/comfy_workflow_editor_helper.js:302-313 | The generic loop over settled fields changes nothing. |
| `RuleFacts.GenericFoldIdempotent` | src/BuiltinExtensions/ComfyUIBackend/Assets/comfy_workflow_editor_helper.js:302-313 | Running the generic loop a second time over the same keys changes nothing. |
| `RuleFacts.ClaimsStepKeeps` | src/BuiltinExtensions/ComfyUIBackend/Assets/comfy_workflow_editor_helper.js:277-313 | The rules of one node keep the builder invariants and every earlier definition, rewrite the node exclusively, and only append to the retained list. |
| `RuleFacts.SamplerClaimsSkipControl` | src/BuiltinExtensions/ComfyUIBackend/Assets/comfy_workflow_editor_helper.js:282-291 | No sampler claim names `control_after_generate`. |
| `RuleFacts.ClaimsStepKeepsControl` | src/BuiltinExtensions/ComfyUIBackend/Assets/comfy_workflow_editor_helper.js:282-309 | A sampler's `control_after_generate` is never changed by the rules of its node. |
| `RuleFacts.PrimitiveSeedScenario` | src/BuiltinExtensions/ComfyUIBackend/Assets/comfy_workflow_editor_helper.js:257-272 | A `KSampler` seed fed by a primitive is claimed without touching the retained list, ends up as the numeric placeholder of the injected `integer` id without `+seed`, and that id is registered; on first use as an integer definition named after the primitive with the seed as default, in group `primitives`/`Primitives`. |
| `RuleFacts.PositivePromptScenario` | src/BuiltinExtensions/ComfyUIBackend/Assets/comfy_workflow_editor_helper.js:292-296 | A `CLIPTextEncode` labelled "Positive Prompt" with a string text, while `prompt` is unclaimed, ends its iteration with `text` = `${prompt}`, `prompt` retained, and the registry unchanged. |
| `RuleFacts.PromptRewrittenTrans` | src/BuiltinExtensions/ComfyUIBackend/Assets/comfy_workflow_editor_helper.js:150-314 | Two exclusive rewrites of the execution graph in a row are one exclusive rewrite. |
| `RuleFacts.NodeUpdateKeeps` | src/BuiltinExtensions/ComfyUIBackend/Assets/comfy_workflow_editor_helper.js:150-313 | One iteration of the main loop keeps the builder invariants and every earlier definition, rewrites the graph exclusively, only appends to the retained list, and leaves every other node unchanged. |
| `RuleFacts.NodesFoldKeeps` | src/BuiltinExtensions/ComfyUIBackend/Assets/comfy_workflow_editor_helper.js:150-314 | The main loop keeps the builder invariants and every earlier definition, rewrites the graph exclusively, only appends to the retained list, and leaves every node it does not visit unchanged. |
| `RuleFacts.BuildFromScratch` | src/BuiltinExtensions/ComfyUIBackend/Assets/comfy_workflow_editor_helper.js:148-314 | From the initial state, the main loop ends with the builder invariants, an exclusive rewrite of the graph, and a retained list that still starts with `images`, `model`. |
| `Builder.RawParam` | src/BuiltinExtensions/ComfyUIBackend/Assets/comfy_workflow_editor_helper.js:315 | The raw parameter is `comfyworkflowraw`, holding the serialised graph as text, hidden, not toggleable, in group `comfyworkflow` at priority 10, and outside the generated namespace. |
| `Builder.ParamBuilder.constructor` | src/BuiltinExtensions/ComfyUIBackend/Assets/comfy_workflow_editor_helper.js:60-148 | The builder starts with empty `params`, insertion order, `idsUsed` and the three maps, and `retained` = `['images', 'model']`. |
| `Builder.ParamBuilder.AddSimpleParam` | src/BuiltinExtensions/ComfyUIBackend/Assets/comfy_workflow_editor_helper.js:63-96 | `params` gains exactly the definition built from the arguments under the fresh key, appended to the insertion order; when the base id is free it is that key. Nothing else changes. |
| `Builder.ParamBuilder.Retain` | src/BuiltinExtensions/ComfyUIBackend/Assets/comfy_workflow_editor_helper.js:270 | `retained` gains exactly the pushed name, keeping its invariant. |
| `Builder.ParamBuilder.SetField` | src/BuiltinExtensions/ComfyUIBackend/Assets/comfy_workflow_editor_helper.js:272 | The current node becomes `SetInput` of the old node with the written value. |
| `Builder.ParamBuilder.AddParam` | src/BuiltinExtensions/ComfyUIBackend/Assets/comfy_workflow_editor_helper.js:173-250 | The returned id and the new node and registry are `AddParamStep` of the old state; `RuleFacts.AddParamStepRegisters` says what that is. |
| `Builder.ParamBuilder.UseId` | src/BuiltinExtensions/ComfyUIBackend/Assets/comfy_workflow_editor_helper.js:245-247 | The id is appended to `idsUsed` and to the insertion order, and `params` gains exactly its `ParamFor` definition. |
| `Builder.ParamBuilder.ClaimOnce` | src/BuiltinExtensions/ComfyUIBackend/Assets/comfy_workflow_editor_helper.js:251-276 | The returned flag and the new node, retained list and registry are `ClaimOnceStep` of the old state; `RuleFacts.ClaimOnceStepResult` says when it succeeds and what it writes. |
| `Builder.ParamBuilder.ClaimByName` | src/BuiltinExtensions/ComfyUIBackend/Assets/comfy_workflow_editor_helper.js:266-272 | The cleaned name is appended to `retained` and the field holds the claim placeholder of the parameter name. |
| `Builder.ParamBuilder.ClaimViaPrimitive` | src/BuiltinExtensions/ComfyUIBackend/Assets/comfy_workflow_editor_helper.js:257-272 | The new state is `PrimitiveClaim` of the old: `addParam` under the primitive id in group `primitives`, then the claim placeholder over the field. |
| `Builder.ParamBuilder.ClaimLatentSize` | src/BuiltinExtensions/ComfyUIBackend/Assets/comfy_workflow_editor_helper.js:277-281 | The returned flag and the new state are `LatentStep` of the old state; `RuleFacts.LatentStepOutcome` says what that is. |
| `Builder.ParamBuilder.ClaimSamplerFields` | src/BuiltinExtensions/ComfyUIBackend/Assets/comfy_workflow_editor_helper.js:282-291 | The new state is the ten claims of lines 282-291, made in source order (`SamplerClaims`), on the old state. |
| `Builder.ParamBuilder.ClaimPromptText` | src/BuiltinExtensions/ComfyUIBackend/Assets/comfy_workflow_editor_helper.js:292-301 | The returned rule name and the new state are `PromptStep` of the old state; `RuleFacts.PromptStepOutcome` says what that is. |
| `Builder.ParamBuilder.ClaimGeneric` | src/BuiltinExtensions/ComfyUIBackend/Assets/comfy_workflow_editor_helper.js:303-312 | The new state is `GenericStep` of the old state; `RuleFacts.GenericStepOutcome` says what that is. |
| `Builder.ParamBuilder.ClaimRemaining` | src/BuiltinExtensions/ComfyUIBackend/Assets/comfy_workflow_editor_helper.js:302-313 | The new state is the generic step applied to each key of the node, as listed before the loop; `RuleFacts.GenericFoldValues` says what each field then holds. |
| `Builder.ParamBuilder.ProcessClaims` | src/BuiltinExtensions/ComfyUIBackend/Assets/comfy_workflow_editor_helper.js:277-313 | The ending rule and the new state are `ClaimsStep` of the old state: the rules in source order, stopping at the first `continue`. |
| `Builder.ParamBuilder.ProcessNode` | src/BuiltinExtensions/ComfyUIBackend/Assets/comfy_workflow_editor_helper.js:150-313 | The new graph, retained list and registry are `NodeUpdate` of the old ones, and the ending rule is the one `NodeStep` gives. |
| `Builder.ParamBuilder.ProcessNodes` | src/BuiltinExtensions/ComfyUIBackend/Assets/comfy_workflow_editor_helper.js:150-314 | The new graph, retained list and registry are `NodesFold` of the old ones over the node order. |
| `Builder.ParamBuilder.AddRaw` | src/BuiltinExtensions/ComfyUIBackend/Assets/comfy_workflow_editor_helper.js:315 | `params` gains exactly the raw parameter holding the serialised rewritten graph, at the end of the order; its key was absent before. |
| `Builder.ParamBuilder.AnnotateGraphs` | src/BuiltinExtensions/ComfyUIBackend/Assets/comfy_workflow_editor_helper.js:97-147 | After the three passes, the label, redirect and path maps equal the folds that define them. |
| `Builder.ParamBuilder.ScanVisualNodes` | src/BuiltinExtensions/ComfyUIBackend/Assets/comfy_workflow_editor_helper.js:101-119 | The first pass leaves the title labels, the redirect map and the pushed primitive ids exactly as the folds define them. |
| `Builder.ParamBuilder.ScanVisualInputs` | src/BuiltinExtensions/ComfyUIBackend/Assets/comfy_workflow_editor_helper.js:120-131 | The second pass adds the positional paths and propagates node labels to their inputs, as the folds define. |
| `Builder.ParamBuilder.ScanPromptLinks` | src/BuiltinExtensions/ComfyUIBackend/Assets/comfy_workflow_editor_helper.js:132-147 | `positive` / `negative` links on slot 0 label their source node, in key order. |
| `Builder.BuildParams` | src/BuiltinExtensions/ComfyUIBackend/Assets/comfy_workflow_editor_helper.js:58-318 | The three maps are as defined. The graph, retained list and `idsUsed` are those of the main loop from the initial state. `params` is the loop's registry plus `comfyworkflowraw`, which was absent before, holds the serialised rewritten graph and comes last in the order. |
| `Assemble.ServerDefaults` | src/BuiltinExtensions/ComfyUIBackend/Assets/comfy_workflow_editor_helper.js:329 | The kept server definitions are no more than the server's, and each has a retained id. |
| `Assemble.ServerDefaultsMembers` | src/BuiltinExtensions/ComfyUIBackend/Assets/comfy_workflow_editor_helper.js:329 | A definition is kept exactly when it is in the server list and its id is retained. |
| `Assemble.FilterRetained` | src/BuiltinExtensions/ComfyUIBackend/Assets/comfy_workflow_editor_helper.js:329-331 | The loop yields the server's definitions whose id is retained, in server order. |
| `Assemble.RestValues` | src/BuiltinExtensions/ComfyUIBackend/Assets/comfy_workflow_editor_helper.js:332-334 | After the raw entry is deleted, the remaining definitions come in insertion order. |
| `Assemble.AssembleParams` | src/BuiltinExtensions/ComfyUIBackend/Assets/comfy_workflow_editor_helper.js:325-334 | The list is the raw parameter marked hidden, then the retained server defaults, then every other generated definition. |
| `Assemble.RawComesFirst` | src/BuiltinExtensions/ComfyUIBackend/Assets/comfy_workflow_editor_helper.js:326-328 | The first entry is the raw parameter and it appears nowhere among the generated entries. The list has 1 + kept defaults + (\|params\| − 1) entries. |
| `Assemble.GeneratedOnce` | src/BuiltinExtensions/ComfyUIBackend/Assets/comfy_workflow_editor_helper.js:332-334 | Every generated parameter other than the raw one appears exactly once after the server defaults. |
| `Assemble.ReplaceParamsToComfy` | src/BuiltinExtensions/ComfyUIBackend/Assets/comfy_workflow_editor_helper.js:323-334 | On a workflow, the shown list is the assembled list of the built parameters; it starts with the hidden, non-toggleable raw parameter holding the serialised rewritten graph, and the graph is an exclusive rewrite of the input. |

## Left out

- Loading the editor frame, its load-failure flag, the tab listener and the asynchronous `graphToPrompt()` call are UI. The two graphs and `Object.keys(prompt)` (as `order`) are direct inputs of `BuildParams`.
- JavaScript puts integer-like node ids first, in ascending order, in `Object.keys(prompt)`. The model takes that order as given rather than computing it.
- `cleanParamName`, `numberToLetters`, JavaScript's number-to-string conversion and `JSON.stringify` are not defined in this file. They are the fields `clean`, `letters`, `numText` and `serialise` of `Env`. The model assumes only that `letters` is injective and that `clean` keeps the lower-case `comfyrawworkflowinput` prefix (`EnvOk`).
- `allModels` and `rawGenParamTypesFromServer` are inputs (`env.allModels`, `server`).
- Numbers are unbounded reals. The float constants 0.05 and 0.5 are exact reals, and number formatting is left to `numText`.
- Updating `gen_param_types`, calling `genInputs`, editing `innerHTML` and `comfyParamsDisable` / `comfyUseWorkflowNow` are UI side effects. `BuildParams` returns the builder (params, rewritten graph, retained) instead of calling the callback.
- The `feature_flag: null` field of a definition is not modelled.
- A node of the execution graph without `inputs` is not representable: every `PromptNode` has an inputs map, possibly empty. The source guards the label pass (line 134) but not the main loop, which throws a TypeError on such a node at line 255 (a class some claim names), 292 (`CLIPTextEncode`) or 302 (any other node); the model does not capture that failure.
- An input value of `null` is an `Other` value in the model, which the label pass and `addParam` pass over. In the source `typeof null == 'object'`, so line 137 reads `null.length` and throws a TypeError; the model does not capture that failure.
- A two-element array is a `Link` only when it is `[string, natural]`; any other is `Other`, for which the label pass writes nothing. The source's loose test `val[1] == 0` at lines 138 and 141 also accepts, for instance, `"0"` or `false` as the slot.
- The `in` test of line 230 also holds for inherited array properties (`map`, `push`, …). The model treats only the own properties `"0"`, `"1"` and `length` as members.
- The de-duplication loop of line 109 does not terminate on some inputs. `BuildParams` requires `NoStaticLoop`, under which its body never runs.
- The source rewrites `node` through a shared reference. The model rewrites a copy of the current node and stores it back at the end of its iteration.
