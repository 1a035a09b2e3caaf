/**
 * The claim rules of `comfyBuildParams` (lines 150-314), as functions of the
 * state they read and the state they change.  `ParamBuilder`'s methods are
 * proved equal to these functions; the lemmas of `RuleFacts` say what the
 * functions promise.
 *
 * A rule changes three things: the current node, `defaultParamsRetain`, and
 * the registry (`params`, the insertion order of its keys, and `idsUsed`).
 * It only reads the helpers of `Env` and the three maps the first passes
 * build.
 */
module Rules {
  import opened Text
  import opened Graph
  import opened Classify
  import opened Registry
  import opened Annotate

  predicate IsSampler(classType: string) {
    classType == "KSampler" || classType == "KSamplerAdvanced"
  }

  /** The node-level rule that ended the processing of a node. */
  datatype Rule = LatentSize | PromptText(name: string) | PerField

  /** `params`, the insertion order of its keys, and `idsUsed`. */
  datatype Reg = Reg(params: map<string, Param>, order: seq<string>, used: seq<string>)

  /** What the rules change while one node is processed. */
  datatype St = St(node: PromptNode, retained: seq<string>, reg: Reg)

  /** What the rules read and never change: the helpers, `labelAlterations`, `nodeStatics`, `nodeLabelPaths`. */
  datatype Ctx = Ctx(env: Env, labels: map<string, string>, statics: map<string, string>, labelPaths: map<string, string>)

  /** What the main loop changes: the execution graph, `defaultParamsRetain` and the registry. */
  datatype Build = Build(prompt: map<string, PromptNode>, retained: seq<string>, reg: Reg)

  /** The arguments of one call `claimOnce(classType, paramName, fieldName, numeric)`. */
  datatype Claim = Claim(classType: string, paramName: string, field: string, numeric: bool)

  // ---------------------------------------------------------------------
  // Invariants
  // ---------------------------------------------------------------------

  /**
   * `defaultParamsRetain`: it starts as `['images', 'model']` and the only
   * name that can ever occur twice is `aspectratio`, which line 278 pushes
   * without a membership test.
   */
  ghost predicate RetainedOk(r: seq<string>) {
    && |r| >= 2 && r[0] == "images" && r[1] == "model"
    && forall i, j :: 0 <= i < j < |r| && r[i] == r[j] ==> r[i] == "aspectratio"
  }

  lemma RetainAppend(r: seq<string>, x: string)
    requires RetainedOk(r) && (x !in r || x == "aspectratio")
    ensures RetainedOk(r + [x])
  {
    var r' := r + [x];
    forall i, j | 0 <= i < j < |r'| && r'[i] == r'[j] ensures r'[i] == "aspectratio" {
      if j < |r| {
        assert r'[i] == r[i] && r'[j] == r[j];
      } else {
        assert r'[i] == r[i] && r'[j] == x;
      }
    }
  }

  /**
   * The registry before the raw parameter is added: every key was first
   * recorded in `idsUsed` (lines 245-247), so the two hold the same ids, and
   * every id is in the generated namespace.
   */
  ghost predicate RegOk(reg: Reg) {
    && RegistryOk(reg.params, reg.order)
    && Distinct(reg.used)
    && (forall k :: k in reg.params <==> k in reg.used)
    && (forall k :: k in reg.params ==> StartsWith(k, Prefix))
  }

  ghost predicate StOk(st: St) {
    NodeOk(st.node) && RetainedOk(st.retained) && RegOk(st.reg)
  }

  /** What the rules take for granted about what they only read. */
  ghost predicate CtxOk(ctx: Ctx) {
    && EnvOk(ctx.env)
    && (forall k :: k in ctx.statics ==> StartsWith(ctx.statics[k], Prefix))
  }

  ghost predicate BuildOk(b: Build) {
    PromptOk(b.prompt) && RetainedOk(b.retained) && RegOk(b.reg)
  }

  /** Every earlier definition is kept. */
  ghost predicate Extends(q0: map<string, Param>, q1: map<string, Param>) {
    forall k :: k in q0 ==> k in q1 && q1[k] == q0[k]
  }

  /**
   * Field `k` of `n1`, when present, is new only if it is `batch_size`, and
   * holds either the value of `n0` or a value some rule writes.
   */
  ghost predicate FieldRewritten(n0: PromptNode, n1: PromptNode, k: string) {
    k in n1.inputs ==>
      && (k !in n0.inputs ==> k == "batch_size")
      && ((k in n0.inputs && n1.inputs[k] == n0.inputs[k]) || IsRewriteValue(k, n1.inputs[k]))
  }

  /** Exclusive mutation: the class is kept, keys are only appended, and every field is rewritten as `FieldRewritten` allows. */
  ghost predicate NodeRewritten(n0: PromptNode, n1: PromptNode) {
    && n1.classType == n0.classType
    && n0.keys <= n1.keys
    && forall k :: FieldRewritten(n0, n1, k)
  }

  lemma NodeRewrittenTrans(a: PromptNode, b: PromptNode, c: PromptNode)
    requires NodeRewritten(a, b) && NodeRewritten(b, c)
    ensures NodeRewritten(a, c)
  {
    forall k ensures FieldRewritten(a, c, k) {
      assert FieldRewritten(a, b, k) && FieldRewritten(b, c, k);
    }
  }

  ghost predicate PromptRewritten(p0: map<string, PromptNode>, p1: map<string, PromptNode>) {
    && p0.Keys == p1.Keys
    && forall id :: id in p0 ==> NodeRewritten(p0[id], p1[id])
  }

  /**
   * Writing a rewrite value into a field is an exclusive mutation; into an
   * existing field it keeps the key order.
   */
  lemma SetInputRewrites(n: PromptNode, key: string, v: Value)
    requires (key in n.inputs || key == "batch_size") && IsRewriteValue(key, v)
    ensures NodeRewritten(n, SetInput(n, key, v))
    ensures key in n.inputs ==> SetInput(n, key, v).keys == n.keys
  {
  }

  // ---------------------------------------------------------------------
  // Helpers of the rules
  // ---------------------------------------------------------------------

  /** `nodeStatics[nodeLabelPaths[`${nodeId}.${field}`]]`, when present and non-empty. */
  function Redirect(statics: map<string, string>, labelPaths: map<string, string>, nodeId: string, field: string): (r: Option<string>)
    ensures r.Some? <==> && nodeId + "." + field in labelPaths
                         && labelPaths[nodeId + "." + field] in statics
                         && statics[labelPaths[nodeId + "." + field]] != ""
    ensures r.Some? ==> r.value in statics.Values && r.value != ""
    ensures r.Some? && (forall k :: k in statics ==> StartsWith(statics[k], Prefix)) ==> StartsWith(r.value, Prefix)
  {
    var path := nodeId + "." + field;
    if path in labelPaths && labelPaths[path] in statics && statics[labelPaths[path]] != "" then Some(statics[labelPaths[path]])
    else None
  }

  /** When `claimOnce` returns true (lines 252-270). */
  predicate ClaimSucceeds(n: PromptNode, classType: string, fieldName: string, numeric: bool,
                          redirect: Option<string>, cleaned: string, retained: seq<string>)
  {
    && n.classType == classType
    && fieldName in n.inputs
    && (if numeric then n.inputs[fieldName].Num? else n.inputs[fieldName].Str?)
    && (redirect.Some? || cleaned !in retained)
  }

  /** The definition `addParam` registers for kind `k` (line 247). */
  function ParamFor(k: Kind, inputLabel: string, val: Value, groupLabel: string, id: string, groupId: string, priority: int): (p: Param)
    ensures p.id == id && p.name == inputLabel && p.default == val && p.ptype == k.ptype && p.values == k.values
    ensures p.group.name == groupLabel && p.group.id == groupId && p.group.priority == priority
    ensures p.visible && p.toggleable
  {
    MakeParam(inputLabel, val, k.ptype, groupLabel, k.values, k.view, k.min, k.max, k.step, id, groupId, priority, true, true)
  }

  /** The id the generic rule starts from (line 311): the redirect, or the cleaned composite name. */
  function GenericBase(statics: map<string, string>, labelPaths: map<string, string>, clean: string -> string,
                       nodeId: string, inputId: string, groupLabel: string): (r: string)
    ensures Redirect(statics, labelPaths, nodeId, inputId).Some? ==> r == Redirect(statics, labelPaths, nodeId, inputId).value
    ensures Redirect(statics, labelPaths, nodeId, inputId).None? ==> r == clean(Prefix + groupLabel + inputId)
    ensures CleanKeepsPrefix(clean) && (forall k :: k in statics ==> StartsWith(statics[k], Prefix)) ==> StartsWith(r, Prefix)
  {
    match Redirect(statics, labelPaths, nodeId, inputId)
    case Some(r) => r
    case None =>
      assert Prefix + groupLabel + inputId == Prefix + (groupLabel + inputId);
      StartsWithAppend(Prefix, groupLabel + inputId, Prefix);
      clean(Prefix + groupLabel + inputId)
  }

  /** The fields the generic rule passes over (lines 304-309). */
  predicate GenericSkips(classType: string, inputId: string, val: Value, numText: real -> string) {
    || IsPlaceholderText(ValueText(val, numText))
    || (IsSampler(classType) && inputId == "control_after_generate")
  }

  // ---------------------------------------------------------------------
  // addParam and claimOnce
  // ---------------------------------------------------------------------

  /**
   * `addParam` (lines 173-250) on field `inputId` with value `val`: the id it
   * returns and the state it leaves.  A registering id is added to `idsUsed`
   * and to `params` on its first use only.
   */
  function AddParamStep(st: St, ctx: Ctx, nodeId: string, inputId: string, base: string, inputLabel: string,
                        val: Value, groupId: string, groupLabel: string, priority: int): (string, St)
  {
    var a := ClassifyField(st.node.classType, nodeId, inputId, val, ctx.env.allModels);
    var r := AddParamId(a, base);
    var node := if a.Leave? then st.node else SetInput(st.node, inputId, AddParamValue(a, inputId, r, val, ctx.env.numText));
    var reg := if a.Register? && r !in st.reg.used
               then Reg(st.reg.params[r := ParamFor(a.kind, inputLabel, val, groupLabel, r, groupId, priority)],
                        st.reg.order + [r], st.reg.used + [r])
               else st.reg;
    (r, St(node, st.retained, reg))
  }

  /**
   * The redirect branch of `claimOnce` (lines 261-265, 272): `addParam`
   * registers the field under the primitive's id in the `Primitives` group,
   * then line 272 overwrites the field with the claim's own placeholder.
   */
  function PrimitiveClaim(st: St, ctx: Ctx, nodeId: string, priority: int, c: Claim, redirect: string): St
    requires c.field in st.node.inputs
    requires if c.numeric then st.node.inputs[c.field].Num? else st.node.inputs[c.field].Str?
  {
    var val := st.node.inputs[c.field];
    var (id, st1) := AddParamStep(st, ctx, nodeId, c.field, redirect, Drop(redirect, |Prefix|), val, "primitives", "Primitives", priority);
    st1.(node := SetInput(st1.node, c.field, Str(ClaimText(id, val, c.numeric, ctx.env.numText))))
  }

  /** `claimOnce` (lines 251-276): whether it claimed, and the state it leaves. */
  function ClaimOnceStep(st: St, ctx: Ctx, nodeId: string, priority: int, c: Claim): (bool, St) {
    var n := st.node;
    if n.classType != c.classType || c.field !in n.inputs then (false, st)
    else
      var val := n.inputs[c.field];
      if !(if c.numeric then val.Num? else val.Str?) then (false, st)
      else match Redirect(ctx.statics, ctx.labelPaths, nodeId, c.field)
        case Some(redirect) => (true, PrimitiveClaim(st, ctx, nodeId, priority, c, redirect))
        case None =>
          var cleaned := ctx.env.clean(c.paramName);
          if cleaned in st.retained then (false, st)
          else (true, St(SetInput(n, c.field, Str(ClaimText(c.paramName, val, c.numeric, ctx.env.numText))),
                         st.retained + [cleaned], st.reg))
  }

  // ---------------------------------------------------------------------
  // The node-level rules (lines 277-313)
  // ---------------------------------------------------------------------

  const WidthClaim := Claim("EmptyLatentImage", "width", "width", true)
  const HeightClaim := Claim("EmptyLatentImage", "height", "height", true)

  /** Lines 277-281: width, then (only if width was claimed) height; both claimed ends the node. */
  function LatentStep(st: St, ctx: Ctx, nodeId: string, priority: int): (bool, St) {
    var (w, s1) := ClaimOnceStep(st, ctx, nodeId, priority, WidthClaim);
    if !w then (false, s1)
    else
      var (h, s2) := ClaimOnceStep(s1, ctx, nodeId, priority, HeightClaim);
      if !h then (false, s2)
      else (true, St(SetInput(s2.node, "batch_size", Num(1.0)), s2.retained + ["aspectratio"], s2.reg))
  }

  /** The claims of lines 282-286, for a `KSampler` node. */
  const KSamplerClaims: seq<Claim> := [
    Claim("KSampler", "seed", "seed", true),
    Claim("KSampler", "steps", "steps", true),
    Claim("KSampler", "comfy_sampler", "sampler_name", false),
    Claim("KSampler", "comfy_scheduler", "scheduler", false),
    Claim("KSampler", "cfg_scale", "cfg", true)
  ]

  /** The claims of lines 287-291, for a `KSamplerAdvanced` node. */
  const AdvancedClaims: seq<Claim> := [
    Claim("KSamplerAdvanced", "seed", "noise_seed", true),
    Claim("KSamplerAdvanced", "steps", "steps", true),
    Claim("KSamplerAdvanced", "comfy_sampler", "sampler_name", false),
    Claim("KSamplerAdvanced", "comfy_scheduler", "scheduler", false),
    Claim("KSamplerAdvanced", "cfg_scale", "cfg", true)
  ]

  /** The ten sampler claims of lines 282-291, in their order. */
  const SamplerClaims: seq<Claim> := KSamplerClaims + AdvancedClaims

  /** The state after the claims `claims`, made one after the other. */
  function SamplerFold(st: St, ctx: Ctx, nodeId: string, priority: int, claims: seq<Claim>): St
    decreases |claims|
  {
    if claims == [] then st
    else ClaimOnceStep(SamplerFold(st, ctx, nodeId, priority, Init(claims)), ctx, nodeId, priority, Last(claims)).1
  }

  /** Lines 292-301: the prompt encoders; a rule that fires ends the node. */
  function PromptStep(st: St, groupLabel: string): (Option<string>, St) {
    var n := st.node;
    if n.classType == "CLIPTextEncode" && StartsWith(groupLabel, "Positive Prompt") && "prompt" !in st.retained
       && "text" in n.inputs && n.inputs["text"].Str?
    then (Some("prompt"), st.(node := SetInput(n, "text", Str("${prompt}")), retained := st.retained + ["prompt"]))
    else if n.classType == "CLIPTextEncode" && StartsWith(groupLabel, "Negative Prompt") && "negativeprompt" !in st.retained
       && "text" in n.inputs && n.inputs["text"].Str?
    then (Some("negativeprompt"), st.(node := SetInput(n, "text", Str("${negativeprompt}")), retained := st.retained + ["negativeprompt"]))
    else (None, st)
  }

  /** The action the generic rule takes on field `inputId` of `n` (lines 310-312). */
  function GenericAction(n: PromptNode, ctx: Ctx, nodeId: string, inputId: string): Action
    requires inputId in n.inputs
  {
    ClassifyField(n.classType, nodeId, inputId, n.inputs[inputId], ctx.env.allModels)
  }

  /** The id the generic rule gives field `inputId` of `n`. */
  function GenericId(n: PromptNode, ctx: Ctx, nodeId: string, inputId: string, groupLabel: string): string
    requires inputId in n.inputs
  {
    AddParamId(GenericAction(n, ctx, nodeId, inputId), GenericBase(ctx.statics, ctx.labelPaths, ctx.env.clean, nodeId, inputId, groupLabel))
  }

  /** The value the generic rule leaves in field `inputId` of `n`. */
  function GenericValue(n: PromptNode, ctx: Ctx, nodeId: string, inputId: string, groupLabel: string): (r: Value)
    requires inputId in n.inputs
    ensures GenericSkips(n.classType, inputId, n.inputs[inputId], ctx.env.numText) ==> r == n.inputs[inputId]
    ensures r == n.inputs[inputId] || IsRewriteValue(inputId, r)
  {
    var val := n.inputs[inputId];
    if GenericSkips(n.classType, inputId, val, ctx.env.numText) then val
    else AddParamValue(GenericAction(n, ctx, nodeId, inputId), inputId, GenericId(n, ctx, nodeId, inputId, groupLabel), val, ctx.env.numText)
  }

  /** One iteration of the generic loop (lines 303-312), on the field's current value. */
  function GenericStep(st: St, ctx: Ctx, nodeId: string, groupId: string, groupLabel: string, priority: int, inputId: string): St {
    if inputId !in st.node.inputs then st
    else
      var val := st.node.inputs[inputId];
      if GenericSkips(st.node.classType, inputId, val, ctx.env.numText) then st
      else AddParamStep(st, ctx, nodeId, inputId, GenericBase(ctx.statics, ctx.labelPaths, ctx.env.clean, nodeId, inputId, groupLabel),
                        LabelOr(ctx.labels, nodeId + "." + inputId, inputId), val, groupId, groupLabel, priority).1
  }

  /** The generic loop over the fields `keys`, in that order. */
  function GenericFold(st: St, ctx: Ctx, nodeId: string, groupId: string, groupLabel: string, priority: int, keys: seq<string>): St
    decreases |keys|
  {
    if keys == [] then st
    else GenericStep(GenericFold(st, ctx, nodeId, groupId, groupLabel, priority, Init(keys)), ctx, nodeId, groupId, groupLabel, priority, Last(keys))
  }

  /** Lines 277-313 on one node, up to the first `continue`. */
  function ClaimsStep(st: St, ctx: Ctx, nodeId: string, groupId: string, groupLabel: string, priority: int): (Rule, St) {
    var (done, s1) := LatentStep(st, ctx, nodeId, priority);
    if done then (LatentSize, s1)
    else
      var s2 := SamplerFold(s1, ctx, nodeId, priority, SamplerClaims);
      var (name, s3) := PromptStep(s2, groupLabel);
      if name.Some? then (PromptText(name.value), s3)
      else (PerField, GenericFold(s3, ctx, nodeId, groupId, groupLabel, priority, s3.node.keys))
  }

  /** The group id of a node (line 153); `groups` (line 149) is never added to, so lines 154-156 never rename it. */
  function GroupId(ctx: Ctx, nodeId: string, classType: string): string {
    ctx.env.clean(LabelOr(ctx.labels, nodeId, classType))
  }

  /** One iteration of the main loop (lines 151-313): the group of the node, then its rules. */
  function NodeStep(st: St, ctx: Ctx, nodeId: string): (Rule, St) {
    var groupLabel := GroupLabel(ctx.labels, nodeId, st.node.classType);
    ClaimsStep(st, ctx, nodeId, GroupId(ctx, nodeId, st.node.classType), groupLabel, GroupPriority(groupLabel))
  }

  /** The graph, retained list and registry after node `nodeId` is processed and stored back. */
  function NodeUpdate(b: Build, ctx: Ctx, nodeId: string): Build {
    if nodeId !in b.prompt then b
    else
      var s := NodeStep(St(b.prompt[nodeId], b.retained, b.reg), ctx, nodeId).1;
      Build(b.prompt[nodeId := s.node], s.retained, s.reg)
  }

  /** The main loop (lines 150-314) over the node ids `order`. */
  function NodesFold(b: Build, ctx: Ctx, order: seq<string>): Build
    decreases |order|
  {
    if order == [] then b else NodeUpdate(NodesFold(b, ctx, Init(order)), ctx, Last(order))
  }
}
