/**
 * `comfyBuildParams` (lines 58-318): the state its closure shares (`params`,
 * `idsUsed`, `labelAlterations`, `nodeStatics`, `nodeStaticUnique`,
 * `nodeLabelPaths`, `defaultParamsRetain` and the execution graph `prompt`,
 * rewritten in place) becomes the fields of a `ParamBuilder`, and each of its
 * loops and nested functions a method of that class.  Every method that runs
 * a rule is proved to leave the state the matching function of `Rules`
 * computes.
 */
module Builder {
  import opened Text
  import opened Graph
  import opened Classify
  import opened Registry
  import opened Annotate
  import opened Rules
  import opened RuleFacts

  /** The id of the hidden parameter that carries the whole rewritten graph (line 315). */
  const RawId := "comfyworkflowraw"

  /** The raw-workflow parameter (line 315): hidden, not toggleable, outside the generated namespace. */
  function RawParam(serialised: string): (p: Param)
    ensures p.id == RawId && p.name == RawId && p.default == Str(serialised) && p.ptype == "text"
    ensures !p.visible && !p.toggleable && p.group.id == "comfyworkflow" && p.group.priority == 10
    ensures !StartsWith(p.id, Prefix)
  {
    MakeParam(RawId, Str(serialised), "text", "Comfy Workflow Raw", None, "big", 0.0, 1.0, 1.0, RawId, "comfyworkflow", 10, false, false)
  }

  class ParamBuilder {
    const env: Env
    /** The execution graph, rewritten in place. */
    var prompt: map<string, PromptNode>
    var params: map<string, Param>
    /** The insertion order of `params`, which `Object.values(params)` follows. */
    var paramOrder: seq<string>
    var idsUsed: seq<string>
    var labels: map<string, string>
    var statics: map<string, string>
    var staticUnique: seq<string>
    var labelPaths: map<string, string>
    var retained: seq<string>
    /**
     * The node of the current iteration (`let node = prompt[nodeId]`, line
     * 151).  The source rewrites that object in place through the reference;
     * the model rewrites this copy and stores it back when the iteration ends.
     */
    var node: PromptNode

    ghost predicate Valid()
      reads this
    {
      && EnvOk(env)
      && PromptOk(prompt)
      && NodeOk(node)
      && RegistryOk(params, paramOrder)
      && Distinct(idsUsed)
      && RetainedOk(retained)
      && (forall k :: k in statics ==> StartsWith(statics[k], Prefix))
    }

    /** Before the raw parameter is added, `params` and `idsUsed` hold the same ids, all in the generated namespace. */
    ghost predicate BeforeRaw()
      reads this`params, this`idsUsed
    {
      && (forall k :: k in params <==> k in idsUsed)
      && (forall k :: k in params ==> StartsWith(k, Prefix))
    }

    /** What the rules change while a node is processed. */
    ghost function State(): St
      reads this`node, this`retained, this`params, this`paramOrder, this`idsUsed
    {
      St(node, retained, Reg(params, paramOrder, idsUsed))
    }

    /** What the rules only read. */
    ghost function Context(): Ctx
      reads this`labels, this`statics, this`labelPaths
    {
      Ctx(env, labels, statics, labelPaths)
    }

    /** What the main loop changes. */
    ghost function Built(): Build
      reads this`prompt, this`retained, this`params, this`paramOrder, this`idsUsed
    {
      Build(prompt, retained, Reg(params, paramOrder, idsUsed))
    }

    /** The initial state (lines 60-62, 97-100, 148). */
    constructor (env: Env, prompt: map<string, PromptNode>)
      requires EnvOk(env) && PromptOk(prompt)
      ensures Valid() && BeforeRaw()
      ensures this.env == env && this.prompt == prompt
      ensures params == map[] && paramOrder == [] && idsUsed == []
      ensures labels == map[] && statics == map[] && staticUnique == [] && labelPaths == map[]
      ensures retained == ["images", "model"]
    {
      this.env := env;
      this.prompt := prompt;
      params, paramOrder, idsUsed := map[], [], [];
      labels, statics, staticUnique, labelPaths := map[], map[], [], map[];
      retained := ["images", "model"];
      node := PromptNode("", [], map[]);
    }

    /** `addSimpleParam` (lines 63-96). */
    method AddSimpleParam(name: string, defVal: Value, ptype: string, groupName: string, values: Option<seq<string>>,
                          view: string, min: real, max: real, step: real, base: string, groupId: string,
                          priority: int, visible: bool, toggles: bool)
      requires Valid()
      modifies this`params, this`paramOrder
      ensures Valid()
      ensures Registered(old(params), old(paramOrder), params, paramOrder, base,
                         MakeParam(name, defVal, ptype, groupName, values, view, min, max, step, base, groupId, priority, visible, toggles),
                         env.letters)
      ensures base !in old(params) ==>
                && params == old(params)[base := MakeParam(name, defVal, ptype, groupName, values, view, min, max, step, base, groupId, priority, visible, toggles)]
                && paramOrder == old(paramOrder) + [base]
    {
      var id := FreshId(params.Keys, base, env.letters);
      ghost var p := MakeParam(name, defVal, ptype, groupName, values, view, min, max, step, base, groupId, priority, visible, toggles);
      params := params[id := MakeParam(name, defVal, ptype, groupName, values, view, min, max, step, id, groupId, priority, visible, toggles)];
      paramOrder := paramOrder + [id];
      assert paramOrder[..|old(paramOrder)|] == old(paramOrder);
      RegisteredKeepsRegistry(old(params), old(paramOrder), params, paramOrder, base, p, env.letters);
    }

    /** `retained.push(x)`: a name is retained once, except `aspectratio`. */
    method Retain(x: string)
      requires Valid() && (x !in retained || x == "aspectratio")
      modifies this`retained
      ensures Valid() && retained == old(retained) + [x]
    {
      RetainAppend(retained, x);
      retained := retained + [x];
    }

    /** `node.inputs[key] = v`, through the node reference. */
    method SetField(key: string, v: Value)
      requires Valid()
      modifies this`node
      ensures Valid() && node == SetInput(old(node), key, v)
    {
      node := SetInput(node, key, v);
    }

    /** `addParam` (lines 173-250), for the field `inputId` of the current node, whose value is `val`. */
    method AddParam(nodeId: string, inputId: string, base: string, inputLabel: string, val: Value,
                    groupId: string, groupLabel: string, priority: int) returns (r: string)
      requires Valid() && BeforeRaw() && StartsWith(base, Prefix)
      requires inputId in node.inputs && node.inputs[inputId] == val
      modifies this`node, this`params, this`paramOrder, this`idsUsed
      ensures Valid() && BeforeRaw()
      ensures (r, State()) == AddParamStep(old(State()), Context(), nodeId, inputId, base, inputLabel, val, groupId, groupLabel, priority)
    {
      var a := ClassifyField(node.classType, nodeId, inputId, val, env.allModels);
      r := AddParamId(a, base);
      if a.Leave? {
        return;
      }
      node := SetInput(node, inputId, AddParamValue(a, inputId, r, val, env.numText));
      if a.Register? && r !in idsUsed {
        UseId(r, a.kind, inputLabel, val, groupId, groupLabel, priority);
      }
    }

    /** Lines 245-248: the first use of a registering id records it and registers its definition under that very id. */
    method UseId(r: string, k: Kind, inputLabel: string, val: Value, groupId: string, groupLabel: string, priority: int)
      requires Valid() && BeforeRaw() && r !in idsUsed && StartsWith(r, Prefix)
      modifies this`params, this`paramOrder, this`idsUsed
      ensures Valid() && BeforeRaw()
      ensures idsUsed == old(idsUsed) + [r] && paramOrder == old(paramOrder) + [r]
      ensures params == old(params)[r := ParamFor(k, inputLabel, val, groupLabel, r, groupId, priority)]
    {
      DistinctAppend(idsUsed, r);
      idsUsed := idsUsed + [r];
      AddSimpleParam(inputLabel, val, k.ptype, groupLabel, k.values, k.view, k.min, k.max, k.step, r, groupId, priority, true, true);
    }

    /**
     * `claimOnce` (lines 251-276): claim field `c.field` of the current node
     * for the semantic parameter `c.paramName`, at most once per name unless
     * a primitive node redirects the field.
     */
    method ClaimOnce(nodeId: string, priority: int, c: Claim) returns (ok: bool)
      requires Valid() && BeforeRaw()
      modifies this`node, this`params, this`paramOrder, this`idsUsed, this`retained
      ensures Valid() && BeforeRaw()
      ensures (ok, State()) == ClaimOnceStep(old(State()), Context(), nodeId, priority, c)
    {
      if node.classType != c.classType {
        return false;
      }
      if c.field !in node.inputs {
        return false;
      }
      var val := node.inputs[c.field];
      if !(if c.numeric then val.Num? else val.Str?) {
        return false;
      }
      var redirect := Redirect(statics, labelPaths, nodeId, c.field);
      if redirect.Some? {
        ClaimViaPrimitive(nodeId, priority, c, redirect.value);
        return true;
      }
      var paramNameClean := env.clean(c.paramName);
      if paramNameClean in retained {
        return false;
      }
      ClaimByName(c, val, paramNameClean);
      ok := true;
    }

    /** Lines 268-272: the claim under the semantic name itself, which is retained from now on. */
    method ClaimByName(c: Claim, val: Value, paramNameClean: string)
      requires Valid() && paramNameClean !in retained
      requires if c.numeric then val.Num? else val.Str?
      modifies this`node, this`retained
      ensures Valid() && retained == old(retained) + [paramNameClean]
      ensures node == SetInput(old(node), c.field, Str(ClaimText(c.paramName, val, c.numeric, env.numText)))
    {
      Retain(paramNameClean);
      SetField(c.field, Str(ClaimText(c.paramName, val, c.numeric, env.numText)));
    }

    /**
     * The claim of a field fed by a titled primitive node (lines 261-265 and
     * 272): the field is registered under the primitive's id, in the
     * `Primitives` group, and the placeholder names the registered id.
     */
    method ClaimViaPrimitive(nodeId: string, priority: int, c: Claim, useParamName: string)
      requires Valid() && BeforeRaw() && StartsWith(useParamName, Prefix)
      requires c.field in node.inputs
      requires if c.numeric then node.inputs[c.field].Num? else node.inputs[c.field].Str?
      modifies this`node, this`params, this`paramOrder, this`idsUsed
      ensures Valid() && BeforeRaw()
      ensures State() == PrimitiveClaim(old(State()), Context(), nodeId, priority, c, useParamName)
    {
      var val := node.inputs[c.field];
      var actualId := AddParam(nodeId, c.field, useParamName, Drop(useParamName, |Prefix|), val, "primitives", "Primitives", priority);
      SetField(c.field, Str(ClaimText(actualId, val, c.numeric, env.numText)));
    }

    /**
     * The latent-size rule (lines 277-281): when both `width` and `height`
     * of an `EmptyLatentImage` node are claimed, `aspectratio` is retained
     * and the node's batch size is forced to 1.
     */
    method ClaimLatentSize(nodeId: string, priority: int) returns (done: bool)
      requires Valid() && BeforeRaw()
      modifies this`node, this`params, this`paramOrder, this`idsUsed, this`retained
      ensures Valid() && BeforeRaw()
      ensures (done, State()) == LatentStep(old(State()), Context(), nodeId, priority)
    {
      var w := ClaimOnce(nodeId, priority, WidthClaim);
      if !w {
        return false;
      }
      var h := ClaimOnce(nodeId, priority, HeightClaim);
      if !h {
        return false;
      }
      Retain("aspectratio");
      SetField("batch_size", Num(1.0));
      done := true;
    }

    /** The ten sampler claims (lines 282-291), made in the order of `SamplerClaims`. */
    method ClaimSamplerFields(nodeId: string, priority: int)
      requires Valid() && BeforeRaw()
      modifies this`node, this`params, this`paramOrder, this`idsUsed, this`retained
      ensures Valid() && BeforeRaw()
      ensures State() == SamplerFold(old(State()), Context(), nodeId, priority, SamplerClaims)
    {
      var i := 0;
      while i < |SamplerClaims|
        invariant 0 <= i <= |SamplerClaims|
        invariant Valid() && BeforeRaw()
        invariant State() == SamplerFold(old(State()), Context(), nodeId, priority, SamplerClaims[..i])
      {
        assert Init(SamplerClaims[..i + 1]) == SamplerClaims[..i] && Last(SamplerClaims[..i + 1]) == SamplerClaims[i];
        var _ := ClaimOnce(nodeId, priority, SamplerClaims[i]);
        i := i + 1;
      }
      assert SamplerClaims[..|SamplerClaims|] == SamplerClaims;
    }

    /**
     * The prompt-text rules (lines 292-301): the first positive and the first
     * negative `CLIPTextEncode` node get the fixed `${prompt}` /
     * `${negativeprompt}` text and register nothing.
     */
    method ClaimPromptText(groupLabel: string) returns (name: Option<string>)
      requires Valid()
      modifies this`node, this`retained
      ensures Valid()
      ensures (name, State()) == PromptStep(old(State()), groupLabel)
    {
      if node.classType == "CLIPTextEncode" && StartsWith(groupLabel, "Positive Prompt") && "prompt" !in retained
         && "text" in node.inputs && node.inputs["text"].Str?
      {
        Retain("prompt");
        SetField("text", Str("${prompt}"));
        return Some("prompt");
      } else if node.classType == "CLIPTextEncode" && StartsWith(groupLabel, "Negative Prompt") && "negativeprompt" !in retained
                && "text" in node.inputs && node.inputs["text"].Str?
      {
        Retain("negativeprompt");
        SetField("text", Str("${negativeprompt}"));
        return Some("negativeprompt");
      }
      name := None;
    }

    /** The generic loop (lines 302-313) over the fields the current node has when it starts, in their order. */
    method ClaimRemaining(nodeId: string, groupId: string, groupLabel: string, priority: int)
      requires Valid() && BeforeRaw()
      modifies this`node, this`params, this`paramOrder, this`idsUsed
      ensures Valid() && BeforeRaw()
      ensures State() == GenericFold(old(State()), Context(), nodeId, groupId, groupLabel, priority, old(node).keys)
    {
      var keys := node.keys;
      var i := 0;
      while i < |keys|
        invariant 0 <= i <= |keys|
        invariant Valid() && BeforeRaw()
        invariant State() == GenericFold(old(State()), Context(), nodeId, groupId, groupLabel, priority, keys[..i])
      {
        assert Init(keys[..i + 1]) == keys[..i] && Last(keys[..i + 1]) == keys[i];
        ClaimGeneric(nodeId, keys[i], groupId, groupLabel, priority);
        i := i + 1;
      }
      assert keys[..|keys|] == keys;
    }

    /** One iteration of the generic loop (lines 303-312), for field `inputId` of the current node. */
    method ClaimGeneric(nodeId: string, inputId: string, groupId: string, groupLabel: string, priority: int)
      requires Valid() && BeforeRaw()
      modifies this`node, this`params, this`paramOrder, this`idsUsed
      ensures Valid() && BeforeRaw()
      ensures State() == GenericStep(old(State()), Context(), nodeId, groupId, groupLabel, priority, inputId)
    {
      if inputId !in node.inputs {
        return;
      }
      var val := node.inputs[inputId];
      if IsPlaceholderText(ValueText(val, env.numText)) {
        return;
      }
      if IsSampler(node.classType) && inputId == "control_after_generate" {
        return;
      }
      var inputLabel := LabelOr(labels, nodeId + "." + inputId, inputId);
      var base := GenericBase(statics, labelPaths, env.clean, nodeId, inputId, groupLabel);
      var _ := AddParam(nodeId, inputId, base, inputLabel, val, groupId, groupLabel, priority);
    }

    /** Lines 277-313 on the current node, up to the first `continue`; `rule` tells which of the three ended it. */
    method ProcessClaims(nodeId: string, groupId: string, groupLabel: string, priority: int) returns (ghost rule: Rule)
      requires Valid() && BeforeRaw()
      modifies this`node, this`params, this`paramOrder, this`idsUsed, this`retained
      ensures Valid() && BeforeRaw()
      ensures (rule, State()) == ClaimsStep(old(State()), Context(), nodeId, groupId, groupLabel, priority)
    {
      var done := ClaimLatentSize(nodeId, priority);
      if done {
        return LatentSize;
      }
      ClaimSamplerFields(nodeId, priority);
      var name := ClaimPromptText(groupLabel);
      if name.Some? {
        return PromptText(name.value);
      }
      ClaimRemaining(nodeId, groupId, groupLabel, priority);
      rule := PerField;
    }

    /** One iteration of the main loop (lines 150-314) for node `nodeId`. */
    method ProcessNode(nodeId: string) returns (ghost rule: Rule)
      requires Valid() && BeforeRaw() && nodeId in prompt
      modifies this`node, this`prompt, this`params, this`paramOrder, this`idsUsed, this`retained
      ensures Valid() && BeforeRaw()
      ensures Built() == NodeUpdate(old(Built()), Context(), nodeId)
      ensures rule == NodeStep(St(old(prompt[nodeId]), old(retained), old(Reg(params, paramOrder, idsUsed))), Context(), nodeId).0
    {
      node := prompt[nodeId];
      var groupLabel := GroupLabel(labels, nodeId, node.classType);
      // `groups` (line 149) is never added to, so the renaming of lines 154-156 never happens.
      var groupId := env.clean(LabelOr(labels, nodeId, node.classType));
      var priority := GroupPriority(groupLabel);
      rule := ProcessClaims(nodeId, groupId, groupLabel, priority);
      prompt := prompt[nodeId := node];
    }

    /** The main loop (lines 150-314) over the execution graph, in key order. */
    method ProcessNodes(order: seq<string>)
      requires Valid() && BeforeRaw() && forall id :: id in order ==> id in prompt
      modifies this`node, this`prompt, this`params, this`paramOrder, this`idsUsed, this`retained
      ensures Valid() && BeforeRaw()
      ensures Built() == NodesFold(old(Built()), Context(), order)
    {
      var i := 0;
      while i < |order|
        invariant 0 <= i <= |order|
        invariant Valid() && BeforeRaw() && prompt.Keys == old(prompt).Keys
        invariant Built() == NodesFold(old(Built()), Context(), order[..i])
      {
        assert Init(order[..i + 1]) == order[..i] && Last(order[..i + 1]) == order[i];
        ghost var _ := ProcessNode(order[i]);
        i := i + 1;
      }
      assert order[..|order|] == order;
    }

    /** Line 315: the raw parameter, added last under its own id, which no generated id can take. */
    method AddRaw(order: seq<string>)
      requires Valid() && BeforeRaw()
      modifies this`params, this`paramOrder
      ensures Valid() && RawId !in old(params)
      ensures params == old(params)[RawId := RawParam(env.serialise(order, prompt))] && paramOrder == old(paramOrder) + [RawId]
    {
      assert !StartsWith(RawId, Prefix);
      AddSimpleParam(RawId, Str(env.serialise(order, prompt)), "text", "Comfy Workflow Raw", None, "big", 0.0, 1.0, 1.0,
                     RawId, "comfyworkflow", 10, false, false);
    }

    /** The three passes that build the label, redirect and path maps (lines 101-147). */
    method AnnotateGraphs(workflow: Workflow, order: seq<string>)
      requires Valid() && labels == map[] && statics == map[] && staticUnique == [] && labelPaths == map[]
      requires NoStaticLoop(workflow.nodes, env.clean)
      requires forall id :: id in order ==> id in prompt
      modifies this`labels, this`statics, this`staticUnique, this`labelPaths
      ensures Valid()
      ensures labels == Labels(workflow, order, prompt)
      ensures statics == Redirects(workflow.nodes, workflow.links, env.clean)
      ensures labelPaths == InputPaths(workflow.nodes, map[])
    {
      ScanVisualNodes(workflow.nodes, workflow.links);
      ScanVisualInputs(workflow.nodes);
      ScanPromptLinks(order);
    }

    /** The first pass over the visual nodes (lines 101-119). */
    method ScanVisualNodes(nodes: seq<VisualNode>, links: seq<VisualLink>)
      requires Valid() && labels == map[] && statics == map[] && staticUnique == []
      requires NoStaticLoop(nodes, env.clean)
      modifies this`labels, this`statics, this`staticUnique
      ensures Valid()
      ensures labels == TitleLabels(nodes)
      ensures statics == Redirects(nodes, links, env.clean)
      ensures staticUnique == PrimitiveIds(nodes, env.clean)
    {
      var i := 0;
      while i < |nodes|
        invariant 0 <= i <= |nodes|
        invariant labels == TitleLabels(nodes[..i])
        invariant statics == Redirects(nodes[..i], links, env.clean)
        invariant staticUnique == PrimitiveIds(nodes[..i], env.clean)
      {
        var node := nodes[i];
        assert Init(nodes[..i + 1]) == nodes[..i] && Last(nodes[..i + 1]) == node;
        if node.title != "" {
          labels := labels[Decimal(node.id) := node.title];
        }
        if node.nodeType == "PrimitiveNode" && node.title != "" {
          var id := Prefix + env.clean(node.title);
          NoStaticLoopGuard(nodes, env.clean, i);
          // the de-duplication loop of line 109 does not run
          assert node.title !in staticUnique;
          staticUnique := staticUnique + [id];
          ghost var before, titles, ids := statics, labels, staticUnique;
          var j := 0;
          while j < |links|
            invariant 0 <= j <= |links|
            invariant statics == LinkRedirects(links[..j], node.id, id, before)
            invariant labels == titles && staticUnique == ids
          {
            assert Init(links[..j + 1]) == links[..j] && Last(links[..j + 1]) == links[j];
            if links[j].fromNode == node.id {
              statics := statics[SlotKey(links[j].toNode, links[j].toSlot) := id];
            }
            j := j + 1;
          }
          assert links[..|links|] == links;
        }
        i := i + 1;
      }
      assert nodes[..|nodes|] == nodes;
      forall k | k in statics ensures StartsWith(statics[k], Prefix) {
        RedirectsSound(nodes, links, env.clean, k);
      }
    }

    /** The second pass (lines 120-131): positional paths, and the node's label for every declared input. */
    method ScanVisualInputs(nodes: seq<VisualNode>)
      requires Valid()
      modifies this`labels, this`labelPaths
      ensures Valid()
      ensures labels == InputLabels(nodes, old(labels))
      ensures labelPaths == InputPaths(nodes, old(labelPaths))
    {
      var i := 0;
      while i < |nodes|
        invariant 0 <= i <= |nodes|
        invariant labels == InputLabels(nodes[..i], old(labels))
        invariant labelPaths == InputPaths(nodes[..i], old(labelPaths))
      {
        var node := nodes[i];
        assert Init(nodes[..i + 1]) == nodes[..i] && Last(nodes[..i + 1]) == node;
        var id := Decimal(node.id);
        ghost var l0, p0 := labels, labelPaths;
        var x := 0;
        while x < |node.inputs|
          invariant 0 <= x <= |node.inputs|
          invariant labelPaths == NodeInputPaths(id, node.inputs[..x], p0)
          invariant labels == NodeInputLabels(id, node.inputs[..x], l0)
        {
          assert Init(node.inputs[..x + 1]) == node.inputs[..x] && Last(node.inputs[..x + 1]) == node.inputs[x];
          labelPaths := labelPaths[id + "." + node.inputs[x] := id + "." + Decimal(x)];
          if id in labels {
            labels := labels[id + "." + node.inputs[x] := labels[id]];
          }
          x := x + 1;
        }
        assert node.inputs[..|node.inputs|] == node.inputs;
        i := i + 1;
      }
      assert nodes[..|nodes|] == nodes;
    }

    /** The pass over the execution graph (lines 132-147): sources of prompt links get prompt labels. */
    method ScanPromptLinks(order: seq<string>)
      requires Valid() && forall id :: id in order ==> id in prompt
      modifies this`labels
      ensures Valid()
      ensures labels == PromptLinkLabels(order, prompt, old(labels))
    {
      var i := 0;
      while i < |order|
        invariant 0 <= i <= |order|
        invariant labels == PromptLinkLabels(order[..i], prompt, old(labels))
      {
        var nodeId := order[i];
        var node := prompt[nodeId];
        assert Init(order[..i + 1]) == order[..i] && Last(order[..i + 1]) == nodeId;
        assert NodeOk(node);
        ghost var m0 := labels;
        var keys := node.keys;
        var j := 0;
        while j < |keys|
          invariant 0 <= j <= |keys|
          invariant labels == NodeLinkLabels(node, keys[..j], m0)
        {
          var inputId := keys[j];
          assert Init(keys[..j + 1]) == keys[..j] && Last(keys[..j + 1]) == inputId;
          var val := node.inputs[inputId];
          if val.Link? {
            if inputId == "negative" && val.slot == 0 {
              labels := labels[val.source := "Negative Prompt"];
            } else if inputId == "positive" && val.slot == 0 {
              labels := labels[val.source := "Positive Prompt"];
            }
          }
          j := j + 1;
        }
        assert keys[..|keys|] == keys;
        i := i + 1;
      }
      assert order[..|order|] == order;
    }
  }

  /**
   * `comfyBuildParams` (lines 58-318) on the graphs `comfyGetPromptAndWorkflow`
   * hands it; `order` is `Object.keys(prompt)`.  The builder's `params`,
   * `prompt` and `retained` are the three arguments of the callback (line
   * 316): the main loop's result, with the raw parameter added last.
   */
  method BuildParams(env: Env, workflow: Workflow, prompt: map<string, PromptNode>, order: seq<string>)
    returns (b: ParamBuilder)
    requires EnvOk(env) && PromptOk(prompt)
    requires Distinct(order) && forall id :: id in prompt <==> id in order
    requires NoStaticLoop(workflow.nodes, env.clean)
    ensures fresh(b) && b.Valid() && b.env == env
    ensures b.labels == Labels(workflow, order, prompt)
    ensures b.statics == Redirects(workflow.nodes, workflow.links, env.clean)
    ensures b.labelPaths == InputPaths(workflow.nodes, map[])
    ensures var fin := NodesFold(Build(prompt, ["images", "model"], Reg(map[], [], [])), b.Context(), order);
            && b.prompt == fin.prompt && b.retained == fin.retained && b.idsUsed == fin.reg.used
            && RawId !in fin.reg.params
            && b.paramOrder == fin.reg.order + [RawId]
            && b.params == fin.reg.params[RawId := RawParam(env.serialise(order, fin.prompt))]
  {
    b := new ParamBuilder(env, prompt);
    b.AnnotateGraphs(workflow, order);
    b.ProcessNodes(order);
    b.AddRaw(order);
  }
}
