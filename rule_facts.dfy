/**
 * What the claim rules promise: the invariants every rule keeps, the outcome
 * of each rule in terms of its inputs, and the behaviour of whole nodes in
 * the cases the transform was written for.
 */
module RuleFacts {
  import opened Text
  import opened Graph
  import opened Classify
  import opened Registry
  import opened Annotate
  import opened Rules

  // ---------------------------------------------------------------------
  // addParam
  // ---------------------------------------------------------------------

  /**
   * `addParam` keeps the registry invariant and every earlier definition,
   * leaves `defaultParamsRetain` alone, and rewrites only its own field.
   */
  lemma AddParamStepKeeps(st: St, ctx: Ctx, nodeId: string, inputId: string, base: string, inputLabel: string,
                          val: Value, groupId: string, groupLabel: string, priority: int)
    requires StOk(st) && CtxOk(ctx) && StartsWith(base, Prefix)
    requires inputId in st.node.inputs && st.node.inputs[inputId] == val
    ensures var s := AddParamStep(st, ctx, nodeId, inputId, base, inputLabel, val, groupId, groupLabel, priority).1;
            && StOk(s) && Extends(st.reg.params, s.reg.params) && s.retained == st.retained
            && NodeRewritten(st.node, s.node) && s.node.keys == st.node.keys
            && (forall k :: k in st.node.inputs && k != inputId ==> s.node.inputs[k] == st.node.inputs[k])
  {
    var a := ClassifyField(st.node.classType, nodeId, inputId, val, ctx.env.allModels);
    var r := AddParamId(a, base);
    if !a.Leave? {
      SetInputRewrites(st.node, inputId, AddParamValue(a, inputId, r, val, ctx.env.numText));
    }
    if a.Register? && r !in st.reg.used {
      assert r !in st.reg.params && r !in st.reg.order;
      DistinctAppend(st.reg.order, r);
      DistinctAppend(st.reg.used, r);
    }
  }

  /**
   * The registry effect of `addParam` (lines 241-249): a registering field's
   * id is in `params` afterwards, with its own key as id; the first use adds
   * the definition built from the field, any other call leaves the registry
   * as it was.  The field holds the placeholder naming the returned id.
   */
  lemma AddParamStepRegisters(st: St, ctx: Ctx, nodeId: string, inputId: string, base: string, inputLabel: string,
                              val: Value, groupId: string, groupLabel: string, priority: int)
    requires RegOk(st.reg)
    ensures var a := ClassifyField(st.node.classType, nodeId, inputId, val, ctx.env.allModels);
            var (r, s) := AddParamStep(st, ctx, nodeId, inputId, base, inputLabel, val, groupId, groupLabel, priority);
            && r == AddParamId(a, base)
            && (a.Register? ==> r in s.reg.params && r in s.reg.used && s.reg.params[r].id == r)
            && (a.Register? && r !in st.reg.used ==>
                  && s.reg.params == st.reg.params[r := ParamFor(a.kind, inputLabel, val, groupLabel, r, groupId, priority)]
                  && s.reg.order == st.reg.order + [r])
            && (!(a.Register? && r !in st.reg.used) ==> s.reg == st.reg)
            && (a.Register? ==> s.node.inputs[inputId] == Str(if val.Num? then NumericPlaceholder(r, a.kind.asSeed, ctx.env.numText(val.n))
                                                            else StringPlaceholder(r, val.s)))
            && (a.Leave? ==> s.node == st.node)
            && s.retained == st.retained
  {
  }

  // ---------------------------------------------------------------------
  // claimOnce
  // ---------------------------------------------------------------------

  /** `claimOnce` keeps every invariant, rewrites only the claimed field, and only appends to `defaultParamsRetain`. */
  lemma ClaimOnceStepKeeps(st: St, ctx: Ctx, nodeId: string, priority: int, c: Claim)
    requires StOk(st) && CtxOk(ctx)
    ensures var s := ClaimOnceStep(st, ctx, nodeId, priority, c).1;
            && StOk(s) && Extends(st.reg.params, s.reg.params)
            && NodeRewritten(st.node, s.node) && s.node.keys == st.node.keys
            && (forall k :: k in st.node.inputs && k != c.field ==> s.node.inputs[k] == st.node.inputs[k])
            && st.retained <= s.retained
  {
    var n := st.node;
    if n.classType == c.classType && c.field in n.inputs && (if c.numeric then n.inputs[c.field].Num? else n.inputs[c.field].Str?) {
      var val := n.inputs[c.field];
      match Redirect(ctx.statics, ctx.labelPaths, nodeId, c.field)
      case Some(redirect) =>
        AddParamStepKeeps(st, ctx, nodeId, c.field, redirect, Drop(redirect, |Prefix|), val, "primitives", "Primitives", priority);
        var (id, st1) := AddParamStep(st, ctx, nodeId, c.field, redirect, Drop(redirect, |Prefix|), val, "primitives", "Primitives", priority);
        var text := Str(ClaimText(id, val, c.numeric, ctx.env.numText));
        SetInputRewrites(st1.node, c.field, text);
        NodeRewrittenTrans(n, st1.node, SetInput(st1.node, c.field, text));
      case None =>
        var cleaned := ctx.env.clean(c.paramName);
        if cleaned !in st.retained {
          RetainAppend(st.retained, cleaned);
          SetInputRewrites(n, c.field, Str(ClaimText(c.paramName, val, c.numeric, ctx.env.numText)));
        }
    }
  }

  /**
   * When `claimOnce` claims (lines 252-270) and what it leaves: an unclaimed
   * call changes nothing; a claim writes the claim's placeholder into the
   * field, naming the parameter itself (line 272) or, for a redirected
   * field, the id `addParam` returned for the primitive; only a claim by
   * name is retained.
   */
  lemma ClaimOnceStepResult(st: St, ctx: Ctx, nodeId: string, priority: int, c: Claim)
    ensures var redirect := Redirect(ctx.statics, ctx.labelPaths, nodeId, c.field);
            var (ok, s) := ClaimOnceStep(st, ctx, nodeId, priority, c);
            && ok == ClaimSucceeds(st.node, c.classType, c.field, c.numeric, redirect, ctx.env.clean(c.paramName), st.retained)
            && (!ok ==> s == st)
            && (ok ==>
                  var val := st.node.inputs[c.field];
                  var id := if redirect.None? then c.paramName
                            else AddParamId(ClassifyField(c.classType, nodeId, c.field, val, ctx.env.allModels), redirect.value);
                  && s.node == SetInput(st.node, c.field, Str(ClaimText(id, val, c.numeric, ctx.env.numText)))
                  && s.retained == st.retained + (if redirect.None? then [ctx.env.clean(c.paramName)] else []))
            && (ok && redirect.None? ==> s.reg == st.reg)
  {
    var n := st.node;
    if n.classType == c.classType && c.field in n.inputs && (if c.numeric then n.inputs[c.field].Num? else n.inputs[c.field].Str?) {
      var val := n.inputs[c.field];
      match Redirect(ctx.statics, ctx.labelPaths, nodeId, c.field)
      case Some(redirect) =>
        var a := ClassifyField(c.classType, nodeId, c.field, val, ctx.env.allModels);
        var id := AddParamId(a, redirect);
        SetInputTwice(n, c.field, AddParamValue(a, c.field, id, val, ctx.env.numText), Str(ClaimText(id, val, c.numeric, ctx.env.numText)));
      case None =>
    }
  }

  /**
   * The redirect branch registers (lines 261-265): a claimed field fed by a
   * primitive is registered, under the primitive's type-injected id, and that
   * id is a key of `params` afterwards; its first use defines it in the
   * `Primitives` group, labelled by the primitive's name.
   */
  lemma ClaimOnceStepRegisters(st: St, ctx: Ctx, nodeId: string, priority: int, c: Claim)
    requires RegOk(st.reg)
    requires c.field != "batch_size" && c.classType != "SaveImage" && c.classType != "CheckpointLoaderSimple"
    ensures var redirect := Redirect(ctx.statics, ctx.labelPaths, nodeId, c.field);
            var (ok, s) := ClaimOnceStep(st, ctx, nodeId, priority, c);
            ok && redirect.Some? ==>
              var val := st.node.inputs[c.field];
              var a := ClassifyField(c.classType, nodeId, c.field, val, ctx.env.allModels);
              var id := AddParamId(a, redirect.value);
              && a.Register? && id == InjectType(redirect.value, a.kind.ptype)
              && id in s.reg.params && id in s.reg.used && s.reg.params[id].id == id
              && (id !in st.reg.used ==>
                    && s.reg.params == st.reg.params[id := ParamFor(a.kind, Drop(redirect.value, |Prefix|), val, "Primitives", id, "primitives", priority)]
                    && s.reg.order == st.reg.order + [id])
              && (id in st.reg.used ==> s.reg == st.reg)
  {
    var n := st.node;
    if n.classType == c.classType && c.field in n.inputs && (if c.numeric then n.inputs[c.field].Num? else n.inputs[c.field].Str?) {
      var val := n.inputs[c.field];
      match Redirect(ctx.statics, ctx.labelPaths, nodeId, c.field)
      case Some(redirect) =>
        AddParamStepRegisters(st, ctx, nodeId, c.field, redirect, Drop(redirect, |Prefix|), val, "primitives", "Primitives", priority);
      case None =>
    }
  }

  // ---------------------------------------------------------------------
  // The latent-size rule
  // ---------------------------------------------------------------------

  /** The latent-size rule keeps every invariant and touches only `width`, `height` and `batch_size`. */
  lemma LatentStepKeeps(st: St, ctx: Ctx, nodeId: string, priority: int)
    requires StOk(st) && CtxOk(ctx)
    ensures var s := LatentStep(st, ctx, nodeId, priority).1;
            && StOk(s) && Extends(st.reg.params, s.reg.params) && NodeRewritten(st.node, s.node)
            && (forall k :: k in st.node.inputs && k != "width" && k != "height" && k != "batch_size" ==> s.node.inputs[k] == st.node.inputs[k])
  {
    ClaimOnceStepKeeps(st, ctx, nodeId, priority, WidthClaim);
    var (w, s1) := ClaimOnceStep(st, ctx, nodeId, priority, WidthClaim);
    if w {
      ClaimOnceStepKeeps(s1, ctx, nodeId, priority, HeightClaim);
      var (h, s2) := ClaimOnceStep(s1, ctx, nodeId, priority, HeightClaim);
      NodeRewrittenTrans(st.node, s1.node, s2.node);
      if h {
        RetainAppend(s2.retained, "aspectratio");
        SetInputRewrites(s2.node, "batch_size", Num(1.0));
        NodeRewrittenTrans(st.node, s2.node, SetInput(s2.node, "batch_size", Num(1.0)));
      }
    }
  }

  /**
   * Lines 277-281: the rule ends the node exactly when the width claim and
   * then the height claim both succeed; the height claim sees the retained
   * list the width claim left.  Because `&&` short-circuits, a claimed width
   * stays rewritten even when the height claim fails, and a failed width
   * claim changes nothing.
   */
  lemma LatentStepOutcome(st: St, ctx: Ctx, nodeId: string, priority: int)
    ensures var rw := Redirect(ctx.statics, ctx.labelPaths, nodeId, "width");
            var rh := Redirect(ctx.statics, ctx.labelPaths, nodeId, "height");
            var afterWidth := st.retained + (if rw.None? then [ctx.env.clean("width")] else []);
            var wOk := ClaimSucceeds(st.node, "EmptyLatentImage", "width", true, rw, ctx.env.clean("width"), st.retained);
            var hOk := ClaimSucceeds(st.node, "EmptyLatentImage", "height", true, rh, ctx.env.clean("height"), afterWidth);
            var (done, s) := LatentStep(st, ctx, nodeId, priority);
            && (done <==> wOk && hOk)
            && (!wOk ==> s == st)
            && (wOk ==> "width" in s.node.inputs && s.node.inputs["width"].Str? && StartsWith(s.node.inputs["width"].s, NumOpen))
            && (wOk && !hOk ==> s.retained == afterWidth)
            && (done ==>
                  && "height" in s.node.inputs && s.node.inputs["height"].Str? && StartsWith(s.node.inputs["height"].s, NumOpen)
                  && "batch_size" in s.node.inputs && s.node.inputs["batch_size"] == Num(1.0)
                  && s.retained == afterWidth + (if rh.None? then [ctx.env.clean("height")] else []) + ["aspectratio"])
  {
    ClaimOnceStepResult(st, ctx, nodeId, priority, WidthClaim);
    var (w, s1) := ClaimOnceStep(st, ctx, nodeId, priority, WidthClaim);
    if w {
      ClaimOnceStepResult(s1, ctx, nodeId, priority, HeightClaim);
    }
  }

  /**
   * The case the rule was written for: an `EmptyLatentImage` node with
   * numeric `width` and `height`, no primitive feeding them, and neither
   * name retained yet.  Both fields get the claim placeholders, the batch
   * size is forced to 1, both names and `aspectratio` are retained, and
   * nothing is registered.
   */
  lemma EmptyLatentScenario(st: St, ctx: Ctx, nodeId: string, priority: int, w: real, h: real)
    requires st.node.classType == "EmptyLatentImage"
    requires "width" in st.node.inputs && st.node.inputs["width"] == Num(w)
    requires "height" in st.node.inputs && st.node.inputs["height"] == Num(h)
    requires Redirect(ctx.statics, ctx.labelPaths, nodeId, "width").None?
    requires Redirect(ctx.statics, ctx.labelPaths, nodeId, "height").None?
    requires ctx.env.clean("width") !in st.retained && ctx.env.clean("height") !in st.retained
    requires ctx.env.clean("width") != ctx.env.clean("height")
    ensures var (done, s) := LatentStep(st, ctx, nodeId, priority);
            && done && s.reg == st.reg
            && s.retained == st.retained + [ctx.env.clean("width"), ctx.env.clean("height"), "aspectratio"]
            && s.node.inputs == st.node.inputs["width" := Str(NumericPlaceholder("width", false, ctx.env.numText(w)))]
                                              ["height" := Str(NumericPlaceholder("height", false, ctx.env.numText(h)))]
                                              ["batch_size" := Num(1.0)]
  {
    ClaimOnceStepResult(st, ctx, nodeId, priority, WidthClaim);
    var s1 := ClaimOnceStep(st, ctx, nodeId, priority, WidthClaim).1;
    ClaimOnceStepResult(s1, ctx, nodeId, priority, HeightClaim);
    assert st.retained + [ctx.env.clean("width")] + [ctx.env.clean("height")] + ["aspectratio"]
        == st.retained + [ctx.env.clean("width"), ctx.env.clean("height"), "aspectratio"];
  }

  // ---------------------------------------------------------------------
  // The sampler claims
  // ---------------------------------------------------------------------

  /** The fields a sequence of claims names, in order. */
  function Fields(claims: seq<Claim>): seq<string>
    decreases |claims|
  {
    if claims == [] then [] else Fields(Init(claims)) + [Last(claims).field]
  }

  /** The cleaned parameter names of a sequence of claims, in order. */
  function Cleaned(claims: seq<Claim>, clean: string -> string): seq<string>
    decreases |claims|
  {
    if claims == [] then [] else Cleaned(Init(claims), clean) + [clean(Last(claims).paramName)]
  }

  lemma {:induction false} FieldsMembers(claims: seq<Claim>, k: string)
    ensures k in Fields(claims) <==> exists c :: c in claims && c.field == k
    decreases |claims|
  {
    if claims != [] {
      FieldsMembers(Init(claims), k);
      assert claims == Init(claims) + [Last(claims)];
    }
  }

  /** The claims keep every invariant and rewrite only the fields they name. */
  lemma {:induction false} SamplerFoldKeeps(st: St, ctx: Ctx, nodeId: string, priority: int, claims: seq<Claim>)
    requires StOk(st) && CtxOk(ctx)
    ensures var s := SamplerFold(st, ctx, nodeId, priority, claims);
            && StOk(s) && Extends(st.reg.params, s.reg.params)
            && NodeRewritten(st.node, s.node) && s.node.keys == st.node.keys && st.retained <= s.retained
            && (forall k :: k in st.node.inputs && k !in Fields(claims) ==> s.node.inputs[k] == st.node.inputs[k])
    decreases |claims|
  {
    if claims != [] {
      SamplerFoldKeeps(st, ctx, nodeId, priority, Init(claims));
      var s1 := SamplerFold(st, ctx, nodeId, priority, Init(claims));
      ClaimOnceStepKeeps(s1, ctx, nodeId, priority, Last(claims));
      NodeRewrittenTrans(st.node, s1.node, SamplerFold(st, ctx, nodeId, priority, claims).node);
    }
  }

  /** Claims for another class of node change nothing. */
  lemma {:induction false} SamplerFoldOtherClass(st: St, ctx: Ctx, nodeId: string, priority: int, claims: seq<Claim>)
    requires forall c :: c in claims ==> c.classType != st.node.classType
    ensures SamplerFold(st, ctx, nodeId, priority, claims) == st
    decreases |claims|
  {
    if claims != [] {
      assert claims == Init(claims) + [Last(claims)];
      SamplerFoldOtherClass(st, ctx, nodeId, priority, Init(claims));
    }
  }

  lemma {:induction false} SamplerFoldConcat(st: St, ctx: Ctx, nodeId: string, priority: int, a: seq<Claim>, b: seq<Claim>)
    ensures SamplerFold(st, ctx, nodeId, priority, a + b) == SamplerFold(SamplerFold(st, ctx, nodeId, priority, a), ctx, nodeId, priority, b)
    decreases |b|
  {
    if b == [] {
      assert a + b == a;
    } else {
      assert Init(a + b) == a + Init(b) && Last(a + b) == Last(b);
      SamplerFoldConcat(st, ctx, nodeId, priority, a, Init(b));
    }
  }

  /**
   * Claims that all succeed by name: every claim is for the node's class, its
   * field holds a value of the claimed kind, no primitive feeds it, the
   * fields and the cleaned names are distinct, and no name is retained yet.
   */
  ghost predicate ByName(st: St, ctx: Ctx, nodeId: string, claims: seq<Claim>) {
    && (forall c :: c in claims ==>
          && c.classType == st.node.classType && c.field in st.node.inputs
          && (if c.numeric then st.node.inputs[c.field].Num? else st.node.inputs[c.field].Str?)
          && Redirect(ctx.statics, ctx.labelPaths, nodeId, c.field).None?)
    && Distinct(Fields(claims))
    && Distinct(Cleaned(claims, ctx.env.clean))
    && (forall x :: x in Cleaned(claims, ctx.env.clean) ==> x !in st.retained)
  }

  /**
   * Claims by name, made one after the other: each field holds the
   * placeholder of its own parameter name, the cleaned names are retained in
   * order, nothing is registered and no other field changes.
   */
  lemma {:induction false} SamplerFoldByName(st: St, ctx: Ctx, nodeId: string, priority: int, claims: seq<Claim>)
    requires ByName(st, ctx, nodeId, claims)
    ensures var s := SamplerFold(st, ctx, nodeId, priority, claims);
            && s.reg == st.reg
            && s.retained == st.retained + Cleaned(claims, ctx.env.clean)
            && s.node.classType == st.node.classType && s.node.keys == st.node.keys
            && s.node.inputs.Keys == st.node.inputs.Keys
            && (forall c :: c in claims ==>
                  s.node.inputs[c.field] == Str(ClaimText(c.paramName, st.node.inputs[c.field], c.numeric, ctx.env.numText)))
            && (forall k :: k in st.node.inputs && k !in Fields(claims) ==> s.node.inputs[k] == st.node.inputs[k])
    decreases |claims|
  {
    if claims != [] {
      var init, c := Init(claims), Last(claims);
      assert claims == init + [c];
      DistinctAppend(Fields(init), c.field);
      DistinctAppend(Cleaned(init, ctx.env.clean), ctx.env.clean(c.paramName));
      SamplerFoldByName(st, ctx, nodeId, priority, init);
      var s1 := SamplerFold(st, ctx, nodeId, priority, init);
      ClaimOnceStepResult(s1, ctx, nodeId, priority, c);
      forall c' | c' in claims
        ensures SamplerFold(st, ctx, nodeId, priority, claims).node.inputs[c'.field]
             == Str(ClaimText(c'.paramName, st.node.inputs[c'.field], c'.numeric, ctx.env.numText))
      {
        if c' != c {
          FieldsMembers(init, c'.field);
        }
      }
    }
  }

  /** Claims for the other class change nothing, so the sampler claims reduce to the node's own five. */
  lemma SamplerFoldKSampler(st: St, ctx: Ctx, nodeId: string, priority: int)
    requires st.node.classType == "KSampler"
    ensures SamplerFold(st, ctx, nodeId, priority, SamplerClaims) == SamplerFold(st, ctx, nodeId, priority, KSamplerClaims)
  {
    var s5 := SamplerFold(st, ctx, nodeId, priority, KSamplerClaims);
    SamplerFoldKeeps5(st, ctx, nodeId, priority);
    SamplerFoldOtherClass(s5, ctx, nodeId, priority, AdvancedClaims);
    SamplerFoldConcat(st, ctx, nodeId, priority, KSamplerClaims, AdvancedClaims);
  }

  /** The `KSampler` claims keep the node's class. */
  lemma SamplerFoldKeeps5(st: St, ctx: Ctx, nodeId: string, priority: int)
    ensures SamplerFold(st, ctx, nodeId, priority, KSamplerClaims).node.classType == st.node.classType
  {
    SamplerFoldClass(st, ctx, nodeId, priority, KSamplerClaims);
  }

  /** No claim changes the class of a node. */
  lemma {:induction false} SamplerFoldClass(st: St, ctx: Ctx, nodeId: string, priority: int, claims: seq<Claim>)
    ensures SamplerFold(st, ctx, nodeId, priority, claims).node.classType == st.node.classType
    decreases |claims|
  {
    if claims != [] {
      SamplerFoldClass(st, ctx, nodeId, priority, Init(claims));
      ClaimOnceStepResult(SamplerFold(st, ctx, nodeId, priority, Init(claims)), ctx, nodeId, priority, Last(claims));
    }
  }

  /** The fields and the cleaned names of the five `KSampler` claims, in order. */
  lemma KSamplerFields(clean: string -> string)
    ensures Fields(KSamplerClaims) == ["seed", "steps", "sampler_name", "scheduler", "cfg"]
    ensures Cleaned(KSamplerClaims, clean) == [clean("seed"), clean("steps"), clean("comfy_sampler"), clean("comfy_scheduler"), clean("cfg_scale")]
  {
    var c0, c1, c2, c3, c4 := KSamplerClaims[0], KSamplerClaims[1], KSamplerClaims[2], KSamplerClaims[3], KSamplerClaims[4];
    FieldsSnoc([], c0, clean);
    assert [] + [c0] == [c0];
    FieldsSnoc([c0], c1, clean);
    assert [c0] + [c1] == [c0, c1];
    FieldsSnoc([c0, c1], c2, clean);
    assert [c0, c1] + [c2] == [c0, c1, c2];
    FieldsSnoc([c0, c1, c2], c3, clean);
    assert [c0, c1, c2] + [c3] == [c0, c1, c2, c3];
    FieldsSnoc([c0, c1, c2, c3], c4, clean);
    assert [c0, c1, c2, c3] + [c4] == [c0, c1, c2, c3, c4] == KSamplerClaims;
  }

  lemma FieldsSnoc(claims: seq<Claim>, c: Claim, clean: string -> string)
    ensures Fields(claims + [c]) == Fields(claims) + [c.field]
    ensures Cleaned(claims + [c], clean) == Cleaned(claims, clean) + [clean(c.paramName)]
  {
    assert Init(claims + [c]) == claims;
  }

  /** The five `KSampler` claims name five different fields. */
  lemma KSamplerFieldsDistinct()
    ensures Distinct(["seed", "steps", "sampler_name", "scheduler", "cfg"])
  {
    var fields := ["seed", "steps", "sampler_name", "scheduler", "cfg"];
    forall i, j | 0 <= i < j < |fields| ensures At(fields, i) != At(fields, j) {
      assert fields[i][..2] != fields[j][..2] || |fields[i]| != |fields[j]|;
    }
  }

  /** The scenario below makes the five `KSampler` claims claims by name. */
  lemma KSamplerByName(st: St, ctx: Ctx, nodeId: string)
    requires st.node.classType == "KSampler"
    requires "seed" in st.node.inputs && st.node.inputs["seed"].Num?
    requires "steps" in st.node.inputs && st.node.inputs["steps"].Num?
    requires "sampler_name" in st.node.inputs && st.node.inputs["sampler_name"].Str?
    requires "scheduler" in st.node.inputs && st.node.inputs["scheduler"].Str?
    requires "cfg" in st.node.inputs && st.node.inputs["cfg"].Num?
    requires forall f :: f in ["seed", "steps", "sampler_name", "scheduler", "cfg"] ==> Redirect(ctx.statics, ctx.labelPaths, nodeId, f).None?
    requires var names := [ctx.env.clean("seed"), ctx.env.clean("steps"), ctx.env.clean("comfy_sampler"),
                           ctx.env.clean("comfy_scheduler"), ctx.env.clean("cfg_scale")];
             Distinct(names) && forall x :: x in names ==> x !in st.retained
    ensures ByName(st, ctx, nodeId, KSamplerClaims)
  {
    KSamplerFields(ctx.env.clean);
    KSamplerFieldsDistinct();
    forall c | c in KSamplerClaims
      ensures && c.classType == st.node.classType && c.field in st.node.inputs
              && (if c.numeric then st.node.inputs[c.field].Num? else st.node.inputs[c.field].Str?)
              && Redirect(ctx.statics, ctx.labelPaths, nodeId, c.field).None?
    {
      var i :| 0 <= i < 5 && KSamplerClaims[i] == c;
      assert c.field == Fields(KSamplerClaims)[i];
    }
  }

  /**
   * The case the sampler claims were written for: a `KSampler` node whose
   * five fields hold values of the claimed kinds, with no primitive feeding
   * them and none of the five names retained yet.  Each field gets the
   * placeholder of its semantic parameter (with no `+seed`), the five
   * cleaned names are retained in order, nothing is registered, no other
   * field changes, and the `KSamplerAdvanced` claims do nothing.
   */
  lemma KSamplerScenario(st: St, ctx: Ctx, nodeId: string, priority: int,
                         seed: real, steps: real, sampler: string, scheduler: string, cfg: real)
    requires st.node.classType == "KSampler"
    requires "seed" in st.node.inputs && st.node.inputs["seed"] == Num(seed)
    requires "steps" in st.node.inputs && st.node.inputs["steps"] == Num(steps)
    requires "sampler_name" in st.node.inputs && st.node.inputs["sampler_name"] == Str(sampler)
    requires "scheduler" in st.node.inputs && st.node.inputs["scheduler"] == Str(scheduler)
    requires "cfg" in st.node.inputs && st.node.inputs["cfg"] == Num(cfg)
    requires forall f :: f in ["seed", "steps", "sampler_name", "scheduler", "cfg"] ==> Redirect(ctx.statics, ctx.labelPaths, nodeId, f).None?
    requires var names := [ctx.env.clean("seed"), ctx.env.clean("steps"), ctx.env.clean("comfy_sampler"),
                           ctx.env.clean("comfy_scheduler"), ctx.env.clean("cfg_scale")];
             Distinct(names) && forall x :: x in names ==> x !in st.retained
    ensures var s := SamplerFold(st, ctx, nodeId, priority, SamplerClaims);
            && s.reg == st.reg
            && s.retained == st.retained + [ctx.env.clean("seed"), ctx.env.clean("steps"), ctx.env.clean("comfy_sampler"),
                                            ctx.env.clean("comfy_scheduler"), ctx.env.clean("cfg_scale")]
            && s.node.keys == st.node.keys
            && s.node.inputs.Keys == st.node.inputs.Keys
            && s.node.inputs["seed"] == Str(NumericPlaceholder("seed", false, ctx.env.numText(seed)))
            && s.node.inputs["steps"] == Str(NumericPlaceholder("steps", false, ctx.env.numText(steps)))
            && s.node.inputs["sampler_name"] == Str(StringPlaceholder("comfy_sampler", sampler))
            && s.node.inputs["scheduler"] == Str(StringPlaceholder("comfy_scheduler", scheduler))
            && s.node.inputs["cfg"] == Str(NumericPlaceholder("cfg_scale", false, ctx.env.numText(cfg)))
            && forall k :: k in st.node.inputs && k !in ["seed", "steps", "sampler_name", "scheduler", "cfg"] ==>
                 s.node.inputs[k] == st.node.inputs[k]
  {
    SamplerFoldKSampler(st, ctx, nodeId, priority);
    KSamplerFields(ctx.env.clean);
    KSamplerByName(st, ctx, nodeId);
    SamplerFoldByName(st, ctx, nodeId, priority, KSamplerClaims);
    var c := KSamplerClaims;
    assert c[0] in c && c[1] in c && c[2] in c && c[3] in c && c[4] in c;
  }

  // ---------------------------------------------------------------------
  // The prompt rule
  // ---------------------------------------------------------------------

  /**
   * Lines 292-301: a `CLIPTextEncode` node whose group label starts with
   * `Positive Prompt` (resp. `Negative Prompt`) has its text replaced by the
   * `prompt` (resp. `negativeprompt`) placeholder, once per workflow; no
   * label starts with both.  Otherwise nothing changes.
   */
  lemma PromptStepOutcome(st: St, groupLabel: string)
    ensures var n := st.node;
            var textOk := n.classType == "CLIPTextEncode" && "text" in n.inputs && n.inputs["text"].Str?;
            var pos := textOk && StartsWith(groupLabel, "Positive Prompt") && "prompt" !in st.retained;
            var neg := textOk && StartsWith(groupLabel, "Negative Prompt") && "negativeprompt" !in st.retained;
            var (name, s) := PromptStep(st, groupLabel);
            && !(pos && neg)
            && (name == Some("prompt") <==> pos)
            && (name == Some("negativeprompt") <==> neg)
            && (name.None? <==> !pos && !neg)
            && (name.None? ==> s == st)
            && (name.Some? ==> && s.reg == st.reg && s.retained == st.retained + [name.value]
                                && s.node == SetInput(n, "text", Str("${" + name.value + "}")))
  {
    assert "${" + "prompt" + "}" == "${prompt}";
    assert "${" + "negativeprompt" + "}" == "${negativeprompt}";
  }

  /** The prompt rule keeps every invariant and touches only `text`. */
  lemma PromptStepKeeps(st: St, groupLabel: string)
    requires StOk(st)
    ensures var s := PromptStep(st, groupLabel).1;
            && StOk(s) && s.reg == st.reg && st.retained <= s.retained
            && NodeRewritten(st.node, s.node) && s.node.keys == st.node.keys
            && (forall k :: k in st.node.inputs && k != "text" ==> s.node.inputs[k] == st.node.inputs[k])
  {
    var (name, s) := PromptStep(st, groupLabel);
    if name.Some? {
      RetainAppend(st.retained, name.value);
      assert StartsWith("${" + name.value + "}", "${");
      SetInputRewrites(st.node, "text", Str("${" + name.value + "}"));
    }
  }

  // ---------------------------------------------------------------------
  // The generic rule
  // ---------------------------------------------------------------------

  /** What the generic rule does to a field depends only on the node's class and that field's value. */
  lemma GenericValueLocal(n1: PromptNode, n2: PromptNode, ctx: Ctx, nodeId: string, inputId: string, groupLabel: string)
    requires inputId in n1.inputs && inputId in n2.inputs
    requires n1.classType == n2.classType && n1.inputs[inputId] == n2.inputs[inputId]
    ensures GenericAction(n1, ctx, nodeId, inputId) == GenericAction(n2, ctx, nodeId, inputId)
    ensures GenericId(n1, ctx, nodeId, inputId, groupLabel) == GenericId(n2, ctx, nodeId, inputId, groupLabel)
    ensures GenericValue(n1, ctx, nodeId, inputId, groupLabel) == GenericValue(n2, ctx, nodeId, inputId, groupLabel)
  {
  }

  /** One field of the generic loop keeps every invariant and touches only that field. */
  lemma GenericStepKeeps(st: St, ctx: Ctx, nodeId: string, groupId: string, groupLabel: string, priority: int, inputId: string)
    requires StOk(st) && CtxOk(ctx)
    ensures var s := GenericStep(st, ctx, nodeId, groupId, groupLabel, priority, inputId);
            && StOk(s) && Extends(st.reg.params, s.reg.params) && s.retained == st.retained
            && NodeRewritten(st.node, s.node) && s.node.keys == st.node.keys && s.node.inputs.Keys == st.node.inputs.Keys
            && (forall k :: k in st.node.inputs && k != inputId ==> s.node.inputs[k] == st.node.inputs[k])
  {
    if inputId in st.node.inputs {
      var val := st.node.inputs[inputId];
      if !GenericSkips(st.node.classType, inputId, val, ctx.env.numText) {
        var base := GenericBase(ctx.statics, ctx.labelPaths, ctx.env.clean, nodeId, inputId, groupLabel);
        AddParamStepKeeps(st, ctx, nodeId, inputId, base, LabelOr(ctx.labels, nodeId + "." + inputId, inputId), val, groupId, groupLabel, priority);
      }
    }
  }

  /**
   * One field of the generic loop (lines 303-312): the field gets the value
   * `GenericValue` names; a field that registers has its id in `params`
   * afterwards, defined on first use from its label and value in the node's
   * group; a skipped or unregistered field leaves the registry alone.
   */
  lemma GenericStepOutcome(st: St, ctx: Ctx, nodeId: string, groupId: string, groupLabel: string, priority: int, inputId: string)
    requires RegOk(st.reg)
    ensures var s := GenericStep(st, ctx, nodeId, groupId, groupLabel, priority, inputId);
            && (inputId !in st.node.inputs ==> s == st)
            && (inputId in st.node.inputs ==>
                  var val := st.node.inputs[inputId];
                  var a := GenericAction(st.node, ctx, nodeId, inputId);
                  var id := GenericId(st.node, ctx, nodeId, inputId, groupLabel);
                  var registers := !GenericSkips(st.node.classType, inputId, val, ctx.env.numText) && a.Register?;
                  && s.node.classType == st.node.classType && s.retained == st.retained
                  && s.node.inputs == st.node.inputs[inputId := GenericValue(st.node, ctx, nodeId, inputId, groupLabel)]
                  && (registers ==> id in s.reg.params && id in s.reg.used && s.reg.params[id].id == id)
                  && (registers && id !in st.reg.used ==>
                        && s.reg.params == st.reg.params[id := ParamFor(a.kind, LabelOr(ctx.labels, nodeId + "." + inputId, inputId),
                                                                        val, groupLabel, id, groupId, priority)]
                        && s.reg.order == st.reg.order + [id])
                  && (!registers || id in st.reg.used ==> s.reg == st.reg))
  {
    if inputId in st.node.inputs {
      var val := st.node.inputs[inputId];
      if GenericSkips(st.node.classType, inputId, val, ctx.env.numText) {
        assert st.node.inputs[inputId := val] == st.node.inputs;
      } else {
        var base := GenericBase(ctx.statics, ctx.labelPaths, ctx.env.clean, nodeId, inputId, groupLabel);
        AddParamStepRegisters(st, ctx, nodeId, inputId, base, LabelOr(ctx.labels, nodeId + "." + inputId, inputId), val, groupId, groupLabel, priority);
        if GenericAction(st.node, ctx, nodeId, inputId).Leave? {
          assert st.node.inputs[inputId := val] == st.node.inputs;
        }
      }
    }
  }

  /** The generic loop keeps every invariant and touches only the fields it passes over. */
  lemma {:induction false} GenericFoldKeeps(st: St, ctx: Ctx, nodeId: string, groupId: string, groupLabel: string, priority: int, keys: seq<string>)
    requires StOk(st) && CtxOk(ctx)
    ensures var s := GenericFold(st, ctx, nodeId, groupId, groupLabel, priority, keys);
            && StOk(s) && Extends(st.reg.params, s.reg.params) && s.retained == st.retained
            && NodeRewritten(st.node, s.node) && s.node.keys == st.node.keys && s.node.inputs.Keys == st.node.inputs.Keys
            && (forall k :: k in st.node.inputs && k !in keys ==> s.node.inputs[k] == st.node.inputs[k])
    decreases |keys|
  {
    if keys != [] {
      GenericFoldKeeps(st, ctx, nodeId, groupId, groupLabel, priority, Init(keys));
      var s1 := GenericFold(st, ctx, nodeId, groupId, groupLabel, priority, Init(keys));
      GenericStepKeeps(s1, ctx, nodeId, groupId, groupLabel, priority, Last(keys));
      NodeRewrittenTrans(st.node, s1.node, GenericFold(st, ctx, nodeId, groupId, groupLabel, priority, keys).node);
      assert keys == Init(keys) + [Last(keys)];
    }
  }

  /**
   * Over distinct fields, the generic loop leaves each field with the value
   * the rule computes from the field's value before the loop, and every
   * field that registers has its id in `params` afterwards.
   */
  lemma {:induction false} GenericFoldValues(st: St, ctx: Ctx, nodeId: string, groupId: string, groupLabel: string, priority: int, keys: seq<string>)
    requires StOk(st) && CtxOk(ctx) && Distinct(keys)
    ensures var s := GenericFold(st, ctx, nodeId, groupId, groupLabel, priority, keys);
            && (forall k :: k in keys && k in st.node.inputs ==>
                  k in s.node.inputs && s.node.inputs[k] == GenericValue(st.node, ctx, nodeId, k, groupLabel))
            && (forall k :: (&& k in keys && k in st.node.inputs
                             && !GenericSkips(st.node.classType, k, st.node.inputs[k], ctx.env.numText)
                             && GenericAction(st.node, ctx, nodeId, k).Register?) ==>
                  GenericId(st.node, ctx, nodeId, k, groupLabel) in s.reg.params)
    decreases |keys|
  {
    if keys != [] {
      var init, x := Init(keys), Last(keys);
      assert keys == init + [x];
      DistinctAppend(init, x);
      GenericFoldValues(st, ctx, nodeId, groupId, groupLabel, priority, init);
      GenericFoldKeeps(st, ctx, nodeId, groupId, groupLabel, priority, init);
      var s1 := GenericFold(st, ctx, nodeId, groupId, groupLabel, priority, init);
      GenericStepKeeps(s1, ctx, nodeId, groupId, groupLabel, priority, x);
      GenericStepOutcome(s1, ctx, nodeId, groupId, groupLabel, priority, x);
      if x in st.node.inputs {
        GenericValueLocal(s1.node, st.node, ctx, nodeId, x, groupLabel);
      }
    }
  }

  /**
   * A field the generic loop has nothing more to do with: a value it skips,
   * a rewrite value, or a value that is neither number nor string.
   */
  predicate Settled(classType: string, k: string, v: Value, numText: real -> string) {
    GenericSkips(classType, k, v, numText) || IsRewriteValue(k, v) || v.Link? || v.Other?
  }

  /** The value the generic rule leaves is settled. */
  lemma GenericValueSettled(n: PromptNode, ctx: Ctx, nodeId: string, inputId: string, groupLabel: string)
    requires inputId in n.inputs
    ensures Settled(n.classType, inputId, GenericValue(n, ctx, nodeId, inputId, groupLabel), ctx.env.numText)
  {
  }

  /** The generic rule leaves a settled field, and the whole state, as it was. */
  lemma GenericStepSettled(st: St, ctx: Ctx, nodeId: string, groupId: string, groupLabel: string, priority: int, inputId: string)
    requires inputId in st.node.inputs ==> Settled(st.node.classType, inputId, st.node.inputs[inputId], ctx.env.numText)
    ensures GenericStep(st, ctx, nodeId, groupId, groupLabel, priority, inputId) == st
  {
    if inputId in st.node.inputs {
      var val := st.node.inputs[inputId];
      if !GenericSkips(st.node.classType, inputId, val, ctx.env.numText) {
        assert st.node.inputs[inputId := val] == st.node.inputs;
      }
    }
  }

  lemma {:induction false} GenericFoldSettled(st: St, ctx: Ctx, nodeId: string, groupId: string, groupLabel: string, priority: int, keys: seq<string>)
    requires forall k :: k in keys && k in st.node.inputs ==> Settled(st.node.classType, k, st.node.inputs[k], ctx.env.numText)
    ensures GenericFold(st, ctx, nodeId, groupId, groupLabel, priority, keys) == st
    decreases |keys|
  {
    if keys != [] {
      assert keys == Init(keys) + [Last(keys)];
      GenericFoldSettled(st, ctx, nodeId, groupId, groupLabel, priority, Init(keys));
      GenericStepSettled(st, ctx, nodeId, groupId, groupLabel, priority, Last(keys));
    }
  }

  /**
   * The generic loop is idempotent: the placeholders it writes are exactly
   * what line 304 skips, so a second pass over the same fields changes
   * neither the node nor the registry.
   */
  lemma GenericFoldIdempotent(st: St, ctx: Ctx, nodeId: string, groupId: string, groupLabel: string, priority: int, keys: seq<string>)
    requires StOk(st) && CtxOk(ctx) && Distinct(keys)
    ensures var s := GenericFold(st, ctx, nodeId, groupId, groupLabel, priority, keys);
            GenericFold(s, ctx, nodeId, groupId, groupLabel, priority, keys) == s
  {
    var s := GenericFold(st, ctx, nodeId, groupId, groupLabel, priority, keys);
    GenericFoldValues(st, ctx, nodeId, groupId, groupLabel, priority, keys);
    GenericFoldKeeps(st, ctx, nodeId, groupId, groupLabel, priority, keys);
    forall k | k in keys && k in s.node.inputs
      ensures Settled(s.node.classType, k, s.node.inputs[k], ctx.env.numText)
    {
      GenericValueSettled(st.node, ctx, nodeId, k, groupLabel);
    }
    GenericFoldSettled(s, ctx, nodeId, groupId, groupLabel, priority, keys);
  }

  // ---------------------------------------------------------------------
  // A whole node and the main loop
  // ---------------------------------------------------------------------

  /** The latent-size rule only appends to `defaultParamsRetain`. */
  lemma LatentStepRetains(st: St, ctx: Ctx, nodeId: string, priority: int)
    ensures st.retained <= LatentStep(st, ctx, nodeId, priority).1.retained
  {
    LatentStepOutcome(st, ctx, nodeId, priority);
  }

  /** The rules of one node keep every invariant and every earlier definition, and only append to `defaultParamsRetain`. */
  lemma ClaimsStepKeeps(st: St, ctx: Ctx, nodeId: string, groupId: string, groupLabel: string, priority: int)
    requires StOk(st) && CtxOk(ctx)
    ensures var s := ClaimsStep(st, ctx, nodeId, groupId, groupLabel, priority).1;
            && StOk(s) && Extends(st.reg.params, s.reg.params) && NodeRewritten(st.node, s.node) && st.retained <= s.retained
  {
    LatentStepKeeps(st, ctx, nodeId, priority);
    LatentStepRetains(st, ctx, nodeId, priority);
    var (done, s1) := LatentStep(st, ctx, nodeId, priority);
    if !done {
      SamplerFoldKeeps(s1, ctx, nodeId, priority, SamplerClaims);
      var s2 := SamplerFold(s1, ctx, nodeId, priority, SamplerClaims);
      PromptStepKeeps(s2, groupLabel);
      var (name, s3) := PromptStep(s2, groupLabel);
      NodeRewrittenTrans(st.node, s1.node, s2.node);
      NodeRewrittenTrans(st.node, s2.node, s3.node);
      if name.None? {
        GenericFoldKeeps(s3, ctx, nodeId, groupId, groupLabel, priority, s3.node.keys);
        NodeRewrittenTrans(st.node, s3.node, GenericFold(s3, ctx, nodeId, groupId, groupLabel, priority, s3.node.keys).node);
      }
    }
  }

  /** No sampler claim names `control_after_generate`. */
  lemma SamplerClaimsSkipControl()
    ensures "control_after_generate" !in Fields(SamplerClaims)
  {
    FieldsMembers(SamplerClaims, "control_after_generate");
  }

  /**
   * The `control_after_generate` field of a sampler survives every rule:
   * no claim names it and the generic loop skips it (lines 307-309).
   */
  lemma ClaimsStepKeepsControl(st: St, ctx: Ctx, nodeId: string, groupId: string, groupLabel: string, priority: int)
    requires StOk(st) && CtxOk(ctx)
    requires IsSampler(st.node.classType) && "control_after_generate" in st.node.inputs
    ensures var s := ClaimsStep(st, ctx, nodeId, groupId, groupLabel, priority).1;
            "control_after_generate" in s.node.inputs && s.node.inputs["control_after_generate"] == st.node.inputs["control_after_generate"]
  {
    var k := "control_after_generate";
    var s1 := LatentStep(st, ctx, nodeId, priority).1;
    assert s1 == st;
    SamplerFoldKeeps(s1, ctx, nodeId, priority, SamplerClaims);
    SamplerClaimsSkipControl();
    var s2 := SamplerFold(s1, ctx, nodeId, priority, SamplerClaims);
    PromptStepKeeps(s2, groupLabel);
    var (name, s3) := PromptStep(s2, groupLabel);
    assert name.None?;
    GenericFoldValues(s3, ctx, nodeId, groupId, groupLabel, priority, s3.node.keys);
  }

  /**
   * Scenario: a `KSampler` seed fed by a titled primitive `p`.  The claim
   * succeeds without retaining anything; the field ends up with the claim's
   * placeholder naming the primitive's type-injected id, without the `+seed`
   * marker `addParam` wrote (line 272 overwrites it); on first use that id is
   * defined in the `primitives` group as an integer named after the primitive.
   */
  lemma PrimitiveSeedScenario(st: St, ctx: Ctx, nodeId: string, priority: int, v: real, p: string)
    requires RegOk(st.reg)
    requires st.node.classType == "KSampler" && "seed" in st.node.inputs && st.node.inputs["seed"] == Num(v)
    requires Redirect(ctx.statics, ctx.labelPaths, nodeId, "seed") == Some(p)
    ensures var id := InjectType(p, "integer");
            var (ok, s) := ClaimOnceStep(st, ctx, nodeId, priority, KSamplerClaims[0]);
            && ok && s.retained == st.retained
            && s.node == SetInput(st.node, "seed", Str(NumericPlaceholder(id, false, ctx.env.numText(v))))
            && id in s.reg.params && s.reg.params[id].id == id
            && (id !in st.reg.used ==>
                  var q := s.reg.params[id];
                  && q.ptype == "integer" && q.default == Num(v) && q.name == Drop(p, |Prefix|)
                  && q.group.id == "primitives" && q.group.name == "Primitives" && q.group.priority == priority)
  {
    var c := KSamplerClaims[0];
    ClaimOnceStepResult(st, ctx, nodeId, priority, c);
    ClaimOnceStepRegisters(st, ctx, nodeId, priority, c);
  }

  /**
   * Scenario: a `CLIPTextEncode` node labelled `Positive Prompt` by the link
   * pass, while `prompt` is not yet retained.  No claim applies, the prompt
   * rule fires and ends the node: its text becomes `${prompt}`, `prompt` is
   * retained and nothing is registered.
   */
  lemma PositivePromptScenario(st: St, ctx: Ctx, nodeId: string, text: string)
    requires st.node.classType == "CLIPTextEncode"
    requires nodeId in ctx.labels && ctx.labels[nodeId] == "Positive Prompt"
    requires "text" in st.node.inputs && st.node.inputs["text"] == Str(text)
    requires "prompt" !in st.retained
    ensures NodeStep(st, ctx, nodeId) == (PromptText("prompt"), St(SetInput(st.node, "text", Str("${prompt}")), st.retained + ["prompt"], st.reg))
  {
    var groupLabel := GroupLabel(ctx.labels, nodeId, st.node.classType);
    var priority := GroupPriority(groupLabel);
    var s1 := LatentStep(st, ctx, nodeId, priority).1;
    assert s1 == st;
    SamplerFoldOtherClass(st, ctx, nodeId, priority, SamplerClaims);
    PromptStepOutcome(st, groupLabel);
  }

  lemma PromptRewrittenTrans(a: map<string, PromptNode>, b: map<string, PromptNode>, c: map<string, PromptNode>)
    requires PromptRewritten(a, b) && PromptRewritten(b, c)
    ensures PromptRewritten(a, c)
  {
    forall id | id in a ensures NodeRewritten(a[id], c[id]) {
      NodeRewrittenTrans(a[id], b[id], c[id]);
    }
  }

  /**
   * Processing one node stores it back rewritten, keeps every invariant
   * and every earlier definition, and leaves every other node alone.
   */
  lemma NodeUpdateKeeps(b: Build, ctx: Ctx, nodeId: string)
    requires BuildOk(b) && CtxOk(ctx)
    ensures var b' := NodeUpdate(b, ctx, nodeId);
            && BuildOk(b') && Extends(b.reg.params, b'.reg.params) && PromptRewritten(b.prompt, b'.prompt)
            && b.retained <= b'.retained
            && (forall id :: id in b.prompt && id != nodeId ==> b'.prompt[id] == b.prompt[id])
  {
    if nodeId in b.prompt {
      var n := b.prompt[nodeId];
      var groupLabel := GroupLabel(ctx.labels, nodeId, n.classType);
      ClaimsStepKeeps(St(n, b.retained, b.reg), ctx, nodeId, GroupId(ctx, nodeId, n.classType), groupLabel, GroupPriority(groupLabel));
    }
  }

  /**
   * The main loop (lines 150-314) keeps every invariant and every earlier
   * definition, mutates the graph only as `NodeRewritten` allows, and leaves
   * nodes it does not visit alone.
   */
  lemma {:induction false} NodesFoldKeeps(b: Build, ctx: Ctx, order: seq<string>)
    requires BuildOk(b) && CtxOk(ctx)
    ensures var b' := NodesFold(b, ctx, order);
            && BuildOk(b') && Extends(b.reg.params, b'.reg.params) && PromptRewritten(b.prompt, b'.prompt)
            && b.retained <= b'.retained
            && (forall id :: id in b.prompt && id !in order ==> b'.prompt[id] == b.prompt[id])
    decreases |order|
  {
    if order != [] {
      NodesFoldKeeps(b, ctx, Init(order));
      var b1 := NodesFold(b, ctx, Init(order));
      NodeUpdateKeeps(b1, ctx, Last(order));
      PromptRewrittenTrans(b.prompt, b1.prompt, NodesFold(b, ctx, order).prompt);
      assert order == Init(order) + [Last(order)];
    }
  }

  /**
   * `comfyBuildParams` starts from `defaultParamsRetain = ['images', 'model']`
   * and empty `params` / `idsUsed` (lines 60-62, 148); from there the main
   * loop keeps every invariant and only rewrites the graph.
   */
  lemma BuildFromScratch(prompt: map<string, PromptNode>, ctx: Ctx, order: seq<string>)
    requires PromptOk(prompt) && CtxOk(ctx)
    ensures var b := NodesFold(Build(prompt, ["images", "model"], Reg(map[], [], [])), ctx, order);
            && BuildOk(b) && PromptRewritten(prompt, b.prompt) && b.retained[..2] == ["images", "model"]
  {
    var b0 := Build(prompt, ["images", "model"], Reg(map[], [], []));
    NodesFoldKeeps(b0, ctx, order);
  }
}
