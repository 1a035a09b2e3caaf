/**
 * The pure parts of `addParam` and `claimOnce`: the type injection into a
 * generated id (`injectType`), the classification of a field into what
 * `addParam` does with it, the two placeholder grammars, and the group
 * priority of a node.
 */
module Classify {
  import opened Text
  import opened Graph

  /** `injectType`: the type goes right after the namespace of a generated id. */
  function InjectType(id: string, ptype: string): (r: string)
    ensures StartsWith(id, Prefix) ==> StartsWith(r, Prefix + ptype) && r[|Prefix| + |ptype|..] == id[|Prefix|..]
    ensures !StartsWith(id, Prefix) ==> r == id
    ensures StartsWith(r, Prefix) <==> StartsWith(id, Prefix)
  {
    if StartsWith(id, Prefix) then Prefix + ptype + id[|Prefix|..] else id
  }

  /** For one type, `injectType` never maps two different ids to the same id. */
  lemma InjectTypeInjective(a: string, b: string, ptype: string)
    requires InjectType(a, ptype) == InjectType(b, ptype)
    ensures a == b
  {
    var n := |Prefix| + |ptype|;
    if StartsWith(a, Prefix) && StartsWith(b, Prefix) {
      assert a[|Prefix|..] == InjectType(a, ptype)[n..] == InjectType(b, ptype)[n..] == b[|Prefix|..];
      assert a == a[..|Prefix|] + a[|Prefix|..];
      assert b == b[..|Prefix|] + b[|Prefix|..];
    }
  }

  /** Type, enumeration, range and view of a registered parameter. */
  datatype Kind = Kind(ptype: string, values: Option<seq<string>>, view: string,
                       min: real, max: real, step: real, asSeed: bool)

  /** What `addParam` does with a field. */
  datatype Action =
    | ForceOne            // batch_size: set to 1, nothing registered
    | Fixed(text: string) // a fixed placeholder, nothing registered
    | Leave               // neither number nor string: untouched, nothing registered
    | Register(kind: Kind)

  const MinDefault: real := -9999999999.0
  const MaxDefault: real := 9999999999.0

  /** The kind of a numeric field (lines 174-213). */
  function NumberKind(inputId: string): (k: Kind)
    ensures k.ptype in {"integer", "decimal"}
    ensures k.asSeed <==> inputId in {"seed", "noise_seed"}
    ensures k.ptype == "integer" <==> inputId in {"seed", "noise_seed", "width", "height", "steps", "start_at_step", "end_at_step"}
    ensures k.values == None && k.min <= k.max && k.step > 0.0
  {
    if inputId in {"seed", "noise_seed"} then Kind("integer", None, "big", MinDefault, MaxDefault, 1.0, true)
    else if inputId in {"width", "height"} then Kind("integer", None, "pot_slider", 128.0, 8192.0, 64.0, false)
    else if inputId == "denoise" then Kind("decimal", None, "slider", 0.0, 1.0, 0.05, false)
    else if inputId == "cfg" then Kind("decimal", None, "big", 1.0, 50.0, 0.5, false)
    else if inputId in {"steps", "start_at_step", "end_at_step"} then Kind("integer", None, "big", 1.0, 50.0, 1.0, false)
    else Kind("decimal", None, "big", MinDefault, MaxDefault, 1.0, false)
  }

  /**
   * `inputId in ['add_noise', 'return_with_leftover_noise']` tests the
   * property names of a two-element array, not its elements.
   */
  predicate IsOwnPropertyOfPair(name: string) {
    name in {"0", "1", "length"}
  }

  /** The classification of a field of node `nodeId` (lines 174-244). */
  function ClassifyField(classType: string, nodeId: string, inputId: string, val: Value, allModels: seq<string>): (a: Action)
    ensures a.ForceOne? <==> val.Num? && inputId == "batch_size"
    ensures a.Leave? <==> !val.Num? && !val.Str?
    ensures a.Fixed? <==> val.Str? && ((classType == "SaveImage" && inputId == "filename_prefix")
                                      || (classType == "CheckpointLoaderSimple" && inputId == "ckpt_name" && nodeId == "4"))
    ensures a.Register? && val.Num? ==> a.kind == NumberKind(inputId)
    ensures a.Register? && val.Str? ==> !a.kind.asSeed && a.kind.ptype in {"model", "dropdown", "text"}
    ensures a.Register? && val.Str? ==>
              && (a.kind.ptype == "model" <==> classType == "CheckpointLoaderSimple" && inputId == "ckpt_name")
              && (a.kind.ptype == "dropdown" <==> classType == "KSamplerAdvanced" && IsOwnPropertyOfPair(inputId))
              && (a.kind.ptype == "text" <==> !(classType == "CheckpointLoaderSimple" && inputId == "ckpt_name")
                                              && !(classType == "KSamplerAdvanced" && IsOwnPropertyOfPair(inputId)))
              && a.kind.values == (if a.kind.ptype == "model" then Some(allModels)
                                   else if a.kind.ptype == "dropdown" then Some(["enable", "disable"]) else None)
              && a.kind.view == "big" && a.kind.min == MinDefault && a.kind.max == MaxDefault && a.kind.step == 1.0
    ensures a.Register? && a.kind.ptype == "model" ==> a.kind.values == Some(allModels)
    ensures a.Fixed? ==> a.text == (if classType == "SaveImage" then "${prefix:}" else "${model:error_missing_model}")
    ensures a.Fixed? ==> IsPlaceholderText(a.text)
  {
    match val
    case Num(_) =>
      if inputId == "batch_size" then ForceOne else Register(NumberKind(inputId))
    case Str(_) =>
      if classType == "SaveImage" && inputId == "filename_prefix" then Fixed("${prefix:}")
      else if classType == "CheckpointLoaderSimple" && inputId == "ckpt_name" then
        if nodeId == "4" then Fixed("${model:error_missing_model}")
        else Register(Kind("model", Some(allModels), "big", MinDefault, MaxDefault, 1.0, false))
      else if classType == "KSamplerAdvanced" && IsOwnPropertyOfPair(inputId) then
        Register(Kind("dropdown", Some(["enable", "disable"]), "big", MinDefault, MaxDefault, 1.0, false))
      else Register(Kind("text", None, "big", MinDefault, MaxDefault, 1.0, false))
    case _ => Leave
  }

  /** The two-value dropdown is unreachable for the two fields it was written for. */
  lemma DropdownNeverForNamedFields(nodeId: string, inputId: string, val: Value, allModels: seq<string>)
    requires inputId in {"add_noise", "return_with_leftover_noise"}
    ensures var a := ClassifyField("KSamplerAdvanced", nodeId, inputId, val, allModels);
            val.Str? ==> a.Register? && a.kind.ptype == "text" && a.kind.values == None
  {
    assert |inputId| > 6;
    assert !IsOwnPropertyOfPair(inputId);
    assert "KSamplerAdvanced" != "SaveImage" && "KSamplerAdvanced" != "CheckpointLoaderSimple";
  }

  const NumOpen := "%%_COMFYFIXME_${"
  const NumClose := "}_ENDFIXME_%%"

  /** The numeric grammar `%%_COMFYFIXME_${<id>[+seed]:<value>}_ENDFIXME_%%` (lines 215, 272). */
  function NumericPlaceholder(id: string, asSeed: bool, valText: string): string {
    NumOpen + id + (if asSeed then "+seed" else "") + ":" + valText + NumClose
  }

  /** The text grammar `${<id>:<escaped default>}` (lines 240, 272). */
  function StringPlaceholder(id: string, default: string): string {
    "${" + id + ":" + Escape(default) + "}"
  }

  /**
   * The numeric grammar names `id` right after its opening, followed by `:`
   * or by `+seed:`.
   */
  lemma NumericPlaceholderShape(id: string, asSeed: bool, valText: string)
    ensures var p := NumericPlaceholder(id, asSeed, valText);
            && StartsWith(p, NumOpen)
            && p[|NumOpen|..|NumOpen| + |id|] == id
            && (if asSeed then p[|NumOpen| + |id|..|NumOpen| + |id| + 6] == "+seed:" else p[|NumOpen| + |id|] == ':')
            && p[|p| - |NumClose|..] == NumClose
  {
    var p := NumericPlaceholder(id, asSeed, valText);
    var tail := (if asSeed then "+seed" else "") + ":" + valText + NumClose;
    assert p == NumOpen + id + tail;
  }

  /**
   * In the text grammar the id sits between `${` and the first `:`, and the
   * final `}` is the only one: an escaped default cannot close the
   * placeholder early, whatever the original text held.
   */
  lemma StringPlaceholderShape(id: string, default: string)
    requires ':' !in id && '}' !in id
    ensures var p := StringPlaceholder(id, default);
            && StartsWith(p, "${")
            && p[2..2 + |id|] == id
            && p[2 + |id|] == ':'
            && p[|p| - 1] == '}'
            && forall i :: 0 <= i < |p| - 1 ==> p[i] != '}'
  {
    var e := Escape(default);
    var p := StringPlaceholder(id, default);
    assert p == "${" + id + ":" + e + "}";
    forall i | 0 <= i < |p| - 1 ensures p[i] != '}' {
      if i < 2 {
      } else if i < 2 + |id| {
        assert p[i] == id[i - 2];
      } else if i == 2 + |id| {
      } else {
        assert p[i] == e[i - 3 - |id|];
      }
    }
  }

  /** The placeholder written by `claimOnce` itself (line 272): never a `+seed` suffix. */
  function ClaimText(id: string, val: Value, numeric: bool, numText: real -> string): (r: string)
    requires if numeric then val.Num? else val.Str?
    ensures StartsWith(r, if numeric then NumOpen else "${") && IsPlaceholderText(r)
  {
    if numeric then NumericPlaceholder(id, false, numText(val.n)) else StringPlaceholder(id, val.s)
  }

  /** True iff the generic loop treats `text` as already claimed (line 304). */
  predicate IsPlaceholderText(text: string) {
    StartsWith(text, "${") || StartsWith(text, NumOpen)
  }

  /** A value some rule may leave in field `key`: a placeholder, or `batch_size` forced to 1. */
  predicate IsRewriteValue(key: string, v: Value) {
    (v.Str? && IsPlaceholderText(v.s)) || (key == "batch_size" && v == Num(1.0))
  }

  /** The id `addParam` returns: type-injected when it registers, as given otherwise. */
  function AddParamId(a: Action, base: string): string {
    if a.Register? then InjectType(base, a.kind.ptype) else base
  }

  /** The value `addParam` leaves in the field (lines 178, 215, 219, 224, 240). */
  function AddParamValue(a: Action, inputId: string, id: string, val: Value, numText: real -> string): (r: Value)
    requires a.ForceOne? ==> inputId == "batch_size"
    requires a.Register? ==> val.Num? || val.Str?
    requires a.Fixed? ==> IsPlaceholderText(a.text)
    ensures a.Leave? ==> r == val
    ensures !a.Leave? ==> IsRewriteValue(inputId, r)
    ensures a.Register? ==> r.Str? && StartsWith(r.s, if val.Num? then NumOpen else "${")
  {
    match a
    case ForceOne => Num(1.0)
    case Fixed(text) => Str(text)
    case Leave => val
    case Register(kind) =>
      if val.Num? then Str(NumericPlaceholder(id, kind.asSeed, numText(val.n)))
      else Str(StringPlaceholder(id, val.s))
  }

  /** The group label of a node: its label (or class) and its id (line 152). */
  function GroupLabel(labels: map<string, string>, nodeId: string, classType: string): (r: string)
    ensures StartsWith(r, LabelOr(labels, nodeId, classType))
    ensures r[|LabelOr(labels, nodeId, classType)|..] == " (Node " + nodeId + ")"
  {
    LabelOr(labels, nodeId, classType) + " (Node " + nodeId + ")"
  }

  /**
   * A node whose label (or, unlabelled, class) mentions `Prompt` sorts first
   * (line 158), whatever its id; one mentioning `EmptyLatent` sorts before
   * the samplers and the rest.
   */
  lemma GroupLabelPriority(labels: map<string, string>, nodeId: string, classType: string)
    ensures var name := LabelOr(labels, nodeId, classType);
            var p := GroupPriority(GroupLabel(labels, nodeId, classType));
            && (Contains(name, "Prompt") ==> p == -10)
            && (Contains(name, "EmptyLatent") ==> p <= -7)
            && (Contains(name, "KSampler") ==> p <= -5)
  {
    var name := LabelOr(labels, nodeId, classType);
    var tail := " (Node " + nodeId + ")";
    assert GroupLabel(labels, nodeId, classType) == name + tail;
    if Contains(name, "Prompt") { ContainsAppend(name, tail, "Prompt"); }
    if Contains(name, "EmptyLatent") { ContainsAppend(name, tail, "EmptyLatent"); }
    if Contains(name, "KSampler") { ContainsAppend(name, tail, "KSampler"); }
  }

  /** The group priority of a node (lines 157-166); lower sorts earlier. */
  function GroupPriority(groupLabel: string): (p: int)
    ensures p in {-10, -7, -5, 0}
    ensures p == -10 <==> Contains(groupLabel, "Prompt")
    ensures p == -7 <==> !Contains(groupLabel, "Prompt") && Contains(groupLabel, "EmptyLatent")
    ensures p == 0 <==> !Contains(groupLabel, "Prompt") && !Contains(groupLabel, "EmptyLatent") && !Contains(groupLabel, "KSampler")
  {
    if Contains(groupLabel, "Prompt") then -10
    else if Contains(groupLabel, "EmptyLatent") then -7
    else if Contains(groupLabel, "KSampler") then -5
    else 0
  }
}
