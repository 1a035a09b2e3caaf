/**
 * The parameter list `replaceParamsToComfy` hands to the UI (lines 323-336):
 * the raw-workflow parameter first, hidden; then the server's own parameter
 * definitions whose id the workflow retains; then every generated parameter
 * in insertion order.
 */
module Assemble {
  import opened Text
  import opened Graph
  import opened Registry
  import opened Annotate
  import opened Rules
  import opened RuleFacts
  import opened Builder

  /** `rawGenParamTypesFromServer.filter(p => retained.includes(p.id))` (line 329). */
  function ServerDefaults(server: seq<Param>, retained: seq<string>): (r: seq<Param>)
    ensures |r| <= |server|
    ensures forall i :: 0 <= i < |r| ==> r[i].id in retained
    decreases |server|
  {
    if |server| == 0 then []
    else
      var init := ServerDefaults(server[..|server| - 1], retained);
      var p := Last(server);
      if p.id in retained then init + [p] else init
  }

  /** Exactly the server's definitions whose id is retained are kept. */
  lemma {:induction false} ServerDefaultsMembers(server: seq<Param>, retained: seq<string>, p: Param)
    ensures p in ServerDefaults(server, retained) <==> p in server && p.id in retained
    decreases |server|
  {
    if |server| > 0 {
      var init := server[..|server| - 1];
      assert server == init + [Last(server)];
      ServerDefaultsMembers(init, retained, p);
    }
  }

  /** `order` with every occurrence of `x` removed. */
  function Without(order: seq<string>, x: string): (r: seq<string>)
    ensures forall k :: k in r <==> k in order && k != x
    ensures Distinct(order) ==> Distinct(r)
    decreases |order|
  {
    if |order| == 0 then []
    else
      var init := Without(order[..|order| - 1], x);
      var k := Last(order);
      assert order == order[..|order| - 1] + [k];
      DistinctAppend(order[..|order| - 1], k);
      if k == x then init
      else
        DistinctAppend(init, k);
        init + [k]
  }

  /** The definitions stored under `keys`, in that order. */
  function ValuesAt(params: map<string, Param>, keys: seq<string>): (r: seq<Param>)
    requires forall k :: k in keys ==> k in params
    ensures |r| == |keys|
    ensures forall i :: 0 <= i < |keys| ==> r[i] == params[keys[i]]
    decreases |keys|
  {
    if |keys| == 0 then [] else ValuesAt(params, keys[..|keys| - 1]) + [params[Last(keys)]]
  }

  /** The list `replaceParamsToComfy` builds from the callback's arguments. */
  function Assembled(params: map<string, Param>, order: seq<string>, server: seq<Param>, retained: seq<string>): seq<Param>
    requires RawId in params && RegistryOk(params, order)
  {
    [params[RawId].(extraHidden := true)] + ServerDefaults(server, retained) + ValuesAt(params, Without(order, RawId))
  }

  /** Lines 325-334: the raw parameter, marked hidden and deleted from `params`, then the two loops. */
  method AssembleParams(params: map<string, Param>, order: seq<string>, server: seq<Param>, retained: seq<string>)
    returns (list: seq<Param>)
    requires RawId in params && RegistryOk(params, order)
    ensures list == Assembled(params, order, server, retained)
  {
    list := [params[RawId].(extraHidden := true)];
    var rest := params - {RawId};
    var kept := FilterRetained(server, retained);
    list := list + kept;
    var values := RestValues(params, rest, order);
    list := list + values;
  }

  /** The loop of line 329: the server's definitions whose id is retained, in the server's order. */
  method FilterRetained(server: seq<Param>, retained: seq<string>) returns (kept: seq<Param>)
    ensures kept == ServerDefaults(server, retained)
  {
    kept := [];
    var i := 0;
    while i < |server|
      invariant 0 <= i <= |server|
      invariant kept == ServerDefaults(server[..i], retained)
    {
      ServerDefaultsStep(server, i, retained);
      if server[i].id in retained {
        kept := kept + [server[i]];
      }
      i := i + 1;
    }
    assert server[..|server|] == server;
  }

  lemma ServerDefaultsStep(server: seq<Param>, i: nat, retained: seq<string>)
    requires i < |server|
    ensures ServerDefaults(server[..i + 1], retained)
         == ServerDefaults(server[..i], retained) + (if server[i].id in retained then [server[i]] else [])
  {
    assert server[..i + 1][..i] == server[..i];
  }

  /** The loop of lines 332-334 over `params` once the raw entry is deleted, in insertion order. */
  method RestValues(params: map<string, Param>, rest: map<string, Param>, order: seq<string>) returns (values: seq<Param>)
    requires RawId in params && RegistryOk(params, order) && rest == params - {RawId}
    ensures values == ValuesAt(params, Without(order, RawId))
  {
    values := [];
    var j := 0;
    while j < |order|
      invariant 0 <= j <= |order|
      invariant values == ValuesAt(params, Without(order[..j], RawId))
    {
      assert order[..j + 1][..j] == order[..j];
      assert order[j] in params;
      if order[j] in rest {
        values := values + [rest[order[j]]];
      }
      j := j + 1;
    }
    assert order[..|order|] == order;
  }

  /** The raw parameter comes first and is the only hidden one the workflow adds. */
  lemma RawComesFirst(params: map<string, Param>, order: seq<string>, server: seq<Param>, retained: seq<string>)
    requires RawId in params && RegistryOk(params, order)
    ensures var list := Assembled(params, order, server, retained);
            && |list| == 1 + |ServerDefaults(server, retained)| + |params| - 1
            && list[0] == params[RawId].(extraHidden := true) && list[0].id == RawId
            && forall i :: 1 + |ServerDefaults(server, retained)| <= i < |list| ==> list[i].id != RawId
  {
    var keys := Without(order, RawId);
    var tail := ValuesAt(params, keys);
    KeysCount(params, order, keys);
    forall i | 0 <= i < |tail| ensures tail[i].id != RawId {
      assert keys[i] in keys;
    }
  }

  /** `Without(order, RawId)` lists the keys of `params` other than the raw one, once each. */
  lemma KeysCount(params: map<string, Param>, order: seq<string>, keys: seq<string>)
    requires RawId in params && RegistryOk(params, order) && keys == Without(order, RawId)
    ensures |keys| == |params| - 1
  {
    DistinctCard(keys);
    assert (set k | k in keys) == params.Keys - {RawId};
  }

  /** A sequence without repetitions has as many elements as its set. */
  lemma {:induction false} DistinctCard(s: seq<string>)
    requires Distinct(s)
    ensures |set k | k in s| == |s|
    decreases |s|
  {
    if |s| > 0 {
      var init := s[..|s| - 1];
      assert s == init + [Last(s)];
      DistinctAppend(init, Last(s));
      DistinctCard(init);
      assert (set k | k in s) == (set k | k in init) + {Last(s)};
    }
  }

  /** Every generated parameter other than the raw one appears exactly once after the server defaults. */
  lemma GeneratedOnce(params: map<string, Param>, order: seq<string>, server: seq<Param>, retained: seq<string>, k: string)
    requires RawId in params && RegistryOk(params, order) && k in params && k != RawId
    ensures var list := Assembled(params, order, server, retained);
            var offset := 1 + |ServerDefaults(server, retained)|;
            exists i :: offset <= i < |list| && list[i] == params[k]
              && forall j :: offset <= j < |list| && list[j].id == k ==> j == i
  {
    var keys := Without(order, RawId);
    var tail := ValuesAt(params, keys);
    var list := Assembled(params, order, server, retained);
    var offset := 1 + |ServerDefaults(server, retained)|;
    assert k in keys;
    var i :| 0 <= i < |keys| && keys[i] == k;
    assert list[offset + i] == tail[i] == params[k];
    forall j | offset <= j < |list| && list[j].id == k ensures j == offset + i {
      assert list[j] == tail[j - offset] == params[keys[j - offset]];
      assert keys[j - offset] in keys;
      if j - offset != i {
        DistinctIndices(keys, j - offset, i);
      }
    }
  }

  /**
   * `replaceParamsToComfy` (lines 323-336) on a workflow: the parameters
   * built by `comfyBuildParams`, assembled with the raw parameter first.
   */
  method ReplaceParamsToComfy(env: Env, workflow: Workflow, prompt: map<string, PromptNode>, order: seq<string>,
                              server: seq<Param>)
    returns (list: seq<Param>, b: ParamBuilder)
    requires EnvOk(env) && PromptOk(prompt)
    requires Distinct(order) && forall id :: id in prompt <==> id in order
    requires NoStaticLoop(workflow.nodes, env.clean)
    ensures b.Valid() && RawId in b.params && PromptRewritten(prompt, b.prompt)
    ensures list == Assembled(b.params, b.paramOrder, server, b.retained)
    ensures |list| > 0 && list[0] == RawParam(env.serialise(order, b.prompt)).(extraHidden := true)
    ensures !list[0].visible && !list[0].toggleable
  {
    b := BuildParams(env, workflow, prompt, order);
    BuildFromScratch(prompt, b.Context(), order);
    list := AssembleParams(b.params, b.paramOrder, server, b.retained);
  }
}
