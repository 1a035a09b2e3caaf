/**
 * The maps built before any node is claimed (lines 97-147), each defined as
 * the fold its loop performs, in the loop's order:
 *
 * - `labelAlterations`: node titles, then the same title for every declared
 *   input of a titled node, then "Positive Prompt" / "Negative Prompt" for
 *   the sources of `positive` / `negative` links on slot 0;
 * - `nodeStatics`: the redirect map, `"{toNode}.{toSlot}"` -> the id of the
 *   titled `PrimitiveNode` feeding that slot;
 * - `nodeLabelPaths`: `"{node}.{inputName}"` -> `"{node}.{position}"`.
 */
module Annotate {
  import opened Text
  import opened Graph

  function Last<T>(s: seq<T>): T
    requires |s| > 0
  {
    s[|s| - 1]
  }

  function Init<T>(s: seq<T>): seq<T>
    requires |s| > 0
  {
    s[..|s| - 1]
  }

  /** `${links[3]}.${links[4]}` and `${node.id}.${x}` */
  function SlotKey(node: nat, slot: nat): string {
    Decimal(node) + "." + Decimal(slot)
  }

  predicate IsTitledPrimitive(n: VisualNode) {
    n.nodeType == "PrimitiveNode" && n.title != ""
  }

  /** The redirect id of a titled primitive node (lines 106-107; no de-duplication, see `NoStaticLoop`). */
  function PrimitiveId(n: VisualNode, clean: string -> string): string {
    Prefix + clean(n.title)
  }

  // ---------------------------------------------------------------------
  // First pass over the visual nodes (lines 101-119)
  // ---------------------------------------------------------------------

  /** `labelAlterations` after the first pass. */
  function TitleLabels(nodes: seq<VisualNode>): map<string, string>
    decreases |nodes|
  {
    if nodes == [] then map[]
    else
      var m := TitleLabels(Init(nodes));
      var n := Last(nodes);
      if n.title != "" then m[Decimal(n.id) := n.title] else m
  }

  /** The inner link loop for one primitive node (lines 113-117). */
  function LinkRedirects(links: seq<VisualLink>, from: nat, id: string, m: map<string, string>): map<string, string>
    decreases |links|
  {
    if links == [] then m
    else
      var m' := LinkRedirects(Init(links), from, id, m);
      var l := Last(links);
      if l.fromNode == from then m'[SlotKey(l.toNode, l.toSlot) := id] else m'
  }

  /** `nodeStatics` after the first pass. */
  function Redirects(nodes: seq<VisualNode>, links: seq<VisualLink>, clean: string -> string): map<string, string>
    decreases |nodes|
  {
    if nodes == [] then map[]
    else
      var m := Redirects(Init(nodes), links, clean);
      var n := Last(nodes);
      if IsTitledPrimitive(n) then LinkRedirects(links, n.id, PrimitiveId(n, clean), m) else m
  }

  /** `nodeStaticUnique` after the first pass. */
  function PrimitiveIds(nodes: seq<VisualNode>, clean: string -> string): seq<string>
    decreases |nodes|
  {
    if nodes == [] then []
    else
      var ids := PrimitiveIds(Init(nodes), clean);
      var n := Last(nodes);
      if IsTitledPrimitive(n) then ids + [PrimitiveId(n, clean)] else ids
  }

  /**
   * The de-duplication loop of line 109 tests the title, not the id, against
   * the ids pushed so far, and never changes what it tests: it runs forever
   * when a titled primitive node's title equals the id of an earlier one, and
   * its body never runs otherwise.  The transform is modelled for inputs
   * where it terminates.
   */
  ghost predicate NoStaticLoop(nodes: seq<VisualNode>, clean: string -> string) {
    forall i, j :: 0 <= j < i < |nodes| && IsTitledPrimitive(nodes[i]) && IsTitledPrimitive(nodes[j]) ==>
      nodes[i].title != PrimitiveId(nodes[j], clean)
  }

  /** Every id a titled primitive node pushed, with the node that pushed it. */
  lemma {:induction false} PrimitiveIdsFrom(nodes: seq<VisualNode>, clean: string -> string, t: string)
    requires t in PrimitiveIds(nodes, clean)
    ensures exists j :: 0 <= j < |nodes| && IsTitledPrimitive(nodes[j]) && t == PrimitiveId(nodes[j], clean)
    decreases |nodes|
  {
    var ids := PrimitiveIds(Init(nodes), clean);
    if t in ids {
      PrimitiveIdsFrom(Init(nodes), clean, t);
      var j :| 0 <= j < |Init(nodes)| && IsTitledPrimitive(Init(nodes)[j]) && t == PrimitiveId(Init(nodes)[j], clean);
      assert nodes[j] == Init(nodes)[j];
    } else {
      assert t == PrimitiveId(nodes[|nodes| - 1], clean);
    }
  }

  /** Under `NoStaticLoop`, the guard of line 109 is false for every node the loop reaches. */
  lemma NoStaticLoopGuard(nodes: seq<VisualNode>, clean: string -> string, i: nat)
    requires NoStaticLoop(nodes, clean) && i < |nodes| && IsTitledPrimitive(nodes[i])
    ensures nodes[i].title !in PrimitiveIds(nodes[..i], clean)
  {
    forall t | t in PrimitiveIds(nodes[..i], clean) ensures t != nodes[i].title {
      PrimitiveIdsFrom(nodes[..i], clean, t);
      var j :| 0 <= j < i && IsTitledPrimitive(nodes[..i][j]) && t == PrimitiveId(nodes[..i][j], clean);
      assert nodes[..i][j] == nodes[j];
    }
  }

  /** Every label of the first pass is the title of a node with that id. */
  lemma {:induction false} TitleLabelsSound(nodes: seq<VisualNode>, k: string)
    requires k in TitleLabels(nodes)
    ensures exists i :: 0 <= i < |nodes| && Decimal(nodes[i].id) == k && nodes[i].title == TitleLabels(nodes)[k] != ""
    decreases |nodes|
  {
    var n := Last(nodes);
    if n.title != "" && Decimal(n.id) == k {
      assert nodes[|nodes| - 1] == n;
    } else {
      TitleLabelsSound(Init(nodes), k);
      var i :| 0 <= i < |Init(nodes)| && Decimal(Init(nodes)[i].id) == k && Init(nodes)[i].title == TitleLabels(Init(nodes))[k] != "";
      assert nodes[i] == Init(nodes)[i];
    }
  }

  /** Every titled node has a first-pass label. */
  lemma {:induction false} TitleLabelsComplete(nodes: seq<VisualNode>, i: nat)
    requires i < |nodes| && nodes[i].title != ""
    ensures Decimal(nodes[i].id) in TitleLabels(nodes)
    decreases |nodes|
  {
    if i < |nodes| - 1 {
      TitleLabelsComplete(Init(nodes), i);
    }
  }

  lemma {:induction false} LinkRedirectsSound(links: seq<VisualLink>, from: nat, id: string, m: map<string, string>, k: string)
    requires k in LinkRedirects(links, from, id, m)
    ensures || (k in m && LinkRedirects(links, from, id, m)[k] == m[k])
            || (LinkRedirects(links, from, id, m)[k] == id
                && exists j :: 0 <= j < |links| && links[j].fromNode == from && SlotKey(links[j].toNode, links[j].toSlot) == k)
    decreases |links|
  {
    if links != [] {
      var l := Last(links);
      if l.fromNode == from && SlotKey(l.toNode, l.toSlot) == k {
        assert links[|links| - 1] == l;
      } else {
        LinkRedirectsSound(Init(links), from, id, m, k);
        if !(k in m && LinkRedirects(Init(links), from, id, m)[k] == m[k]) {
          var j :| 0 <= j < |Init(links)| && Init(links)[j].fromNode == from && SlotKey(Init(links)[j].toNode, Init(links)[j].toSlot) == k;
          assert links[j] == Init(links)[j];
        }
      }
    }
  }

  lemma {:induction false} LinkRedirectsComplete(links: seq<VisualLink>, from: nat, id: string, m: map<string, string>, j: nat)
    requires j < |links| && links[j].fromNode == from
    ensures SlotKey(links[j].toNode, links[j].toSlot) in LinkRedirects(links, from, id, m)
    decreases |links|
  {
    if j < |links| - 1 {
      LinkRedirectsComplete(Init(links), from, id, m, j);
    }
  }

  lemma {:induction false} LinkRedirectsKeeps(links: seq<VisualLink>, from: nat, id: string, m: map<string, string>)
    ensures m.Keys <= LinkRedirects(links, from, id, m).Keys
    decreases |links|
  {
    if links != [] {
      LinkRedirectsKeeps(Init(links), from, id, m);
    }
  }

  /**
   * Every redirect entry was put there by a link from a titled primitive node
   * into that slot, and holds that node's namespaced id.
   */
  lemma {:induction false} RedirectsSound(nodes: seq<VisualNode>, links: seq<VisualLink>, clean: string -> string, k: string)
    requires k in Redirects(nodes, links, clean)
    ensures StartsWith(Redirects(nodes, links, clean)[k], Prefix)
    ensures exists i, j :: && 0 <= i < |nodes| && 0 <= j < |links|
                           && IsTitledPrimitive(nodes[i]) && links[j].fromNode == nodes[i].id
                           && SlotKey(links[j].toNode, links[j].toSlot) == k
                           && Redirects(nodes, links, clean)[k] == PrimitiveId(nodes[i], clean)
    decreases |nodes|
  {
    var m := Redirects(Init(nodes), links, clean);
    var n := Last(nodes);
    assert n == nodes[|nodes| - 1];
    if IsTitledPrimitive(n) {
      LinkRedirectsSound(links, n.id, PrimitiveId(n, clean), m, k);
      if k in m && Redirects(nodes, links, clean)[k] == m[k] {
        RedirectsFromEarlier(nodes, links, clean, k);
      } else {
        assert (Prefix + clean(n.title))[..|Prefix|] == Prefix;
      }
    } else {
      RedirectsFromEarlier(nodes, links, clean, k);
    }
  }

  lemma {:induction false} RedirectsFromEarlier(nodes: seq<VisualNode>, links: seq<VisualLink>, clean: string -> string, k: string)
    requires |nodes| > 0
    requires k in Redirects(Init(nodes), links, clean)
    requires k in Redirects(nodes, links, clean)
    requires Redirects(nodes, links, clean)[k] == Redirects(Init(nodes), links, clean)[k]
    ensures StartsWith(Redirects(nodes, links, clean)[k], Prefix)
    ensures exists i, j :: && 0 <= i < |nodes| && 0 <= j < |links|
                           && IsTitledPrimitive(nodes[i]) && links[j].fromNode == nodes[i].id
                           && SlotKey(links[j].toNode, links[j].toSlot) == k
                           && Redirects(nodes, links, clean)[k] == PrimitiveId(nodes[i], clean)
    decreases |nodes|, 0
  {
    RedirectsSound(Init(nodes), links, clean, k);
    var i, j :| && 0 <= i < |Init(nodes)| && 0 <= j < |links|
                && IsTitledPrimitive(Init(nodes)[i]) && links[j].fromNode == Init(nodes)[i].id
                && SlotKey(links[j].toNode, links[j].toSlot) == k
                && Redirects(Init(nodes), links, clean)[k] == PrimitiveId(Init(nodes)[i], clean);
    assert nodes[i] == Init(nodes)[i];
  }

  /** Every slot fed by a titled primitive node has a redirect entry. */
  lemma {:induction false} RedirectsComplete(nodes: seq<VisualNode>, links: seq<VisualLink>, clean: string -> string, i: nat, j: nat)
    requires i < |nodes| && j < |links| && IsTitledPrimitive(nodes[i]) && links[j].fromNode == nodes[i].id
    ensures SlotKey(links[j].toNode, links[j].toSlot) in Redirects(nodes, links, clean)
    decreases |nodes|
  {
    var n := Last(nodes);
    var m := Redirects(Init(nodes), links, clean);
    if i == |nodes| - 1 {
      LinkRedirectsComplete(links, n.id, PrimitiveId(n, clean), m, j);
    } else {
      RedirectsComplete(Init(nodes), links, clean, i, j);
      if IsTitledPrimitive(n) {
        LinkRedirectsKeeps(links, n.id, PrimitiveId(n, clean), m);
      }
    }
  }

  // ---------------------------------------------------------------------
  // Second pass over the visual nodes (lines 120-131)
  // ---------------------------------------------------------------------

  /** `nodeLabelPaths` entries of one node: input name -> positional index. */
  function NodeInputPaths(id: string, inputs: seq<string>, m: map<string, string>): map<string, string>
    decreases |inputs|
  {
    if inputs == [] then m
    else NodeInputPaths(id, Init(inputs), m)[id + "." + Last(inputs) := id + "." + Decimal(|inputs| - 1)]
  }

  /** `labelAlterations` entries of one node: every input inherits the node's label. */
  function NodeInputLabels(id: string, inputs: seq<string>, m: map<string, string>): map<string, string>
    decreases |inputs|
  {
    if inputs == [] then m
    else
      var m' := NodeInputLabels(id, Init(inputs), m);
      if id in m' then m'[id + "." + Last(inputs) := m'[id]] else m'
  }

  function InputPaths(nodes: seq<VisualNode>, m: map<string, string>): map<string, string>
    decreases |nodes|
  {
    if nodes == [] then m
    else NodeInputPaths(Decimal(Last(nodes).id), Last(nodes).inputs, InputPaths(Init(nodes), m))
  }

  function InputLabels(nodes: seq<VisualNode>, m: map<string, string>): map<string, string>
    decreases |nodes|
  {
    if nodes == [] then m
    else NodeInputLabels(Decimal(Last(nodes).id), Last(nodes).inputs, InputLabels(Init(nodes), m))
  }

  /** The input named at position `x` of a node maps to that node's slot `x`, unless a later input has the same name. */
  lemma {:induction false} NodeInputPathsAt(id: string, inputs: seq<string>, m: map<string, string>, x: nat)
    requires x < |inputs|
    requires forall y :: x < y < |inputs| ==> inputs[y] != inputs[x]
    ensures id + "." + inputs[x] in NodeInputPaths(id, inputs, m)
    ensures NodeInputPaths(id, inputs, m)[id + "." + inputs[x]] == id + "." + Decimal(x)
    decreases |inputs|
  {
    if x < |inputs| - 1 {
      NodeInputPathsAt(id, Init(inputs), m, x);
      AppendDiffers(id + ".", Last(inputs), inputs[x]);
    }
  }

  // ---------------------------------------------------------------------
  // Pass over the execution graph (lines 132-147)
  // ---------------------------------------------------------------------

  /** One field of the pass: a `positive` / `negative` link on slot 0 labels its source. */
  function LinkLabelStep(m: map<string, string>, inputId: string, val: Value): map<string, string> {
    if val.Link? && inputId == "negative" && val.slot == 0 then m[val.source := "Negative Prompt"]
    else if val.Link? && inputId == "positive" && val.slot == 0 then m[val.source := "Positive Prompt"]
    else m
  }

  function NodeLinkLabels(node: PromptNode, keys: seq<string>, m: map<string, string>): map<string, string>
    decreases |keys|
  {
    if keys == [] then m
    else
      var m' := NodeLinkLabels(node, Init(keys), m);
      if Last(keys) in node.inputs then LinkLabelStep(m', Last(keys), node.inputs[Last(keys)]) else m'
  }

  function PromptLinkLabels(order: seq<string>, prompt: map<string, PromptNode>, m: map<string, string>): map<string, string>
    decreases |order|
  {
    if order == [] then m
    else
      var m' := PromptLinkLabels(Init(order), prompt, m);
      if Last(order) in prompt then NodeLinkLabels(prompt[Last(order)], prompt[Last(order)].keys, m') else m'
  }

  /** The label map after all three passes. */
  function Labels(w: Workflow, order: seq<string>, prompt: map<string, PromptNode>): map<string, string> {
    PromptLinkLabels(order, prompt, InputLabels(w.nodes, TitleLabels(w.nodes)))
  }

  /** A label the prompt pass adds or changes is one of the two prompt labels. */
  predicate KeepsOrMarks(m: map<string, string>, r: map<string, string>) {
    && m.Keys <= r.Keys
    && forall k :: k in r ==> (k in m && r[k] == m[k]) || r[k] == "Negative Prompt" || r[k] == "Positive Prompt"
  }

  lemma KeepsOrMarksTrans(a: map<string, string>, b: map<string, string>, c: map<string, string>)
    requires KeepsOrMarks(a, b) && KeepsOrMarks(b, c)
    ensures KeepsOrMarks(a, c)
  {
  }

  lemma {:induction false} NodeLinkLabelsSound(node: PromptNode, keys: seq<string>, m: map<string, string>)
    ensures KeepsOrMarks(m, NodeLinkLabels(node, keys, m))
    decreases |keys|
  {
    if keys != [] {
      NodeLinkLabelsSound(node, Init(keys), m);
      var m' := NodeLinkLabels(node, Init(keys), m);
      if Last(keys) in node.inputs {
        KeepsOrMarksTrans(m, m', LinkLabelStep(m', Last(keys), node.inputs[Last(keys)]));
      }
    }
  }

  /** The pass over the execution graph keeps every earlier label or replaces it by a prompt label. */
  lemma {:induction false} PromptLinkLabelsSound(order: seq<string>, prompt: map<string, PromptNode>, m: map<string, string>)
    ensures KeepsOrMarks(m, PromptLinkLabels(order, prompt, m))
    decreases |order|
  {
    if order != [] {
      PromptLinkLabelsSound(Init(order), prompt, m);
      var m' := PromptLinkLabels(Init(order), prompt, m);
      if Last(order) in prompt {
        NodeLinkLabelsSound(prompt[Last(order)], prompt[Last(order)].keys, m');
        KeepsOrMarksTrans(m, m', PromptLinkLabels(order, prompt, m));
      }
    }
  }

  /** The label a `positive` / `negative` field writes onto its link's source. */
  function MarkOf(inputId: string): string {
    if inputId == "negative" then "Negative Prompt" else "Positive Prompt"
  }

  /** Field `k` of `node` is a `positive` / `negative` link on slot 0 from node `s`. */
  predicate WritesTo(node: PromptNode, k: string, s: string) {
    && k in node.inputs && (k == "negative" || k == "positive")
    && node.inputs[k].Link? && node.inputs[k].slot == 0 && node.inputs[k].source == s
  }

  /** The pass labels `s` only through a field that writes to it. */
  lemma LinkLabelStepAt(m: map<string, string>, node: PromptNode, k: string, s: string)
    requires k in node.inputs
    ensures var r := LinkLabelStep(m, k, node.inputs[k]);
            && (WritesTo(node, k, s) ==> s in r && r[s] == MarkOf(k))
            && (!WritesTo(node, k, s) ==> (s in r <==> s in m) && (s in m ==> r[s] == m[s]))
  {
  }

  /**
   * The last field of a node that writes to `s` decides its label: the pass
   * over that node's fields leaves exactly that field's label on `s`.
   */
  lemma {:induction false} NodeLinkLabelsLastWriter(node: PromptNode, keys: seq<string>, m: map<string, string>, s: string, i: nat)
    requires i < |keys| && WritesTo(node, keys[i], s)
    requires forall j :: i < j < |keys| ==> !WritesTo(node, keys[j], s)
    ensures var r := NodeLinkLabels(node, keys, m);
            s in r && r[s] == MarkOf(keys[i])
    decreases |keys|
  {
    var m' := NodeLinkLabels(node, Init(keys), m);
    if i == |keys| - 1 {
      LinkLabelStepAt(m', node, Last(keys), s);
    } else {
      NodeLinkLabelsLastWriter(node, Init(keys), m, s, i);
      if Last(keys) in node.inputs {
        LinkLabelStepAt(m', node, Last(keys), s);
      }
    }
  }

  /** Fields that do not write to `s` leave its label (or its absence) alone. */
  lemma {:induction false} NodeLinkLabelsUnwritten(node: PromptNode, keys: seq<string>, m: map<string, string>, s: string)
    requires forall j :: 0 <= j < |keys| ==> !WritesTo(node, keys[j], s)
    ensures var r := NodeLinkLabels(node, keys, m);
            (s in r <==> s in m) && (s in m ==> r[s] == m[s])
    decreases |keys|
  {
    if keys != [] {
      NodeLinkLabelsUnwritten(node, Init(keys), m, s);
      if Last(keys) in node.inputs {
        LinkLabelStepAt(NodeLinkLabels(node, Init(keys), m), node, Last(keys), s);
      }
    }
  }

  /** Some field of `node` writes to `s`. */
  predicate NodeWrites(node: PromptNode, s: string) {
    exists k :: k in node.keys && WritesTo(node, k, s)
  }

  /**
   * The pass over the execution graph (lines 132-147) is last-writer-wins:
   * when node `order[i]` is the last node that writes to `s`, and its field
   * `keys[x]` is the last of its fields that does, `s` ends up labelled by
   * that field, whatever earlier passes or nodes put there.
   */
  lemma {:induction false} PromptLinkLabelsLastWriter(order: seq<string>, prompt: map<string, PromptNode>, m: map<string, string>,
                                                      s: string, i: nat, x: nat)
    requires i < |order| && order[i] in prompt
    requires var node := prompt[order[i]];
             && x < |node.keys| && WritesTo(node, node.keys[x], s)
             && forall y :: x < y < |node.keys| ==> !WritesTo(node, node.keys[y], s)
    requires forall j :: i < j < |order| && order[j] in prompt ==> !NodeWrites(prompt[order[j]], s)
    ensures var r := PromptLinkLabels(order, prompt, m);
            s in r && r[s] == MarkOf(prompt[order[i]].keys[x])
    decreases |order|
  {
    var m' := PromptLinkLabels(Init(order), prompt, m);
    if i == |order| - 1 {
      var node := prompt[Last(order)];
      NodeLinkLabelsLastWriter(node, node.keys, m', s, x);
    } else {
      PromptLinkLabelsLastWriter(Init(order), prompt, m, s, i, x);
      if Last(order) in prompt {
        var node := prompt[Last(order)];
        assert !NodeWrites(node, s);
        NodeLinkLabelsUnwritten(node, node.keys, m', s);
      }
    }
  }

  /** A node no field of which writes to `s` is left with its label from the passes over the visual graph. */
  lemma {:induction false} PromptLinkLabelsUnwritten(order: seq<string>, prompt: map<string, PromptNode>, m: map<string, string>, s: string)
    requires forall j :: 0 <= j < |order| && order[j] in prompt ==> !NodeWrites(prompt[order[j]], s)
    ensures var r := PromptLinkLabels(order, prompt, m);
            (s in r <==> s in m) && (s in m ==> r[s] == m[s])
    decreases |order|
  {
    if order != [] {
      PromptLinkLabelsUnwritten(Init(order), prompt, m, s);
      if Last(order) in prompt {
        var node := prompt[Last(order)];
        assert !NodeWrites(node, s);
        NodeLinkLabelsUnwritten(node, node.keys, PromptLinkLabels(Init(order), prompt, m), s);
      }
    }
  }
}
