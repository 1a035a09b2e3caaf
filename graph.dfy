/**
 * The two inputs of the transform and the outside helpers it calls.
 *
 * - The visual graph ("workflow"): nodes with a numeric id, an optional
 *   title, a type and the names of their declared inputs, plus links
 *   `[linkId, fromNode, fromSlot, toNode, toSlot]`.
 * - The execution graph ("prompt"): node id -> `{class_type, inputs}`,
 *   where an input value is a number, a string, a two-element reference
 *   `[sourceNodeId, sourceSlot]`, or some other JSON value.
 */
module Graph {
  import opened Text

  datatype Option<T> = None | Some(value: T)

  /** A value of `node.inputs[...]`. */
  datatype Value =
    | Num(n: real)                       // typeof val == 'number'
    | Str(s: string)                     // typeof val == 'string'
    | Link(source: string, slot: nat)    // an array of length 2
    | Other(text: string)                // anything else, with its `${val}` form

  /**
   * A node of the execution graph.  `keys` is the order of
   * `Object.keys(node.inputs)`; assigning to an existing key keeps its
   * place, assigning to a new key appends it.
   */
  datatype PromptNode = PromptNode(classType: string, keys: seq<string>, inputs: map<string, Value>)

  /**
   * `s[i]` under a name of its own, so that the pairwise quantifier of
   * `Distinct` is instantiated only where a proof asks for it.
   */
  function At(s: seq<string>, i: int): string
    requires 0 <= i < |s|
  {
    s[i]
  }

  /** No string occurs twice in `s`. */
  predicate Distinct(s: seq<string>) {
    forall i, j :: 0 <= i < j < |s| ==> At(s, i) != At(s, j)
  }

  /** The pairwise reading of `Distinct`. */
  lemma DistinctIndices(s: seq<string>, i: int, j: int)
    requires Distinct(s) && 0 <= i < |s| && 0 <= j < |s| && i != j
    ensures s[i] != s[j]
  {
    if i < j {
      assert At(s, i) != At(s, j);
    } else {
      assert At(s, j) != At(s, i);
    }
  }

  /** Appending keeps `Distinct` exactly when the new element is absent. */
  lemma DistinctAppend(s: seq<string>, x: string)
    ensures Distinct(s + [x]) <==> Distinct(s) && x !in s
  {
    var t := s + [x];
    if x in s {
      var i :| 0 <= i < |s| && s[i] == x;
      assert At(t, i) == At(t, |s|);
    }
    if Distinct(t) {
      forall i, j | 0 <= i < j < |s| ensures At(s, i) != At(s, j) {
        assert At(t, i) != At(t, j);
      }
    }
    if Distinct(s) && x !in s {
      forall i, j | 0 <= i < j < |t| ensures At(t, i) != At(t, j) {
        if j < |s| {
          assert At(s, i) != At(s, j);
        }
      }
    }
  }

  ghost predicate NodeOk(n: PromptNode) {
    && Distinct(n.keys)
    && (forall k :: k in n.inputs <==> k in n.keys)
  }

  ghost predicate PromptOk(prompt: map<string, PromptNode>) {
    forall id :: id in prompt ==> NodeOk(prompt[id])
  }

  /** `node.inputs[key] = v` */
  function SetInput(n: PromptNode, key: string, v: Value): (r: PromptNode)
    ensures r.classType == n.classType
    ensures r.inputs == n.inputs[key := v]
    ensures r.keys == if key in n.inputs then n.keys else n.keys + [key]
    ensures NodeOk(n) ==> NodeOk(r)
  {
    if key in n.inputs then n.(inputs := n.inputs[key := v])
    else
      DistinctAppend(n.keys, key);
      n.(keys := n.keys + [key], inputs := n.inputs[key := v])
  }

  /** A second write to the same existing field overrides the first. */
  lemma SetInputTwice(n: PromptNode, key: string, v1: Value, v2: Value)
    requires key in n.inputs
    ensures SetInput(SetInput(n, key, v1), key, v2) == SetInput(n, key, v2)
  {
    assert n.inputs[key := v1][key := v2] == n.inputs[key := v2];
  }

  /** A node of the visual graph; an absent or empty title is `""`, absent inputs are `[]`. */
  datatype VisualNode = VisualNode(id: nat, title: string, nodeType: string, inputs: seq<string>)

  /** `[linkId, fromNode, fromSlot, toNode, toSlot]` */
  datatype VisualLink = VisualLink(linkId: nat, fromNode: nat, fromSlot: nat, toNode: nat, toSlot: nat)

  datatype Workflow = Workflow(nodes: seq<VisualNode>, links: seq<VisualLink>)

  /**
   * Everything the transform uses but does not define: `cleanParamName`,
   * `numberToLetters`, JavaScript's formatting of a number, `JSON.stringify`
   * of the mutated execution graph (given its key order), and the global list
   * of model names `allModels`.
   */
  datatype Env = Env(
    clean: string -> string,
    letters: nat -> string,
    numText: real -> string,
    serialise: (seq<string>, map<string, PromptNode>) -> string,
    allModels: seq<string>)

  /** The namespace of every generated parameter id (line 61). */
  const Prefix := "comfyrawworkflowinput"

  ghost predicate LettersInjective(letters: nat -> string) {
    forall i: nat, j: nat :: letters(i) == letters(j) ==> i == j
  }

  /** `cleanParamName` strips characters and lower-cases; it leaves the lower-case namespace in front. */
  ghost predicate CleanKeepsPrefix(clean: string -> string) {
    forall s {:trigger clean(s)} :: StartsWith(s, Prefix) ==> StartsWith(clean(s), Prefix)
  }

  /** What the transform takes for granted about the helpers it calls. */
  ghost predicate EnvOk(env: Env) {
    LettersInjective(env.letters) && CleanKeepsPrefix(env.clean)
  }

  /** `${val}` */
  function ValueText(v: Value, numText: real -> string): string {
    match v
    case Num(n) => numText(n)
    case Str(s) => s
    case Link(source, slot) => source + "," + Decimal(slot)
    case Other(text) => text
  }

  /** `m[k] || fallback`: an absent or empty entry gives the fallback. */
  function LabelOr(m: map<string, string>, k: string, fallback: string): string {
    if k in m && m[k] != "" then m[k] else fallback
  }
}
