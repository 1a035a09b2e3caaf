/**
 * Parameter definitions and the collision-free choice of their ids
 * (`addSimpleParam`, lines 63-96).
 */
module Registry {
  import opened Text
  import opened Graph

  /** The `group` record of a parameter definition. */
  datatype Group = Group(name: string, id: string, open: bool, priority: int,
                         advanced: bool, toggles: bool, doNotSave: bool)

  /** A parameter definition as `addSimpleParam` builds it. */
  datatype Param = Param(
    name: string, default: Value, id: string, ptype: string, description: string,
    values: Option<seq<string>>, view: string, min: real, max: real, step: real,
    visible: bool, toggleable: bool, priority: int, advanced: bool, doNotSave: bool,
    group: Group, extraHidden: bool)

  /** The record stored by `params[inputId] = {...}` (lines 69-95). */
  function MakeParam(name: string, defVal: Value, ptype: string, groupName: string, values: Option<seq<string>>,
                     view: string, min: real, max: real, step: real, id: string, groupId: string,
                     priority: int, visible: bool, toggles: bool): (p: Param)
    ensures p.name == name && p.default == defVal && p.id == id && p.ptype == ptype && p.values == values
    ensures p.view == view && p.min == min && p.max == max && p.step == step
    ensures p.visible == visible && p.toggleable == toggles && !p.extraHidden
    // every definition sorts at priority 5 inside its group, is basic and is never saved
    ensures p.priority == 5 && !p.advanced && p.doNotSave
    // the group carries the node's name, id and priority and is closed, basic, not togglable and never saved
    ensures p.group.name == groupName && p.group.id == groupId && p.group.priority == priority
    ensures !p.group.open && !p.group.advanced && !p.group.toggles && p.group.doNotSave
    ensures StartsWith(p.description, "The " + name + " input for " + groupName)
    ensures p.description[|"The " + name + " input for " + groupName|..] == " (" + ptype + ")"
  {
    Param(name, defVal, id, ptype, "The " + name + " input for " + groupName + " (" + ptype + ")",
          values, view, min, max, step, visible, toggles, 5, false, true,
          Group(groupName, id := groupId, open := false, priority := priority, advanced := false,
                toggles := false, doNotSave := true),
          false)
  }

  /**
   * `id` is the key `addSimpleParam` picks for `base`: `base` itself when
   * free, otherwise `base + letters(k)` for the least `k` whose candidate is free.
   */
  ghost predicate IsFreshChoice(keys: set<string>, base: string, letters: nat -> string, id: string) {
    && id !in keys
    && (|| id == base
        || (base in keys && exists k: nat :: id == base + letters(k) && forall j: nat :: j < k ==> base + letters(j) in keys))
  }

  /** The choice is determined by the keys already taken, whatever `letters` is. */
  lemma FreshChoiceUnique(keys: set<string>, base: string, letters: nat -> string, a: string, b: string)
    requires IsFreshChoice(keys, base, letters, a) && IsFreshChoice(keys, base, letters, b)
    ensures a == b
  {
    if a != base && b != base {
      var ka: nat :| a == base + letters(ka) && forall j: nat :: j < ka ==> base + letters(j) in keys;
      var kb: nat :| b == base + letters(kb) && forall j: nat :: j < kb ==> base + letters(j) in keys;
      assert ka >= kb;
      assert kb >= ka;
    }
  }

  ghost function Candidates(base: string, letters: nat -> string, n: nat): set<string> {
    set j: nat | j < n :: base + letters(j)
  }

  lemma {:induction false} CandidatesCard(base: string, letters: nat -> string, n: nat)
    requires LettersInjective(letters)
    ensures |Candidates(base, letters, n)| == n
    decreases n
  {
    if n > 0 {
      CandidatesCard(base, letters, n - 1);
      var last := base + letters(n - 1);
      assert Candidates(base, letters, n) == Candidates(base, letters, n - 1) + {last};
      if last in Candidates(base, letters, n - 1) {
        var j: nat :| j < n - 1 && base + letters(j) == last;
        AppendCancel(base, letters(j), letters(n - 1));
      }
    }
  }

  /** Distinct letter suffixes give distinct candidates, so only finitely many can be taken. */
  lemma TakenCandidatesBound(keys: set<string>, base: string, letters: nat -> string, n: nat)
    requires LettersInjective(letters)
    requires forall j: nat :: j < n ==> base + letters(j) in keys
    ensures n <= |keys|
  {
    CandidatesCard(base, letters, n);
    SubsetCard(Candidates(base, letters, n), keys);
  }

  lemma {:induction false} SubsetCard(a: set<string>, b: set<string>)
    requires a <= b
    ensures |a| <= |b|
    decreases a
  {
    if a != {} {
      var x :| x in a;
      SubsetCard(a - {x}, b - {x});
    }
  }

  /** The collision loop of `addSimpleParam` (lines 64-68). */
  method FreshId(keys: set<string>, base: string, letters: nat -> string) returns (id: string)
    requires LettersInjective(letters)
    ensures IsFreshChoice(keys, base, letters, id)
  {
    id := base;
    var counter: nat := 0;
    while id in keys
      invariant counter == 0 ==> id == base
      invariant counter > 0 ==> base in keys && id == base + letters(counter - 1)
      invariant forall j: nat :: j + 1 < counter ==> base + letters(j) in keys
      decreases |keys| - counter
    {
      TakenCandidatesBound(keys, base, letters, counter);
      id := base + letters(counter);
      counter := counter + 1;
    }
    if counter > 0 {
      assert forall j: nat :: j < counter - 1 ==> base + letters(j) in keys;
    }
  }

  /**
   * The registry invariant: `order` (the insertion order of `params`) lists
   * every key once, and every definition carries its own key as id.
   */
  ghost predicate RegistryOk(params: map<string, Param>, order: seq<string>) {
    && Distinct(order)
    && (forall k :: k in params <==> k in order)
    && (forall k :: k in params ==> params[k].id == k)
  }

  /**
   * `(params1, order1)` is `(params0, order0)` after `addSimpleParam` with
   * id `base` and definition `p`: one new key, never present before, chosen as
   * `IsFreshChoice` says; every earlier entry is kept as it was.
   */
  ghost predicate Registered(params0: map<string, Param>, order0: seq<string>,
                             params1: map<string, Param>, order1: seq<string>,
                             base: string, p: Param, letters: nat -> string)
  {
    && |order1| == |order0| + 1
    && order1[..|order0|] == order0
    && IsFreshChoice(params0.Keys, base, letters, order1[|order0|])
    && params1 == params0[order1[|order0|] := p.(id := order1[|order0|])]
  }

  /** Registering keeps the registry invariant and every earlier entry. */
  lemma RegisteredKeepsRegistry(params0: map<string, Param>, order0: seq<string>,
                                params1: map<string, Param>, order1: seq<string>,
                                base: string, p: Param, letters: nat -> string)
    requires RegistryOk(params0, order0)
    requires Registered(params0, order0, params1, order1, base, p, letters)
    ensures RegistryOk(params1, order1)
    ensures forall k :: k in params0 ==> k in params1 && params1[k] == params0[k]
    ensures |params1| == |params0| + 1
  {
    var key := order1[|order0|];
    assert order1 == order0 + [key];
    assert key !in order0;
    DistinctAppend(order0, key);
  }
}
