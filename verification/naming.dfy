/** Machine names stay unambiguous: what a machine is called resolves to it. */
module Naming {
  import opened Paths
  import opened Text
  import opened Names

  /** Folding keeps the empty name apart from every other. */
  ghost predicate FoldOk(fold: Fold) {
    forall s :: fold(s) == fold("") ==> s == ""
  }

  predicate HasLabel(nodes: Nodes, id: string) {
    id in nodes && nodes[id].display != ""
  }

  /** No label says the same as an identity, or as another label; identities differ. */
  ghost predicate Unambiguous(fold: Fold, nodes: Nodes, registry: set<string>) {
    && "" !in registry
    && nodes.Keys <= registry
    && (forall a, b :: a in registry && b in registry && fold(a) == fold(b) ==> a == b)
    && (forall id :: id in nodes ==> TrimSpace(nodes[id].display) == nodes[id].display)
    && (forall id, b :: HasLabel(nodes, id) && b in registry ==> fold(nodes[id].display) != fold(b))
    && (forall a, b :: HasLabel(nodes, a) && HasLabel(nodes, b) && fold(nodes[a].display) == fold(nodes[b].display) ==> a == b)
  }

  lemma {:induction false} NoLabelSays(fold: Fold, nodes: Nodes, registry: set<string>, x: string, id: string)
    requires FoldOk(fold) && Unambiguous(fold, nodes, registry) && x in nodes && id in registry
    ensures fold(nodes[x].display) != fold(id)
  {
  }

  /** Then every machine's name resolves to it, in whatever order the stanzas are tried. */
  lemma {:induction false} NamesResolve(fold: Fold, nodes: Nodes, registry: set<string>, id: string, r: string)
    requires FoldOk(fold) && Unambiguous(fold, nodes, registry) && id in registry
    requires Resolves(fold, nodes, LabelOf(nodes, id), r)
    ensures r == id
  {
  }

  // ----- preservation -----

  lemma {:induction false} TrimTwice(s: string)
    ensures TrimSpace(TrimSpace(s)) == TrimSpace(s)
  {
    var l := TrimLeft(s);
    TrimLeftDone(s);
    TrimRightDone(l);
    TrimRightKeepsFront(l);
  }

  lemma {:induction false} TrimLeftDone(s: string)
    ensures var l := TrimLeft(s); l == "" || !IsSpace(l[0])
  {
    if s != "" { TrimLeftDone(s[1..]); }
  }

  lemma {:induction false} TrimRightDone(s: string)
    ensures var r := TrimRight(s); r == "" || !IsSpace(r[|r| - 1])
  {
    if s != "" { TrimRightDone(s[..|s| - 1]); }
  }

  lemma {:induction false} TrimRightKeepsFront(s: string)
    ensures TrimRight(s) == "" || (s != "" && TrimRight(s)[0] == s[0])
  {
    if s != "" && IsSpace(s[|s| - 1]) { TrimRightKeepsFront(s[..|s| - 1]); }
  }

  /** The stanzas change, and no machine's label does, except that it may go. */
  lemma {:induction false} FewerLabels(fold: Fold, nodes: Nodes, nodes': Nodes, registry: set<string>)
    requires Unambiguous(fold, nodes, registry)
    requires nodes'.Keys <= registry
    requires forall id :: id in nodes' ==> nodes'[id].display == "" || (id in nodes && nodes'[id].display == nodes[id].display)
    ensures Unambiguous(fold, nodes', registry)
  {
  }

  /** One machine gets a label that no identity and no other label says. */
  lemma {:induction false} OneNewLabel(fold: Fold, nodes: Nodes, nodes': Nodes, registry: set<string>, id: string, name: string)
    requires Unambiguous(fold, nodes, registry) && id in registry && name != "" && TrimSpace(name) == name
    requires nodes'.Keys <= registry
    requires forall x :: x in nodes' ==> if x == id then nodes'[x].display == name else x in nodes && nodes'[x].display == nodes[x].display
    requires forall b :: b in registry ==> fold(b) != fold(name)
    requires forall x :: HasLabel(nodes, x) && x != id ==> fold(nodes[x].display) != fold(name)
    ensures Unambiguous(fold, nodes', registry)
  {
  }

  /** A label that may be given says what no identity and no other label says. */
  lemma {:induction false} GrantedIsNew(fold: Fold, nodes: Nodes, registry: set<string>, id: string, text: string, other: string)
    requires FoldOk(fold) && Unambiguous(fold, nodes, registry) && id in registry
    requires var name := NormaliseLabel(fold, id, text);
             name != "" && Resolves(fold, nodes, name, other) && CanLabel(fold, registry, id, name, other)
    ensures var name := NormaliseLabel(fold, id, text);
            && (forall b :: b in registry ==> fold(b) != fold(name))
            && (forall x :: HasLabel(nodes, x) && x != id ==> fold(nodes[x].display) != fold(name))
  {
  }

  lemma {:induction false} RequestKeeps(fold: Fold, nodes: Nodes, registry: set<string>, id: string, req: Request, other: string)
    requires FoldOk(fold) && Unambiguous(fold, nodes, registry)
    requires Granted(fold, nodes, registry, id, req, other)
    requires req.SetsLabel() ==> Resolves(fold, nodes, NormaliseLabel(fold, id, req.display.value), other)
    ensures Unambiguous(fold, After(fold, nodes, id, req), registry)
  {
    var entry := Asked(fold, EntryOf(nodes, id), id, req).value;
    var nodes' := After(fold, nodes, id, req);
    if req.SetsLabel() && entry.display != "" {
      TrimTwice(req.display.value);
      GrantedIsNew(fold, nodes, registry, id, req.display.value, other);
      OneNewLabel(fold, nodes, nodes', registry, id, entry.display);
    } else {
      FewerLabels(fold, nodes, nodes', registry);
    }
  }

  // ----- whole runs -----

  datatype State = State(nodes: Nodes, registry: set<string>)

  datatype Step =
    | Call(id: string, req: Request, other: string)   // a request for the machine `id`, granted or not
    | Joins(id: string)
    | Leaves(id: string)                              // its stanza stays

  ghost predicate Enabled(fold: Fold, s: State, step: Step) {
    match step
    case Call(id, req, other) => req.SetsLabel() && id in s.registry ==> Resolves(fold, s.nodes, NormaliseLabel(fold, id, req.display.value), other)
    case Joins(id) => id != ""
    case Leaves(id) => id in s.registry
  }

  ghost function Next(fold: Fold, s: State, step: Step): State {
    match step
    case Call(id, req, other) =>
      if Granted(fold, s.nodes, s.registry, id, req, other) then s.(nodes := After(fold, s.nodes, id, req)) else s
    case Joins(id) => s.(registry := s.registry + {id})
    case Leaves(id) => s.(registry := s.registry - {id})
  }

  /** The machine that joins is told apart from the others, and from every label. */
  ghost predicate JoinsCleanly(fold: Fold, s: State, step: Step) {
    step.Joins? ==>
      && (forall b :: b in s.registry && fold(b) == fold(step.id) ==> b == step.id)
      && (forall x :: HasLabel(s.nodes, x) ==> fold(s.nodes[x].display) != fold(step.id))
  }

  ghost predicate IsRun(fold: Fold, states: seq<State>, steps: seq<Step>) {
    && |states| == |steps| + 1 && states[0] == State(map[], {})
    && forall i :: 0 <= i < |steps| ==> Enabled(fold, states[i], steps[i]) && states[i + 1] == Next(fold, states[i], steps[i])
  }

  lemma {:induction false} StepKeeps(fold: Fold, s: State, step: Step)
    requires FoldOk(fold) && Unambiguous(fold, s.nodes, s.registry)
    requires Enabled(fold, s, step) && JoinsCleanly(fold, s, step)
    requires Next(fold, s, step).nodes.Keys <= Next(fold, s, step).registry
    ensures Unambiguous(fold, Next(fold, s, step).nodes, Next(fold, s, step).registry)
  {
    match step
    case Call(id, req, other) =>
      if Granted(fold, s.nodes, s.registry, id, req, other) {
        RequestKeeps(fold, s.nodes, s.registry, id, req, other);
      }
    case Joins(_) =>
    case Leaves(_) =>
  }

  lemma {:induction false} UnambiguousOverRuns(fold: Fold, states: seq<State>, steps: seq<Step>, i: nat)
    requires FoldOk(fold) && IsRun(fold, states, steps) && i < |states|
    requires forall k :: 0 <= k < |steps| ==> JoinsCleanly(fold, states[k], steps[k])
    requires forall k :: 0 <= k < |states| ==> states[k].nodes.Keys <= states[k].registry
    ensures Unambiguous(fold, states[i].nodes, states[i].registry)
  {
    if i > 0 {
      UnambiguousOverRuns(fold, states, steps, i - 1);
      StepKeeps(fold, states[i - 1], steps[i - 1]);
    }
  }

  /** In every run of label requests, arrivals and departures in which each stanza
      belongs to a machine of the cluster and new machines collide with no name in use:
      what any machine is called resolves to that machine, whatever order the stanzas
      are tried in. */
  lemma {:induction false} NamesResolveOverRuns(fold: Fold, states: seq<State>, steps: seq<Step>, i: nat, id: string, r: string)
    requires FoldOk(fold) && IsRun(fold, states, steps) && i < |states|
    requires forall k :: 0 <= k < |steps| ==> JoinsCleanly(fold, states[k], steps[k])
    requires forall k :: 0 <= k < |states| ==> states[k].nodes.Keys <= states[k].registry
    requires id in states[i].registry && Resolves(fold, states[i].nodes, LabelOf(states[i].nodes, id), r)
    ensures r == id
  {
    UnambiguousOverRuns(fold, states, steps, i);
    NamesResolve(fold, states[i].nodes, states[i].registry, id, r);
  }

  // ----- where it ends -----

  /** Another stanza than the machine's own goes by this name, as its key or its label, and
      says something, so that it is kept. */
  ghost predicate Taken(fold: Fold, nodes: Nodes, id: string, name: string) {
    exists x :: x in nodes && x != id && !SaysNothing(nodes[x]) && Matches(fold, nodes, x, name)
  }

  /** Only the machines of the registry are checked, and a name that is a stanza's key
      resolves to it at once.  So a label that is granted resolves to its machine, in
      whatever order the stanzas are tried, if and only if no other stanza goes by it. */
  lemma {:induction false} GrantedLabelResolvesIff(fold: Fold, nodes: Nodes, registry: set<string>, id: string, req: Request, other: string)
    requires FoldOk(fold) && req.SetsLabel() && Granted(fold, nodes, registry, id, req, other)
    requires NormaliseLabel(fold, id, req.display.value) != ""
    ensures LabelOf(After(fold, nodes, id, req), id) == NormaliseLabel(fold, id, req.display.value)
    ensures (forall r :: Resolves(fold, After(fold, nodes, id, req), NormaliseLabel(fold, id, req.display.value), r) ==> r == id)
       <==> !Taken(fold, nodes, id, NormaliseLabel(fold, id, req.display.value))
  {
    var name, nodes' := NormaliseLabel(fold, id, req.display.value), After(fold, nodes, id, req);
    TrimTwice(req.display.value);
    assert Matches(fold, nodes', id, name);
    if Taken(fold, nodes, id, name) {
      var x :| x in nodes && x != id && !SaysNothing(nodes[x]) && Matches(fold, nodes, x, name);
      assert x in nodes' && Matches(fold, nodes', x, name);
      assert Resolves(fold, nodes', name, if name in nodes' then name else x);
    } else {
      forall x | x in nodes' && Matches(fold, nodes', x, name) ensures x == id {
        assert x != id ==> x in nodes && Matches(fold, nodes, x, name);
      }
    }
  }

  /** So two machines of the cluster may come to be called the same: one has the label
      already, and a departed machine's stanza, whose key it is, stands in the way of
      noticing. */
  lemma {:induction false} LabelGrantedTwice(fold: Fold, a: string, b: string, gone: string, note: string)
    requires FoldOk(fold) && ValidName(gone) && TrimSpace(gone) == gone && TrimSpace(note) != ""
    requires a != b && fold(a) != fold(gone) && fold(b) != fold(gone)
    ensures var nodes := map[gone := Entry("", note), a := Entry(gone, "")];
            var req := Request(Some(gone), None, false);
            && Resolves(fold, nodes, gone, gone) && Granted(fold, nodes, {a, b}, b, req, gone)
            && LabelOf(After(fold, nodes, b, req), a) == gone == LabelOf(After(fold, nodes, b, req), b)
  {
  }

  /** Such a label is granted: when a departed machine's stanza has exactly that name. */
  lemma {:induction false} DepartedNameIsGranted(fold: Fold, id: string, gone: string, note: string)
    requires FoldOk(fold) && ValidName(gone) && TrimSpace(gone) == gone && fold(gone) != fold(id) && TrimSpace(note) != ""
    ensures var nodes := map[gone := Entry("", note)];
            var req := Request(Some(gone), None, false);
            && Resolves(fold, nodes, gone, gone) && Granted(fold, nodes, {id}, id, req, gone)
            && LabelOf(After(fold, nodes, id, req), id) == gone
            && Resolves(fold, After(fold, nodes, id, req), gone, gone) && gone != id
  {
  }

  /** An identity typed in another case names its machine exactly when the machine has
      a stanza. */
  lemma {:induction false} OtherCaseResolvesIff(fold: Fold, nodes: Nodes, registry: set<string>, id: string, typed: string)
    requires FoldOk(fold) && Unambiguous(fold, nodes, registry) && id in registry
    requires fold(typed) == fold(id) && typed != id
    ensures (forall r :: Resolves(fold, nodes, typed, r) ==> r == id) <==> id in nodes
  {
    assert typed !in registry && typed != "";
    if id in nodes {
      assert Matches(fold, nodes, id, typed);
    } else {
      forall x | x in nodes ensures !Matches(fold, nodes, x, typed) {
        NoLabelSays(fold, nodes, registry, x, id);
      }
      assert Resolves(fold, nodes, typed, typed);
    }
  }
}
