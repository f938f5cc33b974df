/** What machines are called.  A machine has an identity, which never changes, and may
    have a label; either may be typed where a machine is meant.  Letters are compared
    without their case, by whatever folding `fold` stands for. */
module Names {
  import opened Paths
  import opened Text

  type Fold = string -> string

  datatype Entry = Entry(display: string, note: string)

  type Nodes = map<string, Entry>

  const NO_ENTRY := Entry("", "")

  function EntryOf(nodes: Nodes, id: string): Entry {
    if id in nodes then nodes[id] else NO_ENTRY
  }

  function LabelOf(nodes: Nodes, id: string): string {
    if id in nodes && TrimSpace(nodes[id].display) != "" then nodes[id].display else id
  }

  predicate Matches(fold: Fold, nodes: Nodes, id: string, name: string)
    requires id in nodes
  {
    fold(nodes[id].display) == fold(name) || fold(id) == fold(name)
  }

  /** What a typed name may resolve to.  The stanzas are tried in no particular order,
      so when several match, any of them may win. */
  ghost predicate Resolves(fold: Fold, nodes: Nodes, name: string, r: string) {
    if name == "" || name in nodes then r == name
    else if exists id :: id in nodes && Matches(fold, nodes, id, name) then r in nodes && Matches(fold, nodes, r, name)
    else r == name
  }

  predicate ValidChar(c: char) {
    'a' <= c <= 'z' || 'A' <= c <= 'Z' || '0' <= c <= '9' || c == '-' || c == '_' || c == '.'
  }

  predicate ValidName(s: string) {
    s != "" && |s| <= 40 && forall c :: c in s ==> ValidChar(c)
  }

  function NormaliseLabel(fold: Fold, id: string, name: string): string {
    if fold(TrimSpace(name)) == fold(id) then "" else TrimSpace(name)
  }

  /** Whether a machine may be called a name that currently resolves to `other`. */
  predicate CanLabel(fold: Fold, identities: set<string>, id: string, name: string, other: string) {
    && ValidName(name)
    && (other == id || other == name)
    && forall i :: i in identities && i != id ==> fold(i) != fold(name)
  }

  predicate SaysNothing(e: Entry) {
    TrimSpace(e.display) == "" && TrimSpace(e.note) == ""
  }

  function Pruned(nodes: Nodes): Nodes {
    map id | id in nodes && !SaysNothing(nodes[id]) :: nodes[id]
  }

  datatype Request = Request(display: Option<string>, note: Option<string>, clear: bool) {
    predicate SetsLabel() { !clear && display.Some? && display.value != "" }
  }

  /** The stanza a request asks for, or None when it asks for nothing. */
  function Asked(fold: Fold, e: Entry, id: string, req: Request): Option<Entry> {
    if req.clear then Some(if req.note.Some? then e.(note := "") else e.(display := ""))
    else if req.SetsLabel() then Some(e.(display := NormaliseLabel(fold, id, req.display.value)))
    else if req.note.Some? then Some(e.(note := TrimSpace(req.note.value)))
    else None
  }

  /** A request for the machine `id` is granted, its label having resolved to `other`. */
  predicate Granted(fold: Fold, nodes: Nodes, registry: set<string>, id: string, req: Request, other: string) {
    && id in registry
    && Asked(fold, EntryOf(nodes, id), id, req).Some?
    && var name := Asked(fold, EntryOf(nodes, id), id, req).value.display;
       (req.SetsLabel() && name != "" ==> CanLabel(fold, registry, id, name, other))
  }

  function After(fold: Fold, nodes: Nodes, id: string, req: Request): Nodes
    requires Asked(fold, EntryOf(nodes, id), id, req).Some?
  {
    Pruned(nodes[id := Asked(fold, EntryOf(nodes, id), id, req).value])
  }

  /** The cluster's configuration, as the controller holds it. */
  class Cluster {
    const fold: Fold
    var nodes: Nodes

    constructor (f: Fold)
      ensures fold == f && nodes == map[]
    {
      fold, nodes := f, map[];
    }

    method Resolve(name: string) returns (r: string)
      ensures Resolves(fold, nodes, name, r)
    {
      if name == "" || name in nodes {
        return name;
      }
      var todo := nodes.Keys;
      while todo != {}
        invariant todo <= nodes.Keys && forall id :: id in nodes.Keys - todo ==> !Matches(fold, nodes, id, name)
        decreases |todo|
      {
        var id: string :| id in todo;
        if fold(nodes[id].display) == fold(name) || fold(id) == fold(name) {
          return id;
        }
        todo := todo - {id};
      }
      return name;
    }

    method Save(goal: Nodes)
      modifies this
      ensures nodes == Pruned(goal)
    {
      nodes := goal;
      var todo := goal.Keys;
      while todo != {}
        invariant todo <= goal.Keys
        invariant forall id :: id in goal ==> (id in nodes <==> id in todo || !SaysNothing(goal[id]))
        invariant forall id :: id in nodes ==> id in goal && nodes[id] == goal[id]
        decreases |todo|
      {
        var id: string :| id in todo;
        if TrimSpace(goal[id].display) == "" && TrimSpace(goal[id].note) == "" {
          nodes := nodes - {id};
        }
        todo := todo - {id};
      }
    }

    /** A request to name or annotate a machine, or to take either back. */
    method SetNodeName(node: string, req: Request, registry: set<string>) returns (ok: bool, ghost id: string, ghost other: string)
      modifies this
      ensures Resolves(fold, old(nodes), node, id)
      ensures ok ==> Granted(fold, old(nodes), registry, id, req, other) && nodes == After(fold, old(nodes), id, req)
      ensures !ok ==> nodes == old(nodes)
      ensures !ok ==> node == "" || !Granted(fold, old(nodes), registry, id, req, other)
      ensures req.SetsLabel() && node != "" && id in registry ==>
                Resolves(fold, old(nodes), NormaliseLabel(fold, id, req.display.value), other)
    {
      var machine := Resolve(node);
      id, other := machine, "";
      if node == "" || machine !in registry {
        return false, machine, "";
      }
      var entry := if machine in nodes then nodes[machine] else NO_ENTRY;
      if req.clear {
        entry := if req.note.Some? then entry.(note := "") else entry.(display := "");
      } else if req.display.Some? && req.display.value != "" {
        var name := NormaliseLabel(fold, machine, req.display.value);
        var already := Resolve(name);
        other := already;
        if name != "" && !CanLabel(fold, registry, machine, name, already) {
          return false, machine, already;
        }
        entry := entry.(display := name);
      } else if req.note.Some? {
        entry := entry.(note := TrimSpace(req.note.value));
      } else {
        return false, machine, "";
      }
      Save(nodes[machine := entry]);
      ok := true;
    }
  }
}
