/** Job dependencies: the expression, when it holds, and when it never can. */
module Dependencies {
  import opened Lists
  import opened Paths
  import opened Text

  datatype DepType = AfterOK | AfterAny | AfterNotOK

  datatype Dep = Dep(kind: DepType, id: int)

  // ----- the expression -----

  function Kind(word: string): Option<DepType> {
    var w := ToLower(word);
    if w == "afterok" then Some(AfterOK)
    else if w == "afterany" then Some(AfterAny)
    else if w == "afternotok" then Some(AfterNotOK)
    else None
  }

  function Edges(kind: DepType, ids: seq<string>): Option<seq<Dep>> {
    if ids == [] then Some([])
    else
      var k := |ids| - 1;
      var before, id := Edges(kind, ids[..k]), ParseInt(TrimSpace(ids[k]));
      if before.None? || id.None? then None else Some(before.value + [Dep(kind, id.value)])
  }

  function Clause(text: string): Option<seq<Dep>> {
    var clause := TrimSpace(text);
    if clause == "" then Some([])
    else
      var parts := Split(clause, ':');
      if |parts| < 2 || Kind(parts[0]).None? then None else Edges(Kind(parts[0]).value, parts[1..])
  }

  function Clauses(texts: seq<string>): Option<seq<Dep>> {
    if texts == [] then Some([])
    else
      var k := |texts| - 1;
      var before, last := Clauses(texts[..k]), Clause(texts[k]);
      if before.None? || last.None? then None else Some(before.value + last.value)
  }

  function Parsed(s: string): Option<seq<Dep>> {
    if TrimSpace(s) == "" then Some([]) else Clauses(Split(TrimSpace(s), ','))
  }

  lemma {:induction false} ClausesFail(texts: seq<string>, i: nat)
    requires i <= |texts| && Clauses(texts[..i]).None?
    ensures Clauses(texts).None?
    decreases |texts| - i
  {
    if i < |texts| {
      assert texts[..i + 1][..i] == texts[..i];
      ClausesFail(texts, i + 1);
    } else {
      assert texts[..i] == texts;
    }
  }

  lemma {:induction false} EdgesFail(kind: DepType, ids: seq<string>, i: nat)
    requires i <= |ids| && Edges(kind, ids[..i]).None?
    ensures Edges(kind, ids).None?
    decreases |ids| - i
  {
    if i < |ids| {
      assert ids[..i + 1][..i] == ids[..i];
      EdgesFail(kind, ids, i + 1);
    } else {
      assert ids[..i] == ids;
    }
  }

  method ParseIds(kind: DepType, ids: seq<string>) returns (r: Option<seq<Dep>>)
    ensures r == Edges(kind, ids)
  {
    var out: seq<Dep> := [];
    for k := 0 to |ids|
      invariant Edges(kind, ids[..k]) == Some(out)
    {
      assert ids[..k + 1][..k] == ids[..k];
      var id := ParseInt(TrimSpace(ids[k]));
      if id.None? {
        EdgesFail(kind, ids, k + 1);
        return None;
      }
      out := out + [Dep(kind, id.value)];
    }
    assert ids[..|ids|] == ids;
    return Some(out);
  }

  method ParseClause(text: string) returns (r: Option<seq<Dep>>)
    ensures r == Clause(text)
  {
    var clause := TrimSpace(text);
    if clause == "" {
      return Some([]);
    }
    var parts := Split(clause, ':');
    if |parts| < 2 {
      return None;
    }
    var kind := Kind(parts[0]);
    if kind.None? {
      return None;
    }
    r := ParseIds(kind.value, parts[1..]);
  }

  method ParseDependency(s: string) returns (r: Option<seq<Dep>>)
    ensures r == Parsed(s)
  {
    var trimmed := TrimSpace(s);
    if trimmed == "" {
      return Some([]);
    }
    r := ParseClauses(Split(trimmed, ','));
  }

  method ParseClauses(texts: seq<string>) returns (r: Option<seq<Dep>>)
    ensures r == Clauses(texts)
  {
    var out: seq<Dep> := [];
    for i := 0 to |texts|
      invariant Clauses(texts[..i]) == Some(out)
    {
      OneMore(texts, i);
      var edges := ParseClause(texts[i]);
      if edges.None? {
        ClausesFail(texts, i + 1);
        return None;
      }
      out := out + edges.value;
    }
    All(texts);
    return Some(out);
  }

  // ----- printing it back -----

  function Word(kind: DepType): string {
    match kind
    case AfterOK => "afterok"
    case AfterAny => "afterany"
    case AfterNotOK => "afternotok"
  }

  function Shown(ids: seq<int>): (r: seq<string>)
    ensures |r| == |ids|
    ensures forall i :: 0 <= i < |ids| ==> r[i] == Show(ids[i])
  {
    seq(|ids|, i requires 0 <= i < |ids| => Show(ids[i]))
  }

  /** One clause: a kind and the ids it applies to. */
  datatype Group = Group(kind: DepType, ids: seq<int>) {
    predicate Valid() { |ids| > 0 && forall id :: id in ids ==> MIN_INT64 <= id <= MAX_INT64 }

    function Text(): string { Join([Word(kind)] + Shown(ids), ':') }

    function Deps(): seq<Dep> { seq(|ids|, i requires 0 <= i < |ids| => Dep(kind, ids[i])) }
  }

  function AllDeps(groups: seq<Group>): seq<Dep> {
    if groups == [] then [] else AllDeps(groups[..|groups| - 1]) + groups[|groups| - 1].Deps()
  }

  function Texts(groups: seq<Group>): (r: seq<string>)
    ensures |r| == |groups|
    ensures forall i :: 0 <= i < |groups| ==> r[i] == groups[i].Text()
  {
    seq(|groups|, i requires 0 <= i < |groups| => groups[i].Text())
  }

  function Print(groups: seq<Group>): string {
    if groups == [] then "" else Join(Texts(groups), ',')
  }

  predicate Plain(c: char) {
    'a' <= c <= 'z' || IsDigit(c) || c == '-' || c == ':' || c == ','
  }

  lemma {:induction false} JoinHas(parts: seq<string>, sep: char)
    requires |parts| > 0
    ensures forall c :: c in Join(parts, sep) ==> c == sep || exists p :: p in parts && c in p
    ensures parts[0] <= Join(parts, sep)
  {
    if |parts| > 1 {
      JoinHas(parts[1..], sep);
      forall c | c in Join(parts, sep) ensures c == sep || exists p :: p in parts && c in p {
        if c in parts[0] {
          assert parts[0] in parts;
        } else if c != sep {
          assert c in Join(parts[1..], sep);
          var p :| p in parts[1..] && c in p;
          assert p in parts;
        }
      }
    } else {
      assert parts[0] in parts;
    }
  }

  lemma {:induction false} GroupIsPlain(g: Group)
    requires g.Valid()
    ensures forall c :: c in g.Text() ==> Plain(c) && c != ','
    ensures g.Text() != ""
  {
    var parts := [Word(g.kind)] + Shown(g.ids);
    JoinHas(parts, ':');
    forall p, c | p in parts && c in p ensures Plain(c) && c != ',' && c != ':' {
      if p != Word(g.kind) {
        var i :| 0 <= i < |parts| && parts[i] == p;
        ShowIsPlain(g.ids[i - 1]);
      }
    }
  }

  lemma {:induction false} PlainIsTrimmed(s: string)
    requires forall c :: c in s ==> Plain(c)
    ensures TrimSpace(s) == s
  {
    if s != "" {
      assert s[0] in s && s[|s| - 1] in s;
    }
    TrimNothing(s);
  }

  lemma {:induction false} ReadId(id: int)
    requires MIN_INT64 <= id <= MAX_INT64
    ensures ParseInt(TrimSpace(Show(id))) == Some(id)
  {
  }

  lemma {:induction false} DepsGrow(kind: DepType, ids: seq<int>)
    requires ids != []
    ensures Group(kind, ids).Deps() == Group(kind, ids[..|ids| - 1]).Deps() + [Dep(kind, ids[|ids| - 1])]
  {
  }

  lemma {:induction false} EdgesOf(kind: DepType, ids: seq<int>)
    requires forall id :: id in ids ==> MIN_INT64 <= id <= MAX_INT64
    ensures Edges(kind, Shown(ids)) == Some(Group(kind, ids).Deps())
  {
    if ids == [] {
      assert Shown(ids) == [] && Group(kind, ids).Deps() == [];
    } else {
      var k := |ids| - 1;
      assert ids[k] in ids && forall id :: id in ids[..k] ==> id in ids;
      EdgesOf(kind, ids[..k]);
      assert Shown(ids)[..k] == Shown(ids[..k]);
      ReadId(ids[k]);
      DepsGrow(kind, ids);
    }
  }

  lemma {:induction false} ClauseOf(g: Group)
    requires g.Valid()
    ensures Clause(g.Text()) == Some(g.Deps())
  {
    GroupIsPlain(g);
    PlainIsTrimmed(g.Text());
    var parts := [Word(g.kind)] + Shown(g.ids);
    forall p | p in parts ensures ':' !in p {
      if p != Word(g.kind) {
        var i :| 0 <= i < |parts| && parts[i] == p;
        ShowIsPlain(g.ids[i - 1]);
      }
    }
    SplitJoin(parts, ':');
    assert parts[1..] == Shown(g.ids);
    KindOf(g.kind);
    EdgesOf(g.kind, g.ids);
  }

  lemma {:induction false} KindOf(kind: DepType)
    ensures Kind(Word(kind)) == Some(kind)
  {
    LowerIsLower(Word(kind));
  }

  lemma {:induction false} LowerIsLower(s: string)
    requires forall c :: c in s ==> 'a' <= c <= 'z'
    ensures ToLower(s) == s
  {
    if s != "" {
      assert s[0] in s && forall c :: c in s[1..] ==> c in s;
      LowerIsLower(s[1..]);
    }
  }

  lemma {:induction false} ClausesOf(groups: seq<Group>)
    requires forall g :: g in groups ==> g.Valid()
    ensures Clauses(Texts(groups)) == Some(AllDeps(groups))
  {
    if groups != [] {
      var k := |groups| - 1;
      assert groups[k] in groups;
      ClausesOf(groups[..k]);
      assert Texts(groups)[..k] == Texts(groups[..k]);
      ClauseOf(groups[k]);
    }
  }

  /** Parsing inverts printing, for every list of clauses. */
  lemma {:induction false} ParsePrint(groups: seq<Group>)
    requires forall g :: g in groups ==> g.Valid()
    ensures Parsed(Print(groups)) == Some(AllDeps(groups))
  {
    if groups != [] {
      var texts := Texts(groups);
      forall p | p in texts ensures ',' !in p && (forall c :: c in p ==> Plain(c)) && p != "" {
        var i :| 0 <= i < |texts| && texts[i] == p;
        assert groups[i] in groups;
        GroupIsPlain(groups[i]);
      }
      JoinHas(texts, ',');
      PlainIsTrimmed(Print(groups));
      assert texts[0] in texts && Print(groups) != "";
      SplitJoin(texts, ',');
      ClausesOf(groups);
    }
  }
}
