/** Fair share: what accounts are entitled to, what they used, and the factor that
    comes of it.  Numbers are reals, and two to a power is a function `exp2` of which
    only the laws of exponentials are used. */
module FairShare {
  import opened Lists
  import opened Paths
  import opened Sorting

  type Exp2 = real -> real

  predicate OfSum(e: Exp2, x: real, y: real) { e(x + y) == e(x) * e(y) }

  predicate Rises(e: Exp2, x: real, y: real) { x < y ==> e(x) < e(y) }

  ghost predicate IsExp2(e: Exp2) {
    e(0.0) == 1.0 && (forall x, y :: OfSum(e, x, y)) && (forall x, y :: Rises(e, x, y))
  }

  // Times and durations in nanoseconds.
  const SECOND := 1_000_000_000
  const WEEK := 7 * 24 * 3600 * SECOND

  function Seconds(d: int): real {
    d as real / 1_000_000_000.0
  }

  datatype Weights = Weights(fair: real, age: real, size: real) {
    function Sum(): real { fair + age + size }
  }

  datatype Config = Config(
    weights: Weights, gpu: real, memGB: real, halfLife: int, maxAge: int, favorSmall: bool,
    defaultShares: real, shares: map<string, real>)

  const DEFAULT_WEIGHTS := Weights(1.0, 0.2, 0.0)

  function WithDefaults(c: Config): Config {
    c.(weights := if c.weights.Sum() <= 0.0 then DEFAULT_WEIGHTS else c.weights,
       gpu := if c.gpu <= 0.0 then 25.0 else c.gpu,
       memGB := if c.memGB <= 0.0 then 0.25 else c.memGB,
       halfLife := if c.halfLife <= 0 then WEEK else c.halfLife,
       maxAge := if c.maxAge <= 0 then WEEK else c.maxAge,
       defaultShares := if c.defaultShares <= 0.0 then 1.0 else c.defaultShares)
  }

  /** What an account is entitled to: always something. */
  function SharesOf(c: Config, user: string): (s: real)
    ensures s > 0.0
  {
    if user in c.shares && c.shares[user] > 0.0 then c.shares[user]
    else if c.defaultShares > 0.0 then c.defaultShares
    else 1.0
  }

  function Cost(c: Config, cpus: int, gpus: int, memBytes: int, dur: int): real {
    if dur <= 0 then 0.0
    else
      var n := if cpus <= 0 then 1 else cpus;
      (n as real + gpus as real * c.gpu + memBytes as real / 1_073_741_824.0 * c.memGB) * Seconds(dur)
  }

  /** What is left of a contribution after some time: half of it per half-life. */
  function Decay(c: Config, e: Exp2, age: int): real {
    if age <= 0 || c.halfLife <= 0 then 1.0 else e(-(Seconds(age) / Seconds(c.halfLife)))
  }

  function FairFactor(e: Exp2, normUsage: real, normShares: real): real {
    if normUsage <= 0.0 then 1.0
    else if normShares <= 0.0 then 0.0
    else e(-normUsage / normShares)
  }

  // ----- standings -----

  datatype Usage = Usage(user: string, resourceSeconds: real)

  datatype Share = Share(
    user: string, shares: real, normShares: real, rawUsage: real, normUsage: real, factor: real)

  function Raw(byUser: map<string, real>, u: string): real {
    if u in byUser then byUser[u] else 0.0
  }

  /** Every account's usage, summed over its entries. */
  function Totals(usage: seq<Usage>): map<string, real> {
    if usage == [] then map[]
    else
      var before, u := Totals(usage[..|usage| - 1]), usage[|usage| - 1];
      before[u.user := Raw(before, u.user) + u.resourceSeconds]
  }

  function TotalShares(c: Config, all: seq<string>): real {
    if all == [] then 0.0 else TotalShares(c, all[..|all| - 1]) + SharesOf(c, all[|all| - 1])
  }

  function TotalUsage(byUser: map<string, real>, all: seq<string>): real {
    if all == [] then 0.0 else TotalUsage(byUser, all[..|all| - 1]) + Raw(byUser, all[|all| - 1])
  }

  function Part(x: real, total: real): real {
    if total > 0.0 then x / total else 0.0
  }

  function StandingOf(c: Config, e: Exp2, byUser: map<string, real>, all: seq<string>, u: string): Share {
    var normShares := Part(SharesOf(c, u), TotalShares(c, all));
    var normUsage := Part(Raw(byUser, u), TotalUsage(byUser, all));
    Share(u, SharesOf(c, u), normShares, Raw(byUser, u), normUsage, FairFactor(e, normUsage, normShares))
  }

  ghost predicate InOrder(all: seq<string>) {
    forall i, j :: 0 <= i < j < |all| ==> TextLess(all[i], all[j])
  }

  function Who(out: seq<Share>): seq<string> {
    seq(|out|, i requires 0 <= i < |out| => out[i].user)
  }

  /** The standings of a list of accounts. */
  ghost predicate Standings(c: Config, e: Exp2, byUser: map<string, real>, all: seq<string>, out: seq<Share>) {
    |out| == |all| && forall i :: 0 <= i < |all| ==> out[i] == StandingOf(c, e, byUser, all, all[i])
  }

  /** Everybody's standing, in the order of their names; an account that is gone but
      has usage counts too. */
  method SharesFor(cfg: Config, e: Exp2, users: seq<string>, usage: seq<Usage>) returns (out: seq<Share>)
    ensures InOrder(Who(out)) && forall u :: u in Who(out) <==> u in users || u in Totals(usage)
    ensures Standings(WithDefaults(cfg), e, Totals(usage), Who(out), out)
  {
    var c := WithDefaults(cfg);
    var byUser := AddUp(usage);
    var all := Everybody(users, byUser);
    var totalShares, totalUsage := SumUp(c, byUser, all);
    out := Stand(c, e, byUser, all, totalShares, totalUsage);
    assert Who(out) == all;
  }

  method SumUp(c: Config, byUser: map<string, real>, all: seq<string>) returns (totalShares: real, totalUsage: real)
    ensures totalShares == TotalShares(c, all) && totalUsage == TotalUsage(byUser, all)
  {
    totalShares, totalUsage := 0.0, 0.0;
    for i := 0 to |all|
      invariant totalShares == TotalShares(c, all[..i]) && totalUsage == TotalUsage(byUser, all[..i])
    {
      OneMore(all, i);
      totalShares := totalShares + SharesOf(c, all[i]);
      totalUsage := totalUsage + if all[i] in byUser then byUser[all[i]] else 0.0;
    }
    All(all);
  }

  method Stand(c: Config, e: Exp2, byUser: map<string, real>, all: seq<string>, totalShares: real, totalUsage: real)
    returns (out: seq<Share>)
    requires totalShares == TotalShares(c, all) && totalUsage == TotalUsage(byUser, all)
    ensures Standings(c, e, byUser, all, out)
  {
    out := [];
    for i := 0 to |all|
      invariant |out| == i && forall k :: 0 <= k < i ==> out[k] == StandingOf(c, e, byUser, all, all[k])
    {
      var u := all[i];
      var raw := if u in byUser then byUser[u] else 0.0;
      var normShares, normUsage := 0.0, 0.0;
      if totalShares > 0.0 {
        normShares := SharesOf(c, u) / totalShares;
      }
      if totalUsage > 0.0 {
        normUsage := raw / totalUsage;
      }
      var share := Share(u, SharesOf(c, u), normShares, raw, normUsage, FairFactor(e, normUsage, normShares));
      assert share == StandingOf(c, e, byUser, all, u);
      out := out + [share];
    }
  }

  method AddUp(usage: seq<Usage>) returns (byUser: map<string, real>)
    ensures byUser == Totals(usage)
  {
    byUser := map[];
    for i := 0 to |usage|
      invariant byUser == Totals(usage[..i])
    {
      OneMore(usage, i);
      var u := usage[i];
      byUser := byUser[u.user := (if u.user in byUser then byUser[u.user] else 0.0) + u.resourceSeconds];
    }
    All(usage);
  }

  ghost predicate NoneTwice(all: seq<string>) {
    forall i, j :: 0 <= i < j < |all| ==> all[i] != all[j]
  }

  method Everybody(users: seq<string>, byUser: map<string, real>) returns (all: seq<string>)
    ensures InOrder(all) && forall u :: u in all <==> u in users || u in byUser
  {
    var list := OnceEach(users);
    list := Include(list, byUser.Keys);
    all := SortNames(list);
  }

  method SortNames(list: seq<string>) returns (all: seq<string>)
    requires NoneTwice(list)
    ensures InOrder(all) && forall u :: u in all <==> u in list
  {
    TextOrdering(list);
    all := Sort(TextLess, list);
    StrictlySorted(list, all);
  }

  method OnceEach(users: seq<string>) returns (list: seq<string>)
    ensures NoneTwice(list) && forall u :: u in list <==> u in users
  {
    list := [];
    for i := 0 to |users|
      invariant NoneTwice(list) && forall u :: u in list <==> u in users[..i]
    {
      OneMore(users, i);
      if users[i] !in list {
        list := list + [users[i]];
      }
    }
    All(users);
  }

  method Include(had: seq<string>, more: set<string>) returns (list: seq<string>)
    requires NoneTwice(had)
    ensures NoneTwice(list) && forall u :: u in list <==> u in had || u in more
  {
    list := had;
    var todo := more;
    while todo != {}
      invariant NoneTwice(list) && todo <= more
      invariant forall u :: u in list || u in todo <==> u in had || u in more
      decreases |todo|
    {
      var u: string :| u in todo;
      if u !in list {
        list := list + [u];
      }
      todo := todo - {u};
    }
  }

  lemma {:induction false} StrictlySorted(list: seq<string>, all: seq<string>)
    requires NoneTwice(list) && Sorted(TextLess, all) && multiset(all) == multiset(list)
    ensures InOrder(all) && forall u :: u in all <==> u in list
  {
    forall u ensures u in all <==> u in list {
      assert u in multiset(all) <==> u in multiset(list);
    }
    forall i, j | 0 <= i < j < |all| ensures all[i] != all[j] {
      if all[i] == all[j] {
        Twice(all, i, j);
        Once(list, all[i]);
      }
    }
  }

  lemma {:induction false} Twice(xs: seq<string>, i: nat, j: nat)
    requires i < j < |xs| && xs[i] == xs[j]
    ensures multiset(xs)[xs[i]] >= 2
  {
    assert xs == xs[..j] + [xs[j]] + xs[j + 1..];
    assert xs[..j][i] == xs[i] && xs[i] in multiset(xs[..j]);
  }

  lemma {:induction false} Once(xs: seq<string>, x: string)
    requires NoneTwice(xs)
    ensures multiset(xs)[x] <= 1
  {
    if xs != [] {
      var n := |xs| - 1;
      Once(xs[..n], x);
      assert xs == xs[..n] + [xs[n]];
      if xs[n] == x {
        assert x !in xs[..n];
      }
    }
  }

  // ----- usage from history -----

  /** A job's use of the cluster; `end` is None while it runs. */
  datatype Row = Row(user: string, cpus: int, gpus: int, memBytes: int, start: int, end: Option<int>)

  function EndOf(r: Row, now: int): int {
    if r.end.None? || r.end.value > now then now else r.end.value
  }

  /** What a job still counts for: its cost, decayed from the middle of its run. */
  function Contribution(c: Config, e: Exp2, r: Row, now: int): real
    requires EndOf(r, now) > r.start
  {
    var end := EndOf(r, now);
    var mid := r.start + (end - r.start) / 2;
    Cost(c, r.cpus, r.gpus, r.memBytes, end - r.start) * Decay(c, e, now - mid)
  }

  function Accounts(c: Config, e: Exp2, rows: seq<Row>, now: int): map<string, real> {
    if rows == [] then map[]
    else
      var before, r := Accounts(c, e, rows[..|rows| - 1], now), rows[|rows| - 1];
      if EndOf(r, now) <= r.start then before
      else before[r.user := Raw(before, r.user) + Contribution(c, e, r, now)]
  }

  method UsageFor(c: Config, e: Exp2, rows: seq<Row>, now: int) returns (usage: seq<Usage>)
    ensures Totals(usage) == Accounts(c, e, rows, now)
    ensures forall i, j :: 0 <= i < j < |usage| ==> TextLess(usage[i].user, usage[j].user)
  {
    var byUser := Account(c, e, rows, now);
    var names := Everybody([], byUser);
    usage := List(byUser, names);
  }

  method Account(c: Config, e: Exp2, rows: seq<Row>, now: int) returns (byUser: map<string, real>)
    ensures byUser == Accounts(c, e, rows, now)
  {
    byUser := map[];
    for i := 0 to |rows|
      invariant byUser == Accounts(c, e, rows[..i], now)
    {
      OneMore(rows, i);
      var r := rows[i];
      if EndOf(r, now) > r.start {
        byUser := byUser[r.user := (if r.user in byUser then byUser[r.user] else 0.0) + Contribution(c, e, r, now)];
      }
    }
    All(rows);
  }

  method List(byUser: map<string, real>, names: seq<string>) returns (usage: seq<Usage>)
    requires InOrder(names) && forall u :: u in names <==> u in byUser
    ensures Totals(usage) == byUser && |usage| == |names| && forall i :: 0 <= i < |names| ==> usage[i].user == names[i]
  {
    usage := [];
    for i := 0 to |names|
      invariant |usage| == i && forall k :: 0 <= k < i ==> usage[k].user == names[k]
      invariant Totals(usage) == map u | u in byUser && u in names[..i] :: byUser[u]
    {
      OneMore(names, i);
      OrderedOnce(names, i);
      assert names[i] in names;
      TotalsGrow(usage, Usage(names[i], byUser[names[i]]));
      usage := usage + [Usage(names[i], byUser[names[i]])];
    }
    All(names);
    assert Totals(usage).Keys == byUser.Keys;
  }

  lemma {:induction false} TotalsGrow(usage: seq<Usage>, u: Usage)
    ensures Totals(usage + [u]) == Totals(usage)[u.user := Raw(Totals(usage), u.user) + u.resourceSeconds]
  {
  }

  lemma {:induction false} OrderedOnce(names: seq<string>, i: nat)
    requires InOrder(names) && i < |names|
    ensures names[i] !in names[..i]
  {
    TextOrdering(names);
  }
}
