/** Standings are conserved: shares add up, more use never helps, and idle time
    changes nothing. */
module StandingLaws {
  import opened Paths
  import opened FairShare

  // ----- arithmetic -----

  lemma {:induction false} DivideSum(a: real, b: real, c: real)
    requires c != 0.0
    ensures (a + b) / c == a / c + b / c
  {
  }

  lemma {:induction false} DivideBack(a: real, c: real)
    requires c != 0.0
    ensures a / c * c == a && c / c == 1.0
  {
  }

  lemma {:induction false} DivideLess(a: real, b: real, c: real)
    requires a <= b && c > 0.0
    ensures a / c <= b / c
  {
  }

  lemma {:induction false} DivideByMore(a: real, b: real, c: real)
    requires a >= 0.0 && 0.0 < b <= c
    ensures a / c <= a / b
  {
  }

  lemma {:induction false} Associates(a: real, b: real, c: real)
    ensures a * (b * c) == (a * b) * c
  {
  }

  // ----- sums -----

  function SumNormShares(out: seq<Share>): real {
    if out == [] then 0.0 else SumNormShares(out[..|out| - 1]) + out[|out| - 1].normShares
  }

  function SumNormUsage(out: seq<Share>): real {
    if out == [] then 0.0 else SumNormUsage(out[..|out| - 1]) + out[|out| - 1].normUsage
  }

  lemma {:induction false} TotalSharesPositive(c: Config, all: seq<string>)
    ensures TotalShares(c, all) >= 0.0 && (all != [] ==> TotalShares(c, all) > 0.0)
  {
    if all != [] { TotalSharesPositive(c, all[..|all| - 1]); }
  }

  lemma {:induction false} Norms(c: Config, e: Exp2, byUser: map<string, real>, all: seq<string>, u: string)
    ensures StandingOf(c, e, byUser, all, u).normShares == Part(SharesOf(c, u), TotalShares(c, all))
    ensures StandingOf(c, e, byUser, all, u).normUsage == Part(Raw(byUser, u), TotalUsage(byUser, all))
  {
  }

  /** The first accounts' fractions add up to their part of the total. */
  lemma {:induction false} SharesSoFar(c: Config, all: seq<string>, out: seq<Share>, k: nat, total: real)
    requires |out| == |all| && k <= |all| && total > 0.0
    requires forall i :: 0 <= i < |all| ==> out[i].normShares == Part(SharesOf(c, all[i]), total)
    ensures SumNormShares(out[..k]) == TotalShares(c, all[..k]) / total
  {
    if k > 0 {
      SharesSoFar(c, all, out, k - 1, total);
      assert out[..k][..k - 1] == out[..k - 1] && all[..k][..k - 1] == all[..k - 1];
      DivideSum(TotalShares(c, all[..k - 1]), SharesOf(c, all[k - 1]), total);
    }
  }

  lemma {:induction false} UsageSoFar(byUser: map<string, real>, all: seq<string>, out: seq<Share>, k: nat, total: real)
    requires |out| == |all| && k <= |all| && total > 0.0
    requires forall i :: 0 <= i < |all| ==> out[i].normUsage == Part(Raw(byUser, all[i]), total)
    ensures SumNormUsage(out[..k]) == TotalUsage(byUser, all[..k]) / total
  {
    if k > 0 {
      UsageSoFar(byUser, all, out, k - 1, total);
      assert out[..k][..k - 1] == out[..k - 1] && all[..k][..k - 1] == all[..k - 1];
      DivideSum(TotalUsage(byUser, all[..k - 1]), Raw(byUser, all[k - 1]), total);
    }
  }

  /** Normalised shares add up to one, and so does normalised usage, unless it is all zero. */
  lemma {:induction false} SharesAddUp(c: Config, e: Exp2, byUser: map<string, real>, all: seq<string>, out: seq<Share>)
    requires Standings(c, e, byUser, all, out) && all != []
    ensures SumNormShares(out) == 1.0
    ensures TotalUsage(byUser, all) > 0.0 ==> SumNormUsage(out) == 1.0
    ensures TotalUsage(byUser, all) <= 0.0 ==> forall i :: 0 <= i < |out| ==> out[i].normUsage == 0.0
  {
    TotalSharesPositive(c, all);
    forall i | 0 <= i < |all|
      ensures out[i].normShares == Part(SharesOf(c, all[i]), TotalShares(c, all))
      ensures out[i].normUsage == Part(Raw(byUser, all[i]), TotalUsage(byUser, all))
    {
      Norms(c, e, byUser, all, all[i]);
    }
    assert out[..|all|] == out && all[..|all|] == all;
    SharesSoFar(c, all, out, |all|, TotalShares(c, all));
    DivideBack(1.0, TotalShares(c, all));
    if TotalUsage(byUser, all) > 0.0 {
      UsageSoFar(byUser, all, out, |all|, TotalUsage(byUser, all));
      DivideBack(1.0, TotalUsage(byUser, all));
    }
  }

  // ----- one account uses more -----

  lemma {:induction false} FactorFalls(e: Exp2, u: real, u': real, s: real)
    requires IsExp2(e) && u <= u' && s > 0.0
    ensures FairFactor(e, u', s) <= FairFactor(e, u, s)
  {
    if u' > 0.0 {
      var x, x' := -u / s, -u' / s;
      DivideLess(-u', -u, s);
      assert x' <= x;
      assert x' < 0.0 && Rises(e, x', 0.0) && Rises(e, x', x);
    }
  }

  lemma {:induction false} RawWithin(byUser: map<string, real>, all: seq<string>, u: string)
    requires forall v :: v in all ==> Raw(byUser, v) >= 0.0
    ensures TotalUsage(byUser, all) >= 0.0 && (u in all ==> Raw(byUser, u) <= TotalUsage(byUser, all))
  {
    if all != [] {
      assert forall v :: v in all[..|all| - 1] ==> v in all;
      assert all[|all| - 1] in all;
      RawWithin(byUser, all[..|all| - 1], u);
    }
  }

  /** Raising one entry raises the total by as much. */
  lemma {:induction false} TotalRises(byUser: map<string, real>, all: seq<string>, u: string, x: real)
    requires NoneTwice(all)
    ensures TotalUsage(byUser[u := x], all) == TotalUsage(byUser, all) + if u in all then x - Raw(byUser, u) else 0.0
  {
    if all != [] {
      var n := |all| - 1;
      TotalRises(byUser, all[..n], u, x);
      assert all == all[..n] + [all[n]];
      if all[n] == u { assert u !in all[..n]; }
    }
  }

  lemma {:induction false} PartRises(x: real, x': real, rest: real)
    requires 0.0 <= x <= x' && rest >= 0.0
    ensures Part(x, x + rest) <= Part(x', x' + rest)
  {
    if x + rest > 0.0 {
      var p, p' := x / (x + rest), x' / (x' + rest);
      DivideSum(x, rest, x + rest);
      DivideBack(1.0, x + rest);
      DivideSum(x', rest, x' + rest);
      DivideBack(1.0, x' + rest);
      DivideByMore(rest, x + rest, x' + rest);
    }
  }

  lemma {:induction false} PartFalls(y: real, total: real, total': real)
    requires 0.0 <= y <= total <= total'
    ensures Part(y, total') <= Part(y, total)
  {
    if total > 0.0 {
      DivideByMore(y, total, total');
    }
  }

  lemma {:induction false} FactorOf(c: Config, e: Exp2, byUser: map<string, real>, all: seq<string>, u: string)
    ensures StandingOf(c, e, byUser, all, u).factor
         == FairFactor(e, Part(Raw(byUser, u), TotalUsage(byUser, all)), Part(SharesOf(c, u), TotalShares(c, all)))
  {
  }

  /** Raising one account's usage never raises its own factor, nor lowers another's. */
  lemma {:induction false} MoreUseNeverHelps(c: Config, e: Exp2, byUser: map<string, real>, all: seq<string>, u: string, x: real, v: string)
    requires IsExp2(e) && NoneTwice(all) && u in all && v in all
    requires (forall w :: w in all ==> Raw(byUser, w) >= 0.0) && x >= Raw(byUser, u)
    ensures var now, then' := StandingOf(c, e, byUser, all, v), StandingOf(c, e, byUser[u := x], all, v);
            if v == u then then'.factor <= now.factor else then'.factor >= now.factor
  {
    TotalSharesPositive(c, all);
    TotalRises(byUser, all, u, x);
    RawWithin(byUser, all, u);
    RawWithin(byUser, all, v);
    FactorOf(c, e, byUser, all, v);
    FactorOf(c, e, byUser[u := x], all, v);
    var s := Part(SharesOf(c, v), TotalShares(c, all));
    var total, total' := TotalUsage(byUser, all), TotalUsage(byUser[u := x], all);
    if v == u {
      PartRises(Raw(byUser, u), x, total - Raw(byUser, u));
      FactorFalls(e, Part(Raw(byUser, u), total), Part(x, total'), s);
    } else {
      PartFalls(Raw(byUser, v), total, total');
      FactorFalls(e, Part(Raw(byUser, v), total'), Part(Raw(byUser, v), total), s);
    }
  }

  // ----- time passes -----

  /** How much less everything counts some time later. */
  function Fading(c: Config, e: Exp2, d: nat): real {
    if c.halfLife <= 0 || d == 0 then 1.0 else e(-(Seconds(d) / Seconds(c.halfLife)))
  }

  lemma {:induction false} FadingPositive(c: Config, e: Exp2, d: nat)
    requires IsExp2(e)
    ensures Fading(c, e, d) > 0.0
  {
    ExpPositive(e, -(Seconds(d) / Seconds(WithHalfLife(c))));
  }

  function WithHalfLife(c: Config): int {
    if c.halfLife > 0 then c.halfLife else SECOND
  }

  lemma {:induction false} ExpPositive(e: Exp2, x: real)
    requires IsExp2(e)
    ensures e(x) > 0.0
  {
    var h, g := e(x / 2.0), e((x - 1.0) / 2.0);
    assert x / 2.0 + x / 2.0 == x && (x - 1.0) / 2.0 + (x - 1.0) / 2.0 == x - 1.0;
    assert OfSum(e, x / 2.0, x / 2.0) && OfSum(e, (x - 1.0) / 2.0, (x - 1.0) / 2.0) && Rises(e, x - 1.0, x);
    assert h * h >= 0.0 && g * g >= 0.0;
  }

  ghost predicate Over(r: Row, now: int) {
    r.end.Some? && r.end.value <= now
  }

  lemma {:induction false} ExpOfSum(e: Exp2, a: real, b: real, h: real)
    requires IsExp2(e) && h > 0.0
    ensures e(-((a + b) / h)) == e(-(a / h)) * e(-(b / h))
  {
    DivideSum(a, b, h);
    assert OfSum(e, -(a / h), -(b / h));
    assert -((a + b) / h) == -(a / h) + -(b / h);
  }

  lemma {:induction false} DecayFades(c: Config, e: Exp2, age: int, d: nat)
    requires IsExp2(e) && age > 0
    ensures Decay(c, e, age + d) == Decay(c, e, age) * Fading(c, e, d)
  {
    if c.halfLife > 0 && d > 0 {
      assert Seconds(age + d) == Seconds(age) + Seconds(d);
      ExpOfSum(e, Seconds(age), Seconds(d), Seconds(c.halfLife));
    }
  }

  lemma {:induction false} ContributionFades(c: Config, e: Exp2, r: Row, now: int, d: nat)
    requires IsExp2(e) && Over(r, now) && EndOf(r, now) > r.start
    ensures EndOf(r, now + d) == EndOf(r, now)
    ensures Contribution(c, e, r, now + d) == Contribution(c, e, r, now) * Fading(c, e, d)
  {
    var end := EndOf(r, now);
    var mid := r.start + (end - r.start) / 2;
    DecayFades(c, e, now - mid, d);
    assert now - mid + d == now + d - mid;
    Associates(Cost(c, r.cpus, r.gpus, r.memBytes, end - r.start), Decay(c, e, now - mid), Fading(c, e, d));
  }

  /** One account's usage is another's, faded. */
  predicate Faded(before: map<string, real>, after: map<string, real>, u: string, f: real) {
    (u in after <==> u in before) && Raw(after, u) == Raw(before, u) * f
  }

  lemma {:induction false} OneMoreRow(before: map<string, real>, after: map<string, real>, user: string, x: real, x': real, f: real, u: string)
    requires Faded(before, after, u, f) && x' == x * f
    ensures Faded(before[user := Raw(before, user) + x], after[user := Raw(after, user) + x'], u, f)
  {
  }

  /** An account's usage fades by the same amount, whichever account it is. */
  lemma {:induction false} UsageFades(c: Config, e: Exp2, rows: seq<Row>, now: int, d: nat, u: string)
    requires IsExp2(e) && forall i :: 0 <= i < |rows| ==> Over(rows[i], now)
    ensures Faded(Accounts(c, e, rows, now), Accounts(c, e, rows, now + d), u, Fading(c, e, d))
  {
    if rows == [] {
      assert Accounts(c, e, rows, now) == Accounts(c, e, rows, now + d) == map[];
    } else {
      var front, r := rows[..|rows| - 1], rows[|rows| - 1];
      UsageFades(c, e, front, now, d, u);
      RowFades(c, e, front, r, now, d, u);
    }
  }

  lemma {:induction false} RowFades(c: Config, e: Exp2, front: seq<Row>, r: Row, now: int, d: nat, u: string)
    requires IsExp2(e) && Over(r, now)
    requires Faded(Accounts(c, e, front, now), Accounts(c, e, front, now + d), u, Fading(c, e, d))
    ensures Faded(With(c, e, front, r, now), With(c, e, front, r, now + d), u, Fading(c, e, d))
  {
    if EndOf(r, now) > r.start {
      ContributionFades(c, e, r, now, d);
      OneMoreRow(Accounts(c, e, front, now), Accounts(c, e, front, now + d), r.user,
                 Contribution(c, e, r, now), Contribution(c, e, r, now + d), Fading(c, e, d), u);
    }
  }

  function With(c: Config, e: Exp2, front: seq<Row>, r: Row, now: int): map<string, real> {
    var before := Accounts(c, e, front, now);
    if EndOf(r, now) <= r.start then before else before[r.user := Raw(before, r.user) + Contribution(c, e, r, now)]
  }

  predicate AllFaded(before: map<string, real>, after: map<string, real>, all: seq<string>, f: real) {
    all != [] ==> AllFaded(before, after, all[..|all| - 1], f) && Faded(before, after, all[|all| - 1], f)
  }

  lemma {:induction false} TotalFades(before: map<string, real>, after: map<string, real>, all: seq<string>, f: real)
    requires AllFaded(before, after, all, f)
    ensures TotalUsage(after, all) == TotalUsage(before, all) * f
  {
    if all != [] {
      var n := |all| - 1;
      TotalFades(before, after, all[..n], f);
      OneMoreTotal(before, all, f);
    }
  }

  lemma {:induction false} OneMoreTotal(byUser: map<string, real>, all: seq<string>, f: real)
    requires all != []
    ensures var n := |all| - 1;
            && TotalUsage(byUser, all) == TotalUsage(byUser, all[..n]) + Raw(byUser, all[n])
            && TotalUsage(byUser, all) * f == TotalUsage(byUser, all[..n]) * f + Raw(byUser, all[n]) * f
  {
  }

  lemma {:induction false} PartFades(x: real, total: real, f: real)
    requires f > 0.0
    ensures Part(x * f, total * f) == Part(x, total)
  {
  }

  /** The same standing, factor and all, but for the raw usage. */
  predicate OnlyFaded(s: Share, t: Share, f: real) {
    t == s.(rawUsage := s.rawUsage * f)
  }

  /** Idle time changes nobody's factor: with every job of the history over, the
      standings some time later are the same but for the raw usage, which has faded by
      one common amount. */
  lemma {:induction false} IdleTimeChangesNothing(c: Config, e: Exp2, rows: seq<Row>, now: int, d: nat, all: seq<string>, u: string)
    requires IsExp2(e) && forall i :: 0 <= i < |rows| ==> Over(rows[i], now)
    ensures OnlyFaded(StandingOf(c, e, Accounts(c, e, rows, now), all, u),
                      StandingOf(c, e, Accounts(c, e, rows, now + d), all, u), Fading(c, e, d))
  {
    UsageFades(c, e, rows, now, d, u);
    EverybodyFades(c, e, rows, now, d, all);
    FadingPositive(c, e, d);
    SameStanding(c, e, Accounts(c, e, rows, now), Accounts(c, e, rows, now + d), all, u, Fading(c, e, d));
  }

  lemma {:induction false} EverybodyFades(c: Config, e: Exp2, rows: seq<Row>, now: int, d: nat, all: seq<string>)
    requires IsExp2(e) && forall i :: 0 <= i < |rows| ==> Over(rows[i], now)
    ensures AllFaded(Accounts(c, e, rows, now), Accounts(c, e, rows, now + d), all, Fading(c, e, d))
  {
    if all != [] {
      EverybodyFades(c, e, rows, now, d, all[..|all| - 1]);
      UsageFades(c, e, rows, now, d, all[|all| - 1]);
    }
  }

  function Made(c: Config, e: Exp2, all: seq<string>, u: string, raw: real, normUsage: real): Share {
    var normShares := Part(SharesOf(c, u), TotalShares(c, all));
    Share(u, SharesOf(c, u), normShares, raw, normUsage, FairFactor(e, normUsage, normShares))
  }

  lemma {:induction false} MadeOf(c: Config, e: Exp2, byUser: map<string, real>, all: seq<string>, u: string)
    ensures StandingOf(c, e, byUser, all, u) == Made(c, e, all, u, Raw(byUser, u), Part(Raw(byUser, u), TotalUsage(byUser, all)))
  {
  }

  lemma {:induction false} OnlyRawDiffers(c: Config, e: Exp2, all: seq<string>, u: string, raw: real, raw': real, p: real, f: real)
    requires raw' == raw * f
    ensures OnlyFaded(Made(c, e, all, u, raw, p), Made(c, e, all, u, raw', p), f)
  {
  }

  lemma {:induction false} SameStanding(c: Config, e: Exp2, before: map<string, real>, after: map<string, real>, all: seq<string>, u: string, f: real)
    requires f > 0.0 && Faded(before, after, u, f) && AllFaded(before, after, all, f)
    ensures OnlyFaded(StandingOf(c, e, before, all, u), StandingOf(c, e, after, all, u), f)
  {
    TotalFades(before, after, all, f);
    PartFades(Raw(before, u), TotalUsage(before, all), f);
    MadeOf(c, e, before, all, u);
    MadeOf(c, e, after, all, u);
    OnlyRawDiffers(c, e, all, u, Raw(before, u), Raw(after, u), Part(Raw(before, u), TotalUsage(before, all)), f);
  }
}
