/** A round's queue in order of priority. */
module Priority {
  import opened Lists
  import opened Sorting
  import opened FairShare

  /** The zero value of a time: the first instant of the year one. */
  const ZERO_TIME := -62_135_596_800 * SECOND

  datatype Job = Job(id: int, user: string, submitAt: int, cpus: int, gpus: int, memBytes: int)

  datatype Score = Score(id: int, priority: real, fair: real, age: real, size: real)

  /** What one pass scores by. */
  datatype Pass = Pass(cfg: Config, fair: map<string, real>, now: int)

  function SizeCost(c: Config, j: Job): real {
    Cost(c, j.cpus, j.gpus, j.memBytes, SECOND)
  }

  /** The largest job of the round. */
  function MaxCost(c: Config, jobs: seq<Job>): real {
    if jobs == [] then 0.0
    else
      var before, x := MaxCost(c, jobs[..|jobs| - 1]), SizeCost(c, jobs[|jobs| - 1]);
      if x > before then x else before
  }

  function FairOf(p: Pass, user: string): real {
    if user in p.fair then p.fair[user] else 1.0
  }

  function AgeOf(p: Pass, j: Job): real {
    var waited := p.now - j.submitAt;
    if j.submitAt == ZERO_TIME || p.cfg.maxAge <= 0 || waited <= 0 then 0.0
    else
      var age := Seconds(waited) / Seconds(p.cfg.maxAge);
      if age > 1.0 then 1.0 else age
  }

  function SizeOf(p: Pass, maxSz: real, j: Job): real {
    if maxSz <= 0.0 then 0.0
    else
      var size := SizeCost(p.cfg, j) / maxSz;
      if p.cfg.favorSmall then 1.0 - size else size
  }

  function Blend(w: Weights, fair: real, age: real, size: real): real {
    var sum := if w.Sum() <= 0.0 then 1.0 else w.Sum();
    (w.fair * fair + w.age * age + w.size * size) / sum
  }

  function ScoreOf(p: Pass, maxSz: real, j: Job): Score {
    var fair, age, size := FairOf(p, j.user), AgeOf(p, j), SizeOf(p, maxSz, j);
    Score(j.id, Blend(p.cfg.weights, fair, age, size), fair, age, size)
  }

  /** Higher priority first; then the earlier submission; then the lower number. */
  predicate Before(pa: real, pb: real, a: Job, b: Job) {
    if pa != pb then pa > pb
    else if a.submitAt != b.submitAt then a.submitAt < b.submitAt
    else a.id < b.id
  }

  function LessBy(p: Pass, maxSz: real): (Job, Job) -> bool {
    (a: Job, b: Job) => Before(ScoreOf(p, maxSz, a).priority, ScoreOf(p, maxSz, b).priority, a, b)
  }

  ghost predicate DistinctIds(jobs: seq<Job>) {
    forall i, j :: 0 <= i < j < |jobs| ==> jobs[i].id != jobs[j].id
  }

  lemma {:induction false} LessIsAnOrder(p: Pass, maxSz: real, jobs: seq<Job>)
    requires DistinctIds(jobs)
    ensures Ordering(LessBy(p, maxSz)) && Comparable(LessBy(p, maxSz), jobs)
  {
  }

  class Scorer {
    const pass: Pass
    var maxSz: real

    constructor (cfg: Config, shares: seq<Share>, now: int)
      ensures pass == Pass(WithDefaults(cfg), Factors(shares), now) && maxSz == 0.0
    {
      pass := Pass(WithDefaults(cfg), Factors(shares), now);
      maxSz := 0.0;
    }

    method Prepare(jobs: seq<Job>)
      modifies this
      ensures maxSz == MaxCost(pass.cfg, jobs)
    {
      maxSz := 0.0;
      for i := 0 to |jobs|
        invariant maxSz == MaxCost(pass.cfg, jobs[..i])
      {
        OneMore(jobs, i);
        var c := SizeCost(pass.cfg, jobs[i]);
        if c > maxSz {
          maxSz := c;
        }
      }
      All(jobs);
    }

    method Order(jobs: seq<Job>) returns (out: seq<Job>, scores: map<int, Score>)
      requires DistinctIds(jobs)
      modifies this
      ensures multiset(out) == multiset(jobs)
      ensures Sorted(LessBy(pass, MaxCost(pass.cfg, jobs)), out)
      ensures forall j :: j in jobs ==> j.id in scores && scores[j.id] == ScoreOf(pass, MaxCost(pass.cfg, jobs), j)
    {
      Prepare(jobs);
      scores := map[];
      for i := 0 to |jobs|
        invariant maxSz == MaxCost(pass.cfg, jobs)
        invariant forall k :: 0 <= k < i ==> jobs[k].id in scores && scores[jobs[k].id] == ScoreOf(pass, maxSz, jobs[k])
      {
        scores := scores[jobs[i].id := ScoreOf(pass, maxSz, jobs[i])];
      }
      LessIsAnOrder(pass, maxSz, jobs);
      out := Sort(LessBy(pass, maxSz), jobs);
    }
  }

  function Factors(shares: seq<Share>): map<string, real> {
    if shares == [] then map[]
    else Factors(shares[..|shares| - 1])[shares[|shares| - 1].user := shares[|shares| - 1].factor]
  }

  // ----- the order does not depend on where it starts -----

  lemma {:induction false} MaxCostIsMax(c: Config, jobs: seq<Job>)
    ensures MaxCost(c, jobs) >= 0.0 && forall j :: j in jobs ==> SizeCost(c, j) <= MaxCost(c, jobs)
    ensures MaxCost(c, jobs) == 0.0 || exists j :: j in jobs && SizeCost(c, j) == MaxCost(c, jobs)
  {
    if jobs != [] {
      var front, last := jobs[..|jobs| - 1], jobs[|jobs| - 1];
      MaxCostIsMax(c, front);
      assert jobs == front + [last];
    }
  }

  lemma {:induction false} MaxCostSame(c: Config, xs: seq<Job>, ys: seq<Job>)
    requires multiset(xs) == multiset(ys)
    ensures MaxCost(c, xs) == MaxCost(c, ys)
  {
    MaxCostIsMax(c, xs);
    MaxCostIsMax(c, ys);
    forall j: Job ensures j in xs <==> j in ys {
      assert j in multiset(xs) <==> j in multiset(ys);
    }
  }

  /** The same jobs come out in the same order, however they went in. */
  lemma {:induction false} OrderIsDeterministic(p: Pass, jobs: seq<Job>, jobs': seq<Job>, out: seq<Job>, out': seq<Job>)
    requires DistinctIds(jobs) && multiset(jobs) == multiset(jobs')
    requires multiset(out) == multiset(jobs) && Sorted(LessBy(p, MaxCost(p.cfg, jobs)), out)
    requires multiset(out') == multiset(jobs') && Sorted(LessBy(p, MaxCost(p.cfg, jobs')), out')
    ensures out == out'
  {
    MaxCostSame(p.cfg, jobs, jobs');
    LessIsAnOrder(p, MaxCost(p.cfg, jobs), jobs);
    SortedUnique(LessBy(p, MaxCost(p.cfg, jobs)), out, out');
  }

  // ----- weights are relative -----

  function Times(w: Weights, k: real): Weights {
    Weights(w.fair * k, w.age * k, w.size * k)
  }

  function Scaled(c: Config, k: real): Config {
    c.(weights := Times(c.weights, k))
  }

  lemma {:induction false} BlendScales(w: Weights, k: real, fair: real, age: real, size: real)
    requires k > 0.0 && w.Sum() > 0.0
    ensures Blend(Times(w, k), fair, age, size) == Blend(w, fair, age, size)
  {
  }

  /** The weights enter a score only where its parts are blended. */
  lemma {:induction false} OnlyTheBlend(p: Pass, w: Weights, maxSz: real, j: Job)
    ensures ScoreOf(p.(cfg := p.cfg.(weights := w)), maxSz, j)
         == Score(j.id, Blend(w, FairOf(p, j.user), AgeOf(p, j), SizeOf(p, maxSz, j)), FairOf(p, j.user), AgeOf(p, j), SizeOf(p, maxSz, j))
  {
  }

  lemma {:induction false} DefaultsOfScaled(c: Config, k: real)
    requires k > 0.0
    ensures WithDefaults(Scaled(c, k)) == WithDefaults(c).(weights := if c.weights.Sum() <= 0.0 then DEFAULT_WEIGHTS else Times(c.weights, k))
    ensures WithDefaults(c).weights == if c.weights.Sum() <= 0.0 then DEFAULT_WEIGHTS else c.weights
  {
  }

  lemma {:induction false} SameBlend(p: Pass, w: Weights, w': Weights, maxSz: real, j: Job)
    requires Blend(w, FairOf(p, j.user), AgeOf(p, j), SizeOf(p, maxSz, j)) == Blend(w', FairOf(p, j.user), AgeOf(p, j), SizeOf(p, maxSz, j))
    ensures ScoreOf(p.(cfg := p.cfg.(weights := w)), maxSz, j) == ScoreOf(p.(cfg := p.cfg.(weights := w')), maxSz, j)
  {
    OnlyTheBlend(p, w, maxSz, j);
    OnlyTheBlend(p, w', maxSz, j);
  }

  /** Scaling all weights by a positive constant changes no score. */
  lemma {:induction false} WeightsAreRelative(c: Config, k: real, fair: map<string, real>, now: int, maxSz: real, j: Job)
    requires k > 0.0
    ensures ScoreOf(Pass(WithDefaults(Scaled(c, k)), fair, now), maxSz, j) == ScoreOf(Pass(WithDefaults(c), fair, now), maxSz, j)
  {
    DefaultsOfScaled(c, k);
    if c.weights.Sum() > 0.0 {
      var p := Pass(WithDefaults(c), fair, now);
      BlendScales(c.weights, k, FairOf(p, j.user), AgeOf(p, j), SizeOf(p, maxSz, j));
      SameBlend(p, Times(c.weights, k), c.weights, maxSz, j);
    }
  }

  // ----- one user's equal jobs -----

  predicate Alike(a: Job, b: Job) {
    a.user == b.user && a.cpus == b.cpus && a.gpus == b.gpus && a.memBytes == b.memBytes
  }

  lemma {:induction false} OlderIsOlder(p: Pass, a: Job, b: Job)
    requires a.submitAt <= b.submitAt && a.submitAt != ZERO_TIME && b.submitAt != ZERO_TIME
    ensures AgeOf(p, a) >= AgeOf(p, b)
  {
  }

  lemma {:induction false} BlendByAge(w: Weights, fair: real, age: real, age': real, size: real)
    requires w.Sum() > 0.0 && age >= age'
    ensures w.age >= 0.0 ==> Blend(w, fair, age, size) >= Blend(w, fair, age', size)
    ensures w.age < 0.0 && age > age' ==> Blend(w, fair, age, size) < Blend(w, fair, age', size)
  {
  }

  /** Two jobs of one user that ask for the same run in the order of their submission --
      when the weight of age is not negative, and if they differ in age, only then. */
  lemma {:induction false} SubmissionOrderIff(p: Pass, maxSz: real, a: Job, b: Job)
    requires p.cfg.weights.Sum() > 0.0 && Alike(a, b) && a.submitAt != ZERO_TIME && b.submitAt != ZERO_TIME
    requires a.submitAt < b.submitAt || (a.submitAt == b.submitAt && a.id < b.id)
    ensures LessBy(p, maxSz)(a, b) <==> p.cfg.weights.age >= 0.0 || AgeOf(p, a) == AgeOf(p, b)
  {
    OlderIsOlder(p, a, b);
    assert SizeOf(p, maxSz, a) == SizeOf(p, maxSz, b) && FairOf(p, a.user) == FairOf(p, b.user);
    OnlyTheBlend(p, p.cfg.weights, maxSz, a);
    OnlyTheBlend(p, p.cfg.weights, maxSz, b);
    BlendByAge(p.cfg.weights, FairOf(p, a.user), AgeOf(p, a), AgeOf(p, b), SizeOf(p, maxSz, a));
  }

  /** So they do in the round's order. */
  lemma {:induction false} SubmissionOrderKept(p: Pass, maxSz: real, out: seq<Job>, i: nat, k: nat)
    requires i < |out| && k < |out| && i != k && Sorted(LessBy(p, maxSz), out) && DistinctIds(out)
    requires p.cfg.weights.Sum() > 0.0 && p.cfg.weights.age >= 0.0
    requires Alike(out[i], out[k]) && out[i].submitAt < out[k].submitAt && out[i].submitAt != ZERO_TIME && out[k].submitAt != ZERO_TIME
    ensures i < k
  {
    SubmissionOrderIff(p, maxSz, out[i], out[k]);
    LessIsAnOrder(p, maxSz, out);
    LessComesFirst(LessBy(p, maxSz), out, i, k);
  }
}
