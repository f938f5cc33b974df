/** No run exceeds a ceiling, and no round holds back a job it could have let start. */
module Ceilings {
  import opened Paths
  import opened Protocol
  import opened Admission

  ghost predicate AllSane(jobs: seq<QueuedJob>) {
    forall i :: 0 <= i < |jobs| ==> jobs[i].Sane()
  }

  // ----- sums -----

  lemma {:induction false} AccountAtMostAll(jobs: seq<QueuedJob>, user: string)
    requires AllSane(jobs)
    ensures InUse(jobs, Account(user)).AtMost(InUse(jobs, Everyone))
  {
    if jobs != [] {
      AccountAtMostAll(jobs[..|jobs| - 1], user);
    }
  }

  lemma {:induction false} TallyMonotone(b: Usage, b': Usage, js: seq<QueuedJob>, vs: seq<Verdict>, who: Who)
    requires |vs| == |js| && b.AtMost(b')
    ensures Tally(b, js, vs, who).AtMost(Tally(b', js, vs, who))
  {
    if js != [] {
      TallyMonotone(b, b', js[..|js| - 1], vs[..|js| - 1], who);
    }
  }

  lemma {:induction false} TallyOnlyGrows(b: Usage, js: seq<QueuedJob>, vs: seq<Verdict>, k: nat, who: Who)
    requires |vs| == |js| && k <= |js| && AllSane(js)
    ensures Tally(b, js[..k], vs[..k], who).AtMost(Tally(b, js, vs, who))
  {
    if k < |js| {
      var n := |js| - 1;
      assert js[..n][..k] == js[..k] && vs[..n][..k] == vs[..k];
      TallyOnlyGrows(b, js[..n], vs[..n], k, who);
    } else {
      assert js[..k] == js && vs[..k] == vs;
    }
  }

  function WithState(j: QueuedJob, s: JobState): QueuedJob {
    j.(state := s)
  }

  /** One more job running, or one fewer. */
  lemma {:induction false} InUseStarted(jobs: seq<QueuedJob>, i: nat, who: Who)
    requires i < |jobs| && jobs[i].state != Running
    ensures InUse(jobs[i := WithState(jobs[i], Running)], who)
         == if who.Has(jobs[i]) then InUse(jobs, who).Plus(Of(jobs[i])) else InUse(jobs, who)
  {
    var n, jobs' := |jobs| - 1, jobs[i := WithState(jobs[i], Running)];
    if i == n {
      assert jobs'[..n] == jobs[..n];
    } else {
      assert jobs'[..n] == jobs[..n][i := WithState(jobs[i], Running)];
      InUseStarted(jobs[..n], i, who);
    }
  }

  lemma {:induction false} InUseSettled(jobs: seq<QueuedJob>, i: nat, s: JobState, who: Who)
    requires i < |jobs| && s != Running && AllSane(jobs)
    ensures InUse(jobs[i := WithState(jobs[i], s)], who).AtMost(InUse(jobs, who))
  {
    var n, jobs' := |jobs| - 1, jobs[i := WithState(jobs[i], s)];
    if i == n {
      assert jobs'[..n] == jobs[..n];
    } else {
      assert jobs'[..n] == jobs[..n][i := WithState(jobs[i], s)];
      InUseSettled(jobs[..n], i, s, who);
    }
  }

  lemma {:induction false} InUseSubmitted(jobs: seq<QueuedJob>, more: seq<QueuedJob>, who: Who)
    requires forall i :: 0 <= i < |more| ==> more[i].state == Pending
    ensures InUse(jobs + more, who) == InUse(jobs, who)
  {
    if more == [] {
      assert jobs + more == jobs;
    } else {
      var n := |more| - 1;
      assert (jobs + more)[..|jobs| + n] == jobs + more[..n];
      InUseSubmitted(jobs, more[..n], who);
    }
  }

  // ----- one round -----

  /** The jobs a round admits fit the ceilings of their account, whichever reads fail. */
  lemma {:induction false} AccountFits(r: Round, js: seq<QueuedJob>, fails: seq<bool>, user: string)
    requires |fails| == |js| && AllSane(r.jobs) && Within(InUse(r.jobs, Account(user)), r.limits(user))
    ensures Within(Tally(InUse(r.jobs, Account(user)), js, Verdicts(r, js, fails), Account(user)), r.limits(user))
  {
    if js != [] {
      var k := |js| - 1;
      AccountFits(r, js[..k], fails[..k], user);
      var before := Verdicts(r, js[..k], fails[..k]);
      assert Verdicts(r, js, fails)[..k] == before;
      AccountAtMostAll(r.jobs, user);
      TallyMonotone(InUse(r.jobs, Account(user)), InUse(r.jobs, Listing(user)), js[..k], before, Account(user));
    }
  }

  /** They fit the cluster's if what the cluster runs could be read. */
  lemma {:induction false} ClusterFits(r: Round, js: seq<QueuedJob>, fails: seq<bool>)
    requires |fails| == |js| && !r.clusterFails && Within(InUse(r.jobs, Everyone), r.cluster)
    ensures Within(Tally(InUse(r.jobs, Everyone), js, Verdicts(r, js, fails), Everyone), r.cluster)
  {
    if js != [] {
      var k := |js| - 1;
      ClusterFits(r, js[..k], fails[..k]);
      assert Verdicts(r, js, fails)[..k] == Verdicts(r, js[..k], fails[..k]);
    }
  }

  /** A job that a round holds back for a limit could not be added to what the round
      admits in the end without breaking one: admission is maximal. */
  lemma {:induction false} AdmissionIsMaximal(r: Round, js: seq<QueuedJob>, fails: seq<bool>, i: nat)
    requires |fails| == |js| && i < |js| && AllSane(js)
    requires var v := Verdicts(r, js, fails)[i]; v.OverOwn? || v.OverCluster?
    ensures var vs := Verdicts(r, js, fails);
            || !Within(BookAt(r, js, vs, js[i].user).usage.Plus(Of(js[i])), r.limits(js[i].user))
            || !Within(Tally(r.ClusterBase(), js, vs, Everyone).Plus(Of(js[i])), r.cluster)
  {
    var vs, j := Verdicts(r, js, fails), js[i];
    VerdictsPrefix(r, js, fails, i);
    TallyOnlyGrows(r.Start(j.user).usage, js, vs, i, Account(j.user));
    TallyOnlyGrows(r.ClusterBase(), js, vs, i, Everyone);
  }

  lemma {:induction false} VerdictsPrefix(r: Round, js: seq<QueuedJob>, fails: seq<bool>, i: nat)
    requires |fails| == |js| && i < |js|
    ensures Verdicts(r, js, fails)[..i] == Verdicts(r, js[..i], fails[..i])
    ensures Verdicts(r, js, fails)[i] == Unchecked || Verdicts(r, js, fails)[i] == Decide(r, js[..i], Verdicts(r, js[..i], fails[..i]), js[i])
  {
    var k := |js| - 1;
    if i < k {
      assert js[..k][..i] == js[..i] && fails[..k][..i] == fails[..i];
      VerdictsPrefix(r, js[..k], fails[..k], i);
      assert Verdicts(r, js, fails)[..i] == Verdicts(r, js[..k], fails[..k])[..i];
    }
  }

  // ----- exactly when a round keeps a ceiling -----

  /** A job whose account's books could not be read, nor had been before in the round.
      It starts unchecked, whatever the store and the limits are. */
  predicate IsUnchecked(js: seq<QueuedJob>, fails: seq<bool>, k: nat)
    requires |fails| == |js| && k < |js|
  {
    fails[k] && !Known(js[..k], fails[..k], js[k].user)
  }

  ghost predicate SomeUnchecked(js: seq<QueuedJob>, fails: seq<bool>, who: Who)
    requires |fails| == |js|
  {
    exists k :: 0 <= k < |js| && who.Has(js[k]) && IsUnchecked(js, fails, k)
  }

  lemma {:induction false} UncheckedVerdict(r: Round, js: seq<QueuedJob>, fails: seq<bool>, k: nat)
    requires |fails| == |js| && k < |js|
    ensures Verdicts(r, js, fails)[k] == Unchecked <==> IsUnchecked(js, fails, k)
  {
    var n := |js| - 1;
    if k < n {
      assert js[..n][..k] == js[..k] && fails[..n][..k] == fails[..k];
      UncheckedVerdict(r, js[..n], fails[..n], k);
    }
  }

  /** What would be in use if all that may start did. */
  function Begun(base: Usage, js: seq<QueuedJob>, vs: seq<Verdict>, who: Who): Usage
    requires |vs| == |js|
  {
    if js == [] then base
    else
      var k := |js| - 1;
      var before := Begun(base, js[..k], vs[..k], who);
      if vs[k].Starts() && who.Has(js[k]) then before.Plus(Of(js[k])) else before
  }

  lemma {:induction false} BegunIsTallied(base: Usage, js: seq<QueuedJob>, vs: seq<Verdict>, who: Who)
    requires |vs| == |js| && forall k :: 0 <= k < |js| && who.Has(js[k]) ==> vs[k] != Unchecked
    ensures Begun(base, js, vs, who) == Tally(base, js, vs, who)
  {
    if js != [] {
      BegunIsTallied(base, js[..|js| - 1], vs[..|js| - 1], who);
    }
  }

  lemma {:induction false} BegunCounts(base: Usage, js: seq<QueuedJob>, vs: seq<Verdict>, who: Who, i: nat)
    requires |vs| == |js| && i < |js| && vs[i].Starts() && who.Has(js[i])
    ensures Begun(base, js, vs, who).jobs >= base.jobs + 1
  {
    var n := |js| - 1;
    if i < n {
      BegunCounts(base, js[..n], vs[..n], who, i);
    } else {
      BegunAtLeast(base, js[..n], vs[..n], who);
    }
  }

  lemma {:induction false} BegunAtLeast(base: Usage, js: seq<QueuedJob>, vs: seq<Verdict>, who: Who)
    requires |vs| == |js|
    ensures Begun(base, js, vs, who).jobs >= base.jobs
  {
    if js != [] {
      BegunAtLeast(base, js[..|js| - 1], vs[..|js| - 1], who);
    }
  }

  ghost predicate KeepsAccount(r: Round, js: seq<QueuedJob>, fails: seq<bool>, user: string)
    requires |fails| == |js|
  {
    AllSane(r.jobs) && Within(InUse(r.jobs, Account(user)), r.limits(user)) ==>
      Within(Begun(InUse(r.jobs, Account(user)), js, Verdicts(r, js, fails), Account(user)), r.limits(user))
  }

  ghost predicate KeepsCluster(r: Round, js: seq<QueuedJob>, fails: seq<bool>)
    requires |fails| == |js|
  {
    AllSane(r.jobs) && Within(InUse(r.jobs, Everyone), r.cluster) ==>
      Within(Begun(InUse(r.jobs, Everyone), js, Verdicts(r, js, fails), Everyone), r.cluster)
  }

  const UNLIMITED := Limits(-1, -1, -1, -1, -1, -1)
  const NO_JOBS := UNLIMITED.(runningJobs := 0)

  /** A round keeps an account's ceilings, for every store and all limits, if and only if
      none of the account's own jobs starts unchecked. */
  lemma {:induction false} RoundKeepsAccountIff(js: seq<QueuedJob>, fails: seq<bool>, user: string)
    requires |fails| == |js|
    ensures (forall r: Round :: KeepsAccount(r, js, fails, user)) <==> !SomeUnchecked(js, fails, Account(user))
  {
    if SomeUnchecked(js, fails, Account(user)) {
      var k :| 0 <= k < |js| && Account(user).Has(js[k]) && IsUnchecked(js, fails, k);
      var r := Round([], u => NO_JOBS, UNLIMITED, u => None, false);
      UncheckedVerdict(r, js, fails, k);
      BegunCounts(InUse(r.jobs, Account(user)), js, Verdicts(r, js, fails), Account(user), k);
      assert !KeepsAccount(r, js, fails, user);
    } else {
      forall r: Round ensures KeepsAccount(r, js, fails, user) {
        AccountChecked(r, js, fails, user);
      }
    }
  }

  lemma {:induction false} AccountChecked(r: Round, js: seq<QueuedJob>, fails: seq<bool>, user: string)
    requires |fails| == |js| && !SomeUnchecked(js, fails, Account(user))
    ensures KeepsAccount(r, js, fails, user)
  {
    if AllSane(r.jobs) && Within(InUse(r.jobs, Account(user)), r.limits(user)) {
      AccountFits(r, js, fails, user);
      forall k | 0 <= k < |js| && Account(user).Has(js[k]) ensures Verdicts(r, js, fails)[k] != Unchecked {
        UncheckedVerdict(r, js, fails, k);
      }
      BegunIsTallied(InUse(r.jobs, Account(user)), js, Verdicts(r, js, fails), Account(user));
    }
  }

  /** It keeps the cluster's, for every store and all limits, if and only if no job at all
      starts unchecked and, unless nothing is queued, what the cluster runs could be read. */
  lemma {:induction false} RoundKeepsClusterIff(js: seq<QueuedJob>, fails: seq<bool>, clusterFails: bool)
    requires |fails| == |js|
    ensures (forall r: Round :: r.clusterFails == clusterFails ==> KeepsCluster(r, js, fails))
       <==> !SomeUnchecked(js, fails, Everyone) && (clusterFails ==> js == [])
  {
    if SomeUnchecked(js, fails, Everyone) {
      var k :| 0 <= k < |js| && Everyone.Has(js[k]) && IsUnchecked(js, fails, k);
      var r := Round([], u => UNLIMITED, NO_JOBS, u => None, clusterFails);
      UncheckedVerdict(r, js, fails, k);
      BegunCounts(InUse(r.jobs, Everyone), js, Verdicts(r, js, fails), Everyone, k);
      assert !KeepsCluster(r, js, fails);
    } else if clusterFails && js != [] {
      UnreadClusterOverruns(js, fails);
    } else {
      forall r: Round | r.clusterFails == clusterFails ensures KeepsCluster(r, js, fails) {
        ClusterChecked(r, js, fails);
      }
    }
  }

  lemma {:induction false} ClusterChecked(r: Round, js: seq<QueuedJob>, fails: seq<bool>)
    requires |fails| == |js| && !SomeUnchecked(js, fails, Everyone) && (r.clusterFails ==> js == [])
    ensures KeepsCluster(r, js, fails)
  {
    if js != [] && Within(InUse(r.jobs, Everyone), r.cluster) {
      ClusterFits(r, js, fails);
      forall k | 0 <= k < |js| ensures Verdicts(r, js, fails)[k] != Unchecked {
        UncheckedVerdict(r, js, fails, k);
        assert Everyone.Has(js[k]);
      }
      BegunIsTallied(InUse(r.jobs, Everyone), js, Verdicts(r, js, fails), Everyone);
    }
  }

  /** A cluster that is full, and whose round takes it for empty. */
  ghost predicate TakenForEmpty(r: Round) {
    && r.clusterFails && (forall u :: r.limits(u) == UNLIMITED)
    && r.cluster == UNLIMITED.(runningJobs := 1) && AllSane(r.jobs) && InUse(r.jobs, Everyone).jobs == 1
  }

  lemma {:induction false} UnreadClusterOverruns(js: seq<QueuedJob>, fails: seq<bool>)
    requires |fails| == |js| > 0
    ensures exists r: Round :: r.clusterFails && !KeepsCluster(r, js, fails)
  {
    var jobs := OneRunning();
    OneCounts(jobs);
    var r := FullCluster(jobs, u => None);
    FirstStarts(r, js, fails);
    Overruns(r, js, fails, Verdicts(r, js, fails));
  }

  lemma {:induction false} FullCluster(jobs: seq<QueuedJob>, none: string -> Option<int>) returns (r: Round)
    requires AllSane(jobs) && InUse(jobs, Everyone).jobs == 1
    ensures TakenForEmpty(r)
  {
    r := Round(jobs, u => UNLIMITED, UNLIMITED.(runningJobs := 1), none, true);
  }

  lemma {:induction false} OneRunning() returns (jobs: seq<QueuedJob>)
    ensures AllSane(jobs) && |jobs| == 1 && jobs[0].state == Running
  {
    jobs := [QueuedJob("", 0, 0, 0, Running)];
  }

  lemma {:induction false} OneCounts(jobs: seq<QueuedJob>)
    requires |jobs| == 1 && jobs[0].state == Running
    ensures InUse(jobs, Everyone).jobs == InUse(jobs[..0], Everyone).jobs + 1 == 1
  {
  }

  lemma {:induction false} Overruns(r: Round, js: seq<QueuedJob>, fails: seq<bool>, vs: seq<Verdict>)
    requires |fails| == |js| > 0 && TakenForEmpty(r) && vs == Verdicts(r, js, fails) && vs[0].Starts()
    ensures !KeepsCluster(r, js, fails)
  {
    BegunCounts(InUse(r.jobs, Everyone), js, vs, Everyone, 0);
  }

  lemma {:induction false} FirstStarts(r: Round, js: seq<QueuedJob>, fails: seq<bool>)
    requires |fails| == |js| > 0 && TakenForEmpty(r)
    ensures Verdicts(r, js, fails)[0].Starts()
  {
    var n := |js| - 1;
    if n > 0 {
      FirstStarts(r, js[..n], fails[..n]);
    } else {
      FirstAdmitted(r, js[..0], [], js[0]);
    }
  }

  lemma {:induction false} FirstAdmitted(r: Round, none: seq<QueuedJob>, vs: seq<Verdict>, j: QueuedJob)
    requires none == [] && vs == [] && TakenForEmpty(r)
    ensures Decide(r, none, vs, j) == Admitted
  {
  }

  // ----- whole runs -----

  /** What does not change during the run. */
  datatype Config = Config(limits: string -> Limits, cluster: Limits)

  /** The store; a place for each job that a submission was cleared to store and has not
      stored yet, by account; and the jobs a scheduling pass is about to start. */
  datatype State = State(jobs: seq<QueuedJob>, cleared: multiset<string>, chosen: seq<nat>)

  datatype Step =
    | Check(user: string, n: nat)               // a submission of n jobs passes the check ...
    | Insert(j: QueuedJob)                      // ... and stores them one by one ...
    | GiveUp(user: string)                      // ... or fails on the way
    | StartService(j: QueuedJob)                // a service gets its next job
    | Settle(i: nat, s: JobState)               // a job ends, or goes back to the queue
    | Requeue(i: nat)                           // somebody asks for a job to run again
    | Admit(queue: seq<nat>, stored: string -> Option<int>, fails: seq<bool>, clusterFails: bool, picked: seq<bool>)
    | Start(p: nat, ok: bool)                   // one of the chosen jobs is marked as running
    | Restart                                   // requests under way are forgotten

  function Candidates(jobs: seq<QueuedJob>, queue: seq<nat>): (js: seq<QueuedJob>)
    requires forall k :: 0 <= k < |queue| ==> queue[k] < |jobs|
    ensures |js| == |queue| && forall k :: 0 <= k < |queue| ==> js[k] == jobs[queue[k]]
  {
    seq(|queue|, k requires 0 <= k < |queue| => jobs[queue[k]])
  }

  function Active(jobs: seq<QueuedJob>, who: Who): nat {
    if jobs == [] then 0
    else
      var j := jobs[|jobs| - 1];
      Active(jobs[..|jobs| - 1], who) + if !j.state.Terminal() && who.Has(j) then 1 else 0
  }

  /** The queue-depth part of the check at submission; an array counts all its tasks. */
  predicate RoomInQueue(jobs: seq<QueuedJob>, cfg: Config, user: string, more: nat) {
    && Below(Active(jobs, Everyone) + more, cfg.cluster.submittedJobs)
    && Below(Active(jobs, Account(user)) + more, cfg.limits(user).submittedJobs)
  }

  ghost predicate Plannable(jobs: seq<QueuedJob>, queue: seq<nat>) {
    && (forall k :: 0 <= k < |queue| ==> queue[k] < |jobs| && jobs[queue[k]].state == Pending)
    && (forall a, b :: 0 <= a < b < |queue| ==> queue[a] != queue[b])
  }

  function RoundOf(jobs: seq<QueuedJob>, cfg: Config, s: Step): Round
    requires s.Admit?
  {
    Round(jobs, cfg.limits, cfg.cluster, s.stored, s.clusterFails)
  }

  ghost predicate Enabled(st: State, cfg: Config, s: Step) {
    match s
    case Check(user, n) => n > 0 && RoomInQueue(st.jobs, cfg, user, n)
    case Insert(j) => j.user in st.cleared && j.state == Pending && j.Sane()
    case GiveUp(user) => user in st.cleared
    case StartService(j) => j.state == Pending && j.Sane()
    case Settle(i, t) => i < |st.jobs| && (t.Terminal() || (t == Pending && st.jobs[i].state == Running))
    case Requeue(i) => i < |st.jobs|
    case Admit(queue, _, fails, _, picked) =>
      // The planner picks some of the admitted jobs, each at most once.
      && st.chosen == [] && Plannable(st.jobs, queue) && |fails| == |picked| == |queue|
      && var vs := Verdicts(RoundOf(st.jobs, cfg, s), Candidates(st.jobs, queue), fails);
         forall k :: 0 <= k < |queue| && picked[k] ==> vs[k].Starts()
    case Start(p, _) => p < |st.chosen| && st.chosen[p] < |st.jobs|
    case Restart => true
  }

  function Chosen(queue: seq<nat>, picked: seq<bool>): seq<nat>
    requires |picked| == |queue|
  {
    if queue == [] then []
    else
      var k := |queue| - 1;
      Chosen(queue[..k], picked[..k]) + if picked[k] then [queue[k]] else []
  }

  ghost function Next(st: State, cfg: Config, s: Step): State
    requires Enabled(st, cfg, s)
  {
    match s
    case Check(user, n) => st.(cleared := st.cleared[user := st.cleared[user] + n])
    case Insert(j) => st.(jobs := st.jobs + [j], cleared := st.cleared - multiset{j.user})
    case GiveUp(user) => st.(cleared := st.cleared - multiset{user})
    case StartService(j) => st.(jobs := st.jobs + [j])
    case Settle(i, t) => st.(jobs := st.jobs[i := WithState(st.jobs[i], t)])
    case Requeue(i) => st.(jobs := st.jobs[i := WithState(st.jobs[i], Pending)])
    case Admit(queue, _, _, _, picked) => st.(chosen := Chosen(queue, picked))
    case Start(p, ok) =>
      // The job is not looked at again: it may have been cancelled meanwhile.
      var i, left := st.chosen[p], st.chosen[..p] + st.chosen[p + 1..];
      if ok then st.(jobs := st.jobs[i := WithState(st.jobs[i], Running)], chosen := left) else st.(chosen := left)
    case Restart => st.(cleared := multiset{}, chosen := [])
  }

  ghost predicate IsRun(cfg: Config, states: seq<State>, ss: seq<Step>) {
    && |states| == |ss| + 1 && states[0] == State([], multiset{}, [])
    && forall i :: 0 <= i < |ss| ==> Enabled(states[i], cfg, ss[i]) && states[i + 1] == Next(states[i], cfg, ss[i])
  }

  // ----- what is running, and about to -----

  /** A usage figure with the jobs that are about to start. */
  function Promised(base: Usage, jobs: seq<QueuedJob>, chosen: seq<nat>, who: Who): Usage
    requires forall k :: 0 <= k < |chosen| ==> chosen[k] < |jobs|
  {
    if chosen == [] then base
    else
      var j := jobs[chosen[|chosen| - 1]];
      var before := Promised(base, jobs, chosen[..|chosen| - 1], who);
      if who.Has(j) then before.Plus(Of(j)) else before
  }

  /** The same requests, in whatever states. */
  ghost predicate SameRequests(jobs: seq<QueuedJob>, jobs': seq<QueuedJob>) {
    |jobs| <= |jobs'| && forall i :: 0 <= i < |jobs| ==> jobs'[i] == WithState(jobs[i], jobs'[i].state)
  }

  lemma {:induction false} PromisedSame(b: Usage, b': Usage, jobs: seq<QueuedJob>, jobs': seq<QueuedJob>, chosen: seq<nat>, who: Who)
    requires SameRequests(jobs, jobs') && b'.AtMost(b) && forall k :: 0 <= k < |chosen| ==> chosen[k] < |jobs|
    ensures Promised(b', jobs', chosen, who).AtMost(Promised(b, jobs, chosen, who))
  {
    if chosen != [] {
      PromisedSame(b, b', jobs, jobs', chosen[..|chosen| - 1], who);
    }
  }

  lemma {:induction false} PromisedPlus(b: Usage, x: Usage, jobs: seq<QueuedJob>, chosen: seq<nat>, who: Who)
    requires forall k :: 0 <= k < |chosen| ==> chosen[k] < |jobs|
    ensures Promised(b.Plus(x), jobs, chosen, who) == Promised(b, jobs, chosen, who).Plus(x)
  {
    if chosen != [] {
      PromisedPlus(b, x, jobs, chosen[..|chosen| - 1], who);
    }
  }

  /** Taking a job off the list of those about to start. */
  lemma {:induction false} PromisedWithout(b: Usage, jobs: seq<QueuedJob>, chosen: seq<nat>, p: nat, who: Who)
    requires p < |chosen| && forall k :: 0 <= k < |chosen| ==> chosen[k] < |jobs|
    ensures var left, j := chosen[..p] + chosen[p + 1..], jobs[chosen[p]];
            Promised(b, jobs, chosen, who) == if who.Has(j) then Promised(b, jobs, left, who).Plus(Of(j)) else Promised(b, jobs, left, who)
  {
    var n, left := |chosen| - 1, chosen[..p] + chosen[p + 1..];
    if p == n {
      assert left == chosen[..n];
    } else {
      var front := chosen[..n];
      var less := front[..p] + front[p + 1..];
      PromisedWithout(b, jobs, front, p, who);
      assert left == less + [chosen[n]];
      PromisedOneMore(b, jobs, less, chosen[n], who);
    }
  }

  lemma {:induction false} PromisedOneMore(b: Usage, jobs: seq<QueuedJob>, chosen: seq<nat>, i: nat, who: Who)
    requires i < |jobs| && forall k :: 0 <= k < |chosen| ==> chosen[k] < |jobs|
    ensures Promised(b, jobs, chosen + [i], who)
         == if who.Has(jobs[i]) then Promised(b, jobs, chosen, who).Plus(Of(jobs[i])) else Promised(b, jobs, chosen, who)
  {
    assert (chosen + [i])[..|chosen|] == chosen;
  }

  lemma {:induction false} ChosenFrom(queue: seq<nat>, picked: seq<bool>)
    requires |picked| == |queue|
    ensures forall i :: i in Chosen(queue, picked) ==> i in queue
    ensures (forall a, b :: 0 <= a < b < |queue| ==> queue[a] != queue[b]) ==>
              forall a, b :: 0 <= a < b < |Chosen(queue, picked)| ==> Chosen(queue, picked)[a] != Chosen(queue, picked)[b]
  {
    if queue != [] {
      var k := |queue| - 1;
      ChosenFrom(queue[..k], picked[..k]);
      if forall a, b :: 0 <= a < b < |queue| ==> queue[a] != queue[b] {
        var before := Chosen(queue[..k], picked[..k]);
        forall a | 0 <= a < |before| ensures before[a] != queue[k] {
          assert before[a] in queue[..k];
        }
      }
    }
  }

  lemma {:induction false} TallyMore(b: Usage, js: seq<QueuedJob>, vs: seq<Verdict>, who: Who)
    requires |vs| == |js| > 0 && js[|js| - 1].Sane()
    ensures var k := |js| - 1;
            var before := Tally(b, js[..k], vs[..k], who);
            && Tally(b, js, vs, who) == (if vs[k] == Admitted && who.Has(js[k]) then before.Plus(Of(js[k])) else before)
            && before.AtMost(Tally(b, js, vs, who))
  {
  }

  /** What is about to start is at most what was admitted. */
  lemma {:induction false} PromisedAtMostAdmitted(b: Usage, jobs: seq<QueuedJob>, queue: seq<nat>, picked: seq<bool>, vs: seq<Verdict>, who: Who)
    requires Plannable(jobs, queue) && |picked| == |queue| == |vs| && AllSane(jobs)
    requires forall k :: 0 <= k < |queue| && picked[k] && who.Has(jobs[queue[k]]) ==> vs[k] == Admitted
    requires forall k :: 0 <= k < |Chosen(queue, picked)| ==> Chosen(queue, picked)[k] < |jobs|
    ensures Promised(b, jobs, Chosen(queue, picked), who).AtMost(Tally(b, Candidates(jobs, queue), vs, who))
  {
    if queue != [] {
      var k := |queue| - 1;
      var before, all := Chosen(queue[..k], picked[..k]), Chosen(queue, picked);
      assert forall i :: 0 <= i < |before| ==> before[i] == all[i];
      PromisedAtMostAdmitted(b, jobs, queue[..k], picked[..k], vs[..k], who);
      assert Candidates(jobs, queue)[..k] == Candidates(jobs, queue[..k]);
      TallyMore(b, Candidates(jobs, queue), vs, who);
      if picked[k] {
        assert all[..|all| - 1] == before;
      } else {
        assert all == before;
      }
    }
  }

  // ----- ceilings over runs -----

  /** The jobs about to start are of the store, distinct, and do not run yet. */
  ghost predicate Orderly(st: State) {
    && AllSane(st.jobs)
    && (forall k :: 0 <= k < |st.chosen| ==> st.chosen[k] < |st.jobs| && st.jobs[st.chosen[k]].state != Running)
    && (forall a, b :: 0 <= a < b < |st.chosen| ==> st.chosen[a] != st.chosen[b])
  }

  lemma {:induction false} OrderlyStep(st: State, cfg: Config, s: Step)
    requires Enabled(st, cfg, s) && Orderly(st)
    ensures Orderly(Next(st, cfg, s)) && SameRequests(st.jobs, Next(st, cfg, s).jobs)
  {
    if s.Admit? {
      ChosenFrom(s.queue, s.picked);
      forall k | 0 <= k < |Chosen(s.queue, s.picked)|
        ensures Chosen(s.queue, s.picked)[k] < |st.jobs| && st.jobs[Chosen(s.queue, s.picked)[k]].state != Running
      {
        assert Chosen(s.queue, s.picked)[k] in s.queue;
      }
    }
  }

  /** What is in use, with what is about to start, is within these limits. */
  ghost predicate Kept(st: State, who: Who, limits: Limits)
    requires Orderly(st)
  {
    Within(InUse(st.jobs, who), limits) && Within(Promised(InUse(st.jobs, who), st.jobs, st.chosen, who), limits)
  }

  /** Steps that start nothing: what is in use does not grow. */
  lemma {:induction false} QuietKeeps(st: State, cfg: Config, s: Step, who: Who, limits: Limits)
    requires Enabled(st, cfg, s) && Orderly(st) && Orderly(Next(st, cfg, s)) && Kept(st, who, limits) && !s.Admit? && !s.Start?
    ensures Kept(Next(st, cfg, s), who, limits)
  {
    var st' := Next(st, cfg, s);
    match s {
      case Insert(j) => InUseSubmitted(st.jobs, [j], who);
      case StartService(j) => InUseSubmitted(st.jobs, [j], who);
      case Settle(i, t) => InUseSettled(st.jobs, i, t, who);
      case Requeue(i) => InUseSettled(st.jobs, i, Pending, who);
      case _ =>
    }
    assert InUse(st'.jobs, who).AtMost(InUse(st.jobs, who));
    PromisedSame(InUse(st.jobs, who), InUse(st'.jobs, who), st.jobs, st'.jobs, st.chosen, who);
  }

  /** Starting a job moves it from what is promised to what is in use. */
  lemma {:induction false} StartKeeps(st: State, cfg: Config, p: nat, ok: bool, who: Who, limits: Limits)
    requires Enabled(st, cfg, Start(p, ok)) && Orderly(st) && Orderly(Next(st, cfg, Start(p, ok))) && Kept(st, who, limits)
    ensures Kept(Next(st, cfg, Start(p, ok)), who, limits)
  {
    var st' := Next(st, cfg, Start(p, ok));
    PromisedWithout(InUse(st.jobs, who), st.jobs, st.chosen, p, who);
    if ok {
      StartedAsPromised(st.jobs, st.chosen[p], st'.jobs, st'.chosen, who);
    }
    PromisedAtLeast(InUse(st'.jobs, who), st'.jobs, st'.chosen, who);
  }

  lemma {:induction false} StartedAsPromised(jobs: seq<QueuedJob>, i: nat, jobs': seq<QueuedJob>, left: seq<nat>, who: Who)
    requires i < |jobs| && jobs[i].state != Running && jobs' == jobs[i := WithState(jobs[i], Running)]
    requires forall k :: 0 <= k < |left| ==> left[k] < |jobs|
    ensures Promised(InUse(jobs', who), jobs', left, who).AtMost(
              if who.Has(jobs[i]) then Promised(InUse(jobs, who), jobs, left, who).Plus(Of(jobs[i]))
              else Promised(InUse(jobs, who), jobs, left, who))
  {
    InUseStarted(jobs, i, who);
    if who.Has(jobs[i]) {
      PromisedPlus(InUse(jobs, who), Of(jobs[i]), jobs, left, who);
    }
    PromisedSame(InUse(jobs', who), InUse(jobs', who), jobs, jobs', left, who);
  }

  lemma {:induction false} PromisedAtLeast(b: Usage, jobs: seq<QueuedJob>, chosen: seq<nat>, who: Who)
    requires AllSane(jobs) && forall k :: 0 <= k < |chosen| ==> chosen[k] < |jobs|
    ensures b.AtMost(Promised(b, jobs, chosen, who))
  {
    if chosen != [] {
      PromisedAtLeast(b, jobs, chosen[..|chosen| - 1], who);
    }
  }

  /** Admission: the account's ceilings are kept if none of its jobs is unchecked. */
  lemma {:induction false} AdmitKeepsAccount(st: State, cfg: Config, s: Step, user: string)
    requires Enabled(st, cfg, s) && s.Admit? && Orderly(st) && Orderly(Next(st, cfg, s)) && Kept(st, Account(user), cfg.limits(user))
    requires !SomeUnchecked(Candidates(st.jobs, s.queue), s.fails, Account(user))
    ensures Kept(Next(st, cfg, s), Account(user), cfg.limits(user))
  {
    var r, js := RoundOf(st.jobs, cfg, s), Candidates(st.jobs, s.queue);
    var vs := Verdicts(r, js, s.fails);
    AccountFits(r, js, s.fails, user);
    forall k | 0 <= k < |js| && s.picked[k] && Account(user).Has(js[k]) ensures vs[k] == Admitted {
      UncheckedVerdict(r, js, s.fails, k);
    }
    PromisedAtMostAdmitted(InUse(st.jobs, Account(user)), st.jobs, s.queue, s.picked, vs, Account(user));
  }

  lemma {:induction false} AdmitKeepsCluster(st: State, cfg: Config, s: Step)
    requires Enabled(st, cfg, s) && s.Admit? && Orderly(st) && Orderly(Next(st, cfg, s)) && Kept(st, Everyone, cfg.cluster)
    requires !SomeUnchecked(Candidates(st.jobs, s.queue), s.fails, Everyone) && !s.clusterFails
    ensures Kept(Next(st, cfg, s), Everyone, cfg.cluster)
  {
    var r, js := RoundOf(st.jobs, cfg, s), Candidates(st.jobs, s.queue);
    var vs := Verdicts(r, js, s.fails);
    ClusterFits(r, js, s.fails);
    forall k | 0 <= k < |js| && s.picked[k] ensures vs[k] == Admitted {
      UncheckedVerdict(r, js, s.fails, k);
      assert Everyone.Has(js[k]);
    }
    PromisedAtMostAdmitted(InUse(st.jobs, Everyone), st.jobs, s.queue, s.picked, vs, Everyone);
  }

  /** In this pass no job of these starts unchecked. */
  ghost predicate Checked(st: State, s: Step, who: Who) {
    s.Admit? && Plannable(st.jobs, s.queue) && |s.fails| == |s.queue| ==>
      !SomeUnchecked(Candidates(st.jobs, s.queue), s.fails, who) && (who.Everyone? ==> !s.clusterFails)
  }

  lemma {:induction false} OrderlyOverRuns(cfg: Config, states: seq<State>, ss: seq<Step>, i: nat)
    requires IsRun(cfg, states, ss) && i < |states|
    ensures Orderly(states[i])
  {
    if i > 0 {
      OrderlyOverRuns(cfg, states, ss, i - 1);
      OrderlyStep(states[i - 1], cfg, ss[i - 1]);
    }
  }

  function LimitsOf(cfg: Config, who: Who): Limits {
    match who
    case Everyone => cfg.cluster
    case Account(user) => cfg.limits(user)
  }

  lemma {:induction false} KeptStep(st: State, cfg: Config, s: Step, who: Who)
    requires Enabled(st, cfg, s) && Orderly(st) && Orderly(Next(st, cfg, s)) && Kept(st, who, LimitsOf(cfg, who)) && Checked(st, s, who)
    ensures Kept(Next(st, cfg, s), who, LimitsOf(cfg, who))
  {
    match s
    case Admit(_, _, _, _, _) =>
      match who {
        case Everyone => AdmitKeepsCluster(st, cfg, s);
        case Account(user) => AdmitKeepsAccount(st, cfg, s, user);
      }
    case Start(p, ok) => StartKeeps(st, cfg, p, ok, who, LimitsOf(cfg, who));
    case _ => QuietKeeps(st, cfg, s, who, LimitsOf(cfg, who));
  }

  /** In every run with fixed limits, what an account's running jobs use never exceeds any
      of its limits, provided that none of its own jobs starts unchecked; and what all
      running jobs use never exceeds the cluster's, provided that none does and that what
      the cluster runs can be read -- even though jobs may end, be cancelled or go back to
      the queue between their admission and their start. */
  lemma {:induction false} CeilingsOverRuns(cfg: Config, states: seq<State>, ss: seq<Step>, who: Who, i: nat)
    requires IsRun(cfg, states, ss) && i < |states| && forall k :: 0 <= k < |ss| ==> Checked(states[k], ss[k], who)
    ensures Orderly(states[i]) && Kept(states[i], who, LimitsOf(cfg, who)) && Within(InUse(states[i].jobs, who), LimitsOf(cfg, who))
  {
    OrderlyOverRuns(cfg, states, ss, i);
    if i > 0 {
      CeilingsOverRuns(cfg, states, ss, who, i - 1);
      KeptStep(states[i - 1], cfg, ss[i - 1], who);
    }
  }
}
