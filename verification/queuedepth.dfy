/** How many jobs may be queued or running: checked when a job is submitted, and passed
    exactly when something adds a job for which there is no room any more. */
module QueueDepth {
  import opened Paths
  import opened Protocol
  import opened Admission
  import opened Ceilings

  // ----- what a step adds -----

  function One(j: QueuedJob, who: Who): nat {
    if who.Has(j) then 1 else 0
  }

  lemma {:induction false} ActiveSubmitted(jobs: seq<QueuedJob>, j: QueuedJob, who: Who)
    requires j.state == Pending
    ensures Active(jobs + [j], who) == Active(jobs, who) + One(j, who)
  {
  }

  /** A job becomes active, stays as it was, or is over. */
  lemma {:induction false} ActiveChanged(jobs: seq<QueuedJob>, i: nat, s: JobState, who: Who)
    requires i < |jobs|
    ensures Active(jobs[i := WithState(jobs[i], s)], who)
         == Active(jobs, who) + (if jobs[i].state.Terminal() && !s.Terminal() then One(jobs[i], who) else 0)
                              - (if !jobs[i].state.Terminal() && s.Terminal() then One(jobs[i], who) else 0)
  {
    var n, jobs' := |jobs| - 1, jobs[i := WithState(jobs[i], s)];
    if i == n {
      assert jobs'[..n] == jobs[..n];
    } else {
      assert jobs'[..n] == jobs[..n][i := WithState(jobs[i], s)];
      ActiveChanged(jobs[..n], i, s, who);
    }
  }

  /** The job a step adds to those queued or running: one that is stored, or one that was
      over and runs or waits again. */
  function Added(st: State, s: Step): Option<QueuedJob> {
    match s
    case Insert(j) => Some(j)
    case StartService(j) => Some(j)
    case Requeue(i) => if i < |st.jobs| && st.jobs[i].state.Terminal() then Some(st.jobs[i]) else None
    case Settle(i, t) => if i < |st.jobs| && st.jobs[i].state.Terminal() && !t.Terminal() then Some(st.jobs[i]) else None
    case Start(p, ok) =>
      if ok && p < |st.chosen| && st.chosen[p] < |st.jobs| && st.jobs[st.chosen[p]].state.Terminal()
      then Some(st.jobs[st.chosen[p]]) else None
    case _ => None
  }

  lemma {:induction false} ActiveStep(st: State, cfg: Config, s: Step, who: Who)
    requires Enabled(st, cfg, s)
    ensures Added(st, s).None? ==> Active(Next(st, cfg, s).jobs, who) <= Active(st.jobs, who)
    ensures Added(st, s).Some? ==> Active(Next(st, cfg, s).jobs, who) == Active(st.jobs, who) + One(Added(st, s).value, who)
  {
    match s
    case Insert(j) => ActiveSubmitted(st.jobs, j, who);
    case StartService(j) => ActiveSubmitted(st.jobs, j, who);
    case Settle(i, t) => ActiveChanged(st.jobs, i, t, who);
    case Requeue(i) => ActiveChanged(st.jobs, i, Pending, who);
    case Start(p, _) => ActiveChanged(st.jobs, st.chosen[p], Running, who);
    case _ =>
  }

  // ----- exactly when the depth is kept -----

  ghost predicate DepthHolds(jobs: seq<QueuedJob>, cfg: Config, who: Who) {
    Below(Active(jobs, who), LimitsOf(cfg, who).submittedJobs)
  }

  /** If the step adds a job of these, there is room for it. */
  predicate HasRoom(st: State, cfg: Config, s: Step, who: Who) {
    Added(st, s).Some? && who.Has(Added(st, s).value) ==> Below(Active(st.jobs, who) + 1, LimitsOf(cfg, who).submittedJobs)
  }

  /** One step: reviving a finished job, for one, keeps the depth exactly if there is room. */
  lemma {:induction false} DepthStepIff(st: State, cfg: Config, s: Step, who: Who)
    requires Enabled(st, cfg, s) && DepthHolds(st.jobs, cfg, who)
    ensures DepthHolds(Next(st, cfg, s).jobs, cfg, who) <==> HasRoom(st, cfg, s, who)
  {
    ActiveStep(st, cfg, s, who);
  }

  ghost predicate DepthKept(cfg: Config, states: seq<State>, who: Who, i: nat)
    requires i < |states|
  {
    forall k :: 0 <= k <= i ==> DepthHolds(states[k].jobs, cfg, who)
  }

  ghost predicate AllHaveRoom(cfg: Config, states: seq<State>, ss: seq<Step>, who: Who, i: nat)
    requires i < |states| == |ss| + 1
  {
    forall k :: 0 <= k < i ==> HasRoom(states[k], cfg, ss[k], who)
  }

  /** In every run, an account's queued and running jobs, or everybody's, stay within the
      limit if and only if every job was added when there was room for it. */
  lemma {:induction false} DepthOverRunsIff(cfg: Config, states: seq<State>, ss: seq<Step>, who: Who, i: nat)
    requires IsRun(cfg, states, ss) && i < |states|
    ensures DepthKept(cfg, states, who, i) <==> AllHaveRoom(cfg, states, ss, who, i)
  {
    if i > 0 {
      DepthOverRunsIff(cfg, states, ss, who, i - 1);
      if DepthHolds(states[i - 1].jobs, cfg, who) {
        DepthStepIff(states[i - 1], cfg, ss[i - 1], who);
      }
      OneMoreStep(cfg, states, ss, who, i);
    }
  }

  lemma {:induction false} OneMoreStep(cfg: Config, states: seq<State>, ss: seq<Step>, who: Who, i: nat)
    requires 0 < i < |states| == |ss| + 1
    ensures DepthKept(cfg, states, who, i) <==> DepthKept(cfg, states, who, i - 1) && DepthHolds(states[i].jobs, cfg, who)
    ensures AllHaveRoom(cfg, states, ss, who, i) <==> AllHaveRoom(cfg, states, ss, who, i - 1) && HasRoom(states[i - 1], cfg, ss[i - 1], who)
  {
  }

  // ----- what the check at submission is good for -----

  /** Places given out and not yet taken. */
  function Cleared(st: State, who: Who): nat {
    match who
    case Everyone => |st.cleared|
    case Account(user) => st.cleared[user]
  }

  /** Submissions do not overlap, and nothing but a submission adds a job. */
  ghost predicate OneAtATime(st: State, s: Step) {
    && (s.Check? ==> st.cleared == multiset{})
    && (Added(st, s).Some? ==> s.Insert?)
  }

  ghost predicate PlacesKept(st: State, cfg: Config, who: Who) {
    Below(Active(st.jobs, who) + Cleared(st, who), LimitsOf(cfg, who).submittedJobs)
  }

  lemma {:induction false} PlacesStep(st: State, cfg: Config, s: Step, who: Who)
    requires Enabled(st, cfg, s) && OneAtATime(st, s) && PlacesKept(st, cfg, who)
    ensures PlacesKept(Next(st, cfg, s), cfg, who)
  {
    ActiveStep(st, cfg, s, who);
    if s.Check? {
      PlacesGiven(st, cfg, s.user, s.n, who);
    } else {
      PlacesTaken(st, cfg, s, who);
    }
  }

  lemma {:induction false} PlacesGiven(st: State, cfg: Config, user: string, n: nat, who: Who)
    requires Enabled(st, cfg, Check(user, n)) && st.cleared == multiset{}
    ensures Cleared(Next(st, cfg, Check(user, n)), who) == if who == Everyone || who == Account(user) then n else 0
  {
  }

  lemma {:induction false} PlacesTaken(st: State, cfg: Config, s: Step, who: Who)
    requires Enabled(st, cfg, s) && !s.Check?
    ensures Cleared(Next(st, cfg, s), who) + (if s.Insert? then One(s.j, who) else 0) <= Cleared(st, who)
  {
  }

  /** So the check holds the depth, arrays included, in every run in which one submission
      is stored or given up before the next is checked, no service is restarted, and no
      job that is over runs or waits again. */
  lemma {:induction false} ChecksHoldDepth(cfg: Config, states: seq<State>, ss: seq<Step>, who: Who, i: nat)
    requires IsRun(cfg, states, ss) && i < |states| && forall k :: 0 <= k < |ss| ==> OneAtATime(states[k], ss[k])
    ensures PlacesKept(states[i], cfg, who) && DepthHolds(states[i].jobs, cfg, who)
  {
    if i > 0 {
      ChecksHoldDepth(cfg, states, ss, who, i - 1);
      PlacesStep(states[i - 1], cfg, ss[i - 1], who);
    }
  }

  // ----- and how each condition fails -----

  ghost predicate Leads(st: State, cfg: Config, s: Step, st': State) {
    Enabled(st, cfg, s) && st' == Next(st, cfg, s)
  }

  /** A cleared submission stores its job. */
  lemma {:induction false} Stored(st: State, cfg: Config, j: QueuedJob) returns (st': State)
    requires j.user in st.cleared && j.state == Pending && j.Sane()
    ensures Leads(st, cfg, Insert(j), st') && st'.cleared == st.cleared - multiset{j.user}
    ensures Active(st'.jobs, Account(j.user)) == Active(st.jobs, Account(j.user)) + 1
  {
    st' := Next(st, cfg, Insert(j));
    ActiveSubmitted(st.jobs, j, Account(j.user));
  }

  /** Room for one job more is found by two submissions, and each stores its job. */
  lemma {:induction false} OverlapPassesDepth(st: State, cfg: Config, j: QueuedJob, k: QueuedJob) returns (path: seq<State>)
    requires j.user == k.user && j.state == k.state == Pending && j.Sane() && k.Sane()
    requires RoomInQueue(st.jobs, cfg, j.user, 1) && Active(st.jobs, Account(j.user)) + 1 == cfg.limits(j.user).submittedJobs
    ensures |path| == 5 && path[0] == st
    ensures Leads(path[0], cfg, Check(j.user, 1), path[1]) && Leads(path[1], cfg, Check(k.user, 1), path[2])
    ensures Leads(path[2], cfg, Insert(j), path[3]) && Leads(path[3], cfg, Insert(k), path[4])
    ensures !DepthHolds(path[4].jobs, cfg, Account(j.user))
  {
    var one := Next(st, cfg, Check(j.user, 1));
    var both := Next(one, cfg, Check(k.user, 1));
    assert both.cleared[j.user] >= 2;
    var first := Stored(both, cfg, j);
    var second := Stored(first, cfg, k);
    path := [st, one, both, first, second];
  }

  /** The service's job ends, and its place is taken by a submission. */
  lemma {:induction false} PlaceRefilled(st: State, cfg: Config, i: nat, j: QueuedJob) returns (path: seq<State>)
    requires j.state == Pending && j.Sane() && i < |st.jobs| && !st.jobs[i].state.Terminal() && st.jobs[i].user == j.user
    requires DepthHolds(st.jobs, cfg, Account(j.user)) && DepthHolds(st.jobs, cfg, Everyone)
    ensures |path| == 4 && path[0] == st
    ensures Leads(path[0], cfg, Settle(i, Completed), path[1]) && Leads(path[1], cfg, Check(j.user, 1), path[2]) && Leads(path[2], cfg, Insert(j), path[3])
    ensures Active(path[3].jobs, Account(j.user)) == Active(st.jobs, Account(j.user))
  {
    ActiveChanged(st.jobs, i, Completed, Account(j.user));
    ActiveChanged(st.jobs, i, Completed, Everyone);
    var ended := Next(st, cfg, Settle(i, Completed));
    var cleared := Next(ended, cfg, Check(j.user, 1));
    var full := Stored(cleared, cfg, j);
    path := [st, ended, cleared, full];
  }

  lemma {:induction false} ServiceStarted(st: State, cfg: Config, svc: QueuedJob) returns (st': State)
    requires svc.state == Pending && svc.Sane()
    ensures Leads(st, cfg, StartService(svc), st')
    ensures Active(st'.jobs, Account(svc.user)) == Active(st.jobs, Account(svc.user)) + 1
  {
    st' := Next(st, cfg, StartService(svc));
    ActiveSubmitted(st.jobs, svc, Account(svc.user));
  }

  /** An account at its limit has a service whose job has just ended; it submits one job
      more, and then the service gets its next. */
  lemma {:induction false} ServicePassesDepth(st: State, cfg: Config, i: nat, j: QueuedJob, svc: QueuedJob) returns (path: seq<State>)
    requires j.user == svc.user && j.state == svc.state == Pending && j.Sane() && svc.Sane()
    requires i < |st.jobs| && !st.jobs[i].state.Terminal() && st.jobs[i].user == j.user
    requires Active(st.jobs, Account(j.user)) == cfg.limits(j.user).submittedJobs && DepthHolds(st.jobs, cfg, Everyone)
    ensures |path| == 5 && path[0] == st
    ensures Leads(path[0], cfg, Settle(i, Completed), path[1]) && Leads(path[1], cfg, Check(j.user, 1), path[2])
    ensures Leads(path[2], cfg, Insert(j), path[3]) && Leads(path[3], cfg, StartService(svc), path[4])
    ensures DepthHolds(path[3].jobs, cfg, Account(j.user)) && !DepthHolds(path[4].jobs, cfg, Account(j.user))
  {
    var before := PlaceRefilled(st, cfg, i, j);
    var after := ServiceStarted(before[3], cfg, svc);
    path := before + [after];
  }
}
