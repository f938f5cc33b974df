/** What holds of a job that never went back to the queue: it is started at most
    once over all machines, its record only moves forward unless a write of it comes
    late, and its scratch is accounted for; and when a job that is over goes back. */
module AtMostOnce {
  import opened Protocol
  import opened Control
  import opened Agents
  import opened Cluster
  import opened Coverage

  // ----- records move forward -----

  /** Pending, Running, written off with its machine, over. */
  function Rank(j: Job): nat {
    match j.state
    case Pending => 0
    case Running => 1
    case _ => if j.reason == NodeLost then 2 else 3
  }

  /** A record that never went back to the queue is unchanged or further on; once over, it
      changes only from a node-loss failure to the result its machine had all along. */
  ghost predicate Forward(was: Job, now: Job) {
    && was.requeues <= now.requeues
    && (now.requeues == 0 ==>
          || was == now
          || (Rank(was) < Rank(now) && (was.state.Terminal() ==> now.reason == Recovered)))
  }

  /** Besides, once placed it stays with its machine. */
  ghost predicate SamePlace(was: Job, now: Job) {
    && was.requeues <= now.requeues
    && (now.requeues == 0 ==> now.node == was.node && now.startAt == was.startAt && (now == was || now.state.Terminal()))
  }

  /** The record was not read before, or is still what was read. */
  predicate Current(jobs: map<JobId, Job>, seen: map<JobId, Job>, id: JobId)
    requires id in jobs
  {
    Seen(jobs, seen, id) == jobs[id]
  }

  /** What reports write says so. */
  lemma {:induction false} ReportsReason(jobs: map<JobId, Job>, seen: map<JobId, Job>, n: NodeName, reports: seq<Status>, served: seq<Access>, id: JobId)
    requires |served| == |reports| && id in jobs
    ensures var after := ApplyReports(jobs, seen, n, reports, served).0[id];
            SamePlace(jobs[id], after) && (after == jobs[id] || after.reason in {ByReport, Recovered})
  {
    if reports != [] {
      var k := |reports| - 1;
      ReportsReason(jobs, seen, n, reports[..k], served[..k], id);
    }
  }

  lemma {:induction false} OneReport(jobs: map<JobId, Job>, seen: map<JobId, Job>, n: NodeName, s: Status, access: Access, id: JobId)
    requires id in jobs
    ensures var now := ApplyReport(jobs, seen, n, s, access).0[id]; var read := Seen(jobs, seen, id);
            && (now == jobs[id] || (s.id == id && s.state.Terminal() && Judges(read, n) && access == Fine))
            && (s.id == id && s.state.Terminal() && Judges(read, n) && access == Fine ==>
                  if read.state.Terminal() then now == Finished(jobs[id], s.state, s.code, Recovered)
                  else if s.refused then now == BackInQueue(jobs[id], ByReport)
                  else now == Finished(jobs[id], s.state, s.code, ByReport))
  {
  }

  /** A change that corrects what was written for a lost machine. */
  ghost predicate ByOwnReport(was: Job, now: Job, n: NodeName, reports: seq<Status>, id: JobId) {
    && was.node == n && was.reason == NodeLost
    && exists s :: s in reports && s.id == id && s.state.Terminal() && now == Finished(was, s.state, s.code, Recovered)
  }

  /** Reports move a record forward that is not over, or is still as it was read. */
  lemma {:induction false} ReportsForward(jobs: map<JobId, Job>, seen: map<JobId, Job>, n: NodeName, reports: seq<Status>, served: seq<Access>, id: JobId)
    requires |served| == |reports| && id in jobs && (Current(jobs, seen, id) || !jobs[id].state.Terminal())
    ensures var after := ApplyReports(jobs, seen, n, reports, served).0[id];
            && Forward(jobs[id], after)
            && (jobs[id].state.Terminal() && after != jobs[id] && after.requeues == 0 ==> ByOwnReport(jobs[id], after, n, reports, id))
  {
    if reports != [] {
      var k := |reports| - 1;
      ReportsForward(jobs, seen, n, reports[..k], served[..k], id);
      ReportsReason(jobs, seen, n, reports[..k], served[..k], id);
      if id !in Ended(reports[..k]) {
        ReportsFrame(jobs, seen, n, reports[..k], served[..k], id);
      }
      OneReport(ApplyReports(jobs, seen, n, reports[..k], served[..k]).0, seen - Ended(reports[..k]), n, reports[k], served[k], id);
      assert reports[k] in reports;
      assert forall s :: s in reports[..k] ==> s in reports;
    }
  }

  lemma {:induction false} ReclaimReason(jobs: map<JobId, Job>, seen: map<JobId, Job>, n: NodeName, claimed: set<JobId>, now: int, bad: set<JobId>, id: JobId)
    requires id in jobs
    ensures var after := Reclaim(jobs, seen, n, claimed, now, bad)[id];
            SamePlace(jobs[id], after) && (after == jobs[id] || after.reason == Reclaimed)
  {
  }

  lemma {:induction false} HandledPlace(w: World, m: NodeName, served: seq<Access>, bad: set<JobId>, id: JobId)
    requires Enabled(w, HandleRequest(m, served, bad)) && id in w.ctl.jobs
    ensures var jobs' := Handled(w, m, served, bad).ctl.jobs;
            && id in jobs' && SamePlace(w.ctl.jobs[id], jobs'[id])
            && (jobs'[id] == w.ctl.jobs[id] || jobs'[id].reason in {ByReport, Recovered, Reclaimed})
  {
    var hb, seen := w.Wire(m).hb, w.SeenFor(m);
    ReportsReason(w.ctl.jobs, seen, hb.node, hb.jobs, served, id);
    ReclaimReason(ApplyReports(w.ctl.jobs, seen, hb.node, hb.jobs, served).0, seen, hb.node, Answerable(hb), w.clock, bad, id);
  }

  lemma {:induction false} HandledForward(w: World, m: NodeName, served: seq<Access>, bad: set<JobId>, id: JobId)
    requires Enabled(w, HandleRequest(m, served, bad)) && id in w.ctl.jobs && w.Wire(m).hb.node == m
    requires Current(w.ctl.jobs, w.SeenFor(m), id) || !w.ctl.jobs[id].state.Terminal()
    ensures var jobs' := Handled(w, m, served, bad).ctl.jobs;
            && id in jobs' && Forward(w.ctl.jobs[id], jobs'[id])
            && (w.ctl.jobs[id].state.Terminal() && jobs'[id] != w.ctl.jobs[id] && jobs'[id].requeues == 0 ==>
                  ByOwnReport(w.ctl.jobs[id], jobs'[id], m, w.Wire(m).hb.jobs, id))
  {
    var hb := w.Wire(m).hb;
    if m !in w.ctl.forgotten {
      ReportsForward(w.ctl.jobs, w.SeenFor(m), m, hb.jobs, served, id);
      if id !in Answerable(hb) {
        ReportsFrame(w.ctl.jobs, w.SeenFor(m), m, hb.jobs, served, id);
      }
    }
  }

  // ----- one launch -----

  ghost function Ahead(w: World, n: NodeName, id: JobId): nat {
    Launches(w.Queue(n), id) + Launches(InTransit(w.Wire(n)), id)
  }

  /** Nothing on this machine, or on its way there, is about this job. */
  ghost predicate Clear(w: World, n: NodeName, id: JobId) {
    var a := w.Agent(n);
    Ahead(w, n, id) == 0 && id !in a.run && id !in Ids(a.done) && id !in a.finished
  }

  /** The books of one job on the one machine it was given to: `ahead` counts the
      Launches not yet taken up, the other numbers are the job's history. */
  ghost predicate Accounted(a: AgentState, id: JobId, ahead: nat, consumed: nat, launches: nat, cleanups: nat) {
    && ahead + consumed <= 1
    && (id in a.run || id in Ids(a.done) ==> consumed == 1)
    && !(id in a.run && id in Ids(a.done))
    && launches <= consumed
    && (id in a.finished <==> id in a.run || (id in Ids(a.done) && launches == 1))
    && cleanups + (if id in a.finished then 1 else 0) <= launches
  }

  ghost predicate OnItsMachine(w: World, n: NodeName, id: JobId) {
    Accounted(w.Agent(n), id, Ahead(w, n, id), w.consumed[id], w.launches[id], w.cleanups[id])
  }

  ghost predicate NeverRequeued(w: World, id: JobId) {
    id in w.ctl.jobs ==> w.ctl.jobs[id].requeues == 0
  }

  ghost function Home(w: World, id: JobId): NodeName {
    if id in w.ctl.jobs then w.ctl.jobs[id].node else ""
  }

  ghost predicate OnceOk(w: World, id: JobId) {
    NeverRequeued(w, id) ==>
      && (forall n :: n == "" || n != Home(w, id) ==> Clear(w, n, id))
      && (id in w.ctl.jobs && w.ctl.jobs[id].state == Pending ==> Home(w, id) == "")
      && (id in w.halfway.selected || id in w.halfway.planned ==> Home(w, id) == "")
      && (id in w.halfway.planned ==> id !in w.halfway.selected && w.halfway.planned[id] != "")
      && (id in w.halfway.lost ==> Home(w, id) != "")
      && (id in w.ctl.jobs && w.ctl.jobs[id].state == Running ==> Home(w, id) != "")
      && (Home(w, id) == "" ==> w.consumed[id] == w.launches[id] == w.cleanups[id] == 0)
      && OnItsMachine(w, Home(w, id), id)
  }

  // ----- its preservation, one kind of step at a time -----

  lemma {:induction false} MachineLeaves(w: World, s: Step)
    requires Enabled(w, s) && !OfController(s) && !s.HandleRequest?
    ensures MachineNext(w, s).ctl == w.ctl && SamePass(w.halfway, MachineNext(w, s).halfway) && MachineNext(w, s).halfway.silent == w.halfway.silent
  {
  }

  lemma {:induction false} MarkOnce(w: World, p: JobId, ok: bool, id: JobId)
    requires OnceOk(w, id) && Enabled(w, Mark(p, ok))
    ensures OnceOk(Marked(w, p, ok), id)
  {
    var w', m := Marked(w, p, ok), w.halfway.planned[p];
    if !ok {
      assert forall n :: Clear(w, n, id) ==> Clear(w', n, id);
    } else if NeverRequeued(w', id) {
      MarkedClear(w, p, id);
      if p == id { assert Clear(w, m, id); }
    }
  }

  lemma {:induction false} MarkedClear(w: World, p: JobId, id: JobId)
    requires Enabled(w, Mark(p, true))
    ensures var w', m := Marked(w, p, true), w.halfway.planned[p];
            && (forall n :: w'.Agent(n) == w.Agent(n) && w'.Wire(n) == w.Wire(n))
            && (forall n :: Clear(w, n, id) && (n != m || p != id) ==> Clear(w', n, id))
            && (forall n :: n != m ==> w'.Queue(n) == w.Queue(n))
            && Launches(w'.Queue(m), id) == Launches(w.Queue(m), id) + (if p == id then 1 else 0)
  {
    var w', m := Marked(w, p, true), w.halfway.planned[p];
    LaunchesAppend(w.Queue(m), [Launch(p)], id);
    assert forall n :: n != m ==> w'.Queue(n) == w.Queue(n);
  }

  /** Nothing new is chosen, decided or given up. */
  ghost predicate SamePass(h: Halfway, h': Halfway) {
    h'.selected == h.selected && h'.planned == h.planned && h'.lost <= h.lost
  }

  lemma {:induction false} KillOnce(w: World, p: JobId, on: NodeName, id: JobId, n: NodeName)
    ensures Launches(At(KillQueued(w.ctl, p, on), n, []), id) == Launches(w.Queue(n), id)
  {
    LaunchesAppend(w.Queue(n), [Kill(p)], id);
  }

  /** Steps that leave agents, wires and history alone, and only shorten queues or
      add to them what launches nothing. */
  lemma {:induction false} ControllerOnce(w: World, w': World, id: JobId)
    requires OnceOk(w, id)
    requires (w'.agents, w'.wires, w'.launches, w'.consumed, w'.cleanups) == (w.agents, w.wires, w.launches, w.consumed, w.cleanups)
    requires forall n :: Launches(w'.Queue(n), id) <= Launches(w.Queue(n), id)
    requires id in w.ctl.jobs ==> id in w'.ctl.jobs && SamePlace(w.ctl.jobs[id], w'.ctl.jobs[id])
    requires SamePass(w.halfway, w'.halfway) || w'.halfway.NoPass()
    requires id !in w.ctl.jobs && id in w'.ctl.jobs ==> w'.ctl.jobs[id].state == Pending && w'.ctl.jobs[id].node == ""
    ensures OnceOk(w', id)
  {
    if NeverRequeued(w', id) {
      assert NeverRequeued(w, id);
      assert forall n :: w'.Agent(n) == w.Agent(n) && w'.Wire(n) == w.Wire(n);
      assert forall n :: Clear(w, n, id) ==> Clear(w', n, id);
      assert Home(w', id) == Home(w, id);
    }
  }

  lemma {:induction false} HandledOnce(w: World, m: NodeName, served: seq<Access>, bad: set<JobId>, id: JobId)
    requires OnceOk(w, id) && WireInv(w) && Enabled(w, HandleRequest(m, served, bad))
    ensures OnceOk(Handled(w, m, served, bad), id)
  {
    var w' := Handled(w, m, served, bad);
    assert WireOk(w, m);
    if id in w.ctl.jobs {
      HandledPlace(w, m, served, bad, id);
    }
    assert id in w.ctl.jobs <==> id in w'.ctl.jobs;
    if NeverRequeued(w', id) {
      assert forall n :: w'.Agent(n) == w.Agent(n);
      forall n ensures Ahead(w', n, id) <= Ahead(w, n, id) {
        assert n != m ==> w'.Queue(n) == w.Queue(n) && w'.Wire(n) == w.Wire(n);
      }
      assert forall n :: Clear(w, n, id) ==> Clear(w', n, id);
      assert Home(w', id) == Home(w, id);
    }
  }

  /** A step of one machine's agent preserves the invariant if it does so there. */
  lemma {:induction false} MachineOnce(w: World, w': World, m: NodeName, id: JobId)
    requires OnceOk(w, id) && w'.ctl == w.ctl && SamePass(w.halfway, w'.halfway)
    requires forall n :: n != m ==> w'.Agent(n) == w.Agent(n) && w'.Wire(n) == w.Wire(n)
    requires Clear(w, m, id) ==>
      Clear(w', m, id) && (w'.consumed[id], w'.launches[id], w'.cleanups[id]) == (w.consumed[id], w.launches[id], w.cleanups[id])
    requires OnItsMachine(w, m, id) ==> OnItsMachine(w', m, id)
    ensures OnceOk(w', id)
  {
    if NeverRequeued(w', id) {
      assert forall n :: n != m && Clear(w, n, id) ==> Clear(w', n, id);
      var h := Home(w, id);
      assert Home(w', id) == h;
      if h != m {
        assert Clear(w, m, id);
        assert OnItsMachine(w', h, id);
      }
    }
  }

  lemma {:induction false} DeliveredFrame(w: World, m: NodeName, id: JobId)
    requires Enabled(w, Deliver(m))
    ensures var w' := Delivered(w, m);
            && w'.ctl == w.ctl && w'.halfway == w.halfway && w'.consumed == w.consumed && w'.launches == w.launches
            && (forall n :: n != m ==> w'.Agent(n) == w.Agent(n) && w'.Wire(n) == w.Wire(n))
            && w'.Agent(m) == Receive(w.Agent(m), w.Wire(m).resp)
            && Ahead(w', m, id) <= Ahead(w, m, id)
            && w'.cleanups[id] == w.cleanups[id] + (if id in w.Agent(m).finished && id !in w'.Agent(m).finished then 1 else 0)
  {
  }

  lemma {:induction false} DeliveredOnce(w: World, m: NodeName, id: JobId)
    requires OnceOk(w, id) && WireInv(w) && Enabled(w, Deliver(m))
    ensures OnceOk(Delivered(w, m), id)
  {
    var w', resp := Delivered(w, m), w.Wire(m).resp;
    assert WireOk(w, m);
    ReceivedIds(w.Agent(m), resp, id);
    DeliveredFrame(w, m, id);
    MachineOnce(w, w', m, id);
  }

  /** What a reply does to one job's traces: acknowledged results go, with their scratch. */
  lemma {:induction false} ReceivedIds(a: AgentState, resp: Response, id: JobId)
    ensures var b := Receive(a, resp);
            && b.run == a.run
            && (id in b.finished <==> id in a.finished && id !in resp.acked)
            && (id in Ids(b.done) <==> id in Ids(a.done) && (resp.known ==> id !in resp.acked))
  {
  }

  /** What one action does to one job's traces. */
  lemma {:induction false} PerformedIds(a: AgentState, act: Action, fate: Fate, id: JobId)
    ensures var b := Perform(a, act, fate);
            if act == Launch(id) then
              if id in a.run && !fate.Refuse? then b == a
              else if fate.Accept? then b.run == a.run + {id} && b.done == a.done && b.finished == a.finished + {id}
              else b.run == a.run && Ids(b.done) == Ids(a.done) + {id} && b.finished == a.finished
            else if act == Kill(id) && id in a.run && !fate.Fail? then
              b.run == a.run - {id} && Ids(b.done) == Ids(a.done) + {id} && b.finished == a.finished
            else
              && (id in b.run <==> id in a.run) && (id in b.finished <==> id in a.finished)
              && (id in Ids(b.done) <==> id in Ids(a.done))
  {
  }

  /** An action taken up: one Launch fewer ahead, one more consumed. */
  ghost predicate TookUp(w: World, w': World, m: NodeName, act: Action, fate: Fate, id: JobId) {
    var b, one := Perform(w.Agent(m), act, fate), if act == Launch(id) then 1 else 0;
    && w'.ctl == w.ctl && w'.halfway == w.halfway
    && (forall n :: n != m ==> w'.Agent(n) == w.Agent(n) && w'.Wire(n) == w.Wire(n))
    && w'.Agent(m) == b
    && Ahead(w', m, id) + one <= Ahead(w, m, id)
    && w'.consumed[id] == w.consumed[id] + one
    && w'.launches[id] == w.launches[id] + (if id in b.run && id !in w.Agent(m).run then 1 else 0)
    && w'.cleanups == w.cleanups
  }

  lemma {:induction false} ActedTakesUp(w: World, m: NodeName, fate: Fate, order: seq<JobId>, id: JobId)
    requires Enabled(w, Act(m, fate, order)) && w.Wire(m).actions != []
    ensures TookUp(w, Acted(w, m, fate, order), m, w.Wire(m).actions[0], fate, id)
  {
  }

  lemma {:induction false} PerformAccounted(a: AgentState, act: Action, fate: Fate, id: JobId,
                         ahead: nat, less: nat, consumed: nat, launches: nat, cleanups: nat)
    requires Accounted(a, id, ahead, consumed, launches, cleanups)
    requires less + (if act == Launch(id) then 1 else 0) <= ahead
    ensures var b := Perform(a, act, fate);
            Accounted(b, id, less, consumed + (if act == Launch(id) then 1 else 0),
                      launches + (if id in b.run && id !in a.run then 1 else 0), cleanups)
  {
  }

  lemma {:induction false} TookUpOnce(w: World, w': World, m: NodeName, act: Action, fate: Fate, id: JobId)
    requires OnceOk(w, id) && TookUp(w, w', m, act, fate, id)
    ensures OnceOk(w', id)
  {
    if OnItsMachine(w, m, id) {
      PerformAccounted(w.Agent(m), act, fate, id, Ahead(w, m, id), Ahead(w', m, id),
                       w.consumed[id], w.launches[id], w.cleanups[id]);
    }
    if Clear(w, m, id) {
      PerformedIds(w.Agent(m), act, fate, id);
    }
    MachineOnce(w, w', m, id);
  }

  lemma {:induction false} ActedOnce(w: World, m: NodeName, fate: Fate, order: seq<JobId>, id: JobId)
    requires OnceOk(w, id) && Enabled(w, Act(m, fate, order)) && w.Wire(m).actions != []
    ensures OnceOk(Acted(w, m, fate, order), id)
  {
    ActedTakesUp(w, m, fate, order, id);
    TookUpOnce(w, Acted(w, m, fate, order), m, w.Wire(m).actions[0], fate, id);
  }

  lemma {:induction false} ExitOnce(w: World, m: NodeName, e: JobId, state: JobState, code: int, id: JobId)
    requires OnceOk(w, id) && Enabled(w, Exit(m, e, state, code))
    ensures OnceOk(MachineNext(w, Exit(m, e, state, code)), id)
  {
    var w' := MachineNext(w, Exit(m, e, state, code));
    var a, b := w.Agent(m), w'.Agent(m);
    ReportedIds(a, e, state, code);
    assert Ids(b.done) == Ids(a.done) + {e} by {
      assert Status(e, state, code, false) in b.done;
    }
    MachineOnce(w, w', m, id);
  }

  lemma {:induction false} StopOnce(w: World, n: NodeName, id: JobId)
    requires OnceOk(w, id)
    ensures OnceOk(ControllerNext(w, Stopping(n)), id)
  {
    LaunchesAppend(w.Queue(n), [Stop], id);
    ControllerOnce(w, ControllerNext(w, Stopping(n)), id);
  }

  lemma {:induction false} PeopleOnce(w: World, s: Step, id: JobId)
    requires OnceOk(w, id) && Enabled(w, s)
    requires s.CancelIt? || s.UserRequeue?
    ensures OnceOk(ControllerNext(w, s), id)
  {
    if s.id in w.ctl.jobs {
      forall n { KillOnce(w, s.id, if s.CancelIt? then s.on else Runner(w.ctl.jobs[s.id]), id, n); }
    }
    ControllerOnce(w, ControllerNext(w, s), id);
  }

  lemma {:induction false} PassOnce(w: World, s: Step, id: JobId)
    requires OnceOk(w, id) && Enabled(w, s) && (s.Select? || s.Plan? || s.LookUp? || s.ListLost?)
    ensures OnceOk(ControllerNext(w, s), id)
  {
    var w' := ControllerNext(w, s);
    assert (w'.ctl, w'.agents, w'.wires, w'.launches, w'.consumed, w'.cleanups) == (w.ctl, w.agents, w.wires, w.launches, w.consumed, w.cleanups);
    assert forall n :: Clear(w, n, id) ==> Clear(w', n, id);
  }

  lemma {:induction false} RestartedOnce(w: World, n: NodeName, id: JobId)
    requires OnceOk(w, id)
    ensures OnceOk(Restarted(w, n), id)
  {
    MachineOnce(w, Restarted(w, n), n, id);
  }

  lemma {:induction false} AgentOnce(w: World, s: Step, id: JobId)
    requires OnceOk(w, id) && Enabled(w, s)
    requires s.Snap? || s.Drop? || (s.Act? && w.Wire(s.n).actions == [])
    ensures OnceOk(MachineNext(w, s), id)
  {
    MachineOnce(w, MachineNext(w, s), s.n, id);
  }

  lemma {:induction false} ControllerStepOnce(w: World, s: Step, id: JobId)
    requires OnceOk(w, id) && Enabled(w, s) && OfController(s)
    ensures OnceOk(ControllerNext(w, s), id)
  {
    match s
    case Mark(p, ok) => MarkOnce(w, p, ok, id);
    case Select(_) => PassOnce(w, s, id);
    case Plan(_) => PassOnce(w, s, id);
    case LookUp(_) => PassOnce(w, s, id);
    case ListLost => PassOnce(w, s, id);
    case CancelIt(_, _, _) => PeopleOnce(w, s, id);
    case UserRequeue(_, _) => PeopleOnce(w, s, id);
    case Stopping(n) => StopOnce(w, n, id);
    case _ => QuietOnce(w, s, id);
  }

  lemma {:induction false} MachineStepOnce(w: World, s: Step, id: JobId)
    requires OnceOk(w, id) && WireInv(w) && Enabled(w, s) && !OfController(s)
    ensures OnceOk(MachineNext(w, s), id)
  {
    match s
    case HandleRequest(m, served, bad) => HandledOnce(w, m, served, bad, id);
    case Deliver(m) => DeliveredOnce(w, m, id);
    case Act(m, fate, order) =>
      if w.Wire(m).actions == [] { AgentOnce(w, s, id); } else { ActedOnce(w, m, fate, order, id); }
    case Exit(m, e, state, code) => ExitOnce(w, m, e, state, code, id);
    case AgentRestart(m) => RestartedOnce(w, m, id);
    case Snap(_, _, _) => AgentOnce(w, s, id);
    case Drop(_) => AgentOnce(w, s, id);
  }

  lemma {:induction false} OnceStep(w: World, s: Step, id: JobId)
    requires OnceOk(w, id) && WireInv(w) && Enabled(w, s)
    ensures OnceOk(Next(w, s), id)
  {
    if OfController(s) { ControllerStepOnce(w, s, id); } else { MachineStepOnce(w, s, id); }
  }

  lemma {:induction false} QuietOnce(w: World, s: Step, id: JobId)
    requires OnceOk(w, id) && Enabled(w, s)
    requires s.Tick? || s.SubmitJob? || s.SetNode? || s.Remove? || s.Join? || s.MarkSilent? || s.DropQueue? || s.GiveUp? || s.ReadFor? || s.ControllerRestart?
    ensures OnceOk(ControllerNext(w, s), id)
  {
    ControllerOnce(w, ControllerNext(w, s), id);
  }

  // ----- whole runs -----

  lemma {:induction false} OnceOverRuns(ws: seq<World>, ss: seq<Step>, i: nat, id: JobId)
    requires IsRun(ws, ss) && i < |ws|
    ensures OnceOk(ws[i], id)
  {
    if i > 0 {
      OnceOverRuns(ws, ss, i - 1, id);
      CoverageOverRuns(ws, ss, i - 1);
      assert Leads(ws, ss, i - 1);
      OnceStep(ws[i - 1], ss[i - 1], id);
    }
  }

  /** In every run, a job that never went back to the queue is started at most once,
      counted over all agents, and only its own machine ever knows of it. */
  lemma {:induction false} StartedAtMostOnce(ws: seq<World>, ss: seq<Step>, i: nat, id: JobId)
    requires IsRun(ws, ss) && i < |ws| && NeverRequeued(ws[i], id)
    ensures ws[i].launches[id] <= 1
    ensures forall n :: n != Home(ws[i], id) ==> Clear(ws[i], n, id)
  {
    OnceOverRuns(ws, ss, i, id);
  }

  /** Scratch accounting: a machine holds a job's scratch exactly while it runs the
      job, or has run it and waits for the acknowledgement; the scratch is removed
      at most once for each start, never under a running job, and never survives
      the acknowledgement. */
  lemma {:induction false} ScratchAccounting(ws: seq<World>, ss: seq<Step>, i: nat, id: JobId, n: NodeName)
    requires IsRun(ws, ss) && i < |ws| && NeverRequeued(ws[i], id)
    ensures var w := ws[i]; var a := w.Agent(n);
            && (id in a.finished <==> id in a.run || (id in Ids(a.done) && w.launches[id] == 1))
            && w.cleanups[id] <= w.launches[id] <= 1
            && (i < |ss| && ss[i] == Deliver(n) && w.Wire(n).Reply? && id in w.Wire(n).resp.acked ==>
                  id !in a.run && id !in ws[i + 1].Agent(n).finished)
  {
    OnceOverRuns(ws, ss, i, id);
    CoverageOverRuns(ws, ss, i);
    assert WireOk(ws[i], n);
    if n != Home(ws[i], id) { assert Clear(ws[i], n, id); }
    if i < |ss| && ss[i] == Deliver(n) {
      assert Leads(ws, ss, i);
      ReceivedIds(ws[i].Agent(n), ws[i].Wire(n).resp, id);
    }
  }

  // ----- what a request has read, until it is handled -----

  /** Only a write-off of a lost machine's job says so. */
  ghost predicate ReasonOk(w: World, id: JobId) {
    id in w.ctl.jobs && w.ctl.jobs[id].requeues == 0 && w.ctl.jobs[id].reason == NodeLost ==>
      w.ctl.jobs[id] == Lost(w.ctl.jobs[id])
  }

  function Lost(j: Job): Job { Finished(j, Failed, -1, NodeLost) }

  function CancelledAs(j: Job): Job { Finished(j, Cancelled, -1, ByUser) }

  /** What the request of a job's machine has read of it is still its record, but for a
      cancellation or a write-off since; and a request that found it waiting comes from
      an agent that has had nothing of it. */
  ghost predicate SeenOk(w: World, n: NodeName, id: JobId) {
    id in w.SeenFor(n) ==>
      && w.Wire(n).Request? && id in w.ctl.jobs
      && (w.ctl.jobs[id].requeues == 0 ==> SeenSince(w.SeenFor(n)[id], w.ctl.jobs[id], n, w.consumed[id]))
  }

  predicate SeenSince(read: Job, now: Job, n: NodeName, consumed: nat) {
    && (read.reason == NodeLost ==> read == Lost(read))
    && (read.node != "" ==> read.node == now.node)
    && (read.node == "" && now.node == n ==> consumed == 0)
    && (read.node == n ==> now in {read, CancelledAs(read), Lost(read)})
  }

  lemma {:induction false} ReasonStep(w: World, s: Step, id: JobId)
    requires ReasonOk(w, id) && Enabled(w, s) && (id in w.ctl.jobs ==> id in Next(w, s).ctl.jobs && w.ctl.jobs[id].requeues <= Next(w, s).ctl.jobs[id].requeues)
    ensures ReasonOk(Next(w, s), id)
  {
    if s.HandleRequest? && id in w.ctl.jobs {
      HandledPlace(w, s.n, s.served, s.bad, id);
    }
  }

  /** A machine's request does not touch a job of another's. */
  lemma {:induction false} HandledElsewhere(w: World, m: NodeName, served: seq<Access>, bad: set<JobId>, id: JobId)
    requires OnceOk(w, id) && NeverRequeued(w, id) && WireOk(w, m) && SeenOk(w, m, id) && Enabled(w, HandleRequest(m, served, bad))
    requires id in w.ctl.jobs && Home(w, id) != m
    ensures Handled(w, m, served, bad).ctl.jobs[id] == w.ctl.jobs[id]
  {
    assert Clear(w, m, id);
    ReportsFrame(w.ctl.jobs, w.SeenFor(m), m, w.Wire(m).hb.jobs, served, id);
  }

  lemma {:induction false} SeenHandled(w: World, m: NodeName, served: seq<Access>, bad: set<JobId>, n: NodeName, id: JobId)
    requires OnceOk(w, id) && WireOk(w, m) && SeenOk(w, n, id) && SeenOk(w, m, id) && Enabled(w, HandleRequest(m, served, bad))
    ensures SeenOk(Handled(w, m, served, bad), n, id)
  {
    if n != m && id in w.SeenFor(n) {
      HandledPlace(w, m, served, bad, id);
      if NeverRequeued(w, id) && Home(w, id) != m {
        HandledElsewhere(w, m, served, bad, id);
      }
    }
  }

  lemma {:induction false} SeenActs(w: World, m: NodeName, fate: Fate, order: seq<JobId>, n: NodeName, id: JobId)
    requires OnceOk(w, id) && SeenOk(w, n, id) && Enabled(w, Act(m, fate, order))
    ensures SeenOk(Acted(w, m, fate, order), n, id)
  {
    if id in w.SeenFor(n) && w.ctl.jobs[id].node == n && NeverRequeued(w, id) {
      assert Clear(w, m, id);
    }
  }

  lemma {:induction false} SeenElsewhere(w: World, s: Step, n: NodeName, id: JobId)
    requires SeenOk(w, n, id) && Enabled(w, s) && !OfController(s) && !s.HandleRequest? && !s.Act?
    ensures SeenOk(MachineNext(w, s), n, id)
  {
    MachineLeaves(w, s);
    SeenOrGone(w, s, n);
  }

  lemma {:induction false} SeenOrGone(w: World, s: Step, n: NodeName)
    requires Enabled(w, s) && !OfController(s) && !s.HandleRequest? && !s.Act?
    ensures var w' := MachineNext(w, s);
            && w'.consumed == w.consumed
            && (w'.SeenFor(n) == map[] || (w'.SeenFor(n) == w.SeenFor(n) && (w.Wire(n).Request? ==> w'.Wire(n) == w.Wire(n))))
  {
  }

  lemma {:induction false} SeenController(w: World, s: Step, n: NodeName, id: JobId)
    requires OnceOk(w, id) && SeenOk(w, n, id) && ReasonOk(w, id) && WireOk(w, n) && Enabled(w, s) && OfController(s)
    ensures SeenOk(ControllerNext(w, s), n, id)
  {
    match s
    case ReadFor(_, _) => SeenRead(w, s, n, id);
    case Mark(_, _) => SeenMarked(w, s, n, id);
    case CancelIt(_, _, _) => SeenWritten(w, s, n, id);
    case GiveUp(_, _) => SeenWritten(w, s, n, id);
    case UserRequeue(_, _) => SeenWritten(w, s, n, id);
    case _ => SeenUnwritten(w, s, n, id);
  }

  lemma {:induction false} SeenRead(w: World, s: Step, n: NodeName, id: JobId)
    requires OnceOk(w, id) && SeenOk(w, n, id) && ReasonOk(w, id) && WireOk(w, n) && Enabled(w, s) && s.ReadFor?
    ensures SeenOk(ControllerNext(w, s), n, id)
  {
  }

  lemma {:induction false} SeenMarked(w: World, s: Step, n: NodeName, id: JobId)
    requires OnceOk(w, id) && SeenOk(w, n, id) && WireOk(w, n) && Enabled(w, s) && s.Mark?
    ensures SeenOk(ControllerNext(w, s), n, id)
  {
  }

  lemma {:induction false} SeenWritten(w: World, s: Step, n: NodeName, id: JobId)
    requires SeenOk(w, n, id) && Enabled(w, s) && (s.CancelIt? || s.GiveUp? || s.UserRequeue?)
    ensures SeenOk(ControllerNext(w, s), n, id)
  {
    if id in w.SeenFor(n) {
      var w' := ControllerNext(w, s);
      assert w'.SeenFor(n) == w.SeenFor(n) && w'.Wire(n) == w.Wire(n) && w'.consumed == w.consumed;
    }
  }

  lemma {:induction false} SeenUnwritten(w: World, s: Step, n: NodeName, id: JobId)
    requires SeenOk(w, n, id) && Enabled(w, s) && OfController(s)
    requires !s.ReadFor? && !s.Mark? && !s.CancelIt? && !s.GiveUp? && !s.UserRequeue?
    ensures SeenOk(ControllerNext(w, s), n, id)
  {
    var w' := ControllerNext(w, s);
    assert w'.wires == w.wires && w'.consumed == w.consumed;
    assert w'.SeenFor(n) == w.SeenFor(n) || w'.SeenFor(n) == map[];
    assert id in w.ctl.jobs ==> id in w'.ctl.jobs && w'.ctl.jobs[id] == w.ctl.jobs[id];
  }

  ghost predicate SeenInv(w: World, id: JobId) {
    ReasonOk(w, id) && forall n :: SeenOk(w, n, id)
  }

  lemma {:induction false} SeenStep(w: World, s: Step, w': World, n: NodeName, id: JobId)
    requires OnceOk(w, id) && WireInv(w) && SeenInv(w, id) && Enabled(w, s) && w' == Next(w, s)
    ensures SeenOk(w', n, id)
  {
    assert SeenOk(w, n, id) && WireOk(w, n);
    if OfController(s) {
      SeenController(w, s, n, id);
    } else if s.HandleRequest? {
      assert SeenOk(w, s.n, id) && WireOk(w, s.n);
      SeenHandled(w, s.n, s.served, s.bad, n, id);
    } else {
      if s.Act? { SeenActs(w, s.n, s.fate, s.order, n, id); } else { SeenElsewhere(w, s, n, id); }
    }
  }

  lemma {:induction false} KeptInStore(w: World, s: Step, w': World, id: JobId)
    requires WireInv(w) && Enabled(w, s) && w' == Next(w, s) && id in w.ctl.jobs
    ensures id in w'.ctl.jobs && w.ctl.jobs[id].requeues <= w'.ctl.jobs[id].requeues
  {
    match s
    case HandleRequest(m, served, bad) =>
      HandledPlace(w, m, served, bad, id);
    case _ =>
  }

  lemma {:induction false} StaysInStore(ws: seq<World>, ss: seq<Step>, id: JobId, i: nat, k: nat)
    requires IsRun(ws, ss) && i <= k < |ws| && id in ws[i].ctl.jobs
    ensures id in ws[k].ctl.jobs && ws[i].ctl.jobs[id].requeues <= ws[k].ctl.jobs[id].requeues
    decreases k
  {
    if i < k {
      StaysInStore(ws, ss, id, i, k - 1);
      CoverageOverRuns(ws, ss, k - 1);
      assert Leads(ws, ss, k - 1);
      KeptInStore(ws[k - 1], ss[k - 1], ws[k], id);
    }
  }

  lemma {:induction false} RunSeenStep(ws: seq<World>, ss: seq<Step>, i: nat, id: JobId)
    requires IsRun(ws, ss) && i < |ss| && SeenInv(ws[i], id)
    ensures SeenInv(ws[i + 1], id)
  {
    OnceOverRuns(ws, ss, i, id);
    CoverageOverRuns(ws, ss, i);
    if id in ws[i].ctl.jobs { StaysInStore(ws, ss, id, i, i + 1); }
    assert Leads(ws, ss, i);
    var w' := ws[i + 1];
    ReasonStep(ws[i], ss[i], id);
    forall n ensures SeenOk(w', n, id) {
      SeenStep(ws[i], ss[i], w', n, id);
    }
  }

  lemma {:induction false} SeenOverRuns(ws: seq<World>, ss: seq<Step>, i: nat, id: JobId)
    requires IsRun(ws, ss) && i < |ws|
    ensures SeenInv(ws[i], id)
  {
    if i > 0 {
      SeenOverRuns(ws, ss, i - 1, id);
      RunSeenStep(ws, ss, i - 1, id);
    }
  }

  // ----- records move forward, unless a write comes late -----

  /** The first terminal report of a job, the one that acts on what was read, is served
      in full. */
  ghost predicate FirstServed(reports: seq<Status>, served: seq<Access>, id: JobId)
    requires |served| == |reports|
  {
    exists i :: 0 <= i < |reports| && reports[i].id == id && reports[i].state.Terminal() && id !in Ended(reports[..i]) && served[i] == Fine
  }

  /** A job found like this is written when a machine reports it as over. */
  predicate Judges(read: Job, n: NodeName) {
    !read.state.Terminal() || (read.node == n && read.reason == NodeLost)
  }

  /** The request writes a job of which this was read: as reported, or as unclaimed. */
  ghost predicate Writes(c: Ctl, read: Job, hb: Heartbeat, now: int, served: seq<Access>, bad: set<JobId>, id: JobId)
    requires |served| == |hb.jobs|
  {
    && hb.node !in c.forgotten
    && ((Judges(read, hb.node) && FirstServed(hb.jobs, served, id))
        || (Reclaims(c, hb, now) && Unclaimed(read, id, hb.node, Answerable(hb), now) && id !in bad))
  }

  /** A write that comes too late: the record is no longer what the request once read.
      A job is marked running that is not waiting any more; or one that is over is
      cancelled, given up with its machine, or written for a machine's request. */
  ghost predicate Late(w: World, s: Step, id: JobId) {
    && id in w.ctl.jobs
    && var now := w.ctl.jobs[id];
       match s
       case Mark(m, ok) => m == id && ok && now.state != Pending
       case CancelIt(m, _, ok) => m == id && ok && now.state.Terminal() && now != CancelledAs(now)
       case GiveUp(m, ok) => m == id && ok && now.state.Terminal() && now != Lost(now)
       case HandleRequest(n, served, bad) =>
         && now.state.Terminal() && id in w.SeenFor(n) && w.SeenFor(n)[id] != now
         && w.Wire(n).Request? && |served| == |w.Wire(n).hb.jobs|
         && Writes(w.ctl, w.SeenFor(n)[id], w.Wire(n).hb, w.clock, served, bad, id)
       case _ => false
  }

  lemma {:induction false} MarkForwardIff(w: World, p: JobId, ok: bool, id: JobId)
    requires OnceOk(w, id) && Enabled(w, Mark(p, ok)) && id in w.ctl.jobs && NeverRequeued(w, id)
    ensures id in Marked(w, p, ok).ctl.jobs
    ensures Forward(w.ctl.jobs[id], Marked(w, p, ok).ctl.jobs[id]) <==> !Late(w, Mark(p, ok), id)
  {
  }

  lemma {:induction false} CancelForwardIff(w: World, s: Step, id: JobId)
    requires Enabled(w, s) && (s.CancelIt? || s.GiveUp?) && id in w.ctl.jobs && NeverRequeued(ControllerNext(w, s), id)
    ensures id in ControllerNext(w, s).ctl.jobs
    ensures Forward(w.ctl.jobs[id], ControllerNext(w, s).ctl.jobs[id]) <==> !Late(w, s, id)
  {
  }

  lemma {:induction false} OthersForward(w: World, s: Step, id: JobId)
    requires Enabled(w, s) && OfController(s) && !s.Mark? && !s.CancelIt? && !s.GiveUp? && id in w.ctl.jobs
    ensures id in ControllerNext(w, s).ctl.jobs && Forward(w.ctl.jobs[id], ControllerNext(w, s).ctl.jobs[id])
  {
  }

  lemma {:induction false} FirstOrLater(reports: seq<Status>, served: seq<Access>, id: JobId)
    requires |served| == |reports| && reports != []
    ensures var k := |reports| - 1;
            FirstServed(reports, served, id) <==>
              || FirstServed(reports[..k], served[..k], id)
              || (id !in Ended(reports[..k]) && reports[k].id == id && reports[k].state.Terminal() && served[k] == Fine)
  {
    var k := |reports| - 1;
    assert forall i :: 0 <= i < k ==> reports[..k][i] == reports[i] && served[..k][i] == served[i] && reports[..k][..i] == reports[..i];
  }

  lemma {:induction false} ServedIsEnded(reports: seq<Status>, served: seq<Access>, id: JobId)
    requires |served| == |reports| && FirstServed(reports, served, id)
    ensures id in Ended(reports)
  {
  }

  /** How the first report of a job decides, by what was read of it. */
  ghost predicate Outcome(was: Job, read: Job, now: Job, n: NodeName, reports: seq<Status>, served: seq<Access>, id: JobId)
    requires |served| == |reports|
  {
    now.requeues == 0 ==>
      if Judges(read, n) && FirstServed(reports, served, id) then
        now.state.Terminal() && (now.reason == ByReport || (now.reason == Recovered && read.reason == NodeLost))
      else now == was || ByOwnReport(was, now, n, reports, id)
  }

  /** The outcome after one more report. */
  lemma {:induction false} OutcomeGrows(was: Job, read: Job, before: Job, now: Job, n: NodeName, reports: seq<Status>, served: seq<Access>, id: JobId)
    requires |served| == |reports| && reports != [] && was.state.Terminal() && before.requeues <= now.requeues
    requires var k := |reports| - 1; var s := reports[k];
             && Outcome(was, read, before, n, reports[..k], served[..k], id)
             && (id in Ended(reports[..k]) || before == was)
             && (before.requeues == 0 ==> before.state.Terminal())
             && var judge := if id in Ended(reports[..k]) then before else read;
                && (now == before || (s.id == id && s.state.Terminal() && Judges(judge, n) && served[k] == Fine))
                && (s.id == id && s.state.Terminal() && Judges(judge, n) && served[k] == Fine ==>
                      if judge.state.Terminal() then now == Finished(before, s.state, s.code, Recovered)
                      else now.requeues > 0 || now == Finished(before, s.state, s.code, ByReport))
    ensures Outcome(was, read, now, n, reports, served, id)
  {
    var k := |reports| - 1;
    FirstOrLater(reports, served, id);
    if FirstServed(reports[..k], served[..k], id) { ServedIsEnded(reports[..k], served[..k], id); }
    assert reports[k] in reports;
    assert forall s :: s in reports[..k] ==> s in reports;
  }

  /** What reports make of a record that is over: as what was read of it says, and where
      that says nothing, as the record itself does. */
  lemma {:induction false} ReportsLate(jobs: map<JobId, Job>, seen: map<JobId, Job>, n: NodeName, reports: seq<Status>, served: seq<Access>, id: JobId)
    requires |served| == |reports| && id in jobs && id in seen && jobs[id].state.Terminal()
    ensures Outcome(jobs[id], seen[id], ApplyReports(jobs, seen, n, reports, served).0[id], n, reports, served, id)
  {
    if reports != [] {
      var k := |reports| - 1;
      var before, rest := ApplyReports(jobs, seen, n, reports[..k], served[..k]).0, seen - Ended(reports[..k]);
      ReportsLate(jobs, seen, n, reports[..k], served[..k], id);
      ReportsReason(jobs, seen, n, reports[..k], served[..k], id);
      if id !in Ended(reports[..k]) {
        ReportsFrame(jobs, seen, n, reports[..k], served[..k], id);
      }
      OneReport(before, rest, n, reports[k], served[k], id);
      var now := ApplyReport(before, rest, n, reports[k], served[k]).0[id];
      OutcomeGrows(jobs[id], seen[id], before[id], now, n, reports, served, id);
    }
  }

  /** What is written for a request is written by the job's own machine. */
  lemma {:induction false} WritesAtHome(w: World, m: NodeName, served: seq<Access>, bad: set<JobId>, id: JobId)
    requires OnceOk(w, id) && NeverRequeued(w, id) && WireOk(w, m) && SeenOk(w, m, id) && Enabled(w, HandleRequest(m, served, bad))
    requires id in w.SeenFor(m) && Writes(w.ctl, w.SeenFor(m)[id], w.Wire(m).hb, w.clock, served, bad, id)
    ensures w.SeenFor(m)[id].node == m
  {
    var hb := w.Wire(m).hb;
    if FirstServed(hb.jobs, served, id) {
      ServedIsEnded(hb.jobs, served, id);
      var t :| t in hb.jobs && t.id == id && t.state.Terminal();
      assert t in w.Agent(m).done;
      assert !Clear(w, m, id);
    }
  }

  lemma {:induction false} HandledLate(w: World, m: NodeName, served: seq<Access>, bad: set<JobId>, id: JobId)
    requires Enabled(w, HandleRequest(m, served, bad)) && w.Wire(m).hb.node == m
    requires id in w.ctl.jobs && w.ctl.jobs[id].state.Terminal() && id in w.SeenFor(m)
    requires NeverRequeued(Handled(w, m, served, bad), id)
    ensures id in Handled(w, m, served, bad).ctl.jobs
    ensures var was, read, now := w.ctl.jobs[id], w.SeenFor(m)[id], Handled(w, m, served, bad).ctl.jobs[id];
            if Writes(w.ctl, read, w.Wire(m).hb, w.clock, served, bad, id) then
              now.state.Terminal() && (now.reason in {ByReport, Reclaimed} || (now.reason == Recovered && read.reason == NodeLost))
            else now == was || ByOwnReport(was, now, m, w.Wire(m).hb.jobs, id)
  {
    var hb := w.Wire(m).hb;
    if m !in w.ctl.forgotten {
      ReportsLate(w.ctl.jobs, w.SeenFor(m), m, hb.jobs, served, id);
      ReportsReason(w.ctl.jobs, w.SeenFor(m), m, hb.jobs, served, id);
      if FirstServed(hb.jobs, served, id) { ServedIsEnded(hb.jobs, served, id); }
      if id !in Answerable(hb) {
        ReportsFrame(w.ctl.jobs, w.SeenFor(m), m, hb.jobs, served, id);
      }
    }
  }

  /** A request's write to a record that is over, and is not what it read, takes it back. */
  lemma {:induction false} LateWriteIsBack(w: World, m: NodeName, served: seq<Access>, bad: set<JobId>, id: JobId)
    requires OnceOk(w, id) && NeverRequeued(w, id) && WireOk(w, m) && SeenOk(w, m, id) && Enabled(w, HandleRequest(m, served, bad))
    requires Late(w, HandleRequest(m, served, bad), id) && NeverRequeued(Handled(w, m, served, bad), id)
    ensures id in Handled(w, m, served, bad).ctl.jobs
    ensures var was, now := w.ctl.jobs[id], Handled(w, m, served, bad).ctl.jobs[id];
            now != was && !Forward(was, now) && !ByOwnReport(was, now, m, w.Wire(m).hb.jobs, id)
  {
    WritesAtHome(w, m, served, bad, id);
    HandledLate(w, m, served, bad, id);
  }

  lemma {:induction false} HandledForwardIff(w: World, m: NodeName, served: seq<Access>, bad: set<JobId>, id: JobId)
    requires OnceOk(w, id) && NeverRequeued(w, id) && WireOk(w, m) && SeenOk(w, m, id) && Enabled(w, HandleRequest(m, served, bad))
    requires id in w.ctl.jobs && NeverRequeued(Handled(w, m, served, bad), id)
    ensures id in Handled(w, m, served, bad).ctl.jobs
    ensures var was, now, late := w.ctl.jobs[id], Handled(w, m, served, bad).ctl.jobs[id], Late(w, HandleRequest(m, served, bad), id);
            && (Forward(was, now) <==> !late)
            && (was.state.Terminal() && was != now ==> (ByOwnReport(was, now, m, w.Wire(m).hb.jobs, id) <==> !late))
  {
    if Current(w.ctl.jobs, w.SeenFor(m), id) || !w.ctl.jobs[id].state.Terminal() {
      HandledForward(w, m, served, bad, id);
    } else if Late(w, HandleRequest(m, served, bad), id) {
      LateWriteIsBack(w, m, served, bad, id);
    } else {
      HandledLate(w, m, served, bad, id);
    }
  }

  lemma {:induction false} ControllerForwardIff(w: World, s: Step, id: JobId)
    requires OnceOk(w, id) && Enabled(w, s) && OfController(s)
    requires id in w.ctl.jobs && NeverRequeued(w, id) && NeverRequeued(ControllerNext(w, s), id)
    ensures id in ControllerNext(w, s).ctl.jobs
    ensures Forward(w.ctl.jobs[id], ControllerNext(w, s).ctl.jobs[id]) <==> !Late(w, s, id)
  {
    if s.Mark? {
      MarkForwardIff(w, s.id, s.ok, id);
    } else if s.CancelIt? || s.GiveUp? {
      CancelForwardIff(w, s, id);
    } else {
      OthersForward(w, s, id);
    }
  }

  /** Every step moves every record forward, except a late write. */
  lemma {:induction false} ForwardIff(w: World, s: Step, w': World, id: JobId)
    requires OnceOk(w, id) && WireInv(w) && SeenInv(w, id) && Enabled(w, s) && w' == Next(w, s)
    requires id in w.ctl.jobs && NeverRequeued(w, id) && id in w'.ctl.jobs && NeverRequeued(w', id)
    ensures Forward(w.ctl.jobs[id], w'.ctl.jobs[id]) <==> !Late(w, s, id)
  {
    if OfController(s) {
      ControllerForwardIff(w, s, id);
    } else if s.HandleRequest? {
      assert WireOk(w, s.n) && SeenOk(w, s.n, id);
      HandledForwardIff(w, s.n, s.served, s.bad, id);
    } else {
      MachineLeaves(w, s);
    }
  }

  ghost predicate NoneLate(ws: seq<World>, ss: seq<Step>, id: JobId, i: nat, k: nat)
    requires |ws| == |ss| + 1 && k < |ws|
  {
    forall j :: i <= j < k ==> !Late(ws[j], ss[j], id)
  }

  ghost predicate StepForward(was: World, now: World, id: JobId) {
    id in was.ctl.jobs && id in now.ctl.jobs && Forward(was.ctl.jobs[id], now.ctl.jobs[id])
  }

  ghost predicate StepsForward(ws: seq<World>, id: JobId, i: nat, k: nat)
    requires k < |ws|
  {
    forall j, j' :: i <= j < k && j' == j + 1 ==> StepForward(ws[j], ws[j'], id)
  }

  lemma {:induction false} RunStepForward(ws: seq<World>, ss: seq<Step>, id: JobId, k: nat)
    requires IsRun(ws, ss) && k < |ss| && id in ws[k].ctl.jobs && NeverRequeued(ws[k + 1], id)
    ensures id in ws[k + 1].ctl.jobs && NeverRequeued(ws[k], id)
    ensures StepForward(ws[k], ws[k + 1], id) <==> !Late(ws[k], ss[k], id)
  {
    OnceOverRuns(ws, ss, k, id);
    CoverageOverRuns(ws, ss, k);
    SeenOverRuns(ws, ss, k, id);
    StaysInStore(ws, ss, id, k, k + 1);
    assert Leads(ws, ss, k);
    ForwardIff(ws[k], ss[k], ws[k + 1], id);
  }

  /** Over any stretch of any run in which a job does not go back to the queue: every
      step leaves its record as it was, or takes it strictly further along Pending,
      Running, written off, over, if and only if no write of it comes late; and then the
      whole stretch does. */
  lemma {:induction false} RecordHistory(ws: seq<World>, ss: seq<Step>, id: JobId, i: nat, k: nat)
    requires IsRun(ws, ss) && i <= k < |ws| && id in ws[i].ctl.jobs && NeverRequeued(ws[k], id)
    ensures id in ws[k].ctl.jobs && NeverRequeued(ws[i], id)
    ensures StepsForward(ws, id, i, k) <==> NoneLate(ws, ss, id, i, k)
    ensures NoneLate(ws, ss, id, i, k) ==> Forward(ws[i].ctl.jobs[id], ws[k].ctl.jobs[id])
    decreases k
  {
    if i < k {
      StaysInStore(ws, ss, id, i, k - 1);
      RunStepForward(ws, ss, id, k - 1);
      RecordHistory(ws, ss, id, i, k - 1);
      OneMoreStep(ws, ss, id, i, k);
    }
  }

  lemma {:induction false} OneMoreStep(ws: seq<World>, ss: seq<Step>, id: JobId, i: nat, k: nat)
    requires |ws| == |ss| + 1 && i < k < |ws|
    ensures NoneLate(ws, ss, id, i, k) <==> NoneLate(ws, ss, id, i, k - 1) && !Late(ws[k - 1], ss[k - 1], id)
    ensures StepsForward(ws, id, i, k) <==> StepsForward(ws, id, i, k - 1) && StepForward(ws[k - 1], ws[k], id)
  {
  }

  /** A result held by the machine a written-off job was given to, which had taken
      up the job's one Launch. */
  ghost predicate OwnResult(w: World, s: Step, id: JobId, t: Status)
    requires id in w.ctl.jobs
  {
    var was := w.ctl.jobs[id];
    && s.HandleRequest? && s.n == was.node && was.reason == NodeLost
    && t in w.Agent(was.node).done && t.id == id && w.consumed[id] == 1
  }

  ghost predicate Corrects(w: World, s: Step, w': World, id: JobId) {
    && id in w.ctl.jobs && id in w'.ctl.jobs
    && exists t :: OwnResult(w, s, id, t) && w'.ctl.jobs[id] == Finished(w.ctl.jobs[id], t.state, t.code, Recovered)
  }

  lemma {:induction false} HandledCorrects(w: World, s: Step, w': World, id: JobId)
    requires OnceOk(w, id) && WireInv(w) && SeenInv(w, id) && Enabled(w, s) && s.HandleRequest? && w' == Next(w, s)
    requires id in w.ctl.jobs && w.ctl.jobs[id].state.Terminal() && NeverRequeued(w, id)
    requires id in w'.ctl.jobs && NeverRequeued(w', id) && w'.ctl.jobs[id] != w.ctl.jobs[id] && !Late(w, s, id)
    ensures Corrects(w, s, w', id)
  {
    assert WireOk(w, s.n) && SeenOk(w, s.n, id);
    HandledForwardIff(w, s.n, s.served, s.bad, id);
    var t :| t in w.Wire(s.n).hb.jobs && t.id == id && t.state.Terminal()
             && w'.ctl.jobs[id] == Finished(w.ctl.jobs[id], t.state, t.code, Recovered);
    assert t in w.Agent(s.n).done;
    assert OwnResult(w, s, id, t);
  }

  lemma {:induction false} LateCorrectsNothing(w: World, s: Step, w': World, id: JobId)
    requires OnceOk(w, id) && WireInv(w) && SeenInv(w, id) && Enabled(w, s) && w' == Next(w, s)
    requires id in w.ctl.jobs && w.ctl.jobs[id].state.Terminal() && NeverRequeued(w, id)
    requires id in w'.ctl.jobs && NeverRequeued(w', id) && Late(w, s, id)
    ensures !Corrects(w, s, w', id)
  {
    if s.HandleRequest? {
      assert WireOk(w, s.n) && SeenOk(w, s.n, id);
      WritesAtHome(w, s.n, s.served, s.bad, id);
      HandledLate(w, s.n, s.served, s.bad, id);
    }
  }

  lemma {:induction false} CorrectsIff(w: World, s: Step, w': World, id: JobId)
    requires OnceOk(w, id) && WireInv(w) && SeenInv(w, id) && Enabled(w, s) && w' == Next(w, s)
    requires id in w.ctl.jobs && w.ctl.jobs[id].state.Terminal() && NeverRequeued(w, id)
    requires id in w'.ctl.jobs && NeverRequeued(w', id) && w'.ctl.jobs[id] != w.ctl.jobs[id]
    ensures Corrects(w, s, w', id) <==> !Late(w, s, id)
  {
    if Late(w, s, id) {
      LateCorrectsNothing(w, s, w', id);
    } else {
      OnlyReportsRevise(w, s, id);
      HandledCorrects(w, s, w', id);
    }
  }

  /** In every run, when a record that is over changes without going back to the queue,
      then either its machine had been written off, and it becomes that machine's own
      result for it, or the write comes late. */
  lemma {:induction false} OnlyOwnResultCorrects(ws: seq<World>, ss: seq<Step>, i: nat, id: JobId)
    requires IsRun(ws, ss) && i < |ss| && id in ws[i].ctl.jobs && ws[i].ctl.jobs[id].state.Terminal()
    requires id in ws[i + 1].ctl.jobs && NeverRequeued(ws[i + 1], id) && ws[i + 1].ctl.jobs[id] != ws[i].ctl.jobs[id]
    ensures Corrects(ws[i], ss[i], ws[i + 1], id) <==> !Late(ws[i], ss[i], id)
  {
    OnceOverRuns(ws, ss, i, id);
    CoverageOverRuns(ws, ss, i);
    SeenOverRuns(ws, ss, i, id);
    StaysInStore(ws, ss, id, i, i + 1);
    assert Leads(ws, ss, i);
    CorrectsIff(ws[i], ss[i], ws[i + 1], id);
  }

  /** Of the steps that are not late, only the handling of a report changes what is over. */
  lemma {:induction false} OnlyReportsRevise(w: World, s: Step, id: JobId)
    requires Enabled(w, s) && id in w.ctl.jobs && w.ctl.jobs[id].state.Terminal() && !Late(w, s, id)
    requires id in Next(w, s).ctl.jobs && NeverRequeued(Next(w, s), id) && Next(w, s).ctl.jobs[id] != w.ctl.jobs[id]
    ensures s.HandleRequest?
  {
  }

  // ----- when a decision is carried out late -----

  predicate CancelsIt(s: Step, id: JobId) {
    s.CancelIt? && s.id == id && s.ok
  }

  /** A job that is waiting, or was cancelled while it waited, stays so until it is
      marked or cancelled. */
  lemma {:induction false} WaitingStep(w: World, s: Step, w': World, id: JobId)
    requires OnceOk(w, id) && WireInv(w) && SeenInv(w, id) && Enabled(w, s) && w' == Next(w, s) && NeverRequeued(w, id) && NeverRequeued(w', id)
    requires id in w.ctl.jobs && w.ctl.jobs[id].node == "" && w.ctl.jobs[id].state in {Pending, Cancelled}
    requires s.Mark? ==> s.id != id
    ensures id in w'.ctl.jobs && w'.ctl.jobs[id].node == ""
    ensures w'.ctl.jobs[id].state == if CancelsIt(s, id) then Cancelled else w.ctl.jobs[id].state
  {
    if s.HandleRequest? {
      assert WireOk(w, s.n) && SeenOk(w, s.n, id);
      HandledElsewhere(w, s.n, s.served, s.bad, id);
    } else if OfController(s) {
      WaitingUntouched(w, s, id);
    } else {
      MachineLeaves(w, s);
    }
  }

  lemma {:induction false} WaitingUntouched(w: World, s: Step, id: JobId)
    requires Enabled(w, s) && OfController(s) && (s.Mark? ==> s.id != id) && NeverRequeued(w, id) && NeverRequeued(ControllerNext(w, s), id)
    requires id in w.ctl.jobs && w.ctl.jobs[id].state in {Pending, Cancelled} && id !in w.halfway.lost
    ensures id in ControllerNext(w, s).ctl.jobs && ControllerNext(w, s).ctl.jobs[id].node == w.ctl.jobs[id].node
    ensures ControllerNext(w, s).ctl.jobs[id].state == if CancelsIt(s, id) then Cancelled else w.ctl.jobs[id].state
  {
  }

  ghost predicate InPass(w: World, id: JobId) { id in w.halfway.selected || id in w.halfway.planned }

  /** A job leaves a pass for good, until the next. */
  lemma {:induction false} OutOfPass(ws: seq<World>, ss: seq<Step>, id: JobId, j: nat, k: nat)
    requires IsRun(ws, ss) && j <= k < |ws| && !InPass(ws[j], id)
    requires forall m :: j <= m < k ==> !ss[m].Select?
    ensures !InPass(ws[k], id)
    decreases k
  {
    if j < k {
      OutOfPass(ws, ss, id, j, k - 1);
      RunPassStep(ws, ss, id, k - 1);
    }
  }

  lemma {:induction false} PassStep(w: World, s: Step, w': World, id: JobId)
    requires Enabled(w, s) && w' == Next(w, s)
    ensures !InPass(w, id) && !s.Select? ==> !InPass(w', id)
    ensures w.halfway.selected == {} || w.halfway.planned == map[] ==> w'.halfway.selected == {} || w'.halfway.planned == map[]
  {
    if OfController(s) {
      PassGoesOn(w, s, id);
    } else {
      HalfwayKept(w, s);
    }
  }

  lemma {:induction false} PassGoesOn(w: World, s: Step, id: JobId)
    requires Enabled(w, s) && OfController(s)
    ensures var h' := ControllerNext(w, s).halfway;
            && (!InPass(w, id) && !s.Select? ==> id !in h'.selected && id !in h'.planned)
            && (w.halfway.selected == {} || w.halfway.planned == map[] ==> h'.selected == {} || h'.planned == map[])
  {
  }

  lemma {:induction false} HalfwayKept(w: World, s: Step)
    requires Enabled(w, s) && !OfController(s)
    ensures SamePass(w.halfway, MachineNext(w, s).halfway)
  {
  }

  lemma {:induction false} RunPassStep(ws: seq<World>, ss: seq<Step>, id: JobId, k: nat)
    requires IsRun(ws, ss) && k < |ss|
    ensures !InPass(ws[k], id) && !ss[k].Select? ==> !InPass(ws[k + 1], id)
    ensures ws[k].halfway.selected == {} || ws[k].halfway.planned == map[] ==> ws[k + 1].halfway.selected == {} || ws[k + 1].halfway.planned == map[]
  {
    assert Leads(ws, ss, k);
    PassStep(ws[k], ss[k], ws[k + 1], id);
  }

  lemma {:induction false} OnePass(ws: seq<World>, ss: seq<Step>, k: nat)
    requires IsRun(ws, ss) && k < |ws|
    ensures ws[k].halfway.selected == {} || ws[k].halfway.planned == map[]
  {
    if k > 0 {
      OnePass(ws, ss, k - 1);
      RunPassStep(ws, ss, 0, k - 1);
    }
  }

  lemma {:induction false} MarkedLeavesPass(w: World, s: Step, w': World, id: JobId)
    requires Enabled(w, s) && w' == Next(w, s) && (w.halfway.selected == {} || w.halfway.planned == map[]) && InPass(w', id)
    ensures s.Mark? ==> s.id != id
  {
  }

  lemma {:induction false} StillInPass(ws: seq<World>, ss: seq<Step>, id: JobId, j: nat, k: nat)
    requires IsRun(ws, ss) && j <= k < |ws| && InPass(ws[k], id)
    requires forall m :: j <= m < k ==> !ss[m].Select?
    ensures InPass(ws[j], id)
  {
    if !InPass(ws[j], id) {
      OutOfPass(ws, ss, id, j, k);
    }
  }

  /** A job that is still to be marked was not marked by the step before. */
  lemma {:induction false} NotYetMarked(ws: seq<World>, ss: seq<Step>, id: JobId, j: nat, k: nat)
    requires IsRun(ws, ss) && 0 < j <= k < |ss| && ss[k] == Mark(id, true)
    requires forall m :: j <= m < k ==> !ss[m].Select?
    ensures ss[j - 1].Mark? ==> ss[j - 1].id != id
  {
    assert Leads(ws, ss, k);
    StillInPass(ws, ss, id, j, k);
    OnePass(ws, ss, j - 1);
    assert Leads(ws, ss, j - 1);
    MarkedLeavesPass(ws[j - 1], ss[j - 1], ws[j], id);
  }

  lemma {:induction false} JustSelected(w: World, s: Step, w': World, id: JobId)
    requires OnceOk(w, id) && NeverRequeued(w, id) && Enabled(w, s) && w' == Next(w, s) && s.Select? && id in s.ids
    ensures id in w'.ctl.jobs && w'.ctl.jobs[id].node == "" && w'.ctl.jobs[id].state == Pending
  {
  }

  ghost predicate CancelledBetween(ss: seq<Step>, id: JobId, i: nat, k: nat)
    requires k <= |ss|
  {
    exists j :: i < j < k && CancelsIt(ss[j], id)
  }

  lemma {:induction false} WaitsUntilMarked(ws: seq<World>, ss: seq<Step>, id: JobId, i: nat, j: nat, k: nat)
    requires IsRun(ws, ss) && i < j <= k < |ss| && ss[i].Select? && id in ss[i].ids && ss[k] == Mark(id, true)
    requires forall m :: i < m < k ==> !ss[m].Select?
    requires NeverRequeued(ws[k], id)
    ensures id in ws[j].ctl.jobs && ws[j].ctl.jobs[id].node == ""
    ensures ws[j].ctl.jobs[id].state == if CancelledBetween(ss, id, i, j) then Cancelled else Pending
    decreases j
  {
    var w, s, w' := ws[j - 1], ss[j - 1], ws[j];
    OnceOverRuns(ws, ss, j - 1, id);
    CoverageOverRuns(ws, ss, j - 1);
    SeenOverRuns(ws, ss, j - 1, id);
    if j == i + 1 {
      assert Leads(ws, ss, i);
      StaysInStore(ws, ss, id, i, k);
      JustSelected(w, s, w', id);
    } else {
      WaitsUntilMarked(ws, ss, id, i, j - 1, k);
      StaysInStore(ws, ss, id, j - 1, j);
      StaysInStore(ws, ss, id, j, k);
      NotYetMarked(ws, ss, id, j, k);
      assert Leads(ws, ss, j - 1);
      WaitingStep(w, s, w', id);
      assert CancelledBetween(ss, id, i, j) <==> CancelledBetween(ss, id, i, j - 1) || CancelsIt(ss[j - 1], id);
    }
  }

  /** A decision is carried out late if and only if the job was cancelled between its
      selection and its marking. */
  lemma {:induction false} MarkedLateIff(ws: seq<World>, ss: seq<Step>, id: JobId, i: nat, k: nat)
    requires IsRun(ws, ss) && i < k < |ss| && ss[i].Select? && id in ss[i].ids && ss[k] == Mark(id, true)
    requires forall m :: i < m < k ==> !ss[m].Select?
    requires NeverRequeued(ws[k], id)
    ensures Late(ws[k], ss[k], id) <==> CancelledBetween(ss, id, i, k)
  {
    WaitsUntilMarked(ws, ss, id, i, k, k);
  }

  // ----- when a job that is over goes back to the queue -----

  /** The first terminal report of a job is a refusal, and is served in full. */
  ghost predicate FirstRefused(reports: seq<Status>, served: seq<Access>, id: JobId)
    requires |served| == |reports|
  {
    exists i :: 0 <= i < |reports| && reports[i].id == id && reports[i].state.Terminal() && id !in Ended(reports[..i])
                && served[i] == Fine && reports[i].refused
  }

  lemma {:induction false} RefusedOrLater(reports: seq<Status>, served: seq<Access>, id: JobId)
    requires |served| == |reports| && reports != []
    ensures var k := |reports| - 1;
            FirstRefused(reports, served, id) <==>
              || FirstRefused(reports[..k], served[..k], id)
              || (id !in Ended(reports[..k]) && reports[k].id == id && reports[k].state.Terminal() && served[k] == Fine && reports[k].refused)
    ensures var k := |reports| - 1; FirstRefused(reports[..k], served[..k], id) ==> id in Ended(reports[..k])
  {
    var k := |reports| - 1;
    assert forall i :: 0 <= i < k ==> reports[..k][i] == reports[i] && served[..k][i] == served[i] && reports[..k][..i] == reports[..i];
  }

  lemma {:induction false} ReportsGoBackIff(jobs: map<JobId, Job>, seen: map<JobId, Job>, n: NodeName, reports: seq<Status>, served: seq<Access>, id: JobId)
    requires |served| == |reports| && id in jobs && jobs[id].state.Terminal()
    ensures var after := ApplyReports(jobs, seen, n, reports, served).0[id];
            && (after.requeues > jobs[id].requeues <==> !Seen(jobs, seen, id).state.Terminal() && FirstRefused(reports, served, id))
            && (after.requeues == jobs[id].requeues ==> after.state.Terminal())
  {
    if reports != [] {
      var k := |reports| - 1;
      var before, rest := ApplyReports(jobs, seen, n, reports[..k], served[..k]).0, seen - Ended(reports[..k]);
      ReportsGoBackIff(jobs, seen, n, reports[..k], served[..k], id);
      ReportsReason(jobs, seen, n, reports[..k], served[..k], id);
      RefusedOrLater(reports, served, id);
      if id !in Ended(reports[..k]) {
        ReportsFrame(jobs, seen, n, reports[..k], served[..k], id);
      }
      OneReport(before, rest, n, reports[k], served[k], id);
    }
  }

  /** A user asks for it; or it is to be re-run, or was refused, and it was not over when
      the sweep listed it, or a machine's request read it. */
  ghost predicate SendsBack(w: World, s: Step, id: JobId)
    requires id in w.ctl.jobs
  {
    match s
    case UserRequeue(m, ok) => m == id && ok
    case GiveUp(m, ok) => m == id && ok && w.ctl.jobs[id].requeue
    case HandleRequest(n, served, bad) =>
      && id in w.SeenFor(n) && !w.SeenFor(n)[id].state.Terminal()
      && w.Wire(n).Request? && |served| == |w.Wire(n).hb.jobs| && n !in w.ctl.forgotten
      && (FirstRefused(w.Wire(n).hb.jobs, served, id)
          || (w.ctl.jobs[id].requeue && id !in bad && Reclaims(w.ctl, w.Wire(n).hb, w.clock)
              && Unclaimed(w.SeenFor(n)[id], id, n, Answerable(w.Wire(n).hb), w.clock)))
    case _ => false
  }

  lemma {:induction false} HandledGoesBackIff(w: World, n: NodeName, served: seq<Access>, bad: set<JobId>, id: JobId)
    requires Enabled(w, HandleRequest(n, served, bad)) && WireOk(w, n)
    requires id in w.ctl.jobs && w.ctl.jobs[id].state.Terminal()
    ensures id in Handled(w, n, served, bad).ctl.jobs
    ensures Handled(w, n, served, bad).ctl.jobs[id].requeues > w.ctl.jobs[id].requeues <==> SendsBack(w, HandleRequest(n, served, bad), id)
  {
    var hb := w.Wire(n).hb;
    if n !in w.ctl.forgotten {
      ReportsGoBackIff(w.ctl.jobs, w.SeenFor(n), n, hb.jobs, served, id);
      if FirstRefused(hb.jobs, served, id) { assert id in Answerable(hb); }
      if id !in Answerable(hb) {
        ReportsFrame(w.ctl.jobs, w.SeenFor(n), n, hb.jobs, served, id);
      }
    }
  }

  /** In every run: a job that is over goes back to the queue if and only if a user asks
      for it, or a write based on what it was before sends it there. */
  lemma {:induction false} OverGoesBackIff(ws: seq<World>, ss: seq<Step>, i: nat, id: JobId)
    requires IsRun(ws, ss) && i < |ss| && id in ws[i].ctl.jobs && ws[i].ctl.jobs[id].state.Terminal()
    ensures id in ws[i + 1].ctl.jobs
    ensures ws[i + 1].ctl.jobs[id].requeues > ws[i].ctl.jobs[id].requeues <==> SendsBack(ws[i], ss[i], id)
  {
    CoverageOverRuns(ws, ss, i);
    assert Leads(ws, ss, i);
    if ss[i].HandleRequest? {
      assert WireOk(ws[i], ss[i].n);
      HandledGoesBackIff(ws[i], ss[i].n, ss[i].served, ss[i].bad, id);
    } else {
      UnhandledGoesBackIff(ws[i], ss[i], id);
    }
  }

  lemma {:induction false} UnhandledGoesBackIff(w: World, s: Step, id: JobId)
    requires Enabled(w, s) && !s.HandleRequest? && id in w.ctl.jobs
    ensures id in Next(w, s).ctl.jobs
    ensures Next(w, s).ctl.jobs[id].requeues > w.ctl.jobs[id].requeues <==> SendsBack(w, s, id)
  {
  }
}
