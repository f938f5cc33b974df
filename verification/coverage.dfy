/** Coverage: a job recorded as running is always somewhere its result can come
    from, or its loss is known, and a known loss is acted on. */
module Coverage {
  import opened Protocol
  import opened Control
  import opened Agents
  import opened Cluster

  // ----- what one handled heartbeat does to a record -----

  /** A record still running after the reports is the record it was. */
  lemma {:induction false} ReportsKeepRunning(jobs: map<JobId, Job>, seen: map<JobId, Job>, n: NodeName, reports: seq<Status>, served: seq<Access>, id: JobId)
    requires |served| == |reports| && id in jobs
    ensures var after := ApplyReports(jobs, seen, n, reports, served).0;
            after[id].state == Running ==> after[id] == jobs[id]
  {
    if reports != [] {
      var k := |reports| - 1;
      ReportsKeepRunning(jobs, seen, n, reports[..k], served[..k], id);
    }
  }

  /** A record no terminal report names is left alone. */
  lemma {:induction false} ReportsFrame(jobs: map<JobId, Job>, seen: map<JobId, Job>, n: NodeName, reports: seq<Status>, served: seq<Access>, id: JobId)
    requires |served| == |reports| && id in jobs
    requires forall s :: s in reports && s.id == id ==> !s.state.Terminal()
    ensures ApplyReports(jobs, seen, n, reports, served).0[id] == jobs[id]
  {
    if reports != [] {
      var k := |reports| - 1;
      assert reports[k] in reports;
      ReportsFrame(jobs, seen, n, reports[..k], served[..k], id);
    }
  }

  /** A job's result is settled: the job is over, or was when it was looked up, is back in
      the queue because the machine refused it, or is not in the store. */
  ghost predicate Settled(was: map<JobId, Job>, seen: map<JobId, Job>, now: map<JobId, Job>, reports: seq<Status>, id: JobId) {
    id in was && id in now ==>
      || now[id].state.Terminal()
      || (id in seen && seen[id].state.Terminal())
      || (now[id].state == Pending && now[id].requeues > was[id].requeues
          && exists s :: s in reports && s.id == id && s.refused)
  }

  /** No terminal report of the job was both looked up and written. */
  ghost predicate NoneRecorded(reports: seq<Status>, served: seq<Access>, id: JobId)
    requires |served| == |reports|
  {
    forall i :: 0 <= i < |reports| && reports[i].id == id && reports[i].state.Terminal() ==> served[i] != Fine
  }

  /** Not over, neither when it was looked up nor now. */
  predicate Undecided(jobs: map<JobId, Job>, seen: map<JobId, Job>, id: JobId)
    requires id in jobs
  {
    !jobs[id].state.Terminal() && !Seen(jobs, seen, id).state.Terminal()
  }

  lemma {:induction false} NothingRecorded(jobs: map<JobId, Job>, seen: map<JobId, Job>, n: NodeName, reports: seq<Status>, served: seq<Access>, id: JobId)
    requires |served| == |reports| && id in jobs && Undecided(jobs, seen, id) && NoneRecorded(reports, served, id)
    ensures ApplyReports(jobs, seen, n, reports, served).0[id] == jobs[id]
  {
    if reports != [] {
      var k := |reports| - 1;
      assert NoneRecorded(reports[..k], served[..k], id);
      NothingRecorded(jobs, seen, n, reports[..k], served[..k], id);
    }
  }

  /** A heartbeat's reports settle a job exactly when it was over already or one of its
      terminal reports is served in full. */
  lemma {:induction false} SettledIff(jobs: map<JobId, Job>, seen: map<JobId, Job>, n: NodeName, reports: seq<Status>, served: seq<Access>, id: JobId)
    requires |served| == |reports| && id in jobs
    ensures Settled(jobs, seen, ApplyReports(jobs, seen, n, reports, served).0, reports, id)
       <==> !Undecided(jobs, seen, id) || !NoneRecorded(reports, served, id)
  {
    if Undecided(jobs, seen, id) && NoneRecorded(reports, served, id) {
      NothingRecorded(jobs, seen, n, reports, served, id);
    } else if reports != [] {
      var k := |reports| - 1;
      SettledIff(jobs, seen, n, reports[..k], served[..k], id);
      SettledGrows(jobs, seen, n, reports, served, id);
    }
  }

  lemma {:induction false} RequeuesGrow(jobs: map<JobId, Job>, seen: map<JobId, Job>, n: NodeName, reports: seq<Status>, served: seq<Access>, id: JobId)
    requires |served| == |reports| && id in jobs
    ensures jobs[id].requeues <= ApplyReports(jobs, seen, n, reports, served).0[id].requeues
  {
    if reports != [] {
      var k := |reports| - 1;
      RequeuesGrow(jobs, seen, n, reports[..k], served[..k], id);
    }
  }

  lemma {:induction false} SettledGrows(jobs: map<JobId, Job>, seen: map<JobId, Job>, n: NodeName, reports: seq<Status>, served: seq<Access>, id: JobId)
    requires |served| == |reports| && id in jobs && reports != []
    requires var k := |reports| - 1;
             || Settled(jobs, seen, ApplyReports(jobs, seen, n, reports[..k], served[..k]).0, reports[..k], id)
             || (Undecided(jobs, seen, id) && NoneRecorded(reports[..k], served[..k], id)
                 && reports[k].id == id && reports[k].state.Terminal() && served[k] == Fine)
    ensures Settled(jobs, seen, ApplyReports(jobs, seen, n, reports, served).0, reports, id)
  {
    var k := |reports| - 1;
    assert reports[k] in reports;
    RequeuesGrow(jobs, seen, n, reports[..k], served[..k], id);
    if Undecided(jobs, seen, id) && NoneRecorded(reports[..k], served[..k], id) {
      NothingRecorded(jobs, seen, n, reports[..k], served[..k], id);
    }
  }

  /** What is acknowledged was reported as over. */
  lemma {:induction false} AckedAreReported(jobs: map<JobId, Job>, seen: map<JobId, Job>, n: NodeName, reports: seq<Status>, served: seq<Access>, id: JobId)
    requires |served| == |reports|
    requires id in ApplyReports(jobs, seen, n, reports, served).1
    ensures exists s :: s in reports && s.id == id && s.state.Terminal()
  {
    var k := |reports| - 1;
    assert reports[k] in reports;
    if id in ApplyReports(jobs, seen, n, reports[..k], served[..k]).1 {
      AckedAreReported(jobs, seen, n, reports[..k], served[..k], id);
    }
  }

  // ----- the invariant -----

  ghost predicate Covered(w: World, id: JobId, n: NodeName) {
    || Launch(id) in w.Queue(n)
    || Launch(id) in InTransit(w.Wire(n))
    || id in w.Agent(n).run
    || id in Ids(w.Agent(n).done)
    || (id, n) in w.lost
  }

  /** An acknowledgement on its way may not be what covers a running job. */
  ghost predicate AckSafe(w: World, id: JobId, n: NodeName) {
    w.Wire(n).Reply? && id in w.Wire(n).resp.acked ==> Launch(id) in w.Queue(n) || (id, n) in w.lost
  }

  ghost predicate RunningOn(w: World, id: JobId, n: NodeName) {
    id in w.ctl.jobs && w.ctl.jobs[id].state == Running && w.ctl.jobs[id].node == n
  }

  ghost predicate CoverageInv(w: World) {
    forall id, n :: RunningOn(w, id, n) ==> Covered(w, id, n) && AckSafe(w, id, n)
  }

  lemma {:induction false} HandledCoverage(w: World, m: NodeName, served: seq<Access>, bad: set<JobId>, id: JobId, n: NodeName)
    requires CoverageInv(w) && Enabled(w, HandleRequest(m, served, bad))
    requires RunningOn(Handled(w, m, served, bad), id, n)
    requires w.Wire(m).hb.node == m
    ensures Covered(Handled(w, m, served, bad), id, n) && AckSafe(Handled(w, m, served, bad), id, n)
  {
    var hb := w.Wire(m).hb;
    if m !in w.ctl.forgotten {
      ReportsKeepRunning(w.ctl.jobs, w.SeenFor(m), m, hb.jobs, served, id);
    }
    assert RunningOn(w, id, n);
  }

  lemma {:induction false} DeliveredCoverage(w: World, m: NodeName, id: JobId, n: NodeName)
    requires CoverageInv(w) && Enabled(w, Deliver(m)) && RunningOn(w, id, n)
    ensures Covered(Delivered(w, m), id, n) && AckSafe(Delivered(w, m), id, n)
  {
  }

  lemma {:induction false} ActedCoverage(w: World, m: NodeName, fate: Fate, order: seq<JobId>, id: JobId, n: NodeName)
    requires CoverageInv(w) && Enabled(w, Act(m, fate, order)) && RunningOn(w, id, n)
    ensures Covered(Acted(w, m, fate, order), id, n) && AckSafe(Acted(w, m, fate, order), id, n)
  {
    if n != m {
      OthersActCoverage(w, m, fate, order, id, n);
    } else if w.Wire(m).actions != [] {
      OwnActCoverage(w, fate, order, id, n);
    }
  }

  lemma {:induction false} OthersActCoverage(w: World, m: NodeName, fate: Fate, order: seq<JobId>, id: JobId, n: NodeName)
    requires Covered(w, id, n) && AckSafe(w, id, n) && Enabled(w, Act(m, fate, order)) && n != m
    ensures Covered(Acted(w, m, fate, order), id, n) && AckSafe(Acted(w, m, fate, order), id, n)
  {
  }

  lemma {:induction false} OwnActCoverage(w: World, fate: Fate, order: seq<JobId>, id: JobId, n: NodeName)
    requires Covered(w, id, n) && AckSafe(w, id, n) && Enabled(w, Act(n, fate, order)) && w.Wire(n).actions != [] && RunningOn(w, id, n)
    ensures Covered(Acted(w, n, fate, order), id, n) && AckSafe(Acted(w, n, fate, order), id, n)
  {
  }

  lemma {:induction false} RestartedCoverage(w: World, m: NodeName, id: JobId, n: NodeName)
    requires CoverageInv(w) && RunningOn(w, id, n)
    ensures Covered(Restarted(w, m), id, n) && AckSafe(Restarted(w, m), id, n)
  {
  }

  /** A step that leaves the machine alone, and drops its Launch only on the record. */
  lemma {:induction false} QuietCoverage(w: World, w': World, id: JobId, n: NodeName)
    requires Covered(w, id, n) && AckSafe(w, id, n)
    requires w'.agents == w.agents && w'.wires == w.wires
    requires Launch(id) in w.Queue(n) ==> Launch(id) in w'.Queue(n) || (id, n) in w'.lost
    requires (id, n) in w.lost ==> (id, n) in w'.lost
    ensures Covered(w', id, n) && AckSafe(w', id, n)
  {
  }

  lemma {:induction false} MarkedCoverage(w: World, p: JobId, ok: bool, id: JobId, n: NodeName)
    requires CoverageInv(w) && Enabled(w, Mark(p, ok)) && RunningOn(Marked(w, p, ok), id, n)
    ensures Covered(Marked(w, p, ok), id, n) && AckSafe(Marked(w, p, ok), id, n)
  {
    if ok && p == id {
      assert Launch(id) in Marked(w, p, ok).Queue(n);
    } else {
      assert RunningOn(w, id, n);
      QuietCoverage(w, Marked(w, p, ok), id, n);
    }
  }

  lemma {:induction false} RunningBefore(w: World, s: Step, id: JobId, n: NodeName)
    requires Enabled(w, s) && OfController(s) && !s.Mark? && RunningOn(ControllerNext(w, s), id, n)
    ensures RunningOn(w, id, n)
    ensures !(s.Remove? && s.n == n) || ControllerNext(w, s) == w
  {
  }

  /** Sweeping, removing a machine and restarting drop queues; nothing else does. */
  lemma {:induction false} LaunchStays(w: World, s: Step, id: JobId, n: NodeName)
    requires Enabled(w, s) && OfController(s) && !s.Mark? && Launch(id) in w.Queue(n)
    requires !s.DropQueue? && !s.ControllerRestart? && (s.Remove? && s.n == n ==> ControllerNext(w, s) == w)
    ensures Launch(id) in ControllerNext(w, s).Queue(n)
  {
  }

  lemma {:induction false} ControllerLeaves(w: World, s: Step, l: (JobId, NodeName))
    requires Enabled(w, s) && OfController(s)
    ensures ControllerNext(w, s).agents == w.agents && ControllerNext(w, s).wires == w.wires
    ensures l in w.lost && !s.Mark? ==> l in ControllerNext(w, s).lost
  {
  }

  lemma {:induction false} SweptCoverage(w: World, s: Step, id: JobId, n: NodeName)
    requires Enabled(w, s) && (s.DropQueue? || s.ControllerRestart?) && Launch(id) in w.Queue(n)
    ensures Launch(id) in ControllerNext(w, s).Queue(n) || (id, n) in ControllerNext(w, s).lost
  {
  }

  lemma {:induction false} ControllerCoverage(w: World, s: Step, w': World, id: JobId, n: NodeName)
    requires CoverageInv(w) && Enabled(w, s) && OfController(s) && !s.Mark? && w' == Next(w, s) && RunningOn(w', id, n)
    ensures Covered(w', id, n) && AckSafe(w', id, n)
  {
    RunningBefore(w, s, id, n);
    if Launch(id) in w.Queue(n) {
      if s.DropQueue? || s.ControllerRestart? {
        SweptCoverage(w, s, id, n);
      } else {
        LaunchStays(w, s, id, n);
      }
    }
    ControllerLeaves(w, s, (id, n));
    QuietCoverage(w, w', id, n);
  }

  lemma {:induction false} MachineCoverage(w: World, s: Step, id: JobId, n: NodeName)
    requires CoverageInv(w) && Enabled(w, s) && !OfController(s) && RunningOn(MachineNext(w, s), id, n)
    requires s.HandleRequest? ==> w.Wire(s.n).hb.node == s.n
    ensures Covered(MachineNext(w, s), id, n) && AckSafe(MachineNext(w, s), id, n)
  {
    match s
    case HandleRequest(m, served, bad) => HandledCoverage(w, m, served, bad, id, n);
    case Deliver(m) => DeliveredCoverage(w, m, id, n);
    case Act(m, fate, order) => ActedCoverage(w, m, fate, order, id, n);
    case AgentRestart(m) => RestartedCoverage(w, m, id, n);
    case Snap(_, _, _) => assert RunningOn(w, id, n);
    case Drop(m) => DroppedCoverage(w, m, id, n);
    case Exit(m, e, state, code) => ExitCoverage(w, m, e, state, code, id, n);
  }

  lemma {:induction false} CoverageStep(w: World, s: Step, id: JobId, n: NodeName)
    requires CoverageInv(w) && Enabled(w, s) && RunningOn(Next(w, s), id, n)
    requires s.HandleRequest? ==> w.Wire(s.n).hb.node == s.n
    ensures Covered(Next(w, s), id, n) && AckSafe(Next(w, s), id, n)
  {
    if !OfController(s) {
      MachineCoverage(w, s, id, n);
    } else if s.Mark? {
      MarkedCoverage(w, s.id, s.ok, id, n);
    } else {
      ControllerCoverage(w, s, Next(w, s), id, n);
    }
  }

  lemma {:induction false} DroppedCoverage(w: World, m: NodeName, id: JobId, n: NodeName)
    requires CoverageInv(w) && Enabled(w, Drop(m)) && RunningOn(w, id, n)
    ensures Covered(MachineNext(w, Drop(m)), id, n) && AckSafe(MachineNext(w, Drop(m)), id, n)
  {
  }

  lemma {:induction false} ExitCoverage(w: World, m: NodeName, e: JobId, state: JobState, code: int, id: JobId, n: NodeName)
    requires CoverageInv(w) && Enabled(w, Exit(m, e, state, code)) && RunningOn(w, id, n)
    ensures Covered(MachineNext(w, Exit(m, e, state, code)), id, n) && AckSafe(MachineNext(w, Exit(m, e, state, code)), id, n)
  {
  }

  // ----- what a message in transit says about the agent that sent it -----

  ghost predicate WireOk(w: World, n: NodeName) {
    var a := w.Agent(n);
    && (forall s :: s in a.done ==> s.state.Terminal())
    && (w.Wire(n) != Idle ==> n != "")
    && match w.Wire(n)
       case Request(hb) =>
         && hb.node == n
         && (forall s :: s in hb.jobs && s.state.Terminal() ==> s in a.done)
         && (hb.claimsOK ==> SetOf(hb.claimed) == Ids(hb.jobs) == a.run + Ids(a.done))
       case Reply(resp) =>
         && (forall id :: id in resp.acked ==> id in Ids(a.done))
         && (!resp.known ==> resp.acked == [])
       case _ => true
  }

  ghost predicate WireInv(w: World) {
    forall n :: WireOk(w, n)
  }

  lemma {:induction false} SnapshotOk(a: AgentState, n: NodeName, order: seq<JobId>, owner: OwnerAction, claimsOK: bool)
    requires IsOrder(order, a.run) && forall s :: s in a.done ==> s.state.Terminal()
    ensures var hb := Snapshot(a, n, order, owner, claimsOK);
            && (forall s :: s in hb.jobs && s.state.Terminal() ==> s in a.done)
            && (claimsOK ==> SetOf(hb.claimed) == Ids(hb.jobs) == a.run + Ids(a.done))
  {
    var hb := Snapshot(a, n, order, owner, claimsOK);
    assert forall s :: s in hb.jobs <==> s in StillRunning(order) || s in a.done;
    if claimsOK {
      assert SetOf(hb.claimed) == SetOf(order) + SetOf(IdSeq(a.done));
      forall id ensures id in Ids(hb.jobs) <==> id in a.run + Ids(a.done) {
        if id in a.run {
          assert Status(id, Running, 0, false) in StillRunning(order);
        }
      }
    }
  }

  lemma {:induction false} ReportedIds(a: AgentState, id: JobId, state: JobState, code: int)
    requires id in a.run
    ensures var b := Reported(a, id, state, code);
            && b.run + Ids(b.done) == a.run + Ids(a.done)
            && Ids(a.done) <= Ids(b.done)
            && forall s :: s in b.done <==> s in a.done || s == Status(id, state, code, false)
  {
  }

  lemma {:induction false} HandledWire(w: World, m: NodeName, served: seq<Access>, bad: set<JobId>)
    requires WireInv(w) && Enabled(w, HandleRequest(m, served, bad))
    ensures WireOk(Handled(w, m, served, bad), m)
  {
    var hb := w.Wire(m).hb;
    assert WireOk(w, m);
    if m !in w.ctl.forgotten {
      var acked := ApplyReports(w.ctl.jobs, w.SeenFor(m), m, hb.jobs, served).1;
      forall id | id in acked ensures id in Ids(w.Agent(m).done) {
        AckedAreReported(w.ctl.jobs, w.SeenFor(m), m, hb.jobs, served, id);
      }
    }
  }

  lemma {:induction false} PerformWire(w: World, m: NodeName, fate: Fate, order: seq<JobId>)
    requires WireOk(w, m) && Enabled(w, Act(m, fate, order))
    ensures WireOk(Acted(w, m, fate, order), m)
  {
  }

  lemma {:induction false} DeliveredWire(w: World, m: NodeName)
    requires WireOk(w, m) && Enabled(w, Deliver(m))
    ensures WireOk(Delivered(w, m), m)
  {
  }

  lemma {:induction false} WireUntouched(w: World, w': World, n: NodeName)
    requires WireOk(w, n) && w'.Agent(n) == w.Agent(n) && (w'.Wire(n) == w.Wire(n) || w'.Wire(n) == Idle)
    ensures WireOk(w', n)
  {
  }

  lemma {:induction false} ExitWire(w: World, n: NodeName, id: JobId, state: JobState, code: int)
    requires WireOk(w, n) && Enabled(w, Exit(n, id, state, code))
    ensures WireOk(Next(w, Exit(n, id, state, code)), n)
  {
  }

  /** A step is of one machine, or of the controller alone. */
  predicate OfMachine(s: Step, n: NodeName) {
    match s
    case HandleRequest(m, _, _) => m == n
    case Snap(m, _, _) => m == n
    case Act(m, _, _) => m == n
    case Deliver(m) => m == n
    case Exit(m, _, _, _) => m == n
    case AgentRestart(m) => m == n
    case _ => false
  }

  lemma {:induction false} OtherMachines(w: World, s: Step, n: NodeName)
    requires Enabled(w, s) && !OfMachine(s, n)
    ensures Next(w, s).Agent(n) == w.Agent(n) && (Next(w, s).Wire(n) == w.Wire(n) || Next(w, s).Wire(n) == Idle)
  {
    if OfController(s) {
      ControllerLeaves(w, s, (0, n));
    } else {
      OtherMachineNext(w, s, n);
    }
  }

  lemma {:induction false} OtherMachineNext(w: World, s: Step, n: NodeName)
    requires Enabled(w, s) && !OfController(s) && !OfMachine(s, n)
    ensures var w' := MachineNext(w, s); w'.Agent(n) == w.Agent(n) && (w'.Wire(n) == w.Wire(n) || w'.Wire(n) == Idle)
  {
  }

  lemma {:induction false} OwnWire(w: World, s: Step, n: NodeName)
    requires WireInv(w) && Enabled(w, s) && OfMachine(s, n)
    ensures WireOk(Next(w, s), n)
  {
    assert WireOk(w, n);
    match s
    case HandleRequest(_, served, bad) => HandledWire(w, n, served, bad);
    case Snap(_, order, owner) => SnapshotOk(w.Agent(n), n, order, owner, true);
    case Act(_, fate, order) => PerformWire(w, n, fate, order);
    case Deliver(_) => DeliveredWire(w, n);
    case Exit(_, id, state, code) => ExitWire(w, n, id, state, code);
    case AgentRestart(_) =>
  }

  lemma {:induction false} WireStep(w: World, s: Step, n: NodeName)
    requires WireInv(w) && Enabled(w, s)
    ensures WireOk(Next(w, s), n)
  {
    assert WireOk(w, n);
    if OfMachine(s, n) {
      OwnWire(w, s, n);
    } else {
      OtherMachines(w, s, n);
      WireUntouched(w, Next(w, s), n);
    }
  }

  // ----- whole runs -----

  /** In every world of every run, a job recorded as running on a machine has its
      Launch queued for it or on its way to it, or is run or remembered by its
      agent, or its placement is among the recorded losses. */
  lemma {:induction false} CoverageOverRuns(ws: seq<World>, ss: seq<Step>, i: nat)
    requires IsRun(ws, ss) && i < |ws|
    ensures CoverageInv(ws[i]) && WireInv(ws[i])
  {
    if i > 0 {
      var w, s := ws[i - 1], ss[i - 1];
      CoverageOverRuns(ws, ss, i - 1);
      assert Leads(ws, ss, i - 1);
      forall n ensures WireOk(ws[i], n) {
        WireStep(w, s, n);
      }
      assert s.HandleRequest? ==> WireOk(w, s.n);
      forall id, n | RunningOn(ws[i], id, n) ensures Covered(ws[i], id, n) && AckSafe(ws[i], id, n) {
        CoverageStep(w, s, id, n);
      }
    }
  }

  // ----- losses are acted on -----

  ghost predicate AllFine(served: seq<Access>) {
    forall i :: 0 <= i < |served| ==> served[i] == Fine
  }

  /** The job was over when it was looked up, and not because this machine was lost. */
  predicate FoundOver(seen: map<JobId, Job>, n: NodeName, id: JobId) {
    id in seen && seen[id].state.Terminal() && !(seen[id].node == n && seen[id].reason == NodeLost)
  }

  ghost predicate ReportedOnce(reports: seq<Status>, id: JobId) {
    forall i, j :: 0 <= i < j < |reports| && reports[i].id == reports[j].id == id ==> !(reports[i].state.Terminal() && reports[j].state.Terminal())
  }

  /** One report, served in full, leaves a job running that it is not about, or finds over. */
  lemma {:induction false} StaysRunning(jobs: map<JobId, Job>, seen: map<JobId, Job>, n: NodeName, s: Status, id: JobId)
    requires id in jobs
    ensures var read := Seen(jobs, seen, id);
            (ApplyReport(jobs, seen, n, s, Fine).0[id].state == Running
             <==> && jobs[id].state == Running
                  && !(s.id == id && s.state.Terminal() && (!read.state.Terminal() || (read.node == n && read.reason == NodeLost))))
  {
  }

  /** A terminal report the store accepts ends the record's running state -- unless, and
      only unless, the job was over when it was looked up, has been started again since,
      and nothing else in the heartbeat reports it. */
  lemma {:induction false} TerminalLands(jobs: map<JobId, Job>, seen: map<JobId, Job>, n: NodeName, reports: seq<Status>, served: seq<Access>, id: JobId)
    requires |served| == |reports| && AllFine(served)
    requires id in Ended(reports) && id in jobs
    ensures ApplyReports(jobs, seen, n, reports, served).0[id].state == Running
       <==> jobs[id].state == Running && FoundOver(seen, n, id) && ReportedOnce(reports, id)
  {
    var k := |reports| - 1;
    var before, rest := ApplyReports(jobs, seen, n, reports[..k], served[..k]).0, seen - Ended(reports[..k]);
    EndedMore(reports);
    StaysRunning(before, rest, n, reports[k], id);
    ReportsKeepRunning(jobs, seen, n, reports[..k], served[..k], id);
    if id in Ended(reports[..k]) {
      TerminalLands(jobs, seen, n, reports[..k], served[..k], id);
      OnceBefore(reports, id);
    } else {
      ReportsFrame(jobs, seen, n, reports[..k], served[..k], id);
      FirstIsOnce(reports, id);
    }
  }

  lemma {:induction false} EndedMore(reports: seq<Status>)
    requires reports != []
    ensures var k := |reports| - 1;
            Ended(reports) == Ended(reports[..k]) + (if reports[k].state.Terminal() then {reports[k].id} else {})
  {
    var k := |reports| - 1;
    assert reports == reports[..k] + [reports[k]];
  }

  lemma {:induction false} FirstIsOnce(reports: seq<Status>, id: JobId)
    requires reports != [] && id !in Ended(reports[..|reports| - 1])
    ensures ReportedOnce(reports, id)
  {
    var k := |reports| - 1;
    forall i | 0 <= i < k && reports[i].id == id ensures !reports[i].state.Terminal() {
      assert reports[..k][i] == reports[i];
    }
  }

  lemma {:induction false} OnceBefore(reports: seq<Status>, id: JobId)
    requires reports != [] && id in Ended(reports[..|reports| - 1])
    ensures var k := |reports| - 1;
            ReportedOnce(reports, id) <==> ReportedOnce(reports[..k], id) && !(reports[k].id == id && reports[k].state.Terminal())
  {
    var k := |reports| - 1;
    var i :| 0 <= i < k && reports[..k][i].id == id && reports[..k][i].state.Terminal();
    assert reports[i].id == id && reports[i].state.Terminal();
    assert forall i :: 0 <= i < k ==> reports[..k][i] == reports[i];
  }

  /** Reports a heartbeat makes of a job that is not over. */
  ghost predicate ClaimedRunning(hb: Heartbeat, id: JobId) {
    && (exists s :: s in hb.jobs && s.id == id)
    && forall s :: s in hb.jobs && s.id == id ==> !s.state.Terminal()
  }

  predicate RunsAt(j: Job, n: NodeName) {
    j.state == Running && j.node == n
  }

  /** The request found the job running on its machine for longer than the grace. */
  ghost predicate FoundRunning(w: World, n: NodeName, id: JobId)
    requires id in w.ctl.jobs
  {
    var found := Seen(w.ctl.jobs, w.SeenFor(n), id);
    RunsAt(found, n) && PastGrace(found, w.clock)
  }

  lemma {:induction false} EndedOrClaimed(hb: Heartbeat, id: JobId)
    ensures ClaimedRunning(hb, id) <==> id in Ids(hb.jobs) && id !in Ended(hb.jobs)
    ensures id in Ids(hb.jobs) ==> id in Answerable(hb)
    ensures id in Ended(hb.jobs) ==> id in Ids(hb.jobs)
  {
  }

  lemma {:induction false} FoundIsMatched(jobs: map<JobId, Job>, seen: map<JobId, Job>, hb: Heartbeat, now: int, served: seq<Access>, id: JobId)
    requires |served| == |hb.jobs| && AllFine(served) && id in jobs
    requires RunsAt(Seen(jobs, seen, id), hb.node) && PastGrace(Seen(jobs, seen, id), now)
    requires id in Answerable(hb) ==> id in Ids(hb.jobs)
    ensures var reported := ApplyReports(jobs, seen, hb.node, hb.jobs, served).0;
            (RunsAt(Reclaim(reported, seen, hb.node, Answerable(hb), now, {})[id], hb.node)
             <==> RunsAt(jobs[id], hb.node) && ClaimedRunning(hb, id))
  {
    EndedOrClaimed(hb, id);
    ReportsKeepRunning(jobs, seen, hb.node, hb.jobs, served, id);
    if id in Ended(hb.jobs) {
      TerminalLands(jobs, seen, hb.node, hb.jobs, served, id);
    } else {
      ReportsFrame(jobs, seen, hb.node, hb.jobs, served, id);
    }
  }

  lemma {:induction false} UnfoundIsLeft(jobs: map<JobId, Job>, seen: map<JobId, Job>, hb: Heartbeat, now: int, served: seq<Access>, id: JobId)
    requires |served| == |hb.jobs| && id in jobs
    requires !(RunsAt(Seen(jobs, seen, id), hb.node) && PastGrace(Seen(jobs, seen, id), now))
    requires id !in Ids(hb.jobs)
    ensures var reported := ApplyReports(jobs, seen, hb.node, hb.jobs, served).0;
            reported[id] == jobs[id] && Reclaim(reported, seen, hb.node, Answerable(hb), now, {})[id] == jobs[id]
  {
    ReportsFrame(jobs, seen, hb.node, hb.jobs, served, id);
  }

  /** After a due heartbeat is handled, with the store working, the records agree
      with the machine: a job that was found running there past its grace is recorded so
      exactly when it still was and the machine says it is still running it.  So a job
      whose placement was lost, or whose agent forgot it, stops being RUNNING.  One that
      was not found so, and that the machine says nothing of, is left alone. */
  lemma {:induction false} RecordsMatchMachine(w: World, n: NodeName, served: seq<Access>, id: JobId)
    requires WireInv(w) && Enabled(w, HandleRequest(n, served, {})) && AllFine(served)
    requires n !in w.ctl.forgotten && Reclaims(w.ctl, w.Wire(n).hb, w.clock) && id in w.ctl.jobs
    ensures FoundRunning(w, n, id) ==>
              (RunningOn(Handled(w, n, served, {}), id, n) <==> RunningOn(w, id, n) && ClaimedRunning(w.Wire(n).hb, id))
    ensures !FoundRunning(w, n, id) && id !in Ids(w.Wire(n).hb.jobs) ==> Handled(w, n, served, {}).ctl.jobs[id] == w.ctl.jobs[id]
    ensures ClaimedRunning(w.Wire(n).hb, id) ==> id in w.Agent(n).run + Ids(w.Agent(n).done)
  {
    var hb := w.Wire(n).hb;
    assert WireOk(w, n);
    EndedOrClaimed(hb, id);
    if FoundRunning(w, n, id) {
      FoundIsMatched(w.ctl.jobs, w.SeenFor(n), hb, w.clock, served, id);
    } else if id !in Ids(hb.jobs) {
      UnfoundIsLeft(w.ctl.jobs, w.SeenFor(n), hb, w.clock, served, id);
    }
  }

  /** Reclaiming is safe: a job the agent runs, or holds a result of, when
      its heartbeat is handled -- however long after it was sent -- is changed by
      nothing but its own report. */
  lemma {:induction false} ReclaimSparesHeld(w: World, n: NodeName, served: seq<Access>, bad: set<JobId>, id: JobId)
    requires WireInv(w) && Enabled(w, HandleRequest(n, served, bad))
    requires id in w.ctl.jobs && id in w.Agent(n).run + Ids(w.Agent(n).done)
    ensures var hb := w.Wire(n).hb;
            Handled(w, n, served, bad).ctl.jobs[id] ==
            if n in w.ctl.forgotten then w.ctl.jobs[id] else ApplyReports(w.ctl.jobs, w.SeenFor(n), n, hb.jobs, served).0[id]
  {
    assert WireOk(w, n);
  }
}
