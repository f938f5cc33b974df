/** Whole runs in which something goes wrong: a decision or a cancellation is carried out
    after the record it was based on has changed, and a result is acknowledged that could
    not be recorded. */
module Mishaps {
  import opened Protocol
  import opened Control
  import opened Agents
  import opened Cluster
  import opened Coverage
  import opened AtMostOnce
  import opened Reclaiming

  const STOPPED := WAITING.(state := Cancelled, reason := ByUser, code := -1)

  ghost predicate NoRestart(ss: seq<Step>) {
    forall i :: 0 <= i < |ss| ==> !ss[i].AgentRestart? && !ss[i].ControllerRestart?
  }

  /** One machine, "n", and one job, 7: what a world looks like but for its history. */
  ghost predicate Looks(w: World, jobs: map<JobId, Job>, queue: map<NodeName, seq<Action>>, last: int, a: AgentState, wire: Wire, halfway: Halfway) {
    && w.clock == 1 && w.ctl == Ctl(jobs, map["n" := Node(Up, 1)], {}, queue, map["n" := last])
    && w.Agent("n") == a && w.Wire("n") == wire && w.halfway == halfway
  }

  lemma {:induction false} MachineReady() returns (ws: seq<World>, ss: seq<Step>)
    ensures IsRun(ws, ss) && NoRestart(ss) && ws[|ss|] == OneMachine(1, map[], Up, 1, map[], 1, map[], Idle)
  {
    var w0 := World(1, Ctl(map[], map[], {}, map[], map[]), map[], map[], NOTHING_HALFWAY, {}, multiset{}, multiset{}, multiset{});
    ws, ss := MachineAppears(w0);
  }

  // ----- a cancelled job is started -----

  /** A scheduling pass has chosen the waiting job; it is cancelled; the pass marks it as
      running and queues its launch all the same. */
  lemma {:induction false} CancelledIsStarted() returns (ws: seq<World>, ss: seq<Step>)
    ensures IsRun(ws, ss) && |ss| > 0
    ensures var k := |ss| - 1;
            && Late(ws[k], ss[k], 7) && ws[k].ctl.jobs == map[7 := STOPPED]
            && RunningOn(ws[k + 1], 7, "n") && ws[k + 1].Queue("n") == [Launch(7)]
  {
    ws, ss := CancelledInPass();
    ws, ss := Append(ws, ss, Mark(7, true));
  }

  lemma {:induction false} CancelledInPass() returns (ws: seq<World>, ss: seq<Step>)
    ensures IsRun(ws, ss) && NoRestart(ss)
    ensures Looks(ws[|ss|], map[7 := STOPPED], map[], 1, FRESH, Idle, NOTHING_HALFWAY.(planned := map[7 := "n"]))
  {
    var ws0, ss0 := MachineReady();
    var ws1, ss1, w3 := JobChosen(ws0[|ss0|]);
    ws, ss := Chain(ws0, ss0, ws1, ss1);
    ws, ss := Append(ws, ss, LookUp(7));
    assert ws[|ss|].halfway == NOTHING_HALFWAY.(planned := map[7 := "n"], cancelling := multiset{(7, "")});
    ws, ss := Append(ws, ss, CancelIt(7, "", true));
    assert ws[|ss|].ctl.jobs == map[7 := STOPPED] && ws[|ss|].ctl.pending == map[];
  }

  // ----- a finished job is cancelled -----

  const RUNNING_IT := AgentState(true, {7}, [], {7}, 0)
  const HAVING_RUN := AgentState(true, {}, [Status(7, Completed, 0, false)], {7}, 1)
  const ITS_REPORT := Heartbeat("n", [Status(7, Completed, 0, false)], [7], true, Silent)

  /** The job is given to the machine. */
  lemma {:induction false} JobGivenRun() returns (ws: seq<World>, ss: seq<Step>)
    ensures IsRun(ws, ss) && NoRestart(ss)
    ensures ws[|ss|] == OneMachine(1, map[7 := FRESHLY_GIVEN], Up, 1, map["n" := [Launch(7)]], 1, map[], Idle)
  {
    var ws0, ss0 := MachineReady();
    var ws1, ss1 := JobGiven(ws0[|ss0|]);
    ws, ss := Chain(ws0, ss0, ws1, ss1);
  }

  /** The machine fetches it ... */
  lemma {:induction false} JobFetched() returns (ws: seq<World>, ss: seq<Step>)
    ensures IsRun(ws, ss) && NoRestart(ss)
    ensures Looks(ws[|ss|], map[7 := FRESHLY_GIVEN], map[], 1, FRESH, Reply(Response([Launch(7)], [], true)), NOTHING_HALFWAY)
  {
    ws, ss := JobAsked();
    LaunchTaken(ws[|ss|].ctl);
    ws, ss := Append(ws, ss, HandleRequest("n", [], {}));
  }

  lemma {:induction false} JobAsked() returns (ws: seq<World>, ss: seq<Step>)
    ensures IsRun(ws, ss) && NoRestart(ss)
    ensures Looks(ws[|ss|], map[7 := FRESHLY_GIVEN], map["n" := [Launch(7)]], 1, FRESH, Request(Heartbeat("n", [], [], true, Silent)), NOTHING_HALFWAY)
  {
    ws, ss := JobGivenRun();
    ws, ss := Append(ws, ss, Snap("n", [], Silent));
    assert ws[|ss|].Wire("n").hb == Heartbeat("n", [], [], true, Silent);
  }

  lemma {:induction false} LaunchTaken(c: Ctl)
    requires c == Ctl(map[7 := FRESHLY_GIVEN], map["n" := Node(Up, 1)], {}, map["n" := [Launch(7)]], map["n" := 1])
    ensures Handle(c, map[], Heartbeat("n", [], [], true, Silent), 1, [], {}) == (c.(pending := map[]), Response([Launch(7)], [], true))
  {
    var c' := Handle(c, map[], Heartbeat("n", [], [], true, Silent), 1, [], {}).0;
    assert c'.pending == map[] && c'.nodes == map["n" := Node(Up, 1)];
  }

  lemma {:induction false} JobDelivered() returns (ws: seq<World>, ss: seq<Step>)
    ensures IsRun(ws, ss) && NoRestart(ss)
    ensures Looks(ws[|ss|], map[7 := FRESHLY_GIVEN], map[], 1, FRESH, Acting([Launch(7)]), NOTHING_HALFWAY)
  {
    ws, ss := JobFetched();
    ws, ss := Append(ws, ss, Deliver("n"));
    assert ws[|ss|].Agent("n") == FRESH && ws[|ss|].Wire("n") == Acting([Launch(7)]);
  }

  /** ... and starts it. */
  lemma {:induction false} JobStarted() returns (ws: seq<World>, ss: seq<Step>)
    ensures IsRun(ws, ss) && NoRestart(ss)
    ensures Looks(ws[|ss|], map[7 := FRESHLY_GIVEN], map[], 1, RUNNING_IT, Idle, NOTHING_HALFWAY)
  {
    ws, ss := JobDelivered();
    ws, ss := Append(ws, ss, Act("n", Accept, []));
    assert ws[|ss|].Agent("n") == RUNNING_IT && ws[|ss|].Wire("n") == Acting([]);
    assert SetOf([7]) == {7};
    ws, ss := Append(ws, ss, Act("n", Accept, [7]));
  }

  /** It ends, and its machine reports it. */
  lemma {:induction false} JobReported(vs: seq<World>, ts: seq<Step>, halfway: Halfway) returns (ws: seq<World>, ss: seq<Step>)
    requires IsRun(vs, ts) && NoRestart(ts)
    requires Looks(vs[|ts|], map[7 := FRESHLY_GIVEN], map[], 1, RUNNING_IT, Idle, halfway)
    ensures IsRun(ws, ss) && NoRestart(ss)
    ensures Looks(ws[|ss|], map[7 := FRESHLY_GIVEN], map[], 1, HAVING_RUN, Request(ITS_REPORT), halfway)
  {
    ws, ss := Append(vs, ts, Exit("n", 7, Completed, 0));
    assert ws[|ss|].Agent("n") == HAVING_RUN;
    ws, ss := Append(ws, ss, Snap("n", [], Silent));
    assert StillRunning([]) + HAVING_RUN.done == HAVING_RUN.done && [] + IdSeq(HAVING_RUN.done) == [7];
  }

  /** A heartbeat with one report, of the job, is handled. */
  lemma {:induction false} ReportTaken(c: Ctl, seen: map<JobId, Job>, j: Job, queue: map<NodeName, seq<Action>>, s: Status, access: Access)
    requires c == Ctl(map[7 := j], map["n" := Node(Up, 1)], {}, queue, map["n" := 1]) && queue.Keys <= {"n"} && s.id == 7
    ensures var (jobs, ack) := ApplyReport(c.jobs, seen, "n", s, access);
            Handle(c, seen, Reporting(s), 1, [access], {})
              == (c.(jobs := jobs, pending := map[]), Response(At(queue, "n", []), if ack then [7] else [], true))
  {
    var hb := Reporting(s);
    var none := hb.jobs[..0];
    assert hb.jobs == [s] && none == [] && [access][..0] == [] && seen - Ended(none) == seen;
    assert ApplyReports(c.jobs, seen, "n", none, [access][..0]) == (c.jobs, []);
    var (jobs, ack) := ApplyReport(c.jobs, seen, "n", s, access);
    assert [] + [7] == [7] && [s][..0] == [];
    assert ApplyReports(c.jobs, seen, "n", [s], [access]).0 == jobs;
    assert ApplyReports(c.jobs, seen, "n", [s], [access]).1 == if ack then [7] else [];
    var c' := Handle(c, seen, hb, 1, [access], {}).0;
    assert c'.pending == map[] && c'.nodes == map["n" := Node(Up, 1)];
  }

  function Reporting(s: Status): Heartbeat { Heartbeat("n", [s], [s.id], true, Silent) }

  function Taken(access: Access): map<JobId, Job> {
    map[7 := if access == Fine then Finished(FRESHLY_GIVEN, Completed, 0, ByReport) else FRESHLY_GIVEN]
  }

  /** The controller handles the report. */
  lemma {:induction false} ReportHandled(vs: seq<World>, ts: seq<Step>, halfway: Halfway, access: Access) returns (ws: seq<World>, ss: seq<Step>)
    requires IsRun(vs, ts) && NoRestart(ts) && access != Unwritten && halfway.seen == map[]
    requires Looks(vs[|ts|], map[7 := FRESHLY_GIVEN], map[], 1, HAVING_RUN, Request(ITS_REPORT), halfway)
    ensures IsRun(ws, ss) && NoRestart(ss)
    ensures Looks(ws[|ss|], Taken(access), map[], 1, HAVING_RUN, Reply(Response([], [7], true)), halfway)
  {
    var s := Status(7, Completed, 0, false);
    ReportTaken(vs[|ts|].ctl, map[], FRESHLY_GIVEN, map[], s, access);
    var (jobs, ack) := ApplyReport(map[7 := FRESHLY_GIVEN], map[], "n", s, access);
    assert jobs == Taken(access) && ack;
    ws, ss := Append(vs, ts, HandleRequest("n", [access], {}));
  }

  /** A cancellation has looked the running job up; the job ends, and its success is
      recorded; the cancellation is written over it. */
  lemma {:induction false} FinishedIsCancelled() returns (ws: seq<World>, ss: seq<Step>)
    ensures IsRun(ws, ss) && |ss| > 0
    ensures var k := |ss| - 1;
            && Late(ws[k], ss[k], 7) && ws[k].ctl.jobs == map[7 := Finished(FRESHLY_GIVEN, Completed, 0, ByReport)]
            && ws[k + 1].ctl.jobs == map[7 := Finished(FRESHLY_GIVEN, Cancelled, -1, ByUser)]
  {
    ws, ss := JobStarted();
    ws, ss := Append(ws, ss, LookUp(7));
    var looked := NOTHING_HALFWAY.(cancelling := multiset{(7, "n")});
    assert ws[|ss|].halfway == looked;
    ws, ss := JobReported(ws, ss, looked);
    ws, ss := ReportHandled(ws, ss, looked, Fine);
    ws, ss := Append(ws, ss, CancelIt(7, "n", true));
  }

  // ----- a cancelled job is completed, or goes back to the queue -----

  const ITS_KILL := map["n" := [Kill(7)]]
  const WAS_RUNNING := NOTHING_HALFWAY.(seen := map["n" := map[7 := FRESHLY_GIVEN]])
  const THEN_CANCELLED := Finished(FRESHLY_GIVEN, Cancelled, -1, ByUser)

  /** The handler of a report has found the job running; now it is cancelled. */
  lemma {:induction false} CancelledMeanwhile(vs: seq<World>, ts: seq<Step>, a: AgentState, hb: Heartbeat) returns (ws: seq<World>, ss: seq<Step>)
    requires IsRun(vs, ts) && Looks(vs[|ts|], map[7 := FRESHLY_GIVEN], map[], 1, a, Request(hb), NOTHING_HALFWAY)
    ensures IsRun(ws, ss) && Looks(ws[|ss|], map[7 := THEN_CANCELLED], ITS_KILL, 1, a, Request(hb), WAS_RUNNING)
  {
    ws, ss := FoundThenLookedUp(vs, ts, a, hb);
    ws, ss := Append(ws, ss, CancelIt(7, "n", true));
    assert [] + [Kill(7)] == [Kill(7)] && ws[|ss|].ctl.pending == ITS_KILL && ws[|ss|].ctl.jobs == map[7 := THEN_CANCELLED];
    assert ws[|ss|].halfway == WAS_RUNNING;
  }

  lemma {:induction false} FoundThenLookedUp(vs: seq<World>, ts: seq<Step>, a: AgentState, hb: Heartbeat) returns (ws: seq<World>, ss: seq<Step>)
    requires IsRun(vs, ts) && Looks(vs[|ts|], map[7 := FRESHLY_GIVEN], map[], 1, a, Request(hb), NOTHING_HALFWAY)
    ensures IsRun(ws, ss)
    ensures Looks(ws[|ss|], map[7 := FRESHLY_GIVEN], map[], 1, a, Request(hb), WAS_RUNNING.(cancelling := multiset{(7, "n")}))
  {
    ws, ss := Append(vs, ts, ReadFor("n", 7));
    assert ws[|ss|].halfway == WAS_RUNNING;
    ws, ss := Append(ws, ss, LookUp(7));
    assert ws[|ss|].halfway == WAS_RUNNING.(cancelling := multiset{(7, "n")});
  }

  /** A job is cancelled while its result is handled: the result is written over the
      cancellation. */
  lemma {:induction false} CancelledIsCompleted() returns (ws: seq<World>, ss: seq<Step>)
    ensures IsRun(ws, ss) && |ss| > 0
    ensures var k := |ss| - 1;
            && ss[k] == HandleRequest("n", [Fine], {}) && Late(ws[k], ss[k], 7) && ws[k].ctl.jobs == map[7 := THEN_CANCELLED]
            && ws[k + 1].ctl.jobs == map[7 := Finished(FRESHLY_GIVEN, Completed, 0, ByReport)]
  {
    var s := Status(7, Completed, 0, false);
    ws, ss := JobStarted();
    ws, ss := JobReported(ws, ss, NOTHING_HALFWAY);
    ws, ss := CancelledMeanwhile(ws, ss, HAVING_RUN, ITS_REPORT);
    ReportTaken(ws[|ss|].ctl, WAS_RUNNING.seen["n"], THEN_CANCELLED, ITS_KILL, s, Fine);
    assert ITS_REPORT.jobs[0] == s && ITS_REPORT.jobs[..0] == [];
    assert FirstServed(ITS_REPORT.jobs, [Fine], 7);
    ws, ss := Append(ws, ss, HandleRequest("n", [Fine], {}));
  }

  const HAVING_REFUSED := AgentState(true, {}, [Status(7, Failed, -1, true)], {}, 0)

  lemma {:induction false} LaunchRefused() returns (ws: seq<World>, ss: seq<Step>)
    ensures IsRun(ws, ss) && Looks(ws[|ss|], map[7 := FRESHLY_GIVEN], map[], 1, HAVING_REFUSED, Idle, NOTHING_HALFWAY)
  {
    ws, ss := JobDelivered();
    ws, ss := Append(ws, ss, Act("n", Refuse, []));
    assert ws[|ss|].Agent("n") == HAVING_REFUSED && ws[|ss|].Wire("n") == Acting([]);
    ws, ss := Append(ws, ss, Act("n", Refuse, []));
  }

  /** The machine refuses the job, and says so. */
  lemma {:induction false} JobRefused() returns (ws: seq<World>, ss: seq<Step>)
    ensures IsRun(ws, ss)
    ensures Looks(ws[|ss|], map[7 := FRESHLY_GIVEN], map[], 1, HAVING_REFUSED, Request(Reporting(Status(7, Failed, -1, true))), NOTHING_HALFWAY)
  {
    ws, ss := LaunchRefused();
    ws, ss := Append(ws, ss, Snap("n", [], Silent));
    assert StillRunning([]) + HAVING_REFUSED.done == HAVING_REFUSED.done && [] + IdSeq(HAVING_REFUSED.done) == [7];
  }

  /** A job is cancelled while its machine's refusal is handled: it goes back to the
      queue, to be started elsewhere. */
  lemma {:induction false} CancelledIsRequeued() returns (ws: seq<World>, ss: seq<Step>)
    ensures IsRun(ws, ss) && |ss| > 0
    ensures var k := |ss| - 1;
            && ss[k] == HandleRequest("n", [Fine], {}) && ws[k].ctl.jobs == map[7 := THEN_CANCELLED] && SendsBack(ws[k], ss[k], 7)
            && ws[k + 1].ctl.jobs == map[7 := BackInQueue(THEN_CANCELLED, ByReport)]
  {
    var s := Status(7, Failed, -1, true);
    ws, ss := JobRefused();
    ws, ss := CancelledMeanwhile(ws, ss, HAVING_REFUSED, Reporting(s));
    RefusalHandled(ws[|ss|], s);
    ws, ss := Append(ws, ss, HandleRequest("n", [Fine], {}));
  }

  lemma {:induction false} RefusalHandled(w: World, s: Status)
    requires s == Status(7, Failed, -1, true)
    requires Looks(w, map[7 := THEN_CANCELLED], ITS_KILL, 1, HAVING_REFUSED, Request(Reporting(s)), WAS_RUNNING)
    ensures Enabled(w, HandleRequest("n", [Fine], {})) && SendsBack(w, HandleRequest("n", [Fine], {}), 7)
    ensures Next(w, HandleRequest("n", [Fine], {})).ctl.jobs == map[7 := BackInQueue(THEN_CANCELLED, ByReport)]
  {
    ReportTaken(w.ctl, WAS_RUNNING.seen["n"], THEN_CANCELLED, ITS_KILL, s, Fine);
    assert Reporting(s).jobs[0] == s && Reporting(s).jobs[..0] == [];
    assert FirstRefused(Reporting(s).jobs, [Fine], 7);
    assert w.SeenFor("n") == map[7 := FRESHLY_GIVEN];
  }

  // ----- a result is acknowledged unrecorded -----

  /** The job has run; when its result is handled, it cannot be looked up; the result is
      acknowledged as that of an unknown job, and the machine forgets it.  The job is
      recorded as running, no launch of it is under way, and no machine knows of it. */
  lemma {:induction false} ResultIsLost() returns (ws: seq<World>, ss: seq<Step>)
    ensures IsRun(ws, ss) && |ss| > 0 && NoRestart(ss)
    ensures ws[|ss| - 1].Agent("n") == HAVING_RUN && RunningOn(ws[|ss| - 1], 7, "n")
    ensures var w := ws[|ss|];
            && RunningOn(w, 7, "n") && Launch(7) !in w.Queue("n") && Launch(7) !in InTransit(w.Wire("n"))
            && w.Agent("n") == AgentState(true, {}, [], {}, 1)
  {
    ws, ss := JobStarted();
    ws, ss := JobReported(ws, ss, NOTHING_HALFWAY);
    ws, ss := ReportHandled(ws, ss, NOTHING_HALFWAY, Unread);
    ws, ss := Append(ws, ss, Deliver("n"));
    Forgotten(HAVING_RUN);
  }

  lemma {:induction false} Forgotten(a: AgentState)
    requires a == HAVING_RUN
    ensures Receive(a, Response([], [7], true)) == AgentState(true, {}, [], {}, 1)
  {
    var acked := set id | id in [7];
    assert 7 in acked && a.done[..0] == [];
    assert Unacked(a.done, acked) == Unacked(a.done[..0], acked) + [];
    assert a.finished - acked == {};
  }
}
