/** Jobs written off because their machine does not claim them: when such a job
    may still be started, and when it never is. */
module Reclaiming {
  import opened Protocol
  import opened Control
  import opened Agents
  import opened Cluster
  import opened Coverage
  import opened AtMostOnce

  // ----- a queued Launch is no older than its machine's last heartbeat -----

  ghost predicate QueuedFresh(w: World, id: JobId, n: NodeName) {
    id in w.ctl.jobs && w.ctl.jobs[id].requeues == 0 && Launch(id) in w.Queue(n) ==>
      n in w.ctl.nodes ==> (w.ctl.nodes[n].state.Down? ==> n in w.halfway.silent) && w.ctl.nodes[n].lastSeen <= w.ctl.jobs[id].startAt
  }

  /** A machine chosen for a job is not marked down before the job is given to it: the
      sweep waits for the scheduling pass.  It may be drained, or removed. */
  ghost predicate PlannedUp(w: World, id: JobId) {
    id in w.halfway.planned && w.halfway.planned[id] in w.ctl.nodes ==> !w.ctl.nodes[w.halfway.planned[id]].state.Down?
  }

  ghost predicate ClockOk(w: World) {
    w.clock > 0 && forall n :: n in w.ctl.nodes ==> w.ctl.nodes[n].lastSeen <= w.clock
  }

  lemma {:induction false} ClockStep(w: World, s: Step)
    requires ClockOk(w) && Enabled(w, s)
    ensures ClockOk(Next(w, s))
  {
    if OfController(s) {
      ControllerClock(w, s);
    } else if !s.HandleRequest? {
      MachineLeaves(w, s);
      MachineClock(w, s);
    }
  }

  lemma {:induction false} ControllerClock(w: World, s: Step)
    requires ClockOk(w) && Enabled(w, s) && OfController(s)
    ensures ClockOk(ControllerNext(w, s))
  {
  }

  lemma {:induction false} MachineClock(w: World, s: Step)
    requires Enabled(w, s) && !OfController(s)
    ensures MachineNext(w, s).clock == w.clock
  {
  }

  lemma {:induction false} HandledFresh(w: World, m: NodeName, served: seq<Access>, bad: set<JobId>, id: JobId, n: NodeName)
    requires QueuedFresh(w, id, n) && Enabled(w, HandleRequest(m, served, bad)) && w.Wire(m).hb.node == m
    ensures QueuedFresh(Handled(w, m, served, bad), id, n)
  {
    if id in w.ctl.jobs {
      HandledPlace(w, m, served, bad, id);
    }
  }

  lemma {:induction false} FreshStep(w: World, s: Step, id: JobId, n: NodeName)
    requires QueuedFresh(w, id, n) && PlannedUp(w, id) && ClockOk(w) && OnceOk(w, id) && WireInv(w) && Enabled(w, s)
    ensures QueuedFresh(Next(w, s), id, n)
  {
    match s
    case HandleRequest(m, served, bad) =>
      assert WireOk(w, m);
      HandledFresh(w, m, served, bad, id, n);
    case Mark(p, ok) =>
      if p == id && NeverRequeued(w, id) { assert Clear(w, n, id); }
      MarkedFresh(w, p, ok, id, n);
    case SubmitJob(p, _) =>
      if p == id { assert Clear(w, n, id); }
    case _ => OthersFresh(w, s, id, n);
  }

  lemma {:induction false} MarkedFresh(w: World, p: JobId, ok: bool, id: JobId, n: NodeName)
    requires QueuedFresh(w, id, n) && PlannedUp(w, id) && ClockOk(w) && Enabled(w, Mark(p, ok))
    requires p == id && NeverRequeued(w, id) ==> Launch(id) !in w.Queue(n)
    ensures QueuedFresh(Marked(w, p, ok), id, n)
  {
  }

  lemma {:induction false} OthersFresh(w: World, s: Step, id: JobId, n: NodeName)
    requires QueuedFresh(w, id, n) && Enabled(w, s) && !s.HandleRequest? && !s.Mark? && !s.SubmitJob?
    ensures QueuedFresh(Next(w, s), id, n)
  {
    if OfController(s) {
      ControllerFresh(w, s, id, n);
    } else {
      MachineLeaves(w, s);
    }
  }

  lemma {:induction false} ControllerFresh(w: World, s: Step, id: JobId, n: NodeName)
    requires QueuedFresh(w, id, n) && Enabled(w, s) && OfController(s) && !s.Mark? && !s.SubmitJob?
    ensures QueuedFresh(ControllerNext(w, s), id, n)
  {
  }

  lemma {:induction false} PlannedUpStep(w: World, s: Step, id: JobId)
    requires PlannedUp(w, id) && Enabled(w, s)
    ensures PlannedUp(Next(w, s), id)
  {
    if OfController(s) {
      ControllerPlanned(w, s, id);
    } else if !s.HandleRequest? {
      MachineLeaves(w, s);
    }
  }

  lemma {:induction false} ControllerPlanned(w: World, s: Step, id: JobId)
    requires PlannedUp(w, id) && Enabled(w, s) && OfController(s)
    ensures PlannedUp(ControllerNext(w, s), id)
  {
  }

  lemma {:induction false} FreshOverRuns(ws: seq<World>, ss: seq<Step>, i: nat, id: JobId, n: NodeName)
    requires IsRun(ws, ss) && i < |ws|
    ensures ClockOk(ws[i]) && QueuedFresh(ws[i], id, n) && PlannedUp(ws[i], id)
  {
    if i > 0 {
      FreshOverRuns(ws, ss, i - 1, id, n);
      OnceOverRuns(ws, ss, i - 1, id);
      CoverageOverRuns(ws, ss, i - 1);
      assert Leads(ws, ss, i - 1);
      ClockStep(ws[i - 1], ss[i - 1]);
      FreshStep(ws[i - 1], ss[i - 1], id, n);
      PlannedUpStep(ws[i - 1], ss[i - 1], id);
    }
  }

  /** A registered machine that a sweep at this moment would leave alone, and not for
      want of seeing it behind a drain; nor has a sweep yet to drop its queue. */
  predicate SweptNow(w: World, n: NodeName) {
    && n in w.ctl.nodes && (w.ctl.nodes[n].state.Down? || w.ctl.nodes[n].lastSeen >= w.clock - NODE_TIMEOUT)
    && n !in w.halfway.silent
  }

  /** A sweep leaves every registered machine that is not drained in that condition, once
      it has dropped the queues of those it marks down. */
  lemma {:induction false} SweepSweeps(w: World, n: NodeName)
    requires Enabled(w, MarkSilent) && n in w.ctl.nodes
    ensures var w' := Next(w, MarkSilent);
            && n in w'.ctl.nodes
            && (w'.ctl.nodes[n].state.Drain? || SweptNow(w', n) || (n in w'.halfway.silent && SweptNow(Next(w', DropQueue(n)), n)))
  {
  }

  /** Once swept, nothing is queued for a machine that it has had longer than its
      grace to claim. */
  lemma {:induction false} SweptHasNoStaleLaunch(ws: seq<World>, ss: seq<Step>, i: nat, id: JobId, n: NodeName)
    requires IsRun(ws, ss) && i < |ws| && id in ws[i].ctl.jobs && ws[i].ctl.jobs[id].requeues == 0
    requires SweptNow(ws[i], n) && ws[i].clock - ws[i].ctl.jobs[id].startAt > CLAIM_GRACE
    ensures Launch(id) !in ws[i].Queue(n)
  {
    FreshOverRuns(ws, ss, i, id, n);
  }

  // ----- exactly when a job that is over may still be started -----

  /** A Launch of the job comes before any Stop. */
  predicate Reaches(acts: seq<Action>, id: JobId) {
    acts != [] && (acts[0] == Launch(id) || (!acts[0].Stop? && Reaches(acts[1..], id)))
  }

  lemma {:induction false} ReachesIsAhead(acts: seq<Action>, id: JobId)
    requires Reaches(acts, id)
    ensures Launch(id) in acts
  {
    if acts[0] != Launch(id) { ReachesIsAhead(acts[1..], id); }
  }

  ghost predicate NotAhead(w: World, id: JobId, n: NodeName, m: NodeName) {
    Launch(id) !in w.Queue(m) && (m != n ==> Launch(id) !in InTransit(w.Wire(m)))
  }

  ghost predicate Blocked(w: World, id: JobId, n: NodeName) {
    Reaches(InTransit(w.Wire(n)), id) ==> w.Wire(n).Reply? && (!w.Agent(n).looping || !w.Wire(n).resp.known)
  }

  /** The job is over, and no Launch of it will be taken up: what is in transit to
      its machine is blocked by a Stop, or by a loop that has ended. */
  ghost predicate Unstartable(w: World, id: JobId, n: NodeName) {
    && id in w.ctl.jobs && w.ctl.jobs[id].state.Terminal() && !InPass(w, id)
    && (forall m :: NotAhead(w, id, n, m))
    && Blocked(w, id, n)
  }

  lemma {:induction false} HandledNotAhead(w: World, k: NodeName, served: seq<Access>, bad: set<JobId>, id: JobId, n: NodeName, m: NodeName)
    requires NotAhead(w, id, n, m) && Enabled(w, HandleRequest(k, served, bad)) && NotAhead(w, id, n, w.Wire(k).hb.node)
    ensures NotAhead(Handled(w, k, served, bad), id, n, m)
  {
  }

  lemma {:induction false} ActNotAhead(w: World, k: NodeName, fate: Fate, order: seq<JobId>, id: JobId, n: NodeName, m: NodeName)
    requires NotAhead(w, id, n, m) && Enabled(w, Act(k, fate, order))
    ensures NotAhead(Acted(w, k, fate, order), id, n, m)
  {
  }

  lemma {:induction false} MachineNotAhead(w: World, s: Step, id: JobId, n: NodeName, m: NodeName)
    requires NotAhead(w, id, n, m) && Enabled(w, s) && !OfController(s) && !s.HandleRequest? && !s.Act?
    ensures NotAhead(MachineNext(w, s), id, n, m)
  {
    MachineLeaves(w, s);
    NothingNew(w, s, id, m);
  }

  /** Only a reply and its actions bring a Launch, and none of these is new. */
  lemma {:induction false} NothingNew(w: World, s: Step, id: JobId, m: NodeName)
    requires Enabled(w, s) && !OfController(s) && !s.HandleRequest? && !s.Act?
    ensures Launch(id) in InTransit(MachineNext(w, s).Wire(m)) ==> Launch(id) in InTransit(w.Wire(m))
  {
  }

  lemma {:induction false} ControllerNotAhead(w: World, s: Step, id: JobId, n: NodeName, m: NodeName)
    requires id in w.ctl.jobs && w.ctl.jobs[id].state.Terminal() && !InPass(w, id) && NotAhead(w, id, n, m) && Enabled(w, s)
    requires OfController(s)
    ensures NotAhead(ControllerNext(w, s), id, n, m)
  {
  }

  lemma {:induction false} NotAheadStep(w: World, s: Step, id: JobId, n: NodeName, m: NodeName)
    requires Unstartable(w, id, n) && Enabled(w, s)
    ensures NotAhead(Next(w, s), id, n, m)
  {
    assert NotAhead(w, id, n, m);
    if s.HandleRequest? {
      assert NotAhead(w, id, n, w.Wire(s.n).hb.node);
      HandledNotAhead(w, s.n, s.served, s.bad, id, n, m);
    } else if s.Act? {
      ActNotAhead(w, s.n, s.fate, s.order, id, n, m);
    } else if OfController(s) {
      ControllerNotAhead(w, s, id, n, m);
    } else {
      MachineNotAhead(w, s, id, n, m);
    }
  }

  lemma {:induction false} BlockedAct(w: World, k: NodeName, fate: Fate, order: seq<JobId>, id: JobId, n: NodeName)
    requires Unstartable(w, id, n) && Enabled(w, Act(k, fate, order))
    ensures Blocked(Acted(w, k, fate, order), id, n)
    ensures Acted(w, k, fate, order).launches[id] == w.launches[id]
  {
    assert NotAhead(w, id, n, k);
    var acts := w.Wire(k).actions;
    BlockedTail(w, k, fate, order, id, n);
    if acts != [] {
      assert acts[0] != Launch(id);
      PerformedIds(w.Agent(k), acts[0], fate, id);
      NoStartAt(w, k, fate, order, id);
    }
  }

  /** What does not get through to a launch does not after its first action, either. */
  lemma {:induction false} BlockedTail(w: World, k: NodeName, fate: Fate, order: seq<JobId>, id: JobId, n: NodeName)
    requires Blocked(w, id, n) && Enabled(w, Act(k, fate, order))
    ensures Blocked(Acted(w, k, fate, order), id, n)
  {
  }

  /** An action that is no launch of the job starts nothing of it. */
  lemma {:induction false} NoStartAt(w: World, k: NodeName, fate: Fate, order: seq<JobId>, id: JobId)
    requires Enabled(w, Act(k, fate, order)) && w.Wire(k).actions != [] && w.Wire(k).actions[0] != Launch(id)
    requires id in Perform(w.Agent(k), w.Wire(k).actions[0], fate).run ==> id in w.Agent(k).run
    ensures Acted(w, k, fate, order).launches[id] == w.launches[id]
  {
  }

  lemma {:induction false} BlockedHandle(w: World, k: NodeName, served: seq<Access>, bad: set<JobId>, id: JobId, n: NodeName)
    requires Unstartable(w, id, n) && Enabled(w, HandleRequest(k, served, bad))
    ensures Blocked(Handled(w, k, served, bad), id, n)
  {
    var w' := Handled(w, k, served, bad);
    assert NotAhead(w, id, n, w.Wire(k).hb.node);
    if k == n && Reaches(InTransit(w'.Wire(n)), id) {
      ReachesIsAhead(InTransit(w'.Wire(n)), id);
    }
  }

  lemma {:induction false} BlockedStep(w: World, s: Step, w': World, id: JobId, n: NodeName)
    requires Unstartable(w, id, n) && Enabled(w, s) && w' == Next(w, s)
    ensures Blocked(w', id, n) && w'.launches[id] == w.launches[id]
  {
    if OfController(s) {
      ControllerLeaves(w, s, (id, n));
      ControllerStartsNothing(w, s);
    } else {
      match s
      case HandleRequest(k, served, bad) => BlockedHandle(w, k, served, bad, id, n);
      case Act(k, fate, order) => BlockedAct(w, k, fate, order, id, n);
      case _ => BlockedOtherwise(w, s, id, n);
    }
  }

  lemma {:induction false} ControllerStartsNothing(w: World, s: Step)
    requires Enabled(w, s) && OfController(s)
    ensures ControllerNext(w, s).launches == w.launches
  {
  }

  lemma {:induction false} BlockedOtherwise(w: World, s: Step, id: JobId, n: NodeName)
    requires Blocked(w, id, n) && Enabled(w, s) && !OfController(s) && !s.HandleRequest? && !s.Act?
    ensures Blocked(MachineNext(w, s), id, n) && MachineNext(w, s).launches == w.launches
  {
  }

  lemma {:induction false} OverStaysOver(w: World, s: Step, id: JobId)
    requires id in w.ctl.jobs && w.ctl.jobs[id].state.Terminal() && !InPass(w, id) && Enabled(w, s) && NeverRequeued(Next(w, s), id)
    ensures id in Next(w, s).ctl.jobs && Next(w, s).ctl.jobs[id].state.Terminal() && !InPass(Next(w, s), id)
  {
    if s.HandleRequest? {
      OverHandled(w, s.n, s.served, s.bad, id);
    } else {
      OverUnhandled(w, s, id);
    }
  }

  lemma {:induction false} OverHandled(w: World, n: NodeName, served: seq<Access>, bad: set<JobId>, id: JobId)
    requires Enabled(w, HandleRequest(n, served, bad)) && id in w.ctl.jobs && w.ctl.jobs[id].state.Terminal()
    requires NeverRequeued(Handled(w, n, served, bad), id)
    ensures var w' := Handled(w, n, served, bad); id in w'.ctl.jobs && w'.ctl.jobs[id].state.Terminal() && SamePass(w.halfway, w'.halfway)
  {
    HandledPlace(w, n, served, bad, id);
  }

  lemma {:induction false} OverUnhandled(w: World, s: Step, id: JobId)
    requires id in w.ctl.jobs && w.ctl.jobs[id].state.Terminal() && !InPass(w, id) && Enabled(w, s) && !s.HandleRequest?
    requires NeverRequeued(Next(w, s), id)
    ensures id in Next(w, s).ctl.jobs && Next(w, s).ctl.jobs[id].state.Terminal() && !InPass(Next(w, s), id)
  {
    if !OfController(s) {
      MachineLeaves(w, s);
    } else {
      OverLeft(w, s, id);
    }
  }

  lemma {:induction false} OverLeft(w: World, s: Step, id: JobId)
    requires id in w.ctl.jobs && w.ctl.jobs[id].state.Terminal() && !InPass(w, id) && Enabled(w, s) && OfController(s)
    requires NeverRequeued(ControllerNext(w, s), id)
    ensures var w' := ControllerNext(w, s); id in w'.ctl.jobs && w'.ctl.jobs[id].state.Terminal() && !InPass(w', id)
  {
    OverRecord(w, s, id);
    if !s.Select? {
      PassGoesOn(w, s, id);
    }
  }

  /** A record that is over and is not about to be marked stays over. */
  lemma {:induction false} OverRecord(w: World, s: Step, id: JobId)
    requires id in w.ctl.jobs && w.ctl.jobs[id].state.Terminal() && Enabled(w, s) && OfController(s) && !(s.Mark? && s.id == id)
    requires NeverRequeued(ControllerNext(w, s), id)
    ensures var jobs' := ControllerNext(w, s).ctl.jobs; id in jobs' && jobs'[id].state.Terminal()
  {
    if !s.Mark? && !s.CancelIt? && !s.GiveUp? && !s.UserRequeue? {
      RecordLeft(w, s, id);
    }
  }

  lemma {:induction false} RecordLeft(w: World, s: Step, id: JobId)
    requires id in w.ctl.jobs && Enabled(w, s) && OfController(s) && !s.Mark? && !s.CancelIt? && !s.GiveUp? && !s.UserRequeue?
    ensures var jobs' := ControllerNext(w, s).ctl.jobs; id in jobs' && jobs'[id] == w.ctl.jobs[id]
  {
  }

  lemma {:induction false} UnstartableStep(w: World, s: Step, w': World, id: JobId, n: NodeName)
    requires Unstartable(w, id, n) && Enabled(w, s) && w' == Next(w, s) && NeverRequeued(w', id)
    ensures Unstartable(w', id, n) && w'.launches[id] == w.launches[id]
  {
    forall m ensures NotAhead(w', id, n, m) {
      NotAheadStep(w, s, id, n, m);
    }
    BlockedStep(w, s, w', id, n);
    OverStaysOver(w, s, id);
  }

  lemma {:induction false} UnstartablePath(vs: seq<World>, ts: seq<Step>, id: JobId, n: NodeName, k: nat)
    requires IsPath(vs, ts) && k < |vs| && Unstartable(vs[0], id, n)
    requires id in vs[k].ctl.jobs ==> vs[k].ctl.jobs[id].requeues == 0
    ensures Unstartable(vs[k], id, n) && vs[k].launches[id] == vs[0].launches[id]
  {
    if k > 0 {
      assert Leads(vs, ts, k - 1);
      StillNeverRequeued(vs[k - 1], ts[k - 1], vs[k], id);
      UnstartablePath(vs, ts, id, n, k - 1);
      UnstartableStep(vs[k - 1], ts[k - 1], vs[k], id, n);
    }
  }

  lemma {:induction false} StillNeverRequeued(w: World, s: Step, w': World, id: JobId)
    requires Enabled(w, s) && w' == Next(w, s) && NeverRequeued(w', id)
    ensures NeverRequeued(w, id)
  {
    if id in w.ctl.jobs && s.HandleRequest? {
      HandledPlace(w, s.n, s.served, s.bad, id);
    }
  }

  lemma {:induction false} SomeOrder(ids: set<JobId>) returns (order: seq<JobId>)
    ensures IsOrder(order, ids)
  {
    if ids == {} {
      order := [];
    } else {
      var id :| id in ids;
      var rest := SomeOrder(ids - {id});
      order := [id] + rest;
      assert SetOf(order) == {id} + SetOf(rest);
      assert forall j :: 0 <= j < |rest| ==> rest[j] in SetOf(rest);
    }
  }

  lemma {:induction false} Prepend(w: World, s: Step, vs: seq<World>, ts: seq<Step>)
    requires IsPath(vs, ts) && Enabled(w, s) && vs[0] == Next(w, s)
    ensures IsPath([w] + vs, [s] + ts)
  {
    forall i | 0 <= i < |[s] + ts| ensures Leads([w] + vs, [s] + ts, i) {
      if i > 0 { assert Leads(vs, ts, i - 1); }
    }
  }

  /** Carrying out actions up to the first Launch of a job starts it. */
  lemma {:induction false} ActUntilStart(w: World, n: NodeName, id: JobId) returns (vs: seq<World>, ts: seq<Step>)
    requires w.Wire(n).Acting? && Reaches(w.Wire(n).actions, id) && id !in w.Agent(n).run
    ensures IsPath(vs, ts) && vs[0] == w && vs[|ts|].ctl == w.ctl && vs[|ts|].launches[id] == w.launches[id] + 1
    decreases |w.Wire(n).actions|
  {
    var order := SomeOrder(w.Agent(n).run);
    var act := w.Wire(n).actions[0];
    var s := Act(n, Accept, order);
    var w' := Next(w, s);
    PerformedIds(w.Agent(n), act, Accept, id);
    if act == Launch(id) {
      vs, ts := [w, w'], [s];
    } else {
      vs, ts := ActUntilStart(w', n, id);
      Prepend(w, s, vs, ts);
      vs, ts := [w] + vs, [s] + ts;
    }
  }

  /** Some continuation, without putting the job back in the queue, starts it. */
  ghost predicate CanStart(w: World, id: JobId) {
    exists vs: seq<World>, ts: seq<Step> :: IsPath(vs, ts) && vs[0] == w && NeverRequeued(vs[|ts|], id) && vs[|ts|].launches[id] > w.launches[id]
  }

  /** The step wrote the job off because its machine did not claim it. */
  ghost predicate WrittenOffBy(w: World, s: Step, w': World, id: JobId, n: NodeName) {
    && s.HandleRequest? && s.n == n && RunningOn(w, id, n)
    && id in w'.ctl.jobs && w'.ctl.jobs[id].state == Failed && w'.ctl.jobs[id].reason == Reclaimed
    && w'.ctl.jobs[id].requeues == 0
  }

  lemma {:induction false} WrittenOffFacts(w: World, s: Step, w': World, id: JobId, n: NodeName)
    requires Enabled(w, s) && w' == Next(w, s) && WireInv(w) && WrittenOffBy(w, s, w', id, n)
    ensures n !in w.ctl.forgotten && w'.Wire(n) == Reply(w'.Wire(n).resp) && w'.Wire(n).resp.known
    ensures w'.Wire(n).resp.actions == w.Queue(n) && w'.Queue(n) == []
    ensures w'.Agent(n) == w.Agent(n) && id !in w.Agent(n).run && NeverRequeued(w, id) && w'.ctl.jobs[id].node == n
  {
    assert WireOk(w, n);
    var hb := w.Wire(n).hb;
    HandledPlace(w, n, s.served, s.bad, id);
    if n !in w.ctl.forgotten {
      ReportsReason(w.ctl.jobs, w.SeenFor(n), n, hb.jobs, s.served, id);
    }
  }

  /** Exactly when a job written off as unclaimed may still be started: when its
      Launch was waiting in its machine's queue, ahead of any Stop, and the agent
      is still there to take it. */
  lemma {:induction false} ReclaimedMayStartIff(ws: seq<World>, ss: seq<Step>, h: nat, id: JobId, n: NodeName)
    requires IsRun(ws, ss) && h < |ss| && WrittenOffBy(ws[h], ss[h], ws[h + 1], id, n)
    ensures CanStart(ws[h + 1], id) <==> ws[h].Agent(n).looping && Reaches(ws[h].Queue(n), id)
  {
    var w, w' := ws[h], ws[h + 1];
    OnceOverRuns(ws, ss, h + 1, id);
    CoverageOverRuns(ws, ss, h);
    assert Leads(ws, ss, h) && WireOk(w, n);
    WrittenOffFacts(w, ss[h], w', id, n);
    if w.Agent(n).looping && Reaches(w.Queue(n), id) {
      StartsAfterReply(w', id, n);
    } else {
      CannotStart(w', id, n);
    }
  }

  lemma {:induction false} StartsAfterReply(w: World, id: JobId, n: NodeName)
    requires w.Wire(n).Reply? && w.Wire(n).resp.known && w.Agent(n).looping
    requires Reaches(w.Wire(n).resp.actions, id) && id !in w.Agent(n).run && NeverRequeued(w, id)
    ensures CanStart(w, id)
  {
    var w' := Next(w, Deliver(n));
    var vs, ts := ActUntilStart(w', n, id);
    Prepend(w, Deliver(n), vs, ts);
    assert ([w] + vs)[|[Deliver(n)] + ts|] == vs[|ts|];
  }

  lemma {:induction false} CannotStart(w: World, id: JobId, n: NodeName)
    requires OnceOk(w, id) && id in w.ctl.jobs && w.ctl.jobs[id].state.Terminal()
    requires n != "" && w.ctl.jobs[id].requeues == 0 && w.ctl.jobs[id].node == n && w.Queue(n) == [] && w.Wire(n).Reply?
    requires !(w.Agent(n).looping && Reaches(w.Wire(n).resp.actions, id))
    ensures !CanStart(w, id)
  {
    forall m ensures NotAhead(w, id, n, m) {
      if m != n { assert Clear(w, m, id); }
    }
    forall vs: seq<World>, ts: seq<Step> | IsPath(vs, ts) && vs[0] == w && NeverRequeued(vs[|ts|], id)
      ensures vs[|ts|].launches[id] == w.launches[id]
    {
      UnstartablePath(vs, ts, id, n, |ts|);
    }
  }

  /** So a job written off on a machine that a sweep has just been over, and that
      is not hidden from it by a drain, is never started. */
  lemma {:induction false} ReclaimedNeverStartsWhenSwept(ws: seq<World>, ss: seq<Step>, h: nat, id: JobId, n: NodeName)
    requires IsRun(ws, ss) && h < |ss| && WrittenOffBy(ws[h], ss[h], ws[h + 1], id, n)
    requires SweptNow(ws[h], n) && ws[h].clock - ws[h].ctl.jobs[id].startAt > CLAIM_GRACE
    ensures !CanStart(ws[h + 1], id)
  {
    CoverageOverRuns(ws, ss, h);
    assert Leads(ws, ss, h);
    WrittenOffFacts(ws[h], ss[h], ws[h + 1], id, n);
    SweptHasNoStaleLaunch(ws, ss, h, id, n);
    if Reaches(ws[h].Queue(n), id) {
      ReachesIsAhead(ws[h].Queue(n), id);
    }
    ReclaimedMayStartIff(ws, ss, h, id, n);
  }

  // ----- the sweep does not see a drained machine -----

  const FRESHLY_GIVEN := Job(Running, "n", Blank, 0, 1, false, 0)
  const WRITTEN_OFF := FRESHLY_GIVEN.(state := Failed, reason := Reclaimed, code := -1)

  /** Worlds in which machine "n" is the only one, and job 7 the only job. */
  ghost function OneMachine(clock: int, jobs: map<JobId, Job>, state: NodeState, lastSeen: int, queue: map<NodeName, seq<Action>>,
                            last: int, agent: map<NodeName, AgentState>, wire: Wire): World
  {
    World(clock, Ctl(jobs, map["n" := Node(state, lastSeen)], {}, queue, map["n" := last]), agent, map["n" := wire],
          NOTHING_HALFWAY, {}, multiset{}, multiset{}, multiset{})
  }

  lemma {:induction false} MachineAppears(w0: World) returns (ws: seq<World>, ss: seq<Step>)
    requires w0 == World(1, Ctl(map[], map[], {}, map[], map[]), map[], map[], NOTHING_HALFWAY, {}, multiset{}, multiset{}, multiset{})
    ensures ss == [Snap("n", [], Silent), HandleRequest("n", [], {}), Drop("n")] && IsPath(ws, ss) && ws[0] == w0
    ensures ws[3] == OneMachine(1, map[], Up, 1, map[], 1, map[], Idle)
  {
    ss := [Snap("n", [], Silent), HandleRequest("n", [], {}), Drop("n")];
    var w1 := Next(w0, ss[0]);
    assert w1.Wire("n").hb == Heartbeat("n", [], [], true, Silent);
    var w2 := Next(w1, ss[1]);
    var w3 := Next(w2, ss[2]);
    ws := [w0, w1, w2, w3];
    assert LaunchesOn([], "n") == {};
    assert w3.wires == map["n" := Idle] && w3.ctl.pending == map[] && w3.ctl.jobs == map[];
  }

  lemma {:induction false} JobGiven(w0: World) returns (ws: seq<World>, ss: seq<Step>)
    requires w0 == OneMachine(1, map[], Up, 1, map[], 1, map[], Idle)
    ensures ss == [SubmitJob(7, false), Select({7}), Plan(map[7 := "n"]), Mark(7, true)] && IsPath(ws, ss) && ws[0] == w0
    ensures ws[4] == OneMachine(1, map[7 := FRESHLY_GIVEN], Up, 1, map["n" := [Launch(7)]], 1, map[], Idle)
  {
    var w3: World;
    ws, ss, w3 := JobChosen(w0);
    var w4 := Next(w3, Mark(7, true));
    assert w4.ctl.jobs == map[7 := FRESHLY_GIVEN] && [] + [Launch(7)] == [Launch(7)];
    assert w4.halfway == NOTHING_HALFWAY;
    ws, ss := Append(ws, ss, Mark(7, true));
  }

  lemma {:induction false} Append(ws: seq<World>, ss: seq<Step>, s: Step) returns (vs: seq<World>, ts: seq<Step>)
    requires IsPath(ws, ss) && Enabled(ws[|ss|], s)
    ensures IsPath(vs, ts) && vs == ws + [Next(ws[|ss|], s)] && ts == ss + [s]
  {
    vs, ts := ws + [Next(ws[|ss|], s)], ss + [s];
    forall i | 0 <= i < |ts| ensures Leads(vs, ts, i) {
      if i < |ss| { assert Leads(ws, ss, i); }
    }
  }

  const WAITING := Job(Pending, "", Blank, 0, 0, false, 0)

  /** The job is submitted, and a scheduling pass decides to give it to the machine. */
  lemma {:induction false} JobChosen(w0: World) returns (ws: seq<World>, ss: seq<Step>, w3: World)
    requires w0 == OneMachine(1, map[], Up, 1, map[], 1, map[], Idle)
    ensures ss == [SubmitJob(7, false), Select({7}), Plan(map[7 := "n"])] && IsPath(ws, ss) && ws[0] == w0 && ws[3] == w3
    ensures w3 == OneMachine(1, map[7 := WAITING], Up, 1, map[], 1, map[], Idle).(halfway := NOTHING_HALFWAY.(planned := map[7 := "n"]))
  {
    ws, ss := Append([w0], [], SubmitJob(7, false));
    ws, ss := Append(ws, ss, Select({7}));
    ws, ss := Append(ws, ss, Plan(map[7 := "n"]));
    w3 := ws[3];
  }

  lemma {:induction false} Drained(w0: World) returns (w1: World, w2: World)
    requires w0 == OneMachine(1, map[7 := FRESHLY_GIVEN], Up, 1, map["n" := [Launch(7)]], 1, map[], Idle)
    ensures Enabled(w0, SetNode("n", Drain("away"))) && w1 == Next(w0, SetNode("n", Drain("away")))
    ensures Enabled(w1, Tick(60_000)) && w2 == Next(w1, Tick(60_000))
    ensures w2 == OneMachine(60_001, map[7 := FRESHLY_GIVEN], Drain("away"), 1, map["n" := [Launch(7)]], 1, map[], Idle)
  {
    w1 := Next(w0, SetNode("n", Drain("away")));
    w2 := Next(w1, Tick(60_000));
    assert w2.ctl.nodes == map["n" := Node(Drain("away"), 1)];
  }

  lemma {:induction false} SweptInVain(w: World)
    requires w == OneMachine(60_001, map[7 := FRESHLY_GIVEN], Drain("away"), 1, map["n" := [Launch(7)]], 1, map[], Idle)
    ensures Next(w, MarkSilent) == w
  {
  }

  lemma {:induction false} DrainedAndSwept(w0: World) returns (ws: seq<World>, ss: seq<Step>)
    requires w0 == OneMachine(1, map[7 := FRESHLY_GIVEN], Up, 1, map["n" := [Launch(7)]], 1, map[], Idle)
    ensures |ss| == 3 && IsPath(ws, ss) && ws[0] == w0 && ss[2] == MarkSilent
    ensures ws[3] == OneMachine(60_001, map[7 := FRESHLY_GIVEN], Drain("away"), 1, map["n" := [Launch(7)]], 1, map[], Idle)
  {
    ss := [SetNode("n", Drain("away")), Tick(60_000), MarkSilent];
    var w1, w2 := Drained(w0);
    SweptInVain(w2);
    ws := [w0, w1, w2, w2];
  }

  lemma {:induction false} JobWrittenOff(w0: World, state: NodeState, silent: set<NodeName>) returns (ws: seq<World>, ss: seq<Step>)
    requires w0 == OneMachine(60_001, map[7 := FRESHLY_GIVEN], state, 1, map["n" := [Launch(7)]], 1, map[], Idle).(halfway := NOTHING_HALFWAY.(silent := silent))
    ensures |ss| == 2 && IsPath(ws, ss) && ws[0] == w0
    ensures WrittenOffBy(ws[1], ss[1], ws[2], 7, "n") && (ws[1].clock, ws[1].ctl, ws[1].halfway) == (w0.clock, w0.ctl, w0.halfway)
    ensures ws[2] == OneMachine(60_001, map[7 := WRITTEN_OFF], if state.Drain? then state else Up, 60_001, map[], 60_001, map[],
                                Reply(Response([Launch(7)], [], true))).(halfway := NOTHING_HALFWAY.(silent := silent))
  {
    ss := [Snap("n", [], Silent), HandleRequest("n", [], {})];
    var w1 := Next(w0, ss[0]);
    assert w1.Wire("n").hb == NOTHING_CLAIMED;
    NothingClaimed(w1.ctl, state);
    var w2 := Next(w1, ss[1]);
    assert w2.wires == map["n" := Reply(Response([Launch(7)], [], true))] && w2.halfway == w1.halfway;
    ws := [w0, w1, w2];
  }

  const NOTHING_CLAIMED := Heartbeat("n", [], [], true, Silent)

  lemma {:induction false} NothingClaimed(c: Ctl, state: NodeState)
    requires c == Ctl(map[7 := FRESHLY_GIVEN], map["n" := Node(state, 1)], {}, map["n" := [Launch(7)]], map["n" := 1])
    ensures Handle(c, map[], NOTHING_CLAIMED, 60_001, [], {})
              == (Ctl(map[7 := WRITTEN_OFF], map["n" := Node(if state.Drain? then state else Up, 60_001)], {}, map[], map["n" := 60_001]),
                  Response([Launch(7)], [], true))
  {
    var c' := Handle(c, map[], NOTHING_CLAIMED, 60_001, [], {}).0;
    assert NOTHING_CLAIMED.jobs == [] && ApplyReports(c.jobs, map[], "n", NOTHING_CLAIMED.jobs, []) == (c.jobs, []);
    assert c'.jobs == map[7 := WRITTEN_OFF];
    assert c'.pending == map[] && c'.lastReclaim == map["n" := 60_001];
    assert c'.nodes == map["n" := Node(if state.Drain? then state else Up, 60_001)];
  }

  lemma {:induction false} JobStartedAnyway(w0: World, state: NodeState, silent: set<NodeName>) returns (ws: seq<World>, ss: seq<Step>)
    requires w0 == OneMachine(60_001, map[7 := WRITTEN_OFF], state, 60_001, map[], 60_001, map[], Reply(Response([Launch(7)], [], true))).(halfway := NOTHING_HALFWAY.(silent := silent))
    ensures |ss| == 2 && IsPath(ws, ss) && ws[0] == w0
    ensures ws[2].ctl.jobs == map[7 := WRITTEN_OFF] && 7 in ws[2].Agent("n").run
  {
    ss := [Deliver("n"), Act("n", Accept, [])];
    var w1 := Next(w0, ss[0]);
    assert w1.Wire("n") == Acting([Launch(7)]);
    assert w1.Agent("n").run == {};
    var w2 := Next(w1, ss[1]);
    ws := [w0, w1, w2];
  }

  /** `us` and its steps are the stretch of a path that starts at index `k`. */
  ghost predicate Stretch(ws: seq<World>, ss: seq<Step>, k: nat, us: seq<World>, rs: seq<Step>) {
    && |us| == |rs| + 1 && |ws| == |ss| + 1 && k + |rs| <= |ss|
    && ws[k..k + |us|] == us && ss[k..k + |rs|] == rs
  }

  lemma {:induction false} Chain(vs: seq<World>, ts: seq<Step>, us: seq<World>, rs: seq<Step>) returns (ws: seq<World>, ss: seq<Step>)
    requires IsPath(vs, ts) && IsPath(us, rs) && vs[|ts|] == us[0]
    ensures IsPath(ws, ss) && ws[0] == vs[0] && ws[|ss|] == us[|rs|] && |ss| == |ts| + |rs|
    ensures Stretch(ws, ss, |ts|, us, rs) && Stretch(ws, ss, 0, vs, ts) && ss == ts + rs
  {
    ws, ss := vs + us[1..], ts + rs;
    forall i | 0 <= i < |ss| ensures Leads(ws, ss, i) {
      if i < |ts| {
        assert Leads(vs, ts, i);
        assert ws[i] == vs[i] && ws[i + 1] == vs[i + 1] && ss[i] == ts[i];
      } else {
        assert Leads(us, rs, i - |ts|);
        assert ws[i] == us[i - |ts|] && ws[i + 1] == us[i + 1 - |ts|] && ss[i] == rs[i - |ts|];
      }
    }
  }

  /** A machine given a job, drained before it checks in, and silent for a minute:
      a sweep changes nothing, so the heartbeat that next writes the job off also
      delivers its Launch, and the job runs with a record that says it failed. */
  lemma {:induction false} DrainHidesFromSweep() returns (ws: seq<World>, ss: seq<Step>, after: seq<World>, steps: seq<Step>)
    ensures IsRun(ws, ss) && |steps| == 7 <= |ss| && Stretch(ws, ss, |ss| - 7, after, steps)
    ensures steps[2] == MarkSilent && after[3].clock == after[4].clock
    ensures WrittenOffBy(after[4], steps[4], after[5], 7, "n")
    ensures after[7].ctl.jobs == map[7 := WRITTEN_OFF] && 7 in after[7].Agent("n").run
  {
    var w0 := World(1, Ctl(map[], map[], {}, map[], map[]), map[], map[], NOTHING_HALFWAY, {}, multiset{}, multiset{}, multiset{});
    var one, ss1 := MachineAppears(w0);
    var given, ss2 := JobGiven(one[3]);
    after, steps := SweptThenStarted(given[4]);
    var before, ss12 := Chain(one, ss1, given, ss2);
    ws, ss := Chain(before, ss12, after, steps);
  }

  lemma {:induction false} SweptThenStarted(w0: World) returns (ws: seq<World>, ss: seq<Step>)
    requires w0 == OneMachine(1, map[7 := FRESHLY_GIVEN], Up, 1, map["n" := [Launch(7)]], 1, map[], Idle)
    ensures |ss| == 7 && IsPath(ws, ss) && ws[0] == w0
    ensures ss[2] == MarkSilent && ws[3].clock == ws[4].clock && WrittenOffBy(ws[4], ss[4], ws[5], 7, "n")
    ensures ws[7].ctl.jobs == map[7 := WRITTEN_OFF] && 7 in ws[7].Agent("n").run
  {
    var swept, ss1 := DrainedAndSwept(w0);
    var off, ss2 := JobWrittenOff(swept[3], Drain("away"), {});
    var started, ss3 := JobStartedAnyway(off[2], Drain("away"), {});
    var front, ss12 := Chain(swept, ss1, off, ss2);
    ws, ss := Chain(front, ss12, started, ss3);
    assert ss[2] == ss[..5][2] && ss12[2] == ss12[..3][2];
    assert ws[3] == ws[..6][3] && ws[4] == ws[..6][4] && ws[5] == ws[..6][5] && ss[4] == ss[..5][4];
    assert front[3] == front[3..6][0] && front[4] == front[3..6][1] && front[5] == front[3..6][2] && ss12[4] == ss12[3..5][1];
  }

  /** A machine given a job, and silent for a minute, checks in again when a sweep has
      marked it down and not yet dropped its queue: it is written off, and started. */
  lemma {:induction false} SweepLosesRace() returns (ws: seq<World>, ss: seq<Step>, after: seq<World>, steps: seq<Step>)
    ensures IsRun(ws, ss) && |steps| == 6 <= |ss| && Stretch(ws, ss, |ss| - 6, after, steps)
    ensures steps[1] == MarkSilent && "n" in after[3].halfway.silent && after[3].clock - FRESHLY_GIVEN.startAt > CLAIM_GRACE
    ensures WrittenOffBy(after[3], steps[3], after[4], 7, "n") && SweptNow(after[3].(halfway := NOTHING_HALFWAY), "n")
    ensures after[6].ctl.jobs == map[7 := WRITTEN_OFF] && 7 in after[6].Agent("n").run
  {
    var w0 := World(1, Ctl(map[], map[], {}, map[], map[]), map[], map[], NOTHING_HALFWAY, {}, multiset{}, multiset{}, multiset{});
    var one, ss1 := MachineAppears(w0);
    var given, ss2 := JobGiven(one[3]);
    after, steps := MarkedThenStarted(given[4]);
    var before, ss12 := Chain(one, ss1, given, ss2);
    ws, ss := Chain(before, ss12, after, steps);
  }

  lemma {:induction false} MarkedThenStarted(w0: World) returns (ws: seq<World>, ss: seq<Step>)
    requires w0 == OneMachine(1, map[7 := FRESHLY_GIVEN], Up, 1, map["n" := [Launch(7)]], 1, map[], Idle)
    ensures |ss| == 6 && IsPath(ws, ss) && ws[0] == w0
    ensures ss[1] == MarkSilent && "n" in ws[3].halfway.silent && ws[3].clock - FRESHLY_GIVEN.startAt > CLAIM_GRACE
    ensures WrittenOffBy(ws[3], ss[3], ws[4], 7, "n") && SweptNow(ws[3].(halfway := NOTHING_HALFWAY), "n")
    ensures ws[6].ctl.jobs == map[7 := WRITTEN_OFF] && 7 in ws[6].Agent("n").run
  {
    var w1, w2 := MarkedSilent(w0);
    var off, ss2 := JobWrittenOff(w2, Down, {"n"});
    var started, ss3 := JobStartedAnyway(off[2], Up, {"n"});
    ws, ss := Chain([w0, w1, w2], [Tick(60_000), MarkSilent], off, ss2);
    assert ws[3] == ws[2..5][1] && ws[4] == ws[2..5][2] && ss[3] == ss[2..4][1] && ss[1] == ss[..2][1];
    var front, steps := ws, ss;
    ws, ss := Chain(front, steps, started, ss3);
    assert ws[3] == ws[..5][3] && ws[4] == ws[..5][4] && ss[3] == ss[..4][3] && ss[1] == ss[..4][1];
  }

  lemma {:induction false} MarkedSilent(w0: World) returns (w1: World, w2: World)
    requires w0 == OneMachine(1, map[7 := FRESHLY_GIVEN], Up, 1, map["n" := [Launch(7)]], 1, map[], Idle)
    ensures IsPath([w0, w1, w2], [Tick(60_000), MarkSilent])
    ensures w2 == OneMachine(60_001, map[7 := FRESHLY_GIVEN], Down, 1, map["n" := [Launch(7)]], 1, map[], Idle).(halfway := NOTHING_HALFWAY.(silent := {"n"}))
  {
    w1 := Next(w0, Tick(60_000));
    w2 := Next(w1, MarkSilent);
    assert w2.ctl.nodes == map["n" := Node(Down, 1)];
    assert w2.halfway.silent == {"n"};
  }

  // ----- an admin's drain and the owner's -----

  /** The registry after a machine's heartbeats, one owner disposition each. */
  function AfterHeartbeats(nodes: map<NodeName, Node>, n: NodeName, owners: seq<OwnerAction>, now: int): map<NodeName, Node> {
    if owners == [] then nodes
    else
      var k := |owners| - 1;
      Upsert(OwnerApplied(AfterHeartbeats(nodes, n, owners[..k], now), n, owners[k]), n, now)
  }

  /** What one heartbeat makes of a machine that is up or drained. */
  lemma {:induction false} OneHeartbeat(nodes: map<NodeName, Node>, n: NodeName, owner: OwnerAction, now: int)
    requires n in nodes && !nodes[n].state.Down?
    ensures var was, after := nodes[n].state, Upsert(OwnerApplied(nodes, n, owner), n, now);
            && n in after
            && after[n].state == if owner.Yield? then Drain(OWNER + owner.why) else if owner.Work? && was.ByOwner() then Up else was
  {
  }

  /** Whether the owner takes the machine back among these heartbeats. */
  predicate Yields(owners: seq<OwnerAction>) {
    exists i :: 0 <= i < |owners| && owners[i].Yield?
  }

  /** What the owner said last, where saying nothing is not an answer. */
  function LastSaid(owners: seq<OwnerAction>): OwnerAction {
    if owners == [] then Silent
    else if owners[|owners| - 1].Silent? then LastSaid(owners[..|owners| - 1])
    else owners[|owners| - 1]
  }

  /** What an admin's drain becomes.  It is lifted if and only if the owner's last word
      lets the machine work, and either the owner had taken it back before or the admin's
      own reason begins as an owner's does; otherwise the machine stays drained, for the
      admin's reason or for the owner's later one. */
  lemma {:induction false} AdminDrainLiftedIff(nodes: map<NodeName, Node>, n: NodeName, why: string, owners: seq<OwnerAction>, now: int)
    requires n in nodes && nodes[n].state == Drain(why)
    ensures var after, said := AfterHeartbeats(nodes, n, owners, now), LastSaid(owners);
            && n in after
            && after[n].state == (if said.Yield? then Drain(OWNER + said.why)
                                  else if said.Work? && (Yields(owners) || OWNER <= why) then Up else Drain(why))
            && (said.Silent? ==> !Yields(owners)) && (said.Yield? ==> Yields(owners))
  {
    if owners != [] {
      var k := |owners| - 1;
      AdminDrainLiftedIff(nodes, n, why, owners[..k], now);
      OneHeartbeat(AfterHeartbeats(nodes, n, owners[..k], now), n, owners[k], now);
      OneMoreOwner(owners);
      var said := LastSaid(owners[..k]);
      assert said.Yield? ==> OWNER <= OWNER + said.why;
    }
  }

  lemma {:induction false} OneMoreOwner(owners: seq<OwnerAction>)
    requires owners != []
    ensures Yields(owners) <==> Yields(owners[..|owners| - 1]) || owners[|owners| - 1].Yield?
  {
  }

  /** An admin's reason is free text: a drain for a holiday of the machine's owner is
      lifted by an owner who never asked for one. */
  lemma {:induction false} HolidayDrainIsLifted(nodes: map<NodeName, Node>, n: NodeName, now: int)
    requires n in nodes && nodes[n].state == Drain("owner: on holiday")
    ensures var after := AfterHeartbeats(nodes, n, [Work], now); n in after && after[n].state == Up && !Yields([Work])
  {
  }
}
