/** The whole cluster as a transition system: one controller, any number of
    agents, and one heartbeat exchange per agent that may be lost on the way up
    or on the way down.  An exchange has three parts, and every other event may
    happen between them: the agent takes its snapshot, the controller handles
    it, the agent takes the reply and carries out its actions one by one.  To handle
    it, the controller may read the jobs' records before it writes them, and what
    happens in between escapes it. */
module Cluster {
  import opened Protocol
  import opened Control
  import opened Agents

  datatype Wire =
    | Idle
    | Request(hb: Heartbeat)
    | Reply(resp: Response)
    | Acting(actions: seq<Action>)

  /** Requests under way in the controller, which will act on what they once read. */
  datatype Halfway = Halfway(
    selected: set<JobId>,           // read from the queue by the scheduling pass
    planned: map<JobId, NodeName>,  // its decisions, not yet carried out
    cancelling: multiset<(JobId, NodeName)>,  // looked up as not over, with the machine to tell
    silent: set<NodeName>,          // marked down by the sweep, which has yet to drop their queues
    lost: set<JobId>,               // listed as lost by the sweep, and to be written off
    seen: map<NodeName, map<JobId, Job>>)  // read for the request of a machine, before its writes
  {
    /** Sweeps and scheduling passes take turns in one loop. */
    predicate NoPass() { selected == {} && planned == map[] && silent == {} && lost == {} }
  }

  const NOTHING_HALFWAY := Halfway({}, map[], multiset{}, {}, {}, map[])

  datatype World = World(
    clock: int,
    ctl: Ctl,
    agents: map<NodeName, AgentState>,
    wires: map<NodeName, Wire>,
    halfway: Halfway,
    // History, read by no step.
    lost: set<(JobId, NodeName)>,   // placements whose Launch, agent memory or result was lost
    launches: multiset<JobId>,      // jobs started, counted over all agents
    consumed: multiset<JobId>,      // Launch actions an agent has taken up, however they went
    cleanups: multiset<JobId>)      // scratch directories removed
  {
    function Agent(n: NodeName): AgentState { At(agents, n, FRESH) }

    function Wire(n: NodeName): Wire { At(wires, n, Idle) }

    function Queue(n: NodeName): seq<Action> { At(ctl.pending, n, []) }

    function SeenFor(n: NodeName): map<JobId, Job> { At(halfway.seen, n, map[]) }
  }

  datatype Step =
    | Tick(d: nat)
    | SubmitJob(id: JobId, requeue: bool)
    | Select(ids: set<JobId>)                    // a scheduling pass reads the queue ...
    | Plan(ds: map<JobId, NodeName>)             // ... and the registry, and decides ...
    | Mark(id: JobId, ok: bool)                  // ... and carries its decisions out one by one
    | LookUp(id: JobId)                          // a cancellation, or the pass's own, looks the job up ...
    | CancelIt(id: JobId, on: NodeName, ok: bool)  // ... and writes
    | UserRequeue(id: JobId, ok: bool)
    | SetNode(n: NodeName, target: NodeState)     // an admin drains or resumes a machine
    | Stopping(n: NodeName)                      // an admin asks an agent to exit
    | Remove(n: NodeName)
    | Join(n: NodeName)
    | MarkSilent                                 // a sweep marks the silent machines down ...
    | DropQueue(n: NodeName)                     // ... drops what is queued for them ...
    | ListLost                                   // ... lists the jobs that are lost for good ...
    | GiveUp(id: JobId, ok: bool)                // ... and writes them off one by one
    | ReadFor(n: NodeName, id: JobId)            // handling a machine's request reads a job's record
    | ControllerRestart
    | Snap(n: NodeName, order: seq<JobId>, owner: OwnerAction)
    | HandleRequest(n: NodeName, served: seq<Access>, bad: set<JobId>)
    | Drop(n: NodeName)                          // the request or the reply is lost
    | Deliver(n: NodeName)
    | Act(n: NodeName, fate: Fate, order: seq<JobId>)
    | Exit(n: NodeName, id: JobId, state: JobState, code: int)  // a supervised job ends
    | AgentRestart(n: NodeName)

  function InTransit(wire: Wire): seq<Action> {
    match wire
    case Reply(resp) => resp.actions
    case Acting(actions) => actions
    case _ => []
  }

  ghost function LaunchesOn(actions: seq<Action>, n: NodeName): set<(JobId, NodeName)> {
    set a | a in actions && a.Launch? :: (a.id, n)
  }

  ghost function AllOn(ids: set<JobId>, n: NodeName): set<(JobId, NodeName)> {
    set id | id in ids :: (id, n)
  }

  ghost function QueuedOn(pending: map<NodeName, seq<Action>>, gone: set<NodeName>): set<(JobId, NodeName)> {
    set n, a | n in gone && n in pending && a in pending[n] && a.Launch? :: (a.id, n)
  }

  function IdSeq(done: seq<Status>): (ids: seq<JobId>)
    ensures SetOf(ids) == Ids(done)
  {
    if done == [] then []
    else
      assert done == [done[0]] + done[1..];
      var rest := IdSeq(done[1..]);
      assert SetOf([done[0].id] + rest) == {done[0].id} + SetOf(rest);
      [done[0].id] + rest
  }

  function Snapshot(a: AgentState, n: NodeName, order: seq<JobId>, owner: OwnerAction, claimsOK: bool): Heartbeat {
    Heartbeat(n, StillRunning(order) + a.done, if claimsOK then order + IdSeq(a.done) else [], claimsOK, owner)
  }

  ghost predicate Enabled(w: World, s: Step) {
    match s
    case Tick(_) => true
    case SubmitJob(id, _) => id !in w.ctl.jobs
    case Select(ids) => w.halfway.NoPass() && forall id :: id in ids ==> id in w.ctl.jobs && w.ctl.jobs[id].state == Pending
    case Plan(ds) =>
      && w.halfway.planned == map[] && ds.Keys <= w.halfway.selected
      && forall id :: id in ds ==> ds[id] != "" && ds[id] in w.ctl.nodes && w.ctl.nodes[ds[id]].state == Up
    case Mark(id, _) => id in w.halfway.planned && id in w.ctl.jobs
    case LookUp(_) => true
    case CancelIt(id, on, _) => (id, on) in w.halfway.cancelling && id in w.ctl.jobs
    case UserRequeue(_, _) => true
    case SetNode(n, target) => target != Down
    case Stopping(_) => true
    case Remove(_) => true
    case Join(_) => true
    case MarkSilent => w.halfway.NoPass()
    case DropQueue(n) => n in w.halfway.silent
    case ListLost => w.halfway.NoPass()
    case GiveUp(id, _) => id in w.halfway.lost && id in w.ctl.jobs
    case ReadFor(n, id) => w.Wire(n).Request? && id in w.ctl.jobs && id !in w.SeenFor(n)
    case ControllerRestart => true
    case Snap(n, order, _) => n != "" && w.Agent(n).looping && w.Wire(n).Idle? && IsOrder(order, w.Agent(n).run)
    case HandleRequest(n, served, _) => w.Wire(n).Request? && |served| == |w.Wire(n).hb.jobs|
    case Drop(n) => w.Wire(n).Request? || w.Wire(n).Reply?
    case Deliver(n) => w.Wire(n).Reply? && w.Agent(n).looping
    case Act(n, _, order) => w.Wire(n).Acting? && IsOrder(order, w.Agent(n).run)
    case Exit(n, id, state, _) => id in w.Agent(n).run && state.Terminal()
    case AgentRestart(_) => true
  }

  ghost function Acted(w: World, n: NodeName, fate: Fate, order: seq<JobId>): World
    requires w.Wire(n).Acting?
  {
    var acts := w.Wire(n).actions;
    if acts == [] then w.(wires := w.wires[n := Idle])
    else
      var a, act := w.Agent(n), acts[0];
      var b := Perform(a, act, fate);
      w.(agents := w.agents[n := b],
         consumed := if act.Launch? then w.consumed + multiset{act.id} else w.consumed,
         launches := w.launches + multiset(b.run - a.run),
         // At a stop the agent flushes its reports in one last heartbeat, which claims nothing.
         wires := w.wires[n := if act.Stop? then Request(Snapshot(b, n, order, Silent, false)) else Acting(acts[1..])],
         lost := if act.Stop? then w.lost + LaunchesOn(acts[1..], n) else w.lost)
  }

  ghost function Delivered(w: World, n: NodeName): World
    requires w.Wire(n).Reply?
  {
    var a, resp := w.Agent(n), w.Wire(n).resp;
    var b := Receive(a, resp);
    w.(agents := w.agents[n := b],
       wires := w.wires[n := if resp.known then Acting(resp.actions) else Idle],
       lost := if resp.known then w.lost else w.lost + LaunchesOn(resp.actions, n),
       cleanups := w.cleanups + multiset(a.finished - b.finished))
  }

  /** What was read for a machine's request goes when the request ends. */
  function NoneSeen(h: Halfway, n: NodeName): Halfway {
    h.(seen := h.seen - {n})
  }

  ghost function Restarted(w: World, n: NodeName): World {
    var a := w.Agent(n);
    w.(agents := w.agents[n := FRESH],
       wires := w.wires[n := Idle],
       halfway := NoneSeen(w.halfway, n),
       lost := w.lost + AllOn(a.run, n) + AllOn(Ids(a.done), n) + LaunchesOn(InTransit(w.Wire(n)), n))
  }

  /** Jobs recorded as running on a machine although their result is acknowledged. */
  ghost function Unrecorded(jobs: map<JobId, Job>, n: NodeName, acked: seq<JobId>): set<(JobId, NodeName)> {
    set id | id in acked && id in jobs && jobs[id].state == Running && jobs[id].node == n :: (id, n)
  }

  ghost function Handled(w: World, n: NodeName, served: seq<Access>, bad: set<JobId>): World
    requires w.Wire(n).Request? && |served| == |w.Wire(n).hb.jobs|
  {
    var (ctl, resp) := Handle(w.ctl, w.SeenFor(n), w.Wire(n).hb, w.clock, served, bad);
    w.(ctl := ctl, wires := w.wires[n := Reply(resp)], halfway := NoneSeen(w.halfway, n),
       lost := w.lost + Unrecorded(ctl.jobs, n, resp.acked))
  }

  ghost function Marked(w: World, id: JobId, ok: bool): World
    requires Enabled(w, Mark(id, ok))
  {
    var n, left := w.halfway.planned[id], w.halfway.(planned := w.halfway.planned - {id});
    if ok then w.(ctl := Assign(w.ctl, id, n, w.clock), halfway := left, lost := w.lost - {(id, n)})
    else w.(halfway := left)
  }

  /** The steps of the controller alone. */
  predicate OfController(s: Step) {
    || s.Tick? || s.SubmitJob? || s.Select? || s.Plan? || s.Mark? || s.LookUp? || s.CancelIt? || s.UserRequeue?
    || s.SetNode? || s.Stopping? || s.Remove? || s.Join? || s.MarkSilent? || s.DropQueue? || s.ListLost? || s.GiveUp?
    || s.ReadFor? || s.ControllerRestart?
  }

  ghost function ControllerNext(w: World, s: Step): World
    requires Enabled(w, s) && OfController(s)
  {
    match s
    case Tick(d) => w.(clock := w.clock + d)
    case SubmitJob(id, requeue) => w.(ctl := Submit(w.ctl, id, requeue))
    case Select(ids) => w.(halfway := w.halfway.(selected := ids))
    case Plan(ds) => w.(halfway := w.halfway.(selected := {}, planned := ds))
    case Mark(id, ok) => Marked(w, id, ok)
    case LookUp(id) =>
      if id !in w.ctl.jobs || w.ctl.jobs[id].state.Terminal() then w
      else w.(halfway := w.halfway.(cancelling := w.halfway.cancelling + multiset{(id, Runner(w.ctl.jobs[id]))}))
    case CancelIt(id, on, ok) =>
      w.(ctl := WriteCancelled(w.ctl, id, on, ok), halfway := w.halfway.(cancelling := w.halfway.cancelling - multiset{(id, on)}))
    case UserRequeue(id, ok) => w.(ctl := Requeue(w.ctl, id, ok))
    case SetNode(n, target) => w.(ctl := SetState(w.ctl, n, target))
    case Stopping(n) => w.(ctl := StopNode(w.ctl, n))
    case Remove(n) =>
      w.(ctl := RemoveNode(w.ctl, n),
         lost := if Removable(w.ctl, n) then w.lost + QueuedOn(w.ctl.pending, {n}) else w.lost)
    case Join(n) => w.(ctl := w.ctl.(forgotten := w.ctl.forgotten - {n}))
    case MarkSilent =>
      w.(ctl := Sweep(w.ctl, w.clock), halfway := w.halfway.(silent := SilentNodes(w.ctl.nodes, w.clock)))
    case DropQueue(n) =>
      w.(ctl := w.ctl.(pending := w.ctl.pending - {n}),
         halfway := w.halfway.(silent := w.halfway.silent - {n}),
         lost := w.lost + QueuedOn(w.ctl.pending, {n}))
    case ListLost => w.(halfway := w.halfway.(lost := LostJobs(w.ctl, w.clock)))
    case GiveUp(id, ok) =>
      w.(ctl := if ok then WriteOff(w.ctl, id) else w.ctl, halfway := w.halfway.(lost := w.halfway.lost - {id}))
    case ReadFor(n, id) =>
      w.(halfway := w.halfway.(seen := w.halfway.seen[n := w.SeenFor(n)[id := w.ctl.jobs[id]]]))
    case ControllerRestart =>
      w.(ctl := w.ctl.(pending := map[], lastReclaim := map[]),
         halfway := NOTHING_HALFWAY,
         lost := w.lost + QueuedOn(w.ctl.pending, w.ctl.pending.Keys))
  }

  ghost function MachineNext(w: World, s: Step): World
    requires Enabled(w, s) && !OfController(s)
  {
    match s
    case Snap(n, order, owner) => w.(wires := w.wires[n := Request(Snapshot(w.Agent(n), n, order, owner, true))])
    case HandleRequest(n, served, bad) => Handled(w, n, served, bad)
    case Drop(n) =>
      w.(wires := w.wires[n := Idle], halfway := NoneSeen(w.halfway, n),
         lost := w.lost + LaunchesOn(InTransit(w.Wire(n)), n))
    case Deliver(n) => Delivered(w, n)
    case Act(n, fate, order) => Acted(w, n, fate, order)
    case Exit(n, id, state, code) => w.(agents := w.agents[n := Reported(w.Agent(n), id, state, code)])
    case AgentRestart(n) => Restarted(w, n)
  }

  ghost function Next(w: World, s: Step): World
    requires Enabled(w, s)
  {
    if OfController(s) then ControllerNext(w, s) else MachineNext(w, s)
  }

  ghost predicate Initial(w: World) {
    && w.clock > 0
    && w.ctl == Ctl(map[], map[], {}, map[], map[])
    && w.agents == map[] && w.wires == map[]
    && w.halfway == NOTHING_HALFWAY
    && w.lost == {} && w.launches == w.consumed == w.cleanups == multiset{}
  }

  ghost predicate Leads(ws: seq<World>, ss: seq<Step>, i: nat)
    requires i < |ss| < |ws|
  {
    Enabled(ws[i], ss[i]) && ws[i + 1] == Next(ws[i], ss[i])
  }

  /** Consecutive worlds, and the steps between them. */
  ghost predicate IsPath(ws: seq<World>, ss: seq<Step>) {
    && |ws| == |ss| + 1
    && forall i :: 0 <= i < |ss| ==> Leads(ws, ss, i)
  }

  /** A run is a path from an initial world. */
  ghost predicate IsRun(ws: seq<World>, ss: seq<Step>) {
    IsPath(ws, ss) && Initial(ws[0])
  }
}
