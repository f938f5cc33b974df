/** The controller's half of the job protocol.  Each operation is written twice:
    as a function on the value `Ctl`, about which the whole-run theorems are
    proved, and as a method of the class `Controller`, which updates its maps in
    place and is proved to do what the function says. */
module Control {
  import opened Protocol

  datatype Ctl = Ctl(
    jobs: map<JobId, Job>,                    // the durable store
    nodes: map<NodeName, Node>,               // the machine registry
    forgotten: set<NodeName>,                 // machines somebody removed
    pending: map<NodeName, seq<Action>>,      // queued until the next heartbeat
    lastReclaim: map<NodeName, int>)

  function Finished(j: Job, state: JobState, code: int, reason: Reason): Job {
    j.(state := state, code := code, reason := reason)
  }

  function BackInQueue(j: Job, reason: Reason): Job {
    j.(state := Pending, node := "", startAt := 0, reason := reason, requeues := j.requeues + 1)
  }

  /** What becomes of a job whose machine no longer has it. */
  function Abandoned(j: Job, reason: Reason): Job {
    if j.requeue then BackInQueue(j, reason) else Finished(j, Failed, -1, reason)
  }

  function Enqueue(pending: map<NodeName, seq<Action>>, n: NodeName, a: Action): map<NodeName, seq<Action>> {
    pending[n := At(pending, n, []) + [a]]
  }

  // ----- scheduling -----

  function Assign(c: Ctl, id: JobId, n: NodeName, now: int): Ctl
    requires id in c.jobs
  {
    c.(jobs := c.jobs[id := c.jobs[id].(state := Running, node := n, startAt := now, reason := Blank)],
       pending := Enqueue(c.pending, n, Launch(id)))
  }

  datatype Decision = Decision(id: JobId, node: NodeName)

  function AssignAll(c: Ctl, ds: seq<Decision>, oks: seq<bool>, now: int): (r: Ctl)
    requires |oks| == |ds|
    requires forall d <- ds :: d.id in c.jobs
    ensures r.jobs.Keys == c.jobs.Keys
  {
    if ds == [] then c
    else
      var k := |ds| - 1;
      var before := AssignAll(c, ds[..k], oks[..k], now);
      if oks[k] then Assign(before, ds[k].id, ds[k].node, now) else before
  }

  // ----- reports -----

  /** What a request takes a job's record to be: `seen` holds what it read before, of the
      jobs it does not read at the moment it writes. */
  function Seen(jobs: map<JobId, Job>, seen: map<JobId, Job>, id: JobId): Job
    requires id in jobs
  {
    if id in seen then seen[id] else jobs[id]
  }

  /** One terminal report.  The flag says whether it is acknowledged; `access` says
      whether the store finds the job, and takes the write.  A job that cannot be looked
      up passes for one the store does not have.  The decision is made on the record that
      was read; the write goes to the record there is. */
  function ApplyReport(jobs: map<JobId, Job>, seen: map<JobId, Job>, n: NodeName, s: Status, access: Access)
    : (r: (map<JobId, Job>, bool))
  {
    if !s.state.Terminal() then (jobs, false)
    else if s.id !in jobs || access == Unread then (jobs, true)
    else
      var j, read := jobs[s.id], Seen(jobs, seen, s.id);
      if read.state.Terminal() then
        if read.node == n && read.reason == NodeLost then
          if access == Fine then (jobs[s.id := Finished(j, s.state, s.code, Recovered)], true) else (jobs, false)
        else (jobs, true)
      else if access == Unwritten then (jobs, false)
      else if s.refused then (jobs[s.id := BackInQueue(j, ByReport)], true)
      else (jobs[s.id := Finished(j, s.state, s.code, ByReport)], true)
  }

  /** The jobs reported as over. */
  function Ended(reports: seq<Status>): set<JobId> {
    set s | s in reports && s.state.Terminal() :: s.id
  }

  /** Each report reads its job anew: of two about one job, the second finds what the
      first wrote. */
  function ApplyReports(jobs: map<JobId, Job>, seen: map<JobId, Job>, n: NodeName, reports: seq<Status>, served: seq<Access>)
    : (r: (map<JobId, Job>, seq<JobId>))
    requires |served| == |reports|
    ensures r.0.Keys == jobs.Keys
  {
    if reports == [] then (jobs, [])
    else
      var k := |reports| - 1;
      var (before, acked) := ApplyReports(jobs, seen, n, reports[..k], served[..k]);
      var (after, ack) := ApplyReport(before, seen - Ended(reports[..k]), n, reports[k], served[k]);
      (after, if ack then acked + [reports[k].id] else acked)
  }

  // ----- reclaiming -----

  function Answerable(hb: Heartbeat): set<JobId> {
    (set id | id in hb.claimed) + (set s | s in hb.jobs :: s.id)
  }

  predicate PastGrace(j: Job, now: int) {
    j.startAt != 0 && now - j.startAt >= CLAIM_GRACE
  }

  predicate Unclaimed(j: Job, id: JobId, n: NodeName, claimed: set<JobId>, now: int) {
    j.state == Running && j.node == n && id !in claimed && PastGrace(j, now)
  }

  function Reclaim(jobs: map<JobId, Job>, seen: map<JobId, Job>, n: NodeName, claimed: set<JobId>, now: int, bad: set<JobId>)
    : map<JobId, Job>
  {
    map id | id in jobs ::
      if Unclaimed(Seen(jobs, seen, id), id, n, claimed, now) && id !in bad
      then Abandoned(jobs[id], Reclaimed) else jobs[id]
  }

  predicate Due(lastReclaim: map<NodeName, int>, n: NodeName, now: int) {
    n in lastReclaim ==> now - lastReclaim[n] >= RECLAIM_INTERVAL
  }

  // ----- one heartbeat -----

  function OwnerApplied(nodes: map<NodeName, Node>, n: NodeName, owner: OwnerAction): map<NodeName, Node> {
    if n !in nodes then nodes
    else match owner
      case Yield(why) => nodes[n := nodes[n].(state := Drain(OWNER + why))]
      case Work => if nodes[n].state.ByOwner() then nodes[n := nodes[n].(state := Up)] else nodes
      case Silent => nodes
  }

  function Upsert(nodes: map<NodeName, Node>, n: NodeName, now: int): map<NodeName, Node> {
    nodes[n := Node(if n in nodes && nodes[n].state.Drain? then nodes[n].state else Up, now)]
  }

  predicate Reclaims(c: Ctl, hb: Heartbeat, now: int) {
    hb.claimsOK && Due(c.lastReclaim, hb.node, now)
  }

  function Handle(c: Ctl, seen: map<JobId, Job>, hb: Heartbeat, now: int, served: seq<Access>, bad: set<JobId>): (Ctl, Response)
    requires |served| == |hb.jobs|
  {
    var n := hb.node;
    if n in c.forgotten then (c, Response([], [], false))
    else
      var (reported, acked) := ApplyReports(c.jobs, seen, n, hb.jobs, served);
      var due := Reclaims(c, hb, now);
      (Ctl(if due then Reclaim(reported, seen, n, Answerable(hb), now, bad) else reported,
           Upsert(OwnerApplied(c.nodes, n, hb.owner), n, now),
           c.forgotten,
           c.pending - {n},
           if due then c.lastReclaim[n := now] else c.lastReclaim),
       Response(At(c.pending, n, []), acked, true))
  }

  // ----- expiry -----

  predicate Silent(node: Node, now: int) {
    node.state == Up && node.lastSeen < now - NODE_TIMEOUT
  }

  function SilentNodes(nodes: map<NodeName, Node>, now: int): set<NodeName> {
    set n | n in nodes && Silent(nodes[n], now)
  }

  predicate LostFor(nodes: map<NodeName, Node>, j: Job, now: int) {
    j.state == Running && j.node in nodes && nodes[j.node].state == Down && nodes[j.node].lastSeen < now - JOB_GRACE
  }

  function LostJobs(c: Ctl, now: int): set<JobId> {
    set id | id in c.jobs && LostFor(c.nodes, c.jobs[id], now)
  }

  /** Writing off a job that was listed as lost, which does not look at the record again. */
  function WriteOff(c: Ctl, id: JobId): Ctl
    requires id in c.jobs
  {
    c.(jobs := c.jobs[id := Abandoned(c.jobs[id], NodeLost)])
  }

  function WrittenOff(jobs: map<JobId, Job>, lost: set<JobId>, bad: set<JobId>): map<JobId, Job> {
    map id | id in jobs :: if id in lost && id !in bad then Abandoned(jobs[id], NodeLost) else jobs[id]
  }

  function MarkedDown(nodes: map<NodeName, Node>, gone: set<NodeName>): map<NodeName, Node> {
    map n | n in nodes :: if n in gone then nodes[n].(state := Down) else nodes[n]
  }

  /** The silent machines are marked down ... */
  function Sweep(c: Ctl, now: int): Ctl {
    c.(nodes := MarkedDown(c.nodes, SilentNodes(c.nodes, now)))
  }

  /** ... their queues are dropped, and the jobs that are lost for good are written off. */
  function Expire(c: Ctl, now: int, bad: set<JobId>): Ctl {
    var swept := Sweep(c, now);
    swept.(pending := c.pending - SilentNodes(c.nodes, now),
           jobs := WrittenOff(c.jobs, LostJobs(swept, now), bad))
  }

  // ----- requests from people -----

  function Submit(c: Ctl, id: JobId, requeue: bool): Ctl {
    c.(jobs := c.jobs[id := Job(Pending, "", Blank, 0, 0, requeue, 0)])
  }

  /** The machine to be told to kill a job, by the record that was looked up; the empty
      name if there is none. */
  function Runner(j: Job): NodeName {
    if j.state == Running then j.node else ""
  }

  function KillQueued(c: Ctl, id: JobId, on: NodeName): map<NodeName, seq<Action>> {
    if on != "" then Enqueue(c.pending, on, Kill(id)) else c.pending
  }

  /** The second half of a cancellation, which does not look at the record again. */
  function WriteCancelled(c: Ctl, id: JobId, on: NodeName, ok: bool): Ctl
    requires id in c.jobs
  {
    c.(pending := KillQueued(c, id, on),
       jobs := if ok then c.jobs[id := Finished(c.jobs[id], Cancelled, -1, ByUser)] else c.jobs)
  }

  function Requeue(c: Ctl, id: JobId, ok: bool): Ctl {
    if id !in c.jobs then c
    else c.(pending := KillQueued(c, id, Runner(c.jobs[id])),
            jobs := if ok then c.jobs[id := BackInQueue(c.jobs[id], ByUser)] else c.jobs)
  }

  function SetState(c: Ctl, n: NodeName, state: NodeState): Ctl {
    if n in c.nodes then c.(nodes := c.nodes[n := c.nodes[n].(state := state)]) else c
  }

  function StopNode(c: Ctl, n: NodeName): Ctl {
    if n !in c.nodes then c
    else SetState(c, n, Drain("agent stopping")).(pending := Enqueue(c.pending, n, Stop))
  }

  predicate HasRunning(c: Ctl, n: NodeName) {
    exists id :: id in c.jobs && c.jobs[id].state == Running && c.jobs[id].node == n
  }

  predicate Removable(c: Ctl, n: NodeName) {
    n in c.nodes && !HasRunning(c, n)
  }

  function RemoveNode(c: Ctl, n: NodeName): Ctl {
    if !Removable(c, n) then c
    else c.(nodes := c.nodes - {n}, forgotten := c.forgotten + {n}, pending := c.pending - {n})
  }

  /** The controller object. */
  class Controller {
    var jobs: map<JobId, Job>
    var nodes: map<NodeName, Node>
    var forgotten: set<NodeName>
    var pending: map<NodeName, seq<Action>>
    var lastReclaim: map<NodeName, int>

    ghost function State(): Ctl
      reads this
    {
      Ctl(jobs, nodes, forgotten, pending, lastReclaim)
    }

    constructor ()
      ensures State() == Ctl(map[], map[], {}, map[], map[])
    {
      jobs, nodes, forgotten, pending, lastReclaim := map[], map[], {}, map[], map[];
    }

    /** The placement loop of a scheduling pass, over the planner's decisions. */
    method Schedule(ds: seq<Decision>, oks: seq<bool>, now: int)
      requires |oks| == |ds| && forall d <- ds :: d.id in jobs
      modifies this
      ensures State() == AssignAll(old(State()), ds, oks, now)
    {
      ghost var c0 := State();
      for i := 0 to |ds|
        invariant State() == AssignAll(c0, ds[..i], oks[..i], now)
      {
        if oks[i] {
          var id, n := ds[i].id, ds[i].node;
          jobs := jobs[id := jobs[id].(state := Running, node := n, startAt := now, reason := Blank)];
          EnqueueFor(n, Launch(id));
        }
        assert ds[..i+1][..i] == ds[..i] && oks[..i+1][..i] == oks[..i];
      }
      assert ds[..|ds|] == ds && oks[..|ds|] == oks;
    }

    method EnqueueFor(n: NodeName, a: Action)
      modifies this`pending
      ensures pending == Enqueue(old(pending), n, a)
    {
      pending := pending[n := (if n in pending then pending[n] else []) + [a]];
    }

    /** `seen` holds the records that were read before other requests changed them. */
    method HandleHeartbeat(seen: map<JobId, Job>, hb: Heartbeat, now: int, served: seq<Access>, bad: set<JobId>) returns (resp: Response)
      requires |served| == |hb.jobs|
      modifies this
      ensures (State(), resp) == Handle(old(State()), seen, hb, now, served, bad)
    {
      if hb.node in forgotten {
        return Response([], [], false);
      }
      ghost var c0 := State();
      var n := hb.node;
      CheckIn(n, hb.owner, now);

      var acked: seq<JobId> := [];
      for i := 0 to |hb.jobs|
        invariant (jobs, acked) == ApplyReports(c0.jobs, seen, n, hb.jobs[..i], served[..i])
        invariant (nodes, forgotten, pending, lastReclaim) == (Upsert(OwnerApplied(c0.nodes, n, hb.owner), n, now), c0.forgotten, c0.pending, c0.lastReclaim)
      {
        var ack := ReceiveReport(seen - Ended(hb.jobs[..i]), n, hb.jobs[i], served[i]);
        if ack {
          acked := acked + [hb.jobs[i].id];
        }
        assert hb.jobs[..i+1][..i] == hb.jobs[..i] && served[..i+1][..i] == served[..i];
      }
      assert hb.jobs[..|hb.jobs|] == hb.jobs && served[..|served|] == served;
      ReclaimUnclaimed(seen, hb, now, bad);

      var actions := if n in pending then pending[n] else [];
      pending := pending - {n};
      resp := Response(actions, acked, true);
    }

    /** The owner's word, and the registry. */
    method CheckIn(n: NodeName, owner: OwnerAction, now: int)
      modifies this`nodes
      ensures nodes == Upsert(OwnerApplied(old(nodes), n, owner), n, now)
    {
      if n in nodes {
        match owner {
          case Yield(why) => nodes := nodes[n := nodes[n].(state := Drain(OWNER + why))];
          case Work =>
            if nodes[n].state.ByOwner() {
              nodes := nodes[n := nodes[n].(state := Up)];
            }
          case Silent =>
        }
      }
      nodes := nodes[n := Node(if n in nodes && nodes[n].state.Drain? then nodes[n].state else Up, now)];
    }

    /** The body of the report loop: record one line, say whether to acknowledge it. */
    method ReceiveReport(seen: map<JobId, Job>, n: NodeName, s: Status, access: Access) returns (ack: bool)
      modifies this`jobs
      ensures (jobs, ack) == ApplyReport(old(jobs), seen, n, s, access)
    {
      if !s.state.Terminal() {
        return false;
      }
      if s.id !in jobs || access == Unread {
        return true;
      }
      var j, read := jobs[s.id], if s.id in seen then seen[s.id] else jobs[s.id];
      if read.state.Terminal() {
        if read.node == n && read.reason == NodeLost {
          if access == Unwritten {
            return false;  // the agent keeps it
          }
          jobs := jobs[s.id := j.(state := s.state, code := s.code, reason := Recovered)];
        }
        return true;
      }
      if access == Unwritten {
        return false;
      }
      if s.refused {
        jobs := jobs[s.id := BackInQueue(j, ByReport)];
      } else {
        jobs := jobs[s.id := j.(state := s.state, code := s.code, reason := ByReport)];
      }
      return true;
    }

    method DueForReclaim(n: NodeName, now: int) returns (due: bool)
      modifies this`lastReclaim
      ensures due == Due(old(lastReclaim), n, now)
      ensures lastReclaim == if due then old(lastReclaim)[n := now] else old(lastReclaim)
    {
      if n in lastReclaim && now - lastReclaim[n] < RECLAIM_INTERVAL {
        return false;
      }
      lastReclaim := lastReclaim[n := now];
      return true;
    }

    method ReclaimUnclaimed(seen: map<JobId, Job>, hb: Heartbeat, now: int, bad: set<JobId>)
      modifies this`jobs, this`lastReclaim
      ensures var due := hb.claimsOK && Due(old(lastReclaim), hb.node, now);
              && jobs == (if due then Reclaim(old(jobs), seen, hb.node, Answerable(hb), now, bad) else old(jobs))
              && lastReclaim == (if due then old(lastReclaim)[hb.node := now] else old(lastReclaim))
    {
      if !hb.claimsOK {
        return;
      }
      var due := DueForReclaim(hb.node, now);
      if !due {
        return;
      }
      var claimed := Answerable(hb);
      var todo := jobs.Keys;
      ghost var was := jobs;
      ghost var goal := Reclaim(was, seen, hb.node, claimed, now, bad);
      while todo != {}
        invariant todo <= was.Keys == jobs.Keys
        invariant forall id | id in was :: jobs[id] == if id in todo then was[id] else goal[id]
        invariant lastReclaim == old(lastReclaim)[hb.node := now]
        decreases todo
      {
        var id :| id in todo;
        if Unclaimed(if id in seen then seen[id] else jobs[id], id, hb.node, claimed, now) && id !in bad {
          if jobs[id].requeue {
            jobs := jobs[id := BackInQueue(jobs[id], Reclaimed)];
          } else {
            jobs := jobs[id := jobs[id].(state := Failed, code := -1, reason := Reclaimed)];
          }
        }
        todo := todo - {id};
      }
      assert jobs == goal;
    }

    method ExpireNodes(now: int, bad: set<JobId>)
      modifies this
      ensures State() == Expire(old(State()), now, bad)
    {
      ghost var c0 := State();
      var gone := SilentNodes(nodes, now);
      nodes := MarkedDown(nodes, gone);
      var left := gone;
      while left != {}
        invariant left <= gone
        invariant pending == c0.pending - (gone - left)
        decreases left
        modifies this`pending
      {
        var n :| n in left;
        pending := pending - {n};
        left := left - {n};
        assert gone - left == gone - (left + {n}) + {n};
      }
      assert gone - left == gone;
      GiveUpOnLostJobs(now, bad);
    }

    /** Lists the lost jobs, then writes them off. */
    method GiveUpOnLostJobs(now: int, bad: set<JobId>)
      modifies this`jobs
      ensures jobs == WrittenOff(old(jobs), LostJobs(old(State()), now), bad)
    {
      var todo := LostJobs(Ctl(jobs, nodes, forgotten, pending, lastReclaim), now);
      ghost var was := jobs;
      ghost var goal := WrittenOff(was, todo, bad);
      while todo != {}
        invariant todo <= was.Keys == jobs.Keys
        invariant forall id | id in was :: jobs[id] == if id in todo then was[id] else goal[id]
        decreases todo
      {
        var id :| id in todo;
        if id !in bad {
          if jobs[id].requeue {
            jobs := jobs[id := BackInQueue(jobs[id], NodeLost)];
          } else {
            jobs := jobs[id := jobs[id].(state := Failed, code := -1, reason := NodeLost)];
          }
        }
        todo := todo - {id};
      }
      assert jobs == goal;
    }
  }
}
