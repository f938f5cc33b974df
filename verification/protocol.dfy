/** What travels between the controller and the agents: job records, the
    actions queued for a machine, and one heartbeat exchange. */
module Protocol {

  type JobId = nat
  type NodeName = string

  datatype JobState = Pending | Running | Completed | Failed | Cancelled | Timeout | OutOfMemory {
    predicate Terminal() { !Pending? && !Running? }
  }

  /** Why a record says what it says.  Only `NodeLost` is ever read back. */
  datatype Reason = Blank | ByReport | NodeLost | Recovered | Reclaimed | ByUser

  /** A job record.  `requeues` is history: it counts the times the record went
      back to the queue; the source keeps no attempt number. */
  datatype Job = Job(
    state: JobState, node: NodeName, reason: Reason, code: int,
    startAt: int, requeue: bool, requeues: nat)

  /** One line of a heartbeat's job report. */
  datatype Status = Status(id: JobId, state: JobState, code: int, refused: bool)

  datatype Action = Launch(id: JobId) | Kill(id: JobId) | Stop

  /** What the machine's owner currently lets the cluster do with it; one who takes it
      back says why. */
  datatype OwnerAction = Yield(why: string) | Work | Silent

  datatype Heartbeat = Heartbeat(
    node: NodeName, jobs: seq<Status>, claimed: seq<JobId>, claimsOK: bool, owner: OwnerAction)

  datatype Response = Response(actions: seq<Action>, acked: seq<JobId>, known: bool)

  /** How a drain that an owner imposed is told from an admin's: by how its reason
      begins.  An admin's reason is free text. */
  const OWNER := "owner: "

  datatype NodeState = Up | Down | Drain(why: string) {
    predicate ByOwner() { Drain? && OWNER <= why }
  }

  /** How the store serves one report: not at all when the job is looked up, or not when
      the result is written. */
  datatype Access = Fine | Unread | Unwritten

  datatype Node = Node(state: NodeState, lastSeen: int)

  // Milliseconds.
  const CLAIM_GRACE := 30_000
  const NODE_TIMEOUT := 30_000
  const JOB_GRACE := 600_000
  const RECLAIM_INTERVAL := 5_000

  /** The entry of a map with a default for the keys it does not hold. */
  function At<V>(m: map<NodeName, V>, n: NodeName, default: V): V {
    if n in m then m[n] else default
  }

  /** How many times an action list launches a job. */
  function Launches(actions: seq<Action>, id: JobId): (k: nat)
    ensures k > 0 <==> Launch(id) in actions
  {
    if actions == [] then 0
    else (if actions[0] == Launch(id) then 1 else 0) + Launches(actions[1..], id)
  }

  lemma {:induction false} LaunchesAppend(xs: seq<Action>, ys: seq<Action>, id: JobId)
    ensures Launches(xs + ys, id) == Launches(xs, id) + Launches(ys, id)
  {
    if xs == [] {
      assert xs + ys == ys;
    } else {
      assert (xs + ys)[1..] == xs[1..] + ys;
      LaunchesAppend(xs[1..], ys, id);
    }
  }

  ghost function Ids(done: seq<Status>): set<JobId> {
    set s | s in done :: s.id
  }

  ghost function SetOf(ids: seq<JobId>): set<JobId> {
    set id | id in ids
  }
}
