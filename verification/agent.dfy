/** A machine's half of the job protocol: what its agent is running, which
    results wait for an acknowledgement, and whose scratch it still holds. */
module Agents {
  import opened Protocol

  datatype AgentState = AgentState(
    looping: bool,             // the heartbeat loop is running
    run: set<JobId>,           // supervised now
    done: seq<Status>,         // terminal reports awaiting delivery
    finished: set<JobId>,      // jobs whose output and scratch are still here
    completed: nat)

  const FRESH := AgentState(true, {}, [], {}, 0)

  /** How carrying out one action turns out. */
  datatype Fate = Accept | Refuse | Fail

  function Reported(a: AgentState, id: JobId, state: JobState, code: int): AgentState {
    a.(run := a.run - {id}, done := a.done + [Status(id, state, code, false)], completed := a.completed + 1)
  }

  function Perform(a: AgentState, act: Action, fate: Fate): AgentState {
    match act
    case Launch(id) =>
      if fate.Refuse? then a.(done := a.done + [Status(id, Failed, -1, true)])
      else if id in a.run then a
      else if fate.Fail? then a.(done := a.done + [Status(id, Failed, -1, false)])
      else a.(run := a.run + {id}, finished := a.finished + {id})
    case Kill(id) => if id in a.run && !fate.Fail? then Reported(a, id, Cancelled, -1) else a
    case Stop => a.(looping := false)
  }

  /** One pass of the action loop, which a Stop ends early. */
  function PerformAll(a: AgentState, acts: seq<Action>, fates: seq<Fate>): AgentState
    requires |fates| == |acts|
    decreases acts
  {
    if acts == [] then a
    else
      var b := Perform(a, acts[0], fates[0]);
      if acts[0].Stop? then b else PerformAll(b, acts[1..], fates[1..])
  }

  function Unacked(done: seq<Status>, acked: set<JobId>): (kept: seq<Status>)
    ensures forall s :: s in kept <==> s in done && s.id !in acked
  {
    if done == [] then []
    else
      var k := |done| - 1;
      Unacked(done[..k], acked) + if done[k].id in acked then [] else [done[k]]
  }

  /** The effect of a reply, before its actions are carried out. */
  function Receive(a: AgentState, resp: Response): AgentState {
    var acked := set id | id in resp.acked;
    if resp.known then a.(finished := a.finished - acked, done := Unacked(a.done, acked))
    else a.(finished := a.finished - acked, looping := false)
  }

  /** Some order of a set, as an iteration over a map produces. */
  ghost predicate IsOrder(order: seq<JobId>, s: set<JobId>) {
    SetOf(order) == s && forall i, j :: 0 <= i < j < |order| ==> order[i] != order[j]
  }

  function StillRunning(order: seq<JobId>): (r: seq<Status>)
    ensures forall s :: s in r <==> exists id :: id in order && s == Status(id, Running, 0, false)
  {
    if order == [] then []
    else
      var k := |order| - 1;
      var rest := StillRunning(order[..k]);
      assert forall id :: id in order <==> id in order[..k] || id == order[k];
      rest + [Status(order[k], Running, 0, false)]
  }

  class Agent {
    var looping: bool
    var run: set<JobId>
    var done: seq<Status>
    var finished: set<JobId>
    var completed: nat

    ghost function State(): AgentState
      reads this
    {
      AgentState(looping, run, done, finished, completed)
    }

    constructor ()
      ensures State() == FRESH
    {
      looping, run, done, finished, completed := true, {}, [], {}, 0;
    }

    /** Moves a job from `run` to `done`. */
    method Report(id: JobId, state: JobState, code: int)
      modifies this
      ensures State() == Reported(old(State()), id, state, code)
    {
      completed := completed + 1;
      run := run - {id};
      done := done + [Status(id, state, code, false)];
    }

    method ReportRefused(id: JobId)
      modifies this`done
      ensures done == old(done) + [Status(id, Failed, -1, true)]
    {
      done := done + [Status(id, Failed, -1, true)];
    }

    /** Bookkeeping of a launch; one delivered twice succeeds without a second start. */
    method LaunchJob(id: JobId, works: bool) returns (ok: bool)
      modifies this`run, this`finished
      ensures ok == (id in old(run) || works)
      ensures run == if works then old(run) + {id} else old(run)
      ensures finished == if works && id !in old(run) then old(finished) + {id} else old(finished)
    {
      if id in run {
        return true;
      }
      if !works {
        return false;
      }
      run := run + {id};
      finished := finished + {id};
      return true;
    }

    method KillJob(id: JobId, signalled: bool)
      modifies this
      ensures State() == Perform(old(State()), Kill(id), if signalled then Accept else Fail)
    {
      if id !in run || !signalled {
        return;
      }
      Report(id, Cancelled, -1);
    }

    method ForgetFinished(id: JobId)
      modifies this`finished
      ensures finished == old(finished) - {id}
    {
      finished := finished - {id};
    }

    /** Keeps the reports that were not acknowledged, in their order. */
    method AckDone(ids: seq<JobId>)
      modifies this`done
      ensures done == Unacked(old(done), set id | id in ids)
    {
      var acked := set id | id in ids;
      var kept: seq<Status> := [];
      for i := 0 to |done|
        invariant kept == Unacked(done[..i], acked)
      {
        if done[i].id !in acked {
          kept := kept + [done[i]];
        }
        assert done[..i+1][..i] == done[..i];
      }
      assert done[..|done|] == done;
      done := kept;
    }

    method Statuses() returns (out: seq<Status>)
      ensures exists order :: IsOrder(order, run) && out == StillRunning(order) + done
    {
      ghost var order: seq<JobId> := [];
      out := [];
      var todo := run;
      while todo != {}
        invariant todo <= run && IsOrder(order, run - todo) && out == StillRunning(order)
        decreases todo
      {
        var id :| id in todo;
        var was := order;
        order := order + [id];
        assert order[..|was|] == was;
        out := out + [Status(id, Running, 0, false)];
        todo := todo - {id};
        assert SetOf(order) == SetOf(was) + {id};
      }
      out := out + done;
    }

    method ClaimedJobs() returns (out: seq<JobId>)
      ensures SetOf(out) == run + Ids(done)
    {
      out := [];
      var todo := run;
      while todo != {}
        invariant todo <= run && SetOf(out) == run - todo
        decreases todo
      {
        var id :| id in todo;
        var was := out;
        out := out + [id];
        todo := todo - {id};
        assert SetOf(out) == SetOf(was) + {id};
      }
      for i := 0 to |done|
        invariant SetOf(out) == run + Ids(done[..i])
      {
        var was := out;
        out := out + [done[i].id];
        assert done[..i+1] == done[..i] + [done[i]];
        assert SetOf(out) == SetOf(was) + {done[i].id};
      }
      assert done[..|done|] == done;
    }

    /** The acknowledgement half of the heartbeat loop. */
    method TakeReply(resp: Response)
      modifies this
      ensures State() == Receive(old(State()), resp)
    {
      ghost var was := finished;
      for i := 0 to |resp.acked|
        invariant finished == was - SetOf(resp.acked[..i])
        invariant (looping, run, done, completed) == old((looping, run, done, completed))
      {
        ForgetFinished(resp.acked[i]);
        assert resp.acked[..i+1] == resp.acked[..i] + [resp.acked[i]];
      }
      assert resp.acked[..|resp.acked|] == resp.acked;
      if !resp.known {
        looping := false;
        return;
      }
      AckDone(resp.acked);
    }

    /** The action half of the heartbeat loop. */
    method CarryOut(acts: seq<Action>, fates: seq<Fate>)
      requires |fates| == |acts|
      modifies this
      ensures State() == PerformAll(old(State()), acts, fates)
    {
      ghost var a0 := State();
      var i := 0;
      while i < |acts|
        invariant 0 <= i <= |acts|
        invariant PerformAll(State(), acts[i..], fates[i..]) == PerformAll(a0, acts, fates)
      {
        assert acts[i..][1..] == acts[i+1..] && fates[i..][1..] == fates[i+1..];
        ghost var before := State();
        match acts[i] {
          case Launch(id) =>
            if fates[i].Refuse? {
              ReportRefused(id);
            } else {
              var ok := LaunchJob(id, fates[i].Accept?);
              if !ok {
                done := done + [Status(id, Failed, -1, false)];
              }
            }
          case Kill(id) => KillJob(id, !fates[i].Fail?);
          case Stop =>
            looping := false;
            return;
        }
        assert State() == Perform(before, acts[i], fates[i]);
        i := i + 1;
      }
    }
  }
}
