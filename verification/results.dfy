/** When a finished job's result is lost on the way. */
module Results {
  import opened Protocol
  import opened Control
  import opened Agents
  import opened Cluster
  import opened Coverage

  /** The controller handled a request of this machine, and its reply acknowledges the job. */
  ghost predicate AckedAt(ws: seq<World>, ss: seq<Step>, h: nat, n: NodeName, id: JobId)
    requires |ws| == |ss| + 1 && h < |ss|
  {
    && Leads(ws, ss, h) && ss[h].HandleRequest? && ss[h].n == n
    && id in ws[h + 1].Wire(n).resp.acked
  }

  ghost predicate SettledAt(ws: seq<World>, ss: seq<Step>, h: nat, n: NodeName, id: JobId)
    requires |ws| == |ss| + 1 && h < |ss| && AckedAt(ws, ss, h, n, id)
  {
    Settled(ws[h].ctl.jobs, ws[h].SeenFor(n), ws[h + 1].ctl.jobs, ws[h].Wire(n).hb.jobs, id)
  }

  /** The store has the job, which was not over when it was read and is not now, and of the
      terminal reports of it in this request none is served in full: those that are
      acknowledged could not look it up. */
  ghost predicate LookupFailedAt(ws: seq<World>, ss: seq<Step>, h: nat, n: NodeName, id: JobId)
    requires |ws| == |ss| + 1 && h < |ss| && AckedAt(ws, ss, h, n, id)
  {
    && id in ws[h].ctl.jobs && Undecided(ws[h].ctl.jobs, ws[h].SeenFor(n), id)
    && NoneRecorded(ws[h].Wire(n).hb.jobs, ss[h].served, id)
    && FailedLookup(ws[h].Wire(n).hb.jobs, ss[h].served, id)
  }

  ghost predicate FailedLookup(reports: seq<Status>, served: seq<Access>, id: JobId)
    requires |served| == |reports|
  {
    exists i :: 0 <= i < |reports| && reports[i].id == id && reports[i].state.Terminal() && served[i] == Unread
  }

  /** What is acknowledged although nothing of it is recorded could not be looked up. */
  lemma {:induction false} AckedUnread(jobs: map<JobId, Job>, seen: map<JobId, Job>, n: NodeName, reports: seq<Status>, served: seq<Access>, id: JobId)
    requires |served| == |reports| && id in jobs && Undecided(jobs, seen, id)
    requires id in ApplyReports(jobs, seen, n, reports, served).1 && NoneRecorded(reports, served, id)
    ensures FailedLookup(reports, served, id)
  {
    var k := |reports| - 1;
    assert NoneRecorded(reports[..k], served[..k], id);
    NothingRecorded(jobs, seen, n, reports[..k], served[..k], id);
    if id in ApplyReports(jobs, seen, n, reports[..k], served[..k]).1 {
      AckedUnread(jobs, seen, n, reports[..k], served[..k], id);
      var i :| 0 <= i < k && reports[..k][i].id == id && reports[..k][i].state.Terminal() && served[..k][i] == Unread;
      assert reports[i].id == id && served[i] == Unread;
    }
  }

  lemma {:induction false} AnsweredIff(jobs: map<JobId, Job>, seen: map<JobId, Job>, n: NodeName, hb: Heartbeat, claimed: set<JobId>, now: int,
                                       served: seq<Access>, bad: set<JobId>, id: JobId)
    requires |served| == |hb.jobs| && id in jobs && id in ApplyReports(jobs, seen, n, hb.jobs, served).1 && id in claimed
    ensures var after := Reclaim(ApplyReports(jobs, seen, n, hb.jobs, served).0, seen, n, claimed, now, bad);
            && (Settled(jobs, seen, ApplyReports(jobs, seen, n, hb.jobs, served).0, hb.jobs, id) <==> Settled(jobs, seen, after, hb.jobs, id))
            && (Settled(jobs, seen, after, hb.jobs, id) <==>
                  !(Undecided(jobs, seen, id) && NoneRecorded(hb.jobs, served, id) && FailedLookup(hb.jobs, served, id)))
  {
    SettledIff(jobs, seen, n, hb.jobs, served, id);
    if Undecided(jobs, seen, id) && NoneRecorded(hb.jobs, served, id) {
      AckedUnread(jobs, seen, n, hb.jobs, served, id);
    }
  }

  lemma {:induction false} AckedSettledIff(ws: seq<World>, ss: seq<Step>, h: nat, n: NodeName, id: JobId)
    requires |ws| == |ss| + 1 && h < |ss| && AckedAt(ws, ss, h, n, id) && WireInv(ws[h])
    ensures SettledAt(ws, ss, h, n, id) <==> !LookupFailedAt(ws, ss, h, n, id)
  {
    var w, hb := ws[h], ws[h].Wire(n).hb;
    assert WireOk(w, n);
    AckedAreReported(w.ctl.jobs, w.SeenFor(n), n, hb.jobs, ss[h].served, id);
    assert id in Answerable(hb);
    if id in w.ctl.jobs {
      AnsweredIff(w.ctl.jobs, w.SeenFor(n), n, hb, Answerable(hb), w.clock, ss[h].served, ss[h].bad, id);
    }
  }

  /** A reply under way came from a handled request. */
  lemma {:induction false} ReplyOrigin(ws: seq<World>, ss: seq<Step>, n: NodeName, d: nat, id: JobId) returns (h: nat)
    requires IsRun(ws, ss) && d < |ws| && ws[d].Wire(n).Reply? && id in ws[d].Wire(n).resp.acked
    ensures h < d && AckedAt(ws, ss, h, n, id)
  {
    assert d > 0;
    var w, s := ws[d - 1], ss[d - 1];
    assert Leads(ws, ss, d - 1);
    if s.HandleRequest? && s.n == n {
      h := d - 1;
    } else {
      OnlyHandlingReplies(w, s, ws[d], n);
      h := ReplyOrigin(ws, ss, n, d - 1, id);
    }
  }

  lemma {:induction false} OnlyHandlingReplies(w: World, s: Step, w': World, n: NodeName)
    requires Enabled(w, s) && w' == Next(w, s) && w'.Wire(n).Reply? && !(s.HandleRequest? && s.n == n)
    ensures w'.Wire(n) == w.Wire(n)
  {
    if OfController(s) {
      ControllerLeaves(w, s, (0, n));
    } else {
      OnlyHandlingRepliesAt(w, s, n);
    }
  }

  lemma {:induction false} OnlyHandlingRepliesAt(w: World, s: Step, n: NodeName)
    requires Enabled(w, s) && !OfController(s) && MachineNext(w, s).Wire(n).Reply? && !(s.HandleRequest? && s.n == n)
    ensures MachineNext(w, s).Wire(n) == w.Wire(n)
  {
  }

  /** A step other than a restart drops a report only by delivering its acknowledgement. */
  lemma {:induction false} OnlyAcksDrop(w: World, s: Step, n: NodeName, t: Status)
    requires Enabled(w, s) && s != AgentRestart(n)
    requires t in w.Agent(n).done && t !in Next(w, s).Agent(n).done
    ensures s == Deliver(n) && t.id in w.Wire(n).resp.acked
  {
    if OfController(s) {
      ControllerLeaves(w, s, (0, n));
    } else {
      OnlyAcksDropAt(w, s, n, t);
    }
  }

  lemma {:induction false} OnlyAcksDropAt(w: World, s: Step, n: NodeName, t: Status)
    requires Enabled(w, s) && !OfController(s) && s != AgentRestart(n)
    requires t in w.Agent(n).done && t !in MachineNext(w, s).Agent(n).done
    ensures s == Deliver(n) && t.id in w.Wire(n).resp.acked
  {
    if s.Act? { ActsKeepReports(w, s.n, s.fate, s.order, n, t); }
  }

  lemma {:induction false} ActsKeepReports(w: World, m: NodeName, fate: Fate, order: seq<JobId>, n: NodeName, t: Status)
    requires Enabled(w, Act(m, fate, order)) && t in w.Agent(n).done
    ensures t in Acted(w, m, fate, order).Agent(n).done
  {
  }

  /** When a result is lost: while an agent does not restart, a terminal report leaves it
      only after an exchange that acknowledged the job -- whatever requests and replies
      were lost in between.  That exchange left the job over, or found it so, or put it
      back in the queue because the machine had refused it, or did not know it, if and only
      if it is not one in which the job, not yet over, could not be looked up and no report
      of it was recorded. */
  lemma {:induction false} NoResultLost(ws: seq<World>, ss: seq<Step>, n: NodeName, t: Status, i: nat, k: nat) returns (h: nat)
    requires IsRun(ws, ss) && i <= k < |ws|
    requires t in ws[i].Agent(n).done && t !in ws[k].Agent(n).done
    requires forall j :: i <= j < k ==> ss[j] != AgentRestart(n)
    ensures h < k && AckedAt(ws, ss, h, n, t.id)
    ensures SettledAt(ws, ss, h, n, t.id) <==> !LookupFailedAt(ws, ss, h, n, t.id)
    decreases k
  {
    if t !in ws[k - 1].Agent(n).done {
      h := NoResultLost(ws, ss, n, t, i, k - 1);
    } else {
      assert Leads(ws, ss, k - 1);
      OnlyAcksDrop(ws[k - 1], ss[k - 1], n, t);
      h := ReplyOrigin(ws, ss, n, k - 1, t.id);
      CoverageOverRuns(ws, ss, h);
      AckedSettledIff(ws, ss, h, n, t.id);
    }
  }
}
