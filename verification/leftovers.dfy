/** Exactly which moves are safe: those between two files that differ, of a size the relay
    takes, for which nothing is left over from an earlier life of the controller that
    could be taken for the move's own.  Transfer numbers start again with the controller,
    and what a machine still has in hand, or to report, is told apart by its number alone. */
module Leftovers {
  import opened Paths
  import opened Relay
  import opened FileAgents
  import opened RelayWorld
  import opened Moves
  import opened MoveSafety

  // ----- continuations -----

  /** Some continuation leads there, with nobody else writing the move's two files. */
  ghost predicate Goes(k: Track, w: World, w': World) {
    exists ws: seq<World>, ss: seq<Step> :: IsPath(ws, ss) && ws[0] == w && ws[|ss|] == w' && forall j :: 0 <= j < |ss| ==> Alone(k, ss[j])
  }

  lemma {:induction false} Stays(k: Track, w: World)
    ensures Goes(k, w, w)
  {
    var ws, ss: seq<Step> := [w], [];
    assert IsPath(ws, ss) && ws[|ss|] == w;
  }

  lemma {:induction false} Steps(k: Track, w: World, s: Step)
    requires Enabled(w, s) && Alone(k, s)
    ensures Goes(k, w, Next(w, s))
  {
    var ws, ss := [w, Next(w, s)], [s];
    assert Leads(ws, ss, 0);
    assert IsPath(ws, ss) && ws[|ss|] == Next(w, s);
  }

  lemma {:induction false} Further(k: Track, a: World, b: World, c: World)
    requires Goes(k, a, b) && Goes(k, b, c)
    ensures Goes(k, a, c)
  {
    var us: seq<World>, rs: seq<Step> :| IsPath(us, rs) && us[0] == a && us[|rs|] == b && forall j :: 0 <= j < |rs| ==> Alone(k, rs[j]);
    var ws: seq<World>, ss: seq<Step> :| IsPath(ws, ss) && ws[0] == b && ws[|ss|] == c && forall j :: 0 <= j < |ss| ==> Alone(k, ss[j]);
    Joined(us, rs, ws, ss);
    var vs, ts := us + ws[1..], rs + ss;
    assert vs[0] == a && vs[|ts|] == c;
    assert forall j :: 0 <= j < |ts| ==> Alone(k, ts[j]);
  }

  lemma {:induction false} Through(k: Track, a: World, b: World, c: World, d: World)
    requires Goes(k, a, b) && Goes(k, b, c) && Goes(k, c, d)
    ensures Goes(k, a, d)
  {
    Further(k, a, b, c);
    Further(k, a, c, d);
  }

  lemma {:induction false} Loses(k: Track, w: World, w': World)
    requires Goes(k, w, w') && !Kept(k, w')
    ensures !Safe(k, w)
  {
  }

  // ----- getting through what is in the way -----

  /** What machines are uploading is their next action, and not the move's. */
  ghost predicate OthersUpload(k: Track, w: World) {
    forall n :: n in w.uploads ==>
      w.uploads[n].id != k.id && w.Agent(n).todo != [] && w.Agent(n).todo[0].Send? && w.Agent(n).todo[0].id == w.uploads[n].id
  }

  /** The move's record is there, whatever became of it. */
  ghost predicate OnRecord(k: Track, w: World) {
    && k.t.move && k.id in w.relay.transfers && OthersUpload(k, w)
    && w.relay.transfers[k.id] == k.t.(state := w.relay.transfers[k.id].state, size := w.relay.transfers[k.id].size)
  }

  ghost predicate SameFiles(w: World, w': World) {
    forall n :: w'.Agent(n).files == w.Agent(n).files
  }

  /** Queues only got longer. */
  ghost predicate Longer(w: World, w': World) {
    forall n :: w.Queue(n) <= w'.Queue(n)
  }

  /** Nothing changes for the move, though another transfer may have failed. */
  ghost predicate SameFor(k: Track, r: State, r': State) {
    && r'.pending == r.pending
    && (k.id in r'.transfers <==> k.id in r.transfers) && (k.id in r.transfers ==> r'.transfers[k.id] == r.transfers[k.id])
    && (k.id in r'.blobs <==> k.id in r.blobs) && (k.id in r.blobs ==> r'.blobs[k.id] == r.blobs[k.id])
  }

  /** The first actions of an agent's list all failed, and left their reports. */
  ghost predicate Skipped(k: Track, w: World, w': World, n: NodeName, c: nat)
    requires c <= |w.Agent(n).todo|
  {
    && SameFor(k, w.relay, w'.relay) && OthersUpload(k, w') && w'.wires == w.wires && w'.arrived == w.arrived && w'.removals == w.removals
    && (forall m :: m != n ==> w'.Agent(m) == w.Agent(m))
    && w'.Agent(n).files == w.Agent(n).files && w'.Agent(n).todo == w.Agent(n).todo[c..]
    && w.Agent(n).results <= w'.Agent(n).results
  }

  lemma {:induction false} CutOffSkips(k: Track, w: World, n: NodeName)
    requires n in w.uploads && OthersUpload(k, w)
    ensures Enabled(w, EndSend(n, CutOff, 0)) && Skipped(k, w, Next(w, EndSend(n, CutOff, 0)), n, 1)
  {
  }

  /** An action that fails leaves a report. */
  ghost predicate Failed(w: World, w': World, n: NodeName) {
    && w.Agent(n).todo != []
    && exists o :: w' == w.(agents := w.agents[n := w.Agent(n).(todo := w.Agent(n).todo[1..], results := w.Agent(n).results + [o])])
  }

  lemma {:induction false} FailingSkips(k: Track, w: World, w': World, n: NodeName)
    requires Failed(w, w', n) && n !in w.uploads && OthersUpload(k, w)
    ensures Skipped(k, w, w', n, 1)
  {
  }

  lemma {:induction false} CanFail(k: Track, w: World, n: NodeName) returns (s: Step)
    requires w.Agent(n).todo != [] && n !in w.uploads
    ensures Alone(k, s) && Enabled(w, s) && Failed(w, Next(w, s), n)
  {
    var act := w.Agent(n).todo[0];
    s := match act
      case Send(_, _, _) => DoSend(n, Unsent, 0)
      case Recv(_, _, _, _) => DoRecv(n, NoDownload)
      case Remove(_, _, _) => DoRemove(n, false);
    var o := Outcome(act.id, match act case Send(_, _, _) => SendKind case Recv(_, _, _, _) => RecvKind case Remove(_, _, _) => RemoveKind, false, 0);
    assert Next(w, s) == w.(agents := w.agents[n := w.Agent(n).(todo := w.Agent(n).todo[1..], results := w.Agent(n).results + [o])]);
  }

  lemma {:induction false} SkipOne(k: Track, w: World, n: NodeName) returns (w': World)
    requires w.Agent(n).todo != [] && OthersUpload(k, w)
    ensures Goes(k, w, w') && Skipped(k, w, w', n, 1)
  {
    var s: Step;
    if n in w.uploads {
      s := EndSend(n, CutOff, 0);
      CutOffSkips(k, w, n);
    } else {
      s := CanFail(k, w, n);
      FailingSkips(k, w, Next(w, s), n);
    }
    w' := Next(w, s);
    Steps(k, w, s);
  }

  lemma {:induction false} Skip(k: Track, w: World, n: NodeName, c: nat) returns (w': World)
    requires c <= |w.Agent(n).todo| && OthersUpload(k, w)
    ensures Goes(k, w, w') && Skipped(k, w, w', n, c)
    decreases c
  {
    if c == 0 {
      Stays(k, w);
      w' := w;
    } else {
      var w1 := SkipOne(k, w, n);
      w' := Skip(k, w1, n, c - 1);
      Further(k, w, w1, w');
    }
  }

  lemma {:induction false} SkippedSo(k: Track, w: World, w': World, n: NodeName, c: nat)
    requires OnRecord(k, w) && c <= |w.Agent(n).todo| && Skipped(k, w, w', n, c)
    ensures OnRecord(k, w') && SameRecord(k, w, w') && (forall m :: w'.Queue(m) == w.Queue(m)) && SameFiles(w, w')
    ensures forall i :: 0 <= i < |w.Agent(n).todo| - c ==> w'.Agent(n).todo[i] == w.Agent(n).todo[c + i]
    ensures forall m :: w'.Agent(m).results != [] || w.Agent(m).results == []
  {
  }

  /** No outcome with the move's number but that of an upload that worked, which says nothing. */
  ghost predicate Blameless(k: Track, os: seq<Outcome>) {
    forall o :: o in os && o.id == k.id ==> o.ok && o.kind == SendKind
  }

  /** The controller applied a machine's outcomes. */
  ghost predicate Heard(k: Track, w: World, w': World, n: NodeName) {
    && w'.agents == w.agents && w'.arrived == w.arrived && w'.Wire(n) == [] && (forall m :: m != n ==> w'.Wire(m) == w.Wire(m))
    && OnRecord(k, w') && Longer(w, w')
    && w'.removals[k.id] >= w.removals[k.id] + Oks(w.Wire(n), k.id)
    && (Oks(w.Wire(n), k.id) > 0 ==> Remove(k.id, k.t.user, k.t.fromPath) in w'.Queue(k.t.fromNode))
    && (Blameless(k, w.Wire(n)) ==> SameRecord(k, w, w'))
  }

  ghost predicate SameRecord(k: Track, w: World, w': World) {
    && k.id in w.relay.transfers && k.id in w'.relay.transfers && w'.relay.transfers[k.id] == w.relay.transfers[k.id]
    && (k.id in w'.relay.blobs <==> k.id in w.relay.blobs) && (k.id in w.relay.blobs ==> w'.relay.blobs[k.id] == w.relay.blobs[k.id])
  }

  /** What applying one outcome does to the move's record and to the queues. */
  lemma {:induction false} OutcomeEffect(k: Track, r: State, o: Outcome, now: int, n: NodeName)
    requires k.t.move && k.id in r.transfers && r.transfers[k.id] == k.t.(state := r.transfers[k.id].state, size := r.transfers[k.id].size)
    ensures var r' := ApplyOutcome(r, o, now);
            && k.id in r'.transfers && r'.transfers[k.id] == k.t.(state := r'.transfers[k.id].state, size := r'.transfers[k.id].size)
            && QueueOf(r.pending, n) <= QueueOf(r'.pending, n)
            && (Stored(o, k.id) ==> QueueOf(r'.pending, k.t.fromNode) == QueueOf(r.pending, k.t.fromNode) + [Remove(k.id, k.t.user, k.t.fromPath)])
            && (o.id != k.id || (o.ok && o.kind == SendKind) ==>
                  && r'.transfers[k.id] == r.transfers[k.id]
                  && (k.id in r'.blobs <==> k.id in r.blobs) && (k.id in r.blobs ==> r'.blobs[k.id] == r.blobs[k.id]))
  {
  }

  lemma {:induction false} HearOne(k: Track, w: World, n: NodeName) returns (w': World)
    requires OnRecord(k, w) && w.Wire(n) != []
    ensures Goes(k, w, w') && w'.Wire(n) == w.Wire(n)[1..]
    ensures w'.agents == w.agents && w'.arrived == w.arrived && (forall m :: m != n ==> w'.Wire(m) == w.Wire(m))
    ensures OnRecord(k, w') && Longer(w, w')
    ensures w'.removals[k.id] == w.removals[k.id] + (if Stored(w.Wire(n)[0], k.id) then 1 else 0)
    ensures Stored(w.Wire(n)[0], k.id) ==> Remove(k.id, k.t.user, k.t.fromPath) in w'.Queue(k.t.fromNode)
    ensures Blameless(k, [w.Wire(n)[0]]) ==> SameRecord(k, w, w')
  {
    w' := Next(w, ApplyOne(n));
    Steps(k, w, ApplyOne(n));
    var o := w.Wire(n)[0];
    assert o in [o];
    forall m ensures w.Queue(m) <= w'.Queue(m) {
      OutcomeEffect(k, w.relay, o, w.clock, m);
    }
    OutcomeEffect(k, w.relay, o, w.clock, n);
  }

  lemma {:induction false} Hear(k: Track, w: World, n: NodeName) returns (w': World)
    requires OnRecord(k, w)
    ensures Goes(k, w, w') && Heard(k, w, w', n)
    decreases |w.Wire(n)|
  {
    if w.Wire(n) == [] {
      Stays(k, w);
      w' := w;
    } else {
      var w1 := HearOne(k, w, n);
      w' := Hear(k, w1, n);
      Further(k, w, w1, w');
      HeardMore(k, w, w1, w', n);
    }
  }

  lemma {:induction false} HeardMore(k: Track, w: World, w1: World, w': World, n: NodeName)
    requires w.Wire(n) != [] && w1.Wire(n) == w.Wire(n)[1..] && Heard(k, w1, w', n)
    requires w1.agents == w.agents && w1.arrived == w.arrived && (forall m :: m != n ==> w1.Wire(m) == w.Wire(m)) && Longer(w, w1)
    requires w1.removals[k.id] == w.removals[k.id] + (if Stored(w.Wire(n)[0], k.id) then 1 else 0)
    requires Stored(w.Wire(n)[0], k.id) ==> Remove(k.id, k.t.user, k.t.fromPath) in w1.Queue(k.t.fromNode)
    requires Blameless(k, [w.Wire(n)[0]]) ==> SameRecord(k, w, w1)
    ensures Heard(k, w, w', n)
  {
  }

  /** An agent restarts, its outcomes on their way are applied, and it fetches its queue. */
  ghost predicate Fetched(k: Track, w: World, w': World, n: NodeName) {
    && SameFiles(w, w') && w'.arrived == w.arrived && OnRecord(k, w') && w'.removals[k.id] >= w.removals[k.id]
    && w'.Wire(n) == [] && (forall m :: m != n ==> w'.Wire(m) == w.Wire(m) && w'.Agent(m) == w.Agent(m) && w.Queue(m) <= w'.Queue(m))
    && w.Queue(n) <= w'.Agent(n).todo && w'.Agent(n).results == [] && w'.Queue(n) == []
    && (Blameless(k, w.Wire(n)) ==> SameRecord(k, w, w'))
  }

  ghost predicate Restarted(k: Track, w: World, w': World, n: NodeName) {
    && SameFor(k, w.relay, w'.relay) && OthersUpload(k, w') && w'.wires == w.wires && w'.arrived == w.arrived && w'.removals == w.removals
    && SameFiles(w, w') && (forall m :: m != n ==> w'.Agent(m) == w.Agent(m)) && w'.Agent(n).todo == [] && w'.Agent(n).results == []
  }

  lemma {:induction false} Restarts(k: Track, w: World, n: NodeName) returns (w': World)
    requires OthersUpload(k, w)
    ensures Goes(k, w, w') && Restarted(k, w, w', n)
  {
    w' := Next(w, Crash(n));
    Steps(k, w, Crash(n));
  }

  ghost predicate TookQueue(k: Track, w: World, w': World, n: NodeName) {
    && SameFiles(w, w') && w'.arrived == w.arrived && w'.removals == w.removals && w'.wires == w.wires
    && OnRecord(k, w') && SameRecord(k, w, w') && w'.Agent(n).results == w.Agent(n).results
    && w'.Agent(n).todo == w.Queue(n) && w'.Queue(n) == [] && (forall m :: m != n ==> w'.Agent(m) == w.Agent(m) && w'.Queue(m) == w.Queue(m))
  }

  lemma {:induction false} TakesQueue(k: Track, w: World, n: NodeName) returns (w': World)
    requires OnRecord(k, w) && w.Wire(n) == [] && w.Agent(n).todo == []
    ensures Goes(k, w, w') && TookQueue(k, w, w', n)
  {
    w' := Next(w, TakeActions(n, true));
    Steps(k, w, TakeActions(n, true));
  }

  lemma {:induction false} Fetch(k: Track, w: World, n: NodeName) returns (w': World)
    requires OnRecord(k, w)
    ensures Goes(k, w, w') && Fetched(k, w, w', n)
  {
    var w1 := Restarts(k, w, n);
    var w2 := Hear(k, w1, n);
    w' := TakesQueue(k, w2, n);
    Further(k, w, w1, w2);
    Further(k, w, w2, w');
    FetchedSo(k, w, w1, w2, w', n);
  }

  lemma {:induction false} FetchedSo(k: Track, w: World, w1: World, w2: World, w': World, n: NodeName)
    requires Restarted(k, w, w1, n) && Heard(k, w1, w2, n) && TookQueue(k, w2, w', n)
    ensures Fetched(k, w, w', n)
  {
    assert forall m :: w.Queue(m) == w1.Queue(m) && w1.Queue(m) <= w2.Queue(m);
    assert w1.Wire(n) == w.Wire(n);
    assert forall m :: w2.Agent(m) == w1.Agent(m);
    assert forall m :: w'.Agent(m).files == w2.Agent(m).files;
    assert forall m :: m != n ==> w'.Wire(m) == w2.Wire(m) && w2.Wire(m) == w1.Wire(m);
    assert w.Queue(n) <= w2.Queue(n);
    if Blameless(k, w.Wire(n)) { assert SameRecord(k, w, w2); }
  }

  // ----- the stages of a move, through whatever is in the way -----

  /** An upload with the move's number is let through: these bytes are staged. */
  ghost predicate Stages(k: Track, w: World, w': World, c: Bytes) {
    && SameFiles(w, w') && w'.arrived == w.arrived && w'.removals == w.removals && w'.wires == w.wires
    && OnRecord(k, w') && w'.relay.transfers[k.id].state == TransferState.Staged
    && k.id in w'.relay.blobs && w'.relay.blobs[k.id] == Relayed(c)
    && w'.Queue(k.t.toNode) == w.Queue(k.t.toNode) + [Recv(k.id, k.t.user, k.t.toPath, -1)]
    && (forall m :: m != k.t.toNode ==> w'.Queue(m) == w.Queue(m))
    && (forall m :: m != k.t.fromNode ==> w'.Agent(m) == w.Agent(m))
    && w.Agent(k.t.fromNode).todo != [] && w'.Agent(k.t.fromNode).todo == w.Agent(k.t.fromNode).todo[1..]
  }

  lemma {:induction false} SendNow(k: Track, w: World, c: Bytes) returns (w': World)
    requires OnRecord(k, w) && w.relay.transfers[k.id].state == Sending && k.t.toNode != COMPUTER
    requires w.Agent(k.t.fromNode).todo != []
    requires var act := w.Agent(k.t.fromNode).todo[0]; act.Send? && act.id == k.id && FileOf(w.Agent(k.t.fromNode), act.user, act.path) == Some(c)
    ensures Goes(k, w, w') && Stages(k, w, w', c)
  {
    var s := DoSend(k.t.fromNode, Answered, -1);
    w' := Next(w, s);
    Steps(k, w, s);
    assert w'.relay == Stage(w.relay, k.id, k.t.fromNode, Some(Relayed(c)), -1).0;
  }

  /** A download with the move's number finds the staged bytes and stores them. */
  lemma {:induction false} StoreNow(k: Track, w: World, loc: Loc) returns (w': World)
    requires OnRecord(k, w) && w.relay.transfers[k.id].state == TransferState.Staged && k.id in w.relay.blobs
    requires w.Agent(k.t.toNode).todo != []
    requires var act := w.Agent(k.t.toNode).todo[0];
             && act.Recv? && act.id == k.id && At(k.t.toNode, act.user, act.path) == Some(loc)
             && (act.limit < 0 || |w.relay.blobs[k.id]| <= act.limit)
    ensures Goes(k, w, w') && OnRecord(k, w') && w'.relay == w.relay && w'.wires == w.wires && w'.removals == w.removals
    ensures (forall m :: m != k.t.toNode ==> w'.Agent(m) == w.Agent(m)) && w'.Agent(k.t.toNode).todo == w.Agent(k.t.toNode).todo[1..]
    ensures w'.Agent(k.t.toNode).files == w.Agent(k.t.toNode).files[loc.path := w.relay.blobs[k.id]]
    ensures Oks(w'.Agent(k.t.toNode).results, k.id) > 0
    ensures w'.arrived == if Some(loc) == k.Dst() then w.arrived + {k.id} else w.arrived
  {
    var d, act := k.t.toNode, w.Agent(k.t.toNode).todo[0];
    w' := Next(w, DoRecv(d, Written));
    Steps(k, w, DoRecv(d, Written));
    var o := Outcome(k.id, RecvKind, true, |w.relay.blobs[k.id]|);
    assert w'.Agent(d).results == w.Agent(d).results + [o];
    OksAppend(w.Agent(d).results, o, k.id);
    assert k.Dst() == At(d, w.relay.transfers[k.id].user, w.relay.transfers[k.id].toPath);
  }

  /** Reports pending at a machine reach the controller. */
  lemma {:induction false} ReportArrives(k: Track, w: World, n: NodeName) returns (w': World)
    requires OnRecord(k, w) && OldReport(k, w, n)
    ensures Goes(k, w, w') && OnRecord(k, w') && SameFiles(w, w') && w'.arrived == w.arrived
    ensures w'.removals[k.id] > 0 && Remove(k.id, k.t.user, k.t.fromPath) in w'.Queue(k.t.fromNode)
  {
    var w1 := Idles(k, w, n);
    var w2 := Hear(k, w1, n);
    var w3 := HandsOver(k, w2, n);
    w' := Hear(k, w3, n);
    Further(k, w, w1, w2);
    Through(k, w, w2, w3, w');
    HeardTwice(k, w1, w2, w3, w', n);
  }

  /** The machine gets through all it has in hand. */
  lemma {:induction false} Idles(k: Track, w: World, n: NodeName) returns (w': World)
    requires OnRecord(k, w) && OldReport(k, w, n)
    ensures Goes(k, w, w') && OnRecord(k, w') && SameFiles(w, w') && w'.arrived == w.arrived
    ensures OldReport(k, w', n) && w'.Agent(n).todo == []
  {
    w' := Skip(k, w, n, |w.Agent(n).todo|);
    OksPrefix(w.Agent(n).results, w'.Agent(n).results, k.id);
    SkippedSo(k, w, w', n, |w.Agent(n).todo|);
  }

  lemma {:induction false} HeardTwice(k: Track, w1: World, w2: World, w3: World, w': World, n: NodeName)
    requires Heard(k, w1, w2, n) && HandedOver(w2, w3, n) && Heard(k, w3, w', n) && OldReport(k, w1, n)
    ensures OnRecord(k, w') && SameFiles(w1, w') && w'.arrived == w1.arrived
    ensures w'.removals[k.id] > 0 && Remove(k.id, k.t.user, k.t.fromPath) in w'.Queue(k.t.fromNode)
  {
    assert w2.Queue(k.t.fromNode) == w3.Queue(k.t.fromNode) && w3.Queue(k.t.fromNode) <= w'.Queue(k.t.fromNode);
    assert forall m :: w2.Agent(m) == w1.Agent(m) && w'.Agent(m) == w3.Agent(m);
  }

  ghost predicate HandedOver(w: World, w': World, n: NodeName) {
    && w'.relay == w.relay && w'.arrived == w.arrived && w'.removals == w.removals && SameFiles(w, w')
    && w'.Wire(n) == w.Agent(n).results
  }

  lemma {:induction false} HandsOver(k: Track, w: World, n: NodeName) returns (w': World)
    requires OnRecord(k, w) && w.Wire(n) == [] && w.Agent(n).todo == []
    ensures Goes(k, w, w') && HandedOver(w, w', n) && OnRecord(k, w')
  {
    w' := Next(w, HandOver(n, true));
    Steps(k, w, HandOver(n, true));
  }

  lemma {:induction false} OksPrefix(xs: seq<Outcome>, ys: seq<Outcome>, id: TransferId)
    requires xs <= ys
    ensures Oks(xs, id) > 0 ==> Oks(ys, id) > 0
  {
  }

  /** The source's machine carries out the removal. */
  lemma {:induction false} SourceGoes(k: Track, w: World) returns (w': World)
    requires OnRecord(k, w) && Remove(k.id, k.t.user, k.t.fromPath) in w.Queue(k.t.fromNode) && Holds(w, k.Src()).Some?
    ensures Goes(k, w, w') && Holds(w', k.Src()) == None
  {
    var m := k.t.fromNode;
    var w1 := Fetch(k, w, m);
    var i: nat :| i < |w.Queue(m)| && w.Queue(m)[i] == Remove(k.id, k.t.user, k.t.fromPath);
    assert w1.Agent(m).todo[i] == w.Queue(m)[i];
    var w2 := Skip(k, w1, m, i);
    Further(k, w, w1, w2);
    assert w2.Agent(m).todo[0] == w1.Agent(m).todo[i];
    w' := Next(w2, DoRemove(m, true));
    Steps(k, w2, DoRemove(m, true));
    Further(k, w, w2, w');
  }

  // ----- how leftovers mislead -----

  /** Just after the request: nothing of it is staged, stored or reported. */
  ghost predicate JustAsked(k: Track, w: World) {
    && OnRecord(k, w) && w.relay.transfers[k.id].state == Sending && k.id !in w.arrived
    && k.t.toNode != COMPUTER && k.Dst().Some? && Holds(w, k.Src()) == Some(k.body) && Holds(w, k.Dst()) == k.there
    && exists p: nat :: p < |w.Queue(k.t.fromNode)| && w.Queue(k.t.fromNode)[p] == Send(k.id, k.t.user, k.t.fromPath)
  }

  /** An old report is taken for the arrival of the bytes. */
  lemma {:induction false} OldReportLoses(k: Track, w: World, n: NodeName)
    requires OnRecord(k, w) && k.id !in w.arrived && OldReport(k, w, n)
    ensures !Safe(k, w)
  {
    var w' := ReportArrives(k, w, n);
    Loses(k, w, w');
  }

  /** An old download takes the move's bytes to another file, and its report is taken for
      their arrival.  Here from the point where they are staged. */
  lemma {:induction false} StrayStores(k: Track, w: World, i: nat)
    requires OnRecord(k, w) && w.relay.transfers[k.id].state == TransferState.Staged && k.id !in w.arrived
    requires k.id in w.relay.blobs && |w.relay.blobs[k.id]| == |Relayed(k.body)|
    requires i < |w.Agent(k.t.toNode).todo| && Strays(k, w.Agent(k.t.toNode).todo[i])
    ensures !Safe(k, w)
  {
    var w1 := ReachesStray(k, w, i);
    var act := w1.Agent(k.t.toNode).todo[0];
    var w2 := StoreNow(k, w1, At(k.t.toNode, act.user, act.path).value);
    OldReportLoses(k, w2, k.t.toNode);
    Earlier(k, w1, w2);
    Earlier(k, w, w1);
  }

  lemma {:induction false} ReachesStray(k: Track, w: World, i: nat) returns (w': World)
    requires OnRecord(k, w) && i < |w.Agent(k.t.toNode).todo|
    ensures Goes(k, w, w') && OnRecord(k, w') && SameRecord(k, w, w') && w'.arrived == w.arrived
    ensures w'.Agent(k.t.toNode).todo != [] && w'.Agent(k.t.toNode).todo[0] == w.Agent(k.t.toNode).todo[i]
  {
    w' := Skip(k, w, k.t.toNode, i);
    SkippedSo(k, w, w', k.t.toNode, i);
  }

  lemma {:induction false} Earlier(k: Track, w: World, w': World)
    requires Goes(k, w, w') && !Safe(k, w')
    ensures !Safe(k, w)
  {
    var ws: seq<World>, ss: seq<Step> :| IsPath(ws, ss) && ws[0] == w' && (forall j :: 0 <= j < |ss| ==> Alone(k, ss[j])) && !Kept(k, ws[|ss|]);
    assert Goes(k, w', ws[|ss|]);
    Further(k, w, w', ws[|ss|]);
    Loses(k, w, ws[|ss|]);
  }

  /** The source's machine sends the source. */
  lemma {:induction false} SourceSent(k: Track, w: World) returns (w': World)
    requires JustAsked(k, w) && Blameless(k, w.Wire(k.t.fromNode))
    ensures Goes(k, w, w') && OnRecord(k, w') && w'.relay.transfers[k.id].state == TransferState.Staged
    ensures k.id in w'.relay.blobs && w'.relay.blobs[k.id] == Relayed(k.body) && w'.arrived == w.arrived && SameFiles(w, w')
    ensures forall n :: n != k.t.fromNode ==> w'.Agent(n) == w.Agent(n) && w'.Wire(n) == w.Wire(n)
    ensures w'.Wire(k.t.fromNode) == [] && Recv(k.id, k.t.user, k.t.toPath, -1) in w'.Queue(k.t.toNode)
  {
    var m := k.t.fromNode;
    var p: nat :| p < |w.Queue(m)| && w.Queue(m)[p] == Send(k.id, k.t.user, k.t.fromPath);
    var w1 := Fetch(k, w, m);
    assert w1.Agent(m).todo[p] == w.Queue(m)[p];
    var w2 := Skip(k, w1, m, p);
    Further(k, w, w1, w2);
    assert w2.Agent(m).todo[0] == w1.Agent(m).todo[p];
    w' := SendNow(k, w2, k.body);
    Further(k, w, w2, w');
  }

  lemma {:induction false} OldDownloadLoses(k: Track, w: World)
    requires JustAsked(k, w) && OldDownload(k, w) && !OldUpload(k, w) && Harmless(k)
    requires k.t.fromNode != k.t.toNode ==> Blameless(k, w.Wire(k.t.fromNode))
    ensures !Safe(k, w)
  {
    var todo := w.Agent(k.t.toNode).todo;
    var i: nat :| i < |todo| && Strays(k, todo[i]) && (k.t.fromNode == k.t.toNode ==> exists j :: 0 <= j < i && Viable(k, todo[j]));
    if k.t.fromNode != k.t.toNode {
      var w' := SourceSent(k, w);
      StrayStores(k, w', i);
      Earlier(k, w, w');
    } else {
      var j: nat :| j < i && Viable(k, todo[j]);
      StrayBehindUpload(k, w, i, j);
    }
  }

  /** One machine has an old upload and, behind it, an old download in hand. */
  lemma {:induction false} StrayBehindUpload(k: Track, w: World, i: nat, j: nat)
    requires JustAsked(k, w) && !OldUpload(k, w) && Harmless(k) && k.t.fromNode == k.t.toNode
    requires j < i < |w.Agent(k.t.toNode).todo| && Strays(k, w.Agent(k.t.toNode).todo[i]) && Viable(k, w.Agent(k.t.toNode).todo[j])
    ensures !Safe(k, w)
  {
    var m, act := k.t.fromNode, w.Agent(k.t.toNode).todo[j];
    ViableSends(k, w, act);
    var w1 := Skip(k, w, m, j);
    assert w1.Agent(m).todo[0] == act;
    var w' := SendNow(k, w1, FileOf(w.Agent(m), act.user, act.path).value);
    Further(k, w, w1, w');
    assert w'.Agent(m).todo[i - j - 1] == w.Agent(m).todo[i];
    StrayStores(k, w', i - j - 1);
    Earlier(k, w, w');
  }

  lemma {:induction false} ViableSends(k: Track, w: World, act: FileAction)
    requires JustAsked(k, w) && !OldUpload(k, w) && Harmless(k) && act in w.Agent(k.t.fromNode).todo && Viable(k, act)
    ensures var file := FileOf(w.Agent(k.t.fromNode), act.user, act.path); file.Some? && Relayed(file.value) == Relayed(k.body)
  {
  }

  /** Bytes that are not the source's are staged: they arrive at the destination, and the
      source goes for them. */
  lemma {:induction false} WrongBytesArrive(k: Track, w: World)
    requires OnRecord(k, w) && w.relay.transfers[k.id].state == TransferState.Staged && k.Dst().Some?
    requires k.id in w.relay.blobs && w.relay.blobs[k.id] != k.body
    requires Recv(k.id, k.t.user, k.t.toPath, -1) in w.Queue(k.t.toNode) && Blameless(k, w.Wire(k.t.toNode))
    ensures !Safe(k, w)
  {
    var w1 := BytesArrive(k, w);
    Loses(k, w, w1);
  }

  lemma {:induction false} BytesArrive(k: Track, w: World) returns (w': World)
    requires OnRecord(k, w) && w.relay.transfers[k.id].state == TransferState.Staged && k.Dst().Some? && k.id in w.relay.blobs
    requires Recv(k.id, k.t.user, k.t.toPath, -1) in w.Queue(k.t.toNode) && Blameless(k, w.Wire(k.t.toNode))
    ensures Goes(k, w, w') && Holds(w', k.Dst()) == Some(w.relay.blobs[k.id]) && w'.removals[k.id] > 0
    ensures OnRecord(k, w') && Remove(k.id, k.t.user, k.t.fromPath) in w'.Queue(k.t.fromNode)
  {
    var d := k.t.toNode;
    var w1 := Fetch(k, w, d);
    var q: nat :| q < |w.Queue(d)| && w.Queue(d)[q] == Recv(k.id, k.t.user, k.t.toPath, -1);
    assert w1.Agent(d).todo[q] == w.Queue(d)[q];
    var w2 := Skip(k, w1, d, q);
    Further(k, w, w1, w2);
    assert w2.Agent(d).todo[0] == w1.Agent(d).todo[q];
    var w3 := StoreNow(k, w2, k.Dst().value);
    Further(k, w, w2, w3);
    w' := ReportArrives(k, w3, d);
    Further(k, w, w3, w');
  }

  /** Some bytes that are not the source's, cut off or not. */
  function Other(body: Bytes): (c: Bytes)
    ensures Relayed(c) != body
  {
    if body == "" then "x" else ""
  }

  lemma {:induction false} OldUploadLoses(k: Track, w: World)
    requires JustAsked(k, w) && OldUpload(k, w) && Blameless(k, w.Wire(k.t.toNode))
    ensures !Safe(k, w)
  {
    var m, d := k.t.fromNode, k.t.toNode;
    var act :| act in w.Agent(m).todo && act.Send? && act.id == k.id && !SendOk(k, At(m, act.user, act.path));
    var j: nat :| j < |w.Agent(m).todo| && w.Agent(m).todo[j] == act;
    var loc := At(m, act.user, act.path).value;
    var w1 := Skip(k, w, m, j);
    assert w1.Agent(m).todo[0] == act;
    var w2, c := OtherBytesThere(k, w1, m, act, loc);
    Further(k, w, w1, w2);
    var w3 := SendNow(k, w2, c);
    Further(k, w, w2, w3);
    WrongBytesArrive(k, w3);
    Earlier(k, w, w3);
  }

  /** The old upload's file holds other bytes already, or somebody writes some. */
  lemma {:induction false} OtherBytesThere(k: Track, w: World, m: NodeName, act: FileAction, loc: Loc) returns (w': World, c: Bytes)
    requires At(m, act.user, act.path) == Some(loc) && !SendOk(k, Some(loc)) && Holds(w, k.Dst()) == k.there && OnRecord(k, w)
    ensures Goes(k, w, w') && OnRecord(k, w') && w'.relay == w.relay && w'.wires == w.wires && w'.Agent(m).todo == w.Agent(m).todo
    ensures FileOf(w'.Agent(m), act.user, act.path) == Some(c) && Relayed(c) != k.body
  {
    if Some(loc) == k.Dst() {
      Stays(k, w);
      w', c := w, k.there.value;
      assert Holds(w, Some(loc)) == FileOf(w.Agent(m), act.user, act.path);
    } else {
      c := Other(k.body);
      var s := WriteFile(m, loc.path, Some(c));
      w' := Next(w, s);
      Steps(k, w, s);
    }
  }

  /** A move whose two files are one, or whose source the relay cuts off. */
  lemma {:induction false} HarmfulLoses(k: Track, w: World)
    requires JustAsked(k, w) && !Harmless(k) && Blameless(k, w.Wire(k.t.fromNode)) && Blameless(k, w.Wire(k.t.toNode))
    ensures !Safe(k, w)
  {
    var w1 := SourceSent(k, w);
    assert Blameless(k, w1.Wire(k.t.toNode));
    if |k.body| > MAX_RELAYED {
      WrongBytesArrive(k, w1);
      Earlier(k, w, w1);
    } else {
      var w2 := BytesArrive(k, w1);
      Further(k, w, w1, w2);
      var w3 := SourceGoes(k, w2);
      Further(k, w, w2, w3);
      Loses(k, w, w3);
    }
  }

  // ----- the theorem -----

  /** No report of a failure, or of a removal, with the move's number is just being handled
      for this machine. */
  ghost predicate Unblocked(k: Track, w: World, n: NodeName) {
    forall o :: o in w.Wire(n) && o.id == k.id ==> o.ok && o.kind != RemoveKind
  }

  /** A move that is accepted is safe if and only if its two paths name different files,
      the relay takes all of the source, and no leftover of an earlier life is taken for
      the move's own.  The controller compares the paths as they were spelled, cuts off
      what is beyond the relay's limit without an error, and knows transfers only by their
      numbers. */
  lemma {:induction false} MoveIsSafeIff(w: World, s: Step, body: Bytes)
    requires NumbersOk(w) && Accepted(w, s, body) && Quiet(Asked(w, s, body), w)
    requires s.to != COMPUTER && Asked(w, s, body).Dst().Some?
    requires Unblocked(Asked(w, s, body), w, s.from) && Unblocked(Asked(w, s, body), w, s.to)
    ensures Safe(Asked(w, s, body), Next(w, s)) <==> Harmless(Asked(w, s, body)) && !Misled(Asked(w, s, body), w)
  {
    var k, w' := Asked(w, s, body), Next(w, s);
    AcceptedIsJustAsked(w, s, body);
    if n :| OldReport(k, w, n) {
      assert OldReport(k, w', n);
      OldReportLoses(k, w', n);
    } else {
      assert !OldReport(k, w, s.from) && !OldReport(k, w, s.to);
      assert Blameless(k, w'.Wire(s.from)) && Blameless(k, w'.Wire(s.to));
      if !Harmless(k) {
        HarmfulLoses(k, w');
      } else if OldUpload(k, w) {
        OldUploadLoses(k, w');
      } else if OldDownload(k, w) {
        OldDownloadLoses(k, w');
      } else {
        HarmlessIsSafe(w, s, body);
      }
    }
  }

  lemma {:induction false} AcceptedIsJustAsked(w: World, s: Step, body: Bytes)
    requires NumbersOk(w) && Accepted(w, s, body) && s.to != COMPUTER && Asked(w, s, body).Dst().Some?
    ensures JustAsked(Asked(w, s, body), Next(w, s)) && Next(w, s).agents == w.agents && Next(w, s).wires == w.wires
  {
    var k, w' := Asked(w, s, body), Next(w, s);
    assert OthersUpload(k, w') by {
      forall n | n in w'.uploads
        ensures w'.uploads[n].id != k.id && w'.Agent(n).todo != [] && w'.Agent(n).todo[0].Send? && w'.Agent(n).todo[0].id == w'.uploads[n].id
      {
        assert QueueIds(w, n);
      }
    }
    assert w'.Queue(s.from)[|w.Queue(s.from)|] == Send(k.id, s.user, s.fromPath);
  }

  /** Even if the destination is no place to store anything. */
  lemma {:induction false} HarmlessIsSafe(w: World, s: Step, body: Bytes)
    requires NumbersOk(w) && Accepted(w, s, body) && Quiet(Asked(w, s, body), w)
    requires Harmless(Asked(w, s, body)) && !Misled(Asked(w, s, body), w)
    ensures Safe(Asked(w, s, body), Next(w, s))
  {
    var k, w' := Asked(w, s, body), Next(w, s);
    AcceptedStarts(w, s, body);
    forall ws: seq<World>, ss: seq<Step> |
      IsPath(ws, ss) && ws[0] == w' && (forall j :: 0 <= j < |ss| ==> Alone(k, ss[j]))
      ensures Kept(k, ws[|ss|])
    {
      MoveInvOverRuns(k, ws, ss, 0, |ss|);
    }
  }

  /** So a restart can cost a move its file: a machine, any machine, still has to report
      that it stored the bytes of transfer 1, and the first move after the restart is
      asked for, however different its files. */
  lemma {:induction false} RestartLosesMove(w: World, n: NodeName, o: Outcome, s: Step, body: Bytes)
    requires o in w.Agent(n).results && Stored(o, 1)
    requires var w1 := Next(w, ControllerRestart);
             && Accepted(w1, s, body) && Quiet(Asked(w1, s, body), w1) && s.to != COMPUTER && Asked(w1, s, body).Dst().Some?
    ensures !Safe(Asked(Next(w, ControllerRestart), s, body), Next(Next(w, ControllerRestart), s))
  {
    var w1 := Next(w, ControllerRestart);
    var k := Asked(w1, s, body);
    assert NumbersOk(w1) by {
      forall m ensures QueueIds(w1, m) {}
    }
    assert OldReport(k, w1, n);
    MoveIsSafeIff(w1, s, body);
  }
}
