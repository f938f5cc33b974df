/** The ordinary course of a move, and where it ends badly: a file moved onto itself under
    another spelling is lost, and so is what the relay cuts off a file that is too large. */
module MoveSafety {
  import opened Paths
  import opened Relay
  import opened FileAgents
  import opened RelayWorld
  import opened Moves

  /** However the world goes on, with nobody else writing the two files, nothing is lost. */
  ghost predicate Safe(k: Track, w: World) {
    forall ws: seq<World>, ss: seq<Step> ::
      IsPath(ws, ss) && ws[0] == w && (forall j :: 0 <= j < |ss| ==> Alone(k, ss[j])) ==> Kept(k, ws[|ss|])
  }

  // ----- the ordinary course of a move -----

  /** A machine has nothing in hand and nothing to report. */
  ghost predicate Calm(w: World, n: NodeName) {
    w.Agent(n).todo == [] && w.Agent(n).results == [] && w.Wire(n) == [] && n !in w.uploads
  }

  ghost predicate Recorded(k: Track, w: World, state: TransferState) {
    && k.id in w.relay.transfers && w.relay.transfers[k.id] == k.t.(state := state, size := w.relay.transfers[k.id].size)
    && (state == Staged ==> k.id in w.relay.blobs && w.relay.blobs[k.id] == Relayed(k.body))
  }

  ghost predicate BothCalm(k: Track, w: World) {
    Calm(w, k.t.fromNode) && Calm(w, k.t.toNode)
  }

  /** The one action queued for the two machines. */
  ghost predicate OnlyQueued(k: Track, w: World, n: NodeName, act: FileAction) {
    && w.Queue(n) == [act]
    && (k.t.fromNode != n ==> w.Queue(k.t.fromNode) == [])
    && (k.t.toNode != n ==> w.Queue(k.t.toNode) == [])
  }

  ghost predicate Before(k: Track, w: World) {
    && BothCalm(k, w) && Recorded(k, w, Sending)
    && OnlyQueued(k, w, k.t.fromNode, Send(k.id, k.t.user, k.t.fromPath))
    && Holds(w, k.Src()) == Some(k.body)
  }

  ghost predicate Between(k: Track, w: World) {
    && BothCalm(k, w) && Recorded(k, w, Staged)
    && OnlyQueued(k, w, k.t.toNode, Recv(k.id, k.t.user, k.t.toPath, -1))
    && Holds(w, k.Src()) == Some(k.body)
  }

  ghost predicate After(k: Track, w: World) {
    && BothCalm(k, w)
    && OnlyQueued(k, w, k.t.fromNode, Remove(k.id, k.t.user, k.t.fromPath))
    && Holds(w, k.Src()).Some? && Holds(w, k.Dst()) == Some(Relayed(k.body))
  }

  /** Both machines are as they were, but for what `n` has in hand. */
  ghost predicate Has(k: Track, w: World, n: NodeName, todo: seq<FileAction>, results: seq<Outcome>, wire: seq<Outcome>) {
    && w.Agent(n).todo == todo && w.Agent(n).results == results && w.Wire(n) == wire && n !in w.uploads
    && (k.t.fromNode != n ==> Calm(w, k.t.fromNode))
    && (k.t.toNode != n ==> Calm(w, k.t.toNode))
  }

  ghost predicate SameBytes(k: Track, w: World, w': World) {
    Holds(w', k.Src()) == Holds(w, k.Src()) && Holds(w', k.Dst()) == Holds(w, k.Dst())
  }

  predicate Party(k: Track, n: NodeName) {
    n == k.t.fromNode || n == k.t.toNode
  }

  lemma {:induction false} Takes(k: Track, w: World, n: NodeName, act: FileAction) returns (w': World)
    requires BothCalm(k, w) && Party(k, n) && OnlyQueued(k, w, n, act)
    ensures Onto(w, TakeActions(n, true), w')
    ensures Has(k, w', n, [act], [], []) && w'.Queue(k.t.fromNode) == [] && w'.Queue(k.t.toNode) == []
    ensures SameBytes(k, w, w') && w'.relay.transfers == w.relay.transfers && w'.relay.blobs == w.relay.blobs
  {
    w' := Next(w, TakeActions(n, true));
  }

  lemma {:induction false} HandsOver(k: Track, w: World, n: NodeName, o: Outcome) returns (w': World)
    requires Has(k, w, n, [], [o], []) && Party(k, n)
    ensures Onto(w, HandOver(n, true), w')
    ensures Has(k, w', n, [], [], [o]) && SameBytes(k, w, w') && w'.relay == w.relay
  {
    w' := Next(w, HandOver(n, true));
  }

  lemma {:induction false} Sends(k: Track, w: World) returns (w': World)
    requires Has(k, w, k.t.fromNode, [Send(k.id, k.t.user, k.t.fromPath)], [], []) && k.t.toNode != COMPUTER
    requires w.Queue(k.t.fromNode) == [] && w.Queue(k.t.toNode) == [] && Recorded(k, w, Sending) && Holds(w, k.Src()) == Some(k.body)
    ensures Onto(w, DoSend(k.t.fromNode, Answered, -1), w')
    ensures Has(k, w', k.t.fromNode, [], [Outcome(k.id, SendKind, true, |k.body|)], []) && SameBytes(k, w, w')
    ensures Recorded(k, w', Staged) && OnlyQueued(k, w', k.t.toNode, Recv(k.id, k.t.user, k.t.toPath, -1))
  {
    w' := Next(w, DoSend(k.t.fromNode, Answered, -1));
    assert w'.relay == Stage(w.relay, k.id, k.t.fromNode, Some(Relayed(k.body)), -1).0;
  }

  /** A report that a file was sent changes nothing. */
  lemma {:induction false} NotYet(k: Track, w: World, o: Outcome) returns (w': World)
    requires Has(k, w, k.t.fromNode, [], [], [o]) && o.ok && o.kind == SendKind
    ensures Onto(w, ApplyOne(k.t.fromNode), w')
    ensures BothCalm(k, w') && SameBytes(k, w, w') && w'.relay == w.relay
  {
    w' := Next(w, ApplyOne(k.t.fromNode));
  }

  lemma {:induction false} Stores(k: Track, w: World) returns (w': World)
    requires Has(k, w, k.t.toNode, [Recv(k.id, k.t.user, k.t.toPath, -1)], [], []) && Recorded(k, w, Staged)
    requires k.Dst().Some? && Holds(w, k.Src()).Some?
    ensures Onto(w, DoRecv(k.t.toNode, Written), w')
    ensures Has(k, w', k.t.toNode, [], [Outcome(k.id, RecvKind, true, |Relayed(k.body)|)], []) && w'.relay == w.relay
    ensures Holds(w', k.Src()).Some? && Holds(w', k.Dst()) == Some(Relayed(k.body))
  {
    w' := Next(w, DoRecv(k.t.toNode, Written));
  }

  lemma {:induction false} Applies(k: Track, w: World, o: Outcome) returns (w': World)
    requires Has(k, w, k.t.toNode, [], [], [o]) && Stored(o, k.id) && Recorded(k, w, Staged) && k.t.move
    requires w.Queue(k.t.fromNode) == [] && w.Queue(k.t.toNode) == []
    ensures Onto(w, ApplyOne(k.t.toNode), w')
    ensures BothCalm(k, w') && SameBytes(k, w, w') && OnlyQueued(k, w', k.t.fromNode, Remove(k.id, k.t.user, k.t.fromPath))
  {
    w' := Next(w, ApplyOne(k.t.toNode));
  }

  lemma {:induction false} Removes(k: Track, w: World) returns (w': World)
    requires Has(k, w, k.t.fromNode, [Remove(k.id, k.t.user, k.t.fromPath)], [], []) && Holds(w, k.Src()).Some?
    ensures Onto(w, DoRemove(k.t.fromNode, true), w')
    ensures Holds(w', k.Src()) == None && Holds(w', k.Dst()) == if k.Src() == k.Dst() then None else Holds(w, k.Dst())
  {
    w' := Next(w, DoRemove(k.t.fromNode, true));
  }

  /** The steps of the three exchanges of a move in which nothing goes wrong. */
  function SendRound(n: NodeName): seq<Step> {
    [TakeActions(n, true), DoSend(n, Answered, -1), HandOver(n, true), ApplyOne(n)]
  }

  function StoreRound(n: NodeName): seq<Step> {
    [TakeActions(n, true), DoRecv(n, Written), HandOver(n, true), ApplyOne(n)]
  }

  function RemoveRound(n: NodeName): seq<Step> {
    [TakeActions(n, true), DoRemove(n, true)]
  }

  ghost predicate Onto(w: World, s: Step, w': World) {
    Enabled(w, s) && w' == Next(w, s)
  }

  lemma {:induction false} Four(w0: World, w1: World, w2: World, w3: World, w4: World, s0: Step, s1: Step, s2: Step, s3: Step)
    requires Onto(w0, s0, w1) && Onto(w1, s1, w2) && Onto(w2, s2, w3) && Onto(w3, s3, w4)
    ensures IsPath([w0, w1, w2, w3, w4], [s0, s1, s2, s3])
  {
    var ws, ss := [w0, w1, w2, w3, w4], [s0, s1, s2, s3];
    assert Leads(ws, ss, 0) && Leads(ws, ss, 1) && Leads(ws, ss, 2) && Leads(ws, ss, 3);
  }

  lemma {:induction false} SendRoundRuns(k: Track, w: World) returns (ws: seq<World>)
    requires Before(k, w) && k.t.toNode != COMPUTER
    ensures IsPath(ws, SendRound(k.t.fromNode)) && ws[0] == w && Between(k, ws[4])
  {
    var n, o := k.t.fromNode, Outcome(k.id, SendKind, true, |k.body|);
    var w1 := Takes(k, w, n, Send(k.id, k.t.user, k.t.fromPath));
    var w2 := Sends(k, w1);
    var w3 := HandsOver(k, w2, n, o);
    var w4 := NotYet(k, w3, o);
    Four(w, w1, w2, w3, w4, TakeActions(n, true), DoSend(n, Answered, -1), HandOver(n, true), ApplyOne(n));
    ws := [w, w1, w2, w3, w4];
  }

  lemma {:induction false} StoreRoundRuns(k: Track, w: World) returns (ws: seq<World>)
    requires Between(k, w) && k.t.move && k.Dst().Some?
    ensures IsPath(ws, StoreRound(k.t.toNode)) && ws[0] == w && After(k, ws[4])
  {
    var n, o := k.t.toNode, Outcome(k.id, RecvKind, true, |Relayed(k.body)|);
    var w1, w2 := TakesAndStores(k, w);
    var w3 := HandsOver(k, w2, n, o);
    var w4 := Applies(k, w3, o);
    Four(w, w1, w2, w3, w4, TakeActions(n, true), DoRecv(n, Written), HandOver(n, true), ApplyOne(n));
    ws := [w, w1, w2, w3, w4];
  }

  lemma {:induction false} TakesAndStores(k: Track, w: World) returns (w1: World, w2: World)
    requires Between(k, w) && k.t.move && k.Dst().Some?
    ensures Onto(w, TakeActions(k.t.toNode, true), w1)
    ensures Onto(w1, DoRecv(k.t.toNode, Written), w2)
    ensures Has(k, w2, k.t.toNode, [], [Outcome(k.id, RecvKind, true, |Relayed(k.body)|)], []) && Recorded(k, w2, Staged)
    ensures w2.Queue(k.t.fromNode) == [] && w2.Queue(k.t.toNode) == []
    ensures Holds(w2, k.Src()).Some? && Holds(w2, k.Dst()) == Some(Relayed(k.body))
  {
    w1 := Takes(k, w, k.t.toNode, Recv(k.id, k.t.user, k.t.toPath, -1));
    w2 := Stores(k, w1);
  }

  lemma {:induction false} RemoveRoundRuns(k: Track, w: World) returns (ws: seq<World>)
    requires After(k, w)
    ensures IsPath(ws, RemoveRound(k.t.fromNode)) && ws[0] == w
    ensures Holds(ws[2], k.Src()) == None && Holds(ws[2], k.Dst()) == if k.Src() == k.Dst() then None else Some(Relayed(k.body))
  {
    var n := k.t.fromNode;
    var w1 := Takes(k, w, n, Remove(k.id, k.t.user, k.t.fromPath));
    var w2 := Removes(k, w1);
    ws := [w, w1, w2];
    assert Leads(ws, RemoveRound(n), 0) && Leads(ws, RemoveRound(n), 1);
  }

  lemma {:induction false} Joined(us: seq<World>, rs: seq<Step>, ws: seq<World>, ss: seq<Step>)
    requires IsPath(us, rs) && IsPath(ws, ss) && us[|rs|] == ws[0]
    ensures IsPath(us + ws[1..], rs + ss)
  {
    var vs, ts := us + ws[1..], rs + ss;
    forall i | 0 <= i < |ts| ensures Leads(vs, ts, i) {
      if i >= |rs| {
        assert Leads(ws, ss, i - |rs|);
        assert vs[i] == ws[i - |rs|] && vs[i + 1] == ws[i - |rs| + 1] && ts[i] == ss[i - |rs|];
      } else {
        assert Leads(us, rs, i);
        assert vs[i] == us[i] && vs[i + 1] == us[i + 1] && ts[i] == rs[i];
      }
    }
  }

  /** Ten ordinary steps bring a move to its end, and leave at the destination what the
      relay let through -- unless the destination was the source. */
  lemma {:induction false} OrdinaryMove(k: Track, w: World) returns (ws: seq<World>, ss: seq<Step>)
    requires Before(k, w) && k.t.move && k.Dst().Some? && k.t.toNode != COMPUTER
    ensures IsPath(ws, ss) && ws[0] == w && |ss| == 10 && forall j :: 0 <= j < |ss| ==> Alone(k, ss[j])
    ensures Holds(ws[10], k.Src()) == None
    ensures Holds(ws[10], k.Dst()) == if k.Src() == k.Dst() then None else Some(Relayed(k.body))
  {
    var m, d := k.t.fromNode, k.t.toNode;
    var us := SendRoundRuns(k, w);
    var vs := StoreRoundRuns(k, us[4]);
    var xs := RemoveRoundRuns(k, vs[4]);
    Joined(us, SendRound(m), vs, StoreRound(d));
    Joined(us + vs[1..], SendRound(m) + StoreRound(d), xs, RemoveRound(m));
    ws, ss := us + vs[1..] + xs[1..], SendRound(m) + StoreRound(d) + RemoveRound(m);
  }

  /** A move onto the same file is accepted: a dot in front of the path is enough. */
  lemma {:induction false} SelfMoveAccepted(w: World, user: string, n: NodeName, path: Path, body: Bytes, room: bool)
    requires path in Listing(w.relay, Shelf(n, user)) && Holds(w, At(n, user, path)) == Some(body)
    ensures var s := StartIt(user, n, path, n, ["."] + path, true, room);
            Accepted(w, s, body) && Asked(w, s, body).Src() == Asked(w, s, body).Dst()
  {
    DottedNamesSame(user, path);
    var s := StartIt(user, n, path, n, ["."] + path, true, room);
    assert Next(w, s).relay.next == w.relay.next + 1;
  }
}
