/** The file relay as a transition system: one controller, any number of machines,
    and everything that can go wrong between them. */
module RelayWorld {
  import opened Paths
  import opened Relay
  import opened FileAgents

  /** An upload under way: for which transfer, as it was when the upload was let in, and
      what the machine read from its file. */
  datatype Opened = Opened(id: TransferId, t: Transfer, body: Bytes)

  datatype World = World(
    clock: int,                                  // nanoseconds since 1970, one clock for everybody
    relay: State,
    agents: map<NodeName, AgentState>,
    wires: map<NodeName, seq<Outcome>>,          // outcomes the controller has yet to apply
    uploads: map<NodeName, Opened>,              // uploads that were let in and are being copied
    // History of this controller's life, read by no step.
    removals: multiset<TransferId>,              // source removals queued by a move
    arrived: set<TransferId>)                    // transfers whose destination stored the bytes
  {
    function Agent(n: NodeName): AgentState { if n in agents then agents[n] else EMPTY }

    function Wire(n: NodeName): seq<Outcome> { if n in wires then wires[n] else [] }

    function Queue(n: NodeName): seq<FileAction> { QueueOf(relay.pending, n) }
  }

  datatype Step =
    | Tick(d: nat)
    | StartIt(user: string, from: NodeName, fromPath: Path, to: NodeName, toPath: Path, move: bool, room: bool)
    | UploadIt(user: string, to: NodeName, toPath: Path, data: Option<Bytes>, head: int)
    | FetchIt(user: string, from: NodeName, fromPath: Path)
    | FetchDone(id: TransferId)
    | RemoveIt(user: string, n: NodeName, path: Path)
    | ExpireIt(id: TransferId)
    | HandOver(n: NodeName, arrives: bool)       // a heartbeat takes the agent's outcomes
    | ApplyOne(n: NodeName)                      // the controller applies the next of them
    | TakeActions(n: NodeName, arrives: bool)    // and answers with the machine's queue
    | DoSend(n: NodeName, sent: UploadFate, head: int)     // an upload nothing happens during
    | BeginSend(n: NodeName)                     // an upload is let in ...
    | EndSend(n: NodeName, sent: UploadFate, head: int)    // ... and ends
    | DoRecv(n: NodeName, got: DownloadFate)
    | DoRemove(n: NodeName, works: bool)
    | Crash(n: NodeName)
    | WriteFile(n: NodeName, path: Path, data: Option<Bytes>)  // a job or a login writes, or removes
    | StorageReport(n: NodeName, start: int, reps: seq<UserReport>)
    | ForgetNode(n: NodeName)
    | ControllerRestart

  ghost predicate Enabled(w: World, s: Step) {
    match s
    case FetchDone(id) => id in w.relay.transfers && w.relay.transfers[id].state == Staged
    case ExpireIt(id) => id in w.relay.transfers
    case HandOver(n, _) => w.Wire(n) == [] && w.Agent(n).todo == []
    case ApplyOne(n) => w.Wire(n) != []
    case TakeActions(n, _) => w.Wire(n) == [] && w.Agent(n).todo == []
    case DoSend(n, _, _) => w.Agent(n).todo != [] && w.Agent(n).todo[0].Send? && n !in w.uploads
    case BeginSend(n) =>
      && w.Agent(n).todo != [] && w.Agent(n).todo[0].Send? && n !in w.uploads
      && FileOf(w.Agent(n), w.Agent(n).todo[0].user, w.Agent(n).todo[0].path).Some?
      && PartyTo(w.relay, w.Agent(n).todo[0].id, n, Sending)
    case EndSend(n, fate, _) => n in w.uploads && w.Agent(n).todo != [] && fate != Unsent
    case DoRecv(n, _) => w.Agent(n).todo != [] && w.Agent(n).todo[0].Recv?
    case DoRemove(n, _) => w.Agent(n).todo != [] && w.Agent(n).todo[0].Remove?
    case StorageReport(n, start, _) => 0 <= start <= w.clock
    case _ => true
  }

  /** Heartbeats carry the start of a walk in whole milliseconds. */
  function Millis(start: int): int
    requires start >= 0
  {
    start - start % 1_000_000
  }

  ghost function WithAgent(w: World, n: NodeName, a: AgentState): World {
    w.(agents := w.agents[n := a])
  }

  ghost function Applied(w: World, n: NodeName): World
    requires w.Wire(n) != []
  {
    var o := w.Wire(n)[0];
    var queued := o.id in w.relay.transfers && o.ok && o.kind == RecvKind && w.relay.transfers[o.id].move;
    w.(relay := ApplyOutcome(w.relay, o, w.clock), wires := w.wires[n := w.Wire(n)[1..]],
       removals := if queued then w.removals + multiset{o.id} else w.removals)
  }

  ghost function Sent(w: World, n: NodeName, fate: UploadFate, head: int): World
    requires w.Agent(n).todo != [] && w.Agent(n).todo[0].Send?
  {
    var a := w.Agent(n);
    var (b, r) := SendFile(a.(todo := a.todo[1..]), w.relay, n, a.todo[0].id, a.todo[0].user, a.todo[0].path, fate, head);
    WithAgent(w, n, b).(relay := r)
  }

  ghost function Began(w: World, n: NodeName): World
    requires Enabled(w, BeginSend(n))
  {
    var act := w.Agent(n).todo[0];
    w.(uploads := w.uploads[n := Opened(act.id, w.relay.transfers[act.id], FileOf(w.Agent(n), act.user, act.path).value)])
  }

  ghost function Ended(w: World, n: NodeName, fate: UploadFate, head: int): World
    requires Enabled(w, EndSend(n, fate, head))
  {
    var a, up := w.Agent(n), w.uploads[n];
    var b := Report(a.(todo := a.todo[1..]), Outcome(up.id, SendKind, fate.Answered?, if fate.Answered? then |up.body| else 0));
    WithAgent(w, n, b).(relay := Commit(w.relay, up.id, up.t, if fate.CutOff? then None else Some(Relayed(up.body)), head),
                        uploads := w.uploads - {n})
  }

  /** An agent restarts; its files stay.  An upload of its is cut off. */
  ghost function Crashed(w: World, n: NodeName): World {
    WithAgent(w, n, w.Agent(n).(results := [], todo := []))
    .(relay := if n in w.uploads then Fail(w.relay, w.uploads[n].id) else w.relay, uploads := w.uploads - {n})
  }

  ghost function Received(w: World, n: NodeName, fate: DownloadFate): World
    requires w.Agent(n).todo != [] && w.Agent(n).todo[0].Recv?
  {
    var a := w.Agent(n);
    var act := a.todo[0];
    var b := RecvFile(a.(todo := a.todo[1..]), w.relay, n, act.id, act.user, act.path, act.limit, fate);
    WithAgent(w, n, b).(arrived := if Arrives(w.relay, n, act, b) then w.arrived + {act.id} else w.arrived)
  }

  /** A download that worked, into the file its transfer is for. */
  predicate Arrives(r: State, n: NodeName, act: FileAction, b: AgentState) {
    && b.results != [] && b.results[|b.results| - 1].ok
    && act.id in r.transfers && n == r.transfers[act.id].toNode
    && Resolve(act.user, act.path) == Resolve(r.transfers[act.id].user, r.transfers[act.id].toPath)
  }

  ghost function RemovedFile(w: World, n: NodeName, works: bool): World
    requires w.Agent(n).todo != [] && w.Agent(n).todo[0].Remove?
  {
    var a := w.Agent(n);
    WithAgent(w, n, RemoveFile(a.(todo := a.todo[1..]), a.todo[0].id, a.todo[0].user, a.todo[0].path, works))
  }

  ghost function Next(w: World, s: Step): World
    requires Enabled(w, s)
  {
    match s
    case Tick(d) => w.(clock := w.clock + d)
    case StartIt(user, from, fromPath, to, toPath, move, room) =>
      w.(relay := Start(w.relay, user, from, fromPath, to, toPath, move, room).0)
    case UploadIt(user, to, toPath, data, head) => w.(relay := Upload(w.relay, user, to, toPath, data, head))
    case FetchIt(user, from, fromPath) => w.(relay := StartFetch(w.relay, user, from, fromPath))
    case FetchDone(id) => w.(relay := Finish(w.relay, id))
    case RemoveIt(user, n, path) => w.(relay := QueueRemove(w.relay, user, n, path))
    case ExpireIt(id) => w.(relay := Expire(w.relay, id))
    case HandOver(n, arrives) =>
      WithAgent(w, n, w.Agent(n).(results := [])).(wires := w.wires[n := if arrives then w.Agent(n).results else []])
    case ApplyOne(n) => Applied(w, n)
    case TakeActions(n, arrives) =>
      WithAgent(w, n, w.Agent(n).(todo := if arrives then w.Queue(n) else [])).(relay := w.relay.(pending := w.relay.pending - {n}))
    case DoSend(n, fate, head) => Sent(w, n, fate, head)
    case BeginSend(n) => Began(w, n)
    case EndSend(n, fate, head) => Ended(w, n, fate, head)
    case DoRecv(n, fate) => Received(w, n, fate)
    case DoRemove(n, works) => RemovedFile(w, n, works)
    case Crash(n) => Crashed(w, n)
    case WriteFile(n, path, data) =>
      var files := w.Agent(n).files;
      WithAgent(w, n, w.Agent(n).(files := if data.Some? then files[path := data.value] else files - {path}))
    case StorageReport(n, start, reps) => w.(relay := ApplyReport(w.relay, n, reps, Millis(start)))
    case ForgetNode(n) =>
      w.(relay := w.relay.(pending := w.relay.pending - {n},
                           index := map shelf | shelf in w.relay.index && shelf.node != n :: w.relay.index[shelf]))
    case ControllerRestart =>
      // The index is in the store; everything else was in memory.
      w.(relay := State(0, map[], map[], map[], w.relay.index, map[]), wires := map[], uploads := map[], removals := multiset{}, arrived := {})
  }

  ghost predicate Leads(ws: seq<World>, ss: seq<Step>, i: nat)
    requires i < |ss| < |ws|
  {
    Enabled(ws[i], ss[i]) && ws[i + 1] == Next(ws[i], ss[i])
  }

  ghost predicate IsPath(ws: seq<World>, ss: seq<Step>) {
    && |ws| == |ss| + 1
    && forall i :: 0 <= i < |ss| ==> Leads(ws, ss, i)
  }

  ghost predicate Initial(w: World) {
    w.clock > 0 && w.relay == State(0, map[], map[], map[], map[], map[]) && w.agents.Keys == {} && w.wires == map[] && w.uploads == map[] && w.removals == multiset{} && w.arrived == {}
  }

  // ----- transfer records and their blobs -----

  function Rank(s: TransferState): nat {
    match s
    case Sending => 0
    case Staged => 1
    case Failed => 2
    case Done => 3
  }

  /** A blob waits at the controller only for a transfer that is staged, and is as long
      as the transfer says. */
  ghost predicate BlobMatches(r: State, id: TransferId) {
    && (id in r.blobs ==> id in r.transfers && r.transfers[id].state == Staged && |r.blobs[id]| == r.transfers[id].size)
    && (id in r.transfers ==> id <= r.next)
  }

  ghost predicate Filled(r: State, id: TransferId) {
    id in r.transfers && r.transfers[id].state == Staged ==> id in r.blobs
  }

  /** An upload under way is its machine's next action, for a transfer of its own that
      nobody else has staged. */
  ghost predicate OpenOk(w: World, n: NodeName) {
    n in w.uploads ==>
      var up := w.uploads[n];
      && w.Agent(n).todo != [] && w.Agent(n).todo[0].Send? && w.Agent(n).todo[0].id == up.id
      && up.id <= w.relay.next
      && (up.id in w.relay.transfers ==>
            w.relay.transfers[up.id].fromNode == n && w.relay.transfers[up.id].state != Staged)
  }

  ghost predicate RelayInv(w: World) {
    (forall id :: BlobMatches(w.relay, id)) && (forall n :: OpenOk(w, n))
  }

  /** An upload ends whose transfer is over. */
  ghost predicate Reopens(w: World, s: Step, id: TransferId) {
    && s.EndSend? && s.sent != CutOff && s.n in w.uploads && w.uploads[s.n].id == id
    && id in w.relay.transfers && w.relay.transfers[id].state.Over()
  }

  /** A record moves forward, and a finished one stays finished, until it expires; and what
      is staged has its blob. */
  ghost predicate Onward(r: State, r': State, id: TransferId) {
    && (id in r.transfers && id in r'.transfers ==> Rank(r.transfers[id].state) <= Rank(r'.transfers[id].state))
    && (Filled(r, id) ==> Filled(r', id))
  }

  lemma {:induction false} CommitOnward(r: State, id: TransferId, t: Transfer, upload: Option<Bytes>, head: int, i: TransferId)
    requires BlobMatches(r, i) && (i == id && i in r.transfers ==> r.transfers[i].state != Staged)
    ensures var r' := Commit(r, id, t, upload, head);
            && BlobMatches(r', i)
            && if upload.Some? && i == id && i in r.transfers && r.transfers[i].state.Over()
               then i in r'.transfers && r'.transfers[i].state == Staged && i !in r'.blobs
               else Onward(r, r', i)
  {
  }

  lemma {:induction false} SendOnward(w: World, n: NodeName, fate: UploadFate, head: int, id: TransferId)
    requires BlobMatches(w.relay, id) && Enabled(w, DoSend(n, fate, head))
    ensures BlobMatches(Sent(w, n, fate, head).relay, id) && Onward(w.relay, Sent(w, n, fate, head).relay, id)
  {
    var act := w.Agent(n).todo[0];
    var file := FileOf(w.Agent(n), act.user, act.path);
    if file.Some? && PartyTo(w.relay, act.id, n, Sending) {
      CommitOnward(w.relay, act.id, w.relay.transfers[act.id], if fate.CutOff? then None else Some(Relayed(file.value)), head, id);
    }
  }

  lemma {:induction false} ApplyOnward(w: World, n: NodeName, id: TransferId)
    requires BlobMatches(w.relay, id) && Enabled(w, ApplyOne(n))
    ensures BlobMatches(Applied(w, n).relay, id) && Onward(w.relay, Applied(w, n).relay, id)
  {
  }

  lemma {:induction false} UploadOnward(r: State, user: string, to: NodeName, toPath: Path, data: Option<Bytes>, head: int, id: TransferId)
    requires BlobMatches(r, id)
    ensures BlobMatches(Upload(r, user, to, toPath, data, head), id) && Onward(r, Upload(r, user, to, toPath, data, head), id)
  {
  }

  lemma {:induction false} RequestOnward(w: World, s: Step, id: TransferId)
    requires BlobMatches(w.relay, id) && Enabled(w, s)
    requires s.StartIt? || s.FetchIt? || s.RemoveIt?
    ensures BlobMatches(Next(w, s).relay, id) && Onward(w.relay, Next(w, s).relay, id)
  {
  }

  lemma {:induction false} OtherOnward(w: World, s: Step, id: TransferId)
    requires BlobMatches(w.relay, id) && Enabled(w, s)
    requires !s.DoSend? && !s.EndSend? && !s.ApplyOne? && !s.StartIt? && !s.UploadIt? && !s.FetchIt? && !s.RemoveIt?
    ensures BlobMatches(Next(w, s).relay, id) && Onward(w.relay, Next(w, s).relay, id)
  {
  }

  /** Every step takes every record onward, except the end of an upload whose transfer is
      over: that is staged again, without a blob. */
  lemma {:induction false} TransferStep(w: World, s: Step, w': World, id: TransferId)
    requires BlobMatches(w.relay, id) && (s.EndSend? ==> OpenOk(w, s.n)) && Enabled(w, s) && w' == Next(w, s)
    ensures BlobMatches(w'.relay, id)
    ensures if Reopens(w, s, id) then id in w'.relay.transfers && w'.relay.transfers[id].state == Staged && id !in w'.relay.blobs
            else Onward(w.relay, w'.relay, id)
  {
    match s
    case DoSend(n, fate, head) => SendOnward(w, n, fate, head, id);
    case EndSend(n, fate, head) =>
      CommitOnward(w.relay, w.uploads[n].id, w.uploads[n].t, if fate.CutOff? then None else Some(Relayed(w.uploads[n].body)), head, id);
    case ApplyOne(n) => ApplyOnward(w, n, id);
    case StartIt(_, _, _, _, _, _, _) => RequestOnward(w, s, id);
    case UploadIt(user, to, toPath, data, head) => UploadOnward(w.relay, user, to, toPath, data, head, id);
    case FetchIt(_, _, _) => RequestOnward(w, s, id);
    case RemoveIt(_, _, _) => RequestOnward(w, s, id);
    case _ => OtherOnward(w, s, id);
  }

  // ----- uploads under way -----

  /** What a step leaves of the transfer that is being uploaded. */
  ghost predicate StillOpen(r: State, r': State, id: TransferId) {
    && r.next <= r'.next
    && (id in r'.transfers ==> id in r.transfers && r'.transfers[id].fromNode == r.transfers[id].fromNode
                               && (r'.transfers[id].state == Staged ==> r.transfers[id].state == Staged))
  }

  lemma {:induction false} CommitLeaves(r: State, id: TransferId, t: Transfer, upload: Option<Bytes>, head: int, i: TransferId)
    requires i != id
    ensures StillOpen(r, Commit(r, id, t, upload, head), i)
  {
  }

  lemma {:induction false} UploadLeaves(r: State, user: string, to: NodeName, toPath: Path, data: Option<Bytes>, head: int, i: TransferId)
    requires i <= r.next
    ensures StillOpen(r, Upload(r, user, to, toPath, data, head), i)
  {
  }

  lemma {:induction false} SendLeaves(w: World, m: NodeName, fate: UploadFate, head: int, n: NodeName)
    requires OpenOk(w, n) && n in w.uploads && Enabled(w, DoSend(m, fate, head))
    ensures StillOpen(w.relay, Sent(w, m, fate, head).relay, w.uploads[n].id)
  {
    var act := w.Agent(m).todo[0];
    var file := FileOf(w.Agent(m), act.user, act.path);
    if file.Some? && PartyTo(w.relay, act.id, m, Sending) && act.id != w.uploads[n].id {
      CommitLeaves(w.relay, act.id, w.relay.transfers[act.id], if fate.CutOff? then None else Some(Relayed(file.value)), head, w.uploads[n].id);
    }
  }

  lemma {:induction false} EndLeaves(w: World, m: NodeName, fate: UploadFate, head: int, n: NodeName)
    requires OpenOk(w, n) && n in w.uploads && OpenOk(w, m) && m != n && Enabled(w, EndSend(m, fate, head))
    ensures StillOpen(w.relay, Ended(w, m, fate, head).relay, w.uploads[n].id)
  {
    var up := w.uploads[m];
    if up.id != w.uploads[n].id {
      CommitLeaves(w.relay, up.id, up.t, if fate.CutOff? then None else Some(Relayed(up.body)), head, w.uploads[n].id);
    }
  }

  lemma {:induction false} ApplyLeaves(w: World, m: NodeName, i: TransferId)
    requires Enabled(w, ApplyOne(m))
    ensures StillOpen(w.relay, Applied(w, m).relay, i)
  {
  }

  lemma {:induction false} RequestLeaves(w: World, s: Step, i: TransferId)
    requires i <= w.relay.next && (s.StartIt? || s.FetchIt? || s.RemoveIt?)
    ensures StillOpen(w.relay, Next(w, s).relay, i)
  {
  }

  lemma {:induction false} OthersLeave(w: World, s: Step, i: TransferId)
    requires Enabled(w, s)
    requires !s.DoSend? && !s.EndSend? && !s.ApplyOne? && !s.UploadIt? && !s.StartIt? && !s.FetchIt? && !s.RemoveIt? && !s.ControllerRestart?
    ensures StillOpen(w.relay, Next(w, s).relay, i)
  {
  }

  /** A machine that is uploading does nothing else. */
  lemma {:induction false} UploaderWaits(w: World, s: Step, n: NodeName)
    requires OpenOk(w, n) && Enabled(w, s) && n in Next(w, s).uploads
    ensures if n in w.uploads then Next(w, s).uploads[n] == w.uploads[n] && Next(w, s).Agent(n).todo == w.Agent(n).todo
            else s == BeginSend(n)
    ensures !s.ControllerRestart? && (s.EndSend? ==> s.n != n)
  {
  }

  lemma {:induction false} OpenStep(w: World, s: Step, n: NodeName)
    requires RelayInv(w) && Enabled(w, s)
    ensures OpenOk(Next(w, s), n)
  {
    var w' := Next(w, s);
    assert OpenOk(w, n);
    if n in w'.uploads {
      UploaderWaits(w, s, n);
      if n in w.uploads {
        var id := w.uploads[n].id;
        match s
        case DoSend(m, fate, head) => SendLeaves(w, m, fate, head, n);
        case EndSend(m, fate, head) => assert OpenOk(w, m); EndLeaves(w, m, fate, head, n);
        case UploadIt(user, to, toPath, data, head) => UploadLeaves(w.relay, user, to, toPath, data, head, id);
        case ApplyOne(m) => ApplyLeaves(w, m, id);
        case StartIt(_, _, _, _, _, _, _) => RequestLeaves(w, s, id);
        case FetchIt(_, _, _) => RequestLeaves(w, s, id);
        case RemoveIt(_, _, _) => RequestLeaves(w, s, id);
        case _ => OthersLeave(w, s, id);
      } else {
        assert BlobMatches(w.relay, w'.uploads[n].id);
      }
    }
  }

  lemma {:induction false} RelayOverRuns(ws: seq<World>, ss: seq<Step>, i: nat)
    requires IsPath(ws, ss) && Initial(ws[0]) && i < |ws|
    ensures RelayInv(ws[i])
  {
    if i > 0 {
      var w, s, w' := ws[i - 1], ss[i - 1], ws[i];
      RelayOverRuns(ws, ss, i - 1);
      assert Leads(ws, ss, i - 1);
      forall id ensures BlobMatches(w'.relay, id) {
        assert BlobMatches(w.relay, id) && (s.EndSend? ==> OpenOk(w, s.n));
        TransferStep(w, s, w', id);
      }
      forall n ensures OpenOk(w', n) {
        OpenStep(w, s, n);
      }
    }
  }

  // ----- whole runs -----

  ghost predicate NoneReopened(ws: seq<World>, ss: seq<Step>, id: TransferId, i: nat, k: nat)
    requires |ws| == |ss| + 1 && k < |ws|
  {
    forall j :: i <= j < k ==> !Reopens(ws[j], ss[j], id)
  }

  lemma {:induction false} RunTransferStep(ws: seq<World>, ss: seq<Step>, id: TransferId, k: nat)
    requires IsPath(ws, ss) && Initial(ws[0]) && k < |ss|
    ensures if Reopens(ws[k], ss[k], id)
            then id in ws[k + 1].relay.transfers && ws[k + 1].relay.transfers[id].state == Staged && id !in ws[k + 1].relay.blobs
            else Onward(ws[k].relay, ws[k + 1].relay, id)
  {
    RelayOverRuns(ws, ss, k);
    assert BlobMatches(ws[k].relay, id) && (ss[k].EndSend? ==> OpenOk(ws[k], ss[k].n));
    assert Leads(ws, ss, k);
    TransferStep(ws[k], ss[k], ws[k + 1], id);
  }

  /** In every run, a blob waits at the controller only while its transfer is staged, and
      has the recorded size; and while no upload of the transfer ends after it was over,
      it waits exactly so long. */
  lemma {:induction false} BlobsOverRuns(ws: seq<World>, ss: seq<Step>, i: nat, id: TransferId)
    requires IsPath(ws, ss) && Initial(ws[0]) && i < |ws|
    ensures BlobMatches(ws[i].relay, id)
    ensures NoneReopened(ws, ss, id, 0, i) ==>
              (id in ws[i].relay.blobs <==> id in ws[i].relay.transfers && ws[i].relay.transfers[id].state == Staged)
  {
    RelayOverRuns(ws, ss, i);
    assert BlobMatches(ws[i].relay, id);
    if i > 0 {
      BlobsOverRuns(ws, ss, i - 1, id);
      RunTransferStep(ws, ss, id, i - 1);
    }
  }

  ghost predicate RankGrows(was: World, now: World, id: TransferId) {
    id in was.relay.transfers && id in now.relay.transfers ==> Rank(was.relay.transfers[id].state) <= Rank(now.relay.transfers[id].state)
  }

  ghost predicate AllGrow(ws: seq<World>, id: TransferId, i: nat, k: nat)
    requires k < |ws|
  {
    forall j, j' :: i <= j < k && j' == j + 1 ==> RankGrows(ws[j], ws[j'], id)
  }

  /** Over every stretch of every run, each step takes a transfer's record only forward along
      sending, staged, failed, done, if and only if no upload of it ends after it was over
      -- for as long as it is kept and its controller lives. */
  lemma {:induction false} RecordsForwardOverRuns(ws: seq<World>, ss: seq<Step>, id: TransferId, i: nat, k: nat)
    requires IsPath(ws, ss) && Initial(ws[0]) && i <= k < |ws|
    requires forall j :: i <= j <= k ==> id in ws[j].relay.transfers
    ensures AllGrow(ws, id, i, k) <==> NoneReopened(ws, ss, id, i, k)
    ensures NoneReopened(ws, ss, id, i, k) ==> RankGrows(ws[i], ws[k], id)
    decreases k
  {
    if i < k {
      RecordsForwardOverRuns(ws, ss, id, i, k - 1);
      RunTransferStep(ws, ss, id, k - 1);
      OneMoreStep(ws, ss, id, i, k);
    }
  }

  lemma {:induction false} OneMoreStep(ws: seq<World>, ss: seq<Step>, id: TransferId, i: nat, k: nat)
    requires |ws| == |ss| + 1 && i < k < |ws|
    ensures NoneReopened(ws, ss, id, i, k) <==> NoneReopened(ws, ss, id, i, k - 1) && !Reopens(ws[k - 1], ss[k - 1], id)
    ensures AllGrow(ws, id, i, k) <==> AllGrow(ws, id, i, k - 1) && RankGrows(ws[k - 1], ws[k], id)
  {
  }

  /** A transfer fails while its source uploads, because of a failure that some machine
      still had to report under its number; the upload ends, and it is staged, with
      nothing for the destination to fetch. */
  lemma {:induction false} FailedIsStaged(w: World, n: NodeName, m: NodeName, head: int)
    requires OpenOk(w, n) && n in w.uploads && m != n
    requires w.Wire(m) != [] && !w.Wire(m)[0].ok && w.Wire(m)[0].id == w.uploads[n].id && IsSending(w.relay, w.uploads[n].id)
    ensures var id, w1 := w.uploads[n].id, Next(w, ApplyOne(m));
            && id in w1.relay.transfers && w1.relay.transfers[id].state == Failed
            && Enabled(w1, EndSend(n, Answered, head)) && Reopens(w1, EndSend(n, Answered, head), id)
            && var w2 := Next(w1, EndSend(n, Answered, head));
               && id in w2.relay.transfers && w2.relay.transfers[id].state == Staged && id !in w2.relay.blobs
  {
    var id, w1 := w.uploads[n].id, Next(w, ApplyOne(m));
    CommitOnward(w1.relay.(blobs := w1.relay.blobs - {id}), id, w1.uploads[n].t, Some(Relayed(w1.uploads[n].body)), head, id);
  }
}
