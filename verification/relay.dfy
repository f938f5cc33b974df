/** The controller's half of the two-hop file relay: transfer records, the blobs
    waiting between the hops, the actions queued for machines, and the index of
    who has which file where. */
module Relay {
  import opened Paths

  type NodeName = string
  type Bytes = string
  type TransferId = nat

  /** No more of a file than this goes through the relay; what is beyond it is cut
      off without an error. */
  const MAX_RELAYED := 32 * 0x4000_0000

  function Relayed(body: Bytes): (r: Bytes)
    ensures r <= body && (r == body <==> |body| <= MAX_RELAYED)
  {
    if |body| > MAX_RELAYED then body[..MAX_RELAYED] else body
  }

  const COMPUTER: NodeName := "(your computer)"

  datatype TransferState = Sending | Staged | Failed | Done {
    predicate Over() { Failed? || Done? }
  }

  datatype Transfer = Transfer(
    user: string, fromNode: NodeName, fromPath: Path, toNode: NodeName, toPath: Path,
    move: bool, size: nat, state: TransferState)

  datatype FileAction =
    | Send(id: TransferId, user: string, path: Path)
    | Recv(id: TransferId, user: string, path: Path, limit: int)
    | Remove(id: TransferId, user: string, path: Path)

  datatype Kind = SendKind | RecvKind | RemoveKind

  datatype Outcome = Outcome(id: TransferId, kind: Kind, ok: bool, bytes: nat)

  /** What one account stores on one machine. */
  datatype Shelf = Shelf(node: NodeName, user: string)

  datatype State = State(
    next: TransferId,
    transfers: map<TransferId, Transfer>,
    blobs: map<TransferId, Bytes>,
    pending: map<NodeName, seq<FileAction>>,
    index: map<Shelf, map<Path, nat>>,      // path to size
    noteAt: map<Shelf, int>)                // the time of the controller's own latest news

  function QueueOf(pending: map<NodeName, seq<FileAction>>, n: NodeName): seq<FileAction> {
    if n in pending then pending[n] else []
  }

  function Enqueue(r: State, n: NodeName, a: FileAction): State {
    r.(pending := r.pending[n := QueueOf(r.pending, n) + [a]])
  }

  function Listing(r: State, shelf: Shelf): map<Path, nat> {
    if shelf in r.index then r.index[shelf] else map[]
  }

  function NoteFile(r: State, shelf: Shelf, path: Path, size: nat, now: int): State {
    r.(index := r.index[shelf := Listing(r, shelf)[path := size]], noteAt := r.noteAt[shelf := now])
  }

  function ForgetFile(r: State, shelf: Shelf, path: Path, now: int): State {
    r.(index := r.index[shelf := Listing(r, shelf) - {path}], noteAt := r.noteAt[shelf := now])
  }

  function Finish(r: State, id: TransferId): State {
    r.(transfers := if id in r.transfers then r.transfers[id := r.transfers[id].(state := Done)] else r.transfers,
       blobs := r.blobs - {id})
  }

  function Fail(r: State, id: TransferId): State {
    r.(transfers := if id in r.transfers && !r.transfers[id].state.Over()
                    then r.transfers[id := r.transfers[id].(state := Failed)] else r.transfers,
       blobs := r.blobs - {id})
  }

  function Register(r: State, t: Transfer): State {
    r.(next := r.next + 1, transfers := r.transfers[r.next + 1 := t])
  }

  /** A copy or a move between machines.  `room` is the answer of the storage-limit
      check, which a move within one machine does not need. */
  function Start(r: State, user: string, from: NodeName, fromPath: Path, to: NodeName, toPath: Path, move: bool, room: bool)
    : (State, Option<TransferId>)
  {
    var shelf := Shelf(from, user);
    if from == to && fromPath == toPath then (r, None)
    else if fromPath !in Listing(r, shelf) then (r, None)
    else if (!move || from != to) && !room then (r, None)
    else
      var t := Transfer(user, from, fromPath, to, toPath, move, Listing(r, shelf)[fromPath], Sending);
      (Enqueue(Register(r, t), from, Send(r.next + 1, user, fromPath)), Some(r.next + 1))
  }

  /** Who may upload or download for a transfer, and when. */
  predicate PartyTo(r: State, id: TransferId, n: NodeName, want: TransferState) {
    && id in r.transfers && r.transfers[id].state == want
    && n == if want == Staged then r.transfers[id].toNode else r.transfers[id].fromNode
  }

  predicate IsSending(r: State, id: TransferId) {
    id in r.transfers && r.transfers[id].state == Sending
  }

  /** The end of an upload that was let in for the transfer `t`: its bytes, or None when
      copying them breaks off.  Nobody looks at the record again; but if the transfer has
      failed or finished since, its blob was removed, and the bytes went nowhere. */
  function Commit(r: State, id: TransferId, t: Transfer, upload: Option<Bytes>, head: int): State {
    if upload.None? then Fail(r, id)
    else
      var staged := r.(transfers := if id in r.transfers
                                    then r.transfers[id := r.transfers[id].(state := Staged, size := |upload.value|)] else r.transfers,
                       blobs := if IsSending(r, id) then r.blobs[id := upload.value] else r.blobs);
      if t.toNode == COMPUTER then staged else Enqueue(staged, t.toNode, Recv(id, t.user, t.toPath, head))
  }

  /** The first hop in one go. */
  function Stage(r: State, id: TransferId, n: NodeName, upload: Option<Bytes>, head: int): (State, bool) {
    if !PartyTo(r, id, n, Sending) then (r, false)
    else (Commit(r, id, r.transfers[id], upload, head), upload.Some?)
  }

  /** The second hop: the staged bytes, for the destination. */
  function Open(r: State, id: TransferId, n: NodeName): Option<Bytes> {
    if PartyTo(r, id, n, Staged) && id in r.blobs then Some(r.blobs[id]) else None
  }

  function ApplyOutcome(r: State, o: Outcome, now: int): State {
    if o.id !in r.transfers then r
    else if !o.ok then Fail(r, o.id)
    else
      var t := r.transfers[o.id];
      match o.kind
      case SendKind => r
      case RecvKind =>
        var noted := NoteFile(r, Shelf(t.toNode, t.user), t.toPath, o.bytes, now);
        if t.move then Enqueue(noted, t.fromNode, Remove(o.id, t.user, t.fromPath)) else Finish(noted, o.id)
      case RemoveKind =>
        Finish(ForgetFile(r, Shelf(t.fromNode, t.user), t.fromPath, now), o.id)
  }

  function ApplyOutcomes(r: State, os: seq<Outcome>, now: int): State {
    if os == [] then r
    else ApplyOutcome(ApplyOutcomes(r, os[..|os| - 1], now), os[|os| - 1], now)
  }

  function Expire(r: State, id: TransferId): State {
    var failed := if id in r.transfers && !r.transfers[id].state.Over() then Fail(r, id) else r;
    failed.(transfers := failed.transfers - {id})
  }

  /** An upload from outside the cluster, bounded by what the account may still store,
      or else by what the relay takes. */
  function Upload(r: State, user: string, to: NodeName, toPath: Path, data: Option<Bytes>, head: int): State {
    var id := r.next + 1;
    var r' := Register(r, Transfer(user, COMPUTER, [], to, toPath, false, 0, Sending));
    if data.None? || (0 <= head < |data.value|) then Fail(r', id)
    else
      var blob := if head < 0 then Relayed(data.value) else data.value;
      Enqueue(r'.(transfers := r'.transfers[id := r'.transfers[id].(state := Staged, size := |blob|)],
                  blobs := r'.blobs[id := blob]),
              to, Recv(id, user, toPath, head))
  }

  function StartFetch(r: State, user: string, from: NodeName, fromPath: Path): State {
    if fromPath !in Listing(r, Shelf(from, user)) then r
    else
      var t := Transfer(user, from, fromPath, COMPUTER, [], false, Listing(r, Shelf(from, user))[fromPath], Sending);
      Enqueue(Register(r, t), from, Send(r.next + 1, user, fromPath))
  }

  function QueueRemove(r: State, user: string, n: NodeName, path: Path): State {
    Enqueue(Register(r, Transfer(user, n, path, "", [], false, 0, Sending)), n, Remove(r.next + 1, user, path))
  }

  // ----- storage reports -----

  datatype UserReport = UserReport(user: string, entries: map<Path, nat>)

  predicate NotedSince(noteAt: map<Shelf, int>, shelf: Shelf, measuredAt: int) {
    shelf in noteAt && noteAt[shelf] > measuredAt
  }

  ghost predicate Names(reps: seq<UserReport>, user: string) {
    exists i :: 0 <= i < |reps| && reps[i].user == user
  }

  function Users(reps: seq<UserReport>): (us: set<string>)
    ensures forall u :: u in us <==> Names(reps, u)
  {
    if reps == [] then {}
    else
      assert forall u :: Names(reps, u) <==> u == reps[0].user || Names(reps[1..], u) by {
        forall u ensures Names(reps, u) <==> u == reps[0].user || Names(reps[1..], u) {
          if Names(reps[1..], u) {
            var i :| 0 <= i < |reps[1..]| && reps[1..][i].user == u;
            assert reps[i + 1].user == u;
          }
          if i :| 0 < i < |reps| && reps[i].user == u {
            assert reps[1..][i - 1].user == u;
          }
        }
      }
      {reps[0].user} + Users(reps[1..])
  }

  function Pruned(index: map<Shelf, map<Path, nat>>, n: NodeName, keep: set<string>): map<Shelf, map<Path, nat>> {
    map shelf | shelf in index && (shelf.node != n || shelf.user in keep) :: index[shelf]
  }

  function ReplaceListings(index: map<Shelf, map<Path, nat>>, noteAt: map<Shelf, int>, n: NodeName, reps: seq<UserReport>, measuredAt: int)
    : map<Shelf, map<Path, nat>>
  {
    if reps == [] then index
    else
      var rest := ReplaceListings(index, noteAt, n, reps[..|reps| - 1], measuredAt);
      var rep := reps[|reps| - 1];
      if NotedSince(noteAt, Shelf(n, rep.user), measuredAt) then rest else rest[Shelf(n, rep.user) := rep.entries]
  }

  /** A machine's complete view, from a walk that began at `measuredAt`. */
  function ApplyReport(r: State, n: NodeName, reps: seq<UserReport>, measuredAt: int): State {
    r.(index := ReplaceListings(Pruned(r.index, n, Users(reps)), r.noteAt, n, reps, measuredAt))
  }

  /** The relay object of the controller. */
  class Controller {
    var next: TransferId
    var transfers: map<TransferId, Transfer>
    var blobs: map<TransferId, Bytes>
    var pending: map<NodeName, seq<FileAction>>
    var index: map<Shelf, map<Path, nat>>
    var noteAt: map<Shelf, int>

    ghost function Value(): State
      reads this
    {
      State(next, transfers, blobs, pending, index, noteAt)
    }

    constructor ()
      ensures Value() == State(0, map[], map[], map[], map[], map[])
    {
      next, transfers, blobs, pending, index, noteAt := 0, map[], map[], map[], map[], map[];
    }

    method EnqueueFor(n: NodeName, a: FileAction)
      modifies this`pending
      ensures Value() == Enqueue(old(Value()), n, a)
    {
      pending := pending[n := (if n in pending then pending[n] else []) + [a]];
    }

    method FinishTransfer(id: TransferId)
      modifies this`transfers, this`blobs
      ensures Value() == Finish(old(Value()), id)
    {
      if id in transfers {
        transfers := transfers[id := transfers[id].(state := Done)];
      }
      blobs := blobs - {id};
    }

    method FailTransfer(id: TransferId)
      modifies this`transfers, this`blobs
      ensures Value() == Fail(old(Value()), id)
    {
      if id in transfers && !transfers[id].state.Over() {
        transfers := transfers[id := transfers[id].(state := Failed)];
      }
      blobs := blobs - {id};
    }

    method StartTransfer(user: string, from: NodeName, fromPath: Path, to: NodeName, toPath: Path, move: bool, room: bool)
      returns (started: Option<TransferId>)
      modifies this
      ensures (Value(), started) == Start(old(Value()), user, from, fromPath, to, toPath, move, room)
    {
      if from == to && fromPath == toPath {
        return None;
      }
      var shelf := Shelf(from, user);
      if shelf !in index || fromPath !in index[shelf] {
        return None;
      }
      if (!move || from != to) && !room {
        return None;
      }
      next := next + 1;
      transfers := transfers[next := Transfer(user, from, fromPath, to, toPath, move, index[shelf][fromPath], Sending)];
      EnqueueFor(from, Send(next, user, fromPath));
      return Some(next);
    }

    method StageTransfer(id: TransferId, n: NodeName, upload: Option<Bytes>, head: int) returns (ok: bool)
      modifies this
      ensures (Value(), ok) == Stage(old(Value()), id, n, upload, head)
    {
      if id !in transfers || transfers[id].state != Sending || n != transfers[id].fromNode {
        return false;
      }
      if upload.None? {
        FailTransfer(id);
        return false;
      }
      blobs := blobs[id := upload.value];
      transfers := transfers[id := transfers[id].(state := Staged, size := |upload.value|)];
      if transfers[id].toNode == COMPUTER {
        return true;
      }
      EnqueueFor(transfers[id].toNode, Recv(id, transfers[id].user, transfers[id].toPath, head));
      return true;
    }

    method ApplyTransferResults(os: seq<Outcome>, now: int)
      modifies this
      ensures Value() == ApplyOutcomes(old(Value()), os, now)
    {
      ghost var r0 := Value();
      for i := 0 to |os|
        invariant Value() == ApplyOutcomes(r0, os[..i], now)
      {
        ApplyResult(os[i], now);
        assert os[..i + 1][..i] == os[..i];
      }
      assert os[..|os|] == os;
    }

    method ApplyResult(o: Outcome, now: int)
      modifies this
      ensures Value() == ApplyOutcome(old(Value()), o, now)
    {
      if o.id !in transfers {
        return;
      }
      var t := transfers[o.id];
      if !o.ok {
        FailTransfer(o.id);
        return;
      }
      match o.kind {
        case SendKind =>
        case RecvKind =>
          var shelf := Shelf(t.toNode, t.user);
          index := index[shelf := (if shelf in index then index[shelf] else map[])[t.toPath := o.bytes]];
          noteAt := noteAt[shelf := now];
          if t.move {
            EnqueueFor(t.fromNode, Remove(o.id, t.user, t.fromPath));
          } else {
            FinishTransfer(o.id);
          }
        case RemoveKind =>
          var shelf := Shelf(t.fromNode, t.user);
          index := index[shelf := (if shelf in index then index[shelf] else map[]) - {t.fromPath}];
          noteAt := noteAt[shelf := now];
          FinishTransfer(o.id);
      }
    }

    method ApplyStorageReport(n: NodeName, reps: seq<UserReport>, measuredAt: int)
      modifies this`index
      ensures Value() == ApplyReport(old(Value()), n, reps, measuredAt)
    {
      index := Pruned(index, n, Users(reps));
      ghost var kept := index;
      for i := 0 to |reps|
        invariant index == ReplaceListings(kept, noteAt, n, reps[..i], measuredAt)
      {
        var shelf := Shelf(n, reps[i].user);
        if !(shelf in noteAt && noteAt[shelf] > measuredAt) {
          index := index[shelf := reps[i].entries];
        }
        assert reps[..i + 1][..i] == reps[..i];
      }
      assert reps[..|reps|] == reps;
    }
  }
}
