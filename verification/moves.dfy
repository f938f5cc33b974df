/** A move never loses data -- and exactly when that is true. */
module Moves {
  import opened Paths
  import opened Relay
  import opened FileAgents
  import opened RelayWorld

  /** A place on a disk, whatever spelling led there. */
  datatype Loc = Loc(node: NodeName, path: Path)

  function At(n: NodeName, user: string, path: Path): Option<Loc> {
    var full := Resolve(user, path);
    if full.Some? then Some(Loc(n, full.value)) else None
  }

  ghost function Holds(w: World, loc: Option<Loc>): Option<Bytes> {
    if loc.Some? && loc.value.path in w.Agent(loc.value.node).files
    then Some(w.Agent(loc.value.node).files[loc.value.path]) else None
  }

  /** The move under study, and what its two files held when it was asked for. */
  datatype Track = Track(id: TransferId, t: Transfer, body: Bytes, there: Option<Bytes>) {
    function Src(): Option<Loc> { At(t.fromNode, t.user, t.fromPath) }

    function Dst(): Option<Loc> { At(t.toNode, t.user, t.toPath) }

    predicate Touches(loc: Option<Loc>) { loc.Some? && (loc == Src() || loc == Dst()) }
  }

  /** A download of the move that ends in its destination file. */
  predicate Lands(k: Track, act: FileAction) {
    act.Recv? && act.id == k.id && k.Dst().Some? && At(k.t.toNode, act.user, act.path) == k.Dst()
  }

  function Recvs(k: Track, acts: seq<FileAction>): (c: nat)
    ensures c > 0 <==> exists i :: 0 <= i < |acts| && Lands(k, acts[i])
  {
    if acts == [] then 0
    else
      assert forall i :: 0 < i < |acts| ==> acts[i] == acts[1..][i - 1];
      (if Lands(k, acts[0]) then 1 else 0) + Recvs(k, acts[1..])
  }

  predicate Stored(o: Outcome, id: TransferId) {
    o.id == id && o.ok && o.kind == RecvKind
  }

  /** Reports of the destination that it stored the bytes. */
  function Oks(os: seq<Outcome>, id: TransferId): (k: nat)
    ensures k > 0 <==> exists o :: o in os && Stored(o, id)
  {
    if os == [] then 0
    else
      assert os == [os[0]] + os[1..];
      (if Stored(os[0], id) then 1 else 0) + Oks(os[1..], id)
  }

  lemma {:induction false} RecvsAppend(k: Track, xs: seq<FileAction>, a: FileAction)
    ensures Recvs(k, xs + [a]) == Recvs(k, xs) + (if Lands(k, a) then 1 else 0)
  {
    if xs != [] {
      assert (xs + [a])[1..] == xs[1..] + [a];
      RecvsAppend(k, xs[1..], a);
    }
  }

  lemma {:induction false} OksAppend(xs: seq<Outcome>, o: Outcome, id: TransferId)
    ensures Oks(xs + [o], id) == Oks(xs, id) + (if Stored(o, id) then 1 else 0)
  {
    if xs != [] {
      assert (xs + [o])[1..] == xs[1..] + [o];
      OksAppend(xs[1..], o, id);
    }
  }

  // ----- the invariant -----

  /** What an upload bearing the move's number may read at its source's machine: the source,
      nothing, or what the destination held if that is no different. */
  predicate SendOk(k: Track, loc: Option<Loc>) {
    loc.None? || loc == k.Src() || (loc == k.Dst() && (k.there.None? || Relayed(k.there.value) == k.body))
  }

  /** What an action in a queue, or in an agent's hands, may be about.  Its number says
      little: actions with the move's number may be left over from an earlier life of the
      controller. */
  ghost predicate ActionOk(k: Track, removed: bool, n: NodeName, act: FileAction) {
    var loc := At(n, act.user, act.path);
    match act
    case Send(id, _, _) => id == k.id && n == k.t.fromNode ==> SendOk(k, loc)
    case Recv(id, _, _, _) => k.Touches(loc) ==> id == k.id && n == k.t.toNode && loc == k.Dst()
    case Remove(id, _, _) => k.Touches(loc) ==> id == k.id && loc == k.Src() && removed
  }

  ghost predicate QueueOk(k: Track, removed: bool, n: NodeName, acts: seq<FileAction>) {
    forall act :: act in acts ==> ActionOk(k, removed, n, act)
  }

  ghost predicate MachineOk(k: Track, w: World, n: NodeName) {
    && QueueOk(k, w.removals[k.id] > 0, n, w.Queue(n))
    && QueueOk(k, w.removals[k.id] > 0, n, w.Agent(n).todo)
    && (n != k.t.toNode ==> Oks(w.Agent(n).results, k.id) == Oks(w.Wire(n), k.id) == 0)
    && UploadOk(k, w, n)
  }

  /** An upload under way is its machine's next action; one of the move's carries the
      source's bytes, or the same. */
  ghost predicate UploadOk(k: Track, w: World, n: NodeName) {
    n in w.uploads ==>
      var up := w.uploads[n];
      && w.Agent(n).todo != [] && w.Agent(n).todo[0].Send? && w.Agent(n).todo[0].id == up.id
      && TransferOk(k, up.id, up.t)
      && (up.id == k.id ==> n == k.t.fromNode && Viable(k, w.Agent(n).todo[0]) && Relayed(up.body) == Relayed(k.body))
  }

  ghost predicate Uploading(k: Track, w: World) {
    k.t.fromNode in w.uploads && w.uploads[k.t.fromNode].id == k.id
  }

  /** A download bearing the move's number that the destination's machine would store
      somewhere else. */
  predicate Strays(k: Track, act: FileAction) {
    && act.Recv? && act.id == k.id && At(k.t.toNode, act.user, act.path).Some? && At(k.t.toNode, act.user, act.path) != k.Dst()
    && (act.limit < 0 || |Relayed(k.body)| <= act.limit)
  }

  /** An upload bearing the move's number that may find something to send. */
  predicate Viable(k: Track, act: FileAction) {
    && act.Send? && act.id == k.id
    && var loc := At(k.t.fromNode, act.user, act.path);
       loc.Some? && (loc == k.Dst() ==> loc == k.Src() || k.there.Some?)
  }

  /** A stray download does no harm where it comes before anything is staged for it: in
      the hands of the one machine that is source and destination, ahead of any upload. */
  ghost predicate StraysOk(k: Track, w: World) {
    && (forall act :: act in w.Queue(k.t.toNode) ==> !Strays(k, act))
    && (forall i :: 0 <= i < |w.Agent(k.t.toNode).todo| && Strays(k, w.Agent(k.t.toNode).todo[i]) ==>
          && k.t.fromNode == k.t.toNode && k.id !in w.relay.blobs
          && forall j :: 0 <= j < i ==> !Viable(k, w.Agent(k.t.toNode).todo[j]))
  }

  predicate TransferOk(k: Track, id: TransferId, t: Transfer) {
    if id == k.id then t == k.t.(state := t.state, size := t.size)
    else !k.Touches(At(t.toNode, t.user, t.toPath)) && (t.move ==> !k.Touches(At(t.fromNode, t.user, t.fromPath)))
  }

  ghost predicate RecordOk(k: Track, r: State, id: TransferId) {
    id in r.transfers ==> TransferOk(k, id, r.transfers[id])
  }

  /** How many ways are left, or were taken, for the source's removal to be queued. */
  ghost function Tokens(k: Track, w: World): nat {
    var to := k.t.toNode;
    Recvs(k, w.Queue(to)) + Recvs(k, w.Agent(to).todo)
    + Oks(w.Agent(to).results, k.id) + Oks(w.Wire(to), k.id) + w.removals[k.id]
  }

  ghost predicate BooksOk(k: Track, w: World) {
    var to := k.t.toNode;
    && k.id <= w.relay.next
    && Tokens(k, w) <= 1
    && (k.id in w.relay.transfers && w.relay.transfers[k.id].state == Sending ==> Tokens(k, w) == 0 && Holds(w, k.Dst()) == k.there)
    && (Uploading(k, w) ==> Tokens(k, w) == 0)
    && (k.id in w.relay.blobs ==> w.relay.blobs[k.id] == Relayed(k.body))
    && (Oks(w.Agent(to).results, k.id) + Oks(w.Wire(to), k.id) + w.removals[k.id] > 0 ==> Holds(w, k.Dst()) == Some(k.body) && k.id in w.arrived)
    && (w.removals[k.id] == 0 ==> Holds(w, k.Src()) == Some(k.body))
  }

  /** The two files are different, and the relay takes all of the source -- unless the
      destination is no place to store anything, and the move bound to fail. */
  predicate Harmless(k: Track) {
    k.Src() != k.Dst() && (k.Dst().Some? ==> |k.body| <= MAX_RELAYED)
  }

  ghost predicate MoveInv(k: Track, w: World) {
    && k.t.move && k.Src().Some? && Harmless(k)
    && (forall n :: MachineOk(k, w, n))
    && (forall id :: RecordOk(k, w.relay, id))
    && BooksOk(k, w) && StraysOk(k, w)
  }

  /** Nobody else writes or removes the two files, and the controller lives. */
  ghost predicate Alone(k: Track, s: Step) {
    match s
    case StartIt(user, from, fromPath, to, toPath, move, _) =>
      !k.Touches(At(to, user, toPath)) && (move ==> !k.Touches(At(from, user, fromPath)))
    case UploadIt(user, to, toPath, _, _) => !k.Touches(At(to, user, toPath))
    case RemoveIt(user, n, path) => !k.Touches(At(n, user, path))
    case WriteFile(n, path, _) => !k.Touches(Some(Loc(n, path)))
    case ControllerRestart => false
    case _ => true
  }

  // ----- preservation -----

  lemma {:induction false} NowhereIsNothing(k: Track, n: NodeName, user: string)
    ensures !k.Touches(At(n, user, []))
  {
    if ValidUser(user) {
      assert UserDir(user) + [] == UserDir(user);
      assert |Clean(UserDir(user))| <= 2 by { CleanShrinks(UserDir(user)); }
    }
  }

  lemma {:induction false} CleanShrinks(p: Path)
    ensures |Clean(p)| <= |p|
  {
    if p != [] { CleanShrinks(p[..|p| - 1]); }
  }

  /** A machine of which only the queue changed, and is now empty. */
  lemma {:induction false} SameMachine(k: Track, w: World, w': World, m: NodeName)
    requires MachineOk(k, w, m)
    requires w'.agents == w.agents && w'.wires == w.wires && w'.uploads == w.uploads && w'.removals == w.removals
    requires w'.Queue(m) == w.Queue(m) || w'.Queue(m) == []
    ensures MachineOk(k, w', m)
  {
    assert w'.Agent(m) == w.Agent(m) && w'.Wire(m) == w.Wire(m);
  }

  /** A queue that gets one more action, of some other business. */
  lemma {:induction false} OtherBusiness(k: Track, w: World, w': World, n: NodeName, a: FileAction, m: NodeName)
    requires MachineOk(k, w, m) && w'.agents == w.agents && w'.wires == w.wires && w'.uploads == w.uploads && w'.removals == w.removals
    requires w'.relay.pending == w.relay.pending[n := w.Queue(n) + [a]]
    requires a.id != k.id && (a.Send? || !k.Touches(At(n, a.user, a.path)))
    ensures MachineOk(k, w', m) && Recvs(k, w'.Queue(m)) == Recvs(k, w.Queue(m))
    ensures forall act :: act in w'.Queue(m) && Strays(k, act) ==> act in w.Queue(m)
  {
    RecvsAppend(k, w.Queue(n), a);
    assert w'.Queue(m) == if m == n then w.Queue(n) + [a] else w.Queue(m);
  }

  /** A new request: one more record, and one more action on one queue. */
  lemma {:induction false} RequestKeeps(k: Track, w: World, w': World, t: Transfer, n: NodeName, a: FileAction)
    requires MoveInv(k, w)
    requires w' == w.(relay := w'.relay)
    requires w'.relay.transfers == w.relay.transfers[w.relay.next + 1 := t] && w'.relay.next == w.relay.next + 1
    requires w'.relay.pending == w.relay.pending[n := w.Queue(n) + [a]]
    requires forall id :: id in w'.relay.blobs && id <= w.relay.next ==> id in w.relay.blobs && w'.relay.blobs[id] == w.relay.blobs[id]
    requires a.id == w.relay.next + 1
    requires a.Send? || !k.Touches(At(n, a.user, a.path))
    requires !k.Touches(At(t.toNode, t.user, t.toPath)) && (t.move ==> !k.Touches(At(t.fromNode, t.user, t.fromPath)))
    ensures MoveInv(k, w')
  {
    forall m ensures MachineOk(k, w', m) {
      assert MachineOk(k, w, m);
      OtherBusiness(k, w, w', n, a, m);
    }
    forall id ensures RecordOk(k, w'.relay, id) {
      assert RecordOk(k, w.relay, id);
    }
    assert MachineOk(k, w, k.t.toNode);
    OtherBusiness(k, w, w', n, a, k.t.toNode);
    RequestBooks(k, w, w', t);
  }

  lemma {:induction false} RequestBooks(k: Track, w: World, w': World, t: Transfer)
    requires BooksOk(k, w) && StraysOk(k, w) && w' == w.(relay := w'.relay)
    requires w'.relay.transfers == w.relay.transfers[w.relay.next + 1 := t] && w'.relay.next == w.relay.next + 1
    requires k.id in w'.relay.blobs ==> k.id in w.relay.blobs && w'.relay.blobs[k.id] == w.relay.blobs[k.id]
    requires Recvs(k, w'.Queue(k.t.toNode)) == Recvs(k, w.Queue(k.t.toNode))
    requires forall act :: act in w'.Queue(k.t.toNode) && Strays(k, act) ==> act in w.Queue(k.t.toNode)
    ensures BooksOk(k, w') && StraysOk(k, w')
  {
    assert w'.Agent(k.t.toNode) == w.Agent(k.t.toNode);
  }

  lemma {:induction false} RequestStep(k: Track, w: World, s: Step)
    requires MoveInv(k, w) && Enabled(w, s) && Alone(k, s)
    requires s.StartIt? || s.FetchIt? || s.RemoveIt?
    ensures MoveInv(k, Next(w, s))
  {
    var w' := Next(w, s);
    if w'.relay != w.relay {
      var id := w.relay.next + 1;
      match s
      case StartIt(user, from, fromPath, to, toPath, move, _) =>
        RequestKeeps(k, w, w', w'.relay.transfers[id], from, Send(id, user, fromPath));
      case FetchIt(user, from, fromPath) =>
        NowhereIsNothing(k, COMPUTER, user);
        RequestKeeps(k, w, w', w'.relay.transfers[id], from, Send(id, user, fromPath));
      case RemoveIt(user, n, path) =>
        NowhereIsNothing(k, "", user);
        RequestKeeps(k, w, w', w'.relay.transfers[id], n, Remove(id, user, path));
    }
  }

  predicate SameButLater(t: Transfer, t': Transfer) {
    t' == t.(state := t'.state) && (t'.state == Sending ==> t.state == Sending)
  }

  /** The controller updates, finishes, fails or forgets records, and adds nothing. */
  ghost predicate Settling(w: World, w': World) {
    && w' == w.(relay := w'.relay) && w'.relay.next == w.relay.next
    && (forall n :: w'.Queue(n) == w.Queue(n) || w'.Queue(n) == [])
    && (forall id :: id in w'.relay.transfers ==> id in w.relay.transfers && SameButLater(w.relay.transfers[id], w'.relay.transfers[id]))
    && (forall id :: id in w'.relay.blobs ==> id in w.relay.blobs && w'.relay.blobs[id] == w.relay.blobs[id])
  }

  lemma {:induction false} SettlingKeeps(k: Track, w: World, w': World)
    requires MoveInv(k, w) && Settling(w, w')
    ensures MoveInv(k, w')
  {
    forall m ensures MachineOk(k, w', m) {
      SameMachine(k, w, w', m);
    }
    forall id ensures RecordOk(k, w'.relay, id) {
      assert RecordOk(k, w.relay, id);
    }
    assert w'.Queue(k.t.toNode) == w.Queue(k.t.toNode) || w'.Queue(k.t.toNode) == [];
    SameBooks(k, w, w');
  }

  /** Records that went on, and a destination's queue that was dropped at most. */
  lemma {:induction false} SameBooks(k: Track, w: World, w': World)
    requires BooksOk(k, w) && StraysOk(k, w) && w' == w.(relay := w'.relay) && w.relay.next <= w'.relay.next
    requires w'.Queue(k.t.toNode) == w.Queue(k.t.toNode) || w'.Queue(k.t.toNode) == []
    requires k.id in w'.relay.transfers ==> k.id in w.relay.transfers && (w'.relay.transfers[k.id].state == Sending ==> w.relay.transfers[k.id].state == Sending)
    requires k.id in w'.relay.blobs ==> k.id in w.relay.blobs && w'.relay.blobs[k.id] == w.relay.blobs[k.id]
    ensures BooksOk(k, w') && StraysOk(k, w')
  {
    assert w'.Agent(k.t.toNode) == w.Agent(k.t.toNode);
  }

  /** An upload that is refused leaves one failed record and nothing else. */
  lemma {:induction false} RefusedUploadKeeps(k: Track, w: World, w': World, t: Transfer)
    requires MoveInv(k, w)
    requires w' == w.(relay := w'.relay)
    requires w'.relay.transfers == w.relay.transfers[w.relay.next + 1 := t] && w'.relay.next == w.relay.next + 1
    requires w'.relay.pending == w.relay.pending && w'.relay.blobs == w.relay.blobs - {w.relay.next + 1}
    requires !k.Touches(At(t.toNode, t.user, t.toPath)) && !t.move
    ensures MoveInv(k, w')
  {
    forall m ensures MachineOk(k, w', m) { SameMachine(k, w, w', m); }
    forall id ensures RecordOk(k, w'.relay, id) { assert RecordOk(k, w.relay, id); }
    SameBooks(k, w, w');
  }

  lemma {:induction false} UploadRecord(r: State, s: Step)
    requires s.UploadIt?
    ensures var r', id := Upload(r, s.user, s.to, s.toPath, s.data, s.head), r.next + 1;
            && id in r'.transfers && r'.transfers == r.transfers[id := r'.transfers[id]] && r'.next == id
            && !r'.transfers[id].move && r'.transfers[id].user == s.user && r'.transfers[id].toNode == s.to && r'.transfers[id].toPath == s.toPath
  {
  }

  lemma {:induction false} UploadStep(k: Track, w: World, s: Step)
    requires MoveInv(k, w) && Enabled(w, s) && Alone(k, s) && s.UploadIt?
    ensures MoveInv(k, Next(w, s))
  {
    var w', id := Next(w, s), w.relay.next + 1;
    var t := w'.relay.transfers[id];
    UploadRecord(w.relay, s);
    if s.data.None? || (0 <= s.head < |s.data.value|) {
      RefusedUploadKeeps(k, w, w', t);
    } else {
      RequestKeeps(k, w, w', t, s.to, Recv(id, s.user, s.toPath, s.head));
    }
  }

  lemma {:induction false} StraysSame(k: Track, w: World, w': World)
    requires StraysOk(k, w) && w'.Queue(k.t.toNode) == w.Queue(k.t.toNode) && w'.Agent(k.t.toNode).todo == w.Agent(k.t.toNode).todo
    requires k.id in w'.relay.blobs ==> k.id in w.relay.blobs
    ensures StraysOk(k, w')
  {
  }

  /** One machine's own step: its files, its results, its list of things to do. */
  lemma {:induction false} MachineKeeps(k: Track, w: World, w': World, n: NodeName)
    requires MoveInv(k, w)
    requires w'.relay == w.relay && w'.removals == w.removals && w'.wires == w.wires && w'.uploads == w.uploads
    requires forall m :: m != n ==> w'.Agent(m) == w.Agent(m)
    requires MachineOk(k, w', n) && BooksOk(k, w') && StraysOk(k, w')
    ensures MoveInv(k, w')
  {
    forall m ensures MachineOk(k, w', m) {
      assert MachineOk(k, w, m);
    }
  }

  /** A machine's upload, or all else it has in hand, is gone. */
  lemma {:induction false} CutShort(k: Track, w: World, n: NodeName)
    requires MoveInv(k, w)
    ensures MoveInv(k, w.(uploads := w.uploads - {n}))
  {
    var w' := w.(uploads := w.uploads - {n});
    forall m ensures MachineOk(k, w', m) { assert MachineOk(k, w, m); }
    forall id ensures RecordOk(k, w'.relay, id) { assert RecordOk(k, w.relay, id); }
  }

  lemma {:induction false} FailSettles(w: World, id: TransferId)
    ensures Settling(w, w.(relay := Fail(w.relay, id)))
  {
  }

  /** A machine forgets what it has in hand and to report. */
  lemma {:induction false} EmptyHanded(k: Track, w: World, n: NodeName)
    requires MoveInv(k, w) && n !in w.uploads
    ensures MoveInv(k, WithAgent(w, n, w.Agent(n).(results := [], todo := [])))
  {
    assert MachineOk(k, w, n);
    MachineKeeps(k, w, WithAgent(w, n, w.Agent(n).(results := [], todo := [])), n);
  }

  lemma {:induction false} CrashStep(k: Track, w: World, n: NodeName)
    requires MoveInv(k, w)
    ensures MoveInv(k, Next(w, Crash(n)))
  {
    var w1 := w.(uploads := w.uploads - {n});
    CutShort(k, w, n);
    if n in w.uploads {
      FailSettles(w1, w.uploads[n].id);
      SettlingKeeps(k, w1, w1.(relay := Fail(w.relay, w.uploads[n].id)));
      EmptyHanded(k, w1.(relay := Fail(w.relay, w.uploads[n].id)), n);
    } else {
      EmptyHanded(k, w1, n);
    }
  }

  /** An exchange leaves every list a machine has as it was, empties it, or passes it on. */
  ghost predicate Exchanged(w: World, w': World) {
    && w'.removals == w.removals && w'.arrived == w.arrived && w'.uploads == w.uploads
    && w'.relay == w.relay.(pending := w'.relay.pending)
    && (forall m :: w'.Agent(m).files == w.Agent(m).files)
    && (forall m :: Passed(w.Queue(m), w.Agent(m).todo, w'.Queue(m), w'.Agent(m).todo))
    && (forall m :: Passed(w.Agent(m).results, w.Wire(m), w'.Agent(m).results, w'.Wire(m)))
  }

  /** Two lists in a row: as they were, or the first is gone, lost or moved into the second. */
  ghost predicate Passed<T>(a: seq<T>, b: seq<T>, a': seq<T>, b': seq<T>) {
    (a' == a && b' == b) || (b == [] && a' == [] && (b' == a || b' == []))
  }

  lemma {:induction false} ExchangeKeeps(k: Track, w: World, w': World)
    requires MoveInv(k, w) && Exchanged(w, w')
    ensures MoveInv(k, w')
  {
    forall m ensures MachineOk(k, w', m) {
      assert MachineOk(k, w, m) && Passed(w.Queue(m), w.Agent(m).todo, w'.Queue(m), w'.Agent(m).todo);
      assert Passed(w.Agent(m).results, w.Wire(m), w'.Agent(m).results, w'.Wire(m));
    }
    forall id ensures RecordOk(k, w'.relay, id) {
      assert RecordOk(k, w.relay, id);
    }
    ExchangeBooks(k, w, w');
  }

  lemma {:induction false} ExchangeBooks(k: Track, w: World, w': World)
    requires BooksOk(k, w) && StraysOk(k, w) && Exchanged(w, w')
    ensures BooksOk(k, w') && StraysOk(k, w')
  {
    var d := k.t.toNode;
    assert Passed(w.Queue(d), w.Agent(d).todo, w'.Queue(d), w'.Agent(d).todo);
    assert Passed(w.Agent(d).results, w.Wire(d), w'.Agent(d).results, w'.Wire(d));
    assert Holds(w', k.Src()) == Holds(w, k.Src()) && Holds(w', k.Dst()) == Holds(w, k.Dst());
  }

  lemma {:induction false} HandOverStep(k: Track, w: World, n: NodeName, arrives: bool)
    requires MoveInv(k, w) && Enabled(w, HandOver(n, arrives))
    ensures MoveInv(k, Next(w, HandOver(n, arrives)))
  {
    IsExchange(w, HandOver(n, arrives));
    ExchangeKeeps(k, w, Next(w, HandOver(n, arrives)));
  }

  lemma {:induction false} TakeActionsStep(k: Track, w: World, n: NodeName, arrives: bool)
    requires MoveInv(k, w) && Enabled(w, TakeActions(n, arrives))
    ensures MoveInv(k, Next(w, TakeActions(n, arrives)))
  {
    IsExchange(w, TakeActions(n, arrives));
    ExchangeKeeps(k, w, Next(w, TakeActions(n, arrives)));
  }

  lemma {:induction false} IsExchange(w: World, s: Step)
    requires Enabled(w, s) && (s.HandOver? || s.TakeActions?)
    ensures Exchanged(w, Next(w, s))
  {
  }

  lemma {:induction false} TakenKeeps(k: Track, w: World, n: NodeName)
    requires MoveInv(k, w) && w.Wire(n) != []
    ensures MoveInv(k, w.(wires := w.wires[n := w.Wire(n)[1..]]))
  {
    var w' := w.(wires := w.wires[n := w.Wire(n)[1..]]);
    forall m ensures MachineOk(k, w', m) {
      assert MachineOk(k, w, m);
    }
    assert Tokens(k, w') <= Tokens(k, w);
  }

  predicate QueuesRemoval(r: State, o: Outcome) {
    o.id in r.transfers && Stored(o, o.id) && r.transfers[o.id].move
  }

  lemma {:induction false} OutcomeSettles(w: World, n: NodeName)
    requires w.Wire(n) != [] && !QueuesRemoval(w.relay, w.Wire(n)[0])
    ensures Settling(w.(wires := w.wires[n := w.Wire(n)[1..]]), Applied(w, n))
  {
  }

  /** What applying a stored move changes: the outcome is gone, and the removal is queued. */
  ghost predicate Removing(w: World, w': World, n: NodeName, o: Outcome, t: Transfer) {
    && w.Wire(n) != [] && o == w.Wire(n)[0] && QueuesRemoval(w.relay, o) && t == w.relay.transfers[o.id]
    && w'.agents == w.agents && w'.uploads == w.uploads && w'.wires == w.wires[n := w.Wire(n)[1..]] && w'.removals == w.removals + multiset{o.id} && w'.arrived == w.arrived
    && w'.relay.transfers == w.relay.transfers && w'.relay.next == w.relay.next && w'.relay.blobs == w.relay.blobs
    && w'.relay.pending == w.relay.pending[t.fromNode := w.Queue(t.fromNode) + [Remove(o.id, t.user, t.fromPath)]]
  }

  lemma {:induction false} RemovalOnMachine(k: Track, w: World, w': World, n: NodeName, o: Outcome, t: Transfer, m: NodeName)
    requires MachineOk(k, w, m) && Removing(w, w', n, o, t) && RecordOk(k, w.relay, o.id)
    ensures MachineOk(k, w', m) && Recvs(k, w'.Queue(m)) == Recvs(k, w.Queue(m))
    ensures Oks(w'.Wire(m), k.id) == Oks(w.Wire(m), k.id) - if m == n && o.id == k.id then 1 else 0
    ensures forall act :: act in w'.Queue(m) && Strays(k, act) ==> act in w.Queue(m)
  {
    var a := Remove(o.id, t.user, t.fromPath);
    RecvsAppend(k, w.Queue(t.fromNode), a);
    assert w'.Queue(m) == if m == t.fromNode then w.Queue(m) + [a] else w.Queue(m);
  }

  /** A stored move queues the removal of its source. */
  lemma {:induction false} RemovalKeeps(k: Track, w: World, w': World, n: NodeName, o: Outcome, t: Transfer)
    requires MoveInv(k, w) && Removing(w, w', n, o, t)
    ensures MoveInv(k, w')
  {
    assert RecordOk(k, w.relay, o.id);
    forall m ensures MachineOk(k, w', m) {
      assert MachineOk(k, w, m);
      RemovalOnMachine(k, w, w', n, o, t, m);
    }
    forall id ensures RecordOk(k, w'.relay, id) {
      assert RecordOk(k, w.relay, id);
    }
    assert MachineOk(k, w, n) && MachineOk(k, w, k.t.toNode);
    RemovalOnMachine(k, w, w', n, o, t, k.t.toNode);
    assert o.id == k.id ==> n == k.t.toNode;
  }

  lemma {:induction false} ApplyStep(k: Track, w: World, n: NodeName)
    requires MoveInv(k, w) && Enabled(w, ApplyOne(n))
    ensures MoveInv(k, Next(w, ApplyOne(n)))
  {
    var o, w' := w.Wire(n)[0], Applied(w, n);
    if QueuesRemoval(w.relay, o) {
      RemovalKeeps(k, w, w', n, o, w.relay.transfers[o.id]);
    } else {
      TakenKeeps(k, w, n);
      OutcomeSettles(w, n);
      SettlingKeeps(k, w.(wires := w.wires[n := w.Wire(n)[1..]]), w');
    }
  }

  // ----- the machines' own steps -----

  /** What taking the next action off an agent's list, and reporting on it, does to the counts. */
  lemma {:induction false} ReportCounts(k: Track, a: AgentState, b: AgentState, o: Outcome)
    requires a.todo != [] && b.todo == a.todo[1..] && b.results == a.results + [o]
    ensures Recvs(k, b.todo) == Recvs(k, a.todo) - (if Lands(k, a.todo[0]) then 1 else 0)
    ensures Oks(b.results, k.id) == Oks(a.results, k.id) + (if Stored(o, k.id) then 1 else 0)
    ensures forall act :: act in b.todo ==> act in a.todo
  {
    OksAppend(a.results, o, k.id);
  }

  /** Strays only come closer to the front. */
  lemma {:induction false} StraysAdvance(k: Track, w: World, w': World, n: NodeName)
    requires StraysOk(k, w) && w.Agent(n).todo != [] && w'.Agent(n).todo == w.Agent(n).todo[1..] && w'.relay == w.relay
    requires forall m :: m != n ==> w'.Agent(m) == w.Agent(m)
    ensures StraysOk(k, w')
  {
  }

  /** An action done by a machine that stored nothing new of this move. */
  lemma {:induction false} ReportKeeps(k: Track, w: World, w': World, n: NodeName, o: Outcome)
    requires MoveInv(k, w) && w.Agent(n).todo != [] && n !in w.uploads && !Stored(o, k.id)
    requires w' == w.(agents := w.agents[n := w'.Agent(n)], arrived := w'.arrived) && w.arrived <= w'.arrived
    requires w'.Agent(n).todo == w.Agent(n).todo[1..] && w'.Agent(n).results == w.Agent(n).results + [o]
    requires Holds(w', k.Dst()) == Holds(w, k.Dst())
    requires Holds(w', k.Src()) == Holds(w, k.Src()) || w.removals[k.id] > 0
    ensures MoveInv(k, w')
  {
    assert MachineOk(k, w, n);
    ReportOnMachine(k, w, w', n, o);
    StraysAdvance(k, w, w', n);
    assert forall m :: m != n ==> w'.Agent(m) == w.Agent(m);
    assert Tokens(k, w') <= Tokens(k, w);
    MachineKeeps(k, w, w', n);
  }

  /** A machine with one action fewer in hand, and one report more that stores nothing. */
  lemma {:induction false} ReportOnMachine(k: Track, w: World, w': World, n: NodeName, o: Outcome)
    requires MachineOk(k, w, n) && w.Agent(n).todo != [] && n !in w.uploads && !Stored(o, k.id)
    requires w'.relay == w.relay && w'.wires == w.wires && w'.uploads == w.uploads && w'.removals == w.removals
    requires w'.Agent(n).todo == w.Agent(n).todo[1..] && w'.Agent(n).results == w.Agent(n).results + [o]
    ensures MachineOk(k, w', n)
    ensures Recvs(k, w'.Agent(n).todo) <= Recvs(k, w.Agent(n).todo) && Oks(w'.Agent(n).results, k.id) == Oks(w.Agent(n).results, k.id)
  {
    ReportCounts(k, w.Agent(n), w'.Agent(n), o);
  }

  lemma {:induction false} RemoveStep(k: Track, w: World, n: NodeName, works: bool)
    requires MoveInv(k, w) && Enabled(w, DoRemove(n, works))
    ensures MoveInv(k, Next(w, DoRemove(n, works)))
  {
    var act, w' := w.Agent(n).todo[0], RemovedFile(w, n, works);
    assert MachineOk(k, w, n);
    var o := RemovedShape(w, n, works, act);
    NotRemoved(k, w, w', n, act);
    ReportKeeps(k, w, w', n, o);
  }

  lemma {:induction false} NotRemoved(k: Track, w: World, w': World, n: NodeName, act: FileAction)
    requires MachineOk(k, w, n) && act in w.Agent(n).todo && act.Remove? && w'.agents == w.agents[n := w'.Agent(n)] && Harmless(k)
    requires || w'.Agent(n).files == w.Agent(n).files
             || (At(n, act.user, act.path).Some? && w'.Agent(n).files == w.Agent(n).files - {At(n, act.user, act.path).value.path})
    ensures Holds(w', k.Dst()) == Holds(w, k.Dst()) && (Holds(w', k.Src()) == Holds(w, k.Src()) || w.removals[k.id] > 0)
  {
  }

  /** A removal is one report, and one file less if it worked. */
  lemma {:induction false} RemovedShape(w: World, n: NodeName, works: bool, act: FileAction) returns (o: Outcome)
    requires Enabled(w, DoRemove(n, works)) && act == w.Agent(n).todo[0]
    ensures var w', a := RemovedFile(w, n, works), w.Agent(n);
            var b := w'.Agent(n);
            && w' == w.(agents := w.agents[n := b]) && b.todo == a.todo[1..] && b.results == a.results + [o] && o.kind == RemoveKind
            && (b.files == a.files || (At(n, act.user, act.path).Some? && b.files == a.files - {At(n, act.user, act.path).value.path}))
  {
    o := RemovedFile(w, n, works).Agent(n).results[|w.Agent(n).results|];
  }

  /** The destination stores the bytes: the chance to queue the removal moves on. */
  lemma {:induction false} StoredKeeps(k: Track, w: World, w': World, n: NodeName, o: Outcome)
    requires MoveInv(k, w) && w.Agent(n).todo != [] && Lands(k, w.Agent(n).todo[0])
    requires n == k.t.toNode && Stored(o, k.id)
    requires w' == w.(agents := w.agents[n := w'.Agent(n)], arrived := w'.arrived) && k.id in w'.arrived
    requires w'.Agent(n).todo == w.Agent(n).todo[1..] && w'.Agent(n).results == w.Agent(n).results + [o]
    requires Holds(w', k.Dst()) == Some(k.body) && Holds(w', k.Src()) == Holds(w, k.Src())
    ensures MoveInv(k, w')
  {
    assert MachineOk(k, w, n);
    ReportCounts(k, w.Agent(n), w'.Agent(n), o);
    StraysAdvance(k, w, w', n);
    assert forall m :: m != n ==> w'.Agent(m) == w.Agent(m);
    assert Tokens(k, w') <= Tokens(k, w);
    MachineKeeps(k, w, w', n);
  }

  /** A download of the move that works fetches the source's bytes, and is no stray. */
  lemma {:induction false} StoredInPlace(k: Track, w: World, n: NodeName, fate: DownloadFate)
    requires MoveInv(k, w) && Enabled(w, DoRecv(n, fate)) && w.Agent(n).todo[0].id == k.id
    requires var b := Received(w, n, fate).Agent(n); b.results[|w.Agent(n).results|].ok
    ensures n == k.t.toNode && Lands(k, w.Agent(n).todo[0]) && k.id in Received(w, n, fate).arrived
    ensures Open(w.relay, k.id, n) == Some(Relayed(k.body))
  {
    var act := w.Agent(n).todo[0];
    assert RecordOk(k, w.relay, k.id);
    assert PartyTo(w.relay, k.id, n, Staged);
    assert !Strays(k, w.Agent(n).todo[0]);
  }

  /** A download is one report, and a file if it worked. */
  lemma {:induction false} ReceivedShape(w: World, n: NodeName, fate: DownloadFate, act: FileAction)
    requires Enabled(w, DoRecv(n, fate)) && act == w.Agent(n).todo[0]
    ensures var w', a := Received(w, n, fate), w.Agent(n);
            var b := w'.Agent(n);
            && w' == w.(agents := w.agents[n := b], arrived := w'.arrived) && w.arrived <= w'.arrived
            && b.todo == a.todo[1..] && |b.results| == |a.results| + 1 && b.results == a.results + [b.results[|a.results|]]
            && var o := b.results[|a.results|];
               && o.id == act.id && o.kind == RecvKind
               && if o.ok then Open(w.relay, act.id, n).Some? && At(n, act.user, act.path).Some?
                               && b.files == a.files[At(n, act.user, act.path).value.path := Open(w.relay, act.id, n).value]
                  else b.files == a.files
  {
  }

  lemma {:induction false} RecvStep(k: Track, w: World, n: NodeName, fate: DownloadFate)
    requires MoveInv(k, w) && Enabled(w, DoRecv(n, fate))
    ensures MoveInv(k, Next(w, DoRecv(n, fate)))
  {
    var act, w' := w.Agent(n).todo[0], Received(w, n, fate);
    assert MachineOk(k, w, n);
    ReceivedShape(w, n, fate, act);
    var o := w'.Agent(n).results[|w.Agent(n).results|];
    if Stored(o, k.id) {
      StoredInPlace(k, w, n, fate);
      StoredKeeps(k, w, w', n, o);
    } else {
      NotTouched(k, w, w', n, act, o, if o.ok then Open(w.relay, act.id, n).value else "");
      ReportKeeps(k, w, w', n, o);
    }
  }

  lemma {:induction false} NotTouched(k: Track, w: World, w': World, n: NodeName, act: FileAction, o: Outcome, data: Bytes)
    requires MachineOk(k, w, n) && act in w.Agent(n).todo && act.Recv? && !(o.ok && act.id == k.id)
    requires w'.agents == w.agents[n := w'.Agent(n)]
    requires if o.ok then At(n, act.user, act.path).Some? && w'.Agent(n).files == w.Agent(n).files[At(n, act.user, act.path).value.path := data]
             else w'.Agent(n).files == w.Agent(n).files
    ensures Holds(w', k.Src()) == Holds(w, k.Src()) && Holds(w', k.Dst()) == Holds(w, k.Dst())
  {
  }

  /** The controller takes a transfer for staged, with its blob if nothing has ended it
      before, and asks the destination to fetch it. */
  ghost predicate Staging(w: World, w': World, id: TransferId, t: Transfer, body: Bytes, head: int) {
    && w' == w.(relay := w'.relay) && w'.relay.next == w.relay.next
    && w'.relay.transfers == (if id in w.relay.transfers
                              then w.relay.transfers[id := w.relay.transfers[id].(state := Staged, size := |body|)] else w.relay.transfers)
    && w'.relay.blobs == (if IsSending(w.relay, id) then w.relay.blobs[id := body] else w.relay.blobs)
    && w'.relay.pending == (if t.toNode == COMPUTER then w.relay.pending
                            else w.relay.pending[t.toNode := w.Queue(t.toNode) + [Recv(id, t.user, t.toPath, head)]])
  }

  lemma {:induction false} CommitStages(w: World, id: TransferId, t: Transfer, body: Bytes, head: int)
    ensures Staging(w, w.(relay := Commit(w.relay, id, t, Some(body), head)), id, t, body, head)
  {
  }

  lemma {:induction false} StagingQueues(k: Track, w: World, w': World, id: TransferId, t: Transfer, body: Bytes, head: int, m: NodeName)
    requires Staging(w, w', id, t, body, head) && TransferOk(k, id, t) && MachineOk(k, w, m)
    ensures MachineOk(k, w', m)
    ensures Recvs(k, w'.Queue(m)) <= Recvs(k, w.Queue(m)) + if id == k.id then 1 else 0
    ensures forall act :: act in w'.Queue(m) && Strays(k, act) ==> act in w.Queue(m)
  {
    var a := Recv(id, t.user, t.toPath, head);
    RecvsAppend(k, w.Queue(m), a);
    assert w'.Queue(m) == if m == t.toNode && m != COMPUTER then w.Queue(m) + [a] else w.Queue(m);
    assert ActionOk(k, w.removals[k.id] > 0, t.toNode, a);
  }

  lemma {:induction false} StageKeeps(k: Track, w: World, w': World, id: TransferId, t: Transfer, body: Bytes, head: int)
    requires MoveInv(k, w) && Staging(w, w', id, t, body, head) && TransferOk(k, id, t)
    requires id == k.id ==> body == Relayed(k.body) && Tokens(k, w) == 0 && !Uploading(k, w)
    requires id == k.id ==> forall i :: 0 <= i < |w.Agent(k.t.toNode).todo| ==> !Strays(k, w.Agent(k.t.toNode).todo[i])
    ensures MoveInv(k, w')
  {
    assert RecordOk(k, w.relay, id);
    forall m ensures MachineOk(k, w', m) {
      assert MachineOk(k, w, m);
      StagingQueues(k, w, w', id, t, body, head, m);
    }
    forall i ensures RecordOk(k, w'.relay, i) {
      assert RecordOk(k, w.relay, i);
    }
    assert MachineOk(k, w, k.t.toNode);
    StagingQueues(k, w, w', id, t, body, head, k.t.toNode);
    StagedBooks(k, w, w', id, t, body, head);
  }

  lemma {:induction false} StagedBooks(k: Track, w: World, w': World, id: TransferId, t: Transfer, body: Bytes, head: int)
    requires BooksOk(k, w) && StraysOk(k, w) && Staging(w, w', id, t, body, head)
    requires id == k.id ==> body == Relayed(k.body) && Tokens(k, w) == 0 && !Uploading(k, w)
    requires id == k.id ==> forall i :: 0 <= i < |w.Agent(k.t.toNode).todo| ==> !Strays(k, w.Agent(k.t.toNode).todo[i])
    requires Recvs(k, w'.Queue(k.t.toNode)) <= Recvs(k, w.Queue(k.t.toNode)) + if id == k.id then 1 else 0
    requires forall act :: act in w'.Queue(k.t.toNode) && Strays(k, act) ==> act in w.Queue(k.t.toNode)
    ensures BooksOk(k, w') && StraysOk(k, w')
  {
    assert w'.agents == w.agents && w'.wires == w.wires && w'.removals == w.removals && w'.uploads == w.uploads;
    assert Tokens(k, w') <= Tokens(k, w) + if id == k.id then 1 else 0;
    assert Holds(w', k.Src()) == Holds(w, k.Src()) && Holds(w', k.Dst()) == Holds(w, k.Dst());
  }

  /** What the controller makes of an upload. */
  ghost predicate Taken(w: World, w': World, id: TransferId, t: Transfer, body: Bytes, head: int) {
    w' == w || Settling(w, w') || Staging(w, w', id, t, Relayed(body), head)
  }

  /** An upload is the agent's bookkeeping and then what the controller made of it. */
  lemma {:induction false} SendSplits(w: World, n: NodeName, fate: UploadFate, head: int, act: FileAction)
    requires Enabled(w, DoSend(n, fate, head)) && act == w.Agent(n).todo[0]
    ensures var w' := Sent(w, n, fate, head);
            var reported := w'.(relay := w.relay);
            var file := FileOf(w.Agent(n), act.user, act.path);
            && reported == w.(agents := w.agents[n := w'.Agent(n)])
            && w'.Agent(n).files == w.Agent(n).files && w'.Agent(n).todo == w.Agent(n).todo[1..]
            && (exists o: Outcome :: w'.Agent(n).results == w.Agent(n).results + [o] && o.kind == SendKind && o.id == act.id)
            && (w' == reported
                || (file.Some? && PartyTo(w.relay, act.id, n, Sending) && Taken(reported, w', act.id, w.relay.transfers[act.id], file.value, head)))
  {
    var w' := Sent(w, n, fate, head);
    var reported := w'.(relay := w.relay);
    var file := FileOf(w.Agent(n), act.user, act.path);
    var o := w'.Agent(n).results[|w.Agent(n).results|];
    assert w'.Agent(n).results == w.Agent(n).results + [o] && o.kind == SendKind && o.id == act.id;
    if file.Some? && !fate.Unsent? && PartyTo(w.relay, act.id, n, Sending) {
      CommitTakes(reported, act.id, w.relay.transfers[act.id], file.value, fate, head);
    } else {
      assert w' == reported;
    }
  }

  function Uploaded(body: Bytes, fate: UploadFate): Option<Bytes> {
    if fate.CutOff? then None else Some(Relayed(body))
  }

  lemma {:induction false} CommitTakes(w: World, id: TransferId, t: Transfer, body: Bytes, fate: UploadFate, head: int)
    ensures Taken(w, w.(relay := Commit(w.relay, id, t, Uploaded(body, fate), head)), id, t, body, head)
  {
    if fate.CutOff? {
      FailSettles(w, id);
    } else {
      CommitStages(w, id, t, Relayed(body), head);
    }
  }

  /** An upload that is let through in the move's name sends the source's bytes, or the same
      that the destination held; and there is no stray to fetch them. */
  lemma {:induction false} StagesSource(k: Track, w: World, n: NodeName, act: FileAction)
    requires MoveInv(k, w) && w.Agent(n).todo != [] && act == w.Agent(n).todo[0] && act.Send? && act.id == k.id
    requires PartyTo(w.relay, k.id, n, Sending) && FileOf(w.Agent(n), act.user, act.path).Some?
    ensures n == k.t.fromNode && Tokens(k, w) == 0
    ensures Relayed(FileOf(w.Agent(n), act.user, act.path).value) == Relayed(k.body) && Viable(k, act)
  {
    assert RecordOk(k, w.relay, k.id) && MachineOk(k, w, n) && act in w.Agent(n).todo;
    assert ActionOk(k, w.removals[k.id] > 0, n, act) && n == k.t.fromNode;
    var loc := At(n, act.user, act.path);
    assert Holds(w, loc) == FileOf(w.Agent(n), act.user, act.path);
  }

  /** When the machine's next action is an upload of the move's that is let through, the
      actions behind it are no strays, and none are at another machine. */
  lemma {:induction false} NoStrayBehind(k: Track, w: World, n: NodeName, reported: World)
    requires MoveInv(k, w) && n == k.t.fromNode && w.Agent(n).todo != [] && Viable(k, w.Agent(n).todo[0])
    requires reported.Agent(n).todo == w.Agent(n).todo[1..] && forall m :: m != n ==> reported.Agent(m).todo == w.Agent(m).todo
    ensures forall i :: 0 <= i < |reported.Agent(k.t.toNode).todo| ==> !Strays(k, reported.Agent(k.t.toNode).todo[i])
  {
    var d := k.t.toNode;
    forall i | 0 <= i < |reported.Agent(d).todo| ensures !Strays(k, reported.Agent(d).todo[i]) {
      assert n == d ==> reported.Agent(d).todo[i] == w.Agent(d).todo[i + 1];
    }
  }

  lemma {:induction false} TakenIsKept(k: Track, reported: World, w': World, id: TransferId, t: Transfer, body: Bytes, head: int)
    requires MoveInv(k, reported) && Taken(reported, w', id, t, body, head) && TransferOk(k, id, t)
    requires id == k.id ==> Relayed(body) == Relayed(k.body) && Tokens(k, reported) == 0 && !Uploading(k, reported)
    requires id == k.id ==> forall i :: 0 <= i < |reported.Agent(k.t.toNode).todo| ==> !Strays(k, reported.Agent(k.t.toNode).todo[i])
    ensures MoveInv(k, w')
  {
    if w' == reported {
    } else if Settling(reported, w') {
      SettlingKeeps(k, reported, w');
    } else {
      StageKeeps(k, reported, w', id, t, Relayed(body), head);
    }
  }

  lemma {:induction false} SentIsKept(k: Track, w: World, reported: World, w': World, n: NodeName, o: Outcome, act: FileAction, body: Bytes, head: int)
    requires MoveInv(k, w) && MoveInv(k, reported) && w.Agent(n).todo != [] && act == w.Agent(n).todo[0] && act.Send? && n !in w.uploads
    requires reported == w.(agents := w.agents[n := reported.Agent(n)]) && o.kind == SendKind
    requires reported.Agent(n).todo == w.Agent(n).todo[1..] && reported.Agent(n).results == w.Agent(n).results + [o]
    requires FileOf(w.Agent(n), act.user, act.path) == Some(body) && PartyTo(w.relay, act.id, n, Sending)
    requires Taken(reported, w', act.id, w.relay.transfers[act.id], body, head)
    ensures MoveInv(k, w')
  {
    if act.id == k.id {
      StagesSource(k, w, n, act);
      NoStrayBehind(k, w, n, reported);
      StillNoTokens(k, w, reported, n, o);
    }
    assert RecordOk(k, w.relay, act.id);
    TakenIsKept(k, reported, w', act.id, w.relay.transfers[act.id], body, head);
  }

  lemma {:induction false} SendStep(k: Track, w: World, n: NodeName, fate: UploadFate, head: int)
    requires MoveInv(k, w) && Enabled(w, DoSend(n, fate, head))
    ensures MoveInv(k, Next(w, DoSend(n, fate, head)))
  {
    var act, w' := w.Agent(n).todo[0], Sent(w, n, fate, head);
    SendSplits(w, n, fate, head, act);
    var reported := w'.(relay := w.relay);
    var o: Outcome :| w'.Agent(n).results == w.Agent(n).results + [o] && o.kind == SendKind && o.id == act.id;
    ReportKeeps(k, w, reported, n, o);
    if w' != reported {
      SentIsKept(k, w, reported, w', n, o, act, FileOf(w.Agent(n), act.user, act.path).value, head);
    }
  }

  lemma {:induction false} StillNoTokens(k: Track, w: World, w': World, n: NodeName, o: Outcome)
    requires Tokens(k, w) == 0 && w.Agent(n).todo != [] && o.kind == SendKind && w'.relay == w.relay && w'.wires == w.wires && w'.removals == w.removals
    requires w'.Agent(n).todo == w.Agent(n).todo[1..] && w'.Agent(n).results == w.Agent(n).results + [o]
    requires forall m :: m != n ==> w'.Agent(m) == w.Agent(m)
    ensures Tokens(k, w') == 0
  {
    ReportCounts(k, w.Agent(n), w'.Agent(n), o);
  }

  lemma {:induction false} BeginOnMachine(k: Track, w: World, n: NodeName, act: FileAction)
    requires Enabled(w, BeginSend(n)) && act == w.Agent(n).todo[0] && RecordOk(k, w.relay, act.id)
    requires act.id == k.id ==>
      n == k.t.fromNode && Viable(k, act) && Relayed(FileOf(w.Agent(n), act.user, act.path).value) == Relayed(k.body)
    ensures UploadOk(k, Began(w, n), n)
  {
  }

  lemma {:induction false} BeganKeeps(k: Track, w: World, w': World, n: NodeName)
    requires MoveInv(k, w) && w' == w.(uploads := w'.uploads) && UploadOk(k, w', n)
    requires forall m :: m != n && m in w'.uploads ==> m in w.uploads && w'.uploads[m] == w.uploads[m]
    requires Uploading(k, w') ==> Tokens(k, w) == 0
    ensures MoveInv(k, w')
  {
    forall m ensures MachineOk(k, w', m) { assert MachineOk(k, w, m); }
    forall id ensures RecordOk(k, w'.relay, id) { assert RecordOk(k, w.relay, id); }
  }

  lemma {:induction false} BeginStep(k: Track, w: World, n: NodeName)
    requires MoveInv(k, w) && Enabled(w, BeginSend(n))
    ensures MoveInv(k, Next(w, BeginSend(n)))
  {
    var act, w' := w.Agent(n).todo[0], Began(w, n);
    assert RecordOk(k, w.relay, act.id);
    if act.id == k.id {
      StagesSource(k, w, n, act);
    }
    BeginOnMachine(k, w, n, act);
    BeganKeeps(k, w, w', n);
  }

  /** The end of an upload, without what the controller makes of it. */
  ghost function JustEnded(w: World, n: NodeName, o: Outcome): World
    requires w.Agent(n).todo != []
  {
    var a := w.Agent(n);
    WithAgent(w, n, Report(a.(todo := a.todo[1..]), o)).(uploads := w.uploads - {n})
  }

  lemma {:induction false} EndSplits(w: World, n: NodeName, fate: UploadFate, head: int) returns (o: Outcome)
    requires Enabled(w, EndSend(n, fate, head))
    ensures o.kind == SendKind && o.id == w.uploads[n].id
    ensures var reported, up := JustEnded(w, n, o), w.uploads[n];
            && Ended(w, n, fate, head) == reported.(relay := Ended(w, n, fate, head).relay)
            && Taken(reported, Ended(w, n, fate, head), up.id, up.t, up.body, head)
  {
    var up := w.uploads[n];
    o := Outcome(up.id, SendKind, fate.Answered?, if fate.Answered? then |up.body| else 0);
    CommitTakes(JustEnded(w, n, o), up.id, up.t, up.body, fate, head);
  }

  lemma {:induction false} JustEndedKeeps(k: Track, w: World, n: NodeName, o: Outcome)
    requires MoveInv(k, w) && w.Agent(n).todo != [] && o.kind == SendKind
    ensures MoveInv(k, JustEnded(w, n, o))
  {
    CutShort(k, w, n);
    ReportKeeps(k, w.(uploads := w.uploads - {n}), JustEnded(w, n, o), n, o);
  }

  lemma {:induction false} EndStep(k: Track, w: World, n: NodeName, fate: UploadFate, head: int)
    requires MoveInv(k, w) && Enabled(w, EndSend(n, fate, head))
    ensures MoveInv(k, Next(w, EndSend(n, fate, head)))
  {
    var up, w' := w.uploads[n], Ended(w, n, fate, head);
    assert MachineOk(k, w, n);
    var o := EndSplits(w, n, fate, head);
    var reported := JustEnded(w, n, o);
    JustEndedKeeps(k, w, n, o);
    if up.id == k.id {
      NoStrayBehind(k, w, n, reported);
      StillNoTokens(k, w, reported, n, o);
    }
    TakenIsKept(k, reported, w', up.id, up.t, up.body, head);
  }

  // ----- the steps together -----

  lemma {:induction false} EndSettles(w: World, s: Step)
    requires Enabled(w, s) && (s.FetchDone? || s.ExpireIt?)
    ensures Settling(w, Next(w, s))
  {
  }

  lemma {:induction false} IndexSettles(w: World, s: Step)
    requires Enabled(w, s) && (s.ForgetNode? || s.StorageReport?)
    ensures Settling(w, Next(w, s))
  {
  }

  lemma {:induction false} TickStep(k: Track, w: World, d: nat)
    requires MoveInv(k, w)
    ensures MoveInv(k, Next(w, Tick(d)))
  {
    forall m ensures MachineOk(k, Next(w, Tick(d)), m) { assert MachineOk(k, w, m); }
  }

  lemma {:induction false} WriteStep(k: Track, w: World, s: Step)
    requires MoveInv(k, w) && s.WriteFile? && Alone(k, s)
    ensures MoveInv(k, Next(w, s))
  {
    var w' := Next(w, s);
    assert MachineOk(k, w, s.n);
    FilesElsewhere(k, w, w', s);
    StraysSame(k, w, w');
    MachineKeeps(k, w, w', s.n);
  }

  lemma {:induction false} FilesElsewhere(k: Track, w: World, w': World, s: Step)
    requires s.WriteFile? && Alone(k, s) && w' == Next(w, s)
    ensures Holds(w', k.Src()) == Holds(w, k.Src()) && Holds(w', k.Dst()) == Holds(w, k.Dst())
    ensures forall m :: w'.Agent(m).todo == w.Agent(m).todo && w'.Agent(m).results == w.Agent(m).results
  {
  }

  lemma {:induction false} SettledStep(k: Track, w: World, s: Step)
    requires MoveInv(k, w) && Enabled(w, s) && (s.FetchDone? || s.ExpireIt? || s.ForgetNode? || s.StorageReport?)
    ensures MoveInv(k, Next(w, s))
  {
    if s.FetchDone? || s.ExpireIt? {
      EndSettles(w, s);
    } else {
      IndexSettles(w, s);
    }
    SettlingKeeps(k, w, Next(w, s));
  }

  lemma {:induction false} MachineStep(k: Track, w: World, s: Step)
    requires MoveInv(k, w) && Enabled(w, s)
    requires s.HandOver? || s.ApplyOne? || s.TakeActions? || s.DoSend? || s.BeginSend? || s.EndSend? || s.DoRecv? || s.DoRemove? || s.Crash?
    ensures MoveInv(k, Next(w, s))
  {
    match s
    case HandOver(n, arrives) => HandOverStep(k, w, n, arrives);
    case ApplyOne(n) => ApplyStep(k, w, n);
    case TakeActions(n, arrives) => TakeActionsStep(k, w, n, arrives);
    case DoSend(n, fate, head) => SendStep(k, w, n, fate, head);
    case BeginSend(n) => BeginStep(k, w, n);
    case EndSend(n, fate, head) => EndStep(k, w, n, fate, head);
    case DoRecv(n, fate) => RecvStep(k, w, n, fate);
    case DoRemove(n, works) => RemoveStep(k, w, n, works);
    case Crash(n) => CrashStep(k, w, n);
  }

  lemma {:induction false} MoveStep(k: Track, w: World, s: Step)
    requires MoveInv(k, w) && Enabled(w, s) && Alone(k, s)
    ensures MoveInv(k, Next(w, s))
  {
    if s.StartIt? || s.FetchIt? || s.RemoveIt? {
      RequestStep(k, w, s);
    } else if s.UploadIt? {
      UploadStep(k, w, s);
    } else if s.WriteFile? {
      WriteStep(k, w, s);
    } else if s.Tick? {
      TickStep(k, w, s.d);
    } else if s.FetchDone? || s.ExpireIt? || s.ForgetNode? || s.StorageReport? {
      SettledStep(k, w, s);
    } else {
      MachineStep(k, w, s);
    }
  }

  lemma {:induction false} MoveInvOverRuns(k: Track, ws: seq<World>, ss: seq<Step>, start: nat, i: nat)
    requires IsPath(ws, ss) && start <= i < |ws| && MoveInv(k, ws[start])
    requires forall j :: start <= j < |ss| ==> Alone(k, ss[j])
    ensures MoveInv(k, ws[i])
    decreases i
  {
    if i > start {
      MoveInvOverRuns(k, ws, ss, start, i - 1);
      assert Leads(ws, ss, i - 1);
      MoveStep(k, ws[i - 1], ss[i - 1]);
    }
  }

  // ----- numbers -----

  ghost predicate QueueIds(w: World, n: NodeName) {
    && (forall act :: act in w.Queue(n) ==> act.id <= w.relay.next)
    && (n in w.uploads ==>
          && w.uploads[n].id <= w.relay.next
          && w.Agent(n).todo != [] && w.Agent(n).todo[0].Send? && w.Agent(n).todo[0].id == w.uploads[n].id)
  }

  /** Whatever the controller has, it has given the number of in this life. */
  ghost predicate NumbersOk(w: World) {
    && (forall n :: QueueIds(w, n))
    && (forall id :: id in w.removals || id in w.arrived || id in w.relay.transfers || id in w.relay.blobs ==> id <= w.relay.next)
  }

  /** What a machine has in hand, or has yet to report, bears a number given out in this life. */
  ghost predicate HeldIds(w: World, n: NodeName) {
    && (forall act :: act in w.Agent(n).todo ==> act.id <= w.relay.next)
    && (forall o :: o in w.Agent(n).results || o in w.Wire(n) ==> o.id <= w.relay.next)
  }

  ghost predicate AllHeld(w: World) {
    forall n :: HeldIds(w, n)
  }

  lemma {:induction false} NumbersStep(w: World, s: Step)
    requires NumbersOk(w) && Enabled(w, s)
    ensures NumbersOk(Next(w, s)) && (!s.ControllerRestart? && AllHeld(w) ==> AllHeld(Next(w, s)))
  {
    var w' := Next(w, s);
    match s
    case StartIt(_, _, _, _, _, _, _) => IdsRequest(w, s);
    case FetchIt(_, _, _) => IdsRequest(w, s);
    case RemoveIt(_, _, _) => IdsRequest(w, s);
    case UploadIt(_, _, _, _, _) => IdsUpload(w, s);
    case DoSend(n, fate, head) => IdsSend(w, n, fate, head);
    case BeginSend(n) => IdsBegin(w, n);
    case EndSend(n, fate, head) => IdsEnd(w, n, fate, head);
    case ApplyOne(n) => IdsApply(w, n);
    case DoRecv(n, _) => IdsMachine(w, s, n);
    case DoRemove(n, _) => IdsMachine(w, s, n);
    case HandOver(_, _) => IdsExchange(w, s);
    case TakeActions(_, _) => IdsExchange(w, s);
    case Crash(n) => IdsCrash(w, n);
    case WriteFile(_, _, _) => IdsExchange(w, s);
    case Tick(_) => IdsExchange(w, s);
    case FetchDone(_) => EndSettles(w, s); IdsSettling(w, w');
    case ExpireIt(_) => EndSettles(w, s); IdsSettling(w, w');
    case ForgetNode(_) => IndexSettles(w, s); IdsSettling(w, w');
    case StorageReport(_, _, _) => IndexSettles(w, s); IdsSettling(w, w');
    case ControllerRestart =>
      forall n ensures QueueIds(w', n) {}
  }

  lemma {:induction false} IdsSettling(w: World, w': World)
    requires NumbersOk(w) && Settling(w, w')
    ensures NumbersOk(w') && (AllHeld(w) ==> AllHeld(w'))
  {
    forall m ensures QueueIds(w', m) && (HeldIds(w, m) ==> HeldIds(w', m)) {
      assert QueueIds(w, m);
    }
  }

  lemma {:induction false} IdsExchange(w: World, s: Step)
    requires NumbersOk(w) && Enabled(w, s)
    requires s.HandOver? || s.TakeActions? || s.WriteFile? || s.Tick?
    ensures NumbersOk(Next(w, s)) && (AllHeld(w) ==> AllHeld(Next(w, s)))
  {
    var w' := Next(w, s);
    forall m ensures QueueIds(w', m) && (HeldIds(w, m) ==> HeldIds(w', m)) {
      assert QueueIds(w, m);
    }
  }

  lemma {:induction false} IdsMachine(w: World, s: Step, n: NodeName)
    requires NumbersOk(w) && Enabled(w, s)
    requires (s.DoRecv? || s.DoRemove?) && s.n == n
    ensures NumbersOk(Next(w, s)) && (AllHeld(w) ==> AllHeld(Next(w, s)))
  {
    var act, w' := w.Agent(n).todo[0], Next(w, s);
    assert act in w.Agent(n).todo;
    forall m ensures QueueIds(w', m) && (HeldIds(w, m) ==> HeldIds(w', m)) {
      assert QueueIds(w, m);
    }
  }

  lemma {:induction false} IdsNew(w: World, w': World, n: NodeName, acts: seq<FileAction>)
    requires NumbersOk(w) && w' == w.(relay := w'.relay) && w'.relay.next == w.relay.next + 1
    requires w'.relay.transfers.Keys <= w.relay.transfers.Keys + {w'.relay.next}
    requires w'.relay.blobs.Keys <= w.relay.blobs.Keys + {w'.relay.next}
    requires w'.Queue(n) == w.Queue(n) + acts && forall act :: act in acts ==> act.id == w'.relay.next
    requires forall m :: m != n ==> w'.Queue(m) == w.Queue(m)
    ensures NumbersOk(w') && (AllHeld(w) ==> AllHeld(w'))
  {
    forall m ensures QueueIds(w', m) && (HeldIds(w, m) ==> HeldIds(w', m)) {
      assert QueueIds(w, m);
    }
    forall id | id in w'.removals || id in w'.arrived || id in w'.relay.transfers || id in w'.relay.blobs ensures id <= w'.relay.next {
      assert id in w'.relay.transfers ==> id in w'.relay.transfers.Keys;
      assert id in w'.relay.blobs ==> id in w'.relay.blobs.Keys;
    }
  }

  lemma {:induction false} IdsRequest(w: World, s: Step)
    requires NumbersOk(w) && (s.StartIt? || s.FetchIt? || s.RemoveIt?)
    ensures NumbersOk(Next(w, s)) && (AllHeld(w) ==> AllHeld(Next(w, s)))
  {
    var w', id := Next(w, s), w.relay.next + 1;
    if w'.relay != w.relay {
      match s
      case StartIt(user, from, fromPath, _, _, _, _) => IdsNew(w, w', from, [Send(id, user, fromPath)]);
      case FetchIt(user, from, fromPath) => IdsNew(w, w', from, [Send(id, user, fromPath)]);
      case RemoveIt(user, n, path) => IdsNew(w, w', n, [Remove(id, user, path)]);
    }
  }

  lemma {:induction false} UploadShape(r: State, s: Step)
    requires s.UploadIt?
    ensures var r', id := Upload(r, s.user, s.to, s.toPath, s.data, s.head), r.next + 1;
            && r'.next == id && r'.transfers.Keys == r.transfers.Keys + {id} && r'.blobs.Keys <= r.blobs.Keys + {id}
            && r'.pending == if s.data.None? || (0 <= s.head < |s.data.value|) then r.pending
                             else r.pending[s.to := QueueOf(r.pending, s.to) + [Recv(id, s.user, s.toPath, s.head)]]
  {
    var id := r.next + 1;
    var r1 := Register(r, Transfer(s.user, COMPUTER, [], s.to, s.toPath, false, 0, Sending));
    if s.data.None? || (0 <= s.head < |s.data.value|) {
      assert Upload(r, s.user, s.to, s.toPath, s.data, s.head) == Fail(r1, id);
    }
  }

  lemma {:induction false} IdsUpload(w: World, s: Step)
    requires NumbersOk(w) && s.UploadIt?
    ensures NumbersOk(Next(w, s)) && (AllHeld(w) ==> AllHeld(Next(w, s)))
  {
    UploadShape(w.relay, s);
    var w', id := Next(w, s), w.relay.next + 1;
    var acts := if w'.relay.pending == w.relay.pending then [] else [Recv(id, s.user, s.toPath, s.head)];
    IdsNew(w, w', s.to, acts);
  }

  lemma {:induction false} IdsReported(w: World, w': World, n: NodeName, o: Outcome)
    requires NumbersOk(w) && w.Agent(n).todo != [] && o.id == w.Agent(n).todo[0].id
    requires w' == w.(agents := w.agents[n := w'.Agent(n)]) && n !in w.uploads
    requires w'.Agent(n).todo == w.Agent(n).todo[1..] && w'.Agent(n).results == w.Agent(n).results + [o]
    ensures NumbersOk(w') && (AllHeld(w) ==> AllHeld(w'))
  {
    assert w.Agent(n).todo[0] in w.Agent(n).todo;
    forall m ensures QueueIds(w', m) && (HeldIds(w, m) ==> HeldIds(w', m)) {
      assert QueueIds(w, m);
    }
  }

  lemma {:induction false} IdsTaken(w: World, w': World, id: TransferId, t: Transfer, body: Bytes, head: int)
    requires NumbersOk(w) && Taken(w, w', id, t, body, head) && id <= w.relay.next
    ensures NumbersOk(w') && (AllHeld(w) ==> AllHeld(w'))
  {
    if Settling(w, w') {
      IdsSettling(w, w');
    } else {
      forall m ensures QueueIds(w', m) && (HeldIds(w, m) ==> HeldIds(w', m)) {
        assert QueueIds(w, m);
      }
    }
  }

  lemma {:induction false} IdsSend(w: World, n: NodeName, fate: UploadFate, head: int)
    requires NumbersOk(w) && Enabled(w, DoSend(n, fate, head))
    ensures NumbersOk(Next(w, DoSend(n, fate, head))) && (AllHeld(w) ==> AllHeld(Next(w, DoSend(n, fate, head))))
  {
    var act, w' := w.Agent(n).todo[0], Sent(w, n, fate, head);
    SendSplits(w, n, fate, head, act);
    var reported := w'.(relay := w.relay);
    var o: Outcome :| w'.Agent(n).results == w.Agent(n).results + [o] && o.kind == SendKind && o.id == act.id;
    IdsReported(w, reported, n, o);
    if w' != reported {
      IdsTaken(reported, w', act.id, w.relay.transfers[act.id], FileOf(w.Agent(n), act.user, act.path).value, head);
    }
  }

  lemma {:induction false} IdsBegin(w: World, n: NodeName)
    requires NumbersOk(w) && Enabled(w, BeginSend(n))
    ensures NumbersOk(Began(w, n)) && (AllHeld(w) ==> AllHeld(Began(w, n)))
  {
    forall m ensures QueueIds(Began(w, n), m) && (HeldIds(w, m) ==> HeldIds(Began(w, n), m)) {
      assert QueueIds(w, m);
    }
  }

  lemma {:induction false} IdsCut(w: World, n: NodeName)
    requires NumbersOk(w)
    ensures var w' := w.(uploads := w.uploads - {n}); NumbersOk(w') && (AllHeld(w) ==> AllHeld(w'))
  {
    var w' := w.(uploads := w.uploads - {n});
    forall m ensures QueueIds(w', m) && (HeldIds(w, m) ==> HeldIds(w', m)) {
      assert QueueIds(w, m);
    }
  }

  lemma {:induction false} IdsEnd(w: World, n: NodeName, fate: UploadFate, head: int)
    requires NumbersOk(w) && Enabled(w, EndSend(n, fate, head))
    ensures NumbersOk(Next(w, EndSend(n, fate, head))) && (AllHeld(w) ==> AllHeld(Next(w, EndSend(n, fate, head))))
  {
    var up := w.uploads[n];
    var o := EndSplits(w, n, fate, head);
    assert QueueIds(w, n);
    IdsCut(w, n);
    IdsReported(w.(uploads := w.uploads - {n}), JustEnded(w, n, o), n, o);
    IdsTaken(JustEnded(w, n, o), Ended(w, n, fate, head), up.id, up.t, up.body, head);
  }

  lemma {:induction false} IdsCrash(w: World, n: NodeName)
    requires NumbersOk(w)
    ensures NumbersOk(Crashed(w, n)) && (AllHeld(w) ==> AllHeld(Crashed(w, n)))
  {
    var w1, w' := w.(uploads := w.uploads - {n}), Crashed(w, n);
    IdsCut(w, n);
    forall m ensures QueueIds(w', m) && (HeldIds(w1, m) ==> HeldIds(w', m)) {
      assert QueueIds(w1, m);
    }
  }

  lemma {:induction false} IdsApply(w: World, n: NodeName)
    requires NumbersOk(w) && Enabled(w, ApplyOne(n))
    ensures NumbersOk(Next(w, ApplyOne(n))) && (AllHeld(w) ==> AllHeld(Next(w, ApplyOne(n))))
  {
    var o, w' := w.Wire(n)[0], Applied(w, n);
    assert o in w.Wire(n);
    forall m ensures QueueIds(w', m) && (HeldIds(w, m) ==> HeldIds(w', m)) {
      assert QueueIds(w, m);
    }
  }

  /** In every run, restarts or not; and until the first restart nothing old is about. */
  lemma {:induction false} NumbersOverRuns(ws: seq<World>, ss: seq<Step>, i: nat)
    requires IsPath(ws, ss) && Initial(ws[0]) && i < |ws|
    ensures NumbersOk(ws[i])
    ensures (forall j :: 0 <= j < i ==> !ss[j].ControllerRestart?) ==> AllHeld(ws[i])
  {
    if i > 0 {
      NumbersOverRuns(ws, ss, i - 1);
      assert Leads(ws, ss, i - 1);
      NumbersStep(ws[i - 1], ss[i - 1]);
    }
  }

  // ----- the theorem -----

  /** The move that a request starts, with what its two files hold. */
  ghost function Asked(w: World, s: Step, body: Bytes): Track
    requires s.StartIt?
  {
    var size := var l := Listing(w.relay, Shelf(s.from, s.user)); if s.fromPath in l then l[s.fromPath] else 0;
    Track(w.relay.next + 1, Transfer(s.user, s.from, s.fromPath, s.to, s.toPath, s.move, size, Sending), body,
          Holds(w, At(s.to, s.user, s.toPath)))
  }

  /** Nothing under way writes or removes the move's two files. */
  ghost predicate Quiet(k: Track, w: World) {
    && (forall n, act :: act in w.Queue(n) || act in w.Agent(n).todo ==> act.Send? || !k.Touches(At(n, act.user, act.path)))
    && (forall id :: RecordOk(k, w.relay, id))
    && (forall n :: n in w.uploads ==> TransferOk(k, w.uploads[n].id, w.uploads[n].t))
  }

  /** A move request the controller accepts, for a file that is there. */
  ghost predicate Accepted(w: World, s: Step, body: Bytes) {
    && s.StartIt? && s.move && Next(w, s).relay != w.relay
    && var k := Asked(w, s, body);
       k.Src().Some? && Holds(w, k.Src()) == Some(body)
  }

  // ----- leftovers of an earlier life that are taken for the move's own -----

  /** A report, of whatever machine, that a download with the move's number worked. */
  ghost predicate OldReport(k: Track, w: World, n: NodeName) {
    Oks(w.Agent(n).results, k.id) > 0 || Oks(w.Wire(n), k.id) > 0
  }

  /** An upload with the move's number, in the hands of the source's machine, of a file
      with other bytes than the source's. */
  ghost predicate OldUpload(k: Track, w: World) {
    exists act :: act in w.Agent(k.t.fromNode).todo && act.Send? && act.id == k.id && !SendOk(k, At(k.t.fromNode, act.user, act.path))
  }

  /** A download with the move's number, in the hands of the destination's machine, into
      another file, that may still find the move's bytes: on one machine for both files,
      only behind an upload. */
  ghost predicate OldDownload(k: Track, w: World) {
    var todo := w.Agent(k.t.toNode).todo;
    exists i :: 0 <= i < |todo| && Strays(k, todo[i]) && (k.t.fromNode == k.t.toNode ==> exists j :: 0 <= j < i && Viable(k, todo[j]))
  }

  ghost predicate Misled(k: Track, w: World) {
    (exists n :: OldReport(k, w, n)) || OldUpload(k, w) || OldDownload(k, w)
  }

  /** While nothing held bears a number that was not given out yet, nothing is left over. */
  lemma {:induction false} NothingOldIsHarmless(k: Track, w: World)
    requires AllHeld(w) && k.id > w.relay.next
    ensures !Misled(k, w)
  {
    forall n ensures !OldReport(k, w, n) { assert HeldIds(w, n); }
    assert HeldIds(w, k.t.fromNode) && HeldIds(w, k.t.toNode);
  }

  lemma {:induction false} AcceptedStarts(w: World, s: Step, body: Bytes)
    requires NumbersOk(w) && Accepted(w, s, body) && Quiet(Asked(w, s, body), w)
    requires Harmless(Asked(w, s, body)) && !Misled(Asked(w, s, body), w)
    ensures MoveInv(Asked(w, s, body), Next(w, s))
  {
    var k, w' := Asked(w, s, body), Next(w, s);
    var a := Send(k.id, s.user, s.fromPath);
    forall m ensures MachineOk(k, w', m) {
      NewlyQueued(k, w, w', s.from, a, m);
    }
    NewlyQueued(k, w, w', s.from, a, k.t.toNode);
    forall id ensures RecordOk(k, w'.relay, id) {
      assert RecordOk(k, w.relay, id);
    }
    assert w'.removals == w.removals && k.id !in w.removals && k.id !in w.relay.blobs;
    NoStrays(k, w, w');
  }

  lemma {:induction false} NoStrays(k: Track, w: World, w': World)
    requires NumbersOk(w) && k.id > w.relay.next && !OldDownload(k, w)
    requires w'.agents == w.agents && k.id !in w'.relay.blobs
    requires forall act :: act in w'.Queue(k.t.toNode) ==> act in w.Queue(k.t.toNode) || act.Send?
    ensures StraysOk(k, w')
  {
    assert QueueIds(w, k.t.toNode);
  }

  lemma {:induction false} NewlyQueued(k: Track, w: World, w': World, n: NodeName, a: FileAction, m: NodeName)
    requires NumbersOk(w) && k.id > w.relay.next && Quiet(k, w) && !Misled(k, w)
    requires w' == w.(relay := w'.relay) && w'.relay.pending == w.relay.pending[n := w.Queue(n) + [a]]
    requires a == Send(k.id, k.t.user, k.t.fromPath) && n == k.t.fromNode
    ensures MachineOk(k, w', m) && Oks(w.Agent(m).results, k.id) == Oks(w.Wire(m), k.id) == 0
    ensures m == k.t.toNode ==> Recvs(k, w'.Queue(m)) == Recvs(k, w.Agent(m).todo) == 0
    ensures forall act :: act in w'.Queue(m) ==> act in w.Queue(m) || act.Send?
  {
    NothingYet(k, w, m);
    RecvsAppend(k, w.Queue(m), a);
    assert w'.Queue(m) == if m == n then w.Queue(m) + [a] else w.Queue(m);
  }

  /** Before its number is given out, nothing that matters is known of a move. */
  lemma {:induction false} NothingYet(k: Track, w: World, m: NodeName)
    requires NumbersOk(w) && k.id > w.relay.next && Quiet(k, w) && !Misled(k, w)
    ensures MachineOk(k, w, m) && Oks(w.Agent(m).results, k.id) == Oks(w.Wire(m), k.id) == 0
    ensures m == k.t.toNode ==> Recvs(k, w.Queue(m)) == Recvs(k, w.Agent(m).todo) == 0
  {
    assert QueueIds(w, m) && !OldReport(k, w, m);
  }

  /** What a move keeps: the bytes are at the source or at the destination; the source's
      removal is queued at most once, and only once the destination has stored them, and
      holds them. */
  ghost predicate Kept(k: Track, w: World) {
    && (Holds(w, k.Src()) == Some(k.body) || Holds(w, k.Dst()) == Some(k.body))
    && w.removals[k.id] <= 1
    && (w.removals[k.id] > 0 ==> k.id in w.arrived && Holds(w, k.Dst()) == Some(k.body))
  }

  /** In every run, from the moment a move between two different files of a size the
      relay takes is accepted, through every pattern of lost reports, failures, restarted
      agents and expiry, and while nobody else writes those files: nothing is lost -- as
      long as the controller lives, and however often it had restarted before, provided
      that nothing left over from an earlier life is taken for the move's own. */
  lemma {:induction false} MoveNeverLoses(ws: seq<World>, ss: seq<Step>, start: nat, i: nat, body: Bytes)
    requires IsPath(ws, ss) && Initial(ws[0]) && start < i < |ws|
    requires Accepted(ws[start], ss[start], body)
    requires var k := Asked(ws[start], ss[start], body);
             && Harmless(k) && Quiet(k, ws[start]) && (forall j :: start < j < |ss| ==> Alone(k, ss[j]))
             && ((exists j :: 0 <= j < start && ss[j].ControllerRestart?) ==> !Misled(k, ws[start]))
    ensures Kept(Asked(ws[start], ss[start], body), ws[i])
  {
    var k := Asked(ws[start], ss[start], body);
    NumbersOverRuns(ws, ss, start);
    if forall j :: 0 <= j < start ==> !ss[j].ControllerRestart? {
      NothingOldIsHarmless(k, ws[start]);
    }
    KeptFromStart(ws, ss, k, start, i, body);
  }

  lemma {:induction false} KeptFromStart(ws: seq<World>, ss: seq<Step>, k: Track, start: nat, i: nat, body: Bytes)
    requires IsPath(ws, ss) && start < i < |ws| && NumbersOk(ws[start]) && Accepted(ws[start], ss[start], body)
    requires k == Asked(ws[start], ss[start], body) && Harmless(k) && Quiet(k, ws[start]) && !Misled(k, ws[start])
    requires forall j :: start < j < |ss| ==> Alone(k, ss[j])
    ensures Kept(k, ws[i])
  {
    assert Leads(ws, ss, start);
    AcceptedStarts(ws[start], ss[start], body);
    MoveInvOverRuns(k, ws, ss, start + 1, i);
    InvKeeps(k, ws[i]);
  }

  lemma {:induction false} InvKeeps(k: Track, w: World)
    requires MoveInv(k, w)
    ensures Kept(k, w)
  {
  }
}
