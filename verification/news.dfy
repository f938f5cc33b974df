/** The index of files: news the controller learned by itself is not erased by a
    report from a walk that began before it. */
module News {
  import opened Paths
  import opened Relay
  import opened FileAgents
  import opened RelayWorld

  predicate Listed(r: State, shelf: Shelf, path: Path) {
    path in Listing(r, shelf)
  }

  /** The controller learned of a file on the shelf at this time or later. */
  predicate NotedAt(r: State, shelf: Shelf, t: int) {
    shelf in r.noteAt && r.noteAt[shelf] >= t
  }

  // ----- one report -----

  /** What a report says about one account: its last word, when it has several. */
  function LastWord(reps: seq<UserReport>, user: string): (r: Option<map<Path, nat>>)
    ensures r.None? <==> !Names(reps, user)
  {
    if reps == [] then None
    else
      var k := |reps| - 1;
      assert Names(reps, user) <==> reps[k].user == user || Names(reps[..k], user);
      if reps[k].user == user then Some(reps[k].entries) else LastWord(reps[..k], user)
  }

  lemma {:induction false} ReplacedShelf(index: map<Shelf, map<Path, nat>>, noteAt: map<Shelf, int>, n: NodeName,
                                         reps: seq<UserReport>, measuredAt: int, shelf: Shelf)
    ensures var after := ReplaceListings(index, noteAt, n, reps, measuredAt);
            if shelf.node != n || NotedSince(noteAt, shelf, measuredAt) || LastWord(reps, shelf.user).None?
            then (shelf in after <==> shelf in index) && (shelf in index ==> after[shelf] == index[shelf])
            else shelf in after && after[shelf] == LastWord(reps, shelf.user).value
  {
    if reps != [] {
      ReplacedShelf(index, noteAt, n, reps[..|reps| - 1], measuredAt, shelf);
    }
  }

  /** What a complete report leaves of any shelf: other machines' are untouched, an
      account the report does not name is dropped, an account with later news keeps
      what the index says, and every other account has what the report says. */
  lemma {:induction false} ReportedShelf(r: State, n: NodeName, reps: seq<UserReport>, measuredAt: int, shelf: Shelf)
    ensures Listing(ApplyReport(r, n, reps, measuredAt), shelf)
         == if shelf.node != n then Listing(r, shelf)
            else if !Names(reps, shelf.user) then map[]
            else if NotedSince(r.noteAt, shelf, measuredAt) then Listing(r, shelf)
            else LastWord(reps, shelf.user).value
  {
    ReplacedShelf(Pruned(r.index, n, Users(reps)), r.noteAt, n, reps, measuredAt, shelf);
  }

  // ----- whole runs -----

  /** The steps that may take a file noted at `t` out of the index. */
  ghost predicate MayErase(w: World, s: Step, shelf: Shelf, path: Path, t: int) {
    match s
    case StorageReport(n, start, reps) => n == shelf.node && (!Names(reps, shelf.user) || start >= t)
    case ApplyOne(n) =>
      w.Wire(n) != [] && var o := w.Wire(n)[0];
      && o.ok && o.kind == RemoveKind && o.id in w.relay.transfers
      && var tr := w.relay.transfers[o.id];
         Shelf(tr.fromNode, tr.user) == shelf && tr.fromPath == path
    case ForgetNode(n) => n == shelf.node
    case ControllerRestart => true
    case _ => false
  }

  ghost predicate NotesPast(w: World) {
    forall shelf :: shelf in w.relay.noteAt ==> w.relay.noteAt[shelf] <= w.clock
  }

  lemma {:induction false} NotesPastStep(w: World, s: Step)
    requires NotesPast(w) && Enabled(w, s)
    ensures NotesPast(Next(w, s))
  {
    if s.ApplyOne? {
      NotesApplied(w, s.n);
    } else if s.StorageReport? {
      assert Next(w, s).relay.noteAt == w.relay.noteAt;
    } else if !s.ForgetNode? && !s.ControllerRestart? {
      IndexUntouched(w, s);
      TimeGoesOn(w, s);
    }
  }

  lemma {:induction false} NotesApplied(w: World, n: NodeName)
    requires NotesPast(w) && w.Wire(n) != []
    ensures NotesPast(Applied(w, n))
  {
  }

  lemma {:induction false} TimeGoesOn(w: World, s: Step)
    requires Enabled(w, s)
    ensures Next(w, s).clock >= w.clock
  {
  }

  lemma {:induction false} NotesPastOverRuns(ws: seq<World>, ss: seq<Step>, i: nat)
    requires IsPath(ws, ss) && Initial(ws[0]) && i < |ws|
    ensures NotesPast(ws[i])
  {
    if i > 0 {
      NotesPastOverRuns(ws, ss, i - 1);
      assert Leads(ws, ss, i - 1);
      NotesPastStep(ws[i - 1], ss[i - 1]);
    }
  }

  lemma {:induction false} NewsStep(w: World, s: Step, shelf: Shelf, path: Path, t: int)
    requires Enabled(w, s) && NotesPast(w) && !MayErase(w, s, shelf, path, t)
    requires Listed(w.relay, shelf, path) && NotedAt(w.relay, shelf, t)
    ensures Listed(Next(w, s).relay, shelf, path) && NotedAt(Next(w, s).relay, shelf, t)
  {
    match s
    case StorageReport(n, start, reps) =>
      ReportedShelf(w.relay, n, reps, Millis(start), shelf);
    case ApplyOne(n) => NewsApply(w, n, shelf, path, t);
    case ForgetNode(_) =>
    case ControllerRestart =>
    case _ => IndexUntouched(w, s);
  }

  /** Only outcomes, reports, forgotten machines and a restart touch the index and its notes. */
  lemma {:induction false} IndexUntouched(w: World, s: Step)
    requires Enabled(w, s) && !s.StorageReport? && !s.ApplyOne? && !s.ForgetNode? && !s.ControllerRestart?
    ensures Next(w, s).relay.index == w.relay.index && Next(w, s).relay.noteAt == w.relay.noteAt
  {
    if s.DoSend? {
      SendLeavesIndex(w, s.n, s.sent, s.head);
    } else if s.UploadIt? {
      UploadLeavesIndex(w.relay, s);
    }
  }

  lemma {:induction false} SendLeavesIndex(w: World, n: NodeName, fate: UploadFate, head: int)
    requires Enabled(w, DoSend(n, fate, head))
    ensures Sent(w, n, fate, head).relay.index == w.relay.index && Sent(w, n, fate, head).relay.noteAt == w.relay.noteAt
  {
  }

  lemma {:induction false} UploadLeavesIndex(r: State, s: Step)
    requires s.UploadIt?
    ensures Upload(r, s.user, s.to, s.toPath, s.data, s.head).index == r.index
    ensures Upload(r, s.user, s.to, s.toPath, s.data, s.head).noteAt == r.noteAt
  {
  }

  lemma {:induction false} NewsApply(w: World, n: NodeName, shelf: Shelf, path: Path, t: int)
    requires w.Wire(n) != [] && NotesPast(w) && !MayErase(w, ApplyOne(n), shelf, path, t)
    requires Listed(w.relay, shelf, path) && NotedAt(w.relay, shelf, t)
    ensures Listed(Applied(w, n).relay, shelf, path) && NotedAt(Applied(w, n).relay, shelf, t)
  {
  }

  /** In every run, a file that was noted at `t` and is no longer listed was taken out
      by a report from a walk that began no earlier than the note, by a report that
      leaves its account out, by a later removal of that very file, by its machine
      being forgotten -- or else the controller has restarted since. */
  lemma {:induction false} StaleReportsEraseNothing(ws: seq<World>, ss: seq<Step>, i: nat, k: nat, shelf: Shelf, path: Path, t: int)
    returns (j: nat)
    requires IsPath(ws, ss) && Initial(ws[0]) && i <= k < |ws|
    requires Listed(ws[i].relay, shelf, path) && NotedAt(ws[i].relay, shelf, t)
    requires !(Listed(ws[k].relay, shelf, path) && NotedAt(ws[k].relay, shelf, t))
    ensures i <= j < k && MayErase(ws[j], ss[j], shelf, path, t)
    decreases k - i
  {
    j := i;
    if !MayErase(ws[i], ss[i], shelf, path, t) {
      NotesPastOverRuns(ws, ss, i);
      assert Leads(ws, ss, i);
      NewsStep(ws[i], ss[i], shelf, path, t);
      j := StaleReportsEraseNothing(ws, ss, i + 1, k, shelf, path, t);
    }
  }

  /** The controller's own news is listed and noted at the time it was applied. */
  lemma {:induction false} NewsIsNoted(w: World, n: NodeName)
    requires w.Wire(n) != [] && Stored(w.relay, w.Wire(n)[0])
    ensures var o := w.Wire(n)[0];
            var t := w.relay.transfers[o.id];
            && Listed(Applied(w, n).relay, Shelf(t.toNode, t.user), t.toPath)
            && NotedAt(Applied(w, n).relay, Shelf(t.toNode, t.user), w.clock)
            && Listing(Applied(w, n).relay, Shelf(t.toNode, t.user))[t.toPath] == o.bytes
  {
  }

  predicate Stored(r: State, o: Outcome) {
    o.ok && o.kind == RecvKind && o.id in r.transfers
  }

  // ----- a report that does not say when its walk began -----

  /** The step applies an outcome that tells the controller of a file on the shelf. */
  ghost predicate NotesIt(w: World, s: Step, shelf: Shelf) {
    s.ApplyOne? && w.Wire(s.n) != []
    && var o := w.Wire(s.n)[0];
       && o.ok && o.id in w.relay.transfers
       && var t := w.relay.transfers[o.id];
          match o.kind
          case SendKind => false
          case RecvKind => shelf == Shelf(t.toNode, t.user)
          case RemoveKind => shelf == Shelf(t.fromNode, t.user)
  }

  lemma {:induction false} NotedStep(w: World, s: Step, shelf: Shelf)
    requires Enabled(w, s)
    ensures shelf in Next(w, s).relay.noteAt <==> NotesIt(w, s, shelf) || (shelf in w.relay.noteAt && !s.ControllerRestart?)
    ensures shelf in Next(w, s).relay.noteAt ==>
              Next(w, s).relay.noteAt[shelf] == if NotesIt(w, s, shelf) then w.clock else if shelf in w.relay.noteAt then w.relay.noteAt[shelf] else 0
  {
    if !s.StorageReport? && !s.ApplyOne? && !s.ForgetNode? && !s.ControllerRestart? {
      IndexUntouched(w, s);
    }
  }

  /** Something was noted on the shelf, and the controller has not restarted since. */
  ghost predicate NotedInThisLife(ws: seq<World>, ss: seq<Step>, i: nat, shelf: Shelf)
    requires |ws| == |ss| + 1 && i < |ws|
  {
    exists j :: 0 <= j < i && NotesIt(ws[j], ss[j], shelf) && NoRestart(ss, j, i)
  }

  ghost predicate NoRestart(ss: seq<Step>, j: nat, i: nat)
    requires i <= |ss|
  {
    forall m :: j < m < i ==> !ss[m].ControllerRestart?
  }

  lemma {:induction false} NotedIff(ws: seq<World>, ss: seq<Step>, i: nat, shelf: Shelf)
    requires IsPath(ws, ss) && Initial(ws[0]) && i < |ws|
    ensures shelf in ws[i].relay.noteAt <==> NotedInThisLife(ws, ss, i, shelf)
    ensures ws[i].clock > 0 && (shelf in ws[i].relay.noteAt ==> ws[i].relay.noteAt[shelf] > 0)
  {
    if i > 0 {
      NotedIff(ws, ss, i - 1, shelf);
      assert Leads(ws, ss, i - 1);
      NotedStep(ws[i - 1], ss[i - 1], shelf);
      NotedOneLater(ws, ss, i, shelf);
      ClockRuns(ws[i - 1], ss[i - 1]);
    }
  }

  lemma {:induction false} ClockRuns(w: World, s: Step)
    requires Enabled(w, s)
    ensures Next(w, s).clock >= w.clock
  {
  }

  lemma {:induction false} NotedOneLater(ws: seq<World>, ss: seq<Step>, i: nat, shelf: Shelf)
    requires |ws| == |ss| + 1 && 0 < i < |ws|
    ensures NotedInThisLife(ws, ss, i, shelf)
       <==> NotesIt(ws[i - 1], ss[i - 1], shelf) || (NotedInThisLife(ws, ss, i - 1, shelf) && !ss[i - 1].ControllerRestart?)
  {
  }

  /** A report whose agent does not say when the walk began counts as begun in 1970.  So in
      every run it replaces an account's listing, as a report of such an agent is meant to
      in any case, if and only if nothing was noted there since the controller started. */
  lemma {:induction false} UntimedReportIff(ws: seq<World>, ss: seq<Step>, i: nat, n: NodeName, reps: seq<UserReport>, user: string)
    requires IsPath(ws, ss) && Initial(ws[0]) && i < |ss| && ss[i] == StorageReport(n, 0, reps) && Names(reps, user)
    ensures Listing(ws[i + 1].relay, Shelf(n, user))
         == if NotedInThisLife(ws, ss, i, Shelf(n, user)) then Listing(ws[i].relay, Shelf(n, user)) else LastWord(reps, user).value
  {
    NotedIff(ws, ss, i, Shelf(n, user));
    assert Leads(ws, ss, i);
    ReportedShelf(ws[i].relay, n, reps, Millis(0), Shelf(n, user));
  }
}
