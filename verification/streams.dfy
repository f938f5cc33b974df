/** One interactive session as the controller holds it, and the node that follows the
    size of its user's window. */
module Streams {
  import opened Paths

  datatype Winsize = Winsize(rows: nat, cols: nat, xpixel: nat, ypixel: nat) {
    predicate Known() { rows > 0 && cols > 0 }
  }

  const NO_SIZE := Winsize(0, 0, 0, 0)

  /** The session's state.  `sizes` is history, every size in the order it was set;
      `closes` counts how often the channel `done` was closed, which must not happen twice. */
  datatype Stream = Stream(
    owner: string, registered: bool, clientAttached: bool, nodeAttached: bool,
    size: Winsize, sizeVer: nat, exited: bool, exit: int, closes: nat, sizes: seq<Winsize>)

  function Opened(owner: string): Stream {
    Stream(owner, true, false, false, NO_SIZE, 0, false, 0, 0, [])
  }

  /** What a caller finds under the session's number; an empty name is a node's. */
  predicate Finds(s: Stream, user: string) {
    s.registered && (user == "" || user == s.owner)
  }

  /** The part of SetStreamSize under the session's lock. */
  function SetSize(s: Stream, ws: Winsize): Stream {
    if !ws.Known() || s.size == ws then s
    else s.(size := ws, sizeVer := s.sizeVer + 1, sizes := s.sizes + [ws])
  }

  function Finish(s: Stream, code: int): Stream {
    if s.exited then s else s.(exit := code, exited := true, closes := s.closes + 1)
  }

  function Close(s: Stream): Stream {
    if s.exited then s else s.(exited := true, closes := s.closes + 1)
  }

  function AttachClient(s: Stream, user: string): (Stream, bool) {
    if !Finds(s, user) || s.clientAttached then (s, false) else (s.(clientAttached := true), true)
  }

  function AttachNode(s: Stream): (Stream, bool) {
    if !s.registered || s.nodeAttached then (s, false) else (s.(nodeAttached := true), true)
  }

  /** A node's long poll: asked, waiting for something newer, answered. */
  datatype Poll =
    | NoPoll
    | Asked(since: nat)                 // not looked at yet
    | Waits(since: nat)                 // found nothing newer, and waits on the channel
    | News(size: Winsize, ver: nat)     // answered with a newer size
    | Nothing(since: nat, unknown: bool) // answered without one, perhaps for want of a session
    | Broken                            // the request failed

  /** The node's side.  `versions` is history: the version of every size applied. */
  datatype Follower = Follower(ver: nat, applied: seq<Winsize>, versions: seq<nat>, poll: Poll)

  const FOLLOWING := Follower(0, [], [], NoPoll)

  /** One look of WatchStreamSize at the session. */
  function Look(s: Stream, p: Poll): Poll
    requires p.Asked? || p.Waits?
  {
    if s.sizeVer > p.since then News(s.size, s.sizeVer) else Waits(p.since)
  }

  /** What followSize does with an answer. */
  function Take(f: Follower): Follower {
    var g := f.(poll := NoPoll);
    if f.poll.News? && f.poll.ver > f.ver then
      if f.poll.size.Known()
      then g.(ver := f.poll.ver, applied := f.applied + [f.poll.size], versions := f.versions + [f.poll.ver])
      else g.(ver := f.poll.ver)
    else g
  }

  class Session {
    const owner: string
    var registered: bool
    var clientAttached: bool
    var nodeAttached: bool
    var size: Winsize
    var sizeVer: nat
    var exited: bool
    var exit: int
    ghost var closes: nat
    ghost var sizes: seq<Winsize>

    ghost function Value(): Stream
      reads this
    {
      Stream(owner, registered, clientAttached, nodeAttached, size, sizeVer, exited, exit, closes, sizes)
    }

    constructor (user: string)
      ensures Value() == Opened(user)
    {
      owner := user;
      registered, clientAttached, nodeAttached := true, false, false;
      size, sizeVer, exited, exit := NO_SIZE, 0, false, 0;
      closes, sizes := 0, [];
    }

    method SetStreamSize(user: string, ws: Winsize) returns (ok: bool)
      modifies this
      ensures ok == (Finds(old(Value()), user) && ws.Known())
      ensures Value() == if ok then SetSize(old(Value()), ws) else old(Value())
    {
      if !registered || (user != "" && user != owner) || !ws.Known() {
        return false;
      }
      if size != ws {
        size := ws;
        sizeVer := sizeVer + 1;
        sizes := sizes + [ws];
      }
      ok := true;
    }

    method FinishStream(code: int)
      modifies this
      ensures Value() == Finish(old(Value()), code)
    {
      if !exited {
        exit, exited := code, true;
        closes := closes + 1;
      }
    }

    method CloseStream()
      modifies this
      ensures Value() == Close(old(Value()))
    {
      if !exited {
        exited := true;
        closes := closes + 1;
      }
    }

    method Attach(user: string) returns (ok: bool)
      modifies this`clientAttached
      ensures (Value(), ok) == AttachClient(old(Value()), user)
    {
      if !registered || (user != "" && user != owner) || clientAttached {
        return false;
      }
      clientAttached := true;
      ok := true;
    }

    method AttachFromNode() returns (ok: bool)
      modifies this`nodeAttached
      ensures (Value(), ok) == AttachNode(old(Value()))
    {
      if !registered || nodeAttached {
        return false;
      }
      nodeAttached := true;
      ok := true;
    }
  }
}

/** The node's side of that: a loop that polls for the size and applies it. */
module SizeFollower {
  import opened Streams

  class SizeLoop {
    var ver: nat
    var applied: seq<Winsize>      // what the terminal was resized to, in order
    ghost var versions: seq<nat>

    ghost function Value(p: Poll): Follower
      reads this
    {
      Follower(ver, applied, versions, p)
    }

    constructor ()
      ensures Value(NoPoll) == FOLLOWING
    {
      ver, applied, versions := 0, [], [];
    }

    /** One turn of the loop: the poll asked with the version in hand came back. */
    method Turn(answer: Poll) returns (retryAtOnce: bool)
      modifies this
      ensures Value(NoPoll) == Take(old(Value(answer)))
      ensures retryAtOnce <==> ver > old(ver)
    {
      retryAtOnce := false;
      if answer.News? && answer.ver > ver {
        ver := answer.ver;
        if answer.size.Known() {
          applied := applied + [answer.size];
          versions := versions + [answer.ver];
        }
        retryAtOnce := true;
      }
    }
  }
}

/** The session under every interleaving of its callers. */
module SizeChannel {
  import opened Paths
  import opened Streams

  /** `finishing` and `closing` are callers that looked the session up and have yet to
      act on it; `first` is history: the first exit code recorded by a finish; `clients`
      and `nodes` count the attachments granted. */
  datatype World = World(
    s: Stream, f: Follower, setting: multiset<Winsize>, finishing: multiset<int>, closing: nat,
    first: Option<int>, clients: nat, nodes: nat)

  function Start(owner: string): World {
    World(Opened(owner), FOLLOWING, multiset{}, multiset{}, 0, None, 0, 0)
  }

  datatype Step =
    | AskSize(user: string, ws: Winsize)  // a resize looks the session up ...
    | SetIt(ws: Winsize)                  // ... and changes it
    | AskFinish(code: int)
    | FinishIt(code: int)
    | AskClose
    | CloseIt
    | Client(user: string)
    | Node
    | PollStart
    | PollLook                            // the controller looks at the poll: found, or unknown
    | PollGivesUp                         // the wait times out, or the session ends
    | PollBreaks
    | PollTaken

  ghost predicate Enabled(w: World, step: Step) {
    match step
    case SetIt(ws) => ws in w.setting
    case FinishIt(code) => code in w.finishing
    case CloseIt => w.closing > 0
    case PollStart => w.f.poll.NoPoll?
    case PollLook => w.f.poll.Asked? || w.f.poll.Waits?
    case PollGivesUp => w.f.poll.Waits?
    case PollBreaks => !w.f.poll.NoPoll?
    case PollTaken => w.f.poll.News? || w.f.poll.Nothing? || w.f.poll.Broken?
    case _ => true
  }

  ghost function Next(w: World, step: Step): World
    requires Enabled(w, step)
  {
    match step
    case AskSize(user, ws) => if Finds(w.s, user) && ws.Known() then w.(setting := w.setting + multiset{ws}) else w
    case SetIt(ws) => w.(s := SetSize(w.s, ws), setting := w.setting - multiset{ws})
    case AskFinish(code) => if w.s.registered then w.(finishing := w.finishing + multiset{code}) else w
    case FinishIt(code) =>
      w.(s := Finish(w.s, code), finishing := w.finishing - multiset{code}, first := if w.first.None? then Some(code) else w.first)
    case AskClose => if w.s.registered then w.(s := w.s.(registered := false), closing := w.closing + 1) else w
    case CloseIt => w.(s := Close(w.s), closing := w.closing - 1)
    case Client(user) => var (s, ok) := AttachClient(w.s, user); w.(s := s, clients := w.clients + if ok then 1 else 0)
    case Node => var (s, ok) := AttachNode(w.s); w.(s := s, nodes := w.nodes + if ok then 1 else 0)
    case PollStart => w.(f := w.f.(poll := Asked(w.f.ver)))
    case PollLook =>
      // An unknown session is noticed only when the poll arrives.
      if w.f.poll.Asked? && !w.s.registered then w.(f := w.f.(poll := Nothing(w.f.poll.since, true)))
      else w.(f := w.f.(poll := Look(w.s, w.f.poll)))
    case PollGivesUp => w.(f := w.f.(poll := Nothing(w.f.poll.since, false)))
    case PollBreaks => w.(f := w.f.(poll := Broken))
    case PollTaken => w.(f := Take(w.f))
  }

  ghost predicate IsRun(owner: string, ws: seq<World>, steps: seq<Step>) {
    && |ws| == |steps| + 1 && ws[0] == Start(owner)
    && forall i :: 0 <= i < |steps| ==> Enabled(ws[i], steps[i]) && ws[i + 1] == Next(ws[i], steps[i])
  }

  // ----- the size -----

  /** The version counts the sizes that were set, each different from the one before. */
  ghost predicate Counted(s: Stream) {
    && s.sizeVer == |s.sizes|
    && s.size == (if s.sizes == [] then NO_SIZE else s.sizes[|s.sizes| - 1])
    && (forall i :: 0 <= i < |s.sizes| ==> s.sizes[i].Known())
    && (forall i :: 0 <= i < |s.sizes| - 1 ==> s.sizes[i] != s.sizes[i + 1])
  }

  ghost predicate Answered(s: Stream, p: Poll) {
    p.News? ==> 1 <= p.ver <= |s.sizes| && p.size == s.sizes[p.ver - 1]
  }

  /** Where in the history the applied sizes are. */
  ghost predicate Applied(s: Stream, f: Follower) {
    && InHistory(s.sizes, f.applied, f.versions, f.ver)
    && (f.ver > 0 ==> f.versions != [] && f.versions[|f.versions| - 1] == f.ver)
    && (f.poll.Asked? || f.poll.Waits? ==> f.poll.since == f.ver)
  }

  ghost predicate SizeInv(w: World) {
    && Counted(w.s) && Answered(w.s, w.f.poll) && Applied(w.s, w.f)
    && forall ws :: ws in w.setting ==> ws.Known()
  }

  lemma {:induction false} SetKeeps(w: World, ws: Winsize)
    requires SizeInv(w) && ws.Known()
    ensures var s := SetSize(w.s, ws); Counted(s) && Answered(s, w.f.poll) && Applied(s, w.f)
  {
  }

  /** The sizes applied at these versions are those of the history, in order. */
  ghost predicate InHistory(sizes: seq<Winsize>, applied: seq<Winsize>, versions: seq<nat>, ver: nat) {
    && |versions| == |applied| && ver <= |sizes|
    && (forall i :: 0 <= i < |versions| ==> 1 <= versions[i] <= ver && applied[i] == sizes[versions[i] - 1])
    && (forall i, j :: 0 <= i < j < |versions| ==> versions[i] < versions[j])
  }

  lemma {:induction false} TakeKeeps(s: Stream, f: Follower)
    requires Counted(s) && Answered(s, f.poll) && Applied(s, f)
    ensures Applied(s, Take(f))
  {
  }

  /** A step that sets no size and takes no answer. */
  lemma {:induction false} OtherKeeps(s: Stream, s': Stream, f: Follower, p: Poll)
    requires Counted(s) && Applied(s, f)
    requires s'.size == s.size && s'.sizeVer == s.sizeVer && s'.sizes == s.sizes
    requires p.Asked? || p.Waits? ==> p.since == f.ver
    requires p.News? && p != f.poll ==> p == News(s.size, s.sizeVer) && s.sizeVer > f.ver
    requires Answered(s, f.poll)
    ensures Counted(s') && Applied(s', f.(poll := p)) && Answered(s', p)
  {
  }

  lemma {:induction false} SizeStep(w: World, step: Step)
    requires SizeInv(w) && Enabled(w, step)
    ensures SizeInv(Next(w, step))
  {
    var w' := Next(w, step);
    match step
    case SetIt(ws) => SetKeeps(w, ws);
    case PollTaken => TakeKeeps(w.s, w.f);
    case AskSize(user, ws) => assert w'.s == w.s && w'.f == w.f;
    case _ =>
      OtherShape(w, step);
      OtherKeeps(w.s, w'.s, w.f, w'.f.poll);
  }

  lemma {:induction false} OtherShape(w: World, step: Step)
    requires Enabled(w, step) && !step.SetIt? && !step.PollTaken? && !step.AskSize?
    requires w.f.poll.Asked? || w.f.poll.Waits? ==> w.f.poll.since == w.f.ver
    ensures var w' := Next(w, step);
            && w'.setting == w.setting && w'.s == w.s.(registered := w'.s.registered, exited := w'.s.exited, exit := w'.s.exit,
                 closes := w'.s.closes, clientAttached := w'.s.clientAttached, nodeAttached := w'.s.nodeAttached)
            && w'.f == w.f.(poll := w'.f.poll)
            && (w'.f.poll.Asked? || w'.f.poll.Waits? ==> w'.f.poll.since == w.f.ver)
            && (w'.f.poll.News? ==> w'.f.poll == w.f.poll || (w'.f.poll == News(w.s.size, w.s.sizeVer) && w.s.sizeVer > w.f.ver))
  {
  }

  /** The version rises exactly when the size changes. */
  lemma {:induction false} VersionRisesIff(w: World, step: Step)
    requires SizeInv(w) && Enabled(w, step)
    ensures Next(w, step).s.sizeVer == w.s.sizeVer + (if Next(w, step).s.size != w.s.size then 1 else 0)
  {
  }

  lemma {:induction false} SizeOverRuns(owner: string, ws: seq<World>, steps: seq<Step>, i: nat)
    requires IsRun(owner, ws, steps) && i < |ws|
    ensures SizeInv(ws[i])
  {
    if i > 0 {
      SizeOverRuns(owner, ws, steps, i - 1);
      SizeStep(ws[i - 1], steps[i - 1]);
    }
  }

  /** In every run, the sizes the node applies are a subsequence of those that were set:
      each at its place in the history, in order, none twice. */
  lemma {:induction false} AppliedAreASubsequence(owner: string, ws: seq<World>, steps: seq<Step>, i: nat)
    requires IsRun(owner, ws, steps) && i < |ws|
    ensures var (s, f) := (ws[i].s, ws[i].f);
            && |f.versions| == |f.applied|
            && (forall k :: 0 <= k < |f.applied| ==> 1 <= f.versions[k] <= |s.sizes| && f.applied[k] == s.sizes[f.versions[k] - 1])
            && (forall j, k :: 0 <= j < k < |f.applied| ==> f.versions[j] < f.versions[k])
  {
    SizeOverRuns(owner, ws, steps, i);
  }

  /** A poll that was asked after the last change. */
  ghost predicate AskedLate(w: World) {
    var p, s := w.f.poll, w.s;
    match p
    case NoPoll => false
    case Asked(since) => true
    case Waits(since) => since == s.sizeVer
    case News(size, ver) => ver == s.sizeVer
    case Nothing(since, unknown) => unknown || (since == s.sizeVer && w.f.ver == since)
    case Broken => true
  }

  lemma {:induction false} LateStep(w: World, step: Step)
    requires SizeInv(w) && Enabled(w, step) && AskedLate(w) && !step.SetIt? && !step.PollTaken?
    ensures AskedLate(Next(w, step))
  {
  }

  /** After the last change, the next poll the node makes brings it up to date: when its
      answer arrives -- and is not "no such session" or a failure -- the node has the
      final version, and the last size it applied is the final one. */
  lemma {:induction false} NoFinalSizeLost(owner: string, ws: seq<World>, steps: seq<Step>, i: nat, k: nat)
    requires IsRun(owner, ws, steps) && i < k < |steps|
    requires steps[i] == PollStart && steps[k] == PollTaken
    requires forall j :: i <= j < k ==> !steps[j].SetIt? && (j > i ==> !steps[j].PollTaken?)
    requires !ws[k].f.poll.Broken? && !(ws[k].f.poll.Nothing? && ws[k].f.poll.unknown)
    ensures var (s, f) := (ws[k + 1].s, ws[k + 1].f);
            f.ver == s.sizeVer && (s.sizes != [] ==> f.applied != [] && f.applied[|f.applied| - 1] == s.size)
  {
    LateUntil(owner, ws, steps, i, k);
    SizeOverRuns(owner, ws, steps, k);
    SizeOverRuns(owner, ws, steps, k + 1);
  }

  lemma {:induction false} LateUntil(owner: string, ws: seq<World>, steps: seq<Step>, i: nat, k: nat)
    requires IsRun(owner, ws, steps) && i < k < |steps|
    requires steps[i] == PollStart && forall j :: i <= j < k ==> !steps[j].SetIt? && (j > i ==> !steps[j].PollTaken?)
    ensures AskedLate(ws[k])
    decreases k
  {
    if k > i + 1 {
      LateUntil(owner, ws, steps, i, k - 1);
      SizeOverRuns(owner, ws, steps, k - 1);
      LateStep(ws[k - 1], steps[k - 1]);
    }
  }

  // ----- the end -----

  ghost predicate EndInv(w: World) {
    && w.s.closes == (if w.s.exited then 1 else 0)
    && (w.s.registered ==> w.closing == 0) && w.closing <= 1
    && (!w.s.registered && w.closing == 0 ==> w.s.exited)
    && (w.s.registered ==> w.s.exited == w.first.Some?)
    && (w.s.registered && w.s.exited ==> w.first == Some(w.s.exit))
    && w.clients == (if w.s.clientAttached then 1 else 0)
    && w.nodes == (if w.s.nodeAttached then 1 else 0)
  }

  lemma {:induction false} FinishOrClose(w: World, step: Step)
    requires EndInv(w) && Enabled(w, step) && (step.FinishIt? || step.AskClose? || step.CloseIt?)
    ensures EndInv(Next(w, step))
    ensures w.s.exited ==> Next(w, step).s.exited && Next(w, step).s.exit == w.s.exit
  {
  }

  /** No other step touches how the session ends. */
  lemma {:induction false} Elsewhere(w: World, step: Step)
    requires Enabled(w, step) && !step.FinishIt? && !step.AskClose? && !step.CloseIt?
    ensures var (s, t) := (w.s, Next(w, step).s);
            t.exited == s.exited && t.exit == s.exit && t.closes == s.closes && t.registered == s.registered
    ensures Next(w, step).closing == w.closing && Next(w, step).first == w.first
    ensures Next(w, step).clients - w.clients == (if Next(w, step).s.clientAttached && !w.s.clientAttached then 1 else 0)
    ensures Next(w, step).nodes - w.nodes == (if Next(w, step).s.nodeAttached && !w.s.nodeAttached then 1 else 0)
    ensures w.s.clientAttached ==> Next(w, step).s.clientAttached
    ensures w.s.nodeAttached ==> Next(w, step).s.nodeAttached
  {
    if !step.Client? && !step.Node? {
      NobodyAttached(w, step);
    }
  }

  lemma {:induction false} NobodyAttached(w: World, step: Step)
    requires Enabled(w, step) && !step.FinishIt? && !step.AskClose? && !step.CloseIt? && !step.Client? && !step.Node?
    ensures Next(w, step).s == w.s.(size := Next(w, step).s.size, sizeVer := Next(w, step).s.sizeVer, sizes := Next(w, step).s.sizes)
    ensures Next(w, step).closing == w.closing && Next(w, step).first == w.first
    ensures Next(w, step).clients == w.clients && Next(w, step).nodes == w.nodes
  {
  }

  lemma {:induction false} EndStep(w: World, step: Step)
    requires EndInv(w) && Enabled(w, step)
    ensures EndInv(Next(w, step))
    ensures w.s.exited ==> Next(w, step).s.exited && Next(w, step).s.exit == w.s.exit
  {
    if step.FinishIt? || step.AskClose? || step.CloseIt? {
      FinishOrClose(w, step);
    } else {
      Elsewhere(w, step);
    }
  }

  /** In every run, for every interleaving of finishes and closes: `done` is closed at
      most once, and exactly once by the time the session is out of the registry and
      nobody still has to close it; while the session is registered the exit code is that of the first finish; and at most one terminal and
      one node are ever attached. */
  lemma {:induction false} EndsOnce(owner: string, ws: seq<World>, steps: seq<Step>, i: nat)
    requires IsRun(owner, ws, steps) && i < |ws|
    ensures EndInv(ws[i]) && ws[i].clients <= 1 && ws[i].nodes <= 1
  {
    if i > 0 {
      EndsOnce(owner, ws, steps, i - 1);
      EndStep(ws[i - 1], steps[i - 1]);
    }
  }

  /** An exit code, once recorded, stays. */
  lemma {:induction false} ExitStays(owner: string, ws: seq<World>, steps: seq<Step>, i: nat, k: nat)
    requires IsRun(owner, ws, steps) && i <= k < |ws| && ws[i].s.exited
    ensures ws[k].s.exited && ws[k].s.exit == ws[i].s.exit
    decreases k
  {
    if i < k {
      ExitStays(owner, ws, steps, i, k - 1);
      EndsOnce(owner, ws, steps, k - 1);
      EndStep(ws[k - 1], steps[k - 1]);
    }
  }
}
