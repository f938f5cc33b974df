/** When a job's prerequisites are met, and when they never can be. */
module Prerequisites {
  import opened Paths
  import opened Protocol
  import opened Dependencies
  import Control

  type Store = map<int, JobState>

  datatype Answer =
    | Satisfied
    | Malformed
    | Missing(id: int)
    | Waiting(id: int)
    | Unsuccessful(id: int)
    | Successful(id: int)

  /** What a finished prerequisite must have done. */
  predicate Suits(kind: DepType, s: JobState) {
    match kind
    case AfterOK => s == Completed
    case AfterAny => true
    case AfterNotOK => s != Completed
  }

  predicate Met(d: Dep, store: Store) {
    d.id in store && store[d.id].Terminal() && Suits(d.kind, store[d.id])
  }

  /** A prerequisite that can no longer be met. */
  predicate Dead(d: Dep, store: Store) {
    d.id !in store || (store[d.id].Terminal() && !Suits(d.kind, store[d.id]))
  }

  ghost predicate AllMet(deps: seq<Dep>, store: Store) {
    forall d :: d in deps ==> Met(d, store)
  }

  /** Every edge is met, and read: a prerequisite that cannot be read passes for one that
      does not exist. */
  ghost predicate AllSeenMet(deps: seq<Dep>, store: Store, unread: set<nat>) {
    forall i :: 0 <= i < |deps| ==> Met(deps[i], store) && i !in unread
  }

  /** The answer names this edge, the first that is not met, or not read, and why. */
  ghost predicate FirstUnmet(deps: seq<Dep>, i: nat, a: Answer, store: Store, unread: set<nat>)
    requires i < |deps| && a != Satisfied && a != Malformed
  {
    var d := deps[i];
    && AllSeenMet(deps[..i], store, unread)
    && a.id == d.id && (i in unread || !Met(d, store))
    && (a.Missing? <==> i in unread || d.id !in store)
    && (a.Waiting? <==> i !in unread && d.id in store && !store[d.id].Terminal())
    && (a.Unsuccessful? ==> d.kind == AfterOK) && (a.Successful? ==> d.kind == AfterNotOK)
  }

  lemma {:induction false} StopsAt(deps: seq<Dep>, i: nat, a: Answer, store: Store, unread: set<nat>)
    requires i < |deps| && AllSeenMet(deps[..i], store, unread)
    requires var d := deps[i];
             if i in unread || d.id !in store then a == Missing(d.id)
             else if !store[d.id].Terminal() then a == Waiting(d.id)
             else || (d.kind == AfterOK && store[d.id] != Completed && a == Unsuccessful(d.id))
                  || (d.kind == AfterNotOK && store[d.id] == Completed && a == Successful(d.id))
    ensures a != Satisfied && a != Malformed && FirstUnmet(deps, i, a, store, unread) && !AllSeenMet(deps, store, unread)
  {
  }

  lemma {:induction false} GoesOn(deps: seq<Dep>, i: nat, store: Store, unread: set<nat>)
    requires i < |deps| && AllSeenMet(deps[..i], store, unread) && Met(deps[i], store) && i !in unread
    ensures AllSeenMet(deps[..i + 1], store, unread)
  {
  }

  /** Whether a job's expression holds now, and else what the first unmet edge waits for;
      `unread` are the edges whose prerequisite the store fails to give. */
  method DepsSatisfied(expr: string, store: Store, unread: set<nat>) returns (a: Answer)
    ensures a == Malformed <==> Parsed(expr).None?
    ensures a == Satisfied <==> Parsed(expr).Some? && AllSeenMet(Parsed(expr).value, store, unread)
    ensures a != Satisfied && a != Malformed ==>
              exists i :: 0 <= i < |Parsed(expr).value| && FirstUnmet(Parsed(expr).value, i, a, store, unread)
  {
    if expr == "" {
      return Satisfied;
    }
    var deps := ParseDependency(expr);
    if deps.None? {
      return Malformed;
    }
    for i := 0 to |deps.value|
      invariant AllSeenMet(deps.value[..i], store, unread)
    {
      var d := deps.value[i];
      if i in unread || d.id !in store {
        a := Missing(d.id);
        StopsAt(deps.value, i, a, store, unread);
        return;
      }
      var s := store[d.id];
      if !s.Terminal() {
        a := Waiting(d.id);
        StopsAt(deps.value, i, a, store, unread);
        return;
      }
      match d.kind {
        case AfterOK =>
          if s != Completed {
            a := Unsuccessful(d.id);
            StopsAt(deps.value, i, a, store, unread);
            return;
          }
        case AfterAny =>
        case AfterNotOK =>
          if s == Completed {
            a := Successful(d.id);
            StopsAt(deps.value, i, a, store, unread);
            return;
          }
      }
      GoesOn(deps.value, i, store, unread);
    }
    assert deps.value[..|deps.value|] == deps.value;
    return Satisfied;
  }

  ghost predicate NeverHolds(expr: string, store: Store) {
    Parsed(expr).None? || exists d :: d in Parsed(expr).value && Dead(d, store)
  }

  ghost predicate SomeUnread(expr: string, unread: set<nat>) {
    Parsed(expr).Some? && exists i :: 0 <= i < |Parsed(expr).value| && i in unread
  }

  /** The verdict of never: a prerequisite is dead, or the job is not found satisfied and
      a prerequisite that is read again is not got. */
  ghost predicate Declared(expr: string, store: Store, unread: set<nat>, again: set<nat>) {
    || NeverHolds(expr, store)
    || (!AllSeenMet(Parsed(expr).value, store, unread) && SomeUnread(expr, again))
  }

  /** The verdict with the question whether it can ever change: a job declared never is
      cancelled.  The prerequisites are read again for it. */
  method DepsSatisfiedEx(expr: string, store: Store, unread: set<nat>, again: set<nat>) returns (a: Answer, never: bool)
    ensures a == Satisfied <==> Parsed(expr).Some? && AllSeenMet(Parsed(expr).value, store, unread)
    ensures never <==> Declared(expr, store, unread, again)
  {
    a := DepsSatisfied(expr, store, unread);
    if a == Satisfied {
      forall d | d in Parsed(expr).value ensures !Dead(d, store) {
        var i :| 0 <= i < |Parsed(expr).value| && Parsed(expr).value[i] == d;
        assert Met(Parsed(expr).value[i], store);
      }
      return a, false;
    }
    var deps := ParseDependency(expr);
    if deps.None? {
      return a, true;
    }
    for i := 0 to |deps.value|
      invariant forall k :: 0 <= k < i ==> !Dead(deps.value[k], store) && k !in again
    {
      var d := deps.value[i];
      assert d in deps.value;
      if i in again {
        return a, true;
      }
      if d.id !in store {
        assert Dead(d, store);
        return a, true;
      }
      if store[d.id].Terminal() {
        match d.kind {
          case AfterOK =>
            if store[d.id] != Completed {
              return a, true;
            }
          case AfterAny =>
          case AfterNotOK =>
            if store[d.id] == Completed {
              return a, true;
            }
        }
      }
    }
    never := false;
  }

  /** A job is declared never without being so, and cancelled, exactly when the expression
      is well formed, no edge of it is dead, some edge is unmet or was not read, and
      reading some edge again fails. */
  lemma {:induction false} WronglyNeverIff(expr: string, store: Store, unread: set<nat>, again: set<nat>)
    ensures Declared(expr, store, unread, again) && !NeverHolds(expr, store)
       <==> && Parsed(expr).Some? && (forall d :: d in Parsed(expr).value ==> !Dead(d, store))
            && (exists i :: 0 <= i < |Parsed(expr).value| && (i in unread || !Met(Parsed(expr).value[i], store)))
            && (exists i :: 0 <= i < |Parsed(expr).value| && i in again)
  {
  }

  /** A job that waits for one that still runs is cancelled for one failed read, though
      what it waits for can still come. */
  lemma {:induction false} FailedReadCancels(expr: string, id: int, store: Store, self: int)
    requires Parsed(expr) == Some([Dep(AfterOK, id)]) && id != self
    requires id in store && store[id] == Running && self in store && store[self] == Pending
    ensures Declared(expr, store, {}, {0}) && !NeverHolds(expr, store) && CanHold(Parsed(expr).value, store, self, {})
  {
    var deps := Parsed(expr).value;
    assert deps[0] == Dep(AfterOK, id) && !Met(deps[0], store);
    NeverIsExact(deps, store, self, {});
  }

  // ----- the verdict against every later store -----

  /** A job that is over for good.  `correctable` are those whose end may yet be replaced by
      another: their machine was lost, and may report how they ended; or a request that
      read them before they were over has still to write. */
  predicate Fixed(store: Store, correctable: set<int>, id: int) {
    id in store && store[id].Terminal() && id !in correctable
  }

  /** A store some time later: nothing appears, nothing disappears, a job that is over
      stays over, and as it ended unless that is corrected; and the waiting job itself
      still waits. */
  ghost predicate Later(store: Store, later: Store, self: int, correctable: set<int>) {
    && later.Keys == store.Keys
    && (forall id :: Fixed(store, correctable, id) ==> later[id] == store[id])
    && (forall id :: id in store && store[id].Terminal() ==> later[id].Terminal())
    && (self in store ==> later[self] == store[self])
  }

  ghost predicate CanHold(deps: seq<Dep>, store: Store, self: int, correctable: set<int>) {
    exists later :: Later(store, later, self, correctable) && AllMet(deps, later)
  }

  /** A prerequisite that is missing, or is over for good in the wrong way. */
  predicate Lost(d: Dep, store: Store, correctable: set<int>) {
    d.id !in store || (Fixed(store, correctable, d.id) && !Suits(d.kind, store[d.id]))
  }

  /** A job that may yet end either way, and whose success and failure are both asked for. */
  ghost predicate Conflict(deps: seq<Dep>, store: Store, correctable: set<int>) {
    exists d, e :: d in deps && e in deps && d.id == e.id && d.kind == AfterOK && e.kind == AfterNotOK
                   && d.id in store && !Fixed(store, correctable, d.id)
  }

  ghost predicate SelfEdge(deps: seq<Dep>, self: int) {
    exists d :: d in deps && d.id == self
  }

  /** How the jobs that are not over for good would have to end. */
  ghost function Wished(deps: seq<Dep>, store: Store, self: int, correctable: set<int>): Store {
    map id | id in store ::
      if Fixed(store, correctable, id) || id == self then store[id]
      else if Dep(AfterNotOK, id) in deps then Failed else Completed
  }

  /** When the prerequisites of a waiting job can come to hold in some later store,
      corrections included: if and only if none is missing or over for good in the wrong
      way, none is the job itself, and of no job that may yet end either way both are
      asked.  Without corrections that is: none is dead. */
  lemma {:induction false} NeverIsExact(deps: seq<Dep>, store: Store, self: int, correctable: set<int>)
    requires self in store && store[self] == Pending
    ensures CanHold(deps, store, self, correctable)
       <==> (forall d :: d in deps ==> !Lost(d, store, correctable)) && !SelfEdge(deps, self) && !Conflict(deps, store, correctable)
    ensures forall d :: Lost(d, store, {}) <==> Dead(d, store)
  {
    if CanHold(deps, store, self, correctable) {
      var later :| Later(store, later, self, correctable) && AllMet(deps, later);
      forall d | d in deps ensures !Lost(d, store, correctable) && d.id != self {
        assert Met(d, later);
      }
    }
    if (forall d :: d in deps ==> !Lost(d, store, correctable)) && !SelfEdge(deps, self) && !Conflict(deps, store, correctable) {
      var later := Wished(deps, store, self, correctable);
      assert Later(store, later, self, correctable);
      forall d | d in deps ensures Met(d, later) {
        assert !Lost(d, store, correctable) && d.id != self;
        assert d == Dep(d.kind, d.id);
      }
    }
  }

  /** A verdict of never stays while nothing is corrected: no later store satisfies the
      expression. */
  lemma {:induction false} NeverIsSound(expr: string, store: Store, later: Store, self: int)
    requires NeverHolds(expr, store) && Later(store, later, self, {})
    ensures NeverHolds(expr, later) && (Parsed(expr).Some? ==> !AllMet(Parsed(expr).value, later))
  {
  }

  /** Otherwise it is undone in some later store, and its job was cancelled wrongly, if and
      only if every dead prerequisite is one whose end may be corrected, and nothing else
      stands in the way; where only failures may be, it is one that had to succeed. */
  lemma {:induction false} NeverUndoneIff(deps: seq<Dep>, store: Store, self: int, correctable: set<int>)
    requires self in store && store[self] == Pending
    ensures CanHold(deps, store, self, correctable)
       <==> && (forall d :: d in deps && Dead(d, store) ==> d.id in correctable && d.id in store)
            && !SelfEdge(deps, self) && !Conflict(deps, store, correctable)
    ensures forall d :: Dead(d, store) && d.id in correctable && d.id in store && store[d.id] == Failed ==> d.kind == AfterOK
  {
    NeverIsExact(deps, store, self, correctable);
    forall d | d in deps
      ensures !Lost(d, store, correctable) <==> (Dead(d, store) ==> d.id in correctable && d.id in store)
    {
    }
  }

  /** Which jobs those are: of the jobs that a report finds over, it changes the end of
      exactly the ones written off with their machine. */
  lemma {:induction false} CorrectableIff(jobs: map<JobId, Job>, id: JobId)
    requires id in jobs && jobs[id].state.Terminal()
    ensures (exists n, s :: Corrected(jobs, n, s, id)) <==> jobs[id].reason == NodeLost
  {
    if jobs[id].reason == NodeLost {
      var s := Status(id, if jobs[id].state == Completed then Failed else Completed, 0, false);
      assert Corrected(jobs, jobs[id].node, s, id);
    }
  }

  ghost predicate Corrected(jobs: map<JobId, Job>, n: NodeName, s: Status, id: JobId)
    requires id in jobs
  {
    var after := Control.ApplyReport(jobs, map[], n, s, Fine).0;
    id in after && after[id].state != jobs[id].state
  }
}
