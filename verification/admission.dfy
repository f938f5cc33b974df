/** Admission: which queued jobs an account's and the cluster's ceilings let start
    in this round, and that no run ever exceeds a ceiling. */
module Admission {
  import opened Lists
  import opened Paths
  import opened Protocol

  /** Whole mebibytes: the shift right by twenty, which rounds down. */
  function MiB(bytes: int): int { bytes / 0x10_0000 }

  datatype QueuedJob = QueuedJob(user: string, cpus: int, gpus: int, memBytes: int, state: JobState) {
    predicate Sane() { cpus >= 0 && gpus >= 0 && memBytes >= 0 }
  }

  datatype Usage = Usage(jobs: int, cpus: int, gpus: int, memMB: int) {
    function Plus(that: Usage): Usage {
      Usage(jobs + that.jobs, cpus + that.cpus, gpus + that.gpus, memMB + that.memMB)
    }

    predicate AtMost(that: Usage) {
      jobs <= that.jobs && cpus <= that.cpus && gpus <= that.gpus && memMB <= that.memMB
    }
  }

  const NOTHING := Usage(0, 0, 0, 0)

  /** A negative limit is no limit; zero allows nothing. */
  datatype Limits = Limits(
    submittedJobs: int, runningJobs: int, runningCPUs: int, runningGPUs: int, runningMemMB: int, diskMB: int)

  datatype Why = TooManyJobs | TooManyCPUs | TooManyGPUs | TooMuchMemory

  predicate Below(amount: int, limit: int) {
    limit >= 0 ==> amount <= limit
  }

  predicate Within(u: Usage, e: Limits) {
    Below(u.jobs, e.runningJobs) && Below(u.cpus, e.runningCPUs) && Below(u.gpus, e.runningGPUs) && Below(u.memMB, e.runningMemMB)
  }

  function Of(j: QueuedJob): Usage {
    Usage(1, j.cpus, j.gpus, MiB(j.memBytes))
  }

  /** The first limit that adding `want` would break. */
  function OverLimit(u: Usage, want: Usage, e: Limits): (why: Option<Why>)
    ensures why.None? <==> Within(u.Plus(want), e)
  {
    if e.runningJobs >= 0 && u.jobs + want.jobs > e.runningJobs then Some(TooManyJobs)
    else if e.runningCPUs >= 0 && u.cpus + want.cpus > e.runningCPUs then Some(TooManyCPUs)
    else if e.runningGPUs >= 0 && u.gpus + want.gpus > e.runningGPUs then Some(TooManyGPUs)
    else if e.runningMemMB >= 0 && u.memMB + want.memMB > e.runningMemMB then Some(TooMuchMemory)
    else None
  }

  datatype Who = Everyone | Account(user: string) {
    predicate Has(j: QueuedJob) { Everyone? || j.user == user }
  }

  /** The store lists everybody's jobs when it is asked for those of the empty name. */
  function Listing(user: string): Who {
    if user == "" then Everyone else Account(user)
  }

  function InUse(jobs: seq<QueuedJob>, who: Who): Usage {
    if jobs == [] then NOTHING
    else
      var j, before := jobs[|jobs| - 1], InUse(jobs[..|jobs| - 1], who);
      if j.state == Running && who.Has(j) then before.Plus(Of(j)) else before
  }

  method RunningUsage(jobs: seq<QueuedJob>, user: string) returns (u: Usage)
    ensures u == InUse(jobs, Listing(user))
  {
    u := NOTHING;
    for i := 0 to |jobs|
      invariant u == InUse(jobs[..i], Listing(user))
    {
      assert jobs[..i + 1][..i] == jobs[..i];
      var j := jobs[i];
      if (user == "" || j.user == user) && j.state == Running {
        u := Usage(u.jobs + 1, u.cpus + j.cpus, u.gpus + j.gpus, u.memMB + MiB(j.memBytes));
      }
    }
    assert jobs[..|jobs|] == jobs;
  }

  // ----- one round -----

  /** One account's books, as the round keeps them from its first read on. */
  datatype Book = Book(usage: Usage, limits: Limits, full: bool)

  /** What a round looks at: the store, everybody's limits, what the machines reported
      as stored, and whether the cluster's own usage could be read. */
  datatype Round = Round(
    jobs: seq<QueuedJob>, limits: string -> Limits, cluster: Limits, stored: string -> Option<int>, clusterFails: bool)
  {
    function ClusterBase(): Usage {
      if clusterFails then NOTHING else InUse(jobs, Everyone)
    }

    predicate OverDisk(user: string) {
      limits(user).diskMB >= 0 && stored(user).Some? && stored(user).value > limits(user).diskMB * 0x10_0000
    }

    function Start(user: string): Book {
      Book(InUse(jobs, Listing(user)), limits(user), OverDisk(user))
    }
  }

  datatype Verdict = Admitted | Unchecked | OverDisk | OverOwn(why: Why) | OverCluster(why: Why) {
    predicate Starts() { Admitted? || Unchecked? }
  }

  /** An account's books are read once, at its first job for which reading them works. */
  predicate Known(js: seq<QueuedJob>, fails: seq<bool>, user: string)
    requires |fails| == |js|
  {
    exists i :: 0 <= i < |js| && js[i].user == user && !fails[i]
  }

  /** A usage figure after the jobs admitted so far. */
  function Tally(base: Usage, js: seq<QueuedJob>, vs: seq<Verdict>, who: Who): Usage
    requires |vs| == |js|
  {
    if js == [] then base
    else
      var k := |js| - 1;
      var before := Tally(base, js[..k], vs[..k], who);
      if vs[k] == Admitted && who.Has(js[k]) then before.Plus(Of(js[k])) else before
  }

  /** What an account's books and the cluster's usage say about one more job. */
  function Weigh(book: Book, inUse: Usage, cluster: Limits, j: QueuedJob): Verdict {
    if book.full then OverDisk
    else
      var own := OverLimit(book.usage, Of(j), book.limits);
      if own.Some? then OverOwn(own.value)
      else
        var all := OverLimit(inUse, Of(j), cluster);
        if all.Some? then OverCluster(all.value) else Admitted
  }

  /** An account's books after the jobs admitted so far. */
  function BookAt(r: Round, js: seq<QueuedJob>, vs: seq<Verdict>, user: string): Book
    requires |vs| == |js|
  {
    var start := r.Start(user);
    start.(usage := Tally(start.usage, js, vs, Account(user)))
  }

  function Decide(r: Round, js: seq<QueuedJob>, vs: seq<Verdict>, j: QueuedJob): Verdict
    requires |vs| == |js|
  {
    Weigh(BookAt(r, js, vs, j.user), Tally(r.ClusterBase(), js, vs, Everyone), r.cluster, j)
  }

  function Verdicts(r: Round, js: seq<QueuedJob>, fails: seq<bool>): (vs: seq<Verdict>)
    requires |fails| == |js|
    ensures |vs| == |js|
  {
    if js == [] then []
    else
      var k := |js| - 1;
      var before := Verdicts(r, js[..k], fails[..k]);
      before + [if fails[k] && !Known(js[..k], fails[..k], js[k].user) then Unchecked else Decide(r, js[..k], before, js[k])]
  }

  lemma {:induction false} VerdictsGrow(r: Round, js: seq<QueuedJob>, fails: seq<bool>, j: QueuedJob, f: bool)
    requires |fails| == |js|
    ensures Verdicts(r, js + [j], fails + [f])
         == Verdicts(r, js, fails)
          + [if f && !Known(js, fails, j.user) then Unchecked else Decide(r, js, Verdicts(r, js, fails), j)]
  {
  }

  /** Where the jobs that may start are in the queue. */
  function Picked(vs: seq<Verdict>): seq<nat> {
    if vs == [] then []
    else
      var k := |vs| - 1;
      if vs[k].Starts() then Picked(vs[..k]) + [k] else Picked(vs[..k])
  }

  /** The round keeps the queue's order. */
  lemma {:induction false} PickedInOrder(vs: seq<Verdict>)
    ensures forall i :: i in Picked(vs) <==> 0 <= i < |vs| && vs[i].Starts()
    ensures forall a, b :: 0 <= a < b < |Picked(vs)| ==> Picked(vs)[a] < Picked(vs)[b]
  {
    if vs != [] {
      var k := |vs| - 1;
      PickedInOrder(vs[..k]);
      forall a | 0 <= a < |Picked(vs[..k])| ensures Picked(vs[..k])[a] < k {
        assert Picked(vs[..k])[a] in Picked(vs[..k]);
      }
    }
  }

  lemma {:induction false} KnownGrows(js: seq<QueuedJob>, fails: seq<bool>, j: QueuedJob, f: bool, user: string)
    requires |fails| == |js|
    ensures Known(js + [j], fails + [f], user) <==> Known(js, fails, user) || (j.user == user && !f)
  {
    var js', fails' := js + [j], fails + [f];
    if Known(js, fails, user) {
      var m :| 0 <= m < |js| && js[m].user == user && !fails[m];
      assert js'[m].user == user && !fails'[m];
    }
    if j.user == user && !f {
      assert js'[|js|].user == user && !fails'[|js|];
    }
  }

  lemma {:induction false} TallyGrows(base: Usage, js: seq<QueuedJob>, vs: seq<Verdict>, j: QueuedJob, v: Verdict, who: Who)
    requires |vs| == |js|
    ensures Tally(base, js + [j], vs + [v], who)
         == if v == Admitted && who.Has(j) then Tally(base, js, vs, who).Plus(Of(j)) else Tally(base, js, vs, who)
  {
  }

  /** One account's books as the round has them: absent until they are first read. */
  ghost predicate BookOk(r: Round, js: seq<QueuedJob>, fails: seq<bool>, vs: seq<Verdict>, books: map<string, Book>, user: string)
    requires |fails| == |vs| == |js|
  {
    && (user in books <==> Known(js, fails, user))
    && BookAt(r, js, vs, user) == if user in books then books[user] else r.Start(user)
  }

  /** What the round does to the books at a job of `owner`. */
  ghost predicate Kept(start: Book, read: bool, admitted: bool, want: Usage, books: map<string, Book>, books': map<string, Book>, owner: string) {
    && (owner in books' <==> owner in books || read)
    && (admitted ==> owner in books')
    && var was := if owner in books then books[owner] else start;
       books' == (if owner in books' then books[owner := if admitted then was.(usage := was.usage.Plus(want)) else was] else books)
  }

  lemma {:induction false} BookGrows(r: Round, js: seq<QueuedJob>, fails: seq<bool>, vs: seq<Verdict>,
                                     j: QueuedJob, f: bool, v: Verdict, books: map<string, Book>, books': map<string, Book>, user: string)
    requires |fails| == |vs| == |js| && BookOk(r, js, fails, vs, books, user)
    requires Kept(r.Start(j.user), !f, v == Admitted, Of(j), books, books', j.user)
    ensures BookOk(r, js + [j], fails + [f], vs + [v], books', user)
  {
    KnownGrows(js, fails, j, f, user);
    TallyGrows(r.Start(user).usage, js, vs, j, v, Account(user));
  }

  ghost predicate BooksOk(r: Round, js: seq<QueuedJob>, fails: seq<bool>, vs: seq<Verdict>, books: map<string, Book>)
    requires |fails| == |vs| == |js|
  {
    forall user: string :: BookOk(r, js, fails, vs, books, user)
  }

  lemma {:induction false} BooksGrow(r: Round, js: seq<QueuedJob>, fails: seq<bool>, vs: seq<Verdict>,
                                     j: QueuedJob, f: bool, v: Verdict, books: map<string, Book>, books': map<string, Book>)
    requires |fails| == |vs| == |js| && BooksOk(r, js, fails, vs, books)
    requires Kept(r.Start(j.user), !f, v == Admitted, Of(j), books, books', j.user)
    ensures BooksOk(r, js + [j], fails + [f], vs + [v], books')
  {
    forall user: string ensures BookOk(r, js + [j], fails + [f], vs + [v], books', user) {
      assert BookOk(r, js, fails, vs, books, user);
      BookGrows(r, js, fails, vs, j, f, v, books, books', user);
    }
  }

  lemma {:induction false} NothingYet(r: Round, js: seq<QueuedJob>, fails: seq<bool>)
    requires js == [] && fails == []
    ensures Verdicts(r, js, fails) == [] && BooksOk(r, js, fails, [], map[])
    ensures Tally(r.ClusterBase(), js, [], Everyone) == r.ClusterBase()
  {
  }

  lemma {:induction false} PickedGrows(vs: seq<Verdict>, v: Verdict)
    ensures Picked(vs + [v]) == if v.Starts() then Picked(vs) + [|vs|] else Picked(vs)
  {
  }

  /** One job of the round. */
  method AdmitOne(r: Round, ghost js: seq<QueuedJob>, ghost fails: seq<bool>, ghost vs: seq<Verdict>, j: QueuedJob, f: bool,
                  books: map<string, Book>, cluster: Usage)
    returns (verdict: Verdict, books': map<string, Book>, cluster': Usage)
    requires |fails| == |vs| == |js| && BookOk(r, js, fails, vs, books, j.user)
    requires cluster == Tally(r.ClusterBase(), js, vs, Everyone)
    ensures verdict == if f && !Known(js, fails, j.user) then Unchecked else Decide(r, js, vs, j)
    ensures Kept(r.Start(j.user), !f, verdict == Admitted, Of(j), books, books', j.user)
    ensures cluster' == if verdict == Admitted then cluster.Plus(Of(j)) else cluster
  {
    verdict, books', cluster' := Unchecked, books, cluster;
    if j.user in books || !f {
      var book: Book;
      if j.user in books {
        book := books[j.user];
      } else {
        var u := RunningUsage(r.jobs, j.user);
        book := Book(u, r.limits(j.user), r.OverDisk(j.user));
      }
      verdict := Weigh(book, cluster, r.cluster, j);
      if verdict == Admitted {
        book := book.(usage := book.usage.Plus(Of(j)));
        cluster' := cluster.Plus(Of(j));
      }
      books' := books[j.user := book];
    }
  }

  /** The round: one pass over the queue, with each account's books cached.
      `fails[i]` says that reading them would fail at job `i`. */
  method AdmitForQoS(r: Round, js: seq<QueuedJob>, fails: seq<bool>) returns (out: seq<nat>, reasons: seq<Verdict>)
    requires |fails| == |js|
    ensures reasons == Verdicts(r, js, fails)
    ensures out == Picked(reasons)
  {
    var books: map<string, Book> := map[];
    var cluster := NOTHING;
    if !r.clusterFails {
      cluster := RunningUsage(r.jobs, "");
    }
    out, reasons := [], [];
    NothingYet(r, js[..0], fails[..0]);
    for i := 0 to |js|
      invariant |reasons| == i && reasons == Verdicts(r, js[..i], fails[..i]) && out == Picked(reasons)
      invariant BooksOk(r, js[..i], fails[..i], reasons, books)
      invariant cluster == Tally(r.ClusterBase(), js[..i], reasons, Everyone)
    {
      ghost var had, before := books, reasons;
      var verdict;
      assert BookOk(r, js[..i], fails[..i], reasons, books, js[i].user);
      verdict, books, cluster := AdmitOne(r, js[..i], fails[..i], reasons, js[i], fails[i], books, cluster);
      reasons := reasons + [verdict];
      if verdict.Starts() {
        out := out + [i];
      }
      BooksGrow(r, js[..i], fails[..i], before, js[i], fails[i], verdict, had, books);
      VerdictsGrow(r, js[..i], fails[..i], js[i], fails[i]);
      TallyGrows(r.ClusterBase(), js[..i], before, js[i], verdict, Everyone);
      PickedGrows(before, verdict);
      OneMore(js, i);
      OneMore(fails, i);
    }
    All(js);
    All(fails);
  }
}
