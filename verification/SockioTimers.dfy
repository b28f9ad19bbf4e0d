/** Waiting messages and running timer jobs correspond one to one, and every job that is stopped was running. */
module SockioTimers {
  import opened Common
  import opened SockioSpec

  function Owns<U>(w: WaitReq<U>, j: Job): nat {
    if w.job == Some(j.jid) && w.id == j.owner then 1 else 0
  }

  /** How many of these messages a job belongs to. */
  function Owners<U>(ws: seq<WaitReq<U>>, j: Job): nat {
    if ws == [] then 0 else Owners(ws[..|ws| - 1], j) + Owns(ws[|ws| - 1], j)
  }

  predicate DistinctJobs(jobs: seq<Job>) {
    forall i, j :: 0 <= i < j < |jobs| ==> jobs[i].jid != jobs[j].jid
  }

  /**
   Each waiting message, queued or still on the port, that has a job owns exactly one running job, which points
   back to it; and there are no other running jobs.
   */
  ghost predicate JobsMatch<U>(s: Sio<U>) {
    && (forall j: Job :: Owners(s.wait, j) + Owners(WaitsOf(s.port), j) == if j in s.jobs then 1 else 0)
    && DistinctJobs(s.jobs)
    && (forall i :: 0 <= i < |s.jobs| ==> s.jobs[i].jid < s.nextJob)
  }

  lemma {:induction false} OwnersConcat<U>(a: seq<WaitReq<U>>, b: seq<WaitReq<U>>, j: Job)
    ensures Owners(a + b, j) == Owners(a, j) + Owners(b, j)
  {
    if b == [] {
      assert a + b == a;
    } else {
      var n := |b| - 1;
      OwnersConcat(a, b[..n], j);
      assert (a + b)[..|a + b| - 1] == a + b[..n];
    }
  }

  lemma OwnersOne<U>(w: WaitReq<U>, j: Job)
    ensures Owners([w], j) == Owns(w, j)
  {
    assert [w][..0] == [];
  }

  lemma OwnersRemove<U>(ws: seq<WaitReq<U>>, k: nat, j: Job)
    requires k < |ws|
    ensures Owners(ws, j) == Owners(ws[..k] + ws[k + 1..], j) + Owns(ws[k], j)
  {
    var tail := ws[k..];
    assert ws == ws[..k] + tail && tail == [ws[k]] + ws[k + 1..];
    OwnersConcat(ws[..k], tail, j);
    OwnersConcat([ws[k]], ws[k + 1..], j);
    OwnersConcat(ws[..k], ws[k + 1..], j);
    OwnersOne(ws[k], j);
  }

  /** Stopping a running job removes it and nothing else. */
  lemma {:induction false} StopOne(jobs: seq<Job>, j: Job)
    requires DistinctJobs(jobs) && j in jobs
    ensures DistinctJobs(StopJob(jobs, Some(j.jid)))
    ensures forall x :: x in StopJob(jobs, Some(j.jid)) <==> x in jobs && x != j
  {
    assert forall x :: x in jobs <==> x == jobs[0] || x in jobs[1..];
    if jobs[0].jid == j.jid {
      assert forall x :: x in jobs[1..] ==> x.jid != j.jid;
    } else {
      StopOne(jobs[1..], j);
      var rest := StopJob(jobs[1..], Some(j.jid));
      assert StopJob(jobs, Some(j.jid)) == [jobs[0]] + rest;
      forall i | 0 <= i < |rest| ensures rest[i].jid != jobs[0].jid {
        assert rest[i] in jobs[1..];
      }
    }
  }

  lemma {:induction false} OwnedBy<U>(ws: seq<WaitReq<U>>, k: nat, j: Job)
    requires k < |ws| && Owns(ws[k], j) == 1
    ensures Owners(ws, j) >= 1
  {
    if k < |ws| - 1 {
      OwnedBy(ws[..|ws| - 1], k, j);
    }
  }

  lemma {:induction false} SomeOwner<U>(ws: seq<WaitReq<U>>, j: Job) returns (k: nat)
    requires Owners(ws, j) >= 1
    ensures k < |ws| && Owns(ws[k], j) == 1
  {
    var n := |ws| - 1;
    if Owns(ws[n], j) == 1 {
      k := n;
    } else {
      k := SomeOwner(ws[..n], j);
    }
  }

  lemma Unused(jobs: seq<Job>, fewer: seq<Job>, next: nat)
    requires forall i :: 0 <= i < |jobs| ==> jobs[i].jid < next
    requires forall x :: x in fewer ==> x in jobs
    ensures forall i :: 0 <= i < |fewer| ==> fewer[i].jid < next
  {
    forall i | 0 <= i < |fewer| ensures fewer[i].jid < next {
      assert fewer[i] in jobs;
    }
  }

  lemma RemoveWaiterKeepsJobs<U>(s: Sio<U>, k: nat, t: Sio<U>)
    requires JobsMatch(s) && k < |s.wait|
    requires t.wait == s.wait[..k] + s.wait[k + 1..] && t.jobs == StopJob(s.jobs, s.wait[k].job)
    requires t.port == s.port && t.nextJob == s.nextJob
    ensures JobsMatch(t)
  {
    var w := s.wait[k];
    if w.job.Some? {
      var own := Job(w.job.value, w.id);
      OwnedBy(s.wait, k, own);
      assert own in s.jobs;
      StopOne(s.jobs, own);
    }
    forall j: Job ensures Owners(t.wait, j) + Owners(WaitsOf(t.port), j) == if j in t.jobs then 1 else 0 {
      OwnersRemove(s.wait, k, j);
    }
    Unused(s.jobs, t.jobs, s.nextJob);
  }

  /** Stopping the jobs of the waiters one by one, last one last. */
  lemma {:induction false} StopAllKeepsJobs<U>(s: Sio<U>, k: nat)
    requires JobsMatch(s) && k <= |s.wait|
    ensures JobsMatch(s.(wait := s.wait[k..], jobs := StopJobs(s.jobs, s.wait[..k])))
  {
    if k == 0 {
      assert s.wait[0..] == s.wait;
    } else {
      StopAllKeepsJobs(s, k - 1);
      var before := s.(wait := s.wait[k - 1..], jobs := StopJobs(s.jobs, s.wait[..k - 1]));
      var after := s.(wait := s.wait[k..], jobs := StopJobs(s.jobs, s.wait[..k]));
      assert s.wait[..k][..k - 1] == s.wait[..k - 1];
      assert before.wait[..0] + before.wait[1..] == after.wait;
      RemoveWaiterKeepsJobs(before, 0, after);
    }
  }

  lemma FlushKeepsJobs<U>(s: Sio<U>)
    requires JobsMatch(s)
    ensures JobsMatch(FlushRecv(s)) && JobsMatch(FlushSend(s))
  {
    StopAllKeepsJobs(s, |s.wait|);
    assert s.wait[..|s.wait|] == s.wait && s.wait[|s.wait|..] == [];
  }

  lemma FailKeepsJobs<U>(s: Sio<U>, code: nat)
    requires JobsMatch(s)
    ensures JobsMatch(FailAll(s, code))
  {
    FlushKeepsJobs(s);
    FlushKeepsJobs(FlushSend(s));
  }

  lemma DrainKeepsJobs<U>(s: Sio<U>)
    requires JobsMatch(s)
    ensures JobsMatch(Drain(s))
  {
    forall j: Job
      ensures Owners(Drain(s).wait, j) + Owners(WaitsOf(Drain(s).port), j) == if j in s.jobs then 1 else 0
    {
      OwnersConcat(s.wait, WaitsOf(s.port), j);
    }
  }

  lemma {:induction false} ExpireKeepsJobs<U>(s: Sio<U>, jids: seq<nat>)
    requires JobsMatch(s)
    ensures JobsMatch(Expire(s, jids))
  {
    if jids != [] {
      var jid := jids[|jids| - 1];
      var before := Expire(s, jids[..|jids| - 1]);
      ExpireKeepsJobs(s, jids[..|jids| - 1]);
      ExpireOneKeepsJobs(before, jid);
    }
  }

  lemma ExpireOneKeepsJobs<U>(s: Sio<U>, jid: nat)
    requires JobsMatch(s)
    ensures JobsMatch(ExpireOne(s, jid))
  {
    var k := WaiterOf(s.wait, jid);
    if k < |s.wait| {
      RemoveWaiterKeepsJobs(s, k, ExpireOne(s, jid));
    }
  }

  lemma SignalsKeepJobs<U>(s: Sio<U>, e: Env)
    requires JobsMatch(s)
    ensures JobsMatch(Signals(s, e))
  {
    DrainKeepsJobs(s);
    ExpireKeepsJobs(if e.msgSig then Drain(s) else s, e.expired);
  }

  lemma PrepareKeepsJobs<U>(s: Sio<U>)
    requires JobsMatch(s)
    ensures JobsMatch(Prepare(s).0)
  {
    FlushKeepsJobs(s);
    FlushKeepsJobs(FlushSend(s));
  }

  lemma ServeTxKeepsJobs<U>(s: Sio<U>, p: Plan<U>, e: Env)
    requires JobsMatch(s) && Servable(s, p, e)
    ensures JobsMatch(ServeTx(s, p, e).0)
  {
    var s1 := ServeWait(s, p, e);
    if p.wait.Some? && SeenReadable(p, e) {
      assert s.wait[..0] + s.wait[1..] == s.wait[1..];
      RemoveWaiterKeepsJobs(s, 0, s1);
    }
    ServeTouches(s, p, e);
  }

  lemma ServeKeepsJobs<U>(s: Sio<U>, p: Plan<U>, e: Env)
    requires JobsMatch(s) && Servable(s, p, e)
    ensures JobsMatch(Serve(s, p, e))
  {
    ServeTxKeepsJobs(s, p, e);
    FailKeepsJobs(ServeTx(s, p, e).0, ERROR_IO);
  }

  lemma ServeTouches<U>(s: Sio<U>, p: Plan<U>, e: Env)
    requires Servable(s, p, e)
    ensures var s1, s3 := ServeWait(s, p, e), ServeTx(s, p, e).0;
            s3.wait == s1.wait && s3.jobs == s1.jobs && s3.port == s1.port && s3.nextJob == s1.nextJob
  {
    if p.rx.Some? {
      RxPhaseFrame(ServeWait(s, p, e), p.rx.value.min, p.read && SeenReadable(p, e), e.rx);
    }
    if p.tx.Some? {
      TxPhaseFrame(ServeRx(s, p, e).0, p.write && e.writable, e.tx);
    }
  }

  /** Every wait step keeps the correspondence. */
  lemma WaitKeepsJobs<U>(s: Sio<U>, e: Env)
    requires EnvOk(s, e) && JobsMatch(s)
    ensures JobsMatch(WaitStep(s, e))
  {
    var (s1, p) := Prepare(s);
    PrepareKeepsJobs(s);
    FailKeepsJobs(s1, ERROR_WAIT);
    SignalsKeepJobs(s1, e);
    if e.outcome == SocketReady {
      PickedStaysHead(s, e);
      ServeKeepsJobs(Signals(s1, e), p, e);
    }
  }

  /** A wait that is submitted gets a job of its own, or none at all if the timer could not be started. */
  lemma SubmitKeepsJobs<U>(s: Sio<U>, started: bool, user: Option<U>)
    requires JobsMatch(s) && CanSubmit(s)
    ensures JobsMatch(SubmitWait(s, started, user))
  {
    var t := SubmitWait(s, started, user);
    var w := t.port[|s.port|].wait;
    assert t.port[..|s.port|] == s.port;
    assert WaitsOf(t.port) == WaitsOf(s.port) + [w];
    forall j: Job ensures Owners(t.wait, j) + Owners(WaitsOf(t.port), j) == if j in t.jobs then 1 else 0 {
      OwnersConcat(WaitsOf(s.port), [w], j);
      OwnersOne(w, j);
      assert j.jid >= s.nextJob ==> j !in s.jobs;
    }
  }

  lemma OtherSubmitKeepsJobs<U>(s: Sio<U>, m: Req<U>, t: Sio<U>)
    requires JobsMatch(s) && !m.Wt? && t.port == s.port + [m] && t.wait == s.wait && t.jobs == s.jobs
    requires t.nextJob == s.nextJob
    ensures JobsMatch(t)
  {
    assert t.port[..|s.port|] == s.port;
    assert WaitsOf(s.port) + [] == WaitsOf(s.port);
  }

  lemma WaiterRuns<U>(s: Sio<U>, k: nat)
    requires JobsMatch(s) && k < |s.wait| && s.wait[k].job.Some?
    ensures Running(s.jobs, s.wait[k].job.value)
  {
    var j := Job(s.wait[k].job.value, s.wait[k].id);
    OwnedBy(s.wait, k, j);
    assert j in s.jobs;
    var i :| 0 <= i < |s.jobs| && s.jobs[i] == j;
  }

  // ----- expired jobs find their messages -----

  /** With an empty port, a running job's message is on the wait list. */
  lemma RunningIsWaiting<U>(s: Sio<U>, j: Job)
    requires JobsMatch(s) && s.port == [] && j in s.jobs
    ensures WaiterOf(s.wait, j.jid) < |s.wait|
    ensures s.wait[WaiterOf(s.wait, j.jid)].id == j.owner
  {
    assert Owners(WaitsOf(s.port), j) == 0;
    var i := SomeOwner(s.wait, j);
    var k := WaiterOf(s.wait, j.jid);
    var j' := Job(j.jid, s.wait[k].id);
    OwnedBy(s.wait, k, j');
    assert j' in s.jobs;
    var a :| 0 <= a < |s.jobs| && s.jobs[a] == j;
    var b :| 0 <= b < |s.jobs| && s.jobs[b] == j';
    assert a == b;
  }

  predicate Running(jobs: seq<Job>, jid: nat) { exists k :: 0 <= k < |jobs| && jobs[k].jid == jid }

  /** Every expired job's message is answered, in order, because the port was drained before the timer was looked at. */
  lemma {:induction false} ExpiredAreAnswered<U>(s: Sio<U>, jids: seq<nat>)
    requires JobsMatch(s) && s.port == []
    requires forall i :: 0 <= i < |jids| ==> Running(s.jobs, jids[i])
    requires forall i, j :: 0 <= i < j < |jids| ==> jids[i] != jids[j]
    ensures var t := Expire(s, jids);
            && JobsMatch(t) && t.port == []
            && |t.out| == |s.out| + |jids| && |t.wait| == |s.wait| - |jids|
            && (forall jid :: Running(t.jobs, jid) <==> Running(s.jobs, jid) && jid !in jids)
  {
    if jids != [] {
      var n := |jids| - 1;
      ExpiredAreAnswered(s, jids[..n]);
      var t, jid := Expire(s, jids[..n]), jids[n];
      assert jids == jids[..n] + [jid];
      assert Running(s.jobs, jid) && jid !in jids[..n];
      OneIsAnswered(t, jid);
    }
  }

  lemma OneIsAnswered<U>(s: Sio<U>, jid: nat)
    requires JobsMatch(s) && s.port == [] && Running(s.jobs, jid)
    ensures var t := ExpireOne(s, jid);
            && JobsMatch(t) && t.port == []
            && |t.out| == |s.out| + 1 && |t.wait| == |s.wait| - 1
            && (forall x :: Running(t.jobs, x) <==> Running(s.jobs, x) && x != jid)
  {
    var k :| 0 <= k < |s.jobs| && s.jobs[k].jid == jid;
    var j := s.jobs[k];
    RunningIsWaiting(s, j);
    RemoveWaiterKeepsJobs(s, WaiterOf(s.wait, jid), ExpireOne(s, jid));
    StopOne(s.jobs, j);
    StillRunning(s.jobs, j);
  }

  lemma StillRunning(jobs: seq<Job>, j: Job)
    requires DistinctJobs(jobs) && j in jobs
    ensures forall jid :: Running(StopJob(jobs, Some(j.jid)), jid) <==> Running(jobs, jid) && jid != j.jid
  {
    StopOne(jobs, j);
    var fewer := StopJob(jobs, Some(j.jid));
    forall jid ensures Running(fewer, jid) <==> Running(jobs, jid) && jid != j.jid {
      if Running(fewer, jid) {
        var k :| 0 <= k < |fewer| && fewer[k].jid == jid;
        assert fewer[k] in jobs;
      }
      if Running(jobs, jid) && jid != j.jid {
        var k :| 0 <= k < |jobs| && jobs[k].jid == jid;
        assert jobs[k] in fewer;
      }
    }
  }

  /**
   The wait that finds the socket readable stops the job of the waiter it picked before. That job is still
   running exactly when it did not expire in this very wait; otherwise it would be stopped a second time.
   */
  lemma StopsRunningJobIff<U>(s: Sio<U>, e: Env)
    requires JobsMatch(s) && Promised(s, e) && e.outcome == SocketReady
    requires var p := Prepare(s).1; p.wait.Some? && p.wait.value.job.Some? && e.readable
    ensures var (s1, p) := Prepare(s);
            Running(Signals(s1, e).jobs, p.wait.value.job.value) <==> WaiterNotStale(s, e)
  {
    var (s1, p) := Prepare(s);
    PrepareKeepsJobs(s);
    var jid := p.wait.value.job.value;
    var j := Job(jid, s1.wait[0].id);
    OwnedBy(s1.wait, 0, j);
    assert j in s1.jobs;
    assert Running(s1.jobs, jid) by {
      var k :| 0 <= k < |s1.jobs| && s1.jobs[k] == j;
    }
    var s2 := if e.msgSig then Drain(s1) else s1;
    DrainKeepsJobs(s1);
    if e.timerSig {
      forall i | 0 <= i < |e.expired| ensures Running(s2.jobs, e.expired[i]) {
        var k :| 0 <= k < |s1.jobs| && s1.jobs[k].jid == e.expired[i];
        assert s2.jobs[k].jid == e.expired[i];
      }
      ExpiredAreAnswered(s2, e.expired);
    }
  }

  // ----- the waiter picked before the wait expires in it -----

  lemma {:induction false} StopFewer(jobs: seq<Job>, jid: Option<nat>)
    ensures forall j :: j in StopJob(jobs, jid) ==> j in jobs
  {
    if jobs != [] {
      StopFewer(jobs[1..], jid);
      assert forall j :: j in jobs[1..] ==> j in jobs;
    }
  }

  lemma {:induction false} ExpireFewer<U>(s: Sio<U>, jids: seq<nat>)
    ensures forall j :: j in Expire(s, jids).jobs ==> j in s.jobs
  {
    if jids != [] {
      ExpireFewer(s, jids[..|jids| - 1]);
      StopFewer(Expire(s, jids[..|jids| - 1]).jobs, Some(jids[|jids| - 1]));
    }
  }

  /** An expired job's message is the one that is answered, without a character. */
  lemma {:induction false} ExpiredOwnerAnswered<U>(s: Sio<U>, jids: seq<nat>, i: nat, j: Job)
    requires JobsMatch(s) && s.port == [] && i < |jids| && j in s.jobs && j.jid == jids[i] && Due(s.jobs, jids)
    ensures var t := Expire(s, jids);
            |t.out| == |s.out| + |jids| && TimedOut(t.out[|s.out| + i], j.owner)
  {
    var n := |jids| - 1;
    var t, jid := Expire(s, jids[..n]), jids[n];
    DuePrefix(s, jids);
    OneIsAnswered(t, jid);
    OneMoreOut(t, jid);
    if i < n {
      ExpiredOwnerAnswered(s, jids[..n], i, j);
    } else {
      ExpireFewer(s, jids[..n]);
      OwnerIsAnswered(t, j, s.jobs);
    }
  }

  /** Running jobs, each once. */
  predicate Due(jobs: seq<Job>, jids: seq<nat>) {
    && (forall i :: 0 <= i < |jids| ==> Running(jobs, jids[i]))
    && (forall i, j :: 0 <= i < j < |jids| ==> jids[i] != jids[j])
  }

  lemma DuePrefix<U>(s: Sio<U>, jids: seq<nat>)
    requires JobsMatch(s) && s.port == [] && jids != [] && Due(s.jobs, jids)
    ensures var n := |jids| - 1;
            var t := Expire(s, jids[..n]);
            Due(s.jobs, jids[..n]) && JobsMatch(t) && t.port == [] && |t.out| == |s.out| + n && Running(t.jobs, jids[n])
  {
    ExpiredAreAnswered(s, jids[..|jids| - 1]);
  }

  lemma OneMoreOut<U>(s: Sio<U>, jid: nat)
    ensures s.out <= ExpireOne(s, jid).out
  {
  }

  lemma OwnerIsAnswered<U>(s: Sio<U>, j: Job, jobs: seq<Job>)
    requires JobsMatch(s) && s.port == [] && Running(s.jobs, j.jid)
    requires DistinctJobs(jobs) && j in jobs && forall x :: x in s.jobs ==> x in jobs
    ensures var t := ExpireOne(s, j.jid); |t.out| == |s.out| + 1 && TimedOut(t.out[|s.out|], j.owner)
  {
    var k :| 0 <= k < |s.jobs| && s.jobs[k].jid == j.jid;
    SameJob(jobs, s.jobs[k], j);
    RunningIsWaiting(s, j);
  }

  lemma SameJob(jobs: seq<Job>, a: Job, b: Job)
    requires DistinctJobs(jobs) && a in jobs && b in jobs && a.jid == b.jid
    ensures a == b
  {
    var i :| 0 <= i < |jobs| && jobs[i] == a;
    var j :| 0 <= j < |jobs| && jobs[j] == b;
  }

  lemma PickedTimesOut<U>(s: Sio<U>, e: Env, i: nat, j: Job)
    requires JobsMatch(s) && (s.port != [] ==> e.msgSig) && e.timerSig && i < |e.expired| && j in s.jobs && j.jid == e.expired[i]
    requires forall i :: 0 <= i < |e.expired| ==> exists k :: 0 <= k < |s.jobs| && s.jobs[k].jid == e.expired[i]
    requires forall i, j :: 0 <= i < j < |e.expired| ==> e.expired[i] != e.expired[j]
    ensures var t := Signals(s, e); |t.out| == |s.out| + |e.expired| && TimedOut(t.out[|s.out| + i], j.owner)
  {
    var s2 := if e.msgSig then Drain(s) else s;
    DrainKeepsJobs(s);
    forall i | 0 <= i < |e.expired| ensures Running(s2.jobs, e.expired[i]) {
      var m :| 0 <= m < |s.jobs| && s.jobs[m].jid == e.expired[i];
      assert s2.jobs[m].jid == e.expired[i];
    }
    ExpiredOwnerAnswered(s2, e.expired, i, j);
  }

  predicate TimedOut<U>(r: Reply<U>, id: nat) { r.WaitDone? && !r.avail && r.id == id }

  /**
   In the case shut out everywhere else, the message that was picked has already been answered when the socket is
   served, and its job is gone: there it would be answered, and the job stopped, a second time.
   */
  lemma StaleIsAnsweredAlready<U>(s: Sio<U>, e: Env) returns (k: nat)
    requires JobsMatch(s) && Promised(s, e) && !WaiterNotStale(s, e)
    ensures var (s1, p) := Prepare(s);
            var t := Signals(s1, e);
            && p.wait.Some? && p.wait.value.job.Some? && SeenReadable(p, e)
            && |s1.out| <= k < |t.out| && TimedOut(t.out[k], p.wait.value.id)
            && !Running(t.jobs, p.wait.value.job.value)
  {
    var (s1, p) := Prepare(s);
    PrepareKeepsJobs(s);
    StopsRunningJobIff(s, e);
    var j := Job(p.wait.value.job.value, s1.wait[0].id);
    OwnedBy(s1.wait, 0, j);
    assert j in s1.jobs;
    var i :| 0 <= i < |e.expired| && e.expired[i] == j.jid;
    k := |s1.out| + i;
    PickedTimesOut(s1, e, i, j);
  }
}
