/** The timer: running requests in order of their start, and the device, which is open exactly while there are some. */
module Timer {
  import opened Common
  import opened SockioSpec

  class TimerHandle {
    var jobs: seq<Job>
    var nextJob: nat
    var numJobs: nat
    var deviceOpen: bool

    ghost predicate Valid()
      reads this
    {
      numJobs == |jobs| && (deviceOpen <==> numJobs > 0)
    }

    constructor ()
      ensures Valid() && jobs == [] && nextJob == 0
    {
      jobs, nextJob, numJobs, deviceOpen := [], 0, 0, false;
    }

    /** Starts a request for `owner`. Memory or the device may be missing; then nothing is started. */
    method Start(owner: nat, haveMemory: bool, canOpen: bool) returns (job: Option<nat>)
      requires Valid()
      modifies this
      ensures Valid()
      ensures job.Some? <==> haveMemory && (old(numJobs) > 0 || canOpen)
      ensures job.Some? ==> job.value == old(nextJob) && jobs == old(jobs) + [Job(old(nextJob), owner)]
                            && nextJob == old(nextJob) + 1
      ensures job.None? ==> jobs == old(jobs) && nextJob == old(nextJob)
    {
      if !haveMemory {
        return None;
      }
      if numJobs == 0 {
        if !canOpen {
          return None;
        }
        deviceOpen := true;
      }
      numJobs := numJobs + 1;
      job := Some(nextJob);
      jobs := jobs + [Job(nextJob, owner)];
      nextJob := nextJob + 1;
    }

    /** Stops a running request; the last one closes the device. No request at all is not an error. */
    method Stop(job: Option<nat>)
      requires Valid()
      requires job.Some? ==> exists k :: 0 <= k < |jobs| && jobs[k].jid == job.value
      modifies this
      ensures Valid() && jobs == StopJob(old(jobs), job) && nextJob == old(nextJob)
    {
      if job.None? {
        return;
      }
      StopLength(jobs, job.value);
      numJobs := numJobs - 1;
      if numJobs == 0 {
        deviceOpen := false;
      }
      jobs := StopJob(jobs, job);
    }
  }

  lemma {:induction false} StopLength(jobs: seq<Job>, jid: nat)
    requires exists k :: 0 <= k < |jobs| && jobs[k].jid == jid
    ensures |StopJob(jobs, Some(jid))| == |jobs| - 1
  {
    if jobs[0].jid != jid {
      var k :| 0 <= k < |jobs| && jobs[k].jid == jid;
      assert jobs[1..][k - 1].jid == jid;
      StopLength(jobs[1..], jid);
    }
  }

  /** The time of a request: a microsecond count below or at one million stays as it is. */
  method SplitTimeout(us: nat) returns (secs: nat, micros: nat)
    ensures secs * 1000000 + micros == us && micros <= 1000000
    ensures micros == 1000000 <==> us == 1000000
  {
    secs, micros := 0, us;
    if us > 1000000 {
      secs := us / 1000000;
      micros := us % 1000000;
    }
  }
}
