/** The in-memory job table (lib/job-store.ts): create with a lazy one-hour
    sweep, look up, merge-update, and the job id format. The clock and the
    random suffix are parameters. */
module JobStore {
  import opened Wrappers
  import opened Strings
  import Json

  datatype Status = Pending | Fetching | Analyzing | Generating | Formatting | Completed | Failed

  datatype Job = Job(
    id: string,
    status: Status,
    progress: int,
    result: Option<Json.Json>,
    error: Option<string>,
    createdAt: int)

  /** `Partial<Job>`: a field is either not supplied (None) or supplied with
      a value. For the optional fields the supplied value may itself be
      `undefined`, which `Object.assign` copies too. */
  datatype JobUpdate = JobUpdate(
    id: Option<string>,
    status: Option<Status>,
    progress: Option<int>,
    result: Option<Option<Json.Json>>,
    error: Option<Option<string>>,
    createdAt: Option<int>)

  const OneHour: int := 60 * 60 * 1000

  const NoChanges: JobUpdate := JobUpdate(None, None, None, None, None, None)

  /** The record `createJob` builds. */
  function NewJob(id: string, now: int): (j: Job)
    ensures j.id == id && j.status == Pending && j.progress == 0 && j.createdAt == now
    ensures j.result == None && j.error == None
  {
    Job(id, Pending, 0, None, None, now)
  }

  /** The records that survive a sweep with the given cutoff: a record goes
      exactly when it was created strictly before the cutoff. */
  function Sweep(m: map<string, Job>, cutoff: int): (r: map<string, Job>)
    ensures forall k :: k in r <==> k in m && m[k].createdAt >= cutoff
    ensures forall k :: k in r ==> r[k] == m[k]
  {
    map k | k in m && m[k].createdAt >= cutoff :: m[k]
  }

  /** `Object.assign(job, updates)`: every supplied field overwrites, every
      other field keeps its value. */
  function Merge(j: Job, u: JobUpdate): (r: Job)
    ensures r.id == (if u.id.Some? then u.id.value else j.id)
    ensures r.status == (if u.status.Some? then u.status.value else j.status)
    ensures r.progress == (if u.progress.Some? then u.progress.value else j.progress)
    ensures r.result == (if u.result.Some? then u.result.value else j.result)
    ensures r.error == (if u.error.Some? then u.error.value else j.error)
    ensures r.createdAt == (if u.createdAt.Some? then u.createdAt.value else j.createdAt)
  {
    Job(
      if u.id.Some? then u.id.value else j.id,
      if u.status.Some? then u.status.value else j.status,
      if u.progress.Some? then u.progress.value else j.progress,
      if u.result.Some? then u.result.value else j.result,
      if u.error.Some? then u.error.value else j.error,
      if u.createdAt.Some? then u.createdAt.value else j.createdAt)
  }

  /** An empty update changes nothing. */
  lemma MergeNothing(j: Job)
    ensures Merge(j, NoChanges) == j
  {
  }

  /** There is no terminal-state guard: a completed or failed job can be put
      back into any status by an update. */
  lemma NoTerminalGuard(j: Job, s: Status)
    requires j.status == Completed || j.status == Failed
    ensures Merge(j, NoChanges.(status := Some(s))).status == s
  {
  }

  /** The freshly inserted record survives its own sweep exactly when the
      second clock reading is at most one hour after the first. */
  lemma FreshJobSurvivesSweep(m: map<string, Job>, id: string, createdAt: int, sweepNow: int)
    ensures id in Sweep(m[id := NewJob(id, createdAt)], sweepNow - OneHour)
        <==> sweepNow - createdAt <= OneHour
  {
  }

  /** The job id `job_<time>_<suffix>`, `suffix` standing for the random
      base-36 digits. */
  function JobId(now: nat, suffix: string): (r: string)
    ensures StartsWith(r, "job_")
  {
    "job_" + NatToString(now) + "_" + suffix
  }

  /** The time and the suffix can be read back from an id: the decimal time
      contains no underscore, so the first underscore after the prefix
      separates them. Distinct (time, suffix) pairs give distinct ids. */
  lemma JobIdInjective(t1: nat, s1: string, t2: nat, s2: string)
    requires JobId(t1, s1) == JobId(t2, s2)
    ensures t1 == t2 && s1 == s2
  {
    var a, c := NatToString(t1), NatToString(t2);
    var x, y := JobId(t1, s1), JobId(t2, s2);
    assert x[4..] == a + "_" + s1;
    assert y[4..] == c + "_" + s2;
    SplitAtFirstUnderscore(a, s1, c, s2);
    NatToStringInjective(t1, t2);
  }

  lemma SplitAtFirstUnderscore(a: string, b: string, c: string, d: string)
    requires forall i :: 0 <= i < |a| ==> IsDigit(a[i])
    requires forall i :: 0 <= i < |c| ==> IsDigit(c[i])
    requires a + "_" + b == c + "_" + d
    ensures a == c && b == d
  {
    var x := a + "_" + b;
    var y := c + "_" + d;
    assert x[|a|] == '_' && forall k :: 0 <= k < |a| ==> x[k] == a[k];
    assert y[|c|] == '_' && forall k :: 0 <= k < |c| ==> y[k] == c[k];
    assert IndexOfChar(x, '_') == |a|;
    assert IndexOfChar(y, '_') == |c|;
    assert a == x[..|a|] == c;
    assert b == x[|a| + 1..] == d;
  }

  /** The process-wide table. */
  class Store {
    var jobs: map<string, Job>

    constructor ()
      ensures jobs == map[]
    {
      jobs := map[];
    }

    /** `createJob(id)`: `createdAt` and `sweepNow` are the two `Date.now()`
        readings. Inserts (overwriting any record with the same id), then
        deletes every record created strictly before `sweepNow - OneHour`. */
    method CreateJob(id: string, createdAt: int, sweepNow: int) returns (job: Job)
      modifies this
      ensures job == NewJob(id, createdAt)
      ensures jobs == Sweep(old(jobs)[id := job], sweepNow - OneHour)
    {
      job := NewJob(id, createdAt);
      jobs := jobs[id := job];
      ghost var before := jobs;
      var cutoff := sweepNow - OneHour;
      var pending := jobs.Keys;
      while pending != {}
        invariant pending <= before.Keys
        invariant jobs.Keys <= before.Keys
        invariant forall k :: k in jobs ==> jobs[k] == before[k]
        invariant forall k :: k in pending ==> k in jobs
        invariant forall k :: k in before && k !in pending ==> (k in jobs <==> before[k].createdAt >= cutoff)
        decreases pending
      {
        var k :| k in pending;
        if jobs[k].createdAt < cutoff {
          jobs := jobs - {k};
        }
        pending := pending - {k};
      }
      assert jobs == Sweep(before, cutoff);
    }

    /** `getJob(id)`: absent, never a failure, for an unknown or evicted id. */
    method GetJob(id: string) returns (r: Option<Job>)
      ensures r.Some? <==> id in jobs
      ensures r.Some? ==> r.value == jobs[id]
    {
      if id in jobs {
        r := Some(jobs[id]);
      } else {
        r := None;
      }
    }

    /** `updateJob(id, updates)`: a no-op on an unknown id; otherwise merges
        into that one record and leaves every other record as it was. */
    method UpdateJob(id: string, updates: JobUpdate)
      modifies this
      ensures id !in old(jobs) ==> jobs == old(jobs)
      ensures id in old(jobs) ==> jobs == old(jobs)[id := Merge(old(jobs)[id], updates)]
    {
      if id in jobs {
        jobs := jobs[id := Merge(jobs[id], updates)];
      }
    }
  }

  /** After any create, no record older than the cutoff remains, the new
      record is stored unless the clock moved on by more than an hour, and
      every other surviving record is unchanged. */
  lemma CreateJobOutcome(m: map<string, Job>, id: string, createdAt: int, sweepNow: int)
    ensures var r := Sweep(m[id := NewJob(id, createdAt)], sweepNow - OneHour);
      && (forall k :: k in r ==> r[k].createdAt >= sweepNow - OneHour)
      && (sweepNow - createdAt <= OneHour ==> id in r && r[id] == NewJob(id, createdAt))
      && (forall k :: k in m && k != id && m[k].createdAt >= sweepNow - OneHour ==> k in r && r[k] == m[k])
      && (forall k :: k in r ==> k == id || k in m)
  {
  }
}
