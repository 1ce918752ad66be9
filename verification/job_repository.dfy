/**
 * The job ledger of pkg/job/repository.go: jobs kept in one TTL store under
 * their IDs, and the polling location handed to clients.
 */
module JobRepository {
  import opened Wrappers
  import opened TTLStore
  import opened JobModel

  /** 5 * time.Minute, in nanoseconds. */
  const DefaultTTL: int := 5 * 60 * NanosPerSecond

  /** The ledger's own TTL in seconds. */
  lemma DefaultTTLIsFiveMinutes()
    ensures TruncSeconds(DefaultTTL) == 300
  {
  }

  class DefaultRepository {
    const jobs: TTLMap<Job>
    const restBaseURL: string

    /** Every job is stored under its own ID, and the store is well formed. */
    ghost predicate Valid()
      reads this, jobs
    {
      && jobs.Valid()
      && forall k :: k in jobs.m ==> jobs.m[k].value.id == k
    }

    /** NewDefaultRepository: no jobs, entries expire after 300 idle seconds. */
    constructor (restBaseURL: string)
      ensures Valid() && fresh(jobs)
      ensures jobs.m == map[] && jobs.maxTTLInSeconds == 300
      ensures this.restBaseURL == restBaseURL
    {
      jobs := new TTLMap<Job>(DefaultTTL);
      this.restBaseURL := restBaseURL;
    }

    /** Jobs: copies the store's snapshot into a map of jobs by ID; refreshes no entry and never fails. */
    method Jobs() returns (r: map<string, Job>, err: Option<string>)
      requires Valid()
      ensures r.Keys == jobs.m.Keys
      ensures forall k :: k in r ==> r[k] == jobs.m[k].value && r[k].id == k
      ensures err == None
    {
      var snapshot := jobs.Map();
      r := map[];
      var todo := snapshot.Keys;
      while todo != {}
        invariant todo <= snapshot.Keys
        invariant r == map k | k in snapshot && k !in todo :: snapshot[k]
        decreases todo
      {
        var k :| k in todo;
        r := r[k := snapshot[k]];
        todo := todo - {k};
      }
      err := None;
    }

    /**
     * Job: the job stored under `id`, or null when it is unknown or already swept.
     * An entry past its TTL that no sweep has removed yet is still returned and
     * refreshed.
     */
    method Job(id: string, now: int) returns (j: Job?, err: Option<string>)
      requires Valid()
      modifies jobs
      ensures Valid()
      ensures err == None
      ensures id in old(jobs.m) ==> j == old(jobs.m)[id].value && j.id == id
      ensures id in old(jobs.m) ==> jobs.m == old(jobs.m)[id := Item(j, now)]
      ensures id !in old(jobs.m) ==> j == null && jobs.m == old(jobs.m)
    {
      var found := jobs.Get(id, now);
      err := None;
      if found.None? {
        return null, err;
      }
      j := found.value;
    }

    /** AddJob: stores `job` under its ID unless that ID is taken; never fails. */
    method AddJob(job: Job, now: int) returns (err: Option<string>)
      requires Valid()
      modifies jobs
      ensures Valid()
      ensures err == None
      ensures job.id !in old(jobs.m) ==> jobs.m == old(jobs.m)[job.id := Item(job, now)]
      ensures job.id in old(jobs.m) ==> jobs.m == old(jobs.m)
    {
      jobs.Put(job.id, job, now);
      err := None;
    }

    /** The Location header WriteJobResult sends with a job: the job's ID below the base URL. */
    function JobLocation(job: Job): (loc: string)
      ensures |loc| == |restBaseURL| + 1 + |job.id|
      ensures loc[..|restBaseURL|] == restBaseURL && loc[|restBaseURL|] == '/'
      ensures loc[|restBaseURL| + 1..] == job.id
      ensures (forall i :: 0 <= i < |job.id| ==> job.id[i] != '/') ==> LastSegment(loc) == job.id
    {
      LocationNamesJob(restBaseURL, job.id);
      Location(restBaseURL, job.id)
    }
  }

  /** `baseURL/id`, the address a client polls for a job. */
  function Location(baseURL: string, id: string): (loc: string)
    ensures |loc| == |baseURL| + 1 + |id|
    ensures loc[..|baseURL|] == baseURL && loc[|baseURL|] == '/' && loc[|baseURL| + 1..] == id
  {
    baseURL + "/" + id
  }

  /** The text after the last '/' of a path. */
  function LastSegment(path: string): string
  {
    if path == [] || path[|path| - 1] == '/' then []
    else LastSegment(path[..|path| - 1]) + [path[|path| - 1]]
  }

  /** For an ID without '/', the location starts with the base URL and its last segment is the ID. */
  lemma {:induction false} LocationNamesJob(baseURL: string, id: string)
    ensures Location(baseURL, id)[..|baseURL|] == baseURL
    ensures (forall i :: 0 <= i < |id| ==> id[i] != '/') ==> LastSegment(Location(baseURL, id)) == id
    decreases |id|
  {
    var loc := Location(baseURL, id);
    if id != [] {
      var shorter := id[..|id| - 1];
      assert loc[..|loc| - 1] == Location(baseURL, shorter);
      LocationNamesJob(baseURL, shorter);
    }
  }

  /** IDs made by NewJob are decimal digits, so the polling location names the job. */
  lemma NewJobLocation(baseURL: string, n: nat)
    ensures LastSegment(Location(baseURL, DecimalString(n))) == DecimalString(n)
  {
    var id := DecimalString(n);
    assert forall i :: 0 <= i < |id| ==> id[i] != '/' by {
      forall i | 0 <= i < |id| ensures id[i] != '/' {
        assert IsDigit(id[i]);
      }
    }
    LocationNamesJob(baseURL, id);
  }
}
