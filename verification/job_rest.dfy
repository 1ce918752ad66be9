/**
 * The decisions of the two job handlers in pkg/job/rest/application.go: which
 * status code and which body each answer carries. Writing to the HTTP response
 * is not modelled.
 */
module JobRest {
  import opened Wrappers
  import opened TTLStore
  import opened JobModel
  import opened JobRepository

  /** What a handler answers: a util.Message, one job, or a list of jobs. */
  datatype Reply =
    | MessageReply(status: int, message: string)
    | JobReply(status: int, job: Job)
    | ListReply(status: int, jobs: seq<Job>)

  /** The `job` handler's answer once the repository lookup returned (`entity`, `err`). */
  function JobLookupReply(entity: Job?, err: Option<string>): (r: Reply)
    reads entity
    ensures r.status == 500 <==> err.Some?
    ensures r.status == 404 <==> err.None? && entity == null
    ensures r.status == 202 <==> err.None? && entity != null && entity.state == Pending
    ensures r.status == 200 <==> err.None? && entity != null && entity.state == Done
    ensures r.MessageReply? <==> (err.Some? || entity == null)
    ensures r.status == 500 ==> r.message == "error in getting job"
    ensures r.status == 404 ==> r.message == "job not found"
    ensures r.JobReply? ==> r.job == entity
  {
    if err.Some? then MessageReply(500, "error in getting job")
    else if entity == null then MessageReply(404, "job not found")
    else if entity.state == Pending then JobReply(202, entity)
    else
      assert entity.state == Done;
      JobReply(200, entity)
  }

  /**
   * The `jobs` handler's answer once the repository listing returned (`jobs`, `err`):
   * on success a list holding each job of the map exactly once, in the order `order`
   * of their IDs (Go's map iteration order is unspecified).
   */
  method JobsListReply(jobs: map<string, Job>, err: Option<string>) returns (r: Reply, ghost order: seq<string>)
    ensures err.Some? ==> r == MessageReply(500, "error in getting Jobs")
    ensures err.None? ==> r.ListReply? && r.status == 200
    ensures err.None? ==> |r.jobs| == |order| == |jobs|
    ensures err.None? ==> forall i, j :: 0 <= i < j < |order| ==> order[i] != order[j]
    ensures err.None? ==> forall i :: 0 <= i < |order| ==> order[i] in jobs && r.jobs[i] == jobs[order[i]]
    ensures err.None? ==> forall k :: k in jobs ==> k in order
  {
    order := [];
    if err.Some? {
      return MessageReply(500, "error in getting Jobs"), order;
    }
    var jobList: seq<Job> := [];
    var todo := jobs.Keys;
    while todo != {}
      invariant todo <= jobs.Keys
      invariant |jobList| == |order| && |order| + |todo| == |jobs.Keys|
      invariant forall i, j :: 0 <= i < j < |order| ==> order[i] != order[j]
      invariant forall i :: 0 <= i < |order| ==> order[i] in jobs && order[i] !in todo && jobList[i] == jobs[order[i]]
      invariant forall k :: k in jobs ==> k in order || k in todo
      decreases todo
    {
      var k :| k in todo;
      jobList := jobList + [jobs[k]];
      order := order + [k];
      todo := todo - {k};
    }
    assert |jobs| == |jobs.Keys|;
    r := ListReply(200, jobList);
  }

  /** The job handlers over the default ledger. */
  class Application {
    const repository: DefaultRepository

    constructor (repository: DefaultRepository)
      ensures this.repository == repository
    {
      this.repository := repository;
    }

    /** GET /jobs: 200 with every live job, each once. */
    method Jobs() returns (r: Reply, ghost order: seq<string>)
      requires repository.Valid()
      ensures r.ListReply? && r.status == 200 && |r.jobs| == |order| == |repository.jobs.m|
      ensures forall k :: k in repository.jobs.m ==> k in order
      ensures forall i :: 0 <= i < |order| ==> order[i] in repository.jobs.m && r.jobs[i] == repository.jobs.m[order[i]].value
    {
      var jobs, err := repository.Jobs();
      r, order := JobsListReply(jobs, err);
    }

    /**
     * GET /jobs/{id}: 404 exactly when `id` is unknown or already swept, else 202
     * for a PENDING and 200 for a DONE job; a found entry's stamp is refreshed.
     */
    method Job(id: string, now: int) returns (r: Reply)
      requires repository.Valid()
      modifies repository.jobs
      ensures repository.Valid()
      ensures r.status == 404 <==> id !in old(repository.jobs.m)
      ensures id !in old(repository.jobs.m) ==> r == MessageReply(404, "job not found")
      ensures id in old(repository.jobs.m) ==> r == JobLookupReply(old(repository.jobs.m)[id].value, None)
      ensures id in old(repository.jobs.m) && old(repository.jobs.m)[id].value.state == Pending ==>
        r == JobReply(202, old(repository.jobs.m)[id].value)
      ensures id in old(repository.jobs.m) && old(repository.jobs.m)[id].value.state == Done ==>
        r == JobReply(200, old(repository.jobs.m)[id].value)
      ensures r.status != 500
      ensures repository.jobs.m == if id in old(repository.jobs.m)
        then old(repository.jobs.m)[id := Item(old(repository.jobs.m)[id].value, now)]
        else old(repository.jobs.m)
    {
      var entity, err := repository.Job(id, now);
      r := JobLookupReply(entity, err);
    }
  }
}
