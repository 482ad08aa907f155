/** The `Hodlcoin` job manager: share submission routed through the table of
    current jobs, and birthday hydration after the base manager has set up or
    refreshed a job. */
module JobManager {
  import opened Types
  import opened Jobs

  /** The miner's connection, passed through untouched. */
  datatype StratumConnection = StratumConnection(connectionId: string)

  /** The per-worker state the pool keeps, passed through untouched. */
  datatype WorkerContext = WorkerContext(miner: string, worker: string, extraNonce1: string)

  /** A validated share, as the job produces it. */
  datatype Share = Share(poolId: string, blockHeight: nat, miner: string, worker: string, isBlockCandidate: bool)

  /** The arguments of one `ProcessShare` call on a job. */
  datatype ShareRequest = ShareRequest(worker: StratumConnection, extraNonce2: string, nTime: string, nonce: string,
                                       birthdayA: Option<string>, birthdayB: Option<string>)

  /** What `ProcessShare` returns: the share and, for a block candidate, the
      serialized block in hexadecimal. */
  datatype ProcessedShare = ProcessedShare(share: Share, blockHex: Option<string>)

  /** The job's `ProcessShare`, which is not part of this model: a processed
      share, or the exception that rejects the submission. */
  type ShareProcessor = (HodlcoinJob, ShareRequest) -> Result<ProcessedShare>

  /** The base manager's `OnSubmitShareAsync`, which is not part of this model. */
  type ShareRecorder = (StratumConnection, WorkerContext, Share, Option<string>) -> Outcome

  /** The base manager's `SetupJobParamsForStratum`, which is not part of
      this model: given the job and the birthday words it sees, whether the
      setup completed or threw. */
  type BaseSetup = (HodlcoinJob, Birthdays) -> Outcome

  /** What the base manager's `UpdateJob` leaves behind: the table of current
      jobs, and either the job it settled on (possibly none) with its `force`
      flag or the exception it threw. */
  datatype BaseUpdated = BaseUpdated(jobs: map<string, HodlcoinJob>, result: Result<(HodlcoinJob?, bool)>)

  /** The base manager's `UpdateJob`, which is not part of this model, as a
      function of the table of current jobs and the call's arguments. */
  type BaseUpdate = (map<string, HodlcoinJob>, bool, Option<string>, Option<string>) -> BaseUpdated

  /** The job a base `UpdateJob` hands back, or null when it threw. */
  function UpdatedJob(b: BaseUpdated): HodlcoinJob?
  {
    if b.result.Ok? then b.result.value.0 else null
  }

  /** A call the manager made to code outside this model, with its arguments. */
  datatype Call =
    | BaseSetupJobParams(job: HodlcoinJob, birthdays: Birthdays)
    | BaseUpdateJob(viaOverride: bool, via: Option<string>, data: Option<string>)
    | ProcessShare(job: HodlcoinJob, request: ShareRequest)
    | OnSubmitShare(worker: StratumConnection, context: WorkerContext, share: Share, blockHex: Option<string>)

  const JobNotFoundError := StratumException(Other, "job not found")

  /** What a dictionary's `TryGetValue` throws for a null key. */
  const NullKeyError := ArgumentNullException("key")

  /** `currentJobs.TryGetValue(jobId, out var job)`, with the error thrown
      when it fails: the dictionary's own for a null id, "job not found"
      for an id it does not hold. */
  function LookupJob(jobs: map<string, HodlcoinJob>, jobId: Option<string>): (r: Result<HodlcoinJob>)
    ensures r.Ok? <==> jobId.Some? && jobId.value in jobs
    ensures r.Ok? ==> r.value == jobs[jobId.value]
    ensures jobId.None? ==> r == Err(ArgumentNullException("key"))
    ensures jobId.Some? && jobId.value !in jobs ==> r == Err(StratumException(Other, "job not found"))
  {
    match jobId
    case None => Err(NullKeyError)
    case Some(id) => if id in jobs then Ok(jobs[id]) else Err(JobNotFoundError)
  }

  class HodlcoinJobManager {
    /** The jobs shares may still be submitted against, by job id; the base
        manager maintains it. */
    var currentJobs: map<string, HodlcoinJob>

    /** The calls made so far to the base manager and to the jobs. */
    var calls: seq<Call>

    /** A manager whose base has registered `jobs`. */
    constructor (jobs: map<string, HodlcoinJob>)
      ensures currentJobs == jobs && calls == []
    {
      currentJobs := jobs;
      calls := [];
    }

    /** The standard Bitcoin setup of the job's Stratum parameters, then the
        job's birthdays hydrated from its own template, in that order: the
        base sees the birthdays as they were before hydration, and when it
        throws, nothing is hydrated. */
    method SetupJobParamsForStratum(job: HodlcoinJob, setup: BaseSetup, convert: Converter) returns (r: Outcome)
      modifies this`calls, job`BirthdayA, job`BirthdayB
      ensures calls == old(calls) + [BaseSetupJobParams(job, old(job.State()))]
      ensures setup(job, old(job.State())).Fail? ==>
                r == setup(job, old(job.State())) && job.State() == old(job.State())
      ensures setup(job, old(job.State())).Pass? ==>
                Hydration(job.State(), r) == Hydrate(old(job.State()), job.Template, convert)
      ensures currentJobs == old(currentJobs)
    {
      calls := calls + [BaseSetupJobParams(job, job.State())];
      r := setup(job, job.State());
      if r.Fail? {
        return;
      }
      r := job.SetBirthdaysFromTemplate(job.Template, convert);
    }

    /** Takes the job and `force` flag from the base manager's `UpdateJob`
        and returns them unchanged, after hydrating the job's birthdays from
        its template when there is a job and it has a template. An exception
        from the base or from a conversion is thrown, so the pair reaches the
        caller only on `Pass`. The table of current jobs is the one the base
        leaves. */
    method UpdateJob(viaOverride: bool, via: Option<string>, data: Option<string>,
                     baseUpdate: BaseUpdate, convert: Converter)
      returns (job: HodlcoinJob?, force: bool, r: Outcome)
      requires allocated(UpdatedJob(baseUpdate(currentJobs, viaOverride, via, data)))
      modifies this`calls, this`currentJobs, UpdatedJob(baseUpdate(currentJobs, viaOverride, via, data))
      ensures currentJobs == baseUpdate(old(currentJobs), viaOverride, via, data).jobs
      ensures calls == old(calls) + [BaseUpdateJob(viaOverride, via, data)]
      ensures job == UpdatedJob(baseUpdate(old(currentJobs), viaOverride, via, data))
      ensures baseUpdate(old(currentJobs), viaOverride, via, data).result.Err? ==>
                r == Fail(baseUpdate(old(currentJobs), viaOverride, via, data).result.error)
      ensures baseUpdate(old(currentJobs), viaOverride, via, data).result.Ok? ==>
                (job, force) == baseUpdate(old(currentJobs), viaOverride, via, data).result.value
      ensures job != null && job.Template.Some? ==>
                Hydration(job.State(), r) == Hydrate(old(job.State()), job.Template, convert)
      ensures (baseUpdate(old(currentJobs), viaOverride, via, data).result.Ok? && !(job != null && job.Template.Some?))
                ==> r == Pass
      ensures job != null && job.Template.None? ==> job.State() == old(job.State())
    {
      var updated := baseUpdate(currentJobs, viaOverride, via, data);
      calls := calls + [BaseUpdateJob(viaOverride, via, data)];
      currentJobs := updated.jobs;
      if updated.result.Err? {
        return null, false, Fail(updated.result.error);
      }
      job, force := updated.result.value.0, updated.result.value.1;
      r := Pass;
      if job != null && job.Template.Some? {
        r := job.SetBirthdaysFromTemplate(job.Template, convert);
      }
    }

    /** Routes a submission to the job registered under `jobId`: a null or
        unknown id is rejected before any job is asked; otherwise the job's
        `ProcessShare` gets the submission's fields unchanged, and the share
        and block it produces are handed to `OnSubmitShareAsync` and the share
        is returned. The table of current jobs is left as it was. */
    method SubmitShareAsync(worker: StratumConnection, context: WorkerContext,
                            jobId: Option<string>, extraNonce2: string, nTime: string, nonce: string,
                            birthdayA: Option<string>, birthdayB: Option<string>,
                            process: ShareProcessor, record: ShareRecorder)
      returns (r: Result<Share>)
      modifies this`calls
      ensures currentJobs == old(currentJobs)
      ensures jobId.None? ==> r == Err(NullKeyError) && calls == old(calls)
      ensures jobId.Some? && jobId.value !in currentJobs ==> r == Err(JobNotFoundError) && calls == old(calls)
      ensures jobId.Some? && jobId.value in currentJobs ==>
        var job := currentJobs[jobId.value];
        var request := ShareRequest(worker, extraNonce2, nTime, nonce, birthdayA, birthdayB);
        match process(job, request)
        case Err(e) =>
          r == Err(e) && calls == old(calls) + [ProcessShare(job, request)]
        case Ok(p) =>
          && calls == old(calls) + [ProcessShare(job, request), OnSubmitShare(worker, context, p.share, p.blockHex)]
          && r == (if record(worker, context, p.share, p.blockHex).Pass? then Ok(p.share)
                   else Err(record(worker, context, p.share, p.blockHex).error))
    {
      var found := LookupJob(currentJobs, jobId);
      if found.Err? {
        return Err(found.error);
      }
      var job := found.value;
      var request := ShareRequest(worker, extraNonce2, nTime, nonce, birthdayA, birthdayB);
      calls := calls + [ProcessShare(job, request)];
      var processed := process(job, request);
      if processed.Err? {
        return Err(processed.error);
      }
      var share, blockHex := processed.value.share, processed.value.blockHex;
      calls := calls + [OnSubmitShare(worker, context, share, blockHex)];
      var recorded := record(worker, context, share, blockHex);
      if recorded.Fail? {
        return Err(recorded.error);
      }
      r := Ok(share);
    }
  }
}
