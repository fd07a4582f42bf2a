/** `BackgroundProcessor`: a single-lane job scheduler, modelled as a transition
    system. Every `await` in the source is a step boundary, so each step below is
    one uninterrupted stretch of the source's code:

    - `Enqueue`: `enqueueTask`, including the run it starts synchronously when no
      job is current (up to the first `yieldToUI` of `executeJob`);
    - `Checkpoint`: the first `yieldToUI` returns and progress is set to 30;
    - `Finish`: the pipeline's outcome is recorded (COMPLETED or FAILED) and
      `processNext` picks the next queued job, if any.

    The pipeline's outcome is a parameter of `Finish`; the status-change subscriber
    is a log of notified records. `L` is the type of a job's result layout. */
module Jobs {
  import opened Wrappers
  import opened Generation

  /** `JobStatus`. `Idle` exists in the source's enum but no job is ever given it. */
  datatype JobStatus = Idle | Queued | Processing | Completed | Failed

  /** `Job`: the optional fields of the source are `Option`s. */
  datatype Job<L> = Job(id: string, planID: string, status: JobStatus, progress: int,
                        error: Option<string>, resultID: Option<string>, result: Option<L>)

  /** A `Partial<Job>` without the identity fields: the fields an `updateJob` call
      overwrites (`Some`) or leaves alone (`None`). */
  datatype Patch<L> = Patch(status: Option<JobStatus>, progress: Option<int>,
                            error: Option<string>, resultID: Option<string>, result: Option<L>)

  /** The scheduler's state: the job table in insertion order (a JavaScript `Map`
      iterates in insertion order), `currentJobId`, and every record handed to the
      status-change subscriber, in order. */
  datatype Processor<L> = Processor(jobs: seq<Job<L>>, current: Option<string>, notified: seq<Job<L>>)

  /** A new processor: no jobs, no current job, nothing notified. */
  function Initial<L>(): (s: Processor<L>)
    ensures s.jobs == [] && s.current.None? && s.notified == []
  {
    Processor([], None, [])
  }

  predicate UniqueIds<L>(jobs: seq<Job<L>>)
  {
    forall i, j :: 0 <= i < j < |jobs| ==> jobs[i].id != jobs[j].id
  }

  predicate Terminal(status: JobStatus)
  {
    status == Completed || status == Failed
  }

  /** `Map.get` as a position: the index of the job with `id`, or `|jobs|`. */
  function IndexOfJob<L>(jobs: seq<Job<L>>, id: string): (i: nat)
    ensures i <= |jobs|
    ensures forall k :: 0 <= k < i ==> jobs[k].id != id
    ensures i < |jobs| ==> jobs[i].id == id
  {
    if |jobs| == 0 then 0
    else if jobs[0].id == id then 0
    else 1 + IndexOfJob(jobs[1..], id)
  }

  /** `Map.has`. */
  predicate Known<L>(jobs: seq<Job<L>>, id: string)
  {
    IndexOfJob(jobs, id) < |jobs|
  }

  /** With unique ids, the job at index `k` is the one found under its id. */
  lemma IndexOfUnique<L>(jobs: seq<Job<L>>, k: nat)
    requires UniqueIds(jobs) && k < |jobs|
    ensures IndexOfJob(jobs, jobs[k].id) == k
  {
  }

  /** With unique ids, every job is the one found under its id. */
  lemma IndexOfEach<L>(jobs: seq<Job<L>>)
    ensures UniqueIds(jobs) ==> forall k :: 0 <= k < |jobs| ==> IndexOfJob(jobs, jobs[k].id) == k
  {
    if UniqueIds(jobs) {
      forall k | 0 <= k < |jobs|
        ensures IndexOfJob(jobs, jobs[k].id) == k
      {
        IndexOfUnique(jobs, k);
      }
    }
  }

  /** `{ ...job, ...updates }`. */
  function Merge<L>(job: Job<L>, patch: Patch<L>): (r: Job<L>)
    ensures r.id == job.id && r.planID == job.planID
    ensures r.status == (if patch.status.Some? then patch.status.value else job.status)
    ensures r.progress == (if patch.progress.Some? then patch.progress.value else job.progress)
    ensures patch.error.Some? ==> r.error == patch.error
    ensures patch.error.None? ==> r.error == job.error
    ensures patch.resultID.Some? ==> r.resultID == patch.resultID
    ensures patch.resultID.None? ==> r.resultID == job.resultID
    ensures patch.result.Some? ==> r.result == patch.result
    ensures patch.result.None? ==> r.result == job.result
  {
    Job(job.id, job.planID,
        if patch.status.Some? then patch.status.value else job.status,
        if patch.progress.Some? then patch.progress.value else job.progress,
        if patch.error.Some? then patch.error else job.error,
        if patch.resultID.Some? then patch.resultID else job.resultID,
        if patch.result.Some? then patch.result else job.result)
  }

  /** `updateJob`: merge the patch into the job with `id`, in place (`Map.set` on an
      existing key keeps its position), and notify the merged record. An unknown id
      changes nothing. */
  function UpdateJob<L>(s: Processor<L>, id: string, patch: Patch<L>): (r: Processor<L>)
    ensures |r.jobs| == |s.jobs| && r.current == s.current
    ensures !Known(s.jobs, id) ==> r == s
    ensures Known(s.jobs, id) ==>
              var i := IndexOfJob(s.jobs, id);
              && r.jobs == s.jobs[i := Merge(s.jobs[i], patch)]
              && r.notified == s.notified + [r.jobs[i]]
  {
    var i := IndexOfJob(s.jobs, id);
    if i == |s.jobs| then s
    else
      var job := Merge(s.jobs[i], patch);
      Processor(s.jobs[i := job], s.current, s.notified + [job])
  }

  /** The first job in insertion order that is QUEUED, or `|jobs|`. */
  function FirstQueued<L>(jobs: seq<Job<L>>): (i: nat)
    ensures i <= |jobs|
    ensures forall k :: 0 <= k < i ==> jobs[k].status != Queued
    ensures i < |jobs| ==> jobs[i].status == Queued
  {
    if |jobs| == 0 then 0
    else if jobs[0].status == Queued then 0
    else 1 + FirstQueued(jobs[1..])
  }

  /** The patch `executeJob` applies first. */
  function StartPatch<L>(): Patch<L>
  {
    Patch(Some(Processing), Some(10), None, None, None)
  }

  /** `processNext` up to its first suspension: start the earliest QUEUED job
      (PROCESSING, progress 10, notified), or clear the current job when none is
      queued. */
  function ProcessNext<L>(s: Processor<L>): (r: Processor<L>)
    requires UniqueIds(s.jobs)
    ensures FirstQueued(s.jobs) == |s.jobs| ==> r == s.(current := None)
    ensures FirstQueued(s.jobs) < |s.jobs| ==>
              var i := FirstQueued(s.jobs);
              && r.current == Some(s.jobs[i].id)
              && r.jobs == s.jobs[i := Merge(s.jobs[i], StartPatch())]
              && r.notified == s.notified + [r.jobs[i]]
  {
    var i := FirstQueued(s.jobs);
    if i == |s.jobs| then s.(current := None)
    else
      var id := s.jobs[i].id;
      IndexOfUnique(s.jobs, i);
      UpdateJob(s.(current := Some(id)), id, StartPatch())
  }

  /** `currentJobId` is truthy: set, and not the empty string (which JavaScript
      treats as false, like `null`). */
  predicate Busy(current: Option<string>)
  {
    current.Some? && current.value != ""
  }

  /** The record `enqueueTask` creates. */
  function NewJob<L>(id: string, planID: string): Job<L>
  {
    Job(id, planID, Queued, 0, None, None, None)
  }

  /** The table after `jobs.set(jobId, newJob)` and `notify(newJob)`. */
  function Queue<L>(s: Processor<L>, id: string, planID: string): (r: Processor<L>)
    requires UniqueIds(s.jobs) && !Known(s.jobs, id)
    ensures UniqueIds(r.jobs)
    ensures r.jobs == s.jobs + [NewJob(id, planID)] && r.current == s.current
    ensures r.notified == s.notified + [NewJob(id, planID)]
  {
    Processor(s.jobs + [NewJob(id, planID)], s.current, s.notified + [NewJob(id, planID)])
  }

  /** `enqueueTask`, with `id` standing for the id the source draws from the clock
      and a random suffix: append a QUEUED record, notify it, start a run when
      `currentJobId` is falsy, and return the id. */
  function Enqueue<L>(s: Processor<L>, id: string, planID: string): (r: (Processor<L>, string))
    requires UniqueIds(s.jobs) && !Known(s.jobs, id)
    ensures r.1 == id
    ensures |r.0.jobs| == |s.jobs| + 1
    ensures r.0.jobs[|s.jobs|].id == id && r.0.jobs[|s.jobs|].planID == planID
    ensures Busy(s.current) ==> r.0 == Queue(s, id, planID)
    ensures !Busy(s.current) ==> r.0 == ProcessNext(Queue(s, id, planID))
  {
    var queued := Queue(s, id, planID);
    if !Busy(s.current) then (ProcessNext(queued), id) else (queued, id)
  }

  /** The run is waiting for its first checkpoint: the current job is PROCESSING
      at 10. */
  predicate AwaitingCheckpoint<L>(s: Processor<L>)
  {
    && s.current.Some?
    && var i := IndexOfJob(s.jobs, s.current.value);
    && i < |s.jobs| && s.jobs[i].status == Processing && s.jobs[i].progress == 10
  }

  /** The run is waiting for the pipeline: the current job is PROCESSING at 30. */
  predicate AwaitingPipeline<L>(s: Processor<L>)
  {
    && s.current.Some?
    && var i := IndexOfJob(s.jobs, s.current.value);
    && i < |s.jobs| && s.jobs[i].status == Processing && s.jobs[i].progress == 30
  }

  /** After the first `yieldToUI`: progress 30. */
  function Checkpoint<L>(s: Processor<L>): (r: Processor<L>)
    requires AwaitingCheckpoint(s)
    ensures r.current == s.current
    ensures r.jobs == s.jobs[IndexOfJob(s.jobs, s.current.value) :=
                             s.jobs[IndexOfJob(s.jobs, s.current.value)].(progress := 30)]
    ensures r.notified == s.notified + [r.jobs[IndexOfJob(s.jobs, s.current.value)]]
  {
    UpdateJob(s, s.current.value, Patch(None, Some(30), None, None, None))
  }

  /** The patch recording the pipeline's outcome: COMPLETED at 100 with the result,
      or FAILED with the error's text and progress left where it was. */
  function OutcomePatch<L>(outcome: Result<Generated<L>, Error>): Patch<L>
  {
    match outcome
    case Success(g) => Patch(Some(Completed), Some(100), None, Some(g.resultID), Some(g.layout))
    case Failure(e) => Patch(Some(Failed), None, Some(ErrorText(e)), None, None)
  }

  /** The table once the outcome is recorded, before `processNext`. */
  function Record<L>(s: Processor<L>, outcome: Result<Generated<L>, Error>): (r: Processor<L>)
    requires AwaitingPipeline(s)
    ensures |r.jobs| == |s.jobs| && r.current == s.current
    ensures r.jobs == s.jobs[IndexOfJob(s.jobs, s.current.value) :=
                             Merge(s.jobs[IndexOfJob(s.jobs, s.current.value)], OutcomePatch(outcome))]
    ensures r.notified == s.notified + [r.jobs[IndexOfJob(s.jobs, s.current.value)]]
  {
    UpdateJob(s, s.current.value, OutcomePatch(outcome))
  }

  /** The pipeline has returned (after one more `yieldToUI` on success) or thrown:
      record the outcome, then `processNext`. */
  function Finish<L>(s: Processor<L>, outcome: Result<Generated<L>, Error>): (r: Processor<L>)
    requires UniqueIds(s.jobs) && AwaitingPipeline(s)
    ensures |r.jobs| == |s.jobs|
    ensures var c := IndexOfJob(s.jobs, s.current.value);
      && r.jobs[c] == Merge(s.jobs[c], OutcomePatch(outcome))
      && Terminal(r.jobs[c].status)
      && |s.notified| < |r.notified| && r.notified[..|s.notified| + 1] == s.notified + [r.jobs[c]]
    ensures forall k :: 0 <= k < |s.jobs| ==> r.jobs[k].id == s.jobs[k].id
  {
    ProcessNext(Record(s, outcome))
  }

  /** `getJobStatus`: the stored record, or `undefined`. */
  function GetJobStatus<L>(s: Processor<L>, id: string): (r: Option<Job<L>>)
    ensures r.Some? <==> exists k :: 0 <= k < |s.jobs| && s.jobs[k].id == id
    ensures r.Some? ==> r.value in s.jobs && r.value.id == id
  {
    var i := IndexOfJob(s.jobs, id);
    if i < |s.jobs| then Some(s.jobs[i]) else None
  }

  /** `getAllJobs`: the records in insertion order. */
  function GetAllJobs<L>(s: Processor<L>): (r: seq<Job<L>>)
    ensures |r| == |s.jobs|
    ensures forall k :: 0 <= k < |r| ==> GetJobStatus(s, r[k].id).Some?
    ensures UniqueIds(s.jobs) ==> forall k :: 0 <= k < |r| ==> GetJobStatus(s, r[k].id) == Some(r[k])
    ensures forall id :: GetJobStatus(s, id).Some? ==> GetJobStatus(s, id).value in r
  {
    IndexOfEach(s.jobs);
    s.jobs
  }

  /** Queries after `enqueueTask`: the new record is found under its id, and the
      list of all jobs is the old list, in the same order, followed by it while it
      waits; an id never enqueued stays unknown. */
  lemma EnqueueThenQuery<L>(s: Processor<L>, id: string, planID: string, other: string)
    requires UniqueIds(s.jobs) && !Known(s.jobs, id) && Busy(s.current)
    requires other != id && !Known(s.jobs, other)
    ensures var r := Enqueue(s, id, planID).0;
      && GetJobStatus(r, id) == Some(NewJob(id, planID))
      && GetAllJobs(r) == GetAllJobs(s) + [NewJob(id, planID)]
      && GetJobStatus(r, other).None?
  {
    var r := Enqueue(s, id, planID).0;
    IndexOfUnique(r.jobs, |s.jobs|);
  }

  /** The same queries when the processor was idle: the new record has already
      been started, so it is found PROCESSING at 10. */
  lemma IdleEnqueueThenQuery<L>(s: Processor<L>, id: string, planID: string, other: string)
    requires Inv(s) && !Known(s.jobs, id) && s.current.None?
    requires other != id && !Known(s.jobs, other)
    ensures var r := Enqueue(s, id, planID).0;
      var started := NewJob<L>(id, planID).(status := Processing, progress := 10);
      && GetJobStatus(r, id) == Some(started)
      && GetAllJobs(r) == GetAllJobs(s) + [started]
      && GetJobStatus(r, other).None?
  {
    var queued := Queue(s, id, planID);
    assert forall k :: 0 <= k < |s.jobs| ==> queued.jobs[k].status != Queued;
    assert queued.jobs[|s.jobs|].status == Queued;
    var r := ProcessNext(queued);
    assert r.jobs == s.jobs + [NewJob<L>(id, planID).(status := Processing, progress := 10)];
    IndexOfUnique(r.jobs, |s.jobs|);
  }

  // ---------------------------------------------------------------------------
  // Invariants

  /** The fields a job carries in each status. */
  predicate WellFormed<L>(job: Job<L>)
  {
    match job.status
    case Idle => false
    case Queued =>
      job.progress == 0 && job.error.None? && job.resultID.None? && job.result.None?
    case Processing =>
      (job.progress == 10 || job.progress == 30)
      && job.error.None? && job.resultID.None? && job.result.None?
    case Completed =>
      job.progress == 100 && job.error.None? && job.resultID.Some? && job.result.Some?
    case Failed =>
      job.progress == 30 && job.error.Some? && job.error.value != ""
      && job.resultID.None? && job.result.None?
  }

  /** The table's shape: finished jobs, then at most one PROCESSING job (the current
      one), then queued jobs; with no current job, every job is finished. */
  predicate Inv<L>(s: Processor<L>)
  {
    && UniqueIds(s.jobs)
    && (forall k :: 0 <= k < |s.jobs| ==> s.jobs[k].id != "")
    && (forall k :: 0 <= k < |s.jobs| ==> WellFormed(s.jobs[k]))
    && (s.current.None? ==> forall k :: 0 <= k < |s.jobs| ==> Terminal(s.jobs[k].status))
    && (s.current.Some? ==>
          var c := IndexOfJob(s.jobs, s.current.value);
          && c < |s.jobs|
          && s.jobs[c].status == Processing
          && (forall k :: 0 <= k < c ==> Terminal(s.jobs[k].status))
          && (forall k :: c < k < |s.jobs| ==> s.jobs[k].status == Queued))
  }

  /** The shape between a run's end and `processNext`: no job PROCESSING, and the
      QUEUED jobs come after all finished ones. */
  predicate Settled<L>(s: Processor<L>)
  {
    && UniqueIds(s.jobs)
    && (forall k :: 0 <= k < |s.jobs| ==> s.jobs[k].id != "")
    && (forall k :: 0 <= k < |s.jobs| ==> WellFormed(s.jobs[k]))
    && (forall k :: 0 <= k < |s.jobs| ==> s.jobs[k].status != Processing)
    && (forall k, m :: 0 <= k < m < |s.jobs| && s.jobs[k].status == Queued ==>
                         s.jobs[m].status == Queued)
  }

  lemma InitialInv<L>()
    ensures Inv(Initial<L>())
  {
  }

  /** `processNext` from a settled table restores the invariant: it starts the
      earliest QUEUED job, or goes idle when none is queued. */
  lemma ProcessNextInv<L>(s: Processor<L>)
    requires Settled(s)
    ensures Inv(ProcessNext(s))
  {
    var i := FirstQueued(s.jobs);
    if i < |s.jobs| {
      var r := ProcessNext(s);
      assert forall k :: 0 <= k < |s.jobs| && k != i ==> r.jobs[k] == s.jobs[k];
      assert r.jobs[i].id == s.jobs[i].id && r.jobs[i].status == Processing;
      assert UniqueIds(r.jobs);
      IndexOfUnique(r.jobs, i);
      assert forall k :: 0 <= k < i ==> Terminal(r.jobs[k].status);
      assert forall k :: i < k < |r.jobs| ==> r.jobs[k].status == Queued;
    }
  }

  /** Enqueueing a fresh id keeps the invariant. */
  lemma EnqueueInv<L>(s: Processor<L>, id: string, planID: string)
    requires Inv(s) && !Known(s.jobs, id) && id != ""
    ensures Inv(Enqueue(s, id, planID).0)
  {
    var queued := Queue(s, id, planID);
    if s.current.None? {
      assert Settled(queued);
      ProcessNextInv(queued);
    } else {
      var c := IndexOfJob(s.jobs, s.current.value);
      IndexOfUnique(queued.jobs, c);
    }
  }

  /** Under the invariant, a current job means exactly one continuation is pending:
      the checkpoint or the pipeline. */
  lemma RunningPhase<L>(s: Processor<L>)
    requires Inv(s) && s.current.Some?
    ensures AwaitingCheckpoint(s) != AwaitingPipeline(s)
  {
  }

  /** The checkpoint keeps the invariant and leaves the run waiting for the pipeline. */
  lemma CheckpointInv<L>(s: Processor<L>)
    requires Inv(s) && AwaitingCheckpoint(s)
    ensures Inv(Checkpoint(s)) && AwaitingPipeline(Checkpoint(s))
  {
    var c := IndexOfJob(s.jobs, s.current.value);
    var r := Checkpoint(s);
    assert forall k :: 0 <= k < |s.jobs| ==> r.jobs[k].id == s.jobs[k].id;
    assert UniqueIds(r.jobs);
    IndexOfUnique(r.jobs, c);
  }

  /** Recording the outcome of the run leaves a settled table. */
  lemma RecordSettles<L>(s: Processor<L>, outcome: Result<Generated<L>, Error>)
    requires Inv(s) && AwaitingPipeline(s)
    ensures Settled(Record(s, outcome))
  {
    var r := Record(s, outcome);
    assert forall k :: 0 <= k < |s.jobs| ==> r.jobs[k].id == s.jobs[k].id;
  }

  /** Recording the outcome and moving on keeps the invariant, whatever the outcome. */
  lemma FinishInv<L>(s: Processor<L>, outcome: Result<Generated<L>, Error>)
    requires Inv(s) && AwaitingPipeline(s)
    ensures Inv(Finish(s, outcome))
  {
    RecordSettles(s, outcome);
    ProcessNextInv(Record(s, outcome));
  }

  /** Single flight: under the invariant at most one job is PROCESSING, it is the
      current one, every job inserted before it is finished and every job after it
      is still queued. With no current job nothing is queued, so a queued job is
      never left waiting. */
  lemma SingleFlight<L>(s: Processor<L>)
    requires Inv(s)
    ensures forall k :: 0 <= k < |s.jobs| && s.jobs[k].status == Processing ==>
              && s.current == Some(s.jobs[k].id)
              && (forall j :: 0 <= j < k ==> Terminal(s.jobs[j].status))
              && (forall j :: k < j < |s.jobs| ==> s.jobs[j].status == Queued)
    ensures forall k, m :: (0 <= k < |s.jobs| && 0 <= m < |s.jobs| &&
                            s.jobs[k].status == Processing && s.jobs[m].status == Processing) ==> k == m
    ensures (exists k :: 0 <= k < |s.jobs| && s.jobs[k].status == Queued) ==> s.current.Some?
  {
    forall k | 0 <= k < |s.jobs| && s.jobs[k].status == Processing
      ensures s.current == Some(s.jobs[k].id)
    {
      IndexOfUnique(s.jobs, k);
    }
  }

  // ---------------------------------------------------------------------------
  // How one step relates to the next

  /** Rank of a status along QUEUED -> PROCESSING -> finished. */
  function Rank(status: JobStatus): nat
  {
    match status
    case Idle => 0
    case Queued => 0
    case Processing => 1
    case Completed => 2
    case Failed => 2
  }

  /** `t` is a later state of `s`: no job disappears or moves, identities and plans
      stay, status and progress never go back, finished jobs never change, and the
      notification log only grows. */
  ghost predicate Evolves<L>(s: Processor<L>, t: Processor<L>)
  {
    && |s.jobs| <= |t.jobs|
    && |s.notified| <= |t.notified|
    && t.notified[..|s.notified|] == s.notified
    && forall k :: 0 <= k < |s.jobs| ==>
         && t.jobs[k].id == s.jobs[k].id
         && t.jobs[k].planID == s.jobs[k].planID
         && Rank(s.jobs[k].status) <= Rank(t.jobs[k].status)
         && s.jobs[k].progress <= t.jobs[k].progress
         && (Terminal(s.jobs[k].status) ==> t.jobs[k] == s.jobs[k])
  }

  lemma EvolvesTransitive<L>(s: Processor<L>, t: Processor<L>, u: Processor<L>)
    requires Evolves(s, t) && Evolves(t, u)
    ensures Evolves(s, u)
  {
    assert u.notified[..|s.notified|] == u.notified[..|t.notified|][..|s.notified|];
  }

  /** Starting the next job only moves a QUEUED job forward. */
  lemma ProcessNextEvolves<L>(s: Processor<L>)
    requires Settled(s)
    ensures Evolves(s, ProcessNext(s))
  {
  }

  lemma EnqueueEvolves<L>(s: Processor<L>, id: string, planID: string)
    requires Inv(s) && !Known(s.jobs, id) && id != ""
    ensures Evolves(s, Enqueue(s, id, planID).0)
  {
    var queued := Queue(s, id, planID);
    assert Evolves(s, queued);
    if s.current.None? {
      assert Settled(queued);
      ProcessNextEvolves(queued);
      EvolvesTransitive(s, queued, ProcessNext(queued));
    }
  }

  lemma CheckpointEvolves<L>(s: Processor<L>)
    requires Inv(s) && AwaitingCheckpoint(s)
    ensures Evolves(s, Checkpoint(s))
  {
  }

  lemma FinishEvolves<L>(s: Processor<L>, outcome: Result<Generated<L>, Error>)
    requires Inv(s) && AwaitingPipeline(s)
    ensures Evolves(s, Finish(s, outcome))
  {
    var done := Record(s, outcome);
    assert Evolves(s, done);
    RecordSettles(s, outcome);
    ProcessNextEvolves(done);
    EvolvesTransitive(s, done, ProcessNext(done));
  }

  /** What recording the outcome does to the current job: COMPLETED at 100 with the
      result, or FAILED with the error's text, progress left at 30 and no result id;
      every job inserted before it was already finished. */
  lemma RecordOutcome<L>(s: Processor<L>, outcome: Result<Generated<L>, Error>)
    requires Inv(s) && AwaitingPipeline(s)
    ensures var c := IndexOfJob(s.jobs, s.current.value);
      var job := Record(s, outcome).jobs[c];
      && (forall k :: 0 <= k < c ==> Terminal(s.jobs[k].status))
      && (outcome.Success? ==>
            job == s.jobs[c].(status := Completed, progress := 100,
                              resultID := Some(outcome.value.resultID),
                              result := Some(outcome.value.layout)))
      && (outcome.Failure? ==>
            && job.status == Failed && job.progress == 30
            && job.error == Some(ErrorText(outcome.error))
            && job.resultID.None? && job.result.None?)
  {
  }

  /** Failure isolation: whatever the outcome, `Finish` starts the job inserted
      right after the finished one when there is one, and goes idle otherwise. */
  lemma FinishStartsSuccessor<L>(s: Processor<L>, outcome: Result<Generated<L>, Error>)
    requires Inv(s) && AwaitingPipeline(s)
    ensures var c := IndexOfJob(s.jobs, s.current.value);
      var r := Finish(s, outcome);
      && (c + 1 < |s.jobs| ==>
            && r.current == Some(s.jobs[c + 1].id)
            && r.jobs[c + 1].status == Processing && r.jobs[c + 1].progress == 10)
      && (c + 1 == |s.jobs| ==> r.current.None?)
  {
    var c := IndexOfJob(s.jobs, s.current.value);
    var done := Record(s, outcome);
    RecordSettles(s, outcome);
    assert forall k :: 0 <= k <= c ==> done.jobs[k].status != Queued;
    assert forall k :: c < k < |s.jobs| ==> done.jobs[k] == s.jobs[k];
  }

  // ---------------------------------------------------------------------------
  // A run of two jobs, the first failing

  function JobA<L>(status: JobStatus, progress: int, error: Option<string>): Job<L>
  {
    Job("A", "planA", status, progress, error, None, None)
  }

  function JobB<L>(status: JobStatus, progress: int, resultID: Option<string>, result: Option<L>): Job<L>
  {
    Job("B", "planB", status, progress, None, resultID, result)
  }

  /** Submitting A to an idle processor starts it at once; B then waits. */
  lemma TwoJobsSubmitted<L>()
    ensures Enqueue(Enqueue(Initial<L>(), "A", "planA").0, "B", "planB").0
            == Processor([JobA(Processing, 10, None), JobB(Queued, 0, None, None)], Some("A"),
                         [JobA(Queued, 0, None), JobA(Processing, 10, None), JobB(Queued, 0, None, None)])
  {
    var s1 := Enqueue(Initial<L>(), "A", "planA").0;
    assert FirstQueued(Queue(Initial<L>(), "A", "planA").jobs) == 0;
    assert s1 == Processor([JobA(Processing, 10, None)], Some("A"),
                           [JobA(Queued, 0, None), JobA(Processing, 10, None)]);
    assert IndexOfJob(s1.jobs, "B") == 1;
  }

  /** A fails with message "X" after its checkpoint; B is started in the same step. */
  lemma FirstJobFails<L>()
    ensures var s := Processor([JobA(Processing, 10, None), JobB<L>(Queued, 0, None, None)], Some("A"),
                               [JobA(Queued, 0, None), JobA(Processing, 10, None), JobB(Queued, 0, None, None)]);
      && AwaitingCheckpoint(s) && UniqueIds(Checkpoint(s).jobs) && AwaitingPipeline(Checkpoint(s))
      && Finish(Checkpoint(s), Failure(Error(Some("X"))))
         == Processor([JobA(Failed, 30, Some("X")), JobB(Processing, 10, None, None)], Some("B"),
                      s.notified + [JobA(Processing, 30, None), JobA(Failed, 30, Some("X")),
                                    JobB(Processing, 10, None, None)])
  {
    var s := Processor([JobA(Processing, 10, None), JobB<L>(Queued, 0, None, None)], Some("A"),
                       [JobA(Queued, 0, None), JobA(Processing, 10, None), JobB(Queued, 0, None, None)]);
    assert IndexOfJob(s.jobs, "A") == 0;
    var s3 := Checkpoint(s);
    assert s3.jobs == [JobA(Processing, 30, None), JobB(Queued, 0, None, None)];
    var done := Record(s3, Failure(Error(Some("X"))));
    assert done.jobs == [JobA(Failed, 30, Some("X")), JobB(Queued, 0, None, None)];
    assert FirstQueued(done.jobs) == 1;
    assert IndexOfJob(done.jobs, "B") == 1;
  }

  /** B then completes normally. */
  lemma SecondJobCompletes<L>(layout: L, before: seq<Job<L>>)
    ensures var s := Processor([JobA(Failed, 30, Some("X")), JobB<L>(Processing, 10, None, None)], Some("B"), before);
      && AwaitingCheckpoint(s) && UniqueIds(Checkpoint(s).jobs) && AwaitingPipeline(Checkpoint(s))
      && Finish(Checkpoint(s), Success(Generated("L1", layout)))
         == Processor([JobA(Failed, 30, Some("X")), JobB(Completed, 100, Some("L1"), Some(layout))], None,
                      before + [JobB(Processing, 30, None, None), JobB(Completed, 100, Some("L1"), Some(layout))])
  {
    var s := Processor([JobA(Failed, 30, Some("X")), JobB<L>(Processing, 10, None, None)], Some("B"), before);
    assert IndexOfJob(s.jobs, "B") == 1;
    var s5 := Checkpoint(s);
    assert s5.jobs == [JobA(Failed, 30, Some("X")), JobB(Processing, 30, None, None)];
    var done := Record(s5, Success(Generated("L1", layout)));
    assert FirstQueued(done.jobs) == 2;
  }

  /** The whole run: A and B submitted, A fails with "X" after its checkpoint, B
      completes after its checkpoint with the layout stored under "L1". */
  function TwoJobRun<L>(layout: L): Processor<L>
  {
    TwoJobsSubmitted<L>();
    FirstJobFails<L>();
    var s2 := Enqueue(Enqueue(Initial<L>(), "A", "planA").0, "B", "planB").0;
    var s4 := Finish(Checkpoint(s2), Failure(Error(Some("X"))));
    SecondJobCompletes<L>(layout, s4.notified);
    Finish(Checkpoint(s4), Success(Generated("L1", layout)))
  }

  /** Over that run both jobs end finished, the processor goes idle, and the
      subscriber saw eight records: the failure of A and the start of B back to back. */
  lemma FailureDoesNotBlockLaterJob<L>(layout: L)
    ensures var r := TwoJobRun(layout);
      && r.jobs == [JobA(Failed, 30, Some("X")), JobB(Completed, 100, Some("L1"), Some(layout))]
      && r.current.None?
      && |r.notified| == 8
      && r.notified[4] == JobA(Failed, 30, Some("X"))
      && r.notified[5] == JobB(Processing, 10, None, None)
  {
    TwoJobsSubmitted<L>();
    FirstJobFails<L>();
    var log2 := [JobA<L>(Queued, 0, None), JobA(Processing, 10, None), JobB(Queued, 0, None, None)];
    var log4 := log2 + [JobA(Processing, 30, None), JobA(Failed, 30, Some("X")),
                        JobB(Processing, 10, None, None)];
    SecondJobCompletes<L>(layout, log4);
    var s4 := Processor([JobA(Failed, 30, Some("X")), JobB<L>(Processing, 10, None, None)], Some("B"), log4);
    assert TwoJobRun(layout) == Finish(Checkpoint(s4), Success(Generated("L1", layout)));
  }
}
