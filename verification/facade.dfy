/** `GenerationFacade`: the entry point that owns the database, the annotation
    records and (once wired) the background processor, and whose pipeline the
    processor runs for each job. The facade's own state is a value; each operation
    returns the facade after it. */
module Facade {
  import opened Wrappers
  import opened Annotations
  import opened Storage
  import opened Generation
  import opened Jobs

  /** The message `enqueueGeneration` throws before a processor is wired. */
  const NotInitialized: string := "BackgroundProcessor not initialized in Facade."

  /** The facade: the pipeline's stages, the database, the annotation service's
      records and the optional background processor. */
  datatype Facade<!M, L> = Facade(stages: Stages<M, L>, db: Database<L>,
                                  annotations: seq<Annotation>,
                                  processor: Option<Processor<L>>)

  /** The constructor: no processor yet. */
  function NewFacade<M, L>(stages: Stages<M, L>, db: Database<L>, annotations: seq<Annotation>)
    : (f: Facade<M, L>)
    ensures f.processor.None?
    ensures f.stages == stages && f.db == db && f.annotations == annotations
  {
    Facade(stages, db, annotations, None)
  }

  /** `setBackgroundProcessor`: wire (or re-wire) the processor; nothing else changes. */
  function SetBackgroundProcessor<M, L>(f: Facade<M, L>, p: Processor<L>): (r: Facade<M, L>)
    ensures r.processor == Some(p)
    ensures r.stages == f.stages && r.db == f.db && r.annotations == f.annotations
  {
    f.(processor := Some(p))
  }

  /** `enqueueGeneration`: without a processor, fail with `NotInitialized` and change
      nothing; otherwise hand `content`, unchanged, to `enqueueTask` as the job's
      plan and return the job's id (`jobId` stands for the id the processor draws). */
  function EnqueueGeneration<M, L>(f: Facade<M, L>, content: string, jobId: string)
    : (r: (Result<string, string>, Facade<M, L>))
    requires f.processor.Some? ==>
               UniqueIds(f.processor.value.jobs) && !Known(f.processor.value.jobs, jobId)
    ensures f.processor.None? ==> r == (Failure(NotInitialized), f)
    ensures f.processor.Some? ==>
              && r.0 == Success(jobId)
              && r.1.processor.Some?
              && r.1.processor.value == Enqueue(f.processor.value, jobId, content).0
              && r.1.stages == f.stages && r.1.db == f.db && r.1.annotations == f.annotations
    ensures f.processor.Some? ==>
              var jobs := r.1.processor.value.jobs;
              && |jobs| == |f.processor.value.jobs| + 1
              && jobs[|jobs| - 1].id == jobId && jobs[|jobs| - 1].planID == content
  {
    match f.processor
    case None => (Failure(NotInitialized), f)
    case Some(p) =>
      var (p', id) := Enqueue(p, jobId, content);
      (Success(id), f.(processor := Some(p')))
  }

  /** `addAnnotation`: forwarded to the annotation service with the same text and
      position; the service's record is returned. */
  function AddAnnotation<M, L>(f: Facade<M, L>, id: string, text: string, position: Vec3)
    : (r: (Facade<M, L>, Annotation))
    ensures (r.0.annotations, r.1) == Add(f.annotations, id, text, position)
    ensures r.0.stages == f.stages && r.0.db == f.db && r.0.processor == f.processor
  {
    var (records, record) := Add(f.annotations, id, text, position);
    (f.(annotations := records), record)
  }

  /** `removeAnnotation`: forwarded to the annotation service with the same id. */
  function RemoveAnnotation<M, L>(f: Facade<M, L>, id: string): (r: Facade<M, L>)
    ensures r.annotations == RemoveAll(f.annotations, id)
    ensures r.stages == f.stages && r.db == f.db && r.processor == f.processor
  {
    f.(annotations := RemoveAll(f.annotations, id))
  }

  /** The processor's run waiting for the pipeline: the invariant holds and the
      current job has passed its checkpoint. */
  predicate Running<M, L>(f: Facade<M, L>)
  {
    f.processor.Some? && Inv(f.processor.value) && AwaitingPipeline(f.processor.value)
  }

  /** The plan of the job the processor is running. */
  function CurrentPlan<L>(p: Processor<L>): string
    requires AwaitingPipeline(p)
  {
    p.jobs[IndexOfJob(p.jobs, p.current.value)].planID
  }

  /** The pipeline step of `executeJob`: `generate3DLayoutFrom2D` on the current
      job's plan (storing into the facade's database on success), then `Finish`
      with its outcome. `layoutId` stands for the id the database draws. */
  function RunPipeline<M, L>(f: Facade<M, L>, layoutId: string): (r: Facade<M, L>)
    requires Running(f)
    ensures r.stages == f.stages && r.annotations == f.annotations
    ensures r.processor.Some?
    ensures var g := Generate(f.stages, f.db, CurrentPlan(f.processor.value), layoutId);
      r.db == g.1 && r.processor.value == Finish(f.processor.value, g.0)
  {
    var p := f.processor.value;
    var (outcome, db') := Generate(f.stages, f.db, CurrentPlan(p), layoutId);
    f.(db := db', processor := Some(Finish(p, outcome)))
  }

  /** Running the pipeline keeps the processor's invariant; when the job completes,
      its `resultID` names, in the facade's database, exactly the layout the job
      holds as its result, and when it fails the database is unchanged. */
  lemma RunPipelineStoresResult<M, L>(f: Facade<M, L>, layoutId: string)
    requires Running(f)
    ensures var r := RunPipeline(f, layoutId);
      var p := f.processor.value;
      var c := IndexOfJob(p.jobs, p.current.value);
      var job := Record(p, Generate(f.stages, f.db, CurrentPlan(p), layoutId).0).jobs[c];
      && Inv(r.processor.value)
      && r.processor.value.jobs[c] == job
      && Terminal(job.status)
      && (job.status == Completed ==>
            GetLayout(r.db, job.resultID.value) == Some(job.result.value))
      && (job.status == Failed ==> r.db == f.db)
  {
    var p := f.processor.value;
    var c := IndexOfJob(p.jobs, p.current.value);
    var g := Generate(f.stages, f.db, CurrentPlan(p), layoutId);
    FinishInv(p, g.0);
    RecordOutcome(p, g.0);
    GenerateStoresWhatItReturns(f.stages, f.db, CurrentPlan(p), layoutId);
    var done := Record(p, g.0);
    RecordSettles(p, g.0);
    assert done.jobs[c].status != Queued;
    assert ProcessNext(done).jobs[c] == done.jobs[c];
  }

  /** Before a processor is wired, enqueueing fails and changes nothing; once one is
      wired, the same call succeeds with the job's id. */
  lemma EnqueueNeedsProcessor<M, L>(stages: Stages<M, L>, db: Database<L>, content: string,
                                    jobId: string)
    ensures var f := NewFacade(stages, db, []);
      && EnqueueGeneration(f, content, jobId) == (Failure(NotInitialized), f)
      && EnqueueGeneration(SetBackgroundProcessor(f, Initial()), content, jobId).0 == Success(jobId)
  {
  }
}
