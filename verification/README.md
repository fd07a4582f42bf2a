# Floor-plan to 3D layout: iteration, scene tree, stores and job scheduler

This project models the logic at the centre of a browser application that turns
2D floor plans into 3D layouts:

- the iteration protocol (`hasNext`/`next`) and its single implementation. This is an index
  cursor over an array that it shares with the array's owner. `CompositeIterator`,
  `AnnotationIterator`, `LayoutIterator` and `RoomIterator` are all this one cursor;
- the composite scene tree. `SceneNode` has `add` and `remove`. The `Layout3D`, `Room` and
  `Furniture` kinds differ only in their `createIterator`. There is also
  `AnnotationController.findNodeById`, a fixed two-level search over rooms and their items;
- the flat stores. `AnnotationService` keeps one ordered array of annotation records.
  `Database` keeps a map from id to layout plus a list of annotations. `I2DToolsFactory`
  is the tool factory;
- `BackgroundProcessor`, a single-lane job scheduler with the job life cycle
  QUEUED → PROCESSING(10) → PROCESSING(30) → COMPLETED(100) | FAILED;
- `GenerationFacade`, made of two parts:
  - the validate → parse → reconstruct → store sequence;
  - the guard on `enqueueGeneration` and the forwarding of annotation edits.

Layout of the model:

- `wrappers.dfy`: `Option` and `Result`.
- `seqs.dfy`: the array edits `indexOf`, `splice` and remove-first.
- `iteration.dfy`: one cursor step as pure functions, and the classes `Box` and
  `Cursor`. A `Box` is a JavaScript array as an object. Because its owner and every open
  cursor hold the same `Box`, the model keeps the source's aliasing.
- `scene.dfy` and `controller.dfy`: the scene tree and the node search.
- `annotations.dfy` and `storage.dfy`: the stores.
- `generation.dfy`: the generation pipeline. The validator, the parser and the
  reconstruction engine are given as functions. A stage that throws returns a `Failure`.
- `jobs.dfy`: the scheduler as a pure transition system.
  - Every `await` is a step boundary.
  - `Enqueue` is `enqueueTask`, including the run it starts synchronously when the
    processor is idle.
  - `Checkpoint` is progress 30.
  - `Finish` records the pipeline's outcome and then runs `processNext`.
  - The status-change subscriber is modelled as the log of the records it was handed.
- `facade.dfy`: the facade as a value that holds the database, the annotation
  records and the optional processor. `RunPipeline` connects the scheduler to the
  generation pipeline.

The ids the source draws from the clock and from `Math.random` are parameters.

## Model

| member | source | states |
|---|---|---|
| Seqs.IndexOf | src/core/entities/SceneNode.ts:20 | the result is -1 exactly when the node is absent; otherwise it is an index holding the node with no earlier occurrence |
| Seqs.IndexOfFirst | src/core/entities/SceneNode.ts:20 | any index holding the node with no earlier occurrence is the one `indexOf` returns |
| Seqs.Splice | src/core/entities/SceneNode.ts:22 | `splice(i, 1)` drops exactly index i: earlier elements stay, later ones shift down by one |
| Seqs.RemoveFirst | src/core/entities/SceneNode.ts:19-24 | removing an absent node changes nothing; otherwise exactly one copy goes (length minus one, multiset minus one copy), it is the first occurrence, and the rest keep their order |
| Seqs.AddThenRemove | src/core/entities/SceneNode.ts:15-24 | adding a node not yet present and then removing it restores the children |
| Seqs.RemoveTakesFirstCopy | src/core/entities/SceneNode.ts:15-24 | `add` does no duplicate check: after adding a node already present, `remove` deletes the earlier copy and the new copy stays last |
| Iteration.NextAt | src/core/iterators/CompositeIterator.ts:16-21 | when `hasNext` holds, `next` returns the element at the position and advances by exactly one; when exhausted it returns `null` and does not move |
| Iteration.Drain | src/core/iterators/CompositeIterator.ts:12-21 | a hasNext/next loop visits one element per remaining position |
| Iteration.DrainVisitsSuffix | src/core/iterators/CompositeIterator.ts:12-21 | a drain from position p over an unchanged array visits exactly the elements from p on, in array order, each once |
| Iteration.DrainFromStart | src/core/iterators/CompositeIterator.ts:12-21 | a fresh cursor over an unchanged array visits every child in order |
| Iteration.CallsWithinArray | src/core/iterators/CompositeIterator.ts:17-18 | n calls that stay inside the array return the next n elements in order and move the position by exactly n |
| Iteration.CallsWhenExhausted | src/core/iterators/CompositeIterator.ts:16-20 | once exhausted, every further `next` returns `null` and the position stays put |
| Iteration.CallsAdvance | src/core/iterators/CompositeIterator.ts:16-20 | over any run of calls the position never decreases and grows by at most one per call |
| Iteration.FreshCursorRun | src/core/AnnotationIterator.ts:12-21 | on an unchanged array of n records, the first n calls return them in order; after that `hasNext` is false and `next` is `null` |
| Iteration.SingleElementRun | src/core/AnnotationIterator.ts:12-21 | over a one-element array, the cursor yields the element once, then `null`, then `null` |
| Iteration.PushRevivesExhaustedCursor | src/core/iterators/CompositeIterator.ts:12-19 | an element pushed onto the shared array after exhaustion makes `hasNext` true again, and `next` returns it |
| Iteration.PushWhileOpen | src/core/entities/SceneNode.ts:15-17 | an element pushed while a cursor is open is still visited, after the ones already there |
| Iteration.SpliceBehindCursorSkips | src/core/entities/SceneNode.ts:19-24 | splicing out an element the cursor has passed shifts the rest down, so the element that was next in line is never visited |
| Iteration.Cursor.HasNext | src/core/iterators/CompositeIterator.ts:12-14 | true exactly when the position is below the array's current length |
| Iteration.Cursor.Next | src/core/iterators/CompositeIterator.ts:16-21 | one step of `NextAt` over the array's current contents |
| SceneGraph.SceneNode.Add | src/core/entities/SceneNode.ts:15-17 | pushes the node at the end of the shared children array |
| SceneGraph.SceneNode.Remove | src/core/entities/SceneNode.ts:19-24 | the children become `RemoveFirst` of the old children |
| SceneGraph.SceneNode.CreateIterator | src/core/entities/Layout3D.ts:10-12 | a new cursor at position 0 over this node's own children array, not a copy of it |
| SceneGraph.OpenIteratorSeesLaterAdd | src/core/entities/Layout3D.ts:10-12 | a room added while a layout iterator is open is still yielded, and a second iterator keeps its own position |
| SceneGraph.RemovalDuringIterationSkips | src/core/entities/Room.ts:10-12 | removing an item the room iterator has already passed makes it skip the next item: of three items, only the first and third are seen |
| AnnotationControl.FirstWithId | src/controllers/AnnotationController.ts:29-44 | the first node in search order carrying the id; `null` exactly when no node in that order carries it |
| AnnotationControl.SearchOrderIsLevels | src/controllers/AnnotationController.ts:28-41 | the search order of the live tree equals the order over a snapshot of each room's children |
| AnnotationControl.FirstWithIdSkips | src/controllers/AnnotationController.ts:29-43 | a prefix with no match does not change the first match |
| AnnotationControl.FirstWithIdInPrefix | src/controllers/AnnotationController.ts:29-43 | a match inside room i wins over any match after it |
| AnnotationControl.SearchStep | src/controllers/AnnotationController.ts:29-43 | the first match is in the current room (its own id first, then its items) if there is one there, and after it otherwise |
| AnnotationControl.SearchItems | src/controllers/AnnotationController.ts:35-41 | the inner loop returns the first item of the room carrying the id, or `null` |
| AnnotationControl.SearchRoom | src/controllers/AnnotationController.ts:32-41 | the room's own id is compared before its items |
| AnnotationControl.SearchRooms | src/controllers/AnnotationController.ts:28-44 | the outer loop returns the first match in rooms-then-items order, or `null` |
| AnnotationControl.AnnotationController.SetLayout | src/controllers/AnnotationController.ts:17-19 | later searches use the given layout |
| AnnotationControl.AnnotationController.FindNodeById | src/controllers/AnnotationController.ts:24-45 | `null` without a layout; otherwise the first match in the two-level order. Any result carries the id, and the result is `null` exactly when no room and no item carries it |
| AnnotationControl.RootIsNotSearched | src/controllers/AnnotationController.ts:27-44 | the layout root's own id is never compared |
| AnnotationControl.NestedItemIsNotFound | src/controllers/AnnotationController.ts:35-41 | children of items are never visited |
| Annotations.Add | src/services/AnnotationService.ts:15-23 | appends exactly one record with the given id, text and position and returns it; earlier records are unchanged |
| Annotations.FindIndex | src/services/AnnotationService.ts:27 | `find`: the first record carrying the id, or none exactly when no record carries it |
| Annotations.FindIndexIsFirst | src/services/AnnotationService.ts:27 | any index carrying the id with no earlier one is what `find` returns |
| Annotations.Update | src/services/AnnotationService.ts:26-29 | only the text of the first matching record changes; length, order, ids, positions and every other record stay; an absent id changes nothing |
| Annotations.RemoveAll | src/services/AnnotationService.ts:32-34 | a record survives exactly when it was present and does not carry the id; no survivor carries it |
| Annotations.RemoveAllConcat | src/services/AnnotationService.ts:33 | the filter works record by record, so survivors keep their order |
| Annotations.RemoveAbsent | src/services/AnnotationService.ts:33 | removing an id that no record carries is a no-op |
| Annotations.RemoveIdempotent | src/services/AnnotationService.ts:32-34 | removing twice equals removing once |
| Annotations.AddThenRemove | src/services/AnnotationService.ts:15-34 | adding under a fresh id and then removing that id restores the store |
| Annotations.UpdateThenRestore | src/services/AnnotationService.ts:26-29 | an update keeps the matching record's position in the array and is undone by updating back to the old text |
| Annotations.AnnotationService.AddAnnotation | src/services/AnnotationService.ts:15-23 | pushes into the current array object |
| Annotations.AnnotationService.UpdateAnnotation | src/services/AnnotationService.ts:26-29 | edits the current array in place |
| Annotations.AnnotationService.RemoveAnnotation | src/services/AnnotationService.ts:32-34 | installs a new, filtered array object |
| Annotations.AnnotationService.CreateIterator | src/services/AnnotationService.ts:37-39 | a new cursor at position 0 over the current array object |
| Annotations.IteratorOutlivesRemoval | src/services/AnnotationService.ts:32-38 | an iterator opened before `removeAnnotation` still yields the removed record, while the service holds none |
| Annotations.IteratorSeesLaterAddAndUpdate | src/services/AnnotationService.ts:21-38 | an iterator opened since the last removal sees a later add, with the text of a later update |
| Annotations.IteratorMissesAddAfterRemoval | src/services/AnnotationService.ts:21-38 | an iterator opened before a removal misses records added after it |
| Storage.EmptyDatabase | src/utils/ArchitectureSupport.ts:9-10 | a new database has no layouts and no annotations |
| Storage.Store | src/utils/ArchitectureSupport.ts:12-17 | puts the layout under the id and returns that id; the other layouts and the annotations are unchanged |
| Storage.GetLayout | src/utils/ArchitectureSupport.ts:19-21 | the stored layout, or nothing exactly when the id was never stored |
| Storage.StoreThenGet | src/utils/ArchitectureSupport.ts:12-21 | `getLayout` of the id that `store` returned gives the stored layout |
| Storage.StoreKeepsOthers | src/utils/ArchitectureSupport.ts:13-21 | storing under a fresh id leaves every other id's lookup as it was |
| Storage.AddAnnotation | src/utils/ArchitectureSupport.ts:24 | appends at the end |
| Storage.DeleteAnnotation | src/utils/ArchitectureSupport.ts:26-28 | an annotation survives exactly when it was present and does not carry the id; the result is the annotation service's filter, so survivors keep their order and multiplicity |
| Storage.AnnotationsInOrder | src/utils/ArchitectureSupport.ts:24-28 | annotations come back in insertion order; deleting is idempotent and a no-op for an absent id |
| Storage.GetAnnotationsInAddOrder | src/utils/ArchitectureSupport.ts:24-25 | after any run of `addAnnotation` calls, `getAnnotations` lists the earlier annotations followed by the added ones, in the order they were added |
| Storage.CreateTools | src/utils/ArchitectureSupport.ts:2-5 | no tools, for every plan |
| Generation.ErrorText | src/core/BackgroundProcessor.ts:93 | the error's message when it is present and non-empty, otherwise "Unknown error"; never empty |
| Generation.Generate | src/core/GenerationFacade.ts:38-52 | validation failure gives "Plan validation failed." and stores nothing; a parse or reconstruct failure propagates and stores nothing; success happens exactly when all three stages succeed in order, and then reconstruct's output is stored and returned under the drawn id |
| Generation.GenerateStoresWhatItReturns | src/core/GenerationFacade.ts:44-51 | the returned id reads back the returned layout; a fresh id keeps every other layout; a failure leaves the database unchanged |
| Jobs.Initial | src/core/BackgroundProcessor.ts:23-24 | a new processor has no jobs, no current job and no notifications |
| Jobs.IndexOfJob | src/core/BackgroundProcessor.ts:103 | `Map.get` as a position: the job carrying the id, with no earlier one carrying it |
| Jobs.Merge | src/core/BackgroundProcessor.ts:105 | a spread keeps the job's id and plan; each field the patch supplies takes the patch's value, and each field it omits keeps the job's |
| Jobs.UpdateJob | src/core/BackgroundProcessor.ts:102-109 | merges into the named job at its insertion position and notifies the merged record; other jobs are untouched; an unknown id is a no-op |
| Jobs.FirstQueued | src/core/BackgroundProcessor.ts:53 | the earliest-inserted QUEUED job, with no QUEUED job before it |
| Jobs.ProcessNext | src/core/BackgroundProcessor.ts:52-70 | starts the earliest QUEUED job (PROCESSING, progress 10, notified, current); with no QUEUED job it clears the current id and changes nothing else |
| Jobs.Queue | src/core/BackgroundProcessor.ts:35-43 | appends a QUEUED record with progress 0 and notifies it, keeping ids unique |
| Jobs.Enqueue | src/core/BackgroundProcessor.ts:32-50 | returns the id, appends one record for the plan, and starts a run only when `currentJobId` is falsy (unset or the empty string) |
| Jobs.EnqueueThenQuery | src/core/BackgroundProcessor.ts:117-123 | after `enqueueTask` on a busy processor, `getJobStatus` finds the new QUEUED record, `getAllJobs` is the old list followed by it, and an unknown id stays unknown |
| Jobs.IdleEnqueueThenQuery | src/core/BackgroundProcessor.ts:117-123 | after `enqueueTask` on an idle processor, the new record is found already PROCESSING at 10, `getAllJobs` is the old list followed by it, and an unknown id stays unknown |
| Jobs.GetJobStatus | src/core/BackgroundProcessor.ts:117-119 | the stored record carrying the id, or nothing exactly when no job carries it |
| Jobs.GetAllJobs | src/core/BackgroundProcessor.ts:121-123 | one entry per stored job; with unique ids each listed entry is exactly the record `getJobStatus` returns for its id, and every record `getJobStatus` finds is listed |
| Jobs.Checkpoint | src/core/BackgroundProcessor.ts:71-73 | the current job's progress becomes 30, every other field and every other job stay as they were, and the updated record is notified |
| Jobs.Record | src/core/BackgroundProcessor.ts:76-95 | the current job is merged with the outcome's patch in place, other jobs stay, and the merged record is notified |
| Jobs.Finish | src/core/BackgroundProcessor.ts:52-95 | the current job ends merged with the outcome's patch, in a finished status, and that record is the next one notified; no job changes identity or position |
| Jobs.InitialInv | src/core/BackgroundProcessor.ts:23-24 | the initial state satisfies the scheduler invariant |
| Jobs.ProcessNextInv | src/core/BackgroundProcessor.ts:52-60 | `processNext` from a settled table restores the invariant |
| Jobs.EnqueueInv | src/core/BackgroundProcessor.ts:32-50 | `enqueueTask` with a fresh, non-empty id keeps the invariant |
| Jobs.RunningPhase | src/core/BackgroundProcessor.ts:70-74 | while a job is current, exactly one continuation is pending: the checkpoint or the pipeline |
| Jobs.CheckpointInv | src/core/BackgroundProcessor.ts:73 | the checkpoint keeps the invariant and leaves the run waiting for the pipeline |
| Jobs.RecordSettles | src/core/BackgroundProcessor.ts:80-95 | recording any outcome leaves no job PROCESSING and all QUEUED jobs after the finished ones |
| Jobs.FinishInv | src/core/BackgroundProcessor.ts:61-63 | finishing a run with any outcome and moving on keeps the invariant |
| Jobs.SingleFlight | src/core/BackgroundProcessor.ts:45-60 | at most one job is PROCESSING and it is the current one; every earlier job is finished and every later one is QUEUED; a QUEUED job implies a current run |
| Jobs.ProcessNextEvolves | src/core/BackgroundProcessor.ts:53-70 | starting a job moves only a QUEUED job forward |
| Jobs.EnqueueEvolves | src/core/BackgroundProcessor.ts:32-47 | `enqueueTask` moves no job back, changes no finished job and only extends the notification log |
| Jobs.CheckpointEvolves | src/core/BackgroundProcessor.ts:73 | the checkpoint never moves status or progress back |
| Jobs.FinishEvolves | src/core/BackgroundProcessor.ts:76-95 | finishing never moves status or progress back, and finished jobs never change again |
| Jobs.RecordOutcome | src/core/BackgroundProcessor.ts:80-95 | success gives COMPLETED at 100 with result id and result; failure gives FAILED with the error's text, progress left at 30 and no result id |
| Jobs.FinishStartsSuccessor | src/core/BackgroundProcessor.ts:52-63 | whatever the outcome, the next-inserted job is started at once; with no later job the processor goes idle |
| Jobs.TwoJobsSubmitted | src/core/BackgroundProcessor.ts:32-50 | the first job submitted to an idle processor starts at once; a second one waits QUEUED |
| Jobs.FirstJobFails | src/core/BackgroundProcessor.ts:71-95 | a failing first job ends FAILED at 30 with its message, and the second starts in the same step |
| Jobs.SecondJobCompletes | src/core/BackgroundProcessor.ts:73-85 | the second job then completes at 100 with its result, and the processor goes idle |
| Jobs.FailureDoesNotBlockLaterJob | src/core/BackgroundProcessor.ts:52-95 | over a whole run of two jobs where the first fails, both end finished and the subscriber sees eight records |
| Facade.NewFacade | src/core/GenerationFacade.ts:18-32 | a new facade holds its collaborators and no processor |
| Facade.SetBackgroundProcessor | src/core/GenerationFacade.ts:34-36 | wires the processor and changes nothing else |
| Facade.EnqueueGeneration | src/core/GenerationFacade.ts:54-59 | without a processor it fails with "BackgroundProcessor not initialized in Facade." and changes nothing; otherwise the content becomes the new job's plan unchanged and the job id is returned |
| Facade.EnqueueNeedsProcessor | src/core/GenerationFacade.ts:34-58 | enqueueing fails before `setBackgroundProcessor` and succeeds after it |
| Facade.AddAnnotation | src/core/GenerationFacade.ts:61-63 | forwards text and position unchanged to the annotation service and returns its record |
| Facade.RemoveAnnotation | src/core/GenerationFacade.ts:65-67 | forwards the id unchanged to the annotation service |
| Facade.RunPipeline | src/core/BackgroundProcessor.ts:76-95 | runs the generation pipeline on the current job's plan and finishes the job with its outcome |
| Facade.RunPipelineStoresResult | src/core/BackgroundProcessor.ts:76-85 | after a run the invariant holds and the job is finished; a COMPLETED job's result id reads its result back from the database, and a FAILED job leaves the database unchanged |

## Left out

- Rendering, the DOM, the camera and the UI (`main.ts`, `ThreeViewer`) are not part of this model.
- `ReconstructionEngine` geometry and `renderAnnotations` are not modelled: they are floating-point work and three.js calls. Reconstruction is an abstract stage function.
- The `dxf-parser` wrapper `Parser` and `Validator` are abstract stage functions. `Validator` is hard-wired to accept every plan; keeping it abstract keeps the rejection branch reachable.
- `LayoutGenerationController` is a thin wrapper that swallows errors, and is not modelled.
- `AnnotationController.syncSidebarUI`, `refreshSceneMarkers` and `logHierarchy`, along with all console logging, are left out. They only log or discard their results.
- `object3D` handles are not modelled. A position is a triple of reals (`Vec3`) that nothing computes with; the floating-point semantics of `THREE.Vector3` and its `clone` are not modelled.
- Timers, promises and the event loop are not modelled. Each `await` is a step boundary instead. `yieldToUI` is a 50 ms `setTimeout`.
- Jobs.Finish: the third `yieldToUI` of the success path is merged into `Finish`, because nothing else can run in that window that the model distinguishes.
- Jobs.Enqueue: requires a fresh id. The source draws ids from the clock and `Math.random`. A colliding id would overwrite the existing record in place (`Map.set`), and that case is not modelled.
- Facade.EnqueueGeneration: requires a fresh job id when a processor is wired, for the same reason.
- Jobs.EnqueueInv: requires a non-empty id. `enqueueTask` treats an empty `currentJobId` as no current job, and `Enqueue` models that test as written; so a job whose id is the empty string would let the next `enqueueTask` start a second run while it is still PROCESSING. Generated ids always start with `job-`.
- The status-change subscriber is assumed not to throw. A throwing subscriber would abort `enqueueTask` or `executeJob` midway, and that is not modelled. The subscriber's view is the log of records it received.
- Annotation records are values, whereas the source shares record objects between the array and its callers. `updateAnnotation` mutates the shared record itself. In the model an open iterator sees the new text only through the shared array.
- Storage.GetAnnotations: the returned array is the database's own object, and aliasing through it is not modelled. `deleteAnnotation` replaces the array, as in `AnnotationService`.
- Ids drawn at random (`layout-…`, `anno-…`, `job-…`) are parameters. Their uniqueness is a hypothesis of the lemmas that need it.
- Generation.ErrorText: a thrown `null` or `undefined` is not modelled. In the source, `err.message` then throws inside the catch block, `processNext` never reaches its recursive call, and the job stays PROCESSING with `currentJobId` set, so no later job is ever started. None of the stages throws a nullish value; every modelled failure carries an object, whose missing or empty message gives "Unknown error".
- Generation.Generate: the database's `store` does not throw in the source. Only validation, parsing and reconstruction can fail.
