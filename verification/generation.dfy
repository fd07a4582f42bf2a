/** `GenerationFacade.generate3DLayoutFrom2D`: the validate -> parse -> reconstruct ->
    store sequence. Validation, parsing and reconstruction are external collaborators
    (`Validator`, `Parser`, `ReconstructionEngine`) and are given as functions; a
    stage that throws returns a `Failure`. Storing is the `Database` of `Storage`. */
module Generation {
  import opened Wrappers
  import opened Storage

  /** A thrown JavaScript value that is not `null` or `undefined`, seen through its
      `message` property, which may be missing (an object without one was thrown)
      or empty. */
  datatype Error = Error(message: Option<string>)

  /** The message of the error thrown when the validator rejects a plan. */
  const ValidationFailed: string := "Plan validation failed."

  /** The text recorded for a failed job: `err.message || 'Unknown error'`. */
  function ErrorText(e: Error): (text: string)
    ensures text != ""
    ensures e.message.Some? && e.message.value != "" ==> text == e.message.value
    ensures e.message.None? || e.message.value == "" ==> text == "Unknown error"
  {
    if e.message.Some? && e.message.value != "" then e.message.value else "Unknown error"
  }

  /** What a successful generation returns: `{ id, layout }`. */
  datatype Generated<L> = Generated(resultID: string, layout: L)

  /** The external stages. `M` is the parser's geometric model, `L` the
      reconstructed layout; neither is inspected here. */
  datatype Stages<!M, L> = Stages(validate: string -> bool,
                                  parse: string -> Result<M, Error>,
                                  reconstruct: M -> Result<L, Error>)

  /** `generate3DLayoutFrom2D`, with `layoutId` standing for the id the database
      draws at random. The tool factory is consulted first and its (empty) result
      is ignored. */
  function Generate<M, L>(stages: Stages<M, L>, db: Database<L>, planID: string, layoutId: string)
    : (r: (Result<Generated<L>, Error>, Database<L>))
    ensures !stages.validate(planID) ==> r.0 == Failure(Error(Some(ValidationFailed)))
    ensures r.0.Failure? ==> r.1 == db
    ensures stages.validate(planID) && stages.parse(planID).Failure? ==>
              r.0 == Failure(stages.parse(planID).error)
    ensures stages.validate(planID) && stages.parse(planID).Success?
            && stages.reconstruct(stages.parse(planID).value).Failure? ==>
              r.0 == Failure(stages.reconstruct(stages.parse(planID).value).error)
    ensures r.0.Success? ==>
              && stages.validate(planID)
              && stages.parse(planID).Success?
              && stages.reconstruct(stages.parse(planID).value) == Success(r.0.value.layout)
              && r.0.value.resultID == layoutId
              && r.1 == Store(db, layoutId, r.0.value.layout).0
    ensures stages.validate(planID) && stages.parse(planID).Success?
            && stages.reconstruct(stages.parse(planID).value).Success? ==>
              var layout := stages.reconstruct(stages.parse(planID).value).value;
              r == (Success(Generated(layoutId, layout)), Store(db, layoutId, layout).0)
  {
    var _ := CreateTools(planID);
    if !stages.validate(planID) then (Failure(Error(Some(ValidationFailed))), db)
    else
      match stages.parse(planID)
      case Failure(e) => (Failure(e), db)
      case Success(model) =>
        match stages.reconstruct(model)
        case Failure(e) => (Failure(e), db)
        case Success(layout) =>
          var (db', id) := Store(db, layoutId, layout);
          (Success(Generated(id, layout)), db')
  }

  /** A successful generation returns the id under which the returned layout can
      now be read back from the database; a failed one leaves the database as it
      was, so no stage after the failing one has any effect. */
  lemma GenerateStoresWhatItReturns<M, L>(stages: Stages<M, L>, db: Database<L>,
                                          planID: string, layoutId: string)
    ensures var r := Generate(stages, db, planID, layoutId);
      && (r.0.Success? ==> GetLayout(r.1, r.0.value.resultID) == Some(r.0.value.layout))
      && (r.0.Success? && layoutId !in db.layouts ==>
            forall k :: k in db.layouts ==> GetLayout(r.1, k) == GetLayout(db, k))
      && (r.0.Failure? ==> r.1 == db)
  {
  }
}
