/**
 * The validation stage (`validate_node`): it checks the raw proposal against
 * the research schema and decides between persisting it and sending it back
 * for one repair.  The schema load and jsonschema are the same oracles the
 * validation tool uses.
 */
module ValidateStage {
  import opened Wrappers
  import opened JsonValues
  import opened State
  import opened Mcp
  import opened ValidationTool

  /** The most repair rounds validation asks for. */
  const MaxRepairs := 1

  /** The update for a proposal jsonschema rejected with `errors`. */
  function RejectedUpdate(s: ResearchState, raw: Json, errors: seq<string>): Update
  {
    if RepairAttempts(s) < MaxRepairs then
      NoChange.(validationErrors := Put(errors), repairAttempts := Put(RepairAttempts(s) + 1),
                validationReport := Put(FailedRepairReport(|errors|)), currentStep := Put("synthesize"))
    else
      NoChange.(validationErrors := Put(errors), finalProposal := Put(raw),
                validationReport := Put(FailedFinalReport(|errors|)), currentStep := Put("persist"))
  }

  /**
   * What `validate_node` returns, or the exception it raises.  `schema` is
   * the outcome of `config.get_schema()` and `check` is jsonschema.
   */
  function ValidateSpec(s: ResearchState, client: Result<Client, Exn>, schema: Result<Json, Exn>, check: Checker)
    : (r: Result<Update, Exn>)
  {
    if client.Err? then Err(client.error)
    else
      var tools := GetAvailableToolNames(client.value);
      if !TruthyJson(s.rawProposal) then
        Ok(NoChange.(validationErrors := Put([NoProposalError]), validationReport := Put(NoProposalReport),
                     mcpToolsAvailable := Put(tools), currentStep := Put("persist")))
      else
        var raw := s.rawProposal.value;
        match schema
        case Err(e) =>
          if IsSystemError(e) then
            Ok(NoChange.(validationErrors := Put([SystemErrorText(e)]), validationReport := Put(SystemErrorReport(e)),
                         currentStep := Put("persist")))
          else Err(e)
        case Ok(sch) =>
          match check(raw, sch)
          case Conforms =>
            Ok(NoChange.(finalProposal := Put(raw), validationErrors := Clear, validationReport := Put(SuccessReport),
                         mcpToolsAvailable := Put(tools), currentStep := Put("persist")))
          case Violations(best, all) =>
            Ok(RejectedUpdate(s, raw, CollectedErrors(Violations(best, all))))
  }

  // ---------------------------------------------------------------------
  // Properties
  // ---------------------------------------------------------------------

  /** A missing or empty proposal gives the single no-proposal error and goes to persist, leaving the repair count alone. */
  lemma NoProposal(s: ResearchState, client: Result<Client, Exn>, schema: Result<Json, Exn>, check: Checker)
    requires client.Ok? && !TruthyJson(s.rawProposal)
    ensures var r := ValidateSpec(s, client, schema, check);
      && r.Ok?
      && r.value.validationErrors == Put([NoProposalError])
      && r.value.currentStep == Put("persist")
      && r.value.repairAttempts == Keep
      && r.value.finalProposal == Keep
  {
  }

  /** A conforming proposal becomes the final proposal, with no errors, and goes to persist. */
  lemma ValidProposal(s: ResearchState, client: Result<Client, Exn>, schema: Json, check: Checker)
    requires client.Ok? && TruthyJson(s.rawProposal) && check(s.rawProposal.value, schema).Conforms?
    ensures var r := ValidateSpec(s, client, Ok(schema), check);
      && r.Ok?
      && r.value.finalProposal == Put(s.rawProposal.value)
      && r.value.validationErrors == Clear
      && r.value.validationReport == Put(SuccessReport)
      && r.value.currentStep == Put("persist")
  {
  }

  /**
   * A rejected proposal carries one to five errors.  Before any repair it
   * asks for one (the count rises by one, no final proposal, back to
   * synthesis); after one it is persisted as the final proposal anyway.
   */
  lemma RejectedProposal(s: ResearchState, client: Result<Client, Exn>, schema: Json, check: Checker)
    requires client.Ok? && TruthyJson(s.rawProposal)
    requires check(s.rawProposal.value, schema).Violations? && WellFormed(check(s.rawProposal.value, schema))
    ensures var r := ValidateSpec(s, client, Ok(schema), check);
      && r.Ok?
      && r.value.validationErrors.Put?
      && 1 <= |r.value.validationErrors.value| <= MaxErrors
      && (RepairAttempts(s) < 1 ==>
            && r.value.repairAttempts == Put(RepairAttempts(s) + 1)
            && r.value.finalProposal == Keep
            && r.value.currentStep == Put("synthesize")
            && r.value.validationReport == Put(FailedRepairReport(|r.value.validationErrors.value|)))
      && (RepairAttempts(s) >= 1 ==>
            && r.value.repairAttempts == Keep
            && r.value.finalProposal == Put(s.rawProposal.value)
            && r.value.currentStep == Put("persist")
            && r.value.validationReport == Put(FailedFinalReport(|r.value.validationErrors.value|)))
  {
  }

  /** A `ValueError` or `KeyError` while loading the schema gives one system error and goes to persist without a final proposal. */
  lemma SchemaSystemError(s: ResearchState, client: Result<Client, Exn>, e: Exn, check: Checker)
    requires client.Ok? && TruthyJson(s.rawProposal) && IsSystemError(e)
    ensures var r := ValidateSpec(s, client, Err(e), check);
      && r.Ok?
      && r.value.validationErrors == Put([SystemErrorText(e)])
      && r.value.currentStep == Put("persist")
      && r.value.finalProposal == Keep
      && r.value.repairAttempts == Keep
  {
  }

  /** The repair count never falls and rises by at most one per validation. */
  lemma RepairAttemptsMonotone(s: ResearchState, client: Result<Client, Exn>, schema: Result<Json, Exn>, check: Checker)
    requires ValidateSpec(s, client, schema, check).Ok?
    ensures var n := RepairAttempts(Merge(s, ValidateSpec(s, client, schema, check).value));
      n == RepairAttempts(s) || n == RepairAttempts(s) + 1
  {
  }

  /**
   * The stage agrees with the validation tool: for a present proposal it
   * records the tool's errors (none when the tool finds it valid), raises
   * exactly what the tool raises, and reports as the tool does before any
   * repair.
   */
  lemma AgreesWithTool(s: ResearchState, client: Result<Client, Exn>, schema: Result<Json, Exn>, check: Checker)
    requires client.Ok? && TruthyJson(s.rawProposal)
    ensures var r := ValidateSpec(s, client, schema, check);
      var t := ValidateProposal(s.rawProposal, schema, check);
      && (r.Err? <==> t.Err?)
      && (r.Ok? && t.value.isValid ==> r.value.validationErrors == Clear)
      && (r.Ok? && !t.value.isValid ==> r.value.validationErrors == Put(t.value.errors))
      && (r.Ok? && RepairAttempts(s) < 1 ==> r.value.validationReport == Put(t.value.report))
  {
  }

  /** The stage raises only when its client cannot be built or the schema fails to load with another error. */
  lemma ValidateFailure(s: ResearchState, client: Result<Client, Exn>, schema: Result<Json, Exn>, check: Checker)
    ensures ValidateSpec(s, client, schema, check).Err? <==>
      client.Err? || (TruthyJson(s.rawProposal) && schema.Err? && !IsSystemError(schema.error))
  {
  }
}
