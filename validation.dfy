/**
 * `ValidationMCPTool`: checking a proposal against the research schema and
 * asking the model to repair one that fails.
 *
 * jsonschema is an oracle.  `Verdict` is what it reports for one proposal:
 * either the proposal conforms, or `validate` raised a `ValidationError`
 * (`best`) and `iter_errors` then listed every error in order (`all`), or
 * raised `AttributeError`/`TypeError` instead (`all == None`).
 */
module ValidationTool {
  import opened Wrappers
  import opened Text
  import opened JsonValues
  import opened Prompts

  /** One step of an error's `absolute_path`: an object key or an array index. */
  datatype PathElem = Key(name: string) | Index(pos: nat)

  datatype SchemaError = SchemaError(path: seq<PathElem>, message: string)

  datatype Verdict =
    | Conforms
    | Violations(best: SchemaError, all: Option<seq<SchemaError>>)

  /**
   * An assumption about the jsonschema oracle, not a fact the model proves:
   * `iter_errors` reports at least one error for an instance that fails
   * `validate`.  The members that rely on it state it as a hypothesis.
   */
  predicate WellFormed(v: Verdict)
  {
    v.Violations? && v.all.Some? ==> v.all.value != []
  }

  /** The checker: `validate(proposal, schema)` followed, on failure, by `iter_errors`. */
  type Checker = (Json, Json) -> Verdict

  datatype ValidationResult = ValidationResult(isValid: bool, errors: seq<string>, report: string)

  const NoProposalError := "No proposal found to validate"
  const NoProposalReport := "Failed - no proposal generated"
  const SuccessReport := "\U{2705} Proposal successfully validated against schema"

  /** The most errors the result lists. */
  const MaxErrors := 5

  function FailedRepairReport(count: nat): string
  {
    "\U{274C} Validation failed, attempting repair. Errors: " + NatToString(count)
  }

  function FailedFinalReport(count: nat): string
  {
    "\U{274C} Validation failed after repair attempt. Errors: " + NatToString(count)
  }

  function SystemErrorText(e: Exn): string
  {
    "Validation system error: " + e.msg
  }

  function SystemErrorReport(e: Exn): string
  {
    "\U{274C} " + SystemErrorText(e)
  }

  /** `str(p)` for one path element. */
  function ElemText(p: PathElem): string
  {
    match p
    case Key(name) => name
    case Index(pos) => NatToString(pos)
  }

  /** `".".join(str(p) for p in path)`. */
  function PathText(path: seq<PathElem>): string
  {
    Join(".", seq(|path|, i requires 0 <= i < |path| => ElemText(path[i])))
  }

  /** The single error kept when `iter_errors` cannot run. */
  function BestErrorLine(e: SchemaError): string
  {
    "Validation error at " + PathText(e.path) + ": " + e.message
  }

  /** One collected error. */
  function PathErrorLine(e: SchemaError): string
  {
    "At " + PathText(e.path) + ": " + e.message
  }

  /** The error list of a failed validation: the first five collected errors, or the best one. */
  function CollectedErrors(v: Verdict): (errors: seq<string>)
    requires v.Violations?
    ensures WellFormed(v) ==> 1 <= |errors| <= MaxErrors
    ensures v.all.None? ==> errors == [BestErrorLine(v.best)]
    ensures v.all.Some? ==> |errors| == if |v.all.value| < MaxErrors then |v.all.value| else MaxErrors
    ensures v.all.Some? ==> forall i :: 0 <= i < |errors| ==> errors[i] == PathErrorLine(v.all.value[i])
  {
    match v.all
    case None => [BestErrorLine(v.best)]
    case Some(all) =>
      var n := if |all| < MaxErrors then |all| else MaxErrors;
      seq(n, i requires 0 <= i < n => PathErrorLine(all[i]))
  }

  /** The schema-loading errors `validate_proposal` turns into a result. */
  predicate IsSystemError(e: Exn)
  {
    e.kind == ValueError || e.kind == KeyError
  }

  /**
   * `validate_proposal(proposal)`.  `schema` is the outcome of
   * `config.get_schema()`; an exception other than `ValueError`/`KeyError`
   * (a missing file, say) escapes as `Err`.
   */
  function ValidateProposal(proposal: Option<Json>, schema: Result<Json, Exn>, check: Checker): (r: Result<ValidationResult, Exn>)
    ensures (proposal.None? || !Truthy(proposal.value)) ==>
      r == Ok(ValidationResult(false, [NoProposalError], NoProposalReport))
    ensures r.Ok? && r.value.isValid ==> r.value.errors == [] && r.value.report == SuccessReport
    ensures r.Err? ==> schema.Err? && !IsSystemError(schema.error)
  {
    if proposal.None? || !Truthy(proposal.value) then
      Ok(ValidationResult(false, [NoProposalError], NoProposalReport))
    else
      match schema
      case Err(e) =>
        if IsSystemError(e) then Ok(ValidationResult(false, [SystemErrorText(e)], SystemErrorReport(e)))
        else Err(e)
      case Ok(sch) =>
        match check(proposal.value, sch)
        case Conforms => Ok(ValidationResult(true, [], SuccessReport))
        case Violations(best, all) =>
          var errors := CollectedErrors(Violations(best, all));
          Ok(ValidationResult(false, errors, FailedRepairReport(|errors|)))
  }

  /**
   * A proposal jsonschema rejects is reported invalid with one to five
   * errors, the report states how many, and the errors are the first
   * collected ones in order.
   */
  lemma InvalidProposalSpec(proposal: Json, schema: Json, check: Checker)
    requires Truthy(proposal) && check(proposal, schema).Violations? && WellFormed(check(proposal, schema))
    ensures var r := ValidateProposal(Some(proposal), Ok(schema), check);
      && r.Ok? && !r.value.isValid
      && 1 <= |r.value.errors| <= MaxErrors
      && r.value.report == FailedRepairReport(|r.value.errors|)
      && r.value.errors == CollectedErrors(check(proposal, schema))
  {
  }

  /** A conforming proposal is valid; a verdict of violations never is. */
  lemma ValidIffConforms(proposal: Json, schema: Json, check: Checker)
    requires Truthy(proposal)
    ensures var r := ValidateProposal(Some(proposal), Ok(schema), check);
      r.Ok? && (r.value.isValid <==> check(proposal, schema).Conforms?)
  {
  }

  /** A `ValueError` or `KeyError` while loading the schema gives exactly one system error. */
  lemma SystemErrorSpec(proposal: Json, e: Exn, check: Checker)
    requires Truthy(proposal) && IsSystemError(e)
    ensures ValidateProposal(Some(proposal), Err(e), check)
      == Ok(ValidationResult(false, ["Validation system error: " + e.msg], "\U{274C} Validation system error: " + e.msg))
  {
    assert "\U{274C} " + ("Validation system error: " + e.msg) == "\U{274C} Validation system error: " + e.msg;
  }

  /** The dotted path splits back into its elements when no key holds a dot. */
  lemma PathTextSplits(path: seq<PathElem>)
    requires path != []
    requires forall i :: 0 <= i < |path| && path[i].Key? ==> '.' !in path[i].name
    ensures Split(PathText(path), ".") == seq(|path|, i requires 0 <= i < |path| => ElemText(path[i]))
  {
    var parts := seq(|path|, i requires 0 <= i < |path| => ElemText(path[i]));
    forall i | 0 <= i < |parts| ensures '.' !in parts[i] {
      if path[i].Index? {
        var d := NatToString(path[i].pos);
        assert forall k :: 0 <= k < |d| ==> IsDigit(d[k]);
      }
    }
    SplitJoin(parts, '.');
  }

  // ---------------------------------------------------------------------
  // repair_proposal
  // ---------------------------------------------------------------------

  /** `"\n".join(f"- {error}" for error in errors)`. */
  function ErrorBullets(errors: seq<string>): string
  {
    Join("\n", Bullets(errors))
  }

  function Bullets(errors: seq<string>): (lines: seq<string>)
    ensures |lines| == |errors|
    ensures forall i :: 0 <= i < |errors| ==> lines[i] == "- " + errors[i]
  {
    seq(|errors|, i requires 0 <= i < |errors| => "- " + errors[i])
  }

  /**
   * What the repair request carries to the model: the bullet list of
   * errors, the alpha-mode note, the idea, the invalid proposal and the
   * schema (the surrounding prompt wording is fixed text).
   */
  datatype RepairRequest = RepairRequest(errorsText: string, alphaNote: string, idea: string, proposal: Json, schema: Json)

  /** The model's structured reply to a repair request, or what it raised. */
  type Repairer = RepairRequest -> Result<Json, Exn>

  /** The exceptions `repair_proposal` turns into `None`. */
  predicate RepairCatches(e: Exn)
  {
    e.kind == ValidationError || e.kind == ValueError || e.kind == TypeError || e.kind == KeyError
  }

  /** The reply filter: a dict is the repaired proposal; anything else, or a caught exception, is `None`. */
  function RepairOutcome(reply: Result<Json, Exn>): (r: Result<Option<Json>, Exn>)
    ensures r.Ok? && r.value.Some? <==> reply.Ok? && reply.value.JObj?
    ensures r.Ok? && r.value.Some? ==> r.value.value == reply.value
    ensures r.Err? <==> reply.Err? && !RepairCatches(reply.error)
  {
    match reply
    case Ok(j) => if j.JObj? then Ok(Some(j)) else Ok(None)
    case Err(e) => if RepairCatches(e) then Ok(None) else Err(e)
  }

  /**
   * `repair_proposal(proposal, errors, llm, idea, alpha_only)`.  The schema
   * is loaded before the guarded call, so a loading error escapes.
   */
  function RepairProposal(proposal: Json, errors: seq<string>, idea: string, alphaOnly: bool,
                          schema: Result<Json, Exn>, repair: Repairer): (r: Result<Option<Json>, Exn>)
    ensures schema.Err? ==> r == Err(schema.error)
    ensures schema.Ok? ==>
      r == RepairOutcome(repair(RepairRequest(ErrorBullets(errors), AlphaNote(alphaOnly), idea, proposal, schema.value)))
  {
    match schema
    case Err(e) => Err(e)
    case Ok(sch) =>
      RepairOutcome(repair(RepairRequest(ErrorBullets(errors), AlphaNote(alphaOnly), idea, proposal, sch)))
  }

  /** Each error occupies its own line of the repair prompt, prefixed "- ". */
  lemma ErrorBulletLines(errors: seq<string>)
    requires errors != []
    requires forall i :: 0 <= i < |errors| ==> '\n' !in errors[i]
    ensures Split(ErrorBullets(errors), "\n") == Bullets(errors)
  {
    var lines := Bullets(errors);
    forall i | 0 <= i < |lines| ensures '\n' !in lines[i] {
      assert lines[i] == "- " + errors[i];
    }
    SplitJoin(lines, '\n');
  }
}
