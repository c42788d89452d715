/**
 * The persistence stage (`persist_node`): it writes the proposal (the final
 * one, or the raw one when there is none) and the run's state next to it,
 * and records where they went or why they could not be written.
 *
 * The file system is a `Disk` object: the files written so far and, for
 * each path, the exception creating or writing it raises, if any.
 */
module PersistStage {
  import opened Wrappers
  import opened Text
  import opened JsonValues
  import opened State
  import opened Mcp

  const NoProposalError := "No final proposal to persist"
  const DefaultSlug := "research_proposal"
  const ProposalsDir := "proposals"

  /** The proposal files and saved states written, and which paths fail. */
  class Disk {
    var proposals: map<string, Json>
    var states: map<string, ResearchState>
    const failure: string -> Option<Exn>

    constructor (failure: string -> Option<Exn>)
      ensures proposals == map[] && states == map[] && this.failure == failure
    {
      proposals := map[];
      states := map[];
      this.failure := failure;
    }

    /** `Path(dir).mkdir(exist_ok=True)`. */
    method MakeDir(dir: string) returns (e: Option<Exn>)
      ensures e == failure(dir)
    {
      e := failure(dir);
    }

    /** `json.dump(proposal, open(path, "w"))`: the file holds the proposal unless the write raises. */
    method WriteProposal(path: string, proposal: Json) returns (e: Option<Exn>)
      modifies this
      ensures e == failure(path)
      ensures proposals == if e.None? then old(proposals)[path := proposal] else old(proposals)
      ensures states == old(states)
    {
      e := failure(path);
      if e.None? {
        proposals := proposals[path := proposal];
      }
    }

    /** `json.dump(state, open(path, "w"))`. */
    method WriteState(path: string, st: ResearchState) returns (e: Option<Exn>)
      modifies this
      ensures e == failure(path)
      ensures states == if e.None? then old(states)[path := st] else old(states)
      ensures proposals == old(proposals)
    {
      e := failure(path);
      if e.None? {
        states := states[path := st];
      }
    }
  }

  /** The proposal persisted: the final one if truthy, else the raw one if truthy. */
  function ChosenProposal(s: ResearchState): (p: Option<Json>)
  {
    if TruthyJson(s.finalProposal) then s.finalProposal
    else if TruthyJson(s.rawProposal) then s.rawProposal
    else None
  }

  function Slug(s: ResearchState): string
  {
    s.slug.GetOr(DefaultSlug)
  }

  function ProposalPath(slug: string): string
  {
    ProposalsDir + "/" + slug + ".json"
  }

  function StatePath(slug: string): string
  {
    ProposalsDir + "/" + slug + "_state.json"
  }

  /** The state as saved: every key but `final_proposal`. */
  function SavedState(s: ResearchState): ResearchState
  {
    s.(finalProposal := None)
  }

  /** The exceptions the stage turns into an error update; `ConnectionError` is a subclass of `OSError`. */
  predicate IsSaveError(e: Exn)
  {
    e.kind == OSError || e.kind == ConnectionError || e.kind == ValueError || e.kind == KeyError
  }

  /** The first failure among creating the directory, writing the proposal and writing the state. */
  function FirstFailure(slug: string, failure: string -> Option<Exn>): Option<Exn>
  {
    if failure(ProposalsDir).Some? then failure(ProposalsDir)
    else if failure(ProposalPath(slug)).Some? then failure(ProposalPath(slug))
    else failure(StatePath(slug))
  }

  /** The update when nothing was saved. */
  function NotSaved(s: ResearchState, tools: seq<string>, error: string): Update
  {
    NoChange.(error := Put(error), validationReport := Put(s.validationReport.GetOr("")),
              mcpToolsAvailable := Put(tools), proposalPath := Clear, statePath := Clear)
  }

  /** The update after both files were written. */
  function Saved(s: ResearchState, tools: seq<string>): Update
  {
    var slug := Slug(s);
    NoChange.(proposalPath := Put(ProposalPath(slug)), statePath := Put(StatePath(slug)),
              validationReport := Put(s.validationReport.GetOr("")), mcpToolsAvailable := Put(tools),
              error := Clear)
  }

  /** What `persist_node` returns, or the exception it raises. */
  function PersistSpec(s: ResearchState, client: Result<Client, Exn>, failure: string -> Option<Exn>)
    : Result<Update, Exn>
  {
    if client.Err? then Err(client.error)
    else
      var tools := GetAvailableToolNames(client.value);
      if ChosenProposal(s).None? then Ok(NotSaved(s, tools, NoProposalError))
      else
        match FirstFailure(Slug(s), failure)
        case None => Ok(Saved(s, tools))
        case Some(e) =>
          if IsSaveError(e) then Ok(NotSaved(s, tools, "Failed to save proposal: " + e.msg)) else Err(e)
  }

  /** `persist_node(state, config)`: the update, and the files it leaves on `disk`. */
  method PersistNode(s: ResearchState, client: Result<Client, Exn>, disk: Disk) returns (r: Result<Update, Exn>)
    modifies disk
    ensures r == PersistSpec(s, client, disk.failure)
    ensures var slug := Slug(s);
      var chosen := ChosenProposal(s);
      var failure := disk.failure;
      && disk.proposals == (if client.Ok? && chosen.Some? && failure(ProposalsDir).None? && failure(ProposalPath(slug)).None?
                            then old(disk.proposals)[ProposalPath(slug) := chosen.value] else old(disk.proposals))
      && disk.states == (if client.Ok? && chosen.Some? && FirstFailure(slug, failure).None?
                         then old(disk.states)[StatePath(slug) := SavedState(s)] else old(disk.states))
  {
    if client.Err? {
      return Err(client.error);
    }
    var tools := GetAvailableToolNames(client.value);
    var proposal := s.finalProposal;
    var slug := Slug(s);
    var report := s.validationReport.GetOr("");
    if !TruthyJson(proposal) {
      var raw := s.rawProposal;
      if TruthyJson(raw) {
        proposal := raw;
      } else {
        return Ok(NoChange.(error := Put(NoProposalError), validationReport := Put(report),
                            mcpToolsAvailable := Put(tools), proposalPath := Clear, statePath := Clear));
      }
    }
    var e := disk.MakeDir(ProposalsDir);
    if e.None? {
      e := disk.WriteProposal(ProposalPath(slug), proposal.value);
      if e.None? {
        e := disk.WriteState(StatePath(slug), SavedState(s));
      }
    }
    if e.None? {
      r := Ok(NoChange.(proposalPath := Put(ProposalPath(slug)), statePath := Put(StatePath(slug)),
                        validationReport := Put(report), mcpToolsAvailable := Put(tools), error := Clear));
    } else if IsSaveError(e.value) {
      r := Ok(NoChange.(error := Put("Failed to save proposal: " + e.value.msg), validationReport := Put(report),
                        mcpToolsAvailable := Put(tools), proposalPath := Clear, statePath := Clear));
    } else {
      r := Err(e.value);
    }
  }

  // ---------------------------------------------------------------------
  // Properties
  // ---------------------------------------------------------------------

  /** The final proposal is preferred; the raw one is the fallback; neither being truthy means nothing to persist. */
  lemma ProposalChoice(s: ResearchState)
    ensures TruthyJson(s.finalProposal) ==> ChosenProposal(s) == s.finalProposal
    ensures !TruthyJson(s.finalProposal) && TruthyJson(s.rawProposal) ==> ChosenProposal(s) == s.rawProposal
    ensures ChosenProposal(s).None? <==> !TruthyJson(s.finalProposal) && !TruthyJson(s.rawProposal)
    ensures ChosenProposal(s).Some? ==> Truthy(ChosenProposal(s).value)
  {
  }

  /** Both files go to the proposals directory, named after the slug ("research_proposal" by default). */
  lemma PathsSpec(s: ResearchState)
    ensures s.slug.None? ==> Slug(s) == DefaultSlug
    ensures ProposalPath(Slug(s)) == "proposals/" + Slug(s) + ".json"
    ensures StatePath(Slug(s)) == "proposals/" + Slug(s) + "_state.json"
    ensures StartsWith(ProposalPath(Slug(s)), "proposals/") && EndsWith(ProposalPath(Slug(s)), ".json")
    ensures StartsWith(StatePath(Slug(s)), "proposals/") && EndsWith(StatePath(Slug(s)), "_state.json")
    ensures ProposalPath(Slug(s)) != StatePath(Slug(s))
  {
    var slug := Slug(s);
    assert ProposalsDir + "/" + slug + ".json" == "proposals/" + slug + ".json";
    assert ProposalsDir + "/" + slug + "_state.json" == "proposals/" + slug + "_state.json";
    ConcatShape("proposals/", slug, ".json");
    ConcatShape("proposals/", slug, "_state.json");
    assert |ProposalPath(slug)| != |StatePath(slug)|;
  }

  /** The saved state is the incoming state with exactly `final_proposal` removed. */
  lemma SavedStateSpec(s: ResearchState)
    ensures SavedState(s).finalProposal.None?
    ensures SavedState(s).(finalProposal := s.finalProposal) == s
    ensures Merge(SavedState(s), NoChange.(finalProposal := if s.finalProposal.Some? then Put(s.finalProposal.value) else Clear)) == s
  {
  }

  /**
   * Success records both paths and clears the error; nothing to persist, or
   * a caught save failure, records the error with both paths cleared; any
   * other exception escapes.
   */
  lemma PersistOutcome(s: ResearchState, client: Result<Client, Exn>, failure: string -> Option<Exn>)
    requires client.Ok?
    ensures var r := PersistSpec(s, client, failure);
      && (ChosenProposal(s).None? ==>
            r.Ok? && r.value.error == Put(NoProposalError) && r.value.proposalPath == Clear && r.value.statePath == Clear)
      && (ChosenProposal(s).Some? && FirstFailure(Slug(s), failure).None? ==>
            r.Ok? && r.value.error == Clear
            && r.value.proposalPath == Put(ProposalPath(Slug(s))) && r.value.statePath == Put(StatePath(Slug(s))))
      && (ChosenProposal(s).Some? && FirstFailure(Slug(s), failure).Some? ==>
            var e := FirstFailure(Slug(s), failure).value;
            (IsSaveError(e) ==> r.Ok? && r.value.error == Put("Failed to save proposal: " + e.msg)
                                && r.value.proposalPath == Clear && r.value.statePath == Clear)
            && (!IsSaveError(e) ==> r == Err(e)))
      && (r.Ok? ==> r.value.validationReport == Put(s.validationReport.GetOr("")))
  {
  }
}
