/**
 * The standalone proposal checker (`scripts/validate_proposal.py`): the
 * JSONC comment stripper that prepares the schema, the formatting of the
 * schema errors jsonschema reports, and the structural rules of alpha-only
 * proposals.
 *
 * File access, `json.loads`, jsonschema and the console output of `main`
 * are outside the model: decoding and the two jsonschema calls are oracles.
 */
module ProposalScript {
  import opened Wrappers
  import opened Text
  import opened JsonValues
  import ValidationTool

  // ---------------------------------------------------------------------
  // JSONC comments
  // ---------------------------------------------------------------------

  /** A '"' that flips the in-string flag: one not preceded by a backslash. */
  predicate IsToggle(line: string, i: nat)
    requires i < |line|
  {
    line[i] == '"' && (i == 0 || line[i - 1] != '\\')
  }

  /** "//" starts at `i`. */
  predicate CommentAt(line: string, i: nat)
    requires i < |line|
  {
    line[i] == '/' && i + 1 < |line| && line[i + 1] == '/'
  }

  /** What the character loop keeps of `line[i..]` when it reaches `i` with `inString`, and the flag it ends with. */
  function Scan(line: string, i: nat, inString: bool): (string, bool)
    requires i <= |line|
    decreases |line| - i
  {
    if i == |line| then ("", inString)
    else if IsToggle(line, i) then
      var rest := Scan(line, i + 1, !inString);
      ([line[i]] + rest.0, rest.1)
    else if !inString && CommentAt(line, i) then ("", inString)
    else
      var rest := Scan(line, i + 1, inString);
      ([line[i]] + rest.0, rest.1)
  }

  /** The cleaned, right-trimmed lines, the flag carried from each line into the next. */
  function CleanLines(lines: seq<string>, inString: bool): (r: (seq<string>, bool))
    ensures |r.0| == |lines|
  {
    if lines == [] then ([], inString)
    else
      var first := Scan(lines[0], 0, inString);
      var rest := CleanLines(lines[1..], first.1);
      ([RStrip(first.0)] + rest.0, rest.1)
  }

  /** The text `load_schema` hands to `json.loads`. */
  function StrippedText(content: string): string
  {
    Join("\n", CleanLines(Split(content, "\n"), false).0)
  }

  /** The character loop over one line. */
  method CleanLine(line: string, inString: bool) returns (cleaned: string, after: bool)
    ensures (cleaned, after) == Scan(line, 0, inString)
  {
    cleaned := "";
    after := inString;
    var i := 0;
    while i < |line|
      invariant 0 <= i <= |line|
      invariant cleaned + Scan(line, i, after).0 == Scan(line, 0, inString).0
      invariant Scan(line, i, after).1 == Scan(line, 0, inString).1
      decreases |line| - i
    {
      var c := line[i];
      if c == '"' && (i == 0 || line[i - 1] != '\\') {
        after := !after;
        cleaned := cleaned + [c];
      } else if !after && c == '/' && i + 1 < |line| && line[i + 1] == '/' {
        assert Scan(line, i, after) == ("", after);
        assert cleaned + "" == cleaned;
        return;
      } else {
        cleaned := cleaned + [c];
      }
      i := i + 1;
    }
    assert cleaned + "" == cleaned;
  }

  /** The comment-stripping loop of `load_schema`. */
  method StripComments(content: string) returns (clean: string)
    ensures clean == StrippedText(content)
  {
    var source := Split(content, "\n");
    var lines: seq<string> := [];
    var inString := false;
    for k := 0 to |source|
      invariant lines + CleanLines(source[k..], inString).0 == CleanLines(source, false).0
    {
      assert source[k..][1..] == source[k + 1..];
      var cleaned, after := CleanLine(source[k], inString);
      lines := lines + [RStrip(cleaned)];
      inString := after;
    }
    assert source[|source|..] == [];
    assert lines + [] == lines;
    clean := Join("\n", lines);
  }

  /** `load_schema()` on the schema file's text; `decode` stands for `json.loads` and its error text. */
  method LoadSchema(content: string, decode: string -> Result<Json, string>) returns (r: Result<Json, Exn>)
    ensures r.Ok? <==> decode(StrippedText(content)).Ok?
    ensures r.Ok? ==> r.value == decode(StrippedText(content)).value
    ensures r.Err? ==> r.error == Exn(ValueError, "Failed to parse schema JSON: " + decode(StrippedText(content)).error)
  {
    var clean := StripComments(content);
    match decode(clean)
    case Ok(j) => r := Ok(j);
    case Err(e) => r := Err(Exn(ValueError, "Failed to parse schema JSON: " + e));
  }

  /** The toggling quotes in `line[i..k]`. */
  function Toggles(line: string, i: nat, k: nat): nat
    requires i <= k <= |line|
    decreases k - i
  {
    if i == k then 0 else (if IsToggle(line, i) then 1 else 0) + Toggles(line, i + 1, k)
  }

  /** The in-string flag on reaching `k`, having entered `line[i..]` with `inString`. */
  function FlagAt(line: string, i: nat, k: nat, inString: bool): bool
    requires i <= k <= |line|
  {
    if Toggles(line, i, k) % 2 == 0 then inString else !inString
  }

  lemma FlagStep(line: string, i: nat, k: nat, inString: bool)
    requires i < k <= |line|
    ensures FlagAt(line, i, k, inString) == FlagAt(line, i + 1, k, if IsToggle(line, i) then !inString else inString)
  {
    assert Toggles(line, i, k) == (if IsToggle(line, i) then 1 else 0) + Toggles(line, i + 1, k);
  }

  /**
   * A line keeps exactly its prefix up to the first "//" met outside a
   * string, the flag having flipped at every quote not preceded by a
   * backslash; the flag it ends with is the flag at the cut.
   */
  lemma {:induction false} ScanCut(line: string, i: nat, inString: bool) returns (j: nat)
    requires i <= |line|
    ensures i <= j <= |line|
    ensures Scan(line, i, inString) == (line[i..j], FlagAt(line, i, j, inString))
    ensures j < |line| ==> !FlagAt(line, i, j, inString) && CommentAt(line, j)
    ensures forall k :: i <= k < j ==> !(CommentAt(line, k) && !FlagAt(line, i, k, inString))
    decreases |line| - i
  {
    if i == |line| || (!IsToggle(line, i) && !inString && CommentAt(line, i)) {
      j := i;
      assert Scan(line, i, inString) == ("", inString);
      assert Toggles(line, i, i) == 0;
      assert line[i..i] == "";
    } else {
      var next := if IsToggle(line, i) then !inString else inString;
      j := ScanCut(line, i + 1, next);
      assert Scan(line, i, inString) == ([line[i]] + Scan(line, i + 1, next).0, Scan(line, i + 1, next).1);
      assert [line[i]] + line[i + 1..j] == line[i..j];
      FlagStep(line, i, j, inString);
      forall k | i <= k < j
        ensures !(CommentAt(line, k) && !FlagAt(line, i, k, inString))
      {
        if k > i {
          FlagStep(line, i, k, inString);
        }
      }
    }
  }

  /** Every cleaned line is a prefix of its source line with no trailing whitespace. */
  lemma {:induction false} CleanedPrefix(lines: seq<string>, inString: bool, k: nat)
    requires k < |lines|
    ensures var out := CleanLines(lines, inString).0[k];
      |out| <= |lines[k]| && out == lines[k][..|out|] && (out == [] || !IsSpace(out[|out| - 1]))
    decreases k
  {
    var first := Scan(lines[0], 0, inString);
    if k == 0 {
      LinePrefix(lines[0], inString);
    } else {
      CleanedPrefix(lines[1..], first.1, k - 1);
    }
  }

  lemma LinePrefix(line: string, inString: bool)
    ensures var out := RStrip(Scan(line, 0, inString).0);
      |out| <= |line| && out == line[..|out|] && (out == [] || !IsSpace(out[|out| - 1]))
  {
    var j := ScanCut(line, 0, inString);
    var kept := Scan(line, 0, inString).0;
    var out := RStrip(kept);
    assert kept == line[..j];
    assert out == kept[..|out|];
    assert line[..j][..|out|] == line[..|out|];
  }

  /** An unclosed string on one line keeps a "//" on the next one. */
  lemma FlagCarriesAcrossLines()
    ensures CleanLines(["\"a", "//b"], false).0 == ["\"a", "//b"]
  {
    var quoted, comment := "\"a", "//b";
    assert Scan(quoted, 2, true) == ("", true);
    assert Scan(quoted, 1, true) == (['a'] + "", true);
    assert Scan(quoted, 0, false) == (['"'] + (['a'] + ""), true);
    assert ['"'] + (['a'] + "") == quoted;
    assert Scan(comment, 3, true) == ("", true);
    assert Scan(comment, 2, true) == (['b'] + "", true);
    assert Scan(comment, 1, true) == (['/'] + (['b'] + ""), true);
    assert Scan(comment, 0, true) == (['/'] + (['/'] + (['b'] + "")), true);
    assert ['/'] + (['/'] + (['b'] + "")) == comment;
    assert RStrip(quoted) == quoted && RStrip(comment) == comment;
  }

  // ---------------------------------------------------------------------
  // Schema errors
  // ---------------------------------------------------------------------

  /** Where an error is: its dotted path, or "root" when that is empty. */
  function Location(path: seq<ValidationTool.PathElem>): string
  {
    var p := ValidationTool.PathText(path);
    if p == "" then "root" else p
  }

  function ErrorLine(e: ValidationTool.SchemaError): string
  {
    "At " + Location(e.path) + ": " + e.message
  }

  /** The formatted errors, in jsonschema's order. */
  function ErrorLines(errors: seq<ValidationTool.SchemaError>): (r: seq<string>)
  {
    if errors == [] then [] else ErrorLines(errors[..|errors| - 1]) + [ErrorLine(errors[|errors| - 1])]
  }

  /**
   * What `validate_proposal` returns.  `checkSchema` is
   * `Draft202012Validator.check_schema` (the `SchemaError` text, if it raises);
   * `iterErrors` is `iter_errors` (the errors, or the text of what it raised).
   */
  function ValidateSpec(proposal: Json, schema: Json, checkSchema: Json -> Option<string>,
                        iterErrors: (Json, Json) -> Result<seq<ValidationTool.SchemaError>, string>): seq<string>
  {
    match checkSchema(schema)
    case Some(e) => ["Invalid schema: " + e]
    case None =>
      match iterErrors(proposal, schema)
      case Err(e) => ["Validation error: " + e]
      case Ok(errors) => ErrorLines(errors)
  }

  /** `validate_proposal(proposal, schema)`. */
  method ValidateProposal(proposal: Json, schema: Json, checkSchema: Json -> Option<string>,
                          iterErrors: (Json, Json) -> Result<seq<ValidationTool.SchemaError>, string>)
    returns (errors: seq<string>)
    ensures errors == ValidateSpec(proposal, schema, checkSchema, iterErrors)
  {
    match checkSchema(schema)
    case Some(e) =>
      return ["Invalid schema: " + e];
    case None =>
    match iterErrors(proposal, schema)
    case Err(e) =>
      return ["Validation error: " + e];
    case Ok(found) =>
    errors := [];
    for i := 0 to |found|
      invariant errors == ErrorLines(found[..i])
    {
      assert found[..i + 1][..i] == found[..i];
      var path := ValidationTool.PathText(found[i].path);
      if path == "" {
        path := "root";
      }
      errors := errors + ["At " + path + ": " + found[i].message];
    }
    assert found[..|found|] == found;
  }

  /** One line per error, in order, each naming the error's place ("root" for the document itself) and its message. */
  lemma {:induction false} ErrorLinesSpec(errors: seq<ValidationTool.SchemaError>)
    ensures |ErrorLines(errors)| == |errors|
    ensures forall k :: 0 <= k < |errors| ==>
      ErrorLines(errors)[k] == "At " + Location(errors[k].path) + ": " + errors[k].message
    decreases |errors|
  {
    if errors != [] {
      ErrorLinesSpec(errors[..|errors| - 1]);
    }
  }

  /** The document itself is reported as "root"; any other place by its non-empty dotted path. */
  lemma LocationSpec(path: seq<ValidationTool.PathElem>)
    ensures path == [] ==> Location(path) == "root"
    ensures Location(path) != ""
    ensures ValidationTool.PathText(path) != "" ==> Location(path) == ValidationTool.PathText(path)
  {
  }

  /**
   * An invalid schema or a failing validator gives exactly one message;
   * otherwise there is one line per error, so a conforming proposal gives none.
   */
  lemma ValidateOutcome(proposal: Json, schema: Json, checkSchema: Json -> Option<string>,
                        iterErrors: (Json, Json) -> Result<seq<ValidationTool.SchemaError>, string>)
    ensures var r := ValidateSpec(proposal, schema, checkSchema, iterErrors);
      && (checkSchema(schema).Some? ==> r == ["Invalid schema: " + checkSchema(schema).value])
      && (checkSchema(schema).None? && iterErrors(proposal, schema).Err? ==>
            r == ["Validation error: " + iterErrors(proposal, schema).error])
      && (checkSchema(schema).None? && iterErrors(proposal, schema).Ok? ==>
            |r| == |iterErrors(proposal, schema).value| && (r == [] <==> iterErrors(proposal, schema).value == []))
  {
    if checkSchema(schema).None? && iterErrors(proposal, schema).Ok? {
      ErrorLinesSpec(iterErrors(proposal, schema).value);
    }
  }

  // ---------------------------------------------------------------------
  // Alpha-only rules
  // ---------------------------------------------------------------------

  /** What `analyze_alpha_only_mode` reports. */
  datatype Issue =
    | NotAlphaOnly
    | ExtraFields(fields: set<string>)
    | AlphasNotObject
    | AlphaCount(found: nat)
    | ExistingAlphas
    | UniverseNotObject
    | UniverseCount(found: nat)

  /** The text of an issue; `listed` is the extra fields in the order the set yields them. */
  function IssueText(issue: Issue, listed: seq<string>): string
  {
    match issue
    case NotAlphaOnly => "Proposal is not in alpha-only mode"
    case ExtraFields(_) => "Extra fields not allowed in alpha-only mode: " + Join(", ", listed)
    case AlphasNotObject => "'alphas' must be an object"
    case AlphaCount(n) => "Alpha-only mode requires exactly 1 alpha (new or amend), found " + NatToString(n)
    case ExistingAlphas => "Alpha-only mode cannot have existing alphas"
    case UniverseNotObject => "'universe' must be an object"
    case UniverseCount(n) => "Alpha-only mode requires exactly 1 existing universe, found " + NatToString(n)
  }

  const AllowedFields: set<string> := {"alphas", "universe", "alpha-only"}

  /** `d.get(key, default)`. */
  function Get(d: map<string, Json>, key: string, default: Json): Json
  {
    if key in d then d[key] else default
  }

  /** `len(x)`: lists, objects and strings have a length; anything else raises TypeError. */
  function Len(j: Json): (r: Result<nat, Exn>)
  {
    match j
    case JArr(items) => Ok(|items|)
    case JObj(fields) => Ok(|fields|)
    case JStr(s) => Ok(|s|)
    case _ => Err(Exn(TypeError, "object of type '" + TypeName(j) + "' has no len()"))
  }

  function Alphas(proposal: map<string, Json>): Json
  {
    Get(proposal, "alphas", JObj(map[]))
  }

  function Universe(proposal: map<string, Json>): Json
  {
    Get(proposal, "universe", JObj(map[]))
  }

  /** The issues about `alphas`, or the TypeError a `len` raised. */
  function AlphaIssues(alphas: Json): Result<seq<Issue>, Exn>
  {
    if !alphas.JObj? then Ok([AlphasNotObject])
    else
      var f := alphas.fields;
      match Len(Get(f, "new", JArr([])))
      case Err(e) => Err(e)
      case Ok(n) =>
        match Len(Get(f, "amend", JArr([])))
        case Err(e) => Err(e)
        case Ok(m) =>
          Ok((if n + m != 1 then [AlphaCount(n + m)] else [])
             + (if Truthy(Get(f, "existing", JArr([]))) then [ExistingAlphas] else []))
  }

  /** The issues about `universe`, or the TypeError `len` raised. */
  function UniverseIssues(universe: Json): Result<seq<Issue>, Exn>
  {
    if !universe.JObj? then Ok([UniverseNotObject])
    else
      match Len(Get(universe.fields, "existing", JArr([])))
      case Err(e) => Err(e)
      case Ok(n) => Ok(if n != 1 then [UniverseCount(n)] else [])
  }

  /** What `analyze_alpha_only_mode(proposal)` returns, or the exception it raises. */
  function AlphaOnlyIssues(proposal: map<string, Json>): Result<seq<Issue>, Exn>
  {
    if !Truthy(Get(proposal, "alpha-only", JNull)) then Ok([NotAlphaOnly])
    else
      var extra := proposal.Keys - AllowedFields;
      match AlphaIssues(Alphas(proposal))
      case Err(e) => Err(e)
      case Ok(a) =>
        match UniverseIssues(Universe(proposal))
        case Err(e) => Err(e)
        case Ok(u) => Ok((if extra != {} then [ExtraFields(extra)] else []) + a + u)
  }

  /** `analyze_alpha_only_mode(proposal)`. */
  method AnalyzeAlphaOnlyMode(proposal: map<string, Json>) returns (r: Result<seq<Issue>, Exn>)
    ensures r == AlphaOnlyIssues(proposal)
  {
    if !Truthy(Get(proposal, "alpha-only", JNull)) {
      return Ok([NotAlphaOnly]);
    }
    var issues: seq<Issue> := [];
    var extra := proposal.Keys - AllowedFields;
    if extra != {} {
      issues := issues + [ExtraFields(extra)];
    }
    ghost var first := issues;
    assert first == if extra != {} then [ExtraFields(extra)] else [];
    var alphas := Get(proposal, "alphas", JObj(map[]));
    if !alphas.JObj? {
      issues := issues + [AlphasNotObject];
    } else {
      var newAlphas := Get(alphas.fields, "new", JArr([]));
      var amendAlphas := Get(alphas.fields, "amend", JArr([]));
      var existingAlphas := Get(alphas.fields, "existing", JArr([]));
      var n := Len(newAlphas);
      if n.Err? {
        return Err(n.error);
      }
      var m := Len(amendAlphas);
      if m.Err? {
        return Err(m.error);
      }
      var total := n.value + m.value;
      if total != 1 {
        issues := issues + [AlphaCount(total)];
      }
      if Truthy(existingAlphas) {
        issues := issues + [ExistingAlphas];
      }
    }
    assert issues == first + AlphaIssues(alphas).value;
    ghost var second := issues;
    var universe := Get(proposal, "universe", JObj(map[]));
    if !universe.JObj? {
      issues := issues + [UniverseNotObject];
    } else {
      var count := Len(Get(universe.fields, "existing", JArr([])));
      if count.Err? {
        return Err(count.error);
      }
      if count.value != 1 {
        issues := issues + [UniverseCount(count.value)];
      }
    }
    assert issues == second + UniverseIssues(universe).value;
    r := Ok(issues);
  }

  /**
   * A well-formed alpha-only proposal: the flag is set, only the allowed
   * fields appear, exactly one new-or-amend alpha, no existing alpha, and
   * exactly one existing universe.
   */
  predicate WellFormedAlphaOnly(proposal: map<string, Json>)
  {
    var alphas := Alphas(proposal);
    var universe := Universe(proposal);
    && Truthy(Get(proposal, "alpha-only", JNull))
    && proposal.Keys <= AllowedFields
    && alphas.JObj?
    && Len(Get(alphas.fields, "new", JArr([]))).Ok?
    && Len(Get(alphas.fields, "amend", JArr([]))).Ok?
    && Len(Get(alphas.fields, "new", JArr([]))).value + Len(Get(alphas.fields, "amend", JArr([]))).value == 1
    && !Truthy(Get(alphas.fields, "existing", JArr([])))
    && universe.JObj?
    && Len(Get(universe.fields, "existing", JArr([]))) == Ok(1)
  }

  /** No issue is reported exactly for a well-formed alpha-only proposal. */
  lemma NoIssuesIffWellFormed(proposal: map<string, Json>)
    ensures AlphaOnlyIssues(proposal) == Ok([]) <==> WellFormedAlphaOnly(proposal)
  {
    var r := AlphaOnlyIssues(proposal);
    if Truthy(Get(proposal, "alpha-only", JNull)) && r.Ok? {
      var a := AlphaIssues(Alphas(proposal));
      var u := UniverseIssues(Universe(proposal));
      var extra := proposal.Keys - AllowedFields;
      assert r.value == (if extra != {} then [ExtraFields(extra)] else []) + a.value + u.value;
      assert extra == {} <==> proposal.Keys <= AllowedFields;
    }
  }

  /**
   * A proposal that is not alpha-only gets that one issue.  Otherwise each
   * rule is reported exactly when it is broken, the count issues carry the
   * counts found, and the only exception is `len` raising TypeError.
   */
  lemma IssueRules(proposal: map<string, Json>)
    ensures !Truthy(Get(proposal, "alpha-only", JNull)) ==> AlphaOnlyIssues(proposal) == Ok([NotAlphaOnly])
    ensures AlphaOnlyIssues(proposal).Err? ==> AlphaOnlyIssues(proposal).error.kind == TypeError
    ensures var r := AlphaOnlyIssues(proposal);
      var alphas := Alphas(proposal);
      var universe := Universe(proposal);
      Truthy(Get(proposal, "alpha-only", JNull)) && r.Ok? ==>
        && NotAlphaOnly !in r.value
        && (ExtraFields(proposal.Keys - AllowedFields) in r.value <==> !(proposal.Keys <= AllowedFields))
        && (AlphasNotObject in r.value <==> !alphas.JObj?)
        && (ExistingAlphas in r.value <==> alphas.JObj? && Truthy(Get(alphas.fields, "existing", JArr([]))))
        && (UniverseNotObject in r.value <==> !universe.JObj?)
        && (forall n: nat :: AlphaCount(n) in r.value ==>
              alphas.JObj? && n == Len(Get(alphas.fields, "new", JArr([]))).value + Len(Get(alphas.fields, "amend", JArr([]))).value && n != 1)
        && (forall n: nat :: UniverseCount(n) in r.value ==>
              universe.JObj? && Len(Get(universe.fields, "existing", JArr([]))) == Ok(n) && n != 1)
  {
    var r := AlphaOnlyIssues(proposal);
    if Truthy(Get(proposal, "alpha-only", JNull)) && r.Ok? {
      var a := AlphaIssues(Alphas(proposal));
      var u := UniverseIssues(Universe(proposal));
      var extra := proposal.Keys - AllowedFields;
      assert r.value == (if extra != {} then [ExtraFields(extra)] else []) + a.value + u.value;
    }
  }
}
