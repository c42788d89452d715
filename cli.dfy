/**
 * The command line's input handling: the instrument list, the component
 * mask, the output slug, and the state a `propose` run starts from.
 * Settings come from the configuration file or the environment; a missing
 * setting and an empty one are both the empty string here.
 */
module CommandLine {
  import opened Wrappers
  import opened Text
  import opened Components
  import opened State
  import Prompts
  import Workflow

  // ---------------------------------------------------------------------
  // Comma lists
  // ---------------------------------------------------------------------

  /** The comma-separated items, each trimmed and lower-cased. */
  function Items(s: string): (r: seq<string>)
    ensures |r| >= 1
  {
    var parts := Split(s, ",");
    seq(|parts|, i requires 0 <= i < |parts| => Lower(Strip(parts[i])))
  }

  /** The items outside `valid`, in order. */
  function Invalid(items: seq<string>, valid: set<string>): (r: seq<string>)
    ensures forall x :: x in r <==> x in items && x !in valid
  {
    if items == [] then []
    else
      var before := Invalid(items[..|items| - 1], valid);
      var last := items[|items| - 1];
      assert items == items[..|items| - 1] + [last];
      if last in valid then before else before + [last]
  }

  /**
   * Python's `repr` of a list of strings, exact for items holding no quote
   * and no backslash; `repr`'s escaping and its switch to double quotes are
   * not modelled, so other items appear between single quotes as written.
   */
  function Repr(xs: seq<string>): string
  {
    "[" + Join(", ", seq(|xs|, i requires 0 <= i < |xs| => "'" + xs[i] + "'")) + "]"
  }

  /**
   * The shared front half of both parsers: an empty string, or any item
   * outside `valid`, raises `ValueError`; otherwise the items.
   */
  function CheckedItems(s: string, valid: set<string>, emptyError: string, noun: string, options: string)
    : Result<seq<string>, Exn>
  {
    if s == "" then Err(Exn(ValueError, emptyError))
    else
      var items := Items(s);
      var bad := Invalid(items, valid);
      if bad != [] then Err(Exn(ValueError, "Invalid " + noun + ": " + Repr(bad) + ". Valid options are: " + options))
      else Ok(items)
  }

  /** The items come back exactly when the string is non-empty and every item is valid. */
  lemma CheckedItemsSpec(s: string, valid: set<string>, emptyError: string, noun: string, options: string)
    ensures var r := CheckedItems(s, valid, emptyError, noun, options);
      && (r.Ok? <==> s != "" && forall x :: x in Items(s) ==> x in valid)
      && (r.Ok? ==> r.value == Items(s))
      && (s == "" ==> r == Err(Exn(ValueError, emptyError)))
      && (r.Err? ==> r.error.kind == ValueError)
  {
    if s != "" {
      var items := Items(s);
      var bad := Invalid(items, valid);
      if bad == [] {
        forall x | x in items
          ensures x in valid
        {
          assert x !in bad;
        }
      } else {
        assert bad[0] in items && bad[0] !in valid;
      }
    }
  }

  // ---------------------------------------------------------------------
  // Instruments
  // ---------------------------------------------------------------------

  const ValidInstruments: set<string> := {"stocks", "options", "futures", "forex", "crypto"}

  /** The valid instruments, sorted and comma-joined. */
  const InstrumentOptions := "crypto, forex, futures, options, stocks"

  /** `parse_instruments`: the valid instruments listed, each once in first-listed order. */
  function ParseInstruments(s: string): Result<seq<string>, Exn>
  {
    match CheckedItems(s, ValidInstruments, "Instruments cannot be empty", "instruments", InstrumentOptions)
    case Err(e) => Err(e)
    case Ok(items) => Ok(Prompts.Dedup(items))
  }

  /** The position of the first occurrence of `x`. */
  function FirstIndex(xs: seq<string>, x: string): (i: nat)
    requires x in xs
    ensures i < |xs| && xs[i] == x && forall k :: 0 <= k < i ==> xs[k] != x
  {
    if xs[0] == x then 0
    else
      var j := FirstIndex(xs[1..], x);
      j + 1
  }

  /** The first occurrence of an element of a prefix lies in the prefix. */
  lemma FirstIndexPrefix(xs: seq<string>, n: nat, x: string)
    requires n <= |xs| && x in xs[..n]
    ensures x in xs && FirstIndex(xs, x) == FirstIndex(xs[..n], x)
  {
    var i := FirstIndex(xs[..n], x);
    assert xs[i] == x;
  }

  /** `dict.fromkeys` keeps first occurrences in the order they occur: one pair of positions. */
  lemma {:induction false} DedupOrderAt(xs: seq<string>, i: nat, j: nat)
    requires i < j < |Prompts.Dedup(xs)|
    ensures Prompts.Dedup(xs)[i] in xs && Prompts.Dedup(xs)[j] in xs
    ensures FirstIndex(xs, Prompts.Dedup(xs)[i]) < FirstIndex(xs, Prompts.Dedup(xs)[j])
    decreases |xs|
  {
    Prompts.DedupSpec(xs);
    var n := |xs| - 1;
    var p := xs[..n];
    var last := xs[n];
    Prompts.DedupSpec(p);
    var d := Prompts.Dedup(xs);
    var dp := Prompts.Dedup(p);
    assert d == (if last in dp then dp else dp + [last]);
    assert d[i] == dp[i];
    FirstIndexPrefix(xs, n, dp[i]);
    if j < |dp| {
      assert d[j] == dp[j];
      FirstIndexPrefix(xs, n, dp[j]);
      DedupOrderAt(p, i, j);
    } else {
      assert d[j] == last && last !in p;
    }
  }

  /** `dict.fromkeys` keeps exactly the elements, first occurrences first. */
  lemma DedupOrder(xs: seq<string>)
    ensures forall x :: x in Prompts.Dedup(xs) ==> x in xs
    ensures var d := Prompts.Dedup(xs);
      forall i, j :: 0 <= i < j < |d| ==> FirstIndex(xs, d[i]) < FirstIndex(xs, d[j])
  {
    Prompts.DedupSpec(xs);
    var d := Prompts.Dedup(xs);
    forall i, j | 0 <= i < j < |d|
      ensures FirstIndex(xs, d[i]) < FirstIndex(xs, d[j])
    {
      DedupOrderAt(xs, i, j);
    }
  }

  /**
   * The instruments parse exactly when the string is non-empty and every
   * trimmed, lower-cased item is one of the five instruments; the result
   * then holds each listed instrument once, in order of first mention.
   */
  lemma InstrumentsSpec(s: string)
    ensures ParseInstruments(s).Ok? <==> s != "" && forall x :: x in Items(s) ==> x in ValidInstruments
    ensures ParseInstruments(s).Ok? ==>
      var r := ParseInstruments(s).value;
      && r != []
      && NoDuplicates(r)
      && (forall x :: x in r <==> x in Items(s))
      && (forall x :: x in r ==> x in ValidInstruments)
      && (forall i, j :: 0 <= i < j < |r| ==> FirstIndex(Items(s), r[i]) < FirstIndex(Items(s), r[j]))
    ensures s == "" ==> ParseInstruments(s) == Err(Exn(ValueError, "Instruments cannot be empty"))
  {
    CheckedItemsSpec(s, ValidInstruments, "Instruments cannot be empty", "instruments", InstrumentOptions);
    var items := Items(s);
    Prompts.DedupSpec(items);
    DedupOrder(items);
    assert items[0] in Prompts.Dedup(items);
  }

  // ---------------------------------------------------------------------
  // Components
  // ---------------------------------------------------------------------

  /** The lower-case names the command line accepts. */
  function Label(c: Component): string
  {
    match c
    case Universe => "universe"
    case Alpha => "alpha"
    case Portfolio => "portfolio"
    case Execution => "execution"
    case Risk => "risk"
  }

  const ValidComponents: set<string> := {"universe", "alpha", "portfolio", "execution", "risk"}

  const ComponentOptions := "alpha, execution, portfolio, risk, universe"

  /** The `mapping` dictionary. */
  function ComponentNamed(item: string): (r: Option<Component>)
    ensures r.Some? <==> item in ValidComponents
    ensures forall c :: r == Some(c) <==> Label(c) == item
  {
    if item == "universe" then Some(Universe)
    else if item == "alpha" then Some(Alpha)
    else if item == "portfolio" then Some(Portfolio)
    else if item == "execution" then Some(Execution)
    else if item == "risk" then Some(Risk)
    else None
  }

  /** The components the items name. */
  function Named(items: seq<string>): (r: seq<Component>)
    requires forall x :: x in items ==> x in ValidComponents
    ensures |r| == |items|
    ensures forall i :: 0 <= i < |items| ==> Label(r[i]) == items[i]
  {
    seq(|items|, i requires 0 <= i < |items| => ComponentNamed(items[i]).value)
  }

  /** The OR of the components' flags. */
  function Mask(cs: seq<Component>): nat
  {
    if cs == [] then 0 else With(Mask(cs[..|cs| - 1]), cs[|cs| - 1])
  }

  /** The mask `parse_components` returns, or the error it raises. */
  function ComponentMask(s: string): Result<nat, Exn>
  {
    match CheckedItems(s, ValidComponents, "Components cannot be empty", "components", ComponentOptions)
    case Err(e) => Err(e)
    case Ok(items) =>
      CheckedItemsSpec(s, ValidComponents, "Components cannot be empty", "components", ComponentOptions);
      Ok(Mask(Named(items)))
  }

  /** The loop of `parse_components`: OR the flag of each item into the mask, in order. */
  method OrFlags(items: seq<string>) returns (bitmask: nat)
    requires forall x :: x in items ==> x in ValidComponents
    ensures bitmask == Mask(Named(items))
  {
    ghost var cs := Named(items);
    bitmask := 0;
    for i := 0 to |items|
      invariant bitmask == Mask(cs[..i])
    {
      assert cs[..i + 1][..i] == cs[..i];
      bitmask := With(bitmask, ComponentNamed(items[i]).value);
    }
    assert cs[..|items|] == cs;
  }

  /** `parse_components`: validate every item, then OR the flags in one by one. */
  method ParseComponents(s: string) returns (r: Result<nat, Exn>)
    ensures r == ComponentMask(s)
  {
    var checked := CheckedItems(s, ValidComponents, "Components cannot be empty", "components", ComponentOptions);
    if checked.Err? {
      return Err(checked.error);
    }
    CheckedItemsSpec(s, ValidComponents, "Components cannot be empty", "components", ComponentOptions);
    var bitmask := OrFlags(checked.value);
    r := Ok(bitmask);
  }

  /** The mask has exactly the listed components' bits and is below 32. */
  lemma {:induction false} MaskSpec(cs: seq<Component>)
    ensures forall c :: Has(Mask(cs), c) <==> c in cs
    ensures Mask(cs) < 32
    decreases |cs|
  {
    if cs != [] {
      var p := cs[..|cs| - 1];
      var last := cs[|cs| - 1];
      MaskSpec(p);
      assert cs == p + [last];
      forall c
        ensures Has(Mask(cs), c) <==> c in cs
      {
        WithSpec(Mask(p), last, c);
      }
      WithBound(Mask(p), last);
    }
  }

  /** The mask of some valid items sets exactly the bits of the components they name. */
  lemma NamedMask(items: seq<string>)
    requires items != [] && forall x :: x in items ==> x in ValidComponents
    ensures forall c :: Has(Mask(Named(items)), c) <==> Label(c) in items
    ensures 0 < Mask(Named(items)) < 32
  {
    var cs := Named(items);
    MaskSpec(cs);
    forall c
      ensures c in cs <==> Label(c) in items
    {
      if Label(c) in items {
        var i :| 0 <= i < |items| && items[i] == Label(c);
        assert Label(cs[i]) == Label(c);
        assert cs[i] == c;
      }
    }
    assert Has(Mask(cs), cs[0]);
    NoBitOfZero(BitIndex(cs[0]));
  }

  /**
   * The components parse exactly when the string is non-empty and every
   * item names a component; the mask then sets the bit of each named
   * component and no other, is non-zero and is at most 31.
   */
  lemma ComponentsSpec(s: string)
    ensures ComponentMask(s).Ok? <==> s != "" && forall x :: x in Items(s) ==> x in ValidComponents
    ensures ComponentMask(s).Ok? ==>
      var m := ComponentMask(s).value;
      && (forall c :: Has(m, c) <==> Label(c) in Items(s))
      && 0 < m < 32
    ensures s == "" ==> ComponentMask(s) == Err(Exn(ValueError, "Components cannot be empty"))
  {
    CheckedItemsSpec(s, ValidComponents, "Components cannot be empty", "components", ComponentOptions);
    if ComponentMask(s).Ok? {
      NamedMask(Items(s));
    }
  }

  // ---------------------------------------------------------------------
  // Slug
  // ---------------------------------------------------------------------

  const DefaultSlug := "research_proposal"

  /** The most characters of the idea the slug is made from. */
  const SlugSource: nat := 50

  /** Drops the leading characters outside `[a-zA-Z0-9]`. */
  function SkipRun(s: string): (r: string)
    ensures |r| <= |s| && r == s[|s| - |r|..]
    ensures r == [] || IsAlnum(r[0])
  {
    if s != [] && !IsAlnum(s[0]) then SkipRun(s[1..]) else s
  }

  /** `re.sub(r"[^a-zA-Z0-9]+", "_", s)`: each maximal run outside `[a-zA-Z0-9]` becomes one underscore. */
  function Squash(s: string): (r: string)
    ensures |r| <= |s|
    decreases |s|
  {
    if s == [] then []
    else if IsAlnum(s[0]) then [s[0]] + Squash(s[1..])
    else "_" + Squash(SkipRun(s[1..]))
  }

  /** `create_slug`. */
  function CreateSlug(idea: string): string
  {
    var slug := StripChar(Squash(Take(Lower(idea), SlugSource)), '_');
    if slug == "" then DefaultSlug else slug
  }

  /** No two underscores meet. */
  predicate SingleUnderscores(s: string)
  {
    forall i, j :: 0 <= i < |s| && j == i + 1 && j < |s| ==> !(s[i] == '_' && s[j] == '_')
  }

  /** Only lower-case letters, digits and single underscores, none at either end. */
  predicate SlugShaped(s: string)
  {
    && s != []
    && (forall i :: 0 <= i < |s| ==> IsLower(s[i]) || IsDigit(s[i]) || s[i] == '_')
    && SingleUnderscores(s)
    && s[0] != '_' && s[|s| - 1] != '_'
  }

  /** The characters of `[a-zA-Z0-9]` in `s`, in order. */
  function AlnumOf(s: string): string
  {
    if s == [] then [] else (if IsAlnum(s[0]) then [s[0]] else []) + AlnumOf(s[1..])
  }

  lemma {:induction false} SkipRunAlnum(s: string)
    ensures AlnumOf(SkipRun(s)) == AlnumOf(s)
    decreases |s|
  {
    if s != [] && !IsAlnum(s[0]) {
      SkipRunAlnum(s[1..]);
    }
  }

  /** The substitution keeps every letter and digit, in order. */
  lemma {:induction false} SquashKeepsAlnum(s: string)
    ensures AlnumOf(Squash(s)) == AlnumOf(s)
    decreases |s|
  {
    if s != [] {
      if IsAlnum(s[0]) {
        SquashKeepsAlnum(s[1..]);
        var t := [s[0]] + Squash(s[1..]);
        assert t[1..] == Squash(s[1..]);
      } else {
        var rest := SkipRun(s[1..]);
        SquashKeepsAlnum(rest);
        SkipRunAlnum(s[1..]);
        var t := "_" + Squash(rest);
        assert t[1..] == Squash(rest);
      }
    }
  }

  /** Every character of the substitution's result is a letter, a digit or an underscore. */
  lemma {:induction false} SquashChars(s: string)
    ensures forall i :: 0 <= i < |Squash(s)| ==> IsAlnum(Squash(s)[i]) || Squash(s)[i] == '_'
    decreases |s|
  {
    if s != [] {
      var head, tail := if IsAlnum(s[0]) then [s[0]] else "_", if IsAlnum(s[0]) then s[1..] else SkipRun(s[1..]);
      SquashChars(tail);
      var t := head + Squash(tail);
      assert Squash(s) == t;
      forall i | 0 <= i < |t|
        ensures IsAlnum(t[i]) || t[i] == '_'
      {
        if i > 0 {
          assert t[i] == Squash(tail)[i - 1];
        }
      }
    }
  }

  /** The result starts with an underscore exactly when the text starts outside `[a-zA-Z0-9]`. */
  lemma SquashLeading(s: string)
    ensures s != [] && !IsAlnum(s[0]) <==> Squash(s) != [] && Squash(s)[0] == '_'
  {
  }

  /** One underscore stands where there was at least one other character: no two underscores meet. */
  lemma {:induction false} SquashSingles(s: string)
    ensures SingleUnderscores(Squash(s))
    decreases |s|
  {
    if s != [] {
      var head, tail := if IsAlnum(s[0]) then [s[0]] else "_", if IsAlnum(s[0]) then s[1..] else SkipRun(s[1..]);
      SquashSingles(tail);
      SquashLeading(tail);
      var t := head + Squash(tail);
      assert Squash(s) == t;
      forall i, j | 0 <= i && i + 1 == j < |t|
        ensures !(t[i] == '_' && t[j] == '_')
      {
        assert t[j] == Squash(tail)[i];
        if i > 0 {
          assert t[i] == Squash(tail)[i - 1];
        }
      }
    }
  }

  /** The letters and digits of a text are exactly its characters of `[a-zA-Z0-9]`. */
  lemma {:induction false} AlnumOfMembers(s: string)
    ensures forall c :: c in AlnumOf(s) <==> c in s && IsAlnum(c)
    decreases |s|
  {
    if s != [] {
      AlnumOfMembers(s[1..]);
      assert s == [s[0]] + s[1..];
    }
  }

  /** A slice of a text without double underscores has none either. */
  lemma SingleSlice(s: string, lo: nat, hi: nat)
    requires lo <= hi <= |s| && SingleUnderscores(s)
    ensures SingleUnderscores(s[lo..hi])
  {
    var r := s[lo..hi];
    forall i, j | 0 <= i < |r| && j == i + 1 && j < |r|
      ensures !(r[i] == '_' && r[j] == '_')
    {
      assert r[i] == s[lo + i] && r[j] == s[lo + j];
    }
  }

  /** Every letter or digit the substitution leaves comes from the text. */
  lemma SquashedAlnumFrom(src: string)
    ensures forall c :: c in Squash(src) && IsAlnum(c) ==> c in src
  {
    SquashKeepsAlnum(src);
    AlnumOfMembers(src);
    AlnumOfMembers(Squash(src));
  }

  /** The characters of a slug are lower-case letters, digits and underscores. */
  lemma SlugChars(idea: string)
    ensures forall i :: 0 <= i < |CreateSlug(idea)| ==> var c := CreateSlug(idea)[i]; IsLower(c) || IsDigit(c) || c == '_'
  {
    var src := Take(Lower(idea), SlugSource);
    var sq := Squash(src);
    var slug := StripChar(sq, '_');
    if slug != "" {
      var lo, hi := StripCharSlice(sq, '_');
      SquashChars(src);
      SquashedAlnumFrom(src);
      forall i | 0 <= i < |slug|
        ensures IsLower(slug[i]) || IsDigit(slug[i]) || slug[i] == '_'
      {
        var c := slug[i];
        assert c == sq[lo + i];
        if c != '_' {
          assert c in src;
          var j :| 0 <= j < |src| && src[j] == c;
          assert src[j] == Lower(idea)[j];
        }
      }
    }
  }

  /**
   * A slug is non-empty, at most 50 characters long, made of lower-case
   * letters, digits and single underscores, and neither starts nor ends
   * with an underscore.
   */
  lemma SlugSpec(idea: string)
    ensures SlugShaped(CreateSlug(idea))
    ensures |CreateSlug(idea)| <= SlugSource
  {
    var src := Take(Lower(idea), SlugSource);
    var sq := Squash(src);
    var slug := StripChar(sq, '_');
    SlugChars(idea);
    if slug != "" {
      var lo, hi := StripCharSlice(sq, '_');
      SquashSingles(src);
      SingleSlice(sq, lo, hi);
    } else {
      assert DefaultSlug[8] == '_';
    }
  }

  /** The substitution leaves a text of letters, digits and single underscores alone. */
  lemma {:induction false} SquashFixed(s: string)
    requires forall i :: 0 <= i < |s| ==> IsAlnum(s[i]) || s[i] == '_'
    requires SingleUnderscores(s)
    ensures Squash(s) == s
    decreases |s|
  {
    if s != [] {
      SquashFixed(s[1..]);
      if !IsAlnum(s[0]) {
        assert SkipRun(s[1..]) == s[1..];
      }
    }
  }

  /** `create_slug` gives a slug back unchanged: it is idempotent. */
  lemma SlugIdempotent(idea: string)
    ensures CreateSlug(CreateSlug(idea)) == CreateSlug(idea)
  {
    var slug := CreateSlug(idea);
    SlugSpec(idea);
    assert Lower(slug) == slug;
    assert Take(slug, SlugSource) == slug;
    SquashFixed(slug);
  }

  // ---------------------------------------------------------------------
  // The `propose` command
  // ---------------------------------------------------------------------

  /**
   * The settings `propose` reads and passes on to the graph's declared keys;
   * an absent text setting is the empty string.
   */
  datatype Settings = Settings(idea: string, instruments: string, components: string, slug: string, alphaOnly: bool,
                               outputDir: string, uploadToGithub: bool)

  /** The state `propose` hands to the graph, or the error it stops with. */
  function InitialState(cfg: Settings): Result<ResearchState, Exn>
  {
    if cfg.idea == "" then Err(Exn(ValueError, "'idea' is required in config file or .env (IDEA=...)"))
    else if cfg.instruments == "" then
      Err(Exn(ValueError, "'instruments' is required in config file or .env (INSTRUMENTS=...)"))
    else
      var slug := if cfg.slug != "" then cfg.slug else CreateSlug(cfg.idea);
      var instruments := ParseInstruments(cfg.instruments);
      var components := if cfg.components == "" then Ok(0) else ComponentMask(cfg.components);
      if instruments.Err? then Err(instruments.error)
      else if components.Err? then Err(components.error)
      else
        Ok(Empty.(idea := Some(cfg.idea), alphaOnly := Some(cfg.alphaOnly), instruments := Some(instruments.value),
                  components := if cfg.components == "" then None else Some(components.value),
                  slug := Some(slug), outputDir := Some(cfg.outputDir), uploadToGithub := Some(cfg.uploadToGithub),
                  currentStep := Some("plan"), shouldRestartPlanning := Some(false),
                  planningIteration := Some(0), repairAttempts := Some(0)))
  }

  /**
   * `propose` stops on a missing idea or instrument list, or on a list that
   * does not parse; otherwise the state holds the idea and the parsed
   * settings, the configured slug or a well-formed one, the alpha-only
   * switch, output directory and upload switch as configured, and starts at the
   * plan step with no planning round and no repair done.
   */
  lemma InitialStateSpec(cfg: Settings)
    ensures InitialState(cfg).Ok? <==>
      && cfg.idea != "" && cfg.instruments != ""
      && ParseInstruments(cfg.instruments).Ok?
      && (cfg.components == "" || ComponentMask(cfg.components).Ok?)
    ensures cfg.idea == "" ==> InitialState(cfg) == Err(Exn(ValueError, "'idea' is required in config file or .env (IDEA=...)"))
    ensures InitialState(cfg).Ok? ==>
      var s0 := InitialState(cfg).value;
      && s0.idea == Some(cfg.idea)
      && s0.instruments == Some(ParseInstruments(cfg.instruments).value)
      && (cfg.components == "" ==> s0.components.None?)
      && (cfg.components != "" ==> s0.components == Some(ComponentMask(cfg.components).value))
      && (cfg.slug != "" ==> s0.slug == Some(cfg.slug))
      && (cfg.slug == "" ==> s0.slug.Some? && SlugShaped(s0.slug.value))
      && s0.alphaOnly == Some(cfg.alphaOnly)
      && s0.outputDir == Some(cfg.outputDir) && s0.uploadToGithub == Some(cfg.uploadToGithub)
      && s0.currentStep == Some("plan")
      && PlanningIteration(s0) == 0 && RepairAttempts(s0) == 0
  {
    SlugSpec(cfg.idea);
  }

  /**
   * The graph run `propose` starts (under LangGraph's default recursion
   * limit) restarts from criticism at most twice, counts its planning rounds
   * in the final round, and repairs at most once.
   */
  lemma ProposeRun(cfg: Settings, s0: ResearchState, env: Workflow.Env)
    requires InitialState(cfg) == Ok(s0)
    ensures var r := Workflow.Execute(Workflow.Nodes(env), Workflow.Plan, s0, Workflow.RecursionLimit);
      && |r.hops| <= Workflow.RecursionLimit
      && Workflow.Taken(r.hops, Workflow.Criticism, Workflow.Plan) <= 2
      && PlanningIteration(r.state) == Workflow.Rounds(r.hops, Workflow.Plan)
      && 0 <= RepairAttempts(r.state) <= 1
  {
    InitialStateSpec(cfg);
    Workflow.FreshRun(env, s0, Workflow.RecursionLimit);
  }
}
