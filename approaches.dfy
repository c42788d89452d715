/**
 * `_parse_multiple_approaches`: how one research reply is cut into separate
 * approaches.  Three strategies are tried in turn: "Approach N:" markers,
 * then four alternative structure patterns, then (for long replies)
 * roughly equal groups of paragraphs.
 *
 * The marker pattern is modelled character by character; what the four
 * alternative regular expressions find is an oracle.
 */
module ApproachParsing {
  import opened Wrappers
  import opened Text
  import opened State
  import opened Prompts

  /** Every approach carries these constant fields. */
  function Approach(title: string, content: string, component: string, number: nat): ResearchResult
  {
    ResearchResult(title, content, "llm_component_research", "llm_with_web_tools", "component_specific",
                   Some(component), number)
  }

  // ---------------------------------------------------------------------
  // "Approach N:" markers
  // ---------------------------------------------------------------------

  /** One match of `approach\s+(\d+):\s*` (ignoring case): its number's digits, their value and where it ends. */
  datatype Marker = Marker(digits: string, number: nat, end: nat)

  /** The marker pattern tried at position `i`. */
  function MarkerAt(s: string, i: nat): (r: Option<Marker>)
    ensures r.Some? ==> i < r.value.end <= |s| && r.value.digits != []
    ensures r.Some? ==> forall k :: 0 <= k < |r.value.digits| ==> IsDigit(r.value.digits[k])
    ensures r.Some? ==> r.value.number == DigitsValue(r.value.digits)
  {
    if i + 8 > |s| || Lower(s[i..i + 8]) != "approach" then None
    else
      var w := RunEnd(s, i + 8, IsSpace);
      var d := RunEnd(s, w, IsDigit);
      if w == i + 8 || d == w || d == |s| || s[d] != ':' then None
      else Some(Marker(s[w..d], DigitsValue(s[w..d]), RunEnd(s, d + 1, IsSpace)))
  }

  /** One marker of the split: the marker's own text, its number (as written and as `int`) and the text up to the next marker. */
  datatype Piece = Piece(marker: string, digits: string, number: nat, body: string)

  /** `re.split` with one group: the text before the first marker, then each marker with the text after it. */
  datatype Sections = Sections(lead: string, pieces: seq<Piece>)

  /** The split of `s[start..]`, scanning for the next marker from `i`. */
  function Scan(s: string, start: nat, i: nat): (r: Sections)
    requires start <= i <= |s|
    decreases |s| - i
  {
    if i == |s| then Sections(s[start..], [])
    else
      match MarkerAt(s, i)
      case Some(m) =>
        var rest := Scan(s, m.end, m.end);
        Sections(s[start..i], [Piece(s[i..m.end], m.digits, m.number, rest.lead)] + rest.pieces)
      case None => Scan(s, start, i + 1)
  }

  function SplitOnMarkers(s: string): Sections
  {
    Scan(s, 0, 0)
  }

  /** The pieces put back together: every marker followed by its body. */
  function Rebuild(pieces: seq<Piece>): string
  {
    if pieces == [] then "" else pieces[0].marker + pieces[0].body + Rebuild(pieces[1..])
  }

  /** The approach for one marker; a substantial overview is kept in front of approach 1. */
  function MarkerApproach(component: string, idea: string, overview: string, p: Piece): (r: ResearchResult)
  {
    var n := p.number;
    var body := Strip(p.body);
    var content := if n == 1 && overview != "" && |overview| > 100
                   then overview + "\n\nApproach " + p.digits + ":\n" + body else body;
    Approach(component + " Research Approach " + p.digits + ": " + idea, content, component, n)
  }

  /** `f` applied to each piece, in order. */
  function Each(f: Piece -> ResearchResult, pieces: seq<Piece>): (r: seq<ResearchResult>)
  {
    if pieces == [] then [] else Each(f, pieces[..|pieces| - 1]) + [f(pieces[|pieces| - 1])]
  }

  /** One approach per marker, in order. */
  function MarkerApproaches(component: string, idea: string, sections: Sections): (r: seq<ResearchResult>)
  {
    Each(MarkerApproachOf(component, idea, Strip(sections.lead)), sections.pieces)
  }

  function MarkerApproachOf(component: string, idea: string, overview: string): Piece -> ResearchResult
  {
    p => MarkerApproach(component, idea, overview, p)
  }

  // ---------------------------------------------------------------------
  // Alternative patterns
  // ---------------------------------------------------------------------

  /** The title and content groups of one alternative match (the number group, when there is one, is unused). */
  datatype AltMatch = AltMatch(title: string, content: string)

  /** `re.findall(pattern, content, re.DOTALL)` for the alternative pattern with the given index. */
  type AltMatcher = (string, nat) -> seq<AltMatch>

  const AltPatternCount: nat := 4

  function AltApproach(component: string, i: nat, m: AltMatch): ResearchResult
  {
    Approach(component + " Research Approach " + NatToString(i) + ": " + Strip(m.title), Strip(m.content), component, i)
  }

  /** The first pattern from index `p` on with at least two matches. */
  function Winner(content: string, alt: AltMatcher, p: nat): (w: Option<nat>)
    decreases AltPatternCount - p
  {
    if p >= AltPatternCount then None
    else if |alt(content, p)| >= 2 then Some(p)
    else Winner(content, alt, p + 1)
  }

  /** The winning pattern's matches give one approach each, numbered from 1; no winner gives none. */
  function AltApproaches(content: string, component: string, alt: AltMatcher): (r: seq<ResearchResult>)
  {
    match Winner(content, alt, 0)
    case None => []
    case Some(q) => Numbered(component, alt(content, q))
  }

  /** One approach per match, numbered from 1. */
  function Numbered(component: string, ms: seq<AltMatch>): (r: seq<ResearchResult>)
    ensures |r| == |ms|
  {
    if ms == [] then [] else Numbered(component, ms[..|ms| - 1]) + [AltApproach(component, |ms|, ms[|ms| - 1])]
  }

  // ---------------------------------------------------------------------
  // Paragraph groups
  // ---------------------------------------------------------------------

  /** `[p.strip() for p in parts if p.strip()]`. */
  function NonBlank(parts: seq<string>): (r: seq<string>)
    ensures |r| <= |parts|
    ensures forall j :: 0 <= j < |r| ==> r[j] != "" && r[j] == Strip(r[j])
  {
    if parts == [] then []
    else
      var rest := NonBlank(parts[1..]);
      var p := Strip(parts[0]);
      if p == "" then rest else StripIdempotent(parts[0]); [p] + rest
  }

  lemma StripIdempotent(s: string)
    ensures Strip(Strip(s)) == Strip(s)
  {
    var t := Strip(s);
    if t != [] {
      assert !IsSpace(t[0]) && !IsSpace(t[|t| - 1]);
      assert LStrip(t) == t;
      assert RStrip(t) == t;
    }
  }

  function Paragraphs(content: string): seq<string>
  {
    NonBlank(Split(content, "\n\n"))
  }

  /** `paragraphs[i : i + size]` for `i` in `range(0, len(paragraphs), size)`. */
  function Chunks(ps: seq<string>, size: nat): (r: seq<seq<string>>)
    requires size >= 1
    decreases |ps|
  {
    if ps == [] then []
    else if |ps| <= size then [ps]
    else [ps[..size]] + Chunks(ps[size..], size)
  }

  function ChunkSize(n: nat): (r: nat)
    ensures r >= 1
  {
    if n / 3 > 1 then n / 3 else 1
  }

  function ChunkApproach(component: string, idea: string, chunk: seq<string>, number: nat): ResearchResult
  {
    Approach(component + " Research Approach " + NatToString(number) + ": " + idea, Join("\n\n", chunk), component, number)
  }

  function ChunkApproaches(component: string, idea: string, chunks: seq<seq<string>>): (r: seq<ResearchResult>)
  {
    if chunks == [] then []
    else ChunkApproaches(component, idea, chunks[..|chunks| - 1])
         + [ChunkApproach(component, idea, chunks[|chunks| - 1], |chunks|)]
  }

  /** The fallback: long replies of at least three paragraphs are cut into groups of `max(1, n // 3)` paragraphs. */
  function ParagraphApproaches(content: string, component: string, idea: string): seq<ResearchResult>
  {
    var ps := Paragraphs(content);
    if |ps| >= 3 then ChunkApproaches(component, idea, Chunks(ps, ChunkSize(|ps|))) else []
  }

  /** `_parse_multiple_approaches(content, component, idea)`. */
  function ParsedApproaches(content: string, component: string, idea: string, alt: AltMatcher): seq<ResearchResult>
  {
    var sections := SplitOnMarkers(content);
    var structured := if sections.pieces != [] then MarkerApproaches(component, idea, sections)
                      else AltApproaches(content, component, alt);
    if structured == [] && |content| > 500 then ParagraphApproaches(content, component, idea) else structured
  }

  // ---------------------------------------------------------------------
  // The parser
  // ---------------------------------------------------------------------

  /** The loop over the alternative patterns, leaving it at the first with two or more matches. */
  method MatchAlternatives(content: string, component: string, alt: AltMatcher) returns (approaches: seq<ResearchResult>)
    ensures approaches == AltApproaches(content, component, alt)
  {
    approaches := [];
    var p := 0;
    while p < AltPatternCount
      invariant 0 <= p <= AltPatternCount
      invariant Winner(content, alt, 0) == Winner(content, alt, p)
      invariant approaches == []
    {
      var matches := alt(content, p);
      if |matches| >= 2 {
        approaches := NumberMatches(component, matches);
        return;
      }
      p := p + 1;
    }
  }

  /** Match `i` becomes approach `i + 1`. */
  lemma {:induction false} NumberedAt(component: string, ms: seq<AltMatch>, i: nat)
    requires i < |ms|
    ensures Numbered(component, ms)[i] == AltApproach(component, i + 1, ms[i])
    decreases |ms|
  {
    if i < |ms| - 1 {
      NumberedAt(component, ms[..|ms| - 1], i);
    }
  }

  /** The loop over the winning pattern's matches. */
  method NumberMatches(component: string, matches: seq<AltMatch>) returns (approaches: seq<ResearchResult>)
    ensures approaches == Numbered(component, matches)
  {
    approaches := [];
    for i := 0 to |matches|
      invariant approaches == Numbered(component, matches[..i])
    {
      assert matches[..i + 1][..i] == matches[..i];
      approaches := approaches + [AltApproach(component, i + 1, matches[i])];
    }
    assert matches[..|matches|] == matches;
  }

  /** `ps[i:]`, which is empty once `i` is past the end. */
  function Tail(ps: seq<string>, i: nat): seq<string>
  {
    if i <= |ps| then ps[i..] else []
  }

  /** The paragraph loop: one approach per group, numbered by the group's position. */
  method GroupParagraphs(paragraphs: seq<string>, component: string, idea: string) returns (approaches: seq<ResearchResult>)
    requires |paragraphs| >= 3
    ensures approaches == ChunkApproaches(component, idea, Chunks(paragraphs, ChunkSize(|paragraphs|)))
  {
    var size := ChunkSize(|paragraphs|);
    ghost var done: seq<seq<string>> := [];
    approaches := [];
    var i := 0;
    while i < |paragraphs|
      invariant i == Offset(|done|, size)
      invariant Chunks(paragraphs, size) == done + Chunks(Tail(paragraphs, i), size)
      invariant approaches == ChunkApproaches(component, idea, done)
      decreases |paragraphs| - i
    {
      var end := if i + size < |paragraphs| then i + size else |paragraphs|;
      var chunk := paragraphs[i..end];
      GroupStep(paragraphs, size, done, i, chunk);
      OffsetDiv(|done|, size);
      var number := i / size + 1;
      ChunkApproachesAppend(component, idea, done, chunk);
      approaches := approaches + [ChunkApproach(component, idea, chunk, number)];
      done := done + [chunk];
      i := i + size;
    }
    assert Tail(paragraphs, i) == [];
    assert Chunks(paragraphs, size) == done + [];
    assert done + [] == done;
    assert Chunks(paragraphs, size) == done;
  }

  /** One round of the paragraph loop: the group at `i`, its number, and the loop's bookkeeping after it. */
  lemma GroupStep(ps: seq<string>, size: nat, done: seq<seq<string>>, i: nat, chunk: seq<string>)
    requires size >= 1 && i < |ps|
    requires Chunks(ps, size) == done + Chunks(Tail(ps, i), size)
    requires chunk == ps[i..if i + size < |ps| then i + size else |ps|]
    ensures Chunks(ps, size) == (done + [chunk]) + Chunks(Tail(ps, i + size), size)
  {
    ChunkNext(ps, size, i);
    var later := Chunks(Tail(ps, i + size), size);
    assert Chunks(Tail(ps, i), size) == [chunk] + later;
    assert done + ([chunk] + later) == (done + [chunk]) + later;
  }

  /** `k * size`, spelled out so that the loop's arithmetic stays linear. */
  function Offset(k: nat, size: nat): nat
  {
    if k == 0 then 0 else Offset(k - 1, size) + size
  }

  lemma {:induction false} OffsetDiv(k: nat, size: nat)
    requires size >= 1
    ensures Offset(k, size) / size == k
  {
    OffsetProduct(k, size);
    DivideBack(k, size);
  }

  lemma {:induction false} OffsetProduct(k: nat, size: nat)
    ensures Offset(k, size) == k * size
  {
    if k > 0 {
      OffsetProduct(k - 1, size);
      assert k * size == (k - 1) * size + size;
    }
  }

  lemma ChunkApproachesAppend(component: string, idea: string, done: seq<seq<string>>, chunk: seq<string>)
    ensures ChunkApproaches(component, idea, done + [chunk])
         == ChunkApproaches(component, idea, done) + [ChunkApproach(component, idea, chunk, |done| + 1)]
  {
    assert (done + [chunk])[..|done|] == done;
  }

  /** The group taken at paragraph `i`, and the groups after it. */
  lemma ChunkNext(ps: seq<string>, size: nat, i: nat)
    requires size >= 1 && i < |ps|
    ensures var end := if i + size < |ps| then i + size else |ps|;
      Chunks(Tail(ps, i), size) == [ps[i..end]] + Chunks(Tail(ps, i + size), size)
  {
    var rest := ps[i..];
    assert Tail(ps, i) == rest;
    if |rest| > size {
      assert rest[..size] == ps[i..i + size];
      assert rest[size..] == ps[i + size..];
    } else {
      assert Chunks(rest, size) == [rest];
      assert Tail(ps, i + size) == [];
      assert ps[i..|ps|] == rest;
    }
  }

  /** `(k * size) // size == k`. */
  lemma DivideBack(k: nat, size: nat)
    requires size >= 1
    ensures (k * size) / size == k
  {
    var q := (k * size) / size;
    var r := (k * size) % size;
    assert k * size == size * q + r && 0 <= r < size;
    if k - q >= 1 {
      assert false;
    } else if k - q <= -1 {
      assert false;
    }
  }

  /** The marker loop: one approach per marker, in order. */
  method ApproachesFromMarkers(component: string, idea: string, sections: Sections) returns (approaches: seq<ResearchResult>)
    ensures approaches == MarkerApproaches(component, idea, sections)
  {
    approaches := [];
    var overview := Strip(sections.lead);
    var pieces := sections.pieces;
    var approachOf := MarkerApproachOf(component, idea, overview);
    for j := 0 to |pieces|
      invariant approaches == Each(approachOf, pieces[..j])
    {
      EachStep(approachOf, pieces, j);
      approaches := approaches + [approachOf(pieces[j])];
    }
    assert pieces[..|pieces|] == pieces;
  }

  /** `_parse_multiple_approaches(content, component, idea)` as the loops compute it. */
  method ParseMultipleApproaches(content: string, component: string, idea: string, alt: AltMatcher)
    returns (approaches: seq<ResearchResult>)
    ensures approaches == ParsedApproaches(content, component, idea, alt)
  {
    var sections := SplitOnMarkers(content);
    if sections.pieces != [] {
      approaches := ApproachesFromMarkers(component, idea, sections);
    } else {
      approaches := MatchAlternatives(content, component, alt);
    }
    if approaches == [] && |content| > 500 {
      var paragraphs := Paragraphs(content);
      if |paragraphs| >= 3 {
        approaches := GroupParagraphs(paragraphs, component, idea);
      }
    }
  }

  // ---------------------------------------------------------------------
  // Properties
  // ---------------------------------------------------------------------

  /** Splitting on the markers loses nothing: the text before the first marker, then each marker and its body, is the reply. */
  lemma {:induction false} ScanRebuilds(s: string, start: nat, i: nat)
    requires start <= i <= |s|
    ensures var r := Scan(s, start, i); r.lead + Rebuild(r.pieces) == s[start..]
    decreases |s| - i
  {
    if i < |s| {
      match MarkerAt(s, i)
      case Some(m) =>
        ScanRebuilds(s, m.end, m.end);
        var rest := Scan(s, m.end, m.end);
        assert Rebuild([Piece(s[i..m.end], m.digits, m.number, rest.lead)] + rest.pieces)
            == s[i..m.end] + rest.lead + Rebuild(rest.pieces);
        assert s[start..] == s[start..i] + s[i..m.end] + s[m.end..];
      case None =>
        ScanRebuilds(s, start, i + 1);
    } else {
      assert Rebuild([]) == "";
    }
  }

  lemma SplitRebuilds(s: string)
    ensures SplitOnMarkers(s).lead + Rebuild(SplitOnMarkers(s).pieces) == s
  {
    ScanRebuilds(s, 0, 0);
  }

  /**
   * With markers present there is one approach per marker, in order,
   * numbered by the marker's number; only an approach numbered 1 gets the
   * overview in front, and only when the stripped overview exceeds 100
   * characters.
   */
  lemma MarkerApproachesSpec(component: string, idea: string, sections: Sections)
    ensures var r := MarkerApproaches(component, idea, sections);
      && |r| == |sections.pieces|
      && forall j :: 0 <= j < |r| ==>
           var p := sections.pieces[j];
           var overview := Strip(sections.lead);
           && r[j].approachNumber == p.number
           && r[j].component == Some(component)
           && (r[j].approachNumber == 1 && |overview| > 100 ==>
                 r[j].content == overview + "\n\nApproach " + p.digits + ":\n" + Strip(p.body))
           && (r[j].approachNumber != 1 || |overview| <= 100 ==> r[j].content == Strip(p.body))
  {
    var overview := Strip(sections.lead);
    EachAt(MarkerApproachOf(component, idea, overview), sections.pieces);
  }

  lemma EachStep(f: Piece -> ResearchResult, pieces: seq<Piece>, j: nat)
    requires j < |pieces|
    ensures Each(f, pieces[..j + 1]) == Each(f, pieces[..j]) + [f(pieces[j])]
  {
    assert pieces[..j + 1][..j] == pieces[..j];
  }

  lemma {:induction false} EachAt(f: Piece -> ResearchResult, pieces: seq<Piece>)
    ensures |Each(f, pieces)| == |pieces|
    ensures forall j :: 0 <= j < |pieces| ==> Each(f, pieces)[j] == f(pieces[j])
  {
    if pieces != [] {
      EachAt(f, pieces[..|pieces| - 1]);
    }
  }

  lemma {:induction false} ChunkApproachesAt(component: string, idea: string, chunks: seq<seq<string>>)
    ensures var r := ChunkApproaches(component, idea, chunks);
      |r| == |chunks| && forall k :: 0 <= k < |r| ==> r[k] == ChunkApproach(component, idea, chunks[k], k + 1)
  {
    if chunks != [] {
      var front := chunks[..|chunks| - 1];
      ChunkApproachesAt(component, idea, front);
    }
  }

  /**
   * The winner is the first pattern from `p` on with at least two matches;
   * there is none exactly when no pattern from `p` on matches twice.
   */
  lemma {:induction false} WinnerSpec(content: string, alt: AltMatcher, p: nat)
    requires p <= AltPatternCount
    ensures var w := Winner(content, alt, p);
      && (w.None? <==> forall q :: p <= q < AltPatternCount ==> |alt(content, q)| < 2)
      && (w.Some? ==> p <= w.value < AltPatternCount && |alt(content, w.value)| >= 2
                      && forall q :: p <= q < w.value ==> |alt(content, q)| < 2)
    decreases AltPatternCount - p
  {
    if p < AltPatternCount && |alt(content, p)| < 2 {
      WinnerSpec(content, alt, p + 1);
    }
  }

  /** No alternative approaches exactly when no pattern matches twice. */
  lemma AltApproachesEmpty(content: string, component: string, alt: AltMatcher)
    ensures AltApproaches(content, component, alt) == [] <==> forall q :: 0 <= q < AltPatternCount ==> |alt(content, q)| < 2
  {
    WinnerSpec(content, alt, 0);
  }

  /**
   * The first pattern with at least two matches wins: its matches become
   * the approaches, in order, numbered 1, 2, ... .
   */
  lemma AltApproachesFirst(content: string, component: string, alt: AltMatcher, q: nat)
    requires q < AltPatternCount && |alt(content, q)| >= 2
    requires forall q' :: 0 <= q' < q ==> |alt(content, q')| < 2
    ensures AltApproaches(content, component, alt) == Numbered(component, alt(content, q))
  {
    FirstWinner(content, alt, q);
  }

  lemma FirstWinner(content: string, alt: AltMatcher, q: nat)
    requires q < AltPatternCount && |alt(content, q)| >= 2
    requires forall q' :: 0 <= q' < q ==> |alt(content, q')| < 2
    ensures Winner(content, alt, 0) == Some(q)
  {
    WinnerSpec(content, alt, 0);
    var w := Winner(content, alt, 0).value;
    assert !(w < q) && !(q < w);
  }

  /** One approach per match, in order, numbered 1, 2, ... . */
  lemma NumberedSpec(component: string, ms: seq<AltMatch>)
    ensures |Numbered(component, ms)| == |ms|
    ensures forall i :: 0 <= i < |ms| ==> Numbered(component, ms)[i] == AltApproach(component, i + 1, ms[i])
  {
    forall i | 0 <= i < |ms|
      ensures Numbered(component, ms)[i] == AltApproach(component, i + 1, ms[i])
    {
      NumberedAt(component, ms, i);
    }
  }

  /** Every parsed approach carries the component it was parsed for. */
  lemma ParsedComponent(content: string, component: string, idea: string, alt: AltMatcher)
    ensures forall k :: 0 <= k < |ParsedApproaches(content, component, idea, alt)| ==>
      ParsedApproaches(content, component, idea, alt)[k].component == Some(component)
  {
    var sections := SplitOnMarkers(content);
    if sections.pieces != [] {
      MarkerComponent(component, idea, sections);
    } else {
      AltComponent(content, component, alt);
    }
    ParagraphComponent(content, component, idea);
  }

  lemma MarkerComponent(component: string, idea: string, sections: Sections)
    ensures forall k :: 0 <= k < |MarkerApproaches(component, idea, sections)| ==>
      MarkerApproaches(component, idea, sections)[k].component == Some(component)
  {
    EachAt(MarkerApproachOf(component, idea, Strip(sections.lead)), sections.pieces);
  }

  lemma ParagraphComponent(content: string, component: string, idea: string)
    ensures forall k :: 0 <= k < |ParagraphApproaches(content, component, idea)| ==>
      ParagraphApproaches(content, component, idea)[k].component == Some(component)
  {
    var ps := Paragraphs(content);
    if |ps| >= 3 {
      ChunkApproachesAt(component, idea, Chunks(ps, ChunkSize(|ps|)));
    }
  }

  lemma AltComponent(content: string, component: string, alt: AltMatcher)
    ensures forall k :: 0 <= k < |AltApproaches(content, component, alt)| ==>
      AltApproaches(content, component, alt)[k].component == Some(component)
  {
    if Winner(content, alt, 0).Some? {
      var ms := alt(content, Winner(content, alt, 0).value);
      forall k | 0 <= k < |Numbered(component, ms)|
        ensures Numbered(component, ms)[k].component == Some(component)
      {
        NumberedAt(component, ms, k);
      }
    }
  }

  /** The groups of paragraphs, taken in order, are exactly the paragraphs. */
  lemma {:induction false} ChunksFlatten(ps: seq<string>, size: nat)
    requires size >= 1
    ensures Flatten(Chunks(ps, size)) == ps
    decreases |ps|
  {
    if ps != [] && |ps| > size {
      ChunksFlatten(ps[size..], size);
      FlattenCons(ps[..size], Chunks(ps[size..], size));
      assert ps[..size] + ps[size..] == ps;
    } else if ps != [] {
      FlattenCons(ps, []);
      assert ps + [] == ps;
    }
  }

  function Flatten(xss: seq<seq<string>>): seq<string>
  {
    if xss == [] then [] else Flatten(xss[..|xss| - 1]) + xss[|xss| - 1]
  }

  lemma {:induction false} FlattenCons(x: seq<string>, xss: seq<seq<string>>)
    ensures Flatten([x] + xss) == x + Flatten(xss)
    decreases |xss|
  {
    if xss != [] {
      var ys := [x] + xss;
      assert ys[..|ys| - 1] == [x] + xss[..|xss| - 1];
      FlattenCons(x, xss[..|xss| - 1]);
    } else {
      assert ([x] + xss)[..0] == [];
    }
  }

  /**
   * The paragraph fallback numbers its approaches 1..k consecutively, each
   * holding a non-empty group of at most `max(1, n // 3)` paragraphs, and
   * the groups together are the paragraphs in order.
   */
  lemma ParagraphGroupsSpec(ps: seq<string>, component: string, idea: string)
    ensures var chunks := Chunks(ps, ChunkSize(|ps|));
      var r := ChunkApproaches(component, idea, chunks);
      && |r| == |chunks|
      && Flatten(chunks) == ps
      && (forall k :: 0 <= k < |r| ==> r[k].approachNumber == k + 1 && r[k].content == Join("\n\n", chunks[k]))
      && (forall k :: 0 <= k < |chunks| ==> 1 <= |chunks[k]| <= ChunkSize(|ps|))
  {
    ChunksFlatten(ps, ChunkSize(|ps|));
    ChunkSizes(ps, ChunkSize(|ps|));
    ChunkApproachesAt(component, idea, Chunks(ps, ChunkSize(|ps|)));
  }

  /** Every group is non-empty and holds at most `size` paragraphs. */
  lemma {:induction false} ChunkSizes(ps: seq<string>, size: nat)
    requires size >= 1
    ensures forall k :: 0 <= k < |Chunks(ps, size)| ==> 1 <= |Chunks(ps, size)[k]| <= size
    decreases |ps|
  {
    if |ps| > size {
      ChunkSizes(ps[size..], size);
      var r := Chunks(ps, size);
      assert r == [ps[..size]] + Chunks(ps[size..], size);
      forall k | 0 <= k < |r| ensures 1 <= |r[k]| <= size {
        if k > 0 {
          assert r[k] == Chunks(ps[size..], size)[k - 1];
        }
      }
    }
  }

  /**
   * The paragraph fallback runs only when neither the markers nor an
   * alternative pattern found structure and the reply exceeds 500
   * characters; with markers present the approaches are the markers'.
   */
  lemma ParsedStrategies(content: string, component: string, idea: string, alt: AltMatcher)
    ensures var sections := SplitOnMarkers(content);
      var r := ParsedApproaches(content, component, idea, alt);
      && (sections.pieces != [] ==> r == MarkerApproaches(component, idea, sections))
      && (sections.pieces == [] && AltApproaches(content, component, alt) != [] ==>
            r == AltApproaches(content, component, alt))
      && (sections.pieces == [] && AltApproaches(content, component, alt) == [] ==>
            r == (if |content| > 500 then ParagraphApproaches(content, component, idea) else []))
  {
  }
}
