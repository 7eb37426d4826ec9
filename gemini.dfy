/** The Gemini layer over the retrieval system (`src/rag_system/gemini_integration.py`): the
    prompt it builds from the retrieved context, the fallback answer used when no model client
    is configured, and the post-processing of the model's text into an answer, a reasoning
    chain, source citations and a combined confidence. The model call itself is an oracle. */
module Gemini {
  import opened Wrappers
  import PySeq
  import PyStr
  import PyDict
  import Rag

  datatype ResponseMode = Direct | Reasoning | Synthesis | Analysis | Creative

  /** The `GeminiModel` names. */
  const GeminiPro := "gemini-pro"
  const GeminiProVision := "gemini-pro-vision"
  const GeminiUltra := "gemini-ultra"

  /** A model answer: its text, the model that produced it and its confidence. */
  datatype GeminiResponse = GeminiResponse(content: string, model: string, confidence: real)

  /** One entry of `source_citations`; `relevance` is the score the source renders with three
      decimals. */
  datatype Citation = Citation(sourceId: string, title: string, docType: string, relevance: real, snippet: string)

  datatype EnhancedResult = EnhancedResult(
    query: string,
    ragContext: Rag.RagContext,
    geminiResponse: GeminiResponse,
    enhancedAnswer: string,
    confidenceScore: real,
    reasoningChain: seq<string>,
    sourceCitations: seq<Citation>)

  /** The values `template.format` fills into the template of `mode`. */
  datatype Prompt = Prompt(mode: ResponseMode, query: string, context: string, numSources: nat, confidence: real)

  // ---------------------------------------------------------------------------------------
  // The prompt
  // ---------------------------------------------------------------------------------------

  /** The part of a retrieved document quoted in the prompt: its first 1000 characters. */
  function Excerpt(r: Rag.SearchResult): (e: string)
    ensures |e| <= 1000 && |e| <= |r.document.content| && e == r.document.content[..|e|]
    ensures |r.document.content| <= 1000 ==> e == r.document.content
  {
    PySeq.Prefix(r.document.content, 1000)
  }

  function SourceEntry(i: nat, r: Rag.SearchResult): string
  {
    "Source " + PyStr.NatToString(i + 1) + " (" + r.document.docType.Value() + "): " + Excerpt(r)
  }

  function SourceEntries(rs: seq<Rag.SearchResult>): (es: seq<string>)
    ensures |es| == |rs| && forall i :: 0 <= i < |rs| ==> es[i] == SourceEntry(i, rs[i])
  {
    seq(|rs|, i requires 0 <= i < |rs| => SourceEntry(i, rs[i]))
  }

  /** `_build_enhanced_prompt`: the first `max_sources` retrieved documents, numbered from 1,
      each quoted up to 1000 characters and separated by blank lines. */
  function BuildPrompt(query: string, ctx: Rag.RagContext, mode: ResponseMode, maxSources: int): (p: Prompt)
    ensures p.mode == mode && p.query == query && p.confidence == ctx.confidenceScore
    ensures p.numSources <= |ctx.retrievedDocuments|
    ensures 0 <= maxSources ==> p.numSources == PySeq.Min(maxSources, |ctx.retrievedDocuments|)
    ensures maxSources < 0 ==> p.numSources == PySeq.Max(|ctx.retrievedDocuments| + maxSources, 0)
  {
    var limited := PySeq.Prefix(ctx.retrievedDocuments, maxSources);
    Prompt(mode, query, PyStr.Join(SourceEntries(limited), "\n\n"), |limited|, ctx.confidenceScore)
  }

  /** Every source the prompt counts is quoted in its context text, under its number. */
  lemma BuildPromptQuotes(query: string, ctx: Rag.RagContext, mode: ResponseMode, maxSources: int, i: nat)
    requires i < BuildPrompt(query, ctx, mode, maxSources).numSources
    ensures PyStr.Contains(BuildPrompt(query, ctx, mode, maxSources).context,
                           SourceEntry(i, ctx.retrievedDocuments[i]))
  {
    var limited := PySeq.Prefix(ctx.retrievedDocuments, maxSources);
    PyStr.JoinContains(SourceEntries(limited), "\n\n", i);
  }

  // ---------------------------------------------------------------------------------------
  // The fallback answer
  // ---------------------------------------------------------------------------------------

  const FallbackNote := "Note: This is a basic response. Enhanced Gemini reasoning is not available."

  function SourceLine(i: nat, r: Rag.SearchResult): string
  {
    "Source " + PyStr.NatToString(i + 1) + ": " + r.contextSnippet + "\n\n"
  }

  /** The source lines for `rs`, numbered from 1. */
  function SourceLines(rs: seq<Rag.SearchResult>): string
  {
    if rs == [] then "" else SourceLines(rs[..|rs| - 1]) + SourceLine(|rs| - 1, rs[|rs| - 1])
  }

  lemma SourceLinesSnoc(rs: seq<Rag.SearchResult>, r: Rag.SearchResult)
    ensures SourceLines(rs + [r]) == SourceLines(rs) + SourceLine(|rs|, r)
  {
    assert (rs + [r])[..|rs|] == rs;
  }

  /** The opening of the fallback text: a preamble and the query. */
  function FallbackHead(query: string): string
  {
    "Based on the available information:\n\n" + "Query: " + query + "\n\n"
  }

  /** The text of `_generate_fallback_response`. */
  function FallbackContent(query: string, ctx: Option<Rag.RagContext>): string
  {
    if ctx.Some? && ctx.value.retrievedDocuments != [] then
      FallbackHead(query) + SourceLines(PySeq.Prefix(ctx.value.retrievedDocuments, 3)) + FallbackNote
    else
      "I don't have enough information to answer: " + query
  }

  /** The response used when no model client is configured, or when a call fails. */
  function FallbackResponse(query: string, ctx: Option<Rag.RagContext>): GeminiResponse
  {
    GeminiResponse(FallbackContent(query, ctx), "fallback", 0.3)
  }

  /** With retrieved documents the text opens with the query, lists each of the first three
      snippets under its number and closes with the note; without, it says so. */
  lemma FallbackMentions(query: string, ctx: Option<Rag.RagContext>)
    ensures ctx.Some? && ctx.value.retrievedDocuments != [] ==>
              && PyStr.StartsWith(FallbackContent(query, ctx), FallbackHead(query))
              && PyStr.EndsWith(FallbackContent(query, ctx), FallbackNote)
              && forall i :: 0 <= i < PySeq.Min(3, |ctx.value.retrievedDocuments|) ==>
                   PyStr.Contains(FallbackContent(query, ctx), SourceLine(i, ctx.value.retrievedDocuments[i]))
    ensures !(ctx.Some? && ctx.value.retrievedDocuments != []) ==>
              FallbackContent(query, ctx) == "I don't have enough information to answer: " + query
  {
    if ctx.Some? && ctx.value.retrievedDocuments != [] {
      var rs := PySeq.Prefix(ctx.value.retrievedDocuments, 3);
      var head := FallbackHead(query);
      var body := SourceLines(rs) + FallbackNote;
      assert FallbackContent(query, ctx) == head + body;
      PyStr.StartsWithConcat(head, body);
      assert (head + SourceLines(rs)) + FallbackNote == head + body;
      PyStr.EndsWithConcat(head + SourceLines(rs), FallbackNote);
      forall i | 0 <= i < PySeq.Min(3, |ctx.value.retrievedDocuments|)
        ensures PyStr.Contains(FallbackContent(query, ctx), SourceLine(i, ctx.value.retrievedDocuments[i]))
      {
        assert rs[i] == ctx.value.retrievedDocuments[i];
        SourceLinesMention(rs, i);
        PyStr.ContainsInPrefix(SourceLines(rs), FallbackNote, SourceLine(i, rs[i]));
        PyStr.ContainsSuffix(head, body, SourceLine(i, rs[i]));
      }
    }
  }

  lemma {:induction false} SourceLinesMention(rs: seq<Rag.SearchResult>, i: nat)
    requires i < |rs|
    ensures PyStr.Contains(SourceLines(rs), SourceLine(i, rs[i]))
  {
    var init := rs[..|rs| - 1];
    if i == |rs| - 1 {
      PyStr.ContainsSuffix(SourceLines(init), SourceLine(i, rs[i]) + "", SourceLine(i, rs[i]));
      PyStr.ContainsPrefix(SourceLine(i, rs[i]), "");
      assert SourceLine(i, rs[i]) + "" == SourceLine(i, rs[i]);
    } else {
      SourceLinesMention(init, i);
      assert init[i] == rs[i];
      PyStr.ContainsInPrefix(SourceLines(init), SourceLine(|rs| - 1, rs[|rs| - 1]), SourceLine(i, rs[i]));
    }
  }

  /** The loop of `_generate_fallback_response`: one line per result, numbered from 1. */
  method AppendSourceLines(content: string, rs: seq<Rag.SearchResult>) returns (content': string)
    ensures content' == content + SourceLines(rs)
  {
    content' := content;
    var i := 0;
    while i < |rs|
      invariant 0 <= i <= |rs|
      invariant content' == content + SourceLines(rs[..i])
    {
      SourceLinesSnoc(rs[..i], rs[i]);
      assert rs[..i + 1] == rs[..i] + [rs[i]];
      content' := content' + SourceLine(i, rs[i]);
      i := i + 1;
    }
    assert rs[..|rs|] == rs;
  }

  /** `_generate_fallback_response`: the first three snippets are added one line at a time. */
  method GenerateFallbackResponse(query: string, ctx: Option<Rag.RagContext>) returns (r: GeminiResponse)
    ensures r == FallbackResponse(query, ctx)
    ensures r.model == "fallback" && r.confidence == 0.3
  {
    var content: string;
    if ctx.Some? && ctx.value.retrievedDocuments != [] {
      content := "Based on the available information:\n\n";
      content := content + "Query: " + query + "\n\n";
      assert content == FallbackHead(query);
      content := AppendSourceLines(content, PySeq.Prefix(ctx.value.retrievedDocuments, 3));
      content := content + FallbackNote;
    } else {
      content := "I don't have enough information to answer: " + query;
    }
    r := GeminiResponse(content, "fallback", 0.3);
  }

  // ---------------------------------------------------------------------------------------
  // The answer
  // ---------------------------------------------------------------------------------------

  /** A line that, lower-cased, contains `answer:`, `response:` or `conclusion:`. */
  predicate IsAnswerMarker(line: string)
  {
    var l := PyStr.Lower(line);
    PyStr.Contains(l, "answer:") || PyStr.Contains(l, "response:") || PyStr.Contains(l, "conclusion:")
  }

  /** The first marker line, if any. */
  function FirstMarker(lines: seq<string>): (r: Option<nat>)
    ensures r.Some? ==> r.value < |lines| && IsAnswerMarker(lines[r.value])
    ensures r.Some? ==> forall j :: 0 <= j < r.value ==> !IsAnswerMarker(lines[j])
    ensures r.None? ==> forall j :: 0 <= j < |lines| ==> !IsAnswerMarker(lines[j])
  {
    if lines == [] then None
    else if IsAnswerMarker(lines[0]) then Some(0)
    else match FirstMarker(lines[1..])
      case None => None
      case Some(i) => Some(i + 1)
  }

  /** The text `_extract_answer_from_response` strips: the lines after the first marker line,
      or the whole response when there is none. */
  function AnswerText(content: string): string
  {
    var lines := PyStr.SplitOn(content, '\n');
    match FirstMarker(lines)
    case None => content
    case Some(i) => PyStr.Join(lines[i + 1..], "\n")
  }

  function Answer(content: string): string
  {
    PyStr.Strip(AnswerText(content))
  }

  /** The answer is taken from the end of the response: the text stripped is a suffix of it. */
  lemma AnswerTextIsSuffix(content: string)
    ensures |AnswerText(content)| <= |content|
    ensures AnswerText(content) == content[|content| - |AnswerText(content)|..]
  {
    var lines := PyStr.SplitOn(content, '\n');
    PyStr.JoinSplitOn(content, '\n');
    match FirstMarker(lines)
    case None =>
    case Some(i) =>
      if i + 1 < |lines| {
        assert lines == lines[..i + 1] + lines[i + 1..];
        PyStr.JoinAppend(lines[..i + 1], lines[i + 1..], "\n");
      }
  }

  /** `_extract_answer_from_response`: scan the lines for the first marker, then strip what
      follows it. */
  method ExtractAnswer(content: string) returns (answer: string)
    ensures answer == Answer(content)
  {
    var lines := PyStr.SplitOn(content, '\n');
    var answerStart := -1;
    var i := 0;
    while i < |lines|
      invariant 0 <= i <= |lines|
      invariant forall j :: 0 <= j < i ==> !IsAnswerMarker(lines[j])
    {
      if IsAnswerMarker(lines[i]) {
        answerStart := i + 1;
        break;
      }
      i := i + 1;
    }
    if answerStart > -1 {
      assert FirstMarker(lines) == Some(i);
      assert AnswerText(content) == PyStr.Join(lines[answerStart..], "\n");
      answer := PyStr.Strip(PyStr.Join(lines[answerStart..], "\n"));
    } else {
      assert FirstMarker(lines) == None;
      assert AnswerText(content) == content;
      answer := PyStr.Strip(content);
    }
  }

  // ---------------------------------------------------------------------------------------
  // The reasoning chain
  // ---------------------------------------------------------------------------------------

  /** The step markers as the source spells them: the last is the three characters that the
      UTF-8 bytes of a bullet `\u2022` become when read as Windows-1252 text. */
  const BulletsAsWritten: seq<string> := ["1.", "2.", "3.", "-", "*", "\U{00E2}\U{20AC}\U{00A2}"]

  /** The step markers as intended, with the bullet itself. */
  const Bullets: seq<string> := ["1.", "2.", "3.", "-", "*", "\U{2022}"]

  /** `any(line.startswith(m) for m in markers)`. */
  predicate StartsWithAny(line: string, markers: seq<string>)
  {
    markers != [] && (PyStr.StartsWith(line, markers[0]) || StartsWithAny(line, markers[1..]))
  }

  /** A stripped line that counts as a reasoning step. */
  predicate IsStep(line: string)
  {
    StartsWithAny(line, Bullets) || PyStr.StartsWith(line, "Step ") || PyStr.StartsWith(line, "Reasoning:")
  }

  predicate IsStepAsWritten(line: string)
  {
    StartsWithAny(line, BulletsAsWritten) || PyStr.StartsWith(line, "Step ") || PyStr.StartsWith(line, "Reasoning:")
  }

  lemma {:induction false} StartsWithAnyIff(line: string, markers: seq<string>)
    ensures StartsWithAny(line, markers) <==> exists k :: 0 <= k < |markers| && PyStr.StartsWith(line, markers[k])
  {
    if markers != [] {
      StartsWithAnyIff(line, markers[1..]);
      assert forall k :: 0 < k < |markers| ==> markers[1..][k - 1] == markers[k];
    }
  }

  /** As written, a bulleted line of the model's answer is not taken as a step. */
  lemma BulletLineMissedAsWritten()
    ensures !IsStepAsWritten("\U{2022} Check the index")
    ensures IsStep("\U{2022} Check the index")
  {
    var line := "\U{2022} Check the index";
    StartsWithAnyIff(line, BulletsAsWritten);
    forall k | 0 <= k < |BulletsAsWritten|
      ensures !PyStr.StartsWith(line, BulletsAsWritten[k])
    {
      assert BulletsAsWritten[k][0] != line[0];
    }
    assert !PyStr.StartsWith(line, "Step ") by {
      assert line[0] != "Step "[0];
    }
    assert !PyStr.StartsWith(line, "Reasoning:") by {
      assert line[0] != "Reasoning:"[0];
    }
    BulletLineIsStep(line);
  }

  /** With the intended markers, every line opening with a bullet is a step. */
  lemma BulletLineIsStep(line: string)
    requires PyStr.StartsWith(line, "\U{2022}")
    ensures IsStep(line)
  {
    StartsWithAnyIff(line, Bullets);
    assert PyStr.StartsWith(line, Bullets[5]);
  }

  predicate IsStepLine(line: string)
  {
    IsStep(PyStr.Strip(line))
  }

  function StripLine(j: nat, line: string): string
  {
    PyStr.Strip(line)
  }

  /** All step lines of the response, stripped, in order: at most one per line. */
  function Steps(content: string): (r: seq<string>)
    ensures |r| <= |PyStr.SplitOn(content, '\n')|
  {
    PySeq.FilterMap(PyStr.SplitOn(content, '\n'), IsStepLine, StripLine)
  }

  predicate IsStepLineAsWritten(line: string)
  {
    IsStepAsWritten(PyStr.Strip(line))
  }

  /** The step lines as the source selects them, with the mis-encoded bullet marker. */
  function StepsAsWritten(content: string): (r: seq<string>)
    ensures |r| <= |PyStr.SplitOn(content, '\n')|
  {
    PySeq.FilterMap(PyStr.SplitOn(content, '\n'), IsStepLineAsWritten, StripLine)
  }

  /** On a one-line bulleted answer the intended markers find the step and the markers as
      written find none. */
  lemma StepsDifferOnBullet()
    ensures Steps("\U{2022} a") == ["\U{2022} a"]
    ensures StepsAsWritten("\U{2022} a") == []
  {
    var line := "\U{2022} a";
    StripBullet(line);
    BulletLineIsStep(line);
    BulletNotStepAsWritten(line);
    assert '\n' !in line by {
      assert forall i :: 0 <= i < |line| ==> line[i] != '\n';
    }
    OneLine(line);
  }

  lemma StripBullet(line: string)
    requires line == "\U{2022} a"
    ensures PyStr.Strip(line) == line
  {
    assert PyStr.LStrip(line) == line;
    assert PyStr.RStrip(line) == line;
  }

  /** A line with no line break is the whole answer's only line. */
  lemma OneLine(line: string)
    requires '\n' !in line
    ensures Steps(line) == if IsStepLine(line) then [PyStr.Strip(line)] else []
    ensures StepsAsWritten(line) == if IsStepLineAsWritten(line) then [PyStr.Strip(line)] else []
  {
    PyStr.SplitOnNone(line, '\n');
    PySeq.FilterMapSnoc([], line, IsStepLine, StripLine);
    PySeq.FilterMapSnoc([], line, IsStepLineAsWritten, StripLine);
    assert [] + [line] == [line];
  }

  lemma BulletNotStepAsWritten(line: string)
    requires line == "\U{2022} a"
    ensures !IsStepAsWritten(line)
  {
    StartsWithAnyIff(line, BulletsAsWritten);
    forall k | 0 <= k < |BulletsAsWritten|
      ensures !PyStr.StartsWith(line, BulletsAsWritten[k])
    {
      assert BulletsAsWritten[k][0] != line[0];
    }
    assert line[0] != "Step "[0];
    assert line[0] != "Reasoning:"[0];
  }

  /** `_extract_reasoning_chain`: the first ten step lines. */
  function ReasoningChain(content: string): (r: seq<string>)
    ensures |r| <= 10 && |r| <= |Steps(content)|
    ensures r == Steps(content)[..|r|]
    ensures |Steps(content)| <= 10 ==> r == Steps(content)
  {
    PySeq.Prefix(Steps(content), 10)
  }

  /** Every step is a stripped line of the response marked as a step, in response order, and
      every such line is among the steps. */
  lemma StepsExact(content: string)
    ensures |Steps(content)| == |PySeq.Positions(PyStr.SplitOn(content, '\n'), IsStepLine)|
    ensures forall i :: 0 <= i < |Steps(content)| ==>
              && PySeq.Positions(PyStr.SplitOn(content, '\n'), IsStepLine)[i] < |PyStr.SplitOn(content, '\n')|
              && Steps(content)[i]
                 == PyStr.Strip(PyStr.SplitOn(content, '\n')[PySeq.Positions(PyStr.SplitOn(content, '\n'), IsStepLine)[i]])
              && IsStep(Steps(content)[i])
    ensures forall a, b :: 0 <= a < b < |Steps(content)| ==>
              PySeq.Positions(PyStr.SplitOn(content, '\n'), IsStepLine)[a]
              < PySeq.Positions(PyStr.SplitOn(content, '\n'), IsStepLine)[b]
    ensures forall j :: 0 <= j < |PyStr.SplitOn(content, '\n')| && IsStepLine(PyStr.SplitOn(content, '\n')[j]) ==>
              j in PySeq.Positions(PyStr.SplitOn(content, '\n'), IsStepLine)
  {
    PySeq.PositionsExact(PyStr.SplitOn(content, '\n'), IsStepLine);
    PySeq.FilterMapExact(PyStr.SplitOn(content, '\n'), IsStepLine, StripLine);
  }

  lemma StepsSnoc(lines: seq<string>, i: nat)
    requires i < |lines|
    ensures PySeq.FilterMap(lines[..i + 1], IsStepLine, StripLine)
            == PySeq.FilterMap(lines[..i], IsStepLine, StripLine)
               + (if IsStep(PyStr.Strip(lines[i])) then [PyStr.Strip(lines[i])] else [])
  {
    PySeq.FilterMapSnoc(lines[..i], lines[i], IsStepLine, StripLine);
    assert lines[..i + 1] == lines[..i] + [lines[i]];
  }

  /** The loop of `_extract_reasoning_chain`, then the cut to ten. */
  method ExtractReasoningChain(content: string) returns (chain: seq<string>)
    ensures chain == ReasoningChain(content)
  {
    var steps := StepLines(PyStr.SplitOn(content, '\n'));
    chain := PySeq.Prefix(steps, 10);
  }

  /** The stripped step lines, in order. */
  method StepLines(lines: seq<string>) returns (steps: seq<string>)
    ensures steps == PySeq.FilterMap(lines, IsStepLine, StripLine)
  {
    steps := [];
    var i := 0;
    while i < |lines|
      invariant 0 <= i <= |lines|
      invariant steps == PySeq.FilterMap(lines[..i], IsStepLine, StripLine)
    {
      StepsSnoc(lines, i);
      var line := PyStr.Strip(lines[i]);
      if IsStep(line) {
        steps := steps + [line];
      }
      i := i + 1;
    }
    assert lines[..|lines|] == lines;
  }

  // ---------------------------------------------------------------------------------------
  // Citations
  // ---------------------------------------------------------------------------------------

  /** A result is cited when it has no highlighted terms, or one of them occurs in the
      lower-cased answer. */
  predicate Referenced(r: Rag.SearchResult, answer: string)
  {
    r.highlightedTerms == [] || AnyOccurs(r.highlightedTerms, PyStr.Lower(answer))
  }

  /** `any(t in text for t in terms)`. */
  predicate AnyOccurs(terms: seq<string>, text: string)
  {
    terms != [] && (PyStr.Contains(text, terms[0]) || AnyOccurs(terms[1..], text))
  }

  function ReferencedIn(answer: string): Rag.SearchResult -> bool
  {
    r => Referenced(r, answer)
  }

  /** `doc.source or f"Document {doc.id[:8]}"`. */
  function CitationTitle(d: Rag.Document): string
  {
    if d.source.None? || d.source.value == "" then "Document " + PySeq.Prefix(d.id, 8) else d.source.value
  }

  function CitationFor(i: nat, r: Rag.SearchResult): Citation
  {
    Citation("source_" + PyStr.NatToString(i + 1), CitationTitle(r.document), r.document.docType.Value(),
             r.similarityScore, r.contextSnippet)
  }

  /** The citations of `answer`: never more than the results retrieved. */
  function Citations(ctx: Rag.RagContext, answer: string): (r: seq<Citation>)
    ensures |r| <= |ctx.retrievedDocuments|
  {
    PySeq.FilterMap(ctx.retrievedDocuments, ReferencedIn(answer), CitationFor)
  }

  /** One citation per referenced result and no other, in retrieval order, each numbered by
      the result's position. */
  lemma CitationsExact(ctx: Rag.RagContext, answer: string)
    ensures |Citations(ctx, answer)| == |PySeq.Positions(ctx.retrievedDocuments, ReferencedIn(answer))|
    ensures |Citations(ctx, answer)| <= |ctx.retrievedDocuments|
    ensures forall i :: 0 <= i < |Citations(ctx, answer)| ==>
              && PySeq.Positions(ctx.retrievedDocuments, ReferencedIn(answer))[i] < |ctx.retrievedDocuments|
              && Referenced(ctx.retrievedDocuments[PySeq.Positions(ctx.retrievedDocuments, ReferencedIn(answer))[i]], answer)
              && Citations(ctx, answer)[i]
                 == CitationFor(PySeq.Positions(ctx.retrievedDocuments, ReferencedIn(answer))[i],
                                ctx.retrievedDocuments[PySeq.Positions(ctx.retrievedDocuments, ReferencedIn(answer))[i]])
    ensures forall a, b :: 0 <= a < b < |Citations(ctx, answer)| ==>
              PySeq.Positions(ctx.retrievedDocuments, ReferencedIn(answer))[a]
              < PySeq.Positions(ctx.retrievedDocuments, ReferencedIn(answer))[b]
    ensures forall j :: 0 <= j < |ctx.retrievedDocuments| && Referenced(ctx.retrievedDocuments[j], answer) ==>
              j in PySeq.Positions(ctx.retrievedDocuments, ReferencedIn(answer))
  {
    PySeq.PositionsExact(ctx.retrievedDocuments, ReferencedIn(answer));
    PySeq.FilterMapExact(ctx.retrievedDocuments, ReferencedIn(answer), CitationFor);
  }

  /** The loop of `_extract_source_citations`. */
  method ExtractSourceCitations(ctx: Rag.RagContext, answer: string) returns (citations: seq<Citation>)
    ensures citations == Citations(ctx, answer)
  {
    var rs := ctx.retrievedDocuments;
    citations := [];
    var i := 0;
    while i < |rs|
      invariant 0 <= i <= |rs|
      invariant citations == PySeq.FilterMap(rs[..i], ReferencedIn(answer), CitationFor)
    {
      PySeq.FilterMapSnoc(rs[..i], rs[i], ReferencedIn(answer), CitationFor);
      assert rs[..i + 1] == rs[..i] + [rs[i]];
      var isReferenced := Referenced(rs[i], answer);
      if isReferenced {
        citations := citations + [CitationFor(i, rs[i])];
      }
      i := i + 1;
    }
    assert rs[..|rs|] == rs;
  }

  // ---------------------------------------------------------------------------------------
  // Confidence
  // ---------------------------------------------------------------------------------------

  function ReasoningBonus(chainLength: nat): (b: real)
    ensures 0.0 <= b <= 0.2
  {
    Rag.RMin(chainLength as real * 0.05, 0.2)
  }

  /** `_calculate_enhanced_confidence`: 40% retrieval, 40% model, 20% reasoning bonus, capped
      at 1. */
  function EnhancedConfidence(ragConfidence: real, geminiConfidence: real, chainLength: nat): (c: real)
    ensures c <= 1.0
  {
    Rag.RMin(ragConfidence * 0.4 + geminiConfidence * 0.4 + ReasoningBonus(chainLength) * 0.2, 1.0)
  }

  /** With both inputs in [0, 1] the weighted sum is at most 0.84, so the cap never applies. */
  lemma EnhancedConfidenceBounds(ragConfidence: real, geminiConfidence: real, chainLength: nat)
    requires 0.0 <= ragConfidence <= 1.0 && 0.0 <= geminiConfidence <= 1.0
    ensures EnhancedConfidence(ragConfidence, geminiConfidence, chainLength)
            == ragConfidence * 0.4 + geminiConfidence * 0.4 + ReasoningBonus(chainLength) * 0.2
    ensures 0.0 <= EnhancedConfidence(ragConfidence, geminiConfidence, chainLength) <= 0.84
  {
  }

  /** A longer reasoning chain never lowers the confidence, and four steps already earn the
      whole bonus. */
  lemma EnhancedConfidenceChain(ragConfidence: real, geminiConfidence: real, n: nat, m: nat)
    requires n <= m
    ensures EnhancedConfidence(ragConfidence, geminiConfidence, n) <= EnhancedConfidence(ragConfidence, geminiConfidence, m)
    ensures 4 <= n ==> EnhancedConfidence(ragConfidence, geminiConfidence, n) == EnhancedConfidence(ragConfidence, geminiConfidence, m)
  {
  }

  // ---------------------------------------------------------------------------------------
  // Results
  // ---------------------------------------------------------------------------------------

  /** `_create_fallback_result`: an empty retrieval, an error response and zero confidence. */
  function FallbackResult(query: string, errorMsg: string): (r: EnhancedResult)
    ensures r.query == query && r.confidenceScore == 0.0
    ensures r.ragContext.retrievedDocuments == [] && r.ragContext.contextWindow == ""
    ensures r.ragContext.totalTokens == 0 && r.ragContext.confidenceScore == 0.0
    ensures r.reasoningChain == [] && r.sourceCitations == []
  {
    EnhancedResult(query, Rag.RagContext(query, [], "", 0, 0.0, "error"),
                   GeminiResponse("Error processing query: " + errorMsg, "error", 0.0),
                   "I encountered an error processing your query: " + errorMsg, 0.0, [], [])
  }

  /** The result `enhanced_query` assembles from a retrieved context and a model response. */
  function ResultFrom(query: string, ctx: Rag.RagContext, response: GeminiResponse): (r: EnhancedResult)
    ensures r.query == query && r.ragContext == ctx && r.geminiResponse == response
  {
    var answer := Answer(response.content);
    var chain := ReasoningChain(response.content);
    EnhancedResult(query, ctx, response, answer, EnhancedConfidence(ctx.confidenceScore, response.confidence, |chain|),
                   chain, Citations(ctx, answer))
  }

  /** The confidence of an assembled result lies in [0, 1] whenever the retrieval confidence
      and the model confidence do. */
  lemma ResultFromConfidence(query: string, ctx: Rag.RagContext, response: GeminiResponse)
    requires 0.0 <= ctx.confidenceScore <= 1.0 && 0.0 <= response.confidence <= 1.0
    ensures 0.0 <= ResultFrom(query, ctx, response).confidenceScore <= 0.84
    ensures |ResultFrom(query, ctx, response).reasoningChain| <= 10
    ensures |ResultFrom(query, ctx, response).sourceCitations| <= |ctx.retrievedDocuments|
  {
    EnhancedConfidenceBounds(ctx.confidenceScore, response.confidence, |ReasoningChain(response.content)|);
    CitationsExact(ctx, Answer(response.content));
  }

  /** Without a model client the response is the fallback text with confidence 0.3, so the
      combined confidence is `0.4 c + 0.12` plus at most 0.04 for reasoning steps, where `c` is
      the retrieval confidence. */
  lemma OfflineConfidence(query: string, ctx: Rag.RagContext)
    requires 0.0 <= ctx.confidenceScore <= 1.0
    ensures ResultFrom(query, ctx, FallbackResponse(query, Some(ctx))).geminiResponse.model == "fallback"
    ensures 0.4 * ctx.confidenceScore + 0.12 <= ResultFrom(query, ctx, FallbackResponse(query, Some(ctx))).confidenceScore
    ensures ResultFrom(query, ctx, FallbackResponse(query, Some(ctx))).confidenceScore <= 0.4 * ctx.confidenceScore + 0.16
  {
    var response := FallbackResponse(query, Some(ctx));
    EnhancedConfidenceBounds(ctx.confidenceScore, 0.3, |ReasoningChain(response.content)|);
  }

  // ---------------------------------------------------------------------------------------
  // The integration object
  // ---------------------------------------------------------------------------------------

  /** The settings of a `GeminiRAGIntegration` that shape its answers: whether a model client
      exists, the model name, the model's context window and the retrieval layer's default
      token budget. */
  datatype Setup = Setup(clientReady: bool, modelName: string, maxContextLength: int, defaultTokens: int)

  /** `_call_gemini_api`: the response text with confidence 0.8, or the query-less fallback
      when the call fails. */
  function CallApi(modelName: string, prompt: Prompt, api: Prompt -> Result<string, string>): (r: GeminiResponse)
    ensures api(prompt).Success? ==> r == GeminiResponse(api(prompt).value, modelName, 0.8)
    ensures api(prompt).Failure? ==> r == FallbackResponse("", None)
    ensures api(prompt).Failure? ==> r.content == "I don't have enough information to answer: " && r.confidence == 0.3
  {
    match api(prompt)
    case Success(text) => GeminiResponse(text, modelName, 0.8)
    case Failure(_) => FallbackResponse("", None)
  }

  /** The model response `_generate_enhanced_response` obtains for a retrieved context. */
  function ResponseFor(setup: Setup, query: string, ctx: Rag.RagContext, mode: ResponseMode, maxSources: int,
                       api: Prompt -> Result<string, string>): GeminiResponse
  {
    if setup.clientReady then CallApi(setup.modelName, BuildPrompt(query, ctx, mode, maxSources), api)
    else FallbackResponse(query, Some(ctx))
  }

  /** What `enhanced_query` returns over the stored documents `docs`: the error result when
      retrieval fails, otherwise the result assembled from the context `get_context` builds
      with half the model's context window as its budget. */
  function Enhanced(docs: PyDict.Table<string, Rag.Document>, setup: Setup, query: string, mode: ResponseMode,
                    docTypes: seq<Rag.DocumentType>, maxSources: int, similarity: Rag.Embedding -> real,
                    failure: Option<string>, api: Prompt -> Result<string, string>): (r: EnhancedResult)
    ensures r.query == query
    ensures failure.Some? ==> r == FallbackResult(query, failure.value)
  {
    if failure.Some? then FallbackResult(query, failure.value)
    else
      var ctx := Rag.ContextFor(query, Rag.RankedSearch(docs, query, 10, docTypes, [], 0.7, similarity),
                                Rag.Budget(Some(setup.maxContextLength / 2), setup.defaultTokens));
      ResultFrom(query, ctx, ResponseFor(setup, query, ctx, mode, maxSources, api))
  }

  /** `enhanced_query` as `batch_process_queries` calls it: default filters, five sources. */
  function EnhancedOf(docs: PyDict.Table<string, Rag.Document>, setup: Setup, mode: ResponseMode,
                      similarity: string -> Rag.Embedding -> real, failure: string -> Option<string>,
                      api: Prompt -> Result<string, string>): string -> EnhancedResult
  {
    q => Enhanced(docs, setup, q, mode, [], 5, similarity(q), failure(q), api)
  }

  /** One result per query, in query order; every query whose retrieval fails gets the error
      result with zero confidence and no documents. */
  lemma BatchExact(docs: PyDict.Table<string, Rag.Document>, setup: Setup, queries: seq<string>, mode: ResponseMode,
                   similarity: string -> Rag.Embedding -> real, failure: string -> Option<string>,
                   api: Prompt -> Result<string, string>)
    ensures |PySeq.Map(queries, EnhancedOf(docs, setup, mode, similarity, failure, api))| == |queries|
    ensures forall i :: 0 <= i < |queries| ==>
              PySeq.Map(queries, EnhancedOf(docs, setup, mode, similarity, failure, api))[i]
              == Enhanced(docs, setup, queries[i], mode, [], 5, similarity(queries[i]), failure(queries[i]), api)
    ensures forall i :: 0 <= i < |queries| ==>
              PySeq.Map(queries, EnhancedOf(docs, setup, mode, similarity, failure, api))[i].query == queries[i]
    ensures forall i :: 0 <= i < |queries| && failure(queries[i]).Some? ==>
              && PySeq.Map(queries, EnhancedOf(docs, setup, mode, similarity, failure, api))[i].confidenceScore == 0.0
              && PySeq.Map(queries, EnhancedOf(docs, setup, mode, similarity, failure, api))[i].ragContext.retrievedDocuments == []
  {
    PySeq.MapExact(queries, EnhancedOf(docs, setup, mode, similarity, failure, api));
  }

  /** `GeminiRAGIntegration`. The model call is the oracle `api`: it answers a prompt with the
      response text or fails with an error. A retrieval that raises is the oracle `failure`. */
  class GeminiRagIntegration {
    const ragSystem: Rag.RagSystem
    const modelName: string
    /** Whether a model client was created. */
    const clientReady: bool
    const maxContextLength: int
    const temperature: real
    const topP: real

    /** The client is created only when the library is present, a non-empty key is given and
        configuring it succeeds. */
    constructor(ragSystem: Rag.RagSystem, apiKey: Option<string>, model: string, libraryAvailable: bool,
                configured: bool)
      ensures this.ragSystem == ragSystem && modelName == model
      ensures clientReady == (libraryAvailable && apiKey.Some? && apiKey.value != "" && configured)
      ensures maxContextLength == 30000 && temperature == 0.7 && topP == 0.9
    {
      this.ragSystem := ragSystem;
      modelName := model;
      clientReady := libraryAvailable && apiKey.Some? && apiKey.value != "" && configured;
      maxContextLength := 30000;
      temperature := 0.7;
      topP := 0.9;
    }

    function Settings(): Setup
    {
      Setup(clientReady, modelName, maxContextLength, ragSystem.maxContextTokens)
    }

    /** `_generate_enhanced_response`: build the prompt, ask the model (or fall back), and
        extract the answer. */
    method GenerateEnhancedResponse(query: string, ctx: Rag.RagContext, mode: ResponseMode, maxSources: int,
                                    api: Prompt -> Result<string, string>)
      returns (answer: string, response: GeminiResponse)
      ensures response == ResponseFor(Settings(), query, ctx, mode, maxSources, api)
      ensures answer == Answer(response.content)
    {
      var prompt := BuildPrompt(query, ctx, mode, maxSources);
      if clientReady {
        response := CallApi(modelName, prompt, api);
      } else {
        response := GenerateFallbackResponse(query, Some(ctx));
      }
      answer := ExtractAnswer(response.content);
    }

    /** `enhanced_query`: retrieve, generate, then extract the chain and citations and combine
        the confidences. */
    method EnhancedQuery(query: string, mode: ResponseMode, docTypes: seq<Rag.DocumentType>, maxSources: int,
                         similarity: Rag.Embedding -> real, failure: Option<string>,
                         api: Prompt -> Result<string, string>) returns (result: EnhancedResult)
      ensures result == Enhanced(ragSystem.vectorDb.documents, Settings(), query, mode, docTypes, maxSources,
                                 similarity, failure, api)
    {
      if failure.Some? {
        return FallbackResult(query, failure.value);
      }
      var ctx := ragSystem.GetContext(query, Some(maxContextLength / 2), docTypes, similarity);
      var answer, response := GenerateEnhancedResponse(query, ctx, mode, maxSources, api);
      var chain := ExtractReasoningChain(response.content);
      var citations := ExtractSourceCitations(ctx, answer);
      var confidence := EnhancedConfidence(ctx.confidenceScore, response.confidence, |chain|);
      result := EnhancedResult(query, ctx, response, answer, confidence, chain, citations);
    }

    /** One query of the batch: `enhanced_query` with the default filters and five sources. */
    method BatchQuery(query: string, mode: ResponseMode, similarity: string -> Rag.Embedding -> real,
                      failure: string -> Option<string>, api: Prompt -> Result<string, string>)
      returns (result: EnhancedResult)
      ensures result == EnhancedOf(ragSystem.vectorDb.documents, Settings(), mode, similarity, failure, api)(query)
    {
      result := EnhancedQuery(query, mode, [], 5, similarity(query), failure(query), api);
    }

    /** The next query of the batch,
        appended to the results of the queries before it. */
    method BatchStep(queries: seq<string>, i: nat, results: seq<EnhancedResult>, mode: ResponseMode,
                     similarity: string -> Rag.Embedding -> real, failure: string -> Option<string>,
                     api: Prompt -> Result<string, string>)
      returns (results': seq<EnhancedResult>)
      requires i < |queries|
      requires results == PySeq.Map(queries[..i], EnhancedOf(ragSystem.vectorDb.documents, Settings(), mode,
                                                             similarity, failure, api))
      ensures results' == PySeq.Map(queries[..i + 1], EnhancedOf(ragSystem.vectorDb.documents, Settings(), mode,
                                                                 similarity, failure, api))
    {
      var result := BatchQuery(queries[i], mode, similarity, failure, api);
      PySeq.MapPrefixSnoc(queries, i, EnhancedOf(ragSystem.vectorDb.documents, Settings(), mode, similarity,
                                                 failure, api), result);
      results' := results + [result];
    }

    /** `batch_process_queries`: `enhanced_query` of each query in turn. */
    method BatchProcessQueries(queries: seq<string>, mode: ResponseMode, similarity: string -> Rag.Embedding -> real,
                               failure: string -> Option<string>, api: Prompt -> Result<string, string>)
      returns (results: seq<EnhancedResult>)
      ensures results == PySeq.Map(queries, EnhancedOf(ragSystem.vectorDb.documents, Settings(), mode, similarity,
                                                       failure, api))
    {
      results := [];
      var i := 0;
      while i < |queries|
        invariant 0 <= i <= |queries|
        invariant results == PySeq.Map(queries[..i], EnhancedOf(ragSystem.vectorDb.documents, Settings(), mode,
                                                                similarity, failure, api))
      {
        results := BatchStep(queries, i, results, mode, similarity, failure, api);
        i := i + 1;
      }
      assert queries[..|queries|] == queries;
    }
  }
}
