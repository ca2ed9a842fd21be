/**
 * The live report-simplification pipeline: `callAI` (one model call whose
 * text is stripped of code fences and parsed as JSON) and
 * `getSimplifiedReport` (parse, normalize, summarize, count guardrail,
 * assembly). The generative model and `JSON.parse` are capabilities passed
 * in; the prompts carry the data they embed, not their wording.
 */
module AiService {
  import opened Wrappers
  import opened JsRuntime

  /** The three prompts, in the order the pipeline issues them. */
  datatype Prompt =
    | ParsePrompt(rawText: string)          // embeds the raw report text
    | NormalizePrompt(testsRaw: Json)       // embeds JSON.stringify(testsRaw)
    | SummaryPrompt(normalizedTests: Json)  // embeds JSON.stringify(normalizedTests)

  /**
   * The external capabilities: `generate` is `model.generateContent` followed
   * by `response.text()` (`None` when either rejects); `parseJson` is
   * `JSON.parse` (`None` when it throws).
   */
  datatype Capabilities = Capabilities(generate: Prompt -> Option<string>, parseJson: string -> Option<Json>)

  const GenericAiMessage := "Failed to get a valid response from the AI model."
  const NoTestsMessage := "AI failed to parse any tests from the raw text."

  /** The errors `getSimplifiedReport` can throw. */
  datatype PipelineError =
    | ModelResponseError(message: string)       // callAI's catch: one fixed message
    | NoTestsParsed(message: string)            // tests_raw missing, falsy or of length 0
    | PropertyOfNull(cause: TypeError)          // a property read on a `null` model answer
    | GuardrailViolation(normalizedCount: real, rawCount: real)

  /** The report assembled on success; `None` summary or explanations are `undefined`. */
  datatype Report = Report(tests: Json, summary: Option<Json>, explanations: Option<Json>)

  /** What one pipeline invocation returns or throws, with the prompts it sent, in order. */
  datatype Run = Run(outcome: Result<Report, PipelineError>, prompts: seq<Prompt>)

  const JsonFence := "```json"
  const Fence := "```"

  // ---------------------------------------------------------------------
  // callAI
  // ---------------------------------------------------------------------

  /** The cleanup of the model's text: drop every "```json", then every "```", then trim. */
  function Clean(text: string): (r: string)
    ensures !Contains(r, Fence) && !Contains(r, JsonFence)
    ensures r == [] || (!IsJsWhitespace(r[0]) && !IsJsWhitespace(r[|r| - 1]))
  {
    var unfenced := RemoveAll(RemoveAll(text, JsonFence), Fence);
    NoFenceAfterRemoval(RemoveAll(text, JsonFence));
    TrimKeepsAbsence(unfenced, Fence);
    var r := Trim(unfenced);
    assert !Contains(r, JsonFence) by {
      if Contains(r, JsonFence) { JsonFenceContainsFence(r); }
    }
    r
  }

  /** Every "```json" starts with a "```". */
  lemma JsonFenceContainsFence(s: string)
    requires Contains(s, JsonFence)
    ensures Contains(s, Fence)
  {
    var i: nat :| i <= |s| && OccursAt(s, JsonFence, i);
    assert s[i..i + 3] == s[i..i + 7][..3];
    assert OccursAt(s, Fence, i);
  }

  /** A fence at index `i`, character by character. */
  lemma FenceAtChars(r: string, i: nat)
    requires OccursAt(r, Fence, i)
    ensures i + 3 <= |r| && r[i] == '`' && r[i + 1] == '`' && r[i + 2] == '`'
  {
    assert r[i..i + 3][0] == r[i] && r[i..i + 3][1] == r[i + 1] && r[i..i + 3][2] == r[i + 2];
  }

  /** A first character that is not a backtick survives the removal of fences. */
  lemma FirstCharKept(s: string)
    requires |s| > 0 && s[0] != '`'
    ensures |RemoveAll(s, Fence)| > 0 && RemoveAll(s, Fence)[0] == s[0]
  {
    if |s| >= 3 {
      assert s[..3][0] == s[0];
      assert s[..3] != Fence;
      assert RemoveAll(s, Fence) == [s[0]] + RemoveAll(s[1..], Fence);
    }
  }

  /** A lone backtick followed by another character survives together with that character. */
  lemma SecondCharKept(s: string)
    requires |s| >= 2 && s[0] == '`' && s[1] != '`'
    ensures |RemoveAll(s, Fence)| >= 2 && RemoveAll(s, Fence)[1] == s[1]
  {
    if |s| >= 3 {
      assert s[..3][1] == s[1];
      assert s[..3] != Fence;
      assert RemoveAll(s, Fence) == [s[0]] + RemoveAll(s[1..], Fence);
      assert s[1..][0] == s[1];
      FirstCharKept(s[1..]);
    }
  }

  /**
   * After every "```" has been removed left to right, no "```" is left,
   * even where removal brought backticks together.
   */
  lemma {:induction false} NoFenceAfterRemoval(s: string)
    ensures !Contains(RemoveAll(s, Fence), Fence)
    decreases |s|
  {
    var r := RemoveAll(s, Fence);
    if |s| < 3 {
      assert r == s;
      forall i: nat | i <= |r| && OccursAt(r, Fence, i) ensures false {
      }
    } else if s[..3] == Fence {
      NoFenceAfterRemoval(s[3..]);
    } else {
      var t := RemoveAll(s[1..], Fence);
      NoFenceAfterRemoval(s[1..]);
      assert r == [s[0]] + t;
      forall i: nat | i <= |r| && OccursAt(r, Fence, i) ensures false {
        if i > 0 {
          assert r[i..i + 3] == t[i - 1..i + 2];
          assert OccursAt(t, Fence, i - 1);
        } else {
          FenceAtChars(r, 0);
          assert s[0] == '`' && t[0] == '`' && t[1] == '`';
          if s[1] != '`' {
            FirstCharKept(s[1..]);
          } else {
            SecondCharKept(s[1..]);  // s[2] is not a backtick, as s does not start with a fence
          }
        }
      }
    }
  }

  /** Cleaning already clean text changes nothing. */
  lemma {:induction false} CleanIdempotent(text: string)
    ensures Clean(Clean(text)) == Clean(text)
  {
    var c := Clean(text);
    RemoveAllAbsent(c, JsonFence);
    RemoveAllAbsent(c, Fence);
    assert Clean(c) == Trim(c);
    assert c == Trim(RemoveAll(RemoveAll(text, JsonFence), Fence));
    TrimIdempotent(RemoveAll(RemoveAll(text, JsonFence), Fence));
  }

  /** A JSON body wrapped as a "```json" code block comes out as the trimmed body. */
  lemma {:induction false} CleanFencedJson(body: string)
    requires forall i :: 0 <= i < |body| ==> body[i] != '`'
    ensures Clean(JsonFence + body + Fence) == Trim(body)
  {
    var s := JsonFence + body + Fence;
    assert s[..|JsonFence|] == JsonFence;
    assert s[|JsonFence|..] == body + Fence;
    assert RemoveAll(s, JsonFence) == RemoveAll(body + Fence, JsonFence);
    RemoveAllKeepsPrefix(body, Fence, JsonFence);
    assert RemoveAll(Fence, JsonFence) == Fence;
    RemoveAllKeepsPrefix(body, Fence, Fence);
    assert RemoveAll(Fence, Fence) == [] by {
      assert Fence[..3] == Fence && Fence[3..] == [];
    }
    assert body + [] == body;
  }

  /**
   * `callAI`: one model call; its text is cleaned and parsed. Every failure of
   * the call or of the parse becomes the same generic error.
   */
  function CallAI(cap: Capabilities, prompt: Prompt): (r: Result<Json, PipelineError>)
    ensures r.Failure? ==> r.error == ModelResponseError(GenericAiMessage)
    ensures r.Success? <==>
      cap.generate(prompt).Some? && cap.parseJson(Clean(cap.generate(prompt).value)).Some?
    ensures r.Success? ==> Some(r.value) == cap.parseJson(Clean(cap.generate(prompt).value))
  {
    match cap.generate(prompt)
    case None => Failure(ModelResponseError(GenericAiMessage))
    case Some(text) =>
      match cap.parseJson(Clean(text))
      case None => Failure(ModelResponseError(GenericAiMessage))
      case Some(value) => Success(value)
  }

  // ---------------------------------------------------------------------
  // getSimplifiedReport
  // ---------------------------------------------------------------------

  /** `!testsRaw || testsRaw.length === 0`. */
  predicate NoTests(testsRaw: Option<Json>)
    ensures testsRaw.None? ==> NoTests(testsRaw)
    ensures testsRaw.Some? && testsRaw.value.JArray? ==> (NoTests(testsRaw) <==> testsRaw.value.elems == [])
    ensures testsRaw.Some? && testsRaw.value.JString? ==> (NoTests(testsRaw) <==> testsRaw.value.s == "")
  {
    !Truthy(testsRaw) || LengthOf(testsRaw.value) == Some(0.0)
  }

  /**
   * `normalizedTests.length > testsRaw.length + 2`, thrown as a violation.
   * Reading `.length` of a `null` normalization result is a TypeError; a
   * comparison with an undefined length is false, so it passes.
   */
  function Guardrail(normalizedTests: Json, testsRaw: Json): (r: Outcome<PipelineError>)
    ensures r.Fail? && r.error.GuardrailViolation? ==>
      && LengthOf(normalizedTests) == Some(r.error.normalizedCount)
      && LengthOf(testsRaw) == Some(r.error.rawCount)
      && r.error.normalizedCount > r.error.rawCount + 2.0
    ensures r.Fail? && !r.error.GuardrailViolation? ==> normalizedTests.JNull?
  {
    if normalizedTests.JNull? then Fail(PropertyOfNull(CannotReadPropertyOfNull("length")))
    else match (LengthOf(normalizedTests), LengthOf(testsRaw))
      case (Some(n), Some(c)) => if n > c + 2.0 then Fail(GuardrailViolation(n, c)) else Pass
      case _ => Pass
  }

  /** The first stage: the parse call, the read of `tests_raw` and the empty check. */
  function ParseStage(cap: Capabilities, rawText: string): (r: Result<Json, PipelineError>)
    ensures r.Success? ==> Truthy(Some(r.value)) && LengthOf(r.value) != Some(0.0)
  {
    match CallAI(cap, ParsePrompt(rawText))
    case Failure(e) => Failure(e)
    case Success(parsedResult) =>
      match ReadProperty(parsedResult, "tests_raw")
      case Failure(te) => Failure(PropertyOfNull(te))
      case Success(testsRaw) =>
        if NoTests(testsRaw) then Failure(NoTestsParsed(NoTestsMessage)) else Success(testsRaw.value)
  }

  /** The final assembly, whose property reads fail on a `null` summary answer. */
  function Assemble(normalizedTests: Json, summaryData: Json): (r: Result<Report, PipelineError>)
    ensures r.Failure? <==> summaryData.JNull?
    ensures r.Success? ==> r.value.tests == normalizedTests
  {
    match (ReadProperty(summaryData, "summary"), ReadProperty(summaryData, "explanations"))
    case (Failure(te), _) => Failure(PropertyOfNull(te))
    case (_, Failure(te)) => Failure(PropertyOfNull(te))
    case (Success(summary), Success(explanations)) => Success(Report(normalizedTests, summary, explanations))
  }

  /** `getSimplifiedReport(rawText)`. */
  function GetSimplifiedReport(cap: Capabilities, rawText: string): (r: Run)
    ensures 1 <= |r.prompts| <= 3 && r.prompts[0] == ParsePrompt(rawText)
    ensures r.outcome.Success? ==> |r.prompts| == 3
  {
    var p1 := ParsePrompt(rawText);
    match ParseStage(cap, rawText)
    case Failure(e) => Run(Failure(e), [p1])
    case Success(testsRaw) =>
      var p2 := NormalizePrompt(testsRaw);
      match CallAI(cap, p2)
      case Failure(e) => Run(Failure(e), [p1, p2])
      case Success(normalizedTests) =>
        var p3 := SummaryPrompt(normalizedTests);
        match CallAI(cap, p3)
        case Failure(e) => Run(Failure(e), [p1, p2, p3])
        case Success(summaryData) =>
          match Guardrail(normalizedTests, testsRaw)
          case Fail(e) => Run(Failure(e), [p1, p2, p3])
          case Pass => Run(Assemble(normalizedTests, summaryData), [p1, p2, p3])
  }

  // ---------------------------------------------------------------------
  // Properties of the pipeline
  // ---------------------------------------------------------------------

  /** The guardrail throws a violation iff both lengths are numbers and the bound is exceeded. */
  lemma GuardrailIff(normalizedTests: Json, testsRaw: Json)
    requires !normalizedTests.JNull?
    ensures Guardrail(normalizedTests, testsRaw).Fail? <==>
      LengthOf(normalizedTests).Some? && LengthOf(testsRaw).Some?
      && LengthOf(normalizedTests).value > LengthOf(testsRaw).value + 2.0
    ensures Guardrail(normalizedTests, testsRaw).Fail? ==>
      Guardrail(normalizedTests, testsRaw).error
        == GuardrailViolation(LengthOf(normalizedTests).value, LengthOf(testsRaw).value)
  {
  }

  /** On arrays the guardrail is the count rule and nothing else: names and contents play no part. */
  lemma GuardrailOnArrays(normalized: seq<Json>, raw: seq<Json>)
    ensures Guardrail(JArray(normalized), JArray(raw)).Fail? <==> |normalized| > |raw| + 2
  {
  }

  /** Two pairs of arrays with the same lengths get the same guardrail verdict. */
  lemma GuardrailDependsOnlyOnLengths(n1: seq<Json>, r1: seq<Json>, n2: seq<Json>, r2: seq<Json>)
    requires |n1| == |n2| && |r1| == |r2|
    ensures Guardrail(JArray(n1), JArray(r1)) == Guardrail(JArray(n2), JArray(r2))
  {
  }

  /** The parse call comes first and, when the parse stage fails, it is the only call. */
  lemma ParseFailureStopsPipeline(cap: Capabilities, rawText: string)
    requires ParseStage(cap, rawText).Failure?
    ensures GetSimplifiedReport(cap, rawText).outcome == Failure(ParseStage(cap, rawText).error)
    ensures GetSimplifiedReport(cap, rawText).prompts == [ParsePrompt(rawText)]
  {
  }

  /**
   * Whatever non-null value the parse call answers with, a missing, `null`,
   * `""` or `[]` `tests_raw` throws the no-tests error before normalization
   * or summary.
   */
  lemma EmptyTestsAbort(cap: Capabilities, rawText: string, parsedResult: Json)
    requires CallAI(cap, ParsePrompt(rawText)) == Success(parsedResult) && !parsedResult.JNull?
    requires var testsRaw := ReadProperty(parsedResult, "tests_raw").value;
      testsRaw.None? || testsRaw == Some(JArray([])) || testsRaw == Some(JString("")) || testsRaw == Some(JNull)
    ensures GetSimplifiedReport(cap, rawText).outcome == Failure(NoTestsParsed(NoTestsMessage))
    ensures GetSimplifiedReport(cap, rawText).prompts == [ParsePrompt(rawText)]
  {
    assert NoTests(ReadProperty(parsedResult, "tests_raw").value);
    assert ParseStage(cap, rawText) == Failure(NoTestsParsed(NoTestsMessage));
    ParseFailureStopsPipeline(cap, rawText);
  }

  /**
   * A non-null answer that is not an object, such as a bare array, a string,
   * a number or a boolean, has no `tests_raw`, so the pipeline stops there.
   */
  lemma NonObjectAnswerAborts(cap: Capabilities, rawText: string)
    requires CallAI(cap, ParsePrompt(rawText)).Success?
    requires var v := CallAI(cap, ParsePrompt(rawText)).value; !v.JNull? && !v.JObject?
    ensures GetSimplifiedReport(cap, rawText).outcome == Failure(NoTestsParsed(NoTestsMessage))
    ensures GetSimplifiedReport(cap, rawText).prompts == [ParsePrompt(rawText)]
  {
    EmptyTestsAbort(cap, rawText, CallAI(cap, ParsePrompt(rawText)).value);
  }

  /**
   * For any non-null parse answer, the parse stage fails with the no-tests
   * error exactly when `tests_raw` is falsy or of length 0, and otherwise
   * passes `tests_raw` on unchanged.
   */
  lemma NoTestsIff(cap: Capabilities, rawText: string, parsedResult: Json)
    requires CallAI(cap, ParsePrompt(rawText)) == Success(parsedResult) && !parsedResult.JNull?
    ensures ParseStage(cap, rawText) == Failure(NoTestsParsed(NoTestsMessage)) <==>
      NoTests(ReadProperty(parsedResult, "tests_raw").value)
    ensures ParseStage(cap, rawText).Success? ==>
      ReadProperty(parsedResult, "tests_raw") == Success(Some(ParseStage(cap, rawText).value))
  {
  }

  /**
   * The prompts go out in the fixed order parse, normalize on `tests_raw`,
   * summarize on the normalization result; a report needs all three.
   */
  lemma StageOrder(cap: Capabilities, rawText: string)
    ensures var run := GetSimplifiedReport(cap, rawText);
      && 1 <= |run.prompts| <= 3
      && run.prompts[0] == ParsePrompt(rawText)
      && (|run.prompts| >= 2 ==>
            ParseStage(cap, rawText).Success?
            && run.prompts[1] == NormalizePrompt(ParseStage(cap, rawText).value))
      && (|run.prompts| == 3 ==>
            CallAI(cap, run.prompts[1]).Success?
            && run.prompts[2] == SummaryPrompt(CallAI(cap, run.prompts[1]).value))
      && (run.outcome.Success? ==> |run.prompts| == 3)
  {
    var run := GetSimplifiedReport(cap, rawText);
    var p1 := ParsePrompt(rawText);
    match ParseStage(cap, rawText)
    case Failure(_) =>
      assert run.prompts == [p1];
    case Success(testsRaw) =>
      var p2 := NormalizePrompt(testsRaw);
      match CallAI(cap, p2)
      case Failure(_) =>
        assert run.prompts == [p1, p2];
      case Success(normalizedTests) =>
        assert run.prompts == [p1, p2, SummaryPrompt(normalizedTests)];
  }

  /** A guardrail violation is thrown only after all three calls succeeded, and no report is returned. */
  lemma GuardrailAfterAllCalls(cap: Capabilities, rawText: string)
    ensures var run := GetSimplifiedReport(cap, rawText);
      run.outcome.Failure? && run.outcome.error.GuardrailViolation? ==>
        && |run.prompts| == 3
        && ParseStage(cap, rawText).Success?
        && var normalized := CallAI(cap, NormalizePrompt(ParseStage(cap, rawText).value));
           normalized.Success? && CallAI(cap, SummaryPrompt(normalized.value)).Success?
  {
  }

  /**
   * Once the three calls have answered, with both answers arrays and a
   * non-null summary answer, the pipeline throws a violation iff the count
   * rule is broken, and otherwise returns a report of the normalized tests.
   */
  lemma GuardrailDecidesOutcome(cap: Capabilities, rawText: string, raw: seq<Json>, normalized: seq<Json>, summaryData: Json)
    requires ParseStage(cap, rawText) == Success(JArray(raw))
    requires CallAI(cap, NormalizePrompt(JArray(raw))) == Success(JArray(normalized))
    requires CallAI(cap, SummaryPrompt(JArray(normalized))) == Success(summaryData)
    requires !summaryData.JNull?
    ensures var outcome := GetSimplifiedReport(cap, rawText).outcome;
      if |normalized| > |raw| + 2 then
        outcome.Failure? && outcome.error == GuardrailViolation(|normalized| as real, |raw| as real)
      else
        outcome.Success? && outcome.value.tests == JArray(normalized)
  {
    GuardrailOnArrays(normalized, raw);
    if |normalized| > |raw| + 2 {
      assert Guardrail(JArray(normalized), JArray(raw)).error == GuardrailViolation(|normalized| as real, |raw| as real);
    }
  }

  /**
   * On success the report is the normalization result and the summary
   * answer's `summary` and `explanations`, copied unchanged.
   */
  lemma SuccessIsAssembly(cap: Capabilities, rawText: string, testsRaw: Json, normalizedTests: Json, summaryData: Json)
    requires ParseStage(cap, rawText) == Success(testsRaw)
    requires CallAI(cap, NormalizePrompt(testsRaw)) == Success(normalizedTests)
    requires CallAI(cap, SummaryPrompt(normalizedTests)) == Success(summaryData)
    requires GetSimplifiedReport(cap, rawText).outcome.Success?
    ensures var report := GetSimplifiedReport(cap, rawText).outcome.value;
      && report.tests == normalizedTests
      && ReadProperty(summaryData, "summary") == Success(report.summary)
      && ReadProperty(summaryData, "explanations") == Success(report.explanations)
  {
  }

  /** A report is only returned after all three calls answered. */
  lemma ReportNeedsAllCalls(cap: Capabilities, rawText: string)
    requires GetSimplifiedReport(cap, rawText).outcome.Success?
    ensures ParseStage(cap, rawText).Success?
    ensures var normalized := CallAI(cap, NormalizePrompt(ParseStage(cap, rawText).value));
      normalized.Success? && CallAI(cap, SummaryPrompt(normalized.value)).Success?
  {
  }
}
