/**
 * The `simplifyReport` request handler: it picks the raw text (OCR on an
 * uploaded file, else a non-empty `text` field), runs the pipeline on it and
 * maps the result or any throw to exactly one HTTP response.
 */
module ReportController {
  import opened Wrappers
  import opened AiService
  import opened OcrService

  /** The uploaded file as kept in memory by the upload middleware. */
  datatype UploadedFile = UploadedFile(buffer: seq<byte>)

  /** The parts of the request the handler reads: `req.file` and the fields of `req.body`. */
  datatype Request = Request(file: Option<UploadedFile>, body: Option<map<string, string>>)

  /** The JSON body of a response: `status` with either `report` or `message`. */
  datatype ResponseBody = ResponseBody(status: string, report: Option<Report>, message: Option<string>)

  datatype Response = Response(statusCode: int, body: ResponseBody)

  /** The two services the handler calls, in the order it calls them. */
  datatype ServiceCall = OcrServiceCall(image: seq<byte>) | AiServiceCall(rawText: string)

  /** Where the raw text comes from. */
  datatype Input = FromImage(image: seq<byte>) | FromText(text: string) | NoInput

  const MissingInputMessage :=
    "No file uploaded or text provided. Please use the \"reportImage\" key for files or a \"text\" key in the JSON body."
  const InternalErrorMessage := "Internal Server Error"

  /** `req.body && req.body.text`: the `text` field when it is present and non-empty. */
  function BodyText(body: Option<map<string, string>>): (r: Option<string>)
    ensures r.Some? ==> r.value != "" && body.Some? && "text" in body.value && r.value == body.value["text"]
    ensures r.None? ==> body.None? || "text" !in body.value || body.value["text"] == ""
  {
    if body.Some? && "text" in body.value && body.value["text"] != "" then Some(body.value["text"]) else None
  }

  /** The input decision: a file first, then a non-empty `text`, else nothing. */
  function SelectInput(req: Request): (r: Input)
    ensures r.FromImage? ==> req.file == Some(UploadedFile(r.image))
    ensures r.FromText? ==> req.file.None? && BodyText(req.body) == Some(r.text)
    ensures r.NoInput? ==> req.file.None? && BodyText(req.body).None?
  {
    if req.file.Some? then FromImage(req.file.value.buffer)
    else if BodyText(req.body).Some? then FromText(BodyText(req.body).value)
    else NoInput
  }

  /** The 400 answer to a request with no usable input. */
  function MissingInputResponse(): Response
  {
    Response(400, ResponseBody("error", None, Some(MissingInputMessage)))
  }

  /** The 500 answer to any error thrown by OCR or by the pipeline. */
  function InternalErrorResponse(): Response
  {
    Response(500, ResponseBody("error", None, Some(InternalErrorMessage)))
  }

  /** The answer to a pipeline result: its report with 200, or the generic 500. */
  function PipelineResponse<E>(outcome: Result<Report, E>): (r: Response)
    ensures r.statusCode == (if outcome.Success? then 200 else 500)
    ensures r.body.report == (if outcome.Success? then Some(outcome.value) else None)
    ensures outcome.Failure? ==> r.body.message == Some(InternalErrorMessage)
  {
    match outcome
    case Success(report) => Response(200, ResponseBody("success", Some(report), None))
    case Failure(_) => InternalErrorResponse()
  }

  /** `simplifyReport(req, res)`: the response it sends and the services it called. */
  method SimplifyReport(req: Request, engine: OcrEngine, cap: Capabilities)
    returns (res: Response, called: seq<ServiceCall>)
    ensures res.statusCode in {200, 400, 500}
    ensures res.body.status == if res.statusCode == 200 then "success" else "error"
    ensures SelectInput(req) == NoInput ==> res == MissingInputResponse() && called == []
    ensures SelectInput(req).FromText? ==>
      var text := SelectInput(req).text;
      called == [AiServiceCall(text)] && res == PipelineResponse(GetSimplifiedReport(cap, text).outcome)
    ensures SelectInput(req).FromImage? ==>
      var image := SelectInput(req).image;
      match OcrOutcome(engine, image)
      case Failure(_) => called == [OcrServiceCall(image)] && res == InternalErrorResponse()
      case Success(text) =>
        called == [OcrServiceCall(image), AiServiceCall(text)]
        && res == PipelineResponse(GetSimplifiedReport(cap, text).outcome)
  {
    called := [];
    var rawText: string;
    if req.file.Some? {
      var ocr := new OcrSession();
      called := called + [OcrServiceCall(req.file.value.buffer)];
      var recognized := ocr.PerformOcr(engine, req.file.value.buffer);
      if recognized.Failure? {
        return InternalErrorResponse(), called;
      }
      rawText := recognized.value;
    } else if req.body.Some? && "text" in req.body.value && req.body.value["text"] != "" {
      rawText := req.body.value["text"];
    } else {
      return MissingInputResponse(), called;
    }
    called := called + [AiServiceCall(rawText)];
    var run := GetSimplifiedReport(cap, rawText);
    if run.outcome.Failure? {
      return InternalErrorResponse(), called;
    }
    res := Response(200, ResponseBody("success", Some(run.outcome.value), None));
  }

  // ---------------------------------------------------------------------
  // Properties of the input decision and the response mapping
  // ---------------------------------------------------------------------

  /** With a file present, the file is used and the body plays no part. */
  lemma FileTakesPrecedence(req: Request, otherBody: Option<map<string, string>>)
    requires req.file.Some?
    ensures SelectInput(req) == FromImage(req.file.value.buffer)
    ensures SelectInput(req.(body := otherBody)) == SelectInput(req)
  {
  }

  /** Without a file, a non-empty `text` is used exactly as given, whatever other fields the body has. */
  lemma TextUsedVerbatim(req: Request)
    requires req.file.None? && req.body.Some? && "text" in req.body.value && req.body.value["text"] != ""
    ensures SelectInput(req) == FromText(req.body.value["text"])
  {
  }

  /** Without a file, an empty, absent or body-less `text` is no input at all. */
  lemma EmptyTextIsMissing(req: Request)
    requires req.file.None?
    requires req.body.None? || "text" !in req.body.value || req.body.value["text"] == ""
    ensures SelectInput(req) == NoInput
  {
  }

  /** The input decision is total: each request has exactly one source or none. */
  lemma InputCases(req: Request)
    ensures SelectInput(req).FromImage? <==> req.file.Some?
    ensures SelectInput(req).FromText? <==> req.file.None? && BodyText(req.body).Some?
    ensures SelectInput(req).FromText? ==> SelectInput(req).text != ""
  {
  }

  /** A report is answered with 200, "success" and the report exactly as the pipeline returned it. */
  lemma SuccessResponse(report: Report)
    ensures PipelineResponse<PipelineError>(Success(report)) ==
      Response(200, ResponseBody("success", Some(report), None))
  {
  }

  /** Every error gets the same 500 answer, so no detail of it reaches the client. */
  lemma ErrorsAreNotLeaked<E>(e1: E, e2: E)
    ensures PipelineResponse<E>(Failure(e1)) == PipelineResponse<E>(Failure(e2))
    ensures PipelineResponse<E>(Failure(e1)).statusCode == 500
    ensures PipelineResponse<E>(Failure(e1)).body.message == Some(InternalErrorMessage)
  {
  }
}
