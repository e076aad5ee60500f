/** The OCR data classes and the HandwritingOCR client's request and status rules.
    HTTP is not modelled: every response is a status code with its decoded JSON body,
    and the locally generated job id is a parameter. */
module OcrBase {
  import opened Errors
  import opened Json

  datatype OCRAction = Transcribe | Tables | Extract

  /** The enum values sent as `action`. */
  function ActionValue(a: OCRAction): string {
    match a
    case Transcribe => "transcribe"
    case Tables => "tables"
    case Extract => "extractor"
  }

  datatype Capabilities = Capabilities(
    supportsHandwriting: bool,
    supportsTables: bool,
    supportsExtractors: bool,
    supportsWebhooks: bool,
    supportsAsync: bool)

  /** What `HandwritingOCRProvider.capabilities` reports: everything. */
  const HandwritingCapabilities := Capabilities(true, true, true, true, true)

  const ProviderName := "handwritingocr"

  datatype OCRRequest = OCRRequest(
    action: OCRAction,
    extractorId: Option<string>,
    webhookUrl: Option<string>,
    options: map<string, Json>)

  /** `OCRRequest(...)`: missing options become an empty dict. */
  function NewRequest(action: OCRAction, extractorId: Option<string>, webhookUrl: Option<string>,
                      options: Option<map<string, Json>>): (r: OCRRequest)
    ensures r.action == action && r.extractorId == extractorId && r.webhookUrl == webhookUrl
    ensures options.None? ==> r.options == map[]
    ensures options.Some? ==> r.options == options.value
  {
    OCRRequest(action, extractorId, webhookUrl, if options.Some? then options.value else map[])
  }

  /** The job handle: the local id, the provider's name and the provider's document id. */
  datatype OCRJob = OCRJob(jobId: string, provider: string, providerJobId: Json)

  datatype OCRStatus = Queued | Processing | Processed | Failed

  /** A normalised page. None is JNull; `fields` is a dict whose keys are any hashable value. */
  datatype OCRPageResult = OCRPageResult(
    pageNumber: Json,
    text: Json,
    tables: Json,
    fields: map<Json, Json>,
    confidence: Json)

  /** `OCRPageResult(...)`: `tables or []` and `fields or {}`. */
  function NewPageResult(pageNumber: Json, text: Json, tables: Json, fields: Option<map<Json, Json>>,
                         confidence: Json): (r: OCRPageResult)
    ensures r.pageNumber == pageNumber && r.text == text && r.confidence == confidence
    ensures Truthy(tables) ==> r.tables == tables
    ensures !Truthy(tables) ==> r.tables == JArray([])
    ensures fields.None? ==> r.fields == map[]
    ensures fields.Some? ==> r.fields == fields.value
  {
    OCRPageResult(pageNumber, text, Or(tables, JArray([])),
                  if fields.Some? then fields.value else map[], confidence)
  }

  datatype OCRResult = OCRResult(jobId: string, pages: seq<OCRPageResult>, rawProviderResponse: Json)

  /** An HTTP response: status code and decoded JSON body. */
  datatype Response = Response(status: int, body: Json)

  /** Python's truth test on an optional string. */
  predicate Given(s: Option<string>) {
    s.Some? && s.value != ""
  }

  /** `HandwritingOCRProvider(api_key)`: the explicit key when truthy, else the environment's
      `HANDWRITING_OCR_API_KEY`; with neither, the missing-key error. */
  function ProviderApiKey(explicit: Option<string>, env: Option<string>): (r: Result<string>)
    ensures r.Ok? <==> Given(explicit) || Given(env)
    ensures Given(explicit) ==> r == Ok(explicit.value)
    ensures !Given(explicit) && Given(env) ==> r == Ok(env.value)
    ensures r.Err? ==> r.error == ApiKeyMissing
  {
    if Given(explicit) then Ok(explicit.value)
    else if Given(env) then Ok(env.value)
    else Err(ApiKeyMissing)
  }

  /** The multipart form fields `submit` sends: `action`, then `extractor_id` and `webhook_url`
      when they are truthy, then every option, which overrides a field of the same name. */
  function FormData(request: OCRRequest): (data: map<string, Json>)
    ensures forall k :: k in data <==>
      k == "action" || (k == "extractor_id" && Given(request.extractorId))
      || (k == "webhook_url" && Given(request.webhookUrl)) || k in request.options
    ensures forall k :: k in request.options ==> data[k] == request.options[k]
    ensures "action" !in request.options ==> data["action"] == JString(ActionValue(request.action))
    ensures "extractor_id" !in request.options && Given(request.extractorId) ==>
              data["extractor_id"] == JString(request.extractorId.value)
    ensures "webhook_url" !in request.options && Given(request.webhookUrl) ==>
              data["webhook_url"] == JString(request.webhookUrl.value)
  {
    var data := map["action" := JString(ActionValue(request.action))];
    var data := if Given(request.extractorId) then data["extractor_id" := JString(request.extractorId.value)] else data;
    var data := if Given(request.webhookUrl) then data["webhook_url" := JString(request.webhookUrl.value)] else data;
    if request.options != map[] then data + request.options else data
  }

  /** What a call to `submit` did: the form it posted, if it got that far, and its outcome. */
  datatype Submission = Submission(posted: Option<map<string, Json>>, result: Result<OCRJob>)

  /** `submit(document_path, request)`: the file must exist, then an extractor request needs
      an extractor id; only then is the form posted. The upload must answer 201 with a
      truthy `id`. */
  function Submit(fileExists: bool, request: OCRRequest, jobId: string, response: Response): (s: Submission)
    ensures !fileExists ==> s == Submission(None, Err(FileNotFound))
    ensures fileExists && request.action == Extract && !Given(request.extractorId) ==>
              s == Submission(None, Err(MissingExtractorId))
    ensures s.posted.Some? <==> fileExists && !(request.action == Extract && !Given(request.extractorId))
    ensures s.posted.Some? ==> s.posted.value == FormData(request)
    ensures s.posted.Some? && response.status != 201 ==> s.result == Err(SubmitFailed(response.status))
    ensures s.posted.Some? && response.status == 201 && !response.body.JObject? ==>
              s.result == Err(Malformed(PayloadNotObject))
    ensures s.posted.Some? && response.status == 201 && response.body.JObject? &&
              !Truthy(Get(response.body.members, "id")) ==>
              s.result == Err(MissingDocumentId)
    ensures s.result.Ok? <==>
      s.posted.Some? && response.status == 201 && response.body.JObject? && Truthy(Get(response.body.members, "id"))
    ensures s.result.Ok? ==> s.result.value == OCRJob(jobId, ProviderName, Get(response.body.members, "id"))
  {
    if !fileExists then Submission(None, Err(FileNotFound))
    else if request.action == Extract && !Given(request.extractorId) then Submission(None, Err(MissingExtractorId))
    else
      var posted := Some(FormData(request));
      if response.status != 201 then Submission(posted, Err(SubmitFailed(response.status)))
      else if !response.body.JObject? then Submission(posted, Err(Malformed(PayloadNotObject)))
      else
        var id := Get(response.body.members, "id");
        if !Truthy(id) then Submission(posted, Err(MissingDocumentId))
        else Submission(posted, Ok(OCRJob(jobId, ProviderName, id)))
  }

  /** An empty document id is as bad as a missing one. */
  lemma EmptyIdRejected(request: OCRRequest, jobId: string)
    requires request.action != Extract
    ensures Submit(true, request, jobId, Response(201, JObject(map["id" := JString("")]))).result == Err(MissingDocumentId)
    ensures Submit(true, request, jobId, Response(201, JObject(map[]))).result == Err(MissingDocumentId)
  {
  }

  /** `get_status(job)`: a 200 whose `status` is "processed" is PROCESSED, any other 200 is
      PROCESSING, and any other code raises; QUEUED and FAILED are never returned. */
  function GetStatus(response: Response): (r: Result<OCRStatus>)
    ensures r.Ok? <==> response.status == 200 && response.body.JObject?
    ensures r.Ok? ==> r.value == Processed || r.value == Processing
    ensures r == Ok(Processed) <==>
      response.status == 200 && response.body.JObject? && Get(response.body.members, "status") == JString("processed")
    ensures response.status != 200 ==> r == Err(UnexpectedStatusResponse(response.status))
    ensures response.status == 200 && !response.body.JObject? ==> r == Err(Malformed(PayloadNotObject))
  {
    if response.status == 200 then
      if !response.body.JObject? then Err(Malformed(PayloadNotObject))
      else if Get(response.body.members, "status") == JString("processed") then Ok(Processed)
      else Ok(Processing)
    else Err(UnexpectedStatusResponse(response.status))
  }

  /** A provider-side failure is reported as still processing. */
  lemma FailedReportedAsProcessing()
    ensures GetStatus(Response(200, JObject(map["status" := JString("failed")]))) == Ok(Processing)
    ensures GetStatus(Response(200, JObject(map["status" := JString("queued")]))) == Ok(Processing)
  {
  }
}
