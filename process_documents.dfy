/** `process_document`: load, preprocess with retry, gate on quality, then submit, poll and
    fetch. The world outside the program (the file system, OpenCV's pixel statistics, the
    provider's HTTP answers, the environment's API key) is an input; the side effects the
    program has on it are recorded as a trace of events. */
module ProcessDocuments {
  import opened Errors
  import opened Json
  import opened Images
  import opened Pipeline
  import opened QualityScore
  import opened PreprocessingProfiles
  import opened OcrBase
  import opened ResultNormalizer

  const PollIntervalSeconds := 2
  const MaxPollAttempts := 60

  // ---------------------------------------------------------------------------
  // Preprocessing with retry

  /** What one profile yields: the processed image and its quality report, or the exception. */
  type Outcome = Result<(Image, QualityReport)>

  /** One profile: preprocess with its keyword arguments, then score the result. */
  function Attempt(img: Image, profile: Overrides, vision: Vision): Outcome {
    var processed :- Preprocess(Array(img), Resolve(profile), vision);
    var quality :- ComputeQualityScore(Array(processed), vision);
    Ok((processed, quality))
  }

  predicate Passed(a: Outcome) {
    a.Ok? && a.value.1.status == Pass
  }

  predicate ScoredWithoutPassing(a: Outcome) {
    a.Ok? && a.value.1.status != Pass
  }

  /** The retry loop over the outcomes of the profiles, in order: the first outcome that
      passes, else the last one; an outcome that raises ends the loop. */
  function RetryOver(outcomes: seq<Outcome>): Outcome
    requires |outcomes| > 0
    decreases |outcomes|
  {
    var a :- outcomes[0];
    if a.1.status == Pass || |outcomes| == 1 then Ok(a) else RetryOver(outcomes[1..])
  }

  /** The outcome of every profile of `PREPROCESSING_PROFILES` on one page. */
  function Attempts(img: Image, vision: Vision): (a: seq<Outcome>)
    ensures |a| == |Profiles|
    ensures forall i :: 0 <= i < |Profiles| ==> a[i] == Attempt(img, Profiles[i], vision)
  {
    seq(|Profiles|, i requires 0 <= i < |Profiles| => Attempt(img, Profiles[i], vision))
  }

  /** `preprocess_with_retry(image)`. */
  function Retry(img: Image, vision: Vision): Outcome {
    RetryOver(Attempts(img, vision))
  }

  /** The retry as a function of the page, for the gate. */
  function RetryFor(vision: Vision): Image -> Outcome {
    img => Retry(img, vision)
  }

  /** The loop of `preprocess_with_retry`: return the first result that passes, otherwise
      the last one. */
  method PreprocessWithRetry(image: Image, vision: Vision) returns (r: Outcome)
    ensures r == Retry(image, vision)
    ensures r == RetryFor(vision)(image)
  {
    ghost var attempts := Attempts(image, vision);
    var last: Option<(Image, QualityReport)> := None;
    var i := 0;
    while i < |Profiles|
      invariant 0 <= i <= |Profiles|
      invariant i < |Profiles| ==> RetryOver(attempts) == RetryOver(attempts[i..])
      invariant i == |Profiles| ==> last.Some? && RetryOver(attempts) == Ok(last.value)
    {
      ghost var rest := attempts[i..];
      assert rest[0] == attempts[i] == Attempt(image, Profiles[i], vision);
      var processed := Preprocess(Array(image), Resolve(Profiles[i]), vision);
      if processed.Err? {
        return Err(processed.error);
      }
      var quality := ComputeQualityScore(Array(processed.value), vision);
      if quality.Err? {
        return Err(quality.error);
      }
      assert rest[0] == Ok((processed.value, quality.value));
      if quality.value.status == Pass {
        return Ok((processed.value, quality.value));
      }
      last := Some((processed.value, quality.value));
      if i + 1 < |Profiles| {
        assert rest[1..] == attempts[i + 1..];
      }
      i := i + 1;
    }
    return Ok(last.value);
  }

  /** The outcome at `i` is the first that passes: every earlier one scored without passing. */
  predicate FirstPassAt(outcomes: seq<Outcome>, i: int) {
    0 <= i < |outcomes| && Passed(outcomes[i]) &&
    forall j :: 0 <= j < i ==> ScoredWithoutPassing(outcomes[j])
  }

  /** The first passing outcome is the one returned; later profiles do not matter. */
  lemma {:induction false} RetryReturnsFirstPass(outcomes: seq<Outcome>, i: int)
    requires FirstPassAt(outcomes, i)
    ensures RetryOver(outcomes) == outcomes[i]
    decreases i
  {
    if i > 0 {
      assert FirstPassAt(outcomes[1..], i - 1) by {
        forall j | 0 <= j < i - 1 ensures outcomes[1..][j] == outcomes[j + 1] { }
      }
      RetryReturnsFirstPass(outcomes[1..], i - 1);
    }
  }

  /** When no outcome passes and none raises, the last one is returned. */
  lemma {:induction false} RetryFallsBackToLast(outcomes: seq<Outcome>)
    requires |outcomes| > 0
    requires forall j :: 0 <= j < |outcomes| ==> ScoredWithoutPassing(outcomes[j])
    ensures RetryOver(outcomes) == outcomes[|outcomes| - 1]
    decreases |outcomes|
  {
    if |outcomes| > 1 {
      assert forall j :: 0 <= j < |outcomes[1..]| ==> outcomes[1..][j] == outcomes[j + 1];
      RetryFallsBackToLast(outcomes[1..]);
    }
  }

  /** An outcome that raises before any passes ends the retry with its error. */
  lemma {:induction false} RetryPropagatesErrors(outcomes: seq<Outcome>, i: int)
    requires 0 <= i < |outcomes| && outcomes[i].Err?
    requires forall j :: 0 <= j < i ==> ScoredWithoutPassing(outcomes[j])
    ensures RetryOver(outcomes) == Err(outcomes[i].error)
    decreases i
  {
    if i > 0 {
      assert forall j :: 0 <= j < |outcomes[1..]| ==> outcomes[1..][j] == outcomes[j + 1];
      RetryPropagatesErrors(outcomes[1..], i - 1);
    }
  }

  /** The retry passes exactly when some outcome passes with every earlier one scored. */
  lemma {:induction false} RetryPassesIffSomeProfilePasses(outcomes: seq<Outcome>)
    requires |outcomes| > 0
    ensures Passed(RetryOver(outcomes)) <==> exists i :: FirstPassAt(outcomes, i)
    decreases |outcomes|
  {
    var a := outcomes[0];
    if Passed(a) {
      assert FirstPassAt(outcomes, 0);
    } else if a.Ok? && |outcomes| > 1 {
      var tail := outcomes[1..];
      RetryPassesIffSomeProfilePasses(tail);
      if exists i :: FirstPassAt(tail, i) {
        var i :| FirstPassAt(tail, i);
        assert FirstPassAt(outcomes, i + 1) by {
          forall j | 0 <= j < i + 1 ensures ScoredWithoutPassing(outcomes[j]) {
            if j > 0 { assert outcomes[j] == tail[j - 1]; }
          }
        }
      }
      if exists i :: FirstPassAt(outcomes, i) {
        var i :| FirstPassAt(outcomes, i);
        assert FirstPassAt(tail, i - 1) by {
          forall j | 0 <= j < i - 1 ensures tail[j] == outcomes[j + 1] { }
        }
      }
    } else {
      forall i | 0 <= i < |outcomes| ensures !FirstPassAt(outcomes, i) {
      }
    }
  }

  // ---------------------------------------------------------------------------
  // The quality gate

  /** The error a page that fails after the retry is rejected with (1-based page number). */
  function Rejection(page: nat, q: QualityReport): Error {
    PageRejected(page, q.metrics.foregroundRatio, q.metrics.componentCount,
                 q.metrics.avgComponentArea, q.metrics.laplacianVariance)
  }

  /** What the gate makes of one page's retry outcome (`page` is 1-based): the exception,
      the rejection of a page whose final status is fail, or the processed image. */
  function Keep(page: nat, a: Outcome): Result<Image> {
    var (processed, quality) :- a;
    if quality.status == Fail then Err(Rejection(page, quality)) else Ok(processed)
  }

  /** The gate over the pages from position `from` (0-based): every page goes through the
      retry, a page whose final status is fail is rejected, warned pages are kept. */
  function GateFrom(pages: seq<Image>, retry: Image -> Outcome, from: nat): Result<seq<Image>>
    requires from <= |pages|
    decreases |pages| - from
  {
    if from == |pages| then Ok([])
    else
      var processed :- Keep(from + 1, retry(pages[from]));
      var rest :- GateFrom(pages, retry, from + 1);
      Ok([processed] + rest)
  }

  /** `images` prefixed to the rest of the gate's result, if the rest succeeds. */
  function PrefixedImages(images: seq<Image>, rest: Result<seq<Image>>): Result<seq<Image>> {
    if rest.Err? then Err(rest.error) else Ok(images + rest.value)
  }

  /** One step of the gate, for any per-page retry: a page that is not kept ends the gate
      with its error, a kept page joins the images already gathered. */
  lemma GateStep(pages: seq<Image>, retry: Image -> Outcome, from: nat, kept: Result<Image>, gathered: seq<Image>)
    requires from < |pages|
    requires kept == Keep(from + 1, retry(pages[from]))
    ensures kept.Err? ==> PrefixedImages(gathered, GateFrom(pages, retry, from)) == Err(kept.error)
    ensures kept.Ok? ==> PrefixedImages(gathered, GateFrom(pages, retry, from)) ==
                         PrefixedImages(gathered + [kept.value], GateFrom(pages, retry, from + 1))
  {
    var rest := GateFrom(pages, retry, from + 1);
    if kept.Ok? && rest.Ok? {
      assert gathered + ([kept.value] + rest.value) == (gathered + [kept.value]) + rest.value;
    }
  }

  /** The body of the gate's loop: one page through the retry and the quality check. */
  method GatePage(page: Image, number: nat, vision: Vision) returns (r: Result<Image>)
    ensures r == Keep(number, RetryFor(vision)(page))
  {
    var retried := PreprocessWithRetry(page, vision);
    if retried.Err? {
      return Err(retried.error);
    }
    var (preprocessed, quality) := retried.value;
    if quality.status == Fail {
      return Err(Rejection(number, quality));
    }
    return Ok(preprocessed);
  }

  /** Step 2 of `process_document`: every page through the retry, rejecting the first failure. */
  method GatePages(pages: seq<Image>, vision: Vision) returns (r: Result<seq<Image>>)
    ensures r == GateFrom(pages, RetryFor(vision), 0)
  {
    ghost var retry := RetryFor(vision);
    ghost var whole := GateFrom(pages, retry, 0);
    var processed: seq<Image> := [];
    var idx := 0;
    if whole.Ok? {
      assert [] + whole.value == whole.value;
    }
    while idx < |pages|
      invariant 0 <= idx <= |pages|
      invariant PrefixedImages(processed, GateFrom(pages, retry, idx)) == whole
      decreases |pages| - idx
    {
      var kept := GatePage(pages[idx], idx + 1, vision);
      GateStep(pages, retry, idx, kept, processed);
      if kept.Err? {
        return Err(kept.error);
      }
      processed := processed + [kept.value];
      idx := idx + 1;
    }
    assert processed + [] == processed;
    return Ok(processed);
  }

  /** The page survives the retry with a status other than fail. */
  predicate Kept(a: Outcome) {
    a.Ok? && a.value.1.status != Fail
  }

  /** The gate passes exactly when every page is kept, and then holds each page's processed
      image in page order. */
  lemma {:induction false} GateKeepsEveryPage(pages: seq<Image>, retry: Image -> Outcome, from: nat)
    requires from <= |pages|
    ensures GateFrom(pages, retry, from).Ok? <==> forall i :: from <= i < |pages| ==> Kept(retry(pages[i]))
    ensures GateFrom(pages, retry, from).Ok? ==>
      |GateFrom(pages, retry, from).value| == |pages| - from &&
      forall i :: from <= i < |pages| ==> GateFrom(pages, retry, from).value[i - from] == retry(pages[i]).value.0
    decreases |pages| - from
  {
    if from < |pages| {
      GateKeepsEveryPage(pages, retry, from + 1);
      if GateFrom(pages, retry, from).Ok? {
        var out := GateFrom(pages, retry, from).value;
        var rest := GateFrom(pages, retry, from + 1).value;
        assert out == [retry(pages[from]).value.0] + rest;
        forall k | 1 <= k < |out| ensures out[k] == rest[k - 1] { }
      }
    }
  }

  /** The page at `i` is the first rejected one: every earlier page was kept. */
  predicate FirstRejectedAt(pages: seq<Image>, retry: Image -> Outcome, i: int) {
    0 <= i < |pages| && retry(pages[i]).Ok? && retry(pages[i]).value.1.status == Fail &&
    forall j :: 0 <= j < i ==> Kept(retry(pages[j]))
  }

  /** The gate rejects the first page that fails, with its 1-based number and its metrics. */
  lemma {:induction false} GateRejectsFirstFailure(pages: seq<Image>, retry: Image -> Outcome, from: nat, i: int)
    requires from <= i
    requires FirstRejectedAt(pages, retry, i)
    ensures GateFrom(pages, retry, from) == Err(Rejection(i + 1, retry(pages[i]).value.1))
    decreases i - from
  {
    if from < i {
      assert Kept(retry(pages[from]));
      GateRejectsFirstFailure(pages, retry, from + 1, i);
    }
  }

  // ---------------------------------------------------------------------------
  // Polling

  /** The side effects of `process_document` on the outside world. */
  datatype Event =
    | TempDirCreated                               // os.makedirs(temp_dir)
    | PageWritten(page: nat, image: Image)         // cv2.imwrite(temp_dir/page_<n>.png)
    | FormPosted(form: map<string, Json>)          // the upload POST
    | StatusChecked(attempt: nat)                  // one GET of the document's status
    | Slept(seconds: nat)                          // time.sleep
    | ResultFetched                                // the GET of the result
    | TempDirRemoved                               // shutil.rmtree(temp_dir)

  /** How a polling loop ended, and what it did. */
  datatype Polled = Polled(result: Result<nat>, events: seq<Event>)

  /** The polling loop from attempt `i` (0-based): PROCESSED ends it with the number of
      checks made, FAILED and a raising check end it with an error, any other status sleeps
      and checks again; after `MaxPollAttempts` checks it times out. */
  function PollFrom(statuses: nat -> Result<OCRStatus>, i: nat): Polled
    requires i <= MaxPollAttempts
    decreases MaxPollAttempts - i
  {
    if i == MaxPollAttempts then Polled(Err(PollTimeout), [])
    else
      var checked := [StatusChecked(i + 1)];
      match statuses(i)
      case Err(e) => Polled(Err(e), checked)
      case Ok(Processed) => Polled(Ok(i + 1), checked)
      case Ok(Failed) => Polled(Err(JobFailed), checked)
      case Ok(_) =>
        var rest := PollFrom(statuses, i + 1);
        Polled(rest.result, checked + [Slept(PollIntervalSeconds)] + rest.events)
  }

  /** The statuses `get_status` reports for a sequence of answers to the status request. */
  function StatusesOf(responses: nat -> Response): nat -> Result<OCRStatus> {
    (j: nat) => GetStatus(responses(j))
  }

  /** Step 6 of `process_document`. */
  method Poll(statuses: nat -> Result<OCRStatus>) returns (r: Result<nat>, events: seq<Event>)
    ensures Polled(r, events) == PollFrom(statuses, 0)
  {
    events := [];
    var attempt := 0;
    assert [] + PollFrom(statuses, 0).events == PollFrom(statuses, 0).events;
    while attempt < MaxPollAttempts
      invariant 0 <= attempt <= MaxPollAttempts
      invariant PollFrom(statuses, 0) ==
        Polled(PollFrom(statuses, attempt).result, events + PollFrom(statuses, attempt).events)
    {
      var status := statuses(attempt);
      if status.Err? {
        return Err(status.error), events + [StatusChecked(attempt + 1)];
      }
      if status.value == Processed {
        return Ok(attempt + 1), events + [StatusChecked(attempt + 1)];
      }
      if status.value == Failed {
        return Err(JobFailed), events + [StatusChecked(attempt + 1)];
      }
      ghost var rest := PollFrom(statuses, attempt + 1);
      var step := [StatusChecked(attempt + 1)] + [Slept(PollIntervalSeconds)];
      assert PollFrom(statuses, attempt) == Polled(rest.result, step + rest.events);
      assert events + (step + rest.events) == (events + step) + rest.events;
      events := events + step;
      attempt := attempt + 1;
    }
    assert events + [] == events;
    return Err(PollTimeout), events;
  }

  /** A status that neither ends nor breaks the loop. */
  predicate Waiting(s: Result<OCRStatus>) {
    s == Ok(Queued) || s == Ok(Processing)
  }

  /** No status check itself reports a timeout. */
  ghost predicate NoTimeoutStatus(statuses: nat -> Result<OCRStatus>) {
    forall j: nat :: statuses(j) != Err(PollTimeout)
  }

  function Checks(events: seq<Event>): nat {
    if events == [] then 0 else (if events[0].StatusChecked? then 1 else 0) + Checks(events[1..])
  }

  function SleptSeconds(events: seq<Event>): nat {
    if events == [] then 0 else (if events[0].Slept? then events[0].seconds else 0) + SleptSeconds(events[1..])
  }

  lemma {:induction false} CountsConcat(a: seq<Event>, b: seq<Event>)
    ensures Checks(a + b) == Checks(a) + Checks(b)
    ensures SleptSeconds(a + b) == SleptSeconds(a) + SleptSeconds(b)
    decreases |a|
  {
    if a == [] {
      assert a + b == b;
    } else {
      assert (a + b)[0] == a[0];
      assert (a + b)[1..] == a[1..] + b;
      CountsConcat(a[1..], b);
    }
  }

  /** The poll makes at most 60 checks. It times out exactly when all 60 statuses from `i`
      on are still waiting, and then it has slept two seconds after each check; otherwise it
      sleeps after every check but the last. A successful poll reports its number of checks. */
  lemma {:induction false} PollCounts(statuses: nat -> Result<OCRStatus>, i: nat)
    requires i <= MaxPollAttempts
    requires NoTimeoutStatus(statuses)
    ensures var p := PollFrom(statuses, i);
      && Checks(p.events) <= MaxPollAttempts - i
      && (p.result == Err(PollTimeout) <==> forall j :: i <= j < MaxPollAttempts ==> Waiting(statuses(j)))
      && (p.result == Err(PollTimeout) ==>
            Checks(p.events) == MaxPollAttempts - i && SleptSeconds(p.events) == PollIntervalSeconds * (MaxPollAttempts - i))
      && (p.result != Err(PollTimeout) ==>
            Checks(p.events) >= 1 && SleptSeconds(p.events) == PollIntervalSeconds * (Checks(p.events) - 1))
      && (p.result.Ok? ==> p.result.value == i + Checks(p.events))
    decreases MaxPollAttempts - i
  {
    if i < MaxPollAttempts {
      StepCounts(i, []);
      assert [StatusChecked(i + 1)] + [] == [StatusChecked(i + 1)];
      if Waiting(statuses(i)) {
        PollCounts(statuses, i + 1);
        StepCounts(i, PollFrom(statuses, i + 1).events);
      }
    }
  }

  /** A check followed by a sleep adds one check and two seconds to what follows; a check
      alone adds one check. */
  lemma StepCounts(i: nat, rest: seq<Event>)
    ensures Checks([StatusChecked(i + 1)] + rest) == 1 + Checks(rest)
    ensures SleptSeconds([StatusChecked(i + 1)] + rest) == SleptSeconds(rest)
    ensures Checks([StatusChecked(i + 1)] + [Slept(PollIntervalSeconds)] + rest) == 1 + Checks(rest)
    ensures SleptSeconds([StatusChecked(i + 1)] + [Slept(PollIntervalSeconds)] + rest) ==
              PollIntervalSeconds + SleptSeconds(rest)
  {
    var c := [StatusChecked(i + 1)] + rest;
    assert c[1..] == rest;
    var cs := [StatusChecked(i + 1)] + [Slept(PollIntervalSeconds)] + rest;
    assert cs[1..] == [Slept(PollIntervalSeconds)] + rest;
    assert cs[1..][1..] == rest;
  }

  /** The poll succeeds after `n` checks exactly when the n-th status is PROCESSED and every
      earlier one is still waiting. */
  lemma {:induction false} PollSucceedsIff(statuses: nat -> Result<OCRStatus>, i: nat, n: nat)
    requires i <= MaxPollAttempts
    ensures PollFrom(statuses, i).result == Ok(n) <==>
      i < n <= MaxPollAttempts && statuses(n - 1) == Ok(Processed) &&
      forall j :: i <= j < n - 1 ==> Waiting(statuses(j))
    decreases MaxPollAttempts - i
  {
    if i < MaxPollAttempts {
      PollSucceedsIff(statuses, i + 1, n);
    }
  }

  /** The status at `n` stops the poll with the job-failed error: FAILED, or a check that
      raises that error; every status before it is still waiting. */
  predicate FailsAt(statuses: nat -> Result<OCRStatus>, i: nat, n: nat) {
    i <= n < MaxPollAttempts && (statuses(n) == Ok(Failed) || statuses(n) == Err(JobFailed)) &&
    forall j :: i <= j < n ==> Waiting(statuses(j))
  }

  /** The poll ends with the job-failed error, never a timeout, exactly when some status
      within the sixty checks fails and every earlier one is still waiting. */
  lemma {:induction false} PollFailsIff(statuses: nat -> Result<OCRStatus>, i: nat)
    requires i <= MaxPollAttempts
    ensures PollFrom(statuses, i).result == Err(JobFailed) <==> exists n: nat :: FailsAt(statuses, i, n)
    decreases MaxPollAttempts - i
  {
    if i < MaxPollAttempts {
      PollFailsIff(statuses, i + 1);
      if Waiting(statuses(i)) {
        if PollFrom(statuses, i + 1).result == Err(JobFailed) {
          var n :| FailsAt(statuses, i + 1, n);
          assert FailsAt(statuses, i, n);
        }
        if exists n: nat :: FailsAt(statuses, i, n) {
          var n :| FailsAt(statuses, i, n);
          assert FailsAt(statuses, i + 1, n);
        }
      } else if statuses(i) == Ok(Failed) || statuses(i) == Err(JobFailed) {
        assert FailsAt(statuses, i, i);
      } else {
        assert !Waiting(statuses(i));
        forall n: nat | FailsAt(statuses, i, n) ensures false {
        }
      }
    }
  }

  /** A FAILED status ends the poll at once with the job-failed error: one check for it and
      each waiting status before it, and a sleep after each of those earlier checks. */
  lemma {:induction false} FailedStatusEndsPoll(statuses: nat -> Result<OCRStatus>, i: nat, n: nat)
    requires i <= n < MaxPollAttempts
    requires statuses(n) == Ok(Failed)
    requires forall j :: i <= j < n ==> Waiting(statuses(j))
    ensures PollFrom(statuses, i).result == Err(JobFailed)
    ensures Checks(PollFrom(statuses, i).events) == n - i + 1
    ensures SleptSeconds(PollFrom(statuses, i).events) == PollIntervalSeconds * (n - i)
    decreases n - i
  {
    if i < n {
      assert Waiting(statuses(i));
      FailedStatusEndsPoll(statuses, i + 1, n);
      StepCounts(i, PollFrom(statuses, i + 1).events);
    } else {
      StepCounts(i, []);
      assert [StatusChecked(i + 1)] + [] == [StatusChecked(i + 1)];
    }
  }

  /** `get_status` never reports FAILED or a timeout, so a failed job surfaces as a timeout
      of the loop or a raising status check, never as "job failed". */
  lemma {:induction false} PollNeverSeesFailure(responses: nat -> Response, i: nat)
    requires i <= MaxPollAttempts
    ensures NoTimeoutStatus(StatusesOf(responses))
    ensures PollFrom(StatusesOf(responses), i).result != Err(JobFailed)
    decreases MaxPollAttempts - i
  {
    var statuses := StatusesOf(responses);
    forall j: nat ensures statuses(j) != Err(PollTimeout) {
      assert statuses(j) == GetStatus(responses(j));
    }
    if i < MaxPollAttempts {
      assert statuses(i) == GetStatus(responses(i));
      PollNeverSeesFailure(responses, i + 1);
    }
  }

  // ---------------------------------------------------------------------------
  // The orchestration

  /** What the program finds outside itself. */
  datatype World = World(
    fileExists: bool,                      // os.path.exists(path)
    loaded: Result<seq<Image>>,            // _load_images(path): the pages, or why they cannot be read
    envApiKey: Option<string>,             // HANDWRITING_OCR_API_KEY
    capabilities: Capabilities,            // what the provider reports
    jobId: string,                         // the uuid the client assigns the job
    submitResponse: Response,              // the upload's answer
    statusResponses: nat -> Response,      // the answer to the n-th status check (0-based)
    fetchResponse: Response)               // the result's answer

  /** The pages written to the temporary directory, numbered from 1. */
  function Written(images: seq<Image>): (events: seq<Event>)
    ensures |events| == |images|
    ensures forall i :: 0 <= i < |images| ==> events[i] == PageWritten(i + 1, images[i])
  {
    seq(|images|, i requires 0 <= i < |images| => PageWritten(i + 1, images[i]))
  }

  /** Steps 1 and 2 and the provider's construction: the checks before any side effect. */
  function Prepare(w: World, retry: Image -> Outcome): Result<seq<Image>> {
    if !w.fileExists then Err(FileNotFound)
    else
      var pages :- w.loaded;
      if pages == [] then Err(NoReadablePages)
      else
        var processed :- GateFrom(pages, retry, 0);
        var apiKey :- ProviderApiKey(None, w.envApiKey);
        Ok(processed)
  }

  /** Step 3: a TABLES request needs a provider that supports tables. */
  function Admit(w: World, request: OCRRequest, retry: Image -> Outcome): Result<seq<Image>> {
    var processed :- Prepare(w, retry);
    if request.action == Tables && !w.capabilities.supportsTables then Err(TablesUnsupported)
    else Ok(processed)
  }

  /** What a call of `process_document` returns or raises, and the events it causes. */
  datatype Execution = Execution(result: Result<OCRResult>, trace: seq<Event>)

  /** Steps 5 to 7, inside the `try`: submit, poll until processed, fetch. */
  function RemoteWork(w: World, request: OCRRequest): Execution {
    var submission := Submit(w.fileExists, request, w.jobId, w.submitResponse);
    var posted := if submission.posted.Some? then [FormPosted(submission.posted.value)] else [];
    if submission.result.Err? then Execution(Err(submission.result.error), posted)
    else
      var poll := PollFrom(StatusesOf(w.statusResponses), 0);
      if poll.result.Err? then Execution(Err(poll.result.error), posted + poll.events)
      else Execution(FetchSpec(submission.result.value.jobId, w.fetchResponse), posted + poll.events + [ResultFetched])
  }

  /** `process_document(path, request)`, with `retry` as the per-page preprocessing: the
      admission checks, then the temporary directory, the page writes and the remote work,
      and the directory's removal in the `finally`, whatever the remote work returns. */
  function Run(w: World, request: OCRRequest, retry: Image -> Outcome): Execution {
    var admitted := Admit(w, request, retry);
    if admitted.Err? then Execution(Err(admitted.error), [])
    else
      var work := RemoteWork(w, request);
      Execution(work.result, [TempDirCreated] + Written(admitted.value) + work.trace + [TempDirRemoved])
  }

  /** Steps 1 to 3 of `process_document`: existence, loading, the quality gate, the
      provider's API key and its table support. */
  method Admission(w: World, request: OCRRequest, vision: Vision) returns (r: Result<seq<Image>>)
    ensures r == Admit(w, request, RetryFor(vision))
  {
    if !w.fileExists {
      return Err(FileNotFound);
    }
    if w.loaded.Err? {
      return Err(w.loaded.error);
    }
    var pages := w.loaded.value;
    if pages == [] {
      return Err(NoReadablePages);
    }
    var gated := GatePages(pages, vision);
    if gated.Err? {
      return Err(gated.error);
    }
    var apiKey := ProviderApiKey(None, w.envApiKey);
    if apiKey.Err? {
      return Err(apiKey.error);
    }
    if request.action == Tables && !w.capabilities.supportsTables {
      return Err(TablesUnsupported);
    }
    return Ok(gated.value);
  }

  /** Step 4: `page_<i>.png` for every processed page, in order. */
  method WritePages(pages: seq<Image>) returns (events: seq<Event>)
    ensures events == Written(pages)
  {
    events := [];
    var i := 0;
    while i < |pages|
      invariant 0 <= i <= |pages|
      invariant events == Written(pages[..i])
    {
      assert Written(pages[..i + 1]) == Written(pages[..i]) + [PageWritten(i + 1, pages[i])];
      events := events + [PageWritten(i + 1, pages[i])];
      i := i + 1;
    }
    assert pages[..i] == pages;
  }

  /** Steps 5 to 7: submit the document, poll its status, fetch the result. */
  method SubmitPollFetch(w: World, request: OCRRequest) returns (r: Result<OCRResult>, events: seq<Event>)
    ensures Execution(r, events) == RemoteWork(w, request)
  {
    var submission := Submit(w.fileExists, request, w.jobId, w.submitResponse);
    events := [];
    if submission.posted.Some? {
      events := [FormPosted(submission.posted.value)];
    }
    if submission.result.Err? {
      return Err(submission.result.error), events;
    }
    var job := submission.result.value;

    var polled, pollEvents := Poll(StatusesOf(w.statusResponses));
    events := events + pollEvents;
    if polled.Err? {
      return Err(polled.error), events;
    }

    r := FetchResult(job, w.fetchResponse);
    events := events + [ResultFetched];
  }

  /** The orchestration, step by step; the directory is removed on every path after it is
      created. */
  method ProcessDocument(w: World, request: OCRRequest, vision: Vision)
    returns (r: Result<OCRResult>, trace: seq<Event>)
    ensures Execution(r, trace) == Run(w, request, RetryFor(vision))
  {
    var admitted := Admission(w, request, vision);
    if admitted.Err? {
      return Err(admitted.error), [];
    }
    var written := WritePages(admitted.value);
    trace := [TempDirCreated] + written;
    var work;
    r, work := SubmitPollFetch(w, request);
    trace := trace + work + [TempDirRemoved];
  }

  // ---------------------------------------------------------------------------
  // Properties of the orchestration

  /** Nothing touches the outside world unless the document is admitted, and a document that
      is not admitted fails with the reason it was not. */
  lemma NothingHappensUnlessAdmitted(w: World, request: OCRRequest, retry: Image -> Outcome)
    ensures Run(w, request, retry).trace == [] <==> Admit(w, request, retry).Err?
    ensures Admit(w, request, retry).Err? ==> Run(w, request, retry).result == Err(Admit(w, request, retry).error)
  {
    if Admit(w, request, retry).Ok? {
      var setup := [TempDirCreated] + Written(Admit(w, request, retry).value);
      assert setup[0] == TempDirCreated;
    }
  }

  /** The checks before any side effect run in the order of the source: existence, loading,
      the empty document, the gate, the API key, then table support. */
  lemma AdmissionOrder(w: World, request: OCRRequest, retry: Image -> Outcome)
    ensures !w.fileExists ==> Run(w, request, retry) == Execution(Err(FileNotFound), [])
    ensures w.fileExists && w.loaded.Err? ==> Run(w, request, retry) == Execution(Err(w.loaded.error), [])
    ensures w.fileExists && w.loaded == Ok([]) ==> Run(w, request, retry) == Execution(Err(NoReadablePages), [])
    ensures w.fileExists && w.loaded.Ok? && w.loaded.value != [] && GateFrom(w.loaded.value, retry, 0).Err? ==>
              Run(w, request, retry) == Execution(Err(GateFrom(w.loaded.value, retry, 0).error), [])
    ensures Prepare(w, retry).Ok? ==> w.fileExists && w.loaded.Ok? && w.loaded.value != [] && Given(w.envApiKey)
    ensures Prepare(w, retry).Ok? ==> Prepare(w, retry) == GateFrom(w.loaded.value, retry, 0)
    ensures Prepare(w, retry).Ok? && request.action == Tables && !w.capabilities.supportsTables ==>
              Run(w, request, retry) == Execution(Err(TablesUnsupported), [])
  {
    NothingHappensUnlessAdmitted(w, request, retry);
  }

  /** The first page that fails the gate rejects the document with its number and metrics:
      nothing is written and nothing is submitted. */
  lemma RejectedPageStopsEverything(w: World, request: OCRRequest, retry: Image -> Outcome, i: int)
    requires w.fileExists && w.loaded.Ok?
    requires FirstRejectedAt(w.loaded.value, retry, i)
    ensures Run(w, request, retry) ==
              Execution(Err(Rejection(i + 1, retry(w.loaded.value[i]).value.1)), [])
  {
    GateRejectsFirstFailure(w.loaded.value, retry, 0, i);
    NothingHappensUnlessAdmitted(w, request, retry);
  }

  /** The handwriting provider supports tables, so its capability check never rejects. */
  lemma TablesAlwaysSupported(w: World, request: OCRRequest, retry: Image -> Outcome)
    requires w.capabilities == HandwritingCapabilities
    ensures Admit(w, request, retry) == Prepare(w, retry)
  {
  }

  /** Every event of the polling loop is a status check or a sleep. */
  lemma {:induction false} PollEventsAreChecksAndSleeps(statuses: nat -> Result<OCRStatus>, i: nat)
    requires i <= MaxPollAttempts
    ensures forall e :: e in PollFrom(statuses, i).events ==> e.StatusChecked? || e.Slept?
    decreases MaxPollAttempts - i
  {
    if i < MaxPollAttempts && Waiting(statuses(i)) {
      PollEventsAreChecksAndSleeps(statuses, i + 1);
    }
  }

  /** Events that are neither checks nor sleeps count for nothing. */
  lemma {:induction false} Uncounted(events: seq<Event>)
    requires forall e :: e in events ==> !e.StatusChecked? && !e.Slept?
    ensures Checks(events) == 0 && SleptSeconds(events) == 0
    decreases |events|
  {
    if events != [] {
      assert events[0] in events;
      assert forall e :: e in events[1..] ==> e in events;
      Uncounted(events[1..]);
    }
  }

  /** The shape of a trace that creates the directory, writes the pages, does other work and
      removes the directory. */
  predicate Framed(pages: seq<Image>, t: seq<Event>) {
    && |t| >= |pages| + 2
    && t[0] == TempDirCreated
    && t[1..|pages| + 1] == Written(pages)
    && t[|t| - 1] == TempDirRemoved
    && (forall k :: 0 <= k < |t| - 1 ==> t[k] != TempDirRemoved)
    && (forall k :: 0 < k < |t| ==> t[k] != TempDirCreated)
  }

  lemma FramedTrace(pages: seq<Image>, middle: seq<Event>)
    requires forall e :: e in middle ==> e != TempDirRemoved && e != TempDirCreated
    ensures Framed(pages, [TempDirCreated] + Written(pages) + middle + [TempDirRemoved])
  {
    var t := [TempDirCreated] + Written(pages) + middle + [TempDirRemoved];
    forall k | 0 < k < |t| - 1 ensures t[k] != TempDirRemoved && t[k] != TempDirCreated {
      if k > |pages| {
        assert t[k] == middle[k - |pages| - 1];
        assert middle[k - |pages| - 1] in middle;
      }
    }
    assert t[1..|pages| + 1] == Written(pages);
  }

  /** The remote work neither creates nor removes the directory. */
  lemma RemoteWorkLeavesDirectoryAlone(w: World, request: OCRRequest)
    ensures forall e :: e in RemoteWork(w, request).trace ==> e != TempDirRemoved && e != TempDirCreated
  {
    PollEventsAreChecksAndSleeps(StatusesOf(w.statusResponses), 0);
  }

  /** Once the temporary directory is created, the processed pages are written in order, the
      directory is removed exactly once, and its removal is the last event, whatever fails. */
  lemma CleanupAlwaysLast(w: World, request: OCRRequest, retry: Image -> Outcome)
    requires Admit(w, request, retry).Ok?
    ensures Framed(Admit(w, request, retry).value, Run(w, request, retry).trace)
  {
    RemoteWorkLeavesDirectoryAlone(w, request);
    FramedTrace(Admit(w, request, retry).value, RemoteWork(w, request).trace);
  }

  /** A run succeeds only when the document was admitted, submitted and processed; its result
      is then the normalised fetch for the client's job id, fetched once, just before cleanup. */
  lemma SuccessMeansProcessedAndFetched(w: World, request: OCRRequest, retry: Image -> Outcome)
    requires Run(w, request, retry).result.Ok?
    ensures Admit(w, request, retry).Ok?
    ensures Submit(w.fileExists, request, w.jobId, w.submitResponse).result.Ok?
    ensures PollFrom(StatusesOf(w.statusResponses), 0).result.Ok?
    ensures Run(w, request, retry).result == FetchSpec(w.jobId, w.fetchResponse)
    ensures var t := Run(w, request, retry).trace; |t| >= 2 && t[|t| - 2] == ResultFetched
  {
    var work := RemoteWork(w, request).trace;
    var t := Run(w, request, retry).trace;
    assert t[|t| - 2] == work[|work| - 1];
  }

  /** A status answer that `get_status` reads as PROCESSING. */
  predicate ProcessingAnswer(r: Response) {
    r.status == 200 && r.body.JObject? && Get(r.body.members, "status") != JString("processed")
  }

  /** Sixty answers that are still processing make the remote work time out after sixty
      checks and sixty sleeps, without fetching. */
  lemma RemoteWorkTimesOut(w: World, request: OCRRequest)
    requires Submit(w.fileExists, request, w.jobId, w.submitResponse).result.Ok?
    requires forall j :: 0 <= j < MaxPollAttempts ==> ProcessingAnswer(w.statusResponses(j))
    ensures RemoteWork(w, request).result == Err(PollTimeout)
    ensures Checks(RemoteWork(w, request).trace) == MaxPollAttempts
    ensures SleptSeconds(RemoteWork(w, request).trace) == PollIntervalSeconds * MaxPollAttempts
    ensures ResultFetched !in RemoteWork(w, request).trace
  {
    var statuses := StatusesOf(w.statusResponses);
    ProcessingAnswersWait(w.statusResponses);
    PollTimesOut(statuses);
    var posted := [FormPosted(Submit(w.fileExists, request, w.jobId, w.submitResponse).posted.value)];
    var events := PollFrom(statuses, 0).events;
    Uncounted(posted);
    CountsConcat(posted, events);
    assert RemoteWork(w, request).trace == posted + events;
    assert ResultFetched !in events;
  }

  lemma ProcessingAnswersWait(responses: nat -> Response)
    requires forall j :: 0 <= j < MaxPollAttempts ==> ProcessingAnswer(responses(j))
    ensures NoTimeoutStatus(StatusesOf(responses))
    ensures forall j :: 0 <= j < MaxPollAttempts ==> Waiting(StatusesOf(responses)(j))
  {
    var statuses := StatusesOf(responses);
    forall j | 0 <= j < MaxPollAttempts ensures Waiting(statuses(j)) {
      assert statuses(j) == GetStatus(responses(j));
    }
    PollNeverSeesFailure(responses, 0);
  }

  /** Sixty waiting statuses: the poll times out after sixty checks and sixty sleeps. */
  lemma PollTimesOut(statuses: nat -> Result<OCRStatus>)
    requires NoTimeoutStatus(statuses)
    requires forall j :: 0 <= j < MaxPollAttempts ==> Waiting(statuses(j))
    ensures PollFrom(statuses, 0).result == Err(PollTimeout)
    ensures Checks(PollFrom(statuses, 0).events) == MaxPollAttempts
    ensures SleptSeconds(PollFrom(statuses, 0).events) == PollIntervalSeconds * MaxPollAttempts
    ensures forall e :: e in PollFrom(statuses, 0).events ==> e.StatusChecked? || e.Slept?
  {
    PollCounts(statuses, 0);
    PollEventsAreChecksAndSleeps(statuses, 0);
  }

  /** Sixty status answers that are still processing make the run time out after sleeping two
      minutes, with sixty checks. */
  lemma TimeoutAfterTwoMinutes(w: World, request: OCRRequest, retry: Image -> Outcome)
    requires Admit(w, request, retry).Ok?
    requires Submit(w.fileExists, request, w.jobId, w.submitResponse).result.Ok?
    requires forall j :: 0 <= j < MaxPollAttempts ==> ProcessingAnswer(w.statusResponses(j))
    ensures Run(w, request, retry).result == Err(PollTimeout)
    ensures Checks(Run(w, request, retry).trace) == MaxPollAttempts
    ensures SleptSeconds(Run(w, request, retry).trace) == PollIntervalSeconds * MaxPollAttempts
  {
    RemoteWorkTimesOut(w, request);
    var setup := [TempDirCreated] + Written(Admit(w, request, retry).value);
    var work := RemoteWork(w, request).trace;
    Uncounted(setup);
    Uncounted([TempDirRemoved]);
    CountsConcat(setup, work);
    CountsConcat(setup + work, [TempDirRemoved]);
  }
}
