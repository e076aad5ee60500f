# QuestScan core in Dafny

QuestScan takes a scanned handwritten document through the same steps every time:

1. It loads the pages.
2. It runs each page through a six-stage OpenCV preprocessing pipeline: grayscale, median denoise, CLAHE contrast, adaptive threshold, deskew, resize.
3. It retries with up to three preprocessing profiles until a quality scorer passes the page.
4. It rejects the document at the first page that still fails.
5. It submits the document to the HandwritingOCR service, polls the job's status and fetches the result.
6. It normalises the provider's JSON payload into an ordered list of pages.

This project models that core and proves what it promises.

| module (file) | models |
|---|---|
| `Errors` (errors.dfy) | the `Result`/`Option` types and every exception the core raises, as an `Error` value |
| `Json` (json.dfy) | decoded JSON, Python's truth test, `a or b`, `dict.get`, hashability |
| `Images` (images.dfy) | symbolic images: each OpenCV call is a constructor that records its input, its arguments and the shape OpenCV gives its result; pixel statistics come from a `Vision` record; the shared 2-D input guard |
| `Grayscale`, `Denoise`, `EnhanceContrast`, `Threshold`, `Deskew`, `Resize` | the six stages: guards, parameter checks, deskew's angle folding, resize's arithmetic |
| `Pipeline` (pipeline.dfy) | `preprocess_for_ocr`: defaults, keyword overrides, the stage order |
| `PreprocessingProfiles` | the `PREPROCESSING_PROFILES` constant |
| `QualityScore` (quality_score.dfy) | `compute_quality_score`, with the score in exact integer hundredths |
| `OcrBase` (ocr_base.dfy) | the data classes, the API-key rule, `submit` and `get_status` |
| `ResultNormalizer` (fetch_result.dfy) | `fetch_result`: specification functions and the imperative loops proved equal to them |
| `NormalizerProperties` (fetch_result_properties.dfy) | what the normaliser guarantees |
| `ProcessDocuments` (process_documents.dfy) | `preprocess_with_retry` and `process_document`: retry, gate, poll, the orchestration and its trace of side effects |

The imperative code becomes methods that are proved equal to specification functions:

- the retry loop;
- the page gate;
- the polling loop;
- the page writes;
- `fetch_result`'s nested field loops and page loop;
- the orchestration.

Properties are then proved about those functions. The orchestration is a function `Run` of a `World`. The `World` gives everything the program reads from outside itself:

- whether the file exists;
- the loaded pages;
- the environment's API key;
- the provider's capabilities (in the program a constant of the handwriting provider class; `World.capabilities` generalises it, and only `HandwritingCapabilities` arises there);
- the job id;
- the HTTP answers: a status code and a decoded JSON body.

`Run` returns the result or error together with the trace of side effects: directory creation, page writes, the upload, each status check, each sleep, the fetch, and directory removal. The lemmas about `Run` work for any per-page retry function. `ProcessDocument` is proved equal to `Run` with the actual retry.

Behaviour of the code worth knowing, which the model keeps:

- **Resize height.** `resize_to_ocr` truncates the new height with `int()`; it does not round it. An output height of 0 makes `cv2.resize` raise.
- **Page text.** The text is `transcript or text`. An empty `transcript` therefore falls through to `text`.
- **Failed jobs.** `get_status` never returns FAILED, because any other 200 answer is PROCESSING. A job that fails at the provider is therefore reported as a timeout or as a raising status check, never as a job failure.
- **The normaliser can raise.** It raises on ill-typed entries: a non-dict key-value pair, an unhashable key, or a page source that cannot be iterated. The lemmas give a sufficient condition for walking a payload without raising (the documented shapes), and an exact one for the key-value entry loop and for the page list.
- **When parameters are checked.** A stage parameter is checked only when its stage is reached, not before any processing.
- **Falsy tables.** A falsy `tables` becomes `[]`, not only a missing one.
- **Imports.** `process_documents.py` imports `api.utils.pipeline` and `api.v1.schemas.base`. The modules modelled in their place are `api/preprocessing/pipeline.py` and `api/ocr/base.py`.

## Model

| member | source | states |
|---|---|---|
| `Images.RequireTwoD` | api/preprocessing/denoise.py:26-33 | the shared stage guard: None, a non-array and a non-2-D array each raise their own error; a 2-D array passes through unchanged |
| `Grayscale.ToGray` | api/preprocessing/grayscale.py:26-46 | None and non-array raise. A 2-D input is returned as it is, a 3-channel 3-D input becomes its BGR-to-gray conversion with the same H and W, and every other shape raises with that shape (success iff 2-D or 3-D with 3 channels) |
| `Grayscale.ToGrayIdempotent` | api/preprocessing/grayscale.py:37-42 | grayscale of an accepted image's grayscale is the same image |
| `Grayscale.ToGrayRejectsOtherShapes` | api/preprocessing/grayscale.py:41-46 | 1- and 4-channel images and 1-D arrays are rejected; 3 channels are converted |
| `Denoise.MedianDenoise` | api/preprocessing/denoise.py:26-38 | success iff the input is a 2-D array and the kernel is odd and at least 3. Guard errors come first, then the kernel error; the result is the median blur with that kernel, same shape |
| `Denoise.KernelExamples` | api/preprocessing/denoise.py:35-36 | 3, 5 and 7 are valid kernels; 1, 2 and 4 are not |
| `Denoise.ShapeCheckedBeforeKernel` | api/preprocessing/denoise.py:32-36 | a colour image reports the shape error whatever the kernel |
| `EnhanceContrast.EnhanceContrast` | api/preprocessing/enhance_contrast.py:32-49 | success iff a 2-D array and `clip_limit > 0`. The shape error comes before the clip-limit error; the tile grid is unchecked; the result is CLAHE with the given parameters, same shape |
| `Threshold.AdaptiveThreshold` | api/preprocessing/threshold.py:32-53 | success iff a 2-D array and an odd block size of at least 11. The shape error comes before the block-size error; the result is the threshold with max value 255 and the given block size and C, same shape |
| `Threshold.BlockSizeExamples` | api/preprocessing/threshold.py:43-44 | 11 and 13 are valid block sizes, 9 and 12 are not |
| `Threshold.AnyConstantAccepted` | api/preprocessing/threshold.py:43-53 | C is never constrained: success for one C means success for every C |
| `Deskew.CorrectionAngle` | api/preprocessing/deskew.py:46-49 | the correction is -(90 + a) below -45 degrees, and -a otherwise |
| `Deskew.CorrectionInRange` | api/preprocessing/deskew.py:43-49 | for a reported angle in [-90, 0] (the `minAreaRect` convention before OpenCV 4.5.1) the correction lies in (-45, 45]; for one in (0, 90] (4.5.1 and later) it is the negated angle, in [-90, 0) |
| `Deskew.Deskew` | api/preprocessing/deskew.py:25-64 | success iff a 2-D array; a page with no foreground is returned unchanged; otherwise the image is rotated by the folded angle about (w // 2, h // 2) into (w, h), so the shape is kept |
| `Deskew.FloorDiv` | api/preprocessing/deskew.py:52 | Python's `//`: the quotient q satisfies q·b <= a < q·b + b |
| `Resize.Trunc` | api/preprocessing/resize.py:43 | `int(x)` truncates toward zero |
| `Resize.ResizeToOcr` | api/preprocessing/resize.py:27-49 | guard errors first. Success iff a 2-D array that is at the target width or has a non-zero width and a positive target and new height. At the target width the image is returned unchanged; width 0 divides by zero; a target or new height that is not positive makes `cv2.resize` raise; otherwise the result is the target width, the truncated proportional height (positive) and the chosen interpolation |
| `Resize.ResizeIdempotent` | api/preprocessing/resize.py:38-43 | resizing a resized image changes nothing |
| `Resize.NewHeightIsFloorDivision` | api/preprocessing/resize.py:41-43 | in exact arithmetic the new height is `h * target // w` for non-negative sizes |
| `Resize.DownscaleShrinksHeight` | api/preprocessing/resize.py:41-43 | when target < w the new height is between 0 and h |
| `Resize.CubicIffUpscaling` | api/preprocessing/resize.py:45 | cubic interpolation exactly when target > w, area otherwise |
| `Pipeline.Resolve` | api/preprocessing/pipeline.py:10-14 | each keyword argument takes the given value, else its default (3, 2.0, (8, 8), 11, 2, 2480) |
| `Pipeline.Preprocess` | api/preprocessing/pipeline.py:41-63 | the six stages in source order, the first stage that raises ending the pipeline with its error; `PipelineStageOrder`, `PipelineOutputShape`, `GrayscaleErrorFirst`, `KernelCheckedAfterGrayscale` and `StageErrorsInOrder` state how its output is built, its shape and the order of its errors |
| `Pipeline.PipelineStageOrder` | api/preprocessing/pipeline.py:41-63 | a successful output is, from the inside out: the input (or its gray conversion), median blur, CLAHE, threshold, an optional rotation and an optional resize. Each parameter goes to its own stage |
| `Pipeline.PipelineOutputShape` | api/preprocessing/pipeline.py:60-63 | a successful output is 2-D and exactly `target_width` wide |
| `Pipeline.GrayscaleErrorFirst` | api/preprocessing/pipeline.py:41-45 | an input grayscale rejects fails with grayscale's error whatever the parameters |
| `Pipeline.KernelCheckedAfterGrayscale` | api/preprocessing/pipeline.py:41-45 | a bad kernel is reported once grayscale succeeded, before any later parameter |
| `Pipeline.FourChannelsFailInGrayscale` | api/preprocessing/pipeline.py:41-45 | a 4-channel image with an even kernel fails in grayscale |
| `Pipeline.StageErrorsInOrder` | api/preprocessing/pipeline.py:44-61 | with a valid kernel the clip-limit error comes next, then the block-size error; with all three valid the pipeline succeeds or fails only in resize (its division or `cv2.resize`) |
| `PreprocessingProfiles.ProfilesAreValid` | api/preprocessing/preprocessing_profiles.py:1-20 | three profiles in retry order. Each passes the kernel, clip-limit and block-size checks and runs with block size 11, tile grid (8, 8) and width 2480 |
| `PreprocessingProfiles.ProfilesNonEmpty` | api/preprocessing/preprocessing_profiles.py:1-20 | the list is non-empty, as the retry loop needs |
| `PreprocessingProfiles.ResolvedProfiles` | api/preprocessing/preprocessing_profiles.py:1-20 | the full parameters each profile runs with |
| `QualityScore.MeanArea` | api/quality/quality_score.py:40-43 | the mean component area times the count is the total area; with no components it is 0 |
| `QualityScore.SubScoresOf` | api/quality/quality_score.py:49-52 | the four threshold tests: ratio in [0.02, 0.35] with both ends included, at least 30 components, mean area at least 15, variance at least 50. `RatioTestByCrossMultiplication`, `NoComponentsNoAreaScore`, `StatusTable` and `StatusMonotone` state what they decide |
| `QualityScore.WeightedScore` | api/quality/quality_score.py:54 | the score is in [0, 100] hundredths; 100 iff every sub-score is 1, 0 iff none is |
| `QualityScore.Classify` | api/quality/quality_score.py:56-61 | pass iff score >= 75 hundredths, fail iff score < 45 |
| `QualityScore.ComputeQualityScore` | api/quality/quality_score.py:24-72 | None, a non-array and non-2-D raise; zero pixels divide by zero; a report exactly for a 2-D image with a non-zero pixel count. A report has the exact ratio, count, mean area and variance, the weighted score of their sub-scores and its classification |
| `QualityScore.ForegroundRatioInUnitInterval` | api/quality/quality_score.py:30-32 | the foreground ratio lies in [0, 1] |
| `QualityScore.RatioTestByCrossMultiplication` | api/quality/quality_score.py:49 | 0.02 <= fg/total <= 0.35 iff 2·total <= 100·fg <= 35·total |
| `QualityScore.NoComponentsNoAreaScore` | api/quality/quality_score.py:40-51 | with no components the area sub-score is 0 |
| `QualityScore.StatusTable` | api/quality/quality_score.py:49-61 | pass iff fg and at least two others are 1; fail iff at most one sub-score is 1 or exactly area and blur are |
| `QualityScore.StatusMonotone` | api/quality/quality_score.py:49-61 | turning any sub-score from 0 to 1 never lowers the score or worsens the status |
| `OcrBase.NewRequest` | api/ocr/base.py:32-45 | missing options become `{}`; the other fields are kept |
| `OcrBase.NewPageResult` | api/ocr/base.py:62-75 | falsy tables become `[]`, missing fields `{}`; the other fields are kept |
| `OcrBase.ProviderApiKey` | api/ocr/base.py:123-126 | the explicit key when truthy, else the environment's; when neither is set, the missing-key error |
| `OcrBase.FormData` | api/ocr/base.py:170-182 | the form has `action`, `extractor_id` and `webhook_url` only when truthy, and every option; options override |
| `OcrBase.Submit` | api/ocr/base.py:153-217 | missing file first, then an extractor request without an id; only then is the form posted. A non-201 answer, a non-object body and a falsy `id` (the missing-document-id error) raise; success gives the job with the local id, the provider name and `id` |
| `OcrBase.EmptyIdRejected` | api/ocr/base.py:203-205 | an empty or missing `id` is rejected |
| `OcrBase.GetStatus` | api/ocr/base.py:223-250 | a 200 object answer is PROCESSED iff `status` is "processed", otherwise PROCESSING; a 200 answer whose body is not an object raises the malformed-payload error; every other code raises; QUEUED and FAILED never occur |
| `OcrBase.FailedReportedAsProcessing` | api/ocr/base.py:239-244 | a "failed" or "queued" status reads as PROCESSING |
| `ResultNormalizer.PageSource` | api/ocr/base.py:284-289 | the page source: a truthy `results`, else a truthy `pages`, else the payload as its only page when it has a page key, else `[]`; `ResultsPreferredOverPages`, `PagesWhenResultsFalsy`, `NoPageKeysNoPages` and `ImplicitSinglePage` state each case |
| `ResultNormalizer.PageFields` | api/ocr/base.py:303-319 | a page's fields: the `fields` dict, then the key-value pairs, then the extractions; `PageFieldsAsOneLoop`, `ExtractionsWin`, `PairsBeatFields`, `FieldsDictOtherwise` and `WalkablePageNeverRaises` state the override order and when it does not raise |
| `ResultNormalizer.NormalizeEntry` | api/ocr/base.py:292-329 | the page for one entry; `NormalizedPageFields` states its page number, text, tables, confidence and fields |
| `ResultNormalizer.Normalize` | api/ocr/base.py:277-335 | a 200 payload normalised page by page; `NormalizeUnfolds`, `NormalizeKeepsJobAndPayload`, `PageNumbersAreTruthy` and `WalkablePayloadNeverRaises` state its shape |
| `ResultNormalizer.FetchSpec` | api/ocr/base.py:268-335 | `fetch_result` as a function of the answer; `FetchStatusCodes` states its status codes |
| `ResultNormalizer.PageEntries` | api/ocr/base.py:291 | a list page source yields one entry per element, in order |
| `ResultNormalizer.Install` | api/ocr/base.py:305-306 | `fields.update(v)` on `{}` installs exactly the dict's keys and values; a non-dict raises |
| `ResultNormalizer.ApplyEntriesLoop` | api/ocr/base.py:309-312 | the key-value loop computes the entry-loop specification |
| `ResultNormalizer.ApplyGroupsLoop` | api/ocr/base.py:315-319 | the nested extraction loops compute the group-loop specification |
| `ResultNormalizer.CollectFields` | api/ocr/base.py:303-319 | the three field sources computed in order equal the page-fields specification |
| `ResultNormalizer.NormalizePage` | api/ocr/base.py:292-329 | one loop iteration computes the page specification for the entry |
| `ResultNormalizer.NormalizeStep` | api/ocr/base.py:291-329 | a raising entry ends the page list with its error; a normalised page joins those already gathered |
| `ResultNormalizer.NormalizeAll` | api/ocr/base.py:280-329 | the page loop computes the page-list specification |
| `ResultNormalizer.FetchResult` | api/ocr/base.py:252-335 | the method computes the fetch specification: 202 and other non-200 codes raise, then the payload is normalised |
| `NormalizerProperties.NormalizePagesShape` | api/ocr/base.py:291-329 | the page list succeeds iff every entry succeeds; it has one page per entry, in order, numbered by position |
| `NormalizerProperties.NormalizeUnfolds` | api/ocr/base.py:277-335 | a normalised result is the page loop over the entries of the page source, with the job id and payload |
| `NormalizerProperties.NormalizeKeepsJobAndPayload` | api/ocr/base.py:291-335 | the result keeps the local job id and the raw payload; page i is entry i's page, numbered i + 1 |
| `NormalizerProperties.NormalizedPageFields` | api/ocr/base.py:293-327 | the page number is the entry's truthy `page_number` or its position; text is `transcript or text`; tables are the entry's `tables` when truthy and `[]` otherwise; a non-dict entry is the default page |
| `NormalizerProperties.PageNumbersAreTruthy` | api/ocr/base.py:293 | every page of a result has a truthy page number |
| `NormalizerProperties.ResultsPreferredOverPages` | api/ocr/base.py:284 | a truthy `results` is the page source |
| `NormalizerProperties.PagesWhenResultsFalsy` | api/ocr/base.py:284 | a falsy `results` falls through to a truthy `pages` |
| `NormalizerProperties.FetchStatusCodes` | api/ocr/base.py:268-277 | 202 is still processing, any other code but 200 is a failed fetch with its code, a 200 non-object body is malformed, and only a 200 object answer is normalised |
| `NormalizerProperties.NoPageKeysNoPages` | api/ocr/base.py:284-289 | no page array and no page key give zero pages |
| `NormalizerProperties.ImplicitSinglePage` | api/ocr/base.py:286-289 | no page array but a page key present (even with an empty value) gives exactly one page, the payload itself |
| `NormalizerProperties.NonIterablePageSource` | api/ocr/base.py:284-291 | a non-zero number as `results` raises rather than giving no pages |
| `NormalizerProperties.ApplyEntriesSucceeds` | api/ocr/base.py:309-312 | the entry loop raises iff some entry is not a dict or has an unhashable truthy key |
| `NormalizerProperties.ApplyEntriesLastWins` | api/ocr/base.py:309-312 | a key is present iff it was or some entry writes it; the last writer decides its value; unwritten keys keep theirs |
| `NormalizerProperties.ApplyEntriesConcat` | api/ocr/base.py:309-319 | the entry loop over a + b is the loop over a, then over b |
| `NormalizerProperties.ApplyGroupsFlattens` | api/ocr/base.py:315-319 | the nested extraction loops are one entry loop over all groups' entries in order |
| `NormalizerProperties.PageFieldsAsOneLoop` | api/ocr/base.py:303-319 | a page's fields are one entry loop over pairs then extractions, started from the `fields` dict |
| `NormalizerProperties.ExtractionsWin` | api/ocr/base.py:314-319 | the last extraction that writes a key decides it |
| `NormalizerProperties.PairsBeatFields` | api/ocr/base.py:308-312 | without an extraction for a key, the last key-value pair writing it decides it |
| `NormalizerProperties.FieldsDictOtherwise` | api/ocr/base.py:304-306 | a key no pair or extraction writes is present iff the `fields` dict has it, with its value |
| `NormalizerProperties.ApplyGroupsSucceeds` | api/ocr/base.py:315-319 | groups that are lists of walkable entries never raise |
| `NormalizerProperties.WalkablePageNeverRaises` | api/ocr/base.py:303-319 | a page whose field sources have the documented shapes always yields its fields |
| `NormalizerProperties.WalkablePayloadNeverRaises` | api/ocr/base.py:284-329 | a page array of walkable dicts or non-dicts always normalises, one page per element |
| `NormalizerProperties.TranscriptExample` | api/ocr/base.py:291-329 | `{"results":[{"transcript":"hello","page_number":5}]}` gives one page, number 5, text "hello" |
| `NormalizerProperties.TopLevelTextExample` | api/ocr/base.py:288-289 | `{"text":"hi"}` is page 1 with text "hi" |
| `NormalizerProperties.InstallSingleton` | api/ocr/base.py:305-306 | installing `{name: v}` gives `{name: v}` |
| `NormalizerProperties.PairOverridesFieldsDict` | api/ocr/base.py:303-312 | `fields={name: before}` plus the pair `name -> after` gives `{name: after}` |
| `NormalizerProperties.BadExtractionExample` | api/ocr/base.py:315-319 | an extraction entry that is not a dict makes the page's field collection raise |
| `ProcessDocuments.RetryOver` | api/utils/process_documents.py:42-53 | the retry over the profiles' outcomes; `RetryReturnsFirstPass`, `RetryFallsBackToLast`, `RetryPropagatesErrors` and `RetryPassesIffSomeProfilePasses` state its result |
| `ProcessDocuments.Attempts` | api/utils/process_documents.py:44-46 | one outcome per profile, in list order |
| `ProcessDocuments.PreprocessWithRetry` | api/utils/process_documents.py:37-53 | the loop computes the retry specification over the profiles' outcomes |
| `ProcessDocuments.RetryReturnsFirstPass` | api/utils/process_documents.py:44-49 | the first passing profile's outcome is returned; later profiles do not matter |
| `ProcessDocuments.RetryFallsBackToLast` | api/utils/process_documents.py:51-53 | with no pass and no exception, the last profile's image and report are returned |
| `ProcessDocuments.RetryPropagatesErrors` | api/utils/process_documents.py:44-46 | an exception before any pass ends the retry with that error |
| `ProcessDocuments.RetryPassesIffSomeProfilePasses` | api/utils/process_documents.py:42-53 | the retry passes iff some profile passes with every earlier one scored |
| `ProcessDocuments.GateFrom` | api/utils/process_documents.py:70-81 | the gate over the pages; `GateKeepsEveryPage` and `GateRejectsFirstFailure` state when it passes, what it keeps and which page it rejects |
| `ProcessDocuments.GateStep` | api/utils/process_documents.py:72-81 | a page that is not kept ends the gate with its error; a kept page joins the processed ones |
| `ProcessDocuments.GatePage` | api/utils/process_documents.py:73-81 | one page: the retry's exception, the rejection of a failed page with its number and metrics, or its image |
| `ProcessDocuments.GatePages` | api/utils/process_documents.py:70-81 | the gate loop computes the gate specification |
| `ProcessDocuments.GateKeepsEveryPage` | api/utils/process_documents.py:72-81 | the gate passes iff every page is kept (warned pages included), and then holds each page's processed image in order |
| `ProcessDocuments.GateRejectsFirstFailure` | api/utils/process_documents.py:75-79 | the first failing page is rejected with its 1-based number and metrics |
| `ProcessDocuments.PollFrom` | api/utils/process_documents.py:101-112 | the polling loop with its events; `PollCounts`, `PollSucceedsIff`, `PollFailsIff`, `FailedStatusEndsPoll` and `PollTimesOut` state how it ends and what it does |
| `ProcessDocuments.Poll` | api/utils/process_documents.py:101-112 | the loop computes the polling specification, events included |
| `ProcessDocuments.PollCounts` | api/utils/process_documents.py:17-18 | at most 60 checks. Timeout iff all 60 statuses are waiting, and then 60 checks and 120 seconds slept; otherwise a sleep after every check but the last. Success reports its check count |
| `ProcessDocuments.PollSucceedsIff` | api/utils/process_documents.py:101-105 | the poll succeeds after n checks iff the n-th status is PROCESSED and every earlier one waiting |
| `ProcessDocuments.PollFailsIff` | api/utils/process_documents.py:101-108 | the poll ends with the job-failed error (not a timeout) iff some status within the sixty fails and every earlier one is waiting |
| `ProcessDocuments.FailedStatusEndsPoll` | api/utils/process_documents.py:101-110 | a FAILED status after n waiting ones ends the poll with the job-failed error after n + 1 checks and n sleeps of two seconds |
| `ProcessDocuments.PollNeverSeesFailure` | api/utils/process_documents.py:107-108 | with statuses from `get_status` the poll never ends in the job-failed error |
| `ProcessDocuments.PollEventsAreChecksAndSleeps` | api/utils/process_documents.py:101-110 | the poll only checks and sleeps |
| `ProcessDocuments.PollTimesOut` | api/utils/process_documents.py:101-112 | sixty waiting statuses time out after 60 checks and 120 seconds |
| `ProcessDocuments.Written` | api/utils/process_documents.py:94-95 | one write per processed page, numbered from 1, in order |
| `ProcessDocuments.Prepare` | api/utils/process_documents.py:61-84 | existence, loading, the empty document, the gate and the provider's API key, in order; `AdmissionOrder` and `RejectedPageStopsEverything` state the order and the errors |
| `ProcessDocuments.Admit` | api/utils/process_documents.py:61-87 | `Prepare`, then the table-support check; `TablesAlwaysSupported` and `NothingHappensUnlessAdmitted` state its effect |
| `ProcessDocuments.RemoteWork` | api/utils/process_documents.py:97-115 | submit, poll, fetch, with their events; `RemoteWorkLeavesDirectoryAlone` and `RemoteWorkTimesOut` state what it does |
| `ProcessDocuments.Run` | api/utils/process_documents.py:56-118 | the whole orchestration with its trace; `CleanupAlwaysLast`, `SuccessMeansProcessedAndFetched`, `NothingHappensUnlessAdmitted` and `TimeoutAfterTwoMinutes` state what it guarantees |
| `ProcessDocuments.Admission` | api/utils/process_documents.py:61-87 | the checks before any side effect compute the admission specification |
| `ProcessDocuments.WritePages` | api/utils/process_documents.py:94-95 | the write loop produces those writes |
| `ProcessDocuments.SubmitPollFetch` | api/utils/process_documents.py:97-115 | submit, poll and fetch compute the remote-work specification |
| `ProcessDocuments.ProcessDocument` | api/utils/process_documents.py:56-118 | the orchestration computes `Run`: result and trace |
| `ProcessDocuments.NothingHappensUnlessAdmitted` | api/utils/process_documents.py:61-91 | the trace is empty iff the document is not admitted, and then the run fails with the admission error |
| `ProcessDocuments.AdmissionOrder` | api/utils/process_documents.py:61-87 | a missing file, a load error, zero pages, a gate rejection and an unsupported table request each fail with their own error and no side effect, in that order; an admitted document had a readable, non-empty page list, passed the gate and found an API key |
| `ProcessDocuments.RejectedPageStopsEverything` | api/utils/process_documents.py:72-98 | a rejected page means nothing is written or submitted, and the run fails with that page's rejection |
| `ProcessDocuments.TablesAlwaysSupported` | api/utils/process_documents.py:86-87 | with the handwriting provider's capabilities (all supported) the table check never rejects |
| `ProcessDocuments.RemoteWorkLeavesDirectoryAlone` | api/utils/process_documents.py:97-115 | submit, poll and fetch neither create nor remove the directory |
| `ProcessDocuments.FramedTrace` | api/utils/process_documents.py:90-118 | creation, the page writes, other work, then removal, is a framed trace |
| `ProcessDocuments.CleanupAlwaysLast` | api/utils/process_documents.py:90-118 | once admitted, the directory is created first, the pages are written in order, and the directory is removed exactly once, last, whatever fails |
| `ProcessDocuments.SuccessMeansProcessedAndFetched` | api/utils/process_documents.py:98-115 | a run that succeeds was admitted, submitted and processed, and its result is the fetch for the job id, fetched just before cleanup |
| `ProcessDocuments.ProcessingAnswersWait` | api/ocr/base.py:239-244 | answers still processing read as waiting statuses, and none reads as a timeout |
| `ProcessDocuments.RemoteWorkTimesOut` | api/utils/process_documents.py:101-112 | sixty processing answers end the remote work in a timeout, after 60 checks and 120 seconds, with no fetch |
| `ProcessDocuments.TimeoutAfterTwoMinutes` | api/utils/process_documents.py:90-118 | sixty processing answers make the run time out with 60 checks and 120 seconds of sleep |

Proof helpers with no source counterpart have no row: `Resize.MulMonotone`, `QualityScore.ScaleByPositive`, `QualityScore.CompareToRatio`, `NormalizerProperties.SingleEntryPages`, `NormalizerProperties.LastWriterOfSuffix`, `NormalizerProperties.LastWriterOfPrefix`, `NormalizerProperties.NoWriterInConcat`, `ProcessDocuments.StepCounts`, `ProcessDocuments.CountsConcat` and `ProcessDocuments.Uncounted`.

## Left out

- HTTP transport is not modelled. Each answer is an input holding a status code and its decoded JSON body. This covers `requests`, headers, timeouts, the URL and `response.text` in messages.
- A body that is not JSON is not modelled: `response.json()` raising does not occur in the model.
- Loading `.env` is replaced by an optional environment key. `uuid4` is replaced by the job id in the `World`.
- `submit` opening the file is not modelled, so an open that fails is not covered.
- `_load_images` is replaced by its outcome, the loaded pages or an error:
  - the extension dispatch is not modelled;
  - neither is `cv2.imread`;
  - `api/pdf/extract_pages.py` (PDF rasterisation) is not part of this model.
- OpenCV and NumPy internals are not modelled: the conversions, filters, CLAHE, threshold, `minAreaRect`, `warpAffine`, `resize`, connected components and the Laplacian.
  - Images are symbolic and carry only their shape.
  - Whether a page has foreground, the rectangle angle and the scorer's statistics come from the `Vision` input.
  - The thresholded image being two-level is recorded as the value 255 passed to the call, not proved of pixels.
- Floating point is idealised: the model uses exact arithmetic.
  - The composite score is exact integer hundredths. Worked by hand in IEEE-754 double arithmetic, the sixteen weight sums fall on the same side of 0.75 and 0.45 as the exact sums.
  - The ratio and the mean area are exact reals.
  - `round()` of the reported score and metrics is not modelled; the report holds the unrounded values.
- `Resize.ResizeToOcr`: the height is the truncation of the exact product `h * (target / w)`. The program's float product can fall just below a whole-number quotient, at ordinary page sizes, and its height is then one less: h=1428, w=1020, target=2480 gives 3471 in binary floating point and 3472 in the model. `Resize.NewHeightIsFloorDivision` holds only in exact arithmetic.
- OpenCV calls other than `cv2.resize` never fail in the model. In the program an empty image (a zero side) makes `cvtColor`, `medianBlur`, CLAHE and `adaptiveThreshold` raise `cv2.error`; the model passes it through, so `Pipeline.PipelineOutputShape` can describe a zero-height output that the program would not produce.
- `QualityScore.ForegroundRatioInUnitInterval`: the `Vision` input does not bound the foreground count by H·W, so the ratio's range is proved only under that bound, not for every report.
- Python's dict insertion order is not modelled. It affects only the order of keys in `fields` and in the form data.
- `QualityScore.ComputeQualityScore`: a non-array argument is the model's not-an-array error. Python raises `AttributeError` there, and a ValueError for both None and a non-2-D array; the model gives those two different errors.
- Python treats `True`, `1` and `1.0` as the same dict key. The model keeps them as different keys.
- `ResultNormalizer.Install`: a truthy `fields` value that is not a dict is modelled as an error. Python's `dict.update` would also accept an iterable of pairs.
- `Denoise.MedianDenoise`: the kernel size is an `int`, so `isinstance(ksize, int)` rejecting a float or other non-int kernel is not modelled.
- The directory creation, page writes, upload, sleeps and removal are trace events:
  - an `OSError` from any of them is not modelled;
  - the temporary directory's name is not modelled;
  - the real waiting is not modelled.
- The file check in `submit` reads the same `fileExists` as the first check, so a file deleted between the two checks is not modelled.
- The abstract `OCRProvider` base class adds no behaviour and is not modelled.
- `api/v1/routes` (FastAPI glue) and `test.py` (a script that calls the live service) are not part of this model.
