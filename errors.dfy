/** The exceptions the modelled code raises, and the Result type that carries them.
    Every `raise` of the source becomes an `Err` with one of these kinds. */
module Errors {

  datatype Option<+T> = None | Some(value: T)

  /** Success with a value, or the exception that ended the computation. */
  datatype Result<+T> = Ok(value: T) | Err(error: Error) {
    predicate IsFailure() { Err? }

    function PropagateFailure<U>(): Result<U>
      requires Err?
    {
      Err(error)
    }

    function Extract(): T
      requires Ok?
    {
      value
    }
  }

  /** The functions of the preprocessing package and the scorer that validate an image. */
  datatype Stage = GrayscaleStage | DenoiseStage | ContrastStage | ThresholdStage
                 | DeskewStage | ResizeStage | QualityStage

  /** What is wrong with a payload the normaliser cannot walk (Python's AttributeError / TypeError). */
  datatype PayloadFault =
    | PayloadNotObject     // `payload.get` on something that is not a dict
    | NotIterable          // a for-loop over a number, a boolean or None
    | EntryNotObject       // `.get` on a list element that is not a dict
    | UnhashableKey        // a list or dict used as a dict key
    | FieldsNotMapping     // `fields.update(...)` with a value that is not a dict

  datatype Error =
    // ValueError raised by the image guards
    | ImageIsNone(stage: Stage)
    | NotAnArray(stage: Stage)
    | UnsupportedShape(stage: Stage, shape: seq<int>)
    | BadKernelSize(ksize: int)
    | BadClipLimit(clipLimit: real)
    | BadBlockSize(blockSize: int)
    // ZeroDivisionError (resize on a zero-width image, scoring an image with no pixels)
    | ZeroDivision(stage: Stage)
    // cv2.error raised inside an OpenCV call (cv2.resize asked for an empty output)
    | CvError(stage: Stage)
    // document loading and the quality gate
    | FileNotFound
    | Unreadable
    | NoReadablePages
    | PageRejected(page: nat, foregroundRatio: real, componentCount: nat,
                   avgComponentArea: real, laplacianVariance: real)
    // the provider client
    | ApiKeyMissing
    | TablesUnsupported
    | MissingExtractorId
    | SubmitFailed(status: int)
    | MissingDocumentId
    | UnexpectedStatusResponse(status: int)
    | StillProcessing
    | FetchFailed(status: int)
    | Malformed(fault: PayloadFault)
    // the polling loop
    | JobFailed
    | PollTimeout
}
