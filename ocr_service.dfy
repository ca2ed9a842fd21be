/**
 * `performOCR`: a Tesseract worker is created, recognizes one image and is
 * terminated in a `finally` block, so it is released on every exit path.
 * The worker's operations are capabilities passed in.
 */
module OcrService {
  import opened Wrappers

  newtype byte = x: int | 0 <= x < 256

  /** An error thrown by the OCR library, passed on to the caller as it is. */
  datatype OcrError = OcrError(detail: string)

  /**
   * The OCR library: `createWorker(lang)`, `worker.recognize(image)` (the
   * `data.text` of its result) and `worker.terminate()`, each of which may throw.
   */
  datatype OcrEngine = OcrEngine(
    createWorker: string -> Result<(), OcrError>,
    recognize: seq<byte> -> Result<string, OcrError>,
    terminate: Outcome<OcrError>)

  /** The language every worker is created for. */
  const Language := "eng"

  /** The lifecycle of the local `worker`: not yet assigned, live, or terminated. */
  datatype WorkerState = NoWorker | Live | Terminated

  /** The calls made on the OCR library, in order. */
  datatype WorkerCall = CreateWorker(lang: string) | Recognize(image: seq<byte>) | Terminate

  /** What `performOCR(image)` returns or throws. */
  function OcrOutcome(engine: OcrEngine, image: seq<byte>): (r: Result<string, OcrError>)
    ensures r.Success? <==>
      engine.createWorker(Language).Success? && engine.terminate.Pass? && engine.recognize(image).Success?
    ensures r.Success? ==> engine.recognize(image) == r
  {
    match engine.createWorker(Language)
    case Failure(e) => Failure(e)
    case Success(_) =>
      if engine.terminate.Fail? then Failure(engine.terminate.error)  // a throw in finally wins
      else engine.recognize(image)
  }

  /** The library calls `performOCR(image)` makes, in order. */
  function OcrCalls(engine: OcrEngine, image: seq<byte>): (r: seq<WorkerCall>)
    ensures |r| > 0 && r[0] == CreateWorker(Language)
    ensures Terminate in r <==> engine.createWorker(Language).Success?
    ensures Recognize(image) in r <==> engine.createWorker(Language).Success?
  {
    if engine.createWorker(Language).Failure? then [CreateWorker(Language)]
    else [CreateWorker(Language), Recognize(image), Terminate]
  }

  /** The number of times `c` occurs in `calls`. */
  function Occurrences(calls: seq<WorkerCall>, c: WorkerCall): nat
  {
    if calls == [] then 0 else (if calls[0] == c then 1 else 0) + Occurrences(calls[1..], c)
  }

  /** One invocation of `performOCR`, with the state of its `worker` and the calls it made. */
  class OcrSession {
    var worker: WorkerState
    var calls: seq<WorkerCall>

    constructor ()
      ensures worker == NoWorker && calls == []
    {
      worker := NoWorker;
      calls := [];
    }

    /** No worker is live between invocations. */
    predicate Released()
      reads this
    {
      worker != Live
    }

    method PerformOcr(engine: OcrEngine, image: seq<byte>) returns (r: Result<string, OcrError>)
      modifies this
      ensures r == OcrOutcome(engine, image)
      ensures calls == old(calls) + OcrCalls(engine, image)
      ensures worker == if engine.createWorker(Language).Success? then Terminated else NoWorker
      ensures Released()
    {
      worker := NoWorker;
      var outcome: Result<string, OcrError>;
      // try
      var created := engine.createWorker(Language);
      calls := calls + [CreateWorker(Language)];
      if created.Failure? {
        outcome := Failure(created.error);  // catch: rethrown as it is
      } else {
        worker := Live;
        outcome := engine.recognize(image);  // return result.data.text, or catch: rethrown
        calls := calls + [Recognize(image)];
      }
      // finally
      if worker == Live {
        calls := calls + [Terminate];
        worker := Terminated;
        if engine.terminate.Fail? {
          outcome := Failure(engine.terminate.error);
        }
      }
      r := outcome;
    }
  }

  /** A created worker is terminated exactly once, on success and on failure alike; otherwise never. */
  lemma {:induction false} TerminatedExactlyOnce(engine: OcrEngine, image: seq<byte>)
    ensures Occurrences(OcrCalls(engine, image), Terminate) ==
      if engine.createWorker(Language).Success? then 1 else 0
    ensures Occurrences(OcrCalls(engine, image), CreateWorker(Language)) == 1
  {
    var calls := OcrCalls(engine, image);
    if engine.createWorker(Language).Success? {
      var tail := [Recognize(image), Terminate];
      assert calls[1..] == tail && tail[1..] == [Terminate] && [Terminate][1..] == [];
      assert Occurrences([Terminate], Terminate) == 1;
      assert Occurrences(tail, Terminate) == 1;
      assert Occurrences([Terminate], CreateWorker(Language)) == 0;
      assert Occurrences(tail, CreateWorker(Language)) == 0;
    } else {
      assert calls[1..] == [];
    }
  }

  /** The recognized text is returned unchanged, the empty text included. */
  lemma RecognizedTextReturned(engine: OcrEngine, image: seq<byte>)
    requires engine.createWorker(Language).Success? && engine.terminate.Pass?
    requires engine.recognize(image).Success?
    ensures OcrOutcome(engine, image) == Success(engine.recognize(image).value)
    ensures OcrCalls(engine, image) == [CreateWorker(Language), Recognize(image), Terminate]
  {
  }

  /** When no worker could be created, nothing is terminated and the creation error is rethrown. */
  lemma CreateFailureRethrown(engine: OcrEngine, image: seq<byte>)
    requires engine.createWorker(Language).Failure?
    ensures OcrOutcome(engine, image) == Failure(engine.createWorker(Language).error)
    ensures Occurrences(OcrCalls(engine, image), Terminate) == 0
  {
    TerminatedExactlyOnce(engine, image);
  }

  /** A recognition error is rethrown unchanged, and only after the worker was terminated. */
  lemma RecognizeFailureRethrown(engine: OcrEngine, image: seq<byte>)
    requires engine.createWorker(Language).Success? && engine.terminate.Pass?
    requires engine.recognize(image).Failure?
    ensures OcrOutcome(engine, image) == Failure(engine.recognize(image).error)
    ensures OcrCalls(engine, image)[|OcrCalls(engine, image)| - 1] == Terminate
  {
  }

  /** The outcome of `performOCR` is one of the library's own results; no error of its own is made up. */
  lemma OutcomeFromLibrary(engine: OcrEngine, image: seq<byte>)
    ensures var r := OcrOutcome(engine, image);
      || r == engine.recognize(image)
      || (engine.createWorker(Language).Failure? && r == Failure(engine.createWorker(Language).error))
      || (engine.terminate.Fail? && r == Failure(engine.terminate.error))
  {
  }
}
