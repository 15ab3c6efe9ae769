/**
 * The `useInference` hook of src/hooks/useInference.ts: the three pieces of
 * React state a request goes through, the worker reference, and the messages
 * posted to the worker. React's scheduling is left out: each state setter
 * takes effect at once.
 */
module InferenceHook {
  import opened Wrappers
  import InferenceWorker

  /** The requests the hook posts to the worker. */
  datatype Request = InitRequest | ProcessRequest(imageSrc: string, maskSrc: string)

  /**
   * A message as it arrives from the worker: its `type`, and its `payload` and
   * `error` properties, `None` where the message has none.
   */
  datatype Event = Event(kind: string, payload: Option<seq<real>>, error: Option<string>)

  /** The wire form of a worker message. */
  function Encode(m: InferenceWorker.WorkerMessage): (e: Event)
    ensures e.kind in {"init-done", "result", "error"}
  {
    match m
    case InitDone => Event("init-done", None, None)
    case Result(p) => Event("result", Some(p), None)
    case Error(msg) => Event("error", None, Some(msg))
  }

  const FatalError := "A fatal error occurred in the Web Worker."

  /** The hook's state: the three state variables, whether the worker exists, and what it has been sent. */
  datatype HookState = HookState(isProcessing: bool, resultImage: Option<seq<real>>, error: Option<string>,
                                 hasWorker: bool, posted: seq<Request>)

  /** A request in flight has neither a result nor an error yet. */
  predicate Pending(st: HookState) {
    st.isProcessing ==> st.resultImage.None? && st.error.None?
  }

  /** The state after `processImage(imageSrc, maskSrc)` (useInference.ts:42-51). */
  function Requested(st: HookState, imageSrc: string, maskSrc: string): HookState {
    if !st.hasWorker then st
    else st.(isProcessing := true, error := None, resultImage := None,
             posted := st.posted + [ProcessRequest(imageSrc, maskSrc)])
  }

  /** The state after the worker's `onmessage` handler sees `e` (useInference.ts:15-26). */
  function Received(st: HookState, e: Event): HookState {
    if e.kind == "result" then st.(resultImage := e.payload, isProcessing := false)
    else if e.kind == "error" then st.(error := e.error, isProcessing := false)
    else st
  }

  /** The state after the worker's `onerror` handler (useInference.ts:28-32). */
  function Crashed(st: HookState): HookState {
    st.(error := Some(FatalError), isProcessing := false)
  }

  /** The hook's state as an object with one method per event. */
  class Hook {
    var isProcessing: bool
    var resultImage: Option<seq<real>>
    var error: Option<string>
    var hasWorker: bool
    var posted: seq<Request>

    function State(): HookState
      reads this
    {
      HookState(isProcessing, resultImage, error, hasWorker, posted)
    }

    /** The initial state of the three `useState` calls, before the effect has created the worker (useInference.ts:4-7). */
    constructor()
      ensures State() == HookState(false, None, None, false, [])
    {
      isProcessing := false;
      resultImage := None;
      error := None;
      hasWorker := false;
      posted := [];
    }

    /** The mount effect (useInference.ts:9-35): the worker exists and is asked to load the model. */
    method Mount()
      modifies this
      ensures State() == old(State()).(hasWorker := true, posted := old(posted) + [InitRequest])
    {
      hasWorker := true;
      posted := posted + [InitRequest];
    }

    /** `processImage` (useInference.ts:42-51). */
    method ProcessImage(imageSrc: string, maskSrc: string)
      modifies this
      ensures State() == Requested(old(State()), imageSrc, maskSrc)
    {
      if !hasWorker {
        return;
      }
      isProcessing := true;
      error := None;
      resultImage := None;
      posted := posted + [ProcessRequest(imageSrc, maskSrc)];
    }

    /** The worker's `onmessage` handler (useInference.ts:15-26). */
    method OnMessage(e: Event)
      modifies this
      ensures State() == Received(old(State()), e)
    {
      if e.kind == "result" {
        resultImage := e.payload;
        isProcessing := false;
      } else if e.kind == "error" {
        error := e.error;
        isProcessing := false;
      } else if e.kind == "init-done" {
      }
    }

    /** The worker's `onerror` handler (useInference.ts:28-32). */
    method OnError()
      modifies this
      ensures State() == Crashed(old(State()))
    {
      error := Some(FatalError);
      isProcessing := false;
    }
  }

  /**
   * With a worker, `processImage` starts a request: processing, no error, no
   * result, one `process` request posted with the two sources; without one it
   * changes nothing.
   */
  lemma RequestStarts(st: HookState, imageSrc: string, maskSrc: string)
    ensures st.hasWorker ==>
      var st' := Requested(st, imageSrc, maskSrc);
      && st'.isProcessing && st'.error.None? && st'.resultImage.None?
      && st'.posted == st.posted + [ProcessRequest(imageSrc, maskSrc)]
      && Pending(st')
    ensures !st.hasWorker ==> Requested(st, imageSrc, maskSrc) == st
  {
  }

  /**
   * A `result` sets the result image and ends processing, leaving the error; an
   * `error` sets the error and ends processing, leaving the result image;
   * `init-done` and every other type change nothing.
   */
  lemma MessageTransitions(st: HookState, m: InferenceWorker.WorkerMessage, e: Event)
    ensures m.Result? ==> Received(st, Encode(m)) == st.(resultImage := Some(m.payload), isProcessing := false)
    ensures m.Error? ==> Received(st, Encode(m)) == st.(error := Some(m.error), isProcessing := false)
    ensures m.InitDone? ==> Received(st, Encode(m)) == st
    ensures e.kind != "result" && e.kind != "error" ==> Received(st, e) == st
  {
  }

  /** `onerror` reports the fatal error and ends processing, leaving the result image. */
  lemma CrashSettles(st: HookState)
    ensures Crashed(st).error == Some(FatalError) && !Crashed(st).isProcessing
    ensures Crashed(st).resultImage == st.resultImage && Crashed(st).posted == st.posted
  {
  }

  /** Every transition keeps a request in flight free of results and errors. */
  lemma TransitionsKeepPending(st: HookState, imageSrc: string, maskSrc: string, e: Event)
    requires Pending(st)
    ensures Pending(Requested(st, imageSrc, maskSrc))
    ensures Pending(Received(st, e))
    ensures Pending(Crashed(st))
  {
  }

  /**
   * Nothing stops a second `processImage` while one is in flight: both
   * requests are posted and the state is that of the second.
   */
  lemma NoSingleFlight(st: HookState, a: string, b: string, c: string, d: string)
    requires st.hasWorker
    ensures Requested(Requested(st, a, b), c, d).posted == st.posted + [ProcessRequest(a, b), ProcessRequest(c, d)]
    ensures Requested(Requested(st, a, b), c, d).isProcessing
  {
  }

  /**
   * A request whose worker holds a session and whose inference succeeds ends
   * with the decoded first output as the result image and processing over.
   */
  lemma RequestRoundTrip(st: HookState, imageSrc: string, maskSrc: string,
                                            s: InferenceWorker.Session, fetched: InferenceWorker.Fetched,
                                            run: InferenceWorker.RunOutcome)
    requires st.hasWorker && InferenceWorker.ProcessReply(s, fetched, run).Result?
    ensures var out := run.outputs[InferenceWorker.OutputKey(s)];
            var st' := Received(Requested(st, imageSrc, maskSrc), Encode(InferenceWorker.ProcessReply(s, fetched, run)));
      && st'.resultImage == Some(InferenceWorker.ProcessReply(s, fetched, run).payload)
      && !st'.isProcessing && st'.error.None?
      && |st'.resultImage.value| == 4 * (InferenceWorker.TargetSize * InferenceWorker.TargetSize)
  {
    InferenceWorker.ResultIsDecodedOutput(s, fetched, run);
  }
}
