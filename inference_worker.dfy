/**
 * The inference worker of src/lib/inferenceWorker.ts: its module-level
 * `session` and `isInitializing`, `initModel` with its two creation attempts,
 * and the `init` / `process` message handler. Every `await` in `initModel` is
 * a point where another message can run; `BeginInit` and `CompleteInit` are
 * the two halves on either side of it, so a `process` message that arrives in
 * between can be modelled. The outcomes of `ort.InferenceSession.create`, of
 * fetching the two images and of `session.run` are parameters.
 */
module InferenceWorker {
  import opened Wrappers
  import opened TensorCodec
  import FeedMapping

  /** Where the LaMa model is loaded from. */
  const ModelPath := "https://huggingface.co/Carve/LaMa-ONNX/resolve/main/lama_fp32.onnx"

  /** The options passed to `ort.InferenceSession.create`. */
  datatype CreateOptions = CreateOptions(executionProviders: seq<string>, graphOptimizationLevel: string)

  /** Both creation attempts use the WebAssembly backend and every graph optimisation. */
  const WasmOptions := CreateOptions(["wasm"], "all")

  /** One call of `ort.InferenceSession.create`. */
  datatype CreateCall = CreateCall(path: string, options: CreateOptions)

  /** What the worker uses of a loaded session: its input and output names. */
  datatype Session = Session(inputNames: seq<string>, outputNames: seq<string>)

  /**
   * How a creation attempt ends: a session, or a rejection whose `message` and
   * `toString()` are given (an empty string standing for a falsy value).
   */
  datatype CreateOutcome = Created(session: Session) | CreateFailed(message: string, text: string)

  /** The messages the worker posts back. `Result` carries the RGBA bytes of the inpainted image. */
  datatype WorkerMessage = InitDone | Result(payload: seq<real>) | Error(error: string)

  /** How loading the two 512 by 512 inputs ends: their image data, or the message of the rejection. */
  datatype Fetched = Fetched(image: ImageData, mask: ImageData) | FetchFailed(message: string)

  /** How `session.run` ends: the output tensors' data by output name, or the message of the rejection. */
  datatype RunOutcome = RunOk(outputs: map<string, seq<real>>) | RunFailed(message: string)

  /** The side the images are resampled to before inference. */
  const TargetSize := 512

  const LoadErrorPrefix := "Failed to load ONNX model. Reason: "
  const NotInitialized := "Model not initialized."
  const DefaultError := "An error occurred during inference."

  /** The `TypeError` message reading `.data` of a missing output tensor raises. */
  const MissingOutput := "Cannot read properties of undefined (reading 'data')"

  /** `fallbackError?.message || fallbackError?.toString() || "Unknown error"`. */
  function FailureReason(message: string, text: string): (r: string)
    ensures r != ""
    ensures message != "" ==> r == message
    ensures message == "" && text != "" ==> r == text
    ensures message == "" && text == "" ==> r == "Unknown error"
  {
    if message != "" then message else if text != "" then text else "Unknown error"
  }

  /** `error.message || "An error occurred during inference."`. */
  function ErrorText(message: string): (r: string)
    ensures r != ""
    ensures message != "" ==> r == message
    ensures message == "" ==> r == DefaultError
  {
    if message != "" then message else DefaultError
  }

  /** Whether an image data has the 512 by 512 RGBA shape `getImageDataFromURL` returns. */
  predicate TargetShaped(img: ImageData) {
    img.width == TargetSize && img.height == TargetSize && |img.data| == 4 * (TargetSize * TargetSize)
  }

  /** The worker's state: the two module-level fields, the messages posted so far and the creation calls made so far. */
  datatype WorkerState = WorkerState(session: Option<Session>, isInitializing: bool,
                                     outbox: seq<WorkerMessage>, createCalls: seq<CreateCall>)

  /** An initialisation is in progress only while there is no session. */
  predicate Consistent(st: WorkerState) {
    st.isInitializing ==> st.session.None?
  }

  /** Whether `initModel` goes past its guard, on line 14. */
  predicate Starts(st: WorkerState) {
    st.session.None? && !st.isInitializing
  }

  /** The state once `initModel` has passed its guard and set `isInitializing`, up to its first `await`. */
  function Begin(st: WorkerState): WorkerState {
    if Starts(st) then st.(isInitializing := true) else st
  }

  /** The session `initModel`'s two attempts end with. */
  function InitSession(first: CreateOutcome, second: CreateOutcome): Option<Session> {
    if first.Created? then Some(first.session)
    else if second.Created? then Some(second.session)
    else None
  }

  /** The one message `initModel`'s two attempts end with. */
  function InitReply(first: CreateOutcome, second: CreateOutcome): WorkerMessage {
    if first.Created? || second.Created? then InitDone
    else Error(LoadErrorPrefix + FailureReason(second.message, second.text))
  }

  /** The creation calls the attempts make: the second only when the first fails. */
  function Attempts(first: CreateOutcome): seq<CreateCall> {
    if first.Created? then [CreateCall(ModelPath, WasmOptions)]
    else [CreateCall(ModelPath, WasmOptions), CreateCall(ModelPath, WasmOptions)]
  }

  /** The state once the creation attempts of a started `initModel` are over and its `finally` has run. */
  function Complete(st: WorkerState, first: CreateOutcome, second: CreateOutcome): WorkerState {
    WorkerState(InitSession(first, second), false, st.outbox + [InitReply(first, second)], st.createCalls + Attempts(first))
  }

  /** The state after a whole `initModel` (inferenceWorker.ts:13-38) with no message in between. */
  function AfterInit(st: WorkerState, first: CreateOutcome, second: CreateOutcome): WorkerState {
    if Starts(st) then Complete(Begin(st), first, second) else st
  }

  /** The output name whose tensor is postprocessed: `session.outputNames[0]` as a property key. */
  function OutputKey(s: Session): string {
    FeedMapping.Key(FeedMapping.ElementAt(s.outputNames, 0))
  }

  /** The one message a `process` request posts once a session exists (inferenceWorker.ts:142-183). */
  function ProcessReply(s: Session, fetched: Fetched, run: RunOutcome): WorkerMessage {
    match fetched
    case FetchFailed(m) => Error(ErrorText(m))
    case Fetched(_, _) =>
      match run
      case RunFailed(m) => Error(ErrorText(m))
      case RunOk(outputs) =>
        if OutputKey(s) in outputs then
          var out := outputs[OutputKey(s)];
          Result(DecodedImage(out, TargetSize * TargetSize, ScaleOf(out)))
        else Error(MissingOutput)
  }

  /** The state after a whole `process` request (inferenceWorker.ts:133-184). */
  function AfterProcess(st: WorkerState, first: CreateOutcome, second: CreateOutcome,
                        fetched: Fetched, run: RunOutcome): WorkerState {
    var st' := if st.session.None? then AfterInit(st, first, second) else st;
    match st'.session
    case None => st'.(outbox := st'.outbox + [Error(NotInitialized)])
    case Some(s) => st'.(outbox := st'.outbox + [ProcessReply(s, fetched, run)])
  }

  /** The worker's module state as an object whose methods are the handler's steps. */
  class Worker {
    var session: Option<Session>
    var isInitializing: bool
    var outbox: seq<WorkerMessage>
    ghost var createCalls: seq<CreateCall>

    ghost function State(): WorkerState
      reads this
    {
      WorkerState(session, isInitializing, outbox, createCalls)
    }

    ghost predicate Valid()
      reads this
    {
      Consistent(State())
    }

    /** A freshly loaded worker: no session, no initialisation, nothing posted. */
    constructor()
      ensures State() == WorkerState(None, false, [], [])
      ensures Valid()
    {
      session := None;
      isInitializing := false;
      outbox := [];
      createCalls := [];
    }

    /** `initModel` up to its first `await` (inferenceWorker.ts:14-15). */
    method BeginInit() returns (started: bool)
      requires Valid()
      modifies this
      ensures Valid() && State() == Begin(old(State()))
      ensures started == Starts(old(State()))
    {
      if session.Some? || isInitializing {
        return false;
      }
      isInitializing := true;
      started := true;
    }

    /** The rest of a started `initModel`: the two creation attempts, the message and the `finally` (inferenceWorker.ts:16-37). */
    method CompleteInit(first: CreateOutcome, second: CreateOutcome)
      requires Valid() && isInitializing
      modifies this
      ensures Valid() && State() == Complete(old(State()), first, second)
    {
      createCalls := createCalls + [CreateCall(ModelPath, WasmOptions)];
      if first.Created? {
        session := Some(first.session);
        outbox := outbox + [InitDone];
      } else {
        createCalls := createCalls + [CreateCall(ModelPath, WasmOptions)];
        if second.Created? {
          session := Some(second.session);
          outbox := outbox + [InitDone];
        } else {
          var errMsg := FailureReason(second.message, second.text);
          outbox := outbox + [Error(LoadErrorPrefix + errMsg)];
        }
      }
      isInitializing := false;
    }

    /** `initModel` (inferenceWorker.ts:13-38) run to its end with no other message in between. */
    method InitModel(first: CreateOutcome, second: CreateOutcome)
      requires Valid()
      modifies this
      ensures Valid() && State() == AfterInit(old(State()), first, second)
    {
      var started := BeginInit();
      if started {
        CompleteInit(first, second);
      }
    }

    /**
     * The `process` branch of `onmessage` (inferenceWorker.ts:133-184): it makes
     * sure of a session, preprocesses the two images, feeds them under the
     * mapped input names and posts the postprocessed first output, or an error.
     * The ghost `feeds` is the record handed to `session.run`.
     */
    method Process(first: CreateOutcome, second: CreateOutcome, fetched: Fetched, run: RunOutcome)
      returns (ghost feeds: map<string, Tensor>)
      requires Valid()
      requires fetched.Fetched? ==> TargetShaped(fetched.image) && TargetShaped(fetched.mask)
      modifies this
      ensures Valid() && State() == AfterProcess(old(State()), first, second, fetched, run)
      ensures (session.Some? && fetched.Fetched?) ==>
        feeds == FeedMapping.Feeds(session.value.inputNames,
                                   Tensor([1, 3, TargetSize, TargetSize], TensorData(fetched.image, false)),
                                   Tensor([1, 1, TargetSize, TargetSize], TensorData(fetched.mask, true)))
    {
      feeds := map[];
      if session.None? {
        InitModel(first, second);
      }
      if session.None? {
        outbox := outbox + [Error(ErrorText(NotInitialized))];
        return;
      }
      var s := session.value;
      match fetched
      case FetchFailed(m) =>
        outbox := outbox + [Error(ErrorText(m))];
      case Fetched(imgData, maskData) =>
        var imageTensor, maskTensor;
        ghost var imageWrites, maskWrites;
        imageTensor, imageWrites := Preprocess(imgData, false);
        maskTensor, maskWrites := Preprocess(maskData, true);
        feeds := FeedMapping.Feeds(s.inputNames, imageTensor, maskTensor);
        match run
        case RunFailed(m) =>
          outbox := outbox + [Error(ErrorText(m))];
        case RunOk(outputMap) =>
          var key := FeedMapping.Key(FeedMapping.ElementAt(s.outputNames, 0));
          if key !in outputMap {
            outbox := outbox + [Error(MissingOutput)];
          } else {
            var resultData := Postprocess(outputMap[key], TargetSize, TargetSize);
            outbox := outbox + [Result(resultData)];
          }
    }

    /** `self.onmessage` (inferenceWorker.ts:126-186): `init` runs `initModel`, `process` the process branch, anything else nothing. */
    method OnMessage(kind: string, first: CreateOutcome, second: CreateOutcome, fetched: Fetched, run: RunOutcome)
      requires Valid()
      requires fetched.Fetched? ==> TargetShaped(fetched.image) && TargetShaped(fetched.mask)
      modifies this
      ensures Valid()
      ensures State() == if kind == "init" then AfterInit(old(State()), first, second)
                         else if kind == "process" then AfterProcess(old(State()), first, second, fetched, run)
                         else old(State())
    {
      if kind == "init" {
        InitModel(first, second);
      }
      if kind == "process" {
        var _ := Process(first, second, fetched, run);
      }
    }
  }

  /** `initModel` is a no-op while a session exists or another initialisation is in progress. */
  lemma InitGuard(st: WorkerState, first: CreateOutcome, second: CreateOutcome)
    ensures !Starts(st) ==> AfterInit(st, first, second) == st
    ensures Starts(st) ==> Begin(st).isInitializing && Begin(st).session.None? && Begin(st).outbox == st.outbox
  {
  }

  /**
   * A started `initModel` leaves `isInitializing` false, posts exactly one
   * message and makes one or two creation calls, all to the model path with
   * the same options; it ends with a session exactly when it posts `init-done`,
   * and otherwise with an error carrying the load-failure prefix.
   */
  lemma InitOutcome(st: WorkerState, first: CreateOutcome, second: CreateOutcome)
    requires Starts(st)
    ensures var st' := AfterInit(st, first, second);
      && !st'.isInitializing
      && st'.outbox == st.outbox + [st'.outbox[|st.outbox|]]
      && 1 <= |st'.createCalls| - |st.createCalls| <= 2
      && st'.createCalls[..|st.createCalls|] == st.createCalls
      && (forall i :: |st.createCalls| <= i < |st'.createCalls| ==> st'.createCalls[i] == CreateCall(ModelPath, WasmOptions))
      && (st'.session.Some? <==> st'.outbox[|st.outbox|] == InitDone)
      && (st'.session.None? ==> st'.outbox[|st.outbox|].Error?
                                && LoadErrorPrefix <= st'.outbox[|st.outbox|].error)
      && (st'.session.Some? <==> first.Created? || second.Created?)
      && (first.Created? ==> st'.session == Some(first.session))
      && (first.CreateFailed? && second.Created? ==> st'.session == Some(second.session))
      && (first.CreateFailed? && second.CreateFailed? ==>
            st'.outbox[|st.outbox|] == Error(LoadErrorPrefix + FailureReason(second.message, second.text)))
      && (|st'.createCalls| - |st.createCalls| == 2 <==> first.CreateFailed?)
  {
    var st' := AfterInit(st, first, second);
    assert st'.outbox[|st.outbox|] == InitReply(first, second);
  }

  /** A second `init` after a successful one changes nothing: the model is loaded at most once. */
  lemma InitOnce(st: WorkerState, first: CreateOutcome, second: CreateOutcome,
                 first': CreateOutcome, second': CreateOutcome)
    requires !st.isInitializing && InitSession(first, second).Some?
    ensures AfterInit(AfterInit(st, first, second), first', second') == AfterInit(st, first, second)
  {
  }

  /** Every step keeps `isInitializing` only while there is no session. */
  lemma StepsKeepConsistent(st: WorkerState, first: CreateOutcome, second: CreateOutcome,
                            fetched: Fetched, run: RunOutcome)
    requires Consistent(st)
    ensures Consistent(Begin(st))
    ensures Starts(st) ==> Consistent(Complete(Begin(st), first, second))
    ensures Consistent(AfterInit(st, first, second))
    ensures Consistent(AfterProcess(st, first, second, fetched, run))
  {
  }

  /**
   * A `process` request posts exactly one `result` or `error` after whatever its
   * own `initModel` posts: "Model not initialized." when there is still no
   * session, and otherwise the reply to the request.
   */
  lemma ProcessPostsOneReply(st: WorkerState, first: CreateOutcome, second: CreateOutcome,
                             fetched: Fetched, run: RunOutcome)
    ensures var mid := if st.session.None? then AfterInit(st, first, second) else st;
            var st' := AfterProcess(st, first, second, fetched, run);
      && |st'.outbox| == |mid.outbox| + 1 && st'.outbox[..|mid.outbox|] == mid.outbox
      && (var reply := st'.outbox[|mid.outbox|];
          && (reply.Result? || reply.Error?)
          && (mid.session.None? ==> reply == Error(NotInitialized))
          && (mid.session.Some? ==> reply == ProcessReply(mid.session.value, fetched, run)))
      && st'.session == mid.session && st'.isInitializing == mid.isInitializing
  {
  }

  /**
   * A `process` that arrives while another `initModel` is awaiting its first
   * creation attempt finds no session, does not start a second initialisation
   * and fails with "Model not initialized."; the pending initialisation then
   * posts its own message.
   */
  lemma ProcessDuringInit(st: WorkerState, first: CreateOutcome, second: CreateOutcome,
                          first': CreateOutcome, second': CreateOutcome, fetched: Fetched, run: RunOutcome)
    requires Starts(st)
    ensures var during := AfterProcess(Begin(st), first', second', fetched, run);
      && during.outbox == st.outbox + [Error(NotInitialized)]
      && during.createCalls == st.createCalls
      && Complete(during, first, second).outbox == st.outbox + [Error(NotInitialized), InitReply(first, second)]
  {
  }

  /**
   * A `process` on a fresh worker whose own two creation attempts fail posts
   * two errors: the load failure, then "Model not initialized.".
   */
  lemma ProcessAfterFailedLoad(first: CreateOutcome, second: CreateOutcome, fetched: Fetched, run: RunOutcome)
    requires first.CreateFailed? && second.CreateFailed?
    ensures AfterProcess(WorkerState(None, false, [], []), first, second, fetched, run).outbox
            == [Error(LoadErrorPrefix + FailureReason(second.message, second.text)), Error(NotInitialized)]
  {
  }

  /**
   * A `result` carries the decoded first output: 512 by 512 RGBA pixels with
   * every channel in [0, 255] and every alpha 255.
   */
  lemma ResultIsDecodedOutput(s: Session, fetched: Fetched, run: RunOutcome)
    requires ProcessReply(s, fetched, run).Result?
    ensures fetched.Fetched? && run.RunOk? && OutputKey(s) in run.outputs
    ensures var out := run.outputs[OutputKey(s)];
            ProcessReply(s, fetched, run).payload == DecodedImage(out, TargetSize * TargetSize, ScaleOf(out))
    ensures var payload := ProcessReply(s, fetched, run).payload;
      && |payload| == 4 * (TargetSize * TargetSize)
      && forall k :: 0 <= k < |payload| ==> 0.0 <= payload[k] <= 255.0 && (k % 4 == 3 ==> payload[k] == 255.0)
  {
    var out := run.outputs[OutputKey(s)];
    var payload := ProcessReply(s, fetched, run).payload;
    forall k | 0 <= k < |payload|
      ensures 0.0 <= payload[k] <= 255.0 && (k % 4 == 3 ==> payload[k] == 255.0)
    {
      var p, c := k / 4, k % 4;
      assert k == 4 * p + c;
      DecodedImageAt(out, TargetSize * TargetSize, ScaleOf(out), p, c);
    }
  }
}
