/** The analysis session of the client's main screen: four pieces of state
    (`image`, `results`, `status`, `errorMessage`) moved between the phases
    Idle, Analyzing, Success and Error by the file-input handler, the
    completion of a file read, the analyze handler and the completion of the
    analyze call. The asynchronous completions are separate events. */
module Session {
  import opened Js
  import opened Types

  /** The fixed message shown when an analysis fails, whatever the cause. */
  const AnalysisFailedMessage: string := "无法分析图片，请稍后重试或更换图片。"

  /** A browser `File` handle; only its identity matters to the session. */
  datatype FileRef = FileRef(name: string)

  /** The value of the four state variables at one moment. */
  datatype Snapshot = Snapshot(
    image: Option<string>,
    results: seq<AnalysisResult>,
    status: AnalysisState,
    errorMessage: Option<string>)

  /** The state the screen starts in. */
  const Initial: Snapshot := Snapshot(None, [], Idle, None)

  /** The first file of an input's (possibly null) file list. */
  function FirstFile(files: Option<seq<FileRef>>): Option<FileRef>
  {
    if files.Some? && |files.value| > 0 then Some(files.value[0]) else None
  }

  // ----- the enabling rules of the three buttons -----

  /** The analyze button: disabled with no (truthy) image or while analysing. */
  predicate AnalyzeButtonDisabled(s: Snapshot)
  {
    !Truthy(s.image) || s.status == Analyzing
  }

  /** The camera button: disabled while analysing. */
  predicate CameraButtonDisabled(s: Snapshot)
  {
    s.status == Analyzing
  }

  /** The gallery button: disabled while analysing. */
  predicate GalleryButtonDisabled(s: Snapshot)
  {
    s.status == Analyzing
  }

  // ----- the transitions, as functions of the state before -----

  /** Choosing a file: back to Idle with no results and no error; the image
      stays until the read completes. */
  function AfterProcessFile(s: Snapshot): Snapshot
  {
    s.(status := Idle, results := [], errorMessage := None)
  }

  /** The read completes: the image becomes the reader's result (null when
      the read failed). */
  function AfterReadComplete(s: Snapshot, result: Option<string>): Snapshot
  {
    s.(image := result)
  }

  /** The analyze handler up to its call: a no-op without an image, else
      Analyzing with error and results cleared. */
  function AfterAnalyzeStart(s: Snapshot): Snapshot
  {
    if !Truthy(s.image) then s
    else s.(status := Analyzing, errorMessage := None, results := [])
  }

  /** The analyze call settles: a returned list becomes the results and the
      status Success; a thrown error sets the fixed message and Error. */
  function AfterAnalyzeSettled(s: Snapshot, outcome: Result<seq<AnalysisResult>>): Snapshot
  {
    match outcome
    case Ok(data) => s.(results := data, status := Success)
    case Err(_) => s.(errorMessage := Some(AnalysisFailedMessage), status := Error)
  }

  /** What the analyze handler hands to the analysis client, if anything. */
  function AnalyzeRequest(s: Snapshot): Option<string>
  {
    if Truthy(s.image) then s.image else None
  }

  // ----- the invariants -----

  /** An error message is present exactly in Error, and it is the fixed one;
      results are present only in Success. */
  predicate Consistent(s: Snapshot)
  {
    && (s.errorMessage.Some? <==> s.status == Error)
    && (s.errorMessage.Some? ==> s.errorMessage.value == AnalysisFailedMessage)
    && (s.results != [] ==> s.status == Success)
  }

  // ----- event sequences -----

  /** Everything that can happen to the session, in the order it happens. */
  datatype Event =
    | FilesChosen(files: Option<seq<FileRef>>)  // a change event on one of the two file inputs
    | ReadCompleted(result: Option<string>)     // the file reader's `onloadend`
    | AnalyzeClicked                            // `handleAnalyze` up to its `await`
    | AnalyzeSettled(outcome: Result<seq<AnalysisResult>>)  // the awaited call returns or throws

  /** The session after one event, with no regard to which buttons are enabled. */
  function Step(s: Snapshot, e: Event): Snapshot
  {
    match e
    case FilesChosen(files) => if FirstFile(files).Some? then AfterProcessFile(s) else s
    case ReadCompleted(result) => AfterReadComplete(s, result)
    case AnalyzeClicked => AfterAnalyzeStart(s)
    case AnalyzeSettled(outcome) => AfterAnalyzeSettled(s, outcome)
  }

  /** The session after a sequence of events, with no regard to the buttons. */
  function RawRun(s: Snapshot, es: seq<Event>): Snapshot
    decreases |es|
  {
    if es == [] then s else RawRun(Step(s, es[0]), es[1..])
  }

  /** The session together with the number of analyze calls still in flight. */
  datatype Ui = Ui(snap: Snapshot, pending: nat)

  /** Whether the screen lets an event happen: the file inputs are opened by
      the camera and gallery buttons, the analyze handler by the analyze
      button, and a call can settle only while one is in flight. */
  predicate Enabled(u: Ui, e: Event)
  {
    match e
    case FilesChosen(_) => !CameraButtonDisabled(u.snap) && !GalleryButtonDisabled(u.snap)
    case ReadCompleted(_) => true
    case AnalyzeClicked => !AnalyzeButtonDisabled(u.snap)
    case AnalyzeSettled(_) => u.pending > 0
  }

  /** One event on the screen; an analyze click that issues a call adds one
      call in flight and a settled call removes one. */
  function Next(u: Ui, e: Event): Ui
  {
    var pending :=
      match e
      case AnalyzeClicked => if AnalyzeRequest(u.snap).Some? then u.pending + 1 else u.pending
      case AnalyzeSettled(_) => if u.pending > 0 then u.pending - 1 else 0
      case _ => u.pending;
    Ui(Step(u.snap, e), pending)
  }

  /** Every event of the sequence is enabled when it happens. */
  predicate Admissible(u: Ui, es: seq<Event>)
    decreases |es|
  {
    es == [] || (Enabled(u, es[0]) && Admissible(Next(u, es[0]), es[1..]))
  }

  /** The screen after a sequence of events. */
  function Run(u: Ui, es: seq<Event>): Ui
    decreases |es|
  {
    if es == [] then u else Run(Next(u, es[0]), es[1..])
  }

  /** The invariant of the screen: the session is consistent, and a call is
      in flight exactly while the status is Analyzing (and then only one). */
  predicate Inv(u: Ui)
  {
    Consistent(u.snap) && u.pending == (if u.snap.status == Analyzing then 1 else 0)
  }

  // ----- lemmas -----

  /** The initial screen satisfies the invariant. */
  lemma InitialInv()
    ensures Inv(Ui(Initial, 0))
  {
  }

  /** Every enabled event keeps the invariant. */
  lemma StepKeepsInv(u: Ui, e: Event)
    requires Inv(u) && Enabled(u, e)
    ensures Inv(Next(u, e))
  {
  }

  /** Every admissible sequence of events keeps the invariant: an error
      message is shown exactly in Error, results only in Success, and no
      second analysis is ever in flight. */
  lemma {:induction false} RunKeepsInv(u: Ui, es: seq<Event>)
    requires Inv(u) && Admissible(u, es)
    ensures Inv(Run(u, es))
    ensures Run(u, es).pending <= 1
    decreases |es|
  {
    if es != [] {
      StepKeepsInv(u, es[0]);
      RunKeepsInv(Next(u, es[0]), es[1..]);
    }
  }

  /** The screen only ever uses the bookkeeping-free transitions: the
      session part of `Run` is `RawRun`. */
  lemma {:induction false} RunIsRawRun(u: Ui, es: seq<Event>)
    ensures Run(u, es).snap == RawRun(u.snap, es)
    decreases |es|
  {
    if es != [] {
      RunIsRawRun(Next(u, es[0]), es[1..]);
    }
  }

  /** Choosing a file resets to Idle with no results and no error and does
      not touch the image; choosing nothing changes nothing. */
  lemma FilesChosenResets(s: Snapshot, files: Option<seq<FileRef>>)
    ensures var t := Step(s, FilesChosen(files));
      if FirstFile(files).Some?
      then t.status == Idle && t.results == [] && t.errorMessage == None && t.image == s.image
      else t == s
  {
  }

  /** Completing a read replaces the image wholesale and nothing else. */
  lemma ReadReplacesImage(s: Snapshot, result: Option<string>)
    ensures Step(s, ReadCompleted(result)) == Snapshot(result, s.results, s.status, s.errorMessage)
  {
  }

  /** With no image, the analyze handler changes nothing and makes no call. */
  lemma AnalyzeWithoutImageIsNoOp(s: Snapshot)
    requires !Truthy(s.image)
    ensures Step(s, AnalyzeClicked) == s
    ensures AnalyzeRequest(s) == None
  {
  }

  /** Running a sequence that starts with `e` is one step, then the rest. */
  lemma RawRunCons(s: Snapshot, e: Event, rest: seq<Event>)
    ensures RawRun(s, [e] + rest) == RawRun(Step(s, e), rest)
  {
    assert ([e] + rest)[1..] == rest;
  }

  /** A complete successful analysis replaces the results by exactly the
      returned list, whatever they were, and keeps the image. */
  lemma AnalysisSuccessReplacesResults(s: Snapshot, data: seq<AnalysisResult>)
    requires Truthy(s.image)
    ensures RawRun(s, [AnalyzeClicked, AnalyzeSettled(Ok(data))])
         == Snapshot(s.image, data, Success, None)
  {
    RawRunCons(s, AnalyzeClicked, [AnalyzeSettled(Ok(data))]);
    RawRunCons(Step(s, AnalyzeClicked), AnalyzeSettled(Ok(data)), []);
  }

  /** A complete failed analysis shows the fixed message, leaves no results
      and keeps the image, whatever the error was. */
  lemma AnalysisFailureShowsFixedMessage(s: Snapshot, err: JsError)
    requires Truthy(s.image)
    ensures RawRun(s, [AnalyzeClicked, AnalyzeSettled(Err(err))])
         == Snapshot(s.image, [], Error, Some(AnalysisFailedMessage))
  {
    RawRunCons(s, AnalyzeClicked, [AnalyzeSettled(Err(err))]);
    RawRunCons(Step(s, AnalyzeClicked), AnalyzeSettled(Err(err)), []);
  }

  /** Analysing the same image twice in a row leaves only the second result
      set: nothing is merged across calls. */
  lemma ReanalysisReplacesResults(s: Snapshot, first: seq<AnalysisResult>, second: seq<AnalysisResult>)
    requires Truthy(s.image)
    ensures RawRun(s, [AnalyzeClicked, AnalyzeSettled(Ok(first)), AnalyzeClicked, AnalyzeSettled(Ok(second))])
         == Snapshot(s.image, second, Success, None)
  {
    var a := [AnalyzeClicked, AnalyzeSettled(Ok(first))];
    var b := [AnalyzeClicked, AnalyzeSettled(Ok(second))];
    assert a + b == [AnalyzeClicked, AnalyzeSettled(Ok(first)), AnalyzeClicked, AnalyzeSettled(Ok(second))];
    RawRunAppend(s, a, b);
    AnalysisSuccessReplacesResults(s, first);
    AnalysisSuccessReplacesResults(Snapshot(s.image, first, Success, None), second);
  }

  /** Running two sequences one after the other is running their concatenation. */
  lemma {:induction false} RawRunAppend(s: Snapshot, a: seq<Event>, b: seq<Event>)
    ensures RawRun(s, a + b) == RawRun(RawRun(s, a), b)
    decreases |a|
  {
    if a != [] {
      assert a + b == [a[0]] + (a[1..] + b);
      RawRunCons(s, a[0], a[1..] + b);
      RawRunAppend(Step(s, a[0]), a[1..], b);
    } else {
      assert a + b == b;
    }
  }

  /** The analyze button is enabled exactly when the handler would issue a
      call and no call is in flight. */
  lemma AnalyzeButtonGuardsTheCall(u: Ui)
    requires Inv(u)
    ensures !AnalyzeButtonDisabled(u.snap) <==> AnalyzeRequest(u.snap).Some? && u.pending == 0
  {
  }

  /** The camera and gallery buttons are disabled exactly while an analyze
      call is in flight. */
  lemma FileButtonsDisabledExactlyWhileCallInFlight(u: Ui)
    requires Inv(u)
    ensures CameraButtonDisabled(u.snap) <==> u.pending > 0
    ensures GalleryButtonDisabled(u.snap) <==> u.pending > 0
  {
  }

  /** The consistency invariant rests on the disabled buttons: if the analyze
      handler is reached twice before the first call settles, and the first
      call fails while the second succeeds, the screen shows Success together
      with the error message. */
  lemma OverlappingAnalysesBreakConsistency(img: string, person: AnalysisResult, err: JsError)
    requires img != ""
    ensures var t := RawRun(Initial, [ReadCompleted(Some(img)), AnalyzeClicked, AnalyzeClicked,
                                      AnalyzeSettled(Err(err)), AnalyzeSettled(Ok([person]))]);
      t.status == Success && t.errorMessage == Some(AnalysisFailedMessage) && !Consistent(t)
  {
    var s1 := Snapshot(Some(img), [], Idle, None);
    var s2 := Snapshot(Some(img), [], Analyzing, None);
    var s4 := Snapshot(Some(img), [], Error, Some(AnalysisFailedMessage));
    var s5 := Snapshot(Some(img), [person], Success, Some(AnalysisFailedMessage));
    RawRunCons(Initial, ReadCompleted(Some(img)),
      [AnalyzeClicked, AnalyzeClicked, AnalyzeSettled(Err(err)), AnalyzeSettled(Ok([person]))]);
    RawRunCons(s1, AnalyzeClicked, [AnalyzeClicked, AnalyzeSettled(Err(err)), AnalyzeSettled(Ok([person]))]);
    RawRunCons(s2, AnalyzeClicked, [AnalyzeSettled(Err(err)), AnalyzeSettled(Ok([person]))]);
    RawRunCons(s2, AnalyzeSettled(Err(err)), [AnalyzeSettled(Ok([person]))]);
    RawRunCons(s4, AnalyzeSettled(Ok([person])), []);
    assert RawRun(s5, []) == s5;
  }

  // ----- the screen's state, updated in place -----

  /** The `<input type="file">` element whose change event is handled. */
  class FileInput {
    var files: Option<seq<FileRef>>
    var value: string

    constructor (files: Option<seq<FileRef>>, value: string)
      ensures this.files == files && this.value == value
    {
      this.files := files;
      this.value := value;
    }
  }

  /** The four state variables of the screen and their handlers. */
  class Session {
    var image: Option<string>
    var results: seq<AnalysisResult>
    var status: AnalysisState
    var errorMessage: Option<string>

    /** The current value of the four variables. */
    function State(): Snapshot
      reads this
    {
      Snapshot(image, results, status, errorMessage)
    }

    constructor ()
      ensures State() == Initial
    {
      image := None;
      results := [];
      status := Idle;
      errorMessage := None;
    }

    /** A change event on a file input: processes the first file if there is
        one, and always clears the input so the same file can be chosen again.
        Setting a file input's value to the empty string also empties its list
        of selected files. */
    method HandleFileChange(input: FileInput) returns (processed: Option<FileRef>)
      modifies this, input
      ensures processed == FirstFile(old(input.files))
      ensures input.value == "" && input.files == Some([])
      ensures State() == Step(old(State()), FilesChosen(old(input.files)))
    {
      processed := FirstFile(input.files);
      if processed.Some? {
        ProcessFile(processed.value);
      }
      input.value := "";
      input.files := Some([]);
    }

    /** Starts reading `file`; the read completes later, in `OnReadComplete`. */
    method ProcessFile(file: FileRef)
      modifies this
      ensures State() == AfterProcessFile(old(State()))
    {
      status := Idle;
      results := [];
      errorMessage := None;
    }

    /** The reader's `onloadend`: the image becomes the reader's result. */
    method OnReadComplete(result: Option<string>)
      modifies this
      ensures State() == Step(old(State()), ReadCompleted(result))
    {
      image := result;
    }

    /** The analyze handler up to its `await`: returns the image handed to the
        analysis client, or nothing when there is no image. */
    method HandleAnalyze() returns (request: Option<string>)
      modifies this
      ensures request == AnalyzeRequest(old(State()))
      ensures State() == Step(old(State()), AnalyzeClicked)
    {
      if !Truthy(image) {
        return None;
      }
      status := Analyzing;
      errorMessage := None;
      results := [];
      request := image;
    }

    /** The rest of the analyze handler, once the awaited call returns or throws. */
    method OnAnalyzeSettled(outcome: Result<seq<AnalysisResult>>)
      modifies this
      ensures State() == Step(old(State()), AnalyzeSettled(outcome))
    {
      match outcome {
        case Ok(data) =>
          results := data;
          status := Success;
        case Err(_) =>
          errorMessage := Some(AnalysisFailedMessage);
          status := Error;
      }
    }
  }
}
