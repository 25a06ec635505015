/** The analysis workflow of App.tsx: the three pieces of state, the
    `handleAnalyze` handler split at its `await` into a start step and a
    completion step, the "Clear Results" button, and the choice between the
    key-setup notice and the result panel. The model's reply reaches the
    completion step as an outcome supplied from outside. */
module App {

  import opened Wrappers
  import opened Types
  import GeminiService
  import InputPanel
  import OutputPanel

  /** `!API_KEY` is false: the key is defined and not the empty string. */
  predicate KeyPresent(key: Option<string>) {
    key.Some? && key.value != ""
  }

  datatype AppState = AppState(analysisResult: Option<AnalysisResult>, isAnalyzing: bool, apiKeyMissing: bool)

  function Initial(): AppState {
    AppState(None, false, false)
  }

  /** While an analysis is running no result is on display. */
  predicate Consistent(s: AppState) {
    s.isAnalyzing ==> s.analysisResult.None?
  }

  /** A new state and the prompt sent to the model, if a call was made. */
  datatype Transition = Transition(next: AppState, call: Option<string>)

  /** `handleAnalyze` up to its `await`. Without a key it only raises
      `apiKeyMissing`; with one it marks the analysis running, removes the
      old result, and sends the prompt. */
  function Begin(s: AppState, key: Option<string>, data: PatientData): (t: Transition)
    ensures t.call.Some? <==> KeyPresent(key)
    ensures !KeyPresent(key) ==> t.next == s.(apiKeyMissing := true)
    ensures KeyPresent(key) ==>
              && t.next.isAnalyzing && t.next.analysisResult == None
              && t.next.apiKeyMissing == s.apiKeyMissing
              && t.call == Some(GeminiService.Prompt(data))
  {
    if !KeyPresent(key) then Transition(s.(apiKeyMissing := true), None)
    else Transition(AppState(None, true, s.apiKeyMissing), Some(GeminiService.Prompt(data)))
  }

  /** The rest of `handleAnalyze`: on success the result is installed; on
      failure it is left as it was; either way the analysis is over. */
  function Settle(s: AppState, outcome: Result<AnalysisResult, GeminiService.Failure>): (s': AppState)
    ensures !s'.isAnalyzing && s'.apiKeyMissing == s.apiKeyMissing
    ensures outcome.Success? ==> s'.analysisResult == Some(outcome.value)
    ensures outcome.Failure? ==> s'.analysisResult == s.analysisResult
  {
    match outcome
    case Success(r) => AppState(Some(r), false, s.apiKeyMissing)
    case Failure(_) => s.(isAnalyzing := false)
  }

  /** A failed analysis leaves no stale result behind: the old result was
      removed when the analysis started. */
  lemma FailureLeavesNoStaleResult(s: AppState, key: Option<string>, data: PatientData, e: GeminiService.Failure)
    requires KeyPresent(key)
    ensures var s' := Settle(Begin(s, key, data).next, Failure(e));
            s'.analysisResult == None && !s'.isAnalyzing && s'.apiKeyMissing == s.apiKeyMissing
  {
  }

  /** The "Clear Results" button is drawn only while a result is shown. */
  predicate ClearOffered(s: AppState) {
    s.analysisResult.Some?
  }

  /** The clear button drops the result, sends nothing and touches nothing
      else; where it is not offered there is no result to drop. */
  lemma ClearDropsOnlyResult(s: AppState, key: Option<string>)
    ensures Step(s, key, Clear) == Transition(s.(analysisResult := None), None)
  {
  }

  /** What the right-hand panel shows. */
  datatype Screen = KeySetupNotice | Output(view: OutputPanel.View)

  function MainScreen(s: AppState): (sc: Screen)
    ensures sc == KeySetupNotice <==> s.apiKeyMissing
    ensures !s.apiKeyMissing ==> sc == Output(OutputPanel.Render(s.analysisResult, s.isAnalyzing))
  {
    if s.apiKeyMissing then KeySetupNotice else Output(OutputPanel.Render(s.analysisResult, s.isAnalyzing))
  }

  /** What the user or the network can do. `Press` is a press on the submit
      button, which reaches `handleAnalyze` only when the button is enabled;
      `Resolve` is the model call coming back; `Clear` is the clear button. */
  datatype Event =
    | Press(data: PatientData)
    | Resolve(outcome: Result<AnalysisResult, GeminiService.Failure>)
    | Clear

  /** One event. A prompt goes out exactly for an enabled press with a key,
      and it is that press's prompt; no event breaks "no result while
      running". */
  function Step(s: AppState, key: Option<string>, e: Event): (t: Transition)
    ensures t.call.Some? <==> e.Press? && InputPanel.SubmitEnabled(s.isAnalyzing, e.data) && KeyPresent(key)
    ensures t.call.Some? ==> t.call == Some(GeminiService.Prompt(e.data))
    ensures Consistent(s) ==> Consistent(t.next)
  {
    match e
    case Press(data) =>
      if InputPanel.SubmitEnabled(s.isAnalyzing, data) then Begin(s, key, data) else Transition(s, None)
    case Resolve(outcome) =>
      // A reply can only arrive for the call in flight.
      if s.isAnalyzing then Transition(Settle(s, outcome), None) else Transition(s, None)
    case Clear =>
      if ClearOffered(s) then Transition(s.(analysisResult := None), None) else Transition(s, None)
  }

  /** The end state of a run, the prompts sent during it, and the number of
      calls that came back during it. */
  datatype Trace = Trace(final: AppState, calls: seq<string>, settled: nat)

  /** The events in order. Each event sends at most one prompt and settles at
      most one call. */
  function Run(s: AppState, key: Option<string>, events: seq<Event>): (r: Trace)
    ensures |r.calls| <= |events| && r.settled <= |events|
    decreases |events|
  {
    if |events| == 0 then Trace(s, [], 0)
    else
      var t := Step(s, key, events[0]);
      var rest := Run(t.next, key, events[1..]);
      Trace(rest.final,
            (if t.call.Some? then [t.call.value] else []) + rest.calls,
            (if events[0].Resolve? && s.isAnalyzing then 1 else 0) + rest.settled)
  }

  /** Every step keeps "no result while running". */
  lemma {:induction false} RunKeepsConsistent(s: AppState, key: Option<string>, events: seq<Event>)
    requires Consistent(s)
    ensures Consistent(Run(s, key, events).final)
    decreases |events|
  {
    if |events| > 0 {
      RunKeepsConsistent(Step(s, key, events[0]).next, key, events[1..]);
    }
  }

  /** Nothing sets `apiKeyMissing` back to false: once the setup notice is
      shown it stays for the rest of the session. */
  lemma {:induction false} KeyMissingIsPermanent(s: AppState, key: Option<string>, events: seq<Event>)
    requires s.apiKeyMissing
    ensures Run(s, key, events).final.apiKeyMissing
    ensures MainScreen(Run(s, key, events).final) == KeySetupNotice
    decreases |events|
  {
    if |events| > 0 {
      KeyMissingIsPermanent(Step(s, key, events[0]).next, key, events[1..]);
    }
  }

  /** Without a key no call is ever attempted and no analysis ever runs. */
  lemma {:induction false} NoKeyNoCall(s: AppState, key: Option<string>, events: seq<Event>)
    requires !KeyPresent(key) && !s.isAnalyzing
    ensures Run(s, key, events).calls == []
    ensures !Run(s, key, events).final.isAnalyzing
    decreases |events|
  {
    if |events| > 0 {
      NoKeyNoCall(Step(s, key, events[0]).next, key, events[1..]);
    }
  }

  /** At most one analysis is in flight: the calls made so far are the ones
      that came back plus, while the busy flag is set, the one outstanding.
      In particular a press while running sends nothing. */
  lemma {:induction false} OneCallInFlight(s: AppState, key: Option<string>, events: seq<Event>)
    ensures var tr := Run(s, key, events);
            |tr.calls| + (if s.isAnalyzing then 1 else 0) == tr.settled + (if tr.final.isAnalyzing then 1 else 0)
    decreases |events|
  {
    if |events| > 0 {
      OneCallInFlight(Step(s, key, events[0]).next, key, events[1..]);
    }
  }

  /** Submitting a case whose call fails: the busy flag drops, no result is
      shown, and the submit button is enabled again for the same record. */
  lemma FailedRunReenablesSubmit(s: AppState, key: Option<string>, data: PatientData, e: GeminiService.Failure)
    requires KeyPresent(key) && !s.isAnalyzing && |data.selectedBodyParts| > 0
    ensures var tr := Run(s, key, [Press(data), Resolve(Failure(e))]);
            && tr.calls == [GeminiService.Prompt(data)]
            && tr.final.analysisResult == None && !tr.final.isAnalyzing
            && InputPanel.SubmitEnabled(tr.final.isAnalyzing, data)
  {
    var es := [Press(data), Resolve(Failure(e))];
    var t1 := Step(s, key, es[0]);
    assert t1 == Begin(s, key, data);
    var t2 := Step(t1.next, key, es[1]);
    assert es[1..] == [Resolve(Failure(e))] && es[1..][1..] == [];
    assert Run(t1.next, key, es[1..]) == Trace(t2.next, [], 1);
    assert Run(s, key, es) == Trace(t2.next, [GeminiService.Prompt(data)], 1);
  }

  /** The session as App.tsx holds it: the key read once at start-up and
      the three state variables. */
  class Session {
    const apiKey: Option<string>
    var analysisResult: Option<AnalysisResult>
    var isAnalyzing: bool
    var apiKeyMissing: bool

    function State(): AppState
      reads this
    {
      AppState(analysisResult, isAnalyzing, apiKeyMissing)
    }

    ghost predicate Valid()
      reads this
    {
      Consistent(State())
    }

    constructor (apiKey: Option<string>)
      ensures this.apiKey == apiKey && State() == Initial() && Valid()
    {
      this.apiKey := apiKey;
      analysisResult := None;
      isAnalyzing := false;
      apiKeyMissing := false;
    }

    /** `handleAnalyze(data)` up to its `await`; the answer is the prompt sent, if any. */
    method HandleAnalyze(data: PatientData) returns (call: Option<string>)
      requires Valid()
      modifies this
      ensures State() == Begin(old(State()), apiKey, data).next
      ensures call == Begin(old(State()), apiKey, data).call
      ensures Valid()
    {
      if !KeyPresent(apiKey) {
        apiKeyMissing := true;
        call := None;
        return;
      }
      isAnalyzing := true;
      analysisResult := None;
      call := Some(GeminiService.Prompt(data));
    }

    /** The `try`/`catch`/`finally` after the `await`, for the call in flight. */
    method CompleteAnalysis(outcome: Result<AnalysisResult, GeminiService.Failure>)
      requires Valid() && isAnalyzing
      modifies this
      ensures State() == Settle(old(State()), outcome)
      ensures outcome.Failure? ==> analysisResult == None
      ensures Valid()
    {
      match outcome {
        case Success(r) =>
          analysisResult := Some(r);
        case Failure(_) =>
      }
      isAnalyzing := false;
    }

    /** "Clear Results": drops the result and touches nothing else. */
    method ClearResults()
      modifies this
      ensures State() == old(State()).(analysisResult := None)
      ensures Valid()
    {
      analysisResult := None;
    }
  }
}
