/** views/LogicSandboxView.tsx: the simulation sandbox. `handleSimulate` picks the
    blueprint to simulate (the active one if any, else the typed spec parsed as JSON,
    else a two-step stand-in built from the spec's text) and sends it, with the mock
    payload, to the model.

    The call is awaited, so `handleSimulate` is split into `BeginSimulate` and
    `FinishSimulate`. `JSON.parse(automationSpec)` is the input `parsed` (`None` when it
    throws); the simulation response is carried as text. */
module LogicSandbox {
  import opened Wrappers
  import opened Types
  import Text

  const EmptySpec: string := "Please provide an automation blueprint or description first."
  const FallbackExplanation: string := "Simulated from manual sandbox input"
  const SecondStepDescription: string := "Heuristic evaluation of requirements"

  /** The stand-in for a spec that is not JSON: a Zapier blueprint whose trigger step
      carries the spec text and whose second step is a logic step. */
  function Fallback(spec: string): (b: AutomationResult)
    ensures b.platform == Zapier && b.explanation == FallbackExplanation
    ensures |b.steps| == 2
    ensures b.steps[0].id == 1 && b.steps[0].stepType == Trigger && b.steps[0].description == spec
    ensures b.steps[1].id == 2 && b.steps[1].stepType == Logic
    ensures b.codeSnippet.None? && b.timestamp.None?
  {
    AutomationResult(
      Zapier,
      [AutomationStep(1, "Input Parse", spec, Trigger),
       AutomationStep(2, "Logic Simulation", SecondStepDescription, Logic)],
      None, FallbackExplanation, None, None)
  }

  /** The blueprint `handleSimulate` simulates, or `None` when there is nothing to
      simulate (no active blueprint and a blank spec). */
  function Target(active: Option<AutomationResult>, spec: string, parsed: Option<AutomationResult>): (r: Option<AutomationResult>)
    ensures r.None? <==> active.None? && Text.Trim(spec) == ""
    ensures active.Some? ==> r == active
    ensures active.None? && Text.Trim(spec) != "" ==> r == Some(if parsed.Some? then parsed.value else Fallback(spec))
  {
    if active.Some? then active
    else if Text.Trim(spec) == "" then None
    else match parsed
      case Some(b) => Some(b)
      case None => Some(Fallback(spec))
  }

  class SandboxView {
    var automationSpec: string
    var inputData: string
    var simState: AsyncState<string>

    constructor(payload: string)
      ensures automationSpec == "" && inputData == payload && simState == AsyncState(None, false, None)
    {
      automationSpec, inputData, simState := "", payload, AsyncState(None, false, None);
    }

    method SetSpec(text: string)
      modifies this
      ensures automationSpec == text && inputData == old(inputData) && simState == old(simState)
    {
      automationSpec := text;
    }

    /** `handleSimulate` up to the call: with nothing to simulate, only the error is set
        (data and loading kept); otherwise the state is reset to loading. `target` is
        the blueprint sent. */
    method BeginSimulate(active: Option<AutomationResult>, parsed: Option<AutomationResult>) returns (target: Option<AutomationResult>)
      modifies this
      ensures target == Target(active, old(automationSpec), parsed)
      ensures target.None? ==> simState == old(simState).(error := Some(ApiError(EmptySpec)))
      ensures target.Some? ==> simState == AsyncState(None, true, None)
      ensures automationSpec == old(automationSpec) && inputData == old(inputData)
    {
      target := Target(active, automationSpec, parsed);
      if target.None? {
        simState := simState.(error := Some(ApiError(EmptySpec)));
        return;
      }
      simState := AsyncState(None, true, None);
    }

    /** After the call: the response, or the error with no data. */
    method FinishSimulate(call: Outcome<string>)
      modifies this
      ensures call.Resolved? ==> simState == AsyncState(Some(call.value), false, None)
      ensures call.Rejected? ==> simState == AsyncState(None, false, Some(ApiError(call.message)))
      ensures automationSpec == old(automationSpec) && inputData == old(inputData)
    {
      match call {
        case Resolved(response) =>
          simState := AsyncState(Some(response), false, None);
        case Rejected(message) =>
          simState := AsyncState(None, false, Some(ApiError(message)));
      }
    }
  }
}
