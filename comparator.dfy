/** src/pages/Comparator/index.tsx: the platform benchmark. A non-blank task description
    is benchmarked on the selected platforms (by default Zapier, n8n and Make); any
    platform's entry of the result can be saved to the local-storage vault as a one-step
    blueprint.

    The benchmark call is awaited, so `handleBenchmark` is split into `BeginBenchmark`
    and `FinishBenchmark`. The local-storage vault is the field `vault`, already
    decoded; `crypto.randomUUID()` and `Date.now()` are inputs. */
module Comparator {
  import opened Wrappers
  import opened Types
  import Text

  const DefaultSelection: seq<Platform> := [Zapier, N8n, Make]
  const SavedVersion: string := "1.0.0"

  /** One platform's entry in a `ComparisonResult`. */
  datatype PlatformEntry = PlatformEntry(platform: Platform, complexity: string, pros: seq<string>, cons: seq<string>, config: string)

  datatype ComparisonResult = ComparisonResult(task: string, platforms: seq<PlatformEntry>, recommendation: string)

  /** `${state.data?.task}`: the task, or `undefined` when no result is held. */
  function TaskText(data: Option<ComparisonResult>): string {
    if data.Some? then data.value.task else "undefined"
  }

  /** The record `handleSaveResult` stores for an entry. */
  function BenchmarkRecord(p: PlatformEntry, data: Option<ComparisonResult>, id: string, now: int): (r: SavedBlueprint)
    ensures r.name == "Benchmark - " + Text.ToUpper(PlatformId(p.platform)) && r.version == SavedVersion
    ensures r.result.platform == p.platform && r.result.codeSnippet == Some(p.config)
    ensures Text.StartsWith(r.result.explanation, "Benchmarked: ")
    ensures data.Some? ==> r.result.explanation == "Benchmarked: " + data.value.task
    ensures |r.result.steps| == 1 && r.result.steps[0].id == 1 && r.result.steps[0].stepType == Logic
    ensures r.result.steps[0].description == Text.Join(p.pros, ". ")
    ensures r.id == id && r.result.timestamp == Some(now)
  {
    var step := AutomationStep(1, "Implementation", Text.Join(p.pros, ". "), Logic);
    var result := AutomationResult(p.platform, [step], Some(p.config), "Benchmarked: " + TaskText(data), Some(now), None);
    SavedBlueprint(result, id, "Benchmark - " + Text.ToUpper(PlatformId(p.platform)), SavedVersion)
  }

  /** Everything the page keeps, as one value. */
  datatype Page = Page(
    description: string,
    selectedPlatforms: seq<Platform>,
    state: AsyncState<ComparisonResult>,
    saveSuccess: bool,
    vault: seq<SavedBlueprint>)

  class ComparatorPage {
    var description: string
    var selectedPlatforms: seq<Platform>
    var state: AsyncState<ComparisonResult>
    var saveSuccess: bool
    var vault: seq<SavedBlueprint>

    function Fields(): Page
      reads this
    {
      Page(description, selectedPlatforms, state, saveSuccess, vault)
    }

    constructor(stored: seq<SavedBlueprint>)
      ensures description == "" && selectedPlatforms == DefaultSelection
      ensures state == AsyncState(None, false, None) && !saveSuccess && vault == stored
    {
      description, selectedPlatforms := "", DefaultSelection;
      state, saveSuccess, vault := AsyncState(None, false, None), false, stored;
    }

    method SetDescription(text: string)
      modifies this
      ensures description == text && state == old(state) && vault == old(vault) && selectedPlatforms == old(selectedPlatforms)
      ensures Fields() == old(Fields()).(description := text)
    {
      description := text;
    }

    /** `handleBenchmark` up to the call: a blank description or a running benchmark is
        ignored; otherwise the state is reset to loading. */
    method BeginBenchmark() returns (started: bool)
      modifies this
      ensures started <==> Text.Trim(old(description)) != "" && !old(state).loading
      ensures !started ==> state == old(state)
      ensures started ==> state == AsyncState(None, true, None)
      ensures description == old(description) && vault == old(vault) && selectedPlatforms == old(selectedPlatforms)
      ensures Fields() == old(Fields()).(state := state)
    {
      if Text.Trim(description) == "" || state.loading {
        return false;
      }
      state := AsyncState(None, true, None);
      started := true;
    }

    /** After the call: the comparison, or the error with no data. */
    method FinishBenchmark(call: Outcome<ComparisonResult>)
      modifies this
      ensures call.Resolved? ==> state == AsyncState(Some(call.value), false, None)
      ensures call.Rejected? ==> state == AsyncState(None, false, Some(ApiError(call.message)))
      ensures description == old(description) && vault == old(vault) && selectedPlatforms == old(selectedPlatforms)
      ensures Fields() == old(Fields()).(state := state)
    {
      match call {
        case Resolved(data) =>
          state := AsyncState(Some(data), false, None);
        case Rejected(message) =>
          state := AsyncState(None, false, Some(ApiError(message)));
      }
    }

    /** `handleSaveResult`: one record for the entry at the end of the vault. */
    method SaveResult(p: PlatformEntry, id: string, now: int)
      modifies this
      ensures vault == old(vault) + [BenchmarkRecord(p, old(state).data, id, now)]
      ensures saveSuccess && state == old(state) && description == old(description)
      ensures Fields() == old(Fields()).(vault := vault, saveSuccess := true)
    {
      vault := vault + [BenchmarkRecord(p, state.data, id, now)];
      saveSuccess := true;
    }

    /** The two-second timer after a save. */
    method SaveTimerFired()
      modifies this
      ensures !saveSuccess && vault == old(vault) && state == old(state)
      ensures Fields() == old(Fields()).(saveSuccess := false)
    {
      saveSuccess := false;
    }
  }
}
