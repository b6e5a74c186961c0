/** views/AutomationGeneratorView.tsx: the blueprint generator. A description of at
    least twenty characters (after trimming) may be sent to the model; the blueprint it
    returns is then documented by a second call; a blueprint on screen can be saved,
    under a non-blank name, at the end of the vault kept in local storage.

    The two model calls are awaited, so `handleGenerate` is split at each `await`:
    `BeginGenerate`, `FinishBlueprint`, `FinishDocs`. The generated documentation is
    carried as text. The local-storage vault is the field `vault`, already decoded;
    `crypto.randomUUID()` and `Date.now()` are inputs. */
module Generator {
  import opened Wrappers
  import opened Types
  import Text

  const MinDescription: nat := 20
  const DefaultVersion: string := "1.0.0"

  /** `validation`: whether the trimmed description is long enough, and the progress bar,
      `Math.min(100, length / 20 * 100)`. */
  function Validation(description: string): (r: (bool, real))
    ensures r.0 <==> |Text.Trim(description)| >= MinDescription
    ensures 0.0 <= r.1 <= 100.0
    ensures r.1 == 100.0 <==> r.0
    ensures r.1 == |Text.Trim(description)| as real * 5.0 || r.1 == 100.0
  {
    var length := |Text.Trim(description)| as real;
    var progress := length / 20.0 * 100.0;
    (|Text.Trim(description)| >= MinDescription, if progress <= 100.0 then progress else 100.0)
  }

  datatype Tab = BlueprintTab | DocsTab

  /** Everything the page keeps, as one value. */
  datatype Form = Form(
    selectedPlatform: Platform,
    description: string,
    state: AsyncState<AutomationResult>,
    docsState: AsyncState<string>,
    activeTab: Tab,
    saveName: string,
    saveVersion: string,
    saveSuccess: bool,
    showSaveModal: bool,
    vault: seq<SavedBlueprint>)

  /** The record `handleSaveToVault` stores: the blueprint, stamped, under a fresh id and
      the name and version as typed. */
  function SavedRecord(data: AutomationResult, id: string, name: string, version: string, now: int): (r: SavedBlueprint)
    ensures r.result.platform == data.platform && r.result.steps == data.steps
    ensures r.result.codeSnippet == data.codeSnippet && r.result.explanation == data.explanation
    ensures r.result.timestamp == Some(now)
    ensures r.result.extra == data.extra
    ensures r.result == data.(timestamp := Some(now))
    ensures r.id == id && r.name == name && r.version == version
  {
    SavedBlueprint(data.(timestamp := Some(now)), id, name, version)
  }

  class GeneratorView {
    var selectedPlatform: Platform
    var description: string
    var state: AsyncState<AutomationResult>
    var docsState: AsyncState<string>
    var activeTab: Tab
    var saveName: string
    var saveVersion: string
    var saveSuccess: bool
    var showSaveModal: bool
    var vault: seq<SavedBlueprint>

    function Fields(): Form
      reads this
    {
      Form(selectedPlatform, description, state, docsState, activeTab, saveName, saveVersion, saveSuccess, showSaveModal, vault)
    }

    constructor(stored: seq<SavedBlueprint>)
      ensures selectedPlatform == OpenAI && description == ""
      ensures state == AsyncState(None, false, None) && docsState == AsyncState(None, false, None)
      ensures activeTab == BlueprintTab && saveName == "" && saveVersion == DefaultVersion
      ensures !saveSuccess && !showSaveModal && vault == stored
    {
      selectedPlatform, description := OpenAI, "";
      state, docsState := AsyncState(None, false, None), AsyncState(None, false, None);
      activeTab, saveName, saveVersion := BlueprintTab, "", DefaultVersion;
      saveSuccess, showSaveModal, vault := false, false, stored;
    }

    method SetDescription(text: string)
      modifies this
      ensures description == text && state == old(state) && docsState == old(docsState) && vault == old(vault)
      ensures Fields() == old(Fields()).(description := text)
    {
      description := text;
    }

    /** `handleGenerate` up to the blueprint call: nothing happens for an invalid
        description; otherwise the page waits (keeping any previous blueprint), the
        documentation is cleared and the blueprint tab shown. */
    method BeginGenerate() returns (started: bool)
      modifies this
      ensures started <==> Validation(old(description)).0
      ensures !started ==> state == old(state) && docsState == old(docsState) && activeTab == old(activeTab)
      ensures started ==>
        && state == AsyncState(old(state).data, true, None)
        && docsState == AsyncState(None, false, None)
        && activeTab == BlueprintTab
      ensures description == old(description) && vault == old(vault) && selectedPlatform == old(selectedPlatform)
      ensures !started ==> Fields() == old(Fields())
      ensures started ==> Fields() == old(Fields()).(state := state, docsState := docsState, activeTab := activeTab)
    {
      started := Validation(description).0;
      if !started {
        return;
      }
      state := state.(loading := true, error := None);
      docsState := AsyncState(None, false, None);
      activeTab := BlueprintTab;
    }

    /** After the blueprint call: the blueprint is shown and the documentation call
        starts; a failure shows the error with no blueprint. `docsStarted` tells whether
        the documentation call follows. */
    method FinishBlueprint(call: Outcome<AutomationResult>) returns (docsStarted: bool)
      modifies this
      ensures docsStarted <==> call.Resolved?
      ensures call.Resolved? ==>
        state == AsyncState(Some(call.value), false, None) && docsState == old(docsState).(loading := true)
      ensures call.Rejected? ==>
        state == AsyncState(None, false, Some(ApiError(call.message))) && docsState == AsyncState(None, false, None)
      ensures description == old(description) && vault == old(vault) && activeTab == old(activeTab)
      ensures Fields() == old(Fields()).(state := state, docsState := docsState)
    {
      match call {
        case Resolved(data) =>
          state := AsyncState(Some(data), false, None);
          docsState := docsState.(loading := true);
          docsStarted := true;
        case Rejected(message) =>
          state := AsyncState(None, false, Some(ApiError(message)));
          docsState := AsyncState(None, false, None);
          docsStarted := false;
      }
    }

    /** After the documentation call: the documents are shown; a failure lands in the same
        `catch`, which drops the blueprint just shown and reports the error. */
    method FinishDocs(call: Outcome<string>)
      modifies this
      ensures call.Resolved? ==> docsState == AsyncState(Some(call.value), false, None) && state == old(state)
      ensures call.Rejected? ==>
        state == AsyncState(None, false, Some(ApiError(call.message))) && docsState == AsyncState(None, false, None)
      ensures description == old(description) && vault == old(vault) && activeTab == old(activeTab)
      ensures Fields() == old(Fields()).(state := state, docsState := docsState)
    {
      match call {
        case Resolved(docs) =>
          docsState := AsyncState(Some(docs), false, None);
        case Rejected(message) =>
          state := AsyncState(None, false, Some(ApiError(message)));
          docsState := AsyncState(None, false, None);
      }
    }

    method SetSaveName(name: string)
      modifies this
      ensures saveName == name && state == old(state) && vault == old(vault) && saveVersion == old(saveVersion)
      ensures Fields() == old(Fields()).(saveName := name)
    {
      saveName := name;
    }

    /** `handleSaveToVault`: without a blueprint or with a blank name nothing happens;
        otherwise one record is appended at the end of the vault and success is shown. */
    method SaveToVault(id: string, now: int)
      modifies this
      ensures old(state).data.None? || Text.Trim(old(saveName)) == "" ==>
        vault == old(vault) && saveSuccess == old(saveSuccess)
      ensures old(state).data.Some? && Text.Trim(old(saveName)) != "" ==>
        vault == old(vault) + [SavedRecord(old(state).data.value, id, old(saveName), old(saveVersion), now)]
        && saveSuccess
      ensures state == old(state) && saveName == old(saveName) && showSaveModal == old(showSaveModal)
      ensures Fields() == old(Fields()).(vault := vault, saveSuccess := saveSuccess)
    {
      if state.data.None? || Text.Trim(saveName) == "" {
        return;
      }
      var record := SavedRecord(state.data.value, id, saveName, saveVersion, now);
      vault := vault + [record];
      saveSuccess := true;
    }

    /** The two-second timer after a save closes the dialog. */
    method SaveTimerFired()
      modifies this
      ensures !showSaveModal && !saveSuccess && vault == old(vault) && state == old(state)
      ensures Fields() == old(Fields()).(showSaveModal := false, saveSuccess := false)
    {
      showSaveModal := false;
      saveSuccess := false;
    }
  }
}
