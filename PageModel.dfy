/**
 * The page's state as a value and what each of its handlers does to it: loading
 * settings and history at mount, saving settings, deleting history entries, the
 * manager generation flow and the visual generation flow. The class in
 * Studio.dfy performs these transitions on its fields.
 *
 * Each agent call is replaced by its outcome, given as a parameter: a thrown
 * value, or a returned envelope with its `success` flag, its `response.result`
 * (if any) and its `module_outputs.artifact_files` (if any). A handler runs to
 * settlement in one step; what the page shows while a call is pending is not
 * part of the model.
 */
module PageModel {
  import opened Wrappers
  import opened Json
  import opened Normalize
  import opened History
  import opened SettingsForm
  import opened Prompts

  const MANAGER_AGENT_ID := "69996933e3502b03b1c6e0b1"
  const VISUAL_AGENT_ID := "69996934deebc613f158666b"

  /** Phase labels of the manager generation. */
  const PHASE_RESEARCHING := "Researching..."
  const PHASE_WRITING := "Writing scripts..."
  const PHASE_COMPLETE := "Complete!"
  const PHASE_FAILED := "Failed"

  const NO_DATA_MESSAGE := "Agent returned no data. Please try again."
  const GENERATION_FAILED := "Generation failed"
  const VISUAL_FAILED := "Visual generation failed"

  /** The engine's messages for the two `TypeError`s building a visual task can throw. */
  datatype TypeErrorTexts = TypeErrorTexts(nullScene: string, notPrimitive: string)

  /** The message of the `TypeError` with cause `cause`. */
  function TypeErrorText(texts: TypeErrorTexts, cause: TypeErrorCause): (r: string)
    ensures cause.NullScene? ==> r == texts.nullScene
    ensures cause.NotPrimitive? ==> r == texts.notPrimitive
  {
    match cause
    case NullScene => texts.nullScene
    case NotPrimitive => texts.notPrimitive
  }

  /** What a failing agent call threw: an `Error` with its message, or some other value. */
  datatype Thrown = ErrorValue(message: string) | OtherValue

  datatype AgentOutcome =
    | Threw(thrown: Thrown)
    | Returned(success: bool, result: Option<Json>, artifactFiles: Option<Json>)

  /** `result.success && result?.response?.result`: the envelope carries data to normalize. */
  predicate HasData(o: AgentOutcome) {
    o.Returned? && o.success && Present(o.result)
  }

  /** `err instanceof Error ? err.message : default`. */
  function ThrownMessage(t: Thrown, default: string): (r: string)
    ensures t.ErrorValue? ==> r == t.message
    ensures t.OtherValue? ==> r == default
  {
    match t
    case ErrorValue(m) => m
    case OtherValue => default
  }

  /** Generation is enabled only with settings whose product name is not empty. */
  predicate CanGenerate(settings: Option<SettingsData>) {
    settings.Some? && settings.value.productName != ""
  }

  /**
   * The error a failed manager generation shows: the thrown error's message (or
   * a fixed text for a thrown non-error), or the no-data text for an envelope
   * without data. The two texts differ, so the user can tell the cases apart.
   */
  function FailureMessage(o: AgentOutcome): (r: string)
    requires !HasData(o)
    ensures o.Threw? && o.thrown.ErrorValue? ==> r == o.thrown.message
    ensures o.Threw? && o.thrown.OtherValue? ==> r == GENERATION_FAILED
    ensures o.Returned? ==> r == NO_DATA_MESSAGE
  {
    if o.Threw? then ThrownMessage(o.thrown, GENERATION_FAILED) else NO_DATA_MESSAGE
  }

  /** One request sent to the agent service: the manager task for some settings, or the visual task for a video. */
  datatype AgentCall = ManagerCall(settings: SettingsData) | VisualCall(video: Json) {

    function AgentId(): string {
      if ManagerCall? then MANAGER_AGENT_ID else VISUAL_AGENT_ID
    }

    /** The text sent with the call. */
    function Prompt(): string
      requires VisualCall? ==> !PromptThrows(video)
    {
      if ManagerCall? then ManagerPrompt(settings) else VisualPrompt(video).value
    }
  }

  /**
   * What the settings slot of local storage yields at mount: nothing (and the
   * defaults are then written back), nothing with a failing write of the
   * defaults, a read or parse failure, or the stored settings.
   */
  datatype SettingsSlot = NoSettings | DefaultsUnwritable | UnreadableSettings | StoredSettings(stored: SettingsData)

  /** The mount effect goes on to read the history slot: the settings were read and nothing threw. */
  predicate ReadsHistory(settingsSlot: SettingsSlot) {
    settingsSlot.NoSettings? || settingsSlot.StoredSettings?
  }

  /** What the history slot of local storage yields at mount. */
  datatype HistorySlot = NoHistory | UnreadableHistory | NotAnArray | StoredHistory(entries: seq<HistoryEntry>)

  /** Every piece of page state the handlers read or write, including the ghost record of agent calls and storage writes. */
  datatype PageState = PageState(
    settings: Option<SettingsData>,
    managerData: Option<ManagerResponse>,
    videos: seq<Json>,
    generating: bool,
    generationPhase: string,
    generationError: string,
    history: seq<HistoryEntry>,
    visualData: Option<VisualResponse>,
    visualImages: seq<Json>,
    visualLoading: bool,
    activeAgentId: Option<string>,
    showSample: bool,
    agentCalls: seq<AgentCall>,
    storedSettings: Option<SettingsData>,
    storedHistory: Option<seq<HistoryEntry>>)

  /** The state before the mount effect has run. */
  const INITIAL := PageState(None, None, [], false, "", "", [], None, [], false, None, false, [], None, None)

  /**
   * The mount effect. Stored settings are used when present; otherwise the
   * defaults are used and written back. A stored history is used only if it is
   * an array. Any read, parse or write failure falls back to the default
   * settings, even when the settings themselves were read successfully; a
   * failure while reading the settings or writing the defaults stops before the
   * history is read.
   */
  function AfterMount(st: PageState, settingsSlot: SettingsSlot, historySlot: HistorySlot): PageState {
    match settingsSlot
    case UnreadableSettings => st.(settings := Some(DEFAULT_SETTINGS))
    case DefaultsUnwritable => st.(settings := Some(DEFAULT_SETTINGS))
    case NoSettings =>
      LoadHistory(st.(settings := Some(DEFAULT_SETTINGS), storedSettings := Some(DEFAULT_SETTINGS)), historySlot)
    case StoredSettings(s) => LoadHistory(st.(settings := Some(s)), historySlot)
  }

  /** The second half of the mount effect, after the settings were read. */
  function LoadHistory(st: PageState, historySlot: HistorySlot): PageState {
    match historySlot
    case StoredHistory(entries) => st.(history := entries)
    case UnreadableHistory => st.(settings := Some(DEFAULT_SETTINGS))
    case _ => st
  }

  /** The settings form's save: the page adopts the form and writes it to storage. */
  function AfterSaveSettings(st: PageState, s: SettingsData): PageState {
    st.(settings := Some(s), storedSettings := Some(s))
  }

  /** Deleting every history entry with `id`; the new log is written to storage. */
  function AfterDelete(st: PageState, id: string): PageState {
    var h := Delete(st.history, id);
    st.(history := h, storedHistory := Some(h))
  }

  /**
   * The generate button. Without settings or with an empty product name nothing
   * happens. Otherwise the flow becomes busy with the manager agent active, sends
   * the manager task, and settles: with data it records the normalized answer and
   * prepends a history entry (also when the answer holds no video); without data
   * or on a throw it reports the failure. Either way the agent indicator is
   * cleared, and the busy flag stays set until `AfterReleaseBusy`.
   */
  function AfterGenerate(st: PageState, outcome: AgentOutcome, id: string, timestamp: string): PageState {
    if !CanGenerate(st.settings) then st
    else
      var s := st.settings.value;
      SettleGeneration(StartGeneration(st, s), outcome, id, timestamp, s.productName)
  }

  /** Entering the flow: busy, the error cleared, the manager agent active and its task sent. */
  function StartGeneration(st: PageState, s: SettingsData): PageState {
    st.(generating := true, generationError := "", generationPhase := PHASE_WRITING,
        activeAgentId := Some(MANAGER_AGENT_ID), agentCalls := st.agentCalls + [ManagerCall(s)])
  }

  /** Applying the manager agent's outcome, then clearing the agent indicator. */
  function SettleGeneration(st: PageState, outcome: AgentOutcome, id: string, timestamp: string,
                            productName: string): PageState
  {
    if HasData(outcome) then GenerationSucceeded(st, outcome.result.value, id, timestamp, productName)
    else GenerationFailed(st, FailureMessage(outcome))
  }

  /** The manager agent returned `data`: its normalized answer is shown and a history entry is prepended and stored. */
  function GenerationSucceeded(st: PageState, data: Json, id: string, timestamp: string, productName: string): PageState {
    WithEntry(WithAnswer(st, NormalizeManager(data)), EntryFor(id, timestamp, productName, data))
  }

  /** Showing the normalized manager answer `m`; the phase is complete and no agent is active. */
  function WithAnswer(st: PageState, m: ManagerResponse): PageState {
    st.(managerData := Some(m), videos := m.videos, generationPhase := PHASE_COMPLETE, activeAgentId := None)
  }

  /** Prepending `e` to the history and writing the new log to storage. */
  function WithEntry(st: PageState, e: HistoryEntry): PageState {
    var h := Prepend(st.history, e);
    st.(history := h, storedHistory := Some(h))
  }

  /** The manager generation failed with `message`. */
  function GenerationFailed(st: PageState, message: string): PageState {
    st.(generationError := message, generationPhase := PHASE_FAILED, activeAgentId := None)
  }

  /** The delayed release after a generation settles. */
  function AfterReleaseBusy(st: PageState): PageState {
    st.(generating := false)
  }

  /** The videos the review screen shows: the sample set in sample mode, else the generated ones. */
  function DisplayVideos(st: PageState, sampleVideos: seq<Json>): seq<Json> {
    if st.showSample then sampleVideos else st.videos
  }

  /** There is a (truthy) video at `videoIndex` of the displayed videos. */
  predicate HasVideoAt(st: PageState, sampleVideos: seq<Json>, videoIndex: int) {
    var shown := DisplayVideos(st, sampleVideos);
    0 <= videoIndex < |shown| && Truthy(shown[videoIndex])
  }

  /**
   * The generate-visuals button for video `videoIndex` of the displayed videos
   * (`sampleVideos` stands for the built-in sample set). Without a video there it
   * does nothing. Otherwise it clears the previous visual result, builds the task
   * (which throws a `TypeError` on a `null` scene or a value that does not
   * convert to a string, with the engine's message from `typeErrors`), and with
   * data stores the normalized answer; the asset
   * URLs are taken from the envelope whether or not it carries data. A throw is
   * reported in the error banner the manager flow uses.
   */
  function AfterGenerateVisuals(st: PageState, videoIndex: int, sampleVideos: seq<Json>,
                                outcome: AgentOutcome, typeErrors: TypeErrorTexts): PageState
  {
    if !HasVideoAt(st, sampleVideos, videoIndex) then st
    else
      var video := DisplayVideos(st, sampleVideos)[videoIndex];
      SettleVisuals(StartVisuals(st), video, outcome, typeErrors)
  }

  /** Entering the visual flow: the previous visual result cleared and the visual agent active. */
  function StartVisuals(st: PageState): PageState {
    st.(visualLoading := true, visualData := None, visualImages := [], activeAgentId := Some(VISUAL_AGENT_ID))
  }

  /** Building and sending the visual task for `video` and applying its outcome, then going idle. */
  function SettleVisuals(st: PageState, video: Json, outcome: AgentOutcome, typeErrors: TypeErrorTexts): PageState {
    EndVisuals(ApplyVisualOutcome(st, video, outcome, typeErrors))
  }

  /**
   * Building the task for `video`; when that throws, the message `typeErrors`
   * gives for its cause is shown and nothing is sent; otherwise the task is sent
   * and its outcome applied.
   */
  function ApplyVisualOutcome(st: PageState, video: Json, outcome: AgentOutcome, typeErrors: TypeErrorTexts): PageState {
    if PromptThrows(video) then st.(generationError := TypeErrorText(typeErrors, PromptError(video).value))
    else
      match outcome
      case Threw(t) => VisualsThrew(st, video, t)
      case Returned(success, result, files) => VisualsReturned(st, video, success, result, files)
  }

  /** The visual call threw: its message is shown in the error banner. */
  function VisualsThrew(st: PageState, video: Json, t: Thrown): PageState {
    st.(agentCalls := st.agentCalls + [VisualCall(video)], generationError := ThrownMessage(t, VISUAL_FAILED))
  }

  /** The visual call returned: its data (if any) is normalized, and its asset URLs are taken regardless. */
  function VisualsReturned(st: PageState, video: Json, success: bool, result: Option<Json>, files: Option<Json>): PageState {
    st.(agentCalls := st.agentCalls + [VisualCall(video)],
        visualData := if success && Present(result) then Some(NormalizeVisual(result.value, video)) else st.visualData,
        visualImages := AssetUrls(files))
  }

  /** The end of the visual flow, whatever happened: no agent active, not loading. */
  function EndVisuals(st: PageState): PageState {
    st.(activeAgentId := None, visualLoading := false)
  }

  // ---------------------------------------------------------------------------
  // Properties
  // ---------------------------------------------------------------------------

  /** With no product name, generating changes nothing at all. */
  lemma GenerateNeedsProductName(st: PageState, outcome: AgentOutcome, id: string, timestamp: string)
    requires st.settings.None? || st.settings.value.productName == ""
    ensures AfterGenerate(st, outcome, id, timestamp) == st
  {
  }

  /**
   * A generation that runs sends exactly the manager task for the current
   * settings, ends with the agent indicator cleared and the busy flag still set,
   * and touches neither the settings nor the visual state.
   */
  lemma GenerateSendsManagerTask(st: PageState, outcome: AgentOutcome, id: string, timestamp: string)
    requires CanGenerate(st.settings)
    ensures var r := AfterGenerate(st, outcome, id, timestamp);
      && r.agentCalls == st.agentCalls + [ManagerCall(st.settings.value)]
      && r.agentCalls[|r.agentCalls| - 1].AgentId() == MANAGER_AGENT_ID
      && r.agentCalls[|r.agentCalls| - 1].Prompt() == ManagerPrompt(st.settings.value)
      && r.activeAgentId == None && r.generating
      && r.settings == st.settings && r.storedSettings == st.storedSettings
      && r.visualData == st.visualData && r.visualImages == st.visualImages
      && r.visualLoading == st.visualLoading && r.showSample == st.showSample
  {
  }

  /**
   * Success: the history grows by exactly one entry in front, the old entries
   * keep their order, the entry carries the product name and the normalized
   * videos, storage mirrors the log, and the phase is complete even when the
   * answer has no video.
   */
  lemma GenerateSuccess(st: PageState, outcome: AgentOutcome, id: string, timestamp: string)
    requires CanGenerate(st.settings) && HasData(outcome)
    ensures var r := AfterGenerate(st, outcome, id, timestamp);
      var data := outcome.result.value;
      && |r.history| == |st.history| + 1
      && r.history[1..] == st.history
      && r.history[0].id == id && r.history[0].timestamp == timestamp
      && r.history[0].productName == st.settings.value.productName
      && r.history[0].videos == NormalizeManager(data).videos
      && r.history[0].researchSummary == NormalizeResearch(data)
      && r.videos == r.history[0].videos
      && r.managerData == Some(NormalizeManager(data))
      && r.storedHistory == Some(r.history)
      && r.generationPhase == PHASE_COMPLETE && r.generationError == ""
  {
    var r := AfterGenerate(st, outcome, id, timestamp);
    assert r.history == [r.history[0]] + st.history;
  }

  /**
   * Failure: an envelope without data shows the no-data message, a throw shows
   * the error's own message (or the fixed fallback); either way the phase is
   * failed and the history, its stored copy and the previous results are kept.
   */
  lemma GenerateFailure(st: PageState, outcome: AgentOutcome, id: string, timestamp: string)
    requires CanGenerate(st.settings) && !HasData(outcome)
    ensures var r := AfterGenerate(st, outcome, id, timestamp);
      && r.generationPhase == PHASE_FAILED
      && (outcome.Returned? ==> r.generationError == NO_DATA_MESSAGE)
      && (outcome.Threw? && outcome.thrown.ErrorValue? ==> r.generationError == outcome.thrown.message)
      && (outcome.Threw? && outcome.thrown.OtherValue? ==> r.generationError == GENERATION_FAILED)
      && r.history == st.history && r.storedHistory == st.storedHistory
      && r.managerData == st.managerData && r.videos == st.videos
  {
  }

  /** The two failure texts a user can see are distinct. */
  lemma FailureMessagesDiffer()
    ensures NO_DATA_MESSAGE != GENERATION_FAILED
  {
    assert NO_DATA_MESSAGE[0] != GENERATION_FAILED[0];
  }

  /** Deleting the entry a successful generation just added (under a fresh id) gives back the old log. */
  lemma GenerateThenDelete(st: PageState, outcome: AgentOutcome, id: string, timestamp: string)
    requires CanGenerate(st.settings) && HasData(outcome) && !HasId(st.history, id)
    ensures AfterDelete(AfterGenerate(st, outcome, id, timestamp), id).history == st.history
  {
    var r := AfterGenerate(st, outcome, id, timestamp);
    DeleteAbsent(st.history, id);
    DeleteAppend([r.history[0]], st.history, id);
    assert r.history == [r.history[0]] + st.history;
  }

  /** Deleting changes the history and its stored copy only, and never lengthens the log. */
  lemma DeleteOnlyTouchesHistory(st: PageState, id: string)
    ensures var r := AfterDelete(st, id);
      && |r.history| <= |st.history|
      && r.storedHistory == Some(r.history)
      && r.(history := st.history, storedHistory := st.storedHistory) == st
  {
  }

  /** Without a video at the index, the visual button changes nothing. */
  lemma VisualsNeedVideo(st: PageState, videoIndex: int, sampleVideos: seq<Json>, outcome: AgentOutcome, msg: TypeErrorTexts)
    requires !HasVideoAt(st, sampleVideos, videoIndex)
    ensures AfterGenerateVisuals(st, videoIndex, sampleVideos, outcome, msg) == st
  {
  }

  /**
   * A visual run leaves the manager flow's results alone, never keeps the previous
   * visual result, and ends idle with no agent active.
   */
  lemma VisualsKeepManagerState(st: PageState, videoIndex: int, sampleVideos: seq<Json>, outcome: AgentOutcome, msg: TypeErrorTexts)
    requires HasVideoAt(st, sampleVideos, videoIndex)
    ensures var r := AfterGenerateVisuals(st, videoIndex, sampleVideos, outcome, msg);
      var video := DisplayVideos(st, sampleVideos)[videoIndex];
      && r.history == st.history && r.videos == st.videos && r.managerData == st.managerData
      && r.generating == st.generating && r.generationPhase == st.generationPhase
      && r.settings == st.settings && r.storedHistory == st.storedHistory
      && !r.visualLoading && r.activeAgentId == None
      && (r.visualData.Some? ==> HasData(outcome) && r.visualData == Some(NormalizeVisual(outcome.result.value, video)))
  {
  }

  /**
   * What a visual run shows: the normalized answer exactly when the call returned
   * data, no result otherwise; a thrown call shows its error's message (or the
   * fixed text), and a returned one leaves the banner as it was.
   */
  lemma VisualOutcomeShown(st: PageState, videoIndex: int, sampleVideos: seq<Json>, outcome: AgentOutcome, msg: TypeErrorTexts)
    requires HasVideoAt(st, sampleVideos, videoIndex)
    requires !PromptThrows(DisplayVideos(st, sampleVideos)[videoIndex])
    ensures var r := AfterGenerateVisuals(st, videoIndex, sampleVideos, outcome, msg);
      var video := DisplayVideos(st, sampleVideos)[videoIndex];
      && (HasData(outcome) ==> r.visualData == Some(NormalizeVisual(outcome.result.value, video)))
      && (!HasData(outcome) ==> r.visualData == None)
      && (outcome.Threw? ==> r.generationError == ThrownMessage(outcome.thrown, VISUAL_FAILED))
      && (outcome.Threw? ==> r.visualImages == [])
      && (outcome.Returned? ==> r.generationError == st.generationError)
  {
  }

  /**
   * The asset URLs come from the envelope alone: the same artifact files give the
   * same URLs whatever the `success` flag and the result say.
   */
  lemma VisualAssetsIgnoreSuccess(st: PageState, videoIndex: int, sampleVideos: seq<Json>, msg: TypeErrorTexts,
                                  success: bool, result: Option<Json>, files: Option<Json>)
    requires HasVideoAt(st, sampleVideos, videoIndex)
    requires !PromptThrows(DisplayVideos(st, sampleVideos)[videoIndex])
    ensures AfterGenerateVisuals(st, videoIndex, sampleVideos, Returned(success, result, files), msg).visualImages
         == AssetUrls(files)
    ensures AfterGenerateVisuals(st, videoIndex, sampleVideos, Returned(success, result, files), msg).agentCalls
         == st.agentCalls + [VisualCall(DisplayVideos(st, sampleVideos)[videoIndex])]
  {
  }

  /** When building the visual task throws, no call is sent and the engine's message for the cause is shown. */
  lemma VisualsPromptThrows(st: PageState, videoIndex: int, sampleVideos: seq<Json>, outcome: AgentOutcome, msg: TypeErrorTexts)
    requires HasVideoAt(st, sampleVideos, videoIndex)
    requires PromptThrows(DisplayVideos(st, sampleVideos)[videoIndex])
    ensures var r := AfterGenerateVisuals(st, videoIndex, sampleVideos, outcome, msg);
      && r.agentCalls == st.agentCalls && r.visualData == None && r.visualImages == []
      && r.generationError == TypeErrorText(msg, PromptError(DisplayVideos(st, sampleVideos)[videoIndex]).value)
  {
  }

  /** A fresh page that mounts with nothing stored starts from the default settings and writes them. */
  lemma MountWithEmptyStorage()
    ensures AfterMount(INITIAL, NoSettings, NoHistory).settings == Some(DEFAULT_SETTINGS)
    ensures AfterMount(INITIAL, NoSettings, NoHistory).storedSettings == Some(DEFAULT_SETTINGS)
    ensures AfterMount(INITIAL, NoSettings, NoHistory).history == []
  {
  }

  /**
   * Every mount: the page ends with settings, which are the stored ones only when
   * they were read and the history read did not fail, and the defaults otherwise;
   * the stored history is adopted only when the mount got as far as reading it
   * and found an array; the defaults are written back only on a first visit; and
   * nothing else changes.
   */
  lemma MountOutcomes(st: PageState, settingsSlot: SettingsSlot, historySlot: HistorySlot)
    ensures var r := AfterMount(st, settingsSlot, historySlot);
      && r.settings.Some?
      && (settingsSlot.StoredSettings? && !historySlot.UnreadableHistory? ==> r.settings == Some(settingsSlot.stored))
      && (!settingsSlot.StoredSettings? || historySlot.UnreadableHistory? ==> r.settings == Some(DEFAULT_SETTINGS))
      && (ReadsHistory(settingsSlot) && historySlot.StoredHistory? ==> r.history == historySlot.entries)
      && (!(ReadsHistory(settingsSlot) && historySlot.StoredHistory?) ==> r.history == st.history)
      && (settingsSlot.NoSettings? ==> r.storedSettings == Some(DEFAULT_SETTINGS))
      && (!settingsSlot.NoSettings? ==> r.storedSettings == st.storedSettings)
      && r.(settings := st.settings, history := st.history, storedSettings := st.storedSettings) == st
  {
  }

  /** When writing the defaults fails, the page still uses them, but nothing is stored and the history is not read. */
  lemma MountDefaultsUnwritable(st: PageState, historySlot: HistorySlot)
    ensures AfterMount(st, DefaultsUnwritable, historySlot).settings == Some(DEFAULT_SETTINGS)
    ensures AfterMount(st, DefaultsUnwritable, historySlot).storedSettings == st.storedSettings
    ensures AfterMount(st, DefaultsUnwritable, historySlot).history == st.history
  {
  }

  /** An unreadable history slot resets even successfully stored settings to the defaults. */
  lemma MountUnreadableHistory(st: PageState, stored: SettingsData)
    ensures AfterMount(st, StoredSettings(stored), UnreadableHistory).settings == Some(DEFAULT_SETTINGS)
    ensures AfterMount(st, StoredSettings(stored), UnreadableHistory).history == st.history
  {
  }
}
