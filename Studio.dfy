/**
 * The page component's state as fields of an object, updated in place by its
 * handlers. Each handler's new state is the corresponding transition of
 * `PageModel` applied to the old state.
 */
module Studio {
  import opened Wrappers
  import opened Json
  import opened Normalize
  import opened History
  import opened SettingsForm
  import opened Prompts
  import opened PageModel

  class Page {
    var settings: Option<SettingsData>
    var managerData: Option<ManagerResponse>
    var videos: seq<Json>
    var generating: bool
    var generationPhase: string
    var generationError: string
    var history: seq<HistoryEntry>
    var visualData: Option<VisualResponse>
    var visualImages: seq<Json>
    var visualLoading: bool
    var activeAgentId: Option<string>
    var showSample: bool

    /** Every request sent to the agent service, oldest first. */
    ghost var agentCalls: seq<AgentCall>
    /** The last value written to the settings and history slots of local storage (a failed write is ignored). */
    ghost var storedSettings: Option<SettingsData>
    ghost var storedHistory: Option<seq<HistoryEntry>>

    /** The fields as one value. */
    ghost function State(): PageState
      reads this
    {
      PageState(settings, managerData, videos, generating, generationPhase, generationError, history,
                visualData, visualImages, visualLoading, activeAgentId, showSample,
                agentCalls, storedSettings, storedHistory)
    }

    constructor ()
      ensures State() == INITIAL
    {
      settings, managerData, videos := None, None, [];
      generating, generationPhase, generationError := false, "", "";
      history, visualData, visualImages, visualLoading := [], None, [], false;
      activeAgentId, showSample := None, false;
      agentCalls, storedSettings, storedHistory := [], None, None;
    }

    method Mount(settingsSlot: SettingsSlot, historySlot: HistorySlot)
      modifies this
      ensures State() == AfterMount(old(State()), settingsSlot, historySlot)
    {
      match settingsSlot {
        case UnreadableSettings =>
          settings := Some(DEFAULT_SETTINGS);
          return;
        case DefaultsUnwritable =>
          settings := Some(DEFAULT_SETTINGS);
          return;
        case NoSettings =>
          settings := Some(DEFAULT_SETTINGS);
          storedSettings := Some(DEFAULT_SETTINGS);
        case StoredSettings(s) =>
          settings := Some(s);
      }
      match historySlot {
        case StoredHistory(entries) => history := entries;
        case UnreadableHistory => settings := Some(DEFAULT_SETTINGS);
        case _ =>
      }
    }

    method SaveSettings(s: SettingsData)
      modifies this
      ensures State() == AfterSaveSettings(old(State()), s)
    {
      settings := Some(s);
      storedSettings := Some(s);
    }

    method DeleteHistoryEntry(id: string)
      modifies this
      ensures State() == AfterDelete(old(State()), id)
    {
      history := Delete(history, id);
      storedHistory := Some(history);
    }

    method Generate(outcome: AgentOutcome, id: string, timestamp: string)
      modifies this
      ensures State() == AfterGenerate(old(State()), outcome, id, timestamp)
    {
      if !CanGenerate(settings) {
        return;
      }
      var s := settings.value;
      StartGenerating(s);
      if HasData(outcome) {
        RecordAnswer(outcome.result.value, id, timestamp, s.productName);
      } else {
        ReportFailure(FailureMessage(outcome));
      }
    }

    /** The synchronous start of the generate handler, up to the agent call. */
    method StartGenerating(s: SettingsData)
      modifies this
      ensures State() == StartGeneration(old(State()), s)
    {
      generating := true;
      generationError := "";
      generationPhase := PHASE_RESEARCHING;
      activeAgentId := Some(MANAGER_AGENT_ID);
      generationPhase := PHASE_WRITING;
      agentCalls := agentCalls + [ManagerCall(s)];
    }

    /** The success branch of the generate handler. */
    method RecordAnswer(data: Json, id: string, timestamp: string, productName: string)
      modifies this
      ensures State() == GenerationSucceeded(old(State()), data, id, timestamp, productName)
    {
      ShowAnswer(NormalizeManager(data));
      AddEntry(EntryFor(id, timestamp, productName, data));
    }

    method ShowAnswer(m: ManagerResponse)
      modifies this
      ensures State() == WithAnswer(old(State()), m)
    {
      managerData := Some(m);
      videos := m.videos;
      generationPhase := PHASE_COMPLETE;
      activeAgentId := None;
    }

    /** `saveHistory([entry, ...history])`. */
    method AddEntry(e: HistoryEntry)
      modifies this
      ensures State() == WithEntry(old(State()), e)
    {
      history := Prepend(history, e);
      storedHistory := Some(history);
    }

    /** The failure branches of the generate handler. */
    method ReportFailure(message: string)
      modifies this
      ensures State() == GenerationFailed(old(State()), message)
    {
      generationError := message;
      generationPhase := PHASE_FAILED;
      activeAgentId := None;
    }

    /** The timer that re-enables the generate control after a generation settles. */
    method ReleaseBusy()
      modifies this
      ensures State() == AfterReleaseBusy(old(State()))
    {
      generating := false;
    }

    /** The sample-data switch. */
    method ToggleSample()
      modifies this
      ensures State() == old(State()).(showSample := !old(showSample))
    {
      showSample := !showSample;
    }

    /** The dismiss button of the error banner. */
    method DismissError()
      modifies this
      ensures State() == old(State()).(generationError := "")
    {
      generationError := "";
    }

    method GenerateVisuals(videoIndex: int, sampleVideos: seq<Json>, outcome: AgentOutcome, typeErrors: TypeErrorTexts)
      modifies this
      ensures State() == AfterGenerateVisuals(old(State()), videoIndex, sampleVideos, outcome, typeErrors)
    {
      var shown := if showSample then sampleVideos else videos;
      if !(0 <= videoIndex < |shown|) || !Truthy(shown[videoIndex]) {
        return;
      }
      var video := shown[videoIndex];
      StartVisualRun();
      ApplyVisualOutcomeTo(video, outcome, typeErrors);
      EndVisualRun();
    }

    /** The `try` block of the visual handler and its `catch`. */
    method ApplyVisualOutcomeTo(video: Json, outcome: AgentOutcome, typeErrors: TypeErrorTexts)
      modifies this
      ensures State() == ApplyVisualOutcome(old(State()), video, outcome, typeErrors)
    {
      if PromptThrows(video) {
        generationError := TypeErrorText(typeErrors, PromptError(video).value);
        return;
      }
      match outcome {
        case Threw(t) =>
          agentCalls := agentCalls + [VisualCall(video)];
          generationError := ThrownMessage(t, VISUAL_FAILED);
        case Returned(success, result, files) =>
          RecordVisualAnswer(video, success, result, files);
      }
    }

    /** The visual call returned: its data (if any) is shown, and the asset URLs of the envelope in any case. */
    method RecordVisualAnswer(video: Json, success: bool, result: Option<Json>, files: Option<Json>)
      modifies this
      ensures State() == VisualsReturned(old(State()), video, success, result, files)
    {
      agentCalls := agentCalls + [VisualCall(video)];
      if success && Present(result) {
        visualData := Some(NormalizeVisual(result.value, video));
      }
      visualImages := AssetUrls(files);
    }

    /** The synchronous start of the visual handler: the previous result cleared, the visual agent active. */
    method StartVisualRun()
      modifies this
      ensures State() == StartVisuals(old(State()))
    {
      visualLoading := true;
      visualData := None;
      visualImages := [];
      activeAgentId := Some(VISUAL_AGENT_ID);
    }

    /** The end of the visual handler, whatever happened: no agent active, not loading. */
    method EndVisualRun()
      modifies this
      ensures State() == EndVisuals(old(State()))
    {
      activeAgentId := None;
      visualLoading := false;
    }
  }
}
