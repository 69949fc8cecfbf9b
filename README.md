# Viral video content studio: page logic in Dafny

This project models the logic of the single page of the studio app
(`app/page.tsx`). The app asks a "manager" AI agent to research a SaaS
product and write a two-video content package. A "visual" agent then drafts
storyboard frames for a video. Past packages are kept in a newest-first
history, and a schedule screen drives a recurring job.

What is modelled:

- **Normalizer.** The agent's free-form JSON answer is turned into the page's
  typed records field by field. A missing or wrongly typed field gets a
  default. The elements of the `videos`, `key_findings`, `angles_used` and
  `scene_frames` arrays are passed through unchecked.
- **Prompts.** The two task texts sent to the agents.
- **History log.** Prepending on success, and delete-by-id, which is a filter.
- **Page state machine.** The generate handler, the visual handler, mount,
  save, delete, and the error and sample switches.
- **Dashboard padding.** The status cards are padded to at least two.
- **Schedule screen.** Load, load-logs, toggle, run-now and the dismiss button of its error banner.
- **Settings form.** Its list edits.

The modules are:

| module | file | contents |
|---|---|---|
| `Wrappers` | Wrappers.dfy | `Option` |
| `Json` | Json.dfy | agent answers as JSON values; JavaScript truthiness, optional property access, the `Array.isArray` / `typeof` coercions |
| `JsText` | JsText.dfy | `trim`, `join`, decimal numerals, the text a template literal inserts for a value, a substring relation |
| `Normalize` | Normalize.dfy | `ResearchSummary`, `ManagerResponse`, `VisualResponse`, the two normalizers, asset URLs |
| `History` | History.dfy | `HistoryEntry`, the entry built after a success, delete-by-id |
| `SettingsForm` | SettingsForm.dfy | `SettingsData`, the default settings, the settings-form list edits |
| `Prompts` | Prompts.dfy | the manager and visual task texts |
| `PageModel` | PageModel.dfy | the page state as a value and each handler as a transition function, with the properties |
| `Studio` | Studio.dfy | class `Page`: the page's state fields, with methods that update them in place and are proved to perform the `PageModel` transitions |
| `Dashboard` | Dashboard.dfy | status cards and the padding loop |
| `Scheduling` | Schedule.dfy | schedule-screen transitions, class `ScheduleScreen`, and their properties |

Agent and scheduler calls are replaced by their outcomes, which the methods
take as parameters:

- a thrown value;
- or a returned envelope, with its `success` flag, its `response.result` and
  its `module_outputs.artifact_files`.

Some other values are also parameters:

- the id and the timestamp of a new history entry;
- the built-in sample videos;
- the engine's messages for the two `TypeError`s a visual task can throw (a
  read of a `null` scene, a value that does not convert to a string);
- what local storage yields at mount.

Ghost fields record every agent call and scheduler call made, and the copies
last written to local storage.

Where the code and its written description disagree, the model follows the
code:

- Deleting a history entry removes every entry with that id, not at most one.
- An unreadable stored history at mount resets the settings to the defaults,
  even when the stored settings were read successfully. A history that parses
  but is not an array is skipped, and nothing is reset.
- On a first visit, a failing write of the default settings skips the history
  read: the page uses the defaults, stores nothing and keeps an empty log.

## Model

| member | source | states |
|---|---|---|
| `Normalize.NormalizeResearch` | app/page.tsx:1392-1396 | the summary is null exactly when `research_summary` is falsy; otherwise `key_findings`, `angles_used` and `data_sources_count` are each taken when well typed and defaulted (`[]`, `[]`, `0`) on their own |
| `Normalize.NormalizeManager` | app/page.tsx:1389-1403 | `videos` is the array field or `[]`, each notes field is the string field or `""`, and the summary is the normalized one or the empty summary, never null |
| `Normalize.ManagerFieldIndependence` | app/page.tsx:1389-1403 | changing one top-level field of the answer leaves every other normalized field unchanged |
| `Normalize.MalformedSummaryNotNull` | app/page.tsx:1392-1396 | a truthy but non-object `research_summary` still yields a summary, with all fields defaulted |
| `Normalize.ManagerRoundTrip` | app/page.tsx:1389-1403 | an answer that follows the schema is copied through unchanged |
| `Normalize.NormalizeVisual` | app/page.tsx:1461-1467 | a number or title of the right type in the answer is kept; otherwise the number is the requested video's own `video_number` (possibly undefined) and the title is the video's `title` when truthy and `""` otherwise; thumbnail, scene frames and visual direction are taken when well typed and are `""`, `[]`, `""` otherwise |
| `Normalize.VisualRoundTrip` | app/page.tsx:1461-1467 | a schema-conforming visual answer is copied through, whatever the requested video |
| `Normalize.AssetUrls` | app/page.tsx:1472-1473 | the URLs are `[]` unless `artifact_files` is an array, in which case they are the truthy `file_url`s of its elements (`TruthyUrls`), and every URL is truthy |
| `Normalize.TruthyUrlsMembers` | app/page.tsx:1473 | a value is an asset URL exactly when it is the truthy `file_url` of some artifact file |
| `Normalize.TruthyUrlsAppend` | app/page.tsx:1473 | the URL list keeps the files' order (it distributes over concatenation) |
| `Normalize.TruthyUrlsAllPresent` | app/page.tsx:1473 | when every file has a truthy URL, the list is exactly those URLs, position by position |
| `History.EntryFor` | app/page.tsx:1410-1418 | the new entry carries the given id and timestamp, the product name, the normalized videos and notes, and the possibly null summary |
| `History.Prepend` | app/page.tsx:1419 | the new entry is in front and the old log follows unchanged |
| `History.Delete` | app/page.tsx:1362-1368 | no survivor has the id, nothing is added, every entry with another id survives, and the log never grows |
| `History.DeleteAppend` | app/page.tsx:1364 | deletion distributes over concatenation, so survivors keep their order |
| `History.DeleteAbsent` | app/page.tsx:1364 | deleting an id that no entry has leaves the log unchanged |
| `History.DeleteCount` | app/page.tsx:1364 | the log shrinks by exactly the number of entries with the id, and none of them remains |
| `History.DeleteIdempotent` | app/page.tsx:1364 | deleting twice is deleting once |
| `History.PrependThenDelete` | app/page.tsx:1362-1368 | after two prepends the log starts with the newer entry, and deleting the newest entry's fresh id restores the log before it |
| `JsText.Trim` | app/page.tsx:1138-1139 | `trim` cuts only a blank prefix and a blank suffix off its input, leaves no white space at either end, and is empty exactly when the input is blank |
| `JsText.TrimUnique` | app/page.tsx:1138-1139 | any piece left by cutting a blank prefix and suffix that has no white space at its ends is `trim`'s result |
| `JsText.ThrowingValuesAreTruthy` | app/page.tsx:1446 | only objects and arrays fail to convert, and they are truthy, so `${x || d}` throws exactly when `${x}` does |
| `JsText.JoinMentions` | app/page.tsx:1380-1384 | every element of a joined list occurs in the joined text |
| `JsText.NatToStringInjective` | app/page.tsx:389 | different numbers give different numerals |
| `SettingsForm.AddFeature` | app/page.tsx:1137-1141 | blank input changes nothing; otherwise the trimmed input is appended and the box cleared |
| `SettingsForm.AddedFeatureIsTrimmed` | app/page.tsx:1137-1141 | the appended feature is non-empty, has no surrounding white space and is part of what was typed |
| `SettingsForm.RemoveFeature` | app/page.tsx:1143-1145 | only the feature list changes, and exactly position `idx` is removed when it exists; otherwise nothing changes |
| `SettingsForm.RemoveFeatureLength` | app/page.tsx:1143-1145 | a valid removal drops exactly one element and shifts the later ones down by one |
| `SettingsForm.WithoutIndex` | app/page.tsx:1144 | filtering by index removes exactly that position, or nothing when it is out of range |
| `SettingsForm.TogglePillar` | app/page.tsx:1147-1152 | only the pillars change: a selected pillar loses every copy, any other is appended once |
| `SettingsForm.TogglePlatform` | app/page.tsx:1154-1159 | the same for the platform targets |
| `SettingsForm.ToggleTag` | app/page.tsx:1150 | a present tag is removed everywhere, an absent one appended |
| `SettingsForm.Without` | app/page.tsx:1150 | the filter removes exactly the tag; nothing else is lost or added |
| `SettingsForm.WithoutAppend` | app/page.tsx:1150 | the filter keeps the order of the other tags |
| `SettingsForm.ToggleAbsentTwice` | app/page.tsx:1147-1152 | toggling an absent tag twice restores the list |
| `SettingsForm.TogglePresentTwice` | app/page.tsx:1147-1152 | toggling a present tag twice drops its copies and appends it once at the end |
| `Prompts.ManagerPrompt` | app/page.tsx:1379-1384 | the manager task: the six lines joined by newlines (no contract of its own; its content is stated by the four `ManagerPrompt…` lemmas) |
| `Prompts.SceneLine` | app/page.tsx:1446 | one scene's line can be built exactly when the scene is not `null` and none of its four inserted fields is a value whose conversion to a string throws (an object with an own `toString` key, or an array holding one) |
| `Prompts.ScenesError` | app/page.tsx:1446 | mapping the scenes succeeds exactly when every scene's line does; otherwise the error is that of the first scene whose line throws |
| `Prompts.PromptError` | app/page.tsx:1445-1455 | the `TypeError` building the visual task throws, in evaluation order: the scene lines first, then the values the task's lines insert (no contract of its own; stated by `OnlyNullScenesThrow` and `VisualPrompt`) |
| `Prompts.OnlyNullScenesThrow` | app/page.tsx:1445-1455 | when every inserted value converts, the task throws exactly when a scene is `null`, and the error is then the read of its `scene_number` |
| `Prompts.ManagerPromptNamesProduct` | app/page.tsx:1379 | the manager task names the product, and its URL in parentheses when there is one |
| `Prompts.ManagerPromptNamesLists` | app/page.tsx:1380-1384 | every key feature, pillar and platform appears in the manager task |
| `Prompts.ManagerPromptAudience` | app/page.tsx:1381 | the audience line carries the audience, or "general SaaS users" when it is empty |
| `Prompts.ManagerPromptVoice` | app/page.tsx:1382 | the voice line carries the brand voice, or "professional" when it is empty |
| `Prompts.SceneDescriptions` | app/page.tsx:1445-1447 | building the scene lines fails exactly when `scenes` is an array one of whose lines throws; a non-array gives `""` |
| `Prompts.VisualPrompt` | app/page.tsx:1445-1455 | the visual task can be built exactly when building it raises no `TypeError` |
| `Prompts.VisualPromptNamesScenes` | app/page.tsx:1445-1455 | every scene's line appears in the visual task |
| `Prompts.VisualPromptNamesTitle` | app/page.tsx:1449 | the visual task quotes the title, or `""` |
| `PageModel.AfterMount` | app/page.tsx:1333-1350 | the mount effect as a transition (no contract of its own; stated by `MountOutcomes` and the other `Mount…` lemmas) |
| `PageModel.AfterSaveSettings` | app/page.tsx:1352-1355 | `saveSettings` as a transition: the page adopts and stores the settings |
| `PageModel.AfterDelete` | app/page.tsx:1362-1368 | the delete handler as a transition (stated by `DeleteOnlyTouchesHistory` and `GenerateThenDelete`) |
| `PageModel.AfterGenerate` | app/page.tsx:1371-1431 | the generate handler as a transition (stated by the `Generate…` lemmas) |
| `PageModel.AfterGenerateVisuals` | app/page.tsx:1434-1481 | the visual handler as a transition (stated by the `Visual…` lemmas) |
| `PageModel.FailureMessage` | app/page.tsx:1420-1427 | the no-data message for an envelope without data; the error's message, or "Generation failed", for a throw |
| `PageModel.GenerateNeedsProductName` | app/page.tsx:1372 | without settings or with an empty product name, generating changes nothing at all |
| `PageModel.GenerateSendsManagerTask` | app/page.tsx:1373-1387 | a generation sends exactly one call, to the manager agent with the manager task for the current settings, and ends with no agent active, still busy, and the settings and visual state untouched |
| `PageModel.GenerateSuccess` | app/page.tsx:1405-1419 | on success the history is `[entry] + old history`, the entry carries the product name and the normalized videos, storage mirrors the log, and the phase is "Complete!" even with no video |
| `PageModel.GenerateFailure` | app/page.tsx:1420-1429 | on failure the phase is "Failed" with the right message, and the history, its stored copy and the previous results are kept |
| `PageModel.FailureMessagesDiffer` | app/page.tsx:1421-1425 | the no-data text and the fallback error text differ |
| `PageModel.GenerateThenDelete` | app/page.tsx:1362-1419 | deleting the entry a success just added under a fresh id restores the old log |
| `PageModel.DeleteOnlyTouchesHistory` | app/page.tsx:1362-1368 | deleting changes only the log and its stored copy, and never lengthens the log |
| `PageModel.VisualsNeedVideo` | app/page.tsx:1435-1437 | without a truthy video at the index, the visual handler changes nothing |
| `PageModel.VisualsKeepManagerState` | app/page.tsx:1434-1481 | a visual run leaves the manager results and the history alone, ends idle with no agent active, and shows only the normalized answer for this video |
| `PageModel.VisualOutcomeShown` | app/page.tsx:1459-1477 | a call that returned data shows its normalized answer, any other outcome shows no result; a throw shows the error's message or "Visual generation failed" and no images, a returned envelope leaves the banner alone |
| `PageModel.VisualAssetsIgnoreSuccess` | app/page.tsx:1459-1474 | the asset URLs come from the envelope whatever its `success` flag and result say, and exactly one visual task is sent |
| `PageModel.VisualsPromptThrows` | app/page.tsx:1445-1476 | when building the task throws, no call is sent, the previous result stays cleared, and the engine's message for that `TypeError` is shown |
| `PageModel.MountWithEmptyStorage` | app/page.tsx:1333-1350 | a first visit starts from the default settings, writes them, and has no history |
| `PageModel.MountOutcomes` | app/page.tsx:1333-1350 | every mount ends with settings: the stored ones when they were read and the history read did not fail, the defaults otherwise; the stored history is adopted only when it was reached and is an array; the defaults are written back only on a first visit; nothing else changes |
| `PageModel.MountDefaultsUnwritable` | app/page.tsx:1338-1341 | when writing the defaults fails, the page uses them, stores nothing and does not read the history |
| `PageModel.MountUnreadableHistory` | app/page.tsx:1342-1349 | an unreadable stored history resets even successfully read settings to the defaults |
| `Studio.Page.constructor` | app/page.tsx:1319-1330 | the page starts with no settings, no results, an empty log and nothing busy |
| `Studio.Page.Mount` | app/page.tsx:1333-1350 | performs the mount transition on the fields, for each settings-slot outcome including a failing write of the defaults |
| `Studio.Page.SaveSettings` | app/page.tsx:1352-1355 | adopts and stores the settings |
| `Studio.Page.DeleteHistoryEntry` | app/page.tsx:1362-1368 | performs the delete transition |
| `Studio.Page.Generate` | app/page.tsx:1371-1431 | performs the generate transition step by step |
| `Studio.Page.StartGenerating` | app/page.tsx:1372-1386 | busy, error cleared, manager agent active, phase "Writing scripts...", task sent |
| `Studio.Page.RecordAnswer` | app/page.tsx:1388-1419 | the success branch |
| `Studio.Page.ShowAnswer` | app/page.tsx:1405-1407 | shows the normalized answer and its videos, phase "Complete!", agent cleared |
| `Studio.Page.AddEntry` | app/page.tsx:1419 | prepends the entry and writes the new log |
| `Studio.Page.ReportFailure` | app/page.tsx:1420-1429 | the failure branches |
| `Studio.Page.ReleaseBusy` | app/page.tsx:1430 | the delayed release of the busy flag |
| `Studio.Page.ToggleSample` | app/page.tsx:1506 | flips sample mode only |
| `Studio.Page.DismissError` | app/page.tsx:1526 | clears the error only |
| `Studio.Page.GenerateVisuals` | app/page.tsx:1434-1481 | performs the visual transition step by step |
| `Studio.Page.StartVisualRun` | app/page.tsx:1439-1442 | clears the previous result, loading, visual agent active |
| `Studio.Page.ApplyVisualOutcomeTo` | app/page.tsx:1444-1477 | the `try` block and its `catch` |
| `Studio.Page.RecordVisualAnswer` | app/page.tsx:1457-1474 | records the call, shows the answer when there is data, and takes the URLs in any case |
| `Studio.Page.EndVisualRun` | app/page.tsx:1479-1480 | no agent active, not loading |
| `Dashboard.StatusOf` | app/page.tsx:379-385 | a card is "Ready", labelled by the video's number (`??`) or else its position, titled by the video's title or "Untitled", with the video's duration or `0` (`??`) and its platform or "TikTok" (`||`); building it throws exactly for a `null` video or a number that does not convert to a string |
| `Dashboard.Statuses` | app/page.tsx:379-385 | one card per video, in order, unless building some card throws |
| `Dashboard.Placeholder` | app/page.tsx:388-394 | a placeholder is labelled by its position, shows the phase while generating and "Idle" otherwise, with duration `0` and platform "-" |
| `Dashboard.PadStatuses` | app/page.tsx:387-395 | the loop yields at least two cards, keeps the real ones in front, and fills the rest with the placeholders for their positions |
| `Dashboard.PositionLabelsDiffer` | app/page.tsx:389 | cards labelled by different positions have different labels |
| `Dashboard.UnnumberedLabelsDistinct` | app/page.tsx:379-395 | when no video has a number, all card labels, real and padding, are distinct |
| `Scheduling.AfterLoadSchedule` | app/page.tsx:915-928 | `loadSchedule` as a transition (stated by `LoadScheduleOutcomes`) |
| `Scheduling.AfterLoadLogs` | app/page.tsx:930-941 | `loadLogs` as a transition (stated by `FailedLogsKeepState` and `MountFetchesBoth`) |
| `Scheduling.AfterMountSchedule` | app/page.tsx:943-946 | the mount effect, and also the refresh button (app/page.tsx:1054), which runs the same two fetches from any state: the schedule first, then the runs (stated by `MountFetchesBoth`) |
| `Scheduling.AfterToggle` | app/page.tsx:948-962 | the toggle handler as a transition, testing `!schedule` by truthiness (stated by the `Toggle…` lemmas) |
| `Scheduling.AfterRunNow` | app/page.tsx:964-973 | the run-now handler as a transition (stated by `RunNowReloadsLogsOnly`) |
| `Scheduling.AfterDismissError` | app/page.tsx:983 | the banner's dismiss button clears the error |
| `Scheduling.ScheduleScreen.constructor` | app/page.tsx:908-913 | no schedule, no runs, loading already set |
| `Scheduling.ScheduleScreen.LoadSchedule` | app/page.tsx:915-928 | performs the load transition |
| `Scheduling.ScheduleScreen.LoadLogs` | app/page.tsx:930-941 | performs the load-logs transition |
| `Scheduling.ScheduleScreen.Mount` | app/page.tsx:943-946 | loads the schedule, then the runs; the refresh button (app/page.tsx:1054) is the same call sequence |
| `Scheduling.ScheduleScreen.Toggle` | app/page.tsx:948-962 | performs the toggle transition |
| `Scheduling.ScheduleScreen.RunNow` | app/page.tsx:964-973 | performs the run-now transition |
| `Scheduling.ScheduleScreen.DismissError` | app/page.tsx:983 | performs the dismiss transition |
| `Scheduling.ToggleWithoutSchedule` | app/page.tsx:949 | without a truthy schedule, the toggle changes nothing and calls nothing |
| `Scheduling.ToggleCalls` | app/page.tsx:948-962 | the toggle pauses an active schedule or resumes any other, then reloads the schedule unless that threw, and makes no other call |
| `Scheduling.ToggleCallsExactlyOne` | app/page.tsx:952-956 | of pause and resume exactly one is called: pause exactly when the schedule is active |
| `Scheduling.ToggleShowsFetchedSchedule` | app/page.tsx:948-962 | there is no optimistic flip: the shown schedule changes only to one that the reload fetched |
| `Scheduling.RunNowReloadsLogsOnly` | app/page.tsx:964-973 | run-now triggers, then reloads only the runs, never the schedule |
| `Scheduling.FailedLogsKeepState` | app/page.tsx:930-941 | a failed load of the runs leaves the runs and the error unchanged |
| `Scheduling.LoadScheduleOutcomes` | app/page.tsx:915-928 | success shows the schedule and keeps any earlier error; failure keeps the schedule and shows the response's error text, or "Failed to load schedule" |
| `Scheduling.MountFetchesBoth` | app/page.tsx:943-946 | mounting fetches the schedule and then the last 20 runs, and ends with nothing loading |
| `Scheduling.OnlyDismissClearsError` | app/page.tsx:913-983 | the two fetches, toggle and run-now never clear a shown error, whatever their outcome; the dismiss button clears it and changes nothing else |
| `Scheduling.FetchesKeepTruthySchedule` | app/page.tsx:915-946 | every shown schedule is truthy before mount and after each fetch |
| `Scheduling.ActionsKeepTruthySchedule` | app/page.tsx:948-983 | toggle, run-now and dismiss keep every shown schedule truthy |
| `Scheduling.ToggleTestOnTruthySchedule` | app/page.tsx:949 | on such a screen the toggle's `!schedule` test is the same as "no schedule shown" |

## Left out

- The markup, styling and theme, the `Sidebar`, the sample data's contents and
  `ErrorBoundary`: they are presentation. The sample videos are a parameter.
- `renderMarkdown` / `formatInline`: they build React nodes.
- The `callAIAgent` service and the `@/lib/scheduler` functions, including
  `cronToHuman`: they are foreign code. Each call is replaced by its outcome.
- `generateId` and `new Date().toISOString()`: they depend on randomness and
  the clock. The id and the timestamp are parameters.
- The dashboard's "this week" filter and its other counters: they depend on
  the clock, or are plain arithmetic over presentation data.
- The `setTimeout` delays: the release of `generating` is a method of its own,
  `ReleaseBusy`. The form's "saved" flag is left out.
- Local storage is modelled only as what each slot yields at mount, plus
  ghost copies of the last values written. A failed write in `saveSettings`,
  `saveHistory` or the delete handler is ignored, as in the code; only the
  failing write of the defaults at mount changes control flow, and it is a
  settings-slot outcome of its own. A value stored under the settings key is assumed to be a
  well-formed settings record. So the `Array.isArray` fallbacks of the manager
  task (`'N/A'`, `'Features'`, `'TikTok'`) are not reachable in the model.
  Stored `null` settings are not modelled either, and a stored history array
  is assumed to hold well-formed entries.
- Async interleaving: each handler runs to settlement in one step. So the
  model does not capture three things:
  - the `history` captured by `handleGenerate` going stale while its call is
    pending;
  - a late visual answer overwriting a newer one;
  - the two fetches of the schedule screen's mount overlapping.
- The "Researching..." phase is written and then immediately overwritten, so
  only the final phase of the start is visible in the model.
- JavaScript numbers are modelled as integers: NaN, fractions and the
  `String()` of non-integers are not modelled.
- `Scheduling.ScheduleOutcome`: the response's `error` is modelled as a
  string, with `""` standing for a missing one. A non-string `error` value is
  not modelled.
- The text of the engine's `TypeError`s is a parameter (`PageModel.TypeErrorTexts`),
  one message per cause; the model decides which cause is thrown, not its
  wording.
- `JsText.ToJsString` has no contract of its own: it is JavaScript's `String()`
  of a JSON value, and its value is meaningful only where
  `JsText.ToStringThrows` is false. The throwing case (an object with its own
  `toString` key, or an array holding one) is modelled as an error wherever a
  template inserts a value. A `toString` that is a function cannot come from
  JSON, so it is not modelled.
- Rendering an object or array as a React child (a card's duration or
  platform) is presentation and is left out.
