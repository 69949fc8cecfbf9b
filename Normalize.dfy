/**
 * The response normalizer of the generation page: it turns whatever the manager
 * agent or the visual agent returned as `response.result` into the page's typed
 * records, field by field, substituting `[]`, `""` or `0` for a missing or
 * wrongly typed field.
 *
 * Only the top-level fields and the research summary's own fields are checked.
 * The elements of `videos`, `key_findings`, `angles_used` and `scene_frames` are
 * passed through exactly as received (the source casts them), so here they stay
 * `Json` values.
 */
module Normalize {
  import opened Wrappers
  import opened Json

  datatype ResearchSummary = ResearchSummary(keyFindings: seq<Json>, anglesUsed: seq<Json>, dataSourcesCount: int)

  /** The summary the manager response falls back to when the agent sent none. */
  const EmptySummary := ResearchSummary([], [], 0)

  datatype ManagerResponse = ManagerResponse(
    researchSummary: ResearchSummary,
    videos: seq<Json>,
    contentStrategyNotes: string,
    visualStyleRecommendations: string)

  /**
   * A normalized visual-agent answer. `videoNumber` may be `undefined` (`None`) and
   * `videoTitle` may be any value, because when the agent omits them they are read
   * from the requested video, whose fields are never checked.
   */
  datatype VisualResponse = VisualResponse(
    videoNumber: Option<Json>,
    videoTitle: Json,
    thumbnailDescription: string,
    sceneFrames: seq<Json>,
    overallVisualDirection: string)

  /**
   * The research summary of a manager answer: `null` (`None`) exactly when the
   * `research_summary` field is falsy; otherwise each of its three fields is
   * defaulted on its own.
   */
  function NormalizeResearch(data: Json): (r: Option<ResearchSummary>)
    ensures r.None? <==> !Present(Field(data, "research_summary"))
    ensures r.Some? ==> var rs := Field(data, "research_summary").value;
      && r.value.keyFindings == ArrayOr(Field(rs, "key_findings"))
      && r.value.anglesUsed == ArrayOr(Field(rs, "angles_used"))
      && r.value.dataSourcesCount == NumberOr(Field(rs, "data_sources_count"), 0)
  {
    var field := Field(data, "research_summary");
    if Present(field) then
      var rs := field.value;
      Some(ResearchSummary(
        ArrayOr(Field(rs, "key_findings")),
        ArrayOr(Field(rs, "angles_used")),
        NumberOr(Field(rs, "data_sources_count"), 0)))
    else
      None
  }

  /**
   * The manager answer in the page's typed form; total over every JSON value.
   * Each field is the top-level field of the same name when that has the right
   * type, and `[]`, `""` or the empty summary otherwise.
   */
  function NormalizeManager(data: Json): (r: ManagerResponse)
    ensures IsArray(Field(data, "videos")) ==> r.videos == Field(data, "videos").value.items
    ensures !IsArray(Field(data, "videos")) ==> r.videos == []
    ensures IsString(Field(data, "content_strategy_notes")) ==>
      r.contentStrategyNotes == Field(data, "content_strategy_notes").value.s
    ensures !IsString(Field(data, "content_strategy_notes")) ==> r.contentStrategyNotes == ""
    ensures IsString(Field(data, "visual_style_recommendations")) ==>
      r.visualStyleRecommendations == Field(data, "visual_style_recommendations").value.s
    ensures !IsString(Field(data, "visual_style_recommendations")) ==> r.visualStyleRecommendations == ""
    ensures NormalizeResearch(data).Some? ==> r.researchSummary == NormalizeResearch(data).value
    ensures NormalizeResearch(data).None? ==> r.researchSummary == EmptySummary
  {
    ManagerResponse(
      NormalizeResearch(data).GetOr(EmptySummary),
      ArrayOr(Field(data, "videos")),
      StringOr(Field(data, "content_strategy_notes"), ""),
      StringOr(Field(data, "visual_style_recommendations"), ""))
  }

  /**
   * The visual answer for the video `video` was requested for. `video_number` and
   * `video_title` fall back to that video's own `video_number` and `title || ''`;
   * the other fields are taken when they have the right type and are `""` or `[]`
   * otherwise.
   */
  function NormalizeVisual(data: Json, video: Json): (r: VisualResponse)
    ensures IsNumber(Field(data, "video_number")) ==> r.videoNumber == Field(data, "video_number")
    ensures !IsNumber(Field(data, "video_number")) ==> r.videoNumber == Field(video, "video_number")
    ensures IsString(Field(data, "video_title")) ==> r.videoTitle == Field(data, "video_title").value
    ensures !IsString(Field(data, "video_title")) ==>
      r.videoTitle == if Present(Field(video, "title")) then Field(video, "title").value else JStr("")
    ensures IsString(Field(data, "thumbnail_description")) ==>
      r.thumbnailDescription == Field(data, "thumbnail_description").value.s
    ensures !IsString(Field(data, "thumbnail_description")) ==> r.thumbnailDescription == ""
    ensures IsArray(Field(data, "scene_frames")) ==> r.sceneFrames == Field(data, "scene_frames").value.items
    ensures !IsArray(Field(data, "scene_frames")) ==> r.sceneFrames == []
    ensures IsString(Field(data, "overall_visual_direction")) ==>
      r.overallVisualDirection == Field(data, "overall_visual_direction").value.s
    ensures !IsString(Field(data, "overall_visual_direction")) ==> r.overallVisualDirection == ""
  {
    VisualResponse(
      match Field(data, "video_number")
      case Some(JNum(n)) => Some(JNum(n))
      case _ => Field(video, "video_number"),
      match Field(data, "video_title")
      case Some(JStr(s)) => JStr(s)
      case _ => if Present(Field(video, "title")) then Field(video, "title").value else JStr(""),
      StringOr(Field(data, "thumbnail_description"), ""),
      ArrayOr(Field(data, "scene_frames")),
      StringOr(Field(data, "overall_visual_direction"), ""))
  }

  /** `f?.file_url` for one element of `artifact_files`. */
  function FileUrl(f: Json): Option<Json> {
    Field(f, "file_url")
  }

  /** The truthy `file_url`s of `files`, in order. */
  function TruthyUrls(files: seq<Json>): (r: seq<Json>)
    ensures |r| <= |files|
    ensures forall k :: 0 <= k < |r| ==> Truthy(r[k])
  {
    if files == [] then []
    else
      var u := FileUrl(files[0]);
      (if Present(u) then [u.value] else []) + TruthyUrls(files[1..])
  }

  /**
   * The asset URLs of a visual answer, taken from `module_outputs.artifact_files`
   * of the envelope (not from `result`): `[]` unless that field is an array.
   */
  function AssetUrls(artifactFiles: Option<Json>): (r: seq<Json>)
    ensures !IsArray(artifactFiles) ==> r == []
    ensures IsArray(artifactFiles) ==> r == TruthyUrls(artifactFiles.value.items)
    ensures forall k :: 0 <= k < |r| ==> Truthy(r[k])
  {
    TruthyUrls(ArrayOr(artifactFiles))
  }

  // ---------------------------------------------------------------------------
  // Properties
  // ---------------------------------------------------------------------------

  /** The URL list is taken element by element: it distributes over concatenation. */
  lemma {:induction false} TruthyUrlsAppend(a: seq<Json>, b: seq<Json>)
    ensures TruthyUrls(a + b) == TruthyUrls(a) + TruthyUrls(b)
  {
    if a == [] {
      assert a + b == b;
    } else {
      assert (a + b)[1..] == a[1..] + b;
      TruthyUrlsAppend(a[1..], b);
    }
  }

  /** A value is an asset URL exactly when some artifact file carries it as a truthy `file_url`. */
  lemma {:induction false} TruthyUrlsMembers(files: seq<Json>, u: Json)
    ensures u in TruthyUrls(files) <==> Truthy(u) && exists k :: 0 <= k < |files| && FileUrl(files[k]) == Some(u)
  {
    if files != [] {
      TruthyUrlsMembers(files[1..], u);
      if u !in TruthyUrls(files) && Truthy(u) {
        forall k | 0 <= k < |files| ensures FileUrl(files[k]) != Some(u) {
          if k > 0 { assert files[k] == files[1..][k - 1]; }
        }
      }
      if u in TruthyUrls(files) && !(u in TruthyUrls(files[1..])) {
        assert FileUrl(files[0]) == Some(u);
      }
      if u in TruthyUrls(files[1..]) {
        var k :| 0 <= k < |files[1..]| && FileUrl(files[1..][k]) == Some(u);
        assert FileUrl(files[k + 1]) == Some(u);
      }
    }
  }

  /** When every artifact file has a truthy `file_url`, the URL list is exactly those URLs, in order. */
  lemma {:induction false} TruthyUrlsAllPresent(files: seq<Json>)
    requires forall k :: 0 <= k < |files| ==> Present(FileUrl(files[k]))
    ensures |TruthyUrls(files)| == |files|
    ensures forall k :: 0 <= k < |files| ==> Some(TruthyUrls(files)[k]) == FileUrl(files[k])
  {
    if files != [] {
      TruthyUrlsAllPresent(files[1..]);
      forall k | 1 <= k < |files| ensures Some(TruthyUrls(files)[k]) == FileUrl(files[k]) {
        assert files[1..][k - 1] == files[k];
      }
    }
  }

  /** A nested summary that is present but malformed keeps a summary with all-default fields. */
  lemma MalformedSummaryNotNull(data: Json)
    requires Present(Field(data, "research_summary"))
    requires !Field(data, "research_summary").value.JObj?
    ensures NormalizeResearch(data) == Some(EmptySummary)
  {
  }

  /**
   * Field independence: each field of the normalized manager answer is decided
   * by its own top-level field only, so a malformed `research_summary` cannot
   * disturb `videos` and vice versa.
   */
  lemma ManagerFieldIndependence(fields: map<string, Json>, key: string, v: Json)
    ensures key != "videos" ==>
      NormalizeManager(JObj(fields[key := v])).videos == NormalizeManager(JObj(fields)).videos
    ensures key != "research_summary" ==>
      NormalizeManager(JObj(fields[key := v])).researchSummary == NormalizeManager(JObj(fields)).researchSummary
    ensures key != "content_strategy_notes" ==>
      NormalizeManager(JObj(fields[key := v])).contentStrategyNotes == NormalizeManager(JObj(fields)).contentStrategyNotes
    ensures key != "visual_style_recommendations" ==>
      NormalizeManager(JObj(fields[key := v])).visualStyleRecommendations
        == NormalizeManager(JObj(fields)).visualStyleRecommendations
  {
  }

  /** The JSON a well-behaved manager agent sends for `m`. */
  function EncodeSummary(s: ResearchSummary): Json {
    JObj(map[
      "key_findings" := JArr(s.keyFindings),
      "angles_used" := JArr(s.anglesUsed),
      "data_sources_count" := JNum(s.dataSourcesCount)])
  }

  function EncodeManager(m: ManagerResponse): Json {
    JObj(map[
      "research_summary" := EncodeSummary(m.researchSummary),
      "videos" := JArr(m.videos),
      "content_strategy_notes" := JStr(m.contentStrategyNotes),
      "visual_style_recommendations" := JStr(m.visualStyleRecommendations)])
  }

  /** A schema-conforming manager answer is copied through unchanged. */
  lemma ManagerRoundTrip(m: ManagerResponse)
    ensures NormalizeManager(EncodeManager(m)) == m
    ensures NormalizeResearch(EncodeManager(m)) == Some(m.researchSummary)
  {
    var data := EncodeManager(m);
    var rs := EncodeSummary(m.researchSummary);
    assert Field(data, "research_summary") == Some(rs);
    assert Field(rs, "key_findings") == Some(JArr(m.researchSummary.keyFindings));
    assert Field(rs, "angles_used") == Some(JArr(m.researchSummary.anglesUsed));
    assert Field(rs, "data_sources_count") == Some(JNum(m.researchSummary.dataSourcesCount));
    assert Field(data, "videos") == Some(JArr(m.videos));
    assert Field(data, "content_strategy_notes") == Some(JStr(m.contentStrategyNotes));
    assert Field(data, "visual_style_recommendations") == Some(JStr(m.visualStyleRecommendations));
  }

  /** A visual answer whose number and title are well typed, as a well-behaved agent sends it. */
  predicate WellTypedVisual(v: VisualResponse) {
    v.videoNumber.Some? && v.videoNumber.value.JNum? && v.videoTitle.JStr?
  }

  function EncodeVisual(v: VisualResponse): Json
    requires WellTypedVisual(v)
  {
    JObj(map[
      "video_number" := v.videoNumber.value,
      "video_title" := v.videoTitle,
      "thumbnail_description" := JStr(v.thumbnailDescription),
      "scene_frames" := JArr(v.sceneFrames),
      "overall_visual_direction" := JStr(v.overallVisualDirection)])
  }

  /** A schema-conforming visual answer is copied through whatever video it was requested for. */
  lemma VisualRoundTrip(v: VisualResponse, video: Json)
    requires WellTypedVisual(v)
    ensures NormalizeVisual(EncodeVisual(v), video) == v
  {
    var data := EncodeVisual(v);
    assert Field(data, "video_number") == v.videoNumber;
    assert Field(data, "video_title") == Some(v.videoTitle);
    assert Field(data, "thumbnail_description") == Some(JStr(v.thumbnailDescription));
    assert Field(data, "scene_frames") == Some(JArr(v.sceneFrames));
    assert Field(data, "overall_visual_direction") == Some(JStr(v.overallVisualDirection));
  }
}
