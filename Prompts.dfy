/**
 * The natural-language task descriptions sent to the two agents. Each is the
 * whole contract with its agent: no structured request is sent.
 */
module Prompts {
  import opened Wrappers
  import opened Json
  import opened JsText
  import opened SettingsForm

  /** The wording the manager task uses for an empty audience and an empty brand voice. */
  const DEFAULT_AUDIENCE := "general SaaS users"
  const DEFAULT_VOICE := "professional"

  /** The lines of the manager agent's task, rendered from the settings. */
  function ManagerPromptLines(s: SettingsData): seq<string> {
    [ "Create a 2-video viral content package for the SaaS product \"" + s.productName + "\""
        + (if s.productUrl != "" then " (" + s.productUrl + ")" else "") + ".",
      "Key features: " + Join(s.keyFeatures, ", ") + ".",
      "Target audience: " + TextOr(s.targetAudience, DEFAULT_AUDIENCE) + ".",
      "Brand voice: " + TextOr(s.brandVoice, DEFAULT_VOICE) + ".",
      "Content pillars to focus on: " + Join(s.contentPillars, ", ") + ".",
      "Platform targets: " + Join(s.platformTargets, ", ") + "." ]
  }

  /** The manager agent's task: the lines above, one per line. */
  function ManagerPrompt(s: SettingsData): string {
    Join(ManagerPromptLines(s), "\n")
  }

  /**
   * Why building the visual task throws a `TypeError`: reading `scene_number` of a
   * `null` scene, or a template literal meeting a value it cannot convert.
   */
  datatype TypeErrorCause = NullScene | NotPrimitive

  /**
   * The `TypeError` one scene's line throws, if any. A `null` scene fails at the
   * first read; otherwise a field whose conversion throws fails it.
   */
  function SceneLineError(scene: Json): Option<TypeErrorCause> {
    if scene.JNull? then Some(NullScene)
    else if TemplateThrows(Field(scene, "scene_number")) || TemplateThrows(Field(scene, "visual_description"))
         || TemplateThrows(Field(scene, "text_overlay")) || TemplateThrows(Field(scene, "b_roll_cue"))
    then Some(NotPrimitive)
    else None
  }

  /** One scene's line of the visual task; `None` when building it throws. */
  function SceneLine(scene: Json): (r: Option<string>)
    ensures r.None? <==> SceneLineError(scene).Some?
  {
    if SceneLineError(scene).Some? then None
    else Some("Scene " + Template(Field(scene, "scene_number")) + ": "
              + TemplateOr(Field(scene, "visual_description"), "")
              + " - Text overlay: \"" + TemplateOr(Field(scene, "text_overlay"), "") + "\""
              + " - B-roll: " + TemplateOr(Field(scene, "b_roll_cue"), ""))
  }

  /**
   * The `TypeError` mapping `scenes` throws: the scenes are mapped in order, so it
   * is the error of the first scene whose line throws.
   */
  function ScenesError(scenes: seq<Json>): (r: Option<TypeErrorCause>)
    ensures r.None? <==> forall k :: 0 <= k < |scenes| ==> SceneLineError(scenes[k]).None?
    ensures r.Some? ==> exists k :: 0 <= k < |scenes| && SceneLineError(scenes[k]) == r
                                    && forall m :: 0 <= m < k ==> SceneLineError(scenes[m]).None?
  {
    if scenes == [] then None
    else if SceneLineError(scenes[0]).Some? then SceneLineError(scenes[0])
    else
      var rest := ScenesError(scenes[1..]);
      assert forall k :: 1 <= k < |scenes| ==> scenes[k] == scenes[1..][k - 1];
      rest
  }

  /** The scene array of `video`, when `scenes` is an array. */
  predicate HasScenes(video: Json) {
    Field(video, "scenes").Some? && Field(video, "scenes").value.JArr?
  }

  /**
   * The `TypeError` building the visual task for `video` throws, if any: first the
   * scene lines, in order; then the number, the title, the hook, the platform
   * and the aspect ratio the task's lines insert.
   */
  function PromptError(video: Json): Option<TypeErrorCause> {
    if HasScenes(video) && ScenesError(Field(video, "scenes").value.items).Some? then
      ScenesError(Field(video, "scenes").value.items)
    else if TemplateThrows(Field(video, "video_number")) || TemplateThrows(Field(video, "title"))
         || TemplateThrows(Field(video, "hook")) || TemplateThrows(Field(video, "platform_target"))
         || TemplateThrows(Field(video, "aspect_ratio"))
    then Some(NotPrimitive)
    else None
  }

  /** Building the visual task throws. */
  predicate PromptThrows(video: Json) {
    PromptError(video).Some?
  }

  /**
   * The scene descriptions of a video: its scene lines joined by newlines, `""`
   * when `scenes` is no array, and `None` when a scene's line throws.
   */
  function SceneDescriptions(video: Json): (r: Option<string>)
    ensures r.None? <==> HasScenes(video) && ScenesError(Field(video, "scenes").value.items).Some?
  {
    match Field(video, "scenes")
    case Some(JArr(scenes)) =>
      if ScenesError(scenes).Some? then None
      else Some(Join(seq(|scenes|, i requires 0 <= i < |scenes| => SceneLine(scenes[i]).value), "\n"))
    case _ => Some("")
  }

  /** The end of the visual task's first line: the quoted title (`title || ''`). */
  function TitleClause(video: Json): string {
    ": \"" + TemplateOr(Field(video, "title"), "") + "\"."
  }

  /** The lines of the visual agent's task for `video`, given its scene descriptions. */
  function VisualPromptLines(video: Json, scenes: string): seq<string> {
    [ "Generate visual storyboard frames and a thumbnail for Video " + Template(Field(video, "video_number"))
        + TitleClause(video),
      "Hook: " + TemplateOr(Field(video, "hook"), ""),
      "Platform: " + TemplateOr(Field(video, "platform_target"), "TikTok"),
      "Aspect ratio: " + TemplateOr(Field(video, "aspect_ratio"), "9:16"),
      "Scenes:",
      scenes,
      "Create eye-catching visuals that match the viral short-form video style." ]
  }

  /** The visual agent's task for `video`; `None` when building it throws. */
  function VisualPrompt(video: Json): (r: Option<string>)
    ensures r.None? <==> PromptThrows(video)
  {
    if PromptThrows(video) then None
    else Some(Join(VisualPromptLines(video, SceneDescriptions(video).value), "\n"))
  }

  // ---------------------------------------------------------------------------
  // Properties
  // ---------------------------------------------------------------------------

  lemma ContainsTrans(t: string, u: string, w: string)
    requires Contains(t, u) && Contains(u, w)
    ensures Contains(t, w)
  {
    var i :| OccursAt(t, u, i);
    var j :| OccursAt(u, w, j);
    forall k | 0 <= k < |w| ensures t[i + j + k] == w[k] {
      assert t[i + j + k] == t[i..i + |u|][j + k];
      assert w[k] == u[j..j + |w|][k];
    }
    assert t[i + j..i + j + |w|] == w;
    assert OccursAt(t, w, i + j);
  }

  /** `w` inside `a + w + b`. */
  lemma ContainsMiddle(a: string, w: string, b: string)
    ensures Contains(a + w + b, w)
  {
    ContainsSelf(w);
    ContainsRight(a, w, w);
    ContainsLeft(a + w, w, b);
  }

  /** A line of a joined text is part of the text. */
  lemma LineInText(lines: seq<string>, k: nat, w: string)
    requires k < |lines| && Contains(lines[k], w)
    ensures Contains(Join(lines, "\n"), w)
  {
    JoinMentions(lines, "\n", k);
    ContainsTrans(Join(lines, "\n"), lines[k], w);
  }

  /** The manager task names the product, and its URL when there is one. */
  lemma ManagerPromptNamesProduct(s: SettingsData)
    ensures Contains(ManagerPrompt(s), s.productName)
    ensures s.productUrl != "" ==> Contains(ManagerPrompt(s), " (" + s.productUrl + ")")
  {
    var lines := ManagerPromptLines(s);
    var head := "Create a 2-video viral content package for the SaaS product \"";
    var urlPart := if s.productUrl != "" then " (" + s.productUrl + ")" else "";
    assert lines[0] == head + s.productName + ("\"" + urlPart + ".");
    ContainsMiddle(head, s.productName, "\"" + urlPart + ".");
    LineInText(lines, 0, s.productName);
    if s.productUrl != "" {
      assert lines[0] == head + s.productName + "\"" + urlPart + ".";
      ContainsMiddle(head + s.productName + "\"", urlPart, ".");
      LineInText(lines, 0, urlPart);
    }
  }

  /** Every key feature, pillar and platform of the settings is named in the manager task. */
  lemma ManagerPromptNamesLists(s: SettingsData, k: nat)
    ensures k < |s.keyFeatures| ==> Contains(ManagerPrompt(s), s.keyFeatures[k])
    ensures k < |s.contentPillars| ==> Contains(ManagerPrompt(s), s.contentPillars[k])
    ensures k < |s.platformTargets| ==> Contains(ManagerPrompt(s), s.platformTargets[k])
  {
    var lines := ManagerPromptLines(s);
    if k < |s.keyFeatures| {
      JoinMentions(s.keyFeatures, ", ", k);
      ContainsRight("Key features: ", Join(s.keyFeatures, ", "), s.keyFeatures[k]);
      ContainsLeft("Key features: " + Join(s.keyFeatures, ", "), s.keyFeatures[k], ".");
      LineInText(lines, 1, s.keyFeatures[k]);
    }
    if k < |s.contentPillars| {
      JoinMentions(s.contentPillars, ", ", k);
      ContainsRight("Content pillars to focus on: ", Join(s.contentPillars, ", "), s.contentPillars[k]);
      ContainsLeft("Content pillars to focus on: " + Join(s.contentPillars, ", "), s.contentPillars[k], ".");
      LineInText(lines, 4, s.contentPillars[k]);
    }
    if k < |s.platformTargets| {
      JoinMentions(s.platformTargets, ", ", k);
      ContainsRight("Platform targets: ", Join(s.platformTargets, ", "), s.platformTargets[k]);
      ContainsLeft("Platform targets: " + Join(s.platformTargets, ", "), s.platformTargets[k], ".");
      LineInText(lines, 5, s.platformTargets[k]);
    }
  }

  /** The audience line: the audience from the settings, or the fixed wording when it is empty. */
  lemma ManagerPromptAudience(s: SettingsData)
    ensures s.targetAudience == "" ==> Contains(ManagerPrompt(s), "Target audience: " + DEFAULT_AUDIENCE + ".")
    ensures s.targetAudience != "" ==> Contains(ManagerPrompt(s), "Target audience: " + s.targetAudience + ".")
  {
    var lines := ManagerPromptLines(s);
    ContainsSelf(lines[2]);
    LineInText(lines, 2, lines[2]);
  }

  /** The voice line: the brand voice from the settings, or the fixed wording when it is empty. */
  lemma ManagerPromptVoice(s: SettingsData)
    ensures s.brandVoice == "" ==> Contains(ManagerPrompt(s), "Brand voice: " + DEFAULT_VOICE + ".")
    ensures s.brandVoice != "" ==> Contains(ManagerPrompt(s), "Brand voice: " + s.brandVoice + ".")
  {
    var lines := ManagerPromptLines(s);
    ContainsSelf(lines[3]);
    LineInText(lines, 3, lines[3]);
  }

  /**
   * Every value the visual task inserts converts to a string: the video's number,
   * title, hook, platform and aspect ratio, and the fields of every scene that
   * is not `null`.
   */
  predicate ConvertibleVideo(video: Json) {
    && !TemplateThrows(Field(video, "video_number")) && !TemplateThrows(Field(video, "title"))
    && !TemplateThrows(Field(video, "hook")) && !TemplateThrows(Field(video, "platform_target"))
    && !TemplateThrows(Field(video, "aspect_ratio"))
    && (HasScenes(video) ==> forall k :: 0 <= k < |Field(video, "scenes").value.items| ==>
          Field(video, "scenes").value.items[k] != JNull ==> SceneLineError(Field(video, "scenes").value.items[k]).None?)
  }

  /**
   * When every inserted value converts, building the visual task throws exactly
   * when `scenes` is an array holding a `null` scene, and the error is then the
   * read of that scene's `scene_number`.
   */
  lemma OnlyNullScenesThrow(video: Json)
    requires ConvertibleVideo(video)
    ensures PromptThrows(video) <==> HasScenes(video) && JNull in Field(video, "scenes").value.items
    ensures PromptThrows(video) ==> PromptError(video) == Some(NullScene)
  {
    if HasScenes(video) {
      var scenes := Field(video, "scenes").value.items;
      if JNull in scenes {
        var k :| 0 <= k < |scenes| && scenes[k] == JNull;
        assert SceneLineError(scenes[k]).Some?;
      }
      if ScenesError(scenes).Some? {
        var k :| 0 <= k < |scenes| && SceneLineError(scenes[k]) == ScenesError(scenes);
        assert scenes[k] == JNull;
      }
    }
  }

  /** A visual task that can be built is the task's lines, with the scene descriptions, joined by newlines. */
  lemma VisualPromptText(video: Json)
    requires VisualPrompt(video).Some?
    ensures SceneDescriptions(video).Some?
    ensures VisualPrompt(video).value == Join(VisualPromptLines(video, SceneDescriptions(video).value), "\n")
  {
    assert !PromptThrows(video);
    assert !(HasScenes(video) && ScenesError(Field(video, "scenes").value.items).Some?);
  }

  /** With an array of scenes none of which throws, the descriptions are the scene lines joined by newlines. */
  lemma SceneDescriptionsText(video: Json) returns (lineOf: seq<string>)
    requires HasScenes(video) && SceneDescriptions(video).Some?
    ensures |lineOf| == |Field(video, "scenes").value.items|
    ensures forall k :: 0 <= k < |lineOf| ==> Some(lineOf[k]) == SceneLine(Field(video, "scenes").value.items[k])
    ensures SceneDescriptions(video).value == Join(lineOf, "\n")
  {
    var scenes := Field(video, "scenes").value.items;
    lineOf := seq(|scenes|, i requires 0 <= i < |scenes| => SceneLine(scenes[i]).value);
  }

  /** The visual task states the video's title (or nothing) and, for every scene, that scene's line. */
  lemma VisualPromptNamesScenes(video: Json, k: nat)
    requires VisualPrompt(video).Some?
    requires Field(video, "scenes").Some? && Field(video, "scenes").value.JArr?
    requires k < |Field(video, "scenes").value.items|
    ensures var scene := Field(video, "scenes").value.items[k];
      SceneLine(scene).Some? && Contains(VisualPrompt(video).value, SceneLine(scene).value)
  {
    var scenes := Field(video, "scenes").value.items;
    VisualPromptText(video);
    var text := SceneDescriptions(video).value;
    var lineOf := SceneDescriptionsText(video);
    JoinMentions(lineOf, "\n", k);
    LineInText(VisualPromptLines(video, text), 5, lineOf[k]);
  }

  /** The visual task names the title (`title || ''`) on its first line. */
  lemma VisualPromptNamesTitle(video: Json)
    requires VisualPrompt(video).Some?
    ensures Contains(VisualPrompt(video).value, ": \"" + TemplateOr(Field(video, "title"), "") + "\".")
  {
    VisualPromptText(video);
    var lines := VisualPromptLines(video, SceneDescriptions(video).value);
    var pre := "Generate visual storyboard frames and a thumbnail for Video " + Template(Field(video, "video_number"));
    ContainsSelf(TitleClause(video));
    ContainsRight(pre, TitleClause(video), TitleClause(video));
    LineInText(lines, 0, TitleClause(video));
  }
}
