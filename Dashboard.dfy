/**
 * The status cards of the dashboard: one card per displayed video, padded with
 * placeholder cards to at least two. The placeholders show the generation
 * phase while a generation runs and "Idle" otherwise.
 */
module Dashboard {
  import opened Wrappers
  import opened Json
  import opened JsText

  /** One status card. Title, duration and platform are whatever the video holds (the source does not check them). */
  datatype VideoStatus = VideoStatus(cardLabel: string, title: Json, duration: Json, platform: Json, status: string)

  /** The least number of cards the dashboard shows. */
  const MIN_CARDS := 2

  /** `o ?? …` takes the fallback exactly when `o` is `null` or `undefined`. */
  predicate Nullish(o: Option<Json>) {
    o.None? || o.value.JNull?
  }

  /** The card label for position `i`: "Video " and the one-based position. */
  function PositionLabel(i: nat): string {
    "Video " + NatToString(i + 1)
  }

  /**
   * Building the card of `v` throws: `v` is `null`, where reading `v.video_number`
   * throws, or the label's template meets a number that does not convert.
   */
  predicate CardThrows(v: Json) {
    v.JNull? || (!Nullish(Field(v, "video_number")) && ToStringThrows(Field(v, "video_number").value))
  }

  /** The card of video `v` at position `i`; `None` when building it throws. */
  function StatusOf(v: Json, i: nat): (r: Option<VideoStatus>)
    ensures r.None? <==> CardThrows(v)
    ensures r.Some? ==> r.value.status == "Ready"
    ensures r.Some? && Nullish(Field(v, "video_number")) ==> r.value.cardLabel == PositionLabel(i)
    ensures r.Some? && !Nullish(Field(v, "video_number")) ==>
      r.value.cardLabel == "Video " + ToJsString(Field(v, "video_number").value)
    ensures r.Some? && Present(Field(v, "title")) ==> r.value.title == Field(v, "title").value
    ensures r.Some? && !Present(Field(v, "title")) ==> r.value.title == JStr("Untitled")
    ensures r.Some? && Nullish(Field(v, "total_duration_seconds")) ==> r.value.duration == JNum(0)
    ensures r.Some? && !Nullish(Field(v, "total_duration_seconds")) ==>
      r.value.duration == Field(v, "total_duration_seconds").value
    ensures r.Some? && Present(Field(v, "platform_target")) ==> r.value.platform == Field(v, "platform_target").value
    ensures r.Some? && !Present(Field(v, "platform_target")) ==> r.value.platform == JStr("TikTok")
  {
    if CardThrows(v) then None
    else
      var number := Field(v, "video_number");
      var duration := Field(v, "total_duration_seconds");
      var title := Field(v, "title");
      var platform := Field(v, "platform_target");
      Some(VideoStatus(
        if Nullish(number) then PositionLabel(i) else "Video " + ToJsString(number.value),
        if Present(title) then title.value else JStr("Untitled"),
        if Nullish(duration) then JNum(0) else duration.value,
        if Present(platform) then platform.value else JStr("TikTok"),
        "Ready"))
  }

  /** The cards of the displayed videos, in order; `None` when building some card throws. */
  function Statuses(videos: seq<Json>): (r: Option<seq<VideoStatus>>)
    ensures r.None? <==> exists k :: 0 <= k < |videos| && CardThrows(videos[k])
    ensures r.Some? ==> |r.value| == |videos|
    ensures r.Some? ==> forall i :: 0 <= i < |videos| ==> Some(r.value[i]) == StatusOf(videos[i], i)
  {
    if exists k :: 0 <= k < |videos| && CardThrows(videos[k]) then None
    else Some(seq(|videos|, i requires 0 <= i < |videos| => StatusOf(videos[i], i).value))
  }

  /** The placeholder card at position `k`. */
  function Placeholder(k: nat, generating: bool, generationPhase: string): (r: VideoStatus)
    ensures r.cardLabel == PositionLabel(k)
    ensures generating ==> r.status == generationPhase && r.title == JStr(generationPhase)
    ensures !generating ==> r.status == "Idle" && r.title == JStr("Idle")
    ensures r.duration == JNum(0) && r.platform == JStr("-")
  {
    var text := if generating then generationPhase else "Idle";
    VideoStatus(PositionLabel(k), JStr(text), JNum(0), JStr("-"), text)
  }

  /**
   * The padding loop: pushes placeholders until there are two cards. The cards
   * already there are kept, and each placeholder is labelled with its own position.
   */
  method PadStatuses(statuses: seq<VideoStatus>, generating: bool, generationPhase: string)
    returns (r: seq<VideoStatus>)
    ensures |r| == if |statuses| < MIN_CARDS then MIN_CARDS else |statuses|
    ensures r[..|statuses|] == statuses
    ensures forall k :: |statuses| <= k < |r| ==> r[k] == Placeholder(k, generating, generationPhase)
  {
    r := statuses;
    while |r| < MIN_CARDS
      invariant |statuses| <= |r|
      invariant |statuses| < MIN_CARDS ==> |r| <= MIN_CARDS
      invariant |statuses| >= MIN_CARDS ==> r == statuses
      invariant r[..|statuses|] == statuses
      invariant forall k :: |statuses| <= k < |r| ==> r[k] == Placeholder(k, generating, generationPhase)
      decreases MIN_CARDS - |r|
    {
      r := r + [Placeholder(|r|, generating, generationPhase)];
    }
  }

  // ---------------------------------------------------------------------------
  // Properties
  // ---------------------------------------------------------------------------

  /** Cards at different positions that are labelled by position carry different labels. */
  lemma PositionLabelsDiffer(i: nat, j: nat)
    requires i != j
    ensures PositionLabel(i) != PositionLabel(j)
  {
    if PositionLabel(i) == PositionLabel(j) {
      var p := "Video ";
      assert PositionLabel(i)[|p|..] == NatToString(i + 1);
      assert PositionLabel(j)[|p|..] == NatToString(j + 1);
      NatToStringInjective(i + 1, j + 1);
    }
  }

  /**
   * When no displayed video carries a number, every card, real or placeholder,
   * is labelled by its position, so no two cards share a label.
   */
  lemma UnnumberedLabelsDistinct(videos: seq<Json>, padded: seq<VideoStatus>, generating: bool, phase: string,
                                 i: nat, j: nat)
    requires Statuses(videos).Some?
    requires forall k :: 0 <= k < |videos| ==> Nullish(Field(videos[k], "video_number"))
    requires |padded| >= |videos| && padded[..|videos|] == Statuses(videos).value
    requires forall k :: |videos| <= k < |padded| ==> padded[k] == Placeholder(k, generating, phase)
    requires i < j < |padded|
    ensures padded[i].cardLabel == PositionLabel(i) && padded[j].cardLabel == PositionLabel(j)
    ensures padded[i].cardLabel != padded[j].cardLabel
  {
    forall k | 0 <= k < |padded| ensures padded[k].cardLabel == PositionLabel(k) {
      if k < |videos| {
        assert padded[k] == padded[..|videos|][k] == Statuses(videos).value[k];
        assert Some(padded[k]) == StatusOf(videos[k], k);
      }
    }
    PositionLabelsDiffer(i, j);
  }
}
