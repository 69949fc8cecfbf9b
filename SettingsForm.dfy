/**
 * The product settings and the edits the settings form makes to its working copy
 * before it is saved: adding and removing key features and toggling content
 * pillars and target platforms.
 */
module SettingsForm {
  import opened JsText

  datatype SettingsData = SettingsData(
    productName: string,
    productUrl: string,
    keyFeatures: seq<string>,
    targetAudience: string,
    brandVoice: string,
    contentPillars: seq<string>,
    platformTargets: seq<string>)

  /** The settings used when none are stored. */
  const DEFAULT_SETTINGS := SettingsData(
    "Emergent",
    "https://emergent.sh",
    ["AI-powered app builder", "No coding required", "Visual interface", "Rapid app development"],
    "Non-technical entrepreneurs, startup founders, small business owners, and teams looking to build apps without developers",
    "Empowering, modern, accessible, bold",
    ["Features", "Use Cases", "Problem-Solution"],
    ["TikTok", "Instagram Reels", "YouTube Shorts"])

  /** The form's working copy together with the text typed into the feature box. */
  datatype FormState = FormState(form: SettingsData, featureInput: string)

  /** `xs.filter(x => x !== p)`. */
  function Without(xs: seq<string>, p: string): (r: seq<string>)
    ensures |r| <= |xs|
    ensures p !in r
    ensures forall x :: x in r <==> x in xs && x != p
  {
    if xs == [] then []
    else if xs[0] == p then Without(xs[1..], p)
    else [xs[0]] + Without(xs[1..], p)
  }

  /** `xs.includes(p) ? xs.filter(x => x !== p) : [...xs, p]`. */
  function ToggleTag(xs: seq<string>, p: string): (r: seq<string>)
    ensures p in xs ==> p !in r && forall x :: x in r <==> x in xs && x != p
    ensures p !in xs ==> r == xs + [p]
  {
    if p in xs then Without(xs, p) else xs + [p]
  }

  /** `xs.filter((_, i) => i !== idx)`, for the elements from position `base` on. */
  function WithoutIndexFrom(xs: seq<string>, idx: int, base: int): seq<string>
    decreases |xs|
  {
    if xs == [] then []
    else (if base == idx then [] else [xs[0]]) + WithoutIndexFrom(xs[1..], idx, base + 1)
  }

  /** `xs.filter((_, i) => i !== idx)`: exactly position `idx` goes, when there is one. */
  function WithoutIndex(xs: seq<string>, idx: int): (r: seq<string>)
    ensures 0 <= idx < |xs| ==> r == xs[..idx] + xs[idx + 1..]
    ensures !(0 <= idx < |xs|) ==> r == xs
  {
    WithoutIndexFromSpec(xs, idx, 0);
    WithoutIndexFrom(xs, idx, 0)
  }

  lemma {:induction false} WithoutIndexFromSpec(xs: seq<string>, idx: int, base: int)
    ensures base <= idx < base + |xs| ==> WithoutIndexFrom(xs, idx, base) == xs[..idx - base] + xs[idx - base + 1..]
    ensures !(base <= idx < base + |xs|) ==> WithoutIndexFrom(xs, idx, base) == xs
    decreases |xs|
  {
    if xs != [] {
      WithoutIndexFromSpec(xs[1..], idx, base + 1);
      if base == idx {
        assert xs[..0] + xs[1..] == xs[1..];
      } else if base < idx < base + |xs| {
        assert xs[..idx - base] + xs[idx - base + 1..]
          == [xs[0]] + (xs[1..][..idx - base - 1] + xs[1..][idx - base..]);
      } else {
        assert xs == [xs[0]] + xs[1..];
      }
    }
  }

  /** The add-feature button: appends the trimmed input and clears the box; blank input does nothing. */
  function AddFeature(st: FormState): (r: FormState)
    ensures IsBlank(st.featureInput) ==> r == st
    ensures !IsBlank(st.featureInput) ==>
      && r.featureInput == ""
      && r.form == st.form.(keyFeatures := st.form.keyFeatures + [Trim(st.featureInput)])
  {
    var t := Trim(st.featureInput);
    if t == "" then st
    else FormState(st.form.(keyFeatures := st.form.keyFeatures + [t]), "")
  }

  /** The remove button of feature `idx`: only the feature list changes, and exactly position `idx` goes. */
  function RemoveFeature(st: FormState, idx: int): (r: FormState)
    ensures r.featureInput == st.featureInput
    ensures r.form == st.form.(keyFeatures := r.form.keyFeatures)
    ensures 0 <= idx < |st.form.keyFeatures| ==>
      r.form.keyFeatures == st.form.keyFeatures[..idx] + st.form.keyFeatures[idx + 1..]
    ensures !(0 <= idx < |st.form.keyFeatures|) ==> r == st
  {
    st.(form := st.form.(keyFeatures := WithoutIndex(st.form.keyFeatures, idx)))
  }

  /** A pillar tag's button: only the pillar list changes; a selected pillar is dropped, another one appended. */
  function TogglePillar(st: FormState, p: string): (r: FormState)
    ensures r.featureInput == st.featureInput
    ensures r.form == st.form.(contentPillars := r.form.contentPillars)
    ensures p in st.form.contentPillars ==> r.form.contentPillars == Without(st.form.contentPillars, p)
    ensures p !in st.form.contentPillars ==> r.form.contentPillars == st.form.contentPillars + [p]
  {
    st.(form := st.form.(contentPillars := ToggleTag(st.form.contentPillars, p)))
  }

  /** A platform tag's button: only the platform list changes, as with the pillars. */
  function TogglePlatform(st: FormState, p: string): (r: FormState)
    ensures r.featureInput == st.featureInput
    ensures r.form == st.form.(platformTargets := r.form.platformTargets)
    ensures p in st.form.platformTargets ==> r.form.platformTargets == Without(st.form.platformTargets, p)
    ensures p !in st.form.platformTargets ==> r.form.platformTargets == st.form.platformTargets + [p]
  {
    st.(form := st.form.(platformTargets := ToggleTag(st.form.platformTargets, p)))
  }

  // ---------------------------------------------------------------------------
  // Properties
  // ---------------------------------------------------------------------------

  /** Removing a tag keeps the other tags in their order: it distributes over concatenation. */
  lemma {:induction false} WithoutAppend(a: seq<string>, b: seq<string>, p: string)
    ensures Without(a + b, p) == Without(a, p) + Without(b, p)
  {
    if a == [] {
      assert a + b == b;
    } else {
      assert (a + b)[1..] == a[1..] + b;
      WithoutAppend(a[1..], b, p);
    }
  }

  /** Removing an absent tag changes nothing. */
  lemma {:induction false} WithoutAbsent(xs: seq<string>, p: string)
    requires p !in xs
    ensures Without(xs, p) == xs
  {
    if xs != [] {
      assert xs[0] != p;
      WithoutAbsent(xs[1..], p);
      assert xs == [xs[0]] + xs[1..];
    }
  }

  /** Toggling an absent tag twice restores the original list. */
  lemma ToggleAbsentTwice(xs: seq<string>, p: string)
    requires p !in xs
    ensures ToggleTag(ToggleTag(xs, p), p) == xs
  {
    WithoutAppend(xs, [p], p);
    WithoutAbsent(xs, p);
    assert Without([p], p) == [];
  }

  /** Toggling a present tag twice drops all its copies and appends it once at the end. */
  lemma TogglePresentTwice(xs: seq<string>, p: string)
    requires p in xs
    ensures ToggleTag(ToggleTag(xs, p), p) == Without(xs, p) + [p]
  {
  }

  /** An added feature is never blank, carries no surrounding white space and is part of what was typed. */
  lemma AddedFeatureIsTrimmed(st: FormState)
    requires !IsBlank(st.featureInput)
    ensures var t := Trim(st.featureInput);
      && AddFeature(st).form.keyFeatures == st.form.keyFeatures + [t]
      && t != "" && !IsJsSpace(t[0]) && !IsJsSpace(t[|t| - 1])
      && Contains(st.featureInput, t)
  {
  }

  /** Removing a feature drops exactly one element when the index is valid, and none otherwise. */
  lemma RemoveFeatureLength(st: FormState, idx: int)
    ensures 0 <= idx < |st.form.keyFeatures| ==>
      |RemoveFeature(st, idx).form.keyFeatures| == |st.form.keyFeatures| - 1
    ensures 0 <= idx < |st.form.keyFeatures| ==> forall k :: 0 <= k < |st.form.keyFeatures| - 1 ==>
      RemoveFeature(st, idx).form.keyFeatures[k] == st.form.keyFeatures[if k < idx then k else k + 1]
    ensures !(0 <= idx < |st.form.keyFeatures|) ==> RemoveFeature(st, idx) == st
  {
  }
}
