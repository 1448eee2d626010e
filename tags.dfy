/**
 * The product tag "youtubevideo" that marks a product as carrying a demo video.
 * A manual edit adds it unless some tag already matches it ignoring case; removing a
 * video drops every tag that matches it ignoring case; the automatic discovery adds
 * it unless the exact tag is present.
 */
module Tags {
  import opened Text
  import opened Collections

  const VIDEO_TAG: string := "youtubevideo"

  /** `tag.toLowerCase() === "youtubevideo"` */
  predicate IsVideoTag(t: string) {
    Lower(t) == VIDEO_TAG
  }

  predicate HasVideoTag(tags: seq<string>) {
    exists i :: 0 <= i < |tags| && IsVideoTag(tags[i])
  }

  lemma VideoTagIsVideoTag()
    ensures IsVideoTag(VIDEO_TAG)
  {
    assert Lower(VIDEO_TAG) == VIDEO_TAG;
  }

  /** `tagExists ? existingTags : [...existingTags, "youtubevideo"]` */
  function AddVideoTag(tags: seq<string>): (r: seq<string>)
    ensures HasVideoTag(tags) ==> r == tags
    ensures !HasVideoTag(tags) ==> r == tags + [VIDEO_TAG]
  {
    if HasVideoTag(tags) then tags else tags + [VIDEO_TAG]
  }

  /** After adding, the product carries the tag; the old tags stay first and in order, and at most one tag is new. */
  lemma AddVideoTagSpec(tags: seq<string>)
    ensures HasVideoTag(AddVideoTag(tags))
    ensures |tags| <= |AddVideoTag(tags)| <= |tags| + 1 && AddVideoTag(tags)[..|tags|] == tags
  {
    VideoTagIsVideoTag();
    if !HasVideoTag(tags) {
      var r := tags + [VIDEO_TAG];
      assert IsVideoTag(r[|tags|]);
    }
  }

  /** Adding twice is adding once. */
  lemma AddVideoTagIdempotent(tags: seq<string>)
    ensures AddVideoTag(AddVideoTag(tags)) == AddVideoTag(tags)
  {
    AddVideoTagSpec(tags);
  }

  /** `currentTags.filter(tag => tag.toLowerCase() !== "youtubevideo")` */
  function RemoveVideoTag(tags: seq<string>): (r: seq<string>)
    ensures |r| <= |tags|
    ensures forall i :: 0 <= i < |r| ==> !IsVideoTag(r[i])
    ensures forall t :: t in r <==> t in tags && !IsVideoTag(t)
  {
    if tags == [] then []
    else
      var init := RemoveVideoTag(tags[..|tags| - 1]);
      var last := tags[|tags| - 1];
      assert tags == tags[..|tags| - 1] + [last];
      init + (if IsVideoTag(last) then [] else [last])
  }

  /** The kept tags keep their order: removal only deletes. */
  lemma {:induction false} RemoveKeepsOthers(tags: seq<string>, others: seq<string>)
    requires forall i :: 0 <= i < |others| ==> !IsVideoTag(others[i])
    ensures RemoveVideoTag(tags + others) == RemoveVideoTag(tags) + others
    decreases |others|
  {
    if others == [] {
      assert tags + others == tags;
    } else {
      var init := others[..|others| - 1];
      var last := others[|others| - 1];
      AppendSnoc(tags, others);
      AfterPrefix(tags + init, [last]);
      RemoveKeepsOthers(tags, init);
      ConcatAssoc(RemoveVideoTag(tags), init, [last]);
    }
  }

  /** Every other tag is kept as many times as it occurs; the video tag is gone in every spelling. */
  lemma {:induction false} RemoveKeepsCounts(tags: seq<string>, t: string)
    ensures multiset(RemoveVideoTag(tags))[t] == if IsVideoTag(t) then 0 else multiset(tags)[t]
  {
    if tags != [] {
      var init := tags[..|tags| - 1];
      var last := tags[|tags| - 1];
      RemoveKeepsCounts(init, t);
      CountSnoc(tags, t);
      var kept := if IsVideoTag(last) then [] else [last];
      assert RemoveVideoTag(tags) == RemoveVideoTag(init) + kept;
      assert multiset(RemoveVideoTag(init) + kept)[t] == multiset(RemoveVideoTag(init))[t] + multiset(kept)[t];
    }
  }

  /** Removing twice is removing once. */
  lemma RemoveVideoTagIdempotent(tags: seq<string>)
    ensures RemoveVideoTag(RemoveVideoTag(tags)) == RemoveVideoTag(tags)
  {
    var r := RemoveVideoTag(tags);
    RemoveKeepsOthers([], r);
    assert [] + r == r;
  }

  /** Removing the tag undoes adding it: a manual edit followed by a removal leaves the other tags as they were. */
  lemma RemoveAfterAdd(tags: seq<string>)
    ensures RemoveVideoTag(AddVideoTag(tags)) == RemoveVideoTag(tags)
  {
    VideoTagIsVideoTag();
    if !HasVideoTag(tags) {
      assert (tags + [VIDEO_TAG])[..|tags|] == tags;
    }
  }

  /** `existingTags.includes("youtubevideo")`: the exact tag, case-sensitive. */
  predicate HasExactVideoTag(tags: seq<string>) {
    VIDEO_TAG in tags
  }

  /** A tag present exactly counts for the case-insensitive test, but not the other way round. */
  lemma ExactTagIsStricter()
    ensures forall tags :: HasExactVideoTag(tags) ==> HasVideoTag(tags)
    ensures HasVideoTag(["YouTubeVideo"]) && !HasExactVideoTag(["YouTubeVideo"])
  {
    VideoTagIsVideoTag();
    forall tags | HasExactVideoTag(tags)
      ensures HasVideoTag(tags)
    {
      var i :| 0 <= i < |tags| && tags[i] == VIDEO_TAG;
      assert IsVideoTag(tags[i]);
    }
    assert IsVideoTag(["YouTubeVideo"][0]) by {
      assert Lower("YouTubeVideo") == VIDEO_TAG;
    }
    assert ["YouTubeVideo"][0] != VIDEO_TAG;
  }
}
