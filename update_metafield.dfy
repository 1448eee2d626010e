/**
 * The manual video edit (`app/routes/api.update-metafield.jsx`): check that the
 * YouTube video is embeddable, pick the summary and highlights (given, blank, or
 * generated by the summarizer), tag the product, write its four video metafields,
 * and make the chosen video the product's main row in the local table.
 *
 * The oEmbed lookup, the summarizer and the Admin API are inputs: `oembedOk` is the
 * lookup's `ok`, `summarize` answers a prompt, and `AdminApi` fixes how each Admin
 * call turns out.
 */
module UpdateMetafield {
  import opened Wrappers
  import opened Text
  import opened Tags
  import opened Prompts
  import opened ExtendedInfo

  const EMBED_PREFIX: string := "https://youtube.com/embed/"

  /** `url.replace("www.", "")`: the first "www." goes, nothing else changes. */
  function NormalizeUrl(url: string): (r: string)
    ensures IndexOf(url, "www.").None? ==> r == url
    ensures IndexOf(url, "www.").Some? ==>
      var i := IndexOf(url, "www.").value;
      |r| + 4 == |url| && r == url[..i] + url[i + 4..]
  {
    ReplaceFirst(url, "www.", "")
  }

  function EmbedUrl(videoId: string): string {
    EMBED_PREFIX + videoId
  }

  /** Normalizing the embed url touches only the video id: the prefix has no "w" to start a match. */
  lemma EmbedUrlNormalized(videoId: string)
    ensures NormalizeUrl(EmbedUrl(videoId)) == EMBED_PREFIX + NormalizeUrl(videoId)
  {
    IndexOfAfterPrefix(EMBED_PREFIX, videoId, "www.");
    if IndexOf(videoId, "www.").Some? {
      var i := IndexOf(videoId, "www.").value;
      var u := EmbedUrl(videoId);
      assert u[..|EMBED_PREFIX| + i] == EMBED_PREFIX + videoId[..i];
      assert u[|EMBED_PREFIX| + i + 4..] == videoId[i + 4..];
    }
  }

  /** Normalizing is not idempotent: a second "www." survives the first pass. */
  lemma NormalizeNotIdempotent()
    ensures NormalizeUrl("www.www.a") == "www.a"
    ensures NormalizeUrl(NormalizeUrl("www.www.a")) == "a"
  {
    assert OccursAt("www.", "www.www.a", 0);
    assert OccursAt("www.", "www.a", 0);
  }

  // ----- summary and highlights -----

  /** The request body; `highlights` is the JSON text of the array the page sends. */
  datatype Request = Request(
    productId: string, link: string, title: Option<string>, vendor: Option<string>, videoId: string,
    productType: Option<string>, mode: Option<string>, summary: Option<string>, highlights: Option<string>)

  /** The summarizer's parsed answer, or a failure (a non-OK response or unparsable content). */
  datatype SummaryAnswer = SummaryFails | SummaryJson(summary: Option<string>, highlights: Option<string>)

  /** `finalSummary` and `finalHighlights`; `None` is `undefined`. */
  datatype Choice = Choice(summary: Option<string>, highlights: Option<string>)

  /** The choice, or `None` when the summarizer failed; and how many times the summarizer was called. */
  datatype Selection = Selection(choice: Option<Choice>, summarizerCalls: nat)

  /** An `undefined` field prints as "undefined" in the prompt. */
  function PromptField(s: Option<string>): string {
    if s.Some? then s.value else "undefined"
  }

  function SummaryPrompt(template: string, req: Request): string {
    FormatPrompt(template, PromptData(req.link, PromptField(req.title), PromptField(req.vendor), PromptField(req.productType)))
  }

  /**
   * Manual mode with a missing summary or highlights stores a blank summary and no
   * highlights; a given summary and highlights are used as they are; otherwise the
   * summarizer is asked once, with the summary prompt filled from the request.
   */
  function Select(req: Request, template: string, summarize: string -> SummaryAnswer): (r: Selection)
    ensures req.mode == Some("manual") && !(Truthy(req.summary) && req.highlights.Some?) ==>
      r == Selection(Some(Choice(Some(""), Some("[]"))), 0)
    ensures req.mode != Some("manual") && Truthy(req.summary) && req.highlights.Some? ==>
      r == Selection(Some(Choice(req.summary, req.highlights)), 0)
    ensures r.summarizerCalls <= 1
    ensures r.summarizerCalls == 1 <==> req.mode != Some("manual") && (!Truthy(req.summary) || req.highlights.None?)
    ensures r.summarizerCalls == 1 ==>
      (r.choice.None? <==> summarize(SummaryPrompt(template, req)).SummaryFails?)
    ensures r.summarizerCalls == 1 && r.choice.Some? ==>
      var a := summarize(SummaryPrompt(template, req));
      r.choice.value == Choice(a.summary, a.highlights)
  {
    if req.mode == Some("manual") && (!Truthy(req.summary) || req.highlights.None?) then
      Selection(Some(Choice(Some(""), Some("[]"))), 0)
    else if Truthy(req.summary) && req.highlights.Some? then
      Selection(Some(Choice(req.summary, req.highlights)), 0)
    else
      match summarize(SummaryPrompt(template, req))
      case SummaryFails => Selection(None, 1)
      case SummaryJson(s, h) => Selection(Some(Choice(s, h)), 1)
  }

  /** A summary and highlights supplied by the page are used whatever the mode, and the summarizer is not asked. */
  lemma ProvidedSummaryIsKept(req: Request, template: string, summarize: string -> SummaryAnswer)
    requires Truthy(req.summary) && req.highlights.Some?
    ensures Select(req, template, summarize) == Selection(Some(Choice(req.summary, req.highlights)), 0)
  {
  }

  // ----- the product update -----

  datatype MetafieldInput = MetafieldInput(namespace: string, key: string, value: Option<string>, kind: string)

  /** The four metafields written; a blank summary is written as a single space. */
  function Metafields(videoId: string, c: Choice): (r: seq<MetafieldInput>)
    ensures |r| == 4 && forall i :: 0 <= i < 4 ==> r[i].namespace == "custom"
    ensures r[0] == MetafieldInput("custom", "youtube_demo_video", Some(NormalizeUrl(EmbedUrl(videoId))), "url")
    ensures r[1].key == "youtube_demo_highlights" && r[1].value == c.highlights
    ensures r[2].key == "youtube_demo_summary"
    ensures r[2].value == (if Truthy(c.summary) then c.summary else Some(" "))
    ensures r[3].key == "video_source" && r[3].value == Some("MANUAL")
  {
    [MetafieldInput("custom", "youtube_demo_video", Some(NormalizeUrl(EmbedUrl(videoId))), "url"),
     MetafieldInput("custom", "youtube_demo_highlights", c.highlights, "json"),
     MetafieldInput("custom", "youtube_demo_summary", if Truthy(c.summary) then c.summary else Some(" "),
                    "multi_line_text_field"),
     MetafieldInput("custom", "video_source", Some("MANUAL"), "single_line_text_field")]
  }

  /** The Admin API writes the route issues, in order. */
  datatype Write = DeleteSummary(ownerId: string) | ProductUpdate(id: string, metafields: seq<MetafieldInput>, tags: seq<string>)

  datatype UpdateOutcome = Updated | UserErrors | UpdateThrows

  /**
   * How the Admin calls turn out: the product's tags (`None` when the answer has
   * none), whether the tag query or the delete throws, and the `productUpdate` result.
   */
  datatype AdminApi = AdminApi(tags: Option<seq<string>>, tagQueryThrows: bool, deleteThrows: bool, update: UpdateOutcome)

  datatype Reply = Reply(status: nat, success: bool, message: string)

  const INVALID_VIDEO: Reply := Reply(400, false, "Invalid YouTube URL or video is not embeddable.")
  const SUMMARY_FAILED: Reply := Reply(500, false, "Failed to generate video summary")
  const CAUGHT: Reply := Reply(200, false, "Invalid Url")

  /** The numeric product id, `BigInt(productId.split("/").pop())`. */
  function NumericId(gid: string): Option<nat> {
    ParseNat(LastSegment(gid, '/'))
  }

  /** The table fields a manual edit writes. */
  function FieldsOf(req: Request, c: Choice): ManualFields {
    ManualFields(req.title, c.summary, c.highlights)
  }

    /**
   * The Admin and table writes once the summary is chosen: read the tags, delete an empty
   * summary, update the product, and on success clear then upsert the extended-info rows.
   */
  method WriteEdit(table: InfoTable, shop: string, req: Request, c: Choice, api: AdminApi)
    returns (reply: Reply, writes: seq<Write>)
    modifies table
    ensures !reply.success ==> table.rows == old(table.rows)
    ensures api.tagQueryThrows ==> reply == CAUGHT && writes == []
    ensures reply.success <==>
      && !api.tagQueryThrows && !(c.summary == Some("") && api.deleteThrows)
      && api.update == Updated && NumericId(req.productId).Some?
    ensures reply.success ==>
      var pid := NumericId(req.productId).value;
      && reply == Reply(200, true, "Updated Successfully")
      && writes == (if c.summary == Some("") then [DeleteSummary(req.productId)] else [])
                   + [ProductUpdate(req.productId, Metafields(req.videoId, c), AddVideoTag(api.tags.GetOr([])))]
      && table.rows == UpsertManual(ClearedMain(old(table.rows), pid, shop), pid, shop,
                                    NormalizeUrl(EmbedUrl(req.videoId)), FieldsOf(req, c))
    ensures !api.tagQueryThrows && !(c.summary == Some("") && api.deleteThrows) && api.update == UserErrors ==>
      reply == Reply(200, false, "Updated Successfully")
  {
    writes := [];
    if api.tagQueryThrows {
      return CAUGHT, [];
    }
    var updatedTags := AddVideoTag(api.tags.GetOr([]));
    if c.summary == Some("") {
      writes := writes + [DeleteSummary(req.productId)];
      if api.deleteThrows {
        return CAUGHT, writes;
      }
    }
    writes := writes + [ProductUpdate(req.productId, Metafields(req.videoId, c), updatedTags)];
    if api.update == UpdateThrows {
      return CAUGHT, writes;
    }
    if api.update == UserErrors {
      return Reply(200, false, "Updated Successfully"), writes;
    }
    var pid := NumericId(req.productId);
    if pid.None? {
      return CAUGHT, writes;
    }
    table.ClearMain(pid.value, shop);
    table.UpsertManualRow(pid.value, shop, NormalizeUrl(EmbedUrl(req.videoId)), FieldsOf(req, c));
    reply := Reply(200, true, "Updated Successfully");
  }

/**
   * The action. A video that is not embeddable gets 400 and a failed summary 500,
   * both before any write. After the tag query, an empty summary first deletes the
   * summary metafield; then one `productUpdate` writes the metafields and the tags
   * with "youtubevideo" added. `userErrors` answer `success: false` and leave the
   * table alone; otherwise the product's main flags are cleared and the video's row
   * is upserted as main. A thrown Admin call, or a product id whose last segment is
   * not a number, answers "Invalid Url" without touching the table.
   */
  method Action(table: InfoTable, shop: string, req: Request, oembedOk: bool, template: string,
                summarize: string -> SummaryAnswer, api: AdminApi)
    returns (reply: Reply, writes: seq<Write>)
    modifies table
    ensures !oembedOk ==> reply == INVALID_VIDEO && writes == [] && table.rows == old(table.rows)
    ensures oembedOk && Select(req, template, summarize).choice.None? ==>
      reply == SUMMARY_FAILED && writes == [] && table.rows == old(table.rows)
    ensures !reply.success ==> table.rows == old(table.rows)
    ensures reply.success <==>
      && oembedOk && Select(req, template, summarize).choice.Some? && !api.tagQueryThrows
      && !(Select(req, template, summarize).choice.value.summary == Some("") && api.deleteThrows)
      && api.update == Updated && NumericId(req.productId).Some?
    ensures reply.success ==>
      var c := Select(req, template, summarize).choice.value;
      var pid := NumericId(req.productId).value;
      && reply == Reply(200, true, "Updated Successfully")
      && writes == (if c.summary == Some("") then [DeleteSummary(req.productId)] else [])
                   + [ProductUpdate(req.productId, Metafields(req.videoId, c), AddVideoTag(api.tags.GetOr([])))]
      && table.rows == UpsertManual(ClearedMain(old(table.rows), pid, shop), pid, shop,
                                    NormalizeUrl(EmbedUrl(req.videoId)), FieldsOf(req, c))
    ensures oembedOk && Select(req, template, summarize).choice.Some? && !api.tagQueryThrows
            && !(Select(req, template, summarize).choice.value.summary == Some("") && api.deleteThrows)
            && api.update == UserErrors ==>
      reply == Reply(200, false, "Updated Successfully")
  {
    if !oembedOk {
      return INVALID_VIDEO, [];
    }
    var selection := Select(req, template, summarize);
    if selection.choice.None? {
      return SUMMARY_FAILED, [];
    }
    reply, writes := WriteEdit(table, shop, req, selection.choice.value, api);
  }

  /** After a successful edit the product has exactly one main row in this shop, and it holds the edited video. */
  lemma SuccessfulEditLeavesOneMain(rows: seq<InfoRow>, shop: string, req: Request, c: Choice, pid: nat)
    ensures var r := UpsertManual(ClearedMain(rows, pid, shop), pid, shop, NormalizeUrl(EmbedUrl(req.videoId)), FieldsOf(req, c));
      && MainCount(r, pid, shop) == 1
      && forall i :: 0 <= i < |r| && Of(r[i], pid, shop) && r[i].isMain ==>
           r[i].videoUrl == Some(EMBED_PREFIX + NormalizeUrl(req.videoId))
  {
    EmbedUrlNormalized(req.videoId);
    ManualEditLeavesOneMain(rows, pid, shop, NormalizeUrl(EmbedUrl(req.videoId)), FieldsOf(req, c));
  }
}
