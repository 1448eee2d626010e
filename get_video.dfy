/**
 * The automatic video discovery (`app/routes/api.get-video.jsx`): the product ids go
 * to the discovery workflow as `ids[]` query parameters; its answer has one item per
 * product, each the result of the workflow's own metafield write. Items with user
 * errors are reported back; the others are tagged "youtubevideo" when the exact tag
 * is missing and stored in the local table as AUTO rows keyed by product id.
 *
 * The workflow's answer is an input, and the loop over the items runs in order.
 */
module GetVideo {
  import opened Wrappers
  import opened Text
  import opened Tags
  import opened ExtendedInfo

  /** `URLSearchParams` with one `ids[]` entry per id, in input order. */
  function Params(ids: seq<string>): (r: seq<(string, string)>)
    ensures |r| == |ids|
    ensures forall i :: 0 <= i < |ids| ==> r[i] == ("ids[]", ids[i])
  {
    seq(|ids|, i requires 0 <= i < |ids| => ("ids[]", ids[i]))
  }

  datatype Metafield = Metafield(key: string, value: Option<string>)

  /** `productUpdate.product` of an item. */
  datatype Product = Product(id: string, title: Option<string>, tags: Option<seq<string>>)

  /** One answered product: the number of `metafieldsSet.userErrors`, the metafields set, and the product. */
  datatype Item = Item(userErrors: nat, metafields: seq<Metafield>, product: Option<Product>)

  /** The workflow's HTTP answer. */
  datatype Upstream = Upstream(ok: bool, status: nat, code: Option<int>, items: seq<Item>)

  /** The record pushed to `updateProducts` and upserted. */
  datatype ProductInfo = ProductInfo(
    shop: string, productId: Option<string>, productTitle: Option<string>, videoUrl: Option<string>,
    sourceMethod: string, aiSummary: Option<string>, highlights: Option<string>)

  /** `metafields.find(field => field.key === key)?.value` */
  function FieldValue(fields: seq<Metafield>, key: string): (r: Option<string>)
    ensures (forall i :: 0 <= i < |fields| ==> fields[i].key != key) ==> r.None?
    ensures r.Some? ==> exists i :: 0 <= i < |fields| && fields[i].key == key && fields[i].value == r
  {
    if fields == [] then None
    else if fields[0].key == key then fields[0].value
    else
      var r := FieldValue(fields[1..], key);
      assert forall i :: 1 <= i < |fields| ==> fields[i] == fields[1..][i - 1];
      r
  }

  predicate HasErrors(it: Item) {
    it.userErrors > 0
  }

  /** `product?.id.split("/").pop()` */
  function ProductIdOf(it: Item): Option<string> {
    if it.product.Some? then Some(LastSegment(it.product.value.id, '/')) else None
  }

  function InfoOf(it: Item, shop: string): (r: ProductInfo)
    ensures r.sourceMethod == "AUTO" && r.shop == shop && r.productId == ProductIdOf(it)
    ensures r.videoUrl == FieldValue(it.metafields, "youtube_demo_video")
    ensures r.aiSummary == FieldValue(it.metafields, "youtube_demo_summary")
    ensures r.highlights == FieldValue(it.metafields, "youtube_demo_highlights")
  {
    ProductInfo(shop, ProductIdOf(it), if it.product.Some? then it.product.value.title else None,
                FieldValue(it.metafields, "youtube_demo_video"), "AUTO",
                FieldValue(it.metafields, "youtube_demo_summary"), FieldValue(it.metafields, "youtube_demo_highlights"))
  }

  /** `erroredProducts`: the products of the items with user errors, in order. */
  function Errored(items: seq<Item>): (r: seq<Option<Product>>)
    ensures |r| <= |items|
  {
    if items == [] then []
    else
      var it := items[|items| - 1];
      Errored(items[..|items| - 1]) + (if HasErrors(it) then [it.product] else [])
  }

  /** `updateProducts`: a record for each item without user errors, in order. */
  function Updated(items: seq<Item>, shop: string): (r: seq<ProductInfo>)
    ensures |r| <= |items|
    ensures forall i :: 0 <= i < |r| ==> r[i].sourceMethod == "AUTO" && r[i].shop == shop
  {
    if items == [] then []
    else
      var it := items[|items| - 1];
      Updated(items[..|items| - 1], shop) + (if HasErrors(it) then [] else [InfoOf(it, shop)])
  }

  /** Every item lands in exactly one of the two lists. */
  lemma {:induction false} PartitionSizes(items: seq<Item>, shop: string)
    ensures |Errored(items)| + |Updated(items, shop)| == |items|
  {
    if items != [] {
      PartitionSizes(items[..|items| - 1], shop);
    }
  }

  /** The updated records are exactly those of the error-free items. */
  lemma {:induction false} UpdatedSpec(items: seq<Item>, shop: string)
    ensures forall x :: x in Updated(items, shop) <==> exists it :: it in items && !HasErrors(it) && x == InfoOf(it, shop)
  {
    if items != [] {
      var init, last := items[..|items| - 1], items[|items| - 1];
      UpdatedSpec(init, shop);
      assert items == init + [last];
      assert forall it :: it in items <==> it in init || it == last;
    }
  }

  /** The errored list holds exactly the products of the items with user errors. */
  lemma {:induction false} ErroredSpec(items: seq<Item>)
    ensures forall p :: p in Errored(items) <==> exists it :: it in items && HasErrors(it) && p == it.product
  {
    if items != [] {
      var init, last := items[..|items| - 1], items[|items| - 1];
      ErroredSpec(init);
      assert items == init + [last];
      assert forall it :: it in items <==> it in init || it == last;
    }
  }

  /** The tag mutation: the product's tags with "youtubevideo" appended. */
  datatype TagWrite = TagWrite(productId: string, tags: seq<string>)

  /** The id as interpolated into the mutation ("undefined" without a product). */
  function GidText(p: Option<Product>): string {
    if p.Some? then p.value.id else "undefined"
  }

  function TagsOf(p: Option<Product>): seq<string> {
    if p.Some? && p.value.tags.Some? then p.value.tags.value else []
  }

  /** The tag mutations issued, one per error-free item whose tags lack the exact tag. */
  function TagWrites(items: seq<Item>): (r: seq<TagWrite>)
    ensures forall i :: 0 <= i < |r| ==> HasExactVideoTag(r[i].tags)
  {
    if items == [] then []
    else
      var it := items[|items| - 1];
      TagWrites(items[..|items| - 1])
        + (if !HasErrors(it) && !HasExactVideoTag(TagsOf(it.product))
           then [TagWrite(GidText(it.product), TagsOf(it.product) + [VIDEO_TAG])] else [])
  }

  /** An item whose product already carries the exact tag issues no mutation. */
  lemma TaggedItemNotRetagged(items: seq<Item>, it: Item)
    requires HasExactVideoTag(TagsOf(it.product))
    ensures TagWrites(items + [it]) == TagWrites(items)
  {
    assert (items + [it])[..|items|] == items;
  }

  /** An updated item whose product lacks the exact tag issues exactly one mutation, adding the tag to its tags. */
  lemma UntaggedItemRetagged(items: seq<Item>, it: Item)
    requires !HasErrors(it) && !HasExactVideoTag(TagsOf(it.product))
    ensures TagWrites(items + [it]) == TagWrites(items) + [TagWrite(GidText(it.product), TagsOf(it.product) + [VIDEO_TAG])]
  {
    assert (items + [it])[..|items|] == items;
  }

  /** An errored item issues no mutation. */
  lemma ErroredItemNotRetagged(items: seq<Item>, it: Item)
    requires HasErrors(it)
    ensures TagWrites(items + [it]) == TagWrites(items)
  {
    assert (items + [it])[..|items|] == items;
  }

  /** The table after upserting the records in order; a record whose id is not a number is not stored. */
  function StoreAll(rows: seq<InfoRow>, infos: seq<ProductInfo>): (r: seq<InfoRow>)
    ensures |rows| <= |r|
    ensures forall i :: 0 <= i < |rows| ==> r[i].isMain == rows[i].isMain && r[i].isOpened == rows[i].isOpened
  {
    if infos == [] then rows
    else
      var prev := StoreAll(rows, infos[..|infos| - 1]);
      Store(prev, infos[|infos| - 1])
  }

  function Store(rows: seq<InfoRow>, info: ProductInfo): (r: seq<InfoRow>)
    ensures |rows| <= |r|
    ensures forall i :: 0 <= i < |rows| ==> r[i].isMain == rows[i].isMain && r[i].isOpened == rows[i].isOpened
  {
    var pid := if info.productId.Some? then ParseNat(info.productId.value) else None;
    if pid.Some? then
      UpsertDiscovered(rows, pid.value, info.shop,
                       DiscoveredFields(info.productTitle, info.videoUrl, info.aiSummary, info.highlights))
    else rows
  }

  predicate StoredAsAuto(rows: seq<InfoRow>, pid: nat, shop: string) {
    exists i :: 0 <= i < |rows| && rows[i].productId == pid && rows[i].shop == shop && rows[i].sourceMethod == Some("AUTO")
  }

  /** Every stored record leaves an AUTO row for its product, when all records come from one shop (as in one call). */
  lemma {:induction false} StoredRecordIsAuto(rows: seq<InfoRow>, infos: seq<ProductInfo>, k: nat, pid: nat)
    requires k < |infos| && infos[k].productId.Some? && ParseNat(infos[k].productId.value) == Some(pid)
    requires forall j :: 0 <= j < |infos| ==> infos[j].shop == infos[k].shop
    ensures StoredAsAuto(StoreAll(rows, infos), pid, infos[k].shop)
    decreases |infos|
  {
    var init, last := infos[..|infos| - 1], infos[|infos| - 1];
    var prev := StoreAll(rows, init);
    if k == |infos| - 1 {
      assert StoreAll(rows, infos) == Store(prev, last);
    } else {
      assert init[k] == infos[k];
      StoredRecordIsAuto(rows, init, k, pid);
      var lastPid := if last.productId.Some? then ParseNat(last.productId.value) else None;
      if lastPid == Some(pid) {
        assert StoreAll(rows, infos) == Store(prev, last);
        assert last.shop == infos[k].shop;
      } else {
        var i :| 0 <= i < |prev| && prev[i].productId == pid && prev[i].shop == infos[k].shop
                 && prev[i].sourceMethod == Some("AUTO");
        assert StoreAll(rows, infos)[i] == prev[i];
      }
    }
  }

  lemma StoreAllSnoc(rows: seq<InfoRow>, infos: seq<ProductInfo>, info: ProductInfo)
    ensures StoreAll(rows, infos + [info]) == Store(StoreAll(rows, infos), info)
  {
    assert (infos + [info])[..|infos|] == infos;
  }

  lemma ListsSnoc(items: seq<Item>, i: nat, shop: string)
    requires i < |items|
    ensures var it := items[i];
      && Errored(items[..i + 1]) == Errored(items[..i]) + (if HasErrors(it) then [it.product] else [])
      && Updated(items[..i + 1], shop) == Updated(items[..i], shop) + (if HasErrors(it) then [] else [InfoOf(it, shop)])
      && TagWrites(items[..i + 1]) == TagWrites(items[..i])
           + (if !HasErrors(it) && !HasExactVideoTag(TagsOf(it.product))
              then [TagWrite(GidText(it.product), TagsOf(it.product) + [VIDEO_TAG])] else [])
  {
    assert items[..i + 1][..i] == items[..i];
  }

  /** The response: the abort, a partial success listing the errored products, or full success. */
  datatype Reply =
    | Aborted(status: nat, error: string)
    | Partial(errored: seq<Option<Product>>, updated: seq<ProductInfo>)
    | AllUpdated(updated: seq<ProductInfo>)

  function StatusOf(r: Reply): nat {
    match r
    case Aborted(s, _) => s
    case Partial(_, _) => 206
    case AllUpdated(_) => 200
  }

  /** A non-OK answer or one carrying `code: 404` is thrown and caught as a failure. */
  predicate Aborts(u: Upstream) {
    !u.ok || u.code == Some(404)
  }

  /** The `data.forEach` loop, run in order. */
  method Partition(table: InfoTable, shop: string, items: seq<Item>)
    returns (errored: seq<Option<Product>>, updated: seq<ProductInfo>, tagWrites: seq<TagWrite>)
    modifies table
    ensures errored == Errored(items) && updated == Updated(items, shop) && tagWrites == TagWrites(items)
    ensures table.rows == StoreAll(old(table.rows), Updated(items, shop))
  {
    errored, updated, tagWrites := [], [], [];
    ghost var start := table.rows;
    for i := 0 to |items|
      invariant errored == Errored(items[..i]) && updated == Updated(items[..i], shop)
      invariant tagWrites == TagWrites(items[..i])
      invariant table.rows == StoreAll(start, updated)
    {
      var it := items[i];
      ListsSnoc(items, i, shop);
      if it.userErrors > 0 {
        errored := errored + [it.product];
      } else {
        var info := InfoOf(it, shop);
        var existing := TagsOf(it.product);
        if VIDEO_TAG !in existing {
          tagWrites := tagWrites + [TagWrite(GidText(it.product), existing + [VIDEO_TAG])];
        }
        StoreAllSnoc(start, updated, info);
        updated := updated + [info];
        table.rows := Store(table.rows, info);
      }
    }
    assert items[..|items|] == items;
  }

  /**
   * The action: the query parameters sent, the reply, and the tag mutations issued.
   * An aborted call writes nothing; otherwise the reply is 206 when some product
   * errored and 200 when none did.
   */
  method Action(table: InfoTable, shop: string, ids: seq<string>, upstream: Upstream)
    returns (params: seq<(string, string)>, reply: Reply, tagWrites: seq<TagWrite>)
    modifies table
    ensures params == Params(ids)
    ensures Aborts(upstream) ==>
      && reply == Aborted(if upstream.status > 0 then upstream.status else 500, "Unknown error")
      && tagWrites == [] && table.rows == old(table.rows)
    ensures !Aborts(upstream) ==>
      && tagWrites == TagWrites(upstream.items)
      && table.rows == StoreAll(old(table.rows), Updated(upstream.items, shop))
      && (|Errored(upstream.items)| > 0 ==> reply == Partial(Errored(upstream.items), Updated(upstream.items, shop)))
      && (|Errored(upstream.items)| == 0 ==> reply == AllUpdated(Updated(upstream.items, shop)))
    ensures reply.Partial? <==> !Aborts(upstream) && exists i :: 0 <= i < |upstream.items| && HasErrors(upstream.items[i])
  {
    params := Params(ids);
    if !upstream.ok || upstream.code == Some(404) {
      return params, Aborted(if upstream.status > 0 then upstream.status else 500, "Unknown error"), [];
    }
    var errored, updated;
    errored, updated, tagWrites := Partition(table, shop, upstream.items);
    ErroredEmpty(upstream.items);
    if |errored| > 0 {
      reply := Partial(errored, updated);
    } else {
      reply := AllUpdated(updated);
    }
  }

  lemma {:induction false} ErroredEmpty(items: seq<Item>)
    ensures |Errored(items)| == 0 <==> forall i :: 0 <= i < |items| ==> !HasErrors(items[i])
  {
    if items != [] {
      ErroredEmpty(items[..|items| - 1]);
    }
  }
}
