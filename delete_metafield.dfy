/**
 * Video removal (`app/routes/api.delete-metafield.jsx`): for each product id in
 * order, delete the four video metafields, then rewrite the tags without
 * "youtubevideo"; the first failure answers 500 at once.
 *
 * The shop's products are a `Catalog` changed in place. Which Admin calls report
 * errors is an input: the ids whose metafield delete answers top-level `errors`, and
 * the ids whose tag update answers `errors` or `userErrors`. A call that reports
 * errors changes nothing.
 */
module DeleteMetafield {
  import opened Wrappers
  import opened Tags

  /** A product as the route sees it: its tags and its metafields in namespace "custom", by key. */
  datatype ProductState = ProductState(tags: seq<string>, metafields: map<string, string>)

  const VIDEO_KEYS: set<string> := {"youtube_demo_video", "video_source", "youtube_demo_highlights", "youtube_demo_summary"}

  /** `metafieldsDelete` of the four video keys. */
  function Strip(p: ProductState): (r: ProductState)
    ensures r.tags == p.tags
    ensures forall k :: k in r.metafields <==> k in p.metafields && k !in VIDEO_KEYS
    ensures forall k :: k in r.metafields ==> r.metafields[k] == p.metafields[k]
  {
    p.(metafields := p.metafields - VIDEO_KEYS)
  }

  /** `productUpdate` with the filtered tags. */
  function Untag(p: ProductState): (r: ProductState)
    ensures r.metafields == p.metafields && r.tags == RemoveVideoTag(p.tags)
  {
    p.(tags := RemoveVideoTag(p.tags))
  }

  /** One id handled successfully: metafields deleted, then tags rewritten. */
  function Clean(m: map<string, ProductState>, id: string): (r: map<string, ProductState>)
    ensures r.Keys == m.Keys
    ensures forall x :: x in m && x != id ==> r[x] == m[x]
    ensures id in m ==> r[id] == Untag(Strip(m[id]))
  {
    if id in m then m[id := Untag(Strip(m[id]))] else m
  }

  /** The ids handled in order, all successfully. */
  function CleanAll(m: map<string, ProductState>, ids: seq<string>): (r: map<string, ProductState>)
    ensures r.Keys == m.Keys
  {
    if ids == [] then m else Clean(CleanAll(m, ids[..|ids| - 1]), ids[|ids| - 1])
  }

  predicate IsClean(p: ProductState) {
    !HasVideoTag(p.tags) && forall k :: k in p.metafields ==> k !in VIDEO_KEYS
  }

  /** After the loop, every handled product has no video tag and no video metafield; the others are as they were. */
  lemma {:induction false} CleanAllSpec(m: map<string, ProductState>, ids: seq<string>)
    ensures forall x :: x in m && x !in ids ==> CleanAll(m, ids)[x] == m[x]
    ensures forall x :: x in m && x in ids ==> IsClean(CleanAll(m, ids)[x])
  {
    if ids != [] {
      var init, last := ids[..|ids| - 1], ids[|ids| - 1];
      CleanAllSpec(m, init);
      assert forall x :: x in ids <==> x in init || x == last;
      if last in m {
        var p := CleanAll(m, init)[last];
        assert CleanAll(m, ids)[last] == Untag(Strip(p));
        assert !HasVideoTag(RemoveVideoTag(Strip(p).tags));
      }
    }
  }

  /** Running the removal again on the same ids changes nothing. */
  lemma {:induction false} CleanIdempotent(m: map<string, ProductState>, id: string)
    ensures Clean(Clean(m, id), id) == Clean(m, id)
  {
    if id in m {
      var p := m[id];
      RemoveVideoTagIdempotent(p.tags);
      assert Strip(Untag(Strip(p))) == Untag(Strip(p));
      assert Untag(Untag(Strip(p))) == Untag(Strip(p));
    }
  }

  /** The first failure ends the loop. */
  datatype Stage = MissingProduct | DeleteErrors | TagErrors

  datatype Reply = Done | Failed(id: string, stage: Stage)

  function StatusOf(r: Reply): nat {
    if r.Done? then 200 else 500
  }

  /** The ids whose Admin calls report errors. */
  datatype AdminErrors = AdminErrors(deleteErrors: set<string>, tagErrors: set<string>)

  /**
   * How handling `id` fails, if it does: a product the tag query answers with null
   * throws; then a delete reporting errors; then a tag update reporting errors.
   */
  function FailureAt(m: map<string, ProductState>, id: string, api: AdminErrors): Option<Stage> {
    if id !in m then Some(MissingProduct)
    else if id in api.deleteErrors then Some(DeleteErrors)
    else if id in api.tagErrors then Some(TagErrors)
    else None
  }

  predicate Succeeds(m: map<string, ProductState>, id: string, api: AdminErrors) {
    id in m && id !in api.deleteErrors && id !in api.tagErrors
  }

  /** The catalog after handling `id`: unchanged when the product is missing or the delete fails, only the metafields deleted when the tag update fails, cleaned otherwise. */
  function Step(m: map<string, ProductState>, id: string, api: AdminErrors): (r: map<string, ProductState>)
    ensures r.Keys == m.Keys
  {
    if id !in m || id in api.deleteErrors then m
    else if id in api.tagErrors then m[id := Strip(m[id])]
    else Clean(m, id)
  }

  /** The position of the first id that fails. */
  function FirstFailure(m: map<string, ProductState>, ids: seq<string>, api: AdminErrors): (r: Option<nat>)
    ensures r.Some? ==> r.value < |ids| && FailureAt(m, ids[r.value], api).Some?
    ensures r.Some? ==> forall j :: 0 <= j < r.value ==> FailureAt(m, ids[j], api).None?
    ensures r.None? ==> forall j :: 0 <= j < |ids| ==> FailureAt(m, ids[j], api).None?
  {
    if ids == [] then None
    else if FailureAt(m, ids[0], api).Some? then Some(0)
    else
      var r := FirstFailure(m, ids[1..], api);
      if r.Some? then Some(r.value + 1) else None
  }

  /** `productIds || [productId]`; a missing `productId` is interpolated as "undefined". */
  function Ids(productIds: Option<seq<string>>, productId: Option<string>): (r: seq<string>)
    ensures productIds.Some? ==> r == productIds.value
    ensures productIds.None? && productId.Some? ==> r == [productId.value]
    ensures productIds.None? && productId.None? ==> r == ["undefined"]
  {
    if productIds.Some? then productIds.value else [if productId.Some? then productId.value else "undefined"]
  }

  /** A request naming one product that can be handled removes that product's video and touches nothing else. */
  lemma SingleProductRemoval(m: map<string, ProductState>, p: string, api: AdminErrors)
    requires Succeeds(m, p, api)
    ensures FirstFailure(m, Ids(None, Some(p)), api).None?
    ensures CleanAll(m, Ids(None, Some(p))) == Clean(m, p)
    ensures IsClean(CleanAll(m, Ids(None, Some(p)))[p])
    ensures forall x :: x in m && x != p ==> CleanAll(m, Ids(None, Some(p)))[x] == m[x]
  {
    var ids := Ids(None, Some(p));
    assert ids[..0] == [];
    CleanAllSpec(m, ids);
  }

  class Catalog {
    var products: map<string, ProductState>

    constructor (initial: map<string, ProductState>)
      ensures products == initial
    {
      products := initial;
    }

    /**
     * The action's loop. When no id fails, every product is cleaned and the reply is
     * success. When the id at position k fails, the ids before it stay cleaned, the
     * failing one keeps only what its successful calls did (its metafields are gone
     * when only the tag update failed), and later ids are untouched.
     */
    method Remove(ids: seq<string>, api: AdminErrors) returns (reply: Reply)
      modifies this
      ensures FirstFailure(old(products), ids, api).None? ==> reply == Done && products == CleanAll(old(products), ids)
      ensures FirstFailure(old(products), ids, api).Some? ==>
        var k := FirstFailure(old(products), ids, api).value;
        reply == Failed(ids[k], FailureAt(old(products), ids[k], api).value) &&
        products == Step(CleanAll(old(products), ids[..k]), ids[k], api)
    {
      ghost var start := products;
      var i := 0;
      while i < |ids|
        invariant 0 <= i <= |ids|
        invariant products == CleanAll(start, ids[..i])
        invariant forall j :: 0 <= j < i ==> Succeeds(start, ids[j], api)
      {
        var stage := Handle(ids[i], api);
        if stage.Some? {
          FailsAt(start, ids, api, i);
          return Failed(ids[i], stage.value);
        }
        Advance(start, ids, api, i);
        i := i + 1;
      }
      assert ids[..|ids|] == ids;
      FirstFailureNone(start, ids, api);
      reply := Done;
    }

    /** One iteration: the tag query, the metafield delete, then the tag update, stopping at the first failure. */
    method Handle(id: string, api: AdminErrors) returns (stage: Option<Stage>)
      modifies this
      ensures stage == FailureAt(old(products), id, api)
      ensures products == Step(old(products), id, api)
    {
      if id !in products {
        return Some(MissingProduct);
      }
      if id in api.deleteErrors {
        return Some(DeleteErrors);
      }
      products := products[id := Strip(products[id])];
      if id in api.tagErrors {
        return Some(TagErrors);
      }
      products := products[id := Untag(products[id])];
      stage := None;
    }
  }

  lemma CleanAllSnoc(m: map<string, ProductState>, ids: seq<string>, i: nat)
    requires i < |ids|
    ensures CleanAll(m, ids[..i + 1]) == Clean(CleanAll(m, ids[..i]), ids[i])
  {
    assert ids[..i + 1][..i] == ids[..i];
  }

  /** What one iteration leaves behind: a clean product on success, a product without video metafields but with its tags when only the tag update fails, nothing changed otherwise. */
  lemma StepSpec(m: map<string, ProductState>, id: string, api: AdminErrors)
    ensures FailureAt(m, id, api).None? ==> Step(m, id, api) == Clean(m, id) && IsClean(Step(m, id, api)[id])
    ensures FailureAt(m, id, api) == Some(TagErrors) ==>
      Step(m, id, api)[id].tags == m[id].tags && forall k :: k in Step(m, id, api)[id].metafields ==> k !in VIDEO_KEYS
    ensures FailureAt(m, id, api) == Some(MissingProduct) || FailureAt(m, id, api) == Some(DeleteErrors) ==> Step(m, id, api) == m
  {
    if FailureAt(m, id, api).None? {
      assert !HasVideoTag(RemoveVideoTag(Strip(m[id]).tags));
    }
  }

  /** A successful iteration extends the cleaned prefix. */
  lemma Advance(m: map<string, ProductState>, ids: seq<string>, api: AdminErrors, i: nat)
    requires i < |ids| && FailureAt(CleanAll(m, ids[..i]), ids[i], api).None?
    requires forall j :: 0 <= j < i ==> Succeeds(m, ids[j], api)
    ensures Step(CleanAll(m, ids[..i]), ids[i], api) == CleanAll(m, ids[..i + 1])
    ensures forall j :: 0 <= j < i + 1 ==> Succeeds(m, ids[j], api)
  {
    CleanAllSnoc(m, ids, i);
    assert Succeeds(m, ids[i], api);
  }

  /** A failing iteration is the first failure, and fails the same way against the initial catalog. */
  lemma FailsAt(m: map<string, ProductState>, ids: seq<string>, api: AdminErrors, i: nat)
    requires i < |ids| && FailureAt(CleanAll(m, ids[..i]), ids[i], api).Some?
    requires forall j :: 0 <= j < i ==> Succeeds(m, ids[j], api)
    ensures FirstFailure(m, ids, api) == Some(i)
    ensures FailureAt(m, ids[i], api) == FailureAt(CleanAll(m, ids[..i]), ids[i], api)
  {
    FirstFailureAt(m, ids, api, i);
  }

  lemma FirstFailureAt(m: map<string, ProductState>, ids: seq<string>, api: AdminErrors, i: nat)
    requires i < |ids| && FailureAt(m, ids[i], api).Some?
    requires forall j :: 0 <= j < i ==> Succeeds(m, ids[j], api)
    ensures FirstFailure(m, ids, api) == Some(i)
  {
  }

  lemma FirstFailureNone(m: map<string, ProductState>, ids: seq<string>, api: AdminErrors)
    requires forall j :: 0 <= j < |ids| ==> Succeeds(m, ids[j], api)
    ensures FirstFailure(m, ids, api).None?
  {
  }

  /**
   * The action: `{ success: true }` when every id is handled, else 500. A product
   * missing from the shop is the thrown case, answered with the error message.
   */
  method Action(catalog: Catalog, productIds: Option<seq<string>>, productId: Option<string>, api: AdminErrors)
    returns (status: nat, reply: Reply)
    modifies catalog
    ensures status == StatusOf(reply)
    ensures reply.Done? <==> FirstFailure(old(catalog.products), Ids(productIds, productId), api).None?
    ensures reply.Done? ==> catalog.products == CleanAll(old(catalog.products), Ids(productIds, productId))
    ensures var ids := Ids(productIds, productId);
      FirstFailure(old(catalog.products), ids, api).Some? ==>
        var k := FirstFailure(old(catalog.products), ids, api).value;
        reply == Failed(ids[k], FailureAt(old(catalog.products), ids[k], api).value) &&
        catalog.products == Step(CleanAll(old(catalog.products), ids[..k]), ids[k], api)
  {
    reply := catalog.Remove(Ids(productIds, productId), api);
    status := StatusOf(reply);
  }
}
