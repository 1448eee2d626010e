/**
 * The local `productExtendedInfo` table: one row per (product, shop, video) holding
 * the cached video metadata, whether the row is the product's main video, and
 * whether the shopper widget has been opened. The routes change it with Prisma's
 * `updateMany` and `upsert`; here the table is a sequence of rows in storage order.
 */
module ExtendedInfo {
  import opened Wrappers

  datatype InfoRow = InfoRow(
    shop: string,
    productId: nat,
    videoUrl: Option<string>,
    productTitle: Option<string>,
    aiSummary: Option<string>,
    highlights: Option<string>,
    sourceMethod: Option<string>,
    isMain: bool,
    isOpened: bool)

  predicate Of(row: InfoRow, productId: nat, shop: string) {
    row.productId == productId && row.shop == shop
  }

  /** Number of rows of (productId, shop) flagged as the main video. */
  function MainCount(rows: seq<InfoRow>, productId: nat, shop: string): nat {
    if rows == [] then 0
    else MainCount(rows[..|rows| - 1], productId, shop)
         + (if Of(rows[|rows| - 1], productId, shop) && rows[|rows| - 1].isMain then 1 else 0)
  }

  /** Every (product, shop) has at most one main row. */
  predicate AtMostOneMain(rows: seq<InfoRow>) {
    forall i, j :: 0 <= i < j < |rows| && rows[i].isMain && rows[j].isMain ==>
      rows[i].productId != rows[j].productId || rows[i].shop != rows[j].shop
  }

  // ----- updateMany({ where: { productId, shop, isMain: true }, data: { isMain: false } }) -----

  function ClearedMain(rows: seq<InfoRow>, productId: nat, shop: string): (r: seq<InfoRow>)
    ensures |r| == |rows|
    ensures forall i :: 0 <= i < |r| ==> r[i].(isMain := rows[i].isMain) == rows[i]
    ensures forall i :: 0 <= i < |r| && Of(r[i], productId, shop) ==> !r[i].isMain
    ensures forall i :: 0 <= i < |r| && !Of(rows[i], productId, shop) ==> r[i] == rows[i]
  {
    seq(|rows|, i requires 0 <= i < |rows| =>
      if Of(rows[i], productId, shop) && rows[i].isMain then rows[i].(isMain := false) else rows[i])
  }

  // ----- upsert keyed by productId_shop_videoUrl (manual edit) -----

  /** The fields a manual edit writes; `None` is an `undefined` value, which Prisma leaves untouched on update. */
  datatype ManualFields = ManualFields(productTitle: Option<string>, aiSummary: Option<string>, highlights: Option<string>)

  function Overwrite(old_: Option<string>, new_: Option<string>): Option<string> {
    if new_.Some? then new_ else old_
  }

  function IndexOfVideo(rows: seq<InfoRow>, productId: nat, shop: string, url: string): (r: Option<nat>)
    ensures r.Some? ==> r.value < |rows| && Of(rows[r.value], productId, shop) && rows[r.value].videoUrl == Some(url)
    ensures r.Some? ==> forall j :: 0 <= j < r.value ==> !(Of(rows[j], productId, shop) && rows[j].videoUrl == Some(url))
    ensures r.None? ==> forall j :: 0 <= j < |rows| ==> !(Of(rows[j], productId, shop) && rows[j].videoUrl == Some(url))
  {
    if rows == [] then None
    else if Of(rows[0], productId, shop) && rows[0].videoUrl == Some(url) then Some(0)
    else
      var r := IndexOfVideo(rows[1..], productId, shop, url);
      if r.Some? then Some(r.value + 1) else None
  }

  /**
   * The row keyed by (productId, shop, url) is updated in place when it exists, else
   * a new row is appended; either way it ends up main, MANUAL, and holding every
   * field the edit supplied.
   */
  function UpsertManual(rows: seq<InfoRow>, productId: nat, shop: string, url: string, f: ManualFields): (r: seq<InfoRow>)
    ensures |r| == |rows| || |r| == |rows| + 1
    ensures forall i :: 0 <= i < |rows| && !(Of(rows[i], productId, shop) && rows[i].videoUrl == Some(url)) ==> r[i] == rows[i]
    ensures exists i :: (0 <= i < |r| && Of(r[i], productId, shop) && r[i].videoUrl == Some(url) && r[i].isMain
                         && r[i].sourceMethod == Some("MANUAL")
                         && (f.productTitle.Some? ==> r[i].productTitle == f.productTitle)
                         && (f.aiSummary.Some? ==> r[i].aiSummary == f.aiSummary)
                         && (f.highlights.Some? ==> r[i].highlights == f.highlights))
    ensures IndexOfVideo(rows, productId, shop, url).Some? ==>
      var k := IndexOfVideo(rows, productId, shop, url).value;
      |r| == |rows| && r[k] == rows[k].(productTitle := Overwrite(rows[k].productTitle, f.productTitle),
                                        aiSummary := Overwrite(rows[k].aiSummary, f.aiSummary),
                                        highlights := Overwrite(rows[k].highlights, f.highlights),
                                        sourceMethod := Some("MANUAL"), isMain := true)
    ensures IndexOfVideo(rows, productId, shop, url).None? ==>
      r == rows + [InfoRow(shop, productId, Some(url), f.productTitle, f.aiSummary, f.highlights, Some("MANUAL"), true, false)]
  {
    match IndexOfVideo(rows, productId, shop, url)
    case Some(i) =>
      var row := rows[i];
      var r := rows[i := row.(productTitle := Overwrite(row.productTitle, f.productTitle),
                              aiSummary := Overwrite(row.aiSummary, f.aiSummary),
                              highlights := Overwrite(row.highlights, f.highlights),
                              sourceMethod := Some("MANUAL"), isMain := true)];
      assert Of(r[i], productId, shop) && r[i].videoUrl == Some(url);
      r
    case None =>
      var r := rows + [InfoRow(shop, productId, Some(url), f.productTitle, f.aiSummary, f.highlights,
                               Some("MANUAL"), true, false)];
      assert Of(r[|rows|], productId, shop);
      r
  }

  lemma {:induction false} MainCountZero(rows: seq<InfoRow>, productId: nat, shop: string)
    requires forall i :: 0 <= i < |rows| && Of(rows[i], productId, shop) ==> !rows[i].isMain
    ensures MainCount(rows, productId, shop) == 0
  {
    if rows != [] {
      MainCountZero(rows[..|rows| - 1], productId, shop);
    }
  }

  lemma {:induction false} MainCountOne(rows: seq<InfoRow>, productId: nat, shop: string, k: nat)
    requires k < |rows| && Of(rows[k], productId, shop) && rows[k].isMain
    requires forall i :: 0 <= i < |rows| && i != k && Of(rows[i], productId, shop) ==> !rows[i].isMain
    ensures MainCount(rows, productId, shop) == 1
  {
    var init := rows[..|rows| - 1];
    if k == |rows| - 1 {
      MainCountZero(init, productId, shop);
    } else {
      MainCountOne(init, productId, shop, k);
    }
  }

  /**
   * A manual edit clears the main flag of the product's rows in this shop and then
   * upserts the chosen video as main: afterwards exactly one row of (productId, shop)
   * is main, it holds the chosen url, the product's other rows are still there with
   * the flag off, and no row of another product or shop changes.
   */
  lemma ManualEditLeavesOneMain(rows: seq<InfoRow>, productId: nat, shop: string, url: string, f: ManualFields)
    ensures var r := UpsertManual(ClearedMain(rows, productId, shop), productId, shop, url, f);
      && MainCount(r, productId, shop) == 1
      && (forall i :: 0 <= i < |r| && Of(r[i], productId, shop) && r[i].isMain ==> r[i].videoUrl == Some(url))
      && (forall i :: 0 <= i < |rows| && !Of(rows[i], productId, shop) ==> r[i] == rows[i])
      && (forall i :: 0 <= i < |rows| && Of(rows[i], productId, shop) && rows[i].videoUrl != Some(url) ==>
            r[i] == rows[i].(isMain := false))
  {
    var c := ClearedMain(rows, productId, shop);
    var r := UpsertManual(c, productId, shop, url, f);
    var k :| 0 <= k < |r| && Of(r[k], productId, shop) && r[k].videoUrl == Some(url) && r[k].isMain;
    forall i | 0 <= i < |r| && i != k && Of(r[i], productId, shop) ensures !r[i].isMain {
      if i < |c| && !(Of(c[i], productId, shop) && c[i].videoUrl == Some(url)) {
        assert r[i] == c[i];
      } else {
        // a second row carrying the chosen url cannot be main: the upsert touched only the first one
        match IndexOfVideo(c, productId, shop, url)
        case Some(j) =>
          assert r[i] == c[i] || i == j;
          assert r[k] == c[k] || k == j;
        case None =>
      }
    }
    MainCountOne(r, productId, shop, k);
  }

  /** The manual edit keeps the at-most-one-main invariant of the whole table. */
  lemma ManualEditKeepsInvariant(rows: seq<InfoRow>, productId: nat, shop: string, url: string, f: ManualFields)
    requires AtMostOneMain(rows)
    ensures AtMostOneMain(UpsertManual(ClearedMain(rows, productId, shop), productId, shop, url, f))
  {
    var c := ClearedMain(rows, productId, shop);
    var r := UpsertManual(c, productId, shop, url, f);
    ManualEditLeavesOneMain(rows, productId, shop, url, f);
    forall i, j | 0 <= i < j < |r| && r[i].isMain && r[j].isMain
      ensures r[i].productId != r[j].productId || r[i].shop != r[j].shop
    {
      if Of(r[i], productId, shop) && Of(r[j], productId, shop) {
        OneMainMeansOneIndex(r, productId, shop, i, j);
      } else if Of(r[i], productId, shop) || Of(r[j], productId, shop) {
      } else {
        assert i < |rows| && j < |rows| ==> r[i] == rows[i] && r[j] == rows[j];
      }
    }
  }

  lemma {:induction false} OneMainMeansOneIndex(rows: seq<InfoRow>, productId: nat, shop: string, i: nat, j: nat)
    requires i < j < |rows|
    requires Of(rows[i], productId, shop) && rows[i].isMain && Of(rows[j], productId, shop) && rows[j].isMain
    ensures MainCount(rows, productId, shop) >= 2
  {
    var init := rows[..|rows| - 1];
    if j < |rows| - 1 {
      OneMainMeansOneIndex(init, productId, shop, i, j);
    } else {
      AtLeastOne(init, productId, shop, i);
    }
  }

  lemma {:induction false} AtLeastOne(rows: seq<InfoRow>, productId: nat, shop: string, i: nat)
    requires i < |rows| && Of(rows[i], productId, shop) && rows[i].isMain
    ensures MainCount(rows, productId, shop) >= 1
  {
    if i < |rows| - 1 {
      AtLeastOne(rows[..|rows| - 1], productId, shop, i);
    }
  }

  // ----- upsert keyed by productId (automatic discovery) -----

  /** The fields a discovery writes; `None` is an `undefined` value. */
  datatype DiscoveredFields = DiscoveredFields(
    productTitle: Option<string>, videoUrl: Option<string>, aiSummary: Option<string>, highlights: Option<string>)

  function IndexOfProduct(rows: seq<InfoRow>, productId: nat): (r: Option<nat>)
    ensures r.Some? ==> r.value < |rows| && rows[r.value].productId == productId
    ensures r.Some? ==> forall j :: 0 <= j < r.value ==> rows[j].productId != productId
    ensures r.None? ==> forall j :: 0 <= j < |rows| ==> rows[j].productId != productId
  {
    if rows == [] then None
    else if rows[0].productId == productId then Some(0)
    else
      var r := IndexOfProduct(rows[1..], productId);
      if r.Some? then Some(r.value + 1) else None
  }

  /**
   * The product's first row is updated in place when one exists, else a new row is
   * appended; either way it ends up AUTO, in this shop, and holding every field the
   * discovery supplied, with its main and opened flags untouched.
   */
  function UpsertDiscovered(rows: seq<InfoRow>, productId: nat, shop: string, f: DiscoveredFields): (r: seq<InfoRow>)
    ensures |r| == |rows| || |r| == |rows| + 1
    ensures forall i :: 0 <= i < |rows| ==> r[i].isMain == rows[i].isMain && r[i].isOpened == rows[i].isOpened
    ensures forall i :: 0 <= i < |rows| && rows[i].productId != productId ==> r[i] == rows[i]
    ensures exists i :: (0 <= i < |r| && r[i].productId == productId && r[i].shop == shop
                         && r[i].sourceMethod == Some("AUTO")
                         && (f.videoUrl.Some? ==> r[i].videoUrl == f.videoUrl)
                         && (f.productTitle.Some? ==> r[i].productTitle == f.productTitle)
                         && (f.aiSummary.Some? ==> r[i].aiSummary == f.aiSummary)
                         && (f.highlights.Some? ==> r[i].highlights == f.highlights))
    ensures IndexOfProduct(rows, productId).Some? ==>
      var k := IndexOfProduct(rows, productId).value;
      |r| == |rows| && r[k] == rows[k].(productTitle := Overwrite(rows[k].productTitle, f.productTitle),
                                        videoUrl := Overwrite(rows[k].videoUrl, f.videoUrl),
                                        sourceMethod := Some("AUTO"),
                                        aiSummary := Overwrite(rows[k].aiSummary, f.aiSummary),
                                        highlights := Overwrite(rows[k].highlights, f.highlights),
                                        shop := shop)
    ensures IndexOfProduct(rows, productId).None? ==>
      r == rows + [InfoRow(shop, productId, f.videoUrl, f.productTitle, f.aiSummary, f.highlights, Some("AUTO"), false, false)]
  {
    match IndexOfProduct(rows, productId)
    case Some(i) =>
      var row := rows[i];
      var r := rows[i := row.(productTitle := Overwrite(row.productTitle, f.productTitle),
                              videoUrl := Overwrite(row.videoUrl, f.videoUrl),
                              sourceMethod := Some("AUTO"),
                              aiSummary := Overwrite(row.aiSummary, f.aiSummary),
                              highlights := Overwrite(row.highlights, f.highlights),
                              shop := shop)];
      assert r[i].productId == productId;
      r
    case None =>
      var r := rows + [InfoRow(shop, productId, f.videoUrl, f.productTitle, f.aiSummary, f.highlights,
                               Some("AUTO"), false, false)];
      assert r[|rows|].productId == productId;
      r
  }

  // ----- updateMany({ where: { shop, productId }, data: { isOpened: true } }) -----

  function MatchCount(rows: seq<InfoRow>, shop: string, productId: nat): (n: nat)
    ensures n <= |rows|
    ensures n == 0 <==> forall i :: 0 <= i < |rows| ==> !Of(rows[i], productId, shop)
  {
    if rows == [] then 0
    else MatchCount(rows[..|rows| - 1], shop, productId) + (if Of(rows[|rows| - 1], productId, shop) then 1 else 0)
  }

  function OpenedRows(rows: seq<InfoRow>, shop: string, productId: nat): (r: seq<InfoRow>)
    ensures |r| == |rows|
    ensures forall i :: 0 <= i < |r| && Of(rows[i], productId, shop) ==> r[i] == rows[i].(isOpened := true)
    ensures forall i :: 0 <= i < |r| && !Of(rows[i], productId, shop) ==> r[i] == rows[i]
  {
    seq(|rows|, i requires 0 <= i < |rows| => if Of(rows[i], productId, shop) then rows[i].(isOpened := true) else rows[i])
  }

  /** Marking rows opened matches the same rows again, so a repeated call reports the same count and changes nothing. */
  lemma {:induction false} MarkOpenedIdempotent(rows: seq<InfoRow>, shop: string, productId: nat)
    ensures MatchCount(OpenedRows(rows, shop, productId), shop, productId) == MatchCount(rows, shop, productId)
    ensures OpenedRows(OpenedRows(rows, shop, productId), shop, productId) == OpenedRows(rows, shop, productId)
  {
    if rows != [] {
      var init := rows[..|rows| - 1];
      MarkOpenedIdempotent(init, shop, productId);
      assert OpenedRows(rows, shop, productId)[..|rows| - 1] == OpenedRows(init, shop, productId);
    }
  }

  /** The table as the routes see it, changed in place by the Prisma calls. */
  class InfoTable {
    var rows: seq<InfoRow>

    constructor (initial: seq<InfoRow>)
      ensures rows == initial
    {
      rows := initial;
    }

    method ClearMain(productId: nat, shop: string)
      modifies this
      ensures rows == ClearedMain(old(rows), productId, shop)
    {
      rows := ClearedMain(rows, productId, shop);
    }

    method UpsertManualRow(productId: nat, shop: string, url: string, f: ManualFields)
      modifies this
      ensures rows == UpsertManual(old(rows), productId, shop, url, f)
    {
      rows := UpsertManual(rows, productId, shop, url, f);
    }

    method UpsertDiscoveredRow(productId: nat, shop: string, f: DiscoveredFields)
      modifies this
      ensures rows == UpsertDiscovered(old(rows), productId, shop, f)
    {
      rows := UpsertDiscovered(rows, productId, shop, f);
    }

    /** Returns `result.count` of the `updateMany`. */
    method MarkOpened(shop: string, productId: nat) returns (count: nat)
      modifies this
      ensures rows == OpenedRows(old(rows), shop, productId)
      ensures count == MatchCount(old(rows), shop, productId)
    {
      count := MatchCount(rows, shop, productId);
      rows := OpenedRows(rows, shop, productId);
    }
  }
}
