/** What the two GET endpoints select from the tables. */
module Queries {
  import opened Schema
  import opened Ordering

  /** `LIMIT 50` of GET /api/alerts. */
  const AlertLimit: nat := 50

  /** A listing appears in GET /api/listings when its status is 'Available' and
      the inner joins find its farmer and its crop. */
  predicate Shown(farmers: map<int, Farmer>, crops: map<int, Crop>,
                  listings: map<int, CropListing>, id: int)
  {
    && id in listings
    && listings[id].status == AvailableStatus
    && listings[id].farmer_id in farmers
    && listings[id].crop_id in crops
  }

  /** The joined row the query projects for a shown listing. */
  function View(farmers: map<int, Farmer>, crops: map<int, Crop>,
                listings: map<int, CropListing>, id: int): ListingView
    requires Shown(farmers, crops, listings, id)
  {
    var row := listings[id];
    var farmer := farmers[row.farmer_id];
    ListingView(id, farmer.name, farmer.district, crops[row.crop_id].crop_name,
                row.quantity_kg, row.price_per_kg, row.status, row.listed_at)
  }

  function ListedAt(v: ListingView): string
  {
    v.listed_at
  }

  function CreatedAt(a: Alert): string
  {
    a.created_at
  }

  /** Scans the keys lo, lo + 1, ..., hi - 1 and keeps the shown listings. */
  function ScanShown(farmers: map<int, Farmer>, crops: map<int, Crop>,
                     listings: map<int, CropListing>, lo: int, hi: int): seq<ListingView>
    decreases hi - lo
  {
    if lo >= hi then []
    else
      var rest := ScanShown(farmers, crops, listings, lo + 1, hi);
      if Shown(farmers, crops, listings, lo) then [View(farmers, crops, listings, lo)] + rest else rest
  }

  lemma {:induction false} ScanShownSpec(farmers: map<int, Farmer>, crops: map<int, Crop>,
                                         listings: map<int, CropListing>, lo: int, hi: int)
    ensures var s := ScanShown(farmers, crops, listings, lo, hi);
            && (forall v :: v in s <==> lo <= v.listing_id < hi && Shown(farmers, crops, listings, v.listing_id)
                                         && v == View(farmers, crops, listings, v.listing_id))
            && (forall i, j :: 0 <= i < j < |s| ==> s[i].listing_id < s[j].listing_id)
    decreases hi - lo
  {
    if lo < hi {
      ScanShownSpec(farmers, crops, listings, lo + 1, hi);
    }
  }

  /** The result of GET /api/listings. */
  function AvailableListings(farmers: map<int, Farmer>, crops: map<int, Crop>,
                             listings: map<int, CropListing>, nextId: int): seq<ListingView>
  {
    SortDesc(ScanShown(farmers, crops, listings, 1, nextId), ListedAt)
  }

  /** Every shown listing exactly once, as its joined row, newest listed_at first. */
  ghost predicate IsListingsAnswer(farmers: map<int, Farmer>, crops: map<int, Crop>,
                                   listings: map<int, CropListing>, rows: seq<ListingView>)
  {
    && (forall v :: v in rows <==> Shown(farmers, crops, listings, v.listing_id)
                                   && v == View(farmers, crops, listings, v.listing_id))
    && (forall i, j :: 0 <= i < j < |rows| ==> rows[i].listing_id != rows[j].listing_id)
    && SortedDesc(rows, ListedAt)
  }

  lemma AvailableListingsCorrect(farmers: map<int, Farmer>, crops: map<int, Crop>,
                                 listings: map<int, CropListing>, nextId: int)
    requires forall id :: id in listings ==> 1 <= id < nextId
    ensures IsListingsAnswer(farmers, crops, listings, AvailableListings(farmers, crops, listings, nextId))
  {
    var scan := ScanShown(farmers, crops, listings, 1, nextId);
    var rows := AvailableListings(farmers, crops, listings, nextId);
    ScanShownSpec(farmers, crops, listings, 1, nextId);
    SortDescCorrect(scan, ListedAt);
    SortDescNoDuplicates(scan, ListedAt);
    forall v ensures v in rows <==> v in scan {
      assert v in rows <==> v in multiset(rows);
    }
    forall i, j | 0 <= i < j < |rows| ensures rows[i].listing_id != rows[j].listing_id {
      assert rows[i] in rows && rows[j] in rows;
    }
  }

  /** With every listing's farmer and crop on file, the join drops nothing:
      exactly the 'Available' listings are shown. */
  lemma ShownIffAvailable(farmers: map<int, Farmer>, crops: map<int, Crop>,
                          listings: map<int, CropListing>, id: int)
    requires forall k :: k in listings ==> listings[k].farmer_id in farmers && listings[k].crop_id in crops
    ensures Shown(farmers, crops, listings, id) <==> id in listings && listings[id].status == AvailableStatus
  {
  }

  /** The result of GET /api/alerts. */
  function LatestAlerts(alerts: seq<Alert>): seq<Alert>
  {
    Take(SortDesc(alerts, CreatedAt), AlertLimit)
  }

  /** At most fifty alerts, newest first, all from the table, and every alert
      left out (counting repeats) is no newer than any alert returned. */
  ghost predicate IsAlertsAnswer(alerts: seq<Alert>, r: seq<Alert>)
  {
    && |r| == (if |alerts| <= AlertLimit then |alerts| else AlertLimit)
    && SortedDesc(r, CreatedAt)
    && multiset(r) <= multiset(alerts)
    && (forall a, b :: a in r && multiset(r)[b] < multiset(alerts)[b] ==> LexLe(b.created_at, a.created_at))
  }

  lemma LatestAlertsCorrect(alerts: seq<Alert>)
    ensures IsAlertsAnswer(alerts, LatestAlerts(alerts))
  {
    var sorted := SortDesc(alerts, CreatedAt);
    var r := LatestAlerts(alerts);
    SortDescCorrect(alerts, CreatedAt);
    var rest := sorted[|r|..];
    assert sorted == r + rest;
    assert multiset(sorted) == multiset(r) + multiset(rest);
    forall a, b | a in r && multiset(r)[b] < multiset(alerts)[b]
      ensures LexLe(b.created_at, a.created_at)
    {
      assert b in multiset(rest);
      var j :| 0 <= j < |rest| && rest[j] == b;
      var i :| 0 <= i < |r| && r[i] == a;
      assert sorted[i] == a && sorted[|r| + j] == b;
    }
  }
}
