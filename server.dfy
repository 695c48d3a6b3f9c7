/** The five endpoints of the CropVerse backend as methods on the database
    they query. Each call is one request, run to completion. The driver's
    errors arrive as `Option<string>` parameters (None: the statement ran);
    CURDATE() arrives as `today`. */
module Server {
  import opened Js
  import opened Schema
  import opened Guards
  import opened Queries

  class Database {
    var farmers: map<int, Farmer>
    var crops: map<int, Crop>
    /** CropListing, keyed by listing_id. */
    var listings: map<int, CropListing>
    /** The AUTO_INCREMENT counter of CropListing. */
    var nextListingId: int
    var reports: seq<ReportRow>
    var nextReportId: int
    var transactions: seq<Transaction>
    var nextTransactionId: int
    /** Alert rows; the handlers only read them. */
    var alerts: seq<Alert>

    /** Keys come from the AUTO_INCREMENT counters, so they are unique and below
        the next key; every recorded purchase was charged its listing's unit
        price times a positive quantity. */
    ghost predicate Valid()
      reads this
    {
      && 1 <= nextListingId
      && (forall id :: id in listings ==> 1 <= id < nextListingId)
      && 1 <= nextReportId
      && (forall i :: 0 <= i < |reports| ==> 1 <= reports[i].report_id < nextReportId)
      && (forall i, j :: 0 <= i < j < |reports| ==> reports[i].report_id < reports[j].report_id)
      && 1 <= nextTransactionId
      && (forall i :: 0 <= i < |transactions| ==> 1 <= transactions[i].transaction_id < nextTransactionId)
      && (forall i, j :: 0 <= i < j < |transactions| ==>
            transactions[i].transaction_id < transactions[j].transaction_id)
      && (forall i :: 0 <= i < |transactions| ==> ChargedAtListedPrice(transactions[i]))
    }

    ghost predicate ChargedAtListedPrice(t: Transaction)
      reads this
    {
      && t.listing_id in listings
      && t.quantity_bought > 0
      && t.total_price == listings[t.listing_id].price_per_kg * t.quantity_bought
    }

    /** A database holding the given farmers, crops and alerts and no listings,
        reports or transactions yet. */
    constructor (farmers: map<int, Farmer>, crops: map<int, Crop>, alerts: seq<Alert>)
      ensures Valid()
      ensures this.farmers == farmers && this.crops == crops && this.alerts == alerts
      ensures listings == map[] && reports == [] && transactions == []
    {
      this.farmers := farmers;
      this.crops := crops;
      this.alerts := alerts;
      listings := map[];
      reports := [];
      transactions := [];
      nextListingId := 1;
      nextReportId := 1;
      nextTransactionId := 1;
    }

    /** GET /api/listings. */
    method GetListings(queryError: Option<string>) returns (resp: Response)
      requires Valid()
      ensures queryError.Some? ==> resp == ErrorResponse(DbFailure(queryError.value))
      ensures queryError.None? ==>
                && resp.status == 200 && resp.body.ListingRows?
                && IsListingsAnswer(farmers, crops, listings, resp.body.rows)
    {
      if queryError.Some? {
        return ErrorResponse(DbFailure(queryError.value));
      }
      AvailableListingsCorrect(farmers, crops, listings, nextListingId);
      resp := Response(200, ListingRows(AvailableListings(farmers, crops, listings, nextListingId)));
    }

    /** POST /api/listings. */
    method CreateListing(req: ListingRequest, insertError: Option<string>) returns (resp: Response)
      requires Valid()
      modifies this`listings, this`nextListingId
      ensures Valid()
      ensures ListingFieldsMissing(req) ==> resp == ErrorResponse(MissingFields)
      ensures !ListingFieldsMissing(req) && insertError.Some? ==> resp == ErrorResponse(DbFailure(insertError.value))
      ensures ListingFieldsMissing(req) || insertError.Some? ==>
                listings == old(listings) && nextListingId == old(nextListingId)
      ensures !ListingFieldsMissing(req) && insertError.None? ==>
                && old(nextListingId) !in old(listings)
                && listings == old(listings)[old(nextListingId) := ValidateListing(req).value]
                && resp == Response(200, ListingCreated(old(nextListingId)))
    {
      var checked := ValidateListing(req);
      if checked.Failure? {
        return ErrorResponse(checked.error);
      }
      if insertError.Some? {
        return ErrorResponse(DbFailure(insertError.value));
      }
      var id := nextListingId;
      listings := listings[id := checked.value];
      nextListingId := nextListingId + 1;
      resp := Response(200, ListingCreated(id));
    }

    /** GET /api/alerts. */
    method GetAlerts(queryError: Option<string>) returns (resp: Response)
      ensures queryError.Some? ==> resp == ErrorResponse(DbFailure(queryError.value))
      ensures queryError.None? ==>
                && resp.status == 200 && resp.body.AlertRows?
                && IsAlertsAnswer(alerts, resp.body.alerts)
    {
      if queryError.Some? {
        return ErrorResponse(DbFailure(queryError.value));
      }
      LatestAlertsCorrect(alerts);
      resp := Response(200, AlertRows(LatestAlerts(alerts)));
    }

    /** POST /api/disease-reports. */
    method ReportDisease(req: ReportRequest, insertError: Option<string>) returns (resp: Response)
      requires Valid()
      modifies this`reports, this`nextReportId
      ensures Valid()
      ensures ReportFieldsMissing(req) ==> resp == ErrorResponse(MissingFields)
      ensures !ReportFieldsMissing(req) && insertError.Some? ==> resp == ErrorResponse(DbFailure(insertError.value))
      ensures ReportFieldsMissing(req) || insertError.Some? ==>
                reports == old(reports) && nextReportId == old(nextReportId)
      ensures !ReportFieldsMissing(req) && insertError.None? ==>
                && reports == old(reports) + [ReportRow(old(nextReportId), ValidateReport(req).value)]
                && resp == Response(200, ReportCreated(old(nextReportId)))
    {
      var checked := ValidateReport(req);
      if checked.Failure? {
        return ErrorResponse(checked.error);
      }
      if insertError.Some? {
        return ErrorResponse(DbFailure(insertError.value));
      }
      var id := nextReportId;
      reports := reports + [ReportRow(id, checked.value)];
      nextReportId := nextReportId + 1;
      resp := Response(200, ReportCreated(id));
    }

    /** POST /api/purchase. The SELECT runs only once the three fields are present;
        the CropListing row is read and never written. */
    method Purchase(req: PurchaseRequest, today: string, selectError: Option<string>,
                    insertError: Option<string>) returns (resp: Response)
      requires Valid()
      modifies this`transactions, this`nextTransactionId
      ensures Valid()
      ensures var d := DecidePurchase(req, listings, selectError);
              && (d.Failure? ==> resp == ErrorResponse(d.error))
              && (d.Success? && insertError.Some? ==> resp == ErrorResponse(DbFailure(insertError.value)))
              && (d.Failure? || insertError.Some? ==>
                    transactions == old(transactions) && nextTransactionId == old(nextTransactionId))
              && (d.Success? && insertError.None? ==>
                    && transactions == old(transactions) + [Transaction(old(nextTransactionId), d.value.listing_id,
                         d.value.buyer_id, d.value.quantity, d.value.total_price, today)]
                    && resp == Response(200, Purchased(old(nextTransactionId), d.value.total_price)))
    {
      var decision := DecidePurchase(req, listings, selectError);
      if decision.Failure? {
        return ErrorResponse(decision.error);
      }
      if insertError.Some? {
        return ErrorResponse(DbFailure(insertError.value));
      }
      var p := decision.value;
      var id := nextTransactionId;
      transactions := transactions + [Transaction(id, p.listing_id, p.buyer_id, p.quantity, p.total_price, today)];
      nextTransactionId := nextTransactionId + 1;
      resp := Response(200, Purchased(id, p.total_price));
    }
  }
}
