/** The decisions the POST handlers take before touching the database:
    required-field checks and the purchase guard chain. */
module Guards {
  import opened Js
  import opened Schema

  /** What a purchase that passed every guard writes: the Transaction row minus
      its key and its date, both of which the database supplies. */
  datatype Sale = Sale(listing_id: int, buyer_id: int, quantity: int, total_price: int)

  predicate ListingFieldsMissing(req: ListingRequest)
  {
    NumFalsy(req.farmer_id) || NumFalsy(req.crop_id) || NumFalsy(req.quantity_kg)
    || NumFalsy(req.price_per_kg) || TextFalsy(req.listed_at)
  }

  /** The request body that sends exactly the five given values of a row. */
  function ListingRequestOf(row: CropListing): ListingRequest
  {
    ListingRequest(Some(row.farmer_id), Some(row.crop_id), Some(row.quantity_kg),
                   Some(row.price_per_kg), Some(row.listed_at))
  }

  /** POST /api/listings up to the INSERT: the row to insert, or the refusal.
      The INSERT names no status column, so the row takes the table's default. */
  function ValidateListing(req: ListingRequest): (r: Result<CropListing, Failure>)
    ensures r.Failure? ==> r.error == MissingFields
    ensures r.Success? ==> ListingRequestOf(r.value) == req && r.value.status == AvailableStatus
    ensures r.Success? ==> r.value.farmer_id != 0 && r.value.crop_id != 0
                           && r.value.quantity_kg != 0 && r.value.price_per_kg != 0
                           && r.value.listed_at != ""
  {
    if ListingFieldsMissing(req) then Failure(MissingFields)
    else Success(CropListing(req.farmer_id.value, req.crop_id.value, req.quantity_kg.value,
                             req.price_per_kg.value, AvailableStatus, req.listed_at.value))
  }

  /** A listing request is refused exactly when one of its five fields is falsy,
      and any row with five truthy values is what the request carrying them inserts. */
  lemma ListingValidationExact(req: ListingRequest, row: CropListing)
    ensures ValidateListing(req).Failure? <==> ListingFieldsMissing(req)
    ensures row.farmer_id != 0 && row.crop_id != 0 && row.quantity_kg != 0 && row.price_per_kg != 0
            && row.listed_at != "" && row.status == AvailableStatus
            ==> ValidateListing(ListingRequestOf(row)) == Success(row)
  {
  }

  predicate ReportFieldsMissing(req: ReportRequest)
  {
    NumFalsy(req.farmer_id) || NumFalsy(req.crop_id) || TextFalsy(req.disease_name)
    || NumFalsy(req.severity) || TextFalsy(req.report_date) || TextFalsy(req.district)
  }

  /** POST /api/disease-reports up to the INSERT. */
  function ValidateReport(req: ReportRequest): (r: Result<DiseaseReport, Failure>)
    ensures r.Failure? ==> r.error == MissingFields
    ensures r.Success? ==>
              && req == ReportRequest(Some(r.value.farmer_id), Some(r.value.crop_id),
                                      Some(r.value.disease_name), Some(r.value.severity), req.notes,
                                      Some(r.value.report_date), Some(r.value.district))
              && r.value.notes == TextOrEmpty(req.notes)
  {
    if ReportFieldsMissing(req) then Failure(MissingFields)
    else Success(DiseaseReport(req.farmer_id.value, req.crop_id.value, req.disease_name.value,
                               req.severity.value, TextOrEmpty(req.notes), req.report_date.value,
                               req.district.value))
  }

  /** notes is optional: whether a report is accepted never depends on it,
      and an absent or empty note is stored as "". */
  lemma ReportNotesOptional(req: ReportRequest, notes: Option<string>)
    ensures ValidateReport(req).Success? == ValidateReport(req.(notes := notes)).Success?
    ensures ValidateReport(req).Success? <==> !ReportFieldsMissing(req)
    ensures ValidateReport(req).Success? && TextFalsy(req.notes) ==> ValidateReport(req).value.notes == ""
  {
  }

  /** JavaScript falsiness makes a severity of 0 indistinguishable from an absent one. */
  lemma SeverityZeroIsMissing(req: ReportRequest)
    requires req.severity == Some(0)
    ensures ValidateReport(req) == Failure(MissingFields)
  {
  }

  predicate PurchaseFieldsMissing(req: PurchaseRequest)
  {
    NumFalsy(req.listing_id) || NumFalsy(req.buyer_id) || NumFalsy(req.quantity_bought)
  }

  /** POST /api/purchase up to the INSERT. `listings` is the CropListing table the
      SELECT reads and `selectError` the driver's error for that SELECT, if any. */
  function DecidePurchase(req: PurchaseRequest, listings: map<int, CropListing>,
                          selectError: Option<string>): (r: Result<Sale, Failure>)
    ensures r.Success? ==>
              && !PurchaseFieldsMissing(req)
              && r.value.listing_id == req.listing_id.value && r.value.listing_id in listings
              && r.value.buyer_id == req.buyer_id.value
              && r.value.quantity == req.quantity_bought.value
              && listings[r.value.listing_id].status == AvailableStatus
              && 0 < r.value.quantity <= listings[r.value.listing_id].quantity_kg
              && r.value.total_price == listings[r.value.listing_id].price_per_kg * r.value.quantity
  {
    if PurchaseFieldsMissing(req) then Failure(MissingFields)
    else if selectError.Some? then Failure(DbFailure(selectError.value))
    else if req.listing_id.value !in listings then Failure(ListingNotFound)
    else
      var row := listings[req.listing_id.value];
      var qty := req.quantity_bought.value;
      if row.status != AvailableStatus then Failure(ListingNotAvailable)
      else if qty <= 0 then Failure(NonPositiveQuantity)
      else if qty > row.quantity_kg then Failure(InsufficientStock(row.quantity_kg))
      else Success(Sale(req.listing_id.value, req.buyer_id.value, qty, row.price_per_kg * qty))
  }

  /** The missing-field check comes before the SELECT: its verdict depends neither
      on the table nor on whether the SELECT would have failed. */
  lemma MissingPurchaseFieldsDecidedFirst(req: PurchaseRequest, t1: map<int, CropListing>,
                                          t2: map<int, CropListing>, e1: Option<string>, e2: Option<string>)
    requires PurchaseFieldsMissing(req)
    ensures DecidePurchase(req, t1, e1) == DecidePurchase(req, t2, e2) == Failure(MissingFields)
  {
  }

  /** An unknown listing is 404 and an unavailable one 400 "Listing not available",
      whatever quantity is asked for: both are decided before the quantity checks. */
  lemma ListingDecidedBeforeQuantity(req: PurchaseRequest, qty: int, t: map<int, CropListing>)
    requires !PurchaseFieldsMissing(req) && qty != 0
    requires req.listing_id.value !in t || t[req.listing_id.value].status != AvailableStatus
    ensures DecidePurchase(req, t, None) == DecidePurchase(req.(quantity_bought := Some(qty)), t, None)
    ensures DecidePurchase(req, t, None)
            == if req.listing_id.value !in t then Failure(ListingNotFound) else Failure(ListingNotAvailable)
  {
  }

  /** Which quantity error wins once the listing is known and available. */
  lemma QuantityGuards(req: PurchaseRequest, t: map<int, CropListing>)
    requires !PurchaseFieldsMissing(req) && req.listing_id.value in t
    requires t[req.listing_id.value].status == AvailableStatus
    ensures req.quantity_bought.value <= 0 ==> DecidePurchase(req, t, None) == Failure(NonPositiveQuantity)
    ensures 0 < req.quantity_bought.value && req.quantity_bought.value > t[req.listing_id.value].quantity_kg
            ==> DecidePurchase(req, t, None) == Failure(InsufficientStock(t[req.listing_id.value].quantity_kg))
  {
  }

  /** The status code of a refused purchase says which stage refused it:
      404 exactly when the lookup found no listing, 500 exactly when the SELECT
      failed, and 400 for the field, availability and quantity guards. */
  lemma PurchaseRefusalStatus(req: PurchaseRequest, t: map<int, CropListing>, e: Option<string>)
    requires DecidePurchase(req, t, e).Failure?
    ensures StatusOf(DecidePurchase(req, t, e).error) == 404
            <==> !PurchaseFieldsMissing(req) && e.None? && req.listing_id.value !in t
    ensures StatusOf(DecidePurchase(req, t, e).error) == 500 <==> !PurchaseFieldsMissing(req) && e.Some?
    ensures StatusOf(DecidePurchase(req, t, e).error) == 400
            <==> PurchaseFieldsMissing(req) || (e.None? && req.listing_id.value in t)
  {
  }

  /** A purchase goes through exactly when every guard passes. */
  lemma PurchaseSucceedsIff(req: PurchaseRequest, t: map<int, CropListing>, e: Option<string>)
    ensures DecidePurchase(req, t, e).Success? <==>
              && !PurchaseFieldsMissing(req)
              && e.None?
              && req.listing_id.value in t
              && t[req.listing_id.value].status == AvailableStatus
              && 0 < req.quantity_bought.value <= t[req.listing_id.value].quantity_kg
  {
  }

  /** With a non-negative unit price, a purchase is charged a non-negative amount
      no larger than the value of the whole listed stock, and the stock it asks
      for never exceeds what the listing holds. */
  lemma PurchaseTotalBounded(req: PurchaseRequest, t: map<int, CropListing>, e: Option<string>)
    requires DecidePurchase(req, t, e).Success?
    requires t[DecidePurchase(req, t, e).value.listing_id].price_per_kg >= 0
    ensures var p := DecidePurchase(req, t, e).value;
            && 0 <= p.total_price <= t[p.listing_id].price_per_kg * t[p.listing_id].quantity_kg
            && t[p.listing_id].quantity_kg - p.quantity >= 0
  {
  }
}
