/** The tables the handlers read and write, the request bodies they accept and
    the responses they send. Farmer and Crop keep the columns the listings query
    returns; Alert keeps alert_id, alert_type, message and created_at, the columns
    the alert list shows, of the rows `SELECT *` returns. */
module Schema {
  import opened Js

  datatype Result<T, E> = Success(value: T) | Failure(error: E)

  /** The only listing status the handlers treat specially. */
  const AvailableStatus: string := "Available"

  datatype Farmer = Farmer(name: string, district: string)

  datatype Crop = Crop(crop_name: string)

  /** A CropListing row (the key, listing_id, is the table's map key). */
  datatype CropListing = CropListing(
    farmer_id: int,
    crop_id: int,
    quantity_kg: int,
    price_per_kg: int,
    status: string,
    listed_at: string)

  datatype Transaction = Transaction(
    transaction_id: int,
    listing_id: int,
    buyer_id: int,
    quantity_bought: int,
    total_price: int,
    transaction_date: string)

  datatype DiseaseReport = DiseaseReport(
    farmer_id: int,
    crop_id: int,
    disease_name: string,
    severity: int,
    notes: string,
    report_date: string,
    district: string)

  /** A DiseaseReport row together with its auto-increment key. */
  datatype ReportRow = ReportRow(report_id: int, report: DiseaseReport)

  datatype Alert = Alert(alert_id: int, alert_type: string, message: string, created_at: string)

  /** One row of the GET /api/listings join of CropListing, Farmer and Crop. */
  datatype ListingView = ListingView(
    listing_id: int,
    farmer_name: string,
    district: string,
    crop_name: string,
    quantity_kg: int,
    price_per_kg: int,
    status: string,
    listed_at: string)

  /** Body of POST /api/listings. */
  datatype ListingRequest = ListingRequest(
    farmer_id: Option<int>,
    crop_id: Option<int>,
    quantity_kg: Option<int>,
    price_per_kg: Option<int>,
    listed_at: Option<string>)

  /** Body of POST /api/disease-reports. */
  datatype ReportRequest = ReportRequest(
    farmer_id: Option<int>,
    crop_id: Option<int>,
    disease_name: Option<string>,
    severity: Option<int>,
    notes: Option<string>,
    report_date: Option<string>,
    district: Option<string>)

  /** Body of POST /api/purchase. */
  datatype PurchaseRequest = PurchaseRequest(
    listing_id: Option<int>,
    buyer_id: Option<int>,
    quantity_bought: Option<int>)

  /** Every way a handler can refuse a request. */
  datatype Failure =
    | MissingFields
    | ListingNotFound
    | ListingNotAvailable
    | NonPositiveQuantity
    | InsufficientStock(available: int)
    | DbFailure(message: string)

  /** The JSON object a handler sends. */
  datatype Body =
    | ErrorBody(error: string)
    | ListingCreated(listing_id: int)
    | ReportCreated(report_id: int)
    | Purchased(transaction_id: int, total_price: int)
    | ListingRows(rows: seq<ListingView>)
    | AlertRows(alerts: seq<Alert>)

  datatype Response = Response(status: int, body: Body)

  function StatusOf(f: Failure): (code: int)
    ensures code == 404 <==> f == ListingNotFound
    ensures code == 500 <==> f.DbFailure?
    ensures code == 400 <==> !f.DbFailure? && f != ListingNotFound
  {
    match f
    case ListingNotFound => 404
    case DbFailure(_) => 500
    case _ => 400
  }

  function MessageOf(f: Failure): string
  {
    match f
    case MissingFields => "Missing required fields"
    case ListingNotFound => "Listing not found"
    case ListingNotAvailable => "Listing not available"
    case NonPositiveQuantity => "Quantity must be > 0"
    case InsufficientStock(available) => "Only " + NumberToString(available) + " kg available"
    case DbFailure(message) => message
  }

  function ErrorResponse(f: Failure): Response
  {
    Response(StatusOf(f), ErrorBody(MessageOf(f)))
  }

  /** The handlers' own refusals can be told apart by their message alone,
      and "Only N kg available" carries the exact stock N. */
  lemma GuardMessagesDistinct(f: Failure, g: Failure)
    requires !f.DbFailure? && !g.DbFailure?
    requires f != g
    ensures MessageOf(f) != MessageOf(g)
  {
    if f.InsufficientStock? && g.InsufficientStock? {
      var a, b := NumberToString(f.available), NumberToString(g.available);
      if MessageOf(f) == MessageOf(g) {
        assert |a| == |b|;
        assert a == MessageOf(f)[5..5 + |a|];
        assert b == MessageOf(g)[5..5 + |b|];
        NumberToStringInjective(f.available, g.available);
      }
    } else if f.InsufficientStock? || g.InsufficientStock? {
      assert MessageOf(f)[0] != MessageOf(g)[0];
    } else {
      assert |MessageOf(f)| != |MessageOf(g)|;
    }
  }
}
