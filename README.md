# CropVerse backend request handlers in Dafny

CropVerse is a small agricultural marketplace. Farmers list crop quantities
for sale, buyers purchase from those listings, and farmers report crop
diseases. Its Express backend (`corpverse/server.js`) has five API endpoints, each
a thin layer over one MySQL database:

- `GET /api/listings`: the available listings, joined with their farmer and crop, newest first;
- `POST /api/listings`: create a listing after checking five required fields;
- `GET /api/alerts`: the fifty newest alerts;
- `POST /api/disease-reports`: record a disease report after checking six required fields;
- `POST /api/purchase`: an ordered chain of guards (missing fields, unknown
  listing, listing not available, quantity not positive, quantity above stock),
  then one Transaction row charged `price_per_kg * quantity`.

This project models those handlers. The database is an object whose fields
are the tables: `Server.Database`. Each request is one method call, run to
completion. The files are:

- `js.dfy` (module `Js`): JavaScript truthiness of request fields, where
  absent, null, `0` and `""` are falsy. Also the decimal text of an integer,
  which appears in the message "Only N kg available".
- `schema.dfy` (module `Schema`): the table rows, the request bodies and the
  responses. It also holds the status code and message of every refusal.
- `ordering.dfy` (module `Ordering`): `ORDER BY … DESC` as a stable insertion
  sort on the ISO-8601 text of a date, and `LIMIT` as `Take`.
- `guards.dfy` (module `Guards`): the pure decisions of the three POST
  handlers, taken before anything is written.
- `queries.dfy` (module `Queries`): what the two GET queries return, and the
  predicates that say what a correct answer is.
- `server.dfy` (module `Server`): the `Database` class and its five handler
  methods. Its invariant `Valid()` says three things. Keys come from
  AUTO_INCREMENT counters. Transaction and report keys increase. Every stored
  transaction was charged its listing's unit price times a positive quantity.

The database driver's errors become parameters of type `Option<string>`. The
value `None` means the statement ran, and `Some(m)` means the driver reported
`m`, which the handler returns as HTTP 500 `{error: m}` without writing
anything. `CURDATE()` becomes the parameter `today`.

Each success body stands for `{ ok: true, … }`:

- `ListingCreated(id)` is `{ok: true, listing_id}`;
- `ReportCreated(id)` is `{ok: true, report_id}`;
- `Purchased(id, total)` is `{ok: true, transaction_id, total_price}`.

The INSERT into CropListing names no status column, so a new row takes the
table's default status. The schema is not part of this model, and the model
takes that default to be `'Available'`. That is the status under which the
listing page shows new listings.

## Model

| member | source | states |
|---|---|---|
| `Server.Database.GetListings` | corpverse/server.js:12-26 | A driver error gives 500 with its message. Otherwise 200 with exactly the shown listings, each once, as its joined row, newest `listed_at` first (`IsListingsAnswer`). |
| `Queries.AvailableListingsCorrect` | corpverse/server.js:13-20 | When every key is below the AUTO_INCREMENT counter, the scan-filter-sort result satisfies `IsListingsAnswer`. That is: membership iff the listing is shown and the row is its join, no listing twice, sorted by `listed_at` descending. |
| `Queries.ScanShownSpec` | corpverse/server.js:16-19 | Scanning keys `lo..hi-1` yields exactly the shown listings in that range, as their joined rows, with strictly increasing `listing_id`. |
| `Queries.ShownIffAvailable` | corpverse/server.js:17-19 | When every listing's farmer and crop exist, the inner joins drop nothing: a listing is shown iff its status is 'Available'. |
| `Ordering.SortDescCorrect` | corpverse/server.js:20 | `ORDER BY … DESC` returns a permutation of its input (same multiset, same length) sorted latest first. |
| `Ordering.SortDescNoDuplicates` | corpverse/server.js:20 | Sorting a table without repeated rows repeats no row. |
| `Ordering.InsertSorted` | corpverse/server.js:20 | Inserting one row into a latest-first sequence keeps it latest first. |
| `Ordering.InsertPermutes` | corpverse/server.js:20 | Inserting a row adds exactly that row to the multiset of rows. |
| `Ordering.LexLeTotal` | corpverse/server.js:20 | Any two `listed_at` / `created_at` texts are comparable. |
| `Ordering.LexLeTransitive` | corpverse/server.js:20 | The date order is transitive. |
| `Ordering.LexLeAntisymmetric` | corpverse/server.js:20 | Two texts that are each no later than the other are equal, so the sort key is a total order. |
| `Ordering.Take` | corpverse/server.js:45 | `LIMIT n` returns the first n rows, or all of them when there are fewer. |
| `Server.Database.CreateListing` | corpverse/server.js:28-41 | A falsy required field gives 400 "Missing required fields". A driver error gives 500. In both cases the table and counter are unchanged. Otherwise exactly one row, under a key not yet in use, carrying the five sent values with status 'Available', is added. The response is 200 with that key. Only CropListing and its counter may change. |
| `Guards.ValidateListing` | corpverse/server.js:29-36 | Every refusal is MissingFields. An accepted request becomes a row that gives back exactly the request (`ListingRequestOf(row) == req`), whose five values are truthy and whose status is 'Available'. |
| `Guards.ListingValidationExact` | corpverse/server.js:29-37 | A listing request is refused iff one of farmer_id, crop_id, quantity_kg, price_per_kg, listed_at is falsy. Every 'Available' row with five truthy values is what the request carrying those values inserts. |
| `Server.Database.GetAlerts` | corpverse/server.js:44-49 | A driver error gives 500. Otherwise 200 with an answer that satisfies `IsAlertsAnswer`. |
| `Queries.LatestAlertsCorrect` | corpverse/server.js:45 | The answer holds fifty alerts, or all of them when there are fewer, newest `created_at` first, and is drawn from the table. Every alert left out is no newer than any alert returned. |
| `Server.Database.ReportDisease` | corpverse/server.js:52-67 | A falsy required field gives 400 "Missing required fields". A driver error gives 500. In both cases nothing is written. Otherwise exactly one report row is appended under the next key and the response is 200 with that key. Only DiseaseReport and its counter may change. |
| `Guards.ValidateReport` | corpverse/server.js:53-63 | Every refusal is MissingFields. An accepted report holds exactly the six required values sent, and its notes are the sent notes, or "" when they are falsy. |
| `Guards.ReportNotesOptional` | corpverse/server.js:55-63 | Acceptance never depends on notes and holds iff no required field is falsy. An absent or empty note is stored as "". |
| `Guards.SeverityZeroIsMissing` | corpverse/server.js:55-57 | A severity of 0 is refused as a missing field. |
| `Server.Database.Purchase` | corpverse/server.js:70-99 | The response is the refusal `DecidePurchase` gives, or a 500 for a failed INSERT; on both paths no transaction is written. On success exactly one Transaction with the next key, the listing, buyer, quantity, total and `today` is appended, and the response carries the same total. CropListing is never written. |
| `Guards.DecidePurchase` | corpverse/server.js:71-88 | A purchase that passes is for a listing that exists and is 'Available', with the requested buyer and quantity. The quantity satisfies `0 < qty <= quantity_kg`, and `total_price = price_per_kg * qty`. |
| `Guards.MissingPurchaseFieldsDecidedFirst` | corpverse/server.js:73-77 | A falsy listing_id, buyer_id or quantity_bought gives MissingFields whatever the table holds and whether or not the SELECT would fail. |
| `Guards.ListingDecidedBeforeQuantity` | corpverse/server.js:77-86 | An unknown listing gives 404 and a listing that is not 'Available' gives 400 "Listing not available", whatever quantity is asked for. |
| `Guards.QuantityGuards` | corpverse/server.js:82-86 | For a known 'Available' listing, a quantity ≤ 0 gives "Quantity must be > 0". A positive quantity above stock gives `InsufficientStock(quantity_kg)`. |
| `Guards.PurchaseSucceedsIff` | corpverse/server.js:73-88 | A purchase passes iff all fields are truthy, the SELECT succeeds, the listing exists and is 'Available', and `0 < qty <= quantity_kg`. |
| `Guards.PurchaseTotalBounded` | corpverse/server.js:85-88 | With a non-negative unit price, the total lies between 0 and the value of the listing's whole stock, and stock minus quantity is never negative. |
| `Guards.PurchaseRefusalStatus` | corpverse/server.js:73-86 | A refused purchase gets 404 exactly when the fields are present, the SELECT ran and the listing is unknown. It gets 500 exactly when the fields are present and the SELECT failed. Every other refusal (missing field, listing not available, quantity not positive, quantity above stock) gets 400. |
| `Schema.GuardMessagesDistinct` | corpverse/server.js:74-86 | Different refusals by the handlers carry different messages. In particular "Only N kg available" determines N. |
| `Js.NumberRoundTrip` | corpverse/server.js:86 | The decimal text of an integer reads back as that integer. |
| `Js.Digits` | corpverse/server.js:86 | The text of a natural number is non-empty, all digits, and has no leading zero. |

## Left out

- `corpverse/db.js` is not part of this model. It only opens the MySQL connection.
- Express plumbing is not modelled: CORS, JSON body parsing, the health route at `/` and `app.listen`.
- Database triggers are not modelled. The triggers that decrement a listing's quantity after a purchase, mark it sold out, and raise an alert for severity ≥ 8 live in the schema, which is not part of this model. No handler updates an existing CropListing row, and no handler writes Alert. So in this model the same stock can be sold to two purchases in a row.
- `Server.Database.Purchase` does not model the interleaving of two concurrent requests between the SELECT and the INSERT. Each request is atomic here.
- Numbers are integers that are already numeric. `Number(...)` of a non-numeric string (NaN slips past both quantity comparisons), fractional quantities and prices, and IEEE rounding of `price_per_kg * qty` are not modelled. `false` and `NaN` as field values are not modelled either.
- `Guards.ValidateListing`: the INSERT does not set a status. The row's status is taken to be the table default 'Available', which the schema would decide.
- `Server.Database.CreateListing`: a failed INSERT leaves the AUTO_INCREMENT counter where it was. MySQL may instead consume a key, which would only leave a gap.
- `Queries.IsListingsAnswer` and `Queries.IsAlertsAnswer` compare dates as their ISO-8601 text, character by character. MySQL compares DATE and DATETIME values. The two orders agree for well-formed ISO dates. Rows with equal dates may come back in any order. The model's sort keeps key order, and the answer predicates allow any tie order.
- Queries.Shown: the filter `cl.status = 'Available'` is SQL equality under the column's collation, which in MySQL's default collations ignores case. The model compares the status text exactly, so a row whose status were 'available' would be shown by the query but not by the model. The purchase handler's `row.status !== "Available"` is exact, and `Guards.DecidePurchase` models it exactly. No handler writes a status: a new listing takes the table default, and the schema's triggers set the rest, so every status is one of the schema's own spellings and the two comparisons agree on them.
- Js.NumberToString: gives the decimal digits of any integer. JavaScript prints an integral Number of magnitude 1e21 or more in exponent form (`1e+21`), which is not modelled.
- Farmer and Crop rows keep only the columns the listings query returns. Alert rows keep alert_id, alert_type, message and created_at, the columns the alert list shows. Any other column that `SELECT * FROM Alert` would return is dropped.
- Foreign-key checks on INSERT surface only as a driver error.
- The React front end (`cropverse-frontend/src/App.js`) and the demo login components (`FarmerLogin.js`, `BuyerLogin.js`) are not modelled. They hold page switching, fetch calls, polling and a hard-coded credential check.
