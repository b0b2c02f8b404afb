# Cobbler backend: enquiries and pickup requests, modelled in Dafny

The backend keeps two MySQL tables. `enquiries` holds customers' requests to sell or repair an item.
`pickup_requests` holds the collections scheduled from those enquiries. Two model classes
(`EnquiryModel`, `PickupModel`) turn each operation into SQL: most send one statement,
`PickupModel.createFromEnquiry` sends a SELECT of the enquiry and then an INSERT, and each
`dashboardStats` sends one query per count. Two Express controllers
validate requests, call the models and wrap the result in a JSON envelope
`{success, statusCode, responseMsg, errorMsg, response}`.

The Dafny project models:

- **The tables** (`Db.Database`): a class holding both tables as maps from id to row, with their
  AUTO_INCREMENT counters; its methods are the two INSERTs. Every model operation that writes is a
  module-level method that takes the database, declares `modifies db` and says exactly what changes,
  including that the other table does not. A statement that throws changes nothing. The reads
  (`findById`, `findByStatus`, `getConverted`, `getThisMonth`, `getThisWeek`, `dashboardStats`) are
  functions that `reads db`, and the `findAll`s build their statement without the database.
- **The statement builders**: both `findAll`s and the SET list of pickup `updateStatus`. Statements are
  token sequences in which `Param` is a `?` placeholder. The builders are proved against pure
  specifications (`FindAllStatement`, `UpdateStatusStatement`), about which the invariants are proved:
  one value per placeholder, the fixed condition order, `WHERE` only with a condition, `ORDER BY`
  last, and the stamps of the status update.
- **The handlers**: each controller handler is a method or function returning a `Reply` (HTTP status
  and envelope). Its contract gives the 400 paths with no model call, the 404 paths with no write,
  the 500 paths carrying the error's message and the successful path with its effect on the tables.
  Every reply is `Http.Coherent`.
- **Pickup statuses**: every handler keeps every pickup in one of `scheduled`, `assigned`,
  `collected`, `received` (`PickupModel.KnownStatuses`). Under that invariant the four dashboard
  counts add up to the total.

Values the code reads from outside are parameters:
- `now` is the clock read by `NOW()` and `new Date()`;
- `cal` is the calendar tests behind `MONTH`/`WEEK`;
- `fault` is the error a statement throws;
- `answer` is the rows a listing query returns;
- `parsedAmount` is the result of `parseFloat`;
- `numericText` is the string test inside `isNaN`.

Three behaviours of the code worth knowing:
- A pickup copies the enquiry's quantity with `|| 1`, so a quantity of 0, `""` or `null` also becomes 1,
  not only a missing one (`PickupModel.NewPickupQuantityIsOne`).
- Creating an enquiry or a pickup reports `statusCode` 201 in the envelope, but the HTTP status stays 200.
- Pickup updates have no existence check and no 404 path. A missing enquiry in `createPickup` ends in
  a 500 whose `errorMsg` is `Enquiry not found`.

## Model

| member | source | states |
|---|---|---|
| `Js.OrAgreesWithDefaultOnlyOffFalsy` | models/pickupModel.js:26 | for a truthy `d`, `x \|\| d` and the destructuring default `x = d` agree exactly when `x` is truthy or `undefined` |
| `Db.Database.InsertEnquiry` | models/enquiryModel.js:8-14 | an insert gets a fresh positive id, adds exactly that row and leaves the pickups alone |
| `Db.UpdateRow` | models/enquiryModel.js:76 | an UPDATE ... WHERE id = ? changes the row with that id only, and keeps the set of ids; both models' updates go through it |
| `Db.Database.InsertPickup` | models/pickupModel.js:15-31 | an insert gets a fresh positive id, adds exactly that row and leaves the enquiries alone |
| `Sql.BalancedClauses` | models/enquiryModel.js:23-50 | clauses each carrying as many values as placeholders carry, together, as many values as placeholders |
| `Sql.JoinPlaceholders` | models/enquiryModel.js:53 | joining conditions with ` AND ` adds no placeholder |
| `Sql.JoinTokens` | models/enquiryModel.js:53 | every token of a joined text comes from a part or from the separator |
| `Sql.ConditionsOfAppend` | models/enquiryModel.js:23-50 | pushing clause after clause pushes their conditions in the same order |
| `Sql.ParamsOfAppend` | models/enquiryModel.js:23-50 | pushing clause after clause pushes their values in the same order |
| `Sql.ConditionsOfWhereFree` | models/enquiryModel.js:23-50 | no pushed condition contains ` WHERE ` when no clause does |
| `Sql.PushWhen` | models/enquiryModel.js:23-27 | one filter step pushes its condition and its values exactly when the filter is present |
| `Sql.AppendWhereAndOrder` | models/enquiryModel.js:52-56 | the tail of both `findAll`s produces the base, ` WHERE ` and the joined conditions when there are any, and then the ordering |
| `Sql.SelectPlaceholders` | models/enquiryModel.js:52-56 | the SELECT has exactly the placeholders of its conditions |
| `Sql.SelectWhere` | models/enquiryModel.js:52-54 | ` WHERE ` is in the SELECT iff there is at least one condition |
| `Sql.SelectEndsWithOrder` | models/enquiryModel.js:56 | the ordering clause is the last thing in the SELECT |
| `Sql.FilteredSelectWellFormed` | models/pickupModel.js:51-57 | a SELECT built from balanced clauses binds one value per placeholder |
| `Sql.FilteredSelectWhere` | models/pickupModel.js:51-53 | a SELECT built from clauses has ` WHERE ` iff there is a clause |
| `Http.Response` | controllers/pickupController.js:3-5 | the envelope has the five keys, with `errorMsg` and `response` defaulting to null |
| `Http.HelpersCoherent` | controllers/enquiryController.js:13-20 | the 400, 404 and 500 replies are coherent; a success reply is coherent iff it reports 200 or 201 |
| `EnquiryModel.NewEnquiry` | models/enquiryModel.js:7-11 | a created enquiry is `pending`, has quantity 1 when none was given, and is created now and never updated, contacted or scheduled |
| `EnquiryModel.Create` | models/enquiryModel.js:6-15 | `create` inserts that row under a fresh id, returns the id and changes nothing else |
| `EnquiryModel.CollectConditions` | models/enquiryModel.js:23-50 | the six filter steps push the conditions and values of the present filters, in order |
| `EnquiryModel.FindAll` | models/enquiryModel.js:18-58 | the statement sent binds one value per placeholder, has ` WHERE ` iff a filter is present, and ends with `ORDER BY created_at DESC` |
| `EnquiryModel.ClausesBalanced` | models/enquiryModel.js:23-50 | every filter's condition has as many placeholders as values |
| `EnquiryModel.FindAllWellFormed` | models/enquiryModel.js:23-58 | the `?` count equals the number of values bound |
| `EnquiryModel.FindAllWhereOnlyWithFilter` | models/enquiryModel.js:52-54 | ` WHERE ` appears iff some filter is present |
| `EnquiryModel.FindAllParams` | models/enquiryModel.js:23-43 | the values are the search pattern four times, then status, inquiry_type and product; the calendar filters bind nothing |
| `EnquiryModel.ConditionsAre` | models/enquiryModel.js:23-50 | the conditions are those of the present filters in the fixed order search, status, inquiry_type, product, this month, this week |
| `EnquiryModel.FindAllTextIgnoresValues` | models/enquiryModel.js:18-56 | the SQL text depends only on which filters are present; user input reaches the database only as bound values |
| `EnquiryModel.FindById` | models/enquiryModel.js:63-66 | the row with that id, or nothing when there is none |
| `EnquiryModel.WithStatus` | models/enquiryModel.js:118 | the rows whose status equals the argument, unchanged |
| `EnquiryModel.FindByStatus` | models/enquiryModel.js:117-120 | `findByStatus` returns exactly the rows with that status |
| `EnquiryModel.GetConverted` | models/enquiryModel.js:143-146 | `getConverted` is `findByStatus('converted')` |
| `EnquiryModel.GetThisMonth` | models/enquiryModel.js:123-130 | a fault throws; otherwise exactly the rows created in the current month, by the calendar, unchanged |
| `EnquiryModel.GetThisWeek` | models/enquiryModel.js:133-140 | a fault throws; otherwise exactly the rows created in the `WEEK(…, 1)` week of the current `YEAR`, by the calendar, unchanged |
| `EnquiryModel.DashboardStats` | models/enquiryModel.js:100-114 | a fault throws; otherwise `total` counts all rows, `thisMonth`, `thisWeek` and `converted` are the sizes of the `getThisMonth`, `getThisWeek` and `getConverted` listings, and `pendingFollowup` is the size of the `pending` listing plus that of the `followup` listing |
| `EnquiryModel.CalendarCountsAreListingSizes` | models/enquiryModel.js:102-103 | the month and week counts are the sizes of the `getThisMonth` and `getThisWeek` listings |
| `EnquiryModel.StatusCountIsListingSize` | models/enquiryModel.js:104-105 | a status count is the size of the `findByStatus` listing for that status |
| `EnquiryModel.PendingFollowupSplit` | models/enquiryModel.js:105 | `pendingFollowup` is the number of `pending` rows plus the number of `followup` rows |
| `EnquiryModel.ConvertedCountIsListingSize` | models/enquiryModel.js:104 | the `converted` count is the size of the `getConverted` listing |
| `EnquiryModel.TotalBoundsCounts` | models/enquiryModel.js:101-105 | no count exceeds `total` |
| `EnquiryModel.Apply` | models/enquiryModel.js:69-97 | each UPDATE sets exactly the columns of its SET list plus `updated_at`: `update` all eight, even those missing from `data`; the others one column each |
| `EnquiryModel.Update` | models/enquiryModel.js:69-77 | `update` applies the overwrite to that row and touches no pickup |
| `EnquiryModel.UpdateStatus` | models/enquiryModel.js:85-87 | `updateStatus` stores any status value and touches no pickup |
| `EnquiryModel.MarkContacted` | models/enquiryModel.js:90-92 | `markContacted` stamps `contacted_at` and `updated_at` only |
| `EnquiryModel.SchedulePickup` | models/enquiryModel.js:95-97 | `schedulePickup` stamps `scheduled_pickup_at` and `updated_at` only, and creates no pickup |
| `EnquiryModel.Delete` | models/enquiryModel.js:80-82 | `delete` removes that row only, with no cascade to pickups |
| `PickupModel.NewPickup` | models/pickupModel.js:14-30 | a pickup snapshots the enquiry (name as customer_name, phone, location as address, product), takes quantity `\|\| 1` and the given assignment, amount and date, and starts `scheduled` |
| `PickupModel.NewPickupQuantityIsOne` | models/pickupModel.js:26 | the copied quantity is 1 iff the enquiry's is falsy or 1, so 0 also becomes 1 |
| `PickupModel.CreateFromEnquiry` | models/pickupModel.js:6-32 | a missing enquiry throws `Enquiry not found` and inserts nothing; otherwise exactly the snapshot row is inserted under a fresh id; enquiries never change |
| `PickupModel.FindAllWellFormed` | models/pickupModel.js:40-57 | the `?` count equals the number of values bound |
| `PickupModel.FindAllWhereOnlyWithFilter` | models/pickupModel.js:51-53 | ` WHERE ` appears iff a search or status filter is present |
| `PickupModel.FindAllParams` | models/pickupModel.js:40-49 | the values are four identical `%term%` patterns before the status |
| `PickupModel.FindAll` | models/pickupModel.js:35-58 | the statement sent is well formed, filters iff asked, and ends with `ORDER BY created_at DESC` |
| `PickupModel.FindById` | models/pickupModel.js:62-65 | the row with that id, or nothing when there is none |
| `PickupModel.FindByStatus` | models/pickupModel.js:132-135 | exactly the rows with that status, unchanged |
| `PickupModel.IdsWithStatus` | models/pickupModel.js:117-120 | each status count scans exactly the rows in that status |
| `PickupModel.DashboardStats` | models/pickupModel.js:115-128 | a fault throws; otherwise `total` counts all rows and each of the four status counts is the size of that status's `findByStatus` listing |
| `PickupModel.DashboardPartition` | models/pickupModel.js:116-120 | with every pickup in a known status, scheduled + assigned + collected + received = total |
| `PickupModel.CountIsListingSize` | models/pickupModel.js:132-135 | each status count is the size of the `findByStatus` listing |
| `PickupModel.UpdateStatusWellFormed` | models/pickupModel.js:69-80 | the status update has two placeholders and binds exactly (status, id) |
| `PickupModel.UpdateStatusStamps` | models/pickupModel.js:72-76 | `collected_date` is stamped iff the status is `collected`, `received_date` iff it is `received`, never both |
| `PickupModel.BuildUpdateStatus` | models/pickupModel.js:68-80 | the step-by-step SET-list builder produces exactly the specified statement |
| `PickupModel.Apply` | models/pickupModel.js:67-106 | each UPDATE sets exactly the columns of its SET list plus `updated_at` and keeps every other column; `updateStatus` stamps a date only for `collected` or `received`; `assignPickup` forces `assigned` whatever the status was |
| `PickupModel.StatusEffectMatchesStatement` | models/pickupModel.js:69-78 | the row effect of a status update stamps a date column exactly when the statement's SET list names it |
| `PickupModel.UpdatedKeepsKnownStatuses` | models/pickupModel.js:68-107 | updates that write a known status keep every pickup in a known status |
| `PickupModel.NewPickupKeepsKnownStatuses` | models/pickupModel.js:18 | inserting a created pickup keeps every pickup in a known status |
| `PickupModel.DeleteKeepsKnownStatuses` | models/pickupModel.js:110-111 | deleting keeps every remaining pickup in a known status |
| `PickupModel.UpdateStatus` | models/pickupModel.js:68-82 | `updateStatus` sends a well-formed statement that stamps a date exactly for `collected` or `received`, applies the status change with its stamps to that row, and never touches an enquiry |
| `PickupModel.AssignPickup` | models/pickupModel.js:85-90 | `assignPickup` sets the staff member and status `assigned` on that row only |
| `PickupModel.UpdateAmount` | models/pickupModel.js:93-98 | `updateAmount` sets the amount on that row only |
| `PickupModel.AddReceivedDetails` | models/pickupModel.js:101-107 | `addReceivedDetails` sets photo, notes and condition on that row only |
| `PickupModel.Delete` | models/pickupModel.js:110-112 | `delete` removes only that pickup and leaves every enquiry untouched |
| `EnquiryController.CreateInput` | controllers/enquiryController.js:10-16 | `create` receives the body's fields with quantity 1 when the body has none |
| `EnquiryController.StoredQuantity` | controllers/enquiryController.js:10 | the stored quantity is the body's or 1 when absent; 0 is stored as 0 |
| `EnquiryController.AddEnquiry` | controllers/enquiryController.js:8-22 | a falsy required field gives 400 and no insert; otherwise one insert, reported as 201 in the body over HTTP 200, or a 500 with the error |
| `EnquiryController.BuildFilters` | controllers/enquiryController.js:29-35 | text filters are set only for non-empty values, the calendar flags only for the exact string `true` |
| `EnquiryController.GetAllEnquiries` | controllers/enquiryController.js:25-43 | the statement sent is `findAll`'s for the filters built from the query (non-empty text values, calendar flags equal to `true`), so it filters iff the query asks for it; the reply is 200 `Enquiries fetched successfully` with the rows, or 500 with the error |
| `EnquiryController.GetEnquiryById` | controllers/enquiryController.js:46-60 | 500 on error; 404 iff there is no such enquiry; otherwise exactly 200 `Enquiry fetched successfully` with that row |
| `EnquiryController.GetDashboardStats` | controllers/enquiryController.js:102-110 | a 500 on a fault; otherwise the reply carries the model's stats: the total and the sizes of the month, week, converted, pending and followup listings |
| `EnquiryController.GetThisMonthEnquiries` | controllers/enquiryController.js:171-179 | a 500 on a fault; otherwise exactly 200 `This month enquiries fetched` with the `getThisMonth` listing: exactly this month's rows, as stored |
| `EnquiryController.GetThisWeekEnquiries` | controllers/enquiryController.js:182-190 | a 500 on a fault; otherwise exactly 200 `This week enquiries fetched` with the `getThisWeek` listing: exactly this week's rows, as stored |
| `EnquiryController.GetConvertedEnquiries` | controllers/enquiryController.js:193-201 | a 500 on a fault; otherwise exactly 200 `Converted enquiries fetched` with the `getConverted` listing: exactly the converted rows, as stored |
| `EnquiryController.Written` | controllers/enquiryController.js:74-93 | the write of a found row touches only that id: no id is added, every other row is kept as it was, a delete drops the id, an edit keeps every id and applies the model's change to the row |
| `EnquiryController.GuardedWritesOnlyFoundRows` | controllers/enquiryController.js:68-79 | 404 iff the lookup found nothing; the table changes only on a 200, which means the row existed and the write went through |
| `EnquiryController.GuardedTouchesOneRow` | controllers/enquiryController.js:63-99 | no other row changes, no id appears, and an edit keeps the ids |
| `EnquiryController.UpdateStatusAcceptsAnyValue` | controllers/enquiryController.js:113-125 | any status value is stored when the enquiry exists; there is no allowed-value check |
| `EnquiryController.FindThenWrite` | controllers/enquiryController.js:63-80 | the handler runs `findById`, then the write, and its reply and table are exactly those of the guarded specification |
| `EnquiryController.UpdateEnquiry` | controllers/enquiryController.js:63-80 | find, 404 or overwrite, with its own messages |
| `EnquiryController.DeleteEnquiry` | controllers/enquiryController.js:83-99 | find, 404 or delete, with its own messages |
| `EnquiryController.UpdateStatus` | controllers/enquiryController.js:113-130 | find, 404 or status change, with its own messages |
| `EnquiryController.MarkContacted` | controllers/enquiryController.js:133-149 | find, 404 or contacted stamp, with its own messages |
| `EnquiryController.SchedulePickup` | controllers/enquiryController.js:152-168 | find, 404 or pickup-scheduled stamp, with its own messages |
| `PickupController.CreateData` | controllers/pickupController.js:17-21 | the model receives the parsed amount and the current time when no date is given |
| `PickupController.CreatePickup` | controllers/pickupController.js:8-28 | a falsy staff member or amount gives 400 and no insert; a missing enquiry gives 500 `Enquiry not found`; success is 201 in the body over HTTP 200; statuses stay known |
| `PickupController.BuildFilters` | controllers/pickupController.js:35-37 | a filter is set only for a non-empty query value |
| `PickupController.GetAllPickups` | controllers/pickupController.js:31-45 | the statement sent is `findAll`'s for the non-empty query values, so it filters iff one is non-empty; the reply is 200 `Pickups fetched successfully` with the rows, or 500 with the error |
| `PickupController.GetPickupById` | controllers/pickupController.js:48-62 | 500 on error; 404 iff there is no such pickup; otherwise exactly 200 `Pickup fetched successfully` with that row |
| `PickupController.UpdatePickupStatus` | controllers/pickupController.js:65-80 | anything but the four statuses gives 400 and no write; otherwise the update, reported as success even for an unknown id |
| `PickupController.AssignPickup` | controllers/pickupController.js:83-98 | a falsy staff name gives 400 and no write; otherwise the assignment |
| `PickupController.UpdatePickupAmount` | controllers/pickupController.js:101-116 | a falsy or non-numeric amount gives 400 and no write; otherwise the parsed amount is stored; statuses stay known |
| `PickupController.AmountRejectedCases` | controllers/pickupController.js:106 | the amount check rejects exactly `undefined`, `null`, `false`, 0, `""` and non-numeric strings |
| `PickupController.AddReceivedDetails` | controllers/pickupController.js:119-134 | a falsy photo URL gives 400 and no write; otherwise the received details |
| `PickupController.DeletePickup` | controllers/pickupController.js:137-146 | no existence check: success unless the model throws |
| `PickupController.GetPickupDashboardStats` | controllers/pickupController.js:149-157 | a 500 on a fault; otherwise the reply carries the model's stats: the total and each status count as the size of its `findByStatus` listing |
| `PickupController.GetPickupsByStatus` | controllers/pickupController.js:160-169 | a 500 on a fault; otherwise exactly 200 `<status> pickups fetched successfully` with the `findByStatus` listing: exactly the rows in that status, as stored |

## Left out

- Running SQL is not modelled. A listing's rows are an input (`answer`), and the result order of `ORDER BY created_at DESC` is not modelled; listings by status or date are maps from id to row.
- `LIKE` matching and MySQL collation are not modelled. Status comparisons are exact, whereas the default MySQL collation would also match `Pending` for `pending`.
- `MONTH`, `YEAR`, `WEEK(…, 1)` and `NOW()` are not modelled. They are the `cal` and `now` parameters.
- `parseFloat` and the numeric test inside `isNaN` are parameters. NaN and the infinities are not values of the model.
- The `db` module is not part of this model. So is the way its driver turns `undefined` into SQL `NULL`: cells hold the JavaScript value bound to them. Schema defaults other than `NULL` are not modelled, and pickup rows carry no `created_at`.
- Request bodies hold scalars only: a body field that is a JSON object or array (truthy, and `isNaN` of `[]` is false while that of `{}` is true) is not a value of the model.
- Path ids are `int`s; the source passes them as strings, which MySQL converts. Query values are strings or absent; repeated query keys (arrays) are not modelled.
- The reads and writes of one request run in sequence. Interleaving between concurrent requests (a row deleted between `findById` and `update`) is not modelled.
- `console.error` logging, the commented-out `sendInvoice`/`moveToService` handlers (controllers/pickupController.js:172-211), the routes and the app setup are not modelled.
- EnquiryModel.FindAll: states the statement it sends, not the rows it returns.
- PickupModel.FindAll: states the statement it sends, not the rows it returns.
- EnquiryController.GetAllEnquiries: the rows in the reply are the `answer` input, not derived from the table.
- PickupController.GetAllPickups: the rows in the reply are the `answer` input, not derived from the table.
