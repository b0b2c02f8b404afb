/**
  The handlers of `pickupController`: each validates its request, makes at most one
  model call and answers with a `Reply`. A model call that throws ends in the handler's
  500 reply carrying the error's message. Values the handlers compute from outside the
  model are parameters: `now` is `new Date()`, `parsedAmount` is `parseFloat(amount)`,
  `numericText` says which strings `isNaN` accepts as numbers, and `answer` is what the
  database returns for a listing query.
 */
module PickupController {
  import opened Js
  import opened Http
  import opened Db
  import opened Sql
  import PM = PickupModel

  /** The properties `createPickup` destructures from the body. */
  datatype CreateBody = CreateBody(assignedTo: Value, amount: Value, scheduledDate: Value)

  /** `!assigned_to || !amount`. */
  predicate CreateRejected(body: CreateBody)
  {
    !Truthy(body.assignedTo) || !Truthy(body.amount)
  }

  /** What `createPickup` hands to `createFromEnquiry`: the parsed amount, and the
      current time when no date (or a falsy one) was given. */
  function CreateData(body: CreateBody, parsedAmount: Value, now: Time): (d: PM.PickupData)
    ensures d.assignedTo == body.assignedTo && d.amount == parsedAmount
    ensures d.scheduledDate == (if Truthy(body.scheduledDate) then body.scheduledDate else Date(now))
  {
    PM.PickupData(body.assignedTo, parsedAmount, Or(body.scheduledDate, Date(now)))
  }

  /** `createPickup`: 400 without a model call when the staff member or the amount is
      missing; otherwise `createFromEnquiry`, whose `Enquiry not found` becomes a 500
      (not a 404); a created pickup is reported with `statusCode` 201 over HTTP 200. */
  method CreatePickup(db: Database, enquiryId: int, body: CreateBody, parsedAmount: Value, now: Time,
                      lookupFault: Option<string>, insertFault: Option<string>)
    returns (reply: Reply<int>)
    requires db.Valid()
    modifies db
    ensures db.Valid() && db.enquiries == old(db.enquiries) && Coherent(reply)
    ensures PM.KnownStatuses(old(db.pickups)) ==> PM.KnownStatuses(db.pickups)
    ensures CreateRejected(body) ==>
              reply == BadRequest("Assigned staff and amount are required") && db.pickups == old(db.pickups)
    ensures !CreateRejected(body) && lookupFault.None? && enquiryId !in old(db.enquiries) ==>
              reply == ServerError("Error scheduling pickup", "Enquiry not found") && db.pickups == old(db.pickups)
    ensures !CreateRejected(body) && lookupFault.Some? ==>
              reply == ServerError("Error scheduling pickup", lookupFault.value) && db.pickups == old(db.pickups)
    ensures !CreateRejected(body) && lookupFault.None? && enquiryId in old(db.enquiries) && insertFault.Some? ==>
              reply == ServerError("Error scheduling pickup", insertFault.value) && db.pickups == old(db.pickups)
    ensures !CreateRejected(body) && lookupFault.None? && enquiryId in old(db.enquiries) && insertFault.None? ==>
              && reply.http == 200 && reply.body.statusCode == 201
              && reply.body.responseMsg == "Pickup scheduled successfully"
              && reply.body.response.Some? && reply.body.response.value !in old(db.pickups)
              && db.pickups == old(db.pickups)[reply.body.response.value :=
                   PM.NewPickup(enquiryId, old(db.enquiries)[enquiryId], CreateData(body, parsedAmount, now))]
  {
    if CreateRejected(body) {
      return BadRequest("Assigned staff and amount are required");
    }
    ghost var before := db.pickups;
    var r := PM.CreateFromEnquiry(db, enquiryId, CreateData(body, parsedAmount, now), lookupFault, insertFault);
    match r
    case Threw(m) =>
      reply := ServerError("Error scheduling pickup", m);
    case Ok(id) =>
      if PM.KnownStatuses(before) {
        PM.NewPickupKeepsKnownStatuses(before, id, enquiryId, old(db.enquiries)[enquiryId], CreateData(body, parsedAmount, now));
      }
      reply := Done(201, "Pickup scheduled successfully", Some(id));
  }

  /** The filters `getAllPickups` fills from the query string: a key is set only when
      its query value is a non-empty string. */
  method BuildFilters(search: Option<string>, status: Option<string>) returns (f: PM.Filters)
    ensures f.search == KeptIfNonEmpty(search) && f.status == KeptIfNonEmpty(status)
  {
    f := PM.Filters(None, None);
    if NonEmpty(search) {
      f := f.(search := search);
    }
    if NonEmpty(status) {
      f := f.(status := status);
    }
  }

  /** `getAllPickups`: `st` is the statement sent; `answer` is what the database returns
      for it. Filtering adds a WHERE clause exactly when some query value is non-empty. */
  method GetAllPickups(search: Option<string>, status: Option<string>, answer: Outcome<seq<Pickup>>)
    returns (st: Statement, reply: Reply<seq<Pickup>>)
    ensures Coherent(reply) && WellFormed(st)
    ensures st == PM.FindAllStatement(PM.Filters(KeptIfNonEmpty(search), KeptIfNonEmpty(status)))
    ensures WhereKeyword in st.sql <==> NonEmpty(search) || NonEmpty(status)
    ensures answer.Threw? ==> reply == ServerError("Error fetching pickups", answer.message)
    ensures answer.Ok? ==> reply == Done(200, "Pickups fetched successfully", Some(answer.value))
  {
    var filters := BuildFilters(search, status);
    st := PM.FindAll(filters);
    match answer
    case Threw(m) => reply := ServerError("Error fetching pickups", m);
    case Ok(rows) => reply := Done(200, "Pickups fetched successfully", Some(rows));
  }

  /** `getPickupById`. */
  function GetPickupById(db: Database, id: int, fault: Option<string>): (reply: Reply<Pickup>)
    reads db
    ensures Coherent(reply)
    ensures fault.Some? ==> reply == ServerError("Error fetching pickup", fault.value)
    ensures fault.None? && id !in db.pickups ==> reply == NotFound("Pickup not found")
    ensures fault.None? && id in db.pickups ==> reply == Done(200, "Pickup fetched successfully", Some(db.pickups[id]))
  {
    match PM.FindById(db, id, fault)
    case Threw(m) => ServerError("Error fetching pickup", m)
    case Ok(None) => NotFound("Pickup not found")
    case Ok(Some(p)) => Done(200, "Pickup fetched successfully", Some(p))
  }

  /** `updatePickupStatus`: only the four statuses get through (`includes` compares
      strictly); there is no existence check, so an unknown id is reported as updated. */
  method UpdatePickupStatus(db: Database, id: int, status: Value, now: Time, fault: Option<string>)
    returns (reply: Reply<()>)
    requires db.Valid()
    modifies db
    ensures db.Valid() && db.enquiries == old(db.enquiries) && Coherent(reply)
    ensures PM.KnownStatuses(old(db.pickups)) ==> PM.KnownStatuses(db.pickups)
    ensures !PM.KnownStatus(status) ==> reply == BadRequest("Invalid status") && db.pickups == old(db.pickups)
    ensures PM.KnownStatus(status) && fault.Some? ==>
              reply == ServerError("Error updating pickup status", fault.value) && db.pickups == old(db.pickups)
    ensures PM.KnownStatus(status) && fault.None? ==>
              && reply == Done(200, "Pickup status updated successfully", None)
              && db.pickups == PM.Updated(old(db.pickups), id, PM.SetStatus(status), now)
  {
    if !PM.KnownStatus(status) {
      return BadRequest("Invalid status");
    }
    ghost var before := db.pickups;
    var st, r := PM.UpdateStatus(db, id, status, now, fault);
    if r.Threw? {
      return ServerError("Error updating pickup status", r.message);
    }
    if PM.KnownStatuses(before) {
      PM.UpdatedKeepsKnownStatuses(before, id, PM.SetStatus(status), now);
    }
    reply := Done(200, "Pickup status updated successfully", None);
  }

  /** `assignPickup`: needs a staff member; the model then forces status `assigned`. */
  method AssignPickup(db: Database, id: int, assignedTo: Value, now: Time, fault: Option<string>)
    returns (reply: Reply<()>)
    requires db.Valid()
    modifies db
    ensures db.Valid() && db.enquiries == old(db.enquiries) && Coherent(reply)
    ensures PM.KnownStatuses(old(db.pickups)) ==> PM.KnownStatuses(db.pickups)
    ensures !Truthy(assignedTo) ==> reply == BadRequest("Staff name is required") && db.pickups == old(db.pickups)
    ensures Truthy(assignedTo) && fault.Some? ==>
              reply == ServerError("Error assigning pickup", fault.value) && db.pickups == old(db.pickups)
    ensures Truthy(assignedTo) && fault.None? ==>
              && reply == Done(200, "Pickup assigned successfully", None)
              && db.pickups == PM.Updated(old(db.pickups), id, PM.Assign(assignedTo), now)
  {
    if !Truthy(assignedTo) {
      return BadRequest("Staff name is required");
    }
    ghost var before := db.pickups;
    var r := PM.AssignPickup(db, id, assignedTo, now, fault);
    if r.Threw? {
      return ServerError("Error assigning pickup", r.message);
    }
    if PM.KnownStatuses(before) {
      PM.UpdatedKeepsKnownStatuses(before, id, PM.Assign(assignedTo), now);
    }
    reply := Done(200, "Pickup assigned successfully", None);
  }

  /** `!amount || isNaN(amount)`. */
  predicate AmountRejected(amount: Value, numericText: string -> bool)
  {
    !Truthy(amount) || IsNaN(amount, numericText)
  }

  /** `updatePickupAmount`: needs a truthy, numeric amount; stores `parseFloat(amount)`. */
  method UpdatePickupAmount(db: Database, id: int, amount: Value, numericText: string -> bool,
                            parsedAmount: Value, now: Time, fault: Option<string>)
    returns (reply: Reply<()>)
    requires db.Valid()
    modifies db
    ensures db.Valid() && db.enquiries == old(db.enquiries) && Coherent(reply)
    ensures PM.KnownStatuses(old(db.pickups)) ==> PM.KnownStatuses(db.pickups)
    ensures AmountRejected(amount, numericText) ==>
              reply == BadRequest("Valid amount is required") && db.pickups == old(db.pickups)
    ensures !AmountRejected(amount, numericText) && fault.Some? ==>
              reply == ServerError("Error updating pickup amount", fault.value) && db.pickups == old(db.pickups)
    ensures !AmountRejected(amount, numericText) && fault.None? ==>
              && reply == Done(200, "Pickup amount updated successfully", None)
              && db.pickups == PM.Updated(old(db.pickups), id, PM.SetAmount(parsedAmount), now)
  {
    if AmountRejected(amount, numericText) {
      return BadRequest("Valid amount is required");
    }
    ghost var before := db.pickups;
    var r := PM.UpdateAmount(db, id, parsedAmount, now, fault);
    if r.Threw? {
      return ServerError("Error updating pickup amount", r.message);
    }
    if PM.KnownStatuses(before) {
      PM.UpdatedKeepsKnownStatuses(before, id, PM.SetAmount(parsedAmount), now);
    }
    reply := Done(200, "Pickup amount updated successfully", None);
  }

  /** The amount check turns away exactly the missing, empty, zero, `false` and `null`
      amounts and the strings that do not spell a number. */
  lemma AmountRejectedCases(amount: Value, numericText: string -> bool)
    ensures AmountRejected(amount, numericText)
            <==> || amount == Undefined || amount == Null || amount == Bool(false) || amount == Num(0.0)
                 || (amount.Str? && (amount.s == "" || !numericText(amount.s)))
  {
  }

  /** `addReceivedDetails`: needs a photo URL; notes and condition are optional. */
  method AddReceivedDetails(db: Database, id: int, photoUrl: Value, notes: Value, condition: Value, now: Time,
                            fault: Option<string>)
    returns (reply: Reply<()>)
    requires db.Valid()
    modifies db
    ensures db.Valid() && db.enquiries == old(db.enquiries) && Coherent(reply)
    ensures PM.KnownStatuses(old(db.pickups)) ==> PM.KnownStatuses(db.pickups)
    ensures !Truthy(photoUrl) ==> reply == BadRequest("Photo URL is required") && db.pickups == old(db.pickups)
    ensures Truthy(photoUrl) && fault.Some? ==>
              reply == ServerError("Error adding received details", fault.value) && db.pickups == old(db.pickups)
    ensures Truthy(photoUrl) && fault.None? ==>
              && reply == Done(200, "Received details added successfully", None)
              && db.pickups == PM.Updated(old(db.pickups), id, PM.ReceivedDetails(photoUrl, notes, condition), now)
  {
    if !Truthy(photoUrl) {
      return BadRequest("Photo URL is required");
    }
    ghost var before := db.pickups;
    var r := PM.AddReceivedDetails(db, id, photoUrl, notes, condition, now, fault);
    if r.Threw? {
      return ServerError("Error adding received details", r.message);
    }
    if PM.KnownStatuses(before) {
      PM.UpdatedKeepsKnownStatuses(before, id, PM.ReceivedDetails(photoUrl, notes, condition), now);
    }
    reply := Done(200, "Received details added successfully", None);
  }

  /** `deletePickup`: no existence check; it reports success unless the model throws,
      even when there was no such pickup. */
  method DeletePickup(db: Database, id: int, fault: Option<string>) returns (reply: Reply<()>)
    requires db.Valid()
    modifies db
    ensures db.Valid() && db.enquiries == old(db.enquiries) && Coherent(reply)
    ensures PM.KnownStatuses(old(db.pickups)) ==> PM.KnownStatuses(db.pickups)
    ensures fault.Some? ==> reply == ServerError("Error deleting pickup", fault.value) && db.pickups == old(db.pickups)
    ensures fault.None? ==> reply == Done(200, "Pickup deleted successfully", None) && db.pickups == old(db.pickups) - {id}
  {
    ghost var before := db.pickups;
    var r := PM.Delete(db, id, fault);
    if r.Threw? {
      return ServerError("Error deleting pickup", r.message);
    }
    if PM.KnownStatuses(before) {
      PM.DeleteKeepsKnownStatuses(before, id);
    }
    reply := Done(200, "Pickup deleted successfully", None);
  }

  /** `getPickupDashboardStats`. */
  function GetPickupDashboardStats(db: Database, fault: Option<string>): (reply: Reply<PM.Stats>)
    reads db
    ensures Coherent(reply)
    ensures fault.Some? ==> reply == ServerError("Error fetching pickup stats", fault.value)
    ensures fault.None? ==> reply == Done(200, "Pickup dashboard stats fetched", Some(PM.DashboardStats(db, None).value))
    ensures fault.None? ==> && reply.body.response.value.total == |db.pickups|
                            && reply.body.response.value.scheduledCount == |PM.FindByStatus(db, PM.Scheduled, None).value|
                            && reply.body.response.value.assignedCount == |PM.FindByStatus(db, PM.Assigned, None).value|
                            && reply.body.response.value.collectedCount == |PM.FindByStatus(db, PM.Collected, None).value|
                            && reply.body.response.value.receivedCount == |PM.FindByStatus(db, PM.Received, None).value|
  {
    match PM.DashboardStats(db, fault)
    case Threw(m) => ServerError("Error fetching pickup stats", m)
    case Ok(stats) => Done(200, "Pickup dashboard stats fetched", Some(stats))
  }

  /** `getPickupsByStatus`: the message names the status asked for. */
  function GetPickupsByStatus(db: Database, status: string, fault: Option<string>): (reply: Reply<map<int, Pickup>>)
    reads db
    ensures Coherent(reply)
    ensures fault.Some? ==> reply == ServerError("Error fetching pickups", fault.value)
    ensures fault.None? ==> reply == Done(200, status + " pickups fetched successfully",
                                          Some(PM.FindByStatus(db, Str(status), None).value))
    ensures fault.None? ==> && reply.body.response.value.Keys == PM.IdsWithStatus(db.pickups, Str(status))
                            && forall id :: id in reply.body.response.value ==> reply.body.response.value[id] == db.pickups[id]
  {
    match PM.FindByStatus(db, Str(status), fault)
    case Threw(m) => ServerError("Error fetching pickups", m)
    case Ok(rows) => Done(200, status + " pickups fetched successfully", Some(rows))
  }
}
