/**
  The handlers of `enquiryController`. As in `PickupController`, each handler makes its
  model calls in order and a call that throws ends in the handler's 500 reply carrying
  the error's message; `now` is the clock, `cal` the calendar and `answer` what the
  database returns for a listing query.
 */
module EnquiryController {
  import opened Js
  import opened Http
  import opened Db
  import opened Sql
  import EM = EnquiryModel

  // ---------------------------------------------------------------- addEnquiry

  /** The properties `addEnquiry` destructures from the body. */
  datatype AddBody = AddBody(
    name: Value,
    phone: Value,
    location: Value,
    message: Value,
    inquiryType: Value,
    product: Value,
    quantity: Value)

  /** `!name || !phone || !location || !inquiry_type || !product`; `message` is optional. */
  predicate MissingRequired(b: AddBody)
  {
    !Truthy(b.name) || !Truthy(b.phone) || !Truthy(b.location) || !Truthy(b.inquiryType) || !Truthy(b.product)
  }

  /** The object `addEnquiry` passes to `create`: the body's fields with quantity 1 when
      the body has none, and no status. */
  function CreateInput(b: AddBody): (d: EM.EnquiryData)
    ensures d.name == b.name && d.phone == b.phone && d.location == b.location && d.message == b.message
    ensures d.inquiryType == b.inquiryType && d.product == b.product
    ensures d.quantity == (if b.quantity == Undefined then Num(1.0) else b.quantity)
  {
    EM.EnquiryData(b.name, b.phone, b.location, b.message, b.inquiryType, b.product,
                   Default(b.quantity, Num(1.0)), Undefined)
  }

  /** The controller's default and the model's coincide: the stored quantity is the body's,
      or 1 when the body has none; 0 and `""` are stored as given. */
  lemma StoredQuantity(b: AddBody, now: Time)
    ensures EM.NewEnquiry(CreateInput(b), now).quantity == Default(b.quantity, Num(1.0))
    ensures b.quantity == Num(0.0) ==> EM.NewEnquiry(CreateInput(b), now).quantity == Num(0.0)
  {
  }

  /** `addEnquiry`: 400 without a model call when a required field is falsy; otherwise
      `create`, reported with `statusCode` 201 over HTTP 200. */
  method AddEnquiry(db: Database, body: AddBody, now: Time, fault: Option<string>) returns (reply: Reply<int>)
    requires db.Valid()
    modifies db
    ensures db.Valid() && db.pickups == old(db.pickups) && Coherent(reply)
    ensures MissingRequired(body) ==> reply == BadRequest("Required fields missing") && db.enquiries == old(db.enquiries)
    ensures !MissingRequired(body) && fault.Some? ==>
              reply == ServerError("Error adding enquiry", fault.value) && db.enquiries == old(db.enquiries)
    ensures !MissingRequired(body) && fault.None? ==>
              && reply.http == 200 && reply.body.statusCode == 201
              && reply.body.responseMsg == "Enquiry added successfully"
              && reply.body.response.Some? && reply.body.response.value !in old(db.enquiries)
              && db.enquiries == old(db.enquiries)[reply.body.response.value := EM.NewEnquiry(CreateInput(body), now)]
  {
    if MissingRequired(body) {
      return BadRequest("Required fields missing");
    }
    var r := EM.Create(db, CreateInput(body), now, fault);
    match r
    case Threw(m) => reply := ServerError("Error adding enquiry", m);
    case Ok(id) => reply := Done(201, "Enquiry added successfully", Some(id));
  }

  // ---------------------------------------------------------------- getAllEnquiries

  /** The query-string values `getAllEnquiries` reads (`None` when absent). */
  datatype Query = Query(
    search: Option<string>,
    status: Option<string>,
    inquiryType: Option<string>,
    product: Option<string>,
    thisMonth: Option<string>,
    thisWeek: Option<string>)

  /** The filters object, filled as `getAllEnquiries` fills it: the text filters when
      their value is non-empty, the calendar flags only for the exact string `true`. */
  method BuildFilters(q: Query) returns (f: EM.Filters)
    ensures f.search == KeptIfNonEmpty(q.search) && f.status == KeptIfNonEmpty(q.status)
    ensures f.inquiryType == KeptIfNonEmpty(q.inquiryType) && f.product == KeptIfNonEmpty(q.product)
    ensures f.thisMonth <==> q.thisMonth == Some("true")
    ensures f.thisWeek <==> q.thisWeek == Some("true")
  {
    f := EM.Filters(None, None, None, None, false, false);
    if NonEmpty(q.search) {
      f := f.(search := q.search);
    }
    if NonEmpty(q.status) {
      f := f.(status := q.status);
    }
    if NonEmpty(q.inquiryType) {
      f := f.(inquiryType := q.inquiryType);
    }
    if NonEmpty(q.product) {
      f := f.(product := q.product);
    }
    if q.thisMonth == Some("true") {
      f := f.(thisMonth := true);
    }
    if q.thisWeek == Some("true") {
      f := f.(thisWeek := true);
    }
  }

  /** Some query value selects rows: a non-empty text filter, or a calendar flag `true`. */
  predicate Filtering(q: Query)
  {
    NonEmpty(q.search) || NonEmpty(q.status) || NonEmpty(q.inquiryType) || NonEmpty(q.product)
    || q.thisMonth == Some("true") || q.thisWeek == Some("true")
  }

  /** `getAllEnquiries`: `st` is the statement sent and `answer` the rows it returns. The
      statement filters exactly when the query asks for filtering; `thisMonth=yes` or
      `thisMonth=TRUE` do not. */
  method GetAllEnquiries(q: Query, answer: Outcome<seq<Enquiry>>) returns (st: Statement, reply: Reply<seq<Enquiry>>)
    ensures Coherent(reply) && WellFormed(st)
    ensures st == EM.FindAllStatement(EM.Filters(KeptIfNonEmpty(q.search), KeptIfNonEmpty(q.status),
                                                 KeptIfNonEmpty(q.inquiryType), KeptIfNonEmpty(q.product),
                                                 q.thisMonth == Some("true"), q.thisWeek == Some("true")))
    ensures WhereKeyword in st.sql <==> Filtering(q)
    ensures answer.Threw? ==> reply == ServerError("Error fetching enquiries", answer.message)
    ensures answer.Ok? ==> reply == Done(200, "Enquiries fetched successfully", Some(answer.value))
  {
    var filters := BuildFilters(q);
    assert filters == EM.Filters(KeptIfNonEmpty(q.search), KeptIfNonEmpty(q.status),
                                 KeptIfNonEmpty(q.inquiryType), KeptIfNonEmpty(q.product),
                                 q.thisMonth == Some("true"), q.thisWeek == Some("true"));
    assert EM.AnyFilter(filters) <==> Filtering(q);
    st := EM.FindAll(filters);
    match answer
    case Threw(m) => reply := ServerError("Error fetching enquiries", m);
    case Ok(rows) => reply := Done(200, "Enquiries fetched successfully", Some(rows));
  }

  // ---------------------------------------------------------------- reads

  /** `getEnquiryById`. */
  function GetEnquiryById(db: Database, id: int, fault: Option<string>): (reply: Reply<Enquiry>)
    reads db
    ensures Coherent(reply)
    ensures fault.Some? ==> reply == ServerError("Error fetching enquiry", fault.value)
    ensures fault.None? && id !in db.enquiries ==> reply == NotFound("Enquiry not found")
    ensures fault.None? && id in db.enquiries ==> reply == Done(200, "Enquiry fetched successfully", Some(db.enquiries[id]))
  {
    match EM.FindById(db, id, fault)
    case Threw(m) => ServerError("Error fetching enquiry", m)
    case Ok(None) => NotFound("Enquiry not found")
    case Ok(Some(e)) => Done(200, "Enquiry fetched successfully", Some(e))
  }

  /** `getDashboardStats`. */
  function GetDashboardStats(db: Database, cal: EM.Calendar, fault: Option<string>): (reply: Reply<EM.Stats>)
    reads db
    ensures Coherent(reply)
    ensures fault.Some? ==> reply == ServerError("Error fetching stats", fault.value)
    ensures fault.None? ==> reply == Done(200, "Dashboard stats fetched", Some(EM.DashboardStats(db, cal, None).value))
    ensures fault.None? ==> && reply.body.response.value.total == |db.enquiries|
                            && reply.body.response.value.thisMonth == |EM.GetThisMonth(db, cal, None).value|
                            && reply.body.response.value.thisWeek == |EM.GetThisWeek(db, cal, None).value|
                            && reply.body.response.value.converted == |EM.GetConverted(db, None).value|
                            && reply.body.response.value.pendingFollowup
                               == |EM.FindByStatus(db, Str("pending"), None).value| + |EM.FindByStatus(db, Str("followup"), None).value|
  {
    match EM.DashboardStats(db, cal, fault)
    case Threw(m) => ServerError("Error fetching stats", m)
    case Ok(stats) => Done(200, "Dashboard stats fetched", Some(stats))
  }

  /** `getThisMonthEnquiries`. */
  function GetThisMonthEnquiries(db: Database, cal: EM.Calendar, fault: Option<string>): (reply: Reply<map<int, Enquiry>>)
    reads db
    ensures Coherent(reply)
    ensures fault.Some? ==> reply == ServerError("Error fetching this month enquiries", fault.value)
    ensures fault.None? ==> reply == Done(200, "This month enquiries fetched", Some(EM.GetThisMonth(db, cal, None).value))
    ensures fault.None? ==> && (forall id :: id in reply.body.response.value
                                 <==> id in db.enquiries && cal.inThisMonth(db.enquiries[id].createdAt))
                            && forall id :: id in reply.body.response.value ==> reply.body.response.value[id] == db.enquiries[id]
  {
    match EM.GetThisMonth(db, cal, fault)
    case Threw(m) => ServerError("Error fetching this month enquiries", m)
    case Ok(rows) => Done(200, "This month enquiries fetched", Some(rows))
  }

  /** `getThisWeekEnquiries`. */
  function GetThisWeekEnquiries(db: Database, cal: EM.Calendar, fault: Option<string>): (reply: Reply<map<int, Enquiry>>)
    reads db
    ensures Coherent(reply)
    ensures fault.Some? ==> reply == ServerError("Error fetching this week enquiries", fault.value)
    ensures fault.None? ==> reply == Done(200, "This week enquiries fetched", Some(EM.GetThisWeek(db, cal, None).value))
    ensures fault.None? ==> && (forall id :: id in reply.body.response.value
                                 <==> id in db.enquiries && cal.inThisWeek(db.enquiries[id].createdAt))
                            && forall id :: id in reply.body.response.value ==> reply.body.response.value[id] == db.enquiries[id]
  {
    match EM.GetThisWeek(db, cal, fault)
    case Threw(m) => ServerError("Error fetching this week enquiries", m)
    case Ok(rows) => Done(200, "This week enquiries fetched", Some(rows))
  }

  /** `getConvertedEnquiries`. */
  function GetConvertedEnquiries(db: Database, fault: Option<string>): (reply: Reply<map<int, Enquiry>>)
    reads db
    ensures Coherent(reply)
    ensures fault.Some? ==> reply == ServerError("Error fetching converted enquiries", fault.value)
    ensures fault.None? ==> reply == Done(200, "Converted enquiries fetched", Some(EM.GetConverted(db, None).value))
    ensures fault.None? ==> && (forall id :: id in reply.body.response.value
                                 <==> id in db.enquiries && db.enquiries[id].status == Str("converted"))
                            && forall id :: id in reply.body.response.value ==> reply.body.response.value[id] == db.enquiries[id]
  {
    match EM.GetConverted(db, fault)
    case Threw(m) => ServerError("Error fetching converted enquiries", m)
    case Ok(rows) => Done(200, "Converted enquiries fetched", Some(rows))
  }

  // ---------------------------------------------------------------- find, then write

  /** The write a find-then-write handler makes once the row is found. */
  datatype Write = Edit(change: EM.Change) | Remove

  /** The table after the write: only the row `id` is touched; a delete drops it and an
      edit keeps every id and applies the change to that row. */
  function Written(rows: map<int, Enquiry>, id: int, w: Write, now: Time): (r: map<int, Enquiry>)
    ensures r.Keys <= rows.Keys
    ensures forall k :: k in rows && k != id ==> k in r && r[k] == rows[k]
    ensures w.Remove? ==> id !in r
    ensures w.Edit? ==> r.Keys == rows.Keys && (id in rows ==> r[id] == EM.Apply(rows[id], w.change, now))
  {
    match w
    case Edit(c) => EM.Updated(rows, id, c, now)
    case Remove => rows - {id}
  }

  /** What a find-then-write handler answers and leaves behind: `findById` first
      (`lookupFault` is its error), 404 when the row is missing, otherwise the write
      (`writeFault` is its error) and `doneMsg`; `failMsg` is the handler's 500 message. */
  function Guarded(rows: map<int, Enquiry>, id: int, w: Write, now: Time,
                   lookupFault: Option<string>, writeFault: Option<string>,
                   failMsg: string, doneMsg: string): (Reply<()>, map<int, Enquiry>)
  {
    if lookupFault.Some? then (ServerError(failMsg, lookupFault.value), rows)
    else if id !in rows then (NotFound("Enquiry not found"), rows)
    else if writeFault.Some? then (ServerError(failMsg, writeFault.value), rows)
    else (Done(200, doneMsg, None), Written(rows, id, w, now))
  }

  /** The existence check guards the write: the reply is 404 exactly when the lookup found
      nothing, the table changes only on a 200, and a 200 means the row existed and the
      write went through. */
  lemma GuardedWritesOnlyFoundRows(rows: map<int, Enquiry>, id: int, w: Write, now: Time,
                                   lookupFault: Option<string>, writeFault: Option<string>,
                                   failMsg: string, doneMsg: string)
    ensures var (reply, after) := Guarded(rows, id, w, now, lookupFault, writeFault, failMsg, doneMsg);
            && Coherent(reply)
            && (reply.http == 404 <==> lookupFault.None? && id !in rows)
            && (reply.http == 200 <==> lookupFault.None? && id in rows && writeFault.None?)
            && (reply.http == 200 ==> after == Written(rows, id, w, now))
            && (reply.http != 200 ==> after == rows)
  {
  }

  /** Whatever happens, every other row stays as it was and no id appears; an edit keeps
      the set of ids. */
  lemma GuardedTouchesOneRow(rows: map<int, Enquiry>, id: int, w: Write, now: Time,
                             lookupFault: Option<string>, writeFault: Option<string>,
                             failMsg: string, doneMsg: string)
    ensures var (_, after) := Guarded(rows, id, w, now, lookupFault, writeFault, failMsg, doneMsg);
            && (forall k :: k in rows && k != id ==> k in after && after[k] == rows[k])
            && (w.Edit? ==> after.Keys == rows.Keys)
            && after.Keys <= rows.Keys
  {
  }

  /** `updateStatus` has no allowed-value check: whenever the row exists and nothing
      throws, any status value is stored. */
  lemma UpdateStatusAcceptsAnyValue(rows: map<int, Enquiry>, id: int, status: Value, now: Time)
    requires id in rows
    ensures var (reply, after) := Guarded(rows, id, Edit(EM.SetStatus(status)), now, None, None,
                                          "Error updating status", "Status updated successfully");
            reply.http == 200 && after[id].status == status
  {
  }

  /** Runs `findById`, then the write the found row calls for. */
  method FindThenWrite(db: Database, id: int, w: Write, now: Time,
                       lookupFault: Option<string>, writeFault: Option<string>,
                       failMsg: string, doneMsg: string)
    returns (reply: Reply<()>)
    requires db.Valid()
    modifies db
    ensures db.Valid() && db.pickups == old(db.pickups)
    ensures (reply, db.enquiries) == Guarded(old(db.enquiries), id, w, now, lookupFault, writeFault, failMsg, doneMsg)
  {
    var found := EM.FindById(db, id, lookupFault);
    if found.Threw? {
      return ServerError(failMsg, found.message);
    }
    if found.value.None? {
      return NotFound("Enquiry not found");
    }
    var r: Outcome<()>;
    match w {
      case Edit(c) =>
        match c {
          case Overwrite(data) => r := EM.Update(db, id, data, now, writeFault);
          case SetStatus(status) => r := EM.UpdateStatus(db, id, status, now, writeFault);
          case Contacted => r := EM.MarkContacted(db, id, now, writeFault);
          case PickupScheduled => r := EM.SchedulePickup(db, id, now, writeFault);
        }
      case Remove => r := EM.Delete(db, id, writeFault);
    }
    if r.Threw? {
      return ServerError(failMsg, r.message);
    }
    reply := Done(200, doneMsg, None);
  }

  /** `updateEnquiry`: the whole body overwrites the row. */
  method UpdateEnquiry(db: Database, id: int, data: EM.EnquiryData, now: Time,
                       lookupFault: Option<string>, writeFault: Option<string>) returns (reply: Reply<()>)
    requires db.Valid()
    modifies db
    ensures db.Valid() && db.pickups == old(db.pickups)
    ensures (reply, db.enquiries) == Guarded(old(db.enquiries), id, Edit(EM.Overwrite(data)), now, lookupFault, writeFault,
                                             "Error updating enquiry", "Enquiry updated successfully")
  {
    reply := FindThenWrite(db, id, Edit(EM.Overwrite(data)), now, lookupFault, writeFault,
                           "Error updating enquiry", "Enquiry updated successfully");
  }

  /** `deleteEnquiry`. */
  method DeleteEnquiry(db: Database, id: int, lookupFault: Option<string>, writeFault: Option<string>)
    returns (reply: Reply<()>)
    requires db.Valid()
    modifies db
    ensures db.Valid() && db.pickups == old(db.pickups)
    ensures (reply, db.enquiries) == Guarded(old(db.enquiries), id, Remove, 0, lookupFault, writeFault,
                                             "Error deleting enquiry", "Enquiry deleted successfully")
  {
    reply := FindThenWrite(db, id, Remove, 0, lookupFault, writeFault,
                           "Error deleting enquiry", "Enquiry deleted successfully");
  }

  /** `updateStatus`: any status value is accepted. */
  method UpdateStatus(db: Database, id: int, status: Value, now: Time,
                      lookupFault: Option<string>, writeFault: Option<string>) returns (reply: Reply<()>)
    requires db.Valid()
    modifies db
    ensures db.Valid() && db.pickups == old(db.pickups)
    ensures (reply, db.enquiries) == Guarded(old(db.enquiries), id, Edit(EM.SetStatus(status)), now, lookupFault, writeFault,
                                             "Error updating status", "Status updated successfully")
  {
    reply := FindThenWrite(db, id, Edit(EM.SetStatus(status)), now, lookupFault, writeFault,
                           "Error updating status", "Status updated successfully");
  }

  /** `markContacted`. */
  method MarkContacted(db: Database, id: int, now: Time, lookupFault: Option<string>, writeFault: Option<string>)
    returns (reply: Reply<()>)
    requires db.Valid()
    modifies db
    ensures db.Valid() && db.pickups == old(db.pickups)
    ensures (reply, db.enquiries) == Guarded(old(db.enquiries), id, Edit(EM.Contacted), now, lookupFault, writeFault,
                                             "Error updating enquiry", "Enquiry marked as contacted")
  {
    reply := FindThenWrite(db, id, Edit(EM.Contacted), now, lookupFault, writeFault,
                           "Error updating enquiry", "Enquiry marked as contacted");
  }

  /** `schedulePickup`: stamps the enquiry only; no pickup row is created. */
  method SchedulePickup(db: Database, id: int, now: Time, lookupFault: Option<string>, writeFault: Option<string>)
    returns (reply: Reply<()>)
    requires db.Valid()
    modifies db
    ensures db.Valid() && db.pickups == old(db.pickups)
    ensures (reply, db.enquiries) == Guarded(old(db.enquiries), id, Edit(EM.PickupScheduled), now, lookupFault, writeFault,
                                             "Error scheduling pickup", "Pickup scheduled")
  {
    reply := FindThenWrite(db, id, Edit(EM.PickupScheduled), now, lookupFault, writeFault,
                           "Error scheduling pickup", "Pickup scheduled");
  }
}
