/**
  The operations of `PickupModel` on the `pickup_requests` table. As in `EnquiryModel`,
  most operations send one SQL statement and `fault` is the error it throws (a statement
  that throws changes nothing); `createFromEnquiry` sends a SELECT and then an INSERT,
  with one fault each, and `dashboardStats` one query per count, with the first error
  among them as its fault. `now` is the value `NOW()` reads.
 */
module PickupModel {
  import opened Js
  import opened Sql
  import opened Db

  /** The properties `createFromEnquiry` destructures from `data`. */
  datatype PickupData = PickupData(assignedTo: Value, amount: Value, scheduledDate: Value)

  /** The SET list of each UPDATE statement on `pickup_requests`. */
  datatype Change =
    | SetStatus(status: Value)                                 // updateStatus
    | Assign(staffName: Value)                                 // assignPickup
    | SetAmount(amount: Value)                                 // updateAmount
    | ReceivedDetails(photo: Value, notes: Value, condition: Value) // addReceivedDetails

  // ---------------------------------------------------------------- statuses

  const Scheduled := Str("scheduled")
  const Assigned := Str("assigned")
  const Collected := Str("collected")
  const Received := Str("received")

  /** The four statuses of a pickup's life cycle. */
  predicate KnownStatus(v: Value)
  {
    v == Scheduled || v == Assigned || v == Collected || v == Received
  }

  /** Every pickup is in one of the four statuses. */
  predicate KnownStatuses(rows: map<int, Pickup>)
  {
    forall id :: id in rows ==> KnownStatus(rows[id].status)
  }

  // ---------------------------------------------------------------- createFromEnquiry

  /** The row `createFromEnquiry` inserts: a snapshot of the enquiry's contact and product
      fields (its location becomes the pickup address), its quantity or 1 when that is
      falsy, the given assignment, amount and date, and status `scheduled`. */
  function NewPickup(enquiryId: int, e: Enquiry, data: PickupData): (p: Pickup)
    ensures p.enquiryId == enquiryId
    ensures p.customerName == e.name && p.phone == e.phone && p.address == e.location && p.product == e.product
    ensures p.quantity == (if Truthy(e.quantity) then e.quantity else Num(1.0))
    ensures p.assignedTo == data.assignedTo && p.amount == data.amount && p.scheduledDate == data.scheduledDate
    ensures p.status == Scheduled
    ensures p.collectedDate == None && p.receivedDate == None && p.updatedAt == None
    ensures p.receivedPhoto == Null && p.receivedNotes == Null && p.itemCondition == Null
  {
    Pickup(enquiryId, e.name, e.phone, e.location, e.product, Or(e.quantity, Num(1.0)),
           data.assignedTo, data.amount, data.scheduledDate, Scheduled,
           None, None, Null, Null, Null, None)
  }

  /** The quantity copied is 1 exactly when the enquiry's is falsy or is 1 already: `|| 1`
      replaces 0, `""` and `null`, not only a missing value. */
  lemma NewPickupQuantityIsOne(enquiryId: int, e: Enquiry, data: PickupData)
    ensures NewPickup(enquiryId, e, data).quantity == Num(1.0) <==> !Truthy(e.quantity) || e.quantity == Num(1.0)
  {
  }

  /** `createFromEnquiry`: looks the enquiry up (`lookupFault` is the error of that SELECT),
      throws `Enquiry not found` when there is none, and otherwise inserts `NewPickup`
      (`insertFault` is the error of that INSERT) and returns the new id. */
  method CreateFromEnquiry(db: Database, enquiryId: int, data: PickupData,
                           lookupFault: Option<string>, insertFault: Option<string>)
    returns (r: Outcome<int>)
    requires db.Valid()
    modifies db
    ensures db.Valid() && db.enquiries == old(db.enquiries)
    ensures lookupFault.Some? ==> r == Threw(lookupFault.value) && db.pickups == old(db.pickups)
    ensures lookupFault.None? && enquiryId !in old(db.enquiries) ==>
              r == Threw("Enquiry not found") && db.pickups == old(db.pickups)
    ensures lookupFault.None? && enquiryId in old(db.enquiries) && insertFault.Some? ==>
              r == Threw(insertFault.value) && db.pickups == old(db.pickups)
    ensures lookupFault.None? && enquiryId in old(db.enquiries) && insertFault.None? ==>
              && r.Ok? && r.value !in old(db.pickups)
              && db.pickups == old(db.pickups)[r.value := NewPickup(enquiryId, old(db.enquiries)[enquiryId], data)]
  {
    if lookupFault.Some? {
      return Threw(lookupFault.value);
    }
    if enquiryId !in db.enquiries {
      return Threw("Enquiry not found");
    }
    var enquiry := db.enquiries[enquiryId];
    if insertFault.Some? {
      return Threw(insertFault.value);
    }
    var id := db.InsertPickup(NewPickup(enquiryId, enquiry, data));
    r := Ok(id);
  }

  // ---------------------------------------------------------------- findAll

  /** The `filters` object `findAll` reads; a key that is not set is `None`. */
  datatype Filters = Filters(search: Option<string>, status: Option<string>)

  predicate AnyFilter(f: Filters)
  {
    NonEmpty(f.search) || NonEmpty(f.status)
  }

  const Base: Fragment := [Text("SELECT * FROM pickup_requests")]
  const OrderBy: Fragment := [Text(" ORDER BY created_at DESC")]
  const SearchCondition: Fragment :=
    [Text("(customer_name LIKE "), Param, Text(" OR phone LIKE "), Param, Text(" OR address LIKE "), Param,
     Text(" OR product LIKE "), Param, Text(")")]
  const StatusCondition: Fragment := [Text("status = "), Param]

  /** The text of a filter that is set (`""` for one that is not). */
  function Given(o: Option<string>): string
  {
    if o.Some? then o.value else ""
  }

  /** The search matches `%term%` against four columns, so it binds that pattern four times. */
  function SearchClause(s: string): Clause
  {
    var t := Str("%" + s + "%");
    Clause(SearchCondition, [t, t, t, t])
  }

  function StatusClause(s: string): Clause
  {
    Clause(StatusCondition, [Str(s)])
  }

  /** The clauses of the present filters: search first, then status. */
  function Clauses(f: Filters): seq<Clause>
  {
    Piece(NonEmpty(f.search), SearchClause(Given(f.search))) + Piece(NonEmpty(f.status), StatusClause(Given(f.status)))
  }

  /** The statement `findAll(f)` sends. */
  function FindAllStatement(f: Filters): Statement
  {
    FilteredSelect(Base, Clauses(f), OrderBy)
  }

  /** Every placeholder of the statement has exactly one value. */
  lemma FindAllWellFormed(f: Filters)
    ensures WellFormed(FindAllStatement(f))
  {
    ClausesBalanced(f);
    assert Placeholders(Base) == 0 && Placeholders(OrderBy) == 0;
    FilteredSelectWellFormed(Base, Clauses(f), OrderBy);
  }

  /** Each filter's condition has as many placeholders as values. */
  lemma ClausesBalanced(f: Filters)
    ensures AllBalanced(Clauses(f))
  {
    var s := Piece(NonEmpty(f.search), SearchClause(Given(f.search)));
    var a := Piece(NonEmpty(f.status), StatusClause(Given(f.status)));
    SearchBalanced(Given(f.search));
    assert Balanced(StatusClause(Given(f.status)));
    assert AllBalanced(s) && AllBalanced(a);
    AllBalancedAppend(s, a);
  }

  /** The search condition has four placeholders, one per bound pattern. */
  lemma SearchBalanced(s: string)
    ensures Balanced(SearchClause(s))
  {
    FourLikes("(customer_name LIKE ", " OR phone LIKE ", " OR address LIKE ", " OR product LIKE ", ")");
  }

  /** ` WHERE ` appears exactly when some filter is present. */
  lemma FindAllWhereOnlyWithFilter(f: Filters)
    ensures WhereKeyword in FindAllStatement(f).sql <==> AnyFilter(f)
  {
    var s := Piece(NonEmpty(f.search), SearchClause(Given(f.search)));
    var a := Piece(NonEmpty(f.status), StatusClause(Given(f.status)));
    assert WhereFree(s) && WhereFree(a);
    WhereFreeAppend(s, a);
    FilteredSelectWhere(Base, Clauses(f), OrderBy);
  }

  /** The values bound, in order: the search pattern four times, then the status. */
  lemma FindAllParams(f: Filters)
    ensures ParamsOf(Clauses(f))
            == Optional(NonEmpty(f.search), SearchClause(Given(f.search)).params)
               + Optional(NonEmpty(f.status), [Str(Given(f.status))])
  {
    var s := Piece(NonEmpty(f.search), SearchClause(Given(f.search)));
    var a := Piece(NonEmpty(f.status), StatusClause(Given(f.status)));
    PieceParams(NonEmpty(f.search), SearchClause(Given(f.search)));
    PieceParams(NonEmpty(f.status), StatusClause(Given(f.status)));
    ParamsOfAppend(s, a);
  }

  /** `findAll`: pushes the search and the status condition when present, then adds
      ` WHERE ` and the ordering. Running the statement is not modelled. */
  method FindAll(f: Filters) returns (st: Statement)
    ensures st == FindAllStatement(f)
    ensures WellFormed(st)
    ensures WhereKeyword in st.sql <==> AnyFilter(f)
    ensures |st.sql| >= |OrderBy| && st.sql[|st.sql| - |OrderBy|..] == OrderBy
  {
    var search := SearchClause(Given(f.search));
    var status := StatusClause(Given(f.status));
    var conditions, params := PushWhen(NonEmpty(f.search), search, [], [], []);
    ghost var clauses := [] + Piece(NonEmpty(f.search), search);
    conditions, params := PushWhen(NonEmpty(f.status), status, conditions, params, clauses);
    clauses := clauses + Piece(NonEmpty(f.status), status);
    assert clauses == Clauses(f);
    var sql := AppendWhereAndOrder(Base, conditions, OrderBy);
    st := Statement(sql, params);
    FindAllWellFormed(f);
    FindAllWhereOnlyWithFilter(f);
    SelectEndsWithOrder(Base, conditions, OrderBy);
  }

  // ---------------------------------------------------------------- reads

  /** `findById`: the row with that id, or `undefined` (`None`) when there is none. */
  function FindById(db: Database, id: int, fault: Option<string>): (r: Outcome<Option<Pickup>>)
    reads db
    ensures fault.Some? ==> r == Threw(fault.value)
    ensures fault.None? ==> r.Ok? && (r.value.Some? <==> id in db.pickups)
    ensures fault.None? && id in db.pickups ==> r.value.value == db.pickups[id]
  {
    if fault.Some? then Threw(fault.value)
    else if id in db.pickups then Ok(Some(db.pickups[id]))
    else Ok(None)
  }

  /** `findByStatus`: the rows whose status equals the argument (the order of the result
      is not modelled). */
  function FindByStatus(db: Database, status: Value, fault: Option<string>): (r: Outcome<map<int, Pickup>>)
    reads db
    ensures fault.Some? ==> r == Threw(fault.value)
    ensures fault.None? ==> r.Ok? && r.value.Keys <= db.pickups.Keys
    ensures fault.None? ==> forall id :: id in db.pickups ==> (id in r.value <==> db.pickups[id].status == status)
    ensures fault.None? ==> forall id :: id in r.value ==> r.value[id] == db.pickups[id]
  {
    if fault.Some? then Threw(fault.value)
    else Ok(map id | id in db.pickups && db.pickups[id].status == status :: db.pickups[id])
  }

  // ---------------------------------------------------------------- dashboardStats

  /** The five counts; `assigned` is a Dafny keyword, hence the suffixes. */
  datatype Stats = Stats(total: nat, scheduledCount: nat, assignedCount: nat, collectedCount: nat, receivedCount: nat)

  /** The ids of the rows in status `s` (`WHERE status='s'`). */
  function IdsWithStatus(rows: map<int, Pickup>, s: Value): (r: set<int>)
    ensures r <= rows.Keys
    ensures forall id :: id in rows ==> (id in r <==> rows[id].status == s)
  {
    set id | id in rows && rows[id].status == s
  }

  /** The five counts, each a scan of the whole table. */
  function DashboardCounts(rows: map<int, Pickup>): Stats
  {
    Stats(|rows|, |IdsWithStatus(rows, Scheduled)|, |IdsWithStatus(rows, Assigned)|,
          |IdsWithStatus(rows, Collected)|, |IdsWithStatus(rows, Received)|)
  }

  /** `dashboardStats`: each status count is the size of that status's `findByStatus` listing. */
  function DashboardStats(db: Database, fault: Option<string>): (r: Outcome<Stats>)
    reads db
    ensures fault.Some? ==> r == Threw(fault.value)
    ensures fault.None? ==> r.Ok? && r.value.total == |db.pickups|
    ensures fault.None? ==> r.value.scheduledCount == |FindByStatus(db, Scheduled, None).value|
    ensures fault.None? ==> r.value.assignedCount == |FindByStatus(db, Assigned, None).value|
    ensures fault.None? ==> r.value.collectedCount == |FindByStatus(db, Collected, None).value|
    ensures fault.None? ==> r.value.receivedCount == |FindByStatus(db, Received, None).value|
  {
    if fault.Some? then Threw(fault.value)
    else
      CountIsListingSize(db, Scheduled);
      CountIsListingSize(db, Assigned);
      CountIsListingSize(db, Collected);
      CountIsListingSize(db, Received);
      Ok(DashboardCounts(db.pickups))
  }

  /** When every pickup is in one of the four statuses, the four counts partition the total. */
  lemma DashboardPartition(rows: map<int, Pickup>)
    requires KnownStatuses(rows)
    ensures var s := DashboardCounts(rows); s.scheduledCount + s.assignedCount + s.collectedCount + s.receivedCount == s.total
  {
    var a, b, c, d := IdsWithStatus(rows, Scheduled), IdsWithStatus(rows, Assigned),
                      IdsWithStatus(rows, Collected), IdsWithStatus(rows, Received);
    forall id | id in rows
      ensures id in a + b + c + d
    {
      assert KnownStatus(rows[id].status);
    }
    assert rows.Keys == a + b + c + d;
    assert a * b == {} && (a + b) * c == {} && (a + b + c) * d == {};
    assert |rows| == |rows.Keys|;
  }

  /** The status count is the size of the `findByStatus` listing for that status. */
  lemma CountIsListingSize(db: Database, s: Value)
    ensures FindByStatus(db, s, None).Ok?
    ensures |IdsWithStatus(db.pickups, s)| == |FindByStatus(db, s, None).value|
  {
    assert FindByStatus(db, s, None).value.Keys == IdsWithStatus(db.pickups, s);
  }

  // ---------------------------------------------------------------- updateStatus

  const StatusSet: Fragment := [Text("status = "), Param, Text(", updated_at = NOW()")]
  const CollectedStamp := Text(", collected_date = NOW()")
  const ReceivedStamp := Text(", received_date = NOW()")
  const UpdatePrefix: Fragment := [Text("UPDATE pickup_requests SET ")]
  const WhereId: Fragment := [Text(" WHERE id = "), Param]

  /** The SET list `updateStatus` builds: status and `updated_at`, plus `collected_date`
      for exactly `'collected'` or `received_date` for exactly `'received'` (`===`). */
  function UpdateStatusFields(status: Value): Fragment
  {
    StatusSet
    + (if status == Collected then [CollectedStamp] else if status == Received then [ReceivedStamp] else [])
  }

  /** The statement `updateStatus(id, status)` sends. */
  function UpdateStatusStatement(id: int, status: Value): Statement
  {
    Statement(UpdatePrefix + UpdateStatusFields(status) + WhereId, [status, Num(id as real)])
  }

  /** Two placeholders, two values, whatever the status. */
  lemma UpdateStatusWellFormed(id: int, status: Value)
    ensures WellFormed(UpdateStatusStatement(id, status))
  {
    var fields := UpdateStatusFields(status);
    FieldsPlaceholders(status);
    assert multiset(UpdatePrefix)[Param] == 0;
    assert multiset(WhereId)[Param] == 1;
    assert multiset(UpdatePrefix + fields + WhereId) == multiset(UpdatePrefix) + multiset(fields) + multiset(WhereId);
  }

  /** The SET list has one placeholder, the status, whichever stamp it carries. */
  lemma FieldsPlaceholders(status: Value)
    ensures Placeholders(UpdateStatusFields(status)) == 1
  {
    var tail: Fragment := if status == Collected then [CollectedStamp] else if status == Received then [ReceivedStamp] else [];
    assert multiset(StatusSet)[Param] == 1;
    assert multiset(tail)[Param] == 0;
    assert multiset(StatusSet + tail) == multiset(StatusSet) + multiset(tail);
  }

  /** Each stamp is written for its own status only, so never both. */
  lemma UpdateStatusStamps(id: int, status: Value)
    ensures CollectedStamp in UpdateStatusStatement(id, status).sql <==> status == Collected
    ensures ReceivedStamp in UpdateStatusStatement(id, status).sql <==> status == Received
    ensures !(CollectedStamp in UpdateStatusStatement(id, status).sql && ReceivedStamp in UpdateStatusStatement(id, status).sql)
  {
    var q := UpdateStatusStatement(id, status).sql;
    var head := UpdatePrefix + StatusSet;
    if status == Collected {
      assert q == head + [CollectedStamp] + WhereId;
    } else if status == Received {
      assert q == head + [ReceivedStamp] + WhereId;
    } else {
      assert q == head + WhereId;
    }
  }

  /** `updateStatus`'s statement, built as the source builds it: the SET list grows by a
      stamp for `collected` or `received`, then the id is pushed after the status. */
  method BuildUpdateStatus(id: int, status: Value) returns (st: Statement)
    ensures st == UpdateStatusStatement(id, status)
  {
    var updateFields := StatusSet;
    var params := [status];
    if status == Collected {
      updateFields := updateFields + [CollectedStamp];
    } else if status == Received {
      updateFields := updateFields + [ReceivedStamp];
    }
    assert updateFields == UpdateStatusFields(status);
    var sql := UpdatePrefix + updateFields + WhereId;
    params := params + [Num(id as real)];
    st := Statement(sql, params);
  }

  // ---------------------------------------------------------------- updates

  /** A row after one UPDATE: the columns its SET list names change, every other column
      keeps its value, and `updated_at` is stamped. */
  function Apply(p: Pickup, c: Change, now: Time): (r: Pickup)
    ensures r.updatedAt == Some(now) && r.enquiryId == p.enquiryId
    ensures c.SetStatus? ==> r == p.(status := c.status, updatedAt := Some(now),
                                     collectedDate := if c.status == Collected then Some(now) else p.collectedDate,
                                     receivedDate := if c.status == Received then Some(now) else p.receivedDate)
    ensures c.Assign? ==> r == p.(assignedTo := c.staffName, status := Assigned, updatedAt := Some(now))
    ensures c.SetAmount? ==> r == p.(amount := c.amount, updatedAt := Some(now))
    ensures c.ReceivedDetails? ==> r == p.(receivedPhoto := c.photo, receivedNotes := c.notes,
                                           itemCondition := c.condition, updatedAt := Some(now))
  {
    match c
    case SetStatus(s) =>
      Pickup(p.enquiryId, p.customerName, p.phone, p.address, p.product, p.quantity,
             p.assignedTo, p.amount, p.scheduledDate, s,
             if s == Collected then Some(now) else p.collectedDate,
             if s == Received then Some(now) else p.receivedDate,
             p.receivedPhoto, p.receivedNotes, p.itemCondition, Some(now))
    case Assign(staff) =>
      Pickup(p.enquiryId, p.customerName, p.phone, p.address, p.product, p.quantity,
             staff, p.amount, p.scheduledDate, Assigned, p.collectedDate, p.receivedDate,
             p.receivedPhoto, p.receivedNotes, p.itemCondition, Some(now))
    case SetAmount(a) =>
      Pickup(p.enquiryId, p.customerName, p.phone, p.address, p.product, p.quantity,
             p.assignedTo, a, p.scheduledDate, p.status, p.collectedDate, p.receivedDate,
             p.receivedPhoto, p.receivedNotes, p.itemCondition, Some(now))
    case ReceivedDetails(photo, notes, condition) =>
      Pickup(p.enquiryId, p.customerName, p.phone, p.address, p.product, p.quantity,
             p.assignedTo, p.amount, p.scheduledDate, p.status, p.collectedDate, p.receivedDate,
             photo, notes, condition, Some(now))
  }

  /** The row effect of `updateStatus` writes a stamp column exactly when the statement's
      SET list names it. */
  lemma StatusEffectMatchesStatement(p: Pickup, id: int, status: Value, now: Time)
    ensures Apply(p, SetStatus(status), now).collectedDate
            == (if CollectedStamp in UpdateStatusStatement(id, status).sql then Some(now) else p.collectedDate)
    ensures Apply(p, SetStatus(status), now).receivedDate
            == (if ReceivedStamp in UpdateStatusStatement(id, status).sql then Some(now) else p.receivedDate)
  {
    UpdateStatusStamps(id, status);
  }

  /** `UPDATE pickup_requests SET ... WHERE id = ?`: the row with that id, if there is one, gets
      `Apply`; no other row changes. */
  function Updated(rows: map<int, Pickup>, id: int, c: Change, now: Time): map<int, Pickup>
  {
    UpdateRow(rows, id, (p: Pickup) => Apply(p, c, now))
  }

  /** A change that writes a status writes one of the four. */
  predicate KeepsKnownStatus(c: Change)
  {
    c.SetStatus? ==> KnownStatus(c.status)
  }

  /** Updates that write known statuses keep every pickup in a known status. */
  lemma UpdatedKeepsKnownStatuses(rows: map<int, Pickup>, id: int, c: Change, now: Time)
    requires KnownStatuses(rows) && KeepsKnownStatus(c)
    ensures KnownStatuses(Updated(rows, id, c, now))
  {
    if id in rows {
      assert KnownStatus(rows[id].status);
    }
  }

  /** Inserting a created pickup keeps every pickup in a known status. */
  lemma NewPickupKeepsKnownStatuses(rows: map<int, Pickup>, newId: int, enquiryId: int, e: Enquiry, data: PickupData)
    requires KnownStatuses(rows)
    ensures KnownStatuses(rows[newId := NewPickup(enquiryId, e, data)])
  {
  }

  /** Runs one UPDATE statement. */
  method RunUpdate(db: Database, id: int, c: Change, now: Time, fault: Option<string>) returns (r: Outcome<()>)
    requires db.Valid()
    modifies db
    ensures db.Valid() && db.enquiries == old(db.enquiries)
    ensures fault.Some? ==> r == Threw(fault.value) && db.pickups == old(db.pickups)
    ensures fault.None? ==> r == Ok(()) && db.pickups == Updated(old(db.pickups), id, c, now)
  {
    if fault.Some? {
      return Threw(fault.value);
    }
    db.pickups := Updated(db.pickups, id, c, now);
    r := Ok(());
  }

  /** `updateStatus`: builds its statement, then runs it. `st` is the statement sent: one
      value per placeholder, and a date stamp exactly for `collected` or `received`. */
  method UpdateStatus(db: Database, id: int, status: Value, now: Time, fault: Option<string>)
    returns (st: Statement, r: Outcome<()>)
    requires db.Valid()
    modifies db
    ensures st == UpdateStatusStatement(id, status) && WellFormed(st)
    ensures CollectedStamp in st.sql <==> status == Collected
    ensures ReceivedStamp in st.sql <==> status == Received
    ensures db.Valid() && db.enquiries == old(db.enquiries)
    ensures fault.Some? ==> r == Threw(fault.value) && db.pickups == old(db.pickups)
    ensures fault.None? ==> r == Ok(()) && db.pickups == Updated(old(db.pickups), id, SetStatus(status), now)
  {
    st := BuildUpdateStatus(id, status);
    UpdateStatusWellFormed(id, status);
    UpdateStatusStamps(id, status);
    r := RunUpdate(db, id, SetStatus(status), now, fault);
  }

  /** `assignPickup`: sets the staff member and forces status `assigned`, whatever it was. */
  method AssignPickup(db: Database, id: int, staffName: Value, now: Time, fault: Option<string>) returns (r: Outcome<()>)
    requires db.Valid()
    modifies db
    ensures db.Valid() && db.enquiries == old(db.enquiries)
    ensures fault.Some? ==> r == Threw(fault.value) && db.pickups == old(db.pickups)
    ensures fault.None? ==> r == Ok(()) && db.pickups == Updated(old(db.pickups), id, Assign(staffName), now)
  {
    r := RunUpdate(db, id, Assign(staffName), now, fault);
  }

  /** `updateAmount`. */
  method UpdateAmount(db: Database, id: int, amount: Value, now: Time, fault: Option<string>) returns (r: Outcome<()>)
    requires db.Valid()
    modifies db
    ensures db.Valid() && db.enquiries == old(db.enquiries)
    ensures fault.Some? ==> r == Threw(fault.value) && db.pickups == old(db.pickups)
    ensures fault.None? ==> r == Ok(()) && db.pickups == Updated(old(db.pickups), id, SetAmount(amount), now)
  {
    r := RunUpdate(db, id, SetAmount(amount), now, fault);
  }

  /** `addReceivedDetails`: photo, notes and condition, as destructured from `data`. */
  method AddReceivedDetails(db: Database, id: int, photo: Value, notes: Value, condition: Value, now: Time,
                            fault: Option<string>) returns (r: Outcome<()>)
    requires db.Valid()
    modifies db
    ensures db.Valid() && db.enquiries == old(db.enquiries)
    ensures fault.Some? ==> r == Threw(fault.value) && db.pickups == old(db.pickups)
    ensures fault.None? ==> r == Ok(()) && db.pickups == Updated(old(db.pickups), id, ReceivedDetails(photo, notes, condition), now)
  {
    r := RunUpdate(db, id, ReceivedDetails(photo, notes, condition), now, fault);
  }

  /** `delete`: removes the row with that id, if any; every enquiry is left untouched. */
  method Delete(db: Database, id: int, fault: Option<string>) returns (r: Outcome<()>)
    requires db.Valid()
    modifies db
    ensures db.Valid() && db.enquiries == old(db.enquiries)
    ensures fault.Some? ==> r == Threw(fault.value) && db.pickups == old(db.pickups)
    ensures fault.None? ==> r == Ok(()) && db.pickups == old(db.pickups) - {id}
  {
    if fault.Some? {
      return Threw(fault.value);
    }
    db.pickups := db.pickups - {id};
    r := Ok(());
  }

  /** Deleting keeps every remaining pickup in a known status. */
  lemma DeleteKeepsKnownStatuses(rows: map<int, Pickup>, id: int)
    requires KnownStatuses(rows)
    ensures KnownStatuses(rows - {id})
  {
  }
}
