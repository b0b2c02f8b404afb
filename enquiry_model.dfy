/**
  The operations of `EnquiryModel` on the `enquiries` table. Most of them send one SQL
  statement and `fault` is the error it throws, if it throws; `dashboardStats` sends one
  query per count and its `fault` is the first error among them. A statement that throws
  changes nothing. `now` is the value `NOW()` reads during the statement.
 */
module EnquiryModel {
  import opened Js
  import opened Sql
  import opened Db

  /** The properties `create` and `update` destructure from `data` (`Undefined` when missing). */
  datatype EnquiryData = EnquiryData(
    name: Value,
    phone: Value,
    location: Value,
    message: Value,
    inquiryType: Value,
    product: Value,
    quantity: Value,
    status: Value)

  /** The SET list of each UPDATE statement on `enquiries`. */
  datatype Change =
    | Overwrite(data: EnquiryData)   // update
    | SetStatus(status: Value)       // updateStatus
    | Contacted                      // markContacted
    | PickupScheduled                // schedulePickup

  // ---------------------------------------------------------------- create

  /** The row `create` inserts: the given fields, quantity 1 when it was not supplied,
      status `pending`, created now and never updated, contacted or scheduled. */
  function NewEnquiry(data: EnquiryData, now: Time): (e: Enquiry)
    ensures e.status == Str("pending")
    ensures e.quantity == (if data.quantity == Undefined then Num(1.0) else data.quantity)
    ensures e.name == data.name && e.phone == data.phone && e.location == data.location
    ensures e.message == data.message && e.inquiryType == data.inquiryType && e.product == data.product
    ensures e.createdAt == now && e.updatedAt == None && e.contactedAt == None && e.scheduledPickupAt == None
  {
    Enquiry(data.name, data.phone, data.location, data.message, data.inquiryType, data.product,
            Default(data.quantity, Num(1.0)), Str("pending"), now, None, None, None)
  }

  /** `create`: inserts `NewEnquiry(data, now)` under a fresh id and returns that id. */
  method Create(db: Database, data: EnquiryData, now: Time, fault: Option<string>) returns (r: Outcome<int>)
    requires db.Valid()
    modifies db
    ensures db.Valid() && db.pickups == old(db.pickups)
    ensures fault.Some? ==> r == Threw(fault.value) && db.enquiries == old(db.enquiries)
    ensures fault.None? ==> && r.Ok? && r.value !in old(db.enquiries)
                            && db.enquiries == old(db.enquiries)[r.value := NewEnquiry(data, now)]
  {
    if fault.Some? {
      return Threw(fault.value);
    }
    var id := db.InsertEnquiry(NewEnquiry(data, now));
    r := Ok(id);
  }

  // ---------------------------------------------------------------- findAll

  /** The `filters` object `findAll` reads; a key that is not set is `None`. */
  datatype Filters = Filters(
    search: Option<string>,
    status: Option<string>,
    inquiryType: Option<string>,
    product: Option<string>,
    thisMonth: bool,
    thisWeek: bool)

  predicate AnyFilter(f: Filters)
  {
    NonEmpty(f.search) || NonEmpty(f.status) || NonEmpty(f.inquiryType) || NonEmpty(f.product) || f.thisMonth || f.thisWeek
  }

  const Base: Fragment := [Text("SELECT * FROM enquiries")]
  const OrderBy: Fragment := [Text(" ORDER BY created_at DESC")]
  const SearchCondition: Fragment :=
    [Text("(name LIKE "), Param, Text(" OR phone LIKE "), Param, Text(" OR location LIKE "), Param,
     Text(" OR message LIKE "), Param, Text(")")]
  const StatusCondition: Fragment := [Text("status = "), Param]
  const TypeCondition: Fragment := [Text("inquiry_type = "), Param]
  const ProductCondition: Fragment := [Text("product = "), Param]
  const MonthCondition: Fragment := [Text("MONTH(created_at) = MONTH(NOW()) AND YEAR(created_at) = YEAR(NOW())")]
  const WeekCondition: Fragment := [Text("WEEK(created_at, 1) = WEEK(NOW(), 1) AND YEAR(created_at) = YEAR(NOW())")]

  /** The `%term%` pattern bound to each LIKE of the search condition. */
  function SearchTerm(s: string): Value
  {
    Str("%" + s + "%")
  }

  /** The text of a filter that is set (`""` for one that is not). */
  function Given(o: Option<string>): string
  {
    if o.Some? then o.value else ""
  }

  /** The clauses of the present filters, in the fixed order search, status,
      inquiry_type, product, this month, this week. */
  function Clauses(f: Filters): seq<Clause>
  {
    Piece(NonEmpty(f.search), SearchClause(Given(f.search)))
    + Piece(NonEmpty(f.status), Clause(StatusCondition, [Str(Given(f.status))]))
    + Piece(NonEmpty(f.inquiryType), Clause(TypeCondition, [Str(Given(f.inquiryType))]))
    + Piece(NonEmpty(f.product), Clause(ProductCondition, [Str(Given(f.product))]))
    + Piece(f.thisMonth, Clause(MonthCondition, []))
    + Piece(f.thisWeek, Clause(WeekCondition, []))
  }

  /** The search matches the term against four columns, so it binds the term four times. */
  function SearchClause(s: string): Clause
  {
    var t := SearchTerm(s);
    Clause(SearchCondition, [t, t, t, t])
  }

  /** The statement `findAll(f)` sends. */
  function FindAllStatement(f: Filters): Statement
  {
    FilteredSelect(Base, Clauses(f), OrderBy)
  }

  lemma ClausesBalanced(f: Filters)
    ensures AllBalanced(Clauses(f))
  {
    var s := Piece(NonEmpty(f.search), SearchClause(Given(f.search)));
    var a := Piece(NonEmpty(f.status), Clause(StatusCondition, [Str(Given(f.status))]));
    var t := Piece(NonEmpty(f.inquiryType), Clause(TypeCondition, [Str(Given(f.inquiryType))]));
    var p := Piece(NonEmpty(f.product), Clause(ProductCondition, [Str(Given(f.product))]));
    var m := Piece(f.thisMonth, Clause(MonthCondition, []));
    var w := Piece(f.thisWeek, Clause(WeekCondition, []));
    FourLikes("(name LIKE ", " OR phone LIKE ", " OR location LIKE ", " OR message LIKE ", ")");
    assert AllBalanced(s) && AllBalanced(a) && AllBalanced(t);
    assert AllBalanced(p) && AllBalanced(m) && AllBalanced(w);
    AllBalancedAppend(s, a);
    AllBalancedAppend(s + a, t);
    AllBalancedAppend(s + a + t, p);
    AllBalancedAppend(s + a + t + p, m);
    AllBalancedAppend(s + a + t + p + m, w);
  }

  /** Every placeholder of the statement has exactly one value. */
  lemma FindAllWellFormed(f: Filters)
    ensures WellFormed(FindAllStatement(f))
  {
    ClausesBalanced(f);
    FilteredSelectWellFormed(Base, Clauses(f), OrderBy);
  }

  /** ` WHERE ` appears exactly when some filter is present. */
  lemma FindAllWhereOnlyWithFilter(f: Filters)
    ensures WhereKeyword in FindAllStatement(f).sql <==> AnyFilter(f)
  {
    var s := Piece(NonEmpty(f.search), SearchClause(Given(f.search)));
    var a := Piece(NonEmpty(f.status), Clause(StatusCondition, [Str(Given(f.status))]));
    var t := Piece(NonEmpty(f.inquiryType), Clause(TypeCondition, [Str(Given(f.inquiryType))]));
    var p := Piece(NonEmpty(f.product), Clause(ProductCondition, [Str(Given(f.product))]));
    var m := Piece(f.thisMonth, Clause(MonthCondition, []));
    var w := Piece(f.thisWeek, Clause(WeekCondition, []));
    assert WhereFree(s) && WhereFree(a) && WhereFree(t);
    assert WhereFree(p) && WhereFree(m) && WhereFree(w);
    WhereFreeAppend(s, a);
    WhereFreeAppend(s + a, t);
    WhereFreeAppend(s + a + t, p);
    WhereFreeAppend(s + a + t + p, m);
    WhereFreeAppend(s + a + t + p + m, w);
    FilteredSelectWhere(Base, Clauses(f), OrderBy);
  }

  /** The values bound, in order: the search term four times, then status, inquiry_type and
      product; the calendar filters bind nothing. */
  lemma FindAllParams(f: Filters)
    ensures ParamsOf(Clauses(f))
            == Optional(NonEmpty(f.search), SearchClause(Given(f.search)).params)
               + Optional(NonEmpty(f.status), [Str(Given(f.status))])
               + Optional(NonEmpty(f.inquiryType), [Str(Given(f.inquiryType))])
               + Optional(NonEmpty(f.product), [Str(Given(f.product))])
  {
    var s := Piece(NonEmpty(f.search), SearchClause(Given(f.search)));
    var a := Piece(NonEmpty(f.status), Clause(StatusCondition, [Str(Given(f.status))]));
    var t := Piece(NonEmpty(f.inquiryType), Clause(TypeCondition, [Str(Given(f.inquiryType))]));
    var p := Piece(NonEmpty(f.product), Clause(ProductCondition, [Str(Given(f.product))]));
    var m := Piece(f.thisMonth, Clause(MonthCondition, []));
    var w := Piece(f.thisWeek, Clause(WeekCondition, []));
    PieceParams(NonEmpty(f.search), SearchClause(Given(f.search)));
    PieceParams(NonEmpty(f.status), Clause(StatusCondition, [Str(Given(f.status))]));
    PieceParams(NonEmpty(f.inquiryType), Clause(TypeCondition, [Str(Given(f.inquiryType))]));
    PieceParams(NonEmpty(f.product), Clause(ProductCondition, [Str(Given(f.product))]));
    PieceParams(f.thisMonth, Clause(MonthCondition, []));
    PieceParams(f.thisWeek, Clause(WeekCondition, []));
    ParamsOfAppend(s, a);
    ParamsOfAppend(s + a, t);
    ParamsOfAppend(s + a + t, p);
    ParamsOfAppend(s + a + t + p, m);
    ParamsOfAppend(s + a + t + p + m, w);
    calc {
      ParamsOf(Clauses(f));
      ParamsOf(s + a + t + p + m + w);
      ParamsOf(s) + ParamsOf(a) + ParamsOf(t) + ParamsOf(p) + ParamsOf(m) + ParamsOf(w);
      ParamsOf(s) + ParamsOf(a) + ParamsOf(t) + ParamsOf(p);
    }
  }

  /** The statement text depends only on which filters are present, never on their values:
      user input reaches the database only as bound parameters. */
  lemma FindAllTextIgnoresValues(f: Filters, g: Filters)
    requires NonEmpty(f.search) == NonEmpty(g.search) && NonEmpty(f.status) == NonEmpty(g.status)
    requires NonEmpty(f.inquiryType) == NonEmpty(g.inquiryType) && NonEmpty(f.product) == NonEmpty(g.product)
    requires f.thisMonth == g.thisMonth && f.thisWeek == g.thisWeek
    ensures FindAllStatement(f).sql == FindAllStatement(g).sql
  {
    SameConditions(f, g);
  }

  lemma SameConditions(f: Filters, g: Filters)
    requires NonEmpty(f.search) == NonEmpty(g.search) && NonEmpty(f.status) == NonEmpty(g.status)
    requires NonEmpty(f.inquiryType) == NonEmpty(g.inquiryType) && NonEmpty(f.product) == NonEmpty(g.product)
    requires f.thisMonth == g.thisMonth && f.thisWeek == g.thisWeek
    ensures ConditionsOf(Clauses(f)) == ConditionsOf(Clauses(g))
  {
    ConditionsAre(f);
    ConditionsAre(g);
  }

  /** The conditions of the present filters, in the fixed order. */
  lemma ConditionsAre(f: Filters)
    ensures ConditionsOf(Clauses(f))
            == Optional(NonEmpty(f.search), [SearchCondition])
               + Optional(NonEmpty(f.status), [StatusCondition])
               + Optional(NonEmpty(f.inquiryType), [TypeCondition])
               + Optional(NonEmpty(f.product), [ProductCondition])
               + Optional(f.thisMonth, [MonthCondition])
               + Optional(f.thisWeek, [WeekCondition])
  {
    var s := Piece(NonEmpty(f.search), SearchClause(Given(f.search)));
    var a := Piece(NonEmpty(f.status), Clause(StatusCondition, [Str(Given(f.status))]));
    var t := Piece(NonEmpty(f.inquiryType), Clause(TypeCondition, [Str(Given(f.inquiryType))]));
    var p := Piece(NonEmpty(f.product), Clause(ProductCondition, [Str(Given(f.product))]));
    var m := Piece(f.thisMonth, Clause(MonthCondition, []));
    var w := Piece(f.thisWeek, Clause(WeekCondition, []));
    PieceConditions(NonEmpty(f.search), SearchClause(Given(f.search)));
    PieceConditions(NonEmpty(f.status), Clause(StatusCondition, [Str(Given(f.status))]));
    PieceConditions(NonEmpty(f.inquiryType), Clause(TypeCondition, [Str(Given(f.inquiryType))]));
    PieceConditions(NonEmpty(f.product), Clause(ProductCondition, [Str(Given(f.product))]));
    PieceConditions(f.thisMonth, Clause(MonthCondition, []));
    PieceConditions(f.thisWeek, Clause(WeekCondition, []));
    ConditionsOfAppend(s, a);
    ConditionsOfAppend(s + a, t);
    ConditionsOfAppend(s + a + t, p);
    ConditionsOfAppend(s + a + t + p, m);
    ConditionsOfAppend(s + a + t + p + m, w);
    calc {
      ConditionsOf(Clauses(f));
      ConditionsOf(s + a + t + p + m + w);
      ConditionsOf(s) + ConditionsOf(a) + ConditionsOf(t) + ConditionsOf(p) + ConditionsOf(m) + ConditionsOf(w);
    }
  }

  /** `findAll`: builds its statement step by step, as the source does. Running the statement
      is the database's business and is not modelled. */
  method FindAll(f: Filters) returns (st: Statement)
    ensures st == FindAllStatement(f)
    ensures WellFormed(st)
    ensures WhereKeyword in st.sql <==> AnyFilter(f)
    ensures |st.sql| >= |OrderBy| && st.sql[|st.sql| - |OrderBy|..] == OrderBy
  {
    var conditions, params := CollectConditions(f);
    var sql := AppendWhereAndOrder(Base, conditions, OrderBy);
    st := Statement(sql, params);
    FindAllWellFormed(f);
    FindAllWhereOnlyWithFilter(f);
    SelectEndsWithOrder(Base, conditions, OrderBy);
  }

  /** The first half of `findAll`: one condition (and its values) per present filter. */
  method CollectConditions(f: Filters) returns (conditions: seq<Fragment>, params: seq<Value>)
    ensures conditions == ConditionsOf(Clauses(f)) && params == ParamsOf(Clauses(f))
  {
    var search := SearchClause(Given(f.search));
    var status := Clause(StatusCondition, [Str(Given(f.status))]);
    var inquiryType := Clause(TypeCondition, [Str(Given(f.inquiryType))]);
    var product := Clause(ProductCondition, [Str(Given(f.product))]);
    conditions, params := PushWhen(NonEmpty(f.search), search, [], [], []);
    ghost var clauses := [] + Piece(NonEmpty(f.search), search);
    conditions, params := PushWhen(NonEmpty(f.status), status, conditions, params, clauses);
    clauses := clauses + Piece(NonEmpty(f.status), status);
    conditions, params := PushWhen(NonEmpty(f.inquiryType), inquiryType, conditions, params, clauses);
    clauses := clauses + Piece(NonEmpty(f.inquiryType), inquiryType);
    conditions, params := PushWhen(NonEmpty(f.product), product, conditions, params, clauses);
    clauses := clauses + Piece(NonEmpty(f.product), product);
    conditions, params := PushWhen(f.thisMonth, Clause(MonthCondition, []), conditions, params, clauses);
    clauses := clauses + Piece(f.thisMonth, Clause(MonthCondition, []));
    conditions, params := PushWhen(f.thisWeek, Clause(WeekCondition, []), conditions, params, clauses);
    clauses := clauses + Piece(f.thisWeek, Clause(WeekCondition, []));
    ClausesInSteps(f);
  }

  lemma ClausesInSteps(f: Filters)
    ensures Clauses(f)
            == [] + Piece(NonEmpty(f.search), SearchClause(Given(f.search)))
               + Piece(NonEmpty(f.status), Clause(StatusCondition, [Str(Given(f.status))]))
               + Piece(NonEmpty(f.inquiryType), Clause(TypeCondition, [Str(Given(f.inquiryType))]))
               + Piece(NonEmpty(f.product), Clause(ProductCondition, [Str(Given(f.product))]))
               + Piece(f.thisMonth, Clause(MonthCondition, []))
               + Piece(f.thisWeek, Clause(WeekCondition, []))
  {
  }

  // ---------------------------------------------------------------- reads

  /** `findById`: the row with that id, or `undefined` (`None`) when there is none. */
  function FindById(db: Database, id: int, fault: Option<string>): (r: Outcome<Option<Enquiry>>)
    reads db
    ensures fault.Some? ==> r == Threw(fault.value)
    ensures fault.None? ==> r.Ok? && (r.value.Some? <==> id in db.enquiries)
    ensures fault.None? && id in db.enquiries ==> r.value.value == db.enquiries[id]
  {
    if fault.Some? then Threw(fault.value)
    else if id in db.enquiries then Ok(Some(db.enquiries[id]))
    else Ok(None)
  }

  /** The rows a `WHERE status = ?` selects (the order of the result is not modelled). */
  function WithStatus(rows: map<int, Enquiry>, status: Value): (r: map<int, Enquiry>)
    ensures forall id :: id in r <==> id in rows && rows[id].status == status
    ensures forall id :: id in r ==> r[id] == rows[id]
  {
    map id | id in rows && rows[id].status == status :: rows[id]
  }

  /** `findByStatus`. */
  function FindByStatus(db: Database, status: Value, fault: Option<string>): (r: Outcome<map<int, Enquiry>>)
    reads db
    ensures fault.Some? ==> r == Threw(fault.value)
    ensures fault.None? ==> r.Ok? && forall id :: id in r.value <==> id in db.enquiries && db.enquiries[id].status == status
    ensures fault.None? ==> forall id :: id in r.value ==> r.value[id] == db.enquiries[id]
  {
    if fault.Some? then Threw(fault.value) else Ok(WithStatus(db.enquiries, status))
  }

  /** `getConverted`: `findByStatus` with the literal status `converted`. */
  function GetConverted(db: Database, fault: Option<string>): (r: Outcome<map<int, Enquiry>>)
    reads db
    ensures r == FindByStatus(db, Str("converted"), fault)
  {
    if fault.Some? then Threw(fault.value)
    else Ok(map id | id in db.enquiries && db.enquiries[id].status == Str("converted") :: db.enquiries[id])
  }

  /** Which instants fall in the current month (`MONTH` and `YEAR` equal those of `NOW()`)
      and in the current week (the `WEEK(…, 1)` week of the current `YEAR`, which is not
      the ISO week around New Year); the calendar itself is not modelled. */
  datatype Calendar = Calendar(inThisMonth: Time -> bool, inThisWeek: Time -> bool)

  /** `getThisMonth`. */
  function GetThisMonth(db: Database, cal: Calendar, fault: Option<string>): (r: Outcome<map<int, Enquiry>>)
    reads db
    ensures fault.Some? ==> r == Threw(fault.value)
    ensures fault.None? ==> r.Ok? && forall id :: id in r.value <==> id in db.enquiries && cal.inThisMonth(db.enquiries[id].createdAt)
    ensures fault.None? ==> forall id :: id in r.value ==> r.value[id] == db.enquiries[id]
  {
    if fault.Some? then Threw(fault.value)
    else Ok(map id | id in db.enquiries && cal.inThisMonth(db.enquiries[id].createdAt) :: db.enquiries[id])
  }

  /** `getThisWeek`. */
  function GetThisWeek(db: Database, cal: Calendar, fault: Option<string>): (r: Outcome<map<int, Enquiry>>)
    reads db
    ensures fault.Some? ==> r == Threw(fault.value)
    ensures fault.None? ==> r.Ok? && forall id :: id in r.value <==> id in db.enquiries && cal.inThisWeek(db.enquiries[id].createdAt)
    ensures fault.None? ==> forall id :: id in r.value ==> r.value[id] == db.enquiries[id]
  {
    if fault.Some? then Threw(fault.value)
    else Ok(map id | id in db.enquiries && cal.inThisWeek(db.enquiries[id].createdAt) :: db.enquiries[id])
  }

  // ---------------------------------------------------------------- dashboardStats

  datatype Stats = Stats(total: nat, thisMonth: nat, thisWeek: nat, converted: nat, pendingFollowup: nat)

  /** `SELECT COUNT(*) ... WHERE status = s`. */
  function CountStatus(rows: map<int, Enquiry>, s: string): nat
  {
    |set id | id in rows && rows[id].status == Str(s)|
  }

  /** The five counts, each a scan of the whole table. */
  function DashboardCounts(rows: map<int, Enquiry>, cal: Calendar): Stats
  {
    Stats(
      |rows|,
      |set id | id in rows && cal.inThisMonth(rows[id].createdAt)|,
      |set id | id in rows && cal.inThisWeek(rows[id].createdAt)|,
      CountStatus(rows, "converted"),
      |set id | id in rows && (rows[id].status == Str("pending") || rows[id].status == Str("followup"))|)
  }

  /** `dashboardStats`: every count is the size of the listing that selects the same rows. */
  function DashboardStats(db: Database, cal: Calendar, fault: Option<string>): (r: Outcome<Stats>)
    reads db
    ensures fault.Some? ==> r == Threw(fault.value)
    ensures fault.None? ==> r.Ok? && r.value.total == |db.enquiries|
    ensures fault.None? ==> r.value.thisMonth == |GetThisMonth(db, cal, None).value|
    ensures fault.None? ==> r.value.thisWeek == |GetThisWeek(db, cal, None).value|
    ensures fault.None? ==> r.value.converted == |GetConverted(db, None).value|
    ensures fault.None? ==> r.value.pendingFollowup == |FindByStatus(db, Str("pending"), None).value|
                                                       + |FindByStatus(db, Str("followup"), None).value|
  {
    if fault.Some? then Threw(fault.value)
    else
      CalendarCountsAreListingSizes(db, cal);
      ConvertedCountIsListingSize(db, cal);
      PendingFollowupSplit(db.enquiries, cal);
      StatusCountIsListingSize(db, "pending");
      StatusCountIsListingSize(db, "followup");
      Ok(DashboardCounts(db.enquiries, cal))
  }

  /** The calendar counts are the sizes of the `getThisMonth` and `getThisWeek` listings. */
  lemma CalendarCountsAreListingSizes(db: Database, cal: Calendar)
    ensures GetThisMonth(db, cal, None).Ok? && GetThisWeek(db, cal, None).Ok?
    ensures DashboardCounts(db.enquiries, cal).thisMonth == |GetThisMonth(db, cal, None).value|
    ensures DashboardCounts(db.enquiries, cal).thisWeek == |GetThisWeek(db, cal, None).value|
  {
    assert GetThisMonth(db, cal, None).value.Keys == set id | id in db.enquiries && cal.inThisMonth(db.enquiries[id].createdAt);
    assert GetThisWeek(db, cal, None).value.Keys == set id | id in db.enquiries && cal.inThisWeek(db.enquiries[id].createdAt);
  }

  /** A status count is the size of the `findByStatus` listing for that status. */
  lemma StatusCountIsListingSize(db: Database, s: string)
    ensures FindByStatus(db, Str(s), None).Ok?
    ensures CountStatus(db.enquiries, s) == |FindByStatus(db, Str(s), None).value|
  {
    assert FindByStatus(db, Str(s), None).value.Keys == set id | id in db.enquiries && db.enquiries[id].status == Str(s);
  }

  /** `pendingFollowup` counts the pending rows plus the followup rows. */
  lemma PendingFollowupSplit(rows: map<int, Enquiry>, cal: Calendar)
    ensures DashboardCounts(rows, cal).pendingFollowup == CountStatus(rows, "pending") + CountStatus(rows, "followup")
  {
    var p := set id | id in rows && rows[id].status == Str("pending");
    var q := set id | id in rows && rows[id].status == Str("followup");
    var pq := set id | id in rows && (rows[id].status == Str("pending") || rows[id].status == Str("followup"));
    assert pq == p + q;
    assert p * q == {};
  }

  /** The dashboard's `converted` count is the size of the `getConverted` listing. */
  lemma ConvertedCountIsListingSize(db: Database, cal: Calendar)
    ensures GetConverted(db, None).Ok?
    ensures DashboardCounts(db.enquiries, cal).converted == |GetConverted(db, None).value|
  {
    var listing := GetConverted(db, None).value;
    assert listing.Keys == set id | id in db.enquiries && db.enquiries[id].status == Str("converted");
  }

  /** `total` bounds every other count. */
  lemma TotalBoundsCounts(rows: map<int, Enquiry>, cal: Calendar)
    ensures var s := DashboardCounts(rows, cal);
            s.thisMonth <= s.total && s.thisWeek <= s.total && s.converted <= s.total && s.pendingFollowup <= s.total
  {
    var s := DashboardCounts(rows, cal);
    assert |rows| == |rows.Keys|;
    var m := set id | id in rows && cal.inThisMonth(rows[id].createdAt);
    var w := set id | id in rows && cal.inThisWeek(rows[id].createdAt);
    var c := set id | id in rows && rows[id].status == Str("converted");
    var pf := set id | id in rows && (rows[id].status == Str("pending") || rows[id].status == Str("followup"));
    assert m <= rows.Keys && w <= rows.Keys && c <= rows.Keys && pf <= rows.Keys;
    SubsetSize(m, rows.Keys);
    SubsetSize(w, rows.Keys);
    SubsetSize(c, rows.Keys);
    SubsetSize(pf, rows.Keys);
  }

  lemma SubsetSize(a: set<int>, b: set<int>)
    requires a <= b
    ensures |a| <= |b|
  {
    assert b == a + (b - a);
  }

  // ---------------------------------------------------------------- updates

  /** A row after one UPDATE: the columns its SET list names change, every other column
      keeps its value, and `updated_at` is stamped. */
  function Apply(e: Enquiry, c: Change, now: Time): (r: Enquiry)
    ensures r.updatedAt == Some(now) && r.createdAt == e.createdAt
    ensures c.Overwrite? ==> r == e.(name := c.data.name, phone := c.data.phone, location := c.data.location,
                                     message := c.data.message, inquiryType := c.data.inquiryType,
                                     product := c.data.product, quantity := c.data.quantity,
                                     status := c.data.status, updatedAt := Some(now))
    ensures c.SetStatus? ==> r == e.(status := c.status, updatedAt := Some(now))
    ensures c.Contacted? ==> r == e.(contactedAt := Some(now), updatedAt := Some(now))
    ensures c.PickupScheduled? ==> r == e.(scheduledPickupAt := Some(now), updatedAt := Some(now))
  {
    match c
    case Overwrite(d) =>
      Enquiry(d.name, d.phone, d.location, d.message, d.inquiryType, d.product, d.quantity, d.status,
              e.createdAt, Some(now), e.contactedAt, e.scheduledPickupAt)
    case SetStatus(s) =>
      Enquiry(e.name, e.phone, e.location, e.message, e.inquiryType, e.product, e.quantity, s,
              e.createdAt, Some(now), e.contactedAt, e.scheduledPickupAt)
    case Contacted =>
      Enquiry(e.name, e.phone, e.location, e.message, e.inquiryType, e.product, e.quantity, e.status,
              e.createdAt, Some(now), Some(now), e.scheduledPickupAt)
    case PickupScheduled =>
      Enquiry(e.name, e.phone, e.location, e.message, e.inquiryType, e.product, e.quantity, e.status,
              e.createdAt, Some(now), e.contactedAt, Some(now))
  }

  /** `UPDATE enquiries SET ... WHERE id = ?`: the row with that id, if there is one, gets
      `Apply`; no other row changes. */
  function Updated(rows: map<int, Enquiry>, id: int, c: Change, now: Time): map<int, Enquiry>
  {
    UpdateRow(rows, id, (e: Enquiry) => Apply(e, c, now))
  }

  /** Runs one UPDATE statement. */
  method RunUpdate(db: Database, id: int, c: Change, now: Time, fault: Option<string>) returns (r: Outcome<()>)
    requires db.Valid()
    modifies db
    ensures db.Valid() && db.pickups == old(db.pickups)
    ensures fault.Some? ==> r == Threw(fault.value) && db.enquiries == old(db.enquiries)
    ensures fault.None? ==> r == Ok(()) && db.enquiries == Updated(old(db.enquiries), id, c, now)
  {
    if fault.Some? {
      return Threw(fault.value);
    }
    db.enquiries := Updated(db.enquiries, id, c, now);
    r := Ok(());
  }

  /** `update`: overwrites all eight columns from `data`; a property `data` lacks is
      written as `undefined`, not preserved. */
  method Update(db: Database, id: int, data: EnquiryData, now: Time, fault: Option<string>) returns (r: Outcome<()>)
    requires db.Valid()
    modifies db
    ensures db.Valid() && db.pickups == old(db.pickups)
    ensures fault.Some? ==> r == Threw(fault.value) && db.enquiries == old(db.enquiries)
    ensures fault.None? ==> r == Ok(()) && db.enquiries == Updated(old(db.enquiries), id, Overwrite(data), now)
  {
    r := RunUpdate(db, id, Overwrite(data), now, fault);
  }

  /** `updateStatus`: any value is accepted. */
  method UpdateStatus(db: Database, id: int, status: Value, now: Time, fault: Option<string>) returns (r: Outcome<()>)
    requires db.Valid()
    modifies db
    ensures db.Valid() && db.pickups == old(db.pickups)
    ensures fault.Some? ==> r == Threw(fault.value) && db.enquiries == old(db.enquiries)
    ensures fault.None? ==> r == Ok(()) && db.enquiries == Updated(old(db.enquiries), id, SetStatus(status), now)
  {
    r := RunUpdate(db, id, SetStatus(status), now, fault);
  }

  /** `markContacted`. */
  method MarkContacted(db: Database, id: int, now: Time, fault: Option<string>) returns (r: Outcome<()>)
    requires db.Valid()
    modifies db
    ensures db.Valid() && db.pickups == old(db.pickups)
    ensures fault.Some? ==> r == Threw(fault.value) && db.enquiries == old(db.enquiries)
    ensures fault.None? ==> r == Ok(()) && db.enquiries == Updated(old(db.enquiries), id, Contacted, now)
  {
    r := RunUpdate(db, id, Contacted, now, fault);
  }

  /** `schedulePickup`. */
  method SchedulePickup(db: Database, id: int, now: Time, fault: Option<string>) returns (r: Outcome<()>)
    requires db.Valid()
    modifies db
    ensures db.Valid() && db.pickups == old(db.pickups)
    ensures fault.Some? ==> r == Threw(fault.value) && db.enquiries == old(db.enquiries)
    ensures fault.None? ==> r == Ok(()) && db.enquiries == Updated(old(db.enquiries), id, PickupScheduled, now)
  {
    r := RunUpdate(db, id, PickupScheduled, now, fault);
  }

  /** `delete`: removes the row with that id, if any; no pickup is touched (no cascade). */
  method Delete(db: Database, id: int, fault: Option<string>) returns (r: Outcome<()>)
    requires db.Valid()
    modifies db
    ensures db.Valid() && db.pickups == old(db.pickups)
    ensures fault.Some? ==> r == Threw(fault.value) && db.enquiries == old(db.enquiries)
    ensures fault.None? ==> r == Ok(()) && db.enquiries == old(db.enquiries) - {id}
  {
    if fault.Some? {
      return Threw(fault.value);
    }
    db.enquiries := db.enquiries - {id};
    r := Ok(());
  }
}
