/**
  The database the two models share, as an in-memory store: the `enquiries` and
  `pickup_requests` tables as maps from row id to row, with the AUTO_INCREMENT
  counter of each table. Cells hold the JavaScript value bound to them; a column an
  INSERT does not name starts as `NULL`: `None` for a timestamp, `Null` for any other cell.
 */
module Db {
  import opened Js

  /** An instant, as `NOW()` or `new Date()` reads it. */
  type Time = int

  /** A row of `enquiries`. */
  datatype Enquiry = Enquiry(
    name: Value,
    phone: Value,
    location: Value,
    message: Value,
    inquiryType: Value,
    product: Value,
    quantity: Value,
    status: Value,
    createdAt: Time,
    updatedAt: Option<Time>,
    contactedAt: Option<Time>,
    scheduledPickupAt: Option<Time>)

  /** A row of `pickup_requests`. */
  datatype Pickup = Pickup(
    enquiryId: int,
    customerName: Value,
    phone: Value,
    address: Value,
    product: Value,
    quantity: Value,
    assignedTo: Value,
    amount: Value,
    scheduledDate: Value,
    status: Value,
    collectedDate: Option<Time>,
    receivedDate: Option<Time>,
    receivedPhoto: Value,
    receivedNotes: Value,
    itemCondition: Value,
    updatedAt: Option<Time>)

  /** `UPDATE <table> SET ... WHERE id = ?`: the row with that id, if there is one, becomes
      `f` of itself; every other row, and the set of ids, stays as it was. */
  function UpdateRow<R>(rows: map<int, R>, id: int, f: R -> R): (r: map<int, R>)
    ensures r.Keys == rows.Keys
    ensures forall k :: k in rows && k != id ==> r[k] == rows[k]
    ensures id in rows ==> r[id] == f(rows[id])
  {
    if id in rows then rows[id := f(rows[id])] else rows
  }

  class Database {
    var enquiries: map<int, Enquiry>
    var pickups: map<int, Pickup>
    /** The id the next insert into each table receives (AUTO_INCREMENT). */
    var nextEnquiryId: int
    var nextPickupId: int

    /** Every id in use was handed out earlier by the table's counter. */
    ghost predicate Valid()
      reads this
    {
      && 0 < nextEnquiryId
      && 0 < nextPickupId
      && (forall id :: id in enquiries ==> 0 < id < nextEnquiryId)
      && (forall id :: id in pickups ==> 0 < id < nextPickupId)
    }

    constructor ()
      ensures Valid()
      ensures enquiries == map[] && pickups == map[]
    {
      enquiries, pickups := map[], map[];
      nextEnquiryId, nextPickupId := 1, 1;
    }

    /** INSERT INTO enquiries: the row gets a fresh id, which `insertId` reports. */
    method InsertEnquiry(row: Enquiry) returns (id: int)
      requires Valid()
      modifies this
      ensures Valid()
      ensures id > 0 && id !in old(enquiries)
      ensures enquiries == old(enquiries)[id := row]
      ensures pickups == old(pickups)
    {
      id := nextEnquiryId;
      enquiries := enquiries[id := row];
      nextEnquiryId := nextEnquiryId + 1;
    }

    /** INSERT INTO pickup_requests: the row gets a fresh id, which `insertId` reports. */
    method InsertPickup(row: Pickup) returns (id: int)
      requires Valid()
      modifies this
      ensures Valid()
      ensures id > 0 && id !in old(pickups)
      ensures pickups == old(pickups)[id := row]
      ensures enquiries == old(enquiries)
    {
      id := nextPickupId;
      pickups := pickups[id := row];
      nextPickupId := nextPickupId + 1;
    }
  }
}
