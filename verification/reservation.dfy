/**
  The reservation-creation handler: the POST branch that validates the wizard's selections, resolves
  or creates the customer, prices the stay from the stored room rate, and writes the chain
  booking -> invoice -> payment -> transaction before marking the room booked, all inside one
  database transaction that is rolled back on any exception.

  The handler is modelled as a pure function from the database before the request to the database
  after it. Every SQL statement it issues is a `Step`; `failAt` names the one statement (if any) whose
  execution throws, standing for a constraint violation or any other driver error.
 */
module Reservation {
  import opened Basics
  import opened PhpText
  import opened Store

  /**
    A check-in or check-out field. `Blank` is a field that is absent or falsy in PHP (`""` or `"0"`),
    `Malformed` one that the `DateTime` constructor rejects with an exception, and `Day` a date that
    parses, as a day number.
   */
  datatype DateInput = Blank | Malformed | Day(day: int)

  /**
    The posted form after PHP's coercions: absent integer fields are 0, an absent mode is "existing",
    absent customer fields are "" and an absent payment method is `None` (NULL).
   */
  datatype Request = Request(
    mode: string,
    adminId: int,
    roomId: int,
    checkin: DateInput,
    checkout: DateInput,
    paymentMethod: Option<string>,
    userId: int,
    name: string,
    email: string,
    phone: string,
    password: string)

  /** What the handler takes from its surroundings: `NOW()`, `CURDATE()` and the id of the 'customer' role. */
  datatype Env = Env(now: int, today: int, customerRoleId: int)

  /** The SQL statements the handler issues after passing the selection checks, in the order it issues them. */
  datatype Step =
    | Begin | InsertCustomer | SelectRoom | InsertBooking | InsertInvoice
    | InsertPayment | InsertTransaction | UpdateRoom | Commit

  /** Every exception the handler's `try` block can raise. */
  datatype Error =
    | NoAdmin                 // no approving admin selected
    | NoRoom                  // no room selected
    | NoDates                 // check-in or check-out missing
    | MissingCustomerFields   // new customer without name, email or password
    | NoExistingCustomer      // existing mode without a customer id
    | UnreadableDate          // a date string `DateTime` cannot parse
    | ZeroNights              // check-in and check-out on the same day
    | RoomNotFound            // no room row with the selected id
    | StorageFailure(failed: Step)

  /** A value or the exception that interrupted the computation. */
  datatype Result<T> = Ok(value: T) | Err(error: Error) {
    predicate IsFailure() { Err? }

    function PropagateFailure<U>(): Result<U>
      requires Err?
    {
      Err(error)
    }

    function Extract(): T
      requires Ok?
    {
      value
    }
  }

  /** Everything a successful request produced: the ids the handler obtained and the priced stay. */
  datatype Receipt = Receipt(userId: int, bookingId: int, invoiceId: int, paymentId: int, transactionId: int,
                             nights: nat, amount: int)

  datatype Outcome = Created(receipt: Receipt) | Failed(error: Error)

  /** The database after the request, and what the handler reports. */
  datatype Response = Response(db: Db, outcome: Outcome)

  const PendingStatus := "pending"
  const UnpaidStatus := "unpaid"

  /** Only the exact mode "new" creates a customer; any other value selects an existing one. */
  predicate IsNewMode(mode: string) {
    mode == "new"
  }

  /** Issuing one statement: it throws exactly when it is the injected failure. */
  function Execute(failAt: Option<Step>, s: Step): Result<()> {
    if failAt == Some(s) then Err(StorageFailure(s)) else Ok(())
  }

  /**
    Step 1 of the handler: a new customer is inserted with trimmed fields, after checking that name,
    email and password are not blank (the phone may be); any other mode takes the posted id, which
    must be non-zero but is never looked up. Only the `users` table can change.
   */
  function ResolveCustomer(db: Db, req: Request, roleId: int, failAt: Option<Step>): (r: Result<(Db, int)>)
    ensures r.Err? <==>
      if IsNewMode(req.mode) then
        IsBlank(req.name) || IsBlank(req.email) || IsBlank(req.password) || failAt == Some(InsertCustomer)
      else
        req.userId == 0
    ensures r.Err? ==> r.error in {MissingCustomerFields, NoExistingCustomer, StorageFailure(InsertCustomer)}
    ensures r.Err? && IsNewMode(req.mode) && (IsBlank(req.name) || IsBlank(req.email) || IsBlank(req.password))
            ==> r.error == MissingCustomerFields
    ensures r.Err? && IsNewMode(req.mode) && !IsBlank(req.name) && !IsBlank(req.email) && !IsBlank(req.password)
            ==> r.error == StorageFailure(InsertCustomer)
    ensures r.Err? && !IsNewMode(req.mode) ==> r.error == NoExistingCustomer
    ensures r.Ok? ==> r.value.0 == db.(users := r.value.0.users)
    ensures r.Ok? && IsNewMode(req.mode) && db.users.Valid() ==>
      && r.value.0.users.Valid()
      && r.value.1 !in db.users.rows
      && r.value.0.users.rows ==
           db.users.rows[r.value.1 := User(roleId, Trim(req.name), Trim(req.email), Trim(req.phone), Trim(req.password))]
    ensures r.Ok? && !IsNewMode(req.mode) ==> r.value == (db, req.userId)
  {
    if IsNewMode(req.mode) then
      var name := Trim(req.name);
      var email := Trim(req.email);
      var phone := Trim(req.phone);
      var password := Trim(req.password);
      if name == "" || email == "" || password == "" then
        Err(MissingCustomerFields)
      else
        var _ :- Execute(failAt, InsertCustomer);
        var (users, id) := Insert(db.users, User(roleId, name, email, phone, password));
        Ok((db.(users := users), id))
    else if req.userId == 0 then
      Err(NoExistingCustomer)
    else
      Ok((db, req.userId))
  }

  /** `new DateTime($s)` on a field already known not to be blank. */
  function ParseDate(d: DateInput): Result<int>
    requires !d.Blank?
  {
    match d
    case Day(n) => Ok(n)
    case Malformed => Err(UnreadableDate)
  }

  /** `$d1->diff($d2)->format('%a')`: the whole days between two dates, counted without regard to order. */
  function DayCount(checkin: int, checkout: int): nat {
    if checkout >= checkin then checkout - checkin else checkin - checkout
  }

  /**
    The nights of a stay. Only a zero count is rejected, so a check-out before the check-in is accepted
    and priced by the distance between the two days.
   */
  function StayNights(checkin: int, checkout: int): (r: Result<nat>)
    ensures r.Ok? <==> checkin != checkout
    ensures r.Ok? ==> 1 <= r.value && (r.value == checkout - checkin || r.value == checkin - checkout)
    ensures r.Err? ==> r.error == ZeroNights
  {
    var nights := DayCount(checkin, checkout);
    if nights <= 0 then Err(ZeroNights) else Ok(nights)
  }

  /** `SELECT room_price FROM room WHERE id=?`: the stored rate, the only price the handler trusts. */
  function LookupPrice(db: Db, roomId: int, failAt: Option<Step>): (r: Result<int>)
    ensures r.Ok? <==> failAt != Some(SelectRoom) && roomId in db.rooms
    ensures r.Ok? ==> r.value == db.rooms[roomId].price
    ensures r.Err? ==> r.error == if failAt == Some(SelectRoom) then StorageFailure(SelectRoom) else RoomNotFound
  {
    var _ :- Execute(failAt, SelectRoom);
    if roomId in db.rooms then Ok(db.rooms[roomId].price) else Err(RoomNotFound)
  }

  /** `id` is a fresh key of `t` and `t'` is `t` with one row stored under it. */
  ghost predicate Appended<R>(t: Table<R>, t': Table<R>, id: int, row: R) {
    id !in t.rows && t'.rows == t.rows[id := row]
  }

  /**
    Steps 3 to 7 and the commit: booking, invoice, payment and transaction rows, each referring to the
    ones before it, then the room marked booked. Users are not touched.
   */
  function WriteChain(db: Db, req: Request, env: Env, userId: int, checkin: int, checkout: int,
                      nights: nat, amount: int, failAt: Option<Step>): (r: Result<(Db, Receipt)>)
    ensures r.Err? <==> failAt in {Some(InsertBooking), Some(InsertInvoice), Some(InsertPayment),
                                   Some(InsertTransaction), Some(UpdateRoom), Some(Commit)}
    ensures r.Err? ==> r.error == StorageFailure(failAt.value)
    ensures r.Ok? ==>
      var (db', rc) := r.value;
      && db'.users == db.users
      && rc.userId == userId && rc.nights == nights && rc.amount == amount
      && db'.rooms == MarkBooked(db.rooms, req.roomId)
      && (db.Valid() ==>
           && db'.Valid()
           && Appended(db.bookings, db'.bookings, rc.bookingId,
                       Booking(userId, req.roomId, env.now, checkin, checkout, PendingStatus, amount))
           && Appended(db.invoices, db'.invoices, rc.invoiceId,
                       Invoice(userId, rc.bookingId, env.today, UnpaidStatus))
           && Appended(db.payments, db'.payments, rc.paymentId,
                       Payment(rc.bookingId, userId, rc.invoiceId, req.paymentMethod))
           && Appended(db.transactions, db'.transactions, rc.transactionId,
                       Transaction(userId, rc.bookingId, rc.paymentId, req.adminId)))
  {
    var _ :- Execute(failAt, InsertBooking);
    var (bookings, bookingId) :=
      Insert(db.bookings, Booking(userId, req.roomId, env.now, checkin, checkout, PendingStatus, amount));
    var _ :- Execute(failAt, InsertInvoice);
    var (invoices, invoiceId) := Insert(db.invoices, Invoice(userId, bookingId, env.today, UnpaidStatus));
    var _ :- Execute(failAt, InsertPayment);
    var (payments, paymentId) := Insert(db.payments, Payment(bookingId, userId, invoiceId, req.paymentMethod));
    var _ :- Execute(failAt, InsertTransaction);
    var (transactions, transactionId) :=
      Insert(db.transactions, Transaction(userId, bookingId, paymentId, req.adminId));
    var _ :- Execute(failAt, UpdateRoom);
    var rooms := MarkBooked(db.rooms, req.roomId);
    var _ :- Execute(failAt, Commit);
    Ok((Db(db.users, rooms, bookings, invoices, payments, transactions),
        Receipt(userId, bookingId, invoiceId, paymentId, transactionId, nights, amount)))
  }

  /**
    The body of the `try` block, without the rollback: the selection checks in their fixed order, then
    (inside the transaction) the customer, both dates, the nights, the room rate and the written chain.
   */
  function Run(db: Db, req: Request, env: Env, failAt: Option<Step>): Result<(Db, Receipt)> {
    if req.adminId == 0 then Err(NoAdmin)
    else if req.roomId == 0 then Err(NoRoom)
    else if req.checkin.Blank? || req.checkout.Blank? then Err(NoDates)
    else
      var _ :- Execute(failAt, Begin);
      var customer :- ResolveCustomer(db, req, env.customerRoleId, failAt);
      var checkin :- ParseDate(req.checkin);
      var checkout :- ParseDate(req.checkout);
      var nights :- StayNights(checkin, checkout);
      var price :- LookupPrice(customer.0, req.roomId, failAt);
      WriteChain(customer.0, req, env, customer.1, checkin, checkout, nights, nights * price, failAt)
  }

  /**
    What a successful request leaves behind, relative to the database `db` it started from: the customer
    resolved, exactly one new row in each of booking, invoice, payment and transaction, all for the same
    customer and chained by their ids, the amount priced from the stored rate, and only the selected room
    changed, to 'booked'.
   */
  ghost predicate ChainWritten(db: Db, db': Db, req: Request, env: Env, rc: Receipt) {
    && req.checkin.Day? && req.checkout.Day? && req.roomId in db.rooms
    && 1 <= rc.nights
    && (rc.nights == req.checkout.day - req.checkin.day || rc.nights == req.checkin.day - req.checkout.day)
    && rc.amount == rc.nights * db.rooms[req.roomId].price
    && (if IsNewMode(req.mode) then
          Appended(db.users, db'.users, rc.userId,
                   User(env.customerRoleId, Trim(req.name), Trim(req.email), Trim(req.phone), Trim(req.password)))
        else
          db'.users == db.users && rc.userId == req.userId && rc.userId != 0)
    && Appended(db.bookings, db'.bookings, rc.bookingId,
                Booking(rc.userId, req.roomId, env.now, req.checkin.day, req.checkout.day, PendingStatus, rc.amount))
    && Appended(db.invoices, db'.invoices, rc.invoiceId, Invoice(rc.userId, rc.bookingId, env.today, UnpaidStatus))
    && Appended(db.payments, db'.payments, rc.paymentId,
                Payment(rc.bookingId, rc.userId, rc.invoiceId, req.paymentMethod))
    && Appended(db.transactions, db'.transactions, rc.transactionId,
                Transaction(rc.userId, rc.bookingId, rc.paymentId, req.adminId))
    && db'.rooms.Keys == db.rooms.Keys
    && db'.rooms[req.roomId] == db.rooms[req.roomId].(status := BookedStatus)
    && (forall k :: k in db.rooms && k != req.roomId ==> db'.rooms[k] == db.rooms[k])
  }

  /**
    The whole handler: `commit()` keeps the written database, the `catch` block's `rollback()` returns
    the database as it was before the request, whatever had been written.
   */
  function CreateReservation(db: Db, req: Request, env: Env, failAt: Option<Step>): (r: Response)
    ensures r.outcome.Failed? ==> r.db == db
    ensures db.Valid() ==> r.db.Valid()
    ensures r.outcome.Created? && db.Valid() ==> ChainWritten(db, r.db, req, env, r.outcome.receipt)
  {
    match Run(db, req, env, failAt)
    case Ok((db', receipt)) => Response(db', Created(receipt))
    case Err(e) => Response(db, Failed(e))
  }
}
