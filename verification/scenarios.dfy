/**
  Concrete requests run through the model. Dates are day numbers counted from 1970-01-01
  (2024-01-01 is day 19723) and prices are in cents.
 */
module Scenarios {
  import opened Basics
  import PhpText
  import opened Store
  import opened Reservation
  import opened ReservationFacts

  const Jan1 := 19723
  const Jan4 := 19726

  function EmptyTable<R>(): Table<R> {
    Table(map[], 1)
  }

  /** A database holding two rooms — room 3 at 100.00 and room 9 at 50.00 — and nothing else. */
  function TwoRooms(): (db: Db)
    ensures db.Valid()
  {
    Db(EmptyTable(),
       map[3 := Room(1, "103", 10000, "available"), 9 := Room(2, "109", 5000, "available")],
       EmptyTable(), EmptyTable(), EmptyTable(), EmptyTable())
  }

  const Clock := Env(1704200000, Jan1, 2)

  /** Existing customer 5 books room 3 from 2024-01-01 to 2024-01-04 by card, approved by admin 1. */
  const CardBooking := Request("existing", 1, 3, Day(Jan1), Day(Jan4), Some("Card"), 5, "", "", "", "")

  /** Three nights at 100.00 cost 300.00; one row per chained table, all for customer 5; room 3 becomes booked. */
  lemma CardBookingSucceeds()
    ensures var r := CreateReservation(TwoRooms(), CardBooking, Clock, None);
      && r.outcome.Created?
      && r.outcome.receipt.nights == 3
      && r.outcome.receipt.amount == 30000
      && |r.db.bookings.rows| == |r.db.invoices.rows| == |r.db.payments.rows| == |r.db.transactions.rows| == 1
      && r.db.rooms[3].status == "booked"
      && r.db.rooms[9] == TwoRooms().rooms[9]
      && r.db.users == TwoRooms().users
  {
    var r := CreateReservation(TwoRooms(), CardBooking, Clock, None);
    assert ChainWritten(TwoRooms(), r.db, CardBooking, Clock, r.outcome.receipt);
    assert r.db.bookings.rows.Keys == {r.outcome.receipt.bookingId};
    assert r.db.invoices.rows.Keys == {r.outcome.receipt.invoiceId};
    assert r.db.payments.rows.Keys == {r.outcome.receipt.paymentId};
    assert r.db.transactions.rows.Keys == {r.outcome.receipt.transactionId};
  }

  /** The same booking with the payment insert failing, after the booking and invoice were written. */
  lemma FailureAfterInvoiceLeavesNothing()
    ensures CreateReservation(TwoRooms(), CardBooking, Clock, Some(InsertPayment))
            == Response(TwoRooms(), Failed(StorageFailure(InsertPayment)))
  {
    InjectedFailure(TwoRooms(), CardBooking, Clock, InsertPayment);
  }

  /** A new customer asking for room 9 with check-out on the check-in day. */
  const SameDayNewCustomer := Request("new", 1, 9, Day(Jan1), Day(Jan1), Some("Cash"), 0, "A", "a@x.com", "", "p")

  /** Refused for zero nights, and the customer inserted before the check is rolled back. */
  lemma SameDayNewCustomerRolledBack()
    ensures var r := CreateReservation(TwoRooms(), SameDayNewCustomer, Clock, None);
      && r.outcome == Failed(ZeroNights)
      && r.db.users.rows == map[]
  {
    var req := SameDayNewCustomer;
    assert !PhpText.IsBlank(req.name) by { assert req.name[0] == 'A'; }
    assert !PhpText.IsBlank(req.email) by { assert req.email[0] == 'a'; }
    assert !PhpText.IsBlank(req.password) by { assert req.password[0] == 'p'; }
    SameDayRejected(TwoRooms(), req, Clock, None);
  }

  /** A check-out three days before the check-in still books, for three nights. */
  lemma BackwardsStayBooks()
    ensures var r := CreateReservation(TwoRooms(), CardBooking.(checkin := Day(Jan4), checkout := Day(Jan1)), Clock, None);
      r.outcome.Created? && r.outcome.receipt.nights == 3
  {
  }
}
