/**
  The relational state the reservation handler reads and writes: the `users`, `room`, `booking`,
  `invoice`, `payment` and `transaction` tables, as an immutable value so that a rollback is
  simply "keep the value from before the unit of work".
 */
module Store {
  import opened Basics

  /** A table whose primary key is an AUTO_INCREMENT column: `next` is the id the next insert receives. */
  datatype Table<R> = Table(rows: map<int, R>, next: int) {

    /** Every stored id was handed out by an earlier insert: ids start at 1 and stay below the counter. */
    predicate Valid() {
      1 <= next && forall id :: id in rows ==> 1 <= id < next
    }
  }

  /** `INSERT` followed by `insert_id`: the new row is stored under a fresh positive id, every old row is kept. */
  function Insert<R>(t: Table<R>, row: R): (res: (Table<R>, int))
    ensures res.0.rows == t.rows[res.1 := row]
    ensures t.Valid() ==> res.0.Valid() && 1 <= res.1 && res.1 !in t.rows
  {
    (Table(t.rows[t.next := row], t.next + 1), t.next)
  }

  /** A `users` row (customers and admins share the table, told apart by `roleId`). */
  datatype User = User(roleId: int, name: string, email: string, phone: string, password: string)

  /** A `room` row; the price is in the smallest currency unit. */
  datatype Room = Room(typeId: int, number: string, price: int, status: string)

  /** A `booking` row; dates are day numbers, `bookedAt` the opaque value of `NOW()`. */
  datatype Booking = Booking(userId: int, roomId: int, bookedAt: int, checkin: int, checkout: int,
                             paymentStatus: string, amount: int)

  /** An `invoice` row; `issuedOn` is the opaque value of `CURDATE()`. */
  datatype Invoice = Invoice(userId: int, bookingId: int, issuedOn: int, paymentStatus: string)

  /** A `payment` row; the method column is NULL when the form sent none. */
  datatype Payment = Payment(bookingId: int, userId: int, invoiceId: int, paymentMethod: Option<string>)

  /** A `transaction` row: the admin who approved the booking. */
  datatype Transaction = Transaction(userId: int, bookingId: int, paymentId: int, approvedBy: int)

  /** The database. Rooms are never inserted by the core, so they are a plain map from id to row. */
  datatype Db = Db(users: Table<User>, rooms: map<int, Room>, bookings: Table<Booking>,
                   invoices: Table<Invoice>, payments: Table<Payment>, transactions: Table<Transaction>)
  {
    predicate Valid() {
      users.Valid() && bookings.Valid() && invoices.Valid() && payments.Valid() && transactions.Valid()
    }
  }

  const BookedStatus := "booked"

  /**
    `UPDATE room SET room_status='booked' WHERE id=?`: the named room, whatever its status was, becomes
    booked and keeps its other columns; every other room is untouched; no row appears or disappears
    (an id that matches no row changes nothing).
   */
  function MarkBooked(rooms: map<int, Room>, id: int): (r: map<int, Room>)
    ensures r.Keys == rooms.Keys
    ensures id in rooms ==> r[id] == rooms[id].(status := BookedStatus)
    ensures forall k :: k in rooms && k != id ==> r[k] == rooms[k]
  {
    if id in rooms then rooms[id := rooms[id].(status := BookedStatus)] else rooms
  }
}
