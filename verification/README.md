# Hotel reservation creation, modelled in Dafny

This project models the reservation-creation handler of a small hotel booking site
(`chatgpt/reservation.php`, the POST branch at lines 27–120). An administrator submits a wizard form.
The handler then does the following:

1. It checks that an approving admin, a room and both dates were selected, in that order.
2. It opens a database transaction.
3. It creates a new customer from trimmed form fields, or takes the id of an existing one.
4. It counts the nights and rejects a zero-night stay.
5. It reads the room's stored price and computes the amount as nights × price.
6. It inserts a booking ('pending'), an invoice ('unpaid'), a payment and an approval transaction,
   each row referring to the ones before it.
7. It sets the room's status to 'booked' and commits.

Any exception on the way rolls the transaction back.

The model is functional. The database (`Store.Db`) is an immutable value holding the `users`, `room`,
`booking`, `invoice`, `payment` and `transaction` tables. Each table except `room` is a map from
AUTO_INCREMENT id to row, plus the next id. The handler is the pure function
`Reservation.CreateReservation(db, req, env, failAt)`, which returns the database after the request
and the outcome. Every SQL statement the handler issues is a `Step`. `failAt` names the one statement
(if any) that throws, which stands for a constraint violation or any other driver error. Rollback is
then plain equality: on every failure the returned database is the one passed in.

Modules:
- `Basics`: `Option`, used for absent form fields and NULL columns.
- `PhpText`: PHP's `trim()` with its default character list.
- `Store`: the tables, the rows, AUTO_INCREMENT insertion and the room status update.
- `Reservation`: the request, the errors, the handler's stages and the handler itself.
- `ReservationFacts`: properties that relate several calls. This includes exactly when a request
  succeeds, the order of the checks, and injected failures.
- `Scenarios`: concrete requests (a three-night card booking, a rolled-back new customer, a failure
  after the invoice insert, a backwards stay).

Modelling choices:
- Form fields arrive after PHP's coercions. Absent integers are 0, an absent mode is "existing",
  absent customer fields are "", and an absent payment method is `None` (stored as NULL).
- A date field is `Blank` (absent, `""` or `"0"`, the falsy strings), `Malformed` (the `DateTime`
  constructor throws) or `Day(n)`, a day number.
- Prices and amounts are integers in cents.
- `NOW()`, `CURDATE()` and the id of the 'customer' role (`get_role_id`, lines 7–16) come in as the
  `Env` record.
- A successful outcome is a `Receipt` that carries all generated ids. The handler's own message
  reports only the booking id, the nights and the amount.

Behaviour that the code's own text does not lead one to expect, modelled as the code does it:
- A check-out before the check-in is accepted. Line 64 takes the absolute day difference (`%a`), and
  line 65 rejects only a zero difference, although its own message says "Checkout must be after
  Check-in." (`ReversedDatesAccepted`, `BackwardsStayBooks`).
- The nights check at line 65 runs before the room SELECT at line 67, so a same-day stay is reported as
  zero nights even for a room that does not exist (`SameDayRejected`).
- In existing-customer mode, line 58 only requires the posted id to be non-zero. No statement looks the
  id up, so a booking can name a user that does not exist (`ExistingCustomerNotLookedUp`).
- Line 43 compares the mode with `=== 'new'`, so every other value, including a misspelling, takes the
  existing-customer branch.
- The payment method read at line 33 is bound unchanged at line 97. It is never validated, and an
  absent one is stored as NULL.

## Model

| member | source | states |
|---|---|---|
| Reservation.CreateReservation | chatgpt/reservation.php:27-120 | On every failure the database is the one from before the request: a rollback also undoes a customer inserted earlier. Table validity (fresh, increasing ids) is preserved. On success the full chain is written as `ChainWritten` describes: the customer resolved; exactly one new booking ('pending', amount = nights × stored price), invoice ('unpaid', for the booking), payment (booking, invoice, posted method) and transaction (booking, payment, approving admin), all for the same user; only the selected room changed, to 'booked', whatever its previous status. |
| ReservationFacts.RunMatchesFirstError | chatgpt/reservation.php:36-114 | The staged handler fails exactly when `FirstError` names an error, and with that error. `FirstError` is a flat decision list of the checks and failing statements, in the order the code reaches them. |
| ReservationFacts.OutcomeMatchesFirstError | chatgpt/reservation.php:35-119 | The reported outcome is a failure exactly when `FirstError` names an error. In that case the response is that error together with the pre-call database. |
| ReservationFacts.FirstErrorNoneIff | chatgpt/reservation.php:36-114 | `FirstError` names no error exactly when the request is admissible and none of the statements it issues fails. |
| ReservationFacts.CustomerStepIgnoresOtherFailures | chatgpt/reservation.php:43-59 | The customer step is unaffected by a failure injected into any statement other than the customer insert. |
| ReservationFacts.ChainIgnoresEarlierFailures | chatgpt/reservation.php:79-114 | The chain of writes is unaffected by a failure injected into BEGIN, the customer insert or the room SELECT. |
| ReservationFacts.SucceedsIff | chatgpt/reservation.php:36-114 | A request succeeds if and only if: admin and room are non-zero; both dates parse and differ; the customer fields pass (new mode: name, email and password not blank; otherwise a non-zero id); the room exists; and no statement the request issues fails. |
| ReservationFacts.SelectionsCheckedInOrder | chatgpt/reservation.php:36-38 | A zero admin id fails with the admin error, then a zero room id with the room error, then a blank date with the dates error. The database is unchanged, and the response does not depend on which statement would fail, so these failures happen before the transaction opens. |
| ReservationFacts.CustomerChecks | chatgpt/reservation.php:43-59 | Once the selections pass and BEGIN succeeds, the missing-fields error occurs exactly when new mode has a blank name, email or password. The missing-customer error occurs exactly when another mode has user id 0. No user is left behind. |
| ReservationFacts.PhoneNeverChecked | chatgpt/reservation.php:46-52 | The phone field never changes whether a request succeeds, or which error it fails with. |
| ReservationFacts.SameDayRejected | chatgpt/reservation.php:62-75 | With the customer resolved and equal dates, the result is the zero-nights error on the pre-call database. This holds even for a missing room and whatever later statement would fail. |
| ReservationFacts.ReversedDatesAccepted | chatgpt/reservation.php:62-65 | An otherwise admissible request with check-out before check-in succeeds, with nights = check-in − check-out. |
| ReservationFacts.MissingRoomRejected | chatgpt/reservation.php:67-74 | A room id with no row (and the SELECT succeeding) fails with room-not-found on the pre-call database. This happens after the nights check and before any booking insert, since no later statement's failure matters. |
| ReservationFacts.ExistingCustomerNotLookedUp | chatgpt/reservation.php:56-59 | An existing-mode id that no user has still yields a booking for that id. |
| ReservationFacts.InjectedFailure | chatgpt/reservation.php:40-117 | For an admissible request, a failing statement that the request issues aborts it with that storage failure and the pre-call database. A failing statement it never issues (the customer insert in existing mode) changes nothing. |
| Reservation.ResolveCustomer | chatgpt/reservation.php:43-59 | Fails if and only if: new mode with a blank name, email or password (the missing-fields error, line 49), or a failing insert (that storage failure, line 53); or another mode with id 0 (the missing-customer error, line 58). Blank fields take precedence over the insert. New mode appends one user row with trimmed fields under a fresh id. Other modes return the posted id and the database untouched. Only `users` changes. |
| Reservation.StayNights | chatgpt/reservation.php:64-65 | Fails with the zero-nights error exactly when the two days are equal. Otherwise nights ≥ 1 and nights is check-out − check-in or check-in − check-out. |
| Reservation.LookupPrice | chatgpt/reservation.php:67-75 | Succeeds exactly when the SELECT does not fail and the room exists, and then returns the stored price. Otherwise it fails with the storage failure or room-not-found. |
| Reservation.WriteChain | chatgpt/reservation.php:79-114 | Fails exactly when one of the four inserts, the update or the commit fails, with that statement's error. On success: the booking, invoice, payment and transaction rows are appended under fresh ids and refer to each other; the user is unchanged; the rooms are updated as `MarkBooked` says. |
| Store.Insert | chatgpt/reservation.php:51-54 | An insert keeps every old row and stores the new row under the returned id. On a valid table, that id is positive and fresh, and the table stays valid. |
| Store.MarkBooked | chatgpt/reservation.php:109-111 | The selected room gets status 'booked' and keeps its other columns. Every other room is unchanged, and no room appears or disappears. |
| PhpText.KeptStart | chatgpt/reservation.php:44-47 | The scan from `lo` stops at the first character that is not trimmable, or at the end; everything it passed is blank. |
| PhpText.KeptEnd | chatgpt/reservation.php:44-47 | The backward scan from `hi` stops after the last character at or after `lo` that is not trimmable, or at `lo`; everything it passed is blank. |
| PhpText.Trim | chatgpt/reservation.php:44-48 | The result is a contiguous slice of the input, with a blank prefix and a blank suffix cut off. Neither end of the result is trimmable. The result is empty exactly when the input is blank, which is the emptiness test at line 48. |
| PhpText.KeptStartUnique | chatgpt/reservation.php:44-47 | Any blank stretch that ends at a kept character, or at the end, is where the forward scan stops: the first kept position is unique. |
| PhpText.KeptEndUnique | chatgpt/reservation.php:44-47 | Any blank stretch that starts after a kept character, or at `lo`, is where the backward scan stops: the end of the kept text is unique. |
| PhpText.TrimIdempotent | chatgpt/reservation.php:44-47 | Trimming twice equals trimming once. |
| PhpText.TrimIgnoresPadding | chatgpt/reservation.php:44-47 | Blank text added on either side does not change the trimmed value. |
| PhpText.TrimPaddedKept | chatgpt/reservation.php:44-47 | For a non-blank string with blank text on either side, trimming keeps exactly the characters that trimming the string alone keeps. |
| PhpText.PaddedStart | chatgpt/reservation.php:44-47 | A blank prefix moves the first kept character by exactly its length. |
| PhpText.PaddedEnd | chatgpt/reservation.php:44-47 | A blank suffix does not move the end of the kept text, apart from the shift by the prefix. |
| Scenarios.CardBookingSucceeds | chatgpt/reservation.php:79-114 | Existing customer 5 books room 3 (100.00) for 2024-01-01 to 2024-01-04 by card. The result: 3 nights, amount 300.00, one row in each chained table, room 3 booked, room 9 and the users untouched. |
| Scenarios.FailureAfterInvoiceLeavesNothing | chatgpt/reservation.php:95-117 | When the payment insert fails after the booking and invoice were written, the whole database is rolled back. |
| Scenarios.SameDayNewCustomerRolledBack | chatgpt/reservation.php:43-65 | A new customer asking for a same-day stay gets the zero-nights error, and no user row remains. |
| Scenarios.BackwardsStayBooks | chatgpt/reservation.php:62-65 | A stay whose check-out is three days before its check-in is booked, for three nights. |

## Left out

- HTML rendering, the jQuery wizard and the client-side amount estimate (lines 122–356) are presentation only. The server recomputes the amount.
- The dropdown queries (lines 18–25) are plain SELECTs that fill the form. The role-id lookup (lines 7–16) becomes `Env.customerRoleId`. A missing 'customer' role (which would make it NULL) is not modelled.
- PHP's request coercions (`(int)` casts, `??` defaults, lines 28–33) are represented by the typed `Request`. Partially numeric strings are not modelled.
- `DateTime` parsing (lines 62–63) is modelled only by its outcome: a day number or an exception. Times of day within a date, time zones and relative formats are not modelled. Dates are stored as day numbers rather than the posted strings.
- Floating-point prices (`(float)$room_price`, line 77), the `d` binding of the amount and `number_format` (line 115) are left out. Prices are exact integers in cents, and the room price column is assumed non-NULL.
- The success and error message lines (115, 118) are not modelled as strings: an outcome is a `Receipt` or a `ReservationError`. The message texts of driver and `DateTime` exceptions are not modelled.
- Every failing statement is modelled as throwing, which is how mysqli reports errors once exception reporting is on (the default since PHP 8.1). The connection setup (config.php, line 3) is not part of this model. With reporting off, a failed `execute()` returns false, `insert_id` is 0 and the handler carries on, so a partial chain would be committed. Rollback as equality also assumes the tables are transactional (InnoDB).
- `Reservation.CreateReservation` restores AUTO_INCREMENT counters on rollback. InnoDB does not do this, so after a failed attempt the real ids of later rows can be larger. Only the values of future ids differ.
- Session and admin gating (others/auth.php) is not modelled: the handler is assumed to be reached by an admin. The connection bootstrap (others/config_db.php) is I/O.
- Concurrency between requests and double booking of a room are not modelled, because the code does not address them.
- Passwords are stored as posted after trimming, as in the code. Hashing is not part of it.
