/**
  Properties of the reservation handler that relate several calls or single out one path: the order of
  the checks, exactly when a request succeeds, and what an injected storage failure does.
 */
module ReservationFacts {
  import opened Basics
  import opened PhpText
  import opened Store
  import opened Reservation

  /** The statements issued by a request that passes every check, in the order the handler issues them. */
  function StepsOf(req: Request): seq<Step> {
    [Begin] + (if IsNewMode(req.mode) then [InsertCustomer] else [])
    + [SelectRoom, InsertBooking, InsertInvoice, InsertPayment, InsertTransaction, UpdateRoom, Commit]
  }

  /** Everything the handler demands of the request and of the stored rooms, storage failures aside. */
  predicate Admissible(db: Db, req: Request) {
    && req.adminId != 0
    && req.roomId != 0
    && req.checkin.Day? && req.checkout.Day?
    && (if IsNewMode(req.mode) then !IsBlank(req.name) && !IsBlank(req.email) && !IsBlank(req.password)
        else req.userId != 0)
    && req.checkin.day != req.checkout.day
    && req.roomId in db.rooms
  }

  /** The selections pass and the statements before the nights check (BEGIN, a customer insert) succeed. */
  predicate CustomerResolved(req: Request, failAt: Option<Step>) {
    && req.adminId != 0 && req.roomId != 0 && !req.checkin.Blank? && !req.checkout.Blank?
    && failAt != Some(Begin)
    && (if IsNewMode(req.mode)
        then !IsBlank(req.name) && !IsBlank(req.email) && !IsBlank(req.password) && failAt != Some(InsertCustomer)
        else req.userId != 0)
  }

  /** The statements of the chain of writes, which run only once the room is found. */
  predicate IsChainStep(s: Step) {
    s in {InsertBooking, InsertInvoice, InsertPayment, InsertTransaction, UpdateRoom, Commit}
  }

  /**
    The handler's checks flattened into one decision list, in the order the code reaches them: the error
    a request fails with, or `None` when it succeeds. This is a reference for the staged `Run`.
   */
  function FirstError(db: Db, req: Request, failAt: Option<Step>): Option<Error> {
    if req.adminId == 0 then Some(NoAdmin)
    else if req.roomId == 0 then Some(NoRoom)
    else if req.checkin.Blank? || req.checkout.Blank? then Some(NoDates)
    else if failAt == Some(Begin) then Some(StorageFailure(Begin))
    else if IsNewMode(req.mode) && (IsBlank(req.name) || IsBlank(req.email) || IsBlank(req.password))
    then Some(MissingCustomerFields)
    else if IsNewMode(req.mode) && failAt == Some(InsertCustomer) then Some(StorageFailure(InsertCustomer))
    else if !IsNewMode(req.mode) && req.userId == 0 then Some(NoExistingCustomer)
    else if req.checkin.Malformed? || req.checkout.Malformed? then Some(UnreadableDate)
    else if req.checkin.day == req.checkout.day then Some(ZeroNights)
    else if failAt == Some(SelectRoom) then Some(StorageFailure(SelectRoom))
    else if req.roomId !in db.rooms then Some(RoomNotFound)
    else if failAt.Some? && IsChainStep(failAt.value) then Some(StorageFailure(failAt.value))
    else None
  }

  /** The staged handler fails exactly when the decision list names an error, and with that error. */
  lemma RunMatchesFirstError(db: Db, req: Request, env: Env, failAt: Option<Step>)
    ensures Run(db, req, env, failAt).Err? <==> FirstError(db, req, failAt).Some?
    ensures Run(db, req, env, failAt).Err? ==> Run(db, req, env, failAt).error == FirstError(db, req, failAt).value
  {
    if req.adminId != 0 && req.roomId != 0 && !req.checkin.Blank? && !req.checkout.Blank? && failAt != Some(Begin) {
      var c := ResolveCustomer(db, req, env.customerRoleId, failAt);
      if c.Ok? && req.checkin.Day? && req.checkout.Day? && req.checkin.day != req.checkout.day {
        assert c.value.0.rooms == db.rooms;
        var nights := DayCount(req.checkin.day, req.checkout.day);
        var p := LookupPrice(c.value.0, req.roomId, failAt);
        if p.Ok? {
          var w := WriteChain(c.value.0, req, env, c.value.1, req.checkin.day, req.checkout.day,
                              nights, nights * p.value, failAt);
          assert w.Err? <==> failAt.Some? && IsChainStep(failAt.value);
        }
      }
    }
  }

  /** The handler's outcome is decided by the decision list; every failure leaves the database as it was. */
  lemma OutcomeMatchesFirstError(db: Db, req: Request, env: Env, failAt: Option<Step>)
    ensures CreateReservation(db, req, env, failAt).outcome.Failed? <==> FirstError(db, req, failAt).Some?
    ensures FirstError(db, req, failAt).Some? ==>
              CreateReservation(db, req, env, failAt) == Response(db, Failed(FirstError(db, req, failAt).value))
  {
    RunMatchesFirstError(db, req, env, failAt);
  }

  /** The decision list names no error exactly for an admissible request none of whose statements fails. */
  lemma FirstErrorNoneIff(db: Db, req: Request, failAt: Option<Step>)
    ensures FirstError(db, req, failAt).None? <==> Admissible(db, req) && (failAt.None? || failAt.value !in StepsOf(req))
  {
    if failAt.Some? {
      var s := failAt.value;
      assert s in StepsOf(req) <==> s == Begin || (IsNewMode(req.mode) && s == InsertCustomer) || s == SelectRoom || IsChainStep(s);
    }
  }

  /** A request succeeds exactly when it is admissible and no statement it issues fails. */
  lemma SucceedsIff(db: Db, req: Request, env: Env, failAt: Option<Step>)
    ensures CreateReservation(db, req, env, failAt).outcome.Created?
            <==> Admissible(db, req) && (failAt.None? || failAt.value !in StepsOf(req))
  {
    OutcomeMatchesFirstError(db, req, env, failAt);
    FirstErrorNoneIff(db, req, failAt);
  }

  /**
    The selection checks come first and in a fixed order — admin, room, dates — and fail before the
    transaction is opened: the response does not depend on which statement would have failed.
   */
  lemma SelectionsCheckedInOrder(db: Db, req: Request, env: Env, failAt: Option<Step>)
    ensures req.adminId == 0 ==> CreateReservation(db, req, env, failAt) == Response(db, Failed(NoAdmin))
    ensures req.adminId != 0 && req.roomId == 0 ==>
              CreateReservation(db, req, env, failAt) == Response(db, Failed(NoRoom))
    ensures req.adminId != 0 && req.roomId != 0 && (req.checkin.Blank? || req.checkout.Blank?) ==>
              CreateReservation(db, req, env, failAt) == Response(db, Failed(NoDates))
  {
    OutcomeMatchesFirstError(db, req, env, failAt);
  }

  /**
    Once the selections pass and the transaction is open, a new customer with a blank name, email or
    password is refused, and an existing-mode request without a customer id is refused; no other
    request gets either error. Either way the database is the one before the call: no user was created.
   */
  lemma CustomerChecks(db: Db, req: Request, env: Env, failAt: Option<Step>)
    requires req.adminId != 0 && req.roomId != 0 && !req.checkin.Blank? && !req.checkout.Blank?
    requires failAt != Some(Begin)
    ensures CreateReservation(db, req, env, failAt).outcome == Failed(MissingCustomerFields)
            <==> IsNewMode(req.mode) && (IsBlank(req.name) || IsBlank(req.email) || IsBlank(req.password))
    ensures CreateReservation(db, req, env, failAt).outcome == Failed(NoExistingCustomer)
            <==> !IsNewMode(req.mode) && req.userId == 0
    ensures CreateReservation(db, req, env, failAt).outcome.Failed? ==> CreateReservation(db, req, env, failAt).db == db
  {
    OutcomeMatchesFirstError(db, req, env, failAt);
  }

  /** The phone number is optional: it never changes whether or how a request fails or succeeds, only the stored row. */
  lemma PhoneNeverChecked(db: Db, req: Request, env: Env, failAt: Option<Step>, phone: string)
    ensures CreateReservation(db, req.(phone := phone), env, failAt).outcome.Created?
            == CreateReservation(db, req, env, failAt).outcome.Created?
    ensures CreateReservation(db, req.(phone := phone), env, failAt).outcome.Failed? ==>
              CreateReservation(db, req.(phone := phone), env, failAt).outcome
              == CreateReservation(db, req, env, failAt).outcome
  {
    var req' := req.(phone := phone);
    assert req'.name == req.name && req'.email == req.email && req'.password == req.password;
    var e := FirstError(db, req, failAt);
    assert FirstError(db, req', failAt) == e;
    OutcomeMatchesFirstError(db, req, env, failAt);
    OutcomeMatchesFirstError(db, req', env, failAt);
    var r := CreateReservation(db, req, env, failAt);
    var r' := CreateReservation(db, req', env, failAt);
    assert r.outcome.Failed? == e.Some? == r'.outcome.Failed?;
  }

  /**
    With the customer resolved and both dates readable, a same-day stay is refused with the zero-nights
    error — even when the room does not exist and whatever later statement would fail — and any new
    customer is undone.
   */
  lemma SameDayRejected(db: Db, req: Request, env: Env, failAt: Option<Step>)
    requires CustomerResolved(req, failAt)
    requires req.checkin.Day? && req.checkout.Day? && req.checkin.day == req.checkout.day
    ensures CreateReservation(db, req, env, failAt) == Response(db, Failed(ZeroNights))
  {
    OutcomeMatchesFirstError(db, req, env, failAt);
  }

  /** A check-out before the check-in is accepted and priced by the distance between the two days. */
  lemma ReversedDatesAccepted(db: Db, req: Request, env: Env)
    requires Admissible(db, req) && req.checkout.day < req.checkin.day
    ensures CreateReservation(db, req, env, None).outcome.Created?
    ensures CreateReservation(db, req, env, None).outcome.receipt.nights == req.checkin.day - req.checkout.day
  {
    OutcomeMatchesFirstError(db, req, env, None);
  }

  /**
    A room id with no row is refused after the nights check and before the booking insert: the result
    is the same whichever of the later statements would have failed, and nothing is written.
   */
  lemma MissingRoomRejected(db: Db, req: Request, env: Env, failAt: Option<Step>)
    requires CustomerResolved(req, failAt)
    requires req.checkin.Day? && req.checkout.Day? && req.checkin.day != req.checkout.day
    requires req.roomId !in db.rooms && failAt != Some(SelectRoom)
    ensures CreateReservation(db, req, env, failAt) == Response(db, Failed(RoomNotFound))
  {
    OutcomeMatchesFirstError(db, req, env, failAt);
  }

  /** An existing-mode customer id is never looked up: a booking is created for an id no user has. */
  lemma ExistingCustomerNotLookedUp(db: Db, req: Request, env: Env)
    requires Admissible(db, req) && !IsNewMode(req.mode) && req.userId !in db.users.rows
    ensures CreateReservation(db, req, env, None).outcome.Created?
    ensures CreateReservation(db, req, env, None).outcome.receipt.userId !in db.users.rows
  {
    OutcomeMatchesFirstError(db, req, env, None);
  }

  /**
    Injecting a failure into an admissible request: a statement the request issues aborts it with that
    statement's storage failure and leaves the database unchanged; a statement it never issues (the
    customer insert in existing mode) changes nothing about the response.
   */
  lemma InjectedFailure(db: Db, req: Request, env: Env, s: Step)
    requires Admissible(db, req)
    ensures CreateReservation(db, req, env, Some(s)) ==
            if s in StepsOf(req) then Response(db, Failed(StorageFailure(s)))
            else CreateReservation(db, req, env, None)
  {
    var f := Some(s);
    if s != Begin {
      var c := ResolveCustomer(db, req, env.customerRoleId, f);
      if s != InsertCustomer {
        CustomerStepIgnoresOtherFailures(db, req, env.customerRoleId, f);
        var c0 := ResolveCustomer(db, req, env.customerRoleId, None);
        assert c == c0;
        var nights := DayCount(req.checkin.day, req.checkout.day);
        var p := LookupPrice(c.value.0, req.roomId, f);
        if s != SelectRoom {
          assert p == LookupPrice(c.value.0, req.roomId, None);
          assert WriteChain(c.value.0, req, env, c.value.1, req.checkin.day, req.checkout.day,
                            nights, nights * p.value, f).Err?;
        }
      } else if !IsNewMode(req.mode) {
        assert c == ResolveCustomer(db, req, env.customerRoleId, None);
        var nights := DayCount(req.checkin.day, req.checkout.day);
        var p := LookupPrice(c.value.0, req.roomId, f);
        assert p == LookupPrice(c.value.0, req.roomId, None);
        ChainIgnoresEarlierFailures(c.value.0, req, env, c.value.1, req.checkin.day, req.checkout.day,
                                    nights, nights * p.value, s);
      }
    }
  }

  /** The customer step issues only the customer insert, so a failure injected elsewhere does not affect it. */
  lemma CustomerStepIgnoresOtherFailures(db: Db, req: Request, roleId: int, failAt: Option<Step>)
    requires failAt != Some(InsertCustomer)
    ensures ResolveCustomer(db, req, roleId, failAt) == ResolveCustomer(db, req, roleId, None)
  {
  }

  /** The chain of writes issues only the four inserts, the update and the commit. */
  lemma ChainIgnoresEarlierFailures(db: Db, req: Request, env: Env, userId: int, checkin: int, checkout: int,
                                    nights: nat, amount: int, s: Step)
    requires s in {Begin, InsertCustomer, SelectRoom}
    ensures WriteChain(db, req, env, userId, checkin, checkout, nights, amount, Some(s))
            == WriteChain(db, req, env, userId, checkin, checkout, nights, amount, None)
  {
  }
}
