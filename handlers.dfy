/**
 * The customer handlers of customer/handlerfuncs.go with the HTTP, JSON, SMS and logging
 * plumbing taken out. A request is its two optional path variables plus the outcome of
 * decoding its body; a response is a status code plus the optional `vc` header. The random
 * code, the clock and the outcome of every store and SMS call are parameters.
 */
module Handlers {
  import opened Wrappers
  import opened Strconv
  import opened CustomerRecord
  import opened Datastore

  /** The request body: the record `json.Decoder.Decode` produced, or a decoding failure. */
  datatype Body = Decoded(customer: Customer) | Undecodable

  /** The path variables are "" when absent, as a lookup in `mux.Vars` gives. */
  datatype Request = Request(phoneNumberVar: string, verificationCodeVar: string, body: Body)

  datatype Error =
    | InvalidDetails          // the body could not be decoded
    | PhoneNumberMandatory    // the request carries no phone number
    | CustomerDoesNotExist    // the existence gate found no record
    | InvalidVerificationCode // the presented code differs from the stored one
    | StoreFailed(cause: StoreError)

  datatype Response = Response(status: int, vc: Option<string>)

  /** One call of the SMS gateway. */
  datatype Sms = Sms(to: string, text: string)

  const StatusOK := 200
  const StatusCreated := 201
  const StatusBadRequest := 400
  const StatusNotFound := 404
  const StatusInternalServerError := 500

  function Status(code: int): (r: Response) {
    Response(code, None)
  }

  /** What reading a request yields: the customer it carries, or the error it is refused with. */
  datatype Parse = Parsed(customer: Customer) | Rejected(error: Error)

  /** The path variables are used only when both are present. */
  predicate PathVarsPresent(req: Request) {
    |req.phoneNumberVar| > 0 && |req.verificationCodeVar| > 0
  }

  /** The outcome `getCustomerFromReqPayload` gives `req`. */
  function ParseRequest(req: Request): (p: Parse) {
    if PathVarsPresent(req) then
      Parsed(ZeroCustomer.(phoneNumber := req.phoneNumberVar,
                           verificationCode := Atoi(req.verificationCodeVar)))
    else match req.body
      case Undecodable => Rejected(InvalidDetails)
      case Decoded(c) => if c.phoneNumber == "" then Rejected(PhoneNumberMandatory) else Parsed(c)
  }

  /**
   * `getCustomerFromReqPayload`: the customer a request carries. On an error the response
   * (400) is already written; `written` is the status written, if any.
   */
  method GetCustomerFromReqPayload(req: Request) returns (u: Customer, err: Option<Error>, written: Option<int>)
    ensures err.None? <==> ParseRequest(req).Parsed?
    ensures err.None? ==> u == ParseRequest(req).customer && u.phoneNumber != "" && written == None
    ensures err.Some? ==> err.value == ParseRequest(req).error && written == Some(StatusBadRequest)
  {
    u, err, written := ZeroCustomer, None, None;
    if |req.phoneNumberVar| > 0 && |req.verificationCodeVar| > 0 {
      u := u.(phoneNumber := req.phoneNumberVar);
      u := u.(verificationCode := Atoi(req.verificationCodeVar));  // Atoi's error is ignored
    } else {
      match req.body {
        case Undecodable =>
          err, written := Some(InvalidDetails), Some(StatusBadRequest);
          return;
        case Decoded(c) =>
          u := c;
      }
    }
    if |u.phoneNumber| == 0 {
      err, written := Some(PhoneNumberMandatory), Some(StatusBadRequest);
      return;
    }
  }

  const SmsPrefix := "Your verification code is "

  /**
   * `customerVerificationSmsText`: the message announcing a customer's code. The code is
   * what follows the fixed sentence, and it reads back as the code.
   */
  function SmsText(c: Customer): (text: string)
    ensures |text| > |SmsPrefix| && text[..|SmsPrefix|] == SmsPrefix
    ensures IsInt64(c.verificationCode) ==> Atoi(text[|SmsPrefix|..]) == c.verificationCode
  {
    var text := SmsPrefix + Itoa(c.verificationCode);
    assert text[|SmsPrefix|..] == Itoa(c.verificationCode);
    AtoiItoaInRange(c.verificationCode);
    text
  }

  /** What the existence gate decides for a request. */
  datatype Gate = Admitted(customer: Customer) | Refused(error: Error, status: int)

  /** The decision of `validateCustomerFromReqAgainstDB` over the records `entities`. */
  function GateOf(entities: map<string, Customer>, req: Request): (g: Gate) {
    match ParseRequest(req)
    case Rejected(e) => Refused(e, StatusBadRequest)
    case Parsed(u) =>
      if u.phoneNumber in entities then Admitted(u) else Refused(CustomerDoesNotExist, StatusNotFound)
  }

  /**
   * `validateCustomerFromReqAgainstDB`: admits a request when a record exists under its
   * phone number. The customer it returns is the request's own, not the stored one.
   */
  method ValidateCustomerFromReqAgainstDB(db: Store, req: Request) returns (customer: Customer, err: Option<Error>, written: Option<int>)
    ensures err.None? <==> GateOf(db.entities, req).Admitted?
    ensures err.None? ==> customer == GateOf(db.entities, req).customer && written == None
    ensures err.Some? ==> err == Some(GateOf(db.entities, req).error) && written == Some(GateOf(db.entities, req).status)
  {
    customer, err, written := GetCustomerFromReqPayload(req);
    if err.Some? {
      return;
    }
    var found := db.Exists(customer);
    if found == false {
      err, written := Some(CustomerDoesNotExist), Some(StatusNotFound);
      return;
    }
  }

  /**
   * `getDBCustomerFromReq`: loads the stored record for a request and compares its code with
   * the presented one. No handler calls it. `getOk` is the outcome of the store's `get`.
   */
  method GetDBCustomerFromReq(db: Store, req: Request, getOk: bool) returns (dbCustomer: Customer, err: Option<Error>, written: Option<int>)
    ensures ParseRequest(req).Rejected? ==>
      dbCustomer == ZeroCustomer && err == Some(ParseRequest(req).error) && written == Some(StatusBadRequest)
    ensures var p := ParseRequest(req);
      p.Parsed? && getOk && p.customer.phoneNumber !in db.entities ==>
        dbCustomer == ZeroCustomer.(phoneNumber := p.customer.phoneNumber)
        && err == Some(StoreFailed(NoSuchEntity)) && written == Some(StatusNotFound)
    ensures var p := ParseRequest(req);
      p.Parsed? && getOk && p.customer.phoneNumber in db.entities
      && db.entities[p.customer.phoneNumber].verificationCode != p.customer.verificationCode ==>
        err == Some(InvalidVerificationCode) && written == Some(StatusBadRequest)
    ensures var p := ParseRequest(req);
      p.Parsed? && getOk && p.customer.phoneNumber in db.entities
      && db.entities[p.customer.phoneNumber].verificationCode == p.customer.verificationCode ==>
        dbCustomer == db.entities[p.customer.phoneNumber] && err == None && written == None
    // A failing `get` leaves the record blank but for its phone number, so its code reads as 0.
    ensures var p := ParseRequest(req);
      p.Parsed? && !getOk ==>
        dbCustomer == ZeroCustomer.(phoneNumber := p.customer.phoneNumber)
        && (p.customer.verificationCode != 0 ==> err == Some(InvalidVerificationCode) && written == Some(StatusBadRequest))
        && (p.customer.verificationCode == 0 ==> err == Some(StoreFailed(Failure)) && written == None)
    // No error means the presented code is the stored one.
    ensures err.None? <==>
      var p := ParseRequest(req);
      p.Parsed? && getOk && p.customer.phoneNumber in db.entities
      && db.entities[p.customer.phoneNumber].verificationCode == p.customer.verificationCode
    // In a store that keeps records under their own numbers, what is returned is the presented number's record.
    ensures db.Valid() && err.None? ==> dbCustomer.phoneNumber == ParseRequest(req).customer.phoneNumber
  {
    dbCustomer := ZeroCustomer;
    var u;
    u, err, written := GetCustomerFromReqPayload(req);
    if err.Some? {
      return;
    }
    dbCustomer := dbCustomer.(phoneNumber := u.phoneNumber);
    var getErr;
    dbCustomer, getErr := db.Get(dbCustomer, getOk);
    err := if getErr.Some? then Some(StoreFailed(getErr.value)) else None;
    if getErr == Some(NoSuchEntity) {
      written := Some(StatusNotFound);
      return;
    }
    if dbCustomer.verificationCode != u.verificationCode {
      err, written := Some(InvalidVerificationCode), Some(StatusBadRequest);
      return;
    }
  }

  /**
   * `NewCustomer`: registers the customer a request carries. `code` is the random code,
   * `now` the clock, and the flags the outcomes of the save, the SMS and the rollback delete.
   */
  method NewCustomer(db: Store, req: Request, code: int, now: int, saveOk: bool, smsOk: bool, rollbackOk: bool)
    returns (resp: Response, sent: Option<Sms>)
    modifies db
    ensures old(db.Valid()) ==> db.Valid()
    ensures ParseRequest(req).Rejected? ==>
      resp == Status(StatusBadRequest) && sent == None && db.entities == old(db.entities)
    // an existing number: refused, no save, no SMS
    ensures var p := ParseRequest(req);
      p.Parsed? && p.customer.phoneNumber in old(db.entities) ==>
        resp == Status(StatusBadRequest) && sent == None && db.entities == old(db.entities)
    // a failed save: no SMS
    ensures var p := ParseRequest(req);
      p.Parsed? && p.customer.phoneNumber !in old(db.entities) && !saveOk ==>
        resp == Status(StatusInternalServerError) && sent == None && db.entities == old(db.entities)
    // after a save, one SMS with the new code goes to the number
    ensures var p := ParseRequest(req);
      p.Parsed? && p.customer.phoneNumber !in old(db.entities) && saveOk ==>
        var stored := p.customer.(verificationCode := code, createdTime := At(now));
        sent == Some(Sms(p.customer.phoneNumber, SmsText(stored)))
        && (smsOk ==> resp == Status(StatusCreated)
                      && db.entities == old(db.entities)[p.customer.phoneNumber := stored])
        && (!smsOk ==> resp == Status(StatusInternalServerError)
                       && db.entities == if rollbackOk then old(db.entities)
                                         else old(db.entities)[p.customer.phoneNumber := stored])
    // success: exactly one new record, with the generated code and a creation time
    ensures resp.status == StatusCreated ==>
      var key := ParseRequest(req).customer.phoneNumber;
      key !in old(db.entities) && db.entities.Keys == old(db.entities).Keys + {key}
      && db.entities[key].verificationCode == code && db.entities[key].createdTime == At(now)
    // a stored record is never altered
    ensures forall k | k in old(db.entities) :: k in db.entities && db.entities[k] == old(db.entities)[k]
  {
    var u, err, written := GetCustomerFromReqPayload(req);
    if err.Some? {
      return Status(written.value), None;
    }
    u := u.(verificationCode := 0);  // the code the client sent is discarded
    var found := db.Exists(u);
    if found {
      return Status(StatusBadRequest), None;
    }
    u := u.(createdTime := At(now));
    u := u.(verificationCode := code);
    var saveErr := db.Save(u, saveOk);
    if saveErr.Some? {
      return Status(StatusInternalServerError), None;
    }
    sent := Some(Sms(u.phoneNumber, SmsText(u)));
    if !smsOk {
      ghost var saved := db.entities;
      var _ := db.Delete(u, rollbackOk);  // its error is ignored
      assert rollbackOk ==> db.entities == old(db.entities) by {
        if rollbackOk { assert saved - {u.phoneNumber} == old(db.entities); }
      }
      return Status(StatusInternalServerError), sent;
    }
    resp := Status(StatusCreated);
  }

  /** `UpdateCustomer`: overwrites the stored record with the request's. */
  method UpdateCustomer(db: Store, req: Request, saveOk: bool) returns (resp: Response)
    modifies db
    ensures old(db.Valid()) ==> db.Valid()
    ensures var g := GateOf(old(db.entities), req);
      g.Refused? ==> resp == Status(g.status) && db.entities == old(db.entities)
    ensures var g := GateOf(old(db.entities), req);
      g.Admitted? ==>
        if saveOk then resp == Status(StatusOK) && db.entities == old(db.entities)[g.customer.phoneNumber := g.customer]
        else resp == Status(StatusBadRequest) && db.entities == old(db.entities)
  {
    var customer, err, written := ValidateCustomerFromReqAgainstDB(db, req);
    if err.Some? {
      return Status(written.value);
    }
    var saveErr := db.Save(customer, saveOk);
    if saveErr.Some? {
      return Status(StatusBadRequest);
    }
    resp := Status(StatusOK);
  }

  /** `ConfirmCustomer`: stores the request's record as verified at `now` and echoes its code. */
  method ConfirmCustomer(db: Store, req: Request, now: int, saveOk: bool) returns (resp: Response)
    modifies db
    ensures old(db.Valid()) ==> db.Valid()
    ensures var g := GateOf(old(db.entities), req);
      g.Refused? ==> resp == Status(g.status) && db.entities == old(db.entities)
    ensures var g := GateOf(old(db.entities), req);
      g.Admitted? ==>
        var confirmed := g.customer.(verifiedTime := At(now));
        if saveOk then
          resp == Response(StatusOK, Some(Itoa(g.customer.verificationCode)))
          && db.entities == old(db.entities)[g.customer.phoneNumber := confirmed]
        else resp == Status(StatusInternalServerError) && db.entities == old(db.entities)
  {
    var u, err, written := ValidateCustomerFromReqAgainstDB(db, req);
    if err.Some? {
      return Status(written.value);
    }
    u := u.(verifiedTime := At(now));
    var saveErr := db.Save(u, saveOk);
    if saveErr.Some? {
      resp := Status(StatusInternalServerError);
    } else {
      resp := Response(StatusOK, Some(Itoa(u.verificationCode)));
    }
  }

  /**
   * `ReConfirmCustomer`: stores the request's record unverified with the new `code`, then
   * texts the code. A failed SMS is reported, but the new code stays stored.
   */
  method ReConfirmCustomer(db: Store, req: Request, code: int, saveOk: bool, smsOk: bool)
    returns (resp: Response, sent: Option<Sms>)
    modifies db
    ensures old(db.Valid()) ==> db.Valid()
    ensures var g := GateOf(old(db.entities), req);
      g.Refused? ==> resp == Status(g.status) && sent == None && db.entities == old(db.entities)
    ensures var g := GateOf(old(db.entities), req);
      g.Admitted? && !saveOk ==>
        resp == Status(StatusInternalServerError) && sent == None && db.entities == old(db.entities)
    ensures var g := GateOf(old(db.entities), req);
      g.Admitted? && saveOk ==>
        var reissued := g.customer.(verifiedTime := Unset, verificationCode := code);
        db.entities == old(db.entities)[g.customer.phoneNumber := reissued]
        && sent == Some(Sms(g.customer.phoneNumber, SmsText(reissued)))
        && resp == Status(if smsOk then StatusOK else StatusInternalServerError)
  {
    var u, err, written := ValidateCustomerFromReqAgainstDB(db, req);
    if err.Some? {
      return Status(written.value), None;
    }
    u := u.(verifiedTime := Unset);
    u := u.(verificationCode := code);
    var saveErr := db.Save(u, saveOk);
    if saveErr.Some? {
      return Status(StatusInternalServerError), None;
    }
    sent := Some(Sms(u.phoneNumber, SmsText(u)));
    if !smsOk {
      return Status(StatusInternalServerError), sent;
    }
    resp := Status(StatusOK);
  }

  /** `DeleteCustomer`: removes the record under the request's phone number. */
  method DeleteCustomer(db: Store, req: Request, deleteOk: bool) returns (resp: Response)
    modifies db
    ensures old(db.Valid()) ==> db.Valid()
    ensures var g := GateOf(old(db.entities), req);
      g.Refused? ==> resp == Status(g.status) && db.entities == old(db.entities)
    ensures var g := GateOf(old(db.entities), req);
      g.Admitted? ==>
        if deleteOk then resp == Status(StatusOK) && db.entities == old(db.entities) - {g.customer.phoneNumber}
        else resp == Status(StatusInternalServerError) && db.entities == old(db.entities)
  {
    var customer, err, written := ValidateCustomerFromReqAgainstDB(db, req);
    if err.Some? {
      return Status(written.value);
    }
    var deleteErr := db.Delete(customer, deleteOk);
    if deleteErr.Some? {
      return Status(StatusInternalServerError);
    }
    resp := Status(StatusOK);
  }
}
