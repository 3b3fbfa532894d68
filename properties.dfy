/**
 * Properties of the request parsing, the existence gate and the SMS text, and two scenarios
 * proved from the handlers' contracts: a confirmation is not checked against the code sent,
 * and a registration keeps whatever verification time the request carries.
 */
module HandlerProperties {
  import opened Wrappers
  import opened Strconv
  import opened CustomerRecord
  import opened Datastore
  import opened Handlers

  /** Two messages are equal only when they announce the same code. */
  lemma SmsTextDeterminesCode(a: Customer, b: Customer)
    requires SmsText(a) == SmsText(b)
    ensures a.verificationCode == b.verificationCode
  {
    assert Itoa(a.verificationCode) == SmsText(a)[|SmsPrefix|..] == SmsText(b)[|SmsPrefix|..] == Itoa(b.verificationCode);
    ItoaInjective(a.verificationCode, b.verificationCode);
  }

  /** With both path variables present, the body is never looked at. */
  lemma PathVarsOverrideBody(req: Request, body: Body)
    requires PathVarsPresent(req)
    ensures ParseRequest(req) == ParseRequest(req.(body := body))
    ensures ParseRequest(req).Parsed? && ParseRequest(req).customer.phoneNumber == req.phoneNumberVar
  {
  }

  /** With either path variable missing, only the body counts and a body that fails to decode is refused. */
  lemma IncompletePathVarsUseBody(req: Request, phoneNumberVar: string, verificationCodeVar: string)
    requires !PathVarsPresent(req)
    requires !PathVarsPresent(Request(phoneNumberVar, verificationCodeVar, req.body))
    ensures ParseRequest(req) == ParseRequest(Request(phoneNumberVar, verificationCodeVar, req.body))
    ensures req.body == Undecodable ==> ParseRequest(req) == Rejected(InvalidDetails)
  {
  }

  /**
   * A request without a phone number is always refused, and the gate refuses it with 400
   * whatever the store holds; the handler contracts answer with the gate's status.
   */
  lemma EmptyPhoneNumberRejected(entities: map<string, Customer>, req: Request)
    ensures ParseRequest(req).Parsed? ==> ParseRequest(req).customer.phoneNumber != ""
    ensures (PathVarsPresent(req) || req.body.Decoded?) && ParseRequest(req).Rejected? ==>
      ParseRequest(req).error == PhoneNumberMandatory
    ensures ParseRequest(req).Rejected? ==> GateOf(entities, req) == Refused(ParseRequest(req).error, StatusBadRequest)
  {
  }

  /** A path code that is not a decimal number is taken as code 0. */
  lemma NonNumericPathCodeIsZero(req: Request)
    requires PathVarsPresent(req) && !IsDecimal(req.verificationCodeVar)
    ensures ParseRequest(req).Parsed? && ParseRequest(req).customer.verificationCode == 0
  {
  }

  /** A code written in the path the way the `vc` header writes it is read back exactly. */
  lemma PathCodeRoundTrip(phoneNumber: string, code: int, body: Body)
    requires phoneNumber != "" && IsInt64(code)
    ensures ParseRequest(Request(phoneNumber, Itoa(code), body))
         == Parsed(ZeroCustomer.(phoneNumber := phoneNumber, verificationCode := code))
  {
    assert |Itoa(code)| > 0 by {
      if code >= 0 { assert |Digits(code)| > 0; }
    }
    AtoiItoa(code);
  }

  /** The gate answers 404 exactly when a readable request names a number with no record. */
  lemma GateNotFoundIff(entities: map<string, Customer>, req: Request)
    ensures GateOf(entities, req).Refused? && GateOf(entities, req).status == StatusNotFound
        <==> ParseRequest(req).Parsed? && ParseRequest(req).customer.phoneNumber !in entities
    ensures GateOf(entities, req).Admitted?
        <==> ParseRequest(req).Parsed? && ParseRequest(req).customer.phoneNumber in entities
  {
  }

  /**
   * The gate looks only at the phone number: of two readable requests naming the same number,
   * both are admitted or both refused, whatever codes they present and whatever code is stored.
   */
  lemma GateIgnoresVerificationCode(entities: map<string, Customer>, r1: Request, r2: Request)
    requires ParseRequest(r1).Parsed? && ParseRequest(r2).Parsed?
    requires ParseRequest(r1).customer.phoneNumber == ParseRequest(r2).customer.phoneNumber
    ensures GateOf(entities, r1).Admitted? == GateOf(entities, r2).Admitted?
    ensures GateOf(entities, r1).Admitted? ==> GateOf(entities, r1).customer == ParseRequest(r1).customer
  {
  }

  /** Any non-empty path code is admitted for a number that has a record. */
  lemma AnyPathCodeAdmitted(entities: map<string, Customer>, phoneNumber: string, codeVar: string, body: Body)
    requires phoneNumber in entities && phoneNumber != "" && codeVar != ""
    ensures GateOf(entities, Request(phoneNumber, codeVar, body))
         == Admitted(ZeroCustomer.(phoneNumber := phoneNumber, verificationCode := Atoi(codeVar)))
  {
  }

  /**
   * Register a number and receive code 4821 by SMS, then confirm it presenting 9999 in the
   * path: the confirmation succeeds, echoes 9999 in the `vc` header, and the stored record
   * now holds 9999 and has lost its profile fields and creation time.
   */
  method ConfirmWithWrongCode() returns (registered: Response, sms: Option<Sms>, confirmed: Response, stored: Customer)
    ensures registered == Status(StatusCreated)
    ensures sms == Some(Sms("+15551234567", SmsPrefix + "4821"))
    ensures confirmed == Response(StatusOK, Some("9999"))
    ensures stored == ZeroCustomer.(phoneNumber := "+15551234567", verificationCode := 9999, verifiedTime := At(2))
  {
    var db := new Store();
    var phone := "+15551234567";
    var profile := ZeroCustomer.(phoneNumber := phone, firstName := "Ada", verificationCode := 1234);
    registered, sms := NewCustomer(db, Request("", "", Decoded(profile)), 4821, 1, true, true, true);
    assert Itoa(4821) == "4821";
    assert db.entities[phone].verificationCode == 4821;
    assert Itoa(9999) == "9999";
    PathCodeRoundTrip(phone, 9999, Undecodable);
    confirmed := ConfirmCustomer(db, Request(phone, "9999", Undecodable), 2, true);
    stored := db.entities[phone];
  }

  /**
   * Register a number with a body that already carries a verification time: registration
   * answers 201 and stores the record as verified, although no code was ever confirmed.
   */
  method RegisterKeepsVerifiedTime() returns (registered: Response, stored: Customer)
    ensures registered == Status(StatusCreated)
    ensures stored == ZeroCustomer.(phoneNumber := "+1", verificationCode := 4821,
                                    createdTime := At(1), verifiedTime := At(7))
  {
    var db := new Store();
    var sms;
    var body := Decoded(ZeroCustomer.(phoneNumber := "+1", verifiedTime := At(7)));
    registered, sms := NewCustomer(db, Request("", "", body), 4821, 1, true, true, true);
    stored := db.entities["+1"];
  }
}
