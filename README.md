# Customer record lifecycle

A model of the customer handlers of the CustomerMgmt service: registering, updating,
confirming, re-confirming and deleting a customer record keyed by phone number. It is written
in Dafny and its properties are proved.

Once the HTTP, JSON, datastore and SMS plumbing is removed, each handler is a short decision
sequence over a record store. It reads the request, checks whether a record exists, resets
or regenerates fields, saves or deletes, sends an SMS, and maps the outcome to a status code.

- `wrappers.dfy`: `Option`, used for Go's nil-able results.
- `strconv.dfy`: the decimal conversions the handlers use. These are Go's `strconv.Itoa` and
  `fmt`'s `%v` for the `vc` header and the SMS text, and the value part of `strconv.Atoi`
  for a code given in the path.
- `customer.dfy`: the customer record.
- `datastore.dfy`: the class `Store`. Its field `entities: map<string, Customer>` is the
  datastore. `Exists`, `Save`, `Get` and `Delete` stand for the record methods of the same
  names. Each fallible call takes its outcome as a boolean parameter.
- `handlers.dfy`: the request helpers and the five handlers, written as imperative methods
  over a `Store`. The handlers build the local record `u` field by field, as the source does.
  Each one returns the response, meaning its status code and optional `vc` header. The
  registration and re-confirmation handlers also return the SMS they hand to the gateway.
  Their contracts state the new store contents in every outcome. They also state that the
  invariant `Store.Valid()` is kept: every record is stored under its own non-empty phone
  number. `GetDBCustomerFromReq` relies on it: in a store that keeps it, the record it
  returns belongs to the presented number.
- `properties.dfy`: lemmas about request parsing, the existence gate and the SMS text. It
  also has two concrete scenarios, proved from the handlers' contracts. One is a
  registration followed by a confirmation with the wrong code. The other is a registration
  whose request already carries a verification time.

The intended lifecycle is: register unverified with a fresh code, confirm by presenting
that code, re-issue a code, update profile fields only, delete. Every operation after
registration is meant to be authorised by the current code. The comment at
customer/handlerfuncs.go:72 ("verification codes match") says so. Where the handler code
does otherwise, the model follows the code:

- Every operation after registration is meant to compare the presented verification code
  with the stored one. In the code, the four handlers are
  gated by `validateCustomerFromReqAgainstDB`, which only checks that a record exists. The
  code-comparing helper `getDBCustomerFromReq` is never called. So a wrong code is accepted
  (`GateIgnoresVerificationCode`, `ConfirmWithWrongCode`).
- Update is meant to touch only profile fields, and Confirm only the verification time. In the code, Update, Confirm and ReConfirm save the request's record over the stored
  one. A path-variable request therefore replaces the record with one holding only the phone
  number, the code and the time the handler sets.
- So a stored code is not always non-zero, as intended. A confirmation
  whose body has no code stores code 0.
- Registration is meant to store an unverified record. `NewCustomer` resets only the code
  and sets the creation time (customer/handlerfuncs.go:24, 32-33). It keeps any
  verification time the request body carries, so a registration can store a record that
  is already verified (`RegisterKeepsVerifiedTime`).
- A failed save in Update answers 400, not 500.
- The record type declares the verification code as a string and has no timestamps. The
  handlers use an int code and two timestamps, and the model does the same.

## Model

| member | source | states |
|---|---|---|
| Strconv.Itoa | customer/handlerfuncs.go:80 | the `vc` header text of a code is always a decimal that Atoi accepts, with a minus sign exactly for negative codes |
| Strconv.Digits | customer/handlerfuncs.go:80 | the decimal rendering of a code is non-empty, all digits, with no leading zero |
| Strconv.Atoi | customer/handlerfuncs.go:135 | the value Atoi gives a path code always lies in the int64 range |
| Strconv.AtoiItoa | customer/handlerfuncs.go:135 | reading a code back from its decimal rendering gives the code, for every int64 |
| Strconv.ItoaInjective | customer/handlerfuncs.go:80 | different codes give different `vc` header strings |
| Strconv.AtoiOfNonDecimal | customer/handlerfuncs.go:135 | a path code that is not an optionally signed run of digits reads as 0, because the error is dropped |
| Datastore.Store.Exists | customer/handlerfuncs.go:25 | the existence check is true iff a record is stored under the phone number |
| Datastore.Store.Save | customer/handlerfuncs.go:34 | a save either stores the record under its phone number and reports no error, or fails and changes nothing |
| Datastore.Store.Delete | customer/handlerfuncs.go:118 | a delete either removes the phone number's record, or fails and changes nothing |
| Datastore.Store.Get | customer/handlerfuncs.go:165 | a get loads the stored record, or reports no-such-entity or a failure and leaves the destination as it was |
| Handlers.GetCustomerFromReqPayload | customer/handlerfuncs.go:127-152 | the request is read from the path when both variables are present and from the body otherwise; an undecodable body or an empty phone number is an error with 400 written; on success the phone number is non-empty and nothing is written |
| Handlers.ValidateCustomerFromReqAgainstDB | customer/handlerfuncs.go:179-191 | the gate admits exactly when the request is readable and a record exists for its number; it returns the request's own record; otherwise 400 or 404 is written |
| Handlers.GetDBCustomerFromReq | customer/handlerfuncs.go:158-177 | a refused request returns the zero record with 400; a missing record gives 404 and the zero record with only the phone number; a stored code different from the presented one gives an error and 400; equal codes return the stored record with no error; no error happens iff the codes match; a failed get compares against code 0; in a valid store the returned record has the presented number |
| Handlers.NewCustomer | customer/handlerfuncs.go:18-49 | an existing number gives 400 with no save and no SMS; a failed save gives 500 with no SMS; after a save, one SMS carries the generated code; success gives 201 with exactly one new record holding the generated code and the creation time; an SMS failure gives 500 and rolls the record back when the delete succeeds; existing records are never altered; the store invariant is kept |
| Handlers.UpdateCustomer | customer/handlerfuncs.go:51-64 | a refused request gives the gate's status and changes nothing; otherwise the request's record replaces the stored one with 200, or a failed save gives 400 and changes nothing |
| Handlers.ConfirmCustomer | customer/handlerfuncs.go:66-84 | a refused request gives the gate's status and changes nothing; otherwise the request's record is stored with the verification time set and 200 echoes the request's code in `vc`, or a failed save gives 500 and changes nothing |
| Handlers.ReConfirmCustomer | customer/handlerfuncs.go:86-110 | a refused request gives the gate's status, changes nothing and sends nothing; a failed save gives 500 with no SMS; otherwise the record is stored unverified with the new code before one SMS carries it, and an SMS failure gives 500 with no rollback |
| Handlers.DeleteCustomer | customer/handlerfuncs.go:112-125 | a refused request gives the gate's status and changes nothing; otherwise the number's record is removed with 200, or a failed delete gives 500 and changes nothing |
| Handlers.SmsText | customer/handlerfuncs.go:154-156 | the verification SMS is the fixed sentence followed by text that reads back as the code |
| HandlerProperties.SmsTextDeterminesCode | customer/handlerfuncs.go:154-156 | two verification messages are equal only if they carry the same code |
| HandlerProperties.PathVarsOverrideBody | customer/handlerfuncs.go:131-135 | with both path variables present the body is ignored and the path phone number is used |
| HandlerProperties.IncompletePathVarsUseBody | customer/handlerfuncs.go:136-143 | with a path variable missing, only the body matters, and a body that fails to decode is refused as invalid |
| HandlerProperties.EmptyPhoneNumberRejected | customer/handlerfuncs.go:145-150 | a readable request always has a phone number; a record without one is refused as phone-number-mandatory; in any store, the gate refuses an unreadable request with 400 |
| HandlerProperties.NonNumericPathCodeIsZero | customer/handlerfuncs.go:135 | a non-numeric path code becomes code 0 and the request is still accepted |
| HandlerProperties.PathCodeRoundTrip | customer/handlerfuncs.go:133-135 | a code written in the path as the `vc` header writes it is read back exactly |
| HandlerProperties.GateNotFoundIff | customer/handlerfuncs.go:184-189 | the gate answers 404 iff a readable request names a number with no record, and admits iff the number has one |
| HandlerProperties.GateIgnoresVerificationCode | customer/handlerfuncs.go:179-191 | two readable requests for the same number are both admitted or both refused, whatever codes they carry |
| HandlerProperties.AnyPathCodeAdmitted | customer/handlerfuncs.go:179-191 | for a number with a record, every non-empty path code is admitted |
| HandlerProperties.ConfirmWithWrongCode | customer/handlerfuncs.go:66-84 | after registering with code 4821, confirming with 9999 answers 200 with `vc` 9999, and the stored record then holds 9999 and nothing of its profile or creation time |
| HandlerProperties.RegisterKeepsVerifiedTime | customer/handlerfuncs.go:24-34 | registering with a body that carries a verification time answers 201 and stores the record with that verification time, the generated code and the creation time |

## Left out

- HTTP routing, `mux.Vars`, JSON decoding and response writing. A request is its two path
  variables ("" when absent) plus a decoded record or a decoding failure. A response is its
  status code and `vc` header; the JSON error message in the body is not modelled.
- What a failed JSON decode leaves in the record. The handlers return at once, so it is not
  observable; the model leaves the record at its zero value.
- Which JSON fields can be decoded. `id` and `Address` are carried as opaque data, as the
  decoding produced them.
- Logging and the App Engine request context: they do not affect behaviour.
- The SMS gateway (`sendSms_Twilio`) and the commented-out Plivo variant. They are foreign
  network calls and are modelled as a success flag. The message handed to the gateway is
  returned, so that who is texted and with which code can be stated.
- `Random4DigitNumber`: it comes from an external package and its range is not visible. It
  is an arbitrary int parameter.
- `time.Now()`: it is a parameter, and the record gets `At(now)`, which is never the zero
  time `Unset`.
- The datastore internals and the bodies of `exists`, `save`, `get` and `delete`, which are
  not part of this model. They are map lookup, insert and remove, with a flag for failure.
  `exists` is modelled as exact membership; a failing existence check is not modelled.
  A get that fails with a field mismatch after a partial load is not modelled.
- The race between the existence check and the save under concurrent registrations of one
  number: this is concurrency.
- Strconv.Atoi: Go's `ParseUint` can report a range error, with the clamped value, for an
  overlong digit run before it reaches a later invalid character. The model gives such
  input 0.
- Codes are unbounded ints, not Go's 64-bit `int`. The round trip through the `vc` header
  and the path is proved for the int64 range.
