/**
 * The customer record. Its shape follows the record type of customer/customer.go, with the
 * two changes the handlers require: the verification code is an int, and the record carries
 * a creation and a verification time. `id` and `Address` are carried as opaque data.
 */
module CustomerRecord {
  /** A `time.Time`: the zero value `time.Time{}` is `Unset`; `time.Now()` is some `At` instant. */
  datatype Time = Unset | At(instant: int)

  datatype Address = Address(line1: string, line2: string, city: string, state: string, zip: int)

  datatype Customer = Customer(
    id: string,
    verificationCode: int,
    firstName: string,
    lastName: string,
    email: string,
    phoneNumber: string,
    address: Address,
    createdTime: Time,
    verifiedTime: Time)

  const NoAddress: Address := Address("", "", "", "", 0)

  /** The zero value of the record, which a handler's `var u Customer` starts from. */
  const ZeroCustomer: Customer := Customer("", 0, "", "", "", "", NoAddress, Unset, Unset)
}
