/** The record the gateway stores and the two account types (main.go). */
module Domain {

  datatype Option<+T> = None | Some(value: T)

  /** One accounting record. The amount is a float64 in the gateway; only
      comparisons are made on it, so a real models it. */
  datatype Account = Account(
    number: string,
    name: string,
    iban: string,
    address: string,
    amount: real,
    accountType: string)

  const TypeSending: string := "sending"
  const TypeReceiving: string := "receiving"

  /** The HTTP method names the gateway compares against. */
  const MethodGet: string := "GET"
  const MethodPost: string := "POST"
  const MethodPut: string := "PUT"
}
