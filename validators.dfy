/** The per-field validators the add handler applies besides the IBAN check
    (misc.go). */
module Validators {
  import opened Domain

  /** Account numbers are not constrained: every number passes. */
  function ValidateNumber(number: string): (ok: bool)
    ensures ok
  {
    true
  }

  /** Names are not constrained: every name passes. */
  function ValidateName(name: string): (ok: bool)
    ensures ok
  {
    true
  }

  /** Addresses are not constrained: every address passes. */
  function ValidateAddress(address: string): (ok: bool)
    ensures ok
  {
    true
  }

  /** The variadic bound check: one limit is a lower bound, two limits are an
      inclusive range, and no limit or more than two limits accept anything. */
  function ValidateAmount(amount: real, limits: seq<real>): (ok: bool)
    ensures |limits| == 0 ==> ok
    ensures |limits| == 1 ==> (ok <==> amount >= limits[0])
    ensures |limits| == 2 ==> (ok <==> limits[0] <= amount <= limits[1])
    ensures |limits| >= 3 ==> ok
  {
    if |limits| == 1 then
      !(amount < limits[0])
    else if |limits| == 2 then
      !(amount < limits[0] || amount > limits[1])
    else
      true
  }

  /** Only the two known account types pass. */
  function ValidateAccountType(accountType: string): (ok: bool)
    ensures ok <==> accountType == TypeSending || accountType == TypeReceiving
  {
    accountType == TypeSending || accountType == TypeReceiving
  }
}
