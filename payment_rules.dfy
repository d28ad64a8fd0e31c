/** The mock gateway's decision and the order status it leads to. */
module PaymentRules {
  import opened Records

  /** `shouldFail || !paymentMethodId`, with `shouldFail` defaulting to false. */
  function Declined(paymentMethodId: Option<string>, shouldFail: Option<bool>): (declined: bool)
    ensures declined <==> shouldFail == Some(true) || paymentMethodId == None || paymentMethodId == Some("")
  {
    shouldFail.GetOr(false) || !StringGiven(paymentMethodId)
  }

  /** The status an order has after a pay call: a PENDING order becomes PAID
      or CANCELLED, any other status is left as it is (the call is rejected). */
  function AfterPayment(status: Status, declined: bool): (next: Status)
    ensures status != PENDING ==> next == status
    ensures status == PENDING ==> next != PENDING && (next == PAID <==> !declined)
  {
    if status != PENDING then status
    else if declined then CANCELLED
    else PAID
  }

  /** PAID and CANCELLED are terminal: a second pay call never changes what
      the first one decided. */
  lemma TerminalAfterPayment(status: Status, first: bool, second: bool)
    ensures AfterPayment(AfterPayment(status, first), second) == AfterPayment(status, first)
  {
  }
}
