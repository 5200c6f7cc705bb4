/**
 * The outcome of a withdrawal request (the `WithdrawalResult` enum): six
 * values, each with a fixed description, and the three-way split into
 * client errors, server errors and success that the controller turns into
 * an HTTP status.
 */
module WithdrawalResults {

  datatype WithdrawalResult =
    | ErrNegativeAmount
    | ErrZeroAmount
    | ErrInsufficientFunds
    | ErrUnknownAccount
    | ErrUnknown
    | Success
  {
    /** The description each enum constant is declared with; `toString` returns it. */
    function ToString(): string {
      match this
      case ErrNegativeAmount => "Cannot withdraw a negative amount"
      case ErrZeroAmount => "No amount specified for withdrawal"
      case ErrInsufficientFunds => "Insufficient funds for withdrawal"
      case ErrUnknownAccount => "No such account"
      case ErrUnknown => "Unknown error"
      case Success => "Withdrawal successful"
    }

    predicate IsClientError() {
      match this
      case ErrNegativeAmount | ErrZeroAmount | ErrInsufficientFunds | ErrUnknownAccount => true
      case _ => false
    }

    predicate IsServerError() {
      this == ErrUnknown
    }

    predicate IsSuccess() {
      this == Success
    }
  }

  /** Every result falls in exactly one of the three classes. */
  lemma Classification(r: WithdrawalResult)
    ensures r.IsClientError() <==> !r.IsServerError() && !r.IsSuccess()
    ensures r.IsServerError() <==> !r.IsClientError() && !r.IsSuccess()
    ensures r.IsSuccess() <==> !r.IsClientError() && !r.IsServerError()
  {
  }

  /** Client errors are precisely the failures other than the generic one. */
  lemma ClientErrorsAreTheRejections(r: WithdrawalResult)
    ensures r.IsClientError() <==> r != Success && r != ErrUnknown
  {
  }

  /** The descriptions tell the results apart. */
  lemma DescriptionsDistinct(a: WithdrawalResult, b: WithdrawalResult)
    ensures a.ToString() == b.ToString() ==> a == b
  {
  }

  lemma SuccessDescription()
    ensures Success.ToString() == "Withdrawal successful"
    ensures forall r: WithdrawalResult :: r.ToString() == "Withdrawal successful" ==> r.IsSuccess()
  {
  }
}
