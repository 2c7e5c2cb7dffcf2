/**
 * The amount check of the send dialog (SendModal.jsx, `validateAmount`). Amounts, balance and
 * fee are whole numbers of satoshis, compared as unbounded integers as `BigInt` does.
 */
module SendModal {
  import opened Types

  const ErrAmountNotPositive := "Amount must be greater than 0"
  const ErrInsufficientBalance := "Insufficient balance including fees"

  /** The object `validateAmount` returns: `{ valid: true }` or `{ valid: false, error }`. */
  datatype AmountCheck = ValidAmount | InvalidAmount(error: string)

  /** `BigInt(fee || 0)`: an absent fee counts as zero. */
  function FeeOrZero(fee: Option<int>): int {
    if fee.Some? then fee.value else 0
  }

  /** The positivity check runs first; then the amount plus the fee must fit in the balance. */
  function ValidateAmount(amount: int, balance: int, fee: Option<int>): (r: AmountCheck)
    ensures amount <= 0 ==> r == InvalidAmount(ErrAmountNotPositive)
    ensures amount > 0 && amount + FeeOrZero(fee) > balance ==> r == InvalidAmount(ErrInsufficientBalance)
    ensures r == ValidAmount <==> 0 < amount && amount + FeeOrZero(fee) <= balance
    ensures r.InvalidAmount? ==> r.error in {ErrAmountNotPositive, ErrInsufficientBalance}
  {
    var f := FeeOrZero(fee);
    if amount <= 0 then InvalidAmount(ErrAmountNotPositive)
    else if amount + f > balance then InvalidAmount(ErrInsufficientBalance)
    else ValidAmount
  }

  /** Sending without a fee is judged as sending with a fee of zero. */
  lemma MissingFeeIsZero(amount: int, balance: int)
    ensures ValidateAmount(amount, balance, None) == ValidateAmount(amount, balance, Some(0))
  {
  }

  /**
   * An accepted transfer stays accepted with a larger balance, a smaller positive amount or a
   * smaller fee.
   */
  lemma ValidateAmountMonotone(amount: int, balance: int, fee: int, amount': int, balance': int, fee': int)
    requires ValidateAmount(amount, balance, Some(fee)) == ValidAmount
    requires 0 < amount' <= amount && balance <= balance' && fee' <= fee
    ensures ValidateAmount(amount', balance', Some(fee')) == ValidAmount
  {
  }
}
