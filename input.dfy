/**
 * The input validators of the lottery game: the purchase amount, the bonus
 * number, and the retry loop that asks again until a validator accepts.
 *
 * `Number(input)` is modelled by its result: `Some(n)` for an integer, `None`
 * for NaN.
 */
module LottoInput {
  import opened Wrappers

  /** The errors the validators throw, one per error message. */
  datatype InputError =
    | NotANumber           // the input is not a number
    | NotPositive          // the amount is zero or negative
    | NotWholeTickets      // the amount is not a multiple of the ticket price
    | DuplicatesWinning    // the bonus number is one of the winning numbers
    | OutOfRange           // the bonus number is outside [MinNumber, MaxNumber]

  /** Price of one ticket. */
  const TicketPrice: int := 1000
  /** Smallest and largest number a ticket may hold. */
  const MinNumber: int := 1
  const MaxNumber: int := 45

  /**
   * Every rule of the purchase amount that `input` breaks, in the order the
   * validator checks them. For NaN the comparison `money <= 0` is false and
   * `money % 1000 !== 0` is true, so NaN breaks the first and the third rule.
   */
  function MoneyViolations(input: Option<int>): seq<InputError>
  {
    match input
    case None => [NotANumber, NotWholeTickets]
    case Some(m) =>
      (if m <= 0 then [NotPositive] else []) +
      (if m % TicketPrice != 0 then [NotWholeTickets] else [])
  }

  /**
   * The callback that `validMoney` hands to `retryValid`: it throws the error
   * of the first rule broken and otherwise returns the amount.
   */
  function MoneyValidator(input: Option<int>): (r: Result<int, InputError>)
    ensures r.Success? <==> input.Some? && input.value > 0 && input.value % TicketPrice == 0
    ensures r.Success? <==> MoneyViolations(input) == []
    ensures r.Success? ==> r.value == input.value
    ensures r.Failure? ==> r.error == MoneyViolations(input)[0]
  {
    match input
    case None => Failure(NotANumber)
    case Some(money) =>
      if money <= 0 then Failure(NotPositive)
      else if money % TicketPrice != 0 then Failure(NotWholeTickets)
      else Success(money)
  }

  /** Number of tickets an accepted amount buys (`money / 1000` in `play`). */
  function TicketCount(money: int): (n: int)
    requires MoneyValidator(Some(money)).Success?
    ensures n > 0
    ensures n * TicketPrice == money
  {
    money / TicketPrice
  }

  /**
   * Every rule of the bonus number that `input` breaks, in the order the
   * validator checks them. For NaN both `includes` (the winning numbers hold
   * no NaN) and the two range comparisons are false.
   */
  function BonusViolations(winning: seq<int>, input: Option<int>): seq<InputError>
  {
    match input
    case None => [NotANumber]
    case Some(b) =>
      (if b in winning then [DuplicatesWinning] else []) +
      (if b < MinNumber || b > MaxNumber then [OutOfRange] else [])
  }

  /** The callback that `getBonusNumber` hands to `retryValid`. */
  function BonusValidator(winning: seq<int>, input: Option<int>): (r: Result<int, InputError>)
    ensures r.Success? <==> input.Some? && input.value !in winning && MinNumber <= input.value <= MaxNumber
    ensures r.Success? <==> BonusViolations(winning, input) == []
    ensures r.Success? ==> r.value == input.value
    ensures r.Failure? ==> r.error == BonusViolations(winning, input)[0]
  {
    match input
    case None => Failure(NotANumber)
    case Some(bonusNumber) =>
      if bonusNumber in winning then Failure(DuplicatesWinning)
      else if bonusNumber < MinNumber || bonusNumber > MaxNumber then Failure(OutOfRange)
      else Success(bonusNumber)
  }

  /**
   * The order of the amount's rules decides which error is shown: -1500
   * breaks the second and the third rule and gets the second's error.
   */
  lemma MoneyValidatorExamples()
    ensures MoneyValidator(None) == Failure(NotANumber)
    ensures MoneyViolations(Some(-1500)) == [NotPositive, NotWholeTickets]
    ensures MoneyValidator(Some(-1500)) == Failure(NotPositive)
    ensures MoneyValidator(Some(0)) == Failure(NotPositive)
    ensures MoneyValidator(Some(1500)) == Failure(NotWholeTickets)
    ensures MoneyValidator(Some(14000)) == Success(14000) && TicketCount(14000) == 14
  {
  }

  /** The bonus number's errors against winning numbers 1..6. */
  lemma BonusValidatorExamples()
    ensures BonusValidator([1, 2, 3, 4, 5, 6], None) == Failure(NotANumber)
    ensures BonusValidator([1, 2, 3, 4, 5, 6], Some(3)) == Failure(DuplicatesWinning)
    ensures BonusValidator([1, 2, 3, 4, 5, 6], Some(46)) == Failure(OutOfRange)
    ensures BonusValidator([1, 2, 3, 4, 5, 6], Some(0)) == Failure(OutOfRange)
    ensures BonusValidator([1, 2, 3, 4, 5, 6], Some(7)) == Success(7)
  {
  }

  /**
   * `retryValid`: read inputs one after another, print the error of each
   * rejected one, and return the value of the first accepted one. The console
   * is a finite sequence of lines; `None` means that it ran out before any
   * line was accepted (the program would keep waiting). `used` is the number
   * of lines read.
   */
  method RetryValid<I, T>(inputs: seq<I>, validator: I -> Result<T, InputError>)
    returns (r: Option<T>, used: nat, printed: seq<InputError>)
    ensures used <= |inputs|
    ensures forall j :: 0 <= j < used - 1 ==> validator(inputs[j]).Failure?
    ensures r.Some? ==> 0 < used && validator(inputs[used - 1]) == Success(r.value)
    ensures r.None? ==> used == |inputs| && forall j :: 0 <= j < |inputs| ==> validator(inputs[j]).Failure?
    ensures |printed| == if r.Some? then used - 1 else used
    ensures forall j :: 0 <= j < |printed| ==> printed[j] == validator(inputs[j]).error
  {
    r, used, printed := None, 0, [];
    while used < |inputs|
      invariant used <= |inputs|
      invariant |printed| == used
      invariant forall j :: 0 <= j < used ==> validator(inputs[j]).Failure?
      invariant forall j :: 0 <= j < used ==> printed[j] == validator(inputs[j]).error
    {
      var outcome := validator(inputs[used]);
      used := used + 1;
      match outcome
      case Success(v) =>
        r := Some(v);
        return;
      case Failure(e) =>
        printed := printed + [e];
    }
  }
}
