/**
 * One game (`play`): read the purchase amount, buy the tickets, read the bonus
 * number, score the tickets and compute the report.
 *
 * The console is modelled by the finite sequences of lines given for each
 * prompt, the random source by `draw(i)`, the numbers it returns on its i-th
 * call, and the winning numbers are a given sequence; their validation
 * (`Lotto`) is not modelled.
 */
module LottoGame {
  import opened Wrappers
  import opened LottoInput
  import opened LottoTickets
  import opened LottoScore
  import opened LottoPrize

  /** What the game reports: the accepted inputs, the tally and the prize. */
  datatype Report = Report(money: int, lottos: int, bonus: int, matches: seq<int>, totalPrize: int, profit: real)

  /** `v` is the value of the first line of `inputs` that `validator` accepts. */
  ghost predicate FirstAccepted<T>(inputs: seq<Option<int>>, validator: Option<int> -> Result<T, InputError>, v: T)
  {
    exists k :: 0 <= k < |inputs| && validator(inputs[k]) == Success(v) &&
      forall j :: 0 <= j < k ==> validator(inputs[j]).Failure?
  }

  /** The numbers the random source returns on its first `count` calls. */
  function Draws(draw: nat -> seq<int>, count: nat): (ds: seq<seq<int>>)
    ensures |ds| == count
    ensures forall i :: 0 <= i < count ==> ds[i] == draw(i)
  {
    seq(count, i requires 0 <= i => draw(i))
  }

  method Play(moneyInputs: seq<Option<int>>, draw: nat -> seq<int>, lottonumber: seq<int>, bonusInputs: seq<Option<int>>)
    returns (report: Option<Report>)
    ensures report.None? ==>
      (forall j :: 0 <= j < |moneyInputs| ==> MoneyValidator(moneyInputs[j]).Failure?) ||
      (forall j :: 0 <= j < |bonusInputs| ==> BonusValidator(lottonumber, bonusInputs[j]).Failure?)
    ensures report.Some? ==>
      var r := report.value;
      FirstAccepted(moneyInputs, MoneyValidator, r.money) &&
      FirstAccepted(bonusInputs, b => BonusValidator(lottonumber, b), r.bonus) &&
      r.lottos > 0 && r.lottos * TicketPrice == r.money &&
      |r.matches| == TallySize &&
      (forall slot :: 0 <= slot < TallySize ==>
         r.matches[slot] == CountInSlot(Draws(draw, r.lottos), lottonumber, slot)) &&
      r.totalPrize == TotalPrize(r.matches[0], r.matches[1], r.matches[2], r.matches[3], r.matches[4]) &&
      0 <= r.totalPrize <= Prizes[4] * r.lottos &&
      r.profit == ProfitPercentage(r.totalPrize, r.money)
  {
    var money, used, _ := RetryValid(moneyInputs, MoneyValidator);
    if money.None? {
      return None;
    }
    var lottos := TicketCount(money.value);
    var draws := Draws(draw, lottos);
    var randomNumbers := SetRandomNumber(lottos, draws);
    var bonusNumber, usedBonus, _ := RetryValid(bonusInputs, b => BonusValidator(lottonumber, b));
    if bonusNumber.None? {
      return None;
    }
    var matches := MatchNumber(randomNumbers, lottonumber, bonusNumber.value);
    ghost var ts := Contents(randomNumbers);
    forall slot | 0 <= slot < TallySize
      ensures CountInSlot(ts, lottonumber, slot) == CountInSlot(draws, lottonumber, slot)
    {
      ScoringIgnoresSorting(ts, draws, lottonumber, slot);
    }
    PrizeOfTallyAsWritten(ts, lottonumber);
    var totalPrize := TotalPrize(matches[0], matches[1], matches[2], matches[3], matches[4]);
    report := Some(Report(money.value, lottos, bonusNumber.value, matches[..], totalPrize,
                          ProfitPercentage(totalPrize, money.value)));
  }
}
