/**
 * The report (`printPercentage`): the total prize of a tally and the profit
 * percentage of the purchase, as exact numbers.
 */
module LottoPrize {
  import opened LottoScore

  /** Prize of each tally slot: 3, 4, 5, 5 + bonus and 6 matches. */
  const Prizes: seq<int> := [5000, 50000, 1500000, 30000000, 2000000000]

  /** `totalPrize`: each slot's count times its prize, summed. */
  function TotalPrize(matchThree: int, matchFour: int, matchFive: int, matchFiveBonus: int, matchSix: int): (total: int)
    ensures total % Prizes[0] == 0
    ensures matchThree >= 0 && matchFour >= 0 && matchFive >= 0 && matchFiveBonus >= 0 && matchSix >= 0 ==>
      total >= 0 &&
      (total == 0 <==> matchThree == matchFour == matchFive == matchFiveBonus == matchSix == 0)
  {
    matchThree * Prizes[0] + matchFour * Prizes[1] + matchFive * Prizes[2]
      + matchFiveBonus * Prizes[3] + matchSix * Prizes[4]
  }

  /** The total of an all-zero tally is 0; a single 3-match wins 5000. */
  lemma TotalPrizeExamples()
    ensures TotalPrize(0, 0, 0, 0, 0) == 0
    ensures TotalPrize(1, 0, 0, 0, 0) == 5000
  {
  }

  /** The total prize grows with each count: one more ticket in a slot adds that slot's prize. */
  lemma TotalPrizeAddsSlotPrize(t0: int, t1: int, t2: int, t3: int, t4: int)
    ensures TotalPrize(t0 + 1, t1, t2, t3, t4) == TotalPrize(t0, t1, t2, t3, t4) + Prizes[0]
    ensures TotalPrize(t0, t1 + 1, t2, t3, t4) == TotalPrize(t0, t1, t2, t3, t4) + Prizes[1]
    ensures TotalPrize(t0, t1, t2 + 1, t3, t4) == TotalPrize(t0, t1, t2, t3, t4) + Prizes[2]
    ensures TotalPrize(t0, t1, t2, t3 + 1, t4) == TotalPrize(t0, t1, t2, t3, t4) + Prizes[3]
    ensures TotalPrize(t0, t1, t2, t3, t4 + 1) == TotalPrize(t0, t1, t2, t3, t4) + Prizes[4]
  {
  }

  /** A tally of at most `n` tickets wins at most `n` times the top prize. */
  lemma TotalPrizeAtMost(t0: nat, t1: nat, t2: nat, t3: nat, t4: nat, n: nat)
    requires t0 + t1 + t2 + t3 + t4 <= n
    ensures TotalPrize(t0, t1, t2, t3, t4) <= Prizes[4] * n
  {
  }

  /**
   * The total prize of the program's tally: 3-, 4- and 6-match tickets are
   * paid, 5-match tickets are not, and the total is at most the top prize per
   * ticket.
   */
  lemma {:induction false} PrizeOfTallyAsWritten(ts: seq<seq<int>>, lottonumber: seq<int>)
    ensures TotalPrize(CountInSlot(ts, lottonumber, 0), CountInSlot(ts, lottonumber, 1),
                       CountInSlot(ts, lottonumber, 2), CountInSlot(ts, lottonumber, 3),
                       CountInSlot(ts, lottonumber, 4))
         == Prizes[0] * CountMatching(ts, lottonumber, {3}) + Prizes[1] * CountMatching(ts, lottonumber, {4})
          + Prizes[4] * CountMatching(ts, lottonumber, {6})
    ensures TotalPrize(CountInSlot(ts, lottonumber, 0), CountInSlot(ts, lottonumber, 1),
                       CountInSlot(ts, lottonumber, 2), CountInSlot(ts, lottonumber, 3),
                       CountInSlot(ts, lottonumber, 4))
         <= Prizes[4] * |ts|
  {
    TallyAsWritten(ts, lottonumber);
    TallyTotalAsWritten(ts, lottonumber);
    TotalPrizeAtMost(CountInSlot(ts, lottonumber, 0), CountInSlot(ts, lottonumber, 1),
                     CountInSlot(ts, lottonumber, 2), CountInSlot(ts, lottonumber, 3),
                     CountInSlot(ts, lottonumber, 4), |ts|);
  }

  /** `profitPercentage`: the total prize as a percentage of the purchase amount, exactly. */
  function ProfitPercentage(totalPrize: int, money: int): (p: real)
    requires money > 0
    ensures p * (money as real) == (totalPrize as real) * 100.0
    ensures totalPrize >= 0 ==> p >= 0.0
  {
    (totalPrize as real / money as real) * 100.0
  }

  /** 14 tickets and one 3-match: 5000 / 14000 * 100 = 250/7, which shows as 35.7. */
  lemma ProfitExample()
    ensures ProfitPercentage(TotalPrize(1, 0, 0, 0, 0), 14000) == 250.0 / 7.0
    ensures 35.65 <= ProfitPercentage(TotalPrize(1, 0, 0, 0, 0), 14000) < 35.75
  {
  }
}
