/**
 * Scoring (`matchNumber`): for every ticket, count how many of its numbers are
 * winning numbers, and bump one slot of a five-slot tally
 * [3 matches, 4 matches, 5 matches, 5 matches + bonus, 6 matches].
 *
 * The program's 5-match branch only reads `matches[3]` or `matches[2]` and
 * never increments them; `MatchNumber` models that as written, and
 * `MatchNumberIntended` models the tier table the game describes.
 */
module LottoScore {
  import opened Wrappers
  import opened LottoTickets

  /** Number of slots in the tally. */
  const TallySize: int := 5

  /** `userNumbers.filter(num => lottonumber.includes(num)).length`. */
  function MatchCount(userNumbers: seq<int>, lottonumber: seq<int>): (c: nat)
    ensures c <= |userNumbers|
    ensures c == 0 <==> forall i :: 0 <= i < |userNumbers| ==> userNumbers[i] !in lottonumber
  {
    if userNumbers == [] then 0
    else
      MatchCount(userNumbers[..|userNumbers| - 1], lottonumber) +
      (if userNumbers[|userNumbers| - 1] in lottonumber then 1 else 0)
  }

  /** The prize tiers, in tally order. */
  datatype Tier = MatchThree | MatchFour | MatchFive | MatchFiveBonus | MatchSix

  /** Position of a tier in the tally. */
  function Slot(t: Tier): (s: nat)
    ensures s < TallySize
  {
    match t
    case MatchThree => 0
    case MatchFour => 1
    case MatchFive => 2
    case MatchFiveBonus => 3
    case MatchSix => 4
  }

  /** The game's tier table: the tier a ticket wins, if any. */
  function IntendedTier(count: nat, bonusMatched: bool): Option<Tier>
  {
    if count == 3 then Some(MatchThree)
    else if count == 4 then Some(MatchFour)
    else if count == 5 then (if bonusMatched then Some(MatchFiveBonus) else Some(MatchFive))
    else if count == 6 then Some(MatchSix)
    else None
  }

  /** The slot that `matchNumber`, as written, increments for a ticket with `count` matches. */
  function SlotAsWritten(count: nat): Option<nat>
  {
    if count == 3 then Some(0)
    else if count == 4 then Some(1)
    else if count == 6 then Some(4)
    else None
  }

  /** Number of tickets that land in `slot` of the program's tally. */
  function CountInSlot(ts: seq<seq<int>>, lottonumber: seq<int>, slot: nat): (n: nat)
    ensures n <= |ts|
  {
    if ts == [] then 0
    else
      CountInSlot(ts[..|ts| - 1], lottonumber, slot) +
      (if SlotAsWritten(MatchCount(ts[|ts| - 1], lottonumber)) == Some(slot) then 1 else 0)
  }

  /** The tier a ticket wins under the game's tier table. */
  function TicketTier(userNumbers: seq<int>, lottonumber: seq<int>, bonus: int): Option<Tier>
  {
    IntendedTier(MatchCount(userNumbers, lottonumber), bonus in userNumbers)
  }

  /** Number of tickets whose tier sits at `slot` under the game's tier table. */
  function IntendedCountInSlot(ts: seq<seq<int>>, lottonumber: seq<int>, bonus: int, slot: nat): (n: nat)
    ensures n <= |ts|
  {
    if ts == [] then 0
    else
      IntendedCountInSlot(ts[..|ts| - 1], lottonumber, bonus, slot) +
      (match TicketTier(ts[|ts| - 1], lottonumber, bonus)
       case Some(t) => if Slot(t) == slot then 1 else 0
       case None => 0)
  }

  /** Number of tickets whose match count is in `counts`. */
  function CountMatching(ts: seq<seq<int>>, lottonumber: seq<int>, counts: set<nat>): (n: nat)
    ensures n <= |ts|
  {
    if ts == [] then 0
    else
      CountMatching(ts[..|ts| - 1], lottonumber, counts) +
      (if MatchCount(ts[|ts| - 1], lottonumber) in counts then 1 else 0)
  }

  /** `matchNumber(randomNumbers, lottonumber, bonumNumber)` as the program has it. */
  method MatchNumber(randomNumbers: seq<array<int>>, lottonumber: seq<int>, bonumNumber: int)
    returns (matches: array<int>)
    ensures fresh(matches)
    ensures matches.Length == TallySize
    ensures forall slot :: 0 <= slot < TallySize ==>
      matches[slot] == CountInSlot(Contents(randomNumbers), lottonumber, slot)
  {
    ghost var ts := Contents(randomNumbers);
    matches := new int[TallySize](_ => 0);
    for i := 0 to |randomNumbers|
      invariant ts == Contents(randomNumbers)
      invariant forall slot :: 0 <= slot < TallySize ==> matches[slot] == CountInSlot(ts[..i], lottonumber, slot)
    {
      var userNumbers := randomNumbers[i];
      var userMatchCount := MatchCount(userNumbers[..], lottonumber);
      assert ts[..i + 1][..i] == ts[..i];
      if userMatchCount == 3 {
        matches[0] := matches[0] + 1;
      }
      if userMatchCount == 4 {
        matches[1] := matches[1] + 1;
      }
      if userMatchCount == 5 {
        // The program evaluates `matches[3]` or `matches[2]` and discards the value.
        var unused := if bonumNumber in userNumbers[..] then matches[3] else matches[2];
      }
      if userMatchCount == 6 {
        matches[4] := matches[4] + 1;
      }
    }
    assert ts[..|randomNumbers|] == ts;
  }

  /** `matchNumber` with the 5-match branch incrementing its two slots. */
  method MatchNumberIntended(randomNumbers: seq<array<int>>, lottonumber: seq<int>, bonumNumber: int)
    returns (matches: array<int>)
    ensures fresh(matches)
    ensures matches.Length == TallySize
    ensures forall slot :: 0 <= slot < TallySize ==>
      matches[slot] == IntendedCountInSlot(Contents(randomNumbers), lottonumber, bonumNumber, slot)
  {
    ghost var ts := Contents(randomNumbers);
    matches := new int[TallySize](_ => 0);
    for i := 0 to |randomNumbers|
      invariant ts == Contents(randomNumbers)
      invariant forall slot :: 0 <= slot < TallySize ==>
        matches[slot] == IntendedCountInSlot(ts[..i], lottonumber, bonumNumber, slot)
    {
      var userNumbers := randomNumbers[i];
      var userMatchCount := MatchCount(userNumbers[..], lottonumber);
      assert ts[..i + 1][..i] == ts[..i];
      if userMatchCount == 3 {
        matches[0] := matches[0] + 1;
      }
      if userMatchCount == 4 {
        matches[1] := matches[1] + 1;
      }
      if userMatchCount == 5 {
        if bonumNumber in userNumbers[..] {
          matches[3] := matches[3] + 1;
        } else {
          matches[2] := matches[2] + 1;
        }
      }
      if userMatchCount == 6 {
        matches[4] := matches[4] + 1;
      }
    }
    assert ts[..|randomNumbers|] == ts;
  }

  /** The slot matchNumber bumps is the tier table's slot, except that 5 matches bump nothing. */
  lemma SlotAsWrittenAgainstTiers(count: nat, bonusMatched: bool)
    ensures count != 5 ==> SlotAsWritten(count) == match IntendedTier(count, bonusMatched)
                                                   case Some(t) => Some(Slot(t))
                                                   case None => None
    ensures count == 5 ==> SlotAsWritten(count) == None && IntendedTier(count, bonusMatched).Some?
  {
  }

  /**
   * As written, slots 0, 1 and 4 count the tickets with 3, 4 and 6 matches,
   * and slots 2 and 3 (and any slot past the tally) stay 0 for every input.
   */
  lemma {:induction false} TallyAsWritten(ts: seq<seq<int>>, lottonumber: seq<int>)
    ensures CountInSlot(ts, lottonumber, 0) == CountMatching(ts, lottonumber, {3})
    ensures CountInSlot(ts, lottonumber, 1) == CountMatching(ts, lottonumber, {4})
    ensures CountInSlot(ts, lottonumber, 2) == 0
    ensures CountInSlot(ts, lottonumber, 3) == 0
    ensures CountInSlot(ts, lottonumber, 4) == CountMatching(ts, lottonumber, {6})
    ensures forall slot: nat :: slot >= TallySize ==> CountInSlot(ts, lottonumber, slot) == 0
  {
    if ts != [] {
      TallyAsWritten(ts[..|ts| - 1], lottonumber);
    }
  }

  /** Counting the tickets of two disjoint sets of match counts adds up. */
  lemma {:induction false} CountMatchingUnion(ts: seq<seq<int>>, lottonumber: seq<int>, a: set<nat>, b: set<nat>)
    requires a !! b
    ensures CountMatching(ts, lottonumber, a) + CountMatching(ts, lottonumber, b) == CountMatching(ts, lottonumber, a + b)
  {
    if ts != [] {
      CountMatchingUnion(ts[..|ts| - 1], lottonumber, a, b);
    }
  }

  /**
   * As written, the tally's entries add up to the number of tickets with 3, 4
   * or 6 matches, which is at most the number of tickets.
   */
  lemma {:induction false} TallyTotalAsWritten(ts: seq<seq<int>>, lottonumber: seq<int>)
    ensures CountInSlot(ts, lottonumber, 0) + CountInSlot(ts, lottonumber, 1) + CountInSlot(ts, lottonumber, 2)
          + CountInSlot(ts, lottonumber, 3) + CountInSlot(ts, lottonumber, 4)
         == CountMatching(ts, lottonumber, {3, 4, 6})
    ensures CountMatching(ts, lottonumber, {3, 4, 6}) <= |ts|
  {
    TallyAsWritten(ts, lottonumber);
    CountMatchingUnion(ts, lottonumber, {3}, {4});
    CountMatchingUnion(ts, lottonumber, {3, 4}, {6});
    assert {3} + {4} == {3, 4};
    assert {3, 4} + {6} == {3, 4, 6};
  }

  /**
   * Under the tier table, slots 0, 1 and 4 agree with the program, slots 2
   * and 3 share the tickets with 5 matches by the bonus number, and the
   * entries add up to the number of tickets with at least 3 matches.
   */
  lemma {:induction false} TallyIntended(ts: seq<seq<int>>, lottonumber: seq<int>, bonus: int)
    ensures IntendedCountInSlot(ts, lottonumber, bonus, 0) == CountInSlot(ts, lottonumber, 0)
    ensures IntendedCountInSlot(ts, lottonumber, bonus, 1) == CountInSlot(ts, lottonumber, 1)
    ensures IntendedCountInSlot(ts, lottonumber, bonus, 4) == CountInSlot(ts, lottonumber, 4)
    ensures IntendedCountInSlot(ts, lottonumber, bonus, 2) + IntendedCountInSlot(ts, lottonumber, bonus, 3)
         == CountMatching(ts, lottonumber, {5})
    ensures forall slot: nat :: slot >= TallySize ==> IntendedCountInSlot(ts, lottonumber, bonus, slot) == 0
  {
    if ts != [] {
      TallyIntended(ts[..|ts| - 1], lottonumber, bonus);
    }
  }

  /** Under the tier table, every ticket with 3 or more matches is tallied exactly once. */
  lemma {:induction false} TallyTotalIntended(ts: seq<seq<int>>, lottonumber: seq<int>, bonus: int)
    ensures IntendedCountInSlot(ts, lottonumber, bonus, 0) + IntendedCountInSlot(ts, lottonumber, bonus, 1)
          + IntendedCountInSlot(ts, lottonumber, bonus, 2) + IntendedCountInSlot(ts, lottonumber, bonus, 3)
          + IntendedCountInSlot(ts, lottonumber, bonus, 4)
         == CountMatching(ts, lottonumber, {3, 4, 5, 6})
  {
    TallyIntended(ts, lottonumber, bonus);
    TallyAsWritten(ts, lottonumber);
    CountMatchingUnion(ts, lottonumber, {3}, {4});
    CountMatchingUnion(ts, lottonumber, {3, 4}, {5});
    CountMatchingUnion(ts, lottonumber, {3, 4, 5}, {6});
    assert {3} + {4} == {3, 4};
    assert {3, 4} + {5} == {3, 4, 5};
    assert {3, 4, 5} + {6} == {3, 4, 5, 6};
  }

  /**
   * The scoring examples of the game: with winning numbers 1..6 and bonus 7,
   * [1,2,3,4,5,7] is a 5-match with bonus, [1,2,3,4,5,8] a 5-match without,
   * and [1,2,3,7,8,9] a 3-match.
   */
  lemma ScoringExamples()
    ensures TicketTier([1, 2, 3, 4, 5, 7], [1, 2, 3, 4, 5, 6], 7) == Some(MatchFiveBonus)
    ensures TicketTier([1, 2, 3, 4, 5, 8], [1, 2, 3, 4, 5, 6], 7) == Some(MatchFive)
    ensures TicketTier([1, 2, 3, 7, 8, 9], [1, 2, 3, 4, 5, 6], 7) == Some(MatchThree)
  {
    assert [1, 2, 3, 4, 5, 7][..5] == [1, 2, 3, 4, 5];
    assert [1, 2, 3, 4, 5, 8][..5] == [1, 2, 3, 4, 5];
    assert [1, 2, 3, 7, 8, 9][..5] == [1, 2, 3, 7, 8];
    assert [1, 2, 3, 4, 5][..4] == [1, 2, 3, 4];
    assert [1, 2, 3, 7, 8][..4] == [1, 2, 3, 7];
    assert [1, 2, 3, 4][..3] == [1, 2, 3];
    assert [1, 2, 3, 7][..3] == [1, 2, 3];
    assert [1, 2, 3][..2] == [1, 2];
    assert [1, 2][..1] == [1];
    assert [1][..0] == [];
  }

  /**
   * The defect of the 5-match branch: one ticket [1,2,3,4,5,7] against winning
   * numbers 1..6 and bonus 7 wins the 5-match-with-bonus tier, yet the
   * program's tally stays all zero.
   */
  lemma FiveMatchIsDropped()
    ensures forall slot :: 0 <= slot < TallySize ==> CountInSlot([[1, 2, 3, 4, 5, 7]], [1, 2, 3, 4, 5, 6], slot) == 0
    ensures IntendedCountInSlot([[1, 2, 3, 4, 5, 7]], [1, 2, 3, 4, 5, 6], 7, 3) == 1
  {
    ScoringExamples();
    assert [[1, 2, 3, 4, 5, 7]][..0] == [];
  }

  /** Appending tickets' numbers adds their match counts. */
  lemma {:induction false} MatchCountAppend(a: seq<int>, b: seq<int>, lottonumber: seq<int>)
    ensures MatchCount(a + b, lottonumber) == MatchCount(a, lottonumber) + MatchCount(b, lottonumber)
  {
    if b != [] {
      var b' := b[..|b| - 1];
      assert (a + b)[..|a + b| - 1] == a + b';
      MatchCountAppend(a, b', lottonumber);
    } else {
      assert a + b == a;
    }
  }

  /** Taking one number out of a ticket takes its match out of the count. */
  lemma MatchCountRemove(t: seq<int>, k: nat, lottonumber: seq<int>)
    requires k < |t|
    ensures MatchCount(t, lottonumber)
         == MatchCount(t[..k] + t[k + 1..], lottonumber) + (if t[k] in lottonumber then 1 else 0)
  {
    assert t == (t[..k] + [t[k]]) + t[k + 1..];
    MatchCountAppend(t[..k] + [t[k]], t[k + 1..], lottonumber);
    MatchCountAppend(t[..k], [t[k]], lottonumber);
    MatchCountAppend(t[..k], t[k + 1..], lottonumber);
    assert [t[k]][..0] == [];
  }

  /** Taking one number out of a sequence takes one occurrence out of its multiset. */
  lemma MultisetRemove(t: seq<int>, k: nat)
    requires k < |t|
    ensures multiset(t[..k] + t[k + 1..]) == multiset(t) - multiset{t[k]}
  {
    assert t == t[..k] + [t[k]] + t[k + 1..];
  }

  /** The match count depends only on which numbers a ticket holds, not on their order. */
  lemma {:induction false} MatchCountIgnoresOrder(s: seq<int>, t: seq<int>, lottonumber: seq<int>)
    requires multiset(s) == multiset(t)
    ensures MatchCount(s, lottonumber) == MatchCount(t, lottonumber)
  {
    if s == [] {
      assert |t| == 0 by { assert |multiset(t)| == |multiset(s)|; }
    } else {
      var x := s[|s| - 1];
      var s' := s[..|s| - 1];
      assert multiset(s') == multiset(s) - multiset{x} by {
        assert s == s' + [x];
      }
      assert x in multiset(t);
      var k :| 0 <= k < |t| && t[k] == x;
      MultisetRemove(t, k);
      MatchCountIgnoresOrder(s', t[..k] + t[k + 1..], lottonumber);
      MatchCountRemove(t, k, lottonumber);
    }
  }

  /**
   * For a ticket without repeated numbers, the match count is the number of
   * winning numbers on it.
   */
  lemma {:induction false} MatchCountIsCommonNumbers(userNumbers: seq<int>, lottonumber: seq<int>)
    requires Distinct(userNumbers)
    ensures MatchCount(userNumbers, lottonumber) == |(set x | x in userNumbers) * (set y | y in lottonumber)|
  {
    var common := (set x | x in userNumbers) * (set y | y in lottonumber);
    if userNumbers == [] {
      assert common == {};
    } else {
      var last := userNumbers[|userNumbers| - 1];
      var rest := userNumbers[..|userNumbers| - 1];
      assert Distinct(rest);
      assert last !in rest by {
        forall i | 0 <= i < |rest| ensures rest[i] != last { assert rest[i] == userNumbers[i]; }
      }
      var common' := (set x | x in rest) * (set y | y in lottonumber);
      assert userNumbers == rest + [last];
      MatchCountIsCommonNumbers(rest, lottonumber);
      if last in lottonumber {
        assert common == common' + {last};
        assert last !in common';
      } else {
        assert common == common';
      }
    }
  }

  /** Scoring sorted tickets gives the same tally as scoring the draws they were sorted from. */
  lemma {:induction false} ScoringIgnoresSorting(ts: seq<seq<int>>, draws: seq<seq<int>>, lottonumber: seq<int>, slot: nat)
    requires |ts| == |draws|
    requires forall k :: 0 <= k < |ts| ==> IsSortingOf(ts[k], draws[k])
    ensures CountInSlot(ts, lottonumber, slot) == CountInSlot(draws, lottonumber, slot)
  {
    if ts != [] {
      ScoringIgnoresSorting(ts[..|ts| - 1], draws[..|draws| - 1], lottonumber, slot);
      MatchCountIgnoresOrder(ts[|ts| - 1], draws[|draws| - 1], lottonumber);
    }
  }
}
