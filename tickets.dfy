/**
 * Buying tickets (`setRandomNumber`): each ticket is the array that the random
 * source returns, sorted ascending in place and appended to the list of tickets.
 *
 * The random source is replaced by the sequence of its results, `draws`.
 */
module LottoTickets {
  import opened LottoInput

  /** Number of numbers on a ticket. */
  const TicketSize: int := 6

  predicate Sorted(s: seq<int>)
  {
    forall i, j :: 0 <= i < j < |s| ==> s[i] <= s[j]
  }

  predicate Distinct(s: seq<int>)
  {
    forall i, j :: 0 <= i < j < |s| ==> s[i] != s[j]
  }

  /** What the random source promises of each draw: 6 distinct numbers in [1, 45]. */
  predicate ValidTicket(s: seq<int>)
  {
    |s| == TicketSize && Distinct(s) &&
    forall i :: 0 <= i < |s| ==> MinNumber <= s[i] <= MaxNumber
  }

  /** `s` holds the numbers of `d` in ascending order. */
  predicate IsSortingOf(s: seq<int>, d: seq<int>)
  {
    Sorted(s) && multiset(s) == multiset(d)
  }

  /** `Random.pickUniqueNumbersInRange(1, 45, 6)`: a new array holding the draw `d`. */
  method PickDraw(d: seq<int>) returns (numbers: array<int>)
    ensures fresh(numbers)
    ensures numbers[..] == d
  {
    numbers := new int[|d|](i requires 0 <= i < |d| => d[i]);
  }

  /**
   * `numbers.sort((a, b) => a - b)`: sorts the array ascending in place
   * (by insertion, moving each element left past the larger ones).
   */
  method SortAscending(a: array<int>)
    modifies a
    ensures IsSortingOf(a[..], old(a[..]))
  {
    for i := 0 to a.Length
      invariant Sorted(a[..i])
      invariant multiset(a[..]) == multiset(old(a[..]))
    {
      var j := i;
      while 0 < j && a[j] < a[j - 1]
        invariant 0 <= j <= i
        invariant forall p, q :: 0 <= p < q <= i && p != j && q != j ==> a[p] <= a[q]
        invariant forall q :: j < q <= i ==> a[j] < a[q]
        invariant multiset(a[..]) == multiset(old(a[..]))
      {
        a[j - 1], a[j] := a[j], a[j - 1];
        j := j - 1;
      }
    }
  }

  /**
   * `setRandomNumber(count)`: draws `count` tickets. The guard
   * `!randomNumbers.includes(numbers)` compares array references; the array
   * was just allocated, so it is never among the tickets and every draw is kept.
   */
  method SetRandomNumber(count: nat, draws: seq<seq<int>>) returns (randomNumbers: seq<array<int>>)
    requires |draws| == count
    ensures |randomNumbers| == count
    ensures forall k :: 0 <= k < count ==> fresh(randomNumbers[k])
    ensures forall k, l :: 0 <= k < l < count ==> randomNumbers[k] != randomNumbers[l]
    ensures forall k :: 0 <= k < count ==> IsSortingOf(randomNumbers[k][..], draws[k])
  {
    randomNumbers := [];
    for i := 0 to count
      invariant |randomNumbers| == i
      invariant forall k :: 0 <= k < i ==> fresh(randomNumbers[k])
      invariant forall k, l :: 0 <= k < l < i ==> randomNumbers[k] != randomNumbers[l]
      invariant forall k :: 0 <= k < i ==> IsSortingOf(randomNumbers[k][..], draws[k])
    {
      var numbers := PickDraw(draws[i]);
      if numbers !in randomNumbers {
        SortAscending(numbers);
        randomNumbers := randomNumbers + [numbers];
      }
    }
  }

  /** The numbers held by each ticket, in purchase order. */
  ghost function Contents(randomNumbers: seq<array<int>>): (ts: seq<seq<int>>)
    reads set k | 0 <= k < |randomNumbers| :: randomNumbers[k]
    ensures |ts| == |randomNumbers|
    ensures forall k :: 0 <= k < |ts| ==> ts[k] == randomNumbers[k][..]
  {
    seq(|randomNumbers|, k reads randomNumbers requires 0 <= k < |randomNumbers| => randomNumbers[k][..])
  }

  /** Two ascending orderings of the same numbers are equal: sorting determines the ticket. */
  lemma {:induction false} SortingIsUnique(s: seq<int>, t: seq<int>)
    requires Sorted(s) && Sorted(t) && multiset(s) == multiset(t)
    ensures s == t
  {
    if s != [] {
      assert |t| == |s| by { assert |multiset(t)| == |multiset(s)|; }
      assert s[0] in multiset(t);
      assert t[0] in multiset(s);
      assert s[0] == t[0];
      assert s == [s[0]] + s[1..];
      assert t == [t[0]] + t[1..];
      assert multiset(s) == multiset{s[0]} + multiset(s[1..]);
      assert multiset(t) == multiset{t[0]} + multiset(t[1..]);
      assert multiset(s[1..]) == multiset(s) - multiset{s[0]};
      assert multiset(t[1..]) == multiset(t) - multiset{t[0]};
      SortingIsUnique(s[1..], t[1..]);
    } else {
      assert |t| == 0 by { assert |multiset(t)| == |multiset(s)|; }
    }
  }

  /** A sequence is free of repetitions exactly when no number occurs twice in its multiset. */
  lemma {:induction false} DistinctIffSingleOccurrences(s: seq<int>)
    ensures Distinct(s) <==> forall x :: multiset(s)[x] <= 1
  {
    if s != [] {
      var rest := s[1..];
      assert s == [s[0]] + rest;
      assert multiset(s) == multiset{s[0]} + multiset(rest);
      DistinctIffSingleOccurrences(rest);
      if Distinct(s) {
        assert Distinct(rest) by {
          forall i, j | 0 <= i < j < |rest| ensures rest[i] != rest[j] {
            assert rest[i] == s[i + 1] && rest[j] == s[j + 1];
          }
        }
        assert s[0] !in rest by {
          forall i | 0 <= i < |rest| ensures rest[i] != s[0] { assert rest[i] == s[i + 1]; }
        }
      } else {
        var i, j :| 0 <= i < j < |s| && s[i] == s[j];
        if i == 0 {
          assert s[j] == rest[j - 1];
          assert multiset(s)[s[0]] >= 2;
        } else {
          assert rest[i - 1] == rest[j - 1];
          assert !Distinct(rest);
          var x :| multiset(rest)[x] > 1;
          assert multiset(s)[x] > 1;
        }
      }
    }
  }

  /**
   * Sorting a valid draw gives a valid ticket, and its numbers are strictly
   * ascending.
   */
  lemma SortedDrawIsTicket(s: seq<int>, d: seq<int>)
    requires ValidTicket(d) && IsSortingOf(s, d)
    ensures ValidTicket(s)
    ensures forall i, j :: 0 <= i < j < |s| ==> s[i] < s[j]
  {
    assert |s| == |d| by { assert |multiset(s)| == |multiset(d)|; }
    forall i | 0 <= i < |s| ensures MinNumber <= s[i] <= MaxNumber {
      assert s[i] in multiset(d);
    }
    DistinctIffSingleOccurrences(d);
    DistinctIffSingleOccurrences(s);
  }

  /** Every ticket bought from valid draws is a valid ticket holding its draw's numbers. */
  lemma TicketsAreValid(randomNumbers: seq<seq<int>>, draws: seq<seq<int>>)
    requires |randomNumbers| == |draws|
    requires forall k :: 0 <= k < |draws| ==> ValidTicket(draws[k])
    requires forall k :: 0 <= k < |draws| ==> IsSortingOf(randomNumbers[k], draws[k])
    ensures forall k :: 0 <= k < |draws| ==> ValidTicket(randomNumbers[k])
    ensures forall k :: 0 <= k < |draws| ==> forall i, j :: 0 <= i < j < |randomNumbers[k]| ==> randomNumbers[k][i] < randomNumbers[k][j]
  {
    forall k | 0 <= k < |draws|
      ensures ValidTicket(randomNumbers[k])
      ensures forall i, j :: 0 <= i < j < |randomNumbers[k]| ==> randomNumbers[k][i] < randomNumbers[k][j]
    {
      SortedDrawIsTicket(randomNumbers[k], draws[k]);
    }
  }
}
