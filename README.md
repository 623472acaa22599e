# Lottery game rules

A model of the rules of a console lottery game (`src/App.js`): the player
buys tickets for a purchase amount (1000 per ticket), each ticket holds six
distinct numbers in [1, 45] drawn at random and sorted ascending, the player
enters the winning numbers and a bonus number, every ticket is scored by how
many of its numbers are winning numbers, and the report gives the total prize
and the profit percentage.

The model is split by component:

- `wrappers.dfy` — `Option` (a parsed number, `None` for NaN) and `Result`
  (a validator's value or the error it throws).
- `input.dfy` (`LottoInput`) — the purchase-amount and bonus-number
  validators, the ticket count, and `retryValid`, the loop that reads lines
  until a validator accepts one. Each validator is tied to a reference list
  of every rule the input breaks, in checking order; the error thrown is the
  first of them. The console is a finite sequence of already parsed lines.
- `tickets.dfy` (`LottoTickets`) — `setRandomNumber`. Tickets are arrays,
  as in the program: each draw becomes a new array, is sorted in place and is
  appended. The guard `!randomNumbers.includes(numbers)` compares references,
  and the model keeps it as a reference test that Dafny proves always passes.
  The random source is replaced by the sequence of its results.
- `score.dfy` (`LottoScore`) — `matchNumber`, which fills a five-slot tally
  array in place. `MatchNumber` follows the program as written: for 5 matches
  it only reads `matches[3]` or `matches[2]`, so those slots stay 0.
  `MatchNumberIntended` increments them as the tier table says (see Findings).
- `prize.dfy` (`LottoPrize`) — the total prize of a tally and the profit
  percentage as an exact rational.
- `game.dfy` (`LottoGame`) — `play`, composing the pieces above.

Where the game's own description and the code differ, the model follows the
code:
- The description tallies 5-match tickets into two tiers. The code never
  increments those two slots.
- The description lists the bonus number's range rule before its duplicate
  rule. The code checks for a duplicate first.

## Model

| member | source | states |
|---|---|---|
| `LottoInput.MoneyValidator` | src/App.js:25-37 | accepts exactly the numbers that are > 0 and a multiple of 1000, returning them unchanged; on rejection the error is the first broken rule in the order not-a-number, ≤ 0, not a multiple of 1000 (`MoneyViolations`) |
| `LottoInput.MoneyValidatorExamples` | src/App.js:27-35 | NaN gives the not-a-number error; -1500 breaks two rules and gets the ≤ 0 error; 0 gives the ≤ 0 error; 1500 the multiple error; 14000 is accepted and buys 14 tickets |
| `LottoInput.TicketCount` | src/App.js:8 | an accepted amount buys a positive number of tickets, and that number times 1000 is the amount |
| `LottoInput.BonusValidator` | src/App.js:72-84 | accepts exactly the numbers that are not winning numbers and lie in [1, 45], returning them unchanged; on rejection the error is the first broken rule in the order not-a-number, duplicate, out of range (`BonusViolations`) |
| `LottoInput.BonusValidatorExamples` | src/App.js:74-82 | against winning numbers 1..6: NaN, 3 (duplicate), 46 and 0 (out of range) are rejected with their errors, 7 is accepted |
| `LottoInput.RetryValid` | src/App.js:40-49 | returns the value of the first line the validator accepts, every earlier line being rejected; prints the error of each rejected line in order; returns nothing only when every line is rejected |
| `LottoTickets.PickDraw` | src/App.js:54 | the random source's result is a new array holding the given draw |
| `LottoTickets.SortAscending` | src/App.js:56 | the array ends sorted ascending and holds the same multiset of numbers |
| `LottoTickets.SetRandomNumber` | src/App.js:51-62 | returns exactly `count` new, pairwise distinct arrays in draw order, the k-th holding the numbers of the k-th draw sorted ascending |
| `LottoTickets.SortingIsUnique` | src/App.js:56 | two ascending orderings of the same numbers are equal, so each ticket is determined by its draw |
| `LottoTickets.DistinctIffSingleOccurrences` | src/App.js:54 | a sequence has no repeated number exactly when no number occurs twice in its multiset |
| `LottoTickets.SortedDrawIsTicket` | src/App.js:54-57 | sorting a draw of 6 distinct numbers in [1, 45] gives a ticket of 6 distinct numbers in [1, 45], strictly ascending |
| `LottoTickets.TicketsAreValid` | src/App.js:51-62 | every ticket bought from valid draws is a valid, strictly ascending ticket |
| `LottoScore.MatchCount` | src/App.js:91 | the match count is at most the ticket's size, and 0 exactly when no number of the ticket is a winning number |
| `LottoScore.MatchCountIsCommonNumbers` | src/App.js:91 | for a ticket without repeated numbers the match count is the number of winning numbers on it |
| `LottoScore.MatchCountIgnoresOrder` | src/App.js:91 | tickets holding the same numbers in any order have the same match count |
| `LottoScore.MatchNumber` | src/App.js:87-110 | returns a new 5-slot tally array whose slot s is the number of tickets the program puts in slot s |
| `LottoScore.SlotAsWrittenAgainstTiers` | src/App.js:92-107 | a ticket with 3, 4 or 6 matches bumps the slot of its tier (0, 1, 4) and no other; 0, 1, 2 or 5 matches bump nothing, although 5 matches win a tier |
| `LottoScore.TallyAsWritten` | src/App.js:92-107 | slots 0, 1 and 4 count the tickets with 3, 4 and 6 matches; slots 2 and 3 stay 0 for every input |
| `LottoScore.CountMatchingUnion` | src/App.js:90-108 | the counts of tickets over two disjoint sets of match counts add up to the count over their union |
| `LottoScore.TallyTotalAsWritten` | src/App.js:88-109 | the tally's entries add up to the number of tickets with 3, 4 or 6 matches, which is at most the number of tickets |
| `LottoScore.ScoringIgnoresSorting` | src/App.js:56-57 | scoring the sorted tickets gives the same tally as scoring the draws they were sorted from |
| `LottoScore.ScoringExamples` | src/App.js:91-104 | with winning numbers 1..6 and bonus 7, [1,2,3,4,5,7] wins 5 matches with bonus, [1,2,3,4,5,8] 5 matches, [1,2,3,7,8,9] 3 matches |
| `LottoScore.FiveMatchIsDropped` | src/App.js:98-104 | the ticket [1,2,3,4,5,7] against 1..6 and bonus 7 leaves the program's tally all zero, while the tier table puts it in slot 3 |
| `LottoScore.MatchNumberIntended` | src/App.js:87-110 | a new tally array, with the 5-match branch incrementing slot 3 (bonus on the ticket) or slot 2: slot s is the number of tickets whose tier sits at s |
| `LottoScore.TallyIntended` | src/App.js:92-107 | under the tier table slots 0, 1 and 4 agree with the program and slots 2 and 3 together count the 5-match tickets |
| `LottoScore.TallyTotalIntended` | src/App.js:88-109 | under the tier table every ticket with 3 or more matches is tallied exactly once |
| `LottoPrize.TotalPrize` | src/App.js:113-114 | the total is a multiple of 5000; for a tally of non-negative counts it is non-negative and 0 exactly when every count is 0 |
| `LottoPrize.TotalPrizeExamples` | src/App.js:113-114 | an all-zero tally wins 0; a single 3-match wins 5000 |
| `LottoPrize.TotalPrizeAddsSlotPrize` | src/App.js:113-114 | one more ticket in a slot adds exactly that slot's prize (5000, 50000, 1500000, 30000000, 2000000000) |
| `LottoPrize.TotalPrizeAtMost` | src/App.js:113-114 | a tally of at most n tickets wins at most n times 2000000000 |
| `LottoPrize.PrizeOfTallyAsWritten` | src/App.js:113-114 | the total prize of the program's tally pays 3-, 4- and 6-match tickets and nothing for 5-match ones, and is at most 2000000000 per ticket |
| `LottoPrize.ProfitPercentage` | src/App.js:121 | the percentage times the amount is 100 times the total prize; non-negative for a non-negative prize |
| `LottoPrize.ProfitExample` | src/App.js:121-122 | one 3-match out of 14 tickets gives exactly 250/7 percent, which lies in [35.65, 35.75) and shows as 35.7 |
| `LottoGame.Play` | src/App.js:5-22 | the amount and the bonus are the first accepted lines; the ticket count times 1000 is the amount; the tally is the program's tally of the sorted draws, equal to that of the draws themselves; the total prize is the tally's prize, between 0 and 2000000000 per ticket; the profit is its exact percentage of the amount |

## Left out

- Console input and output, and the `async`/`await` machinery: the console is
  a finite sequence of lines per prompt, and the printed errors are returned
  as a sequence. The program waits for ever for a valid line; the model
  returns `None` when the lines run out.
- `Number(input)` and `split(',')`: inputs are already parsed, `Some(n)` for
  an integer and `None` for NaN. JavaScript numbers that are not integers
  (`1500.5`, `Infinity`) are not modelled. For the amount, the program gives
  positive non-integers and `Infinity` the multiple-of-1000 error, and
  negative ones (and `-Infinity`) the ≤ 0 error; a fractional bonus number
  in [1, 45] that is not a winning number is accepted.
- `Random.pickUniqueNumbersInRange`: the draws are inputs. `SetRandomNumber`
  does not demand that they are valid; `TicketsAreValid` states what follows
  when they are.
- Printing each ticket (src/App.js:59) and the report lines
  (src/App.js:116-120, 122), and the Korean error messages: the errors are the
  `InputError` enumeration.
- The winning numbers (`getLottoNumber` and the `Lotto` class): `src/Lotto.js`
  is not part of this model; the winning numbers are a given sequence.
- `LottoPrize.ProfitPercentage`: computed as an exact rational, not as a
  floating-point number; `toFixed(1)` rounding is not modelled.
- `LottoPrize.TotalPrize`: computed on unbounded integers; the program's
  floating-point sum is exact only while the total stays below 2^53.
- `LottoTickets.SortAscending`: the engine's sort algorithm is not modelled;
  an insertion sort stands for it, specified only by its result.

## Findings

| source | as written | input that shows it | evidently intended | confidence | as-written member | corrected member |
|---|---|---|---|---|---|---|
| src/App.js:98-104 | the 5-match branch evaluates `matches[3]` or `matches[2]` without incrementing it | tickets [[1,2,3,4,5,7]], winning numbers 1..6, bonus 7: the tally stays [0,0,0,0,0] | `matches[3]++` when the bonus number is on the ticket, `matches[2]++` otherwise | high (not executed) | `LottoScore.FiveMatchIsDropped` | `LottoScore.MatchNumberIntended` |

`MatchNumberIntended` carries the intended property: with
`TallyTotalIntended`, every ticket with 3 or more matches is tallied exactly
once. `LottoGame.Play` models the program as it runs, so it uses
`MatchNumber`.
