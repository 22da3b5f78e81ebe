# Texas Hold'em equity engine: a verified model

The repository estimates a poker hero's chances with a Monte-Carlo simulation.
The hero holds two known cards. The board has up to five known cards, and any
number of opponents hold zero, one or two known cards each. Every trial does
four things:

- it deals the unknown cards from the 52-card deck without the known ones;
- it scores every player's best 7-card hand with `evaluate7`;
- it collects the players whose score is the maximum;
- it credits a win to a sole best player, or a tie to each player sharing the best score.

There are two copies of the engine:

- `core/logic.js` (`runSimulation`) runs the whole count at once on the server.
- `public/worker.js` runs in a browser worker. It works in batches of 2000 trials and posts a progress message after each batch. Its `evaluate7` has no plain-straight category.

This project models both copies in Dafny and proves what their code promises.

Module layout:

| file | module | models |
|---|---|---|
| `cards.dfy` | `Cards` | cards `{rank, suit}` with ranks 2..14 and suits in the order s, h, d, c; board and hole slots (`Unknown` or `Known(card)`); distinctness |
| `ranks.dfy` | `Ranks` | the descending sort of ranks, the `counts` histogram, the `four`/`three`/`pair` group lists, the kicker filters |
| `straight.dfy` | `Straight` | `getStraight` and an independent definition of the best straight |
| `evaluator.dfy` | `Evaluator` | `evaluate7` as the function `Score`, together with the method `Evaluate7` that runs its tally loops |
| `evaluator_facts.dfy` | `EvaluatorFacts` | what each score means, category by category, and how the two copies compare |
| `permutation.dfy` | `Permutation` | the score depends only on the multiset of the seven cards |
| `deck.dfy` | `Deck` | `deckTemplate` and the swap-to-end `draw` on an array |
| `trial.dfy` | `Trial` | slot filling, the showdown that builds `winners`, the win/tie credit, and one whole trial |
| `simulation.dfy` | `Simulation` | `runSimulation`: the clamped count, the used-card set, the stats, the trial loop, win/tie accounting |
| `worker.dfy` | `Worker` | the worker's `onmessage` setup and `runBatch`, as a class whose state persists between batches |

Some choices about how the model relates to the code:

- `Variant` is `Server` or `Worker`. `Score(v, cards)` is one definition for both copies, and the only difference is the plain-straight test. `Evaluate7(v, cards)` is the imperative evaluator. It fills the suit and rank tallies, `counts`, and the `four`/`three`/`pair` lists with loops. Its postcondition is `score == Score(v, cards)`.
- `Math.random()` is an oracle `rand: nat -> UnitInterval`. Here `rand(k)` is the k-th value drawn, a real in [0, 1). A trial's draws use consecutive values, and the index `Math.floor(u * deckIdx)` is proved to lie in `[0, deckIdx)`.
- The deck of one trial is an `array<Card>`. It is swapped in place exactly as `draw` does. The functional `Deal(deck, top, next)` specifies it. `top` is `deckIdx` and `next` is the number of random values used so far.
- A trial's outcome is the `winners` list it builds, in the code's order: `'my'` first, then opponent ids in list order. `Pid` is `Hero` (the key `'my'`) or `Opp(id)`.
- The worker is a class `WorkerRun`.
  - Its `const` fields are what `onmessage` captures: the request, `TARGET_SIMS` and `deckTemplate`.
  - Its `var` fields are the closure state `completed`, `myStats`/`oppStats`, and the list of messages posted so far.
  - A ghost `const trials` is the sequence of trials the run plays. The constructor sets it to `TrialsOf` of the request.
  - Its invariant `Valid()` ties the counters to the first `completed` of those trials.

A full house is scored by the rank of its three and then the rank of its pair. Take AsAh against 2s2h on the board KsKhKdQsQh. `EvaluatorFacts.FullHouseKicker` proves, for both evaluators:

- The hero's best hand is kings full of aces, scored 6001314.
- The opponent's best hand is kings full of queens, scored 6001312.
- So the hero wins outright; the hands do not tie.

Two further properties follow from the scoring formulas:

- The one-pair score `1000000 + pair*100000 + …` leaves its million band. A pair of aces outscores every two pair, and a pair of jacks or better outscores a two pair whose top pair is nine or lower. `EvaluatorFacts.AcesBeatTwoPair`, `EvaluatorFacts.PairAgainstTwoPair` and `EvaluatorFacts.PairBound` prove this.
- The worker never returns a score in [4000000, 5000000). An unpaired straight without a flush is scored as a high card there.

## Model

| member | source | states |
|---|---|---|
| Cards.NoDupMultiset | core/logic.js:96-107 | a sequence has no repeated card exactly when every card occurs at most once in its multiset, which is how distinctness of the deck is carried through swaps |
| Cards.NoDupPermutation | core/logic.js:111-122 | a rearrangement of a sequence without repetitions has none either |
| Ranks.DescUpShape | core/logic.js:20 | the histogram sort yields a descending list of ranks in range in which each rank occurs as often as the histogram says |
| Ranks.SortDescIsSort | core/logic.js:20 | `ranks.sort((a,b)=>b-a)` gives a descending list, in range, that is a permutation of its input |
| Ranks.SortDescLength | core/logic.js:20 | sorting keeps the number of ranks |
| Ranks.SortDescCount | core/logic.js:20 | sorting keeps how often each rank occurs |
| Ranks.SortUnique | core/logic.js:20 | two descending lists with the same multiset are equal, so the sort's result is determined by the multiset alone |
| Ranks.GroupShape | core/logic.js:50-57 | each group list is strictly descending and holds exactly the ranks whose count equals the group size |
| Ranks.ExceptCount | core/logic.js:70 | the kicker filter removes every copy of the excluded ranks and keeps the count of every other rank |
| Ranks.ExceptLength | core/logic.js:80 | the filter's length is the input's length less the removed copies |
| Ranks.ExceptMembers | core/logic.js:75 | a rank survives the filter exactly when it is in the input and is none of the excluded ranks |
| Ranks.ExceptDescending | core/logic.js:70 | filtering a descending list keeps it descending |
| Ranks.ExceptSorted | core/logic.js:70 | filtering the sorted ranks equals sorting the filtered ranks |
| Straight.GetStraightIsBest | core/logic.js:28-38 | on descending ranks in range, `getStraight` equals the reference best straight: the highest top of five consecutive ranks, or 5 for the wheel A-2-3-4-5, or 0 |
| Straight.GetStraightSpec | core/logic.js:28-38 | `getStraight` returns 0 with fewer than five distinct ranks; otherwise it returns the highest v with v..v-4 all present, or 5 when only the wheel is present, or 0 when there is no run |
| Straight.GetStraightRange | core/logic.js:28-38 | `getStraight` returns 0 or a top rank between 5 and 14 |
| Straight.BestRunSpec | core/logic.js:36 | the downward search finds the highest run top at or below its start, and no run lies above it |
| Straight.DedupShape | core/logic.js:29 | `[...new Set(vals)]` keeps exactly the values of its input and is strictly descending when the input is descending |
| Straight.FirstRunIsBest | core/logic.js:33 | the first window i with `v[i]-v[i+4]===4` is at the best run top |
| Straight.WheelNeedsFive | core/logic.js:30-31 | the wheel needs at least five distinct ranks, so the length check never hides it |
| Evaluator.RankList | core/logic.js:14-19 | the ranks pushed in card order, one per card |
| Evaluator.OfSuit | core/logic.js:41 | the cards of one suit, all taken from the hand |
| Evaluator.FlushSuitOf | core/logic.js:22-26 | the flush suit is the first of s, h, d, c with five or more cards, and there is none exactly when every suit has fewer than five |
| Evaluator.Pack5 | core/logic.js:84 | five ranks in range packed in decimal lie in [22222, 1000000) |
| Evaluator.FlushScore | core/logic.js:40-45 | a flush that is a straight scores 8000000 plus the straight's top; any other flush scores in [5000000, 6000000) |
| Evaluator.QuadsScore | core/logic.js:59-62 | four of a kind q scores 7000000 + q*100 plus a valid kicker |
| Evaluator.TripsScore | core/logic.js:69-72 | three of a kind t scores within 3000000 + t*10000 plus two packed kickers |
| Evaluator.TwoPairScore | core/logic.js:74-77 | two pair p0 > p1 scores 2000000 + p0*10000 + p1*100 plus a valid kicker |
| Evaluator.PairScore | core/logic.js:79-82 | one pair p scores within 1000000 + p*100000 plus three packed kickers |
| Evaluator.GroupCounts | core/logic.js:50-57 | the group list built from the histogram is strictly descending and each of its ranks is a valid rank held exactly as many times as the group's size |
| Evaluator.SortedRanks | core/logic.js:20 | the sorted ranks are seven descending ranks in range and a permutation of the hand's ranks |
| Evaluator.RanksValid | core/logic.js:14-19 | valid cards give ranks in 2..14 |
| Evaluator.SuitRanksValid | core/logic.js:41 | the cards of one suit are valid and their ranks in range |
| Evaluator.FlushRanksLength | core/logic.js:41 | the flush suit's `fRanks` has as many ranks as that suit's count |
| Evaluator.FlushRanksSorted | core/logic.js:41 | `fRanks` is descending and in range |
| Evaluator.TallyCards | core/logic.js:14-19 | the first loop computes the per-suit counts and the ranks in card order |
| Evaluator.CountRanks | core/logic.js:47-48 | the `counts` loop computes the rank histogram |
| Evaluator.GroupRanks | core/logic.js:50-57 | the loop over the ranks from high to low fills `four`, `three` and `pair` with the ranks held 4, 3 and 2 times, highest first |
| Evaluator.RankChecks | core/logic.js:47-84 | without a flush, the `counts` loop, the group scan and the checks return the rank-based score of the sorted ranks |
| Evaluator.Evaluate7 | core/logic.js:7-85 | the imperative evaluator returns exactly the score of the reference definition, for both copies |
| EvaluatorFacts.Others | core/logic.js:70 | the kickers are descending, in range, and count every rank but the excluded ones as the hand does |
| EvaluatorFacts.OthersCount | core/logic.js:75 | the sorted kicker list counts every rank but the excluded ones as the hand does |
| EvaluatorFacts.FlushSuitSpec | core/logic.js:22-26 | there is no flush suit exactly when no suit is held five times; otherwise the flush suit is held five times and no earlier suit is |
| EvaluatorFacts.SortedRanksCount | core/logic.js:20 | the sorted ranks count each rank as the hand does |
| EvaluatorFacts.SortedRanksStraight | core/logic.js:66 | `getStraight(ranks)` on the sorted ranks is the reference best straight of the hand |
| EvaluatorFacts.GroupMembers | core/logic.js:50-57 | each group list is, highest first, the ranks the hand holds exactly n times |
| EvaluatorFacts.GroupOne | core/logic.js:50-57 | a group with one qualifying rank is that single rank |
| EvaluatorFacts.GroupTwo | core/logic.js:50-57 | a group's first two entries are its two highest qualifying ranks |
| EvaluatorFacts.GroupHead | core/logic.js:50-57 | a group's first entry is its highest qualifying rank |
| EvaluatorFacts.DescendingDistinct | core/logic.js:29 | a descending list with no repeated rank is strictly descending |
| EvaluatorFacts.FlushCategory | core/logic.js:40-45 | whenever a suit has five cards, the score is 8000000 plus the straight top of that suit's ranks when they run, else 5000000 plus its top five ranks packed; both copies agree |
| EvaluatorFacts.ScoreUnfold | core/logic.js:47-84 | without a flush the score is the outcome of the rank checks on the sorted ranks and their groups |
| EvaluatorFacts.QuadsShape | core/logic.js:59 | with four of a kind q, `four[0]` is q |
| EvaluatorFacts.DoubleTripsShape | core/logic.js:63 | with two three-of-a-kind ranks, `three` starts with the higher and then the lower |
| EvaluatorFacts.TripsAndPairShape | core/logic.js:64 | with one three-of-a-kind and pairs, `three` is that rank and `pair[0]` the highest pair |
| EvaluatorFacts.StraightShape | core/logic.js:66 | a hand that reaches the straight test has no quads and no full house |
| EvaluatorFacts.TripsShape | core/logic.js:69 | with trips t and no other repeated rank, `three` is [t] and `pair` is empty |
| EvaluatorFacts.TwoPairShape | core/logic.js:74 | with two or more pairs, `pair` starts with the two highest |
| EvaluatorFacts.OnePairShape | core/logic.js:79 | with a single pair p, `pair` is [p] |
| EvaluatorFacts.HighCardShape | core/logic.js:84 | with no repeated rank all three groups are empty |
| EvaluatorFacts.QuadsCategory | core/logic.js:59-62 | four of a kind q without a flush scores 7000000 + q*100 + the highest other rank, in both copies |
| EvaluatorFacts.DoubleTripsCategory | core/logic.js:63 | two three-of-a-kinds score a full house of the higher over the lower |
| EvaluatorFacts.TripsAndPairCategory | core/logic.js:64 | three of a kind with a pair scores a full house of the trips over the highest pair |
| EvaluatorFacts.ScoreBand | core/logic.js:7-85 | every seven valid cards score in one of nine category bands, from 8000005..8000014 for a straight flush down to 22222..999999 for a high card; the 4000005..4000014 straight band is reached by the server alone, and the one-pair band 1200000..2414999 overlaps the two-pair band |
| EvaluatorFacts.FullHouseKicker | core/logic.js:63-64 | AsAh beats 2s2h on KsKhKdQsQh: kings full of aces (6001314) against kings full of queens (6001312), in both evaluators |
| EvaluatorFacts.StraightCategory | core/logic.js:66-67 | on the server, a straight with no flush, quads or full house scores 4000000 + its top |
| EvaluatorFacts.CategorizeStraight | core/logic.js:66-67 | the rank checks reach the straight branch and return 4000000 + `getStraight` |
| EvaluatorFacts.TripsCategory | core/logic.js:69-72 | three of a kind t scores 3000000 + t*10000 + the two highest other ranks packed |
| EvaluatorFacts.TwoPairCategory | core/logic.js:74-77 | two pair p0 over p1 scores 2000000 + p0*10000 + p1*100 + the highest rank other than both |
| EvaluatorFacts.PairKickers | core/logic.js:80 | the kickers of one pair are distinct ranks other than the pair |
| EvaluatorFacts.OnePairCategory | core/logic.js:79-82 | one pair p scores 1000000 + p*100000 + the three highest other ranks packed, which lies between 1000000 + p*100000 and 2413131 |
| EvaluatorFacts.PairBound | core/logic.js:81 | every one-pair score is at most 2413131, the score of aces with king, queen and jack |
| EvaluatorFacts.HighCardCategory | core/logic.js:84 | a hand with no category scores its top five ranks packed, below 1000000 |
| EvaluatorFacts.CategorizePair | core/logic.js:79-82 | the rank checks reach the pair branch when only one pair is present |
| EvaluatorFacts.CategorizeHigh | core/logic.js:84 | the rank checks fall through to the high-card line when no group is present |
| EvaluatorFacts.CategorizeVariants | public/worker.js:65-85 | on the same groups the worker's rank checks agree with the server's, except where the server finds a straight; there the worker gives a score below 4000000 |
| EvaluatorFacts.FlushVariants | public/worker.js:44-49 | both copies score every flush hand the same, and never in the straight band |
| EvaluatorFacts.WorkerAgainstServer | public/worker.js:9-86 | the two copies agree on each hand the server does not score as a straight; where it does, the worker's score is below 4000000; the worker never scores in [4000000, 5000000) |
| EvaluatorFacts.WorkerStraightIsHighCard | public/worker.js:72-85 | an unpaired straight without a flush is a high card for the worker and a straight for the server |
| EvaluatorFacts.AcesBeatTwoPair | core/logic.js:76-81 | a pair of aces outscores every two pair |
| EvaluatorFacts.PairAgainstTwoPair | core/logic.js:76-81 | a pair of jacks or better beats a two pair whose top pair is nine or lower, and a pair of tens or lower loses to every two pair |
| Permutation.OfSuitMultiset | core/logic.js:41 | taking one suit's cards keeps that suit's cards with their multiplicities and drops the rest |
| Permutation.RankListTally | core/logic.js:14-19 | the multiset of ranks is determined by the multiset of cards |
| Permutation.RankListPermutation | core/logic.js:14-19 | rearranged hands give the same multiset of ranks |
| Permutation.SortDescPermutation | core/logic.js:20 | rearranged ranks sort to the same list |
| Permutation.SuitPermutation | core/logic.js:41 | rearranged hands have the same suit counts and the same `fRanks` |
| Permutation.HandPermutation | core/logic.js:7 | a rearranged 7-card hand of valid cards is again one |
| Permutation.SuitCountsPermutation | core/logic.js:22-26 | rearranged hands have the same flush suit |
| Permutation.ScorePermutation | core/logic.js:7-85 | `evaluate7` gives the same score to every order of the same seven cards |
| Deck.CardAt | core/logic.js:103-105 | each position of the template order holds a valid card |
| Deck.BuildDeck | core/logic.js:102-107 | the nested `forEach` loops push exactly the template without the used cards |
| Deck.FullDeckShape | core/logic.js:103-105 | the 52 cards are distinct and are all the valid cards |
| Deck.UnusedMembers | core/logic.js:105 | a card is kept exactly when it is not used |
| Deck.UnusedNoDup | core/logic.js:105 | filtering a list without repetitions keeps it without repetitions |
| Deck.TemplateShape | core/logic.js:96-107 | `deckTemplate` holds each valid card not in `used` exactly once and has 52 - \|used\| cards |
| Deck.Pick | core/logic.js:116 | `Math.floor(Math.random() * deckIdx)` is below `deckIdx` |
| Deck.Swap | core/logic.js:118-120 | the exchange moves the two cards and leaves every other position alone |
| Deck.SwapMultiset | core/logic.js:118-120 | the exchange keeps the deck a permutation |
| Deck.DrawF | core/logic.js:115-122 | `draw` lowers deckIdx by one, uses one value of `Math.random()` and keeps the deck's length |
| Deck.DrawSpec | core/logic.js:115-122 | the card `draw` returns comes from `deck[0..deckIdx)` and moves to the new `deck[deckIdx]`; the cards from the old `deckIdx` on stay; the deck stays a permutation, and its part below deckIdx loses exactly the drawn card |
| Deck.Draw | core/logic.js:115-122 | the in-place `draw` on the deck array does exactly what `DrawF` describes |
| Trial.Unknowns | core/logic.js:124-133 | the number of slots `draw` fills is at most the number of slots |
| Trial.PadBoard | core/logic.js:124-125 | `simBoard` has five slots: the known board followed by unknown slots |
| Trial.HoleSlots | core/logic.js:127-133 | the opponents' slots in list order, first then second card |
| Trial.TrialSlots | core/logic.js:124-133 | each trial fills 5 + 2 * (number of opponents) slots |
| Trial.KnownCards | core/logic.js:96-100 | a card is `used` exactly when some slot holds it |
| Trial.FillOne | core/logic.js:125 | a known slot keeps its card and leaves the deck alone; an unknown slot draws once |
| Trial.FillSlots | core/logic.js:124-133 | filling draws once per unknown slot and lowers deckIdx by that count |
| Trial.Drawn | core/logic.js:124-133 | the drawn cards are exactly the cards put in unknown slots |
| Trial.FillKeeps | core/logic.js:125-131 | filling keeps every known card in its slot |
| Trial.FillPermutes | core/logic.js:111-133 | after filling, the deck is still a permutation of the template and the cards from the old deckIdx on are unchanged |
| Trial.FillDrawn | core/logic.js:115-133 | the cards drawn plus the cards still below deckIdx are exactly the cards that were below it |
| Trial.FillSource | core/logic.js:115-133 | every drawn card comes from the undrawn part of the deck, and the drawn cards are distinct when that part is |
| Trial.FillDistinct | core/logic.js:111-133 | the cards of a trial are pairwise distinct when the known cards are distinct and not in the deck |
| Trial.TrialCards | core/logic.js:102-133 | filled from `deckTemplate`, a trial's cards are valid and distinct, and no drawn card is a known card |
| Trial.FillSlot | core/logic.js:125 | the in-place `if(!slot) slot = draw()` does what `FillOne` describes |
| Trial.Dealt | core/logic.js:111-133 | one trial's filling over a fresh copy of the template gives 5 + 2 * (number of opponents) cards |
| Trial.DealtValid | core/logic.js:111-133 | a trial's cards are valid cards |
| Trial.DealBoard | core/logic.js:124-125 | the board loop on the copied deck fills `simBoard` as `FillSlots` says |
| Trial.DealHands | core/logic.js:127-133 | the opponents loop fills every hand in list order as `FillSlots` says |
| Trial.DealHand | core/logic.js:129-132 | `h[0]` and then `h[1]` are drawn when unknown |
| Trial.DealCards | core/logic.js:111-133 | a trial's dealing (copy, board, then opponents) gives `simBoard` and each opponent's hand as the reference filling does |
| Trial.FillAppend | core/logic.js:124-133 | filling the board and then the hands is filling the joined slot list |
| Trial.Best | core/logic.js:135-147 | `maxScore` is at least every score and equal to one of them |
| Trial.OppHoldersSpec | core/logic.js:139-147 | the opponents in `winners` are exactly those with the maximum score, each once when ids are distinct |
| Trial.OppHoldersNone | core/logic.js:141-143 | no opponent is listed when all score below the bar |
| Trial.WinnersStep | core/logic.js:141-146 | one opponent either leaves `winners` unchanged, appends itself on a tie with the maximum, or resets the list to itself with a higher score |
| Trial.WinnersSpec | core/logic.js:135-147 | `winners` is exactly the players with the maximum score; `'my'` is in it exactly when the hero's score is the maximum; it is never empty; it has no repeats when ids are distinct |
| Trial.Showdown | core/logic.js:135-147 | the scoring loop builds exactly the reference winners list |
| Trial.Credited | core/logic.js:149-157 | crediting keeps the set of opponent ids |
| Trial.Credit | core/logic.js:149-157 | the credit branches add one win to the only winner, or one tie to each winner when several share the maximum, and change nothing else |
| Trial.CreditTies | core/logic.js:154-156 | the `forEach` over several winners adds one tie to exactly the opponents among them and keeps every other counter and the set of ids |
| Trial.CreditedSole | core/logic.js:149-151 | a sole winner, the hero or an opponent, gets one win and every other counter stays |
| Trial.CreditedShared | core/logic.js:152-156 | with several winners nobody gets a win, the hero gets a tie exactly when it is among them, and the opponents' counters are the ties just described |
| Trial.Outcome | core/logic.js:110-157 | one trial uses exactly one random value per unknown slot |
| Trial.PlayTrial | core/logic.js:110-147 | the imperative trial (copy, draw, fill, score) returns the reference winners and the count of random values used |
| Trial.OutcomeWinners | core/logic.js:135-147 | a trial's winners list is never empty, names only the hero and listed opponents, and has no repeats when ids are distinct |
| Simulation.Simulations | core/logic.js:89 | the count is `min(simCount \|\| 20000, 200000)`: 20000 for a missing or zero request, the request capped at 200000 otherwise |
| Simulation.Start | core/logic.js:91-93 | the stats start with one counter per opponent id |
| Simulation.Step | core/logic.js:149-157 | a trial keeps the set of opponent ids |
| Simulation.Run | core/logic.js:110-158 | the whole loop keeps the set of opponent ids |
| Simulation.TrialKnown | core/logic.js:96-100 | distinct known cards stay distinct among the trial slots, and the trial slots' known cards are used cards apart from the hero's |
| Simulation.DealDistinct | core/logic.js:96-133 | with distinct known cards, the hero's cards and a trial's cards are pairwise distinct, and no drawn card is a known card |
| Simulation.HeroDistinct | core/logic.js:98 | the hero's two cards are distinct and both are used |
| Simulation.Disjoint | core/logic.js:96-133 | the hero's cards and a trial's cards form one list without repeats |
| Simulation.CollectUsed | core/logic.js:96-100 | the three `addUsed` loops collect exactly the known cards of the hero, board and opponents |
| Simulation.InitStats | core/logic.js:91-93 | `oppStats` maps every opponent id to zero wins and zero ties |
| Simulation.RunTrial | core/logic.js:110-157 | one iteration of the trial loop updates the stats as the reference step does |
| Simulation.RequestSetup | server.js:21 | a request with two valid hero cards, a board of at most five cards, distinct ids and enough cards in the deck is one the engine accepts |
| Simulation.RunSimulation | core/logic.js:87-165 | `runSimulation` returns `simulations` equal to the clamped count and the stats the reference run gives after that many trials |
| Simulation.Shared | core/logic.js:152-157 | a trial counts as shared when its winners list has more than one entry |
| Simulation.TieTrials | core/logic.js:152-157 | the number of shared trials in a run |
| Simulation.TrialsJudged | core/logic.js:135-157 | every trial of the run has a non-empty winners list naming only the hero and listed opponents, without repeats |
| Simulation.SumWinsChange | core/logic.js:150-151 | one win given to one opponent raises the sum of opponent wins by one |
| Simulation.CreditWins | core/logic.js:149-157 | one trial's credit raises the total wins by one exactly when there is a single winner, and raises none otherwise |
| Simulation.Accounting | core/logic.js:110-158 | over n trials, total wins plus shared trials grows by exactly n |
| Simulation.RequestAccounting | core/logic.js:91-158 | from fresh stats, total wins plus shared trials equals the number of trials |
| Simulation.SimulationAccounting | core/logic.js:87-165 | in the result of `runSimulation`, total wins plus shared trials equals the clamped count |
| Simulation.ZeroWins | core/logic.js:93 | fresh stats sum to no wins |
| Worker.TargetSims | public/worker.js:93 | `TARGET_SIMS` is 100000 for a missing or zero request and the request itself otherwise, with no upper clamp |
| Worker.WorkerRun.constructor | public/worker.js:89-115 | the setup captures the request, `TARGET_SIMS` and `deckTemplate`, with `completed` at zero, fresh stats and nothing posted; the trials it will play are the request's trials under the worker's evaluator |
| Worker.WorkerRun.PlayOne | public/worker.js:118-169 | one trial advances `completed` by one and keeps the counters equal to the reference run |
| Worker.WorkerRun.RunBatch | public/worker.js:117-191 | a batch runs min(2000, TARGET_SIMS - completed) trials, never takes `completed` past TARGET_SIMS, posts one progress message whose `simulations` is `completed` and whose counters are the current ones, then posts `done` exactly when `completed` has reached TARGET_SIMS; it reports whether another batch is scheduled |
| Worker.WorkerRun.RunAll | public/worker.js:184-193 | running batches from the first call until none is scheduled completes TARGET_SIMS trials and ends the posted messages with the final progress message and then `done` |
| Worker.ProgressAccounting | public/worker.js:159-169 | at every point between batches, total wins plus shared trials equals `completed` |

## Left out

- Rank normalisation (`RANK_VALUES[c.rank] || c.val` and the reverse in the worker): cards come in well formed, with integer ranks 2..14 and one of the four suits.
- `Math.random`: it is the oracle `rand`. Floating-point rounding and any statistical or convergence claim about the estimates are not modelled.
- `setTimeout(runBatch, 0)` and `postMessage`: a scheduled batch is a further `RunBatch` call, and posted messages are appended to the `posted` field.
- `public/client.js` (the page, the card picker, `fetch`, the percentage display) is not part of this model.
- `server.js` (routing, CORS, static files, timing) is not part of this model. Its hero-hand check at line 21 becomes part of the `Request` precondition (exactly two hero cards).
- Simulation.RunSimulation: it requires distinct opponent ids, at most five board slots, at most two slots per opponent, and enough cards in the deck for every unknown slot. The code checks none of these. Distinct known cards are needed only for the distinctness lemmas (`Simulation.DealDistinct`), which take them as a precondition.
- Worker.WorkerRun.constructor: it requires `Request`, as `Simulation.RunSimulation` does: exactly two valid hero cards, at most five board slots, distinct opponent ids, valid known cards and enough cards in the deck for every unknown slot. `public/worker.js` checks none of these, the hero hand included, because the server.js:21 check does not guard the worker. A missing hero card makes the worker's `evaluate7` fail when it reads `c.suit`. A one- or three-card hero hand is scored as a six- or eight-card hand. Neither error path is modelled.
- Trial.Credit: it requires the winners list to have no repeats. With repeated opponent ids the code would credit one id twice; distinct ids rule that out.
- `simCount` is `Option<int>`: `None` and `Some(0)` are the falsy values that select the default, and other falsy or non-integer values are not modelled. A negative count is passed through as the code does: no trial runs, and `simulations` is that negative number.
- Opponent ids are integers, and `'my'` is the separate `Hero` constructor. The string conversion of object keys in `oppStats` is not modelled.
- The JavaScript `sort` is modelled by its result, a descending counting sort over the rank histogram; the sort's own algorithm is not modelled.
