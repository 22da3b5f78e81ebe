/** The server's `runSimulation`: the trial count, the known-card set, the deck
    template, the counters, and the loop of trials. The trial-by-trial state is
    specified by `Run`, shared with the browser worker. */
module Simulation {
  import opened Cards
  import opened Deck
  import opened Evaluator
  import opened Trial

  /** `{ simulations, my, opponents }`. */
  datatype SimResult = SimResult(simulations: int, my: Stats, opponents: map<int, Stats>)

  /** The counters and the Math.random() position between two trials. */
  datatype Tally = Tally(my: Stats, opp: map<int, Stats>, next: nat)

  // ------------------------------------------------------------ setup

  /** `simCount || d`: an absent or zero count falls back to d. */
  function OrDefault(simCount: Option<int>, d: int): int {
    if simCount == None || simCount == Some(0) then d else simCount.value
  }

  /** SIMULATIONS = `Math.min(simCount || 20000, 200000)`. */
  function Simulations(simCount: Option<int>): (n: int)
    ensures n <= 200000
    ensures simCount == None || simCount == Some(0) ==> n == 20000
    ensures forall k :: simCount == Some(k) && k != 0 ==> n == if k < 200000 then k else 200000
  {
    var n := OrDefault(simCount, 20000);
    if n < 200000 then n else 200000
  }

  /** How many times `for (i = 0; i < n; i++)` runs. */
  function TrialCount(n: int): nat {
    if n < 0 then 0 else n
  }

  /** Every slot that may hold a known card: the hero's two, the board, the opponents'. */
  function AllSlots(hero: seq<Card>, board: seq<Slot>, opps: seq<Opponent>): seq<Slot> {
    HeroSlots(hero) + board + HoleSlots(opps)
  }

  /** The deck template of a request: every card none of its slots holds. */
  function DeckOf(hero: seq<Card>, board: seq<Slot>, opps: seq<Opponent>): seq<Card> {
    Template(KnownCards(AllSlots(hero, board, opps)))
  }

  /** Where slot j of a trial's slots sits among all the request's slots. */
  function Place(nb: nat, j: nat): int {
    if j < nb then 2 + j else 2 + nb + (j - 5)
  }

  /** Every known slot of a trial is a slot of the request, behind the hero's two;
      distinct slots of a trial sit in distinct places. */
  lemma PlaceOf(hero: seq<Card>, board: seq<Slot>, opps: seq<Opponent>, j: nat)
    requires |hero| == 2 && |board| <= 5 && j < |TrialSlots(board, opps)| && TrialSlots(board, opps)[j].Known?
    ensures 2 <= Place(|board|, j) < |AllSlots(hero, board, opps)|
    ensures AllSlots(hero, board, opps)[Place(|board|, j)] == TrialSlots(board, opps)[j]
  {
    var padded := PadBoard(board);
    if j < 5 {
      assert TrialSlots(board, opps)[j] == padded[j];
      if j < |board| {
        assert padded[j] == padded[..|board|][j];
      }
    }
  }

  /** When no card of a request is known twice, none of a trial's slots is
      known twice, and neither hero card is known in them. */
  lemma TrialKnown(hero: seq<Card>, board: seq<Slot>, opps: seq<Opponent>)
    requires |hero| == 2 && |board| <= 5 && KnownDistinct(AllSlots(hero, board, opps))
    ensures var slots := TrialSlots(board, opps);
      && KnownDistinct(slots) && KnownCards(slots) <= KnownCards(AllSlots(hero, board, opps))
      && forall i, j :: 0 <= i < 2 && 0 <= j < |slots| && slots[j].Known? ==> slots[j].card != hero[i]
  {
    var all, slots := AllSlots(hero, board, opps), TrialSlots(board, opps);
    var nb := |board|;
    forall j | 0 <= j < |slots| && slots[j].Known? ensures 2 <= Place(nb, j) < |all| && all[Place(nb, j)] == slots[j] {
      PlaceOf(hero, board, opps, j);
    }
    forall j | nb <= j < 5 ensures slots[j].Unknown? {
      assert slots[j] == PadBoard(board)[j];
    }
    assert all[0] == Known(hero[0]) && all[1] == Known(hero[1]);
    KnownPlaced(all, slots, hero, nb);
  }

  /** Slots placed one-to-one behind the hero's two among slots that know no card
      twice know no card twice, and none of the hero's. */
  lemma KnownPlaced(all: seq<Slot>, slots: seq<Slot>, hero: seq<Card>, nb: nat)
    requires |hero| == 2 && nb <= 5 && |all| >= 2 && KnownDistinct(all)
    requires all[0] == Known(hero[0]) && all[1] == Known(hero[1])
    requires forall j :: nb <= j < 5 && j < |slots| ==> slots[j].Unknown?
    requires forall j :: 0 <= j < |slots| && slots[j].Known? ==> 2 <= Place(nb, j) < |all| && all[Place(nb, j)] == slots[j]
    ensures KnownDistinct(slots) && KnownCards(slots) <= KnownCards(all)
    ensures forall i, j :: 0 <= i < 2 && 0 <= j < |slots| && slots[j].Known? ==> slots[j].card != hero[i]
  {
    forall i, j | 0 <= i < j < |slots| && slots[i].Known? && slots[j].Known? ensures slots[i].card != slots[j].card {
      var a, b := Place(nb, i), Place(nb, j);
      assert a < b by {
        assert !(nb <= i < 5) && !(nb <= j < 5);
      }
      assert all[a] == slots[i] && all[b] == slots[j];
      assert all[a].card != all[b].card;
    }
    forall i, j | 0 <= i < 2 && 0 <= j < |slots| && slots[j].Known? ensures slots[j].card != hero[i] {
      var b := Place(nb, j);
      assert i < b && all[b] == slots[j];
      assert all[i].card != all[b].card;
    }
    forall c | c in KnownCards(slots) ensures c in KnownCards(all) {
      var j :| 0 <= j < |slots| && slots[j] == Known(c);
      assert all[Place(nb, j)] == Known(c);
    }
  }

  /** When no card is known twice, the hero's cards and a deal's cards are all different,
      and no empty slot receives a known card. */
  lemma DealDistinct(hero: seq<Card>, board: seq<Slot>, opps: seq<Opponent>, rand: nat -> UnitInterval, next: nat)
    requires Request(hero, board, opps) && KnownDistinct(AllSlots(hero, board, opps))
    ensures var cards := Dealt(DeckOf(hero, board, opps), board, opps, rand, next).0;
      && NoDup(hero + cards)
      && forall j :: 0 <= j < |cards| && TrialSlots(board, opps)[j].Unknown? ==> cards[j] !in KnownCards(AllSlots(hero, board, opps))
  {
    var all, slots := AllSlots(hero, board, opps), TrialSlots(board, opps);
    var used := KnownCards(all);
    TrialKnown(hero, board, opps);
    TrialCards(rand, slots, used, next);
    FillKeeps(rand, slots, Opening(DeckOf(hero, board, opps), next));
    var cards := Dealt(DeckOf(hero, board, opps), board, opps, rand, next).0;
    HeroDistinct(hero, board, opps);
    Disjoint(hero, cards, slots, used);
  }

  /** The hero's two cards are different cards, both known. */
  lemma HeroDistinct(hero: seq<Card>, board: seq<Slot>, opps: seq<Opponent>)
    requires |hero| == 2 && KnownDistinct(AllSlots(hero, board, opps))
    ensures NoDup(hero) && forall i :: 0 <= i < 2 ==> hero[i] in KnownCards(AllSlots(hero, board, opps))
  {
    var all := AllSlots(hero, board, opps);
    assert all[0] == Known(hero[0]) && all[1] == Known(hero[1]);
  }

  /** Two card lists without repetitions whose cards differ pairwise join into one without repetitions. */
  lemma Disjoint(hero: seq<Card>, cards: seq<Card>, slots: seq<Slot>, used: set<Card>)
    requires NoDup(hero) && NoDup(cards) && |cards| == |slots| && |hero| == 2
    requires forall i :: 0 <= i < 2 ==> hero[i] in used
    requires forall j :: 0 <= j < |slots| && slots[j].Unknown? ==> cards[j] !in used
    requires forall j :: 0 <= j < |slots| && slots[j].Known? ==> cards[j] == slots[j].card
    requires forall i, j :: 0 <= i < 2 && 0 <= j < |slots| && slots[j].Known? ==> slots[j].card != hero[i]
    ensures NoDup(hero + cards)
  {
    var h := hero + cards;
    forall i, j | 0 <= i < j < |h| ensures h[i] != h[j] {
      if j >= 2 {
        assert h[j] == cards[j - 2];
        if i >= 2 {
          assert h[i] == cards[i - 2];
        }
      }
    }
  }

  /** The three `forEach(addUsed)` loops: every card known anywhere in the request. */
  method CollectUsed(hero: seq<Card>, board: seq<Slot>, opps: seq<Opponent>) returns (used: set<Card>)
    ensures used == KnownCards(AllSlots(hero, board, opps))
  {
    used := {};
    for i := 0 to |hero|
      invariant forall c :: c in used <==> c in hero[..i]
    {
      PrefixSnoc(hero, i);
      used := used + {hero[i]};
    }
    assert hero[..|hero|] == hero;
    for i := 0 to |board|
      invariant forall c :: c in used <==> c in hero || Known(c) in board[..i]
    {
      PrefixSnoc(board, i);
      if board[i].Known? {
        used := used + {board[i].card};
      }
    }
    assert board[..|board|] == board;
    for j := 0 to |opps|
      invariant forall c :: c in used <==> c in hero || Known(c) in board || Known(c) in HoleSlots(opps[..j])
    {
      var o := opps[j];
      assert opps[..j + 1][..j] == opps[..j];
      assert HoleSlots(opps[..j + 1]) == HoleSlots(opps[..j]) + [o.first, o.second];
      if o.first.Known? {
        used := used + {o.first.card};
      }
      if o.second.Known? {
        used := used + {o.second.card};
      }
    }
    assert opps[..|opps|] == opps;
    ghost var all := AllSlots(hero, board, opps);
    forall c ensures c in used <==> Known(c) in all {
      assert c in hero <==> Known(c) in HeroSlots(hero);
    }
  }

  /** `opponents.forEach(o => oppStats[o.id] = { win: 0, tie: 0 })`. */
  method InitStats(opps: seq<Opponent>) returns (opp: map<int, Stats>)
    ensures opp == map id | id in Ids(opps) :: Stats(0, 0)
  {
    opp := map[];
    for j := 0 to |opps|
      invariant opp == map id | id in Ids(opps)[..j] :: Stats(0, 0)
    {
      PrefixSnoc(Ids(opps), j);
      opp := opp[opps[j].id := Stats(0, 0)];
    }
    assert Ids(opps)[..|opps|] == Ids(opps);
  }

  /** The counters before the first trial. */
  function Start(opps: seq<Opponent>): (t: Tally)
    ensures t.opp.Keys == set id | id in Ids(opps)
  {
    Tally(Stats(0, 0), map id | id in Ids(opps) :: Stats(0, 0), 0)
  }

  // ------------------------------------------------------------ trials

  /** What one trial yields when it starts at a given position of Math.random():
      its winners and the position after it. */
  type Trials = nat -> (seq<Pid>, nat)

  /** The trials of a request, as the loop body plays them. */
  function TrialsOf(v: Variant, template: seq<Card>, hero: seq<Card>, board: seq<Slot>, opps: seq<Opponent>,
                    rand: nat -> UnitInterval): (f: Trials)
    requires Setup(hero, board, opps, template)
    ensures Plays(f, v, template, hero, board, opps, rand)
  {
    k => Outcome(v, template, hero, board, opps, rand, k)
  }

  /** `trial` yields, at every position of Math.random(), the outcome of the
      loop body started there. */
  ghost predicate Plays(trial: Trials, v: Variant, template: seq<Card>, hero: seq<Card>, board: seq<Slot>,
                        opps: seq<Opponent>, rand: nat -> UnitInterval)
    requires Setup(hero, board, opps, template)
  {
    forall k {:trigger Outcome(v, template, hero, board, opps, rand, k)} ::
      trial(k) == Outcome(v, template, hero, board, opps, rand, k)
  }

  /** One trial's effect on the counters. */
  function Step(trial: Trials, t: Tally): (r: Tally)
    ensures r.opp.Keys == t.opp.Keys
  {
    var o := trial(t.next);
    var c := Credited(o.0, t.my, t.opp);
    Tally(c.0, c.1, o.1)
  }

  /** The counters after n trials from t. */
  function Run(trial: Trials, n: nat, t: Tally): (r: Tally)
    ensures r.opp.Keys == t.opp.Keys
  {
    if n == 0 then t else Step(trial, Run(trial, n - 1, t))
  }

  /** The counters of a run hold a counter for every opponent. */
  lemma RunKeys(trial: Trials, n: nat, opps: seq<Opponent>)
    ensures forall j :: 0 <= j < |opps| ==> opps[j].id in Run(trial, n, Start(opps)).opp
  {
    forall j | 0 <= j < |opps| ensures opps[j].id in Run(trial, n, Start(opps)).opp {
      assert Ids(opps)[j] == opps[j].id;
    }
  }

  /** Trial n + 1 of the loop, as the loop body plays it. */
  method RunTrial(v: Variant, template: seq<Card>, hero: seq<Card>, board: seq<Slot>, opps: seq<Opponent>,
                  rand: nat -> UnitInterval, ghost trial: Trials, n: nat, t: Tally) returns (r: Tally)
    requires Setup(hero, board, opps, template) && NoDup(Ids(opps))
    requires Plays(trial, v, template, hero, board, opps, rand)
    requires t == Run(trial, n, Start(opps))
    ensures r == Run(trial, n + 1, Start(opps))
  {
    RunKeys(trial, n, opps);
    var winners, next := PlayTrial(v, template, hero, board, opps, rand, t.next);
    OutcomeWinners(v, template, hero, board, opps, rand, t.next);
    var my, opp := Credit(winners, t.my, t.opp);
    r := Tally(my, opp, next);
  }

  /** What a request must satisfy: two valid hero cards, at most five board
      slots, valid known cards, distinct opponent ids, and enough cards left
      in the deck for every empty slot. */
  predicate Request(hero: seq<Card>, board: seq<Slot>, opps: seq<Opponent>) {
    && |board| <= 5 && NoDup(Ids(opps))
    && Setup(hero, board, opps, DeckOf(hero, board, opps))
  }

  /** A request's template holds valid cards only, so Setup only asks for the rest. */
  lemma RequestSetup(hero: seq<Card>, board: seq<Slot>, opps: seq<Opponent>)
    requires |hero| == 2 && AllValid(hero) && |board| <= 5 && NoDup(Ids(opps))
    requires KnownValid(TrialSlots(board, opps))
    requires Unknowns(TrialSlots(board, opps)) <= |DeckOf(hero, board, opps)|
    ensures Request(hero, board, opps)
  {
    TemplateShape(KnownCards(AllSlots(hero, board, opps)));
  }

  /** `runSimulation`: SIMULATIONS trials from a fresh deck each, with the
      counters every trial leaves behind. */
  method RunSimulation(hero: seq<Card>, board: seq<Slot>, opps: seq<Opponent>, simCount: Option<int>,
                       rand: nat -> UnitInterval) returns (result: SimResult)
    requires Request(hero, board, opps)
    ensures result.simulations == Simulations(simCount)
    ensures var t := Run(TrialsOf(Server, DeckOf(hero, board, opps), hero, board, opps, rand),
                         TrialCount(Simulations(simCount)), Start(opps));
      result.my == t.my && result.opponents == t.opp
  {
    var simulations := Simulations(simCount);
    var oppStats := InitStats(opps);
    var used := CollectUsed(hero, board, opps);
    var template := BuildDeck(used);
    ghost var trials := TrialsOf(Server, template, hero, board, opps, rand);
    var t := Tally(Stats(0, 0), oppStats, 0);
    for i := 0 to TrialCount(simulations)
      invariant t == Run(trials, i, Start(opps))
    {
      t := RunTrial(Server, template, hero, board, opps, rand, trials, i, t);
    }
    result := SimResult(simulations, t.my, t.opp);
  }

  // ------------------------------------------------------------ accounting

  /** The opponents' wins, summed over the ids. */
  function SumWins(opp: map<int, Stats>, ids: seq<int>): nat
    requires forall j :: 0 <= j < |ids| ==> ids[j] in opp
  {
    if ids == [] then 0
    else SumWins(opp, ids[..|ids| - 1]) + opp[ids[|ids| - 1]].win
  }

  /** All wins recorded in t. */
  function Wins(t: Tally, ids: seq<int>): nat
    requires forall j :: 0 <= j < |ids| ==> ids[j] in t.opp
  {
    t.my.win + SumWins(t.opp, ids)
  }

  /** 1 when the trial played from t is shared between several winners, else 0. */
  function Shared(trial: Trials, t: Tally): nat {
    if |trial(t.next).0| > 1 then 1 else 0
  }

  /** How many of the first n trials from t were shared between several winners. */
  function TieTrials(trial: Trials, n: nat, t: Tally): nat {
    if n == 0 then 0 else TieTrials(trial, n - 1, t) + Shared(trial, Run(trial, n - 1, t))
  }

  /** Every trial names at least one winner, each of them the hero or one of `ids`, none twice. */
  ghost predicate Judged(trial: Trials, ids: seq<int>) {
    forall k :: var w := trial(k).0;
      && |w| >= 1 && NoDup(w)
      && forall p :: p in w ==> p == Hero || exists j :: 0 <= j < |ids| && p == Opp(ids[j])
  }

  /** The trials of a request are judged that way. */
  lemma TrialsJudged(trial: Trials, v: Variant, template: seq<Card>, hero: seq<Card>, board: seq<Slot>,
                     opps: seq<Opponent>, rand: nat -> UnitInterval)
    requires Setup(hero, board, opps, template) && NoDup(Ids(opps))
    requires Plays(trial, v, template, hero, board, opps, rand)
    ensures Judged(trial, Ids(opps))
  {
    forall k: nat ensures var w := trial(k).0;
      && |w| >= 1 && NoDup(w)
      && forall p :: p in w ==> p == Hero || exists j :: 0 <= j < |Ids(opps)| && p == Opp(Ids(opps)[j])
    {
      OutcomeWinners(v, template, hero, board, opps, rand, k);
      assert trial(k) == Outcome(v, template, hero, board, opps, rand, k);
      forall p | p in trial(k).0 && p != Hero ensures exists j :: 0 <= j < |Ids(opps)| && p == Opp(Ids(opps)[j]) {
        var j :| 0 <= j < |opps| && p == Opp(opps[j].id);
        assert Ids(opps)[j] == opps[j].id;
      }
    }
  }

  /** Changing the counters of nobody in `ids` leaves their wins' sum as it was;
      adding a win for one id of `ids`, listed once, adds one. */
  lemma {:induction false} SumWinsChange(a: map<int, Stats>, b: map<int, Stats>, ids: seq<int>, k: Option<int>)
    requires forall j :: 0 <= j < |ids| ==> ids[j] in a && ids[j] in b
    requires NoDup(ids)
    requires forall j :: 0 <= j < |ids| ==> b[ids[j]].win == a[ids[j]].win + (if k == Some(ids[j]) then 1 else 0)
    ensures SumWins(b, ids) == SumWins(a, ids) + (if k.Some? && k.value in ids then 1 else 0)
  {
    if ids != [] {
      var n := |ids| - 1;
      SumWinsChange(a, b, ids[..n], k);
      assert ids == ids[..n] + [ids[n]];
      if k == Some(ids[n]) {
        assert ids[n] !in ids[..n];
      }
    }
  }

  /** Crediting a single winner records exactly one win; crediting several records none. */
  lemma CreditWins(w: seq<Pid>, my: Stats, opp: map<int, Stats>, ids: seq<int>)
    requires |w| >= 1 && NoDup(ids)
    requires forall j :: 0 <= j < |ids| ==> ids[j] in opp
    requires forall p :: p in w ==> p == Hero || exists j :: 0 <= j < |ids| && p == Opp(ids[j])
    ensures var c := Credited(w, my, opp);
      c.0.win + SumWins(c.1, ids) == my.win + SumWins(opp, ids) + (if |w| > 1 then 0 else 1)
  {
    var c := Credited(w, my, opp);
    var k: Option<int> := if |w| == 1 && w[0].Opp? then Some(w[0].id) else None;
    forall j | 0 <= j < |ids| ensures c.1[ids[j]].win == opp[ids[j]].win + (if k == Some(ids[j]) then 1 else 0) {
      assert c.1[ids[j]] == Bump(opp[ids[j]], Opp(ids[j]), w);
    }
    SumWinsChange(opp, c.1, ids, k);
    if k.Some? {
      assert w[0] in w;
      var j :| 0 <= j < |ids| && w[0] == Opp(ids[j]);
    }
  }

  /** Every trial records exactly one win, or is a shared trial: after n trials
      the wins and the shared trials add up to n more than before. */
  lemma {:induction false} Accounting(trial: Trials, ids: seq<int>, n: nat, t: Tally)
    requires Judged(trial, ids) && NoDup(ids)
    requires forall j :: 0 <= j < |ids| ==> ids[j] in t.opp
    ensures Wins(Run(trial, n, t), ids) + TieTrials(trial, n, t) == Wins(t, ids) + n
  {
    if n > 0 {
      Accounting(trial, ids, n - 1, t);
      var prev := Run(trial, n - 1, t);
      CreditWins(trial(prev.next).0, prev.my, prev.opp, ids);
    }
  }

  /** After n trials from fresh counters, the wins and the shared trials add up to n. */
  lemma RequestAccounting(trial: Trials, v: Variant, template: seq<Card>, hero: seq<Card>, board: seq<Slot>,
                          opps: seq<Opponent>, rand: nat -> UnitInterval, n: nat)
    requires Setup(hero, board, opps, template) && NoDup(Ids(opps))
    requires Plays(trial, v, template, hero, board, opps, rand)
    ensures Wins(Run(trial, n, Start(opps)), Ids(opps)) + TieTrials(trial, n, Start(opps)) == n
  {
    TrialsJudged(trial, v, template, hero, board, opps, rand);
    Accounting(trial, Ids(opps), n, Start(opps));
    ZeroWins(Ids(opps));
  }

  /** The server's result: its wins and shared trials add up to the trials run. */
  lemma SimulationAccounting(hero: seq<Card>, board: seq<Slot>, opps: seq<Opponent>, simCount: Option<int>, rand: nat -> UnitInterval)
    requires Request(hero, board, opps)
    ensures var trials, n := TrialsOf(Server, DeckOf(hero, board, opps), hero, board, opps, rand), TrialCount(Simulations(simCount));
      Wins(Run(trials, n, Start(opps)), Ids(opps)) + TieTrials(trials, n, Start(opps)) == n
  {
    var template := DeckOf(hero, board, opps);
    RequestAccounting(TrialsOf(Server, template, hero, board, opps, rand), Server, template, hero, board, opps, rand,
                      TrialCount(Simulations(simCount)));
  }

  /** Fresh counters hold no wins. */
  lemma {:induction false} ZeroWins(ids: seq<int>)
    ensures SumWins(map id | id in ids :: Stats(0, 0), ids) == 0
  {
    ZeroWinsPrefix(ids, |ids|);
    assert ids[..|ids|] == ids;
  }

  lemma {:induction false} ZeroWinsPrefix(ids: seq<int>, k: nat)
    requires k <= |ids|
    ensures SumWins(map id | id in ids :: Stats(0, 0), ids[..k]) == 0
  {
    if k > 0 {
      ZeroWinsPrefix(ids, k - 1);
      assert ids[..k][..k - 1] == ids[..k - 1];
    }
  }
}
