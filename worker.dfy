/** The browser worker: the `onmessage` setup and `runBatch`, which plays the
    trials in batches of 2000 and posts a progress message after each batch,
    then either schedules the next batch or posts `done`. */
module Worker {
  import opened Cards
  import opened Deck
  import opened Evaluator
  import opened Trial
  import opened Simulation

  /** `{ type: 'progress', completed, total, result }` or `{ type: 'done' }`. */
  datatype Message = Progress(completed: int, total: int, result: SimResult) | Done

  /** BATCH_SIZE. */
  const BatchSize: nat := 2000

  /** TARGET_SIMS = `simCount || 100000`; no upper clamp. */
  function TargetSims(simCount: Option<int>): (n: int)
    ensures simCount == None || simCount == Some(0) ==> n == 100000
    ensures forall k :: simCount == Some(k) && k != 0 ==> n == k
  {
    OrDefault(simCount, 100000)
  }

  function Min(a: int, b: int): int {
    if a < b then a else b
  }

  /** One worker run: what `onmessage` received and set up, and the state its
      `runBatch` closure updates. `posted` is the sequence of posted messages. */
  class WorkerRun {
    const hero: seq<Card>
    const board: seq<Slot>
    const opps: seq<Opponent>
    const rand: nat -> UnitInterval
    const target: int
    const template: seq<Card>
    /** The trials this run plays, one per position of Math.random(). */
    ghost const trials: Trials
    var completed: nat
    var stats: Tally
    var posted: seq<Message>

    /** The counters are those of `completed` trials of the worker's evaluator, and
        at most TARGET_SIMS trials (none when it is not positive) have been played. */
    ghost predicate Valid()
      reads this
    {
      && Setup(hero, board, opps, template) && NoDup(Ids(opps))
      && Plays(trials, Worker, template, hero, board, opps, rand)
      && completed <= TrialCount(target)
      && stats == Run(trials, completed, Start(opps))
    }

    /** `onmessage`: TARGET_SIMS, zeroed counters, the used set and the deck template. */
    constructor (hero: seq<Card>, board: seq<Slot>, opps: seq<Opponent>, simCount: Option<int>, rand: nat -> UnitInterval)
      requires Request(hero, board, opps)
      ensures Valid()
      ensures this.hero == hero && this.board == board && this.opps == opps && this.rand == rand
      ensures template == DeckOf(hero, board, opps)
      ensures trials == TrialsOf(Worker, template, hero, board, opps, rand)
      ensures target == TargetSims(simCount) && completed == 0 && posted == []
    {
      var oppStats := InitStats(opps);
      var used := CollectUsed(hero, board, opps);
      var deck := BuildDeck(used);
      this.hero, this.board, this.opps, this.rand := hero, board, opps, rand;
      target := TargetSims(simCount);
      template := deck;
      trials := TrialsOf(Worker, deck, hero, board, opps, rand);
      completed := 0;
      stats := Tally(Stats(0, 0), oppStats, 0);
      posted := [];
    }

    /** One iteration of the batch loop: a trial, then `completed++`. */
    method PlayOne()
      requires Valid() && completed < target
      modifies this
      ensures Valid() && completed == old(completed) + 1 && posted == old(posted)
    {
      stats := RunTrial(Worker, template, hero, board, opps, rand, trials, completed, stats);
      completed := completed + 1;
    }

    /** `runBatch`: up to BATCH_SIZE more trials, stopping at TARGET_SIMS; one
        progress message; then `done`, or (`more`) the next batch is scheduled. */
    method RunBatch() returns (more: bool)
      requires Valid()
      modifies this
      ensures Valid()
      ensures completed == old(completed) + Min(BatchSize, TrialCount(target - old(completed)))
      ensures more <==> completed < target
      ensures posted == old(posted) + [Progress(completed, target, SimResult(completed, stats.my, stats.opp))]
                                    + (if more then [] else [Done])
    {
      var i := 0;
      while i < BatchSize && completed < target
        invariant Valid() && i <= BatchSize
        invariant completed == old(completed) + i && posted == old(posted)
        invariant i < BatchSize ==> i <= TrialCount(target - old(completed))
        invariant completed < target ==> i < TrialCount(target - old(completed)) || i == BatchSize
      {
        PlayOne();
        i := i + 1;
      }
      posted := posted + [Progress(completed, target, SimResult(completed, stats.my, stats.opp))];
      if completed < target {
        more := true;
      } else {
        posted := posted + [Done];
        more := false;
      }
    }

    /** The first `runBatch()` call and every batch it schedules: TARGET_SIMS
        trials in all (none when it is not positive), and `done` posted last,
        right after the progress message carrying the final counters. */
    method RunAll()
      requires Valid() && completed == 0
      modifies this
      ensures Valid() && completed == TrialCount(target)
      ensures |posted| >= |old(posted)| + 2 && posted[..|old(posted)|] == old(posted)
      ensures posted[|posted| - 1] == Done
      ensures posted[|posted| - 2] == Progress(completed, target, SimResult(completed, stats.my, stats.opp))
    {
      ghost var start := posted;
      var more := RunBatch();
      while more
        invariant Valid()
        invariant more ==> completed < target
        invariant |posted| >= |start| + 1 && posted[..|start|] == start
        invariant !more ==> (&& |posted| >= |start| + 2 && posted[|posted| - 1] == Done
                             && posted[|posted| - 2] == Progress(completed, target, SimResult(completed, stats.my, stats.opp))
                             && completed >= target)
        decreases target - completed
      {
        ghost var before := posted;
        more := RunBatch();
        Extends(start, before, posted);
      }
    }
  }

  /** A sequence that extends an extension of a sequence extends it too. */
  lemma Extends<T>(a: seq<T>, b: seq<T>, c: seq<T>)
    requires |a| <= |b| && b[..|a|] == a
    requires |b| <= |c| && c[..|b|] == b
    ensures c[..|a|] == a
  {
    assert c[..|a|] == c[..|b|][..|a|];
  }

  /** Every progress message counts as many wins and shared trials as trials completed. */
  lemma ProgressAccounting(w: WorkerRun)
    requires w.Valid()
    ensures Wins(w.stats, Ids(w.opps)) + TieTrials(w.trials, w.completed, Start(w.opps)) == w.completed
  {
    RequestAccounting(w.trials, Worker, w.template, w.hero, w.board, w.opps, w.rand, w.completed);
  }
}
