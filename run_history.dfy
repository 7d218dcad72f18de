/**
 * The round files of a simulated run: what a merged round, a predicted round and a chain
 * of rounds are, and how one more loop iteration extends the chain.
 */
module RunHistory {
  import opened Tables
  import opened ComponentSpace
  import opened MergeEngine
  import opened RoundChain

  /** The optimiser run on a round: round table, objectives and batch size to the scored table. */
  type ScoringOracle = (RoundTable, Objectives, int) -> RoundTable

  /** Round r of `files` exists and is the merge of `pre`. */
  ghost predicate MergedRound(files: map<int, RoundTable>, r: int, pre: RoundTable, ctx: FillContext, batchSize: int) {
    r in files && MergedTable(files[r], pre, ctx, batchSize)
  }

  /** `t` is the merge of `pre`: its columns, and a sorted, batch-marked arrangement of the
      rows the fill pass makes of `pre`'s rows; the pass itself succeeded. The one-point
      quantifier over `fill` means `FillAll(ctx, pre.rows).Ok? && MergedRows(FillAll(ctx,
      pre.rows).value, ...)`; it only keeps the fill pass folded until a proof needs it. */
  ghost predicate MergedTable(t: RoundTable, pre: RoundTable, ctx: FillContext, batchSize: int) {
    && t.columns == pre.columns
    && forall fill {:trigger MergedRows(fill.value, batchSize, t.rows)} :: fill == FillAll(ctx, pre.rows) ==>
         fill.Ok? && MergedRows(fill.value, batchSize, t.rows)
  }

  /** Round r + 1 of `files` is round r scored by the optimiser, without its scoring columns.
      The one-point quantifier over `scored` means `files[r + 1] == StripScoringColumns(scoring(files[r], ...))`
      (PredictedRoundTable unfolds it). */
  ghost predicate PredictedRound(files: map<int, RoundTable>, r: int, objs: Objectives, batchSize: int, scoring: ScoringOracle) {
    && r in files && r + 1 in files
    && forall scored {:trigger StripScoringColumns(scored)} :: scored == scoring(files[r], objs, batchSize) ==>
         files[r + 1] == StripScoringColumns(scored)
  }

  /** Round r + 1 of `files` is the merge of the prediction made from round r. */
  ghost predicate MergedPrediction(files: map<int, RoundTable>, r: int, ctx: FillContext,
                                   objs: Objectives, batchSize: int, scoring: ScoringOracle) {
    r in files && MergedRound(files, r + 1, StripScoringColumns(scoring(files[r], objs, batchSize)), ctx, batchSize)
  }

  /**
   * One iteration of the simulated run's loop took the round files from `before` to
   * `after`: round n existed, it is now the merge of its old table, round n + 1 is the
   * prediction made from the merged round, and no other round changed.
   */
  ghost predicate Iterated(before: map<int, RoundTable>, after: map<int, RoundTable>, n: int, ctx: FillContext,
                           objs: Objectives, batchSize: int, scoring: ScoringOracle) {
    && n in before
    && MergedRound(after, n, before[n], ctx, batchSize)
    && PredictedRound(after, n, objs, batchSize, scoring)
    && after == before[n := after[n]][n + 1 := after[n + 1]]
  }

  /** Rounds 0 .. k of `files` are merged: round 0 is the merge of `start0`, and each
      round r + 1 up to k is the merge of the prediction made from round r. */
  ghost predicate Linked(files: map<int, RoundTable>, start0: RoundTable, k: nat, ctx: FillContext,
                         objs: Objectives, batchSize: int, scoring: ScoringOracle) {
    && MergedRound(files, 0, start0, ctx, batchSize)
    && forall r {:trigger MergedPrediction(files, r, ctx, objs, batchSize, scoring)} :: 0 <= r < k ==>
         MergedPrediction(files, r, ctx, objs, batchSize, scoring)
  }

  /**
   * The round files after n loop iterations of a simulated run that started with round 0
   * as `start0`: rounds 0 .. n - 1 are merged, and round n is the prediction made from
   * round n - 1. The one-point quantifier over k means, for n > 0, `Linked(files, start0,
   * n - 1, ...) && PredictedRound(files, n - 1, ...)` (ChainedLast unfolds it).
   */
  ghost predicate Chained(files: map<int, RoundTable>, start0: RoundTable, n: nat, ctx: FillContext,
                          objs: Objectives, batchSize: int, scoring: ScoringOracle) {
    forall k: nat {:trigger Linked(files, start0, k, ctx, objs, batchSize, scoring)} :: k + 1 == n ==>
      Linked(files, start0, k, ctx, objs, batchSize, scoring) && PredictedRound(files, k, objs, batchSize, scoring)
  }

  /** A predicted round is the scored round before it with the scoring columns stripped. */
  lemma PredictedRoundTable(files: map<int, RoundTable>, r: int, objs: Objectives, batchSize: int, scoring: ScoringOracle)
    requires PredictedRound(files, r, objs, batchSize, scoring)
    ensures r in files && r + 1 in files
    ensures files[r + 1] == StripScoringColumns(scoring(files[r], objs, batchSize))
  {
    var scored := scoring(files[r], objs, batchSize);
    assert files[r + 1] == StripScoringColumns(scored);
  }

  /** After n > 0 iterations rounds 0 .. n - 1 are merged and round n is predicted. */
  lemma ChainedLast(files: map<int, RoundTable>, start0: RoundTable, n: nat, ctx: FillContext,
                    objs: Objectives, batchSize: int, scoring: ScoringOracle)
    requires n > 0 && Chained(files, start0, n, ctx, objs, batchSize, scoring)
    ensures Linked(files, start0, n - 1, ctx, objs, batchSize, scoring)
    ensures PredictedRound(files, n - 1, objs, batchSize, scoring)
  {
    assert Linked(files, start0, n - 1, ctx, objs, batchSize, scoring);
  }

  /** The backups after n iterations: round 0 was backed up with `start0`, each round
      r from 1 to n - 1 with the prediction made from round r - 1, which is the table it held
      before its merge, and every other backup is as it was in `before`. */
  ghost predicate BackedUp(backups: map<int, RoundTable>, before: map<int, RoundTable>, files: map<int, RoundTable>,
                           start0: RoundTable, n: nat, objs: Objectives, batchSize: int, scoring: ScoringOracle) {
    && (n > 0 ==> 0 in backups && backups[0] == start0)
    && (forall r :: 0 < r < n ==>
          r in backups && r - 1 in files && backups[r] == StripScoringColumns(scoring(files[r - 1], objs, batchSize)))
    && (forall r :: (r < 0 || n <= r) ==> (r in backups <==> r in before))
    && (forall r :: (r < 0 || n <= r) && r in before ==> backups[r] == before[r])
  }

  /** Rounds outside 0 .. n are as they were in `before`. */
  ghost predicate OtherRoundsKept(files: map<int, RoundTable>, before: map<int, RoundTable>, n: nat) {
    && (forall r :: (r < 0 || n < r) ==> (r in files <==> r in before))
    && (forall r :: (r < 0 || n < r) && r in before ==> files[r] == before[r])
  }

  /**
   * The round and backup files after n > 0 iterations of a simulated run that started from
   * the round files `files0` (whose round 0 is `start0`) and the backups `backups0`: the
   * rounds form the chain, each merged round was backed up with the table it held before its
   * merge, and no other round or backup changed.
   */
  ghost predicate RoundsRun(files: map<int, RoundTable>, backups: map<int, RoundTable>,
                            files0: map<int, RoundTable>, backups0: map<int, RoundTable>, start0: RoundTable, n: nat,
                            ctx: FillContext, objs: Objectives, batchSize: int, scoring: ScoringOracle) {
    && Chained(files, start0, n, ctx, objs, batchSize, scoring)
    && BackedUp(backups, backups0, files, start0, n, objs, batchSize, scoring)
    && OtherRoundsKept(files, files0, n)
  }

  /** Rewriting rounds n and n + 1 keeps rounds 0 .. k merged when k < n. */
  lemma LinkedFrame(before: map<int, RoundTable>, start0: RoundTable, k: nat, n: nat,
                    merged: RoundTable, predicted: RoundTable, ctx: FillContext,
                    objs: Objectives, batchSize: int, scoring: ScoringOracle)
    requires k < n && Linked(before, start0, k, ctx, objs, batchSize, scoring)
    ensures Linked(before[n := merged][n + 1 := predicted], start0, k, ctx, objs, batchSize, scoring)
  {
    var after := before[n := merged][n + 1 := predicted];
    assert after[0] == before[0];
    forall r | 0 <= r < k
      ensures MergedPrediction(after, r, ctx, objs, batchSize, scoring)
    {
      assert MergedPrediction(before, r, ctx, objs, batchSize, scoring);
      assert after[r] == before[r] && after[r + 1] == before[r + 1];
    }
  }

  /** One more iteration, which merges round n and predicts round n + 1 and changes no other
      round, extends the chain. */
  lemma ChainExtends(before: map<int, RoundTable>, after: map<int, RoundTable>, start0: RoundTable, n: nat, next: nat,
                     ctx: FillContext, objs: Objectives, batchSize: int, scoring: ScoringOracle)
    requires next == n + 1
    requires Chained(before, start0, n, ctx, objs, batchSize, scoring)
    requires n == 0 ==> n in before && before[n] == start0
    requires Iterated(before, after, n, ctx, objs, batchSize, scoring)
    ensures Chained(after, start0, next, ctx, objs, batchSize, scoring)
  {
    if n > 0 {
      assert Linked(before, start0, n - 1, ctx, objs, batchSize, scoring) && PredictedRound(before, n - 1, objs, batchSize, scoring);
      LinkedFrame(before, start0, n - 1, n, after[n], after[n + 1], ctx, objs, batchSize, scoring);
      assert after[n - 1] == before[n - 1];
      assert MergedPrediction(after, n - 1, ctx, objs, batchSize, scoring);
    }
    assert Linked(after, start0, n, ctx, objs, batchSize, scoring);
  }

  /** One more iteration, which backs up round n with the table it held, extends the backups. */
  lemma BackupsExtend(backups: map<int, RoundTable>, after: map<int, RoundTable>, backups0: map<int, RoundTable>,
                      files: map<int, RoundTable>, next: map<int, RoundTable>, start0: RoundTable, n: nat,
                      ctx: FillContext, objs: Objectives, batchSize: int, scoring: ScoringOracle)
    requires n == 0 ==> backups == backups0 && 0 in files && files[0] == start0
    requires n > 0 ==> BackedUp(backups, backups0, files, start0, n, objs, batchSize, scoring)
    requires n > 0 ==> PredictedRound(files, n - 1, objs, batchSize, scoring)
    requires n in files && after == backups[n := files[n]]
    requires n - 1 in files ==> n - 1 in next && next[n - 1] == files[n - 1]
    requires forall r :: 0 <= r < n - 1 ==> r in next && r in files && next[r] == files[r]
    ensures BackedUp(after, backups0, next, start0, n + 1, objs, batchSize, scoring)
  {
    if n > 0 {
      PredictedRoundTable(files, n - 1, objs, batchSize, scoring);
      forall r | 0 < r < n + 1
        ensures r in after && r - 1 in next && after[r] == StripScoringColumns(scoring(next[r - 1], objs, batchSize))
      {
        if r < n {
          assert r in backups && r - 1 in files && backups[r] == StripScoringColumns(scoring(files[r - 1], objs, batchSize));
        }
      }
    }
  }

  /** Rewriting rounds n and n + 1 keeps the rounds outside 0 .. n + 1 as they were. */
  lemma OtherRoundsExtend(files: map<int, RoundTable>, next: map<int, RoundTable>, files0: map<int, RoundTable>, n: nat)
    requires n == 0 ==> files == files0
    requires n > 0 ==> OtherRoundsKept(files, files0, n)
    requires n in next && n + 1 in next && next == files[n := next[n]][n + 1 := next[n + 1]]
    ensures OtherRoundsKept(next, files0, n + 1)
  {
  }

  /** One more iteration extends the run: the chain, the backups and the frame. */
  lemma RunExtends(files: map<int, RoundTable>, next: map<int, RoundTable>, backups: map<int, RoundTable>,
                   after: map<int, RoundTable>, files0: map<int, RoundTable>, backups0: map<int, RoundTable>,
                   start0: RoundTable, n: nat, succ: nat, ctx: FillContext, objs: Objectives, batchSize: int, scoring: ScoringOracle)
    requires succ == n + 1
    requires n == 0 ==> files == files0 && backups == backups0 && 0 in files0 && files0[0] == start0
    requires n > 0 ==> RoundsRun(files, backups, files0, backups0, start0, n, ctx, objs, batchSize, scoring)
    requires Iterated(files, next, n, ctx, objs, batchSize, scoring)
    requires after == backups[n := files[n]]
    ensures RoundsRun(next, after, files0, backups0, start0, succ, ctx, objs, batchSize, scoring)
  {
    ChainExtends(files, next, start0, n, succ, ctx, objs, batchSize, scoring);
    if n > 0 {
      ChainedLast(files, start0, n, ctx, objs, batchSize, scoring);
      ChainedKeys(files, start0, n, ctx, objs, batchSize, scoring);
    }
    assert forall r :: 0 <= r < n ==> r in next && next[r] == files[r];
    BackupsExtend(backups, after, backups0, files, next, start0, n, ctx, objs, batchSize, scoring);
    OtherRoundsExtend(files, next, files0, n);
  }

  /** Rounds 0 .. k exist once they are merged. */
  lemma LinkedKeys(files: map<int, RoundTable>, start0: RoundTable, k: nat, ctx: FillContext,
                   objs: Objectives, batchSize: int, scoring: ScoringOracle)
    requires Linked(files, start0, k, ctx, objs, batchSize, scoring)
    ensures forall r :: 0 <= r <= k ==> r in files
  {
    forall r | 0 < r <= k
      ensures r in files
    {
      assert MergedPrediction(files, r - 1, ctx, objs, batchSize, scoring);
    }
  }

  /** After n iterations, rounds 0 .. n exist. */
  lemma ChainedKeys(files: map<int, RoundTable>, start0: RoundTable, n: nat, ctx: FillContext,
                    objs: Objectives, batchSize: int, scoring: ScoringOracle)
    requires n > 0 && Chained(files, start0, n, ctx, objs, batchSize, scoring)
    ensures forall r :: 0 <= r <= n ==> r in files
  {
    LinkedKeys(files, start0, n - 1, ctx, objs, batchSize, scoring);
  }
}
