/**
 * The EDBOGenerator object: its audit log and counter, the component space it loads,
 * and the run directory's round, backup and summary files it reads and writes.
 */
module Generator {
  import opened Tables
  import opened ComponentSpace
  import opened MergeEngine
  import opened RoundChain
  import opened AuditLog
  import opened RunHistory

  /** What a run directory holds when a session opens it: round files by round number,
      bulk-training backups by round number, and the summary file if there is one. */
  datatype RunDirectory = RunDirectory(rounds: map<int, RoundTable>, backups: map<int, RoundTable>, summary: Option<Log>)

  /** The scope generator and the optimiser run on the scope: component map, objectives
      and batch size to a scored round 0. */
  type ScopeOracle = (map<string, seq<Cell>>, Objectives, int) -> RoundTable

  /** The two log entries of round r of a simulated run, stored after the run's own entry at `base`. */
  predicate LoggedRound(log: Log, base: nat, r: nat, trainingDf: ObsTable, batchSize: int) {
    && base + 1 + 2 * r in log
    && log[base + 1 + 2 * r] == LogEntry(BulkTrainingCall(trainingDf, r, batchSize, true, true))
    && base + 2 + 2 * r in log
    && log[base + 2 + 2 * r] == LogEntry(SingleRoundPredictCall(r, batchSize))
  }

  /** A round's two entries stored after the entries of the earlier rounds extend the simulated run's log. */
  lemma LoggedRoundsExtend(before: Log, after: Log, base: nat, n: nat, trainingDf: ObsTable, batchSize: int)
    requires forall r: nat :: r < n ==> LoggedRound(before, base, r, trainingDf, batchSize)
    requires after == before[base + 1 + 2 * n := LogEntry(BulkTrainingCall(trainingDf, n, batchSize, true, true))]
                            [base + 2 + 2 * n := LogEntry(SingleRoundPredictCall(n, batchSize))]
    ensures forall r: nat :: r < n + 1 ==> LoggedRound(after, base, r, trainingDf, batchSize)
  {
    forall r: nat | r < n + 1 ensures LoggedRound(after, base, r, trainingDf, batchSize) {
      if r < n {
        assert LoggedRound(before, base, r, trainingDf, batchSize);
      }
    }
  }

  /** How many rounds `range(max_rounds)` walks through. */
  function RoundCount(maxRounds: int): (n: nat)
    ensures maxRounds <= 0 ==> n == 0
    ensures maxRounds > 0 ==> n == maxRounds
  {
    if maxRounds > 0 then maxRounds else 0
  }

  /** The log after n rounds of a simulated run whose own entry is at `base`: each round
      stores its merge entry and then its prediction entry. */
  ghost function RunLog(start: Log, base: nat, n: nat, trainingDf: ObsTable, batchSize: int): Log
    decreases n
  {
    if n == 0 then start
    else RunLog(start, base, n - 1, trainingDf, batchSize)
           [base + 1 + 2 * (n - 1) := LogEntry(BulkTrainingCall(trainingDf, n - 1, batchSize, true, true))]
           [base + 2 + 2 * (n - 1) := LogEntry(SingleRoundPredictCall(n - 1, batchSize))]
  }

  /** A log holding the log of n rounds plus round n's two entries, stored under the
      next two keys, is the log of n + 1 rounds. */
  lemma RunLogStep(start: Log, base: nat, n: nat, next: nat, at: nat, before: Log, after: Log, trainingDf: ObsTable, batchSize: int)
    requires next == n + 1 && at == base + 1 + 2 * n && before == RunLog(start, base, n, trainingDf, batchSize)
    requires after == before[at := LogEntry(BulkTrainingCall(trainingDf, n, batchSize, true, true))]
                            [at + 1 := LogEntry(SingleRoundPredictCall(n, batchSize))]
    ensures after == RunLog(start, base, next, trainingDf, batchSize)
  {
  }

  /** After n rounds, each round r < n has its two entries where the run put them. */
  lemma {:induction false} RunLogRounds(start: Log, base: nat, n: nat, trainingDf: ObsTable, batchSize: int)
    ensures forall r: nat :: r < n ==> LoggedRound(RunLog(start, base, n, trainingDf, batchSize), base, r, trainingDf, batchSize)
    decreases n
  {
    if n > 0 {
      RunLogRounds(start, base, n - 1, trainingDf, batchSize);
      LoggedRoundsExtend(RunLog(start, base, n - 1, trainingDf, batchSize), RunLog(start, base, n, trainingDf, batchSize),
                         base, n - 1, trainingDf, batchSize);
    }
  }

  /** The rounds never overwrite the run's own entry. */
  lemma {:induction false} RunLogKeepsBase(start: Log, base: nat, n: nat, trainingDf: ObsTable, batchSize: int)
    requires base in start
    ensures base in RunLog(start, base, n, trainingDf, batchSize)
    ensures RunLog(start, base, n, trainingDf, batchSize)[base] == start[base]
    decreases n
  {
    if n > 0 {
      RunLogKeepsBase(start, base, n - 1, trainingDf, batchSize);
    }
  }

  class EDBOGenerator {
    var summary: Log
    var counter: nat
    var components: Option<map<string, seq<Cell>>>
    var objectives: Option<Objectives>
    var roundFiles: map<int, RoundTable>
    var backupFiles: map<int, RoundTable>
    var summaryFile: Log

    /** The counter is the key after the log's last entry. */
    ghost predicate LogContiguous()
      reads this`summary, this`counter
    {
      Contiguous(summary, counter)
    }

    /** What the fill loop of bulk_training reads from this object. */
    function Context(trainingDf: ObsTable, limiting: bool, setting: bool): FillContext
      reads this`components, this`objectives
    {
      FillContext(components, if objectives.Some? then Some(objectives.value.names) else None,
                  trainingDf, limiting, setting)
    }

    /** Opening a run: the log is the summary file's, or empty with an empty file created,
        and the counter starts at the number of entries. */
    constructor (dir: RunDirectory)
      ensures summary == (if dir.summary.Some? then dir.summary.value else map[])
      ensures counter == |summary| && summaryFile == summary
      ensures forall n: nat :: Contiguous(summary, n) ==> counter == n
      ensures dir.summary.None? ==> LogContiguous()
      ensures components == None && objectives == None
      ensures roundFiles == dir.rounds && backupFiles == dir.backups
    {
      var log: Log := if dir.summary.Some? then dir.summary.value else map[];
      summary := log;
      counter := |log|;
      summaryFile := log;
      components := None;
      objectives := None;
      roundFiles := dir.rounds;
      backupFiles := dir.backups;
      new;
      forall n: nat | Contiguous(summary, n) ensures counter == n {
        ContiguousSize(summary, n);
      }
    }

    /** `_log_stuff`: store one entry under the counter, rewrite the summary file, increment. */
    method LogStuff(call: Call)
      modifies this`summary, this`counter, this`summaryFile
      ensures summary == old(summary)[old(counter) := LogEntry(call)]
      ensures counter == old(counter) + 1
      ensures summaryFile == summary
      ensures old(LogContiguous()) ==> LogContiguous() && |summary| == |old(summary)| + 1
    {
      ghost var contiguous := LogContiguous();
      if contiguous {
        AppendExtends(summary, counter, LogEntry(call));
      }
      summary := summary[counter := LogEntry(call)];
      summaryFile := summary;
      counter := counter + 1;
    }

    /**
     * `initialize_scope`: parse the component space; create and score round 0 only when
     * there is no round 0 yet; log the call. A sheet without a `min` or `max` column
     * raises after the component map was already assigned.
     */
    method InitializeScope(sheet: Sheet, batchSize: int, scope: ScopeOracle) returns (res: Outcome)
      modifies this`components, this`objectives, this`roundFiles, this`summary, this`counter, this`summaryFile
      ensures components == Some(ParseComponents(sheet))
      ensures ParseObjectives(sheet).None? ==>
        && res == Fail(MissingColumn) && objectives == old(objectives) && roundFiles == old(roundFiles)
        && summary == old(summary) && counter == old(counter) && summaryFile == old(summaryFile)
      ensures ParseObjectives(sheet).Some? ==>
        && res == Pass && objectives == ParseObjectives(sheet)
        && roundFiles == (if 0 in old(roundFiles) then old(roundFiles)
                          else old(roundFiles)[0 := scope(components.value, objectives.value, batchSize)])
        && summary == old(summary)[old(counter) := LogEntry(InitializeScopeCall(batchSize))]
        && counter == old(counter) + 1 && summaryFile == summary
      ensures old(LogContiguous()) ==> LogContiguous()
    {
      components := Some(ParseComponents(sheet));
      var parsed := ParseObjectives(sheet);
      if parsed.None? {
        return Fail(MissingColumn);
      }
      objectives := parsed;
      if 0 !in roundFiles {
        roundFiles := roundFiles[0 := scope(components.value, parsed.value, batchSize)];
      }
      LogStuff(InitializeScopeCall(batchSize));
      res := Pass;
    }

    /**
     * `single_round_predict`: score round `roundNum`, strip the scoring columns and save
     * the result as round `roundNum + 1`; log the call.
     */
    method SingleRoundPredict(roundNum: int, batchSize: int, scoring: ScoringOracle) returns (res: Outcome)
      modifies this`roundFiles, this`summary, this`counter, this`summaryFile
      ensures objectives.None? ==> res == Fail(NotInitialized)
      ensures objectives.Some? && roundNum !in old(roundFiles) ==> res == Fail(RoundNotFound)
      ensures res.Fail? ==>
        roundFiles == old(roundFiles) && summary == old(summary) && counter == old(counter) && summaryFile == old(summaryFile)
      ensures objectives.Some? && roundNum in old(roundFiles) ==>
        && res == Pass
        && roundFiles == old(roundFiles)[roundNum + 1 := StripScoringColumns(scoring(old(roundFiles)[roundNum], objectives.value, batchSize))]
        && summary == old(summary)[old(counter) := LogEntry(SingleRoundPredictCall(roundNum, batchSize))]
        && counter == old(counter) + 1 && summaryFile == summary
      ensures old(LogContiguous()) ==> LogContiguous()
    {
      if objectives.None? {
        return Fail(NotInitialized);
      }
      if roundNum !in roundFiles {
        return Fail(RoundNotFound);
      }
      var roundResult := scoring(roundFiles[roundNum], objectives.value, batchSize);
      roundFiles := roundFiles[roundNum + 1 := StripScoringColumns(roundResult)];
      LogStuff(SingleRoundPredictCall(roundNum, batchSize));
      res := Pass;
    }

    /**
     * `bulk_training`: back up round `roundNum`, fill its rows from the observations, sort
     * it by priority, highest first, force priority 1 on the first `batchSize` rows, save it
     * over the round file and log the call. An exception in the fill loop leaves the
     * backup written and the round file and the log as they were.
     */
    method BulkTraining(trainingDf: ObsTable, roundNum: int, batchSize: int, priorityLimiting: bool, prioritySetting: bool)
      returns (res: Outcome)
      modifies this`roundFiles, this`backupFiles, this`summary, this`counter, this`summaryFile
      ensures roundNum !in old(roundFiles) ==>
        && res == Fail(RoundNotFound) && backupFiles == old(backupFiles) && roundFiles == old(roundFiles)
        && summary == old(summary) && counter == old(counter) && summaryFile == old(summaryFile)
      ensures roundNum in old(roundFiles) ==> backupFiles == old(backupFiles)[roundNum := old(roundFiles)[roundNum]]
      ensures roundNum in old(roundFiles) ==>
        var table := old(roundFiles)[roundNum];
        var filled := FillAll(Context(trainingDf, priorityLimiting, prioritySetting), table.rows);
        && (filled.Err? ==>
              && res == Fail(filled.error) && roundFiles == old(roundFiles)
              && summary == old(summary) && counter == old(counter) && summaryFile == old(summaryFile))
        && (filled.Ok? ==>
              && res == Pass
              && MergedRound(roundFiles, roundNum, table, Context(trainingDf, priorityLimiting, prioritySetting), batchSize)
              && roundFiles == old(roundFiles)[roundNum := roundFiles[roundNum]]
              && summary == old(summary)[old(counter) := LogEntry(BulkTrainingCall(trainingDf, roundNum, batchSize, priorityLimiting, prioritySetting))]
              && counter == old(counter) + 1 && summaryFile == summary)
      ensures old(LogContiguous()) ==> LogContiguous()
    {
      if roundNum !in roundFiles {
        return Fail(RoundNotFound);
      }
      var roundInput := roundFiles[roundNum];
      backupFiles := backupFiles[roundNum := roundInput];
      var filled := FillRows(Context(trainingDf, priorityLimiting, prioritySetting), roundInput.rows);
      if filled.Err? {
        return Fail(filled.error);
      }
      var sorted := SortByPriority(filled.value);
      var marked := MarkBatch(sorted, batchSize);
      roundFiles := roundFiles[roundNum := RoundTable(roundInput.columns, marked)];
      LogStuff(BulkTrainingCall(trainingDf, roundNum, batchSize, priorityLimiting, prioritySetting));
      res := Pass;
    }

    /**
     * One iteration of the `simulate_run` loop: merge the observations into round
     * `roundNum` with priority limiting and priority setting, then predict the next round.
     * A failing merge logs nothing; a failing prediction leaves the merge's entry.
     */
    method SimulateRound(trainingDf: ObsTable, roundNum: int, batchSize: int, scoring: ScoringOracle)
      returns (res: Outcome)
      modifies this`roundFiles, this`backupFiles, this`summary, this`counter, this`summaryFile
      ensures res.Fail? ==>
        || (summary == old(summary) && counter == old(counter))
        || (summary == old(summary)[old(counter) := LogEntry(BulkTrainingCall(trainingDf, roundNum, batchSize, true, true))]
            && counter == old(counter) + 1)
      ensures res.Pass? ==>
        && summary == old(summary)[old(counter) := LogEntry(BulkTrainingCall(trainingDf, roundNum, batchSize, true, true))]
                                  [old(counter) + 1 := LogEntry(SingleRoundPredictCall(roundNum, batchSize))]
        && counter == old(counter) + 2
      ensures res.Pass? ==>
        && roundNum in old(roundFiles) && objectives.Some?
        && backupFiles == old(backupFiles)[roundNum := old(roundFiles)[roundNum]]
        && Iterated(old(roundFiles), roundFiles, roundNum, Context(trainingDf, true, true), objectives.value, batchSize, scoring)
      ensures roundNum !in old(roundFiles) ==>
        && res == Fail(RoundNotFound) && roundFiles == old(roundFiles) && backupFiles == old(backupFiles)
        && summary == old(summary) && counter == old(counter) && summaryFile == old(summaryFile)
      ensures roundNum in old(roundFiles) ==> backupFiles == old(backupFiles)[roundNum := old(roundFiles)[roundNum]]
      ensures res.Fail? ==>
        || roundFiles == old(roundFiles)
        || (&& res == Fail(NotInitialized) && objectives.None? && roundNum in old(roundFiles)
            && MergedRound(roundFiles, roundNum, old(roundFiles)[roundNum], Context(trainingDf, true, true), batchSize)
            && roundFiles == old(roundFiles)[roundNum := roundFiles[roundNum]])
      ensures res.Pass? ==> summaryFile == summary
      ensures old(summaryFile == summary) ==> summaryFile == summary
      ensures old(LogContiguous()) ==> LogContiguous()
    {
      ghost var before := roundFiles;
      res := BulkTraining(trainingDf, roundNum, batchSize, true, true);
      if res.Fail? {
        return;
      }
      ghost var merged := roundFiles;
      res := SingleRoundPredict(roundNum, batchSize, scoring);
      assert roundFiles[roundNum] == merged[roundNum];
    }

    /**
     * The round loop of `simulate_run`: for each round 0 .. maxRounds - 1 merge the
     * observations with priority limiting and priority setting and predict the next round,
     * stopping at the first failure. `base` is the key of the run's own entry, just before
     * the counter.
     */
    method RunRounds(ghost base: nat, trainingDf: ObsTable, maxRounds: int, batchSize: int, scoring: ScoringOracle) returns (res: Outcome)
      requires counter == base + 1 && base in summary
      modifies this`roundFiles, this`backupFiles, this`summary, this`counter, this`summaryFile
      ensures base in summary && summary[base] == old(summary)[base]
      ensures res.Pass? ==> && summary == RunLog(old(summary), base, RoundCount(maxRounds), trainingDf, batchSize)
                            && counter == old(counter) + 2 * RoundCount(maxRounds)
      ensures res.Pass? && maxRounds > 0 ==>
        && 0 in old(roundFiles) && objectives.Some?
        && RoundsRun(roundFiles, backupFiles, old(roundFiles), old(backupFiles), old(roundFiles)[0], maxRounds,
                     Context(trainingDf, true, true), objectives.value, batchSize, scoring)
      ensures maxRounds <= 0 ==> res.Pass? && roundFiles == old(roundFiles) && backupFiles == old(backupFiles)
      ensures old(summaryFile == summary) ==> summaryFile == summary
      ensures old(LogContiguous()) ==> LogContiguous()
    {
      ghost var start := summary;
      ghost var wasContiguous := LogContiguous();
      ghost var wasSaved := summaryFile == summary;
      ghost var startFiles, startBackups := roundFiles, backupFiles;
      ghost var start0 := if 0 in roundFiles then roundFiles[0] else RoundTable([], []);
      ghost var ctx := Context(trainingDf, true, true);
      var roundNum: nat := 0;
      while roundNum < maxRounds
        invariant roundNum <= RoundCount(maxRounds)
        invariant counter == base + 1 + 2 * roundNum
        invariant summary == RunLog(start, base, roundNum, trainingDf, batchSize)
        invariant wasContiguous ==> LogContiguous()
        invariant wasSaved ==> summaryFile == summary
        invariant roundNum == 0 ==> roundFiles == startFiles && backupFiles == startBackups
        invariant roundNum > 0 ==>
          && 0 in startFiles && objectives.Some?
          && RoundsRun(roundFiles, backupFiles, startFiles, startBackups, start0, roundNum,
                       ctx, objectives.value, batchSize, scoring)
      {
        ghost var at, before, prev, files, backups := counter, summary, roundNum, roundFiles, backupFiles;
        var step := SimulateRound(trainingDf, roundNum, batchSize, scoring);
        if step.Fail? {
          RunLogKeepsBase(start, base, roundNum, trainingDf, batchSize);
          return step;
        }
        roundNum := roundNum + 1;
        RunLogStep(start, base, prev, roundNum, at, before, summary, trainingDf, batchSize);
        RunExtends(files, roundFiles, backups, backupFiles, startFiles, startBackups, start0, prev, roundNum,
                   ctx, objectives.value, batchSize, scoring);
      }
      RunLogKeepsBase(start, base, roundNum, trainingDf, batchSize);
      if maxRounds > 0 {
        assert roundNum == maxRounds && start0 == old(roundFiles)[0];
      }
      res := Pass;
    }

    /** `simulate_run`: log the call, then run the rounds. */
    method SimulateRun(trainingDf: ObsTable, maxRounds: int, batchSize: int, scoring: ScoringOracle) returns (res: Outcome)
      modifies this`roundFiles, this`backupFiles, this`summary, this`counter, this`summaryFile
      ensures old(counter) in summary && summary[old(counter)] == LogEntry(SimulateRunCall(trainingDf, batchSize, maxRounds))
      ensures res.Pass? ==> counter == old(counter) + 1 + 2 * RoundCount(maxRounds)
      ensures res.Pass? ==> forall r :: 1 <= r <= maxRounds ==> r in roundFiles
      ensures res.Pass? ==>
        summary == RunLog(old(summary)[old(counter) := LogEntry(SimulateRunCall(trainingDf, batchSize, maxRounds))],
                          old(counter), RoundCount(maxRounds), trainingDf, batchSize)
      ensures res.Pass? && maxRounds > 0 ==>
        && 0 in old(roundFiles) && objectives.Some?
        && RoundsRun(roundFiles, backupFiles, old(roundFiles), old(backupFiles), old(roundFiles)[0], maxRounds,
                     Context(trainingDf, true, true), objectives.value, batchSize, scoring)
      ensures maxRounds <= 0 ==> res.Pass? && roundFiles == old(roundFiles) && backupFiles == old(backupFiles)
      ensures res.Pass? ==> forall r: nat :: r < maxRounds ==> LoggedRound(summary, old(counter), r, trainingDf, batchSize)
      ensures summaryFile == summary
      ensures old(LogContiguous()) ==> LogContiguous()
    {
      ghost var base := counter;
      LogStuff(SimulateRunCall(trainingDf, batchSize, maxRounds));
      ghost var logged := summary;
      res := RunRounds(base, trainingDf, maxRounds, batchSize, scoring);
      if res.Pass? {
        RunLogRounds(logged, base, RoundCount(maxRounds), trainingDf, batchSize);
        if maxRounds > 0 {
          ChainedKeys(roundFiles, old(roundFiles)[0], maxRounds, Context(trainingDf, true, true), objectives.value, batchSize, scoring);
        }
      }
    }
  }

  /** Initialising the scope a second time keeps round 0 as the first call left it: the
      optimiser is not run on the scope again. */
  method InitializeTwiceKeepsRoundZero(g: EDBOGenerator, sheet: Sheet, b1: int, b2: int, s1: ScopeOracle, s2: ScopeOracle)
    requires ParseObjectives(sheet).Some?
    modifies g
    ensures 0 in g.roundFiles
    ensures g.roundFiles[0] == if 0 in old(g.roundFiles) then old(g.roundFiles)[0]
                               else s1(ParseComponents(sheet), ParseObjectives(sheet).value, b1)
  {
    var first := g.InitializeScope(sheet, b1, s1);
    ghost var round0 := g.roundFiles[0];
    var second := g.InitializeScope(sheet, b2, s2);
    assert g.roundFiles[0] == round0;
  }
}
