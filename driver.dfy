/**
  The fold level of `train_and_eval`: for each fold, skip it when its status check
  says it is done, otherwise resume its latest checkpoint, run the epoch loop,
  compute the terminal epoch and rename that latest file to `checkpoint_last`;
  log the test results once per fold; then average the folds' best results once.
 */
module Driver {
  import opened Wrappers
  import opened Naming
  import opened Checkpoints
  import opened TrainAndTest
  import opened Averaging

  /** A log file belongs to no checkpoint series. */
  lemma LogInNoSeries(f: string, name: string)
    requires f == TrainingLog || f == TestResultsLog
    ensures !InSeries(f, name)
  {
    forall e: int
      ensures f != FileName(name, e)
    {
      var g := FileName(name, e);
      assert g[|g| - 3..] == ".pt";
    }
  }

  // ---------------------------------------------------------------------------
  // The terminal epoch and `finalize_latest_checkpoint`

  /** Lines 175-178: the epoch whose latest checkpoint the fold finalizes, from the loop variable. */
  function TerminalEpoch(epoch: int, epochs: int): int
  {
    if epoch == epochs then epoch else epoch - 1
  }

  /**
    With the loop variable one past the last worked epoch exactly when early stop cut
    the range short, the terminal epoch is the last worked epoch except in one case:
    early stop set at epoch `epochs - 1`, where the break binds `epoch` to `epochs`
    and the terminal epoch is `epochs`, one too far.
   */
  lemma TerminalEpochIsLastWorked(last: int, epochs: int, earlyStop: bool, epochVar: int)
    requires last <= epochs && (!earlyStop ==> last == epochs)
    requires epochVar == if earlyStop && last < epochs then last + 1 else last
    ensures TerminalEpoch(epochVar, epochs) == last <==> !(earlyStop && last == epochs - 1)
    ensures earlyStop && last == epochs - 1 ==> TerminalEpoch(epochVar, epochs) == epochs
  {
  }

  /**
    How the epoch loop of a fold with epochs left ends, in state `w`: it worked at
    least one epoch, up to `epochs` unless early stop cut it short, the loop variable
    is one past the last worked epoch exactly when early stop cut the range short,
    from a tidy folder the folder is tidy for the next start, and the latest file of
    the last worked epoch holds the bundle saved then.
   */
  ghost predicate LoopEnded(c: LoopStart, config: Config, w: LoopState)
  {
    var last := c.start + |w.recs| - 1;
    && |w.recs| > 0 && last <= config.epochs
    && (!w.earlyStop ==> last == config.epochs)
    && w.epochVar == Some(if w.earlyStop && last < config.epochs then last + 1 else last)
    && (LatestTidy(c.files, c.start) ==> LatestTidy(w.files, last + 1))
    && w.evalValid.Some? && w.evalValidBest.Some?
    && FileName(LatestSeries, last) in w.files
    && w.files[FileName(LatestSeries, last)] == Snapshot(Bundle(last, w.state, w.evalValid.value, w.evalValidBest.value,
         if config.enableWandb then c.wandbId else None))
  }

  /** A loop with epochs left raises exactly when its first save does, and otherwise ends as `LoopEnded` says. */
  lemma LoopEnd(c: LoopStart, config: Config, ops: Oracles)
    requires c.start <= config.epochs
    ensures var w := Loop(c, config, ops, InitialState(c));
      && (w.failed <==> FirstSaveFails(c, config, ops))
      && (!w.failed ==> LoopEnded(c, config, w))
  {
    var w := Loop(c, config, ops, InitialState(c));
    LoopOutcome(c, config, ops);
    if !w.failed {
      EndedAsIsLoopEnded(c, config, ops, w);
    }
  }

  /** A loop that ended as `EndedAs` says, with epochs left at its start, ended as `LoopEnded` says. */
  lemma EndedAsIsLoopEnded(c: LoopStart, config: Config, ops: Oracles, w: LoopState)
    requires c.start <= config.epochs
    requires EndedAs(c, config, ops, w)
    ensures LoopEnded(c, config, w)
  {
    EndedAsBounds(c, config, ops, w);
    EndedAsTidy(c, config, ops, w);
    EndedAsLatestFile(c, config, ops, w);
  }

  /** The epochs a loop with epochs left worked, and where it left the loop variable. */
  lemma EndedAsBounds(c: LoopStart, config: Config, ops: Oracles, w: LoopState)
    requires c.start <= config.epochs
    requires EndedAs(c, config, ops, w)
    ensures var last := c.start + |w.recs| - 1;
      && |w.recs| > 0 && last <= config.epochs
      && (!w.earlyStop ==> last == config.epochs)
      && w.epochVar == Some(if w.earlyStop && last < config.epochs then last + 1 else last)
  {
  }

  /** From a folder tidy for its start, the loop leaves the folder tidy for the next start. */
  lemma EndedAsTidy(c: LoopStart, config: Config, ops: Oracles, w: LoopState)
    requires EndedAs(c, config, ops, w)
    ensures LatestTidy(c.files, c.start) ==> LatestTidy(w.files, c.start + |w.recs|)
  {
    FolderInvKeepsLatestTidy(c.files, w.files, c.start, c.start + |w.recs|, w.lastBest, w.recs,
      LatestTidy(c.files, c.start), c.start == 1 && SeriesFiles(c.files, BestSeries) == {});
  }

  /** The latest file of the last worked epoch holds the bundle saved then. */
  lemma EndedAsLatestFile(c: LoopStart, config: Config, ops: Oracles, w: LoopState)
    requires c.start <= config.epochs
    requires EndedAs(c, config, ops, w)
    ensures var last := c.start + |w.recs| - 1;
      && w.evalValid.Some? && w.evalValidBest.Some?
      && FileName(LatestSeries, last) in w.files
      && w.files[FileName(LatestSeries, last)] == Snapshot(Bundle(last, w.state, w.evalValid.value, w.evalValidBest.value,
           if config.enableWandb then c.wandbId else None))
  {
  }

  /** The folder invariant, for a folder tidy at the start, gives a folder tidy for the epoch it reached. */
  lemma FolderInvKeepsLatestTidy(
    files0: map<string, FileContent>, files: map<string, FileContent>, start: int, epoch: int,
    lastBest: int, recs: seq<EpochRecord>, latestTidy: bool, bestTidy: bool)
    requires FolderInv(files0, files, start, epoch, lastBest, recs, latestTidy, bestTidy)
    ensures latestTidy ==> LatestTidy(files, epoch)
  {
  }

  /**
    After a loop from a folder tidy for its start, the latest file of the terminal
    epoch exists exactly when the terminal epoch is the last worked epoch, that is
    unless early stop was set at `epochs - 1`.
   */
  lemma TerminalLatestFile(c: LoopStart, config: Config, w: LoopState)
    requires LoopEnded(c, config, w)
    requires LatestTidy(c.files, c.start)
    ensures var last := c.start + |w.recs| - 1;
      var n := TerminalEpoch(w.epochVar.value, config.epochs);
      && SeriesFiles(w.files, LatestSeries) == {FileName(LatestSeries, last)}
      && (FileName(LatestSeries, n) in w.files <==> n == last)
      && (n == last <==> !(w.earlyStop && last == config.epochs - 1))
  {
    var last := c.start + |w.recs| - 1;
    TerminalEpochIsLastWorked(last, config.epochs, w.earlyStop, w.epochVar.value);
    var n := TerminalEpoch(w.epochVar.value, config.epochs);
    if FileName(LatestSeries, n) in w.files {
      InOwnSeries(LatestSeries, n);
      assert FileName(LatestSeries, n) in SeriesFiles(w.files, LatestSeries);
      FileNameInjective(LatestSeries, n, last);
    }
  }

  /** `finalize_latest_checkpoint(n, folder)` on the folder's files: `checkpoint_latest` at `n` becomes `checkpoint_last` at `n`. */
  function Finalized(files: map<string, FileContent>, n: int): map<string, FileContent>
  {
    var latest := FileName(LatestSeries, n);
    if latest in files then RemoveFile(files, latest)[FileName(LastSeries, n) := files[latest]] else files
  }

  /**
    Renaming moves the state: the `checkpoint_last` file holds what the latest file
    held, the latest file is gone, and every file of neither name is unchanged;
    without a latest file at `n` nothing changes.
   */
  lemma FinalizedMoves(files: map<string, FileContent>, n: int)
    ensures var latest, last := FileName(LatestSeries, n), FileName(LastSeries, n);
      var after := Finalized(files, n);
      && (latest in files ==> latest !in after && last in after && after[last] == files[latest])
      && (latest !in files ==> after == files)
      && (forall f :: f != latest && f != last ==> (f in after <==> f in files) && (f in files ==> after[f] == files[f]))
  {
    SeriesAreDisjoint(n);
    InOwnSeries(LastSeries, n);
  }

  /**
    `Checkpoint.finalize_latest_checkpoint` (called at line 180; its body is not part
    of this model): the rename of the terminal latest file, when there is one.
   */
  method FinalizeLatestCheckpoint(n: int, fs: FileSystem, dirPath: string) returns (renamed: bool)
    modifies fs
    ensures renamed <==> FileName(LatestSeries, n) in old(fs.Files(dirPath))
    ensures renamed ==> fs.dirs == old(fs.dirs)[dirPath := Finalized(old(fs.Files(dirPath)), n)]
    ensures !renamed ==> fs.dirs == old(fs.dirs)
  {
    var latest := FileName(LatestSeries, n);
    renamed := latest in fs.Files(dirPath);
    if renamed {
      var content := fs.Files(dirPath)[latest];
      fs.Remove(dirPath, latest);
      fs.Write(dirPath, FileName(LastSeries, n), content);
    }
  }

  // ---------------------------------------------------------------------------
  // One fold

  /** `with Logger(folder / name, 'a')` where the body only prints: the log file exists afterwards. */
  function WithLog(files: map<string, FileContent>, name: string): map<string, FileContent>
  {
    if name in files then files else files[name := Log]
  }

  /** How a fold ended: skipped as done, or trained from `startEpoch` with the finalized terminal epoch. */
  datatype FoldOutcome = Skipped | Trained(startEpoch: int, earlyStop: bool, terminal: int, renamed: bool)

  /** A fold's outcome, Python's `epoch` afterwards, and the fold folder's files afterwards. */
  datatype FoldRun = FoldRun(outcome: Result<FoldOutcome, DriverError>, epochVar: Option<int>, files: map<string, FileContent>)

  /**
    Lines 55-185 for fold `cv` with folder `dir` holding `files`, and `prevEpoch`
    the value of `epoch` left by earlier folds. A fold reported done is skipped.
    Otherwise the training log is opened, the checkpoint is resumed from the first
    `checkpoint_latest` match, the epoch loop runs, and the latest file of the
    terminal epoch is finalized; a save that raises and `epoch` never bound are
    errors. Unless an error stopped the run, the test-results log exists afterwards.
   */
  function RunFold(cv: int, dir: string, files: map<string, FileContent>, config: Config, ops: Oracles, prevEpoch: Option<int>): FoldRun
  {
    if ops.cvDone(cv, files) then FoldRun(Success(Skipped), prevEpoch, WithLog(files, TestResultsLog))
    else ResumeFold(cv, dir, files[TrainingLog := Log], config, ops, prevEpoch)
  }

  /**
    Lines 66-185 for a fold that is not done, its folder holding `files1` once the
    training log is open: the checkpoint is resumed, the epoch loop runs and the
    fold finishes as `FinishFold` says.
   */
  function ResumeFold(cv: int, dir: string, files1: map<string, FileContent>, config: Config, ops: Oracles, prevEpoch: Option<int>): FoldRun
  {
    match Resume(LatestSeries, dir, files1, ops.glob(dir, files1), config, cv, ops.factory, ops.wandbId)
    case Failure(e) => FoldRun(Failure(CheckpointFailed(e)), prevEpoch, files1)
    case Success(rs) =>
      var c := LoopStart(rs.startEpoch, prevEpoch, rs.state, rs.evalValid, rs.evalValidBest, rs.bestLoaded, rs.wandbId, files1);
      FinishFold(c, config, Loop(c, config, ops, InitialState(c)))
  }

  /**
    Lines 175-185 after the loop ended in `w`: a save that raised in the loop and
    `epoch` never bound are errors; otherwise the latest file of the terminal epoch
    is finalized and the test-results log is written.
   */
  function FinishFold(c: LoopStart, config: Config, w: LoopState): FoldRun
  {
    if w.failed then FoldRun(Failure(SaveFailed), w.epochVar, w.files)
    else if w.epochVar.None? then FoldRun(Failure(EpochUnbound), None, w.files)
    else
      var n := TerminalEpoch(w.epochVar.value, config.epochs);
      FoldRun(Success(Trained(c.start, w.earlyStop, n, FileName(LatestSeries, n) in w.files)), w.epochVar,
        WithLog(Finalized(w.files, n), TestResultsLog))
  }

  /** A fold reported as done runs no epochs: `epoch` keeps its value and no file but the test-results log changes. */
  lemma SkippedFoldChangesNothing(cv: int, dir: string, files: map<string, FileContent>, config: Config, ops: Oracles, prevEpoch: Option<int>)
    requires ops.cvDone(cv, files)
    ensures var r := RunFold(cv, dir, files, config, ops, prevEpoch);
      && r.outcome == Success(Skipped) && r.epochVar == prevEpoch
      && TestResultsLog in r.files
      && (forall f :: f != TestResultsLog ==> (f in r.files <==> f in files) && (f in files ==> r.files[f] == files[f]))
  {
  }

  /**
    Finalizing the terminal epoch after a loop from a tidy folder: the rename happens
    exactly when the terminal epoch is the last worked one, that is unless early stop
    was set at `epochs - 1`; then no latest file is left and `checkpoint_last` at that
    epoch holds the bundle saved there, the final state with both evaluations;
    otherwise the one latest file survives.
   */
  lemma FinalizeAfterLoop(c: LoopStart, config: Config, w: LoopState)
    requires LoopEnded(c, config, w)
    requires LatestTidy(c.files, c.start)
    ensures var last := c.start + |w.recs| - 1;
      var n := TerminalEpoch(w.epochVar.value, config.epochs);
      var after := WithLog(Finalized(w.files, n), TestResultsLog);
      && (FileName(LatestSeries, n) in w.files <==> !(w.earlyStop && last == config.epochs - 1))
      && (FileName(LatestSeries, n) in w.files ==>
           && n == last
           && SeriesFiles(after, LatestSeries) == {}
           && FileName(LastSeries, last) in after
           && after[FileName(LastSeries, last)] == Snapshot(Bundle(last, w.state, w.evalValid.value, w.evalValidBest.value,
                if config.enableWandb then c.wandbId else None)))
      && (FileName(LatestSeries, n) !in w.files ==> SeriesFiles(after, LatestSeries) == {FileName(LatestSeries, last)})
  {
    var last := c.start + |w.recs| - 1;
    TerminalLatestFile(c, config, w);
    var n := TerminalEpoch(w.epochVar.value, config.epochs);
    if FileName(LatestSeries, n) in w.files {
      RenameEmptiesLatest(w.files, n);
    } else {
      NoRenameKeepsLatest(w.files, n);
    }
  }

  /** When the only latest file is the one at `n`, finalizing `n` leaves no latest file and moves its content. */
  lemma RenameEmptiesLatest(files: map<string, FileContent>, n: int)
    requires SeriesFiles(files, LatestSeries) == {FileName(LatestSeries, n)}
    ensures var after := WithLog(Finalized(files, n), TestResultsLog);
      && SeriesFiles(after, LatestSeries) == {}
      && FileName(LastSeries, n) in after
      && after[FileName(LastSeries, n)] == files[FileName(LatestSeries, n)]
  {
    var fin := Finalized(files, n);
    LogInNoSeries(TestResultsLog, LatestSeries);
    FinalizedMoves(files, n);
    SeriesAreDisjoint(n);
    InOwnSeries(LatestSeries, n);
    assert FileName(LatestSeries, n) in SeriesFiles(files, LatestSeries);
    assert SeriesFiles(fin, LatestSeries) == {};
    assert FileName(LastSeries, n) != TestResultsLog;
  }

  /** Without a latest file at `n`, finalizing `n` changes no series file. */
  lemma NoRenameKeepsLatest(files: map<string, FileContent>, n: int)
    requires FileName(LatestSeries, n) !in files
    ensures SeriesFiles(WithLog(Finalized(files, n), TestResultsLog), LatestSeries) == SeriesFiles(files, LatestSeries)
  {
    LogInNoSeries(TestResultsLog, LatestSeries);
  }

  /**
    A fold that is not done, resumes from a folder tidy for its start and has epochs
    left ends trained exactly when its first save does not raise, and then renames
    its terminal latest file as `FinalizeAfterLoop` says.
   */
  lemma TrainedFoldFinalizes(cv: int, dir: string, files: map<string, FileContent>, config: Config, ops: Oracles, prevEpoch: Option<int>)
    requires !ops.cvDone(cv, files)
    requires var files1 := files[TrainingLog := Log];
      var rs := Resume(LatestSeries, dir, files1, ops.glob(dir, files1), config, cv, ops.factory, ops.wandbId);
      rs.Success? && rs.value.startEpoch <= config.epochs && LatestTidy(files1, rs.value.startEpoch)
    ensures var files1 := files[TrainingLog := Log];
      var rs := Resume(LatestSeries, dir, files1, ops.glob(dir, files1), config, cv, ops.factory, ops.wandbId).value;
      var c := LoopStart(rs.startEpoch, prevEpoch, rs.state, rs.evalValid, rs.evalValidBest, rs.bestLoaded, rs.wandbId, files1);
      var w := Loop(c, config, ops, InitialState(c));
      var r := RunFold(cv, dir, files, config, ops, prevEpoch);
      && (r.outcome.Success? <==> !FirstSaveFails(c, config, ops))
      && (!FirstSaveFails(c, config, ops) ==> (
           && r.outcome.Success? && r.outcome.value.Trained?
           && r.outcome.value.startEpoch == rs.startEpoch && r.outcome.value.earlyStop == w.earlyStop
           && r.outcome.value.terminal == TerminalEpoch(w.epochVar.value, config.epochs)
           && r.outcome.value.renamed == (FileName(LatestSeries, r.outcome.value.terminal) in w.files)
           && r.epochVar == w.epochVar
           && r.files == WithLog(Finalized(w.files, r.outcome.value.terminal), TestResultsLog)
           && LoopEnded(c, config, w) && LatestTidy(c.files, c.start)))
  {
    var files1 := files[TrainingLog := Log];
    var rs := Resume(LatestSeries, dir, files1, ops.glob(dir, files1), config, cv, ops.factory, ops.wandbId).value;
    var c := LoopStart(rs.startEpoch, prevEpoch, rs.state, rs.evalValid, rs.evalValidBest, rs.bestLoaded, rs.wandbId, files1);
    LoopEnd(c, config, ops);
  }

  /**
    A fold that is not done and resumes with epochs left stops with `SaveFailed`
    only when the resume loaded a file, and then exactly when its first worked
    epoch does not improve on the best loaded with it; the fold's folder then
    holds only what it held and the training log.
   */
  lemma ResumedFoldFailsUnlessImproved(cv: int, dir: string, files: map<string, FileContent>, config: Config, ops: Oracles, prevEpoch: Option<int>)
    requires !ops.cvDone(cv, files)
    requires var files1 := files[TrainingLog := Log];
      var rs := Resume(LatestSeries, dir, files1, ops.glob(dir, files1), config, cv, ops.factory, ops.wandbId);
      rs.Success? && rs.value.startEpoch <= config.epochs
    ensures var files1 := files[TrainingLog := Log];
      var rs := Resume(LatestSeries, dir, files1, ops.glob(dir, files1), config, cv, ops.factory, ops.wandbId).value;
      var r := RunFold(cv, dir, files, config, ops, prevEpoch);
      && (r.outcome == Failure(SaveFailed) <==>
           rs.bestLoaded && !Improves(ops.evaluate(Validation, ops.train(rs.state)), rs.evalValidBest.value, config.autoEncoder))
      && (r.outcome == Failure(SaveFailed) ==> r.files == files1 && r.epochVar == Some(rs.startEpoch))
  {
    var files1 := files[TrainingLog := Log];
    var rs := Resume(LatestSeries, dir, files1, ops.glob(dir, files1), config, cv, ops.factory, ops.wandbId).value;
    var c := LoopStart(rs.startEpoch, prevEpoch, rs.state, rs.evalValid, rs.evalValidBest, rs.bestLoaded, rs.wandbId, files1);
    LoopOutcome(c, config, ops);
    if rs.bestLoaded {
      FirstSaveFailsOnlyAfterResume(c, config, ops);
    }
  }

  /** Any two folder trees that agree except at `k` and agree on `k`'s presence and files are equal. */
  lemma MapFromParts(m: map<string, map<string, FileContent>>, m': map<string, map<string, FileContent>>, k: string)
    requires k in m'
    requires m' - {k} == m - {k}
    ensures m' == m[k := m'[k]]
  {
    forall d | d in m'
      ensures d in m[k := m'[k]] && m[k := m'[k]][d] == m'[d]
    {
      if d != k {
        assert d in m' - {k};
      }
    }
    forall d | d in m[k := m'[k]]
      ensures d in m'
    {
      if d != k {
        assert d in m - {k};
      }
    }
  }

  /**
    Lines 91-185 for a fold whose checkpoint is open: the epoch loop, the terminal
    epoch, the rename and the test-results log, as `FinishFold` says of `Loop`.
   */
  method TrainOpenedFold(ckpt: Checkpoint, fs: FileSystem, dirPath: string, config: Config, ops: Oracles, prevEpoch: Option<int>)
    returns (outcome: Result<FoldOutcome, DriverError>, epochVar: Option<int>)
    requires config.enableWandb ==> ckpt.wandbId.Some?
    requires dirPath in fs.dirs
    modifies ckpt, fs
    ensures var c := LoopStart(old(ckpt.startEpoch), prevEpoch, old(ckpt.state), old(ckpt.evalValid), old(ckpt.evalValidBest),
        old(ckpt.bestLoaded), old(ckpt.wandbId), old(fs.Files(dirPath)));
      var w := Loop(c, config, ops, InitialState(c));
      var r := FinishFold(c, config, w);
      && outcome == r.outcome && epochVar == r.epochVar
      && fs.dirs == old(fs.dirs)[dirPath := r.files]
      && ckpt.evalValidBest == w.evalValidBest && ckpt.bestLoaded == w.bestLoaded
      && ckpt.validLoaded == (old(ckpt.validLoaded) && w.recs == [] && !w.failed)
      && (!w.failed ==> ckpt.state == w.state && ckpt.evalValid == w.evalValid)
      && (w.failed ==> ckpt.state == ops.train(w.state) && ckpt.evalValid == Some(ops.evaluate(Validation, ckpt.state)))
    ensures ckpt.model == old(ckpt.model) && ckpt.optimizer == old(ckpt.optimizer)
    ensures ckpt.startEpoch == old(ckpt.startEpoch) && ckpt.wandbId == old(ckpt.wandbId)
  {
    ghost var dirs0 := fs.dirs;
    ghost var c := LoopStart(ckpt.startEpoch, prevEpoch, ckpt.state, ckpt.evalValid, ckpt.evalValidBest, ckpt.bestLoaded,
      ckpt.wandbId, fs.Files(dirPath));
    var startEpoch := ckpt.startEpoch;
    var earlyStop, esCounter, lastBestEpoch, bestMetrics, failed;
    ghost var recs;
    ghost var w := Loop(c, config, ops, InitialState(c));
    epochVar, earlyStop, esCounter, lastBestEpoch, bestMetrics, failed, recs := RunEpochs(ckpt, fs, dirPath, config, ops, prevEpoch, c, w);
    assert epochVar == w.epochVar && earlyStop == w.earlyStop && failed == w.failed && fs.Files(dirPath) == w.files;
    MapFromParts(dirs0, fs.dirs, dirPath);
    if failed {
      return Failure(SaveFailed), epochVar;
    }
    outcome := FinalizeFold(fs, dirPath, config, startEpoch, epochVar, earlyStop, c, w);
    UpdateTwice(dirs0, dirPath, w.files, fs.dirs[dirPath]);
  }

  /**
    Lines 175-185 after a loop that ended in `w` without raising: `epoch` never
    bound is an error; otherwise the terminal epoch is finalized and the
    test-results log written, as `FinishFold` says.
   */
  method FinalizeFold(fs: FileSystem, dirPath: string, config: Config, startEpoch: int, epochVar: Option<int>, earlyStop: bool,
                      ghost c: LoopStart, ghost w: LoopState)
    returns (outcome: Result<FoldOutcome, DriverError>)
    requires !w.failed && w.epochVar == epochVar && w.earlyStop == earlyStop && c.start == startEpoch
    requires dirPath in fs.dirs && fs.Files(dirPath) == w.files
    modifies fs
    ensures var r := FinishFold(c, config, w);
      && outcome == r.outcome
      && fs.dirs == old(fs.dirs)[dirPath := r.files]
  {
    ghost var dirs0 := fs.dirs;
    if epochVar.None? {
      assert dirs0 == dirs0[dirPath := w.files];
      return Failure(EpochUnbound);
    }
    var checkpointNum := if epochVar.value == config.epochs then epochVar.value else epochVar.value - 1;
    var renamed := FinalizeLatestCheckpoint(checkpointNum, fs, dirPath);
    ghost var fin := Finalized(w.files, checkpointNum);
    assert fs.dirs == dirs0[dirPath := fin];
    outcome := Success(Trained(startEpoch, earlyStop, checkpointNum, renamed));
    if TestResultsLog !in fs.Files(dirPath) {
      fs.Write(dirPath, TestResultsLog, Log);
      UpdateTwice(dirs0, dirPath, fin, WithLog(fin, TestResultsLog));
    }
  }

  /** Writing a folder twice leaves the second write. */
  lemma UpdateTwice(m: map<string, map<string, FileContent>>, k: string, a: map<string, FileContent>, b: map<string, FileContent>)
    ensures m[k := a][k := b] == m[k := b]
  {
  }

  /**
    Lines 55-185 for fold `cv`, changing only the fold's folder: as `RunFold` says,
    with the status check, the glob, the constructors and the loop's oracles from `ops`.
   */
  method TrainFold(cv: int, fs: FileSystem, root: string, config: Config, ops: Oracles, prevEpoch: Option<int>)
    returns (outcome: Result<FoldOutcome, DriverError>, epochVar: Option<int>)
    modifies fs
    ensures var dir := FoldDir(root, cv);
      var r := RunFold(cv, dir, old(fs.Files(dir)), config, ops, prevEpoch);
      && outcome == r.outcome && epochVar == r.epochVar
      && fs.dirs == old(fs.dirs)[dir := r.files]
  {
    var dirPath := FoldDir(root, cv);
    if ops.cvDone(cv, fs.Files(dirPath)) {
      outcome, epochVar := Success(Skipped), prevEpoch;
      if TestResultsLog !in fs.Files(dirPath) {
        fs.Write(dirPath, TestResultsLog, Log);
      } else {
        assert fs.dirs == old(fs.dirs)[dirPath := fs.Files(dirPath)];
      }
      return;
    }
    fs.Write(dirPath, TrainingLog, Log);
    ghost var dirs1 := fs.dirs;
    outcome, epochVar := ResumeAndTrainFold(cv, fs, dirPath, config, ops, prevEpoch);
    UpdateTwice(old(fs.dirs), dirPath, dirs1[dirPath], fs.dirs[dirPath]);
  }

  /**
    Lines 66-185 for a fold that is not done, its training log open: as `ResumeFold`
    says, changing only the fold's folder.
   */
  method ResumeAndTrainFold(cv: int, fs: FileSystem, dirPath: string, config: Config, ops: Oracles, prevEpoch: Option<int>)
    returns (outcome: Result<FoldOutcome, DriverError>, epochVar: Option<int>)
    requires dirPath in fs.dirs
    modifies fs
    ensures var r := ResumeFold(cv, dirPath, old(fs.Files(dirPath)), config, ops, prevEpoch);
      && outcome == r.outcome && epochVar == r.epochVar
      && fs.dirs == old(fs.dirs)[dirPath := r.files]
  {
    ghost var files1 := fs.Files(dirPath);
    var listing := ops.glob(dirPath, fs.Files(dirPath));
    var made := Checkpoint.Open(LatestSeries, fs, dirPath, listing, config, cv, ops.factory, ops.wandbId);
    if made.Failure? {
      assert fs.dirs == old(fs.dirs)[dirPath := files1];
      return Failure(CheckpointFailed(made.error)), prevEpoch;
    }
    ResumeHasWandbId(LatestSeries, dirPath, files1, listing, config, cv, ops.factory, ops.wandbId);
    outcome, epochVar := TrainOpenedFold(made.value, fs, dirPath, config, ops, prevEpoch);
  }

  // ---------------------------------------------------------------------------
  // All folds, then the averages

  /** The folds' outcomes, the error that stopped them if any, Python's `epoch`, and the folders afterwards. */
  datatype FoldsRun = FoldsRun(outcomes: seq<FoldOutcome>, error: Option<DriverError>, epochVar: Option<int>,
    dirs: map<string, map<string, FileContent>>)

  /** One fold as the fold loop sees it: from the fold number, its folder, the folder's files and `epoch` so far. */
  type FoldStep = (int, string, map<string, FileContent>, Option<int>) -> FoldRun

  /**
    The loop of lines 50-197 from fold `cv` to `numCv - 1`, each fold run by `step`
    on its own folder, until the first error.
   */
  function Folds(step: FoldStep, root: string, numCv: int, dirs: map<string, map<string, FileContent>>, cv: int, prevEpoch: Option<int>): FoldsRun
    decreases numCv - cv
  {
    if cv >= numCv then FoldsRun([], None, prevEpoch, dirs)
    else
      var dir := FoldDir(root, cv);
      var r := step(cv, dir, FilesOf(dirs, dir), prevEpoch);
      var dirs1 := dirs[dir := r.files];
      if r.outcome.Failure? then FoldsRun([], Some(r.outcome.error), r.epochVar, dirs1)
      else
        var rest := Folds(step, root, numCv, dirs1, cv + 1, r.epochVar);
        rest.(outcomes := [r.outcome.value] + rest.outcomes)
  }

  /** The fold of lines 55-185 under `config` and `ops`. */
  function FoldOf(config: Config, ops: Oracles): FoldStep
  {
    (cv, dir, files, prevEpoch) => RunFold(cv, dir, files, config, ops, prevEpoch)
  }

  /** Lines 50-197 from fold `cv` on: each fold in turn on its own folder, until the first error. */
  function RunFolds(root: string, config: Config, ops: Oracles, dirs: map<string, map<string, FileContent>>, cv: int, prevEpoch: Option<int>): FoldsRun
  {
    Folds(FoldOf(config, ops), root, config.numCv, dirs, cv, prevEpoch)
  }

  /** A fold that ends without error is skipped exactly when its status check reports it done. */
  lemma SkippedIffDone(cv: int, dir: string, files: map<string, FileContent>, config: Config, ops: Oracles, prevEpoch: Option<int>)
    requires RunFold(cv, dir, files, config, ops, prevEpoch).outcome.Success?
    ensures RunFold(cv, dir, files, config, ops, prevEpoch).outcome.value == Skipped <==> ops.cvDone(cv, files)
  {
  }

  /** Every fold `step` ends without error skipped exactly when `done` says so of its files. */
  ghost predicate SkipsWhenDone(step: FoldStep, done: (int, map<string, FileContent>) -> bool)
  {
    forall cv, dir, files, prevEpoch :: step(cv, dir, files, prevEpoch).outcome.Success? ==>
      (step(cv, dir, files, prevEpoch).outcome.value == Skipped <==> done(cv, files))
  }

  /** `RunFold` skips exactly the folds the status check reports done. */
  lemma RunFoldSkipsWhenDone(config: Config, ops: Oracles)
    ensures SkipsWhenDone(FoldOf(config, ops), ops.cvDone)
  {
    forall cv, dir, files, prevEpoch | FoldOf(config, ops)(cv, dir, files, prevEpoch).outcome.Success?
      ensures FoldOf(config, ops)(cv, dir, files, prevEpoch).outcome.value == Skipped <==> ops.cvDone(cv, files)
    {
      SkippedIffDone(cv, dir, files, config, ops, prevEpoch);
    }
  }

  /** `d` is the folder of one of the folds `lo` to `hi - 1`. */
  ghost predicate IsFoldDir(root: string, d: string, lo: int, hi: int)
  {
    exists k :: lo <= k < hi && d == FoldDir(root, k)
  }

  /** Without an error, every fold from `cv` to `numCv - 1` has an outcome. */
  lemma {:induction false} EveryFoldHasOutcome(step: FoldStep, root: string, numCv: int, dirs: map<string, map<string, FileContent>>, cv: int, prevEpoch: Option<int>)
    ensures var t := Folds(step, root, numCv, dirs, cv, prevEpoch);
      t.error.None? ==> |t.outcomes| == if cv < numCv then numCv - cv else 0
    decreases numCv - cv
  {
    if cv < numCv {
      var dir := FoldDir(root, cv);
      var r := step(cv, dir, FilesOf(dirs, dir), prevEpoch);
      EveryFoldHasOutcome(step, root, numCv, dirs[dir := r.files], cv + 1, r.epochVar);
    }
  }

  /** The folds change no folder but their own: in particular not the save root itself. */
  lemma {:induction false} FoldsKeepOtherFolders(step: FoldStep, root: string, numCv: int, dirs: map<string, map<string, FileContent>>, cv: int, prevEpoch: Option<int>, d: string)
    requires !IsFoldDir(root, d, cv, numCv)
    ensures var t := Folds(step, root, numCv, dirs, cv, prevEpoch);
      (d in t.dirs <==> d in dirs) && FilesOf(t.dirs, d) == FilesOf(dirs, d)
    decreases numCv - cv
  {
    if cv < numCv {
      var dir := FoldDir(root, cv);
      var r := step(cv, dir, FilesOf(dirs, dir), prevEpoch);
      assert d != dir;
      if r.outcome.Success? {
        assert !IsFoldDir(root, d, cv + 1, numCv);
        FoldsKeepOtherFolders(step, root, numCv, dirs[dir := r.files], cv + 1, r.epochVar, d);
      }
    }
  }

  /** The save root is no fold's folder. */
  lemma RootIsNoFoldDir(root: string, lo: int, hi: int)
    ensures !IsFoldDir(root, root, lo, hi)
  {
    forall k | lo <= k < hi
      ensures FoldDir(root, k) != root
    {
      assert |FoldDir(root, k)| > |root|;
    }
  }

  /**
    With a step that skips exactly the folds `done` reports, fold `k` is skipped
    exactly when `done` holds of its folder as it was before any fold ran: earlier
    folds never touch it.
   */
  lemma {:induction false} FoldSkippedExactlyWhenDone(step: FoldStep, done: (int, map<string, FileContent>) -> bool, root: string, numCv: int,
      dirs: map<string, map<string, FileContent>>, cv: int, prevEpoch: Option<int>, k: int)
    requires SkipsWhenDone(step, done)
    requires cv <= k < numCv
    requires Folds(step, root, numCv, dirs, cv, prevEpoch).error.None?
    ensures var t := Folds(step, root, numCv, dirs, cv, prevEpoch);
      |t.outcomes| == numCv - cv
      && (t.outcomes[k - cv] == Skipped <==> done(k, FilesOf(dirs, FoldDir(root, k))))
    decreases numCv - cv
  {
    var dir := FoldDir(root, cv);
    var r := step(cv, dir, FilesOf(dirs, dir), prevEpoch);
    var dirs1 := dirs[dir := r.files];
    EveryFoldHasOutcome(step, root, numCv, dirs, cv, prevEpoch);
    EveryFoldHasOutcome(step, root, numCv, dirs1, cv + 1, r.epochVar);
    assert r.outcome.Success?;
    var rest := Folds(step, root, numCv, dirs1, cv + 1, r.epochVar);
    assert Folds(step, root, numCv, dirs, cv, prevEpoch).outcomes == [r.outcome.value] + rest.outcomes;
    if k > cv {
      FoldDirsDiffer(root, cv, k);
      FilesOfOther(dirs, dir, r.files, FoldDir(root, k));
      FoldSkippedExactlyWhenDone(step, done, root, numCv, dirs1, cv + 1, r.epochVar, k);
    } else {
      assert r.outcome.value == Skipped <==> done(cv, FilesOf(dirs, dir));
    }
  }

  /**
    Fold `k` is skipped exactly when the status check reports it done on its folder as
    it was before any fold ran.
   */
  lemma SkippedExactlyWhenDone(root: string, config: Config, ops: Oracles, dirs: map<string, map<string, FileContent>>, cv: int, prevEpoch: Option<int>, k: int)
    requires cv <= k < config.numCv
    requires RunFolds(root, config, ops, dirs, cv, prevEpoch).error.None?
    ensures var t := RunFolds(root, config, ops, dirs, cv, prevEpoch);
      |t.outcomes| == config.numCv - cv
      && (t.outcomes[k - cv] == Skipped <==> ops.cvDone(k, FilesOf(dirs, FoldDir(root, k))))
  {
    RunFoldSkipsWhenDone(config, ops);
    FoldSkippedExactlyWhenDone(FoldOf(config, ops), ops.cvDone, root, config.numCv, dirs, cv, prevEpoch, k);
  }

  /** What `train_and_eval` reports: every fold's outcome and the averages when they were computed. */
  datatype Report = Report(folds: seq<FoldOutcome>, averages: Option<Averages>)

  /** The whole run's result and the folders afterwards. */
  datatype Run = Run(result: Result<Report, DriverError>, dirs: map<string, map<string, FileContent>>)

  /** Lines 50-214: all folds from a run where `epoch` was never bound, then the averaging on the folders they left. */
  function TrainAndEvalRun(root: string, config: Config, ops: Oracles, dirs: map<string, map<string, FileContent>>): Run
  {
    var t := RunFolds(root, config, ops, dirs, 0, None);
    if t.error.Some? then Run(Failure(t.error.value), t.dirs)
    else
      var a := AverageBest(root, config, ops, t.dirs);
      match a.result
      case Failure(e) => Run(Failure(e), a.dirs)
      case Success(av) => Run(Success(Report(t.outcomes, av)), a.dirs)
  }

  /**
    The averaging runs only when the averages log was absent before the run: the
    folds never write the save root.
   */
  lemma AveragesOnlyWhenUnlogged(root: string, config: Config, ops: Oracles, dirs: map<string, map<string, FileContent>>)
    requires TrainAndEvalRun(root, config, ops, dirs).result.Success?
    ensures var run := TrainAndEvalRun(root, config, ops, dirs);
      run.result.value.averages.Some? <==> AverageBestLog !in FilesOf(dirs, root)
  {
    RootIsNoFoldDir(root, 0, config.numCv);
    FoldsKeepOtherFolders(FoldOf(config, ops), root, config.numCv, dirs, 0, None, root);
  }

  /**
    `train_and_eval` (lines 50-214) on the folder tree under `root`: as
    `TrainAndEvalRun` says.
   */
  method TrainAndEval(fs: FileSystem, root: string, config: Config, ops: Oracles) returns (result: Result<Report, DriverError>)
    modifies fs
    ensures var run := TrainAndEvalRun(root, config, ops, old(fs.dirs));
      result == run.result && fs.dirs == run.dirs
  {
    ghost var total := RunFolds(root, config, ops, fs.dirs, 0, None);
    var outcomes: seq<FoldOutcome> := [];
    var epoch: Option<int> := None;
    var cv := 0;
    while cv < config.numCv
      invariant 0 <= cv
      invariant var t := RunFolds(root, config, ops, fs.dirs, cv, epoch);
        outcomes + t.outcomes == total.outcomes && t.error == total.error && t.epochVar == total.epochVar && t.dirs == total.dirs
      decreases config.numCv - cv
    {
      ghost var dirs0, epoch0 := fs.dirs, epoch;
      var outcome;
      outcome, epoch := TrainFold(cv, fs, root, config, ops, epoch);
      ghost var r := RunFold(cv, FoldDir(root, cv), FilesOf(dirs0, FoldDir(root, cv)), config, ops, epoch0);
      assert outcome == r.outcome && epoch == r.epochVar && fs.dirs == dirs0[FoldDir(root, cv) := r.files];
      if outcome.Failure? {
        assert RunFolds(root, config, ops, dirs0, cv, epoch0) == FoldsRun([], Some(outcome.error), epoch, fs.dirs);
        assert total.error == Some(outcome.error) && total.dirs == fs.dirs;
        return Failure(outcome.error);
      }
      assert outcomes + [outcome.value] + RunFolds(root, config, ops, fs.dirs, cv + 1, epoch).outcomes
        == outcomes + RunFolds(root, config, ops, dirs0, cv, epoch0).outcomes;
      outcomes := outcomes + [outcome.value];
      cv := cv + 1;
    }
    assert RunFolds(root, config, ops, fs.dirs, cv, epoch) == FoldsRun([], None, epoch, fs.dirs);
    assert total.error.None? && total.outcomes == outcomes && total.dirs == fs.dirs;
    ghost var a := AverageBest(root, config, ops, fs.dirs);
    var averages := ComputeAverages(fs, root, config, ops);
    assert averages == a.result && fs.dirs == a.dirs;
    if averages.Failure? {
      return Failure(averages.error);
    }
    result := Success(Report(outcomes, averages.value));
  }
}
