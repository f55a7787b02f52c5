/**
  The cross-fold averaging at the end of `train_and_eval`: unless the averages log
  exists, open every fold's best checkpoint, add up the best metric vectors
  element-wise (as far as `zip` pairs them) and the current mean losses, and divide
  both by the number of folds.
 */
module Averaging {
  import opened Wrappers
  import opened Naming
  import opened Checkpoints
  import opened TrainAndTest

  /** What line 207's checkpoint of one fold contributes: its best and its current validation result. */
  datatype FoldResults = FoldResults(best: EvalResult, current: EvalResult)

  /** The averaged best metrics and the averaged current loss. */
  datatype Averages = Averages(metrics: seq<real>, meanLoss: real)

  /**
    Lines 207-209 for fold `cv`: the `checkpoint_best` checkpoint of the fold's folder;
    a fold without a best file has no best result (`None.metrics`).
   */
  function FoldBest(root: string, config: Config, ops: Oracles, dirs: map<string, map<string, FileContent>>, cv: int): Result<FoldResults, DriverError>
  {
    var dir := FoldDir(root, cv);
    var files := FilesOf(dirs, dir);
    match Resume(BestSeries, dir, files, ops.glob(dir, files), config, cv, ops.factory, ops.wandbId)
    case Failure(e) => Failure(CheckpointFailed(e))
    case Success(rs) =>
      if rs.evalValidBest.None? || rs.evalValid.None? then Failure(NoBestCheckpoint(cv))
      else Success(FoldResults(rs.evalValidBest.value, rs.evalValid.value))
  }

  /** The results of folds `0` to `k - 1` in order, stopping at the first fold that fails. */
  function CollectBests(root: string, config: Config, ops: Oracles, dirs: map<string, map<string, FileContent>>, k: nat): (r: Result<seq<FoldResults>, DriverError>)
    ensures r.Success? ==> |r.value| == k
  {
    if k == 0 then Success([])
    else match CollectBests(root, config, ops, dirs, k - 1)
      case Failure(e) => Failure(e)
      case Success(rs) =>
        match FoldBest(root, config, ops, dirs, k - 1)
        case Failure(e) => Failure(e)
        case Success(f) => Success(rs + [f])
  }

  /** A successful collection holds every fold's results, fold by fold. */
  lemma {:induction false} CollectedPerFold(root: string, config: Config, ops: Oracles, dirs: map<string, map<string, FileContent>>, k: nat)
    requires CollectBests(root, config, ops, dirs, k).Success?
    ensures forall cv :: 0 <= cv < k ==> FoldBest(root, config, ops, dirs, cv) == Success(CollectBests(root, config, ops, dirs, k).value[cv])
  {
    if k > 0 {
      var rs := CollectBests(root, config, ops, dirs, k - 1).value;
      CollectedPerFold(root, config, ops, dirs, k - 1);
      var f := FoldBest(root, config, ops, dirs, k - 1);
      var all := CollectBests(root, config, ops, dirs, k).value;
      assert f.Success? && all == rs + [f.value];
      forall cv | 0 <= cv < k
        ensures FoldBest(root, config, ops, dirs, cv) == Success(all[cv])
      {
        if cv < k - 1 {
          assert all[cv] == rs[cv];
        }
      }
    }
  }

  /** A failed collection fails as the first fold whose best checkpoint yields no results. */
  lemma {:induction false} FirstFailingFold(root: string, config: Config, ops: Oracles, dirs: map<string, map<string, FileContent>>, k: nat)
    returns (cv: nat)
    requires CollectBests(root, config, ops, dirs, k).Failure?
    ensures cv < k && FoldBest(root, config, ops, dirs, cv) == Failure(CollectBests(root, config, ops, dirs, k).error)
    ensures forall c :: 0 <= c < cv ==> FoldBest(root, config, ops, dirs, c).Success?
  {
    if CollectBests(root, config, ops, dirs, k - 1).Failure? {
      cv := FirstFailingFold(root, config, ops, dirs, k - 1);
    } else {
      CollectedPerFold(root, config, ops, dirs, k - 1);
      cv := k - 1;
    }
  }

  /** Once a fold fails, every longer collection fails the same way. */
  lemma {:induction false} FailureStops(root: string, config: Config, ops: Oracles, dirs: map<string, map<string, FileContent>>, k: nat, n: nat)
    requires k <= n && CollectBests(root, config, ops, dirs, k).Failure?
    ensures CollectBests(root, config, ops, dirs, n) == CollectBests(root, config, ops, dirs, k)
    decreases n - k
  {
    if k < n {
      FailureStops(root, config, ops, dirs, k + 1, n);
    }
  }

  /** `[sum(x) for x in zip(a, b)]`. */
  function ZipSum(a: seq<real>, b: seq<real>): seq<real>
  {
    seq(if |a| < |b| then |a| else |b|, i requires 0 <= i < |a| && i < |b| => a[i] + b[i])
  }

  /** `metrics_sum` after the folds `rs`, from ten zeros. */
  function MetricsSum(rs: seq<FoldResults>): seq<real>
  {
    if rs == [] then Zeros10 else ZipSum(MetricsSum(DropLast(rs)), Last(rs).best.metrics)
  }

  /** `mean_loss_sum` after the folds `rs`, from zero. */
  function LossSum(rs: seq<FoldResults>): real
  {
    if rs == [] then 0.0 else LossSum(DropLast(rs)) + Last(rs).current.meanLoss
  }

  /** How many metric columns every fold has, at most ten. */
  function Width(rs: seq<FoldResults>): nat
  {
    if rs == [] then 10
    else var w := Width(rs[1..]); if |rs[0].best.metrics| < w then |rs[0].best.metrics| else w
  }

  /** The sum of the folds' best metric `i`. */
  function Column(rs: seq<FoldResults>, i: nat): real
    requires i < Width(rs)
  {
    if rs == [] then 0.0 else rs[0].best.metrics[i] + Column(rs[1..], i)
  }

  /** The sum of the folds' current mean losses. */
  function CurrentLosses(rs: seq<FoldResults>): real
  {
    if rs == [] then 0.0 else rs[0].current.meanLoss + CurrentLosses(rs[1..])
  }

  /** The width is at most ten and at most every fold's metric count, and it is one of those. */
  lemma {:induction false} WidthBounds(rs: seq<FoldResults>)
    ensures Width(rs) <= 10
    ensures forall j :: 0 <= j < |rs| ==> Width(rs) <= |rs[j].best.metrics|
    ensures Width(rs) == 10 || exists j :: 0 <= j < |rs| && Width(rs) == |rs[j].best.metrics|
  {
    if rs != [] {
      WidthBounds(rs[1..]);
      forall j | 1 <= j < |rs|
        ensures Width(rs) <= |rs[j].best.metrics|
      {
        assert rs[j] == rs[1..][j - 1];
      }
      if Width(rs) != 10 && Width(rs) != |rs[0].best.metrics| {
        var j :| 0 <= j < |rs[1..]| && Width(rs[1..]) == |rs[1..][j].best.metrics|;
        assert rs[1..][j] == rs[j + 1];
      }
    }
  }

  /** Appending a fold narrows the width to that fold's metric count. */
  lemma {:induction false} WidthSnoc(rs: seq<FoldResults>, f: FoldResults)
    ensures Width(rs + [f]) == if |f.best.metrics| < Width(rs) then |f.best.metrics| else Width(rs)
  {
    if rs != [] {
      assert (rs + [f])[1..] == rs[1..] + [f];
      WidthSnoc(rs[1..], f);
    }
  }

  /** Appending a fold adds its metric `i` to the column. */
  lemma {:induction false} ColumnSnoc(rs: seq<FoldResults>, f: FoldResults, i: nat)
    requires i < Width(rs) && i < |f.best.metrics|
    ensures i < Width(rs + [f])
    ensures Column(rs + [f], i) == Column(rs, i) + f.best.metrics[i]
  {
    WidthSnoc(rs, f);
    if rs != [] {
      WidthSnoc(rs[1..], f);
      assert (rs + [f])[1..] == rs[1..] + [f];
      ColumnSnoc(rs[1..], f, i);
    }
  }

  /** Appending a fold adds its current loss. */
  lemma {:induction false} CurrentLossesSnoc(rs: seq<FoldResults>, f: FoldResults)
    ensures CurrentLosses(rs + [f]) == CurrentLosses(rs) + f.current.meanLoss
  {
    if rs != [] {
      assert (rs + [f])[1..] == rs[1..] + [f];
      CurrentLossesSnoc(rs[1..], f);
    }
  }

  /**
    `zip` cuts `metrics_sum` to the narrowest of ten and the folds' metric counts,
    and each of its entries is the column sum of the folds' best metrics.
   */
  lemma {:induction false} MetricsSumIsColumns(rs: seq<FoldResults>)
    ensures |MetricsSum(rs)| == Width(rs)
    ensures forall i :: 0 <= i < |MetricsSum(rs)| ==> MetricsSum(rs)[i] == Column(rs, i)
  {
    if rs != [] {
      var init, f := DropLast(rs), Last(rs);
      assert rs == init + [f];
      MetricsSumIsColumns(init);
      WidthSnoc(init, f);
      forall i | 0 <= i < |MetricsSum(rs)|
        ensures MetricsSum(rs)[i] == Column(rs, i)
      {
        ColumnSnoc(init, f, i);
      }
    }
  }

  /** `mean_loss_sum` is the sum of the folds' current mean losses. */
  lemma {:induction false} LossSumIsTotal(rs: seq<FoldResults>)
    ensures LossSum(rs) == CurrentLosses(rs)
  {
    if rs != [] {
      var init, f := DropLast(rs), Last(rs);
      assert rs == init + [f];
      LossSumIsTotal(init);
      CurrentLossesSnoc(init, f);
    }
  }

  /** How many folds `range(num_cv)` visits. */
  function FoldCount(config: Config): nat
  {
    if config.numCv > 0 then config.numCv else 0
  }

  /** The averaging step's result and the folders afterwards. */
  datatype AverageRun = AverageRun(result: Result<Option<Averages>, DriverError>, dirs: map<string, map<string, FileContent>>)

  /**
    Lines 200-214: with the averages log present nothing happens; otherwise the log
    is opened, the folds' results are collected, and the sums are divided by
    `num_cv`; no fold means no average (division by zero, or `checkpoint` unbound
    for a negative count).
   */
  function AverageBest(root: string, config: Config, ops: Oracles, dirs: map<string, map<string, FileContent>>): AverageRun
  {
    var rootFiles := FilesOf(dirs, root);
    if AverageBestLog in rootFiles then AverageRun(Success(None), dirs)
    else
      var dirs1 := dirs[root := rootFiles[AverageBestLog := Log]];
      match CollectBests(root, config, ops, dirs1, FoldCount(config))
      case Failure(e) => AverageRun(Failure(e), dirs1)
      case Success(rs) =>
        if config.numCv <= 0 then AverageRun(Failure(NoFolds), dirs1)
        else
          AverageRun(Success(Some(AverageOf(rs, config.numCv))), dirs1)
  }

  /** Lines 211-212: `metrics_average` and `mean_loss_average` from the folds' results. */
  function AverageOf(rs: seq<FoldResults>, numCv: int): Averages
    requires numCv != 0
  {
    var sum := MetricsSum(rs);
    Averages(seq(|sum|, i requires 0 <= i < |sum| => sum[i] / numCv as real), LossSum(rs) / numCv as real)
  }

  /**
    The metric average has as many entries as the narrowest of ten and the folds'
    metric counts, each the sum over the folds of that best metric divided by the
    fold count; the loss average is the sum of the folds' current, not best, mean
    losses divided by the fold count.
   */
  lemma FoldMean(rs: seq<FoldResults>, numCv: int)
    requires numCv != 0
    ensures var a := AverageOf(rs, numCv);
      && |a.metrics| == Width(rs)
      && (forall i :: 0 <= i < |a.metrics| ==> a.metrics[i] == Column(rs, i) / numCv as real)
      && a.meanLoss == CurrentLosses(rs) / numCv as real
  {
    MetricsSumIsColumns(rs);
    LossSumIsTotal(rs);
  }

  /**
    When the averages are computed, every fold yielded its best results, and the
    averages are `AverageOf` them over `num_cv`, which `FoldMean` describes.
   */
  lemma AverageIsFoldMean(root: string, config: Config, ops: Oracles, dirs: map<string, map<string, FileContent>>)
    requires AverageBest(root, config, ops, dirs).result.Success?
    requires AverageBest(root, config, ops, dirs).result.value.Some?
    ensures var dirs1 := dirs[root := FilesOf(dirs, root)[AverageBestLog := Log]];
      var rs := CollectBests(root, config, ops, dirs1, FoldCount(config));
      && config.numCv > 0 && AverageBestLog !in FilesOf(dirs, root)
      && rs.Success? && |rs.value| == config.numCv
      && AverageBest(root, config, ops, dirs).result.value.value == AverageOf(rs.value, config.numCv)
  {
  }

  /** When every fold's metric vector has `n` entries, the metric average has as many as the fewer of `n` and ten. */
  lemma UniformWidth(rs: seq<FoldResults>, n: nat)
    requires |rs| > 0
    requires forall j :: 0 <= j < |rs| ==> |rs[j].best.metrics| == n
    ensures |MetricsSum(rs)| == if n < 10 then n else 10
  {
    MetricsSumIsColumns(rs);
    WidthBounds(rs);
  }

  /** With the averages log absent and no folds, the averaging fails. */
  lemma NoFoldsNoAverage(root: string, config: Config, ops: Oracles, dirs: map<string, map<string, FileContent>>)
    requires AverageBestLog !in FilesOf(dirs, root) && config.numCv <= 0
    ensures AverageBest(root, config, ops, dirs).result == Failure(NoFolds)
  {
  }

  /** Lines 207-209 on the folder tree: opens fold `cv`'s best checkpoint, as `FoldBest` says, and changes no folder. */
  method ReadFoldBest(fs: FileSystem, root: string, config: Config, ops: Oracles, cv: int) returns (r: Result<FoldResults, DriverError>)
    ensures r == FoldBest(root, config, ops, fs.dirs, cv)
  {
    var dir := FoldDir(root, cv);
    var made := Checkpoint.Open(BestSeries, fs, dir, ops.glob(dir, fs.Files(dir)), config, cv, ops.factory, ops.wandbId);
    if made.Failure? {
      return Failure(CheckpointFailed(made.error));
    }
    var checkpoint := made.value;
    if checkpoint.evalValidBest.None? || checkpoint.evalValid.None? {
      return Failure(NoBestCheckpoint(cv));
    }
    r := Success(FoldResults(checkpoint.evalValidBest.value, checkpoint.evalValid.value));
  }

  /** Collecting one more fold appends its results, and the running sums follow. */
  lemma CollectOneMore(root: string, config: Config, ops: Oracles, dirs: map<string, map<string, FileContent>>, cv: nat, rs: seq<FoldResults>, f: FoldResults)
    requires CollectBests(root, config, ops, dirs, cv) == Success(rs)
    requires FoldBest(root, config, ops, dirs, cv) == Success(f)
    ensures CollectBests(root, config, ops, dirs, cv + 1) == Success(rs + [f])
    ensures MetricsSum(rs + [f]) == ZipSum(MetricsSum(rs), f.best.metrics)
    ensures LossSum(rs + [f]) == LossSum(rs) + f.current.meanLoss
  {
    assert DropLast(rs + [f]) == rs;
  }

  /** A fold that yields no results makes the whole collection fail the same way. */
  lemma CollectStopsAt(root: string, config: Config, ops: Oracles, dirs: map<string, map<string, FileContent>>, cv: nat, rs: seq<FoldResults>)
    requires cv < FoldCount(config)
    requires CollectBests(root, config, ops, dirs, cv) == Success(rs)
    requires FoldBest(root, config, ops, dirs, cv).Failure?
    ensures CollectBests(root, config, ops, dirs, FoldCount(config)) == Failure(FoldBest(root, config, ops, dirs, cv).error)
  {
    FailureStops(root, config, ops, dirs, cv + 1, FoldCount(config));
  }

  /**
    Lines 200-214 on the folder tree: as `AverageBest` says; the checkpoints it opens
    are read only.
   */
  method ComputeAverages(fs: FileSystem, root: string, config: Config, ops: Oracles) returns (result: Result<Option<Averages>, DriverError>)
    modifies fs
    ensures var s := AverageBest(root, config, ops, old(fs.dirs));
      result == s.result && fs.dirs == s.dirs
  {
    if AverageBestLog in fs.Files(root) {
      return Success(None);
    }
    fs.Write(root, AverageBestLog, Log);
    var meanLossSum := 0.0;
    var metricsSum := Zeros10;
    ghost var rs: seq<FoldResults> := [];
    var cv := 0;
    while cv < config.numCv
      invariant 0 <= cv <= FoldCount(config)
      invariant CollectBests(root, config, ops, fs.dirs, cv) == Success(rs)
      invariant metricsSum == MetricsSum(rs) && meanLossSum == LossSum(rs)
      invariant fs.dirs == old(fs.dirs)[root := old(fs.Files(root))[AverageBestLog := Log]]
    {
      var f := ReadFoldBest(fs, root, config, ops, cv);
      if f.Failure? {
        CollectStopsAt(root, config, ops, fs.dirs, cv, rs);
        return Failure(f.error);
      }
      CollectOneMore(root, config, ops, fs.dirs, cv, rs, f.value);
      metricsSum := ZipSum(metricsSum, f.value.best.metrics);
      meanLossSum := meanLossSum + f.value.current.meanLoss;
      rs := rs + [f.value];
      cv := cv + 1;
    }
    if config.numCv <= 0 {
      return Failure(NoFolds);
    }
    var metricsAverage := seq(|metricsSum|, i requires 0 <= i < |metricsSum| => metricsSum[i] / config.numCv as real);
    result := Success(Some(Averages(metricsAverage, meanLossSum / config.numCv as real)));
  }
}
