/**
  The checkpoint of one cross-validation fold: the training state it owns, the
  validation results it tracks, and how it is restored from, written to and
  removed from the fold's folder.

  Serialised state dictionaries are opaque blobs; the folders of the save root
  are one `FileSystem` object mapping a folder path to its files.
 */
module Checkpoints {
  import opened Wrappers
  import opened Naming

  /** The metric vector an evaluation yields. The training loop reads index 8, so it has at least nine entries. */
  type Metrics = m: seq<real> | |m| >= 9 witness [0.0, 0.0, 0.0, 0.0, 0.0, 0.0, 0.0, 0.0, 0.0]

  /** The result of one evaluation pass over a data split. */
  datatype EvalResult = EvalResult(meanLoss: real, metrics: Metrics)

  /** An opaque serialised state dictionary. */
  datatype Blob = Blob(id: nat)

  /** Model, optimizer, scheduler and gradient-scaler state: restored all together or not at all. */
  datatype TrainState = TrainState(model: Blob, optimizer: Blob, scheduler: Blob, scaler: Blob)

  /** What `save_checkpoint` writes into a `.pt` file. */
  datatype Bundle = Bundle(
    epoch: int,
    state: TrainState,
    evalValid: EvalResult,
    evalValidBest: EvalResult,
    wandbId: Option<string>)

  /** A file of a folder: a checkpoint, a file `torch.load` cannot read, or a text log. */
  datatype FileContent = Snapshot(bundle: Bundle) | Unreadable | Log

  /** The configuration entries the checkpoint and the training loop read. */
  datatype Config = Config(
    modelType: string,
    optimizer: string,
    learningRate: real,
    momentum: real,
    weightDecay: real,
    enableWandb: bool,
    autoEncoder: bool,
    epochs: int,
    calcTrainError: bool,
    earlyStopAccuracy: int,
    earlyStopPatience: int,
    numCv: int)

  /** The entries of the model map. */
  datatype ModelKind =
    | ResNet18
    | ResNet18AutEnc
    | Vgg19
    | Vgg19AutEnc
    | UNetClassifier1
    | LoadUnet1WithClassifierWeights
    | UNetClassifier2
    | LoadUnet2WithClassifierWeights

  /** The optimizers `get_new_optimizer` builds, with the hyperparameters each one takes. */
  datatype Optimizer =
    | AdamW(lr: real)
    | Sgd(lr: real, momentum: real)
    | Adam(lr: real, weightDecay: real)

  datatype CheckpointError =
    | UnknownModel(modelType: string)
    | CorruptCheckpoint(path: string)
    | MissingWandbId(path: string)

  /** The key of a model kind in the model map. */
  function ModelName(k: ModelKind): string
  {
    match k
    case ResNet18 => "ResNet18"
    case ResNet18AutEnc => "ResNet18AutEnc"
    case Vgg19 => "VGG19"
    case Vgg19AutEnc => "VGG19AutEnc"
    case UNetClassifier1 => "UNetClassifier1"
    case LoadUnet1WithClassifierWeights => "load_unet1_with_classifier_weights"
    case UNetClassifier2 => "UNetClassifier2"
    case LoadUnet2WithClassifierWeights => "load_unet2_with_classifier_weights"
  }

  /** `model_map`: each accepted `model_type` with the model it builds. */
  const ModelMap: map<string, ModelKind> := map[
    "ResNet18" := ResNet18,
    "ResNet18AutEnc" := ResNet18AutEnc,
    "VGG19" := Vgg19,
    "VGG19AutEnc" := Vgg19AutEnc,
    "UNetClassifier1" := UNetClassifier1,
    "load_unet1_with_classifier_weights" := LoadUnet1WithClassifierWeights,
    "UNetClassifier2" := UNetClassifier2,
    "load_unet2_with_classifier_weights" := LoadUnet2WithClassifierWeights
  ]

  /** Looks the configured model type up in the model map; an unknown name is an error, never a fallback. */
  function GetNewModel(modelType: string): (r: Result<ModelKind, CheckpointError>)
    ensures r.Success? <==> modelType in ModelMap
    ensures r.Success? ==> r.value == ModelMap[modelType]
    ensures r.Failure? ==> r.error == UnknownModel(modelType)
  {
    if modelType in ModelMap then Success(ModelMap[modelType]) else Failure(UnknownModel(modelType))
  }

  /** Every entry of the model map is found under its own key. */
  lemma GetNewModelFindsEveryKind(k: ModelKind)
    ensures GetNewModel(ModelName(k)) == Success(k)
  {
  }

  /** A model type that is found names the model built for it; any other is reported unknown. */
  lemma GetNewModelNamesKind(modelType: string)
    ensures var r := GetNewModel(modelType);
      && (r.Success? ==> ModelName(r.value) == modelType)
      && (r.Failure? <==> forall k: ModelKind :: ModelName(k) != modelType)
  {
    if modelType !in ModelMap {
      forall k: ModelKind
        ensures ModelName(k) != modelType
      {
        GetNewModelFindsEveryKind(k);
      }
    }
  }

  /** 'AdamW' and 'SGD' select those optimizers; every other name falls back to Adam with weight decay. */
  function GetNewOptimizer(config: Config): (o: Optimizer)
    ensures o.AdamW? <==> config.optimizer == "AdamW"
    ensures o.Sgd? <==> config.optimizer == "SGD"
    ensures o.Adam? <==> config.optimizer != "AdamW" && config.optimizer != "SGD"
    ensures o.lr == config.learningRate
    ensures o.Sgd? ==> o.momentum == config.momentum
    ensures o.Adam? ==> o.weightDecay == config.weightDecay
  {
    if config.optimizer == "AdamW" then AdamW(config.learningRate)
    else if config.optimizer == "SGD" then Sgd(config.learningRate, config.momentum)
    else Adam(config.learningRate, config.weightDecay)
  }

  // ---------------------------------------------------------------------------
  // Best tracking

  /** The comparison rule of `update_eval_valid`: strictly lower loss for an autoencoder, strictly higher metrics[5] otherwise. */
  predicate Improves(e: EvalResult, best: EvalResult, autoEncoder: bool)
  {
    if autoEncoder then e.meanLoss < best.meanLoss else e.metrics[5] > best.metrics[5]
  }

  /**
    The best result after `update_eval_valid(e)` given the best and current results before it.
    An absent best is bootstrapped with `e`; a present one is compared only when a current
    result already existed, and replaced only on a strict improvement.
   */
  function NextBest(best: Option<EvalResult>, current: Option<EvalResult>, e: EvalResult, autoEncoder: bool): (r: EvalResult)
    ensures best.None? ==> r == e
    ensures best.Some? && current.None? ==> r == best.value
    ensures best.Some? && current.Some? ==> (r == e <== Improves(e, best.value, autoEncoder))
    ensures best.Some? && current.Some? && !Improves(e, best.value, autoEncoder) ==> r == best.value
  {
    var b := if best.None? then e else best.value;
    if current.Some? && Improves(e, b, autoEncoder) then e else b
  }

  /**
    Whether the best result is still the record a resume rebuilt from a file after
    `update_eval_valid(e)`: a bootstrap or a strict improvement replaces it with a copy of `e`.
   */
  predicate BestStaysLoaded(loaded: bool, best: Option<EvalResult>, current: Option<EvalResult>, e: EvalResult, autoEncoder: bool)
  {
    loaded && best.Some? && !(current.Some? && Improves(e, best.value, autoEncoder))
  }

  /**
    A loaded best, with a current result beside it, stays loaded exactly when `e` does
    not improve on it, and then it is also the best afterwards; otherwise `e` is.
   */
  lemma LoadedBestReplacedOnImprovement(best: EvalResult, current: EvalResult, e: EvalResult, autoEncoder: bool)
    ensures BestStaysLoaded(true, Some(best), Some(current), e, autoEncoder) <==> !Improves(e, best, autoEncoder)
    ensures !BestStaysLoaded(false, Some(best), Some(current), e, autoEncoder)
    ensures NextBest(Some(best), Some(current), e, autoEncoder) == if Improves(e, best, autoEncoder) then e else best
  {
  }

  /** The best result never gets worse under the mode's own rule. */
  lemma NextBestNeverWorse(best: EvalResult, current: Option<EvalResult>, e: EvalResult, autoEncoder: bool)
    ensures var r := NextBest(Some(best), current, e, autoEncoder);
      && (r == best || r == e)
      && (autoEncoder ==> r.meanLoss <= best.meanLoss)
      && (!autoEncoder ==> r.metrics[5] >= best.metrics[5])
  {
  }

  function Last<T>(s: seq<T>): T
    requires |s| > 0
  {
    s[|s| - 1]
  }

  function DropLast<T>(s: seq<T>): seq<T>
    requires |s| > 0
  {
    s[..|s| - 1]
  }

  /** The current result after a sequence of `update_eval_valid` calls. */
  function CurrentAfter(current: Option<EvalResult>, es: seq<EvalResult>): Option<EvalResult>
  {
    if es == [] then current else Some(Last(es))
  }

  /** The best result after a sequence of `update_eval_valid` calls, from a given best and current result. */
  function BestAfter(best: Option<EvalResult>, current: Option<EvalResult>, es: seq<EvalResult>, autoEncoder: bool): (r: Option<EvalResult>)
    ensures es == [] ==> r == best
    ensures es != [] ==> r.Some?
    decreases |es|
  {
    if es == [] then best
    else Some(NextBest(BestAfter(best, current, DropLast(es), autoEncoder), CurrentAfter(current, DropLast(es)), Last(es), autoEncoder))
  }

  /** Largest metrics[5] among a nonempty sequence of results. */
  function MaxMetric5(es: seq<EvalResult>): real
    requires |es| > 0
    decreases |es|
  {
    if |es| == 1 then es[0].metrics[5]
    else var m := MaxMetric5(DropLast(es)); if Last(es).metrics[5] > m then Last(es).metrics[5] else m
  }

  /** Smallest mean loss among a nonempty sequence of results. */
  function MinLoss(es: seq<EvalResult>): real
    requires |es| > 0
    decreases |es|
  {
    if |es| == 1 then es[0].meanLoss
    else var m := MinLoss(DropLast(es)); if Last(es).meanLoss < m then Last(es).meanLoss else m
  }

  /**
    Classification mode, from a fresh checkpoint: the best result is one of the
    evaluations seen and carries the largest metrics[5] among them.
   */
  lemma {:induction false} FreshBestIsMaxMetric5(es: seq<EvalResult>)
    requires |es| > 0
    ensures var b := BestAfter(None, None, es, false);
      b.Some? && b.value in es && b.value.metrics[5] == MaxMetric5(es)
    decreases |es|
  {
    if |es| > 1 {
      FreshBestIsMaxMetric5(DropLast(es));
      assert DropLast(es) == es[..|es| - 1];
    }
  }

  /** Autoencoder mode, from a fresh checkpoint: the best result carries the smallest loss seen. */
  lemma {:induction false} FreshBestIsMinLoss(es: seq<EvalResult>)
    requires |es| > 0
    ensures var b := BestAfter(None, None, es, true);
      b.Some? && b.value in es && b.value.meanLoss == MinLoss(es)
    decreases |es|
  {
    if |es| > 1 {
      FreshBestIsMinLoss(DropLast(es));
      assert DropLast(es) == es[..|es| - 1];
    }
  }

  /** Across any run of updates the best metrics[5] (classification) never decreases. */
  lemma {:induction false} BestMetric5NeverDecreases(best: Option<EvalResult>, current: Option<EvalResult>, es: seq<EvalResult>, i: nat, j: nat)
    requires i <= j <= |es|
    requires BestAfter(best, current, es[..i], false).Some?
    ensures BestAfter(best, current, es[..j], false).Some?
    ensures BestAfter(best, current, es[..i], false).value.metrics[5] <= BestAfter(best, current, es[..j], false).value.metrics[5]
    decreases j - i
  {
    if i < j {
      BestMetric5NeverDecreases(best, current, es, i, j - 1);
      var p := es[..j];
      assert DropLast(p) == es[..j - 1];
      NextBestNeverWorse(BestAfter(best, current, es[..j - 1], false).value, CurrentAfter(current, es[..j - 1]), Last(p), false);
    }
  }

  /** Across any run of updates the best loss (autoencoder) never increases. */
  lemma {:induction false} BestLossNeverIncreases(best: Option<EvalResult>, current: Option<EvalResult>, es: seq<EvalResult>, i: nat, j: nat)
    requires i <= j <= |es|
    requires BestAfter(best, current, es[..i], true).Some?
    ensures BestAfter(best, current, es[..j], true).Some?
    ensures BestAfter(best, current, es[..i], true).value.meanLoss >= BestAfter(best, current, es[..j], true).value.meanLoss
    decreases j - i
  {
    if i < j {
      BestLossNeverIncreases(best, current, es, i, j - 1);
      var p := es[..j];
      assert DropLast(p) == es[..j - 1];
      NextBestNeverWorse(BestAfter(best, current, es[..j - 1], true).value, CurrentAfter(current, es[..j - 1]), Last(p), true);
    }
  }

  function EvalWithMetric5(x: real): EvalResult
  {
    EvalResult(0.0, [0.0, 0.0, 0.0, 0.0, 0.0, x, 0.0, 0.0, 0.0])
  }

  /** metrics[5] values 0.3, 0.5, 0.4, 0.6 leave the best at 0.3, 0.5, 0.5, 0.6. */
  lemma ClassificationBestExample()
    ensures var es := [EvalWithMetric5(0.3), EvalWithMetric5(0.5), EvalWithMetric5(0.4), EvalWithMetric5(0.6)];
      && BestAfter(None, None, es[..1], false) == Some(EvalWithMetric5(0.3))
      && BestAfter(None, None, es[..2], false) == Some(EvalWithMetric5(0.5))
      && BestAfter(None, None, es[..3], false) == Some(EvalWithMetric5(0.5))
      && BestAfter(None, None, es[..4], false) == Some(EvalWithMetric5(0.6))
  {
    var es := [EvalWithMetric5(0.3), EvalWithMetric5(0.5), EvalWithMetric5(0.4), EvalWithMetric5(0.6)];
    assert DropLast(es[..1]) == [];
    assert DropLast(es[..2]) == es[..1];
    assert DropLast(es[..3]) == es[..2];
    assert DropLast(es[..4]) == es[..3];
  }

  function EvalWithLoss(x: real): EvalResult
  {
    EvalResult(x, [0.0, 0.0, 0.0, 0.0, 0.0, 0.0, 0.0, 0.0, 0.0])
  }

  /** Losses 1.0, 0.8, 0.9, 0.5 leave the best loss at 1.0, 0.8, 0.8, 0.5. */
  lemma AutoencoderBestExample()
    ensures var es := [EvalWithLoss(1.0), EvalWithLoss(0.8), EvalWithLoss(0.9), EvalWithLoss(0.5)];
      && BestAfter(None, None, es[..1], true) == Some(EvalWithLoss(1.0))
      && BestAfter(None, None, es[..2], true) == Some(EvalWithLoss(0.8))
      && BestAfter(None, None, es[..3], true) == Some(EvalWithLoss(0.8))
      && BestAfter(None, None, es[..4], true) == Some(EvalWithLoss(0.5))
  {
    var es := [EvalWithLoss(1.0), EvalWithLoss(0.8), EvalWithLoss(0.9), EvalWithLoss(0.5)];
    assert DropLast(es[..1]) == [];
    assert DropLast(es[..2]) == es[..1];
    assert DropLast(es[..3]) == es[..2];
    assert DropLast(es[..4]) == es[..3];
  }

  // ---------------------------------------------------------------------------
  // Restoring from a folder

  /** `listing` is what `glob(folder / '*.pt')` returns: every `.pt` file of the folder once, in some order. */
  ghost predicate IsListing(listing: seq<string>, files: map<string, FileContent>)
  {
    && (forall i, j :: 0 <= i < j < |listing| ==> listing[i] != listing[j])
    && (forall f :: f in listing <==> f in files && IsPtName(f))
  }

  /** Index of the first listed file whose path contains `name`. */
  function FirstMatch(dirPath: string, listing: seq<string>, name: string): (r: Option<nat>)
    ensures r.Some? ==> r.value < |listing| && Contains(PathOf(dirPath, listing[r.value]), name)
    ensures r.Some? ==> forall j :: 0 <= j < r.value ==> !Contains(PathOf(dirPath, listing[j]), name)
    ensures r.None? ==> forall j :: 0 <= j < |listing| ==> !Contains(PathOf(dirPath, listing[j]), name)
    decreases |listing|
  {
    if listing == [] then None
    else if Contains(PathOf(dirPath, listing[0]), name) then Some(0)
    else match FirstMatch(dirPath, listing[1..], name)
      case None => None
      case Some(k) => Some(k + 1)
  }

  /**
    Everything a checkpoint holds besides its identity. `validLoaded` and `bestLoaded`
    say that the evaluation is the named tuple a resume rebuilds from a file's
    dictionary (lines 70-71) rather than an `Eval` object.
   */
  datatype Restored = Restored(
    model: ModelKind,
    optimizer: Optimizer,
    state: TrainState,
    startEpoch: int,
    wandbId: Option<string>,
    evalValid: Option<EvalResult>,
    evalValidBest: Option<EvalResult>,
    validLoaded: bool,
    bestLoaded: bool)

  /**
    What constructing a checkpoint of series `name` over a folder yields. `factory`
    stands for the model constructors (fresh model, optimizer, scheduler and scaler
    state for a model kind and fold), `newWandbId` for a freshly requested tracking id.
   */
  function Resume(
    name: string, dirPath: string, files: map<string, FileContent>, listing: seq<string>,
    config: Config, cv: int, factory: (ModelKind, int) -> TrainState, newWandbId: string
  ): Result<Restored, CheckpointError>
  {
    match GetNewModel(config.modelType)
    case Failure(err) => Failure(err)
    case Success(kind) =>
      var optimizer := GetNewOptimizer(config);
      match FirstMatch(dirPath, listing, name)
      case None =>
        Success(Restored(kind, optimizer, factory(kind, cv), 1,
          if config.enableWandb then Some(newWandbId) else None, None, None, false, false))
      case Some(i) =>
        match if listing[i] in files then files[listing[i]] else Unreadable
        case Snapshot(b) =>
          if config.enableWandb && b.wandbId.None? then Failure(MissingWandbId(PathOf(dirPath, listing[i])))
          else Success(Restored(kind, optimizer, b.state, b.epoch + 1,
            if config.enableWandb then b.wandbId else None, Some(b.evalValid), Some(b.evalValidBest), true, true))
        case _ => Failure(CorruptCheckpoint(PathOf(dirPath, listing[i])))
  }

  /** An unknown model type fails construction whatever the folder holds. */
  lemma ResumeUnknownModel(
    name: string, dirPath: string, files: map<string, FileContent>, listing: seq<string>,
    config: Config, cv: int, factory: (ModelKind, int) -> TrainState, newWandbId: string)
    requires config.modelType !in ModelMap
    ensures Resume(name, dirPath, files, listing, config, cv, factory, newWandbId) == Failure(UnknownModel(config.modelType))
  {
  }

  /** No listed path contains the name: a fresh start at epoch 1 with no evaluations. */
  lemma ResumeWithoutMatch(
    name: string, dirPath: string, files: map<string, FileContent>, listing: seq<string>,
    config: Config, cv: int, factory: (ModelKind, int) -> TrainState, newWandbId: string)
    requires config.modelType in ModelMap
    requires forall j :: 0 <= j < |listing| ==> !Contains(PathOf(dirPath, listing[j]), name)
    ensures var r := Resume(name, dirPath, files, listing, config, cv, factory, newWandbId);
      && r.Success?
      && r.value.startEpoch == 1
      && r.value.evalValid.None? && r.value.evalValidBest.None?
      && r.value.state == factory(r.value.model, cv)
      && r.value.wandbId == (if config.enableWandb then Some(newWandbId) else None)
      && !r.value.validLoaded && !r.value.bestLoaded
  {
  }

  /**
    The first listed match is the one loaded: the start epoch follows its stored
    epoch, and the training state and both evaluations come from that same file.
   */
  lemma ResumeLoadsFirstMatch(
    name: string, dirPath: string, files: map<string, FileContent>, listing: seq<string>,
    config: Config, cv: int, factory: (ModelKind, int) -> TrainState, newWandbId: string, i: nat)
    requires IsListing(listing, files)
    requires config.modelType in ModelMap
    requires i < |listing| && Contains(PathOf(dirPath, listing[i]), name)
    requires forall j :: 0 <= j < i ==> !Contains(PathOf(dirPath, listing[j]), name)
    requires files[listing[i]].Snapshot?
    requires config.enableWandb ==> files[listing[i]].bundle.wandbId.Some?
    ensures var b := files[listing[i]].bundle;
      var r := Resume(name, dirPath, files, listing, config, cv, factory, newWandbId);
      && r.Success?
      && r.value.startEpoch == b.epoch + 1
      && r.value.state == b.state
      && r.value.evalValid == Some(b.evalValid)
      && r.value.evalValidBest == Some(b.evalValidBest)
      && r.value.wandbId == (if config.enableWandb then b.wandbId else None)
      && r.value.validLoaded && r.value.bestLoaded
  {
    var m := FirstMatch(dirPath, listing, name);
    assert m == Some(i);
  }

  /** A first match that cannot be read is fatal, never a silent fresh start. */
  lemma ResumeCorruptMatchFails(
    name: string, dirPath: string, files: map<string, FileContent>, listing: seq<string>,
    config: Config, cv: int, factory: (ModelKind, int) -> TrainState, newWandbId: string, i: nat)
    requires IsListing(listing, files)
    requires config.modelType in ModelMap
    requires i < |listing| && Contains(PathOf(dirPath, listing[i]), name)
    requires forall j :: 0 <= j < i ==> !Contains(PathOf(dirPath, listing[j]), name)
    requires !files[listing[i]].Snapshot?
    ensures Resume(name, dirPath, files, listing, config, cv, factory, newWandbId)
      == Failure(CorruptCheckpoint(PathOf(dirPath, listing[i])))
  {
    var m := FirstMatch(dirPath, listing, name);
    assert m == Some(i);
  }

  /** A checkpoint built successfully with tracking enabled always has a tracking id. */
  lemma ResumeHasWandbId(
    name: string, dirPath: string, files: map<string, FileContent>, listing: seq<string>,
    config: Config, cv: int, factory: (ModelKind, int) -> TrainState, newWandbId: string)
    ensures var r := Resume(name, dirPath, files, listing, config, cv, factory, newWandbId);
      r.Success? && config.enableWandb ==> r.value.wandbId.Some?
  {
  }

  /**
    Round trip: after a bundle for epoch N is saved as `name_at_epoch_N.pt`, and no
    other listed path contains `name`, constructing the checkpoint resumes at N + 1
    with the saved state and evaluations.
   */
  lemma SaveThenResume(
    name: string, dirPath: string, files: map<string, FileContent>, listing: seq<string>,
    config: Config, cv: int, factory: (ModelKind, int) -> TrainState, newWandbId: string, b: Bundle)
    requires |name| > 0 ==> name[0] != '.'
    requires IsListing(listing, files[FileName(name, b.epoch) := Snapshot(b)])
    requires forall j :: 0 <= j < |listing| && Contains(PathOf(dirPath, listing[j]), name) ==> listing[j] == FileName(name, b.epoch)
    requires config.modelType in ModelMap
    requires config.enableWandb ==> b.wandbId.Some?
    ensures var r := Resume(name, dirPath, files[FileName(name, b.epoch) := Snapshot(b)], listing, config, cv, factory, newWandbId);
      && r.Success?
      && r.value.startEpoch == b.epoch + 1
      && r.value.state == b.state
      && r.value.evalValid == Some(b.evalValid)
      && r.value.evalValidBest == Some(b.evalValidBest)
      && r.value.wandbId == (if config.enableWandb then b.wandbId else None)
      && r.value.validLoaded && r.value.bestLoaded
  {
    var f := FileName(name, b.epoch);
    var files' := files[f := Snapshot(b)];
    FileNameIsPtName(name, b.epoch);
    assert f in listing;
    var i :| 0 <= i < |listing| && listing[i] == f;
    PathOfFileNameContains(dirPath, name, b.epoch);
    var m := FirstMatch(dirPath, listing, name);
    assert m.Some?;
    assert listing[m.value] == f;
  }

  // ---------------------------------------------------------------------------
  // Folders

  /** The save root: every folder path with the files in it. */
  class FileSystem {
    var dirs: map<string, map<string, FileContent>>

    constructor (dirs0: map<string, map<string, FileContent>>)
      ensures dirs == dirs0
    {
      dirs := dirs0;
    }

    /** The files of a folder; a folder that does not exist has none. */
    function Files(dirPath: string): map<string, FileContent>
      reads this
    {
      if dirPath in dirs then dirs[dirPath] else map[]
    }

    /** `os.path.isfile(folder / fname)`. */
    predicate IsFile(dirPath: string, fname: string)
      reads this
    {
      fname in Files(dirPath)
    }

    /** Creates or overwrites one file. */
    method Write(dirPath: string, fname: string, content: FileContent)
      modifies this
      ensures dirs == old(dirs)[dirPath := old(Files(dirPath))[fname := content]]
    {
      dirs := dirs[dirPath := Files(dirPath)[fname := content]];
    }

    /** `os.remove(folder / fname)` on a file that exists. */
    method Remove(dirPath: string, fname: string)
      requires IsFile(dirPath, fname)
      modifies this
      ensures dirs == old(dirs)[dirPath := old(Files(dirPath)) - {fname}]
    {
      dirs := dirs[dirPath := Files(dirPath) - {fname}];
    }
  }

  // ---------------------------------------------------------------------------
  // The checkpoint object

  class Checkpoint {
    var model: ModelKind
    var optimizer: Optimizer
    var state: TrainState
    var startEpoch: int
    var wandbId: Option<string>
    var evalValid: Option<EvalResult>
    var evalValidBest: Option<EvalResult>
    var validLoaded: bool
    var bestLoaded: bool

    constructor (r: Restored)
      ensures View() == r
    {
      model := r.model;
      optimizer := r.optimizer;
      state := r.state;
      startEpoch := r.startEpoch;
      wandbId := r.wandbId;
      evalValid := r.evalValid;
      evalValidBest := r.evalValidBest;
      validLoaded := r.validLoaded;
      bestLoaded := r.bestLoaded;
    }

    function View(): Restored
      reads this
    {
      Restored(model, optimizer, state, startEpoch, wandbId, evalValid, evalValidBest, validLoaded, bestLoaded)
    }

    /**
      `Checkpoint(name, save_path_cv, device, config, cv)`: builds the model (failing
      on an unknown type), the optimizer and fresh state, then scans the listed `.pt`
      paths and loads the first one containing `name`.
     */
    static method Open(
      name: string, fs: FileSystem, dirPath: string, listing: seq<string>,
      config: Config, cv: int, factory: (ModelKind, int) -> TrainState, newWandbId: string
    ) returns (r: Result<Checkpoint, CheckpointError>)
      ensures var spec := Resume(name, dirPath, fs.Files(dirPath), listing, config, cv, factory, newWandbId);
        && (r.Success? <==> spec.Success?)
        && (r.Success? ==> fresh(r.value) && r.value.View() == spec.value)
        && (r.Failure? ==> r.error == spec.error)
    {
      var kind := GetNewModel(config.modelType);
      if kind.Failure? {
        return Failure(kind.error);
      }
      var optimizer := GetNewOptimizer(config);
      var state := factory(kind.value, cv);
      var startEpoch := 1;
      var wandbId: Option<string> := if config.enableWandb then Some(newWandbId) else None;
      var evalValid: Option<EvalResult> := None;
      var evalValidBest: Option<EvalResult> := None;
      var loaded := false;
      var files := fs.Files(dirPath);
      var i := 0;
      while i < |listing|
        invariant 0 <= i <= |listing|
        invariant forall j :: 0 <= j < i ==> !Contains(PathOf(dirPath, listing[j]), name)
      {
        var path := PathOf(dirPath, listing[i]);
        if Contains(path, name) {
          assert FirstMatch(dirPath, listing, name) == Some(i);
          if listing[i] !in files || !files[listing[i]].Snapshot? {
            return Failure(CorruptCheckpoint(path));
          }
          var b := files[listing[i]].bundle;
          if config.enableWandb {
            if b.wandbId.None? {
              return Failure(MissingWandbId(path));
            }
            wandbId := b.wandbId;
          }
          state := b.state;
          startEpoch := b.epoch + 1;
          evalValid := Some(b.evalValid);
          evalValidBest := Some(b.evalValidBest);
          loaded := true;
          break;
        }
        i := i + 1;
      }
      var c := new Checkpoint(Restored(kind.value, optimizer, state, startEpoch, wandbId, evalValid, evalValidBest, loaded, loaded));
      r := Success(c);
    }

    /**
      `update_eval_valid(e, config)`: the current result becomes `e`; the best follows
      `NextBest` and stays a loaded record only as `BestStaysLoaded` says.
     */
    method UpdateEvalValid(e: EvalResult, config: Config)
      modifies this`evalValid, this`evalValidBest, this`validLoaded, this`bestLoaded
      ensures evalValid == Some(e) && !validLoaded
      ensures evalValidBest == Some(NextBest(old(evalValidBest), old(evalValid), e, config.autoEncoder))
      ensures bestLoaded == BestStaysLoaded(old(bestLoaded), old(evalValidBest), old(evalValid), e, config.autoEncoder)
    {
      if evalValidBest.None? {
        evalValidBest := Some(e);
        bestLoaded := false;
      }
      if evalValid.Some? {
        if config.autoEncoder {
          if e.meanLoss < evalValidBest.value.meanLoss {
            evalValidBest := Some(e);
            bestLoaded := false;
          }
        } else {
          if e.metrics[5] > evalValidBest.value.metrics[5] {
            evalValidBest := Some(e);
            bestLoaded := false;
          }
        }
      }
      evalValid := Some(e);
      validLoaded := false;
    }

    /**
      `save_checkpoint` can build its state dictionary: `vars` accepts both evaluations,
      that is neither is None nor a record loaded by a resume, and the tracking id is
      set when tracking is on.
     */
    predicate CanSave(config: Config)
      reads this
    {
      && evalValid.Some? && evalValidBest.Some?
      && !validLoaded && !bestLoaded
      && (config.enableWandb ==> wandbId.Some?)
    }

    /** The state dictionary `save_checkpoint` writes for `epoch`; `Wandb_ID` only with tracking enabled. */
    function SavedBundle(epoch: int, config: Config): (b: Bundle)
      reads this
      requires CanSave(config)
    {
      Bundle(epoch, state, evalValid.value, evalValidBest.value, if config.enableWandb then wandbId else None)
    }

    /**
      `save_checkpoint(name, epoch, save_path_cv, config)`: writes exactly the file
      `name_at_epoch_<epoch>.pt`. Building the state dictionary raises (nothing is
      written) unless `CanSave` holds.
     */
    method SaveCheckpoint(name: string, epoch: int, fs: FileSystem, dirPath: string, config: Config) returns (ok: bool)
      modifies fs
      ensures ok <==> CanSave(config)
      ensures ok ==> fs.dirs == old(fs.dirs)[dirPath := old(fs.Files(dirPath))[FileName(name, epoch) := Snapshot(SavedBundle(epoch, config))]]
      ensures !ok ==> fs.dirs == old(fs.dirs)
    {
      if !CanSave(config) {
        return false;
      }
      fs.Write(dirPath, FileName(name, epoch), Snapshot(SavedBundle(epoch, config)));
      ok := true;
    }

    /** `delete_checkpoint(name, epoch, save_path)`: removes that one file if it exists, otherwise does nothing. */
    static method DeleteCheckpoint(name: string, epoch: int, fs: FileSystem, dirPath: string)
      modifies fs
      ensures fs.dirs == if FileName(name, epoch) in old(fs.Files(dirPath))
        then old(fs.dirs)[dirPath := old(fs.Files(dirPath)) - {FileName(name, epoch)}]
        else old(fs.dirs)
    {
      if fs.IsFile(dirPath, FileName(name, epoch)) {
        fs.Remove(dirPath, FileName(name, epoch));
      }
    }
  }
}
