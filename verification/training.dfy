/** The control decisions `train` makes around the external training run:
    the pass-through argument allow-list, the zero-epoch fast path, the
    rank-0 loss history and the sanitised config snapshot. */
module Training {
  import opened Wrappers
  import opened PeftTypes

  /** The base-model config entry that records where the model was loaded from. */
  const NameOrPathKey: string := "_name_or_path"
  /** The training-metadata entry holding the loss history. */
  const LossKey: string := "loss"

  /** The pass-through training arguments split by the allow-list. */
  datatype TrainingArgsSplit = TrainingArgsSplit(kept: map<string, Value>, extra: set<string>, warned: bool)

  /** The kept arguments are the allowed entries with their values, the
      extra names are all the others, and a warning is logged exactly when
      there is an extra name. `allowed` is `ALLOWED_TRAINING_ARGS`, which
      lives outside this model. */
  function FilterTrainingArguments(kwargs: map<string, Value>, allowed: set<string>): (r: TrainingArgsSplit)
    ensures r.kept.Keys == kwargs.Keys * allowed
    ensures forall k :: k in r.kept ==> r.kept[k] == kwargs[k]
    ensures r.extra == kwargs.Keys - allowed
    ensures r.kept.Keys + r.extra == kwargs.Keys && r.kept.Keys !! r.extra
    ensures r.warned <==> !(kwargs.Keys <= allowed)
  {
    var kept := map k | k in kwargs && k in allowed :: kwargs[k];
    var extra := kwargs.Keys - kept.Keys;
    TrainingArgsSplit(kept, extra, extra != {})
  }

  /** The kept arguments pass the allow-list again whole and without a
      warning: filtering is idempotent. */
  lemma FilterTrainingArgumentsIdempotent(kwargs: map<string, Value>, allowed: set<string>)
    ensures var once := FilterTrainingArguments(kwargs, allowed).kept;
            FilterTrainingArguments(once, allowed) == TrainingArgsSplit(once, {}, false)
  {
    var once := FilterTrainingArguments(kwargs, allowed).kept;
    assert FilterTrainingArguments(once, allowed).kept == once;
  }

  /** Everything `train` decides on, besides the tensors. `untrained` is the
      PEFT model as built from the tuning config and `trained` the same model
      after the run. An elastic launch (made when an accelerator is
      available) returns one loss history per rank, `elasticHistories`; an
      in-process run returns `inProcessHistory`. */
  datatype TrainRequest<Row> = TrainRequest(
    numEpochs: int,
    kwargs: map<string, Value>,
    allowedTrainingArgs: set<string>,
    baseModelConfig: map<string, Value>,
    baseModelName: string,
    verbalizer: string,
    taskType: string,
    tuningType: TuningType,
    outputModelTypes: seq<PromptOutputModelType>,
    untrained: PeftModel<Row>,
    trained: PeftModel<Row>,
    cudaAvailable: bool,
    elasticHistories: map<int, Value>,
    inProcessHistory: Value)

  /** The returned module, the argument split, and whether training ran. */
  datatype TrainOutcome<Row> = TrainOutcome(
    trainedModule: PromptTuningModule<Row>,
    args: TrainingArgsSplit,
    trainerLaunched: bool)

  /** The loss history kept: rank 0's from an elastic launch (a missing
      rank 0 is a `KeyError`), the single history from an in-process run. */
  function KeptLossHistory(cudaAvailable: bool, elasticHistories: map<int, Value>, inProcessHistory: Value)
    : (r: Result<Value, Error>)
    ensures cudaAvailable ==> (r.Ok? <==> 0 in elasticHistories)
    ensures cudaAvailable && r.Ok? ==> r.value == elasticHistories[0]
    ensures !cudaAvailable ==> r == Ok(inProcessHistory)
  {
    if !cudaAvailable then Ok(inProcessHistory)
    else if 0 in elasticHistories then Ok(elasticHistories[0])
    else Err(KeyError("0"))
  }

  /** Only rank 0's history matters: two per-rank maps that agree on rank 0
      keep the same history, whatever the other ranks recorded. */
  lemma KeptHistoryIgnoresOtherRanks(cudaAvailable: bool, h1: map<int, Value>, h2: map<int, Value>, inProcessHistory: Value)
    requires (0 in h1 <==> 0 in h2) && (0 in h1 ==> h1[0] == h2[0])
    ensures KeptLossHistory(cudaAvailable, h1, inProcessHistory) == KeptLossHistory(cudaAvailable, h2, inProcessHistory)
  {
  }

  /** The config snapshot with `_name_or_path` deleted; deleting a missing
      key is a `KeyError`. */
  function SanitizeConfig(config: map<string, Value>): (r: Result<map<string, Value>, Error>)
    ensures r.Ok? <==> NameOrPathKey in config
    ensures r.Err? ==> r.error == KeyError(NameOrPathKey)
    ensures r.Ok? ==> NameOrPathKey !in r.value
    ensures r.Ok? ==> forall k :: k in config && k != NameOrPathKey ==> k in r.value && r.value[k] == config[k]
    ensures r.Ok? ==> |r.value| == |config| - 1
  {
    if NameOrPathKey in config then Ok(config - {NameOrPathKey}) else Err(KeyError(NameOrPathKey))
  }

  function Assemble<Row>(req: TrainRequest<Row>, model: PeftModel<Row>, config: map<string, Value>, loss: Value)
    : PromptTuningModule<Row>
  {
    PromptTuningModule(model, config, req.baseModelName, req.verbalizer, req.taskType, req.tuningType,
                       req.outputModelTypes, map[LossKey := loss])
  }

  /** `train` after the PEFT model and dataset are built. With fewer than
      one epoch nothing is launched and the untrained model is returned with
      an empty loss history and the config snapshot as captured. Otherwise
      the rank-0 (or only) loss history is kept and `_name_or_path` is
      removed from the snapshot. */
  function Train<Row>(req: TrainRequest<Row>): (r: Result<TrainOutcome<Row>, Error>)
    ensures r.Ok? ==> r.value.args == FilterTrainingArguments(req.kwargs, req.allowedTrainingArgs)
    ensures r.Ok? ==> (r.value.trainerLaunched <==> req.numEpochs >= 1)
    ensures req.numEpochs < 1 ==>
              && r.Ok?
              && r.value.trainedModule.trainingMetadata == map[LossKey := List([])]
              && r.value.trainedModule.model == req.untrained
              && r.value.trainedModule.baseModelConfig == req.baseModelConfig
    ensures req.numEpochs >= 1 ==>
              (r.Ok? <==> NameOrPathKey in req.baseModelConfig && KeptLossHistory(req.cudaAvailable, req.elasticHistories, req.inProcessHistory).Ok?)
    ensures req.numEpochs >= 1 && r.Ok? ==>
              && r.value.trainedModule.model == req.trained
              && r.value.trainedModule.baseModelConfig == req.baseModelConfig - {NameOrPathKey}
              && r.value.trainedModule.trainingMetadata == map[LossKey := KeptLossHistory(req.cudaAvailable, req.elasticHistories, req.inProcessHistory).value]
    ensures req.numEpochs >= 1 && r.Ok? && req.cudaAvailable ==>
              r.value.trainedModule.trainingMetadata[LossKey] == req.elasticHistories[0]
    ensures r.Ok? ==> && r.value.trainedModule.tuningType == req.tuningType
                      && r.value.trainedModule.outputModelTypes == req.outputModelTypes
                      && r.value.trainedModule.verbalizer == req.verbalizer
                      && r.value.trainedModule.taskType == req.taskType
                      && r.value.trainedModule.baseModelName == req.baseModelName
  {
    var args := FilterTrainingArguments(req.kwargs, req.allowedTrainingArgs);
    if req.numEpochs < 1 then
      Ok(TrainOutcome(Assemble(req, req.untrained, req.baseModelConfig, List([])), args, false))
    else
      var loss :- KeptLossHistory(req.cudaAvailable, req.elasticHistories, req.inProcessHistory);
      var config :- SanitizeConfig(req.baseModelConfig);
      Ok(TrainOutcome(Assemble(req, req.trained, config, loss), args, true))
  }

  /** A module returned by a training run that launched never carries
      `_name_or_path`; the zero-epoch fast path keeps it when the snapshot
      had it. */
  lemma LaunchedRunsDropNameOrPath<Row>(req: TrainRequest<Row>)
    requires Train(req).Ok?
    ensures Train(req).value.trainerLaunched ==> NameOrPathKey !in Train(req).value.trainedModule.baseModelConfig
    ensures !Train(req).value.trainerLaunched && NameOrPathKey in req.baseModelConfig ==>
              NameOrPathKey in Train(req).value.trainedModule.baseModelConfig
  {
  }
}
