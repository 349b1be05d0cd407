/** The on-disk artifact: the manifest, the per-role prompt files and the
    loss log written by `save`, and the decisions `load` takes on reading
    the manifest back. File contents are values here; writing and reading
    them is not modelled. */
module Persistence {
  import opened Wrappers
  import opened PeftTypes
  import opened PromptExport
  import opened DevicePrecision
  import opened JsonNames

  /** `TRAINING_LOSS_LOG_FILENAME`. */
  const TrainingLossLogFileName: string := "training_logs.jsonl"
  /** The prompt file names the serving runtime expects. */
  const EncoderFileName: string := "encoder.pt"
  const DecoderFileName: string := "decoder.pt"

  const LossLogTypeError: string := "<NLP60269855E>"
  const BaseModelMissingError: string := "<NLP97275192E>"
  const OnlyCausalLmError: string := "<NLP84249238E>"
  /** Raised by the JSON parser or an enum lookup on a bad manifest entry. */
  const ManifestDecodeError: string := "manifest"
  const CausalLmTaskType: string := "CAUSAL_LM"

  /** The manifest entries this module writes and reads. */
  datatype ManifestKey =
    | BaseModelConfigKey
    | BaseModelNameKey
    | EosTokenKey
    | HasBaseModelKey
    | VerbalizerKey
    | TuningTypeKey
    | TaskTypeKey
    | TrainedTorchDTypeKey
    | OutputModelTypesKey
    | PromptKey(role: PromptOutputModelType)
    | FullModelPathKey
    | TokenizerPathKey
    | TrainingLogsKey

  /** The entry's name in the manifest file; a role's entry is named after
      the role. */
  function KeyName(k: ManifestKey): string
  {
    match k
    case BaseModelConfigKey => "base_model_config"
    case BaseModelNameKey => "base_model_name"
    case EosTokenKey => "eos_token"
    case HasBaseModelKey => "has_base_model"
    case VerbalizerKey => "verbalizer"
    case TuningTypeKey => "tuning_type"
    case TaskTypeKey => "task_type"
    case TrainedTorchDTypeKey => "trained_torch_dtype"
    case OutputModelTypesKey => "output_model_types"
    case PromptKey(role) => RoleName(role)
    case FullModelPathKey => "full_model_path"
    case TokenizerPathKey => "tokenizer_path"
    case TrainingLogsKey => "training_logs"
  }

  type Manifest = map<ManifestKey, Value>

  /** The fixed file name of a role's prompt tensor. */
  function PromptFileName(t: PromptOutputModelType): string
  {
    match t
    case Encoder => EncoderFileName
    case Decoder => DecoderFileName
  }

  /** What `save` produces: the manifest entries it adds, the prompt files
      by name, and the loss-log records (none when the metadata has no
      `loss` entry, in which case no log file is written). */
  datatype Artifact<Row> = Artifact(
    manifest: Manifest,
    promptFiles: map<string, seq<Row>>,
    lossLog: Option<seq<Value>>)

  /** One line of the loss log. */
  function LossRecord(v: Value): Value
  {
    Obj(map["name" := Str("loss"), "data" := v])
  }

  /** The loss log: one record per loss value, in order. A `loss` entry
      that is not a list is a type error. */
  function LossLog(metadata: map<string, Value>): (r: Result<Option<seq<Value>>, Error>)
    ensures "loss" !in metadata ==> r == Ok(None)
    ensures "loss" in metadata ==> (r.Ok? <==> metadata["loss"].List?)
    ensures r.Err? ==> r.error == TypeError(LossLogTypeError)
    ensures "loss" in metadata && r.Ok? ==>
              && r.value.Some?
              && |r.value.value| == |metadata["loss"].items|
              && forall i :: 0 <= i < |r.value.value| ==> r.value.value[i] == LossRecord(metadata["loss"].items[i])
  {
    if "loss" !in metadata then Ok(None)
    else
      match metadata["loss"]
      case List(items) => Ok(Some(seq(|items|, i requires 0 <= i < |items| => LossRecord(items[i]))))
      case _ => Err(TypeError(LossLogTypeError))
  }

  /** The `data` of each loss-log record, in order; `Null` for a line that
      is not a loss record. */
  function LossValues(records: seq<Value>): seq<Value>
  {
    if records == [] then []
    else
      var first := if records[0].Obj? && "data" in records[0].fields then records[0].fields["data"] else Null;
      [first] + LossValues(records[1..])
  }

  /** Reading the `data` of the log lines back gives the loss history. */
  lemma {:induction false} LossLogRoundTrip(metadata: map<string, Value>)
    requires "loss" in metadata && LossLog(metadata).Ok?
    ensures LossLog(metadata).value.Some?
    ensures LossValues(LossLog(metadata).value.value) == metadata["loss"].items
  {
    var items := metadata["loss"].items;
    LossValuesOfRecords(items);
    assert LossLog(metadata).value.value == seq(|items|, i requires 0 <= i < |items| => LossRecord(items[i]));
  }

  lemma {:induction false} LossValuesOfRecords(items: seq<Value>)
    ensures LossValues(seq(|items|, i requires 0 <= i < |items| => LossRecord(items[i]))) == items
    decreases |items|
  {
    if items != [] {
      var records := seq(|items|, i requires 0 <= i < |items| => LossRecord(items[i]));
      var rest := items[1..];
      assert records[1..] == seq(|rest|, i requires 0 <= i < |rest| => LossRecord(rest[i]));
      LossValuesOfRecords(rest);
      assert records[0] == LossRecord(items[0]);
      assert [items[0]] + rest == items;
    }
  }

  /** The `.name`s of the output model types, in order. */
  function RoleNames(types: seq<PromptOutputModelType>): seq<string>
  {
    if types == [] then [] else [RoleName(types[0])] + RoleNames(types[1..])
  }

  /** One name per type, in order. */
  lemma {:induction false} RoleNamesSpec(types: seq<PromptOutputModelType>)
    ensures |RoleNames(types)| == |types|
    ensures forall i :: 0 <= i < |types| ==> RoleNames(types)[i] == RoleName(types[i])
  {
    if types != [] {
      RoleNamesSpec(types[1..]);
    }
  }

  /** The manifest entry of a role: its file name, or `""` when absent. */
  function RoleEntry<Row>(dict: PromptDict<Row>, t: PromptOutputModelType): Value
  {
    if t in dict && dict[t].Some? then Str(PromptFileName(t)) else Str("")
  }

  /** Whether `save` writes a key: every key, the model paths only when the
      base model is bundled. */
  predicate Written(saveBaseModel: bool, k: ManifestKey)
  {
    saveBaseModel || !(k.FullModelPathKey? || k.TokenizerPathKey?)
  }

  /** The values of the manifest entries, one per key; both model paths
      share one value. */
  datatype ManifestValues = ManifestValues(
    baseModelConfig: Value,
    baseModelName: Value,
    eosToken: Value,
    hasBaseModel: Value,
    verbalizer: Value,
    tuningType: Value,
    taskType: Value,
    trainedTorchDType: Value,
    outputModelTypes: Value,
    encoderPrompt: Value,
    decoderPrompt: Value,
    baseModelPath: Value)

  /** Writes the entries: every key, the model paths only when the base
      model is bundled. */
  function WriteManifest(v: ManifestValues, saveBaseModel: bool): Manifest
  {
    var fixed := map[
      BaseModelConfigKey := v.baseModelConfig,
      BaseModelNameKey := v.baseModelName,
      EosTokenKey := v.eosToken,
      HasBaseModelKey := v.hasBaseModel,
      VerbalizerKey := v.verbalizer,
      TuningTypeKey := v.tuningType,
      TaskTypeKey := v.taskType,
      TrainedTorchDTypeKey := v.trainedTorchDType,
      OutputModelTypesKey := v.outputModelTypes,
      PromptKey(Encoder) := v.encoderPrompt,
      PromptKey(Decoder) := v.decoderPrompt,
      TrainingLogsKey := Str(TrainingLossLogFileName)];
    if saveBaseModel then fixed[FullModelPathKey := v.baseModelPath][TokenizerPathKey := v.baseModelPath]
    else fixed
  }

  /** A written manifest holds exactly the `Written` keys. */
  lemma WrittenKeys(v: ManifestValues, saveBaseModel: bool, k: ManifestKey)
    ensures k in WriteManifest(v, saveBaseModel) <==> Written(saveBaseModel, k)
  {
    if k.PromptKey? {
      match k.role {
        case Encoder =>
        case Decoder =>
      }
    }
  }

  /** The entries of a written manifest about the files and the bundled model hold their values. */
  lemma WrittenFileEntries(v: ManifestValues, saveBaseModel: bool)
    ensures var mf := WriteManifest(v, saveBaseModel);
            && Attr(mf, HasBaseModelKey) == Ok(v.hasBaseModel)
            && Attr(mf, TrainedTorchDTypeKey) == Ok(v.trainedTorchDType)
            && Attr(mf, PromptKey(Encoder)) == Ok(v.encoderPrompt)
            && Attr(mf, PromptKey(Decoder)) == Ok(v.decoderPrompt)
            && Attr(mf, TrainingLogsKey) == Ok(Str(TrainingLossLogFileName))
            && (saveBaseModel ==> && Attr(mf, FullModelPathKey) == Ok(v.baseModelPath)
                                  && Attr(mf, TokenizerPathKey) == Ok(v.baseModelPath))
  {
  }

  /** The values `save` writes. Both model paths are the bundled directory;
      the dtype is written without its `torch.` prefix; a role's entry is
      its file name, or `""` when the role is absent. */
  function SavedValues<Row>(m: PromptTuningModule<Row>, saveBaseModel: bool, eosToken: string,
                            baseModelDir: string, dict: PromptDict<Row>): ManifestValues
  {
    ManifestValues(
      Obj(m.baseModelConfig),
      Str(m.baseModelName),
      Str(eosToken),
      Bool(saveBaseModel),
      Str(m.verbalizer),
      Str(TuningTypeName(m.tuningType)),
      Str(m.taskType),
      Str(TrainedDTypeString(m.model.dtype)),
      Str(EncodeNameList(RoleNames(m.outputModelTypes))),
      RoleEntry(dict, Encoder),
      RoleEntry(dict, Decoder),
      Str(baseModelDir))
  }

  /** The manifest entries `save` adds. */
  function BuildManifest<Row>(m: PromptTuningModule<Row>, saveBaseModel: bool, eosToken: string,
                              baseModelDir: string, dict: PromptDict<Row>): Manifest
  {
    WriteManifest(SavedValues(m, saveBaseModel, eosToken, baseModelDir, dict), saveBaseModel)
  }

  /** A manifest holds exactly the written keys. */
  lemma ManifestKeys<Row>(m: PromptTuningModule<Row>, saveBaseModel: bool, eosToken: string,
                          baseModelDir: string, dict: PromptDict<Row>, k: ManifestKey)
    ensures k in BuildManifest(m, saveBaseModel, eosToken, baseModelDir, dict) <==> Written(saveBaseModel, k)
  {
    WrittenKeys(SavedValues(m, saveBaseModel, eosToken, baseModelDir, dict), saveBaseModel, k);
  }

  /** The prompt files: each present role's tensor under its fixed name. */
  function PromptFiles<Row>(dict: PromptDict<Row>): (r: map<string, seq<Row>>)
    ensures forall t :: PromptFileName(t) in r <==> t in dict && dict[t].Some?
    ensures forall t :: PromptFileName(t) in r ==> r[PromptFileName(t)] == dict[t].value
    ensures r.Keys <= {EncoderFileName, DecoderFileName}
  {
    var enc := if Encoder in dict && dict[Encoder].Some? then map[EncoderFileName := dict[Encoder].value] else map[];
    var dec := if Decoder in dict && dict[Decoder].Some? then map[DecoderFileName := dict[Decoder].value] else map[];
    enc + dec
  }

  /** `save`: fails exactly when the export fails (with its error) or the
      loss entry is not a list; otherwise writes the entries of
      the `Written` manifest entries, the prompt files and the loss log. The export's result
      always holds both role keys, so the non-emptiness check made on it
      never fails and is not modelled. `baseModelDir` is the relative
      directory the saver creates for the bundled model. */
  function Save<Row>(m: PromptTuningModule<Row>, saveBaseModel: bool, eosToken: string, baseModelDir: string)
    : (r: Result<Artifact<Row>, Error>)
    ensures var e := ExportPromptVectors(m.model, m.tuningType, m.outputModelTypes);
            && (e.Err? ==> r == Err(e.error))
            && (e.Ok? ==> (r.Ok? <==> LossLog(m.trainingMetadata).Ok?))
    ensures r.Ok? ==> r.value.lossLog == LossLog(m.trainingMetadata).value
  {
    var dict :- ExportPromptVectors(m.model, m.tuningType, m.outputModelTypes);
    var log :- LossLog(m.trainingMetadata);
    Ok(Artifact(BuildManifest(m, saveBaseModel, eosToken, baseModelDir, dict), PromptFiles(dict), log))
  }

  /** A saved artifact's manifest, in terms of the exported dictionary. */
  lemma SavedManifest<Row>(m: PromptTuningModule<Row>, saveBaseModel: bool, eosToken: string, baseModelDir: string)
    requires Save(m, saveBaseModel, eosToken, baseModelDir).Ok?
    ensures ExportPromptVectors(m.model, m.tuningType, m.outputModelTypes).Ok?
    ensures Save(m, saveBaseModel, eosToken, baseModelDir).value.manifest
         == BuildManifest(m, saveBaseModel, eosToken, baseModelDir,
                          ExportPromptVectors(m.model, m.tuningType, m.outputModelTypes).value)
    ensures Save(m, saveBaseModel, eosToken, baseModelDir).value.promptFiles
         == PromptFiles(ExportPromptVectors(m.model, m.tuningType, m.outputModelTypes).value)
  {
  }

  /** For each role, the manifest holds its fixed file name when the role is
      listed and `""` otherwise, and exactly the listed roles' files are
      written, each holding the first `numVirtualTokens` rows. */
  lemma SaveRecordsPromptFiles<Row>(m: PromptTuningModule<Row>, saveBaseModel: bool, eosToken: string,
                                    baseModelDir: string, t: PromptOutputModelType)
    requires Save(m, saveBaseModel, eosToken, baseModelDir).Ok?
    ensures var a := Save(m, saveBaseModel, eosToken, baseModelDir).value;
            && PromptKey(t) in a.manifest
            && a.manifest[PromptKey(t)] == Str(if t in m.outputModelTypes then PromptFileName(t) else "")
            && (PromptFileName(t) in a.promptFiles <==> t in m.outputModelTypes)
            && (t in m.outputModelTypes ==>
                  a.promptFiles[PromptFileName(t)]
                  == ExtractPromptVector(m.model, m.tuningType)[..m.model.numVirtualTokens])
            && a.promptFiles.Keys <= {EncoderFileName, DecoderFileName}
  {
    SavedManifest(m, saveBaseModel, eosToken, baseModelDir);
    var dict := ExportPromptVectors(m.model, m.tuningType, m.outputModelTypes).value;
    assert t in dict;
    ManifestRoleEntry(m, saveBaseModel, eosToken, baseModelDir, dict, t);
  }

  /** A role's manifest entry, whatever the exported dictionary. */
  lemma ManifestRoleEntry<Row>(m: PromptTuningModule<Row>, saveBaseModel: bool, eosToken: string,
                               baseModelDir: string, dict: PromptDict<Row>, t: PromptOutputModelType)
    ensures var mf := BuildManifest(m, saveBaseModel, eosToken, baseModelDir, dict);
            && PromptKey(t) in mf
            && mf[PromptKey(t)] == Str(if t in dict && dict[t].Some? then PromptFileName(t) else "")
  {
    WrittenFileEntries(SavedValues(m, saveBaseModel, eosToken, baseModelDir, dict), saveBaseModel);
    match t {
      case Encoder =>
      case Decoder =>
    }
  }

  /** The fixed entries of a saved manifest: the log file name always;
      `has_base_model`; the model and tokenizer paths, both the bundled
      directory, exactly when the base model is saved; the dtype without its
      `torch.` prefix. */
  lemma SaveRecordsFixedEntries<Row>(m: PromptTuningModule<Row>, saveBaseModel: bool, eosToken: string, baseModelDir: string)
    requires Save(m, saveBaseModel, eosToken, baseModelDir).Ok?
    ensures var mf := Save(m, saveBaseModel, eosToken, baseModelDir).value.manifest;
            && Attr(mf, TrainingLogsKey) == Ok(Str(TrainingLossLogFileName))
            && Attr(mf, HasBaseModelKey) == Ok(Bool(saveBaseModel))
            && Attr(mf, TrainedTorchDTypeKey) == Ok(Str(AfterLastDot(DTypeString(m.model.dtype))))
            && (FullModelPathKey in mf <==> saveBaseModel)
            && (TokenizerPathKey in mf <==> saveBaseModel)
            && (saveBaseModel ==> mf[FullModelPathKey] == mf[TokenizerPathKey] == Str(baseModelDir))
  {
    SavedManifest(m, saveBaseModel, eosToken, baseModelDir);
    var dict := ExportPromptVectors(m.model, m.tuningType, m.outputModelTypes).value;
    var v := SavedValues(m, saveBaseModel, eosToken, baseModelDir, dict);
    WrittenFileEntries(v, saveBaseModel);
    WrittenKeys(v, saveBaseModel, FullModelPathKey);
    WrittenKeys(v, saveBaseModel, TokenizerPathKey);
  }

  /** Without a `loss` entry (as for a loaded module, whose training
      metadata is empty) `save` writes no log file, yet the manifest still
      names `training_logs.jsonl`. */
  lemma SaveNamesLogItDoesNotWrite<Row>(m: PromptTuningModule<Row>, saveBaseModel: bool, eosToken: string, baseModelDir: string)
    requires Save(m, saveBaseModel, eosToken, baseModelDir).Ok?
    requires "loss" !in m.trainingMetadata
    ensures var a := Save(m, saveBaseModel, eosToken, baseModelDir).value;
            && a.lossLog.None?
            && Attr(a.manifest, TrainingLogsKey) == Ok(Str(TrainingLossLogFileName))
  {
    SaveRecordsFixedEntries(m, saveBaseModel, eosToken, baseModelDir);
  }

  /** What `load` needs besides the manifest: the dtype override, the
      device request, the accelerator's capabilities, the task type recorded
      in the bundled PEFT config, and the enum values. */
  datatype LoadRequest = LoadRequest(
    dtypeOverride: Option<string>,
    device: Option<string>,
    cudaAvailable: bool,
    bf16Supported: bool,
    savedPeftTaskType: string,
    enumValues: EnumValues)

  /** The module attributes `load` takes from the manifest. Entries passed
      through keep their stored value; the output types and tuning type are
      looked up by value. */
  datatype StoredMetadata = StoredMetadata(
    outputModelTypes: seq<PromptOutputModelType>,
    baseModelConfig: Value,
    baseModelName: Value,
    verbalizer: Value,
    taskType: Value,
    tuningType: TuningType)

  /** The module `load` rebuilds: the stored attributes, where the bundled
      model is placed and the paths it is read from. Training metadata is
      not restored. */
  datatype LoadedModule = LoadedModule(
    metadata: StoredMetadata,
    device: Option<string>,
    dtype: DType,
    fullModelPath: Value,
    tokenizerPath: Value,
    trainingMetadata: map<string, Value>)

  /** A manifest attribute; a missing one is an `AttributeError`. */
  function Attr(manifest: Manifest, key: ManifestKey): (r: Result<Value, Error>)
    ensures r.Ok? <==> key in manifest
    ensures r.Ok? ==> r.value == manifest[key]
  {
    if key in manifest then Ok(manifest[key]) else Err(AttributeError(KeyName(key)))
  }

  /** A manifest attribute that must be a string. */
  function StrAttr(manifest: Manifest, key: ManifestKey): (r: Result<string, Error>)
    ensures r.Ok? <==> key in manifest && manifest[key].Str?
    ensures r.Ok? ==> manifest[key] == Str(r.value)
  {
    var v :- Attr(manifest, key);
    if v.Str? then Ok(v.s) else Err(TypeError(KeyName(key)))
  }

  /** The dtype `load` asks for: the override when given, otherwise the
      manifest's `trained_torch_dtype`. */
  function RequestedDType(manifest: Manifest, dtypeOverride: Option<string>): (r: Result<DType, Error>)
    ensures dtypeOverride.Some? ==> r == Ok(DType(dtypeOverride.value))
    ensures dtypeOverride.None? ==> (r.Ok? <==> StrAttr(manifest, TrainedTorchDTypeKey).Ok?)
    ensures dtypeOverride.None? && r.Ok? ==> manifest[TrainedTorchDTypeKey] == Str(r.value.name)
  {
    match dtypeOverride
    case Some(name) => Ok(DType(name))
    case None =>
      var name :- StrAttr(manifest, TrainedTorchDTypeKey);
      Ok(DType(name))
  }

  /** `PromptOutputModelType(x)` for every name read back, in order. */
  function RolesFromValues(ev: EnumValues, names: seq<string>): (r: Option<seq<PromptOutputModelType>>)
    ensures r.Some? ==> |r.value| == |names|
    ensures r.Some? ==> forall i :: 0 <= i < |names| ==> RoleValue(ev, r.value[i]) == names[i]
    decreases |names|
  {
    if names == [] then Some([])
    else
      match (RoleFromValue(ev, names[0]), RolesFromValues(ev, names[1..]))
      case (Some(t), Some(ts)) => Some([t] + ts)
      case _ => None
  }

  /** The stored attributes, in the order `load` reads them: the output
      types (a JSON list of values), then the entries passed through, then
      the tuning type (a value). */
  function ReadMetadata(manifest: Manifest, ev: EnumValues): (r: Result<StoredMetadata, Error>)
    ensures r.Ok? ==> && StrAttr(manifest, OutputModelTypesKey).Ok?
                      && DecodeNameList(StrAttr(manifest, OutputModelTypesKey).value).Some?
                      && RolesFromValues(ev, DecodeNameList(StrAttr(manifest, OutputModelTypesKey).value).value)
                         == Some(r.value.outputModelTypes)
    ensures r.Ok? ==> && StrAttr(manifest, TuningTypeKey).Ok?
                      && TuningTypeFromValue(ev, StrAttr(manifest, TuningTypeKey).value) == Some(r.value.tuningType)
    ensures r.Ok? ==> && Attr(manifest, VerbalizerKey) == Ok(r.value.verbalizer)
                      && Attr(manifest, TaskTypeKey) == Ok(r.value.taskType)
                      && Attr(manifest, BaseModelNameKey) == Ok(r.value.baseModelName)
                      && Attr(manifest, BaseModelConfigKey) == Ok(r.value.baseModelConfig)
  {
    var typesJson :- StrAttr(manifest, OutputModelTypesKey);
    var names :- DecodeNameList(typesJson).ToResult(ValueError(ManifestDecodeError));
    var types :- RolesFromValues(ev, names).ToResult(ValueError(ManifestDecodeError));
    var baseModelConfig :- Attr(manifest, BaseModelConfigKey);
    var baseModelName :- Attr(manifest, BaseModelNameKey);
    var verbalizer :- Attr(manifest, VerbalizerKey);
    var taskType :- Attr(manifest, TaskTypeKey);
    var tuningTypeName :- StrAttr(manifest, TuningTypeKey);
    var tuningType :- TuningTypeFromValue(ev, tuningTypeName).ToResult(ValueError(ManifestDecodeError));
    Ok(StoredMetadata(types, baseModelConfig, baseModelName, verbalizer, taskType, tuningType))
  }

  /** `load`. The requested dtype is resolved first; a manifest without a
      bundled base model is a `ValueError`; a bundled model whose PEFT
      config is not for causal LM is not implemented; the bundled model is
      moved to the resolved device with the bfloat16 fallback; then the
      stored attributes are read. */
  function Load(manifest: Manifest, req: LoadRequest): (r: Result<LoadedModule, Error>)
    ensures r.Ok? ==> && HasBaseModelKey in manifest && Truthy(manifest[HasBaseModelKey])
                      && req.savedPeftTaskType == CausalLmTaskType
    ensures r.Ok? ==> && RequestedDType(manifest, req.dtypeOverride).Ok?
                      && r.value.device == ResolveDevice(req.device, req.cudaAvailable)
                      && r.value.dtype == ConvertPrecision(r.value.device,
                                            RequestedDType(manifest, req.dtypeOverride).value,
                                            req.bf16Supported).dtype
    ensures (RequestedDType(manifest, req.dtypeOverride).Ok? && HasBaseModelKey in manifest
             && !Truthy(manifest[HasBaseModelKey])) ==> r == Err(ValueError(BaseModelMissingError))
    ensures (RequestedDType(manifest, req.dtypeOverride).Ok? && HasBaseModelKey in manifest
             && Truthy(manifest[HasBaseModelKey]) && FullModelPathKey in manifest
             && req.savedPeftTaskType != CausalLmTaskType) ==> r == Err(NotImplemented(OnlyCausalLmError))
    ensures r.Ok? ==> && Attr(manifest, FullModelPathKey) == Ok(r.value.fullModelPath)
                      && Attr(manifest, TokenizerPathKey) == Ok(r.value.tokenizerPath)
                      && ReadMetadata(manifest, req.enumValues) == Ok(r.value.metadata)
    ensures r.Ok? ==> r.value.trainingMetadata == map[]
  {
    var requested :- RequestedDType(manifest, req.dtypeOverride);
    var hasBaseModel :- Attr(manifest, HasBaseModelKey);
    if !Truthy(hasBaseModel) then Err(ValueError(BaseModelMissingError))
    else
      var device := ResolveDevice(req.device, req.cudaAvailable);
      var fullModelPath :- Attr(manifest, FullModelPathKey);
      if req.savedPeftTaskType != CausalLmTaskType then Err(NotImplemented(OnlyCausalLmError))
      else
        var precision := ConvertPrecision(device, requested, req.bf16Supported);
        var tokenizerPath :- Attr(manifest, TokenizerPathKey);
        var metadata :- ReadMetadata(manifest, req.enumValues);
        Ok(LoadedModule(metadata, device, precision.dtype, fullModelPath, tokenizerPath, map[]))
  }

  /** Role names are written without JSON escapes. */
  lemma RoleNamesArePlain(types: seq<PromptOutputModelType>)
    ensures forall i :: 0 <= i < |RoleNames(types)| ==> PlainName(RoleNames(types)[i])
  {
    RoleNamesSpec(types);
    forall i | 0 <= i < |types| ensures PlainName(RoleName(types[i])) {
      match types[i]
      case Encoder =>
      case Decoder =>
    }
  }

  /** When every value equals its name, looking the written names up by
      value gives back the roles. */
  lemma {:induction false} RolesFromTheirNames(ev: EnumValues, types: seq<PromptOutputModelType>)
    requires ValuesAreNames(ev)
    ensures RolesFromValues(ev, RoleNames(types)) == Some(types)
    decreases |types|
  {
    if types != [] {
      var names := RoleNames(types);
      assert names == [RoleName(types[0])] + RoleNames(types[1..]);
      assert names[0] == RoleName(types[0]) && names[1..] == RoleNames(types[1..]);
      RolesFromTheirNames(ev, types[1..]);
      assert RoleFromValue(ev, RoleName(types[0])) == Some(types[0]) by {
        match types[0]
        case Encoder =>
        case Decoder =>
      }
      assert RolesFromValues(ev, names) == Some([types[0]] + types[1..]);
      assert [types[0]] + types[1..] == types;
    }
  }

  /** The entries `load` reads back as stored attributes, as written. */
  lemma ManifestStoredEntries<Row>(m: PromptTuningModule<Row>, saveBaseModel: bool, eosToken: string,
                                   baseModelDir: string, dict: PromptDict<Row>)
    ensures var mf := BuildManifest(m, saveBaseModel, eosToken, baseModelDir, dict);
            && StrAttr(mf, OutputModelTypesKey) == Ok(EncodeNameList(RoleNames(m.outputModelTypes)))
            && StrAttr(mf, TuningTypeKey) == Ok(TuningTypeName(m.tuningType))
            && Attr(mf, BaseModelConfigKey) == Ok(Obj(m.baseModelConfig))
            && Attr(mf, BaseModelNameKey) == Ok(Str(m.baseModelName))
            && Attr(mf, VerbalizerKey) == Ok(Str(m.verbalizer))
            && Attr(mf, TaskTypeKey) == Ok(Str(m.taskType))
  {
    var v := SavedValues(m, saveBaseModel, eosToken, baseModelDir, dict);
    assert BuildManifest(m, saveBaseModel, eosToken, baseModelDir, dict) == WriteManifest(v, saveBaseModel);
  }

  /** A manifest holding the stored entries as `save` writes them reads back
      the attributes they came from, given enum values equal to names. */
  lemma ReadMetadataOfEntries<Row>(m: PromptTuningModule<Row>, mf: Manifest, ev: EnumValues)
    requires ValuesAreNames(ev)
    requires StrAttr(mf, OutputModelTypesKey) == Ok(EncodeNameList(RoleNames(m.outputModelTypes)))
    requires StrAttr(mf, TuningTypeKey) == Ok(TuningTypeName(m.tuningType))
    requires Attr(mf, BaseModelConfigKey) == Ok(Obj(m.baseModelConfig))
    requires Attr(mf, BaseModelNameKey) == Ok(Str(m.baseModelName))
    requires Attr(mf, VerbalizerKey) == Ok(Str(m.verbalizer))
    requires Attr(mf, TaskTypeKey) == Ok(Str(m.taskType))
    ensures ReadMetadata(mf, ev)
         == Ok(StoredMetadata(m.outputModelTypes, Obj(m.baseModelConfig), Str(m.baseModelName),
                              Str(m.verbalizer), Str(m.taskType), m.tuningType))
  {
    RoleNamesArePlain(m.outputModelTypes);
    DecodeEncodeNameList(RoleNames(m.outputModelTypes));
    RolesFromTheirNames(ev, m.outputModelTypes);
    assert TuningTypeFromValue(ev, TuningTypeName(m.tuningType)) == Some(m.tuningType) by {
      match m.tuningType
      case PromptTuning =>
      case MultitaskPromptTuning =>
    }
  }

  /** The attributes written by `save` read back as they were, given enum
      values equal to names. */
  lemma ReadMetadataOfSaved<Row>(m: PromptTuningModule<Row>, saveBaseModel: bool, eosToken: string,
                                 baseModelDir: string, dict: PromptDict<Row>, ev: EnumValues)
    requires ValuesAreNames(ev)
    ensures ReadMetadata(BuildManifest(m, saveBaseModel, eosToken, baseModelDir, dict), ev)
         == Ok(StoredMetadata(m.outputModelTypes, Obj(m.baseModelConfig), Str(m.baseModelName),
                              Str(m.verbalizer), Str(m.taskType), m.tuningType))
  {
    ManifestStoredEntries(m, saveBaseModel, eosToken, baseModelDir, dict);
    ReadMetadataOfEntries(m, BuildManifest(m, saveBaseModel, eosToken, baseModelDir, dict), ev);
  }

  /** `load` of a manifest whose entries are those of `save` with the base
      model bundled: the requested dtype is the trained one, and the bundled
      paths and stored attributes come back. */
  lemma LoadOfEntries<Row>(m: PromptTuningModule<Row>, mf: Manifest, dir: string, req: LoadRequest)
    requires ValuesAreNames(req.enumValues)
    requires req.savedPeftTaskType == CausalLmTaskType
    requires req.dtypeOverride.None?
    requires Attr(mf, HasBaseModelKey) == Ok(Bool(true))
    requires Attr(mf, TrainedTorchDTypeKey) == Ok(Str(m.model.dtype.name))
    requires Attr(mf, FullModelPathKey) == Ok(Str(dir)) && Attr(mf, TokenizerPathKey) == Ok(Str(dir))
    requires ReadMetadata(mf, req.enumValues)
          == Ok(StoredMetadata(m.outputModelTypes, Obj(m.baseModelConfig), Str(m.baseModelName),
                               Str(m.verbalizer), Str(m.taskType), m.tuningType))
    ensures var l := Load(mf, req);
            && l.Ok?
            && l.value.metadata == StoredMetadata(m.outputModelTypes, Obj(m.baseModelConfig), Str(m.baseModelName),
                                                  Str(m.verbalizer), Str(m.taskType), m.tuningType)
            && l.value.fullModelPath == l.value.tokenizerPath == Str(dir)
            && l.value.dtype == ConvertPrecision(ResolveDevice(req.device, req.cudaAvailable),
                                                 m.model.dtype, req.bf16Supported).dtype
  {
    assert RequestedDType(mf, None) == Ok(m.model.dtype);
  }

  /** Saving with the base model and loading back (no dtype override, a
      module whose task type is causal LM and whose bundled PEFT config
      records that task type, enum values equal to names) restores the tuning
      type, the output types in order, the verbalizer, task type, base model
      name and config, and the trained dtype up to the bfloat16 fallback;
      both paths point at the bundled directory. */
  lemma SaveLoadRoundTrip<Row>(m: PromptTuningModule<Row>, eosToken: string, baseModelDir: string, req: LoadRequest)
    requires Save(m, true, eosToken, baseModelDir).Ok?
    requires '.' !in m.model.dtype.name
    requires ValuesAreNames(req.enumValues)
    requires req.savedPeftTaskType == m.taskType
    requires m.taskType == CausalLmTaskType
    requires req.dtypeOverride.None?
    ensures var l := Load(Save(m, true, eosToken, baseModelDir).value.manifest, req);
            && l.Ok?
            && l.value.metadata == StoredMetadata(m.outputModelTypes, Obj(m.baseModelConfig), Str(m.baseModelName),
                                                  Str(m.verbalizer), Str(m.taskType), m.tuningType)
            && l.value.fullModelPath == l.value.tokenizerPath == Str(baseModelDir)
            && l.value.dtype == ConvertPrecision(ResolveDevice(req.device, req.cudaAvailable),
                                                 m.model.dtype, req.bf16Supported).dtype
  {
    SavedManifest(m, true, eosToken, baseModelDir);
    var dict := ExportPromptVectors(m.model, m.tuningType, m.outputModelTypes).value;
    var manifest := BuildManifest(m, true, eosToken, baseModelDir, dict);
    SaveRecordsFixedEntries(m, true, eosToken, baseModelDir);
    TrainedDTypeStringRoundTrip(m.model.dtype);
    ReadMetadataOfSaved(m, true, eosToken, baseModelDir, dict, req.enumValues);
    LoadOfEntries(m, manifest, baseModelDir, req);
  }

  /** An artifact saved without the base model cannot be loaded. */
  lemma LoadWithoutBaseModelFails<Row>(m: PromptTuningModule<Row>, eosToken: string, baseModelDir: string, req: LoadRequest)
    requires Save(m, false, eosToken, baseModelDir).Ok?
    ensures Load(Save(m, false, eosToken, baseModelDir).value.manifest, req) == Err(ValueError(BaseModelMissingError))
  {
    SaveRecordsFixedEntries(m, false, eosToken, baseModelDir);
    var mf := Save(m, false, eosToken, baseModelDir).value.manifest;
    assert RequestedDType(mf, req.dtypeOverride).Ok?;
  }

  /** A bundled model whose PEFT config is not for causal LM cannot be loaded. */
  lemma LoadNonCausalFails<Row>(m: PromptTuningModule<Row>, eosToken: string, baseModelDir: string, req: LoadRequest)
    requires Save(m, true, eosToken, baseModelDir).Ok?
    requires req.savedPeftTaskType != CausalLmTaskType
    ensures Load(Save(m, true, eosToken, baseModelDir).value.manifest, req) == Err(NotImplemented(OnlyCausalLmError))
  {
    SaveRecordsFixedEntries(m, true, eosToken, baseModelDir);
    var mf := Save(m, true, eosToken, baseModelDir).value.manifest;
    assert RequestedDType(mf, req.dtypeOverride).Ok?;
  }

  /** The partner of the round trip: a module whose task type is not causal
      LM, saved with its base model, never loads again, since the bundled
      PEFT config records that same task type. */
  lemma NonCausalModuleDoesNotReload<Row>(m: PromptTuningModule<Row>, eosToken: string, baseModelDir: string, req: LoadRequest)
    requires Save(m, true, eosToken, baseModelDir).Ok?
    requires req.savedPeftTaskType == m.taskType
    requires m.taskType != CausalLmTaskType
    ensures Load(Save(m, true, eosToken, baseModelDir).value.manifest, req) == Err(NotImplemented(OnlyCausalLmError))
  {
    LoadNonCausalFails(m, eosToken, baseModelDir, req);
  }

  /** Looking up a list of values fails as soon as one value names no member. */
  lemma {:induction false} RolesFromValuesFails(ev: EnumValues, names: seq<string>, i: int)
    requires 0 <= i < |names|
    requires RoleFromValue(ev, names[i]).None?
    ensures RolesFromValues(ev, names).None?
    decreases i
  {
    if i > 0 {
      RolesFromValuesFails(ev, names[1..], i - 1);
    }
  }

  /** The output types are written as names and read back as values: when
      no member's value is `"ENCODER"`, an artifact exporting the encoder
      does not load. */
  lemma LoadNeedsValuesMatchingNames<Row>(m: PromptTuningModule<Row>, eosToken: string, baseModelDir: string, req: LoadRequest)
    requires Save(m, true, eosToken, baseModelDir).Ok?
    requires Encoder in m.outputModelTypes
    requires forall t :: RoleValue(req.enumValues, t) != RoleName(Encoder)
    ensures Load(Save(m, true, eosToken, baseModelDir).value.manifest, req).Err?
  {
    SavedManifest(m, true, eosToken, baseModelDir);
    var dict := ExportPromptVectors(m.model, m.tuningType, m.outputModelTypes).value;
    var manifest := BuildManifest(m, true, eosToken, baseModelDir, dict);
    ManifestStoredEntries(m, true, eosToken, baseModelDir, dict);
    var names := RoleNames(m.outputModelTypes);
    RoleNamesArePlain(m.outputModelTypes);
    DecodeEncodeNameList(names);
    var i :| 0 <= i < |m.outputModelTypes| && m.outputModelTypes[i] == Encoder;
    RoleNamesSpec(m.outputModelTypes);
    RolesFromValuesFails(req.enumValues, names, i);
  }
}
