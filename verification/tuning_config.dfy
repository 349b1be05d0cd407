/** Construction of the backend prompt-tuning configuration from the
    user-facing tuning configuration. */
module TuningConfigBuilder {
  import opened Wrappers
  import opened PeftTypes

  /** The error code of the `num_virtual_tokens` check. */
  const NumVirtualTokensError: string := "<NLP11369136E>"
  /** The backend's task-type enum rejects an unknown name; the module itself
      attaches no code to that error. */
  const UnknownTaskTypeError: string := "TaskType"

  const NumVirtualTokensKey: string := "num_virtual_tokens"
  const SourceModelKey: string := "prompt_tuning_init_source_model"
  const StateDictPathKey: string := "prompt_tuning_init_state_dict_path"
  const TokenizerKey: string := "tokenizer_name_or_path"
  const SubmodulesKey: string := "num_transformer_submodules"
  const InitMethodKey: string := "prompt_tuning_init_method"
  const InitKey: string := "prompt_tuning_init"
  const InitTextKey: string := "prompt_tuning_init_text"

  /** The fields the two backend config dataclasses declare. They belong to
      the backend library, so they are inputs. */
  datatype BackendSchema = BackendSchema(promptTuningFields: set<string>, multitaskFields: set<string>)

  /** The field set of the config class selected by the tuning type. */
  function DeclaredFields(schema: BackendSchema, t: TuningType): set<string>
  {
    match t
    case PromptTuning => schema.promptTuningFields
    case MultitaskPromptTuning => schema.multitaskFields
  }

  /** A backend configuration: its class, its task type and its keyword
      arguments. */
  datatype BackendConfig = BackendConfig(kind: TuningType, taskType: string, params: map<string, Value>)

  /** The parameters kept for a config class, and the names dropped (and
      reported) because the class does not declare them. */
  datatype FilteredParams = FilteredParams(kept: map<string, Value>, dropped: set<string>)

  /** `_filter_params_for_prompt_config`: the kept parameters are exactly
      the entries whose key is a declared field, with their values; the
      dropped names are all the others. */
  function FilterParamsForPromptConfig(params: map<string, Value>, allowed: set<string>): (r: FilteredParams)
    ensures r.kept.Keys == params.Keys * allowed
    ensures forall k :: k in r.kept ==> r.kept[k] == params[k]
    ensures r.dropped == params.Keys - allowed
    ensures r.kept.Keys + r.dropped == params.Keys && r.kept.Keys !! r.dropped
  {
    var kept := map k | k in params && k in allowed :: params[k];
    FilteredParams(kept, params.Keys - kept.Keys)
  }

  /** Filtering the kept parameters again keeps them all. */
  lemma FilterParamsIdempotent(params: map<string, Value>, allowed: set<string>)
    ensures var once := FilterParamsForPromptConfig(params, allowed).kept;
            FilterParamsForPromptConfig(once, allowed) == FilteredParams(once, {})
  {
    var once := FilterParamsForPromptConfig(params, allowed).kept;
    assert FilterParamsForPromptConfig(once, allowed).kept == once;
  }

  /** The `num_virtual_tokens` check: truthy and an `int`. It rejects a
      missing value, zero and non-integers, and accepts negative integers
      and `True`. */
  predicate ValidNumVirtualTokens(v: Value)
  {
    Truthy(v) && IsPyInt(v)
  }

  /** The working dictionary before filtering: the tuning config's fields,
      the seed model under the backend's name, the tokenizer, the submodule
      count, and the initialisation method and text when they are truthy. */
  function ConfigKwargs(tuningConfig: map<string, Value>, tokenizerNameOrPath: string, numSubmodules: int): map<string, Value>
  {
    var withPath := tuningConfig[StateDictPathKey := Get(tuningConfig, SourceModelKey)];
    var withCounts := withPath[TokenizerKey := Str(tokenizerNameOrPath)][SubmodulesKey := Int(numSubmodules)];
    var initMethod := Get(tuningConfig, InitMethodKey);
    var withInit := if Truthy(initMethod) then withCounts[InitKey := initMethod] else withCounts;
    var text := Get(tuningConfig, InitTextKey);
    if Truthy(text) then withInit[InitTextKey := text] else withInit
  }

  /** What the built parameters hold, stated against the tuning config
      itself: only declared fields; the seed model under the state-dict
      name; the tokenizer and submodule count; the initialisation method
      when truthy; every other entry of the tuning config, unchanged,
      exactly when its key is declared. */
  ghost predicate BuiltParams(params: map<string, Value>, tuningConfig: map<string, Value>,
                              tokenizerNameOrPath: string, numSubmodules: int, fields: set<string>)
  {
    && (forall k :: k in params ==> k in fields)
    && (StateDictPathKey in fields ==>
          StateDictPathKey in params && params[StateDictPathKey] == Get(tuningConfig, SourceModelKey))
    && (TokenizerKey in fields ==> TokenizerKey in params && params[TokenizerKey] == Str(tokenizerNameOrPath))
    && (SubmodulesKey in fields ==> SubmodulesKey in params && params[SubmodulesKey] == Int(numSubmodules))
    && (InitKey in fields && Truthy(Get(tuningConfig, InitMethodKey)) ==>
          InitKey in params && params[InitKey] == Get(tuningConfig, InitMethodKey))
    && (forall k :: k !in {StateDictPathKey, TokenizerKey, SubmodulesKey} &&
                    (k == InitKey ==> !Truthy(Get(tuningConfig, InitMethodKey))) ==>
          (k in params <==> k in tuningConfig && k in fields) &&
          (k in params ==> params[k] == tuningConfig[k]))
  }

  /** `create_hf_tuning_config`. `numSubmodules` is the base-model
      resource's answer for the requested output types, and
      `knownTaskTypes` the names of the backend's task-type enum. The
      `num_virtual_tokens` check comes first, then the task type, then the
      submodule count; on success the config class follows the tuning type
      and its parameters are the working dictionary filtered to that class's
      fields. */
  function CreateHfTuningConfig(
    numSubmodules: Result<int, Error>,
    tuningType: TuningType,
    taskType: string,
    knownTaskTypes: set<string>,
    tokenizerNameOrPath: string,
    tuningConfig: map<string, Value>,
    schema: BackendSchema
  ): (r: Result<BackendConfig, Error>)
    ensures r.Ok? <==> ValidNumVirtualTokens(Get(tuningConfig, NumVirtualTokensKey))
                       && taskType in knownTaskTypes && numSubmodules.Ok?
    ensures !ValidNumVirtualTokens(Get(tuningConfig, NumVirtualTokensKey)) ==>
              r == Err(ValueError(NumVirtualTokensError))
    ensures ValidNumVirtualTokens(Get(tuningConfig, NumVirtualTokensKey)) && taskType !in knownTaskTypes ==>
              r == Err(ValueError(UnknownTaskTypeError))
    ensures (ValidNumVirtualTokens(Get(tuningConfig, NumVirtualTokensKey)) && taskType in knownTaskTypes
             && numSubmodules.Err?) ==> r == Err(numSubmodules.error)
    ensures r.Ok? ==> r.value.kind == tuningType && r.value.taskType == taskType
    ensures r.Ok? ==> BuiltParams(r.value.params, tuningConfig, tokenizerNameOrPath, numSubmodules.value,
                                  DeclaredFields(schema, tuningType))
  {
    if !ValidNumVirtualTokens(Get(tuningConfig, NumVirtualTokensKey)) then
      Err(ValueError(NumVirtualTokensError))
    else if taskType !in knownTaskTypes then
      Err(ValueError(UnknownTaskTypeError))
    else if numSubmodules.Err? then
      Err(numSubmodules.error)
    else
      var fields := DeclaredFields(schema, tuningType);
      var params := FilterParamsForPromptConfig(ConfigKwargs(tuningConfig, tokenizerNameOrPath, numSubmodules.value), fields);
      Ok(BackendConfig(tuningType, taskType, params.kept))
  }
}

/** How the encoder-decoder resource's submodule count travels through the
    backend config into the exporter's range check. */
module SubmoduleCountFlow {
  import opened Wrappers
  import opened PeftTypes
  import Seq2SeqResource
  import PromptExport
  import opened TuningConfigBuilder

  /** A config built with the encoder-decoder resource records a submodule
      count in `[1, 2]`, so a model configured from it never fails the
      exporter's submodule range check. */
  lemma Seq2SeqCountPassesExportRangeCheck<Row>(
    types: seq<PromptOutputModelType>, tuningType: TuningType, taskType: string, knownTaskTypes: set<string>,
    tokenizerNameOrPath: string, tuningConfig: map<string, Value>, schema: BackendSchema,
    model: PeftModel<Row>)
    requires SubmodulesKey in DeclaredFields(schema, tuningType)
    requires CreateHfTuningConfig(Seq2SeqResource.NumTransformerSubmodules(types), tuningType, taskType,
                                  knownTaskTypes, tokenizerNameOrPath, tuningConfig, schema).Ok?
    requires Int(model.numTransformerSubmodules)
          == CreateHfTuningConfig(Seq2SeqResource.NumTransformerSubmodules(types), tuningType, taskType,
                                  knownTaskTypes, tokenizerNameOrPath, tuningConfig, schema).value.params[SubmodulesKey]
    ensures 1 <= model.numTransformerSubmodules <= Seq2SeqResource.MaxNumTransformers
    ensures PromptExport.ExportPromptVectors(model, tuningType, types)
         != Err(ValueError(PromptExport.SubmoduleRangeError))
  {
  }
}
