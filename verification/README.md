# PEFT prompt tuning in caikit-nlp: a Dafny model

This project models the data-shape and configuration logic around PEFT soft
prompt tuning in caikit-nlp's `PeftPromptTuning` module and the submodule
count of the encoder-decoder base-model resource `HFAutoSeq2SeqLM`. It covers
six parts:

- **Submodule count.** `get_num_transformers_submodules` is modelled in
  `seq2seq_resource.dfy`, module `Seq2SeqResource`.
- **Prompt-vector exporter.** `get_exportable_prompt_vectors` is modelled in
  `prompt_export.dfy`, module `PromptExport`.
- **Tuning-config builder.** `create_hf_tuning_config` and
  `_filter_params_for_prompt_config` are modelled in `tuning_config.dfy`,
  module `TuningConfigBuilder`. The same file holds `SubmoduleCountFlow`,
  which follows the resource's count into the exporter's range check.
- **Training control.** The decisions `train` makes around the external
  training run are in `training.dfy`, module `Training`:
  - the allow-list for pass-through arguments;
  - the zero-epoch fast path;
  - which loss history is kept;
  - the removal of `_name_or_path`.
- **Device and precision.** `_get_device`, the bfloat16 fallback of
  `convert_peft_model_to_type`, and the `trained_torch_dtype` string are in
  `device_precision.dfy`, module `DevicePrecision`.
- **Save and load.** The artifact manifest and loss log written by `save`,
  and the decisions `load` takes on that manifest, are in `persistence.dfy`,
  module `Persistence`. The JSON list of output-type names it relies on is
  written and read back by `json_names.dfy`, module `JsonNames`.

The shared vocabulary is in `peft_types.dfy` (module `PeftTypes`):
- the two enums;
- JSON-like values with Python truthiness;
- errors;
- dtypes;
- the PEFT model and module state.

`wrappers.dfy` holds `Option` and `Result`.

Modelling choices:
- A prompt tensor is a `seq<Row>` with `Row` a type parameter. Only its row
  count and row order matter here.
- Python dictionaries are `map<string, Value>`. An exception is an `Err`
  carrying the source's error code.
- These external facts are parameters:
  - whether CUDA is available and whether bfloat16 is supported;
  - the allow-list `ALLOWED_TRAINING_ARGS`;
  - the field sets of the two PEFT config dataclasses;
  - the names of PEFT's `TaskType` enum;
  - the task type read from a saved PEFT config;
  - the enum *values* of `PromptOutputModelType` and `TuningType`. `save`
    writes enum names and `load` looks them up by value, so the round trip
    holds only when the two agree.
- The manifest is a map from a key datatype to values. `KeyName` gives each
  key's name in the module config.

Where the code and its documentation differ, the model follows the code:
- The zero-epoch fast path of `train` returns the config snapshot with
  `_name_or_path` still in it. Only a launched run removes it.
- `save` asserts that the exported dictionary is non-empty. It always holds
  both role keys, so the assertion never fails, and it is not modelled as a
  check.
- The `num_virtual_tokens` check accepts negative integers and `True`.
- Copying `prompt_tuning_init_text` onto itself changes nothing. The entry
  is already in the tuning config's dictionary.
- A loaded module has empty training metadata.
- `save` always records `training_logs.jsonl` in the config but writes that
  file only when the training metadata has a `loss` entry. Saving a loaded
  module therefore names a log file that is not written.

## Model

| member | source | states |
|---|---|---|
| Seq2SeqResource.NumTransformerSubmodules | caikit_nlp/resources/pretrained_model/hf_auto_seq2seq_lm.py:57-72 | The count succeeds exactly when the list holds ENCODER or DECODER, which is exactly when the list is non-empty. Success lies in 1..MAX_NUM_TRANSFORMERS = 2. Failure is the value error NLP71505742E. |
| Seq2SeqResource.CountIsDistinctRoles | caikit_nlp/resources/pretrained_model/hf_auto_seq2seq_lm.py:64-68 | A successful count equals the number of distinct roles in the list. |
| Seq2SeqResource.CountDependsOnlyOnMembership | caikit_nlp/resources/pretrained_model/hf_auto_seq2seq_lm.py:65-68 | Two lists with the same members give the same result, whatever their order or duplicates. |
| PromptExport.ExportPromptVectors | caikit_nlp/modules/text_generation/peft_prompt_tuning.py:727-797 | A submodule count outside [1, 2] gives NLP83837722E, whatever the rows. Otherwise the export succeeds iff the matrix has exactly count × num_virtual_tokens rows, and fails with NLP83444722E otherwise. A result has exactly the keys ENCODER and DECODER. A listed role maps to the first num_virtual_tokens rows; an unlisted role maps to None. |
| PromptExport.AssignRolesSpec | caikit_nlp/modules/text_generation/peft_prompt_tuning.py:794-795 | After the assignment loop the keys are the original keys plus the listed roles. Every listed role gets the prefix; every other original key keeps its entry. |
| PromptExport.ExportedDictIsNeverEmpty | caikit_nlp/modules/text_generation/peft_prompt_tuning.py:561-564 | Every successful export holds both role keys, so save's assertion on it cannot fail. |
| PromptExport.ExportedTensorsAreFirstBlock | caikit_nlp/modules/text_generation/peft_prompt_tuning.py:780-795 | An exported tensor has num_virtual_tokens rows. With one submodule it is the whole matrix; with two, the matrix is that tensor followed by the second block. |
| PromptExport.BothRolesShareThePrefix | caikit_nlp/modules/text_generation/peft_prompt_tuning.py:794-795 | When both roles are listed they receive the same tensor. |
| TuningConfigBuilder.FilterParamsForPromptConfig | caikit_nlp/modules/text_generation/peft_prompt_tuning.py:929-954 | Kept parameters are exactly the entries whose key is a declared field, with unchanged values. The dropped names are the rest; kept and dropped partition the input keys. |
| TuningConfigBuilder.FilterParamsIdempotent | caikit_nlp/modules/text_generation/peft_prompt_tuning.py:946-947 | Filtering the kept parameters again keeps all of them and drops nothing. |
| TuningConfigBuilder.CreateHfTuningConfig | caikit_nlp/modules/text_generation/peft_prompt_tuning.py:834-879 | Success iff num_virtual_tokens is truthy and an int, the task type is known, and the submodule count succeeded. Errors come in that order, the first being NLP11369136E. The config class follows the tuning type. The parameters hold only declared fields: the state-dict path equals the source model, the tokenizer and submodule count are set, the init method is copied when truthy, and every other tuning-config entry is kept iff declared, with its value. |
| SubmoduleCountFlow.Seq2SeqCountPassesExportRangeCheck | caikit_nlp/resources/pretrained_model/hf_auto_seq2seq_lm.py:64-72 | A config built with the encoder-decoder resource's count records a count in [1, 2]. A model configured from it never fails the exporter's range check. |
| Training.FilterTrainingArguments | caikit_nlp/modules/text_generation/peft_prompt_tuning.py:414-427 | Kept arguments are the allowed entries with unchanged values; extra names are all the others. The two are disjoint and cover the keys. The warning is logged iff some key is not allowed. |
| Training.FilterTrainingArgumentsIdempotent | caikit_nlp/modules/text_generation/peft_prompt_tuning.py:414-416 | The kept arguments pass the allow-list again whole and without a warning. |
| Training.KeptLossHistory | caikit_nlp/modules/text_generation/peft_prompt_tuning.py:487-518 | With an accelerator, the loss history is rank 0's entry of the per-rank map; a missing rank 0 is an error. Without one, it is the in-process history. |
| Training.KeptHistoryIgnoresOtherRanks | caikit_nlp/modules/text_generation/peft_prompt_tuning.py:505-508 | Two per-rank maps that agree on rank 0 keep the same history, whatever the other ranks recorded. |
| Training.SanitizeConfig | caikit_nlp/modules/text_generation/peft_prompt_tuning.py:520-527 | The snapshot loses `_name_or_path` and keeps every other entry. Deleting a missing key is a KeyError. |
| Training.Train | caikit_nlp/modules/text_generation/peft_prompt_tuning.py:429-541 | Fewer than one epoch: no trainer launch, the untrained model, loss [] and the snapshot unchanged. Otherwise success iff the snapshot has `_name_or_path` and a loss history is available. A success carries the trained model, the snapshot without `_name_or_path`, and the kept (rank 0) loss history. The name, verbalizer, task type, tuning type and output types pass through. |
| Training.LaunchedRunsDropNameOrPath | caikit_nlp/modules/text_generation/peft_prompt_tuning.py:520-527 | A launched run never returns `_name_or_path`; the zero-epoch path keeps it when it was there. |
| DevicePrecision.ResolveDevice | caikit_nlp/modules/text_generation/peft_prompt_tuning.py:884-901 | `__DETECT__` becomes "cuda" when CUDA is available and None otherwise. Any other device is echoed. |
| DevicePrecision.ResolveDeviceIdempotent | caikit_nlp/modules/text_generation/peft_prompt_tuning.py:898-901 | Resolving a resolved device changes nothing. |
| DevicePrecision.ConvertPrecision | caikit_nlp/modules/text_generation/peft_prompt_tuning.py:976-985 | The warning is issued iff the dtype is bfloat16 and the device is "cpu" or bf16 is unsupported. A warned conversion yields float32; otherwise the dtype is unchanged. A bfloat16 result implies support and a non-cpu device. |
| DevicePrecision.ConvertPrecisionIdempotent | caikit_nlp/modules/text_generation/peft_prompt_tuning.py:976-984 | Converting again keeps the dtype and does not warn. |
| DevicePrecision.AfterLastDotSpec | caikit_nlp/modules/text_generation/peft_prompt_tuning.py:575-577 | The part after the last dot is a dot-free suffix, preceded by a dot when it is not the whole string. |
| DevicePrecision.TrainedDTypeStringRoundTrip | caikit_nlp/modules/text_generation/peft_prompt_tuning.py:574-577 | For a dot-free dtype name, the written `trained_torch_dtype` is that name, which `load` reads back. |
| PeftTypes.RoleFromValue | caikit_nlp/modules/text_generation/peft_prompt_tuning.py:686-689 | Looking an output type up by value finds a member with that value, and fails exactly when no member has it. |
| PeftTypes.TuningTypeFromValue | caikit_nlp/modules/text_generation/peft_prompt_tuning.py:698 | Looking a tuning type up by value finds a member with that value, and fails exactly when no member has it. |
| JsonNames.DecodeEncodeNameList | caikit_nlp/modules/text_generation/peft_prompt_tuning.py:578-580 | A list of names made only of printable ASCII characters other than quotes and backslashes, written as a JSON array, reads back as the same list. |
| JsonNames.EncodeDecodeNameList | caikit_nlp/modules/text_generation/peft_prompt_tuning.py:686-689 | Any string the reader accepts is exactly what the writer produces for the names read. |
| Persistence.LossLog | caikit_nlp/modules/text_generation/peft_prompt_tuning.py:614-629 | Without a loss entry there is no log. A non-list loss entry is the type error NLP60269855E. Otherwise there is one {"name": "loss", "data": v} record per loss value, in order. |
| Persistence.LossLogRoundTrip | caikit_nlp/modules/text_generation/peft_prompt_tuning.py:626-629 | Reading back the data of the log records gives the loss history. |
| Persistence.PromptFiles | caikit_nlp/modules/text_generation/peft_prompt_tuning.py:583-600 | A role's file is written under encoder.pt or decoder.pt iff its exported vector is present, and it holds that vector. No other file is written. |
| Persistence.Save | caikit_nlp/modules/text_generation/peft_prompt_tuning.py:553-631 | An export error is passed through. Otherwise save succeeds iff the loss log can be written, and the artifact's loss log is that log. |
| Persistence.ManifestKeys | caikit_nlp/modules/text_generation/peft_prompt_tuning.py:566-616 | The manifest holds every entry save writes. The two model paths are present exactly when the base model is saved. |
| Persistence.SaveRecordsPromptFiles | caikit_nlp/modules/text_generation/peft_prompt_tuning.py:583-597 | A role's manifest entry is its fixed file name when the role is listed, and "" otherwise. Exactly the listed roles' files are written, each holding the first num_virtual_tokens rows. |
| Persistence.SaveRecordsFixedEntries | caikit_nlp/modules/text_generation/peft_prompt_tuning.py:570-616 | training_logs is always training_logs.jsonl. has_base_model is the flag. trained_torch_dtype is the dtype string after its last dot. full_model_path and tokenizer_path are present iff the base model is saved, and then both are the bundled directory. |
| Persistence.SaveNamesLogItDoesNotWrite | caikit_nlp/modules/text_generation/peft_prompt_tuning.py:613-629 | Without a loss entry in the training metadata there is no loss log, yet the manifest's training_logs still names training_logs.jsonl. |
| Persistence.RequestedDType | caikit_nlp/modules/text_generation/peft_prompt_tuning.py:655-658 | An explicit dtype wins; otherwise the manifest's trained_torch_dtype is used. |
| Persistence.RolesFromValues | caikit_nlp/modules/text_generation/peft_prompt_tuning.py:686-689 | Each output type read back has the value read, in order. |
| Persistence.ReadMetadata | caikit_nlp/modules/text_generation/peft_prompt_tuning.py:686-699 | The output types are the decoded JSON list looked up by value, and the tuning type is looked up by value. Verbalizer, task type, base model name and base model config come back as stored. |
| Persistence.Load | caikit_nlp/modules/text_generation/peft_prompt_tuning.py:653-700 | Loading needs a truthy has_base_model and a causal-LM PEFT config. A falsy has_base_model is the value error NLP97275192E; a non-causal task is the not-implemented error NLP84249238E. The device is resolved and the requested dtype converted with the bfloat16 fallback. Both paths and the stored attributes come from the manifest, and training metadata is empty. |
| Persistence.RolesFromTheirNames | caikit_nlp/modules/text_generation/peft_prompt_tuning.py:686-689 | When every enum value equals its name, looking up the written names gives back the output types. |
| Persistence.SaveLoadRoundTrip | caikit_nlp/modules/text_generation/peft_prompt_tuning.py:634-700 | Preconditions: saved with the base model; a dtype name without a dot; no dtype override; a module whose task type is CAUSAL_LM and whose bundled PEFT config records that task type; enum values equal to names. Then load restores the output types in order, the tuning type, verbalizer, task type, base model name and config. Both paths are the bundled directory. The dtype is the trained one after the bfloat16 fallback. |
| Persistence.LoadWithoutBaseModelFails | caikit_nlp/modules/text_generation/peft_prompt_tuning.py:681-684 | An artifact saved without the base model does not load; the error is NLP97275192E. |
| Persistence.LoadNonCausalFails | caikit_nlp/modules/text_generation/peft_prompt_tuning.py:664-677 | A bundled model whose PEFT task type is not CAUSAL_LM fails with NLP84249238E. |
| Persistence.NonCausalModuleDoesNotReload | caikit_nlp/modules/text_generation/peft_prompt_tuning.py:664-677 | A module whose task type is not CAUSAL_LM, saved with its base model (whose PEFT config records that task type), fails to load with NLP84249238E. |
| Persistence.LoadNeedsValuesMatchingNames | caikit_nlp/modules/text_generation/peft_prompt_tuning.py:686-689 | If no output type has the value "ENCODER", an artifact listing the encoder does not load. Names are written but values are read. |

## Left out

- Text generation is left out: `run`, `run_stream_out` and verbalizer rendering. They delegate to generation helpers and the tokenizer.
- Tensor numerics are left out:
  - the PEFT embedding lookup;
  - the multitask prompt-encoder forward and its Hadamard product;
  - `.to(device)` moves and floating-point values.

  The extracted matrix is an input (`ExtractPromptVector` picks the field the tuning type reads).
- Training execution is left out:
  - `get_peft_model`, preprocessing, `collect_trainer_arguments`, `infer_max_steps`, `launch_training`;
  - the elastic launch itself and the temporary checkpoint directory;
  - the FSDP configuration, which depends on the GPU count;
  - `gradient_checkpointing_enable` and the `d_model` quirk.

  The trained model and the loss histories are inputs.
- File and library I/O is left out: `torch.save`, `save_pretrained`, `from_pretrained`, `ModuleSaver`/`ModuleConfig`, and writing JSON files. The manifest, prompt files and log records are values. The entries the module saver adds to the config itself are not modelled.
- `__del__`, CUDA cache clearing, `get_trainer` and `_get_collate_fn` are left out. They only release memory or build library objects.
- Runtime `type_check` calls are left out; Dafny's types subsume them. So is `_get_device` on integer device ids: devices are strings or absent.
- `str_to_torch_dtype` and `get_torch_dtype` are left out. A dtype is its attribute name, and the `torch.` string form is `DTypeString`.
- `get_peft_config` is not part of this model. It resolves the caller-facing arguments before `train` and lives in another file.
- Only the two tuning types the builder handles are modelled. The config-class choice covers only those.
- `load`'s JSON reader accepts only the layout `json.dumps` produces for a list of strings, `["A", "B"]`. General JSON parsing and escapes are not modelled.
- JsonNames.EncodeNameList: does not escape quotes or backslashes, and does not escape non-ASCII or control characters as `json.dumps` does. The round trip is stated for names of printable ASCII free of quotes and backslashes, which the enum names are.
- Persistence.Load: `ModuleConfig` attribute access on a missing entry is modelled as an `AttributeError` carrying the entry's name. The tokenizer and base model themselves are not loaded.
- Persistence.SaveLoadRoundTrip: requires the enum values to equal the names. The source writes names and reads values, and the enum definitions are not part of this model. The task type in the bundled PEFT config is an input of `load`; the round trip requires it to equal the module's task type, which holds when the model was built by `train` with that task type.
