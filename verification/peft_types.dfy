/** The data model shared by the prompt-tuning components: the two closed
    enums, the JSON-like values that configs and manifests hold, the error
    kinds, the prompt-bearing model and the trained module. */
module PeftTypes {
  import opened Wrappers

  /** `PromptOutputModelType`: the transformer submodule role that receives a
      trained prompt. */
  datatype PromptOutputModelType = Encoder | Decoder

  /** The member's `.name`. */
  function RoleName(t: PromptOutputModelType): string
  {
    match t
    case Encoder => "ENCODER"
    case Decoder => "DECODER"
  }

  /** The tuning variants the module implements. */
  datatype TuningType = PromptTuning | MultitaskPromptTuning

  /** The member's `.name`. */
  function TuningTypeName(t: TuningType): string
  {
    match t
    case PromptTuning => "PROMPT_TUNING"
    case MultitaskPromptTuning => "MULTITASK_PROMPT_TUNING"
  }

  /** The `.value` of every enum member. `Enum(x)` looks members up by value,
      and the data-model module that declares the values is not part of this
      model, so they are carried as data. */
  datatype EnumValues = EnumValues(
    encoder: string,
    decoder: string,
    promptTuning: string,
    multitask: string)

  function RoleValue(ev: EnumValues, t: PromptOutputModelType): string
  {
    match t
    case Encoder => ev.encoder
    case Decoder => ev.decoder
  }

  function TuningTypeValue(ev: EnumValues, t: TuningType): string
  {
    match t
    case PromptTuning => ev.promptTuning
    case MultitaskPromptTuning => ev.multitask
  }

  /** Every member's value equals its name. */
  predicate ValuesAreNames(ev: EnumValues)
  {
    && ev.encoder == RoleName(Encoder)
    && ev.decoder == RoleName(Decoder)
    && ev.promptTuning == TuningTypeName(PromptTuning)
    && ev.multitask == TuningTypeName(MultitaskPromptTuning)
  }

  /** `PromptOutputModelType(s)`: the first member whose value is `s`. */
  function RoleFromValue(ev: EnumValues, s: string): (r: Option<PromptOutputModelType>)
    ensures r.Some? ==> RoleValue(ev, r.value) == s
    ensures r.None? <==> forall t :: RoleValue(ev, t) != s
  {
    if ev.encoder == s then Some(Encoder)
    else if ev.decoder == s then Some(Decoder)
    else None
  }

  /** `TuningType(s)`: the first member whose value is `s`. */
  function TuningTypeFromValue(ev: EnumValues, s: string): (r: Option<TuningType>)
    ensures r.Some? ==> TuningTypeValue(ev, r.value) == s
    ensures r.None? <==> forall t :: TuningTypeValue(ev, t) != s
  {
    if ev.promptTuning == s then Some(PromptTuning)
    else if ev.multitask == s then Some(MultitaskPromptTuning)
    else None
  }

  /** A JSON-like Python value, as held by config dictionaries and manifests.
      Floating-point numbers are abstracted as reals. */
  datatype Value =
    | Null
    | Bool(b: bool)
    | Int(i: int)
    | Real(x: real)
    | Str(s: string)
    | List(items: seq<Value>)
    | Obj(fields: map<string, Value>)

  /** Python truthiness. */
  predicate Truthy(v: Value)
  {
    match v
    case Null => false
    case Bool(b) => b
    case Int(i) => i != 0
    case Real(x) => x != 0.0
    case Str(s) => s != ""
    case List(xs) => xs != []
    case Obj(m) => m != map[]
  }

  /** `isinstance(v, int)`; Python's `bool` is a subclass of `int`. */
  predicate IsPyInt(v: Value)
  {
    v.Int? || v.Bool?
  }

  /** `d.get(k)`, and also an attribute of a dataclass whose field is unset. */
  function Get(m: map<string, Value>, k: string): Value
  {
    if k in m then m[k] else Null
  }

  /** The exceptions the modelled code raises, tagged with the source's error
      code where it has one. */
  datatype Error =
    | ValueError(code: string)
    | TypeError(code: string)
    | KeyError(key: string)
    | AttributeError(name: string)
    | NotImplemented(code: string)

  /** A torch dtype, identified by its attribute name in the `torch` namespace. */
  datatype DType = DType(name: string)

  const Float32: DType := DType("float32")
  const BFloat16: DType := DType("bfloat16")

  /** `str(dtype)`, e.g. `torch.float32`. */
  function DTypeString(d: DType): string
  {
    "torch." + d.name
  }

  /** The PEFT model as far as this module looks at it: the adapter's
      configured sizes, the two variant-specific prompt extractions
      (the saved prompt embedding for prompt tuning, the prompt encoder's
      forward pass for task 0 for multi-task prompt tuning), and the dtype. */
  datatype PeftModel<Row> = PeftModel(
    numTransformerSubmodules: int,
    numVirtualTokens: int,
    savedPromptEmbedding: seq<Row>,
    promptEncoderOutput: seq<Row>,
    dtype: DType)

  /** The state held by a `PeftPromptTuning` instance. The tokenizer is
      outside the model; its end-of-sequence token is passed where needed. */
  datatype PromptTuningModule<Row> = PromptTuningModule(
    model: PeftModel<Row>,
    baseModelConfig: map<string, Value>,
    baseModelName: string,
    verbalizer: string,
    taskType: string,
    tuningType: TuningType,
    outputModelTypes: seq<PromptOutputModelType>,
    trainingMetadata: map<string, Value>)
}
