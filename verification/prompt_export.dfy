/** Extraction and validation of the trained prompt vectors, and their
    split into the per-role tensors that are exported. */
module PromptExport {
  import opened Wrappers
  import opened PeftTypes

  /** The error codes of the two shape checks. */
  const SubmoduleRangeError: string := "<NLP83837722E>"
  const RowMismatchError: string := "<NLP83444722E>"

  /** The exported tensors, keyed by role; `None` marks a role that is not
      exported. */
  type PromptDict<Row> = map<PromptOutputModelType, Option<seq<Row>>>

  /** The dictionary the exporter starts from: both roles absent. */
  function EmptyPromptDict<Row>(): PromptDict<Row>
  {
    map[Encoder := None, Decoder := None]
  }

  /** The prompt matrix of the given variant: the saved prompt embedding for
      prompt tuning; for multi-task prompt tuning the prompt encoder's output
      for task 0, which is the element-wise product of the shared prompt and
      that task's learned component. The tensor computations themselves are
      inputs to this model. */
  function ExtractPromptVector<Row>(model: PeftModel<Row>, tuningType: TuningType): seq<Row>
  {
    match tuningType
    case PromptTuning => model.savedPromptEmbedding
    case MultitaskPromptTuning => model.promptEncoderOutput
  }

  /** The loop that stores `prefix` under every listed role, in list order. */
  function AssignRoles<Row>(dict: PromptDict<Row>, types: seq<PromptOutputModelType>, prefix: seq<Row>): PromptDict<Row>
    decreases |types|
  {
    if types == [] then dict
    else AssignRoles(dict[types[0] := Some(prefix)], types[1..], prefix)
  }

  /** After the loop, a listed role holds `prefix` and every other key keeps
      its value; no other key is added. */
  lemma {:induction false} AssignRolesSpec<Row>(dict: PromptDict<Row>, types: seq<PromptOutputModelType>, prefix: seq<Row>)
    ensures AssignRoles(dict, types, prefix).Keys == dict.Keys + (set t | t in types)
    ensures forall t :: t in types ==> AssignRoles(dict, types, prefix)[t] == Some(prefix)
    ensures forall t :: t in dict && t !in types ==> AssignRoles(dict, types, prefix)[t] == dict[t]
    decreases |types|
  {
    if types != [] {
      var next := dict[types[0] := Some(prefix)];
      AssignRolesSpec(next, types[1..], prefix);
      assert forall t :: t in types <==> t == types[0] || t in types[1..];
    }
  }

  /** A dictionary holding both role keys holds every role. */
  lemma HoldsBothRoles<V>(m: map<PromptOutputModelType, V>)
    requires Encoder in m && Decoder in m
    ensures forall t :: t in m
    ensures m.Keys == {Encoder, Decoder}
  {
    forall t ensures t in m && t in {Encoder, Decoder} {
      match t
      case Encoder =>
      case Decoder =>
    }
  }

  /** `get_exportable_prompt_vectors`. The submodule count must lie in
      `[1, 2]`, checked before anything is extracted; the extracted matrix
      must have exactly `numTransformerSubmodules * numVirtualTokens` rows;
      then every listed role receives the first `numVirtualTokens` rows and
      every other role is `None`. The result always has exactly the two role
      keys. */
  function ExportPromptVectors<Row>(model: PeftModel<Row>, tuningType: TuningType, types: seq<PromptOutputModelType>)
    : (r: Result<PromptDict<Row>, Error>)
    ensures !(1 <= model.numTransformerSubmodules <= 2) ==> r == Err(ValueError(SubmoduleRangeError))
    ensures 1 <= model.numTransformerSubmodules <= 2 ==>
              (r.Ok? <==> |ExtractPromptVector(model, tuningType)|
                          == model.numTransformerSubmodules * model.numVirtualTokens)
    ensures 1 <= model.numTransformerSubmodules <= 2
            && |ExtractPromptVector(model, tuningType)| != model.numTransformerSubmodules * model.numVirtualTokens
            ==> r == Err(ValueError(RowMismatchError))
    ensures r.Err? ==> r.error in {ValueError(SubmoduleRangeError), ValueError(RowMismatchError)}
    ensures r.Ok? ==> r.value.Keys == {Encoder, Decoder}
    ensures r.Ok? ==> 0 <= model.numVirtualTokens <= |ExtractPromptVector(model, tuningType)|
    ensures r.Ok? ==> forall t :: (t in r.value && r.value[t] ==
              (if t in types then Some(ExtractPromptVector(model, tuningType)[..model.numVirtualTokens]) else None))
  {
    var s := model.numTransformerSubmodules;
    var n := model.numVirtualTokens;
    if !(1 <= s <= 2) then Err(ValueError(SubmoduleRangeError))
    else
      var rows := ExtractPromptVector(model, tuningType);
      if |rows| != s * n then Err(ValueError(RowMismatchError))
      else
        assert s == 1 || s == 2;
        assert 0 <= n <= |rows|;
        var prefix := rows[..n];
        AssignRolesSpec(EmptyPromptDict(), types, prefix);
        var d := AssignRoles(EmptyPromptDict(), types, prefix);
        HoldsBothRoles(d);
        assert forall t :: t in d && d[t] == (if t in types then Some(prefix) else None);
        Ok(d)
  }

  /** The exported dictionary is never empty, so the non-emptiness check
      made on it before saving cannot fail. */
  lemma ExportedDictIsNeverEmpty<Row>(model: PeftModel<Row>, tuningType: TuningType, types: seq<PromptOutputModelType>)
    ensures ExportPromptVectors(model, tuningType, types).Ok? ==>
              ExportPromptVectors(model, tuningType, types).value != map[]
  {
    var r := ExportPromptVectors(model, tuningType, types);
    if r.Ok? {
      assert Encoder in r.value;
    }
  }

  /** Every exported tensor has `numVirtualTokens` rows and is the first
      submodule's block of the matrix: with one submodule it is the whole
      matrix, with two the matrix is that block followed by the second one. */
  lemma ExportedTensorsAreFirstBlock<Row>(model: PeftModel<Row>, tuningType: TuningType, types: seq<PromptOutputModelType>, t: PromptOutputModelType)
    requires ExportPromptVectors(model, tuningType, types).Ok?
    requires t in types
    ensures var v := ExportPromptVectors(model, tuningType, types).value[t];
            var rows := ExtractPromptVector(model, tuningType);
            && v.Some?
            && |v.value| == model.numVirtualTokens
            && (model.numTransformerSubmodules == 1 ==> v.value == rows)
            && (model.numTransformerSubmodules == 2 ==> rows == v.value + rows[model.numVirtualTokens..])
  {
  }

  /** When both roles are listed they receive the same tensor. */
  lemma BothRolesShareThePrefix<Row>(model: PeftModel<Row>, tuningType: TuningType, types: seq<PromptOutputModelType>)
    requires ExportPromptVectors(model, tuningType, types).Ok?
    requires Encoder in types && Decoder in types
    ensures ExportPromptVectors(model, tuningType, types).value[Encoder]
         == ExportPromptVectors(model, tuningType, types).value[Decoder]
  {
  }
}
