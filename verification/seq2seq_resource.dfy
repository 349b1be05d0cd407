/** The encoder-decoder base-model resource's submodule count: how many
    transformer submodules receive a prompt for a list of output roles. */
module Seq2SeqResource {
  import opened Wrappers
  import opened PeftTypes

  /** `MAX_NUM_TRANSFORMERS`. */
  const MaxNumTransformers: int := 2

  /** The error code of the range check. */
  const SubmoduleCountError: string := "<NLP71505742E>"

  function Indicator(b: bool): int
  {
    if b then 1 else 0
  }

  /** The distinct roles a list of output model types mentions. */
  function RolesIn(types: seq<PromptOutputModelType>): set<PromptOutputModelType>
  {
    set t | t in types
  }

  /** `get_num_transformers_submodules`: one for ENCODER if listed, one for
      DECODER if listed; fails unless the count is in `1..MAX_NUM_TRANSFORMERS`.
      The count never exceeds two, so the only failing input is a list that
      mentions neither role. */
  function NumTransformerSubmodules(types: seq<PromptOutputModelType>): (r: Result<int, Error>)
    ensures r.Ok? <==> Encoder in types || Decoder in types
    ensures r.Ok? <==> types != []
    ensures r.Err? ==> r.error == ValueError(SubmoduleCountError)
    ensures r.Ok? ==> 1 <= r.value <= MaxNumTransformers
  {
    var n := Indicator(Encoder in types) + Indicator(Decoder in types);
    assert types != [] ==> Encoder in types || Decoder in types by {
      if types != [] {
        assert types[0] in types;
        if types[0].Encoder? { assert types[0] == Encoder; } else { assert types[0] == Decoder; }
      }
    }
    if 0 < n <= MaxNumTransformers then Ok(n) else Err(ValueError(SubmoduleCountError))
  }

  /** The count is the number of distinct roles listed. */
  lemma CountIsDistinctRoles(types: seq<PromptOutputModelType>)
    ensures NumTransformerSubmodules(types).Ok? ==> NumTransformerSubmodules(types).value == |RolesIn(types)|
  {
    var e, d := Encoder in types, Decoder in types;
    if e && d {
      assert Encoder in RolesIn(types) && Decoder in RolesIn(types);
      forall t | t in RolesIn(types) ensures t in {Encoder, Decoder} {
        if t.Encoder? { assert t == Encoder; } else { assert t == Decoder; }
      }
      assert RolesIn(types) == {Encoder, Decoder};
    } else if e {
      forall t | t in RolesIn(types) ensures t == Encoder {
        assert t in types;
      }
      assert RolesIn(types) == {Encoder};
    } else if d {
      forall t | t in RolesIn(types) ensures t == Decoder {
        assert t in types;
      }
      assert RolesIn(types) == {Decoder};
    }
  }

  /** Duplicates and ordering do not matter: only membership does. */
  lemma CountDependsOnlyOnMembership(a: seq<PromptOutputModelType>, b: seq<PromptOutputModelType>)
    requires RolesIn(a) == RolesIn(b)
    ensures NumTransformerSubmodules(a) == NumTransformerSubmodules(b)
  {
    assert Encoder in a <==> Encoder in RolesIn(a);
    assert Decoder in a <==> Decoder in RolesIn(a);
    assert Encoder in b <==> Encoder in RolesIn(b);
    assert Decoder in b <==> Decoder in RolesIn(b);
  }
}
