/** Device resolution, the bfloat16 fallback applied when a model is moved to
    a device, and the portable dtype string written to the manifest. */
module DevicePrecision {
  import opened Wrappers
  import opened PeftTypes

  /** `_DETECT_DEVICE`: the sentinel requesting auto-detection. */
  const DetectDevice: string := "__DETECT__"

  /** `_get_device`: the sentinel becomes `"cuda"` when an accelerator is
      available and `None` otherwise; any other request is echoed unchanged.
      Integer device indices are not modelled. */
  function ResolveDevice(device: Option<string>, cudaAvailable: bool): (r: Option<string>)
    ensures device == Some(DetectDevice) ==> (r.Some? <==> cudaAvailable)
    ensures device == Some(DetectDevice) && cudaAvailable ==> r == Some("cuda")
    ensures device != Some(DetectDevice) ==> r == device
    ensures r != Some(DetectDevice)
  {
    if device == Some(DetectDevice) then
      (if cudaAvailable then Some("cuda") else None)
    else
      device
  }

  /** Resolving an already resolved device changes nothing. */
  lemma ResolveDeviceIdempotent(device: Option<string>, cudaAvailable: bool)
    ensures ResolveDevice(ResolveDevice(device, cudaAvailable), cudaAvailable)
         == ResolveDevice(device, cudaAvailable)
  {
  }

  /** The dtype chosen by `convert_peft_model_to_type`, and whether the
      fallback warning is logged. */
  datatype Precision = Precision(dtype: DType, warned: bool)

  /** bfloat16 on the `"cpu"` device, or without accelerator bfloat16
      support, falls back to float32 with a warning; every other dtype is
      kept. Resolving a dtype given as a string is not part of this model. */
  function ConvertPrecision(device: Option<string>, dtype: DType, bf16Supported: bool): (r: Precision)
    ensures r.warned <==> dtype == BFloat16 && (device == Some("cpu") || !bf16Supported)
    ensures r.warned ==> r.dtype == Float32
    ensures !r.warned ==> r.dtype == dtype
    ensures r.dtype == BFloat16 ==> device != Some("cpu") && bf16Supported
  {
    if dtype == BFloat16 && (device == Some("cpu") || !bf16Supported) then
      Precision(Float32, true)
    else
      Precision(dtype, false)
  }

  /** Converting a second time keeps the first conversion's dtype and warns no more. */
  lemma ConvertPrecisionIdempotent(device: Option<string>, dtype: DType, bf16Supported: bool)
    ensures var once := ConvertPrecision(device, dtype, bf16Supported).dtype;
            ConvertPrecision(device, once, bf16Supported) == Precision(once, false)
  {
  }

  /** `s.rsplit(".", maxsplit=1)[-1]`: the part of `s` after its last dot,
      or all of `s` when it has none. */
  function AfterLastDot(s: string): string
    decreases |s|
  {
    if |s| == 0 then ""
    else if s[|s| - 1] == '.' then ""
    else AfterLastDot(s[..|s| - 1]) + [s[|s| - 1]]
  }

  /** What `AfterLastDot` keeps: a dot-free suffix of `s`, preceded by a dot
      when it is not all of `s`. */
  lemma {:induction false} AfterLastDotSpec(s: string)
    ensures var r := AfterLastDot(s);
            && '.' !in r
            && |r| <= |s| && r == s[|s| - |r|..]
            && (|r| < |s| ==> s[|s| - |r| - 1] == '.')
    decreases |s|
  {
    if |s| > 0 && s[|s| - 1] != '.' {
      var p := s[..|s| - 1];
      AfterLastDotSpec(p);
      var q := AfterLastDot(p);
      assert AfterLastDot(s) == q + [s[|s| - 1]];
      assert p[|p| - |q|..] + [s[|s| - 1]] == s[|s| - |q| - 1..];
    }
  }

  /** The manifest's `trained_torch_dtype`. */
  function TrainedDTypeString(d: DType): string
  {
    AfterLastDot(DTypeString(d))
  }

  /** The manifest string of a dtype is its attribute name, so reading it
      back names the same dtype. */
  lemma {:induction false} TrainedDTypeStringRoundTrip(d: DType)
    requires '.' !in d.name
    ensures TrainedDTypeString(d) == d.name
  {
    var s := DTypeString(d);
    AfterLastDotSpec(s);
    var r := AfterLastDot(s);
    var k := |s| - |d.name|;
    assert s[k - 1] == '.';
    assert s[k..] == d.name;
  }
}
