/** Reading the proposed weights out of the optimiser's keyword arguments
    (`sd_target_function(**params)`). */
module WeightSchema {
  import opened Wrappers
  import opened Text

  /** Number of mergeable UNet blocks (12 input, 1 middle, 12 output), as the merger defines it. */
  const NUM_TOTAL_BLOCKS: nat := 25

  /** The two merge modes that blend along a second ("beta") axis. */
  predicate HasBeta(mergeMode: string) {
    mergeMode in ["sum_twice", "triple_sum"]
  }

  /** The parameter name `f"block_{i}"` followed by `suffix` (empty, or `"_beta"`). */
  function BlockKey(i: nat, suffix: string): string {
    "block_" + NatToString(i) + suffix
  }

  function BlockKeys(suffix: string): (r: seq<string>)
    ensures |r| == NUM_TOTAL_BLOCKS
    ensures forall i :: 0 <= i < |r| ==> r[i] == BlockKey(i, suffix)
  {
    seq(NUM_TOTAL_BLOCKS, (i: int) requires 0 <= i => BlockKey(i, suffix))
  }

  /** Every key the source reads, in the order it reads them. */
  function RequiredKeys(hasBeta: bool): seq<string> {
    BlockKeys("") + ["base_alpha"] + (if hasBeta then ["base_beta"] + BlockKeys("_beta") else [])
  }

  /** `k` is the first key of `keys` missing from `params`: the one whose lookup raises `KeyError`. */
  ghost predicate FirstMissing(params: map<string, real>, keys: seq<string>, k: string) {
    exists i :: 0 <= i < |keys| && keys[i] == k && k !in params &&
      forall j :: 0 <= j < i ==> keys[j] in params
  }

  ghost predicate AllPresent(params: map<string, real>, keys: seq<string>) {
    forall i :: 0 <= i < |keys| ==> keys[i] in params
  }

  /** `[params[k] for k in keys]`, failing on the first missing key. */
  function LookupAll(params: map<string, real>, keys: seq<string>): (r: Result<seq<real>, string>)
    ensures r.Ok? <==> AllPresent(params, keys)
    ensures r.Ok? ==> |r.value| == |keys|
    ensures r.Ok? ==> forall i :: 0 <= i < |keys| ==> keys[i] in params && r.value[i] == params[keys[i]]
    ensures r.Err? ==> FirstMissing(params, keys, r.error)
    decreases |keys|
  {
    if |keys| == 0 then Ok([])
    else if keys[0] !in params then Err(keys[0])
    else
      match LookupAll(params, keys[1..])
      case Err(k) =>
        assert FirstMissing(params, keys[1..], k);
        var i :| 0 <= i < |keys[1..]| && keys[1..][i] == k && k !in params &&
          forall j :: 0 <= j < i ==> keys[1..][j] in params;
        assert keys[i + 1] == k && forall j :: 0 <= j < i + 1 ==> keys[j] in params;
        Err(k)
      case Ok(vs) =>
        assert forall i :: 1 <= i < |keys| ==> keys[i] == keys[1..][i - 1];
        Ok([params[keys[0]]] + vs)
  }

  lemma FirstMissingPrefix(params: map<string, real>, a: seq<string>, b: seq<string>, k: string)
    requires FirstMissing(params, a, k)
    ensures FirstMissing(params, a + b, k)
  {
    var i :| 0 <= i < |a| && a[i] == k && k !in params && forall j :: 0 <= j < i ==> a[j] in params;
    assert (a + b)[i] == k && forall j :: 0 <= j < i ==> (a + b)[j] in params;
  }

  lemma FirstMissingSuffix(params: map<string, real>, a: seq<string>, b: seq<string>, k: string)
    requires AllPresent(params, a) && FirstMissing(params, b, k)
    ensures FirstMissing(params, a + b, k)
  {
    var i :| 0 <= i < |b| && b[i] == k && k !in params && forall j :: 0 <= j < i ==> b[j] in params;
    assert (a + b)[|a| + i] == k;
    forall j | 0 <= j < |a| + i ensures (a + b)[j] in params {
      if j >= |a| { assert (a + b)[j] == b[j - |a|]; }
    }
  }

  lemma AllPresentAppend(params: map<string, real>, a: seq<string>, b: seq<string>)
    ensures AllPresent(params, a + b) <==> AllPresent(params, a) && AllPresent(params, b)
  {
    if AllPresent(params, a) && AllPresent(params, b) {
      forall i | 0 <= i < |a + b| ensures (a + b)[i] in params {
        if i >= |a| { assert (a + b)[i] == b[i - |a|]; }
      }
    }
    if AllPresent(params, a + b) {
      forall i | 0 <= i < |b| ensures b[i] in params { assert (a + b)[|a| + i] == b[i]; }
      forall i | 0 <= i < |a| ensures a[i] in params { assert (a + b)[i] == a[i]; }
    }
  }

  /** The weight vector `sd_target_function` hands to the merger. */
  datatype Weights = Weights(alpha: seq<real>, baseAlpha: real, beta: Option<seq<real>>, baseBeta: Option<real>)

  ghost predicate BlocksRead(params: map<string, real>, ws: seq<real>, suffix: string) {
    |ws| == NUM_TOTAL_BLOCKS &&
    forall i :: 0 <= i < NUM_TOTAL_BLOCKS ==> BlockKey(i, suffix) in params && ws[i] == params[BlockKey(i, suffix)]
  }

  /** `[params[f"block_{i}{suffix}"] for i in range(NUM_TOTAL_BLOCKS)]`, failing on the first
      missing key. */
  function ReadBlocks(params: map<string, real>, suffix: string): (r: Result<seq<real>, string>)
    ensures r.Ok? ==> BlocksRead(params, r.value, suffix)
    ensures r.Ok? <==> AllPresent(params, BlockKeys(suffix))
    ensures r.Err? ==> FirstMissing(params, BlockKeys(suffix), r.error)
  {
    LookupAll(params, BlockKeys(suffix))
  }

  /** The parameter reads at the start of `sd_target_function`: the per-block alpha weights,
      `base_alpha`, and the beta values only in a two-axis merge mode (`None` otherwise). A missing key raises `KeyError`,
      modelled as `Err(key)` naming the key whose lookup failed. */
  function ExtractWeights(params: map<string, real>, hasBeta: bool): (r: Result<Weights, string>)
    ensures r.Ok? ==> BlocksRead(params, r.value.alpha, "")
    ensures r.Ok? ==> "base_alpha" in params && r.value.baseAlpha == params["base_alpha"]
    ensures r.Ok? ==> (r.value.beta.Some? <==> hasBeta) && (r.value.baseBeta.Some? <==> hasBeta)
    ensures r.Ok? && hasBeta ==> BlocksRead(params, r.value.beta.value, "_beta")
    ensures r.Ok? && hasBeta ==> "base_beta" in params && r.value.baseBeta.value == params["base_beta"]
  {
    match ReadBlocks(params, "")
    case Err(k) => Err(k)
    case Ok(alpha) =>
      if "base_alpha" !in params then Err("base_alpha")
      else if !hasBeta then Ok(Weights(alpha, params["base_alpha"], None, None))
      else if "base_beta" !in params then Err("base_beta")
      else
        match ReadBlocks(params, "_beta")
        case Err(k) => Err(k)
        case Ok(beta) => Ok(Weights(alpha, params["base_alpha"], Some(beta), Some(params["base_beta"])))
  }

  lemma FirstMissingHead(params: map<string, real>, k: string, rest: seq<string>)
    requires k !in params
    ensures FirstMissing(params, [k] + rest, k)
  {
    assert ([k] + rest)[0] == k;
  }

  /** The call fails exactly when a key the source reads is missing. */
  lemma ExtractWeightsSucceeds(params: map<string, real>, hasBeta: bool)
    ensures ExtractWeights(params, hasBeta).Ok? <==> AllPresent(params, RequiredKeys(hasBeta))
  {
    var alphaKeys, betaKeys := BlockKeys(""), BlockKeys("_beta");
    var tail := if hasBeta then ["base_beta"] + betaKeys else [];
    var rest := ["base_alpha"] + tail;
    assert RequiredKeys(hasBeta) == alphaKeys + rest;
    AllPresentAppend(params, alphaKeys, rest);
    AllPresentAppend(params, ["base_alpha"], tail);
    AllPresentAppend(params, ["base_beta"], betaKeys);
    assert AllPresent(params, ["base_alpha"]) <==> ["base_alpha"][0] in params;
    assert AllPresent(params, ["base_beta"]) <==> ["base_beta"][0] in params;
  }

  /** A failing call names the first missing key in reading order: alpha blocks, `base_alpha`,
      `base_beta`, beta blocks. */
  lemma ExtractWeightsFailure(params: map<string, real>, hasBeta: bool)
    ensures ExtractWeights(params, hasBeta).Err? ==>
      FirstMissing(params, RequiredKeys(hasBeta), ExtractWeights(params, hasBeta).error)
  {
    var alphaKeys, betaKeys := BlockKeys(""), BlockKeys("_beta");
    var tail := if hasBeta then ["base_beta"] + betaKeys else [];
    var rest := ["base_alpha"] + tail;
    assert RequiredKeys(hasBeta) == alphaKeys + rest;
    var la := ReadBlocks(params, "");
    if la.Err? {
      assert ExtractWeights(params, hasBeta) == Err(la.error);
      FirstMissingPrefix(params, alphaKeys, rest, la.error);
    } else if "base_alpha" !in params {
      assert ExtractWeights(params, hasBeta) == Err("base_alpha");
      FirstMissingHead(params, "base_alpha", tail);
      FirstMissingSuffix(params, alphaKeys, rest, "base_alpha");
    } else if hasBeta {
      assert AllPresent(params, ["base_alpha"]) by { assert ["base_alpha"][0] in params; }
      if "base_beta" !in params {
        assert ExtractWeights(params, hasBeta) == Err("base_beta");
        FirstMissingHead(params, "base_beta", betaKeys);
        FirstMissingSuffix(params, ["base_alpha"], tail, "base_beta");
        FirstMissingSuffix(params, alphaKeys, rest, "base_beta");
      } else {
        var lb := ReadBlocks(params, "_beta");
        if lb.Err? {
          assert ExtractWeights(params, hasBeta) == Err(lb.error);
          assert AllPresent(params, ["base_beta"]) by { assert ["base_beta"][0] in params; }
          FirstMissingSuffix(params, ["base_beta"], betaKeys, lb.error);
          FirstMissingSuffix(params, ["base_alpha"], tail, lb.error);
          FirstMissingSuffix(params, alphaKeys, rest, lb.error);
        }
      }
    }
  }
}
