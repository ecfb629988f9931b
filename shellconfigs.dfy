/**
 * The model configuration (`ShellConfig`) and the feed-forward block's
 * construction-time choices (`ShellMLP.__init__`).
 */
module ShellConfigs {
  import opened Wrappers

  /**
   * The configuration fields the core reads. `quantize` and `transpose` are
   * runtime flags that the model loader sets after parsing the configuration.
   */
  datatype ShellConfig = ShellConfig(
    hiddenSize: nat,
    intermediateSize: nat,
    numHiddenLayers: nat,
    numAttentionHeads: nat,
    numKeyValueHeads: nat,
    hiddenAct: string,
    quantize: Option<string>,
    transpose: bool)

  /**
   * `ShellConfig.__init__` restricted to the fields above: an omitted
   * `num_key_value_heads` falls back to `num_attention_heads` (plain
   * multi-head attention); every other field is stored as given.
   */
  function NewShellConfig(hiddenSize: nat, intermediateSize: nat, numHiddenLayers: nat,
                          numAttentionHeads: nat, numKeyValueHeads: Option<nat>, hiddenAct: string,
                          quantize: Option<string>, transpose: bool): (c: ShellConfig)
    ensures numKeyValueHeads == None ==> c.numKeyValueHeads == c.numAttentionHeads
    ensures numKeyValueHeads.Some? ==> c.numKeyValueHeads == numKeyValueHeads.value
    ensures c.hiddenSize == hiddenSize && c.intermediateSize == intermediateSize
    ensures c.numHiddenLayers == numHiddenLayers && c.numAttentionHeads == numAttentionHeads
    ensures c.hiddenAct == hiddenAct && c.quantize == quantize && c.transpose == transpose
  {
    var kvHeads := if numKeyValueHeads.None? then numAttentionHeads else numKeyValueHeads.value;
    ShellConfig(hiddenSize, intermediateSize, numHiddenLayers, numAttentionHeads, kvHeads,
                hiddenAct, quantize, transpose)
  }

  /** The configuration built from the constructor's default arguments. */
  function DefaultShellConfig(quantize: Option<string>, transpose: bool): ShellConfig {
    NewShellConfig(4096, 16384, 42, 32, None, "gelu_pytorch_tanh", quantize, transpose)
  }

  /** `t` occurs in `s` starting at index `i`. */
  ghost predicate OccursAt(s: string, t: string, i: nat) {
    i + |t| <= |s| && s[i..i + |t|] == t
  }

  /** Python's `t in s` on strings. */
  predicate ContainsSubstring(s: string, t: string)
    ensures |t| == 0 ==> ContainsSubstring(s, t)
    decreases |s|
  {
    (|t| <= |s| && s[..|t|] == t) || (0 < |s| && ContainsSubstring(s[1..], t))
  }

  /** The recursive test agrees with "occurs at some index", in both directions. */
  lemma {:induction false} ContainsSubstringIff(s: string, t: string)
    ensures ContainsSubstring(s, t) <==> exists i: nat :: OccursAt(s, t, i)
    decreases |s|
  {
    if |t| <= |s| && s[..|t|] == t {
      assert OccursAt(s, t, 0);
    } else if 0 < |s| {
      ContainsSubstringIff(s[1..], t);
      if ContainsSubstring(s[1..], t) {
        var i: nat :| OccursAt(s[1..], t, i);
        assert s[1..][i..i + |t|] == s[i + 1..i + 1 + |t|];
        assert OccursAt(s, t, i + 1);
      }
      if i: nat :| OccursAt(s, t, i) {
        assert i != 0;
        assert s[1..][i - 1..i - 1 + |t|] == s[i..i + |t|];
        assert OccursAt(s[1..], t, i - 1);
      }
    }
  }

  /** The `approximate` argument given to GeLU. */
  datatype GeluApproximation = Tanh | NoApproximation

  /** The activation `ShellMLP` applies between its two projections. */
  datatype Activation =
    | Gelu(approximate: GeluApproximation)   // torch.nn.functional.gelu
    | Registered(name: string)               // ACT2FN[name]

  /**
   * The activation choice of `ShellMLP.__init__`: any name containing
   * "gelu" selects GeLU, tanh-approximated exactly for `gelu_fast` and
   * `gelu_pytorch_tanh`; any other name is looked up in the activation
   * table `registry`, and a name the table lacks raises KeyError.
   */
  function SelectActivation(act: string, registry: set<string>): (r: Result<Activation>)
    ensures (r.Ok? && r.value.Gelu?) <==> exists i: nat :: OccursAt(act, "gelu", i)
    ensures r == Ok(Gelu(Tanh)) <==> act == "gelu_fast" || act == "gelu_pytorch_tanh"
    ensures r.Ok? && r.value.Registered? ==> r.value.name == act && act in registry
    ensures r.Err? <==> (!(exists i: nat :: OccursAt(act, "gelu", i)) && act !in registry)
    ensures r.Err? ==> r.error == KeyError
  {
    ContainsSubstringIff(act, "gelu");
    assert OccursAt("gelu_fast", "gelu", 0);
    assert OccursAt("gelu_pytorch_tanh", "gelu", 0);
    if !ContainsSubstring(act, "gelu") then
      if act in registry then Ok(Registered(act)) else Err(KeyError)
    else
      Ok(Gelu(if act in ["gelu_fast", "gelu_pytorch_tanh"] then Tanh else NoApproximation))
  }

  /** The construction-time state of `ShellMLP` that is not a weight. */
  datatype ShellMlp = ShellMlp(act: Activation, intermediateSize: nat)

  /**
   * `ShellMLP.__init__`: the activation is chosen first (a KeyError stops
   * construction), and each shard keeps `intermediate_size // world_size`.
   */
  function NewShellMlp(config: ShellConfig, registry: set<string>, worldSize: nat): (r: Result<ShellMlp>)
    requires 0 < worldSize
    ensures r.Ok? <==> SelectActivation(config.hiddenAct, registry).Ok?
    ensures r.Err? ==> r.error == KeyError
    ensures r.Ok? ==> r.value.act == SelectActivation(config.hiddenAct, registry).value
    ensures r.Ok? ==> r.value.intermediateSize * worldSize <= config.intermediateSize
                      < (r.value.intermediateSize + 1) * worldSize
  {
    var act :- SelectActivation(config.hiddenAct, registry);
    Ok(ShellMlp(act, config.intermediateSize / worldSize))
  }

  /**
   * The default configuration is multi-head (as many KV heads as query
   * heads), has 128-wide heads, and selects the tanh-approximated GeLU.
   */
  lemma DefaultConfigShape(quantize: Option<string>, transpose: bool, registry: set<string>)
    ensures DefaultShellConfig(quantize, transpose).numKeyValueHeads == 32
    ensures DefaultShellConfig(quantize, transpose).hiddenSize / DefaultShellConfig(quantize, transpose).numAttentionHeads == 128
    ensures SelectActivation(DefaultShellConfig(quantize, transpose).hiddenAct, registry) == Ok(Gelu(Tanh))
  {
  }
}
