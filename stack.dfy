/**
 * The decoder stack: building `FlashShellLayer`s and `FlashShellModel`,
 * threading the hidden state and residual through the layers in
 * `FlashShellModel.forward`, and the `lm_head_indices` row selection of
 * `FlashShellForCausalLM.forward`. Layer numerics are function parameters.
 */
module ModelStack {
  import opened Wrappers
  import opened ShellConfigs
  import opened Loader
  import opened Attention

  /** A decoder layer's construction-time state: its attention and its feed-forward block. */
  datatype ShellLayer<T> = ShellLayer(selfAttn: FlashShellAttention<T>, mlp: ShellMlp)

  /** `FlashShellLayer.__init__`: the attention is built first, then the feed-forward block. */
  function NewLayer<T>(config: ShellConfig, ckpt: AttentionCheckpoint<T>, registry: set<string>,
                       rank: nat, worldSize: nat): (r: Result<ShellLayer<T>>)
    requires rank < worldSize && ckpt.cAttnWeight.WellFormed()
    ensures NewAttention(config, ckpt, rank, worldSize).Err? ==> r == Err(NewAttention(config, ckpt, rank, worldSize).error)
    ensures NewAttention(config, ckpt, rank, worldSize).Ok? && NewShellMlp(config, registry, worldSize).Err? ==> r == Err(KeyError)
    ensures r.Ok? <==> NewAttention(config, ckpt, rank, worldSize).Ok? && NewShellMlp(config, registry, worldSize).Ok?
    ensures r.Ok? ==> r.value.selfAttn == NewAttention(config, ckpt, rank, worldSize).value
                      && r.value.mlp == NewShellMlp(config, registry, worldSize).value
  {
    var attn :- NewAttention(config, ckpt, rank, worldSize);
    var mlp :- NewShellMlp(config, registry, worldSize);
    Ok(ShellLayer(attn, mlp))
  }

  /** Every checkpoint layer is well formed. */
  ghost predicate AllWellFormed<T>(ckpts: seq<AttentionCheckpoint<T>>) {
    forall i :: 0 <= i < |ckpts| ==> ckpts[i].cAttnWeight.WellFormed()
  }

  /**
   * The layers built in order, one per checkpoint layer: the list is built
   * only if every layer builds, and otherwise the error is that of the first
   * layer that fails.
   */
  function NewLayers<T>(config: ShellConfig, ckpts: seq<AttentionCheckpoint<T>>, registry: set<string>,
                        rank: nat, worldSize: nat): (r: Result<seq<ShellLayer<T>>>)
    requires rank < worldSize && AllWellFormed(ckpts)
    ensures r.Ok? <==> forall i :: 0 <= i < |ckpts| ==> NewLayer(config, ckpts[i], registry, rank, worldSize).Ok?
    ensures r.Ok? ==>
      && |r.value| == |ckpts|
      && forall i :: 0 <= i < |ckpts| ==> r.value[i] == NewLayer(config, ckpts[i], registry, rank, worldSize).value
    ensures r.Err? ==>
      exists i :: 0 <= i < |ckpts|
        && (forall j :: 0 <= j < i ==> NewLayer(config, ckpts[j], registry, rank, worldSize).Ok?)
        && NewLayer(config, ckpts[i], registry, rank, worldSize) == Err(r.error)
    decreases |ckpts|
  {
    if |ckpts| == 0 then Ok([])
    else
      var first :- NewLayer(config, ckpts[0], registry, rank, worldSize);
      var rest :- NewLayers(config, ckpts[1..], registry, rank, worldSize);
      Ok([first] + rest)
  }

  /** `FlashShellModel`'s layers and the head counts it copies from its first layer. */
  datatype ShellModel<T> = ShellModel(layers: seq<ShellLayer<T>>, headSize: nat, numHeads: nat, numKeyValueHeads: nat)

  /**
   * `FlashShellModel.__init__`: one layer per `num_hidden_layers`, then the
   * head counts read off `layers[0]`, an IndexError when there are no layers.
   */
  function NewModel<T>(config: ShellConfig, ckpts: seq<AttentionCheckpoint<T>>, registry: set<string>,
                       rank: nat, worldSize: nat): (r: Result<ShellModel<T>>)
    requires rank < worldSize && AllWellFormed(ckpts) && |ckpts| == config.numHiddenLayers
    ensures NewLayers(config, ckpts, registry, rank, worldSize).Err? ==> r == Err(NewLayers(config, ckpts, registry, rank, worldSize).error)
    ensures NewLayers(config, ckpts, registry, rank, worldSize).Ok? && config.numHiddenLayers == 0 ==> r == Err(IndexError)
    ensures r.Ok? <==> NewLayers(config, ckpts, registry, rank, worldSize).Ok? && config.numHiddenLayers > 0
    ensures r.Ok? ==> NewLayers(config, ckpts, registry, rank, worldSize) == Ok(r.value.layers)
                      && |r.value.layers| == config.numHiddenLayers > 0
  {
    var layers :- NewLayers(config, ckpts, registry, rank, worldSize);
    if |layers| == 0 then Err(IndexError)
    else
      var attn := layers[0].selfAttn;
      Ok(ShellModel(layers, attn.headSize, attn.numHeads, attn.numKeyValueHeads))
  }

  /**
   * Reading the head counts off the first layer is representative: every
   * layer of a built model has the model's head size and sharded head counts.
   */
  lemma LayersShareHeadCounts<T>(config: ShellConfig, ckpts: seq<AttentionCheckpoint<T>>, registry: set<string>,
                                 rank: nat, worldSize: nat)
    requires rank < worldSize && AllWellFormed(ckpts) && |ckpts| == config.numHiddenLayers
    requires NewModel(config, ckpts, registry, rank, worldSize).Ok?
    ensures var m := NewModel(config, ckpts, registry, rank, worldSize).value;
      forall i :: 0 <= i < |m.layers| ==>
        && m.layers[i].selfAttn.headSize == m.headSize
        && m.layers[i].selfAttn.numHeads == m.numHeads
        && m.layers[i].selfAttn.numKeyValueHeads == m.numKeyValueHeads
  {
  }

  /** One layer's forward: (hidden states, residual or none) to (output, new residual). */
  type LayerFn<!H> = (H, Option<H>) -> (H, H)

  /** The layers applied in order, each passing its output and residual to the next. */
  function Thread<H>(layers: seq<LayerFn<H>>, hidden: H, residual: Option<H>): (r: (H, Option<H>))
    ensures 0 < |layers| ==> r.1.Some?
  {
    if |layers| == 0 then (hidden, residual)
    else
      var (out, res) := layers[0](hidden, residual);
      Thread(layers[1..], out, Some(res))
  }

  /** Running two stacks one after the other is running their concatenation. */
  lemma {:induction false} ThreadAppend<H>(a: seq<LayerFn<H>>, b: seq<LayerFn<H>>, hidden: H, residual: Option<H>)
    ensures Thread(a + b, hidden, residual) == Thread(b, Thread(a, hidden, residual).0, Thread(a, hidden, residual).1)
    decreases |a|
  {
    if |a| > 0 {
      var (out, res) := a[0](hidden, residual);
      assert (a + b)[0] == a[0];
      assert (a + b)[1..] == a[1..] + b;
      ThreadAppend(a[1..], b, out, Some(res));
    } else {
      assert a + b == b;
    }
  }

  /** Starting with no residual, the residual is still none at the end exactly when there are no layers. */
  lemma {:induction false} ThreadResidual<H>(layers: seq<LayerFn<H>>, hidden: H, residual: Option<H>)
    ensures Thread(layers, hidden, residual).1.None? <==> |layers| == 0 && residual.None?
    decreases |layers|
  {
    if |layers| > 0 {
      var (out, res) := layers[0](hidden, residual);
      ThreadResidual(layers[1..], out, Some(res));
    }
  }

  /**
   * `FlashShellModel.forward` after the embedding: the residual starts as
   * none, each layer in turn takes the hidden states and residual and
   * returns the next ones, and the final norm's first output is returned.
   */
  method ModelForward<H>(layers: seq<LayerFn<H>>, norm: LayerFn<H>, hidden: H) returns (out: H)
    ensures out == norm(Thread(layers, hidden, None).0, Thread(layers, hidden, None).1).0
  {
    var h, residual := hidden, None;
    var i := 0;
    while i < |layers|
      invariant 0 <= i <= |layers|
      invariant Thread(layers, hidden, None) == Thread(layers[i..], h, residual)
    {
      var (o, r) := layers[i](h, residual);
      assert layers[i..][1..] == layers[i + 1..];
      h, residual := o, Some(r);
      i := i + 1;
    }
    var (normed, _) := norm(h, residual);
    out := normed;
  }

  /**
   * `hidden_states[lm_head_indices]`: no indices keep every row; otherwise
   * the listed rows in the listed order, an IndexError if one is out of range.
   */
  function SelectRows<R>(hidden: seq<R>, indices: Option<seq<nat>>): (r: Result<seq<R>>)
    ensures indices.None? ==> r == Ok(hidden)
    ensures indices.Some? ==>
      && (r.Ok? <==> forall j :: 0 <= j < |indices.value| ==> indices.value[j] < |hidden|)
      && (r.Err? ==> r.error == IndexError)
      && (r.Ok? ==> |r.value| == |indices.value|
                    && forall j :: 0 <= j < |indices.value| ==> r.value[j] == hidden[indices.value[j]])
  {
    if indices.None? then Ok(hidden)
    else
      var ix := indices.value;
      if forall j :: 0 <= j < |ix| ==> ix[j] < |hidden| then
        Ok(seq(|ix|, j requires 0 <= j < |ix| => hidden[ix[j]]))
      else Err(IndexError)
  }

  /** Selecting the rows `0 .. n-1` in order gives back all the rows. */
  lemma SelectAllRows<R>(hidden: seq<R>)
    ensures SelectRows(hidden, Some(Arange(|hidden|))) == Ok(hidden)
  {
    var r := SelectRows(hidden, Some(Arange(|hidden|)));
    assert r.Ok?;
    assert r.value == hidden;
  }
}
