/**
 The layer plans of odin/networks/sequential_networks.py: `DenseNetwork`,
 `ConvNetwork` and `DeconvNetwork` broadcast their per-layer arguments to
 the layer count and emit a fixed sequence of layers; `transpose` rebuilds
 a network from its stored constructor arguments with the per-layer
 arguments reversed, memoised per network identity.

 Keras layers are descriptors: a `Layer` records the kind of layer and the
 constructor arguments that the plan decides. Layers the caller supplies
 (`start_layers`, `extra_layers`) and the input layers inferred from a
 built Keras model are opaque `Given` tokens or parameters.
 */
module Networks {
  import opened Common
  import opened NetworkArgs

  /** An opaque per-layer setting (an initializer, regularizer, constraint,
      kernel size, stride, padding ...): `None` or a named value. */
  type Setting = Option<string>

  /** The three network classes. */
  datatype Family = Dense | Conv | Deconv

  /** The class of a core layer: `Dense`, `Conv{1,2,3}D` or
      `Conv{1,2}DTranspose`. */
  datatype CoreKind = DenseCore | ConvCore(rank: int) | DeconvCore(rank: int)

  /** A layer descriptor. */
  datatype Layer =
    | InputLayer(shape: seq<int>)
    | Flatten
    | Dropout(rate: real)
      /** The `i`-th dense or convolution layer, created with a linear
          activation. */
    | Core(kind: CoreKind, width: int, options: map<string, Setting>, useBias: bool, name: string)
    | BatchNorm
    | Activation(fn: string)
      /** The bias-free, linear, kernel-size-1 transposed convolution that
          projects to the original channel count. */
    | Projection(kind: CoreKind, width: int)
      /** A layer the network does not construct itself. */
    | Given(tag: string)

  /** Constructor arguments of the three classes. The typed fields are the
      arguments the plan inspects (`units`/`filters`, `activation`,
      `use_bias`, `batchnorm`, `layer_dropout`, ...); `options` holds every
      other keyword passed by name, forwarded per layer untouched. `rank`
      is read by the convolutional classes only, `flatten` by
      `DenseNetwork` only. */
  datatype NetArgs = NetArgs(
    widths: Arg<int>,
    activation: Arg<string>,
    useBias: Arg<bool>,
    batchnorm: Arg<bool>,
    layerDropout: Arg<real>,
    options: map<string, Arg<Setting>>,
    rank: Option<int>,
    flatten: bool,
    inputDropout: real,
    outputDropout: real,
    inputShape: Option<seq<int>>,
    startLayers: Option<seq<Layer>>,
    extraLayers: Option<seq<Layer>>,
    name: Option<string>)

  /** A constructed network: its class, the arguments `_store_arguments`
      kept, the full layer list, the part of it the class built itself, and
      its name. */
  datatype Network = Network(family: Family, stored: NetArgs, layers: seq<Layer>, body: seq<Layer>, name: Option<string>)

  /** The per-network memo `_STORED_TRANSPOSE`, keyed by `id(self)`. */
  type Memo = map<nat, Network>

  // ---------------------------------------------------------------------
  // Keyword parameters and their defaults
  // ---------------------------------------------------------------------

  /** The keyword parameters of each class that the plan forwards to every
      core layer, with their default values. */
  function Defaults(family: Family): (d: map<string, Arg<Setting>>)
    ensures "kernel_constraint" in d && "kernel_regularizer" in d
    ensures family != Dense ==> "kernel_size" in d && "strides" in d
    ensures (family == Deconv) <==> "output_padding" in d
    ensures forall k :: k in d ==> d[k].One?
  {
    var common := map[
      "kernel_initializer" := One(Some("glorot_uniform")),
      "bias_initializer" := One(Some("zeros")),
      "kernel_regularizer" := One(None),
      "bias_regularizer" := One(None),
      "activity_regularizer" := One(None),
      "kernel_constraint" := One(None),
      "bias_constraint" := One(None)];
    var conv := common + map[
      "kernel_size" := One(Some("3")),
      "strides" := One(Some("1")),
      "padding" := One(Some("same")),
      "dilation_rate" := One(Some("1"))];
    match family
    case Dense => common
    case Conv => conv
    case Deconv => conv["output_padding" := One(None)]
  }

  function OptionKeys(family: Family): set<string> {
    Defaults(family).Keys
  }

  /** Every class accepts the forwarded keywords of the classes before it. */
  lemma OptionKeysNested()
    ensures OptionKeys(Dense) < OptionKeys(Conv) < OptionKeys(Deconv)
    ensures "nlayers" !in OptionKeys(Dense)
  {
    assert "kernel_size" in OptionKeys(Conv) - OptionKeys(Dense);
    assert "output_padding" in OptionKeys(Deconv) - OptionKeys(Conv);
  }

  // ---------------------------------------------------------------------
  // Argument preparation
  // ---------------------------------------------------------------------

  /** The broadcast per-layer arguments the loop reads. */
  datatype Plan = Plan(
    kind: CoreKind,
    widths: seq<int>,
    activations: seq<string>,
    useBias: seq<bool>,
    batchnorm: seq<bool>,
    layerDropout: seq<real>,
    options: map<string, seq<Setting>>)

  /** Every per-layer tuple has one entry per layer. */
  predicate WellShaped(p: Plan) {
    var n := |p.widths|;
    && |p.activations| == n
    && |p.useBias| == n
    && |p.batchnorm| == n
    && |p.layerDropout| == n
    && forall k :: k in p.options ==> |p.options[k]| == n
  }

  /** The resolved rank (unused by `DenseNetwork`), the input shape and the
      plan. */
  datatype Prepared = Prepared(rank: int, shape: Option<seq<int>>, plan: Plan)

  /** `as_tuple(v, N=n)` for every forwarded keyword. */
  function BroadcastAll(m: map<string, Arg<Setting>>, n: nat): (r: Result<map<string, seq<Setting>>>)
    ensures r.Ok? <==> forall k :: k in m ==> Broadcast(m[k], n).Ok?
    ensures r.Err? ==> r.error == ValueError
    ensures r.Ok? ==> r.value.Keys == m.Keys
    ensures r.Ok? ==> forall k :: k in m ==> r.value[k] == Broadcast(m[k], n).value
  {
    if forall k :: k in m ==> Broadcast(m[k], n).Ok? then
      Ok(map k | k in m :: Broadcast(m[k], n).value)
    else
      Err(ValueError)
  }

  /** The core layer class chosen from the rank. A rank outside the
      handled ones leaves `layer_type` unbound, which only fails once the
      loop body runs; `DeconvNetwork` refuses rank 3 outright. */
  function CoreKindFor(family: Family, rank: int, n: nat): (r: Result<CoreKind>)
    ensures family == Dense ==> r == Ok(DenseCore)
    ensures family == Conv && 1 <= rank <= 3 ==> r == Ok(ConvCore(rank))
    ensures family == Deconv && 1 <= rank <= 2 ==> r == Ok(DeconvCore(rank))
    ensures family == Deconv && rank == 3 ==> r == Err(NotImplementedError)
    ensures family == Conv && !(1 <= rank <= 3) ==> (r.Err? <==> n > 0)
    ensures family == Deconv && !(1 <= rank <= 3) ==> (r.Err? <==> n > 0)
    ensures r.Err? && n > 0 && !(family == Deconv && rank == 3) ==> r.error == UnboundLocalError
  {
    match family
    case Dense => Ok(DenseCore)
    case Conv =>
      if 1 <= rank <= 3 then Ok(ConvCore(rank))
      else if n > 0 then Err(UnboundLocalError)
      else Ok(ConvCore(rank))
    case Deconv =>
      if rank == 3 then Err(NotImplementedError)
      else if 1 <= rank <= 2 then Ok(DeconvCore(rank))
      else if n > 0 then Err(UnboundLocalError)
      else Ok(DeconvCore(rank))
  }

  /** Everything the constructors do before emitting layers: keyword
      binding (an unknown keyword is a `TypeError`), the rank check of the
      convolutional classes, `_as_arg_tuples`, and the rank dispatch. */
  function Prepare(family: Family, a: NetArgs): (r: Result<Prepared>)
    ensures !(a.options.Keys <= OptionKeys(family)) ==> r == Err(TypeError)
    ensures (a.options.Keys <= OptionKeys(family) && family != Dense
             && RankAndInputShape(a.rank, a.inputShape).Err?) ==> r == Err(ValueError)
    ensures r.Ok? ==> WellShaped(r.value.plan)
    ensures r.Ok? ==> r.value.plan.widths == AsTuple(a.widths)
    ensures r.Ok? ==> r.value.plan.options.Keys == OptionKeys(family)
    ensures r.Ok? && family != Dense ==>
              RankAndInputShape(a.rank, a.inputShape) == Ok((r.value.rank, r.value.shape))
    ensures r.Ok? && family == Dense ==> r.value.shape == a.inputShape
    ensures r.Ok? ==> CoreKindFor(family, r.value.rank, |AsTuple(a.widths)|) == Ok(r.value.plan.kind)
    ensures r.Ok? ==> Broadcast(a.activation, |AsTuple(a.widths)|) == Ok(r.value.plan.activations)
    ensures r.Ok? ==> Broadcast(a.useBias, |AsTuple(a.widths)|) == Ok(r.value.plan.useBias)
    ensures r.Ok? ==> Broadcast(a.batchnorm, |AsTuple(a.widths)|) == Ok(r.value.plan.batchnorm)
    ensures r.Ok? ==> Broadcast(a.layerDropout, |AsTuple(a.widths)|) == Ok(r.value.plan.layerDropout)
    ensures r.Ok? ==> BroadcastAll(Defaults(family) + a.options, |AsTuple(a.widths)|) == Ok(r.value.plan.options)
  {
    if !(a.options.Keys <= OptionKeys(family)) then Err(TypeError)
    else
      var rs :- if family == Dense then Ok((0, a.inputShape)) else RankAndInputShape(a.rank, a.inputShape);
      var n := |AsTuple(a.widths)|;
      var activations :- Broadcast(a.activation, n);
      var useBias :- Broadcast(a.useBias, n);
      var batchnorm :- Broadcast(a.batchnorm, n);
      var layerDropout :- Broadcast(a.layerDropout, n);
      var options :- BroadcastAll(Defaults(family) + a.options, n);
      var kind :- CoreKindFor(family, rs.0, n);
      Ok(Prepared(rs.0, rs.1, Plan(kind, AsTuple(a.widths), activations, useBias, batchnorm, layerDropout, options)))
  }

  // ---------------------------------------------------------------------
  // The bias flag
  // ---------------------------------------------------------------------

  /** The bias flag as written: `(False if batchnorm else True) and
      use_bias[i]` tests the truth of the whole `batchnorm` tuple. */
  function BiasAsWritten(batchnorm: seq<bool>, useBias: seq<bool>, i: nat): bool
    requires i < |useBias|
  {
    (if |batchnorm| > 0 then false else true) && useBias[i]
  }

  /** Inside the loop the tuple has one entry per layer, so it is never
      empty and no core layer ever gets a bias. */
  lemma BiasAsWrittenNeverSet(batchnorm: seq<bool>, useBias: seq<bool>, i: nat)
    requires i < |useBias| == |batchnorm|
    ensures !BiasAsWritten(batchnorm, useBias, i)
  {
  }

  /** One layer, no batch normalisation, bias requested: no bias. */
  lemma BiasAsWrittenCounterexample()
    ensures !BiasAsWritten([false], [true], 0)
    ensures BiasIntended([false], [true], 0)
  {
  }

  /** The bias flag as intended: a layer has a bias when it asks for one
      and is not followed by batch normalisation. */
  function BiasIntended(batchnorm: seq<bool>, useBias: seq<bool>, i: nat): (b: bool)
    requires i < |useBias| == |batchnorm|
    ensures b ==> useBias[i]
    ensures batchnorm[i] ==> !b
    ensures useBias[i] && !batchnorm[i] ==> b
  {
    !batchnorm[i] && useBias[i]
  }

  // ---------------------------------------------------------------------
  // The layer list
  // ---------------------------------------------------------------------

  /** The per-layer forwarded settings of layer `i`. */
  function LayerOptions(options: map<string, seq<Setting>>, i: nat): (r: map<string, Setting>)
    requires forall k :: k in options ==> i < |options[k]|
  {
    map k | k in options :: options[k][i]
  }

  /** `"Layer%d" % i`. */
  function LayerName(i: nat): string {
    "Layer" + NatToString(i)
  }

  /** Distinct layers get distinct names. */
  lemma LayerNameInjective(i: nat, j: nat)
    ensures LayerName(i) == LayerName(j) ==> i == j
  {
    PrefixCancel("Layer", NatToString(i), NatToString(j));
    NatToStringInjective(i, j);
  }

  /** The `i`-th core layer. */
  function CoreOf(p: Plan, i: nat): Layer
    requires WellShaped(p) && i < |p.widths|
  {
    Core(p.kind, p.widths[i], LayerOptions(p.options, i), BiasIntended(p.batchnorm, p.useBias, i), LayerName(i))
  }

  /** A dropout layer for a rate strictly between 0 and 1, nothing
      otherwise (the input and output dropout). */
  function RateDropout(rate: real): (r: seq<Layer>)
    ensures |r| <= 1
    ensures forall j :: 0 <= j < |r| ==> r[j] == Dropout(rate) && 0.0 < rate < 1.0
    ensures 0.0 < rate < 1.0 ==> |r| == 1
  {
    if 0.0 < rate < 1.0 then [Dropout(rate)] else []
  }

  /** What follows core layer `i`: batch normalisation when asked for, the
      activation, and dropout when its rate is positive and the layer is
      not the last. */
  function BlockTail(p: Plan, i: nat): (r: seq<Layer>)
    requires WellShaped(p) && i < |p.widths|
    ensures forall j :: 0 <= j < |r| ==> !r[j].Core?
    ensures forall j :: 0 <= j < |r| && r[j].Dropout? ==> r[j].rate > 0.0
  {
    (if p.batchnorm[i] then [BatchNorm] else [])
    + [Activation(p.activations[i])]
    + (if p.layerDropout[i] > 0.0 && i != |p.widths| - 1 then [Dropout(p.layerDropout[i])] else [])
  }

  /** The layers emitted for layer indices `i` up to the layer count. */
  function Blocks(p: Plan, i: nat): (r: seq<Layer>)
    requires WellShaped(p) && i <= |p.widths|
    decreases |p.widths| - i
  {
    if i == |p.widths| then []
    else [CoreOf(p, i)] + BlockTail(p, i) + Blocks(p, i + 1)
  }

  /** The layers before the first core layer. */
  function Prefix(family: Family, a: NetArgs, shape: Option<seq<int>>): (r: seq<Layer>)
    ensures forall j :: 0 <= j < |r| ==> !r[j].Core?
    ensures forall j :: 0 <= j < |r| && r[j].Dropout? ==> 0.0 < r[j].rate < 1.0
  {
    (if shape.Some? then [InputLayer(shape.value)] else [])
    + (if family == Dense && a.flatten then [Flatten] else [])
    + RateDropout(a.inputDropout)
  }

  /** The layers after core layer `i`, both ways: batch normalisation
      exactly when its entry asks for it, the activation, and a dropout of
      the layer's rate exactly when that rate is positive and the layer is
      not the last. */
  lemma BlockTailContents(p: Plan, i: nat)
    requires WellShaped(p) && i < |p.widths|
    ensures var r := BlockTail(p, i);
            && (BatchNorm in r <==> p.batchnorm[i])
            && Activation(p.activations[i]) in r
            && (forall j :: 0 <= j < |r| && r[j].Dropout? ==> r[j] == Dropout(p.layerDropout[i]))
            && (Dropout(p.layerDropout[i]) in r <==> p.layerDropout[i] > 0.0 && i != |p.widths| - 1)
  {
  }

  /** The layers before the first core layer, both ways: the input layer
      first exactly when a shape is known, `Flatten` exactly for a
      flattening dense network, and the input dropout exactly when its
      rate lies strictly between 0 and 1. */
  lemma PrefixContents(family: Family, a: NetArgs, shape: Option<seq<int>>)
    ensures var r := Prefix(family, a, shape);
            && (forall j :: 0 <= j < |r| && r[j].InputLayer? ==> shape == Some(r[j].shape))
            && (shape.Some? ==> |r| > 0 && r[0] == InputLayer(shape.value))
            && (Flatten in r <==> family == Dense && a.flatten)
            && (forall j :: 0 <= j < |r| && r[j].Dropout? ==> r[j] == Dropout(a.inputDropout))
            && (Dropout(a.inputDropout) in r <==> 0.0 < a.inputDropout < 1.0)
  {
  }

  /** A segment of the layer list, `None` standing for no layers. */
  function Segment(o: Option<seq<Layer>>): seq<Layer> {
    if o.None? then [] else o.value
  }

  /** `SequentialNetwork.__init__`: the caller's start layers, then the
      network's own layers, then the caller's extra layers. */
  function Sequential(start: Option<seq<Layer>>, body: seq<Layer>, extra: Option<seq<Layer>>): (r: seq<Layer>)
    ensures |r| == |Segment(start)| + |body| + |Segment(extra)|
    ensures r[..|Segment(start)|] == Segment(start)
    ensures r[|Segment(start)|..|Segment(start)| + |body|] == body
    ensures r[|Segment(start)| + |body|..] == Segment(extra)
    ensures start.None? && extra.None? ==> r == body
  {
    Segment(start) + body + Segment(extra)
  }

  /** The arguments `_store_arguments` keeps: the broadcast tuples in
      place of the per-layer arguments, the resolved rank and input shape. */
  function Stored(family: Family, a: NetArgs, p: Prepared): NetArgs {
    a.(widths := Many(p.plan.widths),
       activation := Many(p.plan.activations),
       useBias := Many(p.plan.useBias),
       batchnorm := Many(p.plan.batchnorm),
       layerDropout := Many(p.plan.layerDropout),
       options := map k | k in p.plan.options :: Many(p.plan.options[k]),
       rank := if family == Dense then a.rank else Some(p.rank),
       inputShape := p.shape)
  }

  /** The layers a class builds itself: the prefix, one block per layer,
      and the output dropout. */
  function Body(family: Family, a: NetArgs, p: Prepared): seq<Layer>
    requires WellShaped(p.plan)
  {
    Prefix(family, a, p.shape) + Blocks(p.plan, 0) + RateDropout(a.outputDropout)
  }

  /** The network built from prepared arguments. */
  function Assemble(family: Family, a: NetArgs, p: Prepared): (net: Network)
    requires WellShaped(p.plan)
    ensures net.family == family && net.name == a.name
    ensures net.layers == Sequential(a.startLayers, net.body, a.extraLayers)
  {
    var body := Body(family, a, p);
    Network(family, Stored(family, a, p), Sequential(a.startLayers, body, a.extraLayers), body, a.name)
  }

  /** `DenseNetwork(**a)`, `ConvNetwork(**a)` or `DeconvNetwork(**a)`. */
  function Build(family: Family, a: NetArgs): (r: Result<Network>)
    ensures r.Ok? <==> Prepare(family, a).Ok?
    ensures r.Err? ==> r.error == Prepare(family, a).error
    ensures r.Ok? ==> r.value.family == family && r.value.name == a.name
    ensures r.Ok? ==> r.value.stored.widths == Many(AsTuple(a.widths))
    ensures r.Ok? && family != Dense ==>
              r.value.stored.rank == Some(RankAndInputShape(a.rank, a.inputShape).value.0)
  {
    var p :- Prepare(family, a);
    Ok(Assemble(family, a, p))
  }

  // ---------------------------------------------------------------------
  // transpose
  // ---------------------------------------------------------------------

  /** `t[::-1]` for a tuple-valued argument, the argument itself otherwise. */
  function ReverseArg<T>(a: Arg<T>): (r: Arg<T>)
    ensures AsTuple(r) == (if a.Many? then Reverse(a.xs) else AsTuple(a))
  {
    match a
    case One(x) => One(x)
    case Many(xs) => Many(Reverse(xs))
  }

  /** The arguments `DenseNetwork.transpose` passes back to the
      constructor: units reversed, the new input shape, the suffixed name,
      no flattening, and with tied weights no kernel constraint or
      regularizer. */
  function DenseTransposeArgs(s: NetArgs, selfName: string, inputShape: Option<seq<int>>, tied: bool): NetArgs {
    var options := if tied then s.options["kernel_constraint" := One(None)]["kernel_regularizer" := One(None)]
                   else s.options;
    s.(widths := ReverseArg(s.widths), inputShape := inputShape, name := Some(selfName + "_transpose"),
       flatten := false, options := options)
  }

  /** `DenseNetwork.transpose(input_shape, tied_weights)` on the network
      with identity `id` whose Keras name is `selfName`. The memo answers
      repeated calls whatever their arguments. */
  function DenseTranspose(memo: Memo, id: nat, net: Network, selfName: string,
                          inputShape: Option<seq<int>>, tied: bool): (r: (Result<Network>, Memo))
    ensures id in memo ==> r == (Ok(memo[id]), memo)
    ensures id !in memo && r.0.Ok? ==> r.1 == memo[id := r.0.value]
    ensures r.0.Err? ==> r.1 == memo
    ensures id !in memo && r.0.Ok? ==> r.0.value.name == Some(selfName + "_transpose")
  {
    if id in memo then (Ok(memo[id]), memo)
    else
      match Build(Dense, DenseTransposeArgs(net.stored, selfName, inputShape, tied))
      case Ok(t) => (Ok(t), memo[id := t])
      case Err(e) => (Err(e), memo)
  }

  /** `DenseNetwork.transpose` as written: the stored arguments are the
      constructor's `locals()`, which also hold the local `nlayers`, so the
      constructor call receives an unexpected keyword. */
  function DenseTransposeAsWritten(memo: Memo, id: nat, net: Network, selfName: string,
                                   inputShape: Option<seq<int>>, tied: bool): (r: (Result<Network>, Memo))
    ensures id in memo ==> r == (Ok(memo[id]), memo)
    ensures r.0.Err? ==> r.1 == memo
  {
    if id in memo then (Ok(memo[id]), memo)
    else
      var s := net.stored;
      var n := |AsTuple(s.widths)|;
      var withLocals := s.(options := s.options["nlayers" := One(Some(NatToString(n)))]);
      match Build(Dense, DenseTransposeArgs(withLocals, selfName, inputShape, tied))
      case Ok(t) => (Ok(t), memo[id := t])
      case Err(e) => (Err(e), memo)
  }

  /** The extra projection of `ConvNetwork.transpose`: when the network's
      input channel count differs from its first filter count, a
      kernel-size-1 transposed convolution maps back to it. `filters` is
      already reversed. */
  function ExtraProjection(rank: int, filters: seq<int>, outputChannel: Option<int>): (r: Result<seq<Layer>>)
    ensures outputChannel.None? ==> r == Ok([])
    ensures outputChannel.Some? && |filters| == 0 ==> r == Err(IndexError)
    ensures outputChannel.Some? && |filters| > 0 && outputChannel.value == filters[|filters| - 1] ==> r == Ok([])
    ensures r.Ok? && |r.value| > 0 ==>
              && outputChannel.Some? && |filters| > 0 && outputChannel.value != filters[|filters| - 1]
              && (rank == 1 || rank == 2)
              && r.value == [Projection(DeconvCore(rank), outputChannel.value)]
    ensures outputChannel.Some? && |filters| > 0 && outputChannel.value != filters[|filters| - 1] && rank == 3
            ==> r == Err(NotImplementedError)
  {
    match outputChannel
    case None => Ok([])
    case Some(c) =>
      if |filters| == 0 then Err(IndexError)
      else if c == filters[|filters| - 1] then Ok([])
      else if rank == 3 then Err(NotImplementedError)
      else if rank == 2 || rank == 1 then Ok([Projection(DeconvCore(rank), c)])
      else Err(UnboundLocalError)
  }

  /** The `DeconvNetwork` arguments `ConvNetwork.transpose` builds: every
      tuple-valued stored argument reversed, the rank and dropouts kept,
      no input shape or name, and the given start and extra layers. */
  function ConvTransposeArgs(s: NetArgs, rank: int, start: seq<Layer>, extra: seq<Layer>): NetArgs {
    NetArgs(
      ReverseArg(s.widths),
      ReverseArg(s.activation),
      ReverseArg(s.useBias),
      ReverseArg(s.batchnorm),
      ReverseArg(s.layerDropout),
      map k | k in s.options :: ReverseArg(s.options[k]),
      Some(rank), false, s.inputDropout, s.outputDropout, None, Some(start), Some(extra), None)
  }

  /** `ConvNetwork.transpose(input_shape, tied_weights)`. `start` stands for
      the input layers inferred from the built model's shapes and
      `outputChannel` for the last entry of its input shape, `None` when
      the model has none. */
  function ConvTranspose(memo: Memo, id: nat, net: Network, tied: bool,
                         start: seq<Layer>, outputChannel: Option<int>): (r: (Result<Network>, Memo))
    requires net.stored.rank.Some?
    ensures tied ==> r == (Err(NotImplementedError), memo)
    ensures !tied && id in memo ==> r == (Ok(memo[id]), memo)
    ensures !tied && id !in memo && r.0.Ok? ==> r.1 == memo[id := r.0.value] && r.0.value.family == Deconv
    ensures r.0.Err? ==> r.1 == memo
  {
    if tied then (Err(NotImplementedError), memo)
    else if id in memo then (Ok(memo[id]), memo)
    else
      var s := net.stored;
      var rank := s.rank.value;
      match ExtraProjection(rank, AsTuple(ReverseArg(s.widths)), outputChannel)
      case Err(e) => (Err(e), memo)
      case Ok(extra) =>
        match Build(Deconv, ConvTransposeArgs(s, rank, start, extra))
        case Ok(t) => (Ok(t), memo[id := t])
        case Err(e) => (Err(e), memo)
  }

  // ---------------------------------------------------------------------
  // Properties of the layer plan
  // ---------------------------------------------------------------------

  /** The dense or convolution layers of a layer list, in order. */
  function Cores(ls: seq<Layer>): (r: seq<Layer>)
    ensures |r| <= |ls|
    ensures forall j :: 0 <= j < |r| ==> r[j].Core?
  {
    if |ls| == 0 then [] else (if ls[0].Core? then [ls[0]] else []) + Cores(ls[1..])
  }

  /** The widths of the core layers, in order. */
  function CoreWidths(ls: seq<Layer>): (r: seq<int>)
    ensures |r| == |Cores(ls)|
  {
    var cs := Cores(ls);
    seq(|cs|, i requires 0 <= i < |cs| => cs[i].width)
  }

  lemma {:induction false} CoresAppend(x: seq<Layer>, y: seq<Layer>)
    ensures Cores(x + y) == Cores(x) + Cores(y)
  {
    if |x| == 0 {
      assert x + y == y;
    } else {
      assert (x + y)[1..] == x[1..] + y;
      CoresAppend(x[1..], y);
    }
  }

  lemma {:induction false} NoCores(ls: seq<Layer>)
    requires forall j :: 0 <= j < |ls| ==> !ls[j].Core?
    ensures Cores(ls) == []
  {
    if |ls| > 0 {
      NoCores(ls[1..]);
    }
  }

  lemma CoresCons(c: Layer, x: seq<Layer>)
    requires c.Core?
    ensures Cores([c] + x) == [c] + Cores(x)
  {
    assert ([c] + x)[1..] == x;
  }

  /** One block contributes exactly its own core layer. */
  lemma CoresOfBlock(p: Plan, i: nat)
    requires WellShaped(p) && i < |p.widths|
    ensures Cores(Blocks(p, i)) == [CoreOf(p, i)] + Cores(Blocks(p, i + 1))
  {
    var c, t, rest := CoreOf(p, i), BlockTail(p, i), Blocks(p, i + 1);
    CoresAppend([c] + t, rest);
    CoresCons(c, t);
    NoCores(t);
  }

  /** The core layers of the blocks from index `i` on are the cores
      `i`, `i + 1`, ... in that order. */
  lemma {:induction false} CoresOfBlocks(p: Plan, i: nat)
    requires WellShaped(p) && i <= |p.widths|
    ensures |Cores(Blocks(p, i))| == |p.widths| - i
    ensures forall j :: 0 <= j < |p.widths| - i ==> Cores(Blocks(p, i))[j] == CoreOf(p, i + j)
    decreases |p.widths| - i
  {
    if i < |p.widths| {
      CoresOfBlock(p, i);
      CoresOfBlocks(p, i + 1);
      var cs, rest := Cores(Blocks(p, i)), Cores(Blocks(p, i + 1));
      forall j | 0 <= j < |p.widths| - i
        ensures cs[j] == CoreOf(p, i + j)
      {
        if j > 0 {
          assert cs[j] == rest[j - 1];
          assert i + 1 + (j - 1) == i + j;
        }
      }
    }
  }

  /** A built network is the assembly of its prepared arguments. */
  lemma BuildIsAssembly(family: Family, a: NetArgs)
    requires Build(family, a).Ok?
    ensures Prepare(family, a).Ok? && WellShaped(Prepare(family, a).value.plan)
    ensures Build(family, a).value == Assemble(family, a, Prepare(family, a).value)
    ensures Build(family, a).value.body == Body(family, a, Prepare(family, a).value)
  {
  }

  /** The layers a built network makes itself, without the rest of the
      assembled record. */
  lemma BuildBody(family: Family, a: NetArgs)
    requires Build(family, a).Ok?
    ensures Prepare(family, a).Ok? && WellShaped(Prepare(family, a).value.plan)
    ensures Build(family, a).value.body == Body(family, a, Prepare(family, a).value)
  {
    BuildIsAssembly(family, a);
  }

  /** The prefix and the output dropout hold no core layer. */
  lemma BodyCoresInBlocks(family: Family, a: NetArgs, p: Prepared)
    requires WellShaped(p.plan)
    ensures Cores(Body(family, a, p)) == Cores(Blocks(p.plan, 0))
  {
    var pre, blocks, post := Prefix(family, a, p.shape), Blocks(p.plan, 0), RateDropout(a.outputDropout);
    CoresAppend(pre + blocks, post);
    CoresAppend(pre, blocks);
    NoCores(pre);
    NoCores(post);
    assert [] + Cores(blocks) + [] == Cores(blocks);
  }

  /** The core layers of an assembled network are exactly the plan's
      cores. */
  lemma {:induction false} BodyCores(family: Family, a: NetArgs, p: Prepared)
    requires WellShaped(p.plan)
    ensures |Cores(Body(family, a, p))| == |p.plan.widths|
    ensures forall j :: 0 <= j < |p.plan.widths| ==> Cores(Body(family, a, p))[j] == CoreOf(p.plan, j)
  {
    var blocks := Blocks(p.plan, 0);
    var cs := Cores(Body(family, a, p));
    BodyCoresInBlocks(family, a, p);
    CoresOfBlocks(p.plan, 0);
    forall j | 0 <= j < |p.plan.widths|
      ensures cs[j] == CoreOf(p.plan, j)
    {
      assert cs[j] == Cores(blocks)[j];
    }
  }

  /** Exactly one core layer per entry of `units`/`filters`, in order,
      with that width, named `Layer0`, `Layer1`, ..., all names distinct. */
  lemma {:induction false} BuildCores(family: Family, a: NetArgs)
    requires Build(family, a).Ok?
    ensures var cs := Cores(Build(family, a).value.body);
            && |cs| == |AsTuple(a.widths)|
            && (forall i :: 0 <= i < |cs| ==> cs[i] == CoreOf(Prepare(family, a).value.plan, i))
            && (forall i :: 0 <= i < |cs| ==> cs[i].width == AsTuple(a.widths)[i] && cs[i].name == LayerName(i))
            && (forall i, j :: 0 <= i < j < |cs| ==> cs[i].name != cs[j].name)
  {
    BuildBody(family, a);
    var p := Prepare(family, a).value;
    BodyCores(family, a, p);
    var cs := Cores(Build(family, a).value.body);
    assert cs == Cores(Body(family, a, p));
    assert p.plan.widths == AsTuple(a.widths);
    forall i | 0 <= i < |cs|
      ensures cs[i].width == AsTuple(a.widths)[i] && cs[i].name == LayerName(i)
    {
      assert cs[i] == CoreOf(p.plan, i);
    }
    forall i, j | 0 <= i < j < |cs|
      ensures cs[i].name != cs[j].name
    {
      assert cs[i] == CoreOf(p.plan, i) && cs[j] == CoreOf(p.plan, j);
      LayerNameInjective(i, j);
    }
  }

  /** The core layer widths are the `units`/`filters` tuple. */
  lemma BuildWidths(family: Family, a: NetArgs)
    requires Build(family, a).Ok?
    ensures CoreWidths(Build(family, a).value.body) == AsTuple(a.widths)
  {
    BuildCores(family, a);
  }

  /** The core layers are of the class the family and the resolved rank
      select: `Dense`, `Conv{1,2,3}D` or `Conv{1,2}DTranspose`. */
  lemma BuildCoreKinds(family: Family, a: NetArgs)
    requires Build(family, a).Ok?
    ensures var cs := Cores(Build(family, a).value.body);
            family == Dense ==> forall i :: 0 <= i < |cs| ==> cs[i].kind == DenseCore
    ensures var cs := Cores(Build(family, a).value.body);
            family == Conv && |cs| > 0 ==>
              var k := RankAndInputShape(a.rank, a.inputShape).value.0;
              1 <= k <= 3 && forall i :: 0 <= i < |cs| ==> cs[i].kind == ConvCore(k)
    ensures var cs := Cores(Build(family, a).value.body);
            family == Deconv && |cs| > 0 ==>
              var k := RankAndInputShape(a.rank, a.inputShape).value.0;
              1 <= k <= 2 && forall i :: 0 <= i < |cs| ==> cs[i].kind == DeconvCore(k)
  {
    BuildCoresArePlan(family, a);
    var p := Prepare(family, a).value;
    CoresOfKind(Cores(Build(family, a).value.body), p.plan);
  }

  /** Every core layer of a plan has the plan's layer class. */
  lemma CoresOfKind(cs: seq<Layer>, p: Plan)
    requires WellShaped(p)
    requires |cs| == |p.widths| && forall i :: 0 <= i < |cs| ==> cs[i] == CoreOf(p, i)
    ensures forall i :: 0 <= i < |cs| ==> cs[i].Core? && cs[i].kind == p.kind
  {
  }

  /** With the corrected flag, a core layer has a bias exactly when its
      `use_bias` entry asks for one and its `batchnorm` entry is off. */
  lemma BuildBias(family: Family, a: NetArgs)
    requires Build(family, a).Ok?
    ensures var cs := Cores(Build(family, a).value.body);
            var n := |AsTuple(a.widths)|;
            && |cs| == n && Broadcast(a.useBias, n).Ok? && Broadcast(a.batchnorm, n).Ok?
            && forall i :: 0 <= i < |cs| ==>
                 cs[i].useBias == (Broadcast(a.useBias, n).value[i] && !Broadcast(a.batchnorm, n).value[i])
  {
    BuildCores(family, a);
  }

  /** `DeconvNetwork` never accepts rank 3, whatever the layer count. */
  lemma DeconvRejectsRank3(a: NetArgs)
    requires RankAndInputShape(a.rank, a.inputShape).Ok?
    requires RankAndInputShape(a.rank, a.inputShape).value.0 == 3
    ensures Build(Deconv, a).Err?
  {
  }

  /** A convolutional network with at least one layer and a rank other
      than 1, 2 or 3 is never built. */
  lemma ConvRejectsOtherRanks(family: Family, a: NetArgs)
    requires family != Dense && |AsTuple(a.widths)| > 0
    requires RankAndInputShape(a.rank, a.inputShape).Ok?
    requires !(1 <= RankAndInputShape(a.rank, a.inputShape).value.0 <= 3)
    ensures Build(family, a).Err?
  {
  }

  /** Every layer dropout emitted has a positive rate. */
  lemma {:induction false} BlocksDropoutsPositive(p: Plan, i: nat)
    requires WellShaped(p) && i <= |p.widths|
    ensures forall j :: 0 <= j < |Blocks(p, i)| && Blocks(p, i)[j].Dropout? ==> Blocks(p, i)[j].rate > 0.0
    decreases |p.widths| - i
  {
    if i < |p.widths| {
      BlocksDropoutsPositive(p, i + 1);
      var head: seq<Layer>, rest: seq<Layer> := [CoreOf(p, i)] + BlockTail(p, i), Blocks(p, i + 1);
      assert Blocks(p, i) == head + rest;
      forall j | 0 <= j < |head + rest| && (head + rest)[j].Dropout?
        ensures (head + rest)[j].rate > 0.0
      {
        if j == 0 {
        } else if j < |head| {
          assert (head + rest)[j] == BlockTail(p, i)[j - 1];
        } else {
          assert (head + rest)[j] == rest[j - |head|];
        }
      }
    }
  }

  lemma BodyDropoutsPositive(family: Family, a: NetArgs, p: Prepared)
    requires WellShaped(p.plan)
    ensures forall j :: 0 <= j < |Body(family, a, p)| && Body(family, a, p)[j].Dropout? ==>
              Body(family, a, p)[j].rate > 0.0
  {
    var pre, blocks, post := Prefix(family, a, p.shape), Blocks(p.plan, 0), RateDropout(a.outputDropout);
    var body := Body(family, a, p);
    assert body == pre + blocks + post;
    BlocksDropoutsPositive(p.plan, 0);
    forall j | 0 <= j < |body| && body[j].Dropout?
      ensures body[j].rate > 0.0
    {
      if j < |pre| {
        assert body[j] == pre[j];
      } else if j < |pre| + |blocks| {
        assert body[j] == blocks[j - |pre|];
      } else {
        assert body[j] == post[j - |pre| - |blocks|];
      }
    }
  }

  /** Every dropout layer the network emits has a positive rate; input and
      output dropout only appear for a rate below 1. */
  lemma BuildDropoutsPositive(family: Family, a: NetArgs)
    requires Build(family, a).Ok?
    ensures var body := Build(family, a).value.body;
            forall j :: 0 <= j < |body| && body[j].Dropout? ==> body[j].rate > 0.0
  {
    BuildBody(family, a);
    BodyDropoutsPositive(family, a, Prepare(family, a).value);
  }

  /** The blocks from index `i` on end with the last layer's activation:
      the last layer never gets a layer dropout. */
  lemma {:induction false} BlocksEndWithActivation(p: Plan, i: nat)
    requires WellShaped(p) && i < |p.widths|
    ensures |Blocks(p, i)| > 0
    ensures Blocks(p, i)[|Blocks(p, i)| - 1] == Activation(p.activations[|p.widths| - 1])
    decreases |p.widths| - i
  {
    var head: seq<Layer>, rest: seq<Layer> := [CoreOf(p, i)] + BlockTail(p, i), Blocks(p, i + 1);
    assert Blocks(p, i) == head + rest;
    if i < |p.widths| - 1 {
      BlocksEndWithActivation(p, i + 1);
    } else {
      assert rest == [];
      assert BlockTail(p, i)[|BlockTail(p, i)| - 1] == Activation(p.activations[i]);
    }
  }

  /** Without an output dropout, a network with layers ends with the last
      layer's activation. */
  lemma BuildEndsWithActivation(family: Family, a: NetArgs)
    requires Build(family, a).Ok?
    requires |AsTuple(a.widths)| > 0 && !(0.0 < a.outputDropout < 1.0)
    ensures var body := Build(family, a).value.body;
            var n := |AsTuple(a.widths)|;
            |body| > 0 && body[|body| - 1] == Activation(Broadcast(a.activation, n).value[n - 1])
  {
    BuildBody(family, a);
    var p := Prepare(family, a).value;
    var n := |AsTuple(a.widths)|;
    assert Broadcast(a.activation, n).value == p.plan.activations;
    BodyEndsWithActivation(family, a, p);
  }

  /** The layers a class builds itself end with the last activation when
      there is no output dropout. */
  lemma BodyEndsWithActivation(family: Family, a: NetArgs, p: Prepared)
    requires WellShaped(p.plan) && |p.plan.widths| > 0 && !(0.0 < a.outputDropout < 1.0)
    ensures var body := Body(family, a, p);
            |body| > 0 && body[|body| - 1] == Activation(p.plan.activations[|p.plan.widths| - 1])
  {
    BlocksEndWithActivation(p.plan, 0);
    var pre, blocks := Prefix(family, a, p.shape), Blocks(p.plan, 0);
    assert RateDropout(a.outputDropout) == [];
    assert Body(family, a, p) == pre + blocks + [];
    assert pre + blocks + [] == pre + blocks;
  }

  /** The number of batch-normalisation layers in a layer list. */
  function NormCount(ls: seq<Layer>): (c: nat)
    ensures c <= |ls|
  {
    if |ls| == 0 then 0 else (if ls[0].BatchNorm? then 1 else 0) + NormCount(ls[1..])
  }

  /** The number of `True` entries. */
  function TrueCount(bs: seq<bool>): (c: nat)
    ensures c <= |bs|
  {
    if |bs| == 0 then 0 else (if bs[0] then 1 else 0) + TrueCount(bs[1..])
  }

  lemma {:induction false} NormCountAppend(x: seq<Layer>, y: seq<Layer>)
    ensures NormCount(x + y) == NormCount(x) + NormCount(y)
  {
    if |x| == 0 {
      assert x + y == y;
    } else {
      assert (x + y)[1..] == x[1..] + y;
      NormCountAppend(x[1..], y);
    }
  }

  lemma {:induction false} NoNorms(ls: seq<Layer>)
    requires forall j :: 0 <= j < |ls| ==> !ls[j].BatchNorm?
    ensures NormCount(ls) == 0
  {
    if |ls| > 0 {
      NoNorms(ls[1..]);
    }
  }

  /** One block holds a batch normalisation exactly when its entry asks
      for one. */
  lemma {:induction false} NormCountOfBlock(p: Plan, i: nat)
    requires WellShaped(p) && i < |p.widths|
    ensures NormCount(Blocks(p, i)) == (if p.batchnorm[i] then 1 else 0) + NormCount(Blocks(p, i + 1))
  {
    var c, rest := CoreOf(p, i), Blocks(p, i + 1);
    var norm := if p.batchnorm[i] then [BatchNorm] else [];
    var after := [Activation(p.activations[i])]
      + (if p.layerDropout[i] > 0.0 && i != |p.widths| - 1 then [Dropout(p.layerDropout[i])] else []);
    var tail := BlockTail(p, i);
    assert tail == norm + after;
    assert Blocks(p, i) == [c] + (tail + rest);
    assert ([c] + (tail + rest))[1..] == tail + rest;
    NormCountAppend(tail, rest);
    NormCountAppend(norm, after);
    NoNorms(after);
    if p.batchnorm[i] {
      assert norm[1..] == [];
    }
  }

  lemma {:induction false} BlocksNormCount(p: Plan, i: nat)
    requires WellShaped(p) && i <= |p.widths|
    ensures NormCount(Blocks(p, i)) == TrueCount(p.batchnorm[i..])
    decreases |p.widths| - i
  {
    if i < |p.widths| {
      NormCountOfBlock(p, i);
      BlocksNormCount(p, i + 1);
      assert p.batchnorm[i..][1..] == p.batchnorm[i + 1..];
    }
  }

  lemma BodyNormCount(family: Family, a: NetArgs, p: Prepared)
    requires WellShaped(p.plan)
    ensures NormCount(Body(family, a, p)) == TrueCount(p.plan.batchnorm)
  {
    var pre, blocks, post := Prefix(family, a, p.shape), Blocks(p.plan, 0), RateDropout(a.outputDropout);
    assert Body(family, a, p) == pre + blocks + post;
    NormCountAppend(pre + blocks, post);
    NormCountAppend(pre, blocks);
    BlocksNormCount(p.plan, 0);
    assert p.plan.batchnorm[0..] == p.plan.batchnorm;
    NoNorms(pre);
    NoNorms(post);
  }

  /** One batch-normalisation layer per `True` entry of `batchnorm`. */
  lemma BuildNormCount(family: Family, a: NetArgs)
    requires Build(family, a).Ok?
    ensures NormCount(Build(family, a).value.body)
            == TrueCount(Broadcast(a.batchnorm, |AsTuple(a.widths)|).value)
  {
    BuildBody(family, a);
    BodyNormCount(family, a, Prepare(family, a).value);
  }

  /** The layers before the first core layer of a list. */
  function Lead(ls: seq<Layer>): (r: seq<Layer>)
    ensures forall j :: 0 <= j < |r| ==> !r[j].Core?
  {
    if |ls| == 0 || ls[0].Core? then [] else [ls[0]] + Lead(ls[1..])
  }

  /** For every core layer of a list, in order, the layers that follow it
      up to the next core layer. */
  function Groups(ls: seq<Layer>): (r: seq<seq<Layer>>)
    ensures |r| == |Cores(ls)|
  {
    if |ls| == 0 then []
    else if ls[0].Core? then [Lead(ls[1..])] + Groups(ls[1..])
    else Groups(ls[1..])
  }

  lemma {:induction false} LeadNoCores(x: seq<Layer>, y: seq<Layer>)
    requires forall j :: 0 <= j < |x| ==> !x[j].Core?
    requires |y| == 0 || y[0].Core?
    ensures Lead(x + y) == x
  {
    if |x| == 0 {
      assert x + y == y;
    } else {
      assert (x + y)[1..] == x[1..] + y;
      LeadNoCores(x[1..], y);
      assert [x[0]] + x[1..] == x;
    }
  }

  lemma {:induction false} GroupsSkip(x: seq<Layer>, y: seq<Layer>)
    requires forall j :: 0 <= j < |x| ==> !x[j].Core?
    ensures Groups(x + y) == Groups(y)
  {
    if |x| == 0 {
      assert x + y == y;
    } else {
      assert (x + y)[1..] == x[1..] + y;
      GroupsSkip(x[1..], y);
    }
  }

  /** A core layer followed by non-core layers `t` and then a list that
      starts with a core layer, or nothing, opens the group `t`. */
  lemma GroupsCons(c: Layer, t: seq<Layer>, rest: seq<Layer>)
    requires c.Core?
    requires forall j :: 0 <= j < |t| ==> !t[j].Core?
    requires |rest| == 0 || rest[0].Core?
    ensures Groups([c] + (t + rest)) == [t] + Groups(rest)
  {
    assert ([c] + (t + rest))[1..] == t + rest;
    GroupsSkip(t, rest);
    LeadNoCores(t, rest);
  }

  /** Block `i` contributes one group: its tail, and `d` after the last
      block. */
  lemma {:induction false} BlocksGroupsStep(p: Plan, i: nat, d: seq<Layer>)
    requires WellShaped(p) && i < |p.widths|
    requires forall j :: 0 <= j < |d| ==> !d[j].Core?
    ensures Groups(Blocks(p, i) + d)
            == [BlockTail(p, i) + (if i == |p.widths| - 1 then d else [])] + Groups(Blocks(p, i + 1) + d)
  {
    if i + 1 < |p.widths| {
      InnerBlockGroups(p, i, d);
      assert BlockTail(p, i) + [] == BlockTail(p, i);
    } else {
      LastBlockGroups(p, i, d);
    }
  }

  lemma InnerBlockGroups(p: Plan, i: nat, d: seq<Layer>)
    requires WellShaped(p) && i + 1 < |p.widths|
    requires forall j :: 0 <= j < |d| ==> !d[j].Core?
    ensures Groups(Blocks(p, i) + d) == [BlockTail(p, i)] + Groups(Blocks(p, i + 1) + d)
  {
    var c, t, next := CoreOf(p, i), BlockTail(p, i), Blocks(p, i + 1);
    assert Blocks(p, i) + d == [c] + (t + (next + d));
    assert (next + d)[0] == CoreOf(p, i + 1);
    GroupsCons(c, t, next + d);
  }

  lemma LastBlockGroups(p: Plan, i: nat, d: seq<Layer>)
    requires WellShaped(p) && i + 1 == |p.widths|
    requires forall j :: 0 <= j < |d| ==> !d[j].Core?
    ensures Groups(Blocks(p, i) + d) == [BlockTail(p, i) + d] + Groups(Blocks(p, i + 1) + d)
  {
    var c, t := CoreOf(p, i), BlockTail(p, i);
    assert Blocks(p, i + 1) + d == d;
    assert Blocks(p, i) + d == [c] + ((t + d) + []);
    GroupsCons(c, t + d, []);
    GroupsSkip(d, []);
    assert d + [] == d;
  }

  /** The groups the blocks from index `i` on should open when followed by
      the layers `d`: each block its tail, the last one also `d`. */
  function GroupsFrom(p: Plan, i: nat, d: seq<Layer>): (r: seq<seq<Layer>>)
    requires WellShaped(p) && i <= |p.widths|
    ensures |r| == |p.widths| - i
    decreases |p.widths| - i
  {
    if i == |p.widths| then []
    else [BlockTail(p, i) + (if i == |p.widths| - 1 then d else [])] + GroupsFrom(p, i + 1, d)
  }

  lemma {:induction false} GroupsFromAt(p: Plan, i: nat, d: seq<Layer>, k: nat)
    requires WellShaped(p) && i + k < |p.widths|
    ensures GroupsFrom(p, i, d)[k] == BlockTail(p, i + k) + (if i + k == |p.widths| - 1 then d else [])
    decreases k
  {
    if k > 0 {
      GroupsFromAt(p, i + 1, d, k - 1);
    }
  }

  /** The blocks from index `i` on, followed by layers `d` without a core
      layer, open exactly the groups `GroupsFrom` lists. */
  lemma {:induction false} BlocksGroups(p: Plan, i: nat, d: seq<Layer>)
    requires WellShaped(p) && i <= |p.widths|
    requires forall j :: 0 <= j < |d| ==> !d[j].Core?
    ensures Groups(Blocks(p, i) + d) == GroupsFrom(p, i, d)
    decreases |p.widths| - i
  {
    if i == |p.widths| {
      assert Blocks(p, i) + d == d + [];
      GroupsSkip(d, []);
      assert GroupsFrom(p, i, d) == [];
    } else {
      BlocksGroupsStep(p, i, d);
      BlocksGroups(p, i + 1, d);
      var x := BlockTail(p, i) + (if i == |p.widths| - 1 then d else []);
      assert Groups(Blocks(p, i) + d) == [x] + GroupsFrom(p, i + 1, d);
      assert GroupsFrom(p, i, d) == [x] + GroupsFrom(p, i + 1, d);
    }
  }

  /** What follows core layer `i` of a network with the plan `p` and
      output dropout `out`: batch normalisation exactly when its entry asks
      for it; the layer's activation; before the last layer, a dropout of
      the layer's rate exactly when that rate is positive; after the last
      layer, only the output dropout, exactly when its rate is strictly
      between 0 and 1. */
  predicate GroupMeets(g: seq<Layer>, p: Plan, i: nat, out: real)
    requires WellShaped(p) && i < |p.widths|
  {
    && (BatchNorm in g <==> p.batchnorm[i])
    && Activation(p.activations[i]) in g
    && (i < |p.widths| - 1 ==>
          && (forall j :: 0 <= j < |g| && g[j].Dropout? ==> g[j] == Dropout(p.layerDropout[i]))
          && (Dropout(p.layerDropout[i]) in g <==> p.layerDropout[i] > 0.0))
    && (i == |p.widths| - 1 ==>
          && (forall j :: 0 <= j < |g| && g[j].Dropout? ==> g[j] == Dropout(out))
          && (Dropout(out) in g <==> 0.0 < out < 1.0))
  }

  lemma GroupOfBlock(p: Plan, i: nat, d: seq<Layer>, out: real)
    requires WellShaped(p) && i < |p.widths|
    requires d == RateDropout(out)
    ensures GroupMeets(BlockTail(p, i) + (if i == |p.widths| - 1 then d else []), p, i, out)
  {
    BlockTailContents(p, i);
    var t := BlockTail(p, i);
    var g := t + (if i == |p.widths| - 1 then d else []);
    forall j | 0 <= j < |g| && g[j].Dropout?
      ensures g[j] == (if i < |p.widths| - 1 then Dropout(p.layerDropout[i]) else Dropout(out))
    {
      if j < |t| {
        assert g[j] == t[j];
      } else {
        assert g[j] == d[j - |t|];
      }
    }
  }

  /** The layers between the core layers of an assembled network. */
  lemma {:induction false} BodyGroups(family: Family, a: NetArgs, p: Prepared)
    requires WellShaped(p.plan)
    ensures var g := Groups(Body(family, a, p));
            && |g| == |p.plan.widths|
            && forall i :: 0 <= i < |g| ==> GroupMeets(g[i], p.plan, i, a.outputDropout)
  {
    var pre, blocks, post := Prefix(family, a, p.shape), Blocks(p.plan, 0), RateDropout(a.outputDropout);
    assert Body(family, a, p) == pre + (blocks + post);
    GroupsSkip(pre, blocks + post);
    BlocksGroupsMeet(p.plan, a.outputDropout);
  }

  /** The blocks followed by the output dropout open one group per core
      layer, each as `GroupMeets` describes. */
  lemma {:induction false} BlocksGroupsMeet(p: Plan, out: real)
    requires WellShaped(p)
    ensures var g := Groups(Blocks(p, 0) + RateDropout(out));
            && |g| == |p.widths|
            && forall i :: 0 <= i < |g| ==> GroupMeets(g[i], p, i, out)
  {
    var post := RateDropout(out);
    BlocksGroups(p, 0, post);
    var g := Groups(Blocks(p, 0) + post);
    forall i | 0 <= i < |g|
      ensures GroupMeets(g[i], p, i, out)
    {
      GroupsFromAt(p, 0, post, i);
      assert 0 + i == i;
      assert g[i] == BlockTail(p, i) + (if i == |p.widths| - 1 then post else []);
      GroupOfBlock(p, i, post, out);
    }
  }

  /** The layers that follow each core layer of a built network, up to the
      next core layer, hold batch normalisation exactly when that layer's
      `batchnorm` entry asks for it, then its activation, then a layer
      dropout exactly when its rate is positive and it is not the last
      layer; after the last core layer comes only the output dropout. */
  lemma {:induction false} BuildGroups(family: Family, a: NetArgs)
    requires Build(family, a).Ok?
    ensures Prepare(family, a).Ok? && WellShaped(Prepare(family, a).value.plan)
    ensures var g, p := Groups(Build(family, a).value.body), Prepare(family, a).value.plan;
            && |g| == |AsTuple(a.widths)|
            && forall i :: 0 <= i < |g| ==> GroupMeets(g[i], p, i, a.outputDropout)
  {
    BuildBody(family, a);
    BodyGroups(family, a, Prepare(family, a).value);
  }

  // ---------------------------------------------------------------------
  // Properties of transpose
  // ---------------------------------------------------------------------

  /** What `_store_arguments` keeps of a built network: the broadcast
      tuples, one entry per layer. */
  lemma StoredTuples(family: Family, a: NetArgs)
    requires Build(family, a).Ok?
    ensures var s, p := Build(family, a).value.stored, Prepare(family, a).value.plan;
            && s.widths == Many(p.widths)
            && s.activation == Many(p.activations)
            && s.useBias == Many(p.useBias)
            && s.batchnorm == Many(p.batchnorm)
            && s.layerDropout == Many(p.layerDropout)
            && s.options.Keys == OptionKeys(family)
            && (forall k :: k in s.options ==> s.options[k] == Many(p.options[k]))
            && s.inputDropout == a.inputDropout && s.outputDropout == a.outputDropout
            && s.flatten == a.flatten
            && (family == Dense ==> s.inputShape == a.inputShape)
  {
    BuildIsAssembly(family, a);
  }

  /** Two networks whose width tuples are each other's reversal have
      core layers of reversed widths. */
  lemma ReversedWidths(family: Family, a: NetArgs, family2: Family, a2: NetArgs)
    requires Build(family, a).Ok? && Build(family2, a2).Ok?
    requires AsTuple(a2.widths) == Reverse(AsTuple(a.widths))
    ensures CoreWidths(Build(family2, a2).value.body) == Reverse(CoreWidths(Build(family, a).value.body))
  {
    BuildWidths(family, a);
    BuildWidths(family2, a2);
  }

  /** On a network not yet in the memo, `DenseNetwork.transpose` is the
      constructor call on the rewritten arguments. */
  lemma DenseTransposeCalls(memo: Memo, id: nat, net: Network, selfName: string,
                            inputShape: Option<seq<int>>, tied: bool)
    requires id !in memo
    ensures DenseTranspose(memo, id, net, selfName, inputShape, tied).0
            == Build(Dense, DenseTransposeArgs(net.stored, selfName, inputShape, tied))
  {
  }

  /** Arguments whose per-layer tuples all have the layer count as length
      (or are single values) pass `_as_arg_tuples`; with a known keyword
      set, an accepted rank and a bound layer class, construction
      succeeds. */
  lemma PrepareSucceeds(family: Family, a: NetArgs)
    requires a.options.Keys <= OptionKeys(family)
    requires family != Dense ==> RankAndInputShape(a.rank, a.inputShape).Ok?
    requires var n := |AsTuple(a.widths)|;
             && |AsTuple(a.activation)| == n && |AsTuple(a.useBias)| == n
             && |AsTuple(a.batchnorm)| == n && |AsTuple(a.layerDropout)| == n
             && forall k :: k in a.options ==> a.options[k].One? || |AsTuple(a.options[k])| == n
    requires CoreKindFor(family, if family == Dense then 0 else RankAndInputShape(a.rank, a.inputShape).value.0,
                         |AsTuple(a.widths)|).Ok?
    ensures Build(family, a).Ok?
  {
    KindDecides(family, a);
  }

  /** When the keywords, the rank and every tuple length are accepted, the
      layer class alone decides construction: its error is the
      constructor's error. */
  lemma {:induction false} KindDecides(family: Family, a: NetArgs)
    requires a.options.Keys <= OptionKeys(family)
    requires family != Dense ==> RankAndInputShape(a.rank, a.inputShape).Ok?
    requires var n := |AsTuple(a.widths)|;
             && |AsTuple(a.activation)| == n && |AsTuple(a.useBias)| == n
             && |AsTuple(a.batchnorm)| == n && |AsTuple(a.layerDropout)| == n
             && forall k :: k in a.options ==> a.options[k].One? || |AsTuple(a.options[k])| == n
    ensures var kind := CoreKindFor(family, if family == Dense then 0 else RankAndInputShape(a.rank, a.inputShape).value.0,
                                    |AsTuple(a.widths)|);
            && (kind.Ok? ==> Build(family, a).Ok?)
            && (kind.Err? ==> Build(family, a) == Err(kind.error))
  {
    var n := |AsTuple(a.widths)|;
    var m := Defaults(family) + a.options;
    forall k | k in m
      ensures Broadcast(m[k], n).Ok?
    {
      if k !in a.options {
        assert m[k] == Defaults(family)[k];
      }
    }
    assert BroadcastAll(m, n).Ok?;
    assert && Broadcast(a.activation, n).Ok? && Broadcast(a.useBias, n).Ok?
           && Broadcast(a.batchnorm, n).Ok? && Broadcast(a.layerDropout, n).Ok?;
    var kind := CoreKindFor(family, if family == Dense then 0 else RankAndInputShape(a.rank, a.inputShape).value.0, n);
    assert Prepare(family, a).Ok? <==> kind.Ok?;
    assert kind.Err? ==> Prepare(family, a) == Err(kind.error);
  }

  /** `DenseNetwork.transpose` on a fresh network succeeds and yields the
      core layers in reverse width order, never flattening, with the new
      input shape. */
  lemma DenseTransposeReverses(memo: Memo, id: nat, a: NetArgs, selfName: string,
                               inputShape: Option<seq<int>>, tied: bool)
    requires Build(Dense, a).Ok? && id !in memo
    ensures var net := Build(Dense, a).value;
            var r := DenseTranspose(memo, id, net, selfName, inputShape, tied);
            && r.0.Ok?
            && Build(Dense, DenseTransposeArgs(net.stored, selfName, inputShape, tied)).Ok?
            && r.0.value == Build(Dense, DenseTransposeArgs(net.stored, selfName, inputShape, tied)).value
            && CoreWidths(r.0.value.body) == Reverse(CoreWidths(net.body))
            && r.0.value.stored.flatten == false
            && r.0.value.stored.inputShape == inputShape
  {
    var net := Build(Dense, a).value;
    var targs := DenseTransposeArgs(net.stored, selfName, inputShape, tied);
    StoredTuples(Dense, a);
    PrepareSucceeds(Dense, targs);
    DenseTransposeCalls(memo, id, net, selfName, inputShape, tied);
    ReversedWidths(Dense, a, Dense, targs);
    StoredTuples(Dense, targs);
  }

  /** Every core layer carries, under each forwarded keyword, its entry of
      that keyword's broadcast tuple; a keyword given as one value gives
      every layer that value. */
  lemma BuildCoreOptions(family: Family, a: NetArgs)
    requires Build(family, a).Ok?
    ensures var cs := Cores(Build(family, a).value.body);
            var n := |AsTuple(a.widths)|;
            var m := Defaults(family) + a.options;
            && |cs| == n
            && (forall k :: k in m ==> Broadcast(m[k], n).Ok?)
            && forall i, k :: 0 <= i < |cs| && k in m ==>
                 k in cs[i].options && cs[i].options[k] == Broadcast(m[k], n).value[i]
  {
    BuildCores(family, a);
    var p := Prepare(family, a).value.plan;
    var cs := Cores(Build(family, a).value.body);
    var n := |AsTuple(a.widths)|;
    var m := Defaults(family) + a.options;
    assert BroadcastAll(m, n) == Ok(p.options);
    forall i, k | 0 <= i < |cs| && k in m
      ensures k in cs[i].options && cs[i].options[k] == Broadcast(m[k], n).value[i]
    {
      assert cs[i] == CoreOf(p, i);
      CoreOption(p, i, k);
    }
  }

  /** With tied weights, no core layer of the transpose keeps a kernel
      constraint or regularizer. */
  lemma DenseTransposeTied(memo: Memo, id: nat, a: NetArgs, selfName: string, inputShape: Option<seq<int>>)
    requires Build(Dense, a).Ok? && id !in memo
    ensures var r := DenseTranspose(memo, id, Build(Dense, a).value, selfName, inputShape, true);
            && r.0.Ok?
            && var cs := Cores(r.0.value.body);
               forall i :: 0 <= i < |cs| ==>
                 && "kernel_constraint" in cs[i].options && cs[i].options["kernel_constraint"] == None
                 && "kernel_regularizer" in cs[i].options && cs[i].options["kernel_regularizer"] == None
  {
    var net := Build(Dense, a).value;
    var targs := DenseTransposeArgs(net.stored, selfName, inputShape, true);
    DenseTransposeBuilds(a, selfName, inputShape, true);
    DenseTransposeCalls(memo, id, net, selfName, inputShape, true);
    TiedArgsCleared(net.stored, selfName, inputShape);
    TiedCoresCleared(targs);
  }

  /** The rewritten arguments of a built dense network build again. */
  lemma DenseTransposeBuilds(a: NetArgs, selfName: string, inputShape: Option<seq<int>>, tied: bool)
    requires Build(Dense, a).Ok?
    ensures Build(Dense, DenseTransposeArgs(Build(Dense, a).value.stored, selfName, inputShape, tied)).Ok?
  {
    var targs := DenseTransposeArgs(Build(Dense, a).value.stored, selfName, inputShape, tied);
    StoredTuples(Dense, a);
    PrepareSucceeds(Dense, targs);
  }

  /** With tied weights the rewritten arguments set the kernel constraint
      and regularizer to `None` for every layer. */
  lemma TiedArgsCleared(s: NetArgs, selfName: string, inputShape: Option<seq<int>>)
    ensures var t := DenseTransposeArgs(s, selfName, inputShape, true);
            && "kernel_constraint" in t.options && t.options["kernel_constraint"] == One(None)
            && "kernel_regularizer" in t.options && t.options["kernel_regularizer"] == One(None)
  {
  }

  /** Arguments rewritten for tied weights build core layers without a
      kernel constraint or regularizer. */
  lemma TiedCoresCleared(targs: NetArgs)
    requires Build(Dense, targs).Ok?
    requires "kernel_constraint" in targs.options && targs.options["kernel_constraint"] == One(None)
    requires "kernel_regularizer" in targs.options && targs.options["kernel_regularizer"] == One(None)
    ensures var cs := Cores(Build(Dense, targs).value.body);
            forall i :: 0 <= i < |cs| ==>
              && "kernel_constraint" in cs[i].options && cs[i].options["kernel_constraint"] == None
              && "kernel_regularizer" in cs[i].options && cs[i].options["kernel_regularizer"] == None
  {
    CoresOptionFixed(Dense, targs, "kernel_constraint", None);
    CoresOptionFixed(Dense, targs, "kernel_regularizer", None);
  }

  /** A keyword given as one value reaches every core layer as that
      value. */
  lemma CoresOptionFixed(family: Family, a: NetArgs, key: string, v: Setting)
    requires Build(family, a).Ok? && key in a.options && a.options[key] == One(v)
    ensures var cs := Cores(Build(family, a).value.body);
            forall i :: 0 <= i < |cs| ==> key in cs[i].options && cs[i].options[key] == v
  {
    BuildCoreOptions(family, a);
    assert (Defaults(family) + a.options)[key] == One(v);
  }

  /** Transposing the transpose gives back the original layer widths. */
  lemma DenseTransposeTwice(memo: Memo, id: nat, id2: nat, a: NetArgs, selfName: string, selfName2: string,
                            inputShape: Option<seq<int>>, inputShape2: Option<seq<int>>, tied: bool)
    requires Build(Dense, a).Ok? && id !in memo
    requires id2 !in DenseTranspose(memo, id, Build(Dense, a).value, selfName, inputShape, tied).1
    ensures var net := Build(Dense, a).value;
            var (r, memo2) := DenseTranspose(memo, id, net, selfName, inputShape, tied);
            r.Ok? &&
            var (r2, _) := DenseTranspose(memo2, id2, r.value, selfName2, inputShape2, tied);
            r2.Ok? && CoreWidths(r2.value.body) == CoreWidths(net.body)
  {
    var net := Build(Dense, a).value;
    DenseTransposeReverses(memo, id, a, selfName, inputShape, tied);
    var (r, memo2) := DenseTranspose(memo, id, net, selfName, inputShape, tied);
    var targs := DenseTransposeArgs(net.stored, selfName, inputShape, tied);
    DenseTransposeReverses(memo2, id2, targs, selfName2, inputShape2, tied);
    ReverseInvolution(CoreWidths(net.body));
  }

  /** As written, a network not yet transposed can never be transposed:
      the constructor rejects the stored `nlayers` keyword. */
  lemma DenseTransposeAsWrittenFails(memo: Memo, id: nat, net: Network, selfName: string,
                                     inputShape: Option<seq<int>>, tied: bool)
    requires id !in memo
    ensures DenseTransposeAsWritten(memo, id, net, selfName, inputShape, tied) == (Err(TypeError), memo)
  {
    OptionKeysNested();
  }

  /** On a network not yet in the memo and without tied weights,
      `ConvNetwork.transpose` is the extra-projection check followed by
      the `DeconvNetwork` call on the reversed arguments. */
  lemma ConvTransposeCalls(memo: Memo, id: nat, net: Network, start: seq<Layer>, outputChannel: Option<int>)
    requires net.stored.rank.Some? && id !in memo
    ensures var s := net.stored;
            var extra := ExtraProjection(s.rank.value, Reverse(AsTuple(s.widths)), outputChannel);
            ConvTranspose(memo, id, net, false, start, outputChannel).0
            == if extra.Err? then Err(extra.error)
               else Build(Deconv, ConvTransposeArgs(s, s.rank.value, start, extra.value))
  {
    assert AsTuple(ReverseArg(net.stored.widths)) == Reverse(AsTuple(net.stored.widths)) by {
      StoredIsMany(net.stored.widths);
    }
  }

  lemma StoredIsMany<T>(a: Arg<T>)
    ensures a.Many? ==> AsTuple(ReverseArg(a)) == Reverse(AsTuple(a))
  {
  }

  /** The resolved rank of a built convolutional network. */
  function ConvRank(a: NetArgs): int
    requires RankAndInputShape(a.rank, a.inputShape).Ok?
  {
    RankAndInputShape(a.rank, a.inputShape).value.0
  }

  /** The reversed arguments of a rank-1 or rank-2 convolutional network
      are accepted by `DeconvNetwork`. */
  lemma ConvTransposeArgsBuild(a: NetArgs, start: seq<Layer>, extra: seq<Layer>)
    requires Build(Conv, a).Ok?
    requires ConvRank(a) == 1 || ConvRank(a) == 2
    ensures var targs := ConvTransposeArgs(Build(Conv, a).value.stored, ConvRank(a), start, extra);
            && Build(Deconv, targs).Ok?
            && CoreWidths(Build(Deconv, targs).value.body) == Reverse(CoreWidths(Build(Conv, a).value.body))
  {
    var targs := ConvTransposeArgs(Build(Conv, a).value.stored, ConvRank(a), start, extra);
    TransposeArgsShaped(a, ConvRank(a), start, extra);
    ShapedDeconvBuilds(targs, |AsTuple(a.widths)|, ConvRank(a));
    ReversedWidths(Conv, a, Deconv, targs);
  }

  /** Rank-1 or rank-2 arguments with accepted keywords, no input shape
      and uniform tuple lengths build a `DeconvNetwork`. */
  lemma ShapedDeconvBuilds(targs: NetArgs, n: nat, rank: int)
    requires rank == 1 || rank == 2
    requires targs.options.Keys <= OptionKeys(Deconv)
    requires RankAndInputShape(targs.rank, targs.inputShape) == Ok((rank, None))
    requires && |AsTuple(targs.widths)| == n
             && |AsTuple(targs.activation)| == n && |AsTuple(targs.useBias)| == n
             && |AsTuple(targs.batchnorm)| == n && |AsTuple(targs.layerDropout)| == n
    requires forall k :: k in targs.options ==> |AsTuple(targs.options[k])| == n
    ensures Build(Deconv, targs).Ok?
  {
    PrepareSucceeds(Deconv, targs);
  }

  /** `ConvNetwork.transpose` of a rank-1 or rank-2 network whose extra
      projection is well defined builds a `DeconvNetwork` with the core
      widths reversed, between the given start layers and the extra
      projection. */
  lemma {:induction false} ConvTransposeReverses(memo: Memo, id: nat, a: NetArgs, start: seq<Layer>, outputChannel: Option<int>)
    requires Build(Conv, a).Ok? && id !in memo
    requires ConvRank(a) == 1 || ConvRank(a) == 2
    requires ExtraProjection(ConvRank(a), Reverse(AsTuple(a.widths)), outputChannel).Ok?
    ensures var net := Build(Conv, a).value;
            var r := ConvTranspose(memo, id, net, false, start, outputChannel);
            var extra := ExtraProjection(ConvRank(a), Reverse(AsTuple(a.widths)), outputChannel).value;
            && r.0.Ok?
            && r.0.value == Build(Deconv, ConvTransposeArgs(net.stored, ConvRank(a), start, extra)).value
            && r.0.value.family == Deconv
            && CoreWidths(r.0.value.body) == Reverse(CoreWidths(net.body))
            && r.0.value.layers == start + r.0.value.body + extra
  {
    var net := Build(Conv, a).value;
    var s := net.stored;
    assert s.rank == Some(ConvRank(a)) && AsTuple(s.widths) == AsTuple(a.widths);
    var extra := ExtraProjection(ConvRank(a), Reverse(AsTuple(a.widths)), outputChannel).value;
    var targs := ConvTransposeArgs(s, ConvRank(a), start, extra);
    ConvTransposeCalls(memo, id, net, start, outputChannel);
    assert ConvTranspose(memo, id, net, false, start, outputChannel).0 == Build(Deconv, targs);
    ConvTransposeArgsBuild(a, start, extra);
    BuildIsAssembly(Deconv, targs);
  }

  /** The core layers of a built network are its plan's cores. */
  lemma {:induction false} BuildCoresArePlan(family: Family, a: NetArgs)
    requires Build(family, a).Ok?
    ensures Prepare(family, a).Ok? && WellShaped(Prepare(family, a).value.plan)
    ensures var cs, p := Cores(Build(family, a).value.body), Prepare(family, a).value.plan;
            && |cs| == |p.widths|
            && forall i :: 0 <= i < |cs| ==> cs[i] == CoreOf(p, i)
  {
    BuildBody(family, a);
    BodyCores(family, a, Prepare(family, a).value);
  }

  /** The plan of the transpose holds the original plan's `use_bias` and
      `batchnorm` tuples reversed. */
  lemma TransposedTuples(a: NetArgs, start: seq<Layer>, extra: seq<Layer>)
    requires Build(Conv, a).Ok?
    requires ConvRank(a) == 1 || ConvRank(a) == 2
    ensures var targs := ConvTransposeArgs(Build(Conv, a).value.stored, ConvRank(a), start, extra);
            var p := Prepare(Conv, a).value.plan;
            && Prepare(Deconv, targs).Ok?
            && Prepare(Deconv, targs).value.plan.useBias == Reverse(p.useBias)
            && Prepare(Deconv, targs).value.plan.batchnorm == Reverse(p.batchnorm)
  {
    ConvTransposeArgsBuild(a, start, extra);
    StoredTuples(Conv, a);
  }

  /** Broadcasting the reversed stored options over the deconvolution
      defaults gives each stored tuple reversed, and `None` output padding
      (a pure statement about the option maps). */
  lemma ReversedOptionsPlan(so: map<string, Arg<Setting>>, po: map<string, seq<Setting>>,
                            qo: map<string, seq<Setting>>, n: nat)
    requires so.Keys == OptionKeys(Conv)
    requires forall k :: k in so ==> k in po && so[k] == Many(po[k]) && |po[k]| == n
    requires BroadcastAll(Defaults(Deconv) + (map k | k in so :: ReverseArg(so[k])), n) == Ok(qo)
    ensures forall k :: k in OptionKeys(Conv) ==> k in po && k in qo && qo[k] == Reverse(po[k])
    ensures "output_padding" in qo
    ensures forall i :: 0 <= i < |qo["output_padding"]| ==> qo["output_padding"][i] == None
  {
    var to := map k | k in so :: ReverseArg(so[k]);
    var mt := Defaults(Deconv) + to;
    forall k | k in OptionKeys(Conv)
      ensures k in qo && qo[k] == Reverse(po[k])
    {
      assert mt[k] == to[k];
      assert to[k] == Many(Reverse(po[k]));
    }
    OptionKeysNested();
    assert "output_padding" !in to;
    assert mt["output_padding"] == Defaults(Deconv)["output_padding"];
  }

  /** The plan of the transpose holds every forwarded tuple reversed, and
      output padding `None` for every layer. */
  lemma TransposedOptions(a: NetArgs, start: seq<Layer>, extra: seq<Layer>)
    requires Build(Conv, a).Ok?
    requires ConvRank(a) == 1 || ConvRank(a) == 2
    ensures var targs := ConvTransposeArgs(Build(Conv, a).value.stored, ConvRank(a), start, extra);
            var p := Prepare(Conv, a).value.plan;
            && Prepare(Deconv, targs).Ok?
            && var q := Prepare(Deconv, targs).value.plan;
               && (forall k :: k in OptionKeys(Conv) ==> k in p.options && k in q.options && q.options[k] == Reverse(p.options[k]))
               && "output_padding" in q.options
               && forall i :: 0 <= i < |q.options["output_padding"]| ==> q.options["output_padding"][i] == None
  {
    var net := Build(Conv, a).value;
    var targs := ConvTransposeArgs(net.stored, ConvRank(a), start, extra);
    ConvTransposeArgsBuild(a, start, extra);
    StoredTuples(Conv, a);
    var n := |AsTuple(a.widths)|;
    var p := Prepare(Conv, a).value.plan;
    var q := Prepare(Deconv, targs).value.plan;
    assert |AsTuple(targs.widths)| == n;
    forall k | k in net.stored.options
      ensures k in p.options && |p.options[k]| == n
    {
    }
    ReversedOptionsPlan(net.stored.options, p.options, q.options, n);
  }

  /** Reversing a plan's `use_bias` and `batchnorm` tuples mirrors the
      bias flags of its core layers. */
  lemma MirroredBias(cs: seq<Layer>, ct: seq<Layer>, p: Plan, q: Plan)
    requires WellShaped(p) && WellShaped(q) && |q.widths| == |p.widths|
    requires |cs| == |p.widths| && forall i :: 0 <= i < |cs| ==> cs[i] == CoreOf(p, i)
    requires |ct| == |q.widths| && forall i :: 0 <= i < |ct| ==> ct[i] == CoreOf(q, i)
    requires q.useBias == Reverse(p.useBias) && q.batchnorm == Reverse(p.batchnorm)
    ensures |ct| == |cs|
    ensures forall i :: 0 <= i < |ct| ==>
              ct[i].Core? && cs[|cs| - 1 - i].Core? && ct[i].useBias == cs[|cs| - 1 - i].useBias
  {
  }

  /** Core layer `i` of the transpose has the bias of core layer
      `n - 1 - i` of the original: the `use_bias` and `batchnorm` tuples
      are reversed together. */
  lemma ConvTransposeMirrorsBias(a: NetArgs, start: seq<Layer>, extra: seq<Layer>)
    requires Build(Conv, a).Ok?
    requires ConvRank(a) == 1 || ConvRank(a) == 2
    ensures var targs := ConvTransposeArgs(Build(Conv, a).value.stored, ConvRank(a), start, extra);
            var cs := Cores(Build(Conv, a).value.body);
            && Build(Deconv, targs).Ok?
            && var ct := Cores(Build(Deconv, targs).value.body);
               && |ct| == |cs|
               && forall i :: 0 <= i < |ct| ==>
                    ct[i].Core? && cs[|cs| - 1 - i].Core? && ct[i].useBias == cs[|cs| - 1 - i].useBias
  {
    var targs := ConvTransposeArgs(Build(Conv, a).value.stored, ConvRank(a), start, extra);
    TransposedTuples(a, start, extra);
    BuildCoresArePlan(Conv, a);
    BuildCoresArePlan(Deconv, targs);
    BuildWidths(Conv, a);
    BuildWidths(Deconv, targs);
    MirroredBias(Cores(Build(Conv, a).value.body), Cores(Build(Deconv, targs).value.body),
                 Prepare(Conv, a).value.plan, Prepare(Deconv, targs).value.plan);
  }

  /** Core layer `i` carries entry `i` of every forwarded tuple. */
  lemma CoreOption(p: Plan, i: nat, k: string)
    requires WellShaped(p) && i < |p.widths| && k in p.options
    ensures CoreOf(p, i).Core? && k in CoreOf(p, i).options && CoreOf(p, i).options[k] == p.options[k][i]
  {
  }

  /** Options mirror: every forwarded setting of core layer `i` of the
      transpose is the one of core layer `n - 1 - i` of the original (a
      pure statement about two plans). */
  lemma {:induction false} MirroredOptions(cs: seq<Layer>, ct: seq<Layer>, p: Plan, q: Plan, keys: set<string>)
    requires WellShaped(p) && WellShaped(q) && |q.widths| == |p.widths|
    requires |cs| == |p.widths| && forall i :: 0 <= i < |cs| ==> cs[i] == CoreOf(p, i)
    requires |ct| == |q.widths| && forall i :: 0 <= i < |ct| ==> ct[i] == CoreOf(q, i)
    requires forall k :: k in keys ==> k in p.options && k in q.options && q.options[k] == Reverse(p.options[k])
    ensures |ct| == |cs|
    ensures forall i, k :: 0 <= i < |ct| && k in keys ==>
              && ct[i].Core? && cs[|cs| - 1 - i].Core?
              && k in ct[i].options && k in cs[|cs| - 1 - i].options
              && ct[i].options[k] == cs[|cs| - 1 - i].options[k]
  {
    forall i, k | 0 <= i < |ct| && k in keys
      ensures && ct[i].Core? && cs[|cs| - 1 - i].Core?
              && k in ct[i].options && k in cs[|cs| - 1 - i].options
              && ct[i].options[k] == cs[|cs| - 1 - i].options[k]
    {
      var j := |cs| - 1 - i;
      assert ct[i] == CoreOf(q, i) && cs[j] == CoreOf(p, j);
      MirroredOption(p, q, i, k);
    }
  }

  /** One forwarded setting of one mirrored pair of core layers. */
  lemma MirroredOption(p: Plan, q: Plan, i: nat, k: string)
    requires WellShaped(p) && WellShaped(q) && |q.widths| == |p.widths| && i < |p.widths|
    requires k in p.options && k in q.options && q.options[k] == Reverse(p.options[k])
    ensures var j := |p.widths| - 1 - i;
            && k in CoreOf(q, i).options && k in CoreOf(p, j).options
            && CoreOf(q, i).options[k] == CoreOf(p, j).options[k]
  {
    var j := |p.widths| - 1 - i;
    var po := p.options[k];
    assert Reverse(po)[i] == po[j];
    CoreOption(q, i, k);
    CoreOption(p, j, k);
  }

  /** Every forwarded setting (kernel size, strides, padding, dilation,
      activations of the regularisers and constraints, ...) of core layer
      `i` of the transpose is the one of core layer `n - 1 - i` of the
      original. */
  lemma ConvTransposeMirrorsOptions(a: NetArgs, start: seq<Layer>, extra: seq<Layer>)
    requires Build(Conv, a).Ok?
    requires ConvRank(a) == 1 || ConvRank(a) == 2
    ensures var targs := ConvTransposeArgs(Build(Conv, a).value.stored, ConvRank(a), start, extra);
            var cs := Cores(Build(Conv, a).value.body);
            && Build(Deconv, targs).Ok?
            && var ct := Cores(Build(Deconv, targs).value.body);
               && |ct| == |cs|
               && forall i, k :: 0 <= i < |ct| && k in OptionKeys(Conv) ==>
                    && ct[i].Core? && cs[|cs| - 1 - i].Core?
                    && k in ct[i].options && k in cs[|cs| - 1 - i].options
                    && ct[i].options[k] == cs[|cs| - 1 - i].options[k]
  {
    var targs := ConvTransposeArgs(Build(Conv, a).value.stored, ConvRank(a), start, extra);
    TransposedOptions(a, start, extra);
    BuildCoresArePlan(Conv, a);
    BuildCoresArePlan(Deconv, targs);
    BuildWidths(Conv, a);
    BuildWidths(Deconv, targs);
    MirroredOptions(Cores(Build(Conv, a).value.body), Cores(Build(Deconv, targs).value.body),
                    Prepare(Conv, a).value.plan, Prepare(Deconv, targs).value.plan, OptionKeys(Conv));
  }

  /** Reversing stored per-layer tuples of one length `n` (a pure
      statement about the argument record). */
  lemma ReversedArgsShaped(s: NetArgs, n: nat, rank: int, start: seq<Layer>, extra: seq<Layer>)
    requires s.widths.Many? && s.activation.Many? && s.useBias.Many? && s.batchnorm.Many? && s.layerDropout.Many?
    requires |AsTuple(s.widths)| == n && |AsTuple(s.activation)| == n && |AsTuple(s.useBias)| == n
    requires |AsTuple(s.batchnorm)| == n && |AsTuple(s.layerDropout)| == n
    requires s.options.Keys == OptionKeys(Conv)
    requires forall k :: k in s.options ==> s.options[k].Many? && |AsTuple(s.options[k])| == n
    ensures var targs := ConvTransposeArgs(s, rank, start, extra);
            && targs.options.Keys <= OptionKeys(Deconv)
            && RankAndInputShape(targs.rank, targs.inputShape) == Ok((rank, None))
            && |AsTuple(targs.widths)| == n
            && |AsTuple(targs.activation)| == n && |AsTuple(targs.useBias)| == n
            && |AsTuple(targs.batchnorm)| == n && |AsTuple(targs.layerDropout)| == n
            && forall k :: k in targs.options ==> |AsTuple(targs.options[k])| == n
  {
    var targs := ConvTransposeArgs(s, rank, start, extra);
    OptionKeysNested();
    forall k | k in targs.options
      ensures |AsTuple(targs.options[k])| == n
    {
      assert targs.options[k] == ReverseArg(s.options[k]);
    }
  }

  /** The reversed arguments `ConvNetwork.transpose` builds pass the
      keyword, rank and tuple-length checks of `DeconvNetwork`. */
  lemma TransposeArgsShaped(a: NetArgs, rank: int, start: seq<Layer>, extra: seq<Layer>)
    requires Build(Conv, a).Ok?
    ensures var targs := ConvTransposeArgs(Build(Conv, a).value.stored, rank, start, extra);
            var n := |AsTuple(a.widths)|;
            && targs.options.Keys <= OptionKeys(Deconv)
            && RankAndInputShape(targs.rank, targs.inputShape) == Ok((rank, None))
            && |AsTuple(targs.widths)| == n
            && |AsTuple(targs.activation)| == n && |AsTuple(targs.useBias)| == n
            && |AsTuple(targs.batchnorm)| == n && |AsTuple(targs.layerDropout)| == n
            && (forall k :: k in targs.options ==> |AsTuple(targs.options[k])| == n)
            && AsTuple(targs.widths) == Reverse(AsTuple(a.widths))
  {
    StoredTuples(Conv, a);
    var p := Prepare(Conv, a).value.plan;
    assert WellShaped(p);
    ReversedArgsShaped(Build(Conv, a).value.stored, |AsTuple(a.widths)|, rank, start, extra);
  }

  /** The reversed arguments of a rank-3 convolutional network are
      refused by `DeconvNetwork` with `NotImplementedError`. */
  lemma ConvTransposeArgsRank3(a: NetArgs, start: seq<Layer>, extra: seq<Layer>)
    requires Build(Conv, a).Ok? && ConvRank(a) == 3
    ensures Build(Deconv, ConvTransposeArgs(Build(Conv, a).value.stored, 3, start, extra)) == Err(NotImplementedError)
  {
    TransposeArgsShaped(a, 3, start, extra);
    KindDecides(Deconv, ConvTransposeArgs(Build(Conv, a).value.stored, 3, start, extra));
  }

  /** `ConvNetwork.transpose` of a rank-3 network fails with
      `NotImplementedError`: either the extra projection refuses rank 3 or
      `DeconvNetwork` does. Nothing is memoised. */
  lemma ConvTransposeRank3(memo: Memo, id: nat, a: NetArgs, start: seq<Layer>, outputChannel: Option<int>)
    requires Build(Conv, a).Ok? && id !in memo && ConvRank(a) == 3
    requires outputChannel.None? || |AsTuple(a.widths)| > 0
    ensures ConvTranspose(memo, id, Build(Conv, a).value, false, start, outputChannel) == (Err(NotImplementedError), memo)
  {
    var net := Build(Conv, a).value;
    assert net.stored.rank == Some(3);
    assert AsTuple(net.stored.widths) == AsTuple(a.widths);
    var extra := ExtraProjection(3, Reverse(AsTuple(net.stored.widths)), outputChannel);
    ConvTransposeCalls(memo, id, net, start, outputChannel);
    if extra.Ok? {
      ConvTransposeArgsRank3(a, start, extra.value);
    }
  }
}
