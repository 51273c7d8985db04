/**
 The structural bookkeeping of the hierarchical variational autoencoders
 (odin/bay/vi/autoencoder/hierarchical_vae.py): which ladder networks and
 distribution heads `StackedVAE`, `LadderVAE`, `UnetVAE` and `PUnetVAE`
 create, and in which order `encode` and `decode` wire them together.

 Layers and distribution heads are opaque and identified by their names;
 what they compute is represented symbolically by a `Term` recording which
 layer or head was applied to what.
 */
module Hierarchical {
  import opened Common

  /** A symbolic tensor or distribution. */
  datatype Term =
    | Input
    | Apply(layer: string, arg: Term)  // a layer or network called on `arg`
    | Dist(head: string, arg: Term)    // a distribution head called on `arg`
    | Sample(d: Term)                  // `tf.convert_to_tensor` of a distribution
    | Mean(d: Term)                    // `d.mean()`
    | Merge(p: Term, q: Term)          // `LadderMergeDistribution([p, q])`
    | Add(x: Term, y: Term)            // `x + y`
    | Flat(x: Term)                    // `Flatten()(x)`

  /** The networks and heads the base autoencoder owns. */
  const EncoderNet: string := "encoder"
  const DecoderNet: string := "decoder"
  const LatentsHead: string := "latents"
  const ObservationHead: string := "observation"
  const DropoutLayer: string := "dropout"
  const NoiseLayer: string := "noise"

  /** The name `f'{prefix}{i}'`. */
  function Indexed(prefix: string, i: nat): string {
    prefix + NatToString(i)
  }

  /** Names built from one prefix and distinct indices are distinct. */
  lemma IndexedInjective(prefix: string, i: nat, j: nat)
    ensures Indexed(prefix, i) == Indexed(prefix, j) ==> i == j
  {
    if Indexed(prefix, i) == Indexed(prefix, j) {
      PrefixCancel(prefix, NatToString(i), NatToString(j));
      NatToStringInjective(i, j);
    }
  }

  // ---------------------------------------------------------------------
  // StackedVAE
  // ---------------------------------------------------------------------

  /** A ladder network `NetConf([units] * ladder_layers)`: its name and the
      width of each of its layers. */
  datatype LadderNet = LadderNet(name: string, units: seq<int>)

  /** A distribution head `RVmeta(units, ...)`. */
  datatype Head = Head(name: string, units: int)

  /** The ladder of a `StackedVAE`: one encoder network, decoder network,
      posterior head and prior head per ladder step. */
  datatype Stacked = Stacked(encoder: seq<LadderNet>, decoder: seq<LadderNet>,
                             qz: seq<Head>, pz: seq<Head>,
                             stochastic: bool, onlyMeanUp: bool)

  /** One entry per ladder step in each of the four lists. */
  predicate ValidStacked(c: Stacked) {
    |c.decoder| == |c.encoder| && |c.qz| == |c.encoder| && |c.pz| == |c.encoder|
  }

  /** `StackedVAE.__init__`: the hidden and latent lists must have one
      length; the encoder ladder follows the hidden widths, the decoder
      ladder the hidden widths reversed; tied latents share the posterior
      heads as priors. */
  function StackedInit(hiddens: seq<int>, latents: seq<int>, layers: nat, tie: bool,
                       stochastic: bool, onlyMeanUp: bool): (r: Result<Stacked>)
    ensures r.Ok? <==> |hiddens| == |latents|
    ensures r.Err? ==> r.error == AssertionError
    ensures r.Ok? ==> ValidStacked(r.value) && |r.value.encoder| == |hiddens|
    ensures r.Ok? ==> r.value.stochastic == stochastic && r.value.onlyMeanUp == onlyMeanUp
  {
    if |hiddens| != |latents| then Err(AssertionError)
    else
      var n := |hiddens|;
      var qz := seq(n, i requires 0 <= i < n => Head(Indexed("qZ", i), latents[i]));
      var pz := if tie then qz else seq(n, i requires 0 <= i < n => Head(Indexed("pZ", i), latents[i]));
      Ok(Stacked(
           seq(n, i requires 0 <= i < n => LadderNet(Indexed("LadderEncoder", i), seq(layers, l => hiddens[i]))),
           seq(n, i requires 0 <= i < n => LadderNet(Indexed("LadderDecoder", i), seq(layers, l => hiddens[n - 1 - i]))),
           qz, pz, stochastic, onlyMeanUp))
  }

  /** The decoder ladder mirrors the encoder ladder: decoder network `i`
      has the widths of encoder network `n - 1 - i`; each network has
      `ladder_layers` layers of its step's width; prior `i` has the width
      of posterior `i`, and with tied latents it is that posterior. */
  lemma StackedLadders(hiddens: seq<int>, latents: seq<int>, layers: nat, tie: bool,
                       stochastic: bool, onlyMeanUp: bool)
    requires StackedInit(hiddens, latents, layers, tie, stochastic, onlyMeanUp).Ok?
    ensures var c, n := StackedInit(hiddens, latents, layers, tie, stochastic, onlyMeanUp).value, |hiddens|;
            && (forall i :: 0 <= i < n ==> c.decoder[i].units == c.encoder[n - 1 - i].units)
            && (forall i :: 0 <= i < n ==> |c.encoder[i].units| == layers)
            && (forall i, l :: 0 <= i < n && 0 <= l < layers ==> c.encoder[i].units[l] == hiddens[i])
            && (forall i :: 0 <= i < n ==> c.qz[i] == Head(Indexed("qZ", i), latents[i]))
            && (forall i :: 0 <= i < n ==> c.pz[i].units == c.qz[i].units)
            && (tie ==> c.pz == c.qz)
            && (!tie ==> forall i :: 0 <= i < n ==> c.pz[i].name == Indexed("pZ", i))
  {
  }

  /** Without tied latents the priors are separate heads: no prior has the
      name of any posterior. */
  lemma UntiedHeadsDistinct(hiddens: seq<int>, latents: seq<int>, layers: nat,
                            stochastic: bool, onlyMeanUp: bool)
    requires StackedInit(hiddens, latents, layers, false, stochastic, onlyMeanUp).Ok?
    ensures var c := StackedInit(hiddens, latents, layers, false, stochastic, onlyMeanUp).value;
            forall i, j :: 0 <= i < |c.pz| && 0 <= j < |c.qz| ==> c.pz[i].name != c.qz[j].name
  {
    var c := StackedInit(hiddens, latents, layers, false, stochastic, onlyMeanUp).value;
    forall i, j | 0 <= i < |c.pz| && 0 <= j < |c.qz|
      ensures c.pz[i].name != c.qz[j].name
    {
      assert c.pz[i].name[0] == 'p';
      assert c.qz[j].name[0] == 'q';
    }
  }

  /** What the next ladder encoder is called on, given the posterior just
      produced: a sample of it (stochastic inference), its mean, or the
      hidden state the posterior was computed from. */
  function Upstream(c: Stacked, q: Term): Term
    requires q.Dist?
  {
    if c.stochastic then Sample(q) else if c.onlyMeanUp then Mean(q) else q.arg
  }

  /** The bottom-up pass from ladder step `i` on: the posterior of each
      step, then the top latent. */
  function Upward(c: Stacked, i: nat, h: Term): (r: seq<Term>)
    requires ValidStacked(c) && i <= |c.encoder|
    decreases |c.encoder| - i
  {
    if i == |c.encoder| then [Dist(LatentsHead, h)]
    else
      var q := Dist(c.qz[i].name, h);
      [q] + Upward(c, i + 1, Apply(c.encoder[i].name, Upstream(c, q)))
  }

  /** `StackedVAE.encode`: the posteriors in construction order reversed,
      the top latent first. */
  function StackedEncode(c: Stacked, x: Term): seq<Term>
    requires ValidStacked(c)
  {
    Reverse(Upward(c, 0, Apply(EncoderNet, x)))
  }

  lemma {:induction false} UpwardShape(c: Stacked, i: nat, h: Term)
    requires ValidStacked(c) && i <= |c.encoder|
    ensures var r, n := Upward(c, i, h), |c.encoder|;
            && |r| == n - i + 1
            && r[0].Dist? && r[0].arg == h
            && r[n - i].Dist? && r[n - i].head == LatentsHead
            && (forall j :: 0 <= j < n - i ==> r[j].Dist? && r[j].head == c.qz[i + j].name)
            && (forall j :: 0 <= j < n - i ==> r[j + 1].arg == Apply(c.encoder[i + j].name, Upstream(c, r[j])))
    decreases |c.encoder| - i
  {
    var n := |c.encoder|;
    if i < n {
      var q := Dist(c.qz[i].name, h);
      var h' := Apply(c.encoder[i].name, Upstream(c, q));
      UpwardShape(c, i + 1, h');
      var r, rest := Upward(c, i, h), Upward(c, i + 1, h');
      assert r == [q] + rest;
      forall j | 0 <= j < n - i
        ensures r[j].Dist? && r[j].head == c.qz[i + j].name
        ensures r[j + 1].arg == Apply(c.encoder[i + j].name, Upstream(c, r[j]))
      {
        if j > 0 {
          assert r[j] == rest[j - 1];
          assert r[j + 1] == rest[j];
          assert i + 1 + (j - 1) == i + j;
        }
      }
    }
  }

  /** The order of `StackedVAE.encode`: the top latent first, then the
      ladder posteriors from the last ladder step down to the first; each
      entry is computed by the ladder encoder from the entry after it, and
      the last from the base encoder's output. */
  lemma {:induction false} StackedEncodeOrder(c: Stacked, x: Term)
    requires ValidStacked(c)
    ensures var r, n := StackedEncode(c, x), |c.encoder|;
            && |r| == n + 1
            && r[0].Dist? && r[0].head == LatentsHead
            && (forall k :: 1 <= k <= n ==> r[k].Dist? && r[k].head == c.qz[n - k].name)
            && (forall k {:trigger r[k]} :: 0 <= k < n ==> r[k + 1].Dist? && r[k].arg == Apply(c.encoder[n - 1 - k].name, Upstream(c, r[k + 1])))
            && r[n].arg == Apply(EncoderNet, x)
  {
    var h := Apply(EncoderNet, x);
    UpwardShape(c, 0, h);
    var u := Upward(c, 0, h);
    forall j | 0 <= j < |c.encoder|
      ensures Linked(c, u, j)
    {
    }
    ReversedPasses(c, u, StackedEncode(c, x), h);
  }

  /** Entry `j + 1` of a bottom-up pass is computed by ladder encoder `j`
      from entry `j`. */
  predicate Linked(c: Stacked, u: seq<Term>, j: nat)
    requires ValidStacked(c) && j < |c.encoder| && j + 1 < |u| && u[j].Dist? && u[j + 1].Dist?
  {
    u[j + 1].arg == Apply(c.encoder[j].name, Upstream(c, u[j]))
  }

  /** The shape of `StackedVAE.encode` read off any bottom-up pass `u` of
      the shape `UpwardShape` states, reversed into `r`. */
  lemma ReversedPasses(c: Stacked, u: seq<Term>, r: seq<Term>, h: Term)
    requires ValidStacked(c)
    requires |u| == |c.encoder| + 1 && u[0].Dist? && u[0].arg == h
    requires u[|c.encoder|].Dist? && u[|c.encoder|].head == LatentsHead
    requires forall j :: 0 <= j < |c.encoder| ==> u[j].Dist? && u[j].head == c.qz[j].name
    requires forall j :: 0 <= j < |c.encoder| ==> Linked(c, u, j)
    requires |r| == |u| && forall i :: 0 <= i < |u| ==> r[i] == u[|u| - 1 - i]
    ensures |r| == |c.encoder| + 1
    ensures r[0].Dist? && r[0].head == LatentsHead
    ensures forall k :: 1 <= k <= |c.encoder| ==> r[k].Dist? && r[k].head == c.qz[|c.encoder| - k].name
    ensures forall k {:trigger r[k]} :: 0 <= k < |c.encoder| ==>
              r[k + 1].Dist? && r[k].arg == Apply(c.encoder[|c.encoder| - 1 - k].name, Upstream(c, r[k + 1]))
    ensures r[|c.encoder|].arg == h
  {
    var n := |c.encoder|;
    forall k {:trigger r[k]} | 0 <= k < n
      ensures r[k + 1].Dist? && r[k].arg == Apply(c.encoder[n - 1 - k].name, Upstream(c, r[k + 1]))
    {
      assert r[k] == u[n - k] && r[k + 1] == u[n - 1 - k];
      assert Linked(c, u, n - 1 - k);
    }
    forall k | 1 <= k <= n
      ensures r[k].Dist? && r[k].head == c.qz[n - k].name
    {
      assert r[k] == u[n - k];
    }
  }

  /** The top-down pass from ladder step `i` on: the prior of each step,
      and the hidden state handed to the base decoder. The priors are
      taken from the prior list reversed. */
  function Downward(c: Stacked, i: nat, h: Term): (r: (seq<Term>, Term))
    requires ValidStacked(c) && i <= |c.encoder|
    decreases |c.encoder| - i
  {
    if i == |c.encoder| then ([], h)
    else
      var h' := Apply(c.decoder[i].name, h);
      var rest := Downward(c, i + 1, h');
      ([Dist(c.pz[|c.pz| - 1 - i].name, h')] + rest.0, rest.1)
  }

  /** `StackedVAE.decode`: the observation first, then the priors in
      generation order. Only the first latent is read; an empty latent
      tuple fails on `latents[0]`. */
  function StackedDecode(c: Stacked, latents: seq<Term>): (r: Result<seq<Term>>)
    requires ValidStacked(c)
    ensures r.Ok? <==> |latents| > 0
    ensures r.Err? ==> r.error == IndexError
  {
    if |latents| == 0 then Err(IndexError)
    else
      var down := Downward(c, 0, Sample(latents[0]));
      Ok([Dist(ObservationHead, Apply(DecoderNet, down.1))] + down.0)
  }

  lemma {:induction false} DownwardShape(c: Stacked, i: nat, h: Term)
    requires ValidStacked(c) && i <= |c.encoder|
    ensures var r, n := Downward(c, i, h), |c.encoder|;
            && |r.0| == n - i
            && (forall j :: 0 <= j < n - i ==> r.0[j].Dist? && r.0[j].head == c.pz[n - 1 - (i + j)].name)
            && (forall j :: 0 <= j < n - i ==>
                  r.0[j].arg == Apply(c.decoder[i + j].name, if j == 0 then h else r.0[j - 1].arg))
            && r.1 == (if n == i then h else r.0[n - i - 1].arg)
    decreases |c.encoder| - i
  {
    var n := |c.encoder|;
    if i < n {
      var h' := Apply(c.decoder[i].name, h);
      DownwardShape(c, i + 1, h');
      var r, rest := Downward(c, i, h), Downward(c, i + 1, h');
      assert r.0 == [Dist(c.pz[n - 1 - i].name, h')] + rest.0;
      forall j | 0 <= j < n - i
        ensures r.0[j].Dist? && r.0[j].head == c.pz[n - 1 - (i + j)].name
        ensures r.0[j].arg == Apply(c.decoder[i + j].name, if j == 0 then h else r.0[j - 1].arg)
      {
        if j > 0 {
          assert r.0[j] == rest.0[j - 1];
          assert i + 1 + (j - 1) == i + j;
          if j > 1 {
            assert r.0[j - 1] == rest.0[j - 2];
          }
        }
      }
    }
  }

  /** The order of `StackedVAE.decode`: the observation first, then the
      prior of the last ladder step down to the first. */
  lemma StackedDecodeOrder(c: Stacked, latents: seq<Term>)
    requires ValidStacked(c) && |latents| > 0
    ensures var r, n := StackedDecode(c, latents).value, |c.encoder|;
            && |r| == n + 1
            && r[0].Dist? && r[0].head == ObservationHead
            && (forall k :: 1 <= k <= n ==> r[k].Dist? && r[k].head == c.pz[n - k].name)
  {
    var n := |c.encoder|;
    var down := Downward(c, 0, Sample(latents[0]));
    DownwardShape(c, 0, Sample(latents[0]));
    var r := StackedDecode(c, latents).value;
    forall k | 1 <= k <= n
      ensures r[k] == down.0[k - 1]
    {
    }
  }

  /** The computation of `StackedVAE.decode`: the ladder decoder chain
      starts at a sample of the top latent, each prior is computed from
      the previous one's input, and the observation is the base decoder
      applied to the last of them. */
  lemma StackedDecodeChain(c: Stacked, latents: seq<Term>)
    requires ValidStacked(c) && |latents| > 0
    ensures var r, n := StackedDecode(c, latents).value, |c.encoder|;
            && |r| == n + 1
            && (forall k :: 0 <= k <= n ==> r[k].Dist?)
            && (n > 0 ==> r[1].arg == Apply(c.decoder[0].name, Sample(latents[0])))
            && (forall k {:trigger r[k]} :: 2 <= k <= n ==> r[k].arg == Apply(c.decoder[k - 1].name, r[k - 1].arg))
            && r[0].arg == Apply(DecoderNet, if n == 0 then Sample(latents[0]) else r[n].arg)
  {
    var n := |c.encoder|;
    var down := Downward(c, 0, Sample(latents[0]));
    DownwardShape(c, 0, Sample(latents[0]));
    var r := StackedDecode(c, latents).value;
    forall k | 1 <= k <= n
      ensures r[k] == down.0[k - 1]
    {
    }
  }

  /** Only the top latent matters to `StackedVAE.decode`. */
  lemma StackedDecodeReadsTop(c: Stacked, latents: seq<Term>, others: seq<Term>)
    requires ValidStacked(c) && |latents| > 0
    ensures StackedDecode(c, [latents[0]] + others) == StackedDecode(c, latents)
  {
  }

  /** Entry `k` of `encode` and entry `k` of `decode` belong to the same
      ladder step, the pairing the KL terms rely on: the posterior
      `qZ{n-k}` and the prior `pZ{n-k}`, or `qZ{n-k}` itself when the
      latents are tied. */
  lemma StackedLevelsAligned(hiddens: seq<int>, latents: seq<int>, layers: nat, tie: bool,
                             stochastic: bool, onlyMeanUp: bool, x: Term, zs: seq<Term>)
    requires StackedInit(hiddens, latents, layers, tie, stochastic, onlyMeanUp).Ok?
    requires |zs| > 0
    ensures var c, n := StackedInit(hiddens, latents, layers, tie, stochastic, onlyMeanUp).value, |hiddens|;
            var q, p := StackedEncode(c, x), StackedDecode(c, zs).value;
            && |q| == |p| == n + 1
            && forall k :: 1 <= k <= n ==>
                 && q[k].Dist? && q[k].head == Indexed("qZ", n - k)
                 && p[k].Dist? && p[k].head == Indexed(if tie then "qZ" else "pZ", n - k)
  {
    var c := StackedInit(hiddens, latents, layers, tie, stochastic, onlyMeanUp).value;
    StackedLadders(hiddens, latents, layers, tie, stochastic, onlyMeanUp);
    StackedEncodeOrder(c, x);
    StackedDecodeOrder(c, zs);
  }

  // ---------------------------------------------------------------------
  // LadderVAE
  // ---------------------------------------------------------------------

  /** A `LadderVAE`: a deterministic-inference stacked ladder and the
      `merge_gaussians` switch. */
  datatype Ladder = Ladder(base: Stacked, merge: bool)

  /** `LadderVAE.__init__`: `StackedVAE.__init__` with stochastic
      inference off. */
  function LadderInit(hiddens: seq<int>, latents: seq<int>, layers: nat, tie: bool,
                      onlyMeanUp: bool, merge: bool): (r: Result<Ladder>)
    ensures r.Ok? <==> |hiddens| == |latents|
    ensures r.Err? ==> r.error == AssertionError
    ensures r.Ok? ==> ValidStacked(r.value.base) && !r.value.base.stochastic && r.value.merge == merge
  {
    var base :- StackedInit(hiddens, latents, layers, tie, false, onlyMeanUp);
    Ok(Ladder(base, merge))
  }

  /** An entry of `LadderVAE.decode`: the observation, or a
      (posterior, prior) pair. */
  datatype Output = Single(t: Term) | Pair(q: Term, p: Term)

  /** The number of ladder steps `zip` runs: the shorter of the ladder and
      the latents after the first. */
  function Steps(l: Ladder, latents: seq<Term>): nat
    requires |latents| > 0
  {
    if |l.base.encoder| <= |latents| - 1 then |l.base.encoder| else |latents| - 1
  }

  function LadderDownward(l: Ladder, latents: seq<Term>, i: nat, h: Term): (r: (seq<Output>, Term))
    requires ValidStacked(l.base) && |latents| > 0 && i <= Steps(l, latents)
    decreases Steps(l, latents) - i
  {
    if i == Steps(l, latents) then ([], h)
    else
      var c := l.base;
      var p := Dist(c.pz[|c.pz| - 1 - i].name, Apply(c.decoder[i].name, h));
      var q := if l.merge then Merge(p, latents[i + 1]) else latents[i + 1];
      var rest := LadderDownward(l, latents, i + 1, Sample(q));
      ([Pair(q, p)] + rest.0, rest.1)
  }

  /** `LadderVAE.decode`: the observation first, then one
      (posterior, prior) pair per ladder step zipped with `latents[1:]`;
      the posterior is merged with the prior or, with merging off, is the
      encoder's posterior itself. */
  function LadderDecode(l: Ladder, latents: seq<Term>): (r: Result<seq<Output>>)
    requires ValidStacked(l.base)
    ensures r.Ok? <==> |latents| > 0
    ensures r.Err? ==> r.error == IndexError
  {
    if |latents| == 0 then Err(IndexError)
    else
      var down := LadderDownward(l, latents, 0, Sample(latents[0]));
      Ok([Single(Dist(ObservationHead, Apply(DecoderNet, down.1)))] + down.0)
  }

  lemma {:induction false} LadderDownwardShape(l: Ladder, latents: seq<Term>, i: nat, h: Term)
    requires ValidStacked(l.base) && |latents| > 0 && i <= Steps(l, latents)
    ensures var r, m, n := LadderDownward(l, latents, i, h), Steps(l, latents), |l.base.encoder|;
            && |r.0| == m - i
            && forall j :: 0 <= j < m - i ==>
                 && r.0[j].Pair? && r.0[j].p.Dist?
                 && r.0[j].p.head == l.base.pz[n - 1 - (i + j)].name
                 && r.0[j].q == (if l.merge then Merge(r.0[j].p, latents[i + j + 1]) else latents[i + j + 1])
    decreases Steps(l, latents) - i
  {
    var m, n := Steps(l, latents), |l.base.encoder|;
    if i < m {
      var c := l.base;
      var p := Dist(c.pz[n - 1 - i].name, Apply(c.decoder[i].name, h));
      var q := if l.merge then Merge(p, latents[i + 1]) else latents[i + 1];
      LadderDownwardShape(l, latents, i + 1, Sample(q));
      var r, rest := LadderDownward(l, latents, i, h), LadderDownward(l, latents, i + 1, Sample(q));
      assert r.0 == [Pair(q, p)] + rest.0;
      forall j | 0 <= j < m - i
        ensures && r.0[j].Pair? && r.0[j].p.Dist?
                && r.0[j].p.head == c.pz[n - 1 - (i + j)].name
                && r.0[j].q == (if l.merge then Merge(r.0[j].p, latents[i + j + 1]) else latents[i + j + 1])
      {
        if j > 0 {
          assert r.0[j] == rest.0[j - 1];
          assert i + 1 + (j - 1) == i + j;
        }
      }
    }
  }

  /** The pairing of `LadderVAE.decode`: one pair per ladder step that has
      a latent, pair `k` holding the prior of ladder step `n - k` and the
      `k`-th latent (merged with that prior when merging is on). */
  lemma LadderDecodePairs(l: Ladder, latents: seq<Term>)
    requires ValidStacked(l.base) && |latents| > 0
    ensures var r, n := LadderDecode(l, latents).value, |l.base.encoder|;
            && |r| == 1 + Steps(l, latents)
            && r[0].Single? && r[0].t.Dist? && r[0].t.head == ObservationHead
            && forall k :: 1 <= k < |r| ==>
                 && r[k].Pair? && r[k].p.Dist? && r[k].p.head == l.base.pz[n - k].name
                 && r[k].q == (if l.merge then Merge(r[k].p, latents[k]) else latents[k])
  {
    var down := LadderDownward(l, latents, 0, Sample(latents[0]));
    LadderDownwardShape(l, latents, 0, Sample(latents[0]));
    var r := LadderDecode(l, latents).value;
    forall k | 1 <= k < |r|
      ensures r[k] == down.0[k - 1]
    {
    }
  }

  /** Decoding what `encode` returned, with merging off: every ladder step
      gets a pair, whose posterior is the encoder's posterior of that step
      unchanged and whose prior is the same step's prior. */
  lemma LadderEncodeDecode(l: Ladder, x: Term)
    requires ValidStacked(l.base) && !l.merge
    ensures var q, n := StackedEncode(l.base, x), |l.base.encoder|;
            var r := LadderDecode(l, q).value;
            && |r| == n + 1
            && |q| == n + 1
            && forall k :: 1 <= k <= n ==>
                 && r[k].Pair? && r[k].q == q[k]
                 && q[k].Dist? && q[k].head == l.base.qz[n - k].name
                 && r[k].p.Dist? && r[k].p.head == l.base.pz[n - k].name
  {
    StackedEncodeOrder(l.base, x);
    LadderDecodePairs(l, StackedEncode(l.base, x));
  }

  // ---------------------------------------------------------------------
  // UnetVAE
  // ---------------------------------------------------------------------

  /** An encoder or decoder as passed to the U-Net constructors: a Keras
      `Sequential` model, a list or tuple of layers (by name), or anything
      else. */
  datatype Component = KerasSequential(layers: seq<string>) | LayerList(layers: seq<string>) | NotALayerList

  /** `_prepare_encoder_decoder`: a `Sequential` model is unwrapped to its
      layers; anything that is then not a list of layers is rejected. */
  function PrepareEncoderDecoder(encoder: Component, decoder: Component): (r: Result<(seq<string>, seq<string>)>)
    ensures r.Ok? <==> !encoder.NotALayerList? && !decoder.NotALayerList?
    ensures r.Err? ==> r.error == AssertionError
  {
    if encoder.NotALayerList? || decoder.NotALayerList? then Err(AssertionError)
    else Ok((encoder.layers, decoder.layers))
  }

  /** Unwrapping keeps the layers in order, so a `Sequential` model and
      the list of its layers prepare alike, and prepared lists prepare to
      themselves. */
  lemma PrepareUnwraps(e: seq<string>, d: seq<string>)
    ensures PrepareEncoderDecoder(KerasSequential(e), KerasSequential(d)) == Ok((e, d))
    ensures PrepareEncoderDecoder(KerasSequential(e), LayerList(d)) == Ok((e, d))
    ensures PrepareEncoderDecoder(LayerList(e), KerasSequential(d)) == Ok((e, d))
    ensures PrepareEncoderDecoder(LayerList(e), LayerList(d)) == Ok((e, d))
  {
  }

  /** The (key, value) a `layers_map` pair is stored under: decoder to
      encoder when the first name is an encoder layer, as given
      otherwise. */
  function Orient(pair: (string, string), encoder: set<string>): (string, string) {
    if pair.0 in encoder then (pair.1, pair.0) else pair
  }

  /** `dict(...)` of the oriented pairs: later pairs override earlier ones
      with the same key. */
  function OrientMap(pairs: seq<(string, string)>, encoder: set<string>): map<string, string>
    decreases |pairs|
  {
    if |pairs| == 0 then map[]
    else
      var kv := Orient(pairs[|pairs| - 1], encoder);
      OrientMap(pairs[..|pairs| - 1], encoder)[kv.0 := kv.1]
  }

  /** Pair `t` is the last pair stored under its key. */
  predicate LastOfKey(pairs: seq<(string, string)>, encoder: set<string>, t: nat)
    requires t < |pairs|
  {
    forall u :: t < u < |pairs| ==> Orient(pairs[u], encoder).0 != Orient(pairs[t], encoder).0
  }

  /** The keys of the map are exactly the oriented keys of the pairs, and
      each key holds the value of the last pair stored under it. */
  lemma {:induction false} OrientMapContents(pairs: seq<(string, string)>, encoder: set<string>)
    ensures forall k :: k in OrientMap(pairs, encoder) <==>
              exists t :: 0 <= t < |pairs| && Orient(pairs[t], encoder).0 == k
    ensures forall t :: 0 <= t < |pairs| && LastOfKey(pairs, encoder, t) ==>
              OrientMap(pairs, encoder)[Orient(pairs[t], encoder).0] == Orient(pairs[t], encoder).1
    decreases |pairs|
  {
    if |pairs| > 0 {
      var front := pairs[..|pairs| - 1];
      OrientMapContents(front, encoder);
      var m := OrientMap(pairs, encoder);
      forall k
        ensures k in m <==> exists t :: 0 <= t < |pairs| && Orient(pairs[t], encoder).0 == k
      {
        if k in m && k != Orient(pairs[|pairs| - 1], encoder).0 {
          var t :| 0 <= t < |front| && Orient(front[t], encoder).0 == k;
          assert pairs[t] == front[t];
        }
        if exists t :: 0 <= t < |pairs| && Orient(pairs[t], encoder).0 == k {
          var t :| 0 <= t < |pairs| && Orient(pairs[t], encoder).0 == k;
          if t < |front| {
            assert front[t] == pairs[t];
          }
        }
      }
      forall t | 0 <= t < |pairs| && LastOfKey(pairs, encoder, t)
        ensures m[Orient(pairs[t], encoder).0] == Orient(pairs[t], encoder).1
      {
        if t < |front| {
          assert front[t] == pairs[t];
          assert LastOfKey(front, encoder, t) by {
            forall u | t < u < |front|
              ensures Orient(front[u], encoder).0 != Orient(front[t], encoder).0
            {
              assert front[u] == pairs[u];
            }
          }
        }
      }
    }
  }

  /** The orientation of `UnetVAE.layers_map`: for the last pair with a
      given key, a pair `(e, d)` starting with an encoder layer `e` maps
      `d` to `e`; any other pair `(a, b)` maps `a` to `b`. */
  lemma UnetMapOrientation(pairs: seq<(string, string)>, encoder: set<string>, t: nat)
    requires t < |pairs| && LastOfKey(pairs, encoder, t)
    ensures pairs[t].0 in encoder ==>
              pairs[t].1 in OrientMap(pairs, encoder) && OrientMap(pairs, encoder)[pairs[t].1] == pairs[t].0
    ensures pairs[t].0 !in encoder ==>
              pairs[t].0 in OrientMap(pairs, encoder) && OrientMap(pairs, encoder)[pairs[t].0] == pairs[t].1
  {
    OrientMapContents(pairs, encoder);
  }

  /** A `UnetVAE`: its encoder and decoder layers, the decoder-to-encoder
      skip map, and the dropout rate and noise level applied to skipped
      outputs when configured. */
  datatype Unet = Unet(encoder: seq<string>, decoder: seq<string>, layersMap: map<string, string>,
                       dropout: Option<real>, noise: Option<real>)

  /** The set of names of a layer list. */
  function Names(layers: seq<string>): (s: set<string>)
    ensures forall i :: 0 <= i < |layers| ==> layers[i] in s
    ensures forall n :: n in s ==> exists i :: 0 <= i < |layers| && layers[i] == n
  {
    set i | 0 <= i < |layers| :: layers[i]
  }

  /** `UnetVAE.__init__`. */
  function UnetInit(encoder: Component, decoder: Component, pairs: seq<(string, string)>,
                    dropout: real, noise: real): (r: Result<Unet>)
    ensures r.Ok? <==> PrepareEncoderDecoder(encoder, decoder).Ok?
    ensures r.Err? ==> r.error == AssertionError
    ensures r.Ok? ==> r.value.encoder == encoder.layers && r.value.decoder == decoder.layers
    ensures r.Ok? ==> (r.value.dropout.Some? <==> dropout > 0.0) && (r.value.noise.Some? <==> noise > 0.0)
    ensures r.Ok? ==> r.value.layersMap == OrientMap(pairs, Names(encoder.layers))
  {
    var layers :- PrepareEncoderDecoder(encoder, decoder);
    var e, d := layers.0, layers.1;
    Ok(Unet(e, d, OrientMap(pairs, Names(e)),
            if dropout > 0.0 then Some(dropout) else None,
            if noise > 0.0 then Some(noise) else None))
  }

  /** The skip map of a built `UnetVAE`: its keys are the oriented first
      names of the pairs, and the last pair under each key maps a decoder
      layer to the encoder layer it names first, or is kept as given. */
  lemma UnetInitMap(encoder: Component, decoder: Component, pairs: seq<(string, string)>,
                    dropout: real, noise: real, t: nat)
    requires UnetInit(encoder, decoder, pairs, dropout, noise).Ok?
    requires t < |pairs| && LastOfKey(pairs, Names(encoder.layers), t)
    ensures var m := UnetInit(encoder, decoder, pairs, dropout, noise).value.layersMap;
            && (forall k :: k in m <==> exists u :: 0 <= u < |pairs| && Orient(pairs[u], Names(encoder.layers)).0 == k)
            && (pairs[t].0 in encoder.layers ==> pairs[t].1 in m && m[pairs[t].1] == pairs[t].0)
            && (pairs[t].0 !in encoder.layers ==> pairs[t].0 in m && m[pairs[t].0] == pairs[t].1)
  {
    OrientMapContents(pairs, Names(encoder.layers));
    UnetMapOrientation(pairs, Names(encoder.layers), t);
  }

  /** The output of the first `|layers|` layers applied in order. */
  function Chain(layers: seq<string>, x: Term): Term
    decreases |layers|
  {
    if |layers| == 0 then x else Apply(layers[|layers| - 1], Chain(layers[..|layers| - 1], x))
  }

  /** The encoder output recorded under each encoder layer name (the
      last layer of a repeated name wins). */
  function EncoderOutputs(layers: seq<string>, x: Term): map<string, Term>
    decreases |layers|
  {
    if |layers| == 0 then map[]
    else EncoderOutputs(layers[..|layers| - 1], x)[layers[|layers| - 1] := Chain(layers, x)]
  }

  /** Every encoder layer has a recorded output, and nothing else does. */
  lemma {:induction false} EncoderOutputsKeys(layers: seq<string>, x: Term)
    ensures EncoderOutputs(layers, x).Keys == Names(layers)
    decreases |layers|
  {
    if |layers| > 0 {
      var front := layers[..|layers| - 1];
      EncoderOutputsKeys(front, x);
      assert Names(layers) == Names(front) + {layers[|layers| - 1]} by {
        forall n | n in Names(layers)
          ensures n in Names(front) + {layers[|layers| - 1]}
        {
          var i :| 0 <= i < |layers| && layers[i] == n;
          if i < |front| {
            assert front[i] == n;
          }
        }
      }
    }
  }

  /** Layer `i` is the last layer with its name. */
  predicate LastOfName(layers: seq<string>, i: nat)
    requires i < |layers|
  {
    forall j :: i < j < |layers| ==> layers[j] != layers[i]
  }

  /** Each name records the output of the encoder up to and including
      the last layer with that name. */
  lemma {:induction false} EncoderOutputsValues(layers: seq<string>, x: Term)
    ensures forall i :: 0 <= i < |layers| && LastOfName(layers, i) ==>
              layers[i] in EncoderOutputs(layers, x)
              && EncoderOutputs(layers, x)[layers[i]] == Chain(layers[..i + 1], x)
    decreases |layers|
  {
    if |layers| > 0 {
      var n := |layers|;
      var front := layers[..n - 1];
      EncoderOutputsValues(front, x);
      var m, mf := EncoderOutputs(layers, x), EncoderOutputs(front, x);
      assert m == mf[layers[n - 1] := Chain(layers, x)];
      forall i | 0 <= i < n && LastOfName(layers, i)
        ensures layers[i] in m && m[layers[i]] == Chain(layers[..i + 1], x)
      {
        if i == n - 1 {
          assert layers[..i + 1] == layers;
        } else {
          assert front[i] == layers[i] && layers[n - 1] != layers[i];
          assert LastOfName(front, i) by {
            forall j | i < j < |front| ensures front[j] != front[i] {
              assert front[j] == layers[j];
            }
          }
          assert front[..i + 1] == layers[..i + 1];
          assert mf[front[i]] == Chain(front[..i + 1], x);
        }
      }
    }
  }

  /** `UnetVAE.encode`: the latent distribution of the encoder output,
      carrying the per-layer encoder outputs. */
  function UnetEncode(u: Unet, x: Term): (r: (Term, map<string, Term>))
    ensures r.0 == Dist(LatentsHead, Chain(u.encoder, x))
    ensures r.1.Keys == Names(u.encoder)
    ensures forall i :: 0 <= i < |u.encoder| && LastOfName(u.encoder, i) ==>
              r.1[u.encoder[i]] == Chain(u.encoder[..i + 1], x)
  {
    EncoderOutputsKeys(u.encoder, x);
    EncoderOutputsValues(u.encoder, x);
    (Dist(LatentsHead, Chain(u.encoder, x)), EncoderOutputs(u.encoder, x))
  }

  /** A skipped encoder output after the configured dropout and noise. */
  function Skip(u: Unet, h: Term): Term {
    var d := if u.dropout.Some? then Apply(DropoutLayer, h) else h;
    if u.noise.Some? then Apply(NoiseLayer, d) else d
  }

  /** The output of decoder layer `name` applied to `h`, with the skip
      connection added when the layer is a key of the map; the map's
      target must have a recorded encoder output. */
  function Stage(u: Unet, outs: map<string, Term>, name: string, h: Term): (r: Result<Term>) {
    var a := Apply(name, h);
    if name !in u.layersMap then Ok(a)
    else if u.layersMap[name] !in outs then Err(KeyError)
    else Ok(Add(a, Skip(u, outs[u.layersMap[name]])))
  }

  /** The outputs of the decoder layers from `i` on, stopping at the first
      missing encoder output. */
  function Stages(u: Unet, outs: map<string, Term>, i: nat, h: Term): (r: Result<seq<Term>>)
    requires i <= |u.decoder|
    decreases |u.decoder| - i
  {
    if i == |u.decoder| then Ok([])
    else
      match Stage(u, outs, u.decoder[i], h)
      case Err(e) => Err(e)
      case Ok(s) =>
        match Stages(u, outs, i + 1, s)
        case Err(e) => Err(e)
        case Ok(rest) => Ok([s] + rest)
  }

  /** `UnetVAE.decode`: the observation of the last decoder output. */
  function UnetDecode(u: Unet, z: Term, outs: map<string, Term>): (r: Result<Term>)
    ensures r.Ok? <==> Stages(u, outs, 0, z).Ok?
    ensures r.Err? ==> r.error == KeyError
  {
    StagesError(u, outs, 0, z);
    match Stages(u, outs, 0, z)
    case Err(e) => Err(e)
    case Ok(stages) => Ok(Dist(ObservationHead, if |stages| == 0 then z else stages[|stages| - 1]))
  }

  /** Every skip target of decoder layers `i..` has an encoder output. */
  predicate SkipsResolve(u: Unet, outs: map<string, Term>, i: nat) {
    forall k :: i <= k < |u.decoder| && u.decoder[k] in u.layersMap ==> u.layersMap[u.decoder[k]] in outs
  }

  lemma {:induction false} StagesError(u: Unet, outs: map<string, Term>, i: nat, h: Term)
    requires i <= |u.decoder|
    ensures Stages(u, outs, i, h).Ok? <==> SkipsResolve(u, outs, i)
    ensures Stages(u, outs, i, h).Err? ==> Stages(u, outs, i, h).error == KeyError
    decreases |u.decoder| - i
  {
    if i < |u.decoder| {
      var s := Stage(u, outs, u.decoder[i], h);
      if s.Ok? {
        StagesError(u, outs, i + 1, s.value);
      }
    }
  }

  /** The input of stage `j`: the previous stage's output, or `h` for
      the first. */
  function Prev(r: seq<Term>, h: Term, j: nat): Term
    requires j <= |r|
  {
    if j == 0 then h else r[j - 1]
  }

  /** A successful run of stages is the first stage followed by the rest. */
  lemma StagesCons(u: Unet, outs: map<string, Term>, i: nat, h: Term)
    requires i < |u.decoder| && Stages(u, outs, i, h).Ok?
    ensures Stage(u, outs, u.decoder[i], h).Ok?
    ensures var s := Stage(u, outs, u.decoder[i], h).value;
            Stages(u, outs, i + 1, s).Ok? && Stages(u, outs, i, h).value == [s] + Stages(u, outs, i + 1, s).value
  {
  }

  /** `r` chains the decoder layers from `i` on: one output per layer,
      each the stage of its layer on the previous output (`h` first). */
  predicate Chained(u: Unet, outs: map<string, Term>, i: nat, h: Term, r: seq<Term>) {
    && i + |r| == |u.decoder|
    && forall j {:trigger Prev(r, h, j)} :: 0 <= j < |r| ==> Stage(u, outs, u.decoder[i + j], Prev(r, h, j)) == Ok(r[j])
  }

  /** A stage followed by a chain from the next layer is a chain. */
  lemma ChainedCons(u: Unet, outs: map<string, Term>, i: nat, h: Term, s: Term, rest: seq<Term>)
    requires i < |u.decoder| && Stage(u, outs, u.decoder[i], h) == Ok(s)
    requires Chained(u, outs, i + 1, s, rest)
    ensures Chained(u, outs, i, h, [s] + rest)
  {
    var r := [s] + rest;
    forall j | 1 <= j < |r|
      ensures Stage(u, outs, u.decoder[i + j], Prev(r, h, j)) == Ok(r[j])
    {
      ChainedAt(u, outs, i + 1, s, rest, j - 1);
      assert r[j] == rest[j - 1];
      assert Prev(r, h, j) == Prev(rest, s, j - 1);
      assert u.decoder[i + 1 + (j - 1)] == u.decoder[i + j];
    }
  }

  /** One link of a chain. */
  lemma ChainedAt(u: Unet, outs: map<string, Term>, i: nat, h: Term, r: seq<Term>, j: nat)
    requires Chained(u, outs, i, h, r) && j < |r|
    ensures i + j < |u.decoder| && Stage(u, outs, u.decoder[i + j], Prev(r, h, j)) == Ok(r[j])
  {
  }

  /** The decoder stages from `i` on chain the decoder layers. */
  lemma {:induction false} StagesChain(u: Unet, outs: map<string, Term>, i: nat, h: Term)
    requires i <= |u.decoder| && Stages(u, outs, i, h).Ok?
    ensures Chained(u, outs, i, h, Stages(u, outs, i, h).value)
    decreases |u.decoder| - i
  {
    if i < |u.decoder| {
      StagesCons(u, outs, i, h);
      var s := Stage(u, outs, u.decoder[i], h).value;
      StagesChain(u, outs, i + 1, s);
      ChainedCons(u, outs, i, h, s, Stages(u, outs, i + 1, s).value);
    }
  }

  /** The decoder stages of `UnetVAE.decode`: one output per decoder
      layer, each the layer applied to the previous output (`z` first),
      plus the (dropped-out, noised) encoder output of the mapped layer
      exactly when the decoder layer is a key of the map. */
  lemma UnetDecodeStages(u: Unet, outs: map<string, Term>, z: Term)
    requires Stages(u, outs, 0, z).Ok?
    ensures var r := Stages(u, outs, 0, z).value;
            && |r| == |u.decoder|
            && (forall k :: 0 <= k < |r| && u.decoder[k] !in u.layersMap ==>
                  r[k] == Apply(u.decoder[k], Prev(r, z, k)))
            && (forall k :: 0 <= k < |r| && u.decoder[k] in u.layersMap ==>
                  && u.layersMap[u.decoder[k]] in outs
                  && r[k] == Add(Apply(u.decoder[k], Prev(r, z, k)), Skip(u, outs[u.layersMap[u.decoder[k]]])))
  {
    StagesChain(u, outs, 0, z);
    var r := Stages(u, outs, 0, z).value;
    forall k | 0 <= k < |r|
      ensures Stage(u, outs, u.decoder[k], Prev(r, z, k)) == Ok(r[k])
    {
      assert u.decoder[0 + k] == u.decoder[k];
    }
  }

  /** Number of skip connections added in a list of stage outputs. */
  function SkipCount(stages: seq<Term>): nat {
    if |stages| == 0 then 0 else (if stages[0].Add? then 1 else 0) + SkipCount(stages[1..])
  }

  /** Number of layers that are keys of the map. */
  function MappedCount(layers: seq<string>, m: map<string, string>): nat {
    if |layers| == 0 then 0 else (if layers[0] in m then 1 else 0) + MappedCount(layers[1..], m)
  }

  /** A decoded U-Net adds exactly one skip connection per decoder layer
      named in the map. */
  lemma {:induction false} UnetSkipCount(u: Unet, outs: map<string, Term>, i: nat, h: Term)
    requires i <= |u.decoder| && Stages(u, outs, i, h).Ok?
    ensures SkipCount(Stages(u, outs, i, h).value) == MappedCount(u.decoder[i..], u.layersMap)
    decreases |u.decoder| - i
  {
    if i < |u.decoder| {
      var s := Stage(u, outs, u.decoder[i], h).value;
      UnetSkipCount(u, outs, i + 1, s);
      var r := Stages(u, outs, i, h).value;
      assert r[1..] == Stages(u, outs, i + 1, s).value;
      assert u.decoder[i..][1..] == u.decoder[i + 1..];
      assert s.Add? <==> u.decoder[i] in u.layersMap;
    }
  }

  /** Decoding what `encode` produced succeeds exactly when every skip
      target of a decoder layer is a layer of the encoder. */
  lemma UnetEncodeDecode(u: Unet, x: Term)
    ensures var e := UnetEncode(u, x);
            UnetDecode(u, e.0, e.1).Ok? <==>
              forall k :: 0 <= k < |u.decoder| && u.decoder[k] in u.layersMap ==>
                u.layersMap[u.decoder[k]] in Names(u.encoder)
  {
    var e := UnetEncode(u, x);
    StagesError(u, e.1, 0, e.0);
  }

  // ---------------------------------------------------------------------
  // PUnetVAE
  // ---------------------------------------------------------------------

  /** A `layers_map` entry of `PUnetVAE`: encoder name, decoder name,
      latent units. */
  datatype LadderSpec = LadderSpec(enc: string, dec: string, units: int)

  /** The entries that create a ladder pair: both names exist. */
  function Accepted(specs: seq<LadderSpec>, encoder: set<string>, decoder: set<string>): (r: seq<LadderSpec>)
    ensures |r| <= |specs|
    decreases |specs|
  {
    if |specs| == 0 then []
    else
      var last := specs[|specs| - 1];
      Accepted(specs[..|specs| - 1], encoder, decoder)
      + (if last.enc in encoder && last.dec in decoder then [last] else [])
  }

  /** `Accepted` keeps exactly the entries whose two names exist. */
  lemma {:induction false} AcceptedMembers(specs: seq<LadderSpec>, encoder: set<string>, decoder: set<string>)
    ensures forall s :: s in Accepted(specs, encoder, decoder) <==>
              s in specs && s.enc in encoder && s.dec in decoder
    decreases |specs|
  {
    if |specs| > 0 {
      var front := specs[..|specs| - 1];
      AcceptedMembers(front, encoder, decoder);
      assert specs == front + [specs[|specs| - 1]];
    }
  }

  /** `Accepted` keeps the entries it picks in their order in `specs`. */
  lemma {:induction false} AcceptedSubsequence(specs: seq<LadderSpec>, encoder: set<string>, decoder: set<string>)
    ensures IsSubsequence(Accepted(specs, encoder, decoder), specs)
    decreases |specs|
  {
    if |specs| > 0 {
      var front, last := specs[..|specs| - 1], specs[|specs| - 1];
      var a, r := Accepted(front, encoder, decoder), Accepted(specs, encoder, decoder);
      AcceptedSubsequence(front, encoder, decoder);
      if last.enc in encoder && last.dec in decoder {
        assert r == a + [last] && r[..|r| - 1] == a;
      } else {
        assert r == a;
        if |a| > 0 {
          AcceptedMembers(front, encoder, decoder);
          assert a[|a| - 1] in a;
        }
      }
    }
  }

  /** `Accepted` keeps every occurrence of an entry whose two names exist
      and drops every other one. */
  lemma {:induction false} AcceptedCounts(specs: seq<LadderSpec>, encoder: set<string>, decoder: set<string>)
    ensures forall s :: multiset(Accepted(specs, encoder, decoder))[s] ==
              if s.enc in encoder && s.dec in decoder then multiset(specs)[s] else 0
    decreases |specs|
  {
    if |specs| > 0 {
      var front, last := specs[..|specs| - 1], specs[|specs| - 1];
      var a := Accepted(front, encoder, decoder);
      AcceptedCounts(front, encoder, decoder);
      assert specs == front + [last];
      assert multiset(specs) == multiset(front) + multiset{last};
      if last.enc in encoder && last.dec in decoder {
        assert multiset(a + [last]) == multiset(a) + multiset{last};
      }
    }
  }

  /** `Accepted` is the in-order filter of the entries whose two names
      exist: a subsequence of `specs` holding every occurrence of such an
      entry and nothing else. */
  lemma AcceptedIsFilter(specs: seq<LadderSpec>, encoder: set<string>, decoder: set<string>)
    ensures IsSubsequence(Accepted(specs, encoder, decoder), specs)
    ensures forall s :: multiset(Accepted(specs, encoder, decoder))[s] ==
              if s.enc in encoder && s.dec in decoder then multiset(specs)[s] else 0
  {
    AcceptedSubsequence(specs, encoder, decoder);
    AcceptedCounts(specs, encoder, decoder);
  }

  /** The ladder latents `PUnetVAE.__init__` creates: for the `k`-th
      accepted entry, posterior `ladder_q{k}` under the encoder name and
      prior `ladder_p{k}` under the decoder name, later writes winning. */
  function LadderLatents(specs: seq<LadderSpec>, encoder: set<string>, decoder: set<string>): map<string, Head>
    decreases |specs|
  {
    if |specs| == 0 then map[]
    else
      var front, last := specs[..|specs| - 1], specs[|specs| - 1];
      var m := LadderLatents(front, encoder, decoder);
      if last.enc in encoder && last.dec in decoder then LadderPut(m, last, |Accepted(front, encoder, decoder)|)
      else m
  }

  /** Pair number `k` of an entry: `ladder_q{k}` under its encoder name,
      then `ladder_p{k}` under its decoder name. */
  function LadderPut(m: map<string, Head>, spec: LadderSpec, k: nat): map<string, Head> {
    m[spec.enc := Head(Indexed("ladder_q", k), spec.units)][spec.dec := Head(Indexed("ladder_p", k), spec.units)]
  }

  /** `name` is not written by an accepted entry after the `k`-th. */
  predicate NotRewritten(a: seq<LadderSpec>, k: nat, name: string) {
    forall j :: k < j < |a| ==> a[j].enc != name && a[j].dec != name
  }

  /** Every key was written by an accepted entry. */
  predicate KeysFromAccepted(a: seq<LadderSpec>, m: map<string, Head>) {
    forall name :: name in m ==> exists k :: 0 <= k < |a| && (a[k].enc == name || a[k].dec == name)
  }

  /** The decoder name of the `k`-th accepted entry holds `ladder_p{k}`
      unless rewritten later. */
  predicate PriorsNumbered(a: seq<LadderSpec>, m: map<string, Head>) {
    forall k :: 0 <= k < |a| && NotRewritten(a, k, a[k].dec) ==>
      a[k].dec in m && m[a[k].dec] == Head(Indexed("ladder_p", k), a[k].units)
  }

  /** The encoder name of the `k`-th accepted entry holds `ladder_q{k}`
      unless rewritten later or shared with its own decoder name. */
  predicate PosteriorsNumbered(a: seq<LadderSpec>, m: map<string, Head>) {
    forall k :: 0 <= k < |a| && a[k].enc != a[k].dec && NotRewritten(a, k, a[k].enc) ==>
      a[k].enc in m && m[a[k].enc] == Head(Indexed("ladder_q", k), a[k].units)
  }

  lemma KeysStep(a: seq<LadderSpec>, m: map<string, Head>, last: LadderSpec)
    requires KeysFromAccepted(a, m)
    ensures KeysFromAccepted(a + [last], LadderPut(m, last, |a|))
  {
    var a', m' := a + [last], LadderPut(m, last, |a|);
    forall name | name in m'
      ensures exists k :: 0 <= k < |a'| && (a'[k].enc == name || a'[k].dec == name)
    {
      if name != last.enc && name != last.dec {
        var k :| 0 <= k < |a| && (a[k].enc == name || a[k].dec == name);
        assert a'[k] == a[k];
      } else {
        assert a'[|a|] == last;
      }
    }
  }

  lemma PriorsStep(a: seq<LadderSpec>, m: map<string, Head>, last: LadderSpec)
    requires PriorsNumbered(a, m)
    ensures PriorsNumbered(a + [last], LadderPut(m, last, |a|))
  {
    var a', m' := a + [last], LadderPut(m, last, |a|);
    forall k | 0 <= k < |a'| && NotRewritten(a', k, a'[k].dec)
      ensures a'[k].dec in m' && m'[a'[k].dec] == Head(Indexed("ladder_p", k), a'[k].units)
    {
      if k < |a| {
        assert a'[k] == a[k] && a'[|a|] == last;
        assert NotRewritten(a, k, a[k].dec) by {
          forall j | k < j < |a| ensures a[j].enc != a[k].dec && a[j].dec != a[k].dec {
            assert a'[j] == a[j];
          }
        }
      }
    }
  }

  lemma PosteriorsStep(a: seq<LadderSpec>, m: map<string, Head>, last: LadderSpec)
    requires PosteriorsNumbered(a, m)
    ensures PosteriorsNumbered(a + [last], LadderPut(m, last, |a|))
  {
    var a', m' := a + [last], LadderPut(m, last, |a|);
    forall k | 0 <= k < |a'| && a'[k].enc != a'[k].dec && NotRewritten(a', k, a'[k].enc)
      ensures a'[k].enc in m' && m'[a'[k].enc] == Head(Indexed("ladder_q", k), a'[k].units)
    {
      if k < |a| {
        assert a'[k] == a[k] && a'[|a|] == last;
        assert NotRewritten(a, k, a[k].enc) by {
          forall j | k < j < |a| ensures a[j].enc != a[k].enc && a[j].dec != a[k].enc {
            assert a'[j] == a[j];
          }
        }
      }
    }
  }

  /** Ladder pair numbering: the `k`-th accepted entry's names hold
      `ladder_q{k}` and `ladder_p{k}` with its units, unless a later
      entry rewrote them (or both names coincide, when the prior wins);
      every key is a name of an accepted entry. */
  lemma {:induction false} LadderNumbering(specs: seq<LadderSpec>, encoder: set<string>, decoder: set<string>)
    ensures var a, m := Accepted(specs, encoder, decoder), LadderLatents(specs, encoder, decoder);
            KeysFromAccepted(a, m) && PriorsNumbered(a, m) && PosteriorsNumbered(a, m)
    decreases |specs|
  {
    if |specs| > 0 {
      var front, last := specs[..|specs| - 1], specs[|specs| - 1];
      LadderNumbering(front, encoder, decoder);
      var a, m := Accepted(front, encoder, decoder), LadderLatents(front, encoder, decoder);
      if last.enc in encoder && last.dec in decoder {
        assert Accepted(specs, encoder, decoder) == a + [last];
        assert LadderLatents(specs, encoder, decoder) == LadderPut(m, last, |a|);
        KeysStep(a, m, last);
        PriorsStep(a, m, last);
        PosteriorsStep(a, m, last);
      } else {
        assert Accepted(specs, encoder, decoder) == a;
        assert LadderLatents(specs, encoder, decoder) == m;
      }
    }
  }

  /** A `PUnetVAE`: encoder and decoder layers and the ladder latents by
      layer name. */
  datatype PUnet = PUnet(encoder: seq<string>, decoder: seq<string>, ladder: map<string, Head>)

  /** `PUnetVAE.__init__`. */
  function PUnetInit(encoder: Component, decoder: Component, specs: seq<LadderSpec>): (r: Result<PUnet>)
    ensures r.Ok? <==> PrepareEncoderDecoder(encoder, decoder).Ok?
    ensures r.Err? ==> r.error == AssertionError
    ensures r.Ok? ==> r.value.encoder == encoder.layers && r.value.decoder == decoder.layers
    ensures r.Ok? ==> r.value.ladder == LadderLatents(specs, Names(encoder.layers), Names(decoder.layers))
  {
    var layers :- PrepareEncoderDecoder(encoder, decoder);
    var e, d := layers.0, layers.1;
    Ok(PUnet(e, d, LadderLatents(specs, Names(e), Names(d))))
  }

  /** The ladder of a built `PUnetVAE`: with `a` the entries whose
      encoder and decoder names exist, the `k`-th of them holds
      `ladder_q{k}` and `ladder_p{k}` unless rewritten later, and every
      key is a name of one of them. */
  lemma PUnetInitLadder(encoder: Component, decoder: Component, specs: seq<LadderSpec>)
    requires PUnetInit(encoder, decoder, specs).Ok?
    ensures var a, m := Accepted(specs, Names(encoder.layers), Names(decoder.layers)),
                        PUnetInit(encoder, decoder, specs).value.ladder;
            KeysFromAccepted(a, m) && PriorsNumbered(a, m) && PosteriorsNumbered(a, m)
  {
    LadderNumbering(specs, Names(encoder.layers), Names(decoder.layers));
  }

  /** The ladder distributions produced along the first `n` layers: after
      each layer that has a ladder latent, that latent of the flattened
      output. */
  function LadderTerms(layers: seq<string>, ladder: map<string, Head>, x: Term, n: nat): seq<Term>
    requires n <= |layers|
  {
    if n == 0 then []
    else
      LadderTerms(layers, ladder, x, n - 1)
      + (if layers[n - 1] in ladder then [Dist(ladder[layers[n - 1]].name, Flat(Chain(layers[..n], x)))] else [])
  }

  /** The positions among the first `n` layers that have a ladder
      latent, in layer order. */
  function Hits(layers: seq<string>, ladder: map<string, Head>, n: nat): seq<nat>
    requires n <= |layers|
  {
    if n == 0 then [] else Hits(layers, ladder, n - 1) + (if layers[n - 1] in ladder then [n - 1] else [])
  }

  /** The ladder distributions follow the layer order: the `k`-th is the
      latent of the `k`-th layer that has one, computed from that layer's
      flattened output; the positions are increasing and are exactly the
      layers with a ladder latent. */
  lemma LadderTermsAtHits(layers: seq<string>, ladder: map<string, Head>, x: Term, n: nat)
    requires n <= |layers|
    ensures var t, h := LadderTerms(layers, ladder, x, n), Hits(layers, ladder, n);
            && |t| == |h|
            && (forall k :: 0 <= k < |h| ==>
                  (h[k] < n && layers[h[k]] in ladder
                   && t[k] == Dist(ladder[layers[h[k]]].name, Flat(Chain(layers[..h[k] + 1], x)))))
            && (forall k, j :: 0 <= k < j < |h| ==> h[k] < h[j])
            && (forall i :: 0 <= i < n && layers[i] in ladder ==> i in h)
  {
    HitsBelow(layers, ladder, n);
    LadderTermsAt(layers, ladder, x, n);
    HitsIncreasing(layers, ladder, n);
    HitsComplete(layers, ladder, n);
  }

  lemma {:induction false} HitsBelow(layers: seq<string>, ladder: map<string, Head>, n: nat)
    requires n <= |layers|
    ensures forall k :: 0 <= k < |Hits(layers, ladder, n)| ==>
              Hits(layers, ladder, n)[k] < n && layers[Hits(layers, ladder, n)[k]] in ladder
  {
    if n > 0 {
      HitsBelow(layers, ladder, n - 1);
      var h0, h := Hits(layers, ladder, n - 1), Hits(layers, ladder, n);
      if layers[n - 1] in ladder {
        assert h == h0 + [n - 1];
      } else {
        assert h == h0;
      }
    }
  }

  lemma {:induction false} LadderTermsAt(layers: seq<string>, ladder: map<string, Head>, x: Term, n: nat)
    requires n <= |layers|
    ensures var t, h := LadderTerms(layers, ladder, x, n), Hits(layers, ladder, n);
            && |t| == |h|
            && forall k :: 0 <= k < |h| ==>
                 h[k] < n && layers[h[k]] in ladder
                 && t[k] == Dist(ladder[layers[h[k]]].name, Flat(Chain(layers[..h[k] + 1], x)))
  {
    HitsBelow(layers, ladder, n);
    if n > 0 {
      LadderTermsAt(layers, ladder, x, n - 1);
      var t0, h0 := LadderTerms(layers, ladder, x, n - 1), Hits(layers, ladder, n - 1);
      var t, h := LadderTerms(layers, ladder, x, n), Hits(layers, ladder, n);
      if layers[n - 1] in ladder {
        var d := Dist(ladder[layers[n - 1]].name, Flat(Chain(layers[..n], x)));
        assert t == t0 + [d];
        assert h == h0 + [n - 1];
        forall k | 0 <= k < |h|
          ensures t[k] == Dist(ladder[layers[h[k]]].name, Flat(Chain(layers[..h[k] + 1], x)))
        {
          if k < |h0| {
            assert t[k] == t0[k] && h[k] == h0[k];
          } else {
            assert t[k] == d && h[k] + 1 == n;
          }
        }
      } else {
        assert t == t0 && h == h0;
      }
    }
  }

  lemma {:induction false} HitsIncreasing(layers: seq<string>, ladder: map<string, Head>, n: nat)
    requires n <= |layers|
    ensures forall k, j :: 0 <= k < j < |Hits(layers, ladder, n)| ==>
              Hits(layers, ladder, n)[k] < Hits(layers, ladder, n)[j]
  {
    if n > 0 {
      HitsIncreasing(layers, ladder, n - 1);
      HitsBelow(layers, ladder, n - 1);
      var h0, h := Hits(layers, ladder, n - 1), Hits(layers, ladder, n);
      if layers[n - 1] in ladder {
        assert h == h0 + [n - 1];
        forall k, j | 0 <= k < j < |h|
          ensures h[k] < h[j]
        {
          assert h[k] == h0[k];
          if j < |h0| {
            assert h[j] == h0[j];
            assert h0[k] < h0[j];
          } else {
            assert h[j] == n - 1;
            assert h0[k] < n - 1;
          }
        }
      } else {
        assert h == h0;
      }
    }
  }

  lemma {:induction false} HitsComplete(layers: seq<string>, ladder: map<string, Head>, n: nat)
    requires n <= |layers|
    ensures forall i :: 0 <= i < n && layers[i] in ladder ==> i in Hits(layers, ladder, n)
  {
    if n > 0 {
      HitsComplete(layers, ladder, n - 1);
      var h0, h := Hits(layers, ladder, n - 1), Hits(layers, ladder, n);
      if layers[n - 1] in ladder {
        assert h == h0 + [n - 1];
      } else {
        assert h == h0;
      }
    }
  }

  /** `PUnetVAE.encode`: the main latent first, then the ladder posteriors
      in encoder layer order. */
  function PUnetEncode(p: PUnet, x: Term): (r: seq<Term>)
    ensures |r| >= 1 && r[0] == Dist(LatentsHead, Chain(p.encoder, x))
  {
    [Dist(LatentsHead, Chain(p.encoder, x))] + LadderTerms(p.encoder, p.ladder, x, |p.encoder|)
  }

  /** `PUnetVAE.decode`: the observation first, then the ladder priors in
      decoder layer order; an empty latent list fails on `latents[0]`. */
  function PUnetDecode(p: PUnet, latents: seq<Term>): (r: Result<seq<Term>>)
    ensures r.Ok? <==> |latents| > 0
    ensures r.Err? ==> r.error == IndexError
    ensures r.Ok? ==> |r.value| >= 1 && r.value[0] == Dist(ObservationHead, Chain(p.decoder, latents[0]))
  {
    if |latents| == 0 then Err(IndexError)
    else Ok([Dist(ObservationHead, Chain(p.decoder, latents[0]))]
            + LadderTerms(p.decoder, p.ladder, latents[0], |p.decoder|))
  }

  /** The order of `PUnetVAE.encode`: after the main latent, entry
      `k + 1` is the ladder posterior of the `k`-th encoder layer that has
      a ladder latent, in layer order. */
  lemma {:induction false} PUnetEncodeOrder(p: PUnet, x: Term)
    ensures var q, he := PUnetEncode(p, x), Hits(p.encoder, p.ladder, |p.encoder|);
            && |q| == 1 + |he|
            && (forall k, j :: 0 <= k < j < |he| ==> he[k] < he[j])
            && (forall i :: 0 <= i < |p.encoder| && p.encoder[i] in p.ladder ==> i in he)
            && forall k :: 0 <= k < |he| ==>
                 && he[k] < |p.encoder| && p.encoder[he[k]] in p.ladder
                 && q[k + 1] == Dist(p.ladder[p.encoder[he[k]]].name, Flat(Chain(p.encoder[..he[k] + 1], x)))
  {
    HitsIncreasing(p.encoder, p.ladder, |p.encoder|);
    HitsComplete(p.encoder, p.ladder, |p.encoder|);
    LadderTermsAt(p.encoder, p.ladder, x, |p.encoder|);
    PUnetEncodeTail(p, x);
  }

  /** After the main latent, `PUnetVAE.encode` lists the ladder terms. */
  lemma PUnetEncodeTail(p: PUnet, x: Term)
    ensures var q, t := PUnetEncode(p, x), LadderTerms(p.encoder, p.ladder, x, |p.encoder|);
            && |q| == 1 + |t|
            && forall k :: 0 <= k < |t| ==> q[k + 1] == t[k]
  {
    var q, t := PUnetEncode(p, x), LadderTerms(p.encoder, p.ladder, x, |p.encoder|);
    assert q == [q[0]] + t;
  }

  /** The order of `PUnetVAE.decode`: after the observation, entry `k + 1`
      is the ladder prior of the `k`-th decoder layer that has a ladder
      latent, in layer order. */
  lemma PUnetDecodeOrder(p: PUnet, latents: seq<Term>)
    requires |latents| > 0
    ensures var d, hd := PUnetDecode(p, latents).value, Hits(p.decoder, p.ladder, |p.decoder|);
            && |d| == 1 + |hd|
            && (forall k, j :: 0 <= k < j < |hd| ==> hd[k] < hd[j])
            && (forall i :: 0 <= i < |p.decoder| && p.decoder[i] in p.ladder ==> i in hd)
            && forall k :: 0 <= k < |hd| ==>
                 && hd[k] < |p.decoder| && p.decoder[hd[k]] in p.ladder
                 && d[k + 1] == Dist(p.ladder[p.decoder[hd[k]]].name, Flat(Chain(p.decoder[..hd[k] + 1], latents[0])))
  {
    LadderTermsAtHits(p.decoder, p.ladder, latents[0], |p.decoder|);
    var d, t := PUnetDecode(p, latents).value, LadderTerms(p.decoder, p.ladder, latents[0], |p.decoder|);
    assert d == [d[0]] + t;
    forall k | 0 <= k < |t| ensures d[k + 1] == t[k] { }
  }
}
