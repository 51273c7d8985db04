/**
 Argument handling shared by the sequential network builders
 (odin/networks/sequential_networks.py): per-layer arguments given either as
 one value or as one value per layer are broadcast to the layer count, and
 a convolution rank is reconciled with an optional input shape.
 */
module NetworkArgs {
  import opened Common

  /** A constructor argument as the caller passes it: a single value (used
      for every layer) or a list/tuple of per-layer values. */
  datatype Arg<T> = One(x: T) | Many(xs: seq<T>)

  /** `as_tuple(a)` without a target length: a scalar becomes a 1-tuple,
      a list or tuple is kept as it is. */
  function AsTuple<T>(a: Arg<T>): (r: seq<T>)
    ensures a.One? ==> r == [a.x]
    ensures a.Many? ==> r == a.xs
  {
    match a
    case One(x) => [x]
    case Many(xs) => xs
  }

  /** `as_tuple(a, N=n)`: a 1-tuple is repeated `n` times, an `n`-tuple is
      kept, any other length raises `ValueError`. */
  function Broadcast<T>(a: Arg<T>, n: nat): (r: Result<seq<T>>)
    ensures r.Ok? <==> |AsTuple(a)| == 1 || |AsTuple(a)| == n
    ensures r.Err? ==> r.error == ValueError
    ensures r.Ok? ==> |r.value| == n
    ensures r.Ok? && |AsTuple(a)| == n ==> r.value == AsTuple(a)
    ensures r.Ok? && |AsTuple(a)| == 1 ==>
              forall i :: 0 <= i < n ==> r.value[i] == AsTuple(a)[0]
  {
    var t := AsTuple(a);
    if |t| == 1 then Ok(seq(n, _ => t[0]))
    else if |t| == n then Ok(t)
    else Err(ValueError)
  }

  /** A broadcast tuple broadcasts to itself: broadcasting is idempotent,
      which is what lets stored per-layer tuples be passed back to a
      constructor. */
  lemma BroadcastIdempotent<T>(a: Arg<T>, n: nat)
    requires Broadcast(a, n).Ok?
    ensures Broadcast(Many(Broadcast(a, n).value), n) == Broadcast(a, n)
  {
  }

  /** Any per-layer tuple of the right length is accepted unchanged, in
      particular a reversed one. */
  lemma BroadcastReversed<T>(xs: seq<T>)
    ensures Broadcast(Many(Reverse(xs)), |xs|) == Ok(Reverse(xs))
  {
  }

  /** `_as_arg_tuples(ref, *rest)`: the layer count is the length of the
      reference argument as a tuple; every argument comes back as a tuple
      of that length, the reference first. */
  function AsArgTuples<T>(reference: Arg<T>, rest: seq<Arg<T>>): (r: Result<(seq<seq<T>>, nat)>)
    ensures r.Ok? <==> forall j :: 0 <= j < |rest| ==> Broadcast(rest[j], |AsTuple(reference)|).Ok?
    ensures r.Err? ==> r.error == ValueError
    ensures r.Ok? ==> r.value.1 == |AsTuple(reference)|
    ensures r.Ok? ==> |r.value.0| == |rest| + 1 && r.value.0[0] == AsTuple(reference)
    ensures r.Ok? ==> forall j :: 0 <= j < |rest| ==>
              r.value.0[j + 1] == Broadcast(rest[j], r.value.1).value
  {
    var n := |AsTuple(reference)|;
    if forall j :: 0 <= j < |rest| ==> Broadcast(rest[j], n).Ok? then
      Ok(([AsTuple(reference)] + seq(|rest|, j requires 0 <= j < |rest| => Broadcast(rest[j], n).value), n))
    else
      Err(ValueError)
  }

  /** Every tuple `_as_arg_tuples` returns has the layer count as length. */
  lemma AsArgTuplesUniformLength<T>(reference: Arg<T>, rest: seq<Arg<T>>)
    requires AsArgTuples(reference, rest).Ok?
    ensures forall j :: 0 <= j < |AsArgTuples(reference, rest).value.0| ==>
              |AsArgTuples(reference, rest).value.0[j]| == AsArgTuples(reference, rest).value.1
  {
    var r := AsArgTuples(reference, rest).value;
    forall j | 0 <= j < |r.0|
      ensures |r.0[j]| == r.1
    {
      if j > 0 {
        assert r.0[j] == Broadcast(rest[j - 1], r.1).value;
      }
    }
  }

  /** `_rank_and_input_shape(rank, input_shape)`: at least one must be
      given; a missing rank is derived from the shape (batch dimension
      excluded) and a given rank must agree with it. */
  function RankAndInputShape(rank: Option<int>, inputShape: Option<seq<int>>): (r: Result<(int, Option<seq<int>>)>)
    ensures r.Err? <==>
              || (rank.None? && inputShape.None?)
              || (rank.Some? && inputShape.Some? && rank.value != |inputShape.value| - 1)
    ensures r.Err? ==> r.error == ValueError
    ensures r.Ok? ==> r.value.1 == inputShape
    ensures r.Ok? && rank.Some? ==> r.value.0 == rank.value
    ensures r.Ok? && inputShape.Some? ==> r.value.0 == |inputShape.value| - 1
  {
    if rank.None? && inputShape.None? then Err(ValueError)
    else if inputShape.None? then Ok((rank.value, None))
    else
      var derived := |inputShape.value| - 1;
      if rank.Some? && rank.value != derived then Err(ValueError)
      else Ok((derived, inputShape))
  }

  /** Reconciling an already reconciled pair changes nothing. */
  lemma RankAndInputShapeStable(rank: Option<int>, inputShape: Option<seq<int>>)
    requires RankAndInputShape(rank, inputShape).Ok?
    ensures var (k, shape) := RankAndInputShape(rank, inputShape).value;
            RankAndInputShape(Some(k), shape) == RankAndInputShape(rank, inputShape)
  {
  }
}
