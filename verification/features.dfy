/**
 The feature-dictionary rules of the preprocessing pipeline
 (odin/preprocessing/base.py): how an extractor merges its new features with
 the features it was given, how extractors select features by name, the
 constructor checks of `DeltaExtractor` and `EqualizeShape0`, and the
 length-equalising trim of `EqualizeShape0`.

 A Python value reaching an extractor is either a mapping from feature names
 to features (`Dict`) or any other object (`Plain`). A feature array is a
 sequence of rows; its `shape[0]` is the sequence length.
 */
module Features {
  import opened Common

  type Name = string

  /** A mapping of named features, or a non-mapping object. */
  datatype Data<V> = Dict(entries: map<Name, V>) | Plain(item: V)

  /** No feature name of the mapping contains an upper-case letter. */
  predicate LowerNames<V>(m: map<Name, V>) {
    forall k :: k in m ==> !HasUpper(k)
  }

  /** The names of `y` whose value is not `None`. */
  function PresentNames<F>(y: map<Name, Option<F>>): set<Name> {
    set k | k in y && y[k].Some?
  }

  /** The merged dictionary of `Extractor.transform`, characterised entry by
      entry: present new features are kept as they are, every other entry
      comes from the old mapping under a name the new features do not use. */
  ghost predicate MergedFrom<F>(x: Data<Option<F>>, y: map<Name, Option<F>>, r: map<Name, Option<F>>) {
    && (forall k :: k in y && y[k].Some? ==> k in r && r[k] == y[k])
    && (x.Dict? ==> forall k :: k in x.entries ==> k in r)
    && (forall k :: k in r ==>
          (k in y && y[k].Some? && r[k] == y[k])
          || (x.Dict? && k in x.entries && k !in PresentNames(y) && r[k] == x.entries[k]))
  }

  /** `Extractor.transform(X)`, where `y` is what the extractor's own
      `_transform(X)` returned. A mapping result loses its `None` entries and
      absorbs the old features of `X` under names it does not already use; any
      upper-case name, new or old, raises; a non-mapping result replaces `X`. */
  function Transform<F>(x: Data<Option<F>>, y: Data<Option<F>>): (r: Result<Data<Option<F>>>)
    ensures y.Plain? ==> r == Ok(y)
    ensures y.Dict? ==> (r.Ok? <==> LowerNames(y.entries) && (x.Dict? ==> LowerNames(x.entries)))
    ensures r.Err? ==> r.error == RuntimeError
    ensures r.Ok? && y.Dict? ==> r.value.Dict? && MergedFrom(x, y.entries, r.value.entries)
    ensures r.Ok? && y.Dict? ==>
              r.value.entries.Keys == PresentNames(y.entries) + (if x.Dict? then x.entries.Keys else {})
  {
    match y
    case Plain(_) => Ok(y)
    case Dict(ny) =>
      if !LowerNames(ny) then Err(RuntimeError)
      else
        var kept := map k | k in PresentNames(ny) :: ny[k];
        match x
        case Plain(_) => Ok(Dict(kept))
        case Dict(prev) =>
          if !LowerNames(prev) then Err(RuntimeError)
          else Ok(Dict(map k | k in kept.Keys + prev.Keys :: if k in kept then kept[k] else prev[k]))
  }

  /** A feature selector, the `feat_type` argument of the extractors: `None`,
      a callable, or a collection of names. */
  datatype Selector = AnyName | ByPredicate(accepts: Name -> bool) | ByNames(names: seq<Name>)

  /** `_check_feat_name(feat_type, name)`: no selector takes every name, a
      callable decides, a collection of names takes its members. */
  predicate Selects(sel: Selector, name: Name): (b: bool)
    ensures sel.AnyName? ==> b
    ensures sel.ByNames? ==> (b <==> exists i :: 0 <= i < |sel.names| && sel.names[i] == name)
  {
    match sel
    case AnyName => true
    case ByPredicate(accepts) => accepts(name)
    case ByNames(names) => name in names
  }

  /** A mapping whose names are all lower case is never changed by merging a
      result that already holds every one of its names. */
  lemma {:induction false} TransformKeepsCompleteResult<F>(x: map<Name, Option<F>>, y: map<Name, Option<F>>)
    requires LowerNames(x) && LowerNames(y)
    requires forall k :: k in y ==> y[k].Some?
    requires x.Keys <= y.Keys
    ensures Transform(Dict(x), Dict(y)) == Ok(Dict(y))
  {
    var r := Transform(Dict(x), Dict(y));
    assert PresentNames(y) == y.Keys;
    assert r.value.entries.Keys == y.Keys;
    forall k | k in y
      ensures r.value.entries[k] == y[k]
    {
    }
    assert r.value.entries == y;
  }

  // ---------------------------------------------------------------------
  // DeltaExtractor
  // ---------------------------------------------------------------------

  /** The settings a `DeltaExtractor` keeps after construction. */
  datatype DeltaConfig = DeltaConfig(width: int, order: int, axis: int, selector: Selector)

  /** `DeltaExtractor.__init__`: the window width must be an odd integer of at
      least 3 and the order must not be negative. */
  function NewDeltaExtractor(width: int, order: int, axis: int, selector: Selector): (r: Result<DeltaConfig>)
    ensures r.Ok? <==> (exists h: nat :: width == 2 * h + 3) && order >= 0
    ensures r.Err? ==> r.error == ValueError
    ensures r.Ok? ==> r.value.width == width && r.value.order == order && r.value.axis == axis
  {
    if width % 2 == 0 || width < 3 then Err(ValueError)
    else if order < 0 then Err(ValueError)
    else
      assert width == 2 * ((width - 3) / 2) + 3;
      Ok(DeltaConfig(width, order, axis, selector))
  }

  // ---------------------------------------------------------------------
  // EqualizeShape0
  // ---------------------------------------------------------------------

  /** What the caller passes as `feat_type` to `EqualizeShape0`: nothing, a
      callable (with whether it can be pickled), or one or more names. */
  datatype SelectorSpec =
    | NoSelector
    | CallableSpec(accepts: Name -> bool, pickleable: bool)
    | NameSpec(names: seq<string>)

  /** `EqualizeShape0.__init__`: a callable must be pickle-able, names are
      stored lower-cased in their given order. */
  function NewEqualizeShape0(spec: SelectorSpec): (r: Result<Selector>)
    ensures spec.NoSelector? ==> r == Ok(AnyName)
    ensures spec.CallableSpec? ==> (r.Ok? <==> spec.pickleable)
    ensures spec.CallableSpec? && r.Ok? ==> r.value == ByPredicate(spec.accepts)
    ensures spec.NameSpec? ==> r.Ok? && r.value.ByNames? && |r.value.names| == |spec.names|
    ensures spec.NameSpec? ==> forall i :: 0 <= i < |spec.names| ==>
              r.value.names[i] == Lower(spec.names[i]) && !HasUpper(r.value.names[i])
  {
    match spec
    case NoSelector => Ok(AnyName)
    case CallableSpec(accepts, pickleable) =>
      if pickleable then Ok(ByPredicate(accepts)) else Err(ValueError)
    case NameSpec(names) => Ok(ByNames(seq(|names|, i requires 0 <= i < |names| => Lower(names[i]))))
  }

  /** The selector an `EqualizeShape0` keeps: with no selector it takes
      every feature, a callable decides alone, and given names it takes a
      feature exactly when its name is one of them lower-cased, so a name
      holding an upper-case letter is never taken. */
  lemma EqualizeSelector(spec: SelectorSpec, name: Name)
    requires NewEqualizeShape0(spec).Ok?
    ensures var sel := NewEqualizeShape0(spec).value;
            && (spec.NoSelector? ==> Selects(sel, name))
            && (spec.CallableSpec? ==> (Selects(sel, name) <==> spec.accepts(name)))
            && (spec.NameSpec? ==>
                  (Selects(sel, name) <==> exists i :: 0 <= i < |spec.names| && Lower(spec.names[i]) == name))
            && (spec.NameSpec? && HasUpper(name) ==> !Selects(sel, name))
  {
    if spec.NameSpec? {
      var sel := NewEqualizeShape0(spec).value;
      if Selects(sel, name) {
        var i :| 0 <= i < |sel.names| && sel.names[i] == name;
        assert Lower(spec.names[i]) == name;
      }
      if exists i :: 0 <= i < |spec.names| && Lower(spec.names[i]) == name {
        var i :| 0 <= i < |spec.names| && Lower(spec.names[i]) == name;
        assert sel.names[i] == name;
      }
    }
  }

  /** `m` is the least element of `s`. */
  ghost predicate IsLeast(m: int, s: set<int>) {
    m in s && forall v :: v in s ==> m <= v
  }

  /** A finite non-empty set of integers has a least element. */
  lemma {:induction false} MinimumExists(s: set<int>)
    requires s != {}
    ensures exists m :: IsLeast(m, s)
  {
    if forall y :: y !in s {
      assert false;
    }
    var x :| x in s;
    var rest := s - {x};
    if rest == {} {
      forall v | v in s ensures x <= v { assert v !in rest; }
      assert IsLeast(x, s);
    } else {
      MinimumExists(rest);
      var m :| IsLeast(m, rest);
      var least := if x < m then x else m;
      forall v | v in s ensures least <= v { if v != x { assert v in rest; } }
      assert IsLeast(least, s);
    }
  }

  /** The least element of a finite non-empty set, Python's `min(...)`. */
  function MinOf(s: set<int>): (m: int)
    requires s != {}
    ensures m in s
    ensures forall v :: v in s ==> m <= v
  {
    MinimumExists(s);
    var m :| m in s && forall v :: v in s ==> m <= v;
    m
  }

  /** The selected names of a feature mapping. */
  function SelectedNames<R>(sel: Selector, m: map<Name, seq<R>>): set<Name> {
    set k | k in m && Selects(sel, k)
  }

  /** The lengths (`shape[0]`) of the selected features. */
  function SelectedLengths<R>(sel: Selector, m: map<Name, seq<R>>): (r: set<int>)
    ensures forall k :: k in m && Selects(sel, k) ==> |m[k]| in r
    ensures forall l :: l in r ==> exists k :: k in m && Selects(sel, k) && |m[k]| == l
    ensures r == {} <==> SelectedNames(sel, m) == {}
  {
    var r := set k | k in m && Selects(sel, k) :: |m[k]|;
    assert SelectedNames(sel, m) != {} ==> r != {} by {
      if SelectedNames(sel, m) != {} {
        NonEmptyHasMember(SelectedNames(sel, m));
        var k :| k in SelectedNames(sel, m);
        assert |m[k]| in r;
      }
    }
    assert r != {} ==> SelectedNames(sel, m) != {} by {
      if r != {} {
        if forall y :: y !in r {
          assert false;
        }
        var l :| l in r;
        var k :| k in m && Selects(sel, k) && |m[k]| == l;
        assert k in SelectedNames(sel, m);
      }
    }
    r
  }

  /** `feat[diff_left:-diff_right]` of `EqualizeShape0._transform`: cut
      `diff // 2` rows at the front and the rest at the back. */
  function Trim<R>(feat: seq<R>, n: nat): (r: seq<R>)
    requires n < |feat|
    ensures |r| == n
    ensures var front := (|feat| - n) / 2;
            var back := |feat| - n - front;
            && front <= back <= front + 1
            && r == feat[front..front + n]
  {
    var diff := |feat| - n;
    var left := diff / 2;
    var right := diff - left;
    feat[left..|feat| - right]
  }

  /** One entry of the equalising loop: a selected feature longer than `n`
      is trimmed, anything else is kept. */
  function EqualizeFeature<R>(selected: bool, feat: seq<R>, n: nat): (r: seq<R>)
    requires selected ==> n <= |feat|
    ensures !selected ==> r == feat
    ensures selected ==> |r| == n && r == feat[(|feat| - n) / 2..(|feat| - n) / 2 + n]
  {
    if selected && |feat| != n then Trim(feat, n) else feat
  }

  /** Every selected feature of `r` is the centred window of `x`'s feature
      of the same name, as long as the shortest selected feature of `x`;
      every other feature is untouched. */
  ghost predicate EqualizedFrom<R>(sel: Selector, x: map<Name, seq<R>>, r: map<Name, seq<R>>) {
    && r.Keys == x.Keys
    && (forall k :: k in x && !Selects(sel, k) ==> r[k] == x[k])
    && (forall k, k' :: k in x && k' in x && Selects(sel, k) && Selects(sel, k') ==> |r[k]| == |r[k']|)
    && (forall k :: k in x && Selects(sel, k) ==> |r[k]| <= |x[k]|)
    && (exists k :: k in x && Selects(sel, k) && |r[k]| == |x[k]|)
    && (forall k :: k in x && Selects(sel, k) ==>
          var front := (|x[k]| - |r[k]|) / 2;
          r[k] == x[k][front..front + |r[k]|])
  }

  /** The equalising loop for a common length `n` no longer than any
      selected feature. */
  function EqualizeAll<R>(sel: Selector, m: map<Name, seq<R>>, n: nat): (out: map<Name, seq<R>>)
    requires forall k :: k in m && Selects(sel, k) ==> n <= |m[k]|
    ensures out.Keys == m.Keys
    ensures forall k :: k in m ==> out[k] == EqualizeFeature(Selects(sel, k), m[k], n)
  {
    map k | k in m :: EqualizeFeature(Selects(sel, k), m[k], n)
  }

  lemma EqualizeAllMeetsSpec<R>(sel: Selector, m: map<Name, seq<R>>, n: nat, w: Name)
    requires forall k :: k in m && Selects(sel, k) ==> n <= |m[k]|
    requires w in m && Selects(sel, w) && |m[w]| == n
    ensures EqualizedFrom(sel, m, EqualizeAll(sel, m, n))
  {
    var out := EqualizeAll(sel, m, n);
    assert |out[w]| == |m[w]|;
  }

  /** `EqualizeShape0._transform`. A mapping with no selected feature makes
      `min()` of an empty sequence raise; a non-mapping passes through. */
  function Equalize<R>(sel: Selector, x: Data<seq<R>>): (r: Result<Data<seq<R>>>)
    ensures x.Plain? ==> r == Ok(x)
    ensures x.Dict? ==> (r.Err? <==> SelectedNames(sel, x.entries) == {})
    ensures r.Err? ==> r.error == ValueError
    ensures x.Dict? && r.Ok? ==> r.value.Dict? && EqualizedFrom(sel, x.entries, r.value.entries)
  {
    match x
    case Plain(_) => Ok(x)
    case Dict(m) =>
      var lengths := SelectedLengths(sel, m);
      if lengths == {} then Err(ValueError)
      else
        var n := MinOf(lengths);
        var w :| w in m && Selects(sel, w) && |m[w]| == n;
        EqualizeAllMeetsSpec(sel, m, n, w);
        Ok(Dict(EqualizeAll(sel, m, n)))
  }

  /** A mapping whose selected features all have length `n` is a fixed
      point of the equalising loop. */
  lemma EqualLengthsAreFixed<R>(sel: Selector, e: map<Name, seq<R>>, n: nat, w: Name)
    requires w in e && Selects(sel, w) && |e[w]| == n
    requires forall k :: k in e && Selects(sel, k) ==> |e[k]| == n
    ensures Equalize(sel, Dict(e)) == Ok(Dict(e))
  {
    var lengths := SelectedLengths(sel, e);
    assert lengths == {n};
    assert MinOf(lengths) == n;
    var out := EqualizeAll(sel, e, n);
    assert out == e;
  }

  /** Equalising twice is equalising once: after the first pass every
      selected feature already has the common length. */
  lemma EqualizeIdempotent<R>(sel: Selector, x: Data<seq<R>>)
    requires Equalize(sel, x).Ok?
    ensures Equalize(sel, Equalize(sel, x).value) == Equalize(sel, x)
  {
    if x.Dict? {
      var m := x.entries;
      var e := Equalize(sel, x).value.entries;
      assert EqualizedFrom(sel, m, e);
      var w :| w in m && Selects(sel, w) && |e[w]| == |m[w]|;
      EqualLengthsAreFixed(sel, e, |e[w]|, w);
    }
  }

  /** Running `EqualizeShape0` through `Extractor.transform` returns the
      equalised mapping itself: it already holds every old name. */
  lemma EqualizePipeline<R>(sel: Selector, x: map<Name, seq<R>>)
    requires LowerNames(x)
    requires SelectedNames(sel, x) != {}
    ensures var e := Equalize(sel, Dict(x)).value.entries;
            var some := map k | k in e :: Some(e[k]);
            Transform(Dict(map k | k in x :: Some(x[k])), Dict(some)) == Ok(Dict(some))
  {
    var e := Equalize(sel, Dict(x)).value.entries;
    var some := map k | k in e :: Some(e[k]);
    var prev := map k | k in x :: Some(x[k]);
    assert LowerNames(some);
    TransformKeepsCompleteResult(prev, some);
  }
}
