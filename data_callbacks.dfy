/** Data callbacks: binary label smoothing of the targets at train time
    and at test time, and dynamic reweighting of a fold's event weights
    after training.

    Targets and weights are arrays changed in place, as in the source.
    The network's predictions and the user's reweighting callable are one
    given function from a fold's data to one coefficient per event. */
module DataCallbacks {
  import opened Basics
  import opened Frames
  import opened FoldYielding

  // ---------------------------------------------------------------------
  // Label smoothing

  /** The `coefs` argument: one float for both classes, or a pair. */
  datatype Coefs = Single(c: real) | Pair(c0: real, c1: real)

  const DefaultCoefs := Single(0.0)

  /** `coefs if isinstance(coefs, tuple) else (coefs, coefs)`. */
  function CoefPair(coefs: Coefs): (r: (real, real))
    ensures coefs.Single? ==> r.0 == r.1 == coefs.c
    ensures coefs.Pair? ==> r == (coefs.c0, coefs.c1)
  {
    match coefs
    case Single(c) => (c, c)
    case Pair(c0, c1) => (c0, c1)
  }

  /** `t[t == from] = to` on a sequence. */
  function Replaced(s: seq<real>, from: real, to: real): (r: seq<real>)
    ensures |r| == |s|
    ensures forall i :: 0 <= i < |s| ==> r[i] == (if s[i] == from then to else s[i])
  {
    seq(|s|, i requires 0 <= i < |s| => if s[i] == from then to else s[i])
  }

  /** Both passes: zeros to `c0`, then ones (including zeros the first
      pass turned into ones) to `1 - c1`. */
  function Smoothed(s: seq<real>, coefs: (real, real)): (r: seq<real>)
    ensures |r| == |s|
  {
    Replaced(Replaced(s, 0.0, coefs.0), 1.0, 1.0 - coefs.1)
  }

  /** What smoothing does to one target value. */
  lemma SmoothedValues(s: seq<real>, coefs: (real, real))
    ensures var r := Smoothed(s, coefs);
            forall i :: 0 <= i < |s| ==>
              && (s[i] == 0.0 && coefs.0 != 1.0 ==> r[i] == coefs.0)
              && (s[i] == 0.0 && coefs.0 == 1.0 ==> r[i] == 1.0 - coefs.1)
              && (s[i] == 1.0 ==> r[i] == 1.0 - coefs.1)
              && (s[i] != 0.0 && s[i] != 1.0 ==> r[i] == s[i])
  {
  }

  /** With the default coefficients smoothing changes nothing. */
  lemma {:induction false} DefaultSmoothingIdentity(s: seq<real>)
    ensures Smoothed(s, CoefPair(DefaultCoefs)) == s
  {
    var r := Smoothed(s, CoefPair(DefaultCoefs));
    forall i | 0 <= i < |s|
      ensures r[i] == s[i]
    {
    }
  }

  /** The targets of a batch yielder. */
  class BatchYielder {
    var targets: array<real>

    constructor(targets: array<real>)
      ensures this.targets == targets
    {
      this.targets := targets;
    }
  }

  class BinaryLabelSmooth {
    const coefs: (real, real)

    constructor(coefs: Coefs)
      ensures this.coefs == CoefPair(coefs)
    {
      this.coefs := CoefPair(coefs);
    }

    /** Masked assignment `a[a == from] = to`, in place. */
    static method Assign(a: array<real>, from: real, to: real)
      modifies a
      ensures a[..] == Replaced(old(a[..]), from, to)
    {
      var i := 0;
      while i < a.Length
        invariant 0 <= i <= a.Length
        invariant forall j :: 0 <= j < i ==> a[j] == (if old(a[j]) == from then to else old(a[j]))
        invariant forall j :: i <= j < a.Length ==> a[j] == old(a[j])
      {
        if a[i] == from {
          a[i] := to;
        }
        i := i + 1;
      }
      assert a[..] == Replaced(old(a[..]), from, to);
    }

    /** on_epoch_begin: the targets are replaced by a float copy, which
        is then smoothed in place; the old array is left alone. */
    method OnEpochBegin(yielder: BatchYielder)
      modifies yielder
      ensures fresh(yielder.targets)
      ensures yielder.targets[..] == Smoothed(old(yielder.targets[..]), coefs)
    {
      var t := new real[yielder.targets.Length](i requires 0 <= i < yielder.targets.Length reads yielder, yielder.targets => yielder.targets[i]);
      assert t[..] == yielder.targets[..];
      Assign(t, 0.0, coefs.0);
      Assign(t, 1.0, 1.0 - coefs.1);
      yielder.targets := t;
    }

    /** on_eval_begin: the given targets are smoothed in place. */
    method OnEvalBegin(targets: array<real>)
      modifies targets
      ensures targets[..] == Smoothed(old(targets[..]), coefs)
    {
      Assign(targets, 0.0, coefs.0);
      Assign(targets, 1.0, 1.0 - coefs.1);
    }
  }

  // ---------------------------------------------------------------------
  // Dynamic reweighting

  /** `w += scale * coefs * w`. */
  function Boosted(ws: seq<real>, cs: seq<real>, scale: real): (r: seq<real>)
    requires |cs| == |ws|
    ensures |r| == |ws|
    ensures forall i :: 0 <= i < |ws| ==> r[i] == ws[i] * (1.0 + scale * cs[i])
  {
    seq(|ws|, i requires 0 <= i < |ws| => ws[i] + scale * cs[i] * ws[i])
  }

  /** The common factor `start_sum / sum(w)` of the second step. */
  function Factor(ws: seq<real>, cs: seq<real>, scale: real): (k: real)
    requires |cs| == |ws|
    ensures Sum(Boosted(ws, cs, scale)) != 0.0 ==> k * Sum(Boosted(ws, cs, scale)) == Sum(ws)
    ensures Sum(Boosted(ws, cs, scale)) == 0.0 ==> k == 0.0
  {
    var s1 := Sum(Boosted(ws, cs, scale));
    if s1 == 0.0 then 0.0
    else
      RatioCancel(Sum(ws), s1, Sum(ws) / s1);
      Sum(ws) / s1
  }

  /** With a non-zero boosted sum the factor is the plain ratio. */
  lemma FactorIs(ws: seq<real>, cs: seq<real>, scale: real, s0: real, s1: real)
    requires |cs| == |ws|
    requires s0 == Sum(ws) && s1 == Sum(Boosted(ws, cs, scale)) && s1 != 0.0
    ensures Factor(ws, cs, scale) == s0 / s1
  {
  }

  /** The reweighting arithmetic: boost every weight, then rescale all of
      them by one factor; a zero boosted sum is a division by zero. */
  function Reweighted(ws: seq<real>, cs: seq<real>, scale: real): (r: Result<seq<real>>)
    requires |cs| == |ws|
    ensures r.Ok? ==> |r.value| == |ws|
  {
    var b := Boosted(ws, cs, scale);
    if Sum(b) == 0.0 then Err(ZeroWeightSum) else Ok(Scaled(b, Factor(ws, cs, scale)))
  }

  lemma RatioCancel(s0: real, s1: real, k: real)
    requires s1 != 0.0 && k == s0 / s1
    ensures k * s1 == s0
  {
  }

  /** Rescaling by `s0 / sum` makes any list sum to `s0`. */
  lemma RescaledSum(b: seq<real>, s0: real, k: real)
    requires Sum(b) != 0.0 && k == s0 / Sum(b)
    ensures Sum(Scaled(b, k)) == s0
  {
    SumScaled(b, k);
    RatioCancel(s0, Sum(b), k);
  }

  /** Reweighting keeps the total weight of the fold. */
  lemma ReweightKeepsSum(ws: seq<real>, cs: seq<real>, scale: real)
    requires |cs| == |ws| && Reweighted(ws, cs, scale).Ok?
    ensures Sum(Reweighted(ws, cs, scale).value) == Sum(ws)
  {
    RescaledSum(Boosted(ws, cs, scale), Sum(ws), Factor(ws, cs, scale));
  }

  lemma BoostAt(w: real, c: real, scale: real, k: real, x: real)
    requires x == w + scale * c * w
    ensures x * k == k * (w * (1.0 + scale * c))
  {
  }

  /** Every new weight is one common factor times `w_i * (1 + scale * c_i)`:
      the ratios between events follow the coefficients alone. */
  lemma ReweightProportional(ws: seq<real>, cs: seq<real>, scale: real)
    requires |cs| == |ws| && Reweighted(ws, cs, scale).Ok?
    ensures var r, k := Reweighted(ws, cs, scale).value, Factor(ws, cs, scale);
            forall i :: 0 <= i < |ws| ==> r[i] == k * (ws[i] * (1.0 + scale * cs[i]))
  {
    var b := Boosted(ws, cs, scale);
    var k := Factor(ws, cs, scale);
    var r := Reweighted(ws, cs, scale).value;
    assert r == Scaled(b, k);
    forall i | 0 <= i < |ws|
      ensures r[i] == k * (ws[i] * (1.0 + scale * cs[i]))
    {
      BoostAt(ws[i], cs[i], scale, k, b[i]);
    }
  }

  /** reweight_fold's effect on the fold's weights: get_fold's data, one
      coefficient per event (another length is a shape error), and the
      reweighting arithmetic. */
  function FoldReweight(cfg: Config, source: seq<Fold>, id: int, scale: real, coefsOf: FoldData -> seq<real>,
                        draws: Draws, trig: Trig): (r: Result<seq<real>>)
    requires WellFormed(cfg)
    ensures !(0 <= id < |source|) ==> r == Err(MissingFold(id))
    ensures r.Ok? ==> 0 <= id < |source| && |r.value| == |source[id].weights|
    ensures r.Ok? ==> Sum(r.value) == Sum(source[id].weights)
  {
    match TrainFold(cfg, source, id, draws, trig)
    case Err(e) => Err(e)
    case Ok(fld) =>
      var cs := coefsOf(fld);
      if |cs| != |fld.weights| then Err(ShapeMismatch)
      else
        var w := Reweighted(fld.weights, cs, scale);
        if w.Ok? then
          ReweightKeepsSum(fld.weights, cs, scale);
          w
        else w
  }

  /** The fold file after reweight_fold as written: the new weights are
      never stored, because the yielder has no `foldfile` attribute. */
  function ReweightedSourceAsWritten(cfg: Config, source: seq<Fold>, id: int, scale: real,
                                     coefsOf: FoldData -> seq<real>, draws: Draws, trig: Trig): (r: Result<seq<Fold>>)
    requires WellFormed(cfg)
    ensures r.Err?
    ensures FoldReweight(cfg, source, id, scale, coefsOf, draws, trig).Ok? ==> r == Err(MissingAttribute("foldfile"))
  {
    match FoldReweight(cfg, source, id, scale, coefsOf, draws, trig)
    case Err(e) => Err(e)
    case Ok(_) => Err(MissingAttribute("foldfile"))
  }

  /** The fold file after reweight_fold writing through `source`: only the
      weights of fold `id` change. */
  function ReweightedSource(cfg: Config, source: seq<Fold>, id: int, scale: real,
                            coefsOf: FoldData -> seq<real>, draws: Draws, trig: Trig): (r: Result<seq<Fold>>)
    requires WellFormed(cfg)
    ensures r.Ok? ==> 0 <= id < |source| && |r.value| == |source|
  {
    match FoldReweight(cfg, source, id, scale, coefsOf, draws, trig)
    case Err(e) => Err(e)
    case Ok(w) =>
      GetDataIndex(source, id);
      Ok(source[id := source[id].(weights := w)])
  }

  lemma GetDataIndex(source: seq<Fold>, id: int)
    requires GetData(source, id).Ok?
    ensures 0 <= id < |source|
  {
  }

  /** The write-back as written fails exactly when the intended one
      succeeds, so no fold is ever reweighted; the intended one keeps each
      fold's total weight and changes nothing but that fold's weights. */
  lemma ForgottenWriteBack(cfg: Config, source: seq<Fold>, id: int, scale: real,
                           coefsOf: FoldData -> seq<real>, draws: Draws, trig: Trig)
    requires WellFormed(cfg)
    ensures ReweightedSourceAsWritten(cfg, source, id, scale, coefsOf, draws, trig).Err?
    ensures ReweightedSource(cfg, source, id, scale, coefsOf, draws, trig).Ok? ==>
            ReweightedSourceAsWritten(cfg, source, id, scale, coefsOf, draws, trig) == Err(MissingAttribute("foldfile"))
    ensures ReweightedSource(cfg, source, id, scale, coefsOf, draws, trig).Err? ==>
            ReweightedSourceAsWritten(cfg, source, id, scale, coefsOf, draws, trig)
            == ReweightedSource(cfg, source, id, scale, coefsOf, draws, trig)
    ensures var r := ReweightedSource(cfg, source, id, scale, coefsOf, draws, trig);
            r.Ok? ==>
              && Sum(r.value[id].weights) == Sum(source[id].weights)
              && r.value[id].inputs == source[id].inputs
              && r.value[id].targets == source[id].targets
              && r.value[id].preds == source[id].preds
              && forall j :: 0 <= j < |source| && j != id ==> r.value[j] == source[j]
  {
    var r := ReweightedSource(cfg, source, id, scale, coefsOf, draws, trig);
    if r.Ok? {
      var fld := TrainFold(cfg, source, id, draws, trig).value;
      TrainFoldData(cfg, source, id, draws, trig);
      ReweightKeepsSum(fld.weights, coefsOf(fld), scale);
    }
  }

  /** The new weights of a fold depend only on that fold's data. */
  lemma FoldReweightReadsData(cfg: Config, s1: seq<Fold>, s2: seq<Fold>, id: int, scale: real,
                              coefsOf: FoldData -> seq<real>, draws: Draws, trig: Trig)
    requires WellFormed(cfg) && SameData(s1, s2, id)
    ensures FoldReweight(cfg, s1, id, scale, coefsOf, draws, trig) == FoldReweight(cfg, s2, id, scale, coefsOf, draws, trig)
  {
    FoldsReadOnlyData(cfg, s1, s2, id, 0, draws, trig);
  }

  class DynamicReweight {
    const scale: real
    const evalAllFolds: bool
    /** The model's predictions on a fold followed by the user's
        `reweight` callable: one coefficient per event. */
    const coefsOf: FoldData -> seq<real>

    constructor(coefsOf: FoldData -> seq<real>, scale: real, evalAllFolds: bool)
      ensures this.coefsOf == coefsOf && this.scale == scale && this.evalAllFolds == evalAllFolds
    {
      this.coefsOf, this.scale, this.evalAllFolds := coefsOf, scale, evalAllFolds;
    }

    /** `np.sum(a)`. */
    static method SumOf(a: array<real>) returns (s: real)
      ensures s == Sum(a[..])
    {
      s := 0.0;
      var i := 0;
      while i < a.Length
        invariant 0 <= i <= a.Length
        invariant s == Sum(a[..i])
      {
        assert a[..i + 1][..i] == a[..i];
        s := s + a[i];
        i := i + 1;
      }
      assert a[..a.Length] == a[..];
    }

    /** The two in-place updates of the weights. */
    /** `w += scale * coefs * w`, element by element. */
    static method Boost(w: array<real>, cs: seq<real>, scale: real)
      requires |cs| == w.Length
      modifies w
      ensures w[..] == Boosted(old(w[..]), cs, scale)
    {
      ghost var ws := w[..];
      var i := 0;
      while i < w.Length
        invariant 0 <= i <= w.Length
        invariant forall j :: 0 <= j < i ==> w[j] == ws[j] + scale * cs[j] * ws[j]
        invariant forall j :: i <= j < w.Length ==> w[j] == ws[j]
      {
        w[i] := w[i] + scale * cs[i] * w[i];
        i := i + 1;
      }
      assert forall j :: 0 <= j < w.Length ==> w[..][j] == Boosted(ws, cs, scale)[j];
      assert w[..] == Boosted(ws, cs, scale);
    }

    /** `w *= k`, element by element. */
    static method Rescale(w: array<real>, k: real)
      modifies w
      ensures w[..] == Scaled(old(w[..]), k)
    {
      ghost var ws := w[..];
      var i := 0;
      while i < w.Length
        invariant 0 <= i <= w.Length
        invariant forall j :: 0 <= j < i ==> w[j] == ws[j] * k
        invariant forall j :: i <= j < w.Length ==> w[j] == ws[j]
      {
        w[i] := w[i] * k;
        i := i + 1;
      }
      assert forall j :: 0 <= j < w.Length ==> w[..][j] == Scaled(ws, k)[j];
      assert w[..] == Scaled(ws, k);
    }

    static method ReweightInPlace(w: array<real>, cs: seq<real>, scale: real) returns (err: Option<Error>)
      requires |cs| == w.Length
      modifies w
      ensures var r := Reweighted(old(w[..]), cs, scale);
              && (r.Err? ==> err == Some(r.error))
              && (r.Ok? ==> err.None? && w[..] == r.value)
    {
      ghost var ws := w[..];
      var startSum := SumOf(w);
      Boost(w, cs, scale);
      var newSum := SumOf(w);
      if newSum == 0.0 {
        return Some(ZeroWeightSum);
      }
      var k := startSum / newSum;
      FactorIs(ws, cs, scale, startSum, newSum);
      Rescale(w, k);
      err := None;
    }

    /** reweight_fold as written: the new weights are computed and then
        stored through `fy.foldfile`, which does not exist. */
    method ReweightFoldAsWritten(fy: FoldYielder, foldId: int, draws: Draws, trig: Trig) returns (err: Option<Error>)
      requires fy.Valid()
      ensures var r := ReweightedSourceAsWritten(fy.cfg, fy.source, foldId, scale, coefsOf, draws, trig);
              r.Err? && err == Some(r.error)
    {
      var fld := fy.GetFold(foldId, draws, trig);
      if fld.Err? {
        return Some(fld.error);
      }
      var cs := coefsOf(fld.value);
      var ws := fld.value.weights;
      if |cs| != |ws| {
        return Some(ShapeMismatch);
      }
      var w := new real[|ws|](i requires 0 <= i < |ws| => ws[i]);
      assert w[..] == ws;
      err := ReweightInPlace(w, cs, scale);
      if err.Some? {
        return err;
      }
      err := Some(MissingAttribute("foldfile"));
    }

    /** reweight_fold with the write-back through the yielder's source:
        fold `foldId`'s weights are replaced by the reweighted ones. */
    method ReweightFold(fy: FoldYielder, foldId: int, draws: Draws, trig: Trig) returns (err: Option<Error>)
      requires fy.Valid()
      modifies fy
      ensures fy.Valid()
      ensures var r := ReweightedSource(fy.cfg, old(fy.source), foldId, scale, coefsOf, draws, trig);
              && (r.Err? ==> err == Some(r.error) && fy.source == old(fy.source))
              && (r.Ok? ==> err.None? && fy.source == r.value)
    {
      var fld := fy.GetFold(foldId, draws, trig);
      if fld.Err? {
        return Some(fld.error);
      }
      var cs := coefsOf(fld.value);
      var ws := fld.value.weights;
      if |cs| != |ws| {
        return Some(ShapeMismatch);
      }
      var w := new real[|ws|](i requires 0 <= i < |ws| => ws[i]);
      assert w[..] == ws;
      err := ReweightInPlace(w, cs, scale);
      if err.Some? {
        return err;
      }
      GetDataIndex(fy.source, foldId);
      fy.SetSource(fy.source[foldId := fy.source[foldId].(weights := w[..])]);
    }

    /** on_train_end: every fold `0 .. n_folds-1` in order when
        eval_all_folds is set (stopping at the first failure, with the
        earlier folds already reweighted), otherwise only `val_id`. */
    method OnTrainEnd(fy: FoldYielder, valId: int, draws: nat -> Draws, trig: Trig) returns (err: Option<Error>, ghost failed: int)
      requires fy.Valid()
      modifies fy
      ensures fy.Valid() && |fy.source| == |old(fy.source)|
      ensures !evalAllFolds ==>
                var r := ReweightedSource(fy.cfg, old(fy.source), valId, scale, coefsOf, draws(0), trig);
                && failed == valId
                && (r.Err? ==> err == Some(r.error) && fy.source == old(fy.source))
                && (r.Ok? ==> err.None? && fy.source == r.value)
      ensures evalAllFolds ==>
                && 0 <= failed <= |old(fy.source)|
                && (err.None? <==> failed == |old(fy.source)|)
                && (forall j :: 0 <= j < failed ==>
                      FoldReweight(fy.cfg, old(fy.source), j, scale, coefsOf, draws(j), trig).Ok? &&
                      fy.source[j] == old(fy.source)[j].(weights :=
                        FoldReweight(fy.cfg, old(fy.source), j, scale, coefsOf, draws(j), trig).value))
                && (forall j :: failed <= j < |fy.source| ==> fy.source[j] == old(fy.source)[j])
                && (err.Some? ==>
                      var r := FoldReweight(fy.cfg, old(fy.source), failed, scale, coefsOf, draws(failed), trig);
                      r.Err? && err == Some(r.error))
    {
      if !evalAllFolds {
        err := ReweightFold(fy, valId, draws(0), trig);
        failed := valId;
        return;
      }
      ghost var s0 := fy.source;
      var n := fy.nFolds;
      var i := 0;
      while i < n
        invariant 0 <= i <= n == |s0|
        invariant fy.Valid() && |fy.source| == n
        invariant forall j :: 0 <= j < i ==>
                    FoldReweight(fy.cfg, s0, j, scale, coefsOf, draws(j), trig).Ok? &&
                    fy.source[j] == s0[j].(weights := FoldReweight(fy.cfg, s0, j, scale, coefsOf, draws(j), trig).value)
        invariant forall j :: i <= j < n ==> fy.source[j] == s0[j]
      {
        FoldReweightReadsData(fy.cfg, s0, fy.source, i, scale, coefsOf, draws(i), trig);
        err := ReweightFold(fy, i, draws(i), trig);
        if err.Some? {
          failed := i;
          return;
        }
        i := i + 1;
      }
      failed := n;
      err := None;
    }
  }
}
