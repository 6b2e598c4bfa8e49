/** Ensemble: choosing trained models (and snapshots of their training
    cycles) by a metric, weighting and normalising them, and predicting
    with the weighted sum of their outputs, for an array or for every fold
    of a fold file.

    Networks and the output pipe are given functions on matrices; a member
    names the network it was loaded from. */
module Ensembles {
  import opened Basics
  import opened Floats
  import opened Frames
  import opened FoldYielding

  type Matrix = seq<seq<real>>

  /** `train_<id>.h5`, or `<id>_cycle_<cycle>.h5`. */
  datatype Member = Trained(id: nat) | Snapshot(id: nat, cycle: int)

  // ---------------------------------------------------------------------
  // Weighting rule

  /** `1/value`; numpy gives an infinity for 0, the model an error. */
  function Reciprocal(value: real): Result<real>
  {
    if value == 0.0 then Err(ZeroMetric) else Ok(1.0 / value)
  }

  /** `_get_weights`.  The inversion for the AMS metric tests the literal
      string "metric", so it never happens: the metric plays no part. */
  function GetWeight(value: real, metric: string, weighting: string): (r: Result<real>)
    ensures weighting == "reciprocal" ==> r == Reciprocal(value)
    ensures weighting == "reciprocal" && value != 0.0 ==> r.Ok? && r.value * value == 1.0
    ensures weighting == "uniform" ==> r == Ok(1.0)
    ensures weighting != "reciprocal" && weighting != "uniform" ==> r == Err(UnsupportedWeighting(weighting))
  {
    var v := if "metric" == "ams" then Reciprocal(value) else Ok(value);
    match v
    case Err(e) => Err(e)
    case Ok(x) =>
      if weighting == "reciprocal" then Reciprocal(x)
      else if weighting == "uniform" then Ok(1.0)
      else Err(UnsupportedWeighting(weighting))
  }

  // ---------------------------------------------------------------------
  // Ranking

  /** A row `(model, result)` of the structured array that is sorted. */
  datatype Entry = Entry(model: nat, result: real)

  /** The order of `np.sort(..., order=['result'])`: by result, ties by
      the remaining field, the model index. */
  predicate NotAfter(a: Entry, b: Entry)
  {
    a.result < b.result || (a.result == b.result && a.model <= b.model)
  }

  predicate Ranked(s: seq<Entry>)
  {
    forall i, j :: 0 <= i < j < |s| ==> NotAfter(s[i], s[j])
  }

  /** `(i, result[metric])` for every result; a result without the metric
      raises KeyError. */
  function Entries(results: seq<map<string, real>>, metric: string): (r: Result<seq<Entry>>)
    ensures r.Ok? ==> |r.value| == |results|
  {
    if forall i :: 0 <= i < |results| ==> metric in results[i] then
      Ok(seq(|results|, i requires 0 <= i < |results| => Entry(i, results[i][metric])))
    else Err(MissingMetric(metric))
  }

  function Insert(e: Entry, s: seq<Entry>): (r: seq<Entry>)
    ensures multiset(r) == multiset(s) + multiset{e}
    decreases |s|
  {
    if s == [] || NotAfter(e, s[0]) then [e] + s
    else
      assert s == [s[0]] + s[1..];
      [s[0]] + Insert(e, s[1..])
  }

  lemma {:induction false} InsertRanked(e: Entry, s: seq<Entry>)
    requires Ranked(s)
    ensures Ranked(Insert(e, s))
    decreases |s|
  {
    if s != [] && !NotAfter(e, s[0]) {
      var rest := Insert(e, s[1..]);
      InsertRanked(e, s[1..]);
      assert Insert(e, s) == [s[0]] + rest;
      forall j | 0 <= j < |rest|
        ensures NotAfter(s[0], rest[j])
      {
        assert rest[j] in multiset(rest);
        if rest[j] != e {
          assert rest[j] in multiset(s[1..]);
          var k :| 0 <= k < |s[1..]| && s[1..][k] == rest[j];
          assert s[k + 1] == rest[j];
        }
      }
    }
  }

  /** The ranking: sorted in the order above, a permutation of its input. */
  function Rank(s: seq<Entry>): (r: seq<Entry>)
    ensures multiset(r) == multiset(s) && Ranked(r)
    ensures |r| == |s|
    decreases |s|
  {
    if s == [] then []
    else
      assert s == [s[0]] + s[1..];
      InsertRanked(s[0], Rank(s[1..]));
      Insert(s[0], Rank(s[1..]))
  }

  /** Ranked permutations of the same entries are equal: with the model
      index breaking ties, the ranking is fully determined. */
  lemma {:induction false} RankUnique(a: seq<Entry>, b: seq<Entry>)
    requires Ranked(a) && Ranked(b) && multiset(a) == multiset(b)
    ensures a == b
    decreases |a|
  {
    assert |a| == |multiset(a)| == |multiset(b)| == |b|;
    if a != [] {
      HeadsAgree(a, b);
      assert a == [a[0]] + a[1..] && b == [b[0]] + b[1..];
      assert multiset(a[1..]) == multiset(a) - multiset{a[0]};
      assert multiset(b[1..]) == multiset(b) - multiset{b[0]};
      RankUnique(a[1..], b[1..]);
    }
  }

  lemma HeadsAgree(a: seq<Entry>, b: seq<Entry>)
    requires Ranked(a) && Ranked(b) && multiset(a) == multiset(b) && a != [] && b != []
    ensures a[0] == b[0]
  {
    assert a[0] in multiset(b) && b[0] in multiset(a);
    var i :| 0 <= i < |b| && b[i] == a[0];
    var j :| 0 <= j < |a| && a[j] == b[0];
    assert NotAfter(a[0], a[j]) && NotAfter(b[0], b[i]);
  }

  // ---------------------------------------------------------------------
  // Selection

  /** The snapshot_args dictionary; absent keys take the source's defaults
      (None, None, falsy, 2, 0). */
  datatype SnapshotArgs = SnapshotArgs(
    cycleLosses: Option<seq<seq<real>>>,
    nCycles: Option<int>,
    loadCyclesOnly: bool,
    patience: int,
    weightingPwr: int)

  const NoSnapshots := SnapshotArgs(None, None, false, 2, 0)

  predicate Truthy(n: Option<int>)
  {
    n.Some? && n.value != 0
  }

  /** Metric and weighting after the snapshot overrides: "loss" and
      "uniform" when both cycle_losses and n_cycles are given. */
  function Overrides(metric: string, weighting: string, args: SnapshotArgs): (r: (string, string))
    ensures args.cycleLosses.Some? && args.nCycles.Some? ==> r == ("loss", "uniform")
    ensures args.cycleLosses.None? || args.nCycles.None? ==> r == (metric, weighting)
  {
    if args.cycleLosses.Some? && args.nCycles.Some? then ("loss", "uniform") else (metric, weighting)
  }

  function PowNat(b: nat, e: nat): (r: nat)
    ensures b >= 1 ==> r >= 1
  {
    if e == 0 then 1 else b * PowNat(b, e - 1)
  }

  /** `b ** e` for a positive integer base and an integer exponent. */
  function Power(b: nat, e: int): (r: real)
    requires b >= 1
    ensures r > 0.0
  {
    if e >= 0 then PowNat(b, e) as real else 1.0 / (PowNat(b, -e) as real)
  }

  /** How many cycles `range(end, max(0, end - n), -1)` visits. */
  function CycleCount(end: int, n: int): nat
  {
    var stop := if end - n > 0 then end - n else 0;
    if end > stop then end - stop else 0
  }

  /** Members and raw weights appended by the selection loop. */
  datatype Batch = Batch(members: seq<Member>, weights: seq<real>)

  function Join(a: Batch, b: Batch): Batch
  {
    Batch(a.members + b.members, a.weights + b.weights)
  }

  /** The trained model of a ranked entry, unless only cycles are loaded. */
  function TopMember(e: Entry, metric: string, weighting: string, args: SnapshotArgs): Result<Batch>
  {
    if !(args.loadCyclesOnly && Truthy(args.nCycles)) then
      match GetWeight(e.result, metric, weighting)
      case Err(x) => Err(x)
      case Ok(w) => Ok(Batch([Trained(e.model)], [w]))
    else Ok(Batch([], []))
  }

  /** The last cycle the walk starts from. */
  function EndCycle(losses: seq<real>, args: SnapshotArgs): int
  {
    |losses| - args.patience + (if args.loadCyclesOnly then 1 else 0)
  }

  /** The cycle walk of a ranked entry: cycles end, end-1, ... down to
      just above max(0, end - n_cycles); the n-th visited gets weight
      (n+1)^weighting_pwr.  cycle_losses missing or too short raises; so
      does the verbose report of a cycle past the recorded losses. */
  function CycleMembers(e: Entry, args: SnapshotArgs, verbose: bool): (r: Result<Batch>)
    ensures !Truthy(args.nCycles) ==> r == Ok(Batch([], []))
    ensures Truthy(args.nCycles) && (args.cycleLosses.None? || e.model >= |args.cycleLosses.value|) ==>
              r == Err(MissingCycleLosses)
    ensures r.Ok? ==> |r.value.members| == |r.value.weights|
  {
    if !Truthy(args.nCycles) then Ok(Batch([], []))
    else if args.cycleLosses.None? || e.model >= |args.cycleLosses.value| then Err(MissingCycleLosses)
    else
      var losses := args.cycleLosses.value[e.model];
      var end := EndCycle(losses, args);
      var count := CycleCount(end, args.nCycles.value);
      if verbose && count > 0 && end >= |losses| then Err(MissingCycleLosses)
      else
        Ok(Batch(seq(count, k requires 0 <= k < count => Snapshot(e.model, end - k)),
                 seq(count, k requires 0 <= k < count => Power(k + 1, args.weightingPwr))))
  }

  function Contribution(e: Entry, metric: string, weighting: string, args: SnapshotArgs, verbose: bool): (r: Result<Batch>)
    ensures r.Ok? ==> |r.value.members| == |r.value.weights|
    ensures r.Ok? && !(args.loadCyclesOnly && Truthy(args.nCycles)) ==>
              && |r.value.members| >= 1
              && r.value.members[0] == Trained(e.model)
              && GetWeight(e.result, metric, weighting) == Ok(r.value.weights[0])
    ensures r.Ok? && args.loadCyclesOnly && Truthy(args.nCycles) ==> r == CycleMembers(e, args, verbose)
  {
    match TopMember(e, metric, weighting, args)
    case Err(x) => Err(x)
    case Ok(t) =>
      match CycleMembers(e, args, verbose)
      case Err(x) => Err(x)
      case Ok(c) =>
        assert [] + c.members == c.members && [] + c.weights == c.weights;
        Ok(Join(t, c))
  }

  /** The selection loop over a prefix of the ranking. */
  function Collect(ranked: seq<Entry>, metric: string, weighting: string, args: SnapshotArgs, verbose: bool): (r: Result<Batch>)
    ensures r.Ok? ==> |r.value.members| == |r.value.weights|
    decreases |ranked|
  {
    if ranked == [] then Ok(Batch([], []))
    else
      var m := |ranked| - 1;
      match Collect(ranked[..m], metric, weighting, args, verbose)
      case Err(x) => Err(x)
      case Ok(b) =>
        match Contribution(ranked[m], metric, weighting, args, verbose)
        case Err(x) => Err(x)
        case Ok(c) => Ok(Join(b, c))
  }

  /** `min(size, len(results))`, and no entries for a negative size. */
  function SelectCount(size: int, n: nat): (k: nat)
    ensures k <= n
  {
    if size <= 0 then 0 else if size < n then size else n
  }

  /** Members and raw weights chosen by build_ensemble. */
  function Selection(results: seq<map<string, real>>, size: int, metric: string, weighting: string,
                     args: SnapshotArgs, verbose: bool): (r: Result<Batch>)
    ensures var key := Overrides(metric, weighting, args).0;
            (exists i :: 0 <= i < |results| && key !in results[i]) ==> r == Err(MissingMetric(key))
    ensures r.Ok? ==> |r.value.members| == |r.value.weights|
  {
    var (metric', weighting') := Overrides(metric, weighting, args);
    match Entries(results, metric')
    case Err(x) => Err(x)
    case Ok(entries) =>
      Collect(Rank(entries)[..SelectCount(size, |results|)], metric', weighting', args, verbose)
  }

  /** `weights / weights.sum()`; an empty list stays empty. */
  function Normalised(ws: seq<real>): (r: seq<real>)
    ensures |r| == |ws|
  {
    if Sum(ws) == 0.0 then ws else Scaled(ws, 1.0 / Sum(ws))
  }

  // ---------------------------------------------------------------------
  // Prediction arithmetic

  /** Entry (a, b) of a matrix, 0 outside it. */
  function At(y: Matrix, a: int, b: int): real
  {
    if 0 <= a < |y| && 0 <= b < |y[a]| then y[a][b] else 0.0
  }

  predicate Sized(y: Matrix, rows: nat, cols: nat)
  {
    |y| == rows && forall a :: 0 <= a < rows ==> |y[a]| == cols
  }

  function Zeros(rows: nat, cols: nat): Matrix
  {
    seq(rows, _ => seq(cols, _ => 0.0))
  }

  /** `acc + w * y`. */
  function AddScaled(acc: Matrix, w: real, y: Matrix, rows: nat, cols: nat): (r: Matrix)
    ensures Sized(r, rows, cols)
  {
    seq(rows, a requires 0 <= a < rows =>
      seq(cols, b requires 0 <= b < cols => At(acc, a, b) + w * At(y, a, b)))
  }

  /** `sum_i ws[i] * ys[i]`, accumulated in order. */
  function WeightedSum(ys: seq<Matrix>, ws: seq<real>, rows: nat, cols: nat): (r: Matrix)
    requires |ws| >= |ys|
    ensures Sized(r, rows, cols)
    decreases |ys|
  {
    if ys == [] then Zeros(rows, cols)
    else
      var m := |ys| - 1;
      AddScaled(WeightedSum(ys[..m], ws, rows, cols), ws[m], ys[m], rows, cols)
  }

  /** What a member contributes: its output, through the output pipe's
      inverse transform when there is one. */
  function Output(m: Member, x: Matrix, pipe: Option<Matrix -> Matrix>, net: (Member, Matrix) -> Matrix): Matrix
  {
    if pipe.Some? then pipe.value(net(m, x)) else net(m, x)
  }

  /** The first failure of the accumulation loop: a weight index past the
      sliced weights (IndexError), or an output of the wrong shape. */
  function FirstFailure(ys: seq<Matrix>, nWeights: nat, rows: nat, cols: nat): (r: Option<Error>)
    ensures r.None? <==> forall i :: 0 <= i < |ys| ==> i < nWeights && Sized(ys[i], rows, cols)
    decreases |ys|
  {
    if ys == [] then None
    else
      var m := |ys| - 1;
      match FirstFailure(ys[..m], nWeights, rows, cols)
      case Some(e) => Some(e)
      case None =>
        if m >= nWeights then
          assert ys[m] in ys;
          Some(IndexOutOfRange)
        else if !Sized(ys[m], rows, cols) then
          assert !(m < nWeights && Sized(ys[m], rows, cols));
          Some(ShapeMismatch)
        else None
  }

  /** The attributes predict_array reads. */
  datatype State = State(
    models: seq<Member>,
    weights: seq<real>,
    nOut: Option<nat>,
    outputPipe: Option<Matrix -> Matrix>)

  /** How many members and weights `[:n_models]` keeps. */
  function PrefixEnds(st: State, nModels: Option<int>): (nat, nat)
  {
    var n := if nModels.None? then |st.models| else nModels.value;
    (SliceEnd(Some(n), |st.models|), SliceEnd(Some(n), |st.weights|))
  }

  /** Every member's output on `x`. */
  function Outputs(ms: seq<Member>, x: Matrix, pipe: Option<Matrix -> Matrix>, net: (Member, Matrix) -> Matrix): (r: seq<Matrix>)
    ensures |r| == |ms|
  {
    seq(|ms|, i requires 0 <= i < |ms| => Output(ms[i], x, pipe, net))
  }

  /** The accumulation loop of predict_array over outputs `ys` with
      (normalised) weights `ws`. */
  function Combine(ys: seq<Matrix>, ws: seq<real>, rows: nat, cols: nat): Result<Matrix>
  {
    var failure := FirstFailure(ys, |ws|, rows, cols);
    if failure.Some? then Err(failure.value)
    else Ok(WeightedSum(ys, ws, rows, cols))
  }

  /** predict_array: the renormalised weighted sum of the first n_models
      members' outputs. */
  function Prediction(st: State, x: Matrix, nModels: Option<int>, net: (Member, Matrix) -> Matrix): (r: Result<Matrix>)
    ensures st.nOut.None? ==> r == Err(MissingAttribute("n_out"))
    ensures r.Ok? ==> st.nOut.Some? && Sized(r.value, |x|, st.nOut.value)
  {
    if st.nOut.None? then Err(MissingAttribute("n_out"))
    else
      var (k, kw) := PrefixEnds(st, nModels);
      var ws := st.weights[..kw];
      if kw > 0 && Sum(ws) == 0.0 then Err(ZeroWeightSum)
      else Combine(Outputs(st.models[..k], x, st.outputPipe, net), Normalised(ws), |x|, st.nOut.value)
  }

  /** `np.mean(preds, axis=0)`. */
  function Mean(ps: seq<Matrix>, rows: nat, cols: nat): (r: Matrix)
    ensures Sized(r, rows, cols)
  {
    if ps == [] then Zeros(rows, cols)
    else WeightedSum(ps, seq(|ps|, _ => 1.0 / |ps| as real), rows, cols)
  }

  // ---------------------------------------------------------------------
  // Predictions for a fold file

  /** Rows of fold `id` as stored (0 for a fold that is not there). */
  function FoldRows(source: seq<Fold>, id: nat): nat
  {
    if id < |source| then |source[id].inputs| else 0
  }

  /** n_out, where it has been set. */
  function OutWidth(st: State): nat
  {
    if st.nOut.Some? then st.nOut.value else 0
  }

  /** predict_array on the training view of fold `id` (get_fold). */
  function TrainPrediction(st: State, cfg: Config, source: seq<Fold>, id: nat, nModels: Option<int>,
                           net: (Member, Matrix) -> Matrix, draws: (nat, nat) -> Draws, trig: Trig): Result<Matrix>
    requires WellFormed(cfg)
  {
    match TrainFold(cfg, source, id, draws(id, 0), trig)
    case Err(e) => Err(e)
    case Ok(data) => Prediction(st, data.inputs, nModels, net)
  }

  /** The test views `0 .. count-1` of fold `id` (get_test_fold). */
  function TestViews(cfg: Config, source: seq<Fold>, id: nat, draws: (nat, nat) -> Draws, trig: Trig,
                     count: nat): (r: seq<Result<FoldData>>)
    requires WellFormed(cfg)
    ensures |r| == count
  {
    seq(count, aug requires 0 <= aug < count => TestFold(cfg, source, id, aug, draws(id, aug), trig))
  }

  /** predict_array on every view in turn; the first failure stops. */
  function Predictions(st: State, views: seq<Result<FoldData>>, nModels: Option<int>,
                       net: (Member, Matrix) -> Matrix): (r: Result<seq<Matrix>>)
    ensures r.Ok? ==> |r.value| == |views|
    decreases |views|
  {
    if views == [] then Ok([])
    else
      var m := |views| - 1;
      match Predictions(st, views[..m], nModels, net)
      case Err(e) => Err(e)
      case Ok(ps) =>
        match views[m]
        case Err(e) => Err(e)
        case Ok(data) =>
          match Prediction(st, data.inputs, nModels, net)
          case Err(e) => Err(e)
          case Ok(p) => Ok(ps + [p])
  }

  /** The test-time average: the mean over all aug_mult views; with no
      views there is no fold to divide by. */
  function AveragedPrediction(st: State, cfg: Config, source: seq<Fold>, id: nat, nModels: Option<int>,
                              net: (Member, Matrix) -> Matrix, draws: (nat, nat) -> Draws, trig: Trig): (r: Result<Matrix>)
    requires WellFormed(cfg)
    ensures cfg.augMult <= 0 ==> r == Err(NoAugmentedViews)
    ensures r.Ok? ==> Sized(r.value, FoldRows(source, id), OutWidth(st))
  {
    if cfg.augMult <= 0 then Err(NoAugmentedViews)
    else
      match Predictions(st, TestViews(cfg, source, id, draws, trig, cfg.augMult), nModels, net)
      case Err(e) => Err(e)
      case Ok(ps) => Ok(Mean(ps, FoldRows(source, id), OutWidth(st)))
  }

  /** What fold_predict saves for a prediction: the matrix, or its first
      column when there is a single output. */
  function Squeeze(pred: Matrix, nOut: nat, rows: nat): (r: Result<Pred>)
    ensures nOut > 1 ==> r == Ok(PredMatrix(pred))
    ensures nOut == 1 ==> r.Ok? && r.value.PredVector? && |r.value.values| == rows
    ensures nOut == 1 ==> forall i :: 0 <= i < rows ==> r.value.values[i] == At(pred, i, 0)
    ensures nOut == 0 ==> r == Err(IndexOutOfRange)
  {
    if nOut > 1 then Ok(PredMatrix(pred))
    else if nOut == 1 then Ok(PredVector(seq(rows, i => At(pred, i, 0))))
    else Err(IndexOutOfRange)
  }

  /** The prediction fold_predict saves for fold `id`: one (training)
      view without test-time augmentation, the unweighted mean over every
      test view with it. */
  function FoldPrediction(st: State, cfg: Config, source: seq<Fold>, id: nat, nModels: Option<int>,
                          net: (Member, Matrix) -> Matrix, draws: (nat, nat) -> Draws, trig: Trig): (r: Result<Pred>)
    requires WellFormed(cfg)
    ensures !cfg.testTimeAug && id >= |source| ==> r == Err(MissingFold(id))
    ensures r.Ok? ==> OutWidth(st) >= 1
    ensures r.Ok? && OutWidth(st) == 1 ==> r.value.PredVector? && |r.value.values| == FoldRows(source, id)
    ensures r.Ok? && OutWidth(st) > 1 ==> r.value.PredMatrix?
  {
    var pred :=
      if !cfg.testTimeAug then TrainPrediction(st, cfg, source, id, nModels, net, draws, trig)
      else AveragedPrediction(st, cfg, source, id, nModels, net, draws, trig);
    match pred
    case Err(e) => Err(e)
    case Ok(p) => Squeeze(p, OutWidth(st), FoldRows(source, id))
  }

  /** Fold `i` of `after` is fold `i` of `before` with prediction `p`
      stored under `name`. */
  predicate SavedAs(before: Fold, after: Fold, name: string, p: Result<Pred>)
  {
    p.Ok? && after == before.(preds := before.preds[name := p.value])
  }

  // ---------------------------------------------------------------------
  // The ensemble

  class Ensemble {
    var models: seq<Member>
    var weights: seq<real>
    var size: int
    var nOut: Option<nat>
    var results: seq<map<string, real>>
    var outputPipe: Option<Matrix -> Matrix>

    function Current(): State
      reads this
    {
      State(models, weights, nOut, outputPipe)
    }

    /** Ensemble(output_pipe): no members yet. */
    constructor(outputPipe: Option<Matrix -> Matrix>)
      ensures models == [] && weights == [] && size == 0 && nOut.None? && results == []
      ensures this.outputPipe == outputPipe
    {
      models := [];
      weights := [];
      size := 0;
      nOut := None;
      results := [];
      this.outputPipe := outputPipe;
    }

    method AddOutputPipe(pipe: Matrix -> Matrix)
      modifies this
      ensures outputPipe == Some(pipe)
      ensures models == old(models) && weights == old(weights) && size == old(size)
      ensures nOut == old(nOut) && results == old(results)
    {
      outputPipe := Some(pipe);
    }

    /** One pass of the selection loop: the trained model, then its
        cycle walk. */
    static method Contribute(e: Entry, metric: string, weighting: string, args: SnapshotArgs, verbose: bool)
      returns (r: Result<Batch>)
      ensures r == Contribution(e, metric, weighting, args, verbose)
    {
      var top := Batch([], []);
      if !(args.loadCyclesOnly && Truthy(args.nCycles)) {
        var w := GetWeight(e.result, metric, weighting);
        if w.Err? {
          return Err(w.error);
        }
        top := Batch([Trained(e.model)], [w.value]);
      }
      var cycles := CycleWalk(e, args, verbose);
      if cycles.Err? {
        return Err(cycles.error);
      }
      r := Ok(Join(top, cycles.value));
    }

    /** The cycle walk for one ranked entry, as a batch of snapshots. */
    static method CycleWalk(e: Entry, args: SnapshotArgs, verbose: bool) returns (r: Result<Batch>)
      ensures r == CycleMembers(e, args, verbose)
    {
      if !Truthy(args.nCycles) {
        return Ok(Batch([], []));
      }
      if args.cycleLosses.None? || e.model >= |args.cycleLosses.value| {
        return Err(MissingCycleLosses);
      }
      var losses := args.cycleLosses.value[e.model];
      var end := |losses| - args.patience;
      if args.loadCyclesOnly {
        end := end + 1;
      }
      var stop := if end - args.nCycles.value > 0 then end - args.nCycles.value else 0;
      ghost var count := CycleCount(end, args.nCycles.value);
      var members: seq<Member> := [];
      var ws: seq<real> := [];
      var c, n := end, 0;
      while c > stop
        invariant c == end - n && n <= count
        invariant end <= stop ==> n == 0
        invariant end > stop ==> c >= stop
        invariant members == seq(n, k requires 0 <= k < n => Snapshot(e.model, end - k))
        invariant ws == seq(n, k requires 0 <= k < n => Power(k + 1, args.weightingPwr))
        invariant verbose && n > 0 ==> end < |losses|
        decreases c - stop
      {
        members := members + [Snapshot(e.model, c)];
        ws := ws + [Power(n + 1, args.weightingPwr)];
        if verbose && c >= |losses| {
          return Err(MissingCycleLosses);
        }
        c, n := c - 1, n + 1;
      }
      return Ok(Batch(members, ws));
    }

    /** build_ensemble: rank, select, walk the cycles and normalise.
        n_out, read from the first member's network, is a parameter. */
    method BuildEnsemble(results: seq<map<string, real>>, size: int, metric: string, weighting: string,
                         args: SnapshotArgs, verbose: bool, nOut: nat) returns (err: Option<Error>)
      modifies this
      ensures outputPipe == old(outputPipe)
      ensures var sel := Selection(results, size, metric, weighting, args, verbose);
              && (sel.Err? ==> err == Some(sel.error))
              && (sel.Ok? && sel.value.members == [] ==>
                    err == Some(EmptyEnsemble) && models == [] && weights == [] && this.size == 0)
              && (sel.Ok? && sel.value.members != [] && Sum(sel.value.weights) == 0.0 ==>
                    err == Some(ZeroWeightSum))
              && (sel.Ok? && sel.value.members != [] && Sum(sel.value.weights) != 0.0 ==>
                    && err.None?
                    && models == sel.value.members
                    && weights == Normalised(sel.value.weights)
                    && this.size == |models|
                    && this.nOut == Some(nOut)
                    && this.results == results)
    {
      ghost var sel := Selection(results, size, metric, weighting, args, verbose);
      var chosen := Overrides(metric, weighting, args);
      var metric', weighting' := chosen.0, chosen.1;
      models := [];
      var entries := Entries(results, metric');
      if entries.Err? {
        assert sel == Err(entries.error);
        return Some(entries.error);
      }
      var ranked := Rank(entries.value);
      var k := SelectCount(size, |results|);
      assert sel == Collect(ranked[..k], metric', weighting', args, verbose);
      var ws := SelectMembers(ranked[..k], metric', weighting', args, verbose);
      if ws.Err? {
        return Some(ws.error);
      }
      err := StoreSelection(ws.value, results, nOut);
    }

    /** The end of build_ensemble: the weights normalised, the size, and
        n_out and the results once a first member exists. */
    method StoreSelection(ws: seq<real>, results: seq<map<string, real>>, nOut: nat) returns (err: Option<Error>)
      modifies this
      ensures models == old(models) && outputPipe == old(outputPipe)
      ensures weights == Normalised(ws) && size == |models|
      ensures models == [] ==> err == Some(EmptyEnsemble)
      ensures models != [] && Sum(ws) == 0.0 ==> err == Some(ZeroWeightSum)
      ensures models != [] && Sum(ws) != 0.0 ==> err.None? && this.nOut == Some(nOut) && this.results == results
    {
      weights := Normalised(ws);
      size := |models|;
      if models == [] {
        return Some(EmptyEnsemble);
      }
      if Sum(ws) == 0.0 {
        return Some(ZeroWeightSum);
      }
      this.nOut := Some(nOut);
      this.results := results;
      err := None;
    }

    /** The selection loop of build_ensemble: append each ranked entry's
        members to `models`, returning their raw weights. */
    method SelectMembers(ranked: seq<Entry>, metric: string, weighting: string, args: SnapshotArgs, verbose: bool)
      returns (r: Result<seq<real>>)
      requires models == []
      modifies this
      ensures weights == old(weights) && size == old(size) && nOut == old(nOut)
      ensures results == old(results) && outputPipe == old(outputPipe)
      ensures var c := Collect(ranked, metric, weighting, args, verbose);
              && (c.Err? ==> r == Err(c.error))
              && (c.Ok? ==> r == Ok(c.value.weights) && models == c.value.members && |models| == |c.value.weights|)
    {
      var ws: seq<real> := [];
      var i := 0;
      while i < |ranked|
        invariant 0 <= i <= |ranked|
        invariant weights == old(weights) && size == old(size) && nOut == old(nOut)
        invariant results == old(results) && outputPipe == old(outputPipe)
        invariant Collect(ranked[..i], metric, weighting, args, verbose) == Ok(Batch(models, ws))
      {
        assert ranked[..i + 1][..i] == ranked[..i];
        assert ranked[..i + 1][i] == ranked[i];
        var c := Contribute(ranked[i], metric, weighting, args, verbose);
        if c.Err? {
          assert Collect(ranked[..i + 1], metric, weighting, args, verbose) == Err(c.error);
          CollectExtends(ranked, i + 1, metric, weighting, args, verbose);
          return Err(c.error);
        }
        models := models + c.value.members;
        ws := ws + c.value.weights;
        i := i + 1;
      }
      assert ranked[..i] == ranked;
      r := Ok(ws);
    }

    /** predict_array(x, n_models). */
    method PredictArray(x: Matrix, nModels: Option<int>, net: (Member, Matrix) -> Matrix) returns (r: Result<Matrix>)
      ensures r == Prediction(Current(), x, nModels, net)
    {
      if nOut.None? {
        return Err(MissingAttribute("n_out"));
      }
      var n := if nModels.None? then |models| else nModels.value;
      var k, kw := SliceEnd(Some(n), |models|), SliceEnd(Some(n), |weights|);
      var ws := weights[..kw];
      if kw > 0 && Sum(ws) == 0.0 {
        return Err(ZeroWeightSum);
      }
      r := Accumulate(models[..k], x, outputPipe, net, Normalised(ws), |x|, nOut.value);
    }

    /** The loop of predict_array: `pred += weights[i] * output` from a
        zero matrix. */
    static method Accumulate(ms: seq<Member>, x: Matrix, pipe: Option<Matrix -> Matrix>, net: (Member, Matrix) -> Matrix,
                             ws: seq<real>, rows: nat, cols: nat) returns (r: Result<Matrix>)
      ensures r == Combine(Outputs(ms, x, pipe, net), ws, rows, cols)
    {
      ghost var ys := Outputs(ms, x, pipe, net);
      var pred := Zeros(rows, cols);
      var i := 0;
      while i < |ms|
        invariant 0 <= i <= |ms|
        invariant FirstFailure(ys[..i], |ws|, rows, cols).None?
        invariant pred == WeightedSum(ys[..i], ws, rows, cols)
      {
        assert ys[..i + 1][..i] == ys[..i];
        var out := net(ms[i], x);
        if pipe.Some? {
          out := pipe.value(out);
        }
        assert out == ys[i];
        if i >= |ws| || !Sized(out, rows, cols) {
          FirstFailureExtends(ys, i + 1, |ws|, rows, cols);
          return Err(if i >= |ws| then IndexOutOfRange else ShapeMismatch);
        }
        pred := AddScaled(pred, ws[i], out, rows, cols);
        i := i + 1;
      }
      assert ys[..|ms|] == ys;
      return Ok(pred);
    }

    /** The prediction fold_predict makes for one fold. */
    method PredictFold(fy: FoldYielder, id: nat, nModels: Option<int>, net: (Member, Matrix) -> Matrix,
                       draws: (nat, nat) -> Draws, trig: Trig) returns (r: Result<Pred>)
      requires fy.Valid()
      ensures r == FoldPrediction(Current(), fy.cfg, fy.source, id, nModels, net, draws, trig)
    {
      var pred: Result<Matrix>;
      if !fy.cfg.testTimeAug {
        var data := fy.GetFold(id, draws(id, 0), trig);
        if data.Err? {
          return Err(data.error);
        }
        pred := PredictArray(data.value.inputs, nModels, net);
      } else {
        pred := AverageViews(fy, id, nModels, net, draws, trig);
      }
      if pred.Err? {
        return Err(pred.error);
      }
      var rows := if id < |fy.source| then |fy.source[id].inputs| else 0;
      r := Squeeze(pred.value, if nOut.Some? then nOut.value else 0, rows);
    }

    /** The test-time branch of fold_predict: predict every view, then
        take the mean. */
    method AverageViews(fy: FoldYielder, id: nat, nModels: Option<int>, net: (Member, Matrix) -> Matrix,
                        draws: (nat, nat) -> Draws, trig: Trig) returns (r: Result<Matrix>)
      requires fy.Valid()
      ensures r == AveragedPrediction(Current(), fy.cfg, fy.source, id, nModels, net, draws, trig)
    {
      if fy.cfg.augMult <= 0 {
        return Err(NoAugmentedViews);
      }
      var views := PredictViews(fy, id, nModels, net, draws, trig, fy.cfg.augMult);
      if views.Err? {
        return Err(views.error);
      }
      r := Ok(Mean(views.value, FoldRows(fy.source, id), OutWidth(Current())));
    }

    /** The loop over views `0 .. count-1`, collecting predictions. */
    method PredictViews(fy: FoldYielder, id: nat, nModels: Option<int>, net: (Member, Matrix) -> Matrix,
                        draws: (nat, nat) -> Draws, trig: Trig, count: nat) returns (r: Result<seq<Matrix>>)
      requires fy.Valid()
      ensures r == Predictions(Current(), TestViews(fy.cfg, fy.source, id, draws, trig, count), nModels, net)
    {
      ghost var tv := TestViews(fy.cfg, fy.source, id, draws, trig, count);
      var views: seq<Matrix> := [];
      var aug := 0;
      while aug < count
        invariant 0 <= aug <= count
        invariant Predictions(Current(), tv[..aug], nModels, net) == Ok(views)
      {
        var p := PredictView(fy, id, aug, nModels, net, draws(id, aug), trig);
        PredictionsSnoc(Current(), tv, aug, views, nModels, net);
        if p.Err? {
          PredictionsExtends(Current(), tv, aug + 1, nModels, net);
          return Err(p.error);
        }
        views := views + [p.value];
        aug := aug + 1;
      }
      assert tv[..aug] == tv;
      r := Ok(views);
    }

    /** One test view of fold `id` and its prediction. */
    method PredictView(fy: FoldYielder, id: nat, aug: nat, nModels: Option<int>, net: (Member, Matrix) -> Matrix,
                       draws: Draws, trig: Trig) returns (r: Result<Matrix>)
      requires fy.Valid()
      ensures r == match TestFold(fy.cfg, fy.source, id, aug, draws, trig)
                   case Err(e) => Err(e)
                   case Ok(data) => Prediction(Current(), data.inputs, nModels, net)
    {
      var data := fy.GetTestFold(id, aug, draws, trig);
      if data.Err? {
        return Err(data.error);
      }
      r := PredictArray(data.value.inputs, nModels, net);
    }

    /** fold_predict: predict every fold in order and store the
        prediction under `predName`; the first failure stops the walk. */
    method FoldPredict(fy: FoldYielder, nModels: Option<int>, predName: string, net: (Member, Matrix) -> Matrix,
                       draws: (nat, nat) -> Draws, trig: Trig) returns (err: Option<Error>, ghost failed: nat)
      requires fy.Valid()
      modifies fy
      ensures fy.Valid() && |fy.source| == |old(fy.source)|
      ensures failed <= |fy.source| && (err.None? <==> failed == |fy.source|)
      ensures forall i :: 0 <= i < failed ==>
                SavedAs(old(fy.source)[i], fy.source[i], predName,
                        FoldPrediction(Current(), fy.cfg, old(fy.source), i, nModels, net, draws, trig))
      ensures forall i :: failed <= i < |fy.source| ==> fy.source[i] == old(fy.source)[i]
      ensures err.Some? ==> FoldPrediction(Current(), fy.cfg, old(fy.source), failed, nModels, net, draws, trig) == Err(err.value)
    {
      ghost var source0 := fy.source;
      var i := 0;
      while i < |fy.source|
        invariant fy.Valid() && |fy.source| == |source0|
        invariant 0 <= i <= |fy.source|
        invariant forall j :: 0 <= j < i ==>
                    SavedAs(source0[j], fy.source[j], predName,
                            FoldPrediction(Current(), fy.cfg, source0, j, nModels, net, draws, trig))
        invariant forall j :: i <= j < |fy.source| ==> fy.source[j] == source0[j]
      {
        FoldPredictionLocal(Current(), fy.cfg, fy.source, source0, i, nModels, net, draws, trig);
        var r := PredictFold(fy, i, nModels, net, draws, trig);
        if r.Err? {
          return Some(r.error), i;
        }
        fy.SetSource(fy.source[i := fy.source[i].(preds := fy.source[i].preds[predName := r.value])]);
        i := i + 1;
      }
      return None, i;
    }
  }

  // ---------------------------------------------------------------------
  // Properties

  lemma {:induction false} CollectExtends(ranked: seq<Entry>, j: nat, metric: string, weighting: string, args: SnapshotArgs, verbose: bool)
    requires j <= |ranked| && Collect(ranked[..j], metric, weighting, args, verbose).Err?
    ensures Collect(ranked, metric, weighting, args, verbose) == Collect(ranked[..j], metric, weighting, args, verbose)
    decreases |ranked| - j
  {
    if j == |ranked| {
      assert ranked[..j] == ranked;
    } else {
      var m := |ranked| - 1;
      assert ranked[..m][..j] == ranked[..j];
      CollectExtends(ranked[..m], j, metric, weighting, args, verbose);
    }
  }

  lemma {:induction false} FirstFailureExtends(ys: seq<Matrix>, j: nat, nWeights: nat, rows: nat, cols: nat)
    requires j <= |ys| && FirstFailure(ys[..j], nWeights, rows, cols).Some?
    ensures FirstFailure(ys, nWeights, rows, cols) == FirstFailure(ys[..j], nWeights, rows, cols)
    decreases |ys| - j
  {
    if j == |ys| {
      assert ys[..j] == ys;
    } else {
      var m := |ys| - 1;
      assert ys[..m][..j] == ys[..j];
      FirstFailureExtends(ys[..m], j, nWeights, rows, cols);
    }
  }

  lemma {:induction false} PredictionsExtends(st: State, views: seq<Result<FoldData>>, j: nat, nModels: Option<int>,
                                              net: (Member, Matrix) -> Matrix)
    requires j <= |views| && Predictions(st, views[..j], nModels, net).Err?
    ensures Predictions(st, views, nModels, net) == Predictions(st, views[..j], nModels, net)
    decreases |views| - j
  {
    if j == |views| {
      assert views[..j] == views;
    } else {
      var m := |views| - 1;
      assert views[..m][..j] == views[..j];
      PredictionsExtends(st, views[..m], j, nModels, net);
    }
  }

  /** One more view: its failure, or its prediction appended. */
  lemma PredictionsSnoc(st: State, views: seq<Result<FoldData>>, k: nat, done: seq<Matrix>, nModels: Option<int>,
                        net: (Member, Matrix) -> Matrix)
    requires k < |views| && Predictions(st, views[..k], nModels, net) == Ok(done)
    ensures views[k].Err? ==> Predictions(st, views[..k + 1], nModels, net) == Err(views[k].error)
    ensures views[k].Ok? ==> Predictions(st, views[..k + 1], nModels, net)
                             == match Prediction(st, views[k].value.inputs, nModels, net)
                                case Err(e) => Err(e)
                                case Ok(p) => Ok(done + [p])
  {
    assert views[..k + 1][..k] == views[..k];
  }

  /** What fold_predict computes for a fold depends on that fold's data
      only, so storing earlier predictions does not change it. */
  lemma FoldPredictionLocal(st: State, cfg: Config, s1: seq<Fold>, s2: seq<Fold>, id: nat, nModels: Option<int>,
                            net: (Member, Matrix) -> Matrix, draws: (nat, nat) -> Draws, trig: Trig)
    requires WellFormed(cfg) && SameData(s1, s2, id)
    ensures FoldPrediction(st, cfg, s1, id, nModels, net, draws, trig)
            == FoldPrediction(st, cfg, s2, id, nModels, net, draws, trig)
  {
    FoldsReadOnlyData(cfg, s1, s2, id, 0, draws(id, 0), trig);
    assert TrainPrediction(st, cfg, s1, id, nModels, net, draws, trig) == TrainPrediction(st, cfg, s2, id, nModels, net, draws, trig);
    if cfg.augMult > 0 {
      var v1, v2 := TestViews(cfg, s1, id, draws, trig, cfg.augMult), TestViews(cfg, s2, id, draws, trig, cfg.augMult);
      forall aug | 0 <= aug < cfg.augMult
        ensures v1[aug] == v2[aug]
      {
        FoldsReadOnlyData(cfg, s1, s2, id, aug, draws(id, aug), trig);
      }
      assert v1 == v2;
    }
    assert FoldRows(s1, id) == FoldRows(s2, id);
  }

  // ---------------------------------------------------------------------
  // Selection properties

  /** Normalised weights sum to one whenever the raw ones do not sum to
      zero (which positive raw weights never do, by SumPositive). */
  lemma NormalisedSum(ws: seq<real>)
    ensures Sum(ws) != 0.0 ==> Sum(Normalised(ws)) == 1.0
  {
    var t := Sum(ws);
    if t != 0.0 {
      var k := 1.0 / t;
      assert Normalised(ws) == Scaled(ws, k);
      SumScaled(ws, k);
      assert k * t == 1.0;
      assert Sum(Normalised(ws)) == k * t;
    }
  }

  /** Without cycles, each ranked entry visited contributes exactly its
      trained model, weighted by the weighting rule. */
  lemma {:induction false} TopLevelMembers(ranked: seq<Entry>, metric: string, weighting: string, args: SnapshotArgs, verbose: bool)
    requires !Truthy(args.nCycles)
    requires Collect(ranked, metric, weighting, args, verbose).Ok?
    ensures var b := Collect(ranked, metric, weighting, args, verbose).value;
            && |b.members| == |ranked| == |b.weights|
            && forall i :: 0 <= i < |ranked| ==>
                 b.members[i] == Trained(ranked[i].model) && GetWeight(ranked[i].result, metric, weighting) == Ok(b.weights[i])
    decreases |ranked|
  {
    if ranked != [] {
      var m := |ranked| - 1;
      TopLevelMembers(ranked[..m], metric, weighting, args, verbose);
    }
  }

  /** With load_cycles_only and n_cycles set, only snapshots are loaded. */
  lemma {:induction false} CyclesOnly(ranked: seq<Entry>, metric: string, weighting: string, args: SnapshotArgs, verbose: bool)
    requires args.loadCyclesOnly && Truthy(args.nCycles)
    requires Collect(ranked, metric, weighting, args, verbose).Ok?
    ensures var b := Collect(ranked, metric, weighting, args, verbose).value;
            forall i :: 0 <= i < |b.members| ==> b.members[i].Snapshot?
    decreases |ranked|
  {
    if ranked != [] {
      var m := |ranked| - 1;
      CyclesOnly(ranked[..m], metric, weighting, args, verbose);
    }
  }

  /** The cycle walk of one model: at most n_cycles snapshots of that
      model, starting at the end cycle and going down one cycle at a time,
      never reaching cycle 0; the n-th visited is weighted
      (n+1)^weighting_pwr. */
  lemma CycleWalkShape(e: Entry, args: SnapshotArgs, verbose: bool)
    requires Truthy(args.nCycles) && CycleMembers(e, args, verbose).Ok?
    ensures var b := CycleMembers(e, args, verbose).value;
            var n := args.nCycles.value;
            && |b.members| == |b.weights|
            && |b.members| <= (if n > 0 then n else 0)
            && (b.members != [] ==> b.members[0].cycle == EndCycle(args.cycleLosses.value[e.model], args))
            && (forall k :: 0 <= k < |b.members| ==>
                  && b.members[k].Snapshot? && b.members[k].id == e.model && b.members[k].cycle >= 1
                  && b.weights[k] == Power(k + 1, args.weightingPwr))
            && (forall k :: 0 < k < |b.members| ==> b.members[k].cycle == b.members[k - 1].cycle - 1)
  {
  }

  lemma OccursTwice(s: seq<Entry>, i: nat, j: nat)
    requires i < j < |s| && s[i] == s[j]
    ensures multiset(s)[s[i]] >= 2
  {
    assert s == s[..j] + [s[j]] + s[j + 1..];
    assert s[i] in s[..j];
  }

  lemma {:induction false} OccursOnce(s: seq<Entry>, x: Entry)
    requires forall i :: 0 <= i < |s| ==> s[i].model == i
    ensures multiset(s)[x] <= 1
    decreases |s|
  {
    if s != [] {
      var m := |s| - 1;
      assert s == s[..m] + [s[m]];
      OccursOnce(s[..m], x);
      if x == s[m] {
        assert x !in s[..m];
      }
    }
  }

  /** Where a ranked entry came from: the result of model `model`. */
  lemma RankedFrom(results: seq<map<string, real>>, metric: string, es: seq<Entry>, ranked: seq<Entry>, i: nat)
    requires Entries(results, metric) == Ok(es) && multiset(ranked) == multiset(es) && i < |ranked|
    ensures ranked[i].model < |results| && ranked[i] == es[ranked[i].model]
    ensures ranked[i].result == results[ranked[i].model][metric]
  {
    assert ranked[i] in multiset(es);
    var q :| 0 <= q < |es| && es[q] == ranked[i];
  }

  /** The top `k` of a ranking of the results, as trained members. */
  lemma TopOfRanking(results: seq<map<string, real>>, key: string, es: seq<Entry>, ranked: seq<Entry>,
                     ms: seq<Member>)
    requires Entries(results, key) == Ok(es) && multiset(ranked) == multiset(es) && Ranked(ranked)
    requires |ms| <= |ranked| && forall i :: 0 <= i < |ms| ==> ms[i] == Trained(ranked[i].model)
    ensures forall i :: 0 <= i < |ms| ==> ms[i].id < |results| && ranked[i] == Entry(ms[i].id, results[ms[i].id][key])
    ensures forall i, j :: 0 <= i < j < |ms| ==> ms[i].id != ms[j].id
    ensures forall i, q :: 0 <= i < |ms| && 0 <= q < |results| && (forall j :: 0 <= j < |ms| ==> ms[j].id != q) ==>
              results[ms[i].id][key] <= results[q][key]
  {
    var k := |ms|;
    forall i | 0 <= i < k
      ensures ms[i].id < |results| && ranked[i] == Entry(ms[i].id, results[ms[i].id][key])
    {
      RankedFrom(results, key, es, ranked, i);
    }
    forall i, j | 0 <= i < j < k
      ensures ms[i].id != ms[j].id
    {
      if ms[i].id == ms[j].id {
        OccursTwice(ranked, i, j);
        OccursOnce(es, ranked[i]);
      }
    }
    forall i, q | 0 <= i < k && 0 <= q < |results| && (forall j :: 0 <= j < k ==> ms[j].id != q)
      ensures results[ms[i].id][key] <= results[q][key]
    {
      Outranks(results, key, es, ranked, ms, i, q);
    }
  }

  lemma Outranks(results: seq<map<string, real>>, key: string, es: seq<Entry>, ranked: seq<Entry>,
                 ms: seq<Member>, i: nat, q: nat)
    requires Entries(results, key) == Ok(es) && multiset(ranked) == multiset(es) && Ranked(ranked)
    requires |ms| <= |ranked| && forall i :: 0 <= i < |ms| ==> ms[i] == Trained(ranked[i].model)
    requires i < |ms| && q < |results| && forall j :: 0 <= j < |ms| ==> ms[j].id != q
    ensures ranked[i].result <= results[q][key]
  {
    assert es[q] in multiset(ranked);
    var p :| 0 <= p < |ranked| && ranked[p] == es[q];
    assert forall j :: 0 <= j < |ms| ==> ranked[j].model != q;
    assert NotAfter(ranked[i], ranked[p]);
  }

  /** Without snapshot cycles, build_ensemble picks min(size,
      len(results)) trained models, each at most once, best first (by
      metric, ties by index), and no model left out has a better metric
      than one picked. */
  lemma SelectionTopK(results: seq<map<string, real>>, size: int, metric: string, weighting: string,
                      args: SnapshotArgs, verbose: bool)
    requires !Truthy(args.nCycles)
    requires Selection(results, size, metric, weighting, args, verbose).Ok?
    ensures var ms := Selection(results, size, metric, weighting, args, verbose).value.members;
            var key := Overrides(metric, weighting, args).0;
            && |ms| == SelectCount(size, |results|)
            && (forall q :: 0 <= q < |results| ==> key in results[q])
            && (forall i :: 0 <= i < |ms| ==> ms[i].Trained? && ms[i].id < |results|)
            && (forall i, j :: 0 <= i < j < |ms| ==>
                  && ms[i].id != ms[j].id
                  && NotAfter(Entry(ms[i].id, results[ms[i].id][key]), Entry(ms[j].id, results[ms[j].id][key])))
            && (forall i, q :: 0 <= i < |ms| && 0 <= q < |results| && (forall j :: 0 <= j < |ms| ==> ms[j].id != q) ==>
                  results[ms[i].id][key] <= results[q][key])
  {
    var (key, rule) := Overrides(metric, weighting, args);
    var es := Entries(results, key).value;
    var ranked := Rank(es);
    var chosen := ranked[..SelectCount(size, |results|)];
    TopLevelMembers(chosen, key, rule, args, verbose);
    var ms := Collect(chosen, key, rule, args, verbose).value.members;
    TopOfRanking(results, key, es, ranked, ms);
  }

  // ---------------------------------------------------------------------
  // Prediction properties

  /** The terms `ws[i] * ys[i][a][b]` of entry (a, b) of a weighted sum. */
  function Terms(ys: seq<Matrix>, ws: seq<real>, a: int, b: int): seq<real>
    requires |ws| >= |ys|
  {
    seq(|ys|, i requires 0 <= i < |ys| => ws[i] * At(ys[i], a, b))
  }

  /** Entry (a, b) of the weighted sum is the weighted sum of the
      members' entries. */
  lemma {:induction false} WeightedSumAt(ys: seq<Matrix>, ws: seq<real>, rows: nat, cols: nat, a: nat, b: nat)
    requires |ws| >= |ys| && a < rows && b < cols
    ensures WeightedSum(ys, ws, rows, cols)[a][b] == Sum(Terms(ys, ws, a, b))
    decreases |ys|
  {
    if ys != [] {
      var m := |ys| - 1;
      WeightedSumAt(ys[..m], ws, rows, cols, a, b);
      var terms := Terms(ys, ws, a, b);
      var front := Terms(ys[..m], ws, a, b);
      forall i | 0 <= i < m
        ensures terms[..m][i] == front[i]
      {
        assert ys[..m][i] == ys[i];
      }
      assert terms[..m] == front;
    }
  }

  /** The accumulation loop, when it succeeds: every output has a weight
      and the expected shape, and entry (a, b) of the result is the
      weighted sum of the outputs' entries. */
  lemma CombineValue(ys: seq<Matrix>, ws: seq<real>, rows: nat, cols: nat)
    requires Combine(ys, ws, rows, cols).Ok?
    ensures var p := Combine(ys, ws, rows, cols).value;
            && |ys| <= |ws|
            && Sized(p, rows, cols)
            && forall a, b :: 0 <= a < rows && 0 <= b < cols ==> p[a][b] == Sum(Terms(ys, ws, a, b))
  {
    if ys != [] {
      assert |ys| - 1 < |ws|;
    }
    forall a, b | 0 <= a < rows && 0 <= b < cols
      ensures WeightedSum(ys, ws, rows, cols)[a][b] == Sum(Terms(ys, ws, a, b))
    {
      WeightedSumAt(ys, ws, rows, cols, a, b);
    }
  }

  /** predict_array's result: `len(x)` rows of `n_out` values, each the
      sum over the first n_models members (all of them for None) of the
      member's renormalised weight times its (inverse-transformed) output;
      every member used has a weight, and the weights used sum to one. */
  lemma PredictionValue(st: State, x: Matrix, nModels: Option<int>, net: (Member, Matrix) -> Matrix)
    requires Prediction(st, x, nModels, net).Ok?
    ensures var p := Prediction(st, x, nModels, net).value;
            var (k, kw) := PrefixEnds(st, nModels);
            var ws := Normalised(st.weights[..kw]);
            var ys := Outputs(st.models[..k], x, st.outputPipe, net);
            && st.nOut.Some?
            && Sized(p, |x|, st.nOut.value)
            && k <= kw
            && (nModels.None? ==> k == |st.models|)
            && (kw > 0 ==> Sum(ws) == 1.0)
            && forall a, b :: 0 <= a < |x| && 0 <= b < st.nOut.value ==> p[a][b] == Sum(Terms(ys, ws, a, b))
  {
    var (k, kw) := PrefixEnds(st, nModels);
    NormalisedSum(st.weights[..kw]);
    CombineValue(Outputs(st.models[..k], x, st.outputPipe, net), Normalised(st.weights[..kw]), |x|, st.nOut.value);
  }

  /** A weighted sum of one repeated matrix `y` is `y` times the sum of
      the weights. */
  lemma ConstantTerms(ys: seq<Matrix>, ws: seq<real>, y: Matrix, a: int, b: int)
    requires |ws| == |ys| && forall i :: 0 <= i < |ys| ==> ys[i] == y
    ensures Sum(Terms(ys, ws, a, b)) == At(y, a, b) * Sum(ws)
  {
    var v := At(y, a, b);
    TermsOfCopies(ys, ws, y, a, b);
    assert Sum(Terms(ys, ws, a, b)) == Sum(Scaled(ws, v));
    SumScaled(ws, v);
  }

  lemma TermsOfCopies(ys: seq<Matrix>, ws: seq<real>, y: Matrix, a: int, b: int)
    requires |ws| == |ys| && forall i :: 0 <= i < |ys| ==> ys[i] == y
    ensures Terms(ys, ws, a, b) == Scaled(ws, At(y, a, b))
  {
    var t, v := Terms(ys, ws, a, b), At(y, a, b);
    forall i | 0 <= i < |ws|
      ensures t[i] == Scaled(ws, v)[i]
    {
      assert At(ys[i], a, b) == v;
    }
  }

  /** A unanimous ensemble: when every member used outputs the same
      matrix `y` and every member has a weight, predict_array returns `y`
      (the weights are renormalised to sum to one). */
  lemma UnanimousPrediction(st: State, x: Matrix, nModels: Option<int>, net: (Member, Matrix) -> Matrix, y: Matrix)
    requires |st.weights| == |st.models|
    requires Prediction(st, x, nModels, net).Ok?
    requires PrefixEnds(st, nModels).0 > 0
    requires forall i :: 0 <= i < PrefixEnds(st, nModels).0 ==> Output(st.models[i], x, st.outputPipe, net) == y
    ensures Prediction(st, x, nModels, net) == Ok(y)
  {
    var p := Prediction(st, x, nModels, net).value;
    var (k, kw) := PrefixEnds(st, nModels);
    var ws := Normalised(st.weights[..kw]);
    var ys := Outputs(st.models[..k], x, st.outputPipe, net);
    PredictionValue(st, x, nModels, net);
    forall i | 0 <= i < k
      ensures ys[i] == y
    {
      assert st.models[..k][i] == st.models[i];
    }
    assert ys[0] == y;
    MatrixFromEntries(p, y, |x|, st.nOut.value, ys, ws);
  }

  /** Two matrices of one shape whose entries are all the weighted sum of
      copies of the second, with weights summing to one, are equal. */
  lemma MatrixFromEntries(p: Matrix, y: Matrix, rows: nat, cols: nat, ys: seq<Matrix>, ws: seq<real>)
    requires Sized(p, rows, cols) && Sized(y, rows, cols)
    requires |ws| == |ys| && Sum(ws) == 1.0 && forall i :: 0 <= i < |ys| ==> ys[i] == y
    requires forall a, b :: 0 <= a < rows && 0 <= b < cols ==> p[a][b] == Sum(Terms(ys, ws, a, b))
    ensures p == y
  {
    forall a | 0 <= a < rows
      ensures p[a] == y[a]
    {
      forall b | 0 <= b < cols
        ensures p[a][b] == y[a][b]
      {
        ConstantTerms(ys, ws, y, a, b);
      }
    }
  }

  lemma {:induction false} SumConst(n: nat, c: real)
    ensures Sum(seq(n, _ => c)) == n as real * c
  {
    if n > 0 {
      SumConst(n - 1, c);
      assert seq(n, _ => c)[..n - 1] == seq(n - 1, _ => c);
    }
  }

  lemma UniformSum(n: nat)
    requires n > 0
    ensures Sum(seq(n, _ => 1.0 / n as real)) == 1.0
  {
    SumConst(n, 1.0 / n as real);
  }

  /** The test-time mean of views that agree is that view. */
  lemma MeanOfAgreeingViews(ps: seq<Matrix>, y: Matrix, rows: nat, cols: nat)
    requires ps != [] && Sized(y, rows, cols)
    requires forall i :: 0 <= i < |ps| ==> ps[i] == y
    ensures Mean(ps, rows, cols) == y
  {
    var ws := seq(|ps|, _ => 1.0 / |ps| as real);
    UniformSum(|ps|);
    var m := WeightedSum(ps, ws, rows, cols);
    forall a, b | 0 <= a < rows && 0 <= b < cols
      ensures m[a][b] == Sum(Terms(ps, ws, a, b))
    {
      WeightedSumAt(ps, ws, rows, cols, a, b);
    }
    MatrixFromEntries(m, y, rows, cols, ps, ws);
  }
}
