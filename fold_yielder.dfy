/** FoldYielder and HEPAugFoldYielder: access to the folds of a fold file,
    and, for the HEP variant, rotated and reflected copies of a fold's
    inputs for train-time and test-time augmentation.

    The fold file is a sequence of folds (`fold_<i>` is element i).  One
    class covers both yielders: the plain constructor gives an
    unaugmented yielder, the HEPAug constructor the augmenting one. */
module FoldYielding {
  import opened Basics
  import opened Floats
  import opened AugIndex
  import opened Frames

  /** A saved prediction: one value per row, or one row per row. */
  datatype Pred = PredVector(values: seq<real>) | PredMatrix(rows: seq<seq<real>>)

  /** One group `fold_<i>` of the fold file. */
  datatype Fold = Fold(
    inputs: seq<seq<Num>>,
    targets: seq<real>,
    weights: seq<real>,
    preds: map<string, Pred>)

  /** The dictionary returned by get_data / get_fold. */
  datatype FoldData = FoldData(inputs: seq<seq<real>>, targets: seq<real>, weights: seq<real>)

  /** The random numbers a call draws: the rotation of row i (as a
      fraction of a full turn) and the coin for axis j of row i. */
  datatype Draws = Draws(turn: nat -> real, flip: (nat, nat) -> bool)

  // ---------------------------------------------------------------------
  // Plain access

  /** `np.nan_to_num` on a matrix. */
  function CleanRows(m: seq<seq<Num>>): (r: seq<seq<real>>)
  {
    seq(|m|, i requires 0 <= i < |m| => seq(|m[i]|, j requires 0 <= j < |m[i]| => NanToNum(m[i][j])))
  }

  /** Every column of the fold has a first element: get_column indexes
      `data[0]` when it adds the new axis, so an empty column raises
      IndexError. */
  predicate Readable(f: Fold)
  {
    |f.inputs| > 0 && |f.targets| > 0 && |f.weights| > 0
  }

  /** get_data for one fold: a fold that is not in the file raises
      KeyError, a fold with an empty column IndexError; inputs come back
      with NaN set to 0 and infinities to the extreme finite doubles,
      targets and weights as stored. */
  function GetData(source: seq<Fold>, id: int): (r: Result<FoldData>)
    ensures r.Ok? <==> 0 <= id < |source| && Readable(source[id])
    ensures !(0 <= id < |source|) ==> r == Err(MissingFold(id))
    ensures 0 <= id < |source| && !Readable(source[id]) ==> r == Err(IndexOutOfRange)
    ensures r.Ok? ==> r.value.targets == source[id].targets && r.value.weights == source[id].weights
    ensures r.Ok? ==> |r.value.inputs| == |source[id].inputs|
    ensures r.Ok? ==> forall i, j :: 0 <= i < |source[id].inputs| && 0 <= j < |source[id].inputs[i]| ==>
              |r.value.inputs[i]| == |source[id].inputs[i]| &&
              (source[id].inputs[i][j].Fin? ==> r.value.inputs[i][j] == source[id].inputs[i][j].r) &&
              (source[id].inputs[i][j].NaN? ==> r.value.inputs[i][j] == 0.0)
  {
    if !(0 <= id < |source|) then Err(MissingFold(id))
    else if !Readable(source[id]) then Err(IndexOutOfRange)
    else Ok(FoldData(CleanRows(source[id].inputs), source[id].targets, source[id].weights))
  }

  // ---------------------------------------------------------------------
  // Configuration

  /** The attributes the constructors set. */
  datatype Config = Config(
    augmented: bool,
    inputFeats: seq<string>,
    rotMult: int,
    randomRot: bool,
    reflectAxes: seq<string>,
    vectors: seq<string>,
    augMult: int,
    trainTimeAug: bool,
    testTimeAug: bool)

  const PlainConfig := Config(false, [], 0, false, [], [], 0, false, false)

  /** What the constructors establish. */
  predicate WellFormed(cfg: Config)
  {
    if !cfg.augmented then cfg == PlainConfig
    else
      && cfg.vectors == Vectors(cfg.inputFeats)
      && cfg.reflectAxes == ReflectAxes(cfg.rotMult, "_px" in cfg.reflectAxes, "_py" in cfg.reflectAxes, "_pz" in cfg.reflectAxes)
      && cfg.augMult == AugMult(cfg.rotMult, |cfg.reflectAxes|)
  }

  /** The axes can be read back from the list the constructor builds. */
  lemma ReflectAxesStable(rotMult: int, reflectX: bool, reflectY: bool, reflectZ: bool)
    ensures var axes := ReflectAxes(rotMult, reflectX, reflectY, reflectZ);
            ReflectAxes(rotMult, "_px" in axes, "_py" in axes, "_pz" in axes) == axes
  {
    var axes := ReflectAxes(rotMult, reflectX, reflectY, reflectZ);
    assert ("_px" in axes) == (rotMult == 0 && reflectX);
  }

  // ---------------------------------------------------------------------
  // Building and reading the input frame

  predicate Rectangular(rows: seq<seq<Num>>, width: nat)
  {
    forall i :: 0 <= i < |rows| ==> |rows[i]| == width
  }

  /** `pd.DataFrame(rows, columns=feats)`. */
  function FrameOf(feats: seq<string>, rows: seq<seq<Num>>): (c: Columns)
    requires Distinct(feats) && Rectangular(rows, |feats|)
    ensures Uniform(c, |rows|)
    ensures forall f :: f in c <==> f in feats
    ensures forall i, j :: 0 <= i < |rows| && 0 <= j < |feats| ==> c[feats[j]][i] == rows[i][j]
  {
    map j | 0 <= j < |feats| :: feats[j] := seq(|rows|, i requires 0 <= i < |rows| => rows[i][j])
  }

  /** `np.nan_to_num(frame[feats].values)`. */
  function Extract(c: Columns, n: nat, feats: seq<string>): (m: seq<seq<real>>)
    requires Uniform(c, n) && forall f :: f in feats ==> f in c
  {
    seq(n, i requires 0 <= i < n =>
      seq(|feats|, j requires 0 <= j < |feats| => NanToNum(c[feats[j]][i])))
  }

  function Const(n: nat, x: Num): seq<Num>
  {
    seq(n, _ => x)
  }

  /** Assigns the flag column `aug{axis}` of every axis, in axis order. */
  function WithFlags(c: Columns, n: nat, axes: seq<string>, flags: seq<seq<Num>>): (r: Columns)
    requires Uniform(c, n) && |flags| == |axes|
    requires forall j :: 0 <= j < |flags| ==> |flags[j]| == n
    ensures Uniform(r, n) && c.Keys <= r.Keys
    ensures forall j :: 0 <= j < |axes| ==> "aug" + axes[j] in r
    decreases |axes|
  {
    if axes == [] then c
    else
      var m := |axes| - 1;
      WithFlags(c, n, axes[..m], flags[..m])["aug" + axes[m] := flags[m]]
  }

  /** 2*pi*np.random.random(n), in turns. */
  function DrawnTurns(draws: Draws, n: nat): seq<Num>
  {
    seq(n, i requires 0 <= i < n => Fin(draws.turn(i)))
  }

  /** np.random.randint(0, 2, n) for every axis. */
  function DrawnFlags(draws: Draws, n: nat, k: nat): (flags: seq<seq<Num>>)
  {
    seq(k, j requires 0 <= j < k => seq(n, i requires 0 <= i < n => Fin(if draws.flip(j, i) then 1.0 else 0.0)))
  }

  /** `int(ref_index[j])` for every axis j, the same for every row. */
  function TestFlags(bits: string, n: nat, k: nat): (flags: seq<seq<Num>>)
    requires k <= |bits|
  {
    seq(k, j requires 0 <= j < k => Const(n, Fin(Flags(bits, k)[j] as real)))
  }

  /** The angle column of a test view: drawn, or the fixed rotation of
      the rotation index. */
  function TestTurns(cfg: Config, n: nat, rotIndex: nat, draws: Draws): seq<Num>
    requires cfg.rotMult > 0
  {
    if cfg.randomRot then DrawnTurns(draws, n) else Const(n, Fin(FixedTurn(rotIndex, cfg.rotMult)))
  }

  /** reflect on the frame's columns. */
  function Reflected(cfg: Config, c: Columns, n: nat): (r: Columns)
    requires Uniform(c, n)
  {
    ApplySteps(c, n, ReflectSteps(cfg.vectors, cfg.reflectAxes))
  }

  // ---------------------------------------------------------------------
  // Augmented folds

  /** The inputs frame of get_fold after augmentation: a drawn rotation
      when rot_mult is non-zero, then drawn flags and reflect. */
  function TrainColumns(cfg: Config, c: Columns, n: nat, draws: Draws, trig: Trig): (r: Result<Columns>)
    requires Uniform(c, n)
    ensures r.Ok? ==> Uniform(r.value, n) && c.Keys <= r.value.Keys
  {
    var rotated := if cfg.rotMult != 0 then RotatedBy(cfg, c, n, DrawnTurns(draws, n), trig) else Ok(c);
    match rotated
    case Err(e) => Err(e)
    case Ok(c1) =>
      Ok(Reflected(cfg, WithFlags(c1, n, cfg.reflectAxes, DrawnFlags(draws, n, |cfg.reflectAxes|)), n))
  }

  /** Store the angles in `aug_angle`, then rotate every vector. */
  function RotatedBy(cfg: Config, c: Columns, n: nat, turns: seq<Num>, trig: Trig): (r: Result<Columns>)
    requires Uniform(c, n) && |turns| == n
    ensures r.Ok? ==> Uniform(r.value, n) && c.Keys <= r.value.Keys
  {
    RotateAll(c["aug_angle" := turns], n, cfg.vectors, trig)
  }

  /** get_fold: the plain fold, and for the augmenting yielder its inputs
      rebuilt from the stored matrix and augmented.  A feature list that
      names a column twice is reported as an error instead of following
      pandas through a frame with duplicate labels. */
  function TrainFold(cfg: Config, source: seq<Fold>, index: int, draws: Draws, trig: Trig): (r: Result<FoldData>)
    requires WellFormed(cfg)
    ensures !(0 <= index < |source|) ==> r == Err(MissingFold(index))
    ensures 0 <= index < |source| && !Readable(source[index]) ==> r == Err(IndexOutOfRange)
    ensures r.Ok? ==> 0 <= index < |source| && Readable(source[index])
    ensures r.Ok? ==> r.value.targets == source[index].targets && r.value.weights == source[index].weights
    ensures r.Ok? ==> |r.value.inputs| == |source[index].inputs|
  {
    match GetData(source, index)
    case Err(e) => Err(e)
    case Ok(data) =>
      if !cfg.augmented then Ok(data)
      else
        var raw := source[index].inputs;
        if !Rectangular(raw, |cfg.inputFeats|) then Err(ShapeMismatch)
        else if !Distinct(cfg.inputFeats) then Err(DuplicateColumns)
        else
          match TrainColumns(cfg, FrameOf(cfg.inputFeats, raw), |raw|, draws, trig)
          case Err(e) => Err(e)
          case Ok(c) => Ok(data.(inputs := Extract(c, |raw|, cfg.inputFeats)))
  }

  /** The reflection part of a test view: the flag columns from the
      binary reflection code, then reflect. */
  function FlagAndReflect(cfg: Config, c: Columns, n: nat, bits: string): (r: Columns)
    requires Uniform(c, n) && |cfg.reflectAxes| <= |bits|
    ensures Uniform(r, n) && c.Keys <= r.Keys
  {
    var axes := cfg.reflectAxes;
    Reflected(cfg, WithFlags(c, n, axes, TestFlags(bits, n, |axes|)), n)
  }

  /** What the test-view split needs of a configuration: at most three
      axes and aug_mult as the constructor computes it. */
  predicate ViewsDefined(cfg: Config)
  {
    |cfg.reflectAxes| <= 3 && cfg.augMult == AugMult(cfg.rotMult, |cfg.reflectAxes|)
  }

  /** The inputs frame of test view `augIndex`, branch by branch:
      rotation and reflection, reflection only, rotation only, neither. */
  function TestColumns(cfg: Config, c: Columns, n: nat, augIndex: nat, draws: Draws, trig: Trig): (r: Result<Columns>)
    requires ViewsDefined(cfg) && Uniform(c, n) && augIndex < cfg.augMult
    ensures r.Ok? ==> Uniform(r.value, n) && c.Keys <= r.value.Keys
  {
    var axes := cfg.reflectAxes;
    if |axes| > 0 && cfg.rotMult > 0 then
      match RotatedBy(cfg, c, n, TestTurns(cfg, n, augIndex % cfg.rotMult, draws), trig)
      case Err(e) => Err(e)
      case Ok(c1) => Ok(FlagAndReflect(cfg, c1, n, RefIndex(|axes|, cfg.rotMult, augIndex).value))
    else if |axes| > 0 then
      Ok(FlagAndReflect(cfg, c, n, RefIndex(|axes|, cfg.rotMult, augIndex).value))
    else if cfg.rotMult != 0 then
      RotatedBy(cfg, c, n, TestTurns(cfg, n, augIndex, draws), trig)
    else
      Ok(c)
  }

  /** get_test_fold, which only the augmenting yielder defines (the plain
      one raises AttributeError): index check first, then the fold, then
      the view. */
  function TestFold(cfg: Config, source: seq<Fold>, index: int, augIndex: nat, draws: Draws, trig: Trig): (r: Result<FoldData>)
    requires WellFormed(cfg)
    ensures !cfg.augmented ==> r == Err(MissingAttribute("get_test_fold"))
    ensures cfg.augmented && augIndex >= cfg.augMult ==> r == Err(InvalidAugmentationIndex(augIndex))
    ensures r.Ok? ==> cfg.augmented && augIndex < cfg.augMult && 0 <= index < |source| && Readable(source[index])
    ensures r.Ok? ==> r.value.targets == source[index].targets && r.value.weights == source[index].weights
    ensures r.Ok? ==> |r.value.inputs| == |source[index].inputs|
    ensures r.Ok? ==> forall i :: 0 <= i < |r.value.inputs| ==> |r.value.inputs[i]| == |cfg.inputFeats|
  {
    if !cfg.augmented then Err(MissingAttribute("get_test_fold"))
    else if augIndex >= cfg.augMult then Err(InvalidAugmentationIndex(augIndex))
    else
      match GetData(source, index)
      case Err(e) => Err(e)
      case Ok(data) =>
        var raw := source[index].inputs;
        if !Rectangular(raw, |cfg.inputFeats|) then Err(ShapeMismatch)
        else if !Distinct(cfg.inputFeats) then Err(DuplicateColumns)
        else
          match TestColumns(cfg, FrameOf(cfg.inputFeats, raw), |raw|, augIndex, draws, trig)
          case Err(e) => Err(e)
          case Ok(c) => Ok(data.(inputs := Extract(c, |raw|, cfg.inputFeats)))
  }

  // ---------------------------------------------------------------------
  // The yielder

  class FoldYielder {
    var source: seq<Fold>
    var nFolds: nat
    const cfg: Config

    ghost predicate Valid()
      reads this
    {
      nFolds == |source| && WellFormed(cfg)
    }

    /** FoldYielder(source_file). */
    constructor Plain(source: seq<Fold>)
      ensures Valid() && this.source == source && cfg == PlainConfig
    {
      cfg := PlainConfig;
      this.source := source;
      nFolds := |source|;
    }

    /** HEPAugFoldYielder(source_file, feats, ...): corrects an odd fixed
        rot_mult, collects the reflection axes doubling aug_mult for each,
        and takes the vector names from the features. */
    constructor HEPAug(source: seq<Fold>, feats: seq<string>, rotMult: int, randomRot: bool,
                       reflectX: bool, reflectY: bool, reflectZ: bool,
                       trainTimeAug: bool, testTimeAug: bool)
      ensures Valid() && this.source == source && cfg.augmented
      ensures cfg.inputFeats == feats && cfg.randomRot == randomRot
      ensures cfg.trainTimeAug == trainTimeAug && cfg.testTimeAug == testTimeAug
      ensures cfg.rotMult == CorrectedRotMult(rotMult, randomRot)
      ensures cfg.reflectAxes == ReflectAxes(cfg.rotMult, reflectX, reflectY, reflectZ)
      ensures cfg.augMult == AugMult(cfg.rotMult, |cfg.reflectAxes|)
      ensures cfg.vectors == Vectors(feats)
    {
      var rm := rotMult;
      if rm > 0 && !randomRot && rm % 2 != 0 {
        rm := rm + 1;
      }
      var axes, mult := CollectAxes(rm, reflectX, reflectY, reflectZ);
      ReflectAxesStable(rm, reflectX, reflectY, reflectZ);
      cfg := Config(true, feats, rm, randomRot, axes, Vectors(feats), mult, trainTimeAug, testTimeAug);
      this.source := source;
      nFolds := |source|;
    }

    /** The axis part of the HEPAugFoldYielder constructor: start from
        aug_mult 1 (or rot_mult with rotations) and double it for every
        reflection axis taken. */
    static method CollectAxes(rotMult: int, reflectX: bool, reflectY: bool, reflectZ: bool)
      returns (axes: seq<string>, augMult: int)
      ensures axes == ReflectAxes(rotMult, reflectX, reflectY, reflectZ)
      ensures augMult == AugMult(rotMult, |axes|)
    {
      axes := [];
      augMult := 1;
      if rotMult != 0 {
        augMult := rotMult;
      } else {
        axes, augMult := TakeAxis(axes, augMult, reflectX, "_px", 1);
      }
      ghost var xs := if rotMult == 0 && reflectX then ["_px"] else [];
      assert axes == xs;
      axes, augMult := TakeAxis(axes, augMult, reflectY, "_py", Div(rotMult));
      ghost var ys := xs + if reflectY then ["_py"] else [];
      assert axes == ys;
      axes, augMult := TakeAxis(axes, augMult, reflectZ, "_pz", Div(rotMult));
      assert axes == ys + if reflectZ then ["_pz"] else [];
    }

    /** `if reflect: reflect_axes += [axis]; aug_mult *= 2`, keeping
        aug_mult at `base` doubled once per axis taken. */
    static method TakeAxis(axes: seq<string>, augMult: int, take: bool, axis: string, ghost base: int)
      returns (axes': seq<string>, augMult': int)
      requires augMult == base * Pow2(|axes|)
      ensures axes' == if take then axes + [axis] else axes
      ensures augMult' == base * Pow2(|axes'|)
    {
      axes', augMult' := axes, augMult;
      if take {
        axes' := axes + [axis];
        augMult' := augMult * 2;
        assert Pow2(|axes'|) == 2 * Pow2(|axes|);
      }
    }

    method SetSource(source: seq<Fold>)
      requires WellFormed(cfg)
      modifies this
      ensures Valid() && this.source == source
    {
      this.source := source;
      nFolds := |source|;
    }

    /** rotate(in_data), in place. */
    method Rotate(f: Frame, trig: Trig) returns (err: Option<Error>)
      requires f.Valid()
      modifies f
      ensures f.Valid()
      ensures var spec := RotateAll(old(f.cols), f.n, cfg.vectors, trig);
              && (spec.Ok? ==> err.None? && f.cols == spec.value)
              && (spec.Err? ==> err == Some(spec.error))
    {
      var vectors := cfg.vectors;
      var i := 0;
      while i < |vectors|
        invariant 0 <= i <= |vectors| && f.Valid()
        invariant RotateAll(old(f.cols), f.n, vectors, trig) == RotateAll(f.cols, f.n, vectors[i..], trig)
      {
        assert vectors[i..][1..] == vectors[i + 1..];
        err := RotateVectorInPlace(f, vectors[i], trig);
        if err.Some? {
          return;
        }
        i := i + 1;
      }
      err := None;
    }

    /** One vector's pass of rotate: px, then aug_angle, then py must
        exist; px goes through a temporary column. */
    static method RotateVectorInPlace(f: Frame, v: string, trig: Trig) returns (err: Option<Error>)
      requires f.Valid()
      modifies f
      ensures f.Valid()
      ensures var spec := RotateVector(old(f.cols), f.n, v, trig);
              && (spec.Ok? ==> err.None? && f.cols == spec.value)
              && (spec.Err? ==> err == Some(spec.error) && f.cols == old(f.cols))
    {
      var px, py, tmp := v + "_px", v + "_py", v + "_pxtmp";
      if px !in f.cols {
        return Some(MissingColumn(px));
      }
      if "aug_angle" !in f.cols {
        return Some(MissingColumn("aug_angle"));
      }
      if py !in f.cols {
        return Some(MissingColumn(py));
      }
      f.cols := f.cols[tmp := RotatedX(f.cols, f.n, v, trig)];
      f.cols := f.cols[py := RotatedY(f.cols, f.n, v, trig)];
      f.cols := f.cols[px := f.cols[tmp]];
      err := None;
    }

    /** reflect(in_data), in place. */
    method Reflect(f: Frame)
      requires f.Valid()
      modifies f
      ensures f.Valid() && f.cols == Reflected(cfg, old(f.cols), f.n)
    {
      var vectors := cfg.vectors;
      var i := 0;
      while i < |vectors|
        invariant 0 <= i <= |vectors| && f.Valid()
        invariant f.cols == ApplySteps(old(f.cols), f.n, ReflectSteps(vectors[..i], cfg.reflectAxes))
      {
        ReflectVector(f, vectors[i]);
        assert vectors[..i + 1][..i] == vectors[..i];
        ApplyAppend(old(f.cols), f.n, ReflectSteps(vectors[..i], cfg.reflectAxes), AxisSteps(vectors[i], cfg.reflectAxes));
        i := i + 1;
      }
      assert vectors[..i] == vectors;
    }

    /** The inner loop of reflect, for one vector. */
    method ReflectVector(f: Frame, v: string)
      requires f.Valid()
      modifies f
      ensures f.Valid() && f.cols == ApplySteps(old(f.cols), f.n, AxisSteps(v, cfg.reflectAxes))
    {
      var axes := cfg.reflectAxes;
      ghost var steps := AxisSteps(v, axes);
      var j := 0;
      while j < |axes|
        invariant 0 <= j <= |axes| && f.Valid()
        invariant f.cols == ApplySteps(old(f.cols), f.n, steps[..j])
      {
        var coord := axes[j];
        var flag, target := "aug" + coord, v + coord;
        ApplySnoc(old(f.cols), f.n, steps, j);
        ReflectColumn(f, target, flag);
        j := j + 1;
      }
      assert steps[..j] == steps;
    }

    /** One pass: negate `target` where `flag` is 1; a missing column
        raises KeyError, which reflect swallows. */
    static method ReflectColumn(f: Frame, target: string, flag: string)
      requires f.Valid()
      modifies f
      ensures f.Valid() && f.cols == ReflectStep(old(f.cols), f.n, Step(target, flag))
    {
      if flag in f.cols && target in f.cols {
        f.cols := f.cols[target := NegateWhere(f.cols[target], f.cols[flag])];
      }
    }

    /** `inputs[f'aug{coord}'] = ...` for every reflection axis. */
    method SetFlags(f: Frame, flags: seq<seq<Num>>)
      requires f.Valid() && |flags| == |cfg.reflectAxes|
      requires forall j :: 0 <= j < |flags| ==> |flags[j]| == f.n
      modifies f
      ensures f.Valid() && f.cols == WithFlags(old(f.cols), f.n, cfg.reflectAxes, flags)
    {
      var axes := cfg.reflectAxes;
      var j := 0;
      while j < |axes|
        invariant 0 <= j <= |axes| && f.Valid()
        invariant f.cols == WithFlags(old(f.cols), f.n, axes[..j], flags[..j])
      {
        assert axes[..j + 1][..j] == axes[..j] && flags[..j + 1][..j] == flags[..j];
        f.cols := f.cols["aug" + axes[j] := flags[j]];
        j := j + 1;
      }
      assert axes[..j] == axes && flags[..j] == flags;
    }

    /** `inputs[f'aug{coord}'] = int(ref_index[i])` for every axis, then
        reflect. */
    method SetFlagsAndReflect(f: Frame, bits: string)
      requires f.Valid() && |cfg.reflectAxes| <= |bits|
      modifies f
      ensures f.Valid() && f.cols == FlagAndReflect(cfg, old(f.cols), f.n, bits)
    {
      SetFlags(f, TestFlags(bits, f.n, |cfg.reflectAxes|));
      Reflect(f);
    }

    /** get_fold(index). */
    method GetFold(index: int, draws: Draws, trig: Trig) returns (r: Result<FoldData>)
      requires Valid()
      ensures r == TrainFold(cfg, source, index, draws, trig)
    {
      var data := GetData(source, index);
      if data.Err? || !cfg.augmented {
        return data;
      }
      var raw := source[index].inputs;
      if !Rectangular(raw, |cfg.inputFeats|) {
        return Err(ShapeMismatch);
      }
      if !Distinct(cfg.inputFeats) {
        return Err(DuplicateColumns);
      }
      var f := new Frame(FrameOf(cfg.inputFeats, raw), |raw|);
      if cfg.rotMult != 0 {
        f.cols := f.cols["aug_angle" := DrawnTurns(draws, f.n)];
        var e := Rotate(f, trig);
        if e.Some? {
          return Err(e.value);
        }
      }
      SetFlags(f, DrawnFlags(draws, f.n, |cfg.reflectAxes|));
      Reflect(f);
      r := Ok(data.value.(inputs := Extract(f.cols, f.n, cfg.inputFeats)));
    }

    /** get_test_fold(index, aug_index). */
    method GetTestFold(index: int, augIndex: nat, draws: Draws, trig: Trig) returns (r: Result<FoldData>)
      requires Valid()
      ensures r == TestFold(cfg, source, index, augIndex, draws, trig)
    {
      if !cfg.augmented {
        return Err(MissingAttribute("get_test_fold"));
      }
      if augIndex >= cfg.augMult {
        return Err(InvalidAugmentationIndex(augIndex));
      }
      var data := GetData(source, index);
      if data.Err? {
        return data;
      }
      var raw := source[index].inputs;
      if !Rectangular(raw, |cfg.inputFeats|) {
        return Err(ShapeMismatch);
      }
      if !Distinct(cfg.inputFeats) {
        return Err(DuplicateColumns);
      }
      var f := new Frame(FrameOf(cfg.inputFeats, raw), |raw|);
      var e := AugmentTestFrame(f, augIndex, draws, trig);
      if e.Some? {
        return Err(e.value);
      }
      r := Ok(data.value.(inputs := Extract(f.cols, f.n, cfg.inputFeats)));
    }

    /** The branches of get_test_fold that build view `augIndex` in the
        inputs frame. */
    method AugmentTestFrame(f: Frame, augIndex: nat, draws: Draws, trig: Trig) returns (err: Option<Error>)
      requires ViewsDefined(cfg) && augIndex < cfg.augMult && f.Valid()
      modifies f
      ensures f.Valid()
      ensures var spec := TestColumns(cfg, old(f.cols), f.n, augIndex, draws, trig);
              && (spec.Ok? ==> err.None? && f.cols == spec.value)
              && (spec.Err? ==> err == Some(spec.error))
    {
      var axes := cfg.reflectAxes;
      if |axes| > 0 && cfg.rotMult > 0 {
        var rotIndex := augIndex % cfg.rotMult;
        var refIndex := RefIndex(|axes|, cfg.rotMult, augIndex).value;
        err := RotateAndReflectView(f, rotIndex, refIndex, draws, trig);
      } else if |axes| > 0 {
        var refIndex := RefIndex(|axes|, cfg.rotMult, augIndex).value;
        SetFlagsAndReflect(f, refIndex);
        err := None;
      } else if cfg.rotMult != 0 {
        err := RotateView(f, augIndex, draws, trig);
      } else {
        err := None;
      }
    }

    /** Rotation by view `rotIndex`, then the flags from `bits` and
        reflect. */
    method RotateAndReflectView(f: Frame, rotIndex: nat, bits: string, draws: Draws, trig: Trig) returns (err: Option<Error>)
      requires cfg.rotMult > 0 && |cfg.reflectAxes| <= |bits| && f.Valid()
      modifies f
      ensures f.Valid()
      ensures var spec := RotatedBy(cfg, old(f.cols), f.n, TestTurns(cfg, f.n, rotIndex, draws), trig);
              && (spec.Ok? ==> err.None? && f.cols == FlagAndReflect(cfg, spec.value, f.n, bits))
              && (spec.Err? ==> err == Some(spec.error))
    {
      err := RotateView(f, rotIndex, draws, trig);
      if err.Some? {
        return;
      }
      SetFlagsAndReflect(f, bits);
    }

    /** The angles of view `rotIndex` (drawn, or the fixed fraction of a
        turn), then rotate. */
    method RotateView(f: Frame, rotIndex: nat, draws: Draws, trig: Trig) returns (err: Option<Error>)
      requires cfg.rotMult > 0 && f.Valid()
      modifies f
      ensures f.Valid()
      ensures var spec := RotatedBy(cfg, old(f.cols), f.n, TestTurns(cfg, f.n, rotIndex, draws), trig);
              && (spec.Ok? ==> err.None? && f.cols == spec.value)
              && (spec.Err? ==> err == Some(spec.error))
    {
      if cfg.randomRot {
        f.cols := f.cols["aug_angle" := DrawnTurns(draws, f.n)];
      } else {
        f.cols := f.cols["aug_angle" := Const(f.n, Fin(FixedTurn(rotIndex, cfg.rotMult)))];
      }
      err := Rotate(f, trig);
    }
  }

  // ---------------------------------------------------------------------
  // Properties of the folds handed out

  /** The failures of get_test_fold, in the order they are met: the plain
      yielder has no such method; a bad augmentation index (every index
      for a negative rot_mult); a missing fold; an empty column; a stored
      matrix whose width is not the number of features; a repeated
      feature name.  A view has one value per feature in every row. */
  lemma TestFoldErrors(cfg: Config, source: seq<Fold>, index: int, augIndex: nat, draws: Draws, trig: Trig)
    requires WellFormed(cfg)
    ensures var r := TestFold(cfg, source, index, augIndex, draws, trig);
            && (!cfg.augmented ==> r == Err(MissingAttribute("get_test_fold")))
            && (cfg.augmented && (augIndex >= cfg.augMult || cfg.rotMult < 0) ==>
                  r == Err(InvalidAugmentationIndex(augIndex)))
            && (cfg.augmented && augIndex < cfg.augMult && !(0 <= index < |source|) ==> r == Err(MissingFold(index)))
            && (cfg.augmented && augIndex < cfg.augMult && 0 <= index < |source| && !Readable(source[index]) ==>
                  r == Err(IndexOutOfRange))
            && (cfg.augmented && augIndex < cfg.augMult && 0 <= index < |source| && Readable(source[index])
                  && !Rectangular(source[index].inputs, |cfg.inputFeats|) ==>
                  r == Err(ShapeMismatch))
            && (cfg.augmented && augIndex < cfg.augMult && 0 <= index < |source| && Readable(source[index])
                  && Rectangular(source[index].inputs, |cfg.inputFeats|) && !Distinct(cfg.inputFeats) ==>
                  r == Err(DuplicateColumns))
  {
  }

  /** get_fold hands out the stored fold unchanged by the plain yielder;
      the augmenting yielder rejects a repeated feature name and gives one
      value per feature in every row. */
  lemma TrainFoldData(cfg: Config, source: seq<Fold>, index: int, draws: Draws, trig: Trig)
    requires WellFormed(cfg)
    ensures var r := TrainFold(cfg, source, index, draws, trig);
            && (!cfg.augmented ==> r == GetData(source, index))
            && (cfg.augmented && 0 <= index < |source| && Readable(source[index])
                  && Rectangular(source[index].inputs, |cfg.inputFeats|) && !Distinct(cfg.inputFeats) ==>
                  r == Err(DuplicateColumns))
            && (r.Ok? ==>
                  && (cfg.augmented ==> forall i :: 0 <= i < |r.value.inputs| ==> |r.value.inputs[i]| == |cfg.inputFeats|))
  {
  }

  /** The axes the constructor collects are distinct three-character
      suffixes. */
  lemma AxesShape(cfg: Config)
    requires WellFormed(cfg) && cfg.augmented
    ensures Distinct(cfg.reflectAxes) && |cfg.reflectAxes| <= 3
    ensures forall i :: 0 <= i < |cfg.reflectAxes| ==> |cfg.reflectAxes[i]| == 3
  {
    var axes := cfg.reflectAxes;
    forall i | 0 <= i < |axes|
      ensures |axes[i]| == 3
    {
      assert axes[i] in ["_px", "_py", "_pz"];
    }
  }

  /** Setting the flag columns: each `aug{axis}` holds its flags and every
      other column is unchanged. */
  lemma {:induction false} WithFlagsColumns(c: Columns, n: nat, axes: seq<string>, flags: seq<seq<Num>>)
    requires Uniform(c, n) && |flags| == |axes| && Distinct(axes)
    requires forall j :: 0 <= j < |flags| ==> |flags[j]| == n
    ensures forall j :: 0 <= j < |axes| ==> WithFlags(c, n, axes, flags)["aug" + axes[j]] == flags[j]
    ensures forall k :: k in c && (forall j :: 0 <= j < |axes| ==> k != "aug" + axes[j]) ==>
              WithFlags(c, n, axes, flags)[k] == c[k]
    decreases |axes|
  {
    if axes != [] {
      var m := |axes| - 1;
      assert Distinct(axes[..m]);
      WithFlagsColumns(c, n, axes[..m], flags[..m]);
      var inner := WithFlags(c, n, axes[..m], flags[..m]);
      forall j | 0 <= j < m
        ensures WithFlags(c, n, axes, flags)["aug" + axes[j]] == flags[j]
      {
        assert axes[..m][j] == axes[j] && flags[..m][j] == flags[j];
        PrefixInjective("aug", axes[j], axes[m]);
        assert inner["aug" + axes[j]] == flags[j];
      }
    }
  }

  lemma PrefixInjective(p: string, a: string, b: string)
    ensures p + a == p + b ==> a == b
  {
    assert (p + a)[|p|..] == a && (p + b)[|p|..] == b;
  }

  /** Every vector gets a pass for every axis. */
  lemma {:induction false} ReflectStepsContain(vectors: seq<string>, axes: seq<string>, v: string, j: nat)
    requires v in vectors && j < |axes|
    ensures Step(v + axes[j], "aug" + axes[j]) in ReflectSteps(vectors, axes)
    decreases |vectors|
  {
    var m := |vectors| - 1;
    if vectors[m] == v {
      assert AxisSteps(v, axes)[j] == Step(v + axes[j], "aug" + axes[j]);
    } else {
      ReflectStepsContain(vectors[..m], axes, v, j);
    }
  }

  /** Negating where a constant flag is 1: all rows or none. */
  lemma NegateWhereConst(col: seq<Num>, b: nat, i: nat)
    requires i < |col|
    ensures NegateWhere(col, Const(|col|, Fin(b as real)))[i] == if b == 1 then Neg(col[i]) else col[i]
  {
  }

  /** The frame-level half of ReflectOnlyView. */
  lemma ReflectOnlyColumn(cfg: Config, c0: Columns, n: nat, augIndex: nat, draws: Draws, trig: Trig, v: string, j: nat)
    requires WellFormed(cfg) && cfg.augmented && cfg.rotMult == 0 && augIndex < cfg.augMult && Uniform(c0, n)
    requires Distinct(cfg.vectors) && "aug" !in cfg.vectors
    requires v in cfg.vectors && j < |cfg.reflectAxes| && v + cfg.reflectAxes[j] in c0
    ensures var r := TestColumns(cfg, c0, n, augIndex, draws, trig);
            var flag := Split(0, |cfg.reflectAxes|, augIndex).flags[j];
            r.Ok? && r.value[v + cfg.reflectAxes[j]] == NegateWhere(c0[v + cfg.reflectAxes[j]], Const(n, Fin(flag as real)))
  {
    var axes := cfg.reflectAxes;
    AxesShape(cfg);
    var bits := RefIndex(|axes|, cfg.rotMult, augIndex).value;
    FlagAndReflectColumn(cfg, c0, n, bits, v, j);
    assert TestColumns(cfg, c0, n, augIndex, draws, trig) == Ok(FlagAndReflect(cfg, c0, n, bits));
  }

  /** Setting the flags from `bits` and reflecting negates component j of
      vector v exactly when bit j is 1. */
  lemma FlagAndReflectColumn(cfg: Config, c0: Columns, n: nat, bits: string, v: string, j: nat)
    requires Uniform(c0, n) && |cfg.reflectAxes| <= |bits|
    requires Distinct(cfg.vectors) && "aug" !in cfg.vectors && Distinct(cfg.reflectAxes)
    requires forall i :: 0 <= i < |cfg.reflectAxes| ==> |cfg.reflectAxes[i]| == 3
    requires v in cfg.vectors && j < |cfg.reflectAxes| && v + cfg.reflectAxes[j] in c0
    ensures var axes := cfg.reflectAxes;
            FlagAndReflect(cfg, c0, n, bits)[v + axes[j]]
              == NegateWhere(c0[v + axes[j]], Const(n, Fin(Flags(bits, |axes|)[j] as real)))
  {
    var axes := cfg.reflectAxes;
    var flags := TestFlags(bits, n, |axes|);
    var c1 := WithFlags(c0, n, axes, flags);
    WithFlagsColumns(c0, n, axes, flags);
    var target := v + axes[j];
    forall jj | 0 <= jj < |axes|
      ensures target != "aug" + axes[jj]
    {
      if target == "aug" + axes[jj] {
        ConcatSplit(v, axes[j], "aug", axes[jj]);
      }
    }
    assert c1[target] == c0[target];
    var steps := ReflectSteps(cfg.vectors, axes);
    ReflectStepsDisjoint(cfg.vectors, axes);
    ReflectStepsContain(cfg.vectors, axes, v, j);
    var idx :| 0 <= idx < |steps| && steps[idx] == Step(target, "aug" + axes[j]);
    ReflectedTarget(c1, n, steps, idx);
  }

  /** A test view is read back from the view's frame: each value is the
      cleaned value of its feature's column. */
  lemma TestFoldFromColumns(cfg: Config, source: seq<Fold>, index: int, augIndex: nat, draws: Draws, trig: Trig)
    requires WellFormed(cfg) && TestFold(cfg, source, index, augIndex, draws, trig).Ok?
    ensures 0 <= index < |source| && cfg.augmented && augIndex < cfg.augMult && ViewsDefined(cfg)
    ensures Distinct(cfg.inputFeats) && Rectangular(source[index].inputs, |cfg.inputFeats|)
    ensures var raw := source[index].inputs;
            var c := TestColumns(cfg, FrameOf(cfg.inputFeats, raw), |raw|, augIndex, draws, trig);
            && c.Ok?
            && forall i, k :: 0 <= i < |raw| && 0 <= k < |cfg.inputFeats| ==>
                 TestFold(cfg, source, index, augIndex, draws, trig).value.inputs[i][k]
                   == NanToNum(c.value[cfg.inputFeats[k]][i])
  {
  }

  /** Without rotations, test view `augIndex` negates component `axis` of
      every vector exactly when the axis's flag in the view's split of the
      index is 1.  The vector names must be distinct and not "aug". */
  lemma ReflectOnlyView(cfg: Config, source: seq<Fold>, index: int, augIndex: nat, draws: Draws, trig: Trig,
                        v: string, j: nat, k: nat, i: nat)
    requires WellFormed(cfg) && cfg.augmented && cfg.rotMult == 0
    requires Distinct(cfg.vectors) && "aug" !in cfg.vectors
    requires 0 <= index < |source| && TestFold(cfg, source, index, augIndex, draws, trig).Ok?
    requires v in cfg.vectors && j < |cfg.reflectAxes| && k < |cfg.inputFeats| && i < |source[index].inputs|
    requires cfg.inputFeats[k] == v + cfg.reflectAxes[j]
    ensures var x := source[index].inputs[i][k];
            var flag := Split(0, |cfg.reflectAxes|, augIndex).flags[j];
            TestFold(cfg, source, index, augIndex, draws, trig).value.inputs[i][k]
              == NanToNum(if flag == 1 then Neg(x) else x)
  {
    TestFoldFromColumns(cfg, source, index, augIndex, draws, trig);
    var feats := cfg.inputFeats;
    var raw := source[index].inputs;
    var c0 := FrameOf(feats, raw);
    ReflectOnlyColumn(cfg, c0, |raw|, augIndex, draws, trig, v, j);
    NegateWhereConst(c0[feats[k]], Split(0, |cfg.reflectAxes|, augIndex).flags[j], i);
  }

  /** With fixed rotations and no reflections, test view `augIndex` turns
      every vector's (px, py) by the angle `augIndex / rot_mult` of a full
      turn.  The vector names must be distinct. */
  lemma RotationOnlyView(cfg: Config, source: seq<Fold>, index: int, augIndex: nat, draws: Draws, trig: Trig,
                         v: string, kx: nat, ky: nat, i: nat)
    requires WellFormed(cfg) && cfg.augmented && cfg.rotMult > 0 && !cfg.randomRot && cfg.reflectAxes == []
    requires Distinct(cfg.vectors)
    requires 0 <= index < |source| && TestFold(cfg, source, index, augIndex, draws, trig).Ok?
    requires v in cfg.vectors && kx < |cfg.inputFeats| && ky < |cfg.inputFeats| && i < |source[index].inputs|
    requires cfg.inputFeats[kx] == v + "_px" && cfg.inputFeats[ky] == v + "_py"
    ensures augIndex < cfg.rotMult
    ensures var x, y := source[index].inputs[i][kx], source[index].inputs[i][ky];
            var t := Fin(FixedTurn(augIndex, cfg.rotMult));
            var out := TestFold(cfg, source, index, augIndex, draws, trig).value.inputs[i];
            && out[kx] == NanToNum(RotX(x, y, Apply(trig.cos, t), Apply(trig.sin, t)))
            && out[ky] == NanToNum(RotY(x, y, Apply(trig.cos, t), Apply(trig.sin, t)))
  {
    TestFoldFromColumns(cfg, source, index, augIndex, draws, trig);
    var raw := source[index].inputs;
    RotationOnlyColumn(cfg, FrameOf(cfg.inputFeats, raw), |raw|, augIndex, draws, trig, v, i);
  }

  /** The frame-level half of RotationOnlyView. */
  lemma RotationOnlyColumn(cfg: Config, c0: Columns, n: nat, augIndex: nat, draws: Draws, trig: Trig, v: string, i: nat)
    requires WellFormed(cfg) && cfg.augmented && cfg.rotMult > 0 && !cfg.randomRot && cfg.reflectAxes == []
    requires augIndex < cfg.augMult && Uniform(c0, n) && Distinct(cfg.vectors) && v in cfg.vectors && i < n
    requires TestColumns(cfg, c0, n, augIndex, draws, trig).Ok?
    ensures augIndex < cfg.rotMult && v + "_px" in c0 && v + "_py" in c0
    ensures var r := TestColumns(cfg, c0, n, augIndex, draws, trig).value;
            var t := Fin(FixedTurn(augIndex, cfg.rotMult));
            && r[v + "_px"][i] == RotX(c0[v + "_px"][i], c0[v + "_py"][i], Apply(trig.cos, t), Apply(trig.sin, t))
            && r[v + "_py"][i] == RotY(c0[v + "_px"][i], c0[v + "_py"][i], Apply(trig.cos, t), Apply(trig.sin, t))
  {
    assert Pow2(0) == 1;
    var c1 := c0["aug_angle" := TestTurns(cfg, n, augIndex, draws)];
    SuffixesDiffer(v);
    RotateAllColumns(c1, n, cfg.vectors, trig, v);
    assert c1[v + "_px"] == c0[v + "_px"] && c1[v + "_py"] == c0[v + "_py"];
  }

  /** With fixed rotations and reflections (the default configuration),
      test view `augIndex` turns every vector's (px, py) by the fixed
      rotation of `augIndex % rot_mult`, then negates py when the flag of
      the `_py` axis in the view's split of the index is 1; px is never
      reflected.  The vector names must be distinct and not "aug". */
  lemma RotateReflectView(cfg: Config, source: seq<Fold>, index: int, augIndex: nat, draws: Draws, trig: Trig,
                          v: string, kx: nat, ky: nat, i: nat)
    requires WellFormed(cfg) && cfg.augmented && cfg.rotMult > 0 && !cfg.randomRot && |cfg.reflectAxes| > 0
    requires Distinct(cfg.vectors) && "aug" !in cfg.vectors
    requires 0 <= index < |source| && TestFold(cfg, source, index, augIndex, draws, trig).Ok?
    requires v in cfg.vectors && kx < |cfg.inputFeats| && ky < |cfg.inputFeats| && i < |source[index].inputs|
    requires cfg.inputFeats[kx] == v + "_px" && cfg.inputFeats[ky] == v + "_py"
    ensures var x, y := source[index].inputs[i][kx], source[index].inputs[i][ky];
            var t := Fin(FixedTurn(augIndex % cfg.rotMult, cfg.rotMult));
            var ry := RotY(x, y, Apply(trig.cos, t), Apply(trig.sin, t));
            var out := TestFold(cfg, source, index, augIndex, draws, trig).value.inputs[i];
            && out[kx] == NanToNum(RotX(x, y, Apply(trig.cos, t), Apply(trig.sin, t)))
            && ("_py" !in cfg.reflectAxes ==> out[ky] == NanToNum(ry))
            && (forall j :: 0 <= j < |cfg.reflectAxes| && cfg.reflectAxes[j] == "_py" ==>
                  out[ky] == NanToNum(if Split(cfg.rotMult, |cfg.reflectAxes|, augIndex).flags[j] == 1 then Neg(ry) else ry))
  {
    TestFoldFromColumns(cfg, source, index, augIndex, draws, trig);
    var raw := source[index].inputs;
    AxesShape(cfg);
    RotateReflectColumn(cfg, FrameOf(cfg.inputFeats, raw), |raw|, augIndex, draws, trig, v, i);
  }

  /** The frame-level half of RotateReflectView. */
  lemma RotateReflectColumn(cfg: Config, c0: Columns, n: nat, augIndex: nat, draws: Draws, trig: Trig, v: string, i: nat)
    requires ViewsDefined(cfg) && cfg.rotMult > 0 && !cfg.randomRot && |cfg.reflectAxes| > 0
    requires Distinct(cfg.reflectAxes) && "_px" !in cfg.reflectAxes
    requires forall j :: 0 <= j < |cfg.reflectAxes| ==> |cfg.reflectAxes[j]| == 3
    requires augIndex < cfg.augMult && Uniform(c0, n) && i < n
    requires Distinct(cfg.vectors) && "aug" !in cfg.vectors && v in cfg.vectors
    requires TestColumns(cfg, c0, n, augIndex, draws, trig).Ok?
    ensures v + "_px" in c0 && v + "_py" in c0
    ensures var r := TestColumns(cfg, c0, n, augIndex, draws, trig).value;
            var t := Fin(FixedTurn(augIndex % cfg.rotMult, cfg.rotMult));
            var x, y := c0[v + "_px"][i], c0[v + "_py"][i];
            var ry := RotY(x, y, Apply(trig.cos, t), Apply(trig.sin, t));
            && r[v + "_px"][i] == RotX(x, y, Apply(trig.cos, t), Apply(trig.sin, t))
            && ("_py" !in cfg.reflectAxes ==> r[v + "_py"][i] == ry)
            && (forall j :: 0 <= j < |cfg.reflectAxes| && cfg.reflectAxes[j] == "_py" ==>
                  r[v + "_py"][i] == if Split(cfg.rotMult, |cfg.reflectAxes|, augIndex).flags[j] == 1 then Neg(ry) else ry)
  {
    var axes := cfg.reflectAxes;
    var turns := TestTurns(cfg, n, augIndex % cfg.rotMult, draws);
    var bits := RefIndex(|axes|, cfg.rotMult, augIndex).value;
    RotateReflectBranch(cfg, c0, n, augIndex, draws, trig);
    var c2 := RotatedBy(cfg, c0, n, turns, trig).value;
    FixedRotationColumns(cfg, c0, n, augIndex % cfg.rotMult, draws, trig, v, i);
    FlagAndReflectKeeps(cfg, c2, n, bits, v, "_px");
    if "_py" !in axes {
      FlagAndReflectKeeps(cfg, c2, n, bits, v, "_py");
    }
    forall j | 0 <= j < |axes| && axes[j] == "_py"
      ensures FlagAndReflect(cfg, c2, n, bits)[v + "_py"][i]
                == if Flags(bits, |axes|)[j] == 1 then Neg(c2[v + "_py"][i]) else c2[v + "_py"][i]
    {
      FlagAndReflectColumn(cfg, c2, n, bits, v, j);
      NegateWhereConst(c2[v + "_py"], Flags(bits, |axes|)[j], i);
    }
  }

  /** A fixed rotation by view `rotIndex` turns (px, py) of vector v by
      that view's angle. */
  lemma FixedRotationColumns(cfg: Config, c0: Columns, n: nat, rotIndex: nat, draws: Draws, trig: Trig, v: string, i: nat)
    requires cfg.rotMult > 0 && !cfg.randomRot && Uniform(c0, n) && i < n
    requires Distinct(cfg.vectors) && v in cfg.vectors
    requires RotatedBy(cfg, c0, n, TestTurns(cfg, n, rotIndex, draws), trig).Ok?
    ensures v + "_px" in c0 && v + "_py" in c0
    ensures var r := RotatedBy(cfg, c0, n, TestTurns(cfg, n, rotIndex, draws), trig).value;
            var t := Fin(FixedTurn(rotIndex, cfg.rotMult));
            && r[v + "_px"][i] == RotX(c0[v + "_px"][i], c0[v + "_py"][i], Apply(trig.cos, t), Apply(trig.sin, t))
            && r[v + "_py"][i] == RotY(c0[v + "_px"][i], c0[v + "_py"][i], Apply(trig.cos, t), Apply(trig.sin, t))
  {
    var c1 := c0["aug_angle" := TestTurns(cfg, n, rotIndex, draws)];
    SuffixesDiffer(v);
    RotateAllColumns(c1, n, cfg.vectors, trig, v);
    assert c1[v + "_px"] == c0[v + "_px"] && c1[v + "_py"] == c0[v + "_py"];
  }

  /** The rotation-and-reflection branch of a test view: the rotated frame,
      then the flags from the view's reflection code. */
  lemma RotateReflectBranch(cfg: Config, c0: Columns, n: nat, augIndex: nat, draws: Draws, trig: Trig)
    requires ViewsDefined(cfg) && cfg.rotMult > 0 && |cfg.reflectAxes| > 0
    requires augIndex < cfg.augMult && Uniform(c0, n)
    requires TestColumns(cfg, c0, n, augIndex, draws, trig).Ok?
    ensures var rot := RotatedBy(cfg, c0, n, TestTurns(cfg, n, augIndex % cfg.rotMult, draws), trig);
            && rot.Ok?
            && TestColumns(cfg, c0, n, augIndex, draws, trig)
                 == Ok(FlagAndReflect(cfg, rot.value, n, RefIndex(|cfg.reflectAxes|, cfg.rotMult, augIndex).value))
  {
  }

  /** A component whose axis is not reflected comes through the flags and
      reflect unchanged. */
  lemma FlagAndReflectKeeps(cfg: Config, c: Columns, n: nat, bits: string, v: string, a: string)
    requires Uniform(c, n) && |cfg.reflectAxes| <= |bits| && Distinct(cfg.reflectAxes)
    requires forall j :: 0 <= j < |cfg.reflectAxes| ==> |cfg.reflectAxes[j]| == 3
    requires |a| == 3 && a !in cfg.reflectAxes && v + a in c
    ensures FlagAndReflect(cfg, c, n, bits)[v + a] == c[v + a]
  {
    var axes := cfg.reflectAxes;
    var flags := TestFlags(bits, n, |axes|);
    var c1 := WithFlags(c, n, axes, flags);
    WithFlagsColumns(c, n, axes, flags);
    forall jj | 0 <= jj < |axes|
      ensures v + a != "aug" + axes[jj]
    {
      if v + a == "aug" + axes[jj] {
        ConcatSplit(v, a, "aug", axes[jj]);
      }
    }
    assert c1[v + a] == c[v + a];
    var steps := ReflectSteps(cfg.vectors, axes);
    ReflectStepsShaped(cfg.vectors, axes);
    forall k | 0 <= k < |steps|
      ensures steps[k].target != v + a || steps[k].flag !in c1
    {
      assert steps[k] in steps;
      var w, b :| w in cfg.vectors && b in axes && steps[k] == Step(w + b, "aug" + b);
      var jb :| 0 <= jb < |axes| && axes[jb] == b;
      if w + b == v + a {
        ConcatSplit(w, b, v, a);
      }
    }
    ReflectedKeeps(c1, n, steps, v + a);
  }

  /** Two fold files that agree on the inputs, targets and weights of fold
      `index` (and on the number of folds). */
  predicate SameData(s1: seq<Fold>, s2: seq<Fold>, index: int)
  {
    && |s1| == |s2|
    && (0 <= index < |s1| ==>
          && s1[index].inputs == s2[index].inputs
          && s1[index].targets == s2[index].targets
          && s1[index].weights == s2[index].weights)
  }

  /** get_fold and get_test_fold read nothing but the fold asked for:
      predictions stored in the file do not change what they hand out. */
  lemma FoldsReadOnlyData(cfg: Config, s1: seq<Fold>, s2: seq<Fold>, index: int, augIndex: nat, draws: Draws, trig: Trig)
    requires WellFormed(cfg) && SameData(s1, s2, index)
    ensures TrainFold(cfg, s1, index, draws, trig) == TrainFold(cfg, s2, index, draws, trig)
    ensures TestFold(cfg, s1, index, augIndex, draws, trig) == TestFold(cfg, s2, index, augIndex, draws, trig)
  {
    assert GetData(s1, index) == GetData(s2, index);
  }
}
