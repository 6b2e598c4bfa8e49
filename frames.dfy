/** The column operations HEPAugFoldYielder performs on a pandas frame of
    input features: `reflect` (negate a vector component in the rows whose
    flag column is 1) and `rotate` (turn (px, py) about the z axis, through
    a temporary column).  A frame is a map from column name to column; a
    missing name is a missing column. */
module Frames {
  import opened Basics
  import opened Floats

  type Columns = map<string, seq<Num>>

  /** Every column holds n rows. */
  predicate Uniform(c: Columns, n: nat)
  {
    forall k :: k in c ==> |c[k]| == n
  }

  /** The pandas frame the yielder works on. */
  class Frame {
    var cols: Columns
    const n: nat

    ghost predicate Valid()
      reads this
    {
      Uniform(cols, n)
    }

    constructor (cols: Columns, n: nat)
      requires Uniform(cols, n)
      ensures Valid() && this.cols == cols && this.n == n
    {
      this.cols := cols;
      this.n := n;
    }
  }

  // ---------------------------------------------------------------------
  // Reflection

  /** `col.loc[cut] = -col.loc[cut]` where `cut = (flag == 1)`. */
  function NegateWhere(col: seq<Num>, flag: seq<Num>): (r: seq<Num>)
    requires |col| == |flag|
    ensures |r| == |col|
  {
    seq(|col|, i requires 0 <= i < |col| => if flag[i] == Fin(1.0) then Neg(col[i]) else col[i])
  }

  /** One pass of reflect's inner loop: negate `target` where `flag` is 1. */
  datatype Step = Step(target: string, flag: string)

  /** A pass whose flag or target column is missing raises KeyError, which
      reflect swallows: the frame is left as it was. */
  function ReflectStep(c: Columns, n: nat, s: Step): (r: Columns)
    requires Uniform(c, n)
    ensures Uniform(r, n) && r.Keys == c.Keys
  {
    if s.flag in c && s.target in c then c[s.target := NegateWhere(c[s.target], c[s.flag])] else c
  }

  /** The passes for one vector: `{vector}{coord}` flagged by `aug{coord}`. */
  function AxisSteps(v: string, axes: seq<string>): seq<Step>
  {
    seq(|axes|, i requires 0 <= i < |axes| => Step(v + axes[i], "aug" + axes[i]))
  }

  /** reflect's passes in loop order: vectors outside, axes inside. */
  function ReflectSteps(vectors: seq<string>, axes: seq<string>): seq<Step>
    decreases |vectors|
  {
    if vectors == [] then []
    else ReflectSteps(vectors[..|vectors| - 1], axes) + AxisSteps(vectors[|vectors| - 1], axes)
  }

  function ApplySteps(c: Columns, n: nat, steps: seq<Step>): (r: Columns)
    requires Uniform(c, n)
    ensures Uniform(r, n) && r.Keys == c.Keys
    decreases |steps|
  {
    if steps == [] then c
    else ReflectStep(ApplySteps(c, n, steps[..|steps| - 1]), n, steps[|steps| - 1])
  }

  /** One more pass on top of a prefix of the passes. */
  lemma ApplySnoc(c: Columns, n: nat, steps: seq<Step>, k: nat)
    requires Uniform(c, n) && k < |steps|
    ensures ApplySteps(c, n, steps[..k + 1]) == ReflectStep(ApplySteps(c, n, steps[..k]), n, steps[k])
  {
    assert steps[..k + 1][..k] == steps[..k];
  }

  lemma {:induction false} ApplyAppend(c: Columns, n: nat, a: seq<Step>, b: seq<Step>)
    requires Uniform(c, n)
    ensures ApplySteps(c, n, a + b) == ApplySteps(ApplySteps(c, n, a), n, b)
    decreases |b|
  {
    if b == [] {
      assert a + b == a;
    } else {
      var b' := b[..|b| - 1];
      ApplyAppend(c, n, a, b');
      assert (a + b)[..|a + b| - 1] == a + b';
      assert (a + b)[|a + b| - 1] == b[|b| - 1];
    }
  }

  /** No two passes negate the same column and no pass negates a column
      that some pass reads as a flag. */
  predicate Disjoint(steps: seq<Step>)
  {
    && (forall i, j :: 0 <= i < j < |steps| ==> steps[i].target != steps[j].target)
    && (forall i, j :: 0 <= i < |steps| && 0 <= j < |steps| ==> steps[i].target != steps[j].flag)
  }

  /** With disjoint passes, reflect negates each target column exactly in
      the rows its flag marks, provided both columns exist, and leaves
      every other column (flags included) as it was. */
  lemma ReflectedColumns(c: Columns, n: nat, steps: seq<Step>)
    requires Uniform(c, n) && Disjoint(steps)
    ensures forall j :: 0 <= j < |steps| && steps[j].target in c && steps[j].flag in c ==>
              ApplySteps(c, n, steps)[steps[j].target] == NegateWhere(c[steps[j].target], c[steps[j].flag])
    ensures forall k :: k in c && (forall j :: 0 <= j < |steps| ==> steps[j].target != k || steps[j].flag !in c) ==>
              ApplySteps(c, n, steps)[k] == c[k]
  {
    forall j | 0 <= j < |steps| && steps[j].target in c && steps[j].flag in c
      ensures ApplySteps(c, n, steps)[steps[j].target] == NegateWhere(c[steps[j].target], c[steps[j].flag])
    {
      ReflectedTarget(c, n, steps, j);
    }
    forall k | k in c && (forall j :: 0 <= j < |steps| ==> steps[j].target != k || steps[j].flag !in c)
      ensures ApplySteps(c, n, steps)[k] == c[k]
    {
      ReflectedKeeps(c, n, steps, k);
    }
  }

  /** Pass `j` negates its target, and no other pass touches it. */
  lemma {:induction false} ReflectedTarget(c: Columns, n: nat, steps: seq<Step>, j: nat)
    requires Uniform(c, n) && Disjoint(steps) && j < |steps| && steps[j].target in c && steps[j].flag in c
    ensures ApplySteps(c, n, steps)[steps[j].target] == NegateWhere(c[steps[j].target], c[steps[j].flag])
    decreases |steps|
  {
    var m := |steps| - 1;
    var rest, s := steps[..m], steps[m];
    var a := ApplySteps(c, n, rest);
    assert ApplySteps(c, n, steps) == ReflectStep(a, n, s);
    if j < m {
      assert Disjoint(rest) && rest[j] == steps[j];
      ReflectedTarget(c, n, rest, j);
      assert steps[j].target != s.target;
    } else {
      assert forall i :: 0 <= i < m ==> rest[i] == steps[i];
      ReflectedKeeps(c, n, rest, s.target);
      ReflectedKeeps(c, n, rest, s.flag);
    }
  }

  /** A column that no pass targets (with an existing flag) is kept. */
  lemma {:induction false} ReflectedKeeps(c: Columns, n: nat, steps: seq<Step>, k: string)
    requires Uniform(c, n) && k in c
    requires forall j :: 0 <= j < |steps| ==> steps[j].target != k || steps[j].flag !in c
    ensures ApplySteps(c, n, steps)[k] == c[k]
    decreases |steps|
  {
    if steps != [] {
      var m := |steps| - 1;
      var rest := steps[..m];
      assert forall j :: 0 <= j < m ==> rest[j] == steps[j];
      ReflectedKeeps(c, n, rest, k);
    }
  }

  lemma StepInvolution(c: Columns, n: nat, s: Step)
    requires Uniform(c, n) && s.target != s.flag
    ensures ReflectStep(ReflectStep(c, n, s), n, s) == c
  {
    if s.flag in c && s.target in c {
      var r := ReflectStep(c, n, s);
      assert NegateWhere(r[s.target], r[s.flag]) == c[s.target];
    }
  }

  lemma StepsCommute(c: Columns, n: nat, s: Step, t: Step)
    requires Uniform(c, n)
    requires s.target != t.target && s.target != t.flag && t.target != s.flag
    ensures ReflectStep(ReflectStep(c, n, s), n, t) == ReflectStep(ReflectStep(c, n, t), n, s)
  {
  }

  lemma {:induction false} StepCommutesPast(c: Columns, n: nat, s: Step, steps: seq<Step>)
    requires Uniform(c, n)
    requires forall j :: 0 <= j < |steps| ==>
               s.target != steps[j].target && s.target != steps[j].flag && steps[j].target != s.flag
    ensures ReflectStep(ApplySteps(c, n, steps), n, s) == ApplySteps(ReflectStep(c, n, s), n, steps)
    decreases |steps|
  {
    if steps != [] {
      var m := |steps| - 1;
      StepCommutesPast(c, n, s, steps[..m]);
      StepsCommute(ApplySteps(c, n, steps[..m]), n, s, steps[m]);
    }
  }

  /** Reflecting twice with the same flags gives back the frame. */
  lemma {:induction false} ReflectTwice(c: Columns, n: nat, steps: seq<Step>)
    requires Uniform(c, n) && Disjoint(steps)
    ensures ApplySteps(ApplySteps(c, n, steps), n, steps) == c
    decreases |steps|
  {
    if steps != [] {
      var m := |steps| - 1;
      var rest, s := steps[..m], steps[m];
      assert Disjoint(rest);
      var x := ApplySteps(c, n, rest);
      StepCommutesPast(x, n, s, rest);
      StepInvolution(ApplySteps(x, n, rest), n, s);
      ReflectTwice(c, n, rest);
    }
  }

  /** Equal-length suffixes split a concatenation the same way. */
  lemma ConcatSplit(w: string, a: string, v: string, b: string)
    requires |a| == |b| && w + a == v + b
    ensures w == v && a == b
  {
    assert w == (w + a)[..|w|];
    assert v == (v + b)[..|v|];
    assert a == (w + a)[|w|..];
    assert b == (v + b)[|v|..];
  }

  /** A pass reflect makes for some vector and some axis. */
  ghost predicate Shaped(s: Step, vectors: seq<string>, axes: seq<string>)
  {
    exists v, a :: v in vectors && a in axes && s == Step(v + a, "aug" + a)
  }

  lemma {:induction false} ReflectStepsShaped(vectors: seq<string>, axes: seq<string>)
    ensures forall s :: s in ReflectSteps(vectors, axes) ==> Shaped(s, vectors, axes)
    decreases |vectors|
  {
    if vectors != [] {
      var m := |vectors| - 1;
      var vs, v := vectors[..m], vectors[m];
      ReflectStepsShaped(vs, axes);
      var x, y := ReflectSteps(vs, axes), AxisSteps(v, axes);
      forall s | s in ReflectSteps(vectors, axes)
        ensures Shaped(s, vectors, axes)
      {
        if s in x {
          var w, a :| w in vs && a in axes && s == Step(w + a, "aug" + a);
          assert w in vectors;
        } else {
          assert s in y;
          var i :| 0 <= i < |y| && y[i] == s;
          assert v in vectors && axes[i] in axes;
        }
      }
    }
  }

  /** A target `v + a` is never a flag `"aug" + b` unless v is "aug". */
  lemma TargetNotFlag(s: Step, t: Step, vectors: seq<string>, axes: seq<string>)
    requires "aug" !in vectors
    requires forall i :: 0 <= i < |axes| ==> |axes[i]| == 3
    requires Shaped(s, vectors, axes) && Shaped(t, vectors, axes)
    ensures s.target != t.flag
  {
    var v, a :| v in vectors && a in axes && s == Step(v + a, "aug" + a);
    var w, b :| w in vectors && b in axes && t == Step(w + b, "aug" + b);
    if v + a == "aug" + b {
      ConcatSplit(v, a, "aug", b);
    }
  }

  /** Passes of different vectors negate different columns. */
  lemma CrossTargets(s: Step, vs: seq<string>, v: string, b: string, axes: seq<string>)
    requires v !in vs && b in axes
    requires forall i :: 0 <= i < |axes| ==> |axes[i]| == 3
    requires Shaped(s, vs, axes)
    ensures s.target != v + b
  {
    var w, a :| w in vs && a in axes && s == Step(w + a, "aug" + a);
    if w + a == v + b {
      ConcatSplit(w, a, v, b);
    }
  }

  /** The passes reflect makes are disjoint when the vector names are
      distinct and none is "aug", and the axes are distinct suffixes of
      three characters (as the constructor builds them). */
  lemma {:induction false} ReflectStepsDisjoint(vectors: seq<string>, axes: seq<string>)
    requires forall i, j :: 0 <= i < j < |vectors| ==> vectors[i] != vectors[j]
    requires "aug" !in vectors
    requires forall i, j :: 0 <= i < j < |axes| ==> axes[i] != axes[j]
    requires forall i :: 0 <= i < |axes| ==> |axes[i]| == 3
    ensures Disjoint(ReflectSteps(vectors, axes))
    decreases |vectors|
  {
    ReflectStepsShaped(vectors, axes);
    if vectors != [] {
      var m := |vectors| - 1;
      var vs, v := vectors[..m], vectors[m];
      ReflectStepsDisjoint(vs, axes);
      ReflectStepsShaped(vs, axes);
      var x, y := ReflectSteps(vs, axes), AxisSteps(v, axes);
      var all := ReflectSteps(vectors, axes);
      assert all == x + y;
      forall i, j | 0 <= i < |all| && 0 <= j < |all|
        ensures all[i].target != all[j].flag
      {
        assert all[i] in all && all[j] in all;
        TargetNotFlag(all[i], all[j], vectors, axes);
      }
      forall i, j | 0 <= i < j < |all|
        ensures all[i].target != all[j].target
      {
        if j < |x| {
          assert all[i] == x[i] && all[j] == x[j];
        } else if i >= |x| {
          var p, q := i - |x|, j - |x|;
          if v + axes[p] == v + axes[q] { ConcatSplit(v, axes[p], v, axes[q]); }
        } else {
          assert all[i] in x;
          assert v !in vs;
          CrossTargets(all[i], vs, v, axes[j - |x|], axes);
        }
      }
    }
  }

  // ---------------------------------------------------------------------
  // Rotation

  /** Trigonometry is not modelled: cos and sin are given, as functions of
      the angle stored in the frame. */
  datatype Trig = Trig(cos: real -> real, sin: real -> real)

  /** New px: `px*cos - py*sin`. */
  function RotX(px: Num, py: Num, cos: Num, sin: Num): Num
  {
    Sub(Mul(px, cos), Mul(py, sin))
  }

  /** New py: `py*cos + px*sin`. */
  function RotY(px: Num, py: Num, cos: Num, sin: Num): Num
  {
    Add(Mul(py, cos), Mul(px, sin))
  }

  /** One pass of rotate's loop for vector v, statement by statement: the
      temporary `{v}_pxtmp`, then py (reading px), then px from the
      temporary.  A missing column raises KeyError, which rotate does not
      catch; the first statement reads px, then aug_angle, then py. */
  function RotateVector(c: Columns, n: nat, v: string, trig: Trig): (r: Result<Columns>)
    requires Uniform(c, n)
    ensures r.Ok? <==> v + "_px" in c && v + "_py" in c && "aug_angle" in c
    ensures r.Err? ==> r.error.MissingColumn? && r.error.name !in c
    ensures r.Ok? ==> Uniform(r.value, n) && r.value.Keys == c.Keys + {v + "_pxtmp"}
  {
    var px, py, tmp := v + "_px", v + "_py", v + "_pxtmp";
    if px !in c then Err(MissingColumn(px))
    else if "aug_angle" !in c then Err(MissingColumn("aug_angle"))
    else if py !in c then Err(MissingColumn(py))
    else
      var c1 := c[tmp := RotatedX(c, n, v, trig)];
      var c2 := c1[py := RotatedY(c1, n, v, trig)];
      Ok(c2[px := c2[tmp]])
  }

  /** The new px column: `px*cos - py*sin`, row by row. */
  function RotatedX(c: Columns, n: nat, v: string, trig: Trig): (r: seq<Num>)
    requires Uniform(c, n) && v + "_px" in c && v + "_py" in c && "aug_angle" in c
    ensures |r| == n
  {
    var px, py, a := c[v + "_px"], c[v + "_py"], c["aug_angle"];
    seq(n, i requires 0 <= i < n => RotX(px[i], py[i], Apply(trig.cos, a[i]), Apply(trig.sin, a[i])))
  }

  /** The new py column: `py*cos + px*sin`, row by row. */
  function RotatedY(c: Columns, n: nat, v: string, trig: Trig): (r: seq<Num>)
    requires Uniform(c, n) && v + "_px" in c && v + "_py" in c && "aug_angle" in c
    ensures |r| == n
  {
    var px, py, a := c[v + "_px"], c[v + "_py"], c["aug_angle"];
    seq(n, i requires 0 <= i < n => RotY(px[i], py[i], Apply(trig.cos, a[i]), Apply(trig.sin, a[i])))
  }

  /** rotate: the passes for every vector in order; the first KeyError
      ends it. */
  function RotateAll(c: Columns, n: nat, vectors: seq<string>, trig: Trig): (r: Result<Columns>)
    requires Uniform(c, n)
    ensures r.Ok? ==> Uniform(r.value, n) && c.Keys <= r.value.Keys
    decreases |vectors|
  {
    if vectors == [] then Ok(c)
    else
      match RotateVector(c, n, vectors[0], trig)
      case Err(e) => Err(e)
      case Ok(c') => RotateAll(c', n, vectors[1..], trig)
  }

  lemma SuffixesDiffer(v: string)
    ensures v + "_pxtmp" != v + "_px" && v + "_pxtmp" != v + "_py" && v + "_px" != v + "_py"
    ensures v + "_pxtmp" != "aug_angle" && v + "_px" != "aug_angle" && v + "_py" != "aug_angle"
  {
    assert (v + "_px")[|v| + 2] == 'x';
    assert (v + "_py")[|v| + 2] == 'y';
    if |v| == 3 {
      assert (v + "_pxtmp")[4] == 'p' && "aug_angle"[4] == 'a';
    }
    if |v| == 6 {
      assert (v + "_px")[6] == '_' && (v + "_py")[6] == '_' && "aug_angle"[6] == 'g';
    }
  }

  /** Both new components are computed from the values before the pass:
      py reads the old px because px is only overwritten from the
      temporary afterwards.  No column other than px, py and the temporary
      changes. */
  lemma RotateReadsOldValues(c: Columns, n: nat, v: string, trig: Trig)
    requires Uniform(c, n) && v + "_px" in c && v + "_py" in c && "aug_angle" in c
    ensures var r := RotateVector(c, n, v, trig).value;
            var px, py, a := c[v + "_px"], c[v + "_py"], c["aug_angle"];
            && (forall i :: 0 <= i < n ==>
                  r[v + "_px"][i] == RotX(px[i], py[i], Apply(trig.cos, a[i]), Apply(trig.sin, a[i])))
            && (forall i :: 0 <= i < n ==>
                  r[v + "_py"][i] == RotY(px[i], py[i], Apply(trig.cos, a[i]), Apply(trig.sin, a[i])))
            && r[v + "_pxtmp"] == r[v + "_px"]
            && (forall k :: k in c && k != v + "_px" && k != v + "_py" && k != v + "_pxtmp" ==> r[k] == c[k])
  {
    SuffixesDiffer(v);
  }

  /** `cos^2 + sin^2 = 1`. */
  predicate OnUnitCircle(co: real, si: real)
  {
    co * co + si * si == 1.0
  }

  /** Turning a finite vector by an angle and back by its opposite
      restores it exactly. */
  lemma RotateBackValue(x: real, y: real, co: real, si: real)
    requires OnUnitCircle(co, si)
    ensures var x', y' := RotX(Fin(x), Fin(y), Fin(co), Fin(si)), RotY(Fin(x), Fin(y), Fin(co), Fin(si));
            RotX(x', y', Fin(co), Neg(Fin(si))) == Fin(x) && RotY(x', y', Fin(co), Neg(Fin(si))) == Fin(y)
  {
    var x1, y1 := x * co - y * si, y * co + x * si;
    assert RotX(Fin(x), Fin(y), Fin(co), Fin(si)) == Fin(x1);
    assert RotY(Fin(x), Fin(y), Fin(co), Fin(si)) == Fin(y1);
    Unrotate(x, y, co, si, x1, y1);
  }

  lemma Unrotate(x: real, y: real, co: real, si: real, x1: real, y1: real)
    requires OnUnitCircle(co, si) && x1 == x * co - y * si && y1 == y * co + x * si
    ensures x1 * co + y1 * si == x && y1 * co - x1 * si == y
  {
    assert x1 * co + y1 * si == x * (co * co + si * si);
    assert y1 * co - x1 * si == y * (co * co + si * si);
  }

  /** rotate by an angle column and then by an angle column with the same
      cosine and the opposite sine gives back a finite vector's px and py. */
  lemma RotateBack(c: Columns, n: nat, v: string, trig: Trig, back: seq<Num>)
    requires Uniform(c, n) && v + "_px" in c && v + "_py" in c && "aug_angle" in c && |back| == n
    requires forall i :: 0 <= i < n ==> c[v + "_px"][i].Fin? && c[v + "_py"][i].Fin?
    requires forall i :: 0 <= i < n ==>
               && Apply(trig.cos, c["aug_angle"][i]).Fin?
               && Apply(trig.sin, c["aug_angle"][i]).Fin?
               && OnUnitCircle(Apply(trig.cos, c["aug_angle"][i]).r, Apply(trig.sin, c["aug_angle"][i]).r)
               && Apply(trig.cos, back[i]) == Apply(trig.cos, c["aug_angle"][i])
               && Apply(trig.sin, back[i]) == Neg(Apply(trig.sin, c["aug_angle"][i]))
    ensures var r1 := RotateVector(c, n, v, trig).value;
            var r2 := RotateVector(r1["aug_angle" := back], n, v, trig);
            r2.Ok? && r2.value[v + "_px"] == c[v + "_px"] && r2.value[v + "_py"] == c[v + "_py"]
  {
    SuffixesDiffer(v);
    var px, py := v + "_px", v + "_py";
    RotateReadsOldValues(c, n, v, trig);
    var r1 := RotateVector(c, n, v, trig).value;
    var c2 := r1["aug_angle" := back];
    assert c2[px] == r1[px] && c2[py] == r1[py];
    RotateReadsOldValues(c2, n, v, trig);
    var r2 := RotateVector(c2, n, v, trig).value;
    forall i | 0 <= i < n
      ensures r2[px][i] == c[px][i] && r2[py][i] == c[py][i]
    {
      RotateBackValue(c[px][i].r, c[py][i].r, Apply(trig.cos, c["aug_angle"][i]).r, Apply(trig.sin, c["aug_angle"][i]).r);
    }
  }

  /** The columns one vector's pass writes. */
  predicate Written(k: string, v: string)
  {
    k == v + "_px" || k == v + "_py" || k == v + "_pxtmp"
  }

  /** Different vectors write different columns, and never the angle. */
  lemma WrittenDiffer(v: string, w: string)
    requires v != w
    ensures !Written(v + "_px", w) && !Written(v + "_py", w)
    ensures !Written("aug_angle", w)
  {
    SuffixesDiffer(w);
    if v + "_px" == w + "_px" { ConcatSplit(v, "_px", w, "_px"); }
    if v + "_py" == w + "_py" { ConcatSplit(v, "_py", w, "_py"); }
    var vx, vy := v + "_px", v + "_py";
    assert vx[|vx| - 1] == 'x' && vy[|vy| - 1] == 'y';
    var wy, wt := w + "_py", w + "_pxtmp";
    assert wy[|wy| - 1] == 'y' && wt[|wt| - 1] == 'p';
  }

  /** rotate leaves every column that no pass writes as it was. */
  lemma {:induction false} RotateAllUntouched(c: Columns, n: nat, vectors: seq<string>, trig: Trig, k: string)
    requires Uniform(c, n) && k in c && RotateAll(c, n, vectors, trig).Ok?
    requires forall w :: w in vectors ==> !Written(k, w)
    ensures RotateAll(c, n, vectors, trig).value[k] == c[k]
    decreases |vectors|
  {
    if vectors != [] {
      var w := vectors[0];
      RotateReadsOldValues(c, n, w, trig);
      var c' := RotateVector(c, n, w, trig).value;
      assert !Written(k, w);
      assert c'[k] == c[k];
      assert forall u :: u in vectors[1..] ==> u in vectors;
      RotateAllUntouched(c', n, vectors[1..], trig, k);
    }
  }

  /** With distinct vector names, rotate turns every vector's (px, py) by
      the angle column, reading the values from before the call. */
  lemma {:induction false} RotateAllColumns(c: Columns, n: nat, vectors: seq<string>, trig: Trig, v: string)
    requires Uniform(c, n) && Distinct(vectors) && v in vectors && RotateAll(c, n, vectors, trig).Ok?
    ensures v + "_px" in c && v + "_py" in c && "aug_angle" in c
    ensures var r, a := RotateAll(c, n, vectors, trig).value, c["aug_angle"];
            && (forall i :: 0 <= i < n ==>
                  r[v + "_px"][i] == RotX(c[v + "_px"][i], c[v + "_py"][i], Apply(trig.cos, a[i]), Apply(trig.sin, a[i])))
            && (forall i :: 0 <= i < n ==>
                  r[v + "_py"][i] == RotY(c[v + "_px"][i], c[v + "_py"][i], Apply(trig.cos, a[i]), Apply(trig.sin, a[i])))
    decreases |vectors|
  {
    var w, rest := vectors[0], vectors[1..];
    assert Distinct(rest);
    RotateReadsOldValues(c, n, w, trig);
    var c' := RotateVector(c, n, w, trig).value;
    if v == w {
      forall u | u in rest
        ensures !Written(v + "_px", u) && !Written(v + "_py", u)
      {
        var m :| 0 <= m < |rest| && rest[m] == u;
        assert vectors[m + 1] == u && vectors[0] == v;
        WrittenDiffer(v, u);
      }
      RotateAllUntouched(c', n, rest, trig, v + "_px");
      RotateAllUntouched(c', n, rest, trig, v + "_py");
    } else {
      RotateAllColumns(c', n, rest, trig, v);
      WrittenDiffer(v, w);
      SuffixesDiffer(w);
    }
  }
}
