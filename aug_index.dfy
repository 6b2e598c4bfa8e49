/** The integer and string side of HEPAugFoldYielder: the stored rotation
    multiplicity, the reflection axes, the augmentation multiplicity, the
    vector names taken from the feature names, and the split of a
    test-time augmentation index into a rotation index and one reflection
    flag per axis. */
module AugIndex {
  import opened Basics

  // ---------------------------------------------------------------------
  // Construction-time configuration

  /** rot_mult as the constructor stores it: a fixed (non-random) positive
      multiplicity is never left odd. */
  function CorrectedRotMult(rotMult: int, randomRot: bool): (r: int)
    ensures r == rotMult || (r == rotMult + 1 && rotMult > 0 && !randomRot && rotMult % 2 == 1)
    ensures randomRot || rotMult <= 0 ==> r == rotMult
    ensures r > 0 && !randomRot ==> r % 2 == 0
  {
    if rotMult > 0 && !randomRot && rotMult % 2 != 0 then rotMult + 1 else rotMult
  }

  /** Position of an axis suffix in the fixed order x, y, z. */
  function AxisRank(axis: string): nat
  {
    if axis == "_px" then 0 else if axis == "_py" then 1 else 2
  }

  /** reflect_axes as the constructor builds it: with rotations on
      (rot_mult non-zero) the x flip is ignored. */
  function ReflectAxes(rotMult: int, reflectX: bool, reflectY: bool, reflectZ: bool): (axes: seq<string>)
    ensures |axes| <= 3
    ensures forall a :: a in axes ==> a in ["_px", "_py", "_pz"]
    ensures "_px" in axes <==> rotMult == 0 && reflectX
    ensures "_py" in axes <==> reflectY
    ensures "_pz" in axes <==> reflectZ
    ensures forall i, j :: 0 <= i < j < |axes| ==> AxisRank(axes[i]) < AxisRank(axes[j])
  {
    (if rotMult == 0 && reflectX then ["_px"] else [])
    + (if reflectY then ["_py"] else [])
    + (if reflectZ then ["_pz"] else [])
  }

  /** The divisor that separates the rotation index from the reflection
      code: rot_mult, or 1 without rotations. */
  function Div(rotMult: int): int
  {
    if rotMult != 0 then rotMult else 1
  }

  /** The augmentation multiplicity reached by the constructor's doublings:
      without axes it is the divisor; a non-negative rot_mult gives at
      least one view, a negative one a negative multiplicity, so every
      test-time index is rejected. */
  function AugMult(rotMult: int, nAxes: nat): (m: int)
    ensures nAxes == 0 ==> m == Div(rotMult)
    ensures rotMult >= 0 ==> m >= 1
    ensures rotMult < 0 ==> m < 0
  {
    var p := Pow2(nAxes);
    if rotMult >= 0 then
      MulMonotone(p, 1, Div(rotMult));
      Div(rotMult) * p
    else
      MulMonotone(p, rotMult, -1);
      Div(rotMult) * p
  }

  // Arithmetic helpers for the index split.

  lemma MulMonotone(d: nat, x: int, y: int)
    requires x <= y
    ensures x * d <= y * d && d * x <= d * y
  {
    var k: nat := y - x;
    assert y * d == x * d + k * d;
  }

  lemma DivBelow(a: nat, d: int, p: int)
    requires d > 0 && a < d * p
    ensures a / d < p
  {
    var q := a / d;
    assert a == d * q + a % d;
    if q >= p {
      MulMonotone(d, p, q);
      assert false;
    }
  }

  lemma DivModUnique(a: int, d: int, q: int, r: int)
    requires d > 0 && 0 <= r < d && a == d * q + r
    ensures a / d == q && a % d == r
  {
    var q', r' := a / d, a % d;
    assert a == d * q' + r';
    if q' > q {
      MulMonotone(d, q + 1, q');
      assert false;
    } else if q' < q {
      MulMonotone(d, q' + 1, q);
      assert false;
    }
  }

  // ---------------------------------------------------------------------
  // Vector names

  /** Python's `p in s` for strings. */
  predicate HasInfix(s: string, p: string)
    decreases |s|
  {
    |p| <= |s| && (s[..|p|] == p || HasInfix(s[1..], p))
  }

  /** vectors: each feature name containing "_px", less its last three
      characters, in feature order. */
  function Vectors(feats: seq<string>): (vs: seq<string>)
    ensures |vs| <= |feats|
    decreases |feats|
  {
    if feats == [] then []
    else
      var f := feats[|feats| - 1];
      Vectors(feats[..|feats| - 1]) + (if HasInfix(f, "_px") then [f[..|f| - 3]] else [])
  }

  /** A name is a vector exactly when some feature containing "_px" is
      that name followed by three characters. */
  lemma {:induction false} VectorsMembers(feats: seq<string>)
    ensures forall f :: f in feats && HasInfix(f, "_px") ==> f[..|f| - 3] in Vectors(feats)
    ensures forall v :: v in Vectors(feats) ==>
              exists f :: f in feats && HasInfix(f, "_px") && v == f[..|f| - 3]
    decreases |feats|
  {
    if feats != [] {
      var p := feats[..|feats| - 1];
      VectorsMembers(p);
      assert feats == p + [feats[|feats| - 1]];
    }
  }

  /** The vector list keeps the order of the features: the vectors of a
      concatenation are the concatenation of the vectors. */
  lemma {:induction false} VectorsAppend(a: seq<string>, b: seq<string>)
    ensures Vectors(a + b) == Vectors(a) + Vectors(b)
    decreases |b|
  {
    if b == [] {
      assert a + b == a;
    } else {
      var b' := b[..|b| - 1];
      VectorsAppend(a, b');
      assert (a + b)[..|a + b| - 1] == a + b';
      assert (a + b)[|a + b| - 1] == b[|b| - 1];
    }
  }

  // ---------------------------------------------------------------------
  // Fixed-width binary codes

  function Digit(b: nat): char
    requires b < 2
  {
    if b == 0 then '0' else '1'
  }

  /** `int(c)` for a binary digit. */
  function DigitValue(c: char): nat
  {
    if c == '1' then 1 else 0
  }

  predicate IsBinary(s: string)
  {
    forall i :: 0 <= i < |s| ==> s[i] == '0' || s[i] == '1'
  }

  /** Python's `format(v, 'b')`: binary digits without leading zeros. */
  function BinDigits(v: nat): (s: string)
    ensures |s| >= 1 && IsBinary(s)
    decreases v
  {
    if v < 2 then [Digit(v)] else BinDigits(v / 2) + [Digit(v % 2)]
  }

  /** Python's `'{0:0<width>b}'.format(v)`: padded with zeros on the left
      to at least `width` characters, never cut. */
  function FormatBin(v: nat, width: nat): (s: string)
    ensures |s| >= width && IsBinary(s)
  {
    var d := BinDigits(v);
    if |d| >= width then d else seq(width - |d|, _ => '0') + d
  }

  /** The number a string of binary digits denotes, most significant first. */
  function BitsValue(s: string): nat
    decreases |s|
  {
    if s == [] then 0 else 2 * BitsValue(s[..|s| - 1]) + DigitValue(s[|s| - 1])
  }

  /** The number a sequence of 0/1 flags denotes, first flag most significant. */
  function FlagsValue(f: seq<nat>): nat
    decreases |f|
  {
    if f == [] then 0 else 2 * FlagsValue(f[..|f| - 1]) + f[|f| - 1]
  }

  lemma {:induction false} BinDigitsValue(v: nat)
    ensures BitsValue(BinDigits(v)) == v
    decreases v
  {
    if v >= 2 {
      BinDigitsValue(v / 2);
      var s := BinDigits(v);
      assert s[..|s| - 1] == BinDigits(v / 2);
    }
  }

  lemma {:induction false} BinDigitsLength(v: nat, width: nat)
    requires width >= 1 && v < Pow2(width)
    ensures |BinDigits(v)| <= width
    decreases v
  {
    if v >= 2 {
      BinDigitsLength(v / 2, width - 1);
    }
  }

  lemma {:induction false} ZerosValue(n: nat, s: string)
    ensures BitsValue(seq(n, _ => '0') + s) == BitsValue(s)
    decreases |s|
  {
    var z: string := seq(n, _ => '0');
    if s == [] {
      assert z + s == z;
      ZerosOnly(n);
    } else {
      var s' := s[..|s| - 1];
      ZerosValue(n, s');
      assert (z + s)[..|z + s| - 1] == z + s';
      assert (z + s)[|z + s| - 1] == s[|s| - 1];
    }
  }

  lemma {:induction false} ZerosOnly(n: nat)
    ensures BitsValue(seq(n, _ => '0')) == 0
    decreases n
  {
    if n > 0 {
      var z: string := seq(n, _ => '0');
      ZerosOnly(n - 1);
      assert z[..n - 1] == seq(n - 1, _ => '0');
    }
  }

  /** Formatting a code below 2^width gives exactly `width` binary digits
      that read back as the code. */
  lemma FormatBinRoundTrip(v: nat, width: nat)
    requires width >= 1 && v < Pow2(width)
    ensures |FormatBin(v, width)| == width
    ensures BitsValue(FormatBin(v, width)) == v
  {
    BinDigitsLength(v, width);
    BinDigitsValue(v);
    var d := BinDigits(v);
    if |d| < width {
      ZerosValue(width - |d|, d);
    }
  }

  /** `int(s[i])` for each of the first k characters. */
  function Flags(s: string, k: nat): (f: seq<nat>)
    requires k <= |s|
    ensures |f| == k
  {
    seq(k, i requires 0 <= i < k => DigitValue(s[i]))
  }

  lemma {:induction false} FlagsOfBits(s: string)
    requires IsBinary(s)
    ensures FlagsValue(Flags(s, |s|)) == BitsValue(s)
    ensures forall i :: 0 <= i < |s| ==> Flags(s, |s|)[i] < 2
    decreases |s|
  {
    if s != [] {
      var s' := s[..|s| - 1];
      FlagsOfBits(s');
      assert Flags(s, |s|)[..|s| - 1] == Flags(s', |s'|);
    }
  }

  predicate IsFlagVector(f: seq<nat>)
  {
    forall i :: 0 <= i < |f| ==> f[i] < 2
  }

  lemma {:induction false} FlagsValueBound(f: seq<nat>)
    requires IsFlagVector(f)
    ensures FlagsValue(f) < Pow2(|f|)
    decreases |f|
  {
    if f != [] {
      FlagsValueBound(f[..|f| - 1]);
    }
  }

  /** Two flag vectors of one length that denote the same number are equal. */
  lemma {:induction false} FlagsValueInjective(f: seq<nat>, g: seq<nat>)
    requires IsFlagVector(f) && IsFlagVector(g) && |f| == |g|
    requires FlagsValue(f) == FlagsValue(g)
    ensures f == g
    decreases |f|
  {
    if f != [] {
      var n := |f| - 1;
      FlagsValueInjective(f[..n], g[..n]);
      assert f == f[..n] + [f[n]] && g == g[..n] + [g[n]];
    }
  }

  // ---------------------------------------------------------------------
  // Test-time augmentation views

  /** `_get_ref_index`: the reflection code `int(aug_index / div)` as a
      binary string of width n_axes; for n_axes outside 1..3 the source
      falls off its end and returns None. */
  function RefIndex(nAxes: nat, rotMult: int, augIndex: nat): (r: Option<string>)
    requires rotMult >= 0
    ensures r.Some? <==> 1 <= nAxes <= 3
    ensures r.Some? ==> |r.value| >= nAxes && IsBinary(r.value)
  {
    if 1 <= nAxes <= 3 then Some(FormatBin(augIndex / Div(rotMult), nAxes)) else None
  }

  /** One test-time view: the rotation index (None without rotations) and
      the flag given to each reflection axis, in axis order. */
  datatype View = View(rotation: Option<nat>, flags: seq<nat>)

  /** The index split made by get_test_fold, branch by branch: rotation
      and reflection, reflection only, rotation only, neither. */
  function Split(rotMult: nat, nAxes: nat, augIndex: nat): (v: View)
    requires nAxes <= 3
    ensures |v.flags| == nAxes
    ensures v.rotation.Some? <==> rotMult > 0
    ensures nAxes > 0 && rotMult > 0 ==> v.rotation.value < rotMult
  {
    if nAxes > 0 && rotMult > 0 then
      View(Some(augIndex % rotMult), Flags(RefIndex(nAxes, rotMult, augIndex).value, nAxes))
    else if nAxes > 0 then
      View(None, Flags(RefIndex(nAxes, rotMult, augIndex).value, nAxes))
    else if rotMult != 0 then
      View(Some(augIndex), [])
    else
      View(None, [])
  }

  /** The views a configuration can produce. */
  predicate ValidView(rotMult: nat, nAxes: nat, v: View)
  {
    && (v.rotation.Some? <==> rotMult > 0)
    && (v.rotation.Some? ==> v.rotation.value < rotMult)
    && |v.flags| == nAxes
    && IsFlagVector(v.flags)
  }

  /** The index of a view: rotation index plus div times the reflection code. */
  function Encode(rotMult: nat, v: View): (a: nat)
    ensures ValidView(rotMult, |v.flags|, v) ==>
              && a / Div(rotMult) == FlagsValue(v.flags)
              && a % Div(rotMult) == (if v.rotation.Some? then v.rotation.value else 0)
  {
    var rot := if v.rotation.Some? then v.rotation.value else 0;
    var a := rot + Div(rotMult) * FlagsValue(v.flags);
    if ValidView(rotMult, |v.flags|, v) then
      DivModUnique(a, Div(rotMult), FlagsValue(v.flags), rot);
      a
    else a
  }

  /** Every valid index splits into a valid view that encodes back to it. */
  lemma SplitEncode(rotMult: nat, nAxes: nat, augIndex: nat)
    requires nAxes <= 3 && augIndex < AugMult(rotMult, nAxes)
    ensures ValidView(rotMult, nAxes, Split(rotMult, nAxes, augIndex))
    ensures Encode(rotMult, Split(rotMult, nAxes, augIndex)) == augIndex
  {
    var d := Div(rotMult);
    SplitFlags(rotMult, nAxes, augIndex);
    var v := Split(rotMult, nAxes, augIndex);
    assert (if v.rotation.Some? then v.rotation.value else 0) == augIndex % d;
    DivModParts(augIndex, d);
  }

  lemma DivModParts(a: nat, d: int)
    requires d > 0
    ensures a == d * (a / d) + a % d
  {
  }

  /** The flags of a split index are the binary digits of `augIndex / div`. */
  lemma SplitFlags(rotMult: nat, nAxes: nat, augIndex: nat)
    requires nAxes <= 3 && augIndex < AugMult(rotMult, nAxes)
    ensures var v := Split(rotMult, nAxes, augIndex);
            |v.flags| == nAxes && IsFlagVector(v.flags) && FlagsValue(v.flags) == augIndex / Div(rotMult)
  {
    var d := Div(rotMult);
    var q := augIndex / d;
    DivBelow(augIndex, d, Pow2(nAxes));
    if nAxes > 0 {
      FormatBinRoundTrip(q, nAxes);
      var s := FormatBin(q, nAxes);
      assert Flags(RefIndex(nAxes, rotMult, augIndex).value, nAxes) == Flags(s, |s|);
      FlagsOfBits(s);
    } else {
      assert Pow2(nAxes) == 1;
    }
  }

  /** Every valid view is reached by exactly the index it encodes to. */
  lemma EncodeSplit(rotMult: nat, nAxes: nat, v: View)
    requires nAxes <= 3 && ValidView(rotMult, nAxes, v)
    ensures Encode(rotMult, v) < AugMult(rotMult, nAxes)
    ensures Split(rotMult, nAxes, Encode(rotMult, v)) == v
  {
    var d := Div(rotMult);
    var r := if v.rotation.Some? then v.rotation.value else 0;
    var q := FlagsValue(v.flags);
    var a := Encode(rotMult, v);
    FlagsValueBound(v.flags);
    assert r < d;
    MulMonotone(d, q, Pow2(nAxes) - 1);
    assert d * (Pow2(nAxes) - 1) == d * Pow2(nAxes) - d;
    DivModUnique(a, d, q, r);
    if nAxes > 0 {
      FormatBinRoundTrip(q, nAxes);
      var s := FormatBin(q, nAxes);
      FlagsOfBits(s);
      assert Flags(RefIndex(nAxes, rotMult, a).value, nAxes) == Flags(s, |s|);
      FlagsValueInjective(Flags(s, |s|), v.flags);
    } else {
      assert v.flags == [];
    }
  }

  /** Distinct valid indices give distinct views. */
  lemma SplitInjective(rotMult: nat, nAxes: nat, a: nat, b: nat)
    requires nAxes <= 3 && a < AugMult(rotMult, nAxes) && b < AugMult(rotMult, nAxes)
    requires Split(rotMult, nAxes, a) == Split(rotMult, nAxes, b)
    ensures a == b
  {
    SplitEncode(rotMult, nAxes, a);
    SplitEncode(rotMult, nAxes, b);
  }

  /** The fixed rotation of rotation index i: entry i of
      `linspace(0, 2*pi, rot_mult + 1)`, as a fraction of a full turn. */
  function FixedTurn(rotIndex: nat, rotMult: nat): real
    requires rotMult > 0
  {
    rotIndex as real / rotMult as real
  }

  /** The fixed rotations of distinct rotation indices are distinct angles
      in [0, 1) turn. */
  lemma FixedTurnsDistinct(i: nat, j: nat, rotMult: nat)
    requires i < rotMult && j < rotMult
    ensures 0.0 <= FixedTurn(i, rotMult) < 1.0
    ensures FixedTurn(i, rotMult) == FixedTurn(j, rotMult) ==> i == j
  {
    var m := rotMult as real;
    assert FixedTurn(i, rotMult) * m == i as real;
    assert FixedTurn(j, rotMult) * m == j as real;
  }
}
