/**
 * Helpers of renderstim/latents/utils: axis-angle quaternions, the bounded
 * resampling loop and the checks `write_png` makes before writing a PNG.
 */
module Utils {
  import opened Wrappers
  import opened Ranges

  // ---------------------------------------------------------------- get_quaternion

  /** Python's `str.upper` on ASCII letters. */
  function UpperChar(ch: char): char
  {
    if 'a' <= ch <= 'z' then (ch as int - 32) as char else ch
  }

  /** `s.upper()`: same length, no lower-case ASCII letter left, each character kept or raised. */
  function Upper(s: string): (r: string)
    ensures |r| == |s|
    ensures forall i :: 0 <= i < |r| ==> !('a' <= r[i] <= 'z')
    ensures forall i :: 0 <= i < |r| ==> r[i] == s[i] || ('a' <= s[i] <= 'z' && r[i] as int == s[i] as int - 32)
  {
    seq(|s|, i requires 0 <= i < |s| => UpperChar(s[i]))
  }

  /** A rotation as the tuple (w, x, y, z). */
  datatype Quaternion = Quaternion(w: real, x: real, y: real, z: real)

  /** The trigonometric functions, left uninterpreted. */
  datatype Trig = Trig(sin: real -> real, cos: real -> real)

  /** The lookup failure `ax[axis.upper()]` raises. */
  datatype KeyError = KeyError(key: string)

  /** The unit vector for an upper-case axis letter. */
  function AxisVector(key: string): Option<(real, real, real)>
  {
    match key
    case "X" => Some((1.0, 0.0, 0.0))
    case "Y" => Some((0.0, 1.0, 0.0))
    case "Z" => Some((0.0, 0.0, 1.0))
    case _ => None
  }

  /** The axis-angle constructor: (cos(angle/2), sin(angle/2) times the axis). */
  function FromAxisAngle(v: (real, real, real), angle: real, trig: Trig): Quaternion
  {
    var s := trig.sin(angle / 2.0);
    Quaternion(trig.cos(angle / 2.0), v.0 * s, v.1 * s, v.2 * s)
  }

  /** `axis.upper()` is one of the three letters exactly when `axis` is that letter in either case. */
  lemma UpperAxis(axis: string, letter: char)
    requires 'A' <= letter <= 'Z'
    ensures Upper(axis) == [letter] <==> axis == [letter] || axis == [(letter as int + 32) as char]
  {
  }

  /**
   * `get_quaternion(axis, angle)`: the rotation by `angle` about the x, y or z
   * axis named case-insensitively; any other name raises KeyError. The two
   * components off the chosen axis are zero.
   */
  function GetQuaternion(axis: string, angle: real, trig: Trig): (r: Result<Quaternion, KeyError>)
    ensures r.Ok? <==> axis in {"x", "X", "y", "Y", "z", "Z"}
    ensures r.Err? ==> r.error == KeyError(Upper(axis))
    ensures r.Ok? ==> r.value.w == trig.cos(angle / 2.0)
    ensures axis in {"x", "X"} ==> r.Ok? && r.value.x == trig.sin(angle / 2.0) && r.value.y == 0.0 && r.value.z == 0.0
    ensures axis in {"y", "Y"} ==> r.Ok? && r.value.y == trig.sin(angle / 2.0) && r.value.x == 0.0 && r.value.z == 0.0
    ensures axis in {"z", "Z"} ==> r.Ok? && r.value.z == trig.sin(angle / 2.0) && r.value.x == 0.0 && r.value.y == 0.0
  {
    UpperAxis(axis, 'X');
    UpperAxis(axis, 'Y');
    UpperAxis(axis, 'Z');
    var key := Upper(axis);
    match AxisVector(key)
    case Some(v) => Ok(FromAxisAngle(v, angle, trig))
    case None => Err(KeyError(key))
  }

  /** The squared norm of a quaternion. */
  function Norm2(q: Quaternion): real
  {
    q.w * q.w + q.x * q.x + q.y * q.y + q.z * q.z
  }

  /** Where sin and cos satisfy the Pythagorean identity at half the angle, the quaternion is a unit one. */
  lemma QuaternionIsUnit(axis: string, angle: real, trig: Trig)
    requires axis in {"x", "X", "y", "Y", "z", "Z"}
    requires trig.sin(angle / 2.0) * trig.sin(angle / 2.0) + trig.cos(angle / 2.0) * trig.cos(angle / 2.0) == 1.0
    ensures GetQuaternion(axis, angle, trig).Ok? && Norm2(GetQuaternion(axis, angle, trig).value) == 1.0
  {
  }

  // ---------------------------------------------------------------- resample_while

  /** Run every sampler once, in order, on the asset (and the generator it carries). */
  function RunSamplers<A>(a: A, samplers: seq<A -> A>): A
    decreases |samplers|
  {
    if |samplers| == 0 then a else RunSamplers(samplers[0](a), samplers[1..])
  }

  /** The state after `k` complete trials. */
  function Trials<A>(a: A, samplers: seq<A -> A>, k: nat): A
  {
    if k == 0 then a else RunSamplers(Trials(a, samplers, k - 1), samplers)
  }

  /**
   * The outcome of the resampling loop: placed after `trials` trials, or
   * exhausted (RuntimeError) with the asset left as the last trial made it.
   */
  datatype Placement<A> = Placed(asset: A, trials: nat) | Exhausted(asset: A)

  /**
   * `resample_while(asset, samplers, condition, max_trials)`: run all
   * samplers in order on each trial and stop right after the first trial
   * whose condition is false; after `max_trials` trials that all satisfy the
   * condition, raise RuntimeError. The asset stands for the mutable asset
   * together with the generator the samplers draw from.
   */
  method ResampleWhile<A>(asset: A, samplers: seq<A -> A>, condition: A -> bool, maxTrials: int)
    returns (r: Placement<A>)
    ensures r.Placed? ==> 1 <= r.trials <= Count(maxTrials) && r.asset == Trials(asset, samplers, r.trials)
    ensures r.Placed? ==> !condition(r.asset)
    ensures r.Placed? ==> forall k :: 1 <= k < r.trials ==> condition(Trials(asset, samplers, k))
    ensures r.Exhausted? ==> r.asset == Trials(asset, samplers, Count(maxTrials))
    ensures r.Exhausted? ==> forall k :: 1 <= k <= Count(maxTrials) ==> condition(Trials(asset, samplers, k))
    ensures r.Exhausted? <==> forall k :: 1 <= k <= Count(maxTrials) ==> condition(Trials(asset, samplers, k))
  {
    var a := asset;
    var t := 0;
    while t < maxTrials
      invariant 0 <= t <= Count(maxTrials)
      invariant a == Trials(asset, samplers, t)
      invariant forall k :: 1 <= k <= t ==> condition(Trials(asset, samplers, k))
    {
      var i := 0;
      while i < |samplers|
        invariant 0 <= i <= |samplers|
        invariant RunSamplers(a, samplers[i..]) == Trials(asset, samplers, t + 1)
      {
        assert samplers[i..][1..] == samplers[i + 1..];
        a := samplers[i](a);
        i := i + 1;
      }
      t := t + 1;
      if !condition(a) {
        return Placed(a, t);
      }
    }
    return Exhausted(a);
  }

  // ---------------------------------------------------------------- write_png

  datatype DType = UInt8 | UInt16 | UInt32 | UInt64 | Float32 | Float64 | OtherDType(name: string)

  /** A numpy array: element type, shape and the elements in row-major order. */
  datatype NdArray = NdArray(dtype: DType, shape: seq<int>, data: seq<real>)
  {
    /** Every numpy array has non-negative dimensions and one element per index. */
    predicate Wf()
    {
      (forall i :: 0 <= i < |shape| ==> shape[i] >= 0) && |data| == Product(shape)
    }
  }

  /** The number of elements of an array of the given shape. */
  function Product(shape: seq<int>): int
  {
    if |shape| == 0 then 1 else shape[0] * Product(shape[1..])
  }

  /** A 3-D array has height · width · channels elements. */
  lemma ProductOfThree(shape: seq<int>)
    requires |shape| == 3
    ensures Product(shape) == shape[0] * shape[1] * shape[2]
  {
    var channels := shape[2..];
    assert channels[1..] == [];
    assert Product(channels) == shape[2];
    assert shape[1..][1..] == channels;
    assert Product(shape[1..]) == shape[1] * shape[2];
  }

  /** Padding the samples of a 3-D two-channel array gives height · width · 3 samples. */
  lemma PaddedLength(s: seq<real>, shape: seq<int>)
    requires |shape| == 3 && shape[2] == 2 && |s| == Product(shape)
    ensures |Pad(s)| == shape[0] * shape[1] * 3
  {
    ProductOfThree(shape);
    var pixels := shape[0] * shape[1];
    assert |s| == 2 * pixels;
    PadLength(s);
  }

  /** What `write_png` raises before it writes. */
  datatype PngError =
    | ValueTooLarge     // ValueError: an unsigned value above the 16-bit range
    | OutOfUnitRange    // ValueError: a float outside [0, 1]
    | EmptyReduction    // ValueError: the minimum or maximum of an empty array
    | UnsupportedDType  // NotImplementedError
    | NotThreeDimensional  // AssertionError

  /** What the PNG writer is given: its settings and the (possibly padded) samples. */
  datatype PngPlan = PngPlan(width: int, height: int, greyscale: bool, alpha: bool, bitdepth: int,
                             dtype: DType, data: seq<real>)

  /** `np.amax` of a non-empty array. */
  function Max(s: seq<real>): (m: real)
    requires |s| > 0
    ensures m in s && forall i :: 0 <= i < |s| ==> s[i] <= m
  {
    if |s| == 1 then s[0] else var m := Max(s[1..]); if s[0] > m then s[0] else m
  }

  /** `np.amin` of a non-empty array. */
  function Min(s: seq<real>): (m: real)
    requires |s| > 0
    ensures m in s && forall i :: 0 <= i < |s| ==> m <= s[i]
  {
    if |s| == 1 then s[0] else var m := Min(s[1..]); if s[0] < m then s[0] else m
  }

  /** `(x * 65535).astype(np.uint16)` for x in [0, 1]: truncation toward zero. */
  function Quantize(x: real): (r: real)
    requires 0.0 <= x <= 1.0
    ensures 0.0 <= r <= 65535.0 && r == r.Floor as real
    ensures r <= x * 65535.0 < r + 1.0
  {
    (x * 65535.0).Floor as real
  }

  /** Zero-padding the channel axis of two-channel samples to three channels. */
  function Pad(s: seq<real>): seq<real>
  {
    if |s| < 2 then [] else s[..2] + [0.0] + Pad(s[2..])
  }

  /** Padding keeps each pixel's two samples and appends a zero after them. */
  lemma {:induction false} PadAt(s: seq<real>, p: nat)
    requires |s| % 2 == 0 && p < |s| / 2
    ensures |Pad(s)| == |s| / 2 * 3
    ensures Pad(s)[3 * p] == s[2 * p] && Pad(s)[3 * p + 1] == s[2 * p + 1] && Pad(s)[3 * p + 2] == 0.0
  {
    PadLength(s);
    if p > 0 {
      PadAt(s[2..], p - 1);
    }
  }

  lemma {:induction false} PadLength(s: seq<real>)
    requires |s| % 2 == 0
    ensures |Pad(s)| == |s| / 2 * 3
    decreases |s|
  {
    if |s| >= 2 {
      PadLength(s[2..]);
    }
  }

  /** The element types and values `write_png` accepts, whatever the shape. */
  predicate Accepted(a: NdArray)
  {
    match a.dtype
    case UInt8 => true
    case UInt16 => true
    case UInt32 => |a.data| > 0 && forall i :: 0 <= i < |a.data| ==> a.data[i] <= 65535.0
    case UInt64 => |a.data| > 0 && forall i :: 0 <= i < |a.data| ==> a.data[i] <= 65535.0
    case Float32 => |a.data| > 0 && forall i :: 0 <= i < |a.data| ==> 0.0 <= a.data[i] <= 1.0
    case Float64 => |a.data| > 0 && forall i :: 0 <= i < |a.data| ==> 0.0 <= a.data[i] <= 1.0
    case OtherDType(_) => false
  }

  /**
   * The checks and conversions `write_png(data, filename)` makes before the
   * file write: the dtype decision table, the 3-D assertion, the writer's
   * settings and the padding of two-channel data.
   */
  method PreparePng(a: NdArray) returns (r: Result<PngPlan, PngError>)
    requires a.Wf()
    ensures a.dtype.OtherDType? ==> r == Err(UnsupportedDType)
    ensures a.dtype in {UInt32, UInt64, Float32, Float64} && |a.data| == 0 ==> r == Err(EmptyReduction)
    ensures a.dtype in {UInt32, UInt64} ==>
              (r == Err(ValueTooLarge) <==> exists i :: 0 <= i < |a.data| && a.data[i] > 65535.0)
    ensures a.dtype in {Float32, Float64} ==>
              (r == Err(OutOfUnitRange) <==> exists i :: 0 <= i < |a.data| && (a.data[i] < 0.0 || a.data[i] > 1.0))
    ensures r == Err(NotThreeDimensional) <==> Accepted(a) && |a.shape| != 3
    ensures r.Ok? <==> Accepted(a) && |a.shape| == 3
    ensures a.dtype in {UInt8, UInt16} ==> (r.Ok? <==> |a.shape| == 3)
    ensures r.Ok? ==> |a.shape| == 3 && r.value.height == a.shape[0] && r.value.width == a.shape[1]
    ensures r.Ok? ==> (r.value.greyscale <==> a.shape[2] == 1) && (r.value.alpha <==> a.shape[2] == 4)
    ensures r.Ok? ==> r.value.dtype == (if a.dtype == UInt8 then UInt8 else UInt16)
    ensures r.Ok? ==> (r.value.bitdepth == 8 <==> r.value.dtype == UInt8) && r.value.bitdepth in {8, 16}
    ensures r.Ok? ==> |r.value.data| == a.shape[0] * a.shape[1] * (if a.shape[2] == 2 then 3 else a.shape[2])
    ensures r.Ok? && a.dtype !in {Float32, Float64} ==>
              r.value.data == if a.shape[2] == 2 then Pad(a.data) else a.data
    ensures r.Ok? && a.dtype in {Float32, Float64} ==>
              (forall i :: 0 <= i < |a.data| ==> 0.0 <= a.data[i] <= 1.0) &&
              r.value.data == if a.shape[2] == 2 then Pad(QuantizeAll(a.data)) else QuantizeAll(a.data)
  {
    var data := a.data;
    var dtype := a.dtype;
    if dtype == UInt32 || dtype == UInt64 {
      if |data| == 0 {
        return Err(EmptyReduction);
      }
      var maxValue := Max(data);
      if maxValue > 65535.0 {
        return Err(ValueTooLarge);
      }
      dtype := UInt16;
    } else if dtype == Float32 || dtype == Float64 {
      if |data| == 0 {
        return Err(EmptyReduction);
      }
      var minValue := Min(data);
      var maxValue := Max(data);
      if minValue < 0.0 || maxValue > 1.0 {
        return Err(OutOfUnitRange);
      }
      data := QuantizeAll(data);
      dtype := UInt16;
    } else if dtype == UInt8 || dtype == UInt16 {
    } else {
      return Err(UnsupportedDType);
    }
    var bitdepth := if dtype == UInt8 then 8 else 16;
    if |a.shape| != 3 {
      return Err(NotThreeDimensional);
    }
    var height, width, channels := a.shape[0], a.shape[1], a.shape[2];
    var greyscale := channels == 1;
    var alpha := channels == 4;
    ProductOfThree(a.shape);
    if channels == 2 {
      PaddedLength(data, a.shape);
      data := Pad(data);
    }
    r := Ok(PngPlan(width, height, greyscale, alpha, bitdepth, dtype, data));
  }

  /** The float path's conversion of every sample. */
  function QuantizeAll(s: seq<real>): (r: seq<real>)
    requires forall i :: 0 <= i < |s| ==> 0.0 <= s[i] <= 1.0
    ensures |r| == |s|
    ensures forall i :: 0 <= i < |s| ==> 0.0 <= r[i] <= 65535.0 && r[i] == r[i].Floor as real
    ensures forall i :: 0 <= i < |s| ==> r[i] <= s[i] * 65535.0 < r[i] + 1.0
  {
    seq(|s|, i requires 0 <= i < |s| => Quantize(s[i]))
  }
}
