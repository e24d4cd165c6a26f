/**
 * Procedural texture records (renderstim/latents/textures): the per-kind
 * parameter sampler and the flattening of a texture evaluated on a grid.
 */
module Textures {
  import opened Random
  import opened Ranges

  /** The kinds the sampler recognises; anything else yields a NONE record. */
  const Kinds: seq<string> := ["CLOUDS", "DISTORTED_NOISE", "MAGIC", "MARBLE", "MUSGRAVE",
                               "STUCCI", "VORONOI", "WOOD", "IMAGE"]

  const CloudNoiseBasis: seq<string> := ["IMPROVED_PERLIN", "VORONOI_F1", "VORONOI_F2",
                                         "VORONOI_F3", "VORONOI_F2_F1", "VORONOI_CRACKLE"]
  const DistortedNoiseBasis: seq<string> := ["BLENDER_ORIGINAL", "ORIGINAL_PERLIN", "VORONOI_F2",
                                             "VORONOI_F4", "VORONOI_CRACKLE", "CELL_NOISE"]
  const MarbleNoiseBasis: seq<string> := ["BLENDER_ORIGINAL", "VORONOI_F2", "VORONOI_CRACKLE", "CELL_NOISE"]
  const MarbleTypes: seq<string> := ["SOFT", "SHARP"]
  const MusgraveNoiseBasis: seq<string> := ["BLENDER_ORIGINAL", "VORONOI_F1", "VORONOI_F2_F1",
                                            "VORONOI_CRACKLE", "CELL_NOISE"]
  const MusgraveTypes: seq<string> := ["MULTIFRACTAL", "RIDGED_MULTIFRACTAL", "FBM"]
  const StucciNoiseBasis: seq<string> := ["BLENDER_ORIGINAL", "VORONOI_F1", "VORONOI_F2_F1",
                                          "VORONOI_CRACKLE", "CELL_NOISE"]
  const StucciTypes: seq<string> := ["PLASTIC", "WALL_IN", "WALL_OUT"]
  const VoronoiDistanceMetrics: seq<string> := ["DISTANCE", "DISTANCE_SQUARED", "MANHATTAN", "CHEBYCHEV",
                                                "MINKOVSKY_HALF", "MINKOVSKY_FOUR", "MINKOVSKY"]
  const WoodNoiseBasis: seq<string> := ["BLENDER_ORIGINAL", "VORONOI_F1", "VORONOI_CRACKLE", "CELL_NOISE"]

  /** The texture resolution: large for a background, small for an object. */
  function SizeFor(background: bool): int
  {
    if background then 3192 else 256
  }

  /** One texture record; each variant carries exactly the keys of its dictionary. */
  datatype Texture =
    | Clouds(nabla: real, noiseDepth: int, noiseScale: int, noiseBasis: string, size: int)
    | DistortedNoise(nabla: real, distortion: int, noiseBasis: string, noiseScale: int,
                     noiseDistortion: string, size: int)
    | Magic(noiseDepth: int, turbulence: int, size: int)
    | Marble(nabla: real, noiseDepth: int, noiseScale: int, noiseBasis: string, marbleType: string,
             turbulence: int, size: int)
    | Musgrave(dimensionMax: real, gain: int, lacunarity: int, musgraveType: string, nabla: real,
               noiseBasis: string, noiseIntensity: int, noiseScale: int, octaves: int, offset: int,
               size: int)
    | Stucci(noiseBasis: string, noiseScale: int, noiseType: string, stucciType: string,
             turbulence: int, size: int)
    | Voronoi(colorMode: string, distanceMetric: string, minkovskyExponent: int, nabla: real,
              noiseScale: int, size: int)
    | Wood(nabla: real, noiseScale: int, turbulence: int, woodType: string, noiseBasis: string,
           size: int)
    | Image(imagePath: string)
    | NoTexture
  {
    /** The record's 'type' entry. */
    function TypeName(): string
    {
      match this
      case Clouds(_, _, _, _, _) => "CLOUDS"
      case DistortedNoise(_, _, _, _, _, _) => "DISTORTED_NOISE"
      case Magic(_, _, _) => "MAGIC"
      case Marble(_, _, _, _, _, _, _) => "MARBLE"
      case Musgrave(_, _, _, _, _, _, _, _, _, _, _) => "MUSGRAVE"
      case Stucci(_, _, _, _, _, _) => "STUCCI"
      case Voronoi(_, _, _, _, _, _) => "VORONOI"
      case Wood(_, _, _, _, _, _) => "WOOD"
      case Image(_) => "IMAGE"
      case NoTexture => "NONE"
    }

    /** The key set of the record as a dictionary. */
    function Keys(): set<string>
    {
      match this
      case Clouds(_, _, _, _, _) => {"type", "nabla", "noise_depth", "noise_scale", "noise_basis", "size"}
      case DistortedNoise(_, _, _, _, _, _) =>
        {"type", "nabla", "distortion", "noise_basis", "noise_scale", "noise_distortion", "size"}
      case Magic(_, _, _) => {"type", "noise_depth", "turbulence", "size"}
      case Marble(_, _, _, _, _, _, _) =>
        {"type", "nabla", "noise_depth", "noise_scale", "noise_basis", "marble_type", "turbulence", "size"}
      case Musgrave(_, _, _, _, _, _, _, _, _, _, _) =>
        {"type", "dimension_max", "gain", "lacunarity", "musgrave_type", "nabla", "noise_basis",
         "noise_intensity", "noise_scale", "octaves", "offset", "size"}
      case Stucci(_, _, _, _, _, _) =>
        {"type", "noise_basis", "noise_scale", "noise_type", "stucci_type", "turbulence", "size"}
      case Voronoi(_, _, _, _, _, _) =>
        {"type", "color_mode", "distance_metric", "minkovsky_exponent", "nabla", "noise_scale", "size"}
      case Wood(_, _, _, _, _, _) =>
        {"type", "nabla", "noise_scale", "turbulence", "wood_type", "noise_basis", "size"}
      case Image(_) => {"type", "image_path"}
      case NoTexture => {"type"}
    }

    /** A procedural kind: one that carries a 'size'. */
    predicate Procedural()
    {
      !Image? && !NoTexture?
    }
  }

  /**
   * Every drawn integer and real lies in its half-open range, every
   * categorical entry comes from that kind's list and the constant entries
   * have their fixed values.
   */
  predicate InRange(t: Texture)
  {
    match t
    case Clouds(nabla, noiseDepth, noiseScale, noiseBasis, _) =>
      0.001 <= nabla < 0.1 && 0 <= noiseDepth < 5 && 10 <= noiseScale < 30
      && noiseBasis in CloudNoiseBasis
    case DistortedNoise(nabla, distortion, noiseBasis, noiseScale, noiseDistortion, _) =>
      0.001 <= nabla < 0.1 && 1 <= distortion < 10 && noiseBasis in DistortedNoiseBasis
      && 10 <= noiseScale < 30 && noiseDistortion in DistortedNoiseBasis
    case Magic(noiseDepth, turbulence, _) =>
      0 <= noiseDepth < 5 && 5 <= turbulence < 10
    case Marble(nabla, noiseDepth, noiseScale, noiseBasis, marbleType, turbulence, _) =>
      0.001 <= nabla < 0.1 && 0 <= noiseDepth < 5 && 10 <= noiseScale < 30
      && noiseBasis in MarbleNoiseBasis && marbleType in MarbleTypes && 5 <= turbulence < 15
    case Musgrave(dimensionMax, gain, lacunarity, musgraveType, nabla, noiseBasis, noiseIntensity,
                  noiseScale, octaves, offset, _) =>
      0.001 <= dimensionMax < 2.0 && 1 <= gain < 6 && 1 <= lacunarity < 6
      && musgraveType in MusgraveTypes && 0.001 <= nabla < 0.1 && noiseBasis in MusgraveNoiseBasis
      && 1 <= noiseIntensity < 10 && 10 <= noiseScale < 30 && 1 <= octaves < 8 && offset == 1
    case Stucci(noiseBasis, noiseScale, noiseType, stucciType, turbulence, _) =>
      noiseBasis in StucciNoiseBasis && 10 <= noiseScale < 30 && noiseType == "HARD_NOISE"
      && stucciType in StucciTypes && 5 <= turbulence < 15
    case Voronoi(colorMode, distanceMetric, minkovskyExponent, nabla, noiseScale, _) =>
      colorMode == "INTENSITY" && distanceMetric in VoronoiDistanceMetrics && 1 <= minkovskyExponent < 10
      && 0.001 <= nabla < 0.1 && 10 <= noiseScale < 30
    case Wood(nabla, noiseScale, turbulence, woodType, noiseBasis, _) =>
      0.001 <= nabla < 0.1 && 10 <= noiseScale < 30 && 5 <= turbulence < 15
      && woodType == "BANDNOISE" && noiseBasis in WoodNoiseBasis
    case Image(_) => true
    case NoTexture => true
  }

  /**
   * The sampler's promise about a record: its entries are in range, a
   * procedural record's size follows the background flag, and an image path
   * comes from the image list.
   */
  predicate WellFormed(t: Texture, background: bool, images: seq<string>)
  {
    && InRange(t)
    && (t.Procedural() ==> t.size == SizeFor(background))
    && (t.Image? ==> t.imagePath in images)
  }

  /** How many values the sampler draws for a kind, one per drawn entry. */
  function DrawCount(kind: string): nat
  {
    match kind
    case "CLOUDS" => 4
    case "DISTORTED_NOISE" => 5
    case "MAGIC" => 2
    case "MARBLE" => 6
    case "MUSGRAVE" => 9
    case "STUCCI" => 4
    case "VORONOI" => 4
    case "WOOD" => 4
    case "IMAGE" => 1
    case _ => 0
  }

  /** The CLOUDS record: its drawn entries in dictionary order. */
  function SampleClouds(c: Cursor, size: int): (r: (Texture, Cursor))
    ensures r.0.Clouds? && r.0.size == size && InRange(r.0)
    ensures r.1 == c.Skip(4)
  {
    var (nabla, c1) := c.Uniform(0.001, 0.1);
    var (noiseDepth, c2) := c1.RandInt(0, 5);
    var (noiseScale, c3) := c2.RandInt(10, 30);
    var (noiseBasis, c4) := c3.Choice(CloudNoiseBasis);
    (Clouds(nabla, noiseDepth, noiseScale, noiseBasis, size), c4)
  }

  /** The DISTORTED_NOISE record: its drawn entries in dictionary order. */
  function SampleDistortedNoise(c: Cursor, size: int): (r: (Texture, Cursor))
    ensures r.0.DistortedNoise? && r.0.size == size && InRange(r.0)
    ensures r.1 == c.Skip(5)
  {
    var (nabla, c1) := c.Uniform(0.001, 0.1);
    var (distortion, c2) := c1.RandInt(1, 10);
    var (noiseBasis, c3) := c2.Choice(DistortedNoiseBasis);
    var (noiseScale, c4) := c3.RandInt(10, 30);
    var (noiseDistortion, c5) := c4.Choice(DistortedNoiseBasis);
    (DistortedNoise(nabla, distortion, noiseBasis, noiseScale, noiseDistortion, size), c5)
  }

  /** The MAGIC record: its drawn entries in dictionary order. */
  function SampleMagic(c: Cursor, size: int): (r: (Texture, Cursor))
    ensures r.0.Magic? && r.0.size == size && InRange(r.0)
    ensures r.1 == c.Skip(2)
  {
    var (noiseDepth, c1) := c.RandInt(0, 5);
    var (turbulence, c2) := c1.RandInt(5, 10);
    (Magic(noiseDepth, turbulence, size), c2)
  }

  /** The MARBLE record: its drawn entries in dictionary order. */
  function SampleMarble(c: Cursor, size: int): (r: (Texture, Cursor))
    ensures r.0.Marble? && r.0.size == size && InRange(r.0)
    ensures r.1 == c.Skip(6)
  {
    var (nabla, c1) := c.Uniform(0.001, 0.1);
    var (noiseDepth, c2) := c1.RandInt(0, 5);
    var (noiseScale, c3) := c2.RandInt(10, 30);
    var (noiseBasis, c4) := c3.Choice(MarbleNoiseBasis);
    var (marbleType, c5) := c4.Choice(MarbleTypes);
    var (turbulence, c6) := c5.RandInt(5, 15);
    (Marble(nabla, noiseDepth, noiseScale, noiseBasis, marbleType, turbulence, size), c6)
  }

  /** The MUSGRAVE record: its drawn entries in dictionary order. */
  function SampleMusgrave(c: Cursor, size: int): (r: (Texture, Cursor))
    ensures r.0.Musgrave? && r.0.size == size && InRange(r.0)
    ensures r.1 == c.Skip(9)
  {
    var (dimensionMax, c1) := c.Uniform(0.001, 2.0);
    var (gain, c2) := c1.RandInt(1, 6);
    var (lacunarity, c3) := c2.RandInt(1, 6);
    var (musgraveType, c4) := c3.Choice(MusgraveTypes);
    var (nabla, c5) := c4.Uniform(0.001, 0.1);
    var (noiseBasis, c6) := c5.Choice(MusgraveNoiseBasis);
    var (noiseIntensity, c7) := c6.RandInt(1, 10);
    var (noiseScale, c8) := c7.RandInt(10, 30);
    var (octaves, c9) := c8.RandInt(1, 8);
    (Musgrave(dimensionMax, gain, lacunarity, musgraveType, nabla, noiseBasis, noiseIntensity,
              noiseScale, octaves, 1, size), c9)
  }

  /** The STUCCI record: its drawn entries in dictionary order. */
  function SampleStucci(c: Cursor, size: int): (r: (Texture, Cursor))
    ensures r.0.Stucci? && r.0.size == size && InRange(r.0)
    ensures r.1 == c.Skip(4)
  {
    var (noiseBasis, c1) := c.Choice(StucciNoiseBasis);
    var (noiseScale, c2) := c1.RandInt(10, 30);
    var (stucciType, c3) := c2.Choice(StucciTypes);
    var (turbulence, c4) := c3.RandInt(5, 15);
    (Stucci(noiseBasis, noiseScale, "HARD_NOISE", stucciType, turbulence, size), c4)
  }

  /** The VORONOI record: its drawn entries in dictionary order. */
  function SampleVoronoi(c: Cursor, size: int): (r: (Texture, Cursor))
    ensures r.0.Voronoi? && r.0.size == size && InRange(r.0)
    ensures r.1 == c.Skip(4)
  {
    var (distanceMetric, c1) := c.Choice(VoronoiDistanceMetrics);
    var (minkovskyExponent, c2) := c1.RandInt(1, 10);
    var (nabla, c3) := c2.Uniform(0.001, 0.1);
    var (noiseScale, c4) := c3.RandInt(10, 30);
    (Voronoi("INTENSITY", distanceMetric, minkovskyExponent, nabla, noiseScale, size), c4)
  }

  /** The WOOD record: its drawn entries in dictionary order. */
  function SampleWood(c: Cursor, size: int): (r: (Texture, Cursor))
    ensures r.0.Wood? && r.0.size == size && InRange(r.0)
    ensures r.1 == c.Skip(4)
  {
    var (nabla, c1) := c.Uniform(0.001, 0.1);
    var (noiseScale, c2) := c1.RandInt(10, 30);
    var (turbulence, c3) := c2.RandInt(5, 15);
    var (noiseBasis, c4) := c3.Choice(WoodNoiseBasis);
    (Wood(nabla, noiseScale, turbulence, "BANDNOISE", noiseBasis, size), c4)
  }

  /**
   * `get_texture(kind, rng, background)`: the record for `kind`, drawing its
   * entries in dictionary order from the generator at `c`, and the generator
   * after the draws. The image list is the object images followed by the
   * background images.
   */
  function GetTexture(kind: string, c: Cursor, background: bool,
                      objTextures: seq<string>, bgTextures: seq<string>): (r: (Texture, Cursor))
    requires kind == "IMAGE" ==> |objTextures + bgTextures| > 0
    ensures r.0.TypeName() == if kind in Kinds then kind else "NONE"
    ensures kind !in Kinds ==> r.0 == NoTexture
    ensures kind == "IMAGE" ==> r.0.Keys() == {"type", "image_path"}
    ensures r.0.Procedural() <==> kind in Kinds && kind != "IMAGE"
    ensures WellFormed(r.0, background, objTextures + bgTextures)
    ensures r.1 == c.Skip(DrawCount(kind))
  {
    if kind == "IMAGE" then
      var (imagePath, c1) := c.Choice(objTextures + bgTextures);
      (Image(imagePath), c1)
    else if kind in Kinds then SampleProcedural(kind, c, SizeFor(background))
    else (NoTexture, c)
  }

  /** The record of a procedural kind with the given size. */
  function SampleProcedural(kind: string, c: Cursor, size: int): (r: (Texture, Cursor))
    requires kind in Kinds && kind != "IMAGE"
    ensures r.0.TypeName() == kind && r.0.Procedural() && r.0.size == size && InRange(r.0)
    ensures r.1 == c.Skip(DrawCount(kind))
  {
    match kind
    case "CLOUDS" => SampleClouds(c, size)
    case "DISTORTED_NOISE" => SampleDistortedNoise(c, size)
    case "MAGIC" => SampleMagic(c, size)
    case "MARBLE" => SampleMarble(c, size)
    case "MUSGRAVE" => SampleMusgrave(c, size)
    case "STUCCI" => SampleStucci(c, size)
    case "VORONOI" => SampleVoronoi(c, size)
    case "WOOD" => SampleWood(c, size)
  }

  /** A texture's evaluation at a point: its components (a foreign Blender call). */
  type Evaluator = (int, int, int) -> seq<real>

  /** The evaluations at (i, 0, 0), ..., (i, n - 1, 0). */
  function Row(evaluate: Evaluator, i: int, n: int): seq<seq<real>>
    decreases Count(n)
  {
    if n <= 0 then [] else Row(evaluate, i, n - 1) + [evaluate(i, n - 1, 0)]
  }

  /** The evaluations over the x-by-y grid, x-major and then y. */
  function Grid(evaluate: Evaluator, x: int, y: int): seq<seq<real>>
    decreases Count(x)
  {
    if x <= 0 then [] else Grid(evaluate, x - 1, y) + Row(evaluate, x - 1, y)
  }

  /** The concatenation of all component lists, in order. */
  function Flatten(ps: seq<seq<real>>): seq<real>
  {
    if |ps| == 0 then [] else Flatten(ps[..|ps| - 1]) + ps[|ps| - 1]
  }

  lemma {:induction false} RowAt(evaluate: Evaluator, i: int, n: int, j: int)
    requires 0 <= j < n
    ensures |Row(evaluate, i, n)| == n && Row(evaluate, i, n)[j] == evaluate(i, j, 0)
    decreases n
  {
    RowLength(evaluate, i, n - 1);
    if j < n - 1 {
      RowAt(evaluate, i, n - 1, j);
    }
  }

  lemma {:induction false} RowLength(evaluate: Evaluator, i: int, n: int)
    ensures |Row(evaluate, i, n)| == Count(n)
    decreases Count(n)
  {
    if n > 0 {
      RowLength(evaluate, i, n - 1);
    }
  }

  lemma {:induction false} GridLength(evaluate: Evaluator, x: int, y: int)
    ensures |Grid(evaluate, x, y)| == Count(x) * Count(y)
    decreases Count(x)
  {
    if x > 0 {
      GridLength(evaluate, x - 1, y);
      RowLength(evaluate, x - 1, y);
      assert (x - 1) * Count(y) + Count(y) == x * Count(y);
    }
  }

  /** Grid position `i * y + j` holds the evaluation at (i, j, 0). */
  lemma {:induction false} GridAt(evaluate: Evaluator, x: int, y: int, i: int, j: int)
    requires 0 <= i < x && 0 <= j < y
    ensures i * y + j < |Grid(evaluate, x, y)|
    ensures Grid(evaluate, x, y)[i * y + j] == evaluate(i, j, 0)
    decreases x
  {
    var g := Grid(evaluate, x - 1, y);
    GridLength(evaluate, x - 1, y);
    RowAt(evaluate, x - 1, y, j);
    assert |g| == (x - 1) * y;
    if i < x - 1 {
      GridAt(evaluate, x - 1, y, i, j);
    } else {
      assert i * y == (x - 1) * y;
    }
  }

  /** Evaluations of `k` components each make a row of such lists. */
  lemma {:induction false} RowComponents(evaluate: Evaluator, i: int, n: int, k: nat)
    requires forall b :: 0 <= b < n ==> |evaluate(i, b, 0)| == k
    ensures forall l :: 0 <= l < |Row(evaluate, i, n)| ==> |Row(evaluate, i, n)[l]| == k
    decreases Count(n)
  {
    if n > 0 {
      RowComponents(evaluate, i, n - 1, k);
    }
  }

  /** Evaluations of `k` components each make a grid of such lists. */
  lemma {:induction false} GridComponents(evaluate: Evaluator, x: int, y: int, k: nat)
    requires forall a, b :: 0 <= a < x && 0 <= b < y ==> |evaluate(a, b, 0)| == k
    ensures forall l :: 0 <= l < |Grid(evaluate, x, y)| ==> |Grid(evaluate, x, y)[l]| == k
    decreases Count(x)
  {
    if x > 0 {
      GridComponents(evaluate, x - 1, y, k);
      RowComponents(evaluate, x - 1, y, k);
    }
  }

  lemma {:induction false} FlattenLength(ps: seq<seq<real>>, k: nat)
    requires forall n :: 0 <= n < |ps| ==> |ps[n]| == k
    ensures |Flatten(ps)| == |ps| * k
  {
    if |ps| > 0 {
      FlattenLength(ps[..|ps| - 1], k);
      assert (|ps| - 1) * k + k == |ps| * k;
    }
  }

  /** Flattening lists of `k` components each puts component `m` of list `n` at `n * k + m`. */
  lemma {:induction false} FlattenAt(ps: seq<seq<real>>, k: nat, n: int, m: int)
    requires forall l :: 0 <= l < |ps| ==> |ps[l]| == k
    requires 0 <= n < |ps| && 0 <= m < k
    ensures n * k + m < |Flatten(ps)| && Flatten(ps)[n * k + m] == ps[n][m]
  {
    var init := ps[..|ps| - 1];
    FlattenLength(init, k);
    FlattenLength(ps, k);
    if n < |ps| - 1 {
      FlattenAt(init, k, n, m);
      assert init[n] == ps[n];
    } else {
      assert n * k == |Flatten(init)|;
    }
  }

  /**
   * `texture_pixels(texture, x, y)`: evaluate the texture at every (i, j, 0),
   * x-major and then y, and concatenate the components of the evaluations.
   */
  method TexturePixels(evaluate: Evaluator, x: int, y: int) returns (finalPixels: seq<real>)
    ensures finalPixels == Flatten(Grid(evaluate, x, y))
  {
    var pixels: seq<seq<real>> := [];
    var i := 0;
    while i < x
      invariant 0 <= i <= Count(x)
      invariant pixels == Grid(evaluate, i, y)
    {
      var j := 0;
      while j < y
        invariant 0 <= j <= Count(y)
        invariant pixels == Grid(evaluate, i, y) + Row(evaluate, i, j)
      {
        pixels := pixels + [evaluate(i, j, 0)];
        j := j + 1;
      }
      assert Row(evaluate, i, j) == Row(evaluate, i, y);
      i := i + 1;
    }
    assert Grid(evaluate, i, y) == Grid(evaluate, x, y);
    finalPixels := [];
    var n := 0;
    while n < |pixels|
      invariant n <= |pixels|
      invariant finalPixels == Flatten(pixels[..n])
    {
      var p := pixels[n];
      var m := 0;
      while m < |p|
        invariant m <= |p|
        invariant finalPixels == Flatten(pixels[..n]) + p[..m]
      {
        finalPixels := finalPixels + [p[m]];
        m := m + 1;
      }
      assert p[..m] == p;
      assert pixels[..n + 1][..n] == pixels[..n];
      n := n + 1;
    }
    assert pixels[..n] == pixels;
  }

  /**
   * When every evaluation has `k` components, the flattened output has
   * `x * y * k` values and component `m` of the evaluation at (i, j, 0)
   * sits at position `(i * y + j) * k + m`.
   */
  lemma PixelsLayout(evaluate: Evaluator, x: int, y: int, k: nat, i: int, j: int, m: int)
    requires forall a, b :: 0 <= a < x && 0 <= b < y ==> |evaluate(a, b, 0)| == k
    requires 0 <= i < x && 0 <= j < y && 0 <= m < k
    ensures |Flatten(Grid(evaluate, x, y))| == x * y * k
    ensures (i * y + j) * k + m < |Flatten(Grid(evaluate, x, y))|
    ensures Flatten(Grid(evaluate, x, y))[(i * y + j) * k + m] == evaluate(i, j, 0)[m]
  {
    var g := Grid(evaluate, x, y);
    GridLength(evaluate, x, y);
    GridComponents(evaluate, x, y, k);
    FlattenLength(g, k);
    GridAt(evaluate, x, y, i, j);
    FlattenAt(g, k, i * y + j, m);
  }
}
