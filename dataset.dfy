/**
 * `latent_dataset` of renderstim/latents/dataset: validates the dataset
 * parameters, draws one distinct seed per scene and samples each scene's
 * latents (world, lighting, camera copies and the per-object arrays) from a
 * generator seeded with that scene's seed.
 */
module Dataset {
  import opened Wrappers
  import opened Random
  import opened Textures
  import opened Materials
  import Utils

  /** `KUBASIC_IDS`: the ten KuBasic shapes. */
  const KubasicIds: seq<string> := ["cube", "cylinder", "sphere", "cone", "torus", "gear",
                                    "torus_knot", "sponge", "spot", "suzanne"]

  /** `TEXTURES`: the kinds drawn for artificial backgrounds and for objects ('IMAGE' is not among them). */
  const TextureKinds: seq<string> := ["NONE", "CLOUDS", "DISTORTED_NOISE", "MAGIC", "MARBLE",
                                      "MUSGRAVE", "STUCCI", "VORONOI", "WOOD"]

  /** Seeds are drawn without replacement from range(SeedBound). */
  const SeedBound: nat := 2147483647

  /** The float64 value of `np.pi`. */
  const Pi: real := 3.141592653589793

  const Axes: seq<string> := ["x", "y", "z"]

  /** The arguments of `latent_dataset`, except `sun_position` (the caller's list, modelled as an array). */
  datatype Params = Params(
    numScenes: int,
    resolution: seq<int>,
    minNumObjects: int,
    maxNumObjects: int,
    spawnRegion: seq<seq<real>>,
    lighting: string,
    hdriWorld: bool,
    cameraPosition: seq<real>,
    cameraLookAt: seq<real>,
    cameraFocalLength: real,
    cameraSensorWidth: real,
    floorScale: seq<real>,
    floorPosition: seq<real>,
    floorFriction: real,
    floorRestitution: real,
    backgroundType: string,
    assetSource: string,
    velocityRange: seq<seq<real>>)

  /** The asset lists read from manifests and directories: GSO ids, HDRI ids, object and background images. */
  datatype Catalog = Catalog(gsoIds: seq<string>, hdriIds: seq<string>,
                             objTextures: seq<string>, bgTextures: seq<string>)

  /** Every ValueError `latent_dataset` raises, one constructor per reason. */
  datatype DatasetError =
    | BadResolution
    | BadSpawnRegion
    | BadSpawnRegionEntry
    | BadSunPosition
    | BadCameraPosition
    | BadCameraLookAt
    | BadFloorScale
    | BadFloorPosition
    | BadFriction
    | BadRestitution
    | NegativeSceneCount      // `choice` with a negative size
    | TooManyScenes           // `choice` without replacement larger than the population
    | InvalidBackgroundType
    | InvalidLighting
    | EmptyObjectRange        // `randint(min, max + 1)` with min > max
    | NegativeObjectCount     // `choice` with a negative number of objects
    | InvalidAssetSource
    | EmptyHdriCatalog        // `choice` from an empty HDRI id list
    | EmptyImageCatalog       // `choice` from an empty texture image list
    | EmptyGsoCatalog         // `choice` of a non-zero number of ids from an empty GSO id list

  /** The world of a scene: an HDRI environment, or a floor with its own material and texture. */
  datatype World =
    | HdriWorld(hdriId: string)
    | FloorWorld(bgMaterial: Material, floorPosition: seq<real>, bgTexture: Texture)

  /** The light of a scene; a sun light holds the caller's `sun_position` list itself. */
  datatype Light = SunLight(sunPosition: array<real>, ambientIllumination: real) | AmbientHdri

  /** The per-object arrays, index k describing object k. */
  datatype Objects = Objects(
    shapes: seq<string>,
    scales: seq<real>,
    angles: seq<real>,
    axes: seq<string>,
    quaternions: seq<Utils.Quaternion>,
    textures: seq<Texture>,
    materials: seq<Material>)

  /** One scene's latents dict. */
  datatype Scene = Scene(
    seed: int,
    resolution: seq<int>,
    spawnRegion: seq<seq<real>>,
    hdriWorld: bool,
    world: World,
    lighting: string,
    light: Light,
    cameraPosition: seq<real>,
    cameraLookAt: seq<real>,
    cameraFocalLength: real,
    cameraSensorWidth: real,
    floorScale: seq<real>,
    floorFriction: real,
    floorRestitution: real,
    velocityRange: seq<seq<real>>,
    numObjects: int,
    assetSource: string,
    objects: Objects)

  // ---------------------------------------------------------------- checks

  /** A friction or restitution coefficient the validation accepts. */
  predicate UnitClosed(x: real)
  {
    0.0 <= x <= 1.0
  }

  /** The resolution and spawn-region checks pass. */
  predicate SpawnOk(p: Params)
  {
    |p.resolution| == 2 && |p.spawnRegion| == 2 && |p.spawnRegion[0]| == 3 && |p.spawnRegion[1]| == 3
  }

  /** All the length checks pass. */
  predicate ShapesOk(p: Params, sunLength: int)
  {
    SpawnOk(p) && sunLength == 3 && |p.cameraPosition| == 3 && |p.cameraLookAt| == 3 &&
    |p.floorScale| == 3 && |p.floorPosition| == 3
  }

  /**
   * The argument checks, in the order they run; `sunLength` is the length
   * of the caller's `sun_position`. The result names the first failure.
   */
  function Validate(p: Params, sunLength: int): (r: Option<DatasetError>)
    ensures r.None? <==> ShapesOk(p, sunLength) && UnitClosed(p.floorFriction) && UnitClosed(p.floorRestitution)
    ensures |p.resolution| != 2 ==> r == Some(BadResolution)
    ensures |p.resolution| == 2 && |p.spawnRegion| != 2 ==> r == Some(BadSpawnRegion)
    ensures |p.resolution| == 2 && |p.spawnRegion| == 2 && (|p.spawnRegion[0]| != 3 || |p.spawnRegion[1]| != 3) ==>
              r == Some(BadSpawnRegionEntry)
    ensures SpawnOk(p) && sunLength != 3 ==> r == Some(BadSunPosition)
    ensures SpawnOk(p) && sunLength == 3 && |p.cameraPosition| != 3 ==> r == Some(BadCameraPosition)
    ensures SpawnOk(p) && sunLength == 3 && |p.cameraPosition| == 3 && |p.cameraLookAt| != 3 ==>
              r == Some(BadCameraLookAt)
    ensures (SpawnOk(p) && sunLength == 3 && |p.cameraPosition| == 3 && |p.cameraLookAt| == 3 &&
             |p.floorScale| != 3) ==> r == Some(BadFloorScale)
    ensures (SpawnOk(p) && sunLength == 3 && |p.cameraPosition| == 3 && |p.cameraLookAt| == 3 &&
             |p.floorScale| == 3 && |p.floorPosition| != 3) ==> r == Some(BadFloorPosition)
    ensures r == Some(BadFriction) <==> ShapesOk(p, sunLength) && !UnitClosed(p.floorFriction)
    ensures r == Some(BadRestitution) <==>
              ShapesOk(p, sunLength) && UnitClosed(p.floorFriction) && !UnitClosed(p.floorRestitution)
  {
    if |p.resolution| != 2 then Some(BadResolution)
    else if |p.spawnRegion| != 2 then Some(BadSpawnRegion)
    else if exists sr :: sr in p.spawnRegion && |sr| != 3 then Some(BadSpawnRegionEntry)
    else if sunLength != 3 then Some(BadSunPosition)
    else if |p.cameraPosition| != 3 then Some(BadCameraPosition)
    else if |p.cameraLookAt| != 3 then Some(BadCameraLookAt)
    else if |p.floorScale| != 3 then Some(BadFloorScale)
    else if |p.floorPosition| != 3 then Some(BadFloorPosition)
    else if p.floorFriction > 1.0 || p.floorFriction < 0.0 then Some(BadFriction)
    else if p.floorRestitution > 1.0 || p.floorRestitution < 0.0 then Some(BadRestitution)
    else None
  }

  /** The background type is only looked at for a floor world. */
  predicate BackgroundOk(p: Params)
  {
    p.hdriWorld || p.backgroundType == "artificial" || p.backgroundType == "realistic"
  }

  /**
   * The world step succeeds: an HDRI world has ids to choose from, a floor
   * world has a known background type and, for a realistic one, images.
   */
  predicate WorldReady(p: Params, cat: Catalog)
  {
    (p.hdriWorld ==> |cat.hdriIds| > 0) &&
    (!p.hdriWorld ==> p.backgroundType == "artificial" ||
                      (p.backgroundType == "realistic" && |cat.objTextures + cat.bgTextures| > 0))
  }

  predicate LightingKnown(p: Params)
  {
    p.lighting == "sun" || p.lighting == "ambient_hdri"
  }

  predicate AssetSourceKnown(p: Params)
  {
    p.assetSource == "kubasic" || p.assetSource == "GSO"
  }

  /**
   * The error every scene raises, whatever its seed, in the order the scene
   * meets it: the world (an empty HDRI or image list, or an unknown
   * background type for a floor world), the lighting, the object-count range
   * and the asset source.
   */
  function ModeError(p: Params, cat: Catalog): (r: Option<DatasetError>)
    ensures r == Some(EmptyHdriCatalog) <==> p.hdriWorld && |cat.hdriIds| == 0
    ensures r == Some(EmptyImageCatalog) <==>
              !p.hdriWorld && p.backgroundType == "realistic" && |cat.objTextures + cat.bgTextures| == 0
    ensures r == Some(InvalidBackgroundType) <==> !BackgroundOk(p)
    ensures p.hdriWorld ==> r != Some(InvalidBackgroundType)
    ensures r == Some(InvalidLighting) <==> WorldReady(p, cat) && !LightingKnown(p)
    ensures r == Some(EmptyObjectRange) <==>
              WorldReady(p, cat) && LightingKnown(p) && p.minNumObjects > p.maxNumObjects
    ensures r == Some(InvalidAssetSource) <==>
              WorldReady(p, cat) && LightingKnown(p) && p.minNumObjects <= p.maxNumObjects && !AssetSourceKnown(p)
    ensures r.None? <==>
              WorldReady(p, cat) && LightingKnown(p) && p.minNumObjects <= p.maxNumObjects && AssetSourceKnown(p)
  {
    if p.hdriWorld && |cat.hdriIds| == 0 then Some(EmptyHdriCatalog)
    else if !p.hdriWorld && p.backgroundType == "realistic" && |cat.objTextures + cat.bgTextures| == 0 then
      Some(EmptyImageCatalog)
    else if !p.hdriWorld && p.backgroundType != "artificial" && p.backgroundType != "realistic" then
      Some(InvalidBackgroundType)
    else if p.lighting != "sun" && p.lighting != "ambient_hdri" then Some(InvalidLighting)
    else if p.minNumObjects > p.maxNumObjects then Some(EmptyObjectRange)
    else if p.assetSource != "kubasic" && p.assetSource != "GSO" then Some(InvalidAssetSource)
    else None
  }

  /** The objects' shapes are drawn from an empty GSO id list. */
  predicate GsoEmpty(p: Params, cat: Catalog)
  {
    p.assetSource == "GSO" && |cat.gsoIds| == 0
  }

  /**
   * The errors that depend on the drawn number of objects `n`: a non-zero
   * size from an empty GSO list (numpy tests this first), or a negative count.
   */
  predicate CountFails(p: Params, cat: Catalog, n: int)
  {
    (GsoEmpty(p, cat) && n != 0) || n < 0
  }

  // ---------------------------------------------------------------- what a scene satisfies

  /** A texture drawn by `get_texture(rng.choice(TEXTURES), rng, background)`: never an image. */
  predicate DrawnKindOk(t: Texture, background: bool, images: seq<string>)
  {
    WellFormed(t, background, images) && t.TypeName() in TextureKinds && (t.Procedural() || t == NoTexture)
  }

  predicate WorldOk(w: World, p: Params, cat: Catalog)
  {
    (p.hdriWorld <==> w.HdriWorld?) &&
    (w.HdriWorld? ==> w.hdriId in cat.hdriIds) &&
    (w.FloorWorld? ==>
       MaterialOk(w.bgMaterial) && w.floorPosition == p.floorPosition &&
       (p.backgroundType == "artificial" ==> DrawnKindOk(w.bgTexture, true, cat.objTextures + cat.bgTextures)) &&
       (p.backgroundType == "realistic" ==>
          w.bgTexture.Image? && w.bgTexture.imagePath in cat.objTextures + cat.bgTextures))
  }

  predicate LightOk(l: Light, p: Params, sun: array<real>)
  {
    (p.lighting == "sun" ==> l.SunLight? && l.sunPosition == sun && 0.4 <= l.ambientIllumination < 0.7) &&
    (p.lighting == "ambient_hdri" ==> l == AmbientHdri)
  }

  predicate ObjectsOk(o: Objects, n: int, p: Params, cat: Catalog, trig: Utils.Trig)
  {
    |o.shapes| == n && |o.scales| == n && |o.angles| == n && |o.axes| == n &&
    |o.quaternions| == n && |o.textures| == n && |o.materials| == n &&
    (p.assetSource == "kubasic" ==>
       forall k :: 0 <= k < n ==> o.shapes[k] in KubasicIds && 0.6 <= o.scales[k] < 1.2) &&
    (p.assetSource == "GSO" ==>
       forall k :: 0 <= k < n ==> o.shapes[k] in cat.gsoIds && 6.0 <= o.scales[k] < 10.0) &&
    (forall k :: 0 <= k < n ==> 0.0 <= o.angles[k] < 2.0 * Pi && o.axes[k] in Axes) &&
    (forall k :: 0 <= k < n ==> Utils.GetQuaternion(o.axes[k], o.angles[k], trig) == Ok(o.quaternions[k])) &&
    (forall k :: 0 <= k < n ==> DrawnKindOk(o.textures[k], false, cat.objTextures + cat.bgTextures)) &&
    (forall k :: 0 <= k < n ==> MaterialOk(o.materials[k]))
  }

  /** Everything the source promises about one scene built from `seed`. */
  predicate SceneOk(s: Scene, p: Params, sun: array<real>, cat: Catalog, trig: Utils.Trig, seed: int)
  {
    s.seed == seed && s.resolution == p.resolution && s.spawnRegion == p.spawnRegion &&
    s.hdriWorld == p.hdriWorld && WorldOk(s.world, p, cat) &&
    s.lighting == p.lighting && LightOk(s.light, p, sun) &&
    s.cameraPosition == p.cameraPosition && s.cameraLookAt == p.cameraLookAt &&
    s.cameraFocalLength == p.cameraFocalLength && s.cameraSensorWidth == p.cameraSensorWidth &&
    s.floorScale == p.floorScale && s.floorFriction == p.floorFriction &&
    s.floorRestitution == p.floorRestitution && s.velocityRange == p.velocityRange &&
    p.minNumObjects <= s.numObjects <= p.maxNumObjects && s.assetSource == p.assetSource &&
    ObjectsOk(s.objects, s.numObjects, p, cat, trig)
  }

  /** Whether a scene gets as far as overwriting the sun's x and y. */
  predicate SunDrawn(p: Params, cat: Catalog)
  {
    p.lighting == "sun" && WorldReady(p, cat)
  }

  /** The sun's x and y hold draws from [-1, 1) and its z is `z`. */
  predicate SunMoved(sun: array<real>, z: real)
    requires sun.Length == 3
    reads sun
  {
    -1.0 <= sun[0] < 1.0 && -1.0 <= sun[1] < 1.0 && sun[2] == z
  }

  function SeedsOf(scenes: seq<Scene>): (r: seq<int>)
    ensures |r| == |scenes| && forall i :: 0 <= i < |r| ==> r[i] == scenes[i].seed
  {
    seq(|scenes|, i requires 0 <= i < |scenes| => scenes[i].seed)
  }

  /** Scene i is a good scene for seed i. */
  predicate ScenesOk(scenes: seq<Scene>, p: Params, sun: array<real>, cat: Catalog, trig: Utils.Trig, seeds: seq<int>)
  {
    |scenes| == |seeds| && forall i :: 0 <= i < |scenes| ==> SceneOk(scenes[i], p, sun, cat, trig, seeds[i])
  }

  lemma ScenesOkAppend(scenes: seq<Scene>, s: Scene, p: Params, sun: array<real>, cat: Catalog, trig: Utils.Trig,
                       seeds: seq<int>, i: nat)
    requires i < |seeds| && ScenesOk(scenes, p, sun, cat, trig, seeds[..i])
    requires SceneOk(s, p, sun, cat, trig, seeds[i])
    ensures ScenesOk(scenes + [s], p, sun, cat, trig, seeds[..i + 1])
  {
  }

  /** Good scenes carry their seeds in order. */
  lemma ScenesSeeds(scenes: seq<Scene>, p: Params, sun: array<real>, cat: Catalog, trig: Utils.Trig, seeds: seq<int>)
    requires ScenesOk(scenes, p, sun, cat, trig, seeds)
    ensures SeedsOf(scenes) == seeds
  {
  }

  /**
   * With sun lighting every scene's sun position is the caller's list
   * itself, so every scene reads the same x, y and z as the caller.
   */
  lemma SunShared(scenes: seq<Scene>, p: Params, sun: array<real>, cat: Catalog,
                  trig: Utils.Trig, seeds: seq<int>)
    requires ScenesOk(scenes, p, sun, cat, trig, seeds) && p.lighting == "sun"
    ensures forall i :: 0 <= i < |scenes| ==> scenes[i].light.SunLight? && scenes[i].light.sunPosition == sun
    ensures forall i, j :: 0 <= i < |scenes| && 0 <= j < |scenes| ==>
              scenes[i].light.SunLight? && scenes[j].light.SunLight? &&
              scenes[i].light.sunPosition == scenes[j].light.sunPosition
  {
  }

  // ---------------------------------------------------------------- sampling

  /** A texture of a kind drawn from `TEXTURES`, as the background or an object. */
  method DrawTexture(rng: Rng, background: bool, cat: Catalog) returns (t: Texture)
    modifies rng
    ensures DrawnKindOk(t, background, cat.objTextures + cat.bgTextures)
    ensures Extends(old(rng.View()), rng.View())
  {
    var kind := rng.Choice(TextureKinds);
    var (texture, next) := GetTexture(kind, rng.View(), background, cat.objTextures, cat.bgTextures);
    rng.Advance(next);
    t := texture;
  }

  /**
   * The world step: an HDRI id for an HDRI world; otherwise the background
   * material, the floor position and a texture for the background type.
   */
  method SampleWorld(p: Params, cat: Catalog, rng: Rng, sampleColor: ColorSampler) returns (r: Result<World, DatasetError>)
    modifies rng
    ensures Extends(old(rng.View()), rng.View())
    ensures r.Err? <==> !WorldReady(p, cat)
    ensures p.hdriWorld && |cat.hdriIds| == 0 ==> r == Err(EmptyHdriCatalog)
    ensures !p.hdriWorld && p.backgroundType == "realistic" && |cat.objTextures + cat.bgTextures| == 0 ==>
              r == Err(EmptyImageCatalog)
    ensures !BackgroundOk(p) ==> r == Err(InvalidBackgroundType)
    ensures r.Ok? ==> WorldOk(r.value, p, cat)
  {
    if p.hdriWorld {
      if |cat.hdriIds| == 0 {
        return Err(EmptyHdriCatalog);
      }
      var id := rng.Choice(cat.hdriIds);
      return Ok(HdriWorld(id));
    }
    r := SampleFloor(p, cat, rng, sampleColor);
  }

  /** The floor world: the background material, the floor position and the background texture. */
  method SampleFloor(p: Params, cat: Catalog, rng: Rng, sampleColor: ColorSampler) returns (r: Result<World, DatasetError>)
    requires !p.hdriWorld
    modifies rng
    ensures Extends(old(rng.View()), rng.View())
    ensures r.Err? <==> !WorldReady(p, cat)
    ensures p.backgroundType == "realistic" && |cat.objTextures + cat.bgTextures| == 0 ==> r == Err(EmptyImageCatalog)
    ensures !BackgroundOk(p) ==> r == Err(InvalidBackgroundType)
    ensures r.Ok? ==> r.value.FloorWorld? && WorldOk(r.value, p, cat)
  {
    var material := DrawMaterial(rng, sampleColor);
    var texture := BackgroundTexture(p, cat, rng);
    if texture.Err? {
      return Err(texture.error);
    }
    r := Ok(FloorWorld(material, p.floorPosition, texture.value));
  }

  /** A material from `get_material(rng)`, seen only through its key and value promise. */
  method DrawMaterial(rng: Rng, sampleColor: ColorSampler) returns (m: Material)
    modifies rng
    ensures Extends(old(rng.View()), rng.View())
    ensures MaterialOk(m)
  {
    m := GetMaterial(rng, sampleColor);
  }

  /** The background texture: a kind from `TEXTURES` when artificial, an image when realistic. */
  method BackgroundTexture(p: Params, cat: Catalog, rng: Rng) returns (r: Result<Texture, DatasetError>)
    modifies rng
    ensures Extends(old(rng.View()), rng.View())
    ensures p.backgroundType == "artificial" ==> r.Ok? && DrawnKindOk(r.value, true, cat.objTextures + cat.bgTextures)
    ensures p.backgroundType == "realistic" ==>
              (r.Ok? <==> |cat.objTextures + cat.bgTextures| > 0) &&
              (r.Ok? ==> r.value.Image? && r.value.imagePath in cat.objTextures + cat.bgTextures) &&
              (r.Err? ==> r.error == EmptyImageCatalog)
    ensures p.backgroundType != "artificial" && p.backgroundType != "realistic" ==> r == Err(InvalidBackgroundType)
  {
    if p.backgroundType == "artificial" {
      var t := DrawTexture(rng, true, cat);
      r := Ok(t);
    } else if p.backgroundType == "realistic" {
      if |cat.objTextures + cat.bgTextures| == 0 {
        return Err(EmptyImageCatalog);
      }
      var (t, next) := GetTexture("IMAGE", rng.View(), true, cat.objTextures, cat.bgTextures);
      rng.Advance(next);
      r := Ok(t);
    } else {
      r := Err(InvalidBackgroundType);
    }
  }

  /** The lighting step: x and y of the shared sun position and the ambient level, or no sun at all. */
  method SampleLight(p: Params, sun: array<real>, rng: Rng) returns (r: Result<Light, DatasetError>)
    requires sun.Length == 3
    modifies rng, sun
    ensures r.Err? <==> !LightingKnown(p)
    ensures r.Err? ==> r.error == InvalidLighting
    ensures r.Ok? ==> LightOk(r.value, p, sun)
    ensures p.lighting == "sun" ==> SunMoved(sun, old(sun[2]))
    ensures p.lighting != "sun" ==> sun[..] == old(sun[..])
  {
    if p.lighting == "sun" {
      var x := rng.Uniform(-1.0, 1.0);
      sun[0] := x;
      var y := rng.Uniform(-1.0, 1.0);
      sun[1] := y;
      var ambient := rng.Uniform(0.4, 0.7);
      r := Ok(SunLight(sun, ambient));
    } else if p.lighting == "ambient_hdri" {
      r := Ok(AmbientHdri);
    } else {
      r := Err(InvalidLighting);
    }
  }

  /**
   * The quaternion of every object: w is the cosine of half its angle, the
   * component of its axis the sine of half its angle, the other two zero.
   */
  function Rotations(axes: seq<string>, angles: seq<real>, trig: Utils.Trig): (r: seq<Utils.Quaternion>)
    requires |axes| == |angles| && forall k :: 0 <= k < |axes| ==> axes[k] in Axes
    ensures |r| == |axes|
    ensures forall k :: 0 <= k < |r| ==> r[k].w == trig.cos(angles[k] / 2.0)
    ensures forall k :: 0 <= k < |r| && axes[k] == "x" ==>
              r[k].x == trig.sin(angles[k] / 2.0) && r[k].y == 0.0 && r[k].z == 0.0
    ensures forall k :: 0 <= k < |r| && axes[k] == "y" ==>
              r[k].y == trig.sin(angles[k] / 2.0) && r[k].x == 0.0 && r[k].z == 0.0
    ensures forall k :: 0 <= k < |r| && axes[k] == "z" ==>
              r[k].z == trig.sin(angles[k] / 2.0) && r[k].x == 0.0 && r[k].y == 0.0
  {
    seq(|axes|, k requires 0 <= k < |axes| && axes[k] in Axes => Utils.GetQuaternion(axes[k], angles[k], trig).value)
  }

  /**
   * The object step: shapes and scales by asset source, then angles, axes,
   * quaternions, textures and materials, one of each per object.
   */
  method SampleObjects(p: Params, n: int, cat: Catalog, rng: Rng, trig: Utils.Trig, sampleColor: ColorSampler)
    returns (r: Result<Objects, DatasetError>)
    modifies rng
    ensures Extends(old(rng.View()), rng.View())
    ensures !AssetSourceKnown(p) ==> r == Err(InvalidAssetSource)
    ensures AssetSourceKnown(p) && !GsoEmpty(p, cat) && n < 0 ==> r == Err(NegativeObjectCount)
    ensures GsoEmpty(p, cat) && n != 0 ==> r == Err(EmptyGsoCatalog)
    ensures r.Ok? <==> AssetSourceKnown(p) && !CountFails(p, cat, n)
    ensures r.Ok? ==> ObjectsOk(r.value, n, p, cat, trig)
  {
    var assets := SampleAssets(p, n, cat, rng);
    if assets.Err? {
      return Err(assets.error);
    }
    var (shapes, scales) := assets.value;
    var angles := rng.UniformN(0.0, 2.0 * Pi, n);
    var axes := rng.ChoiceN(Axes, n);
    var quaternions := Rotations(axes, angles, trig);
    assert forall k :: 0 <= k < n ==> Utils.GetQuaternion(axes[k], angles[k], trig) == Ok(quaternions[k]);
    var textures := DrawTextures(rng, n, cat);
    var materials := DrawMaterials(rng, n, sampleColor);
    r := Ok(Objects(shapes, scales, angles, axes, quaternions, textures, materials));
  }

  /** The shapes and scales of `n` objects from the asset source's ids and scale range. */
  method SampleAssets(p: Params, n: int, cat: Catalog, rng: Rng) returns (r: Result<(seq<string>, seq<real>), DatasetError>)
    modifies rng
    ensures Extends(old(rng.View()), rng.View())
    ensures !AssetSourceKnown(p) ==> r == Err(InvalidAssetSource)
    ensures AssetSourceKnown(p) && !GsoEmpty(p, cat) && n < 0 ==> r == Err(NegativeObjectCount)
    ensures GsoEmpty(p, cat) && n != 0 ==> r == Err(EmptyGsoCatalog)
    ensures r.Ok? <==> AssetSourceKnown(p) && !CountFails(p, cat, n)
    ensures r.Ok? ==> |r.value.0| == n && |r.value.1| == n
    ensures r.Ok? && p.assetSource == "kubasic" ==>
              forall k :: 0 <= k < n ==> r.value.0[k] in KubasicIds && 0.6 <= r.value.1[k] < 1.2
    ensures r.Ok? && p.assetSource == "GSO" ==>
              forall k :: 0 <= k < n ==> r.value.0[k] in cat.gsoIds && 6.0 <= r.value.1[k] < 10.0
  {
    if p.assetSource == "kubasic" {
      if n < 0 {
        return Err(NegativeObjectCount);
      }
      var shapes := rng.ChoiceN(KubasicIds, n);
      var scales := rng.UniformN(0.6, 1.2, n);
      r := Ok((shapes, scales));
    } else if p.assetSource == "GSO" {
      if |cat.gsoIds| == 0 && n != 0 {
        return Err(EmptyGsoCatalog);
      }
      if n < 0 {
        return Err(NegativeObjectCount);
      }
      var shapes := [];
      if |cat.gsoIds| > 0 {
        shapes := rng.ChoiceN(cat.gsoIds, n);
      }
      var scales := rng.UniformN(6.0, 10.0, n);
      r := Ok((shapes, scales));
    } else {
      r := Err(InvalidAssetSource);
    }
  }

  /** `[get_texture(rng.choice(TEXTURES), rng, False) for _ in range(n)]`. */
  method DrawTextures(rng: Rng, n: nat, cat: Catalog) returns (textures: seq<Texture>)
    modifies rng
    ensures Extends(old(rng.View()), rng.View())
    ensures |textures| == n
    ensures forall k :: 0 <= k < n ==> DrawnKindOk(textures[k], false, cat.objTextures + cat.bgTextures)
  {
    textures := [];
    while |textures| < n
      invariant |textures| <= n
      invariant Extends(old(rng.View()), rng.View())
      invariant forall k :: 0 <= k < |textures| ==> DrawnKindOk(textures[k], false, cat.objTextures + cat.bgTextures)
    {
      var t := DrawTexture(rng, false, cat);
      textures := textures + [t];
    }
  }

  /** `[get_material(rng) for _ in range(n)]`. */
  method DrawMaterials(rng: Rng, n: nat, sampleColor: ColorSampler) returns (materials: seq<Material>)
    modifies rng
    ensures Extends(old(rng.View()), rng.View())
    ensures |materials| == n
    ensures forall k :: 0 <= k < n ==> MaterialOk(materials[k])
  {
    materials := [];
    while |materials| < n
      invariant |materials| <= n
      invariant Extends(old(rng.View()), rng.View())
      invariant forall k :: 0 <= k < |materials| ==> MaterialOk(materials[k])
    {
      var m := DrawMaterial(rng, sampleColor);
      materials := materials + [m];
    }
  }

  /**
   * One scene: a generator seeded with `seed` (drawing from the Mersenne
   * Twister stream `mersenne`) fills its world, light, camera and floor
   * copies and objects, in that order.
   */
  method SampleScene(p: Params, sun: array<real>, cat: Catalog, seed: int, mersenne: Source,
                     trig: Utils.Trig, sampleColor: ColorSampler)
    returns (r: Result<Scene, DatasetError>)
    requires sun.Length == 3
    modifies sun
    ensures ModeError(p, cat).Some? ==> r == Err(ModeError(p, cat).value)
    ensures (ModeError(p, cat).None? && p.minNumObjects >= 0 &&
             (p.assetSource == "GSO" && p.maxNumObjects > 0 ==> |cat.gsoIds| > 0)) ==> r.Ok?
    ensures r.Err? && ModeError(p, cat).None? ==>
              (r.error == NegativeObjectCount && p.minNumObjects < 0 && !GsoEmpty(p, cat)) ||
              (r.error == EmptyGsoCatalog && GsoEmpty(p, cat) && (p.maxNumObjects > 0 || p.minNumObjects < 0))
    ensures r.Ok? ==> SceneOk(r.value, p, sun, cat, trig, seed)
    ensures SunDrawn(p, cat) ==> SunMoved(sun, old(sun[2]))
    ensures !SunDrawn(p, cat) ==> sun[..] == old(sun[..])
  {
    var rng := new Rng(mersenne, seed);
    var world := SampleWorld(p, cat, rng, sampleColor);
    if world.Err? {
      return Err(world.error);
    }
    var light := SampleLight(p, sun, rng);
    if light.Err? {
      return Err(light.error);
    }
    if p.minNumObjects >= p.maxNumObjects + 1 {
      return Err(EmptyObjectRange);
    }
    var n := rng.RandInt(p.minNumObjects, p.maxNumObjects + 1);
    var objects := SampleObjects(p, n, cat, rng, trig, sampleColor);
    if objects.Err? {
      return Err(objects.error);
    }
    r := Ok(Scene(seed, p.resolution, p.spawnRegion, p.hdriWorld, world.value, p.lighting, light.value,
                  p.cameraPosition, p.cameraLookAt, p.cameraFocalLength, p.cameraSensorWidth,
                  p.floorScale, p.floorFriction, p.floorRestitution, p.velocityRange,
                  n, p.assetSource, objects.value));
  }

  /**
   * `latent_dataset`: the argument checks, then `num_scenes` distinct seeds
   * drawn from `entropy`, then one scene per seed in seed order. Every scene
   * with a sun holds the caller's `sun` itself, so after the call they all
   * show the x and y the last scene drew.
   */
  method LatentDataset(p: Params, sun: array<real>, cat: Catalog, entropy: Rng, mersenne: Source,
                       trig: Utils.Trig, sampleColor: ColorSampler)
    returns (r: Result<seq<Scene>, DatasetError>)
    modifies entropy, sun
    ensures Validate(p, sun.Length).Some? ==>
              r == Err(Validate(p, sun.Length).value) && entropy.View() == old(entropy.View())
    ensures Validate(p, sun.Length).None? && p.numScenes < 0 ==> r == Err(NegativeSceneCount)
    ensures Validate(p, sun.Length).None? && p.numScenes > SeedBound ==> r == Err(TooManyScenes)
    ensures Validate(p, sun.Length).None? && p.numScenes == 0 ==> r == Ok([])
    ensures Validate(p, sun.Length).None? && 0 < p.numScenes <= SeedBound && ModeError(p, cat).Some? ==>
              r == Err(ModeError(p, cat).value)
    ensures (Validate(p, sun.Length).None? && 0 <= p.numScenes <= SeedBound && ModeError(p, cat).None? &&
             p.minNumObjects >= 0 && (p.assetSource == "GSO" && p.maxNumObjects > 0 ==> |cat.gsoIds| > 0)) ==> r.Ok?
    ensures (r.Err? && Validate(p, sun.Length).None? && 0 < p.numScenes <= SeedBound && ModeError(p, cat).None?) ==>
              (r.error == NegativeObjectCount && p.minNumObjects < 0 && !GsoEmpty(p, cat)) ||
              (r.error == EmptyGsoCatalog && GsoEmpty(p, cat) && (p.maxNumObjects > 0 || p.minNumObjects < 0))
    ensures r.Ok? ==> Validate(p, sun.Length).None? && |r.value| == p.numScenes
    ensures r.Ok? ==> Distinct(SeedsOf(r.value)) && Below(SeedsOf(r.value), SeedBound)
    ensures r.Ok? ==> ScenesOk(r.value, p, sun, cat, trig, SeedsOf(r.value))
    ensures (Validate(p, sun.Length).None? && 0 < p.numScenes <= SeedBound && SunDrawn(p, cat)) ==>
              SunMoved(sun, old(sun[2]))
    ensures r.Ok? && |r.value| > 0 && p.lighting == "sun" ==> SunMoved(sun, old(sun[2]))
    ensures !SunDrawn(p, cat) ==> sun[..] == old(sun[..])
    ensures Validate(p, sun.Length).Some? || p.numScenes <= 0 || p.numScenes > SeedBound ==> sun[..] == old(sun[..])
  {
    var invalid := Validate(p, sun.Length);
    if invalid.Some? {
      return Err(invalid.value);
    }
    var drawn := entropy.SampleDistinct(SeedBound, p.numScenes);
    if drawn.Err? {
      return Err(if drawn.error == NegativeSize then NegativeSceneCount else TooManyScenes);
    }
    var seeds := drawn.value;
    r := SampleScenes(p, sun, cat, seeds, mersenne, trig, sampleColor);
    if r.Ok? {
      ScenesSeeds(r.value, p, sun, cat, trig, seeds);
    }
  }

  /** The loop over the seeds: scene i from seed i, stopping at the first scene that raises. */
  method SampleScenes(p: Params, sun: array<real>, cat: Catalog, seeds: seq<int>, mersenne: Source,
                      trig: Utils.Trig, sampleColor: ColorSampler)
    returns (r: Result<seq<Scene>, DatasetError>)
    requires sun.Length == 3
    modifies sun
    ensures |seeds| == 0 ==> r == Ok([])
    ensures |seeds| > 0 && ModeError(p, cat).Some? ==> r == Err(ModeError(p, cat).value)
    ensures (ModeError(p, cat).None? && p.minNumObjects >= 0 &&
             (p.assetSource == "GSO" && p.maxNumObjects > 0 ==> |cat.gsoIds| > 0)) ==> r.Ok?
    ensures r.Err? && ModeError(p, cat).None? ==>
              (r.error == NegativeObjectCount && p.minNumObjects < 0 && !GsoEmpty(p, cat)) ||
              (r.error == EmptyGsoCatalog && GsoEmpty(p, cat) && (p.maxNumObjects > 0 || p.minNumObjects < 0))
    ensures r.Ok? ==> ScenesOk(r.value, p, sun, cat, trig, seeds)
    ensures |seeds| > 0 && SunDrawn(p, cat) ==> SunMoved(sun, old(sun[2]))
    ensures |seeds| == 0 || !SunDrawn(p, cat) ==> sun[..] == old(sun[..])
  {
    var scenes: seq<Scene> := [];
    while |scenes| < |seeds|
      invariant |scenes| <= |seeds|
      invariant ScenesOk(scenes, p, sun, cat, trig, seeds[..|scenes|])
      invariant |scenes| > 0 ==> ModeError(p, cat).None?
      invariant |scenes| > 0 && SunDrawn(p, cat) ==> SunMoved(sun, old(sun[2]))
      invariant |scenes| == 0 || !SunDrawn(p, cat) ==> sun[..] == old(sun[..])
    {
      var scene := SampleScene(p, sun, cat, seeds[|scenes|], mersenne, trig, sampleColor);
      if scene.Err? {
        return Err(scene.error);
      }
      ScenesOkAppend(scenes, scene.value, p, sun, cat, trig, seeds, |scenes|);
      scenes := scenes + [scene.value];
    }
    assert seeds[..|scenes|] == seeds;
    r := Ok(scenes);
  }
}
