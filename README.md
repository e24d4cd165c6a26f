# renderstim scene-latent sampler in Dafny

renderstim builds image datasets from randomly sampled 3-D scenes. Before
anything is rendered, `latent_dataset` turns the dataset parameters into a
list of per-scene "latents" dicts. Each dict holds:

- the seed;
- copies of the camera and floor settings;
- an HDRI or floor world with its material and texture;
- the sun or HDRI lighting;
- parallel per-object arrays: shapes, scales, rotation angles and axes,
  quaternions, textures and materials.

This project models that sampler and the attribute samplers it calls, and
proves what they promise.

Modules:

- `Wrappers` (wrappers.dfy): `Option` and `Result`. A `Result` is either the
  value a Python call returns or the exception it raises.
- `Ranges` (ranges.dfy): the iteration count of Python's `range(n)`,
  shared by the loops of `Textures` and `Utils`.
- `Random` (random.dfy): the random generator as an abstract deterministic
  stream.
  - A `Source` maps (seed, position) to a number in [0, 1).
  - `Cursor` is the value view, with pure `Uniform`, `RandInt`, `Choice` and
    `Skip`.
  - The class `Rng` holds the seed and the position. Its methods `Uniform`,
    `RandInt`, `Choice`, their size-`n` forms and the seeding constructor
    are specified by the `Cursor` functions.
  - `SampleDistinct` is `choice(bound, size=n, replace=False)`: Floyd's
    sampling followed by a Fisher–Yates `Shuffle`, with numpy's two
    ValueErrors.
- `Textures` (textures.dfy): `get_texture` and `texture_pixels`.
  - `GetTexture` is a pure function from a cursor to the texture record and
    the advanced cursor, with one sampler per procedural kind.
  - `TexturePixels` is the nested-loop flattening, proved equal to
    `Flatten(Grid(...))`. Lemmas give that function's length and layout.
- `Materials` (materials.dfy): `get_material`, a loop over the seven
  material keys filling a map. The loop is specified by `Filled`, and
  lemmas give the map's keys and values.
- `Utils` (utils.dfy):
  - `get_quaternion`;
  - `resample_while`, the trial loop with for/else;
  - the dtype, range and channel decisions `write_png` makes before writing.
- `Dataset` (dataset.dfy): `latent_dataset`.
  - Validation is an ordered check with an if-and-only-if contract.
  - Seeds are drawn from an entropy generator.
  - Each scene gets a fresh generator seeded with its seed. Its world,
    light and objects are sampled in the source's order.
  - Drawing from an empty HDRI, image or GSO list raises numpy's
    ValueError, in the order the scene reaches those draws.
  - The caller's `sun_position` is an `array<real>`. Every sun-lit scene
    holds that same array, and each scene overwrites its x and y in place.

Outside calls are parameters:

- numpy's bit generators (the `Source`);
- kubric's `sample_color`, together with the number of draws it makes;
- `texture.evaluate`;
- `sin` and `cos`;
- the asset catalogs: GSO ids, HDRI ids, and object and background images.

## Model

| member | source | states |
|---|---|---|
| Random.Cursor.Uniform | renderstim/latents/dataset.py:200-204 | `uniform(lo, hi)` lies in [lo, hi) and consumes one position of the stream |
| Random.Cursor.RandInt | renderstim/latents/dataset.py:247 | `randint(lo, hi)` lies in [lo, hi), with the upper bound exclusive, and consumes one position |
| Random.Cursor.Choice | renderstim/latents/dataset.py:185 | `choice(s)` of a non-empty list is an element of it and consumes one position |
| Random.Rng.constructor | renderstim/latents/dataset.py:157 | `RandomState(seed)` starts the stream of `seed` at position 0 |
| Random.Rng.Advance | renderstim/latents/dataset.py:184-186 | catches the generator up with draws a pure sampler made from its state |
| Random.Rng.Uniform | renderstim/latents/dataset.py:200-204 | the drawn value lies in [lo, hi) and the generator moves exactly as `Cursor.Uniform` says |
| Random.Rng.RandInt | renderstim/latents/dataset.py:247 | the drawn integer lies in [lo, hi) and the generator moves as `Cursor.RandInt` says |
| Random.Rng.Choice | renderstim/latents/hdri.py:10 | the chosen element is in the list and the generator moves as `Cursor.Choice` says |
| Random.Rng.UniformN | renderstim/latents/dataset.py:255 | `uniform(lo, hi, size=n)`: n values, each in [lo, hi), value i being draw i of the stream, n positions consumed |
| Random.Rng.ChoiceN | renderstim/latents/dataset.py:254 | `choice(s, size=n)`: n elements of s, element i being draw i, n positions consumed |
| Random.Rng.SampleDistinct | renderstim/latents/dataset.py:150-151 | `choice(bound, size=n, replace=False)`: negative n and n > bound raise ValueError without drawing; otherwise n pairwise-distinct integers in [0, bound) |
| Random.Rng.Shuffle | renderstim/latents/dataset.py:151 | the shuffled list is a permutation of the input and keeps distinctness and the range |
| Random.Scale | renderstim/latents/dataset.py:204 | scaling a unit draw to [lo, hi) stays in [lo, hi) |
| Random.ScaleInt | renderstim/latents/dataset.py:247 | scaling a unit draw to the integers lo .. hi - 1 stays in that range |
| Textures.SampleClouds | renderstim/latents/.ipynb_checkpoints/textures-checkpoint.py:12-28 | a CLOUDS record with every parameter in its range and basis from its list; 4 draws |
| Textures.SampleDistortedNoise | renderstim/latents/.ipynb_checkpoints/textures-checkpoint.py:29-46 | a DISTORTED_NOISE record within its ranges and lists; 5 draws |
| Textures.SampleMagic | renderstim/latents/.ipynb_checkpoints/textures-checkpoint.py:47-54 | a MAGIC record with noise depth in [0,5) and turbulence in [5,10); 2 draws |
| Textures.SampleMarble | renderstim/latents/.ipynb_checkpoints/textures-checkpoint.py:55-71 | a MARBLE record within its ranges and lists; 6 draws |
| Textures.SampleMusgrave | renderstim/latents/.ipynb_checkpoints/textures-checkpoint.py:72-100 | a MUSGRAVE record within its ranges and lists, with offset 1; 9 draws |
| Textures.SampleStucci | renderstim/latents/.ipynb_checkpoints/textures-checkpoint.py:101-124 | a STUCCI record within its ranges, with noise type HARD_NOISE; 4 draws |
| Textures.SampleVoronoi | renderstim/latents/.ipynb_checkpoints/textures-checkpoint.py:125-144 | a VORONOI record within its ranges, with color mode INTENSITY; 4 draws |
| Textures.SampleWood | renderstim/latents/.ipynb_checkpoints/textures-checkpoint.py:145-161 | a WOOD record within its ranges, with wood type BANDNOISE; 4 draws |
| Textures.GetTexture | renderstim/latents/.ipynb_checkpoints/textures-checkpoint.py:7-168 | the type is the requested kind for the nine named kinds and NONE (exactly `{'type': 'NONE'}`) otherwise; IMAGE has only the keys type and image_path, with the path from object plus background images; procedural kinds carry size 3192 for a background, 256 otherwise; every field in range; the draws consumed per kind |
| Textures.SampleProcedural | renderstim/latents/.ipynb_checkpoints/textures-checkpoint.py:12-161 | a procedural kind's record has that type, the given size, every field in range, and consumes that kind's number of draws |
| Textures.RowAt | renderstim/latents/.ipynb_checkpoints/textures-checkpoint.py:172-174 | the j-th evaluation of row i is the one at (i, j, 0) |
| Textures.RowLength | renderstim/latents/.ipynb_checkpoints/textures-checkpoint.py:173-174 | a row has as many evaluations as `range(y)` has elements |
| Textures.GridLength | renderstim/latents/.ipynb_checkpoints/textures-checkpoint.py:172-174 | the grid has x·y evaluations, none for a non-positive range |
| Textures.GridAt | renderstim/latents/.ipynb_checkpoints/textures-checkpoint.py:172-174 | evaluation i·y + j of the grid is the one at (i, j, 0): x-major, then y |
| Textures.RowComponents | renderstim/latents/.ipynb_checkpoints/textures-checkpoint.py:173-174 | evaluations of k components make a row of k-component lists |
| Textures.GridComponents | renderstim/latents/.ipynb_checkpoints/textures-checkpoint.py:172-174 | evaluations of k components make a grid of k-component lists |
| Textures.FlattenLength | renderstim/latents/.ipynb_checkpoints/textures-checkpoint.py:175-177 | flattening lists of k components gives k values per list |
| Textures.FlattenAt | renderstim/latents/.ipynb_checkpoints/textures-checkpoint.py:175-177 | component m of list n lands at n·k + m |
| Textures.TexturePixels | renderstim/latents/.ipynb_checkpoints/textures-checkpoint.py:170-179 | the output is the flattening of the x-major, then y, evaluation grid |
| Textures.PixelsLayout | renderstim/latents/.ipynb_checkpoints/textures-checkpoint.py:170-179 | with k components per evaluation the output has x·y·k values, component m of (i, j) at (i·y + j)·k + m |
| Materials.ScalarDraw | renderstim/latents/.ipynb_checkpoints/materials-checkpoint.py:18-19 | the draw for the i-th key is a uniform value in [0, 1) |
| Materials.KeysDistinct | renderstim/latents/.ipynb_checkpoints/materials-checkpoint.py:4-12 | the seven material keys are pairwise distinct |
| Materials.FilledKeys | renderstim/latents/.ipynb_checkpoints/materials-checkpoint.py:14-19 | after i keys the map holds exactly the first i keys |
| Materials.FilledValues | renderstim/latents/.ipynb_checkpoints/materials-checkpoint.py:14-19 | color holds the sampled color, and each later key holds its own uniform draw, one draw per key in list order |
| Materials.FilledOk | renderstim/latents/.ipynb_checkpoints/materials-checkpoint.py:4-19 | the full map has exactly the seven keys, a color under color and a [0, 1) scalar under every other key |
| Materials.GetMaterial | renderstim/latents/.ipynb_checkpoints/materials-checkpoint.py:3-20 | the material has exactly the seven keys; color is the second element of `sample_color("gray", rng)`; the six scalars are the next six uniform draws in key order; the generator ends after those draws |
| Utils.Upper | renderstim/latents/utils.py:81 | `upper()` keeps the length, leaves no lower-case ASCII letter and raises each lower-case letter by 32 |
| Utils.UpperAxis | renderstim/latents/utils.py:76-81 | an axis name upper-cases to a letter exactly when it is that letter in either case |
| Utils.GetQuaternion | renderstim/latents/utils.py:71-83 | Ok exactly for x, X, y, Y, z and Z, and KeyError of the upper-cased name otherwise; w is cos(angle/2), the chosen axis's component is sin(angle/2) and the two others are zero |
| Utils.QuaternionIsUnit | renderstim/latents/utils.py:82-83 | where sin² + cos² = 1 at half the angle the quaternion has norm 1 |
| Utils.ResampleWhile | renderstim/latents/utils.py:33-46 | every trial runs all samplers in order; the result is the first trial whose condition is false, all earlier trials satisfying it; RuntimeError exactly when all `max_trials` trials satisfy it, and with `max_trials` ≤ 0 no sampler runs |
| Utils.Max | renderstim/latents/utils.py:88 | `np.amax` is an element and bounds every element from above |
| Utils.Min | renderstim/latents/utils.py:94 | `np.amin` is an element and bounds every element from below |
| Utils.Quantize | renderstim/latents/utils.py:98 | a [0, 1] float times 65535, truncated, is an integer in [0, 65535] |
| Utils.QuantizeAll | renderstim/latents/utils.py:98 | `(data * 65535).astype(np.uint16)` on [0, 1] floats: one sample out per sample in, each an integer in [0, 65535] and the truncation of x·65535 (at most it, less than one below) |
| Utils.PadLength | renderstim/latents/utils.py:121-125 | padding two-channel data gives three samples per pixel |
| Utils.PadAt | renderstim/latents/utils.py:121-125 | padding keeps each pixel's two channels and adds a zero third channel |
| Utils.ProductOfThree | renderstim/latents/utils.py:108 | a 3-D shape holds height · width · channels elements |
| Utils.PreparePng | renderstim/latents/utils.py:86-125 | uint32/64 above 65535 and floats outside [0, 1] raise ValueError, and empty arrays raise it from the reduction; uint8/16 pass unchanged; other dtypes raise NotImplementedError; non-3-D data fails the assert; bitdepth 8 iff the final dtype is uint8; greyscale iff 1 channel, alpha iff 4; 2 channels padded with zeros; the writer gets height · width · channels samples, 3 channels after padding |
| Dataset.Validate | renderstim/latents/dataset.py:98-147 | the checks pass exactly when resolution has 2 entries, the spawn region has 2 entries of 3, the five 3-vectors have 3 entries, and friction and restitution lie in [0, 1] with both ends accepted; each check's error is returned exactly when every earlier check passed and it fails: resolution, spawn-region count, spawn-region entry, sun, camera position, look-at, floor scale, floor position, friction, restitution |
| Dataset.ModeError | renderstim/latents/dataset.py:168-264 | the seed-independent per-scene ValueErrors, each exactly when all earlier steps pass: an empty HDRI list, an empty image list for a realistic floor, a bad background type (only for a floor world), bad lighting, min > max at `randint` before the asset-source check, then a bad asset source |
| Dataset.ScenesOkAppend | renderstim/latents/dataset.py:293 | appending a good scene for the next seed keeps the list one good scene per seed |
| Dataset.ScenesSeeds | renderstim/latents/dataset.py:154-158 | scene i carries seed i |
| Dataset.SunShared | renderstim/latents/dataset.py:199-201 | with sun lighting every scene's sun position is the caller's list itself, so all scenes share one position |
| Dataset.DrawTexture | renderstim/latents/dataset.py:184-186 | `get_texture(rng.choice(TEXTURES), rng, background)` is well formed for its background and is procedural or NONE, never IMAGE |
| Dataset.SampleWorld | renderstim/latents/dataset.py:168-194 | HDRI world: an HDRI id from the catalog and no floor keys, or ValueError for an empty id list. Floor world as SampleFloor. The step fails exactly when the world is not ready and names the failure |
| Dataset.SampleFloor | renderstim/latents/dataset.py:173-194 | a valid background material, the given floor position and the background texture; ValueError for an empty image list (realistic) or an unknown background type |
| Dataset.DrawMaterial | renderstim/latents/dataset.py:177 | the background material has the seven material keys with valid values |
| Dataset.BackgroundTexture | renderstim/latents/dataset.py:183-194 | artificial: a texture of a kind from TEXTURES (never IMAGE); realistic: an IMAGE texture with a path from the image list, or ValueError when that list is empty; anything else: ValueError |
| Dataset.SampleLight | renderstim/latents/dataset.py:198-220 | sun: x and y of the shared list in [-1, 1), z unchanged, ambient in [0.4, 0.7); ambient_hdri: no sun and no ambient and the list untouched; otherwise ValueError |
| Dataset.Rotations | renderstim/latents/dataset.py:273-278 | one quaternion per object: w is cos(angle/2), the component on the object's axis (x, y or z) is sin(angle/2) and the other two are zero |
| Dataset.SampleObjects | renderstim/latents/dataset.py:253-290 | a bad asset source raises ValueError first; then a non-zero count of ids from an empty GSO list, which numpy tests before the sign; then a negative count; otherwise every array has num_objects entries: shapes and scales as SampleAssets, angles in [0, 2π), axes in x, y, z, the matching `get_quaternion` results, non-image textures and valid materials |
| Dataset.SampleAssets | renderstim/latents/dataset.py:253-264 | KuBasic shapes with scales in [0.6, 1.2) or GSO shapes with scales in [6, 10), n of each; ValueError for a bad source, for a non-zero n drawn from an empty GSO list (even a negative one), and otherwise for a negative n |
| Dataset.DrawTextures | renderstim/latents/dataset.py:281-287 | n object textures, each of a kind from TEXTURES with object size, never IMAGE |
| Dataset.DrawMaterials | renderstim/latents/dataset.py:290 | n object materials, each with the seven keys and valid values |
| Dataset.SampleScene | renderstim/latents/dataset.py:155-293 | the scene raises the parameters' mode error; otherwise it raises only the empty-GSO-list error (empty GSO list, with max_num_objects > 0 or min_num_objects < 0) or, with a non-empty source, a negative count (min_num_objects < 0), and succeeds when neither can happen; a successful scene has every key as the source sets it, with num_objects in [min, max]; the sun list changes only in x and y, and only when the scene gets past the world step with sun lighting |
| Dataset.SampleScenes | renderstim/latents/dataset.py:154-293 | one good scene per seed in seed order; with seeds, the mode error, else only a negative count or ids from an empty GSO list can raise, and nothing raises when neither can happen; with no seeds an empty list and no error; with sun lighting past the world step the shared list's x and y are draws in [-1, 1) and z is kept, even when a scene raises |
| Dataset.LatentDataset | renderstim/latents/dataset.py:41-295 | validation errors raise before any seed is drawn; seed-count errors; zero scenes returns an empty list with no mode error; otherwise the mode error, or only the count-dependent errors (an empty GSO list when the count range is not exactly 0, else a negative count); on success one good scene per distinct seed in [0, 2147483647), in seed order; once a scene passes the world step with sun lighting, the caller's list holds x and y in [-1, 1) and its z, whether or not a later step raises; otherwise the list is untouched |

## Left out

- Random number generation: numpy's `default_rng` (PCG64) and `RandomState` (Mersenne Twister) are abstract streams over reals, each draw taking one position. The draws are not bit-exact with numpy's. `SampleDistinct` returns distinct in-range seeds but not numpy's exact permutation.
- Floating point: draws and parameters are exact reals. Rounding that could make `uniform(lo, hi)` return `hi` is not modelled, nor is NaN in `write_png`. `np.pi` is the decimal float64 value.
- `sin`, `cos` and pyquaternion's normalisation of non-unit axes: trigonometry is uninterpreted. The three axes are already unit vectors, so the normalisation never applies.
- kubric's `sample_color("gray", rng)` is a parameter, together with the number of draws it makes. Its colour distribution is not part of this model.
- The asset catalogs come from file reads: `get_hdri_id`'s JSON manifest (renderstim/latents/hdri.py), `get_gso_ids`, and the texture directory globs at import time. They are a `Catalog` parameter.
- Empty catalogs are modelled as numpy raises on them. An empty HDRI list or image list raises ValueError whenever it is drawn from. An empty GSO list raises whenever the requested size is non-zero, a negative size included: numpy tests for an empty population before the sign of the size. `choice(GSO_IDS, size=0)` returns an empty array.
- `texture.evaluate` is a Blender call. It is the `Evaluator` parameter of `TexturePixels`.
- `write_png`'s `png.Writer` is a foreign call whose own checks are not modelled: it rejects a zero width or height, so an empty uint8 or uint16 array raises there while `PreparePng` returns a plan. `reshape(height, -1)` and the file write are I/O and are not modelled. Array elements are reals, so the integer nature of uint data is not checked. The padded samples stay flat in row-major order.
- Utils.Upper: only ASCII letters are upper-cased. Python's full Unicode case mapping is not modelled.
- Utils.ResampleWhile: the mutable asset and the generator the samplers share are one value of a type parameter. Each sampler is a function from that value to its next state.
- `dataset_comment` is accepted and never used by the source, so `Params` has no such field. `velocity_range` is copied unchecked.
- Default arguments are not modelled: every parameter is passed explicitly. In Python the default `sun_position=[0.0, 0.0, 7.0]` is one list shared by every call that relies on it, so a later call also changes the sun position seen by scenes from an earlier call. The model shows this only when a caller passes the same array to both calls.
- Dataset.SampleScene ensures the ranges and sources of every object draw, not their exact values from the stream. The exact draw order is proved only within `GetMaterial`, `UniformN` and `ChoiceN`.
- Dataset.SampleScenes: like `SampleScene`, it ties each scene's draws to their ranges and sources, not to their exact positions in the stream.
- Dataset.LatentDataset: like `SampleScene`, it ties each scene's draws to their ranges and sources, not to their exact positions in the stream.
- numpy's int64 bounds on the arguments of `randint(min_num_objects, max_num_objects + 1)` are not modelled: the counts are unbounded integers, so arguments outside int64 never raise here.
- Textures.GetTexture requires a non-empty image list for the IMAGE kind, where `get_texture` would raise ValueError from `choice`. That raise is modelled by its caller `Dataset.BackgroundTexture` as `EmptyImageCatalog`, and object textures never draw IMAGE.
- Other list arguments (resolution, spawn region, camera and floor vectors) are shared by reference in Python too. Nothing mutates them, so they are values here. Only `sun_position`, which is mutated, is an array.
- The scene dict's keys are datatype fields. The HDRI world and the floor world are two variants of `World`, so "no bg_material key" is the absence of the field.
- `apply_texture`, the render generator, the DataJoint schema and the notebooks are not part of this model.
