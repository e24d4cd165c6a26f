/** Surface materials (renderstim/latents/materials): seven keyed entries drawn in order. */
module Materials {
  import opened Random

  /** A color as the foreign color sampler returns it. */
  datatype Color = Rgba(r: real, g: real, b: real, a: real)

  /**
   * `kb.randomness.sample_color(strategy, rng)`, foreign code: from the
   * generator's state, the (name, color) pair it returns and how many values
   * it draws.
   */
  type ColorSampler = (string, Cursor) -> ((string, Color), nat)

  datatype MaterialValue = ColorValue(color: Color) | Scalar(value: real)

  /** A material record: key to entry. */
  type Material = map<string, MaterialValue>

  /** The material keys, in the order the sampler fills them. */
  const MaterialKeys: seq<string> := ["color", "metallic", "specular", "specular_tint", "roughness",
                                      "transmission", "transmission_roughness"]

  /**
   * The sampler's promise about a record: exactly the seven keys, a color
   * under "color" and a real in [0, 1) under every other key.
   */
  predicate MaterialOk(m: Material)
  {
    && (forall k :: k in m ==> k in MaterialKeys)
    && (forall k :: k in MaterialKeys ==> k in m)
    && "color" in m && m["color"].ColorValue?
    && forall k :: k in m && k != "color" ==> m[k].Scalar? && 0.0 <= m[k].value < 1.0
  }

  /**
   * The value under the `i`-th key (i >= 1): one `uniform(0, 1)` draw, made
   * after the `used` values of the color sample and the `i - 1` earlier keys.
   */
  function ScalarDraw(start: Cursor, used: nat, i: nat): (r: real)
    requires i >= 1
    ensures 0.0 <= r < 1.0
  {
    start.Skip(used + i - 1).Uniform(0.0, 1.0).0
  }

  /** The record once the first `i` keys are filled, the color sample having yielded `color`. */
  function Filled(start: Cursor, color: Color, used: nat, i: nat): Material
    requires i <= |MaterialKeys|
  {
    if i == 0 then map[]
    else if i == 1 then map["color" := ColorValue(color)]
    else Filled(start, color, used, i - 1)[MaterialKeys[i - 1] := Scalar(ScalarDraw(start, used, i - 1))]
  }

  /** No key is listed twice. */
  lemma KeysDistinct()
    ensures forall a, b :: 0 <= a < b < |MaterialKeys| ==> MaterialKeys[a] != MaterialKeys[b]
  {
  }

  /** After `i` keys the record holds exactly the first `i` keys. */
  lemma {:induction false} FilledKeys(start: Cursor, color: Color, used: nat, i: nat)
    requires i <= |MaterialKeys|
    ensures forall k :: k in Filled(start, color, used, i) <==> k in MaterialKeys[..i]
  {
    if i > 1 {
      FilledKeys(start, color, used, i - 1);
      assert MaterialKeys[..i] == MaterialKeys[..i - 1] + [MaterialKeys[i - 1]];
    } else if i == 1 {
      assert MaterialKeys[..1] == ["color"];
    }
  }

  /** After `i` keys each filled key holds its own entry. */
  lemma {:induction false} FilledValues(start: Cursor, color: Color, used: nat, i: nat)
    requires i <= |MaterialKeys|
    ensures i >= 1 ==> "color" in Filled(start, color, used, i) && Filled(start, color, used, i)["color"] == ColorValue(color)
    ensures forall j :: 1 <= j < i ==>
              MaterialKeys[j] in Filled(start, color, used, i) &&
              Filled(start, color, used, i)[MaterialKeys[j]] == Scalar(ScalarDraw(start, used, j))
  {
    if i > 1 {
      FilledValues(start, color, used, i - 1);
      KeysDistinct();
    }
  }

  /** The filled record has the seven keys, the sampled color and a draw in [0, 1) per other key. */
  lemma FilledOk(start: Cursor, color: Color, used: nat)
    ensures MaterialOk(Filled(start, color, used, |MaterialKeys|))
    ensures Filled(start, color, used, |MaterialKeys|)["color"] == ColorValue(color)
    ensures forall j :: 1 <= j < |MaterialKeys| ==>
              Filled(start, color, used, |MaterialKeys|)[MaterialKeys[j]] == Scalar(ScalarDraw(start, used, j))
  {
    var m := Filled(start, color, used, |MaterialKeys|);
    FilledKeys(start, color, used, |MaterialKeys|);
    FilledValues(start, color, used, |MaterialKeys|);
    assert MaterialKeys[..|MaterialKeys|] == MaterialKeys;
    forall k | k in m && k != "color" ensures m[k].Scalar? && 0.0 <= m[k].value < 1.0 {
      var j :| 0 <= j < |MaterialKeys| && MaterialKeys[j] == k;
    }
  }

  /**
   * `get_material(rng)`: fill the keys in order; "color" takes the color of the
   * foreign gray-strategy sample, every other key one `uniform(0, 1)` draw.
   */
  method GetMaterial(rng: Rng, sampleColor: ColorSampler) returns (m: Material)
    modifies rng
    ensures MaterialOk(m)
    ensures m["color"] == ColorValue(sampleColor("gray", old(rng.View())).0.1)
    ensures forall i :: 1 <= i < |MaterialKeys| ==>
              m[MaterialKeys[i]] == Scalar(ScalarDraw(old(rng.View()), sampleColor("gray", old(rng.View())).1, i))
    ensures rng.View() == old(rng.View()).Skip(sampleColor("gray", old(rng.View())).1 + 6)
  {
    ghost var start := rng.View();
    ghost var used := sampleColor("gray", start).1;
    ghost var color := sampleColor("gray", start).0.1;
    m := map[];
    for i := 0 to |MaterialKeys|
      invariant m == Filled(start, color, used, i)
      invariant rng.View() == if i == 0 then start else start.Skip(used + i - 1)
    {
      var key := MaterialKeys[i];
      if key == "color" {
        var (sample, drawn) := sampleColor("gray", rng.View());
        rng.Advance(rng.View().Skip(drawn));
        m := m[key := ColorValue(sample.1)];
      } else {
        var x := rng.Uniform(0.0, 1.0);
        m := m[key := Scalar(x)];
      }
    }
    FilledOk(start, color, used);
  }
}
