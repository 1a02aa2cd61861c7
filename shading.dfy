/**
 * The per-frame material inputs of `Application.render` in src/index.ts: the
 * GUI albedo scaled from 0..255 to 0..1, and for each sphere a metallic value
 * equal to its x ratio and a roughness interpolated from its y ratio with
 * `mix`, clamped away from zero.
 *
 * The WebGL side of rendering (clearing, camera matrices, the draw call
 * itself) is not modelled: a draw is represented by the uniform values it
 * is issued with.
 */
module Shading {
  import opened RealArith
  import opened SphereGrid

  /** `mix(a, b, r)`: linear interpolation from `a` (at `r = 0`) to `b` (at `r = 1`). */
  function Mix(a: real, b: real, r: real): real {
    (1.0 - r) * a + r * b
  }

  /** `mix` hits both ends: `mix(a, b, 0) = a` and `mix(a, b, 1) = b`. */
  lemma MixEnds(a: real, b: real)
    ensures Mix(a, b, 0.0) == a && Mix(a, b, 1.0) == b
  {
  }

  /** For `a <= b` and `r` in [0, 1], `mix(a, b, r)` lies in [a, b]. */
  lemma MixBetween(a: real, b: real, r: real)
    requires a <= b && 0.0 <= r <= 1.0
    ensures a <= Mix(a, b, r) <= b
  {
    var d := b - a;
    assert Mix(a, b, r) == a + r * d;
    assert (1.0 - r) * d == d - r * d;
    NonNegativeProduct(r, d);
    NonNegativeProduct(1.0 - r, d);
  }

  /** For `a < b`, `mix(a, b, r)` strictly increases with `r`. */
  lemma MixIncreasing(a: real, b: real, r1: real, r2: real)
    requires a < b && r1 < r2
    ensures Mix(a, b, r1) < Mix(a, b, r2)
  {
    var d := b - a;
    assert Mix(a, b, r1) == a + r1 * d;
    assert Mix(a, b, r2) == a + r2 * d;
    PositiveProduct(r2 - r1, d);
    assert (r2 - r1) * d == r2 * d - r1 * d;
  }


  /** An RGB triple: the GUI's 0..255 colour, or the 0..1 albedo uniform. */
  datatype Rgb = Rgb(r: real, g: real, b: real)

  /** The colour the GUI starts with: white. */
  const GuiAlbedoDefault := Rgb(255.0, 255.0, 255.0)

  /** The albedo uniform: each GUI channel divided by 255. */
  function AlbedoUniform(gui: Rgb): (albedo: Rgb)
    ensures albedo.r * 255.0 == gui.r && albedo.g * 255.0 == gui.g && albedo.b * 255.0 == gui.b
  {
    Rgb(gui.r / 255.0, gui.g / 255.0, gui.b / 255.0)
  }

  /** A channel in [0, 255] gives a component in [0, 1]; 0 maps to 0 and 255 to 1. */
  lemma ChannelRange(c: real)
    requires 0.0 <= c <= 255.0
    ensures 0.0 <= c / 255.0 <= 1.0
    ensures c / 255.0 == 0.0 <==> c == 0.0
    ensures c / 255.0 == 1.0 <==> c == 255.0
  {
  }

  /** A GUI colour with channels in [0, 255] gives an albedo with components in [0, 1]. */
  lemma AlbedoRange(gui: Rgb)
    requires 0.0 <= gui.r <= 255.0 && 0.0 <= gui.g <= 255.0 && 0.0 <= gui.b <= 255.0
    ensures var albedo := AlbedoUniform(gui);
      0.0 <= albedo.r <= 1.0 && 0.0 <= albedo.g <= 1.0 && 0.0 <= albedo.b <= 1.0
  {
    ChannelRange(gui.r);
    ChannelRange(gui.g);
    ChannelRange(gui.b);
  }

  /** The default white GUI colour gives the albedo (1, 1, 1). */
  lemma DefaultAlbedo()
    ensures AlbedoUniform(GuiAlbedoDefault) == Rgb(1.0, 1.0, 1.0)
  {
  }

  /** The lowest roughness any sphere is drawn with. */
  const MinRoughness: real := 0.01

  datatype Material = Material(metallic: real, roughness: real)

  /** The material a sphere is drawn with: metallic from its x ratio, roughness mixed from its y ratio. */
  function SphereMaterial(s: SphereObject): (m: Material)
    ensures m.metallic == s.xRatio
    ensures m.roughness - MinRoughness == s.yRatio * (1.0 - MinRoughness)
  {
    Material(s.xRatio, Mix(MinRoughness, 1.0, s.yRatio))
  }

  /** Ratios in [0, 1] give a metallic value in [0, 1] and a roughness in [0.01, 1]. */
  lemma MaterialRange(s: SphereObject)
    requires 0.0 <= s.xRatio <= 1.0 && 0.0 <= s.yRatio <= 1.0
    ensures 0.0 <= SphereMaterial(s).metallic <= 1.0
    ensures MinRoughness <= SphereMaterial(s).roughness <= 1.0
  {
    MixBetween(MinRoughness, 1.0, s.yRatio);
  }

  /**
   * Over a generated grid, metallic goes from 0 on the first column to 1 on
   * the last one and increases along every row, while roughness goes from
   * 0.01 on the first row to 1 on the last one and increases down every column.
   */
  lemma GridMaterials(p: SphereGenProperties, x: nat, y: nat)
    requires Divisible(p) && x < p.colCount && y < p.rowCount
    ensures 0.0 <= SphereMaterial(SphereAt(p, x, y)).metallic <= 1.0
    ensures MinRoughness <= SphereMaterial(SphereAt(p, x, y)).roughness <= 1.0
    ensures SphereMaterial(SphereAt(p, x, y)).metallic == 0.0 <==> x == 0
    ensures SphereMaterial(SphereAt(p, x, y)).metallic == 1.0 <==> x == p.colCount - 1
    ensures SphereMaterial(SphereAt(p, x, y)).roughness == MinRoughness <==> y == 0
    ensures SphereMaterial(SphereAt(p, x, y)).roughness == 1.0 <==> y == p.rowCount - 1
    ensures x + 1 < p.colCount ==>
      SphereMaterial(SphereAt(p, x, y)).metallic < SphereMaterial(SphereAt(p, x + 1, y)).metallic
    ensures y + 1 < p.rowCount ==>
      SphereMaterial(SphereAt(p, x, y)).roughness < SphereMaterial(SphereAt(p, x, y + 1)).roughness
  {
    var s := SphereAt(p, x, y);
    CellRatios(p, x, y);
    MaterialRange(s);
    if x + 1 < p.colCount {
      AlongRow(p, y, x, x + 1);
    }
    if y + 1 < p.rowCount {
      DownColumn(p, x, y, y + 1);
      MixIncreasing(MinRoughness, 1.0, s.yRatio, SphereAt(p, x, y + 1).yRatio);
    }
  }

  /** The uniforms one draw call is issued with. */
  datatype DrawUniforms = DrawUniforms(albedo: Rgb, material: Material, posX: real, posY: real)

  /**
   * The sphere loop of `render`: the albedo uniform is set once from the GUI
   * colour, then for each sphere, in order, its transform and material are
   * set and a draw is issued.
   */
  method Render(spheres: seq<SphereObject>, gui: Rgb) returns (draws: seq<DrawUniforms>)
    ensures |draws| == |spheres|
    ensures forall i :: 0 <= i < |spheres| ==>
      draws[i] == DrawUniforms(AlbedoUniform(gui), SphereMaterial(spheres[i]), spheres[i].posX, spheres[i].posY)
  {
    var albedo := Rgb(gui.r / 255.0, gui.g / 255.0, gui.b / 255.0);
    draws := [];
    for i := 0 to |spheres|
      invariant |draws| == i
      invariant forall k :: 0 <= k < i ==>
        draws[k] == DrawUniforms(AlbedoUniform(gui), SphereMaterial(spheres[k]), spheres[k].posX, spheres[k].posY)
    {
      var sphere := spheres[i];
      var metallic := sphere.xRatio;
      var roughness := Mix(0.01, 1.0, sphere.yRatio);
      draws := draws + [DrawUniforms(albedo, Material(metallic, roughness), sphere.posX, sphere.posY)];
    }
  }

  /**
   * Drawing a generated grid with a GUI colour in [0, 255]^3: one draw per
   * sphere, every albedo component in [0, 1], every metallic value in [0, 1]
   * and every roughness in [0.01, 1].
   */
  lemma RenderedGridRanges(p: SphereGenProperties, gui: Rgb, draws: seq<DrawUniforms>, k: nat)
    requires Divisible(p)
    requires 0.0 <= gui.r <= 255.0 && 0.0 <= gui.g <= 255.0 && 0.0 <= gui.b <= 255.0
    requires |draws| == |Grid(p)|
    requires forall i :: 0 <= i < |draws| ==>
      draws[i] == DrawUniforms(AlbedoUniform(gui), SphereMaterial(Grid(p)[i]), Grid(p)[i].posX, Grid(p)[i].posY)
    requires k < |draws|
    ensures 0.0 <= draws[k].albedo.r <= 1.0 && 0.0 <= draws[k].albedo.g <= 1.0 && 0.0 <= draws[k].albedo.b <= 1.0
    ensures 0.0 <= draws[k].material.metallic <= 1.0
    ensures MinRoughness <= draws[k].material.roughness <= 1.0
  {
    AlbedoRange(gui);
    GridIndex(p, k);
    GridMaterials(p, k % p.colCount, k / p.colCount);
  }

  /**
   * One frame of the application: the spheres generated at start-up from the
   * default layout, drawn with the GUI colour `gui`. There are 25 draws; the
   * first sphere is drawn fully dielectric and smoothest, the last fully
   * metallic and roughest; a GUI colour in [0, 255]^3 gives an albedo in [0, 1]^3.
   */
  method DefaultFrame(gui: Rgb) returns (draws: seq<DrawUniforms>)
    ensures |draws| == 25
    ensures draws[0].material == Material(0.0, MinRoughness)
    ensures draws[24].material == Material(1.0, 1.0)
    ensures forall k :: 0 <= k < 25 ==>
      0.0 <= draws[k].material.metallic <= 1.0 && MinRoughness <= draws[k].material.roughness <= 1.0
    ensures 0.0 <= gui.r <= 255.0 && 0.0 <= gui.g <= 255.0 && 0.0 <= gui.b <= 255.0 ==>
      forall k :: 0 <= k < 25 ==>
        0.0 <= draws[k].albedo.r <= 1.0 && 0.0 <= draws[k].albedo.g <= 1.0 && 0.0 <= draws[k].albedo.b <= 1.0
  {
    var spheres := GenSpheres(SphereGenDefaults);
    draws := Render(spheres, gui);
    DefaultGrid();
    forall k | 0 <= k < 25
      ensures 0.0 <= draws[k].material.metallic <= 1.0 && MinRoughness <= draws[k].material.roughness <= 1.0
    {
      GridIndex(SphereGenDefaults, k);
      GridMaterials(SphereGenDefaults, k % 5, k / 5);
    }
    if 0.0 <= gui.r <= 255.0 && 0.0 <= gui.g <= 255.0 && 0.0 <= gui.b <= 255.0 {
      AlbedoRange(gui);
    }
  }
}
