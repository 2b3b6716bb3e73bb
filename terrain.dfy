/** Terrain analysis of src/gdmc_mcp/gdpc_utils.py: the classification step functions, the
    building recommendations, the flattest-window scan of `find_build_position` and the
    integer part of `analyze_terrain`. Floating-point statistics (standard deviation, water
    coverage, tree density) and the dominant biome come from sampling the world's blocks; they
    are inputs here. */
module Terrain {
  import opened Types
  import opened Backend
  import opened Errors

  // ---------------------------------------------------------------- classification

  /** The terrain type from the standard deviation of the heights. */
  function TerrainType(stdDev: real): (t: string)
    ensures t == "very flat" <==> stdDev < 3.0
    ensures t == "flat" <==> 3.0 <= stdDev < 7.0
    ensures t == "hilly" <==> 7.0 <= stdDev < 15.0
    ensures t == "mountainous" <==> 15.0 <= stdDev
  {
    if stdDev < 3.0 then "very flat"
    else if stdDev < 7.0 then "flat"
    else if stdDev < 15.0 then "hilly"
    else "mountainous"
  }

  function TerrainRank(t: string): int
  {
    if t == "very flat" then 0 else if t == "flat" then 1 else if t == "hilly" then 2 else 3
  }

  /** A rougher terrain never classifies as flatter. */
  lemma TerrainTypeMonotone(a: real, b: real)
    requires a <= b
    ensures TerrainRank(TerrainType(a)) <= TerrainRank(TerrainType(b))
  {
  }

  /** The water description from the sampled water coverage. */
  function WaterDescription(coverage: real): (d: string)
    ensures d == "extensive" <==> coverage > 0.5
    ensures d == "moderate" <==> 0.2 < coverage <= 0.5
    ensures d == "light" <==> 0.05 < coverage <= 0.2
    ensures d == "none" <==> coverage <= 0.05
  {
    if coverage > 0.5 then "extensive"
    else if coverage > 0.2 then "moderate"
    else if coverage > 0.05 then "light"
    else "none"
  }

  function WaterRank(d: string): int
  {
    if d == "none" then 0 else if d == "light" then 1 else if d == "moderate" then 2 else 3
  }

  lemma WaterDescriptionMonotone(a: real, b: real)
    requires a <= b
    ensures WaterRank(WaterDescription(a)) <= WaterRank(WaterDescription(b))
  {
  }

  /** The vegetation description from the sampled tree density. */
  function TreeDescription(density: real): (d: string)
    ensures d == "heavily forested" <==> density > 0.2
    ensures d == "forested" <==> 0.1 < density <= 0.2
    ensures d == "lightly forested" <==> 0.02 < density <= 0.1
    ensures d == "barren" <==> density <= 0.02
  {
    if density > 0.2 then "heavily forested"
    else if density > 0.1 then "forested"
    else if density > 0.02 then "lightly forested"
    else "barren"
  }

  function TreeRank(d: string): int
  {
    if d == "barren" then 0 else if d == "lightly forested" then 1 else if d == "forested" then 2 else 3
  }

  lemma TreeDescriptionMonotone(a: real, b: real)
    requires a <= b
    ensures TreeRank(TreeDescription(a)) <= TreeRank(TreeDescription(b))
  {
  }

  // ---------------------------------------------------------------- recommendations

  /** One recommendation; `Kind` is its "type" field. The descriptions are fixed per case. */
  datatype Advice =
    | Settlement | MultiLevel | Towers
    | DesertPalette | WoodPalette | DwarfStyle | VillageStyle
    | Waterways | Treehouses | Elevation

  function Kind(a: Advice): string
  {
    match a
    case Settlement => "settlement"
    case MultiLevel => "multi-level"
    case Towers => "towers"
    case DesertPalette => "palette"
    case WoodPalette => "palette"
    case DwarfStyle => "style"
    case VillageStyle => "style"
    case Waterways => "water"
    case Treehouses => "vegetation"
    case Elevation => "elevation"
  }

  /** The position of a case in the order the rules are applied; the biome cases share one. */
  function Stage(a: Advice): nat
  {
    match a
    case Settlement => 0
    case MultiLevel => 1
    case Towers => 2
    case Waterways => 4
    case Treehouses => 5
    case Elevation => 6
    case _ => 3
  }

  predicate IsBiomeAdvice(a: Advice)
  {
    a.DesertPalette? || a.WoodPalette? || a.DwarfStyle? || a.VillageStyle?
  }

  /** The biome rule: the first matching substring wins. */
  function BiomeAdvice(biome: string): seq<Advice>
  {
    if Contains(biome, "desert") then [DesertPalette]
    else if Contains(biome, "forest") || Contains(biome, "taiga") then [WoodPalette]
    else if Contains(biome, "mountain") then [DwarfStyle]
    else if Contains(biome, "plains") then [VillageStyle]
    else []
  }

  /** The terrain-type rules. */
  function TerrainAdvice(terrainType: string): seq<Advice>
  {
    if terrainType == "very flat" || terrainType == "flat" then [Settlement]
    else if terrainType == "hilly" || terrainType == "mountainous" then [MultiLevel, Towers]
    else []
  }

  function WaterAdvice(water: string): seq<Advice>
  {
    if water in ["moderate", "extensive"] then [Waterways] else []
  }

  function VegetationAdvice(trees: string): seq<Advice>
  {
    if trees in ["forested", "heavily forested"] then [Treehouses] else []
  }

  function ElevationAdvice(minHeight: int, maxHeight: int): seq<Advice>
  {
    if maxHeight - minHeight > 20 then [Elevation] else []
  }

  /** The water, vegetation and elevation rules, each independent of the others. */
  function FeatureAdvice(water: string, trees: string, minHeight: int, maxHeight: int): seq<Advice>
  {
    WaterAdvice(water) + VegetationAdvice(trees) + ElevationAdvice(minHeight, maxHeight)
  }

  /** `get_build_recommendations`. */
  function Recommendations(terrainType: string, biome: string, water: string, trees: string,
                           minHeight: int, maxHeight: int): seq<Advice>
  {
    TerrainAdvice(terrainType) + BiomeAdvice(biome) + FeatureAdvice(water, trees, minHeight, maxHeight)
  }

  /** Recommendations come in the order the rules are applied, each case at most once. */
  predicate InRuleOrder(s: seq<Advice>)
  {
    forall i, j :: 0 <= i < j < |s| ==> Stage(s[i]) < Stage(s[j])
  }

  lemma InRuleOrderAppend(s: seq<Advice>, t: seq<Advice>)
    requires InRuleOrder(s) && InRuleOrder(t)
    requires forall a, b :: a in s && b in t ==> Stage(a) < Stage(b)
    ensures InRuleOrder(s + t)
  {
    var r := s + t;
    forall i, j | 0 <= i < j < |r| ensures Stage(r[i]) < Stage(r[j]) {
      if j < |s| {
        assert r[i] == s[i] && r[j] == s[j];
      } else if i >= |s| {
        assert r[i] == t[i - |s|] && r[j] == t[j - |s|];
      } else {
        assert r[i] in s && r[j] in t;
      }
    }
  }

  lemma FeatureAdviceOrdered(water: string, trees: string, minHeight: int, maxHeight: int)
    ensures InRuleOrder(FeatureAdvice(water, trees, minHeight, maxHeight))
    ensures forall a :: a in FeatureAdvice(water, trees, minHeight, maxHeight) ==> Stage(a) >= 4
  {
    var w := WaterAdvice(water);
    var v := VegetationAdvice(trees);
    var e := ElevationAdvice(minHeight, maxHeight);
    assert |w| <= 1 && forall a :: a in w ==> Stage(a) == 4;
    assert |v| <= 1 && forall a :: a in v ==> Stage(a) == 5;
    assert |e| <= 1 && forall a :: a in e ==> Stage(a) == 6;
    InRuleOrderAppend(w, v);
    assert forall a :: a in w + v ==> Stage(a) <= 5;
    InRuleOrderAppend(w + v, e);
    assert FeatureAdvice(water, trees, minHeight, maxHeight) == w + v + e;
  }

  /** The recommendations are listed in rule order and so hold each case at most once; in
      particular there is at most one biome recommendation. */
  lemma RecommendationsOrdered(terrainType: string, biome: string, water: string, trees: string,
                               minHeight: int, maxHeight: int)
    ensures var r := Recommendations(terrainType, biome, water, trees, minHeight, maxHeight);
      && InRuleOrder(r)
      && (forall i, j :: 0 <= i < j < |r| ==> r[i] != r[j])
      && (forall i, j :: 0 <= i < j < |r| && IsBiomeAdvice(r[i]) ==> !IsBiomeAdvice(r[j]))
  {
    var t := TerrainAdvice(terrainType);
    var b := BiomeAdvice(biome);
    var f := FeatureAdvice(water, trees, minHeight, maxHeight);
    FeatureAdviceOrdered(water, trees, minHeight, maxHeight);
    assert forall a :: a in t ==> Stage(a) <= 2;
    assert forall a :: a in b ==> Stage(a) == 3;
    assert |b| <= 1;
    InRuleOrderAppend(t, b);
    assert forall a :: a in t + b ==> Stage(a) <= 3;
    InRuleOrderAppend(t + b, f);
    assert Recommendations(terrainType, biome, water, trees, minHeight, maxHeight) == t + b + f;
    OrderedDistinct(t + b + f);
  }

  lemma OrderedDistinct(r: seq<Advice>)
    requires InRuleOrder(r)
    ensures forall i, j :: 0 <= i < j < |r| ==> r[i] != r[j]
    ensures forall i, j :: 0 <= i < j < |r| && IsBiomeAdvice(r[i]) ==> !IsBiomeAdvice(r[j])
  {
    assert forall a :: IsBiomeAdvice(a) ==> Stage(a) == 3;
  }

  lemma TerrainAdviceRules(terrainType: string)
    ensures var r := TerrainAdvice(terrainType);
      && (Settlement in r <==> terrainType == "very flat" || terrainType == "flat")
      && (MultiLevel in r <==> terrainType == "hilly" || terrainType == "mountainous")
      && (Towers in r <==> terrainType == "hilly" || terrainType == "mountainous")
      && forall a :: a in r ==> a.Settlement? || a.MultiLevel? || a.Towers?
  {
  }

  lemma BiomeAdviceRules(biome: string)
    ensures var r := BiomeAdvice(biome);
      && (DesertPalette in r <==> Contains(biome, "desert"))
      && (WoodPalette in r <==> !Contains(biome, "desert") && (Contains(biome, "forest") || Contains(biome, "taiga")))
      && (DwarfStyle in r <==> !Contains(biome, "desert") && !Contains(biome, "forest") && !Contains(biome, "taiga")
                               && Contains(biome, "mountain"))
      && (VillageStyle in r <==> !Contains(biome, "desert") && !Contains(biome, "forest") && !Contains(biome, "taiga")
                                 && !Contains(biome, "mountain") && Contains(biome, "plains"))
      && forall a :: a in r ==> IsBiomeAdvice(a)
  {
  }

  lemma FeatureAdviceRules(water: string, trees: string, minHeight: int, maxHeight: int)
    ensures var r := FeatureAdvice(water, trees, minHeight, maxHeight);
      && (Waterways in r <==> water == "moderate" || water == "extensive")
      && (Treehouses in r <==> trees == "forested" || trees == "heavily forested")
      && (Elevation in r <==> maxHeight - minHeight > 20)
      && forall a :: a in r ==> a.Waterways? || a.Treehouses? || a.Elevation?
  {
    var w := WaterAdvice(water);
    var v := VegetationAdvice(trees);
    var e := ElevationAdvice(minHeight, maxHeight);
    assert Waterways in w <==> water == "moderate" || water == "extensive";
    assert Treehouses in v <==> trees == "forested" || trees == "heavily forested";
  }

  /** Which recommendations appear, rule by rule. The terrain type decides between founding a
      settlement and building upwards. */
  lemma RecommendationsTerrainRules(terrainType: string, biome: string, water: string, trees: string,
                                    minHeight: int, maxHeight: int)
    ensures var r := Recommendations(terrainType, biome, water, trees, minHeight, maxHeight);
      && (Settlement in r <==> terrainType == "very flat" || terrainType == "flat")
      && (MultiLevel in r <==> terrainType == "hilly" || terrainType == "mountainous")
      && (Towers in r <==> terrainType == "hilly" || terrainType == "mountainous")
  {
    TerrainAdviceRules(terrainType);
    BiomeAdviceRules(biome);
    FeatureAdviceRules(water, trees, minHeight, maxHeight);
    InThree(Recommendations(terrainType, biome, water, trees, minHeight, maxHeight),
            TerrainAdvice(terrainType), BiomeAdvice(biome), FeatureAdvice(water, trees, minHeight, maxHeight));
  }

  /** The first matching biome substring picks the palette or style. */
  lemma RecommendationsBiomeRules(terrainType: string, biome: string, water: string, trees: string,
                                  minHeight: int, maxHeight: int)
    ensures var r := Recommendations(terrainType, biome, water, trees, minHeight, maxHeight);
      && (DesertPalette in r <==> Contains(biome, "desert"))
      && (WoodPalette in r <==> !Contains(biome, "desert") && (Contains(biome, "forest") || Contains(biome, "taiga")))
      && (DwarfStyle in r <==> !Contains(biome, "desert") && !Contains(biome, "forest") && !Contains(biome, "taiga")
                               && Contains(biome, "mountain"))
      && (VillageStyle in r <==> !Contains(biome, "desert") && !Contains(biome, "forest") && !Contains(biome, "taiga")
                                 && !Contains(biome, "mountain") && Contains(biome, "plains"))
  {
    TerrainAdviceRules(terrainType);
    BiomeAdviceRules(biome);
    FeatureAdviceRules(water, trees, minHeight, maxHeight);
    InThree(Recommendations(terrainType, biome, water, trees, minHeight, maxHeight),
            TerrainAdvice(terrainType), BiomeAdvice(biome), FeatureAdvice(water, trees, minHeight, maxHeight));
  }

  /** Water, vegetation and an elevation range above 20 each add their own recommendation. */
  lemma RecommendationsFeatureRules(terrainType: string, biome: string, water: string, trees: string,
                                    minHeight: int, maxHeight: int)
    ensures var r := Recommendations(terrainType, biome, water, trees, minHeight, maxHeight);
      && (Waterways in r <==> water == "moderate" || water == "extensive")
      && (Treehouses in r <==> trees == "forested" || trees == "heavily forested")
      && (Elevation in r <==> maxHeight - minHeight > 20)
  {
    TerrainAdviceRules(terrainType);
    BiomeAdviceRules(biome);
    FeatureAdviceRules(water, trees, minHeight, maxHeight);
    InThree(Recommendations(terrainType, biome, water, trees, minHeight, maxHeight),
            TerrainAdvice(terrainType), BiomeAdvice(biome), FeatureAdvice(water, trees, minHeight, maxHeight));
  }

  lemma InThree(r: seq<Advice>, t: seq<Advice>, b: seq<Advice>, f: seq<Advice>)
    requires r == t + b + f
    ensures forall a :: a in r <==> a in t || a in b || a in f
  {
  }

  // ---------------------------------------------------------------- heightmap statistics

  function RowMin(row: seq<int>): (m: int)
    requires |row| > 0
    ensures forall j :: 0 <= j < |row| ==> m <= row[j]
    ensures exists j :: 0 <= j < |row| && m == row[j]
  {
    if |row| == 1 then row[0]
    else
      var rest := RowMin(row[1..]);
      assert forall j :: 1 <= j < |row| ==> row[j] == row[1..][j - 1];
      if row[0] <= rest then row[0] else rest
  }

  function RowMax(row: seq<int>): (m: int)
    requires |row| > 0
    ensures forall j :: 0 <= j < |row| ==> row[j] <= m
    ensures exists j :: 0 <= j < |row| && m == row[j]
  {
    if |row| == 1 then row[0]
    else
      var rest := RowMax(row[1..]);
      assert forall j :: 1 <= j < |row| ==> row[j] == row[1..][j - 1];
      if row[0] >= rest then row[0] else rest
  }

  predicate NonEmpty(g: Heightmap)
  {
    Rows(g) > 0 && Cols(g) > 0
  }

  /** `np.min` of a heightmap: a lower bound that is attained. */
  function GridMin(g: Heightmap): (m: int)
    requires NonEmpty(g)
    ensures forall i, j :: InGrid(g, i, j) ==> m <= At(g, i, j)
    ensures exists i, j :: InGrid(g, i, j) && m == At(g, i, j)
    decreases |g|
  {
    var r := RowMin(g[0]);
    assert forall j :: InGrid(g, 0, j) ==> At(g, 0, j) == g[0][j];
    assert exists j :: InGrid(g, 0, j) && r == At(g, 0, j) by {
      var j :| 0 <= j < |g[0]| && r == g[0][j];
      assert InGrid(g, 0, j);
    }
    if |g| == 1 then r
    else
      var rest: Heightmap := g[1..];
      assert Cols(rest) == Cols(g);
      var m := GridMin(rest);
      assert forall i, j :: InGrid(g, i, j) && i >= 1 ==> InGrid(rest, i - 1, j) && At(g, i, j) == At(rest, i - 1, j);
      assert exists i, j :: InGrid(g, i, j) && m == At(g, i, j) by {
        var i, j :| InGrid(rest, i, j) && m == At(rest, i, j);
        assert InGrid(g, i + 1, j) && At(g, i + 1, j) == m;
      }
      if r <= m then r else m
  }

  /** `np.max` of a heightmap: an upper bound that is attained. */
  function GridMax(g: Heightmap): (m: int)
    requires NonEmpty(g)
    ensures forall i, j :: InGrid(g, i, j) ==> At(g, i, j) <= m
    ensures exists i, j :: InGrid(g, i, j) && m == At(g, i, j)
    decreases |g|
  {
    var r := RowMax(g[0]);
    assert forall j :: InGrid(g, 0, j) ==> At(g, 0, j) == g[0][j];
    assert exists j :: InGrid(g, 0, j) && r == At(g, 0, j) by {
      var j :| 0 <= j < |g[0]| && r == g[0][j];
      assert InGrid(g, 0, j);
    }
    if |g| == 1 then r
    else
      var rest: Heightmap := g[1..];
      assert Cols(rest) == Cols(g);
      var m := GridMax(rest);
      assert forall i, j :: InGrid(g, i, j) && i >= 1 ==> InGrid(rest, i - 1, j) && At(g, i, j) == At(rest, i - 1, j);
      assert exists i, j :: InGrid(g, i, j) && m == At(g, i, j) by {
        var i, j :| InGrid(rest, i, j) && m == At(rest, i, j);
        assert InGrid(g, i + 1, j) && At(g, i + 1, j) == m;
      }
      if r >= m then r else m
  }

  /** `int((max + min) / 2)`: true division, then truncation toward zero. */
  function HeightCenter(minHeight: int, maxHeight: int): int
  {
    TruncReal((maxHeight + minHeight) as real / 2.0)
  }

  /** The marker level lies between the lowest and the highest ground. */
  lemma HeightCenterBetween(minHeight: int, maxHeight: int)
    requires minHeight <= maxHeight
    ensures minHeight <= HeightCenter(minHeight, maxHeight) <= maxHeight
  {
    var v := (maxHeight + minHeight) as real / 2.0;
    var c := HeightCenter(minHeight, maxHeight);
    assert minHeight as real <= v <= maxHeight as real;
    if v >= 0.0 {
      assert c as real <= v < c as real + 1.0;
      assert (minHeight - 1) as real < c as real;
    } else {
      assert c as real - 1.0 < v <= c as real;
      assert c as real < (maxHeight + 1) as real;
    }
  }

  // ---------------------------------------------------------------- flattest window

  /** The window of `find_build_position`: a 7x7 sample centred on (x, z). */
  const SampleSize: int := 7
  const Half: int := 3          // sample_size // 2
  const Step: int := 3
  const Margin: int := 9        // sample_size + 2
  const WindowCells: int := 49

  function SpanSum(row: seq<int>, lo: int, hi: int): int
    requires 0 <= lo <= hi <= |row|
    decreases hi - lo
  {
    if lo == hi then 0 else row[lo] + SpanSum(row, lo + 1, hi)
  }

  function SpanSquares(row: seq<int>, lo: int, hi: int): int
    requires 0 <= lo <= hi <= |row|
    decreases hi - lo
  {
    if lo == hi then 0 else row[lo] * row[lo] + SpanSquares(row, lo + 1, hi)
  }

  predicate WindowFits(g: Heightmap, x: int, z: int)
  {
    Half <= x && x + Half + 1 <= Rows(g) && Half <= z && z + Half + 1 <= Cols(g)
  }

  function BlockSum(g: Heightmap, i: int, iEnd: int, lo: int, hi: int): int
    requires 0 <= i <= iEnd <= Rows(g) && 0 <= lo <= hi <= Cols(g)
    decreases iEnd - i
  {
    if i == iEnd then 0 else SpanSum(g[i], lo, hi) + BlockSum(g, i + 1, iEnd, lo, hi)
  }

  function BlockSquares(g: Heightmap, i: int, iEnd: int, lo: int, hi: int): int
    requires 0 <= i <= iEnd <= Rows(g) && 0 <= lo <= hi <= Cols(g)
    decreases iEnd - i
  {
    if i == iEnd then 0 else SpanSquares(g[i], lo, hi) + BlockSquares(g, i + 1, iEnd, lo, hi)
  }

  /** The sum of the 49 heights of the window. */
  function WindowSum(g: Heightmap, x: int, z: int): int
    requires WindowFits(g, x, z)
  {
    BlockSum(g, x - Half, x + Half + 1, z - Half, z + Half + 1)
  }

  /** `np.var` of the window scaled by 49*49: 49 * (sum of squares) - (sum)^2, exact. */
  function Flatness(g: Heightmap, x: int, z: int): int
    requires WindowFits(g, x, z)
  {
    WindowCells * BlockSquares(g, x - Half, x + Half + 1, z - Half, z + Half + 1) - WindowSum(g, x, z) * WindowSum(g, x, z)
  }

  /** `60 <= np.mean(window) <= 120`, with the mean WindowSum / 49 compared exactly. */
  predicate Eligible(g: Heightmap, x: int, z: int)
    requires WindowFits(g, x, z)
  {
    60 * WindowCells <= WindowSum(g, x, z) <= 120 * WindowCells
  }

  /** (x, z) is one of the scanned window centres: `range(margin, shape - margin, step)`. */
  predicate Scanned(g: Heightmap, x: int, z: int)
  {
    Margin <= x < Rows(g) - Margin && (x - Margin) % Step == 0
    && Margin <= z < Cols(g) - Margin && (z - Margin) % Step == 0
  }

  predicate Candidate(g: Heightmap, x: int, z: int)
  {
    Scanned(g, x, z) && WindowFits(g, x, z) && Eligible(g, x, z)
  }

  /** The scan order: row by row in x, then in z. */
  predicate Before(x1: int, z1: int, x2: int, z2: int)
  {
    x1 < x2 || (x1 == x2 && z1 < z2)
  }

  /** The choice of `find_build_position`: an eligible window of least flatness, the first
      one in scan order among equally flat windows. */
  ghost predicate BestWindow(g: Heightmap, b: Vec2)
  {
    && Candidate(g, b.x, b.y)
    && (forall x, z :: Candidate(g, x, z) ==> Flatness(g, b.x, b.y) <= Flatness(g, x, z))
    && (forall x, z :: Candidate(g, x, z) && Before(x, z, b.x, b.y) ==> Flatness(g, b.x, b.y) < Flatness(g, x, z))
  }

  /** Every scanned centre leaves room for its window. */
  lemma ScannedFits(g: Heightmap, x: int, z: int)
    requires Scanned(g, x, z)
    ensures WindowFits(g, x, z)
  {
  }

  /** What the scan knows once it has visited every centre before (x, z): `best` is the
      first flattest eligible window among them. */
  ghost predicate BestBefore(g: Heightmap, best: Option<Vec2>, x: int, z: int)
  {
    && (best.Some? ==> Candidate(g, best.value.x, best.value.y) && Before(best.value.x, best.value.y, x, z))
    && (best.Some? ==> forall px, pz :: Candidate(g, px, pz) && Before(px, pz, best.value.x, best.value.y) ==>
          Flatness(g, best.value.x, best.value.y) < Flatness(g, px, pz))
    && (forall px, pz :: Candidate(g, px, pz) && Before(px, pz, x, z) ==>
          best.Some? && Flatness(g, best.value.x, best.value.y) <= Flatness(g, px, pz))
  }

  /** Two scanned coordinates are a whole step apart. */
  lemma StepApart(a: int, b: int)
    requires (a - Margin) % Step == 0 && (b - Margin) % Step == 0 && a < b
    ensures a + Step <= b
  {
    var qa := (a - Margin) / Step;
    var qb := (b - Margin) / Step;
    assert a == Margin + Step * qa;
    assert b == Margin + Step * qb;
  }

  /** One window visit of the inner loop. */
  lemma VisitStep(g: Heightmap, best: Option<Vec2>, x: int, z: int, next: Option<Vec2>)
    requires Scanned(g, x, z) && BestBefore(g, best, x, z)
    requires next == if Eligible(g, x, z) && (best.None? || Flatness(g, x, z) < Flatness(g, best.value.x, best.value.y))
                     then Some(Vec2(x, z)) else best
    ensures BestBefore(g, next, x, z + Step)
  {
    forall px, pz | Candidate(g, px, pz) && Before(px, pz, x, z + Step)
      ensures Before(px, pz, x, z) || (px == x && pz == z)
    {
      if px == x && pz > z {
        StepApart(z, pz);
      }
    }
  }

  /** The end of a row: every centre of row x has been seen. */
  lemma RowDone(g: Heightmap, best: Option<Vec2>, x: int, z: int)
    requires Margin <= x && (x - Margin) % Step == 0
    requires z >= Cols(g) - Margin && BestBefore(g, best, x, z)
    ensures BestBefore(g, best, x + Step, Margin)
  {
    forall px, pz | Candidate(g, px, pz) && Before(px, pz, x + Step, Margin)
      ensures Before(px, pz, x, z)
    {
      if px > x {
        StepApart(x, px);
      }
    }
  }

  /** The nested scan loop of `find_build_position`, keeping the flattest eligible window. */
  method ScanFlattest(g: Heightmap) returns (best: Option<Vec2>)
    ensures best.Some? ==> BestWindow(g, best.value)
    ensures best.None? <==> forall x, z :: !Candidate(g, x, z)
  {
    best := None;
    var x := Margin;
    while x < Rows(g) - Margin
      invariant Margin <= x && (x - Margin) % Step == 0
      invariant BestBefore(g, best, x, Margin)
    {
      var z := Margin;
      while z < Cols(g) - Margin
        invariant Margin <= z && (z - Margin) % Step == 0
        invariant BestBefore(g, best, x, z)
      {
        ScannedFits(g, x, z);
        var next := best;
        if Eligible(g, x, z) && (best.None? || Flatness(g, x, z) < Flatness(g, best.value.x, best.value.y)) {
          next := Some(Vec2(x, z));
        }
        VisitStep(g, best, x, z, next);
        best := next;
        z := z + Step;
      }
      RowDone(g, best, x, z);
      x := x + Step;
    }
    assert forall px, pz :: Candidate(g, px, pz) ==> Before(px, pz, x, Margin);
  }

  /** Where `find_build_position` builds, from the scan's choice: the window centre at the
      truncated mean height, or the heightmap centre; local indices plus the rectangle's
      offset, whose `y` is the world z. */
  function Placement(g: Heightmap, rect: Rect, best: Option<Vec2>): (r: Result<(Vec3, real), ToolError>)
    requires best.Some? ==> WindowFits(g, best.value.x, best.value.y)
    ensures best.Some? ==> (r.Success?
      && r.value.0 == Vec3(best.value.x + rect.offset.x, TruncReal(r.value.1), best.value.y + rect.offset.y)
      && r.value.1 == WindowSum(g, best.value.x, best.value.y) as real / WindowCells as real)
    ensures best.None? && InGrid(g, Rows(g) / 2, Cols(g) / 2) ==> (r.Success?
      && r.value.0 == Vec3(Rows(g) / 2 + rect.offset.x, At(g, Rows(g) / 2, Cols(g) / 2), Cols(g) / 2 + rect.offset.y)
      && r.value.1 == At(g, Rows(g) / 2, Cols(g) / 2) as real)
    ensures best.None? && !InGrid(g, Rows(g) / 2, Cols(g) / 2) ==> r == Failure(Raised(OutsideHeightmap))
  {
    if best.Some? then
      var avg := WindowSum(g, best.value.x, best.value.y) as real / WindowCells as real;
      Success((Vec3(best.value.x + rect.offset.x, TruncReal(avg), best.value.y + rect.offset.y), avg))
    else
      var cx := Rows(g) / 2;
      var cz := Cols(g) / 2;
      if !InGrid(g, cx, cz) then Failure(Raised(OutsideHeightmap))
      else
        var h := At(g, cx, cz);
        Success((Vec3(cx + rect.offset.x, h, cz + rect.offset.y), h as real))
  }

  /** For an eligible window the truncated mean is the floor of sum / 49. */
  lemma PlacementHeight(g: Heightmap, x: int, z: int)
    requires WindowFits(g, x, z) && Eligible(g, x, z)
    ensures TruncReal(WindowSum(g, x, z) as real / WindowCells as real) == WindowSum(g, x, z) / WindowCells
    ensures 60 <= WindowSum(g, x, z) / WindowCells <= 120
  {
    var s := WindowSum(g, x, z);
    var q := s / WindowCells;
    var t := TruncReal(s as real / WindowCells as real);
    assert s == WindowCells * q + s % WindowCells && 0 <= s % WindowCells < WindowCells;
    assert q as real <= s as real / 49.0 < q as real + 1.0;
    assert t as real <= s as real / 49.0 < t as real + 1.0;
  }

  const SurfaceNoLeaves: string := "MOTION_BLOCKING_NO_LEAVES"
  const WorldSurface: string := "WORLD_SURFACE"

  /** The answers `find_build_position` may give for a heightmap of its build rectangle: the
      placement of a flattest eligible window or, when there is none, of the centre. */
  ghost predicate Answers(g: Heightmap, rect: Rect, r: Result<(Vec3, real), ToolError>)
  {
    && ((exists x, z :: Candidate(g, x, z)) ==>
          exists b :: BestWindow(g, b) && r == Placement(g, rect, Some(b)))
    && ((forall x, z :: !Candidate(g, x, z)) ==> r == Placement(g, rect, None))
  }

  /** `find_build_position` has an answer: a build area is set, its slice has the surface
      heightmap, and either some window is a candidate or the map's centre lies inside it. */
  ghost predicate Locatable(area: Option<Box>, slice: WorldSlice)
  {
    && area.Some? && SurfaceNoLeaves in slice.heightmaps
    && var g := slice.heightmaps[SurfaceNoLeaves];
       (exists x, z :: Candidate(g, x, z)) || InGrid(g, Rows(g) / 2, Cols(g) / 2)
  }

  /** `find_build_position`. */
  method FindBuildPosition(ed: Editor) returns (r: Result<(Vec3, real), ToolError>)
    modifies ed`log, ed`blocks, ed`failAfter
    ensures ed.buffering == old(ed.buffering) && ed.multithreading == old(ed.multithreading)
    ensures ed.blocks == old(ed.blocks)
    ensures old(ed.failAfter) == Some(0) ==> r == Failure(Raised(BackendRaised))
    ensures old(ed.failAfter) != Some(0) && ed.buildArea.None? ==> r == Failure(BuildAreaNotSet)
    ensures old(ed.failAfter) == Some(1) && ed.buildArea.Some? ==> r == Failure(Raised(BackendRaised))
    ensures Completed(old(ed.failAfter), 2) == 2 && ed.buildArea.Some? ==>
      && (r.Success? <==> Locatable(ed.buildArea, ed.worldSlice))
      && (SurfaceNoLeaves !in ed.worldSlice.heightmaps ==> r == Failure(Raised(HeightmapNotAvailable)))
      && (SurfaceNoLeaves in ed.worldSlice.heightmaps && !Locatable(ed.buildArea, ed.worldSlice) ==>
            r == Failure(Raised(OutsideHeightmap)))
    ensures r.Success? ==> (ed.buildArea.Some? && SurfaceNoLeaves in ed.worldSlice.heightmaps
      && var g := ed.worldSlice.heightmaps[SurfaceNoLeaves];
         var rect := ed.buildArea.value.ToRect();
         && ed.log == old(ed.log) + [Entry(GetBuildArea, old(ed.CurrentMode()), false),
                                     Entry(LoadSlice(rect), old(ed.CurrentMode()), false)]
         && ed.failAfter == Remaining(old(ed.failAfter), 2)
         && Answers(g, rect, r))
  {
    var area := ed.GetBuildAreaBox();
    if area.Failure? {
      return if area.error == BuildAreaNotSetError then Failure(BuildAreaNotSet) else Failure(Raised(BackendRaised));
    }
    var rect := area.value.ToRect();
    var slice := ed.LoadWorldSlice(rect);
    if slice.Failure? {
      return Failure(Raised(BackendRaised));
    }
    if SurfaceNoLeaves !in slice.value.heightmaps {
      return Failure(Raised(HeightmapNotAvailable));
    }
    var g := slice.value.heightmaps[SurfaceNoLeaves];
    var best := ScanFlattest(g);
    r := Placement(g, rect, best);
  }

  // ---------------------------------------------------------------- analyze_terrain

  /** What sampling the world's blocks and biomes yields, and the float statistics. */
  datatype Samples = Samples(stdDev: real, waterCoverage: real, treeDensity: real, primaryBiome: string)

  datatype TerrainAnalysis = TerrainAnalysis(
    width: int, depth: int, minHeight: int, maxHeight: int,
    terrainType: string, primaryBiome: string, water: string, vegetation: string,
    recommendations: seq<Advice>)

  /** The sampling loop reads `heightmap[x, z]` at every third local position of the rectangle. */
  predicate SamplesInside(g: Heightmap, rect: Rect)
  {
    rect.size.x <= 0 || rect.size.y <= 0
    || ((rect.size.x - 1) / Step * Step < Rows(g) && (rect.size.y - 1) / Step * Step < Cols(g))
  }

  /** The red-wool wireframe marking the analysed rectangle at the middle height. */
  function MarkerCall(rect: Rect, level: int): Call
  {
    Cuboid(Wireframe, Vec3(rect.offset.x, level, rect.offset.y),
           Vec3(rect.offset.x + rect.size.x - 1, level, rect.offset.y + rect.size.y - 1),
           Single(Simple("red_wool")))
  }

  /** The report of `analyze_terrain` from a heightmap and the samples. */
  function Analysis(g: Heightmap, rect: Rect, s: Samples): (a: TerrainAnalysis)
    requires NonEmpty(g)
    ensures a.width == rect.size.x && a.depth == rect.size.y
    ensures a.minHeight <= a.maxHeight
    ensures forall i, j :: InGrid(g, i, j) ==> a.minHeight <= At(g, i, j) <= a.maxHeight
    ensures a.terrainType == TerrainType(s.stdDev) && a.water == WaterDescription(s.waterCoverage)
      && a.vegetation == TreeDescription(s.treeDensity) && a.primaryBiome == s.primaryBiome
    ensures a.recommendations == Recommendations(a.terrainType, s.primaryBiome, a.water, a.vegetation, a.minHeight, a.maxHeight)
  {
    var lo := GridMin(g);
    var hi := GridMax(g);
    var t := TerrainType(s.stdDev);
    var w := WaterDescription(s.waterCoverage);
    var v := TreeDescription(s.treeDensity);
    TerrainAnalysis(rect.size.x, rect.size.y, lo, hi, t, s.primaryBiome, w, v,
                    Recommendations(t, s.primaryBiome, w, v, lo, hi))
  }

  /** The heightmap `analyze_terrain` works on, or what the slice lookups and numpy raise
      before anything is drawn, checked in the source's order. */
  function SurfaceOf(slice: WorldSlice, rect: Rect): (r: Result<Heightmap, ToolError>)
    ensures var hs := slice.heightmaps;
      r.Success? <==> && SurfaceNoLeaves in hs && WorldSurface in hs && NonEmpty(hs[SurfaceNoLeaves])
                      && SamplesInside(hs[SurfaceNoLeaves], rect) && rect.size.x * rect.size.y != 0
    ensures r.Success? ==> r.value == slice.heightmaps[SurfaceNoLeaves]
    ensures var hs := slice.heightmaps;
      && (SurfaceNoLeaves !in hs || WorldSurface !in hs ==> r == Failure(Raised(HeightmapNotAvailable)))
      && (SurfaceNoLeaves in hs && WorldSurface in hs ==> var g := hs[SurfaceNoLeaves];
            && (!NonEmpty(g) ==> r == Failure(Raised(EmptyHeightmap)))
            && (NonEmpty(g) && !SamplesInside(g, rect) ==> r == Failure(Raised(OutsideHeightmap)))
            && (NonEmpty(g) && SamplesInside(g, rect) && rect.size.x * rect.size.y == 0 ==> r == Failure(Raised(ZeroArea))))
  {
    var hs := slice.heightmaps;
    if SurfaceNoLeaves !in hs || WorldSurface !in hs then Failure(Raised(HeightmapNotAvailable))
    else
      var g := hs[SurfaceNoLeaves];
      if !NonEmpty(g) then Failure(Raised(EmptyHeightmap))
      else if !SamplesInside(g, rect) then Failure(Raised(OutsideHeightmap))
      else if rect.size.x * rect.size.y == 0 then Failure(Raised(ZeroArea))
      else Success(g)
  }

  /** `analyze_terrain`. */
  method AnalyzeTerrain(ed: Editor, rect: Rect, s: Samples) returns (r: Result<TerrainAnalysis, ToolError>)
    modifies ed`log, ed`blocks, ed`failAfter
    ensures ed.blocks == old(ed.blocks)
    ensures old(ed.failAfter) == Some(0) ==> r == Failure(Raised(BackendRaised))
    ensures old(ed.failAfter) != Some(0) && SurfaceOf(ed.worldSlice, rect).Failure? ==>
      r == Failure(SurfaceOf(ed.worldSlice, rect).error)
    ensures old(ed.failAfter) == Some(1) && SurfaceOf(ed.worldSlice, rect).Success? ==>
      r == Failure(Raised(BackendRaised))
    ensures Completed(old(ed.failAfter), 2) == 2 && SurfaceOf(ed.worldSlice, rect).Success? ==> r.Success?
    ensures r.Success? ==>
      && SurfaceOf(ed.worldSlice, rect).Success?
      && r.value == Analysis(SurfaceOf(ed.worldSlice, rect).value, rect, s)
      && ed.failAfter == Remaining(old(ed.failAfter), 2)
      && ed.log == old(ed.log) + [Entry(LoadSlice(rect), old(ed.CurrentMode()), false),
                                  Entry(MarkerCall(rect, HeightCenter(r.value.minHeight, r.value.maxHeight)),
                                        old(ed.CurrentMode()), false)]
  {
    var slice := ed.LoadWorldSlice(rect);
    if slice.Failure? {
      return Failure(Raised(BackendRaised));
    }
    var g := SurfaceOf(slice.value, rect);
    if g.Failure? {
      return Failure(g.error);
    }
    var a := Analysis(g.value, rect, s);
    var ok := ed.Issue(MarkerCall(rect, HeightCenter(a.minHeight, a.maxHeight)));
    if !ok {
      return Failure(Raised(BackendRaised));
    }
    r := Success(a);
  }
}
