/**
  The grass streak scatter: a latitude/longitude grid walked row by row,
  cells inside the pond zone skipped, the rest kept where a two-noise
  streak value clears a threshold, then jittered, re-checked against
  the pond zone, projected and scaled.
 */
module GrassScatter {
  import opened HostMath
  import opened NoiseMask
  import opened Sphere
  import opened Exclusion
  import opened Grid
  import opened Variation

  /** Everything the grass scatter is configured with. */
  datatype GrassConfig = GrassConfig(
    latSegments: nat,
    lonSegments: nat,
    noiseScale: real,
    threshold: real,
    pond: Zone,
    jitter: real,
    scaleMin: real,
    scaleRange: real,
    radius: real)

  /** The configuration the planet uses: a 20 x 35 grid, the pond at (-0.4, 0.5). */
  const SourceGrass: GrassConfig :=
    GrassConfig(20, 35, 2.5, 0.25, Zone(SurfaceCoordinate(-0.4, 0.5), 0.35), 0.15, 0.2, 0.2, 250.0)

  predicate InGrid(cfg: GrassConfig, c: Cell)
  {
    c.row < cfg.latSegments && c.col < cfg.lonSegments
  }

  /** Grid index k of n mapped to `(k / n) * 2 - 1`, which lies in [-1, 1). */
  function GridCoord(k: nat, n: nat): (c: real)
    requires k < n
    ensures -1.0 <= c < 1.0
  {
    var q := k as real / n as real;
    assert q < 1.0 by {
      assert q * n as real == k as real;
    }
    q * 2.0 - 1.0
  }

  function GridSite(cfg: GrassConfig, c: Cell): SurfaceCoordinate
    requires InGrid(cfg, c)
  {
    SurfaceCoordinate(GridCoord(c.row, cfg.latSegments), GridCoord(c.col, cfg.lonSegments))
  }

  /** `noiseVal1 * 0.6 + noiseVal2 * 0.4`, a weighted mean of two noises, so in [0, 1). */
  function Streak(lib: Library, scale: real, site: SurfaceCoordinate): (r: real)
    ensures 0.0 <= r < 1.0
  {
    var v1 := Noise(lib, site.lat * scale, site.lon * scale);
    var v2 := Noise(lib, site.lon * scale * 1.3, site.lat * scale * 0.7);
    v1 * 0.6 + v2 * 0.4
  }

  function JitteredSite(cfg: GrassConfig, lib: Library, c: Cell): SurfaceCoordinate
    requires InGrid(cfg, c)
  {
    var i, j := c.row as real, c.col as real;
    Jittered(GridSite(cfg, c), Noise(lib, i * 3.7, j * 4.3), Noise(lib, i * 5.1, j * 6.7), cfg.jitter)
  }

  function GrassScale(cfg: GrassConfig, lib: Library, c: Cell): real
  {
    Scaled(cfg.scaleMin, Noise(lib, c.row as real * 1.1, c.col as real * 1.3), cfg.scaleRange)
  }

  /**
    The three conditions under which a cell receives grass: its grid
    point is outside the pond zone, its streak value is strictly above
    the threshold, and its jittered point is outside the pond zone too.
   */
  predicate Kept(cfg: GrassConfig, lib: Library, c: Cell)
    requires InGrid(cfg, c)
  {
    && !Excluded(cfg.pond, GridSite(cfg, c))
    && Streak(lib, cfg.noiseScale, GridSite(cfg, c)) > cfg.threshold
    && !Excluded(cfg.pond, JitteredSite(cfg, lib, c))
  }

  /** The placement a kept cell receives. */
  function GrassAt(cfg: GrassConfig, lib: Library, c: Cell): Placement
    requires InGrid(cfg, c)
  {
    PlaceAt(lib, JitteredSite(cfg, lib, c), cfg.radius, GrassScale(cfg, lib, c))
  }

  /** The grass filter as a predicate on all cells: inside the grid and kept. */
  function Keep(cfg: GrassConfig, lib: Library): Cell -> bool
  {
    c => InGrid(cfg, c) && Kept(cfg, lib, c)
  }

  /** Every kept cell of the grid, in the order the scatter visits them. */
  function KeptCells(cfg: GrassConfig, lib: Library): seq<Cell>
  {
    KeptInRows(Keep(cfg, lib), cfg.lonSegments, cfg.latSegments)
  }

  /**
    The scatter loop. It emits, in order, the placement of each kept
    cell and nothing else.
   */
  method Scatter(cfg: GrassConfig, lib: Library) returns (grass: seq<Placement>)
    ensures |grass| == |KeptCells(cfg, lib)|
    ensures forall k :: 0 <= k < |grass| ==>
      InGrid(cfg, KeptCells(cfg, lib)[k]) && grass[k] == GrassAt(cfg, lib, KeptCells(cfg, lib)[k])
  {
    grass := [];
    ghost var keep := Keep(cfg, lib);
    ghost var cells: seq<Cell> := [];
    for i := 0 to cfg.latSegments
      invariant cells == KeptInRows(keep, cfg.lonSegments, i)
      invariant |grass| == |cells|
      invariant forall k :: 0 <= k < |grass| ==> InGrid(cfg, cells[k]) && grass[k] == GrassAt(cfg, lib, cells[k])
    {
      for j := 0 to cfg.lonSegments
        invariant cells == KeptInRows(keep, cfg.lonSegments, i) + KeptInRow(keep, i, j)
        invariant |grass| == |cells|
        invariant forall k :: 0 <= k < |grass| ==> InGrid(cfg, cells[k]) && grass[k] == GrassAt(cfg, lib, cells[k])
      {
        var lat := GridCoord(i, cfg.latSegments);
        var lon := GridCoord(j, cfg.lonSegments);
        if Excluded(cfg.pond, SurfaceCoordinate(lat, lon)) {
          continue;
        }
        var streakPattern := Streak(lib, cfg.noiseScale, SurfaceCoordinate(lat, lon));
        if streakPattern > cfg.threshold {
          var site := JitteredSite(cfg, lib, Cell(i, j));
          if Excluded(cfg.pond, site) {
            continue;
          }
          var pos := SphericalPosition(lib, site.lat, site.lon, cfg.radius);
          var scale := GrassScale(cfg, lib, Cell(i, j));
          grass := grass + [Placement(site, pos, lib.alignUp(pos), scale)];
          cells := cells + [Cell(i, j)];
        }
      }
    }
  }

  /**
    Filter soundness and completeness of the grass scatter: the cells it
    emits are exactly the grid cells meeting all three conditions, each
    once, in row-major order, and there are at most latSegments x
    lonSegments of them.
   */
  lemma KeptCellsExactly(cfg: GrassConfig, lib: Library)
    ensures forall k :: 0 <= k < |KeptCells(cfg, lib)| ==>
      InGrid(cfg, KeptCells(cfg, lib)[k]) && Kept(cfg, lib, KeptCells(cfg, lib)[k])
    ensures forall c :: InGrid(cfg, c) && Kept(cfg, lib, c) ==> c in KeptCells(cfg, lib)
    ensures StrictlyRowMajor(KeptCells(cfg, lib))
    ensures |KeptCells(cfg, lib)| <= cfg.latSegments * cfg.lonSegments
  {
    var keep := Keep(cfg, lib);
    KeptInRowsSound(keep, cfg.lonSegments, cfg.latSegments);
    KeptInRowsComplete(keep, cfg.lonSegments, cfg.latSegments);
    KeptInRowsOrdered(keep, cfg.lonSegments, cfg.latSegments);
    KeptInRowsCount(keep, cfg.lonSegments, cfg.latSegments);
  }

  /** With the planet's configuration the scatter emits at most 700 grass instances. */
  lemma SourceGrassAtMost700(lib: Library)
    ensures |KeptCells(SourceGrass, lib)| <= 700
  {
    KeptCellsExactly(SourceGrass, lib);
  }

  /** The jitter moves each coordinate by `(noise - 0.5) * jitter`, so within [-jitter/2, jitter/2). */
  lemma GrassJitterBound(cfg: GrassConfig, lib: Library, c: Cell)
    requires InGrid(cfg, c) && cfg.jitter > 0.0
    ensures -cfg.jitter / 2.0 <= JitteredSite(cfg, lib, c).lat - GridSite(cfg, c).lat < cfg.jitter / 2.0
    ensures -cfg.jitter / 2.0 <= JitteredSite(cfg, lib, c).lon - GridSite(cfg, c).lon < cfg.jitter / 2.0
  {
    var i, j := c.row as real, c.col as real;
    JitteredWithinHalf(GridSite(cfg, c), Noise(lib, i * 3.7, j * 4.3), Noise(lib, i * 5.1, j * 6.7), cfg.jitter);
  }

  /** Every grass scale lies in [scaleMin, scaleMin + scaleRange). */
  lemma GrassScaleBound(cfg: GrassConfig, lib: Library, c: Cell)
    requires cfg.scaleRange > 0.0
    ensures cfg.scaleMin <= GrassScale(cfg, lib, c) < cfg.scaleMin + cfg.scaleRange
  {
    ScaledWithinRange(cfg.scaleMin, Noise(lib, c.row as real * 1.1, c.col as real * 1.3), cfg.scaleRange);
  }

  /**
    For the planet's configuration: the jitter moves each coordinate of
    a cell by an amount in [-0.075, 0.075), and the scale lies in
    [0.2, 0.4).
   */
  lemma SourceGrassBounds(lib: Library, c: Cell)
    requires InGrid(SourceGrass, c)
    ensures -0.075 <= JitteredSite(SourceGrass, lib, c).lat - GridSite(SourceGrass, c).lat < 0.075
    ensures -0.075 <= JitteredSite(SourceGrass, lib, c).lon - GridSite(SourceGrass, c).lon < 0.075
    ensures 0.2 <= GrassAt(SourceGrass, lib, c).scale < 0.4
  {
    GrassJitterBound(SourceGrass, lib, c);
    GrassScaleBound(SourceGrass, lib, c);
  }
}
