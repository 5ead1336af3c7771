/**
  The wheat cluster scatter: a fixed number of instances around each
  centre of a cluster list, each jittered by noise around its centre and
  scaled by noise, with no rejection step.
 */
module WheatScatter {
  import opened HostMath
  import opened NoiseMask
  import opened Sphere
  import opened Variation
  import opened Blocks

  /** Everything the wheat scatter is configured with. */
  datatype WheatConfig = WheatConfig(
    clusters: seq<SurfaceCoordinate>,
    count: nat,
    spread: real,
    scaleMin: real,
    scaleRange: real,
    radius: real)

  /** The planet's ten wheat clusters of 25 stalks each. */
  const SourceWheat: WheatConfig := WheatConfig(
    [ SurfaceCoordinate(0.2, 0.0), SurfaceCoordinate(-0.3, 0.3), SurfaceCoordinate(0.5, -0.4),
      SurfaceCoordinate(-0.6, -0.3), SurfaceCoordinate(0.1, 0.6), SurfaceCoordinate(0.7, 0.2),
      SurfaceCoordinate(-0.2, -0.5), SurfaceCoordinate(0.4, 0.4), SurfaceCoordinate(-0.5, 0.1),
      SurfaceCoordinate(0.6, -0.2) ],
    25, 0.05, 0.8, 0.4, 250.0)

  /** Where instance i of cluster c stands: its centre moved by two decorrelated noises. */
  function WheatSite(cfg: WheatConfig, lib: Library, c: nat, i: nat): SurfaceCoordinate
    requires c < |cfg.clusters|
  {
    var ci, ii := c as real, i as real;
    var nX := Noise(lib, ii * 0.5 + ci * 10.0, ii * 0.7);
    var nY := Noise(lib, ii * 0.3 + ci * 15.0, ii * 0.9);
    Jittered(cfg.clusters[c], nX, nY, cfg.spread)
  }

  function WheatScale(cfg: WheatConfig, lib: Library, c: nat, i: nat): real
  {
    var ci, ii := c as real, i as real;
    Scaled(cfg.scaleMin, Noise(lib, ii * 1.2 + ci * 5.0, ii * 1.5), cfg.scaleRange)
  }

  /** The placement of instance i of cluster c. */
  function WheatAt(cfg: WheatConfig, lib: Library, c: nat, i: nat): Placement
    requires c < |cfg.clusters|
  {
    PlaceAt(lib, WheatSite(cfg, lib, c, i), cfg.radius, WheatScale(cfg, lib, c, i))
  }

  /** The instances of cluster c, in index order. */
  function ClusterWheat(cfg: WheatConfig, lib: Library, c: nat): (r: seq<Placement>)
    requires c < |cfg.clusters|
    ensures |r| == cfg.count
  {
    seq(cfg.count, i requires 0 <= i => WheatAt(cfg, lib, c, i))
  }

  /** One block of instances per cluster, in list order. */
  function ClusterBlocks(cfg: WheatConfig, lib: Library): (r: seq<seq<Placement>>)
    ensures |r| == |cfg.clusters| && Uniform(r, cfg.count)
  {
    seq(|cfg.clusters|, c requires 0 <= c < |cfg.clusters| => ClusterWheat(cfg, lib, c))
  }

  /** Every instance of every cluster, cluster by cluster. */
  function AllWheat(cfg: WheatConfig, lib: Library): seq<Placement>
  {
    Flatten(ClusterBlocks(cfg, lib))
  }

  /** The scatter loop: exactly the instances of `AllWheat`, in the same order. */
  method Scatter(cfg: WheatConfig, lib: Library) returns (wheat: seq<Placement>)
    ensures wheat == AllWheat(cfg, lib)
  {
    wheat := [];
    ghost var blocks := ClusterBlocks(cfg, lib);
    for c := 0 to |cfg.clusters|
      invariant wheat == Flatten(blocks[..c])
    {
      var stalks := PlantCluster(cfg, lib, c);
      FlattenSnoc(blocks, c);
      wheat := wheat + stalks;
    }
    assert blocks[..|cfg.clusters|] == blocks;
  }

  /** The loop body for cluster c: its `count` instances in index order. */
  method PlantCluster(cfg: WheatConfig, lib: Library, c: nat) returns (stalks: seq<Placement>)
    requires c < |cfg.clusters|
    ensures stalks == ClusterWheat(cfg, lib, c)
  {
    stalks := [];
    var cluster := cfg.clusters[c];
    for i := 0 to cfg.count
      invariant |stalks| == i
      invariant forall j :: 0 <= j < i ==> stalks[j] == WheatAt(cfg, lib, c, j)
    {
      var ci, ii := c as real, i as real;
      var nX := Noise(lib, ii * 0.5 + ci * 10.0, ii * 0.7);
      var nY := Noise(lib, ii * 0.3 + ci * 15.0, ii * 0.9);
      var site := Jittered(cluster, nX, nY, cfg.spread);
      var pos := SphericalPosition(lib, site.lat, site.lon, cfg.radius);
      var scale := WheatScale(cfg, lib, c, i);
      stalks := stalks + [Placement(site, pos, lib.alignUp(pos), scale)];
    }
  }

  /** The scatter emits `count` instances for each cluster. */
  lemma AllWheatLength(cfg: WheatConfig, lib: Library)
    ensures |AllWheat(cfg, lib)| == |cfg.clusters| * cfg.count
  {
    FlattenLength(ClusterBlocks(cfg, lib), cfg.count);
    BlockStartIsProduct(|cfg.clusters|, cfg.count);
  }

  /**
    Clusters in list order and instances in index order: instance i of
    cluster c is at position c * count + i.
   */
  lemma AllWheatAt(cfg: WheatConfig, lib: Library, c: nat, i: nat)
    requires c < |cfg.clusters| && i < cfg.count
    ensures c * cfg.count + i < |AllWheat(cfg, lib)|
    ensures AllWheat(cfg, lib)[c * cfg.count + i] == WheatAt(cfg, lib, c, i)
  {
    FlattenAt(ClusterBlocks(cfg, lib), cfg.count, c, i);
    BlockStartIsProduct(c, cfg.count);
  }

  /** Each instance lies within half the spread of its cluster centre, in each coordinate. */
  lemma WheatNearCentre(cfg: WheatConfig, lib: Library, c: nat, i: nat)
    requires c < |cfg.clusters| && cfg.spread > 0.0
    ensures -cfg.spread / 2.0 <= WheatSite(cfg, lib, c, i).lat - cfg.clusters[c].lat < cfg.spread / 2.0
    ensures -cfg.spread / 2.0 <= WheatSite(cfg, lib, c, i).lon - cfg.clusters[c].lon < cfg.spread / 2.0
  {
    var ci, ii := c as real, i as real;
    JitteredWithinHalf(cfg.clusters[c], Noise(lib, ii * 0.5 + ci * 10.0, ii * 0.7),
                       Noise(lib, ii * 0.3 + ci * 15.0, ii * 0.9), cfg.spread);
  }

  /** Every wheat scale lies in [scaleMin, scaleMin + scaleRange). */
  lemma WheatScaleBound(cfg: WheatConfig, lib: Library, c: nat, i: nat)
    requires cfg.scaleRange > 0.0
    ensures cfg.scaleMin <= WheatScale(cfg, lib, c, i) < cfg.scaleMin + cfg.scaleRange
  {
    var ci, ii := c as real, i as real;
    ScaledWithinRange(cfg.scaleMin, Noise(lib, ii * 1.2 + ci * 5.0, ii * 1.5), cfg.scaleRange);
  }

  /**
    For the planet's clusters: 250 instances, each within [-0.025, 0.025)
    of its centre in each coordinate and scaled within [0.8, 1.2).
   */
  lemma SourceWheatBounds(lib: Library, c: nat, i: nat)
    requires c < 10 && i < 25
    ensures |SourceWheat.clusters| * SourceWheat.count == 250
    ensures -0.025 <= WheatSite(SourceWheat, lib, c, i).lat - SourceWheat.clusters[c].lat < 0.025
    ensures -0.025 <= WheatSite(SourceWheat, lib, c, i).lon - SourceWheat.clusters[c].lon < 0.025
    ensures 0.8 <= WheatAt(SourceWheat, lib, c, i).scale < 1.2
  {
    WheatNearCentre(SourceWheat, lib, c, i);
    WheatScaleBound(SourceWheat, lib, c, i);
  }
}
