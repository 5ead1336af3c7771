/**
  The pond bend: every vertex of the pond mesh's position buffer is
  lowered by a paraboloid centred on the mesh centre, so the flat pond
  follows the curve of the planet. The buffer has the packed xyz layout
  of a position attribute with item size 3: vertex v occupies entries 3v (X), 3v + 1 (Y) and 3v + 2 (Z), and
  the buffer holds `length / 3` whole vertices.
 */
module PondBend {
  import opened HostMath

  /** The planet's bend strength. */
  const SourceBendStrength: real := 0.003

  /** Vertex v's coordinate `axis` (0 = X, 1 = Y, 2 = Z) sits at 3v + axis. */
  function Entry(v: nat, axis: nat): nat
  {
    3 * v + axis
  }

  /** The horizontal squared distance from (x, z) to the centre, times the bend strength. */
  function Sag(x: real, z: real, center: Vec3, strength: real): real
  {
    var dx, dz := x - center.x, z - center.z;
    (dx * dx + dz * dz) * strength
  }

  /** Whether buffer entry j is the Y of a whole vertex. */
  predicate IsY(len: nat, j: nat)
  {
    j % 3 == 1 && j / 3 < len / 3
  }

  /** Entry 3v + axis is a Y exactly when axis is 1 and v is a whole vertex. */
  lemma IsYAt(len: nat, v: nat, axis: nat)
    requires axis < 3
    ensures IsY(len, Entry(v, axis)) <==> axis == 1 && v < len / 3
  {
    assert Entry(v, axis) / 3 == v && Entry(v, axis) % 3 == axis;
  }

  /** Both neighbours of a Y lie in the buffer, and neither is a Y. */
  lemma NeighboursOfY(len: nat, j: nat)
    requires IsY(len, j)
    ensures 1 <= j && j + 1 < len
    ensures !IsY(len, j - 1) && !IsY(len, j + 1)
  {
    var v := j / 3;
    assert j == Entry(v, 1);
    IsYAt(len, v, 0);
    IsYAt(len, v, 2);
  }

  /** Entries from 3 * (len / 3) on belong to no whole vertex. */
  lemma TailIsNotY(len: nat, j: nat)
    requires Entry(len / 3, 0) <= j
    ensures !IsY(len, j)
  {
  }

  /**
    The buffer after the bend: the Y of every whole vertex lowered by the
    sag at that vertex's X and Z; every other entry as it was.
   */
  function Bent(s: seq<real>, center: Vec3, strength: real): (r: seq<real>)
    ensures |r| == |s|
  {
    seq(|s|, j requires 0 <= j < |s| =>
      if IsY(|s|, j) then s[j] - Sag(s[j - 1], s[j + 1], center, strength) else s[j])
  }

  /**
    The buffer before the bend, recovered from the bent one: the X and Z
    of each vertex are unchanged, so its sag can be recomputed and added
    back.
   */
  function Unbent(s: seq<real>, center: Vec3, strength: real): (r: seq<real>)
    ensures |r| == |s|
  {
    seq(|s|, j requires 0 <= j < |s| =>
      if IsY(|s|, j) then s[j] + Sag(s[j - 1], s[j + 1], center, strength) else s[j])
  }

  /**
    The bend loop over the vertex count. Afterwards the buffer is exactly
    `Bent` of what it held before.
   */
  method BendVertices(positions: array<real>, center: Vec3, bendStrength: real)
    modifies positions
    ensures positions[..] == Bent(old(positions[..]), center, bendStrength)
  {
    ghost var s := positions[..];
    ghost var goal := Bent(s, center, bendStrength);
    var count := positions.Length / 3;
    for i := 0 to count
      invariant forall j :: 0 <= j < positions.Length ==>
        positions[j] == (if j < Entry(i, 0) then goal[j] else s[j])
    {
      var x := positions[Entry(i, 0)];
      var y := positions[Entry(i, 1)];
      var z := positions[Entry(i, 2)];
      var dx := x - center.x;
      var dz := z - center.z;
      IsYAt(positions.Length, i, 0);
      IsYAt(positions.Length, i, 1);
      IsYAt(positions.Length, i, 2);
      positions[Entry(i, 1)] := y - (dx * dx + dz * dz) * bendStrength;
    }
    forall j | 0 <= j < positions.Length
      ensures positions[j] == goal[j]
    {
      if j >= Entry(count, 0) {
        TailIsNotY(positions.Length, j);
      }
    }
  }

  /** Vertex v's new Y is its old Y less the sag at its old X and Z. */
  lemma BentVertex(s: seq<real>, center: Vec3, strength: real, v: nat)
    requires v < |s| / 3
    ensures Entry(v, 2) < |s|
    ensures Bent(s, center, strength)[Entry(v, 1)] ==
      s[Entry(v, 1)] - Sag(s[Entry(v, 0)], s[Entry(v, 2)], center, strength)
  {
    IsYAt(|s|, v, 1);
  }

  /** The bend changes no X and no Z. */
  lemma BentKeepsXZ(s: seq<real>, center: Vec3, strength: real, v: nat, axis: nat)
    requires Entry(v, axis) < |s| && (axis == 0 || axis == 2)
    ensures Bent(s, center, strength)[Entry(v, axis)] == s[Entry(v, axis)]
  {
    IsYAt(|s|, v, axis);
  }

  /** The bend changes nothing past the last whole vertex. */
  lemma BentKeepsTail(s: seq<real>, center: Vec3, strength: real)
    ensures forall j :: Entry(|s| / 3, 0) <= j < |s| ==> Bent(s, center, strength)[j] == s[j]
  {
    forall j | Entry(|s| / 3, 0) <= j < |s|
      ensures Bent(s, center, strength)[j] == s[j]
    {
      TailIsNotY(|s|, j);
    }
  }

  /** The sag is never negative when the strength is not. */
  lemma SagNonNegative(x: real, z: real, center: Vec3, strength: real)
    requires strength >= 0.0
    ensures Sag(x, z, center, strength) >= 0.0
  {
    var dx, dz := x - center.x, z - center.z;
    var d2 := dx * dx + dz * dz;
    assert d2 >= 0.0;
    assert d2 * strength >= 0.0;
  }

  /** With a non-negative strength no entry rises. */
  lemma BentNeverRises(s: seq<real>, center: Vec3, strength: real)
    requires strength >= 0.0
    ensures forall j :: 0 <= j < |s| ==> Bent(s, center, strength)[j] <= s[j]
  {
    forall j | 0 <= j < |s|
      ensures Bent(s, center, strength)[j] <= s[j]
    {
      if IsY(|s|, j) {
        NeighboursOfY(|s|, j);
        SagNonNegative(s[j - 1], s[j + 1], center, strength);
      }
    }
  }

  /** With the planet's bend strength no entry of the pond buffer rises. */
  lemma SourcePondNeverRises(s: seq<real>, center: Vec3)
    ensures forall j :: 0 <= j < |s| ==> Bent(s, center, SourceBendStrength)[j] <= s[j]
  {
    BentNeverRises(s, center, SourceBendStrength);
  }

  /** A vertex straight above or below the centre keeps its Y. */
  lemma CentreVertexStays(s: seq<real>, center: Vec3, strength: real, v: nat)
    requires v < |s| / 3
    requires s[Entry(v, 0)] == center.x && s[Entry(v, 2)] == center.z
    ensures Bent(s, center, strength)[Entry(v, 1)] == s[Entry(v, 1)]
  {
    BentVertex(s, center, strength, v);
  }

  /** Farther from the centre means a larger drop, for a non-negative strength. */
  lemma SagGrowsWithDistance(x1: real, z1: real, x2: real, z2: real, center: Vec3, strength: real)
    requires strength >= 0.0
    requires (x1 - center.x) * (x1 - center.x) + (z1 - center.z) * (z1 - center.z) <=
             (x2 - center.x) * (x2 - center.x) + (z2 - center.z) * (z2 - center.z)
    ensures Sag(x1, z1, center, strength) <= Sag(x2, z2, center, strength)
  {
    var d1 := (x1 - center.x) * (x1 - center.x) + (z1 - center.z) * (z1 - center.z);
    var d2 := (x2 - center.x) * (x2 - center.x) + (z2 - center.z) * (z2 - center.z);
    var gap := d2 - d1;
    assert gap * strength >= 0.0;
    assert d2 * strength == d1 * strength + gap * strength;
  }

  /** Undoing the bend gives back the original buffer. */
  lemma UnbendBent(s: seq<real>, center: Vec3, strength: real)
    ensures Unbent(Bent(s, center, strength), center, strength) == s
  {
    var b := Bent(s, center, strength);
    forall j | 0 <= j < |s|
      ensures Unbent(b, center, strength)[j] == s[j]
    {
      if IsY(|s|, j) {
        NeighboursOfY(|s|, j);
        assert b[j - 1] == s[j - 1] && b[j + 1] == s[j + 1];
      }
    }
  }

  /**
    Bending twice about the same centre is one bend with the summed
    strength: the X and Z the sag is measured from do not move.
   */
  lemma BentTwice(s: seq<real>, center: Vec3, a: real, b: real)
    ensures Bent(Bent(s, center, a), center, b) == Bent(s, center, a + b)
  {
    var once := Bent(s, center, a);
    forall j | 0 <= j < |s|
      ensures Bent(once, center, b)[j] == Bent(s, center, a + b)[j]
    {
      if IsY(|s|, j) {
        NeighboursOfY(|s|, j);
        assert once[j - 1] == s[j - 1] && once[j + 1] == s[j + 1];
        SagSplits(s[j - 1], s[j + 1], center, a, b);
      }
    }
  }

  /** The buffer after k passes of the bend with the same strength and centre. */
  function BentN(s: seq<real>, center: Vec3, strength: real, k: nat): (r: seq<real>)
    ensures |r| == |s|
  {
    if k == 0 then s else Bent(BentN(s, center, strength, k - 1), center, strength)
  }

  /** k passes of the bend are one bend with k times the strength. */
  lemma {:induction false} BentNIsOneBend(s: seq<real>, center: Vec3, strength: real, k: nat)
    ensures BentN(s, center, strength, k) == Bent(s, center, k as real * strength)
  {
    if k == 0 {
      ZeroStrengthIsIdentity(s, center);
    } else {
      var m: nat := k - 1;
      var before := m as real * strength;
      BentNIsOneBend(s, center, strength, m);
      assert BentN(s, center, strength, k) == Bent(Bent(s, center, before), center, strength);
      BentTwice(s, center, before, strength);
      assert before + strength == k as real * strength;
    }
  }

  /** The sag is linear in the strength. */
  lemma SagSplits(x: real, z: real, center: Vec3, a: real, b: real)
    ensures Sag(x, z, center, a) + Sag(x, z, center, b) == Sag(x, z, center, a + b)
  {
    var dx, dz := x - center.x, z - center.z;
    var d2 := dx * dx + dz * dz;
    assert d2 * a + d2 * b == d2 * (a + b);
  }

  /** The bend with zero strength changes nothing. */
  lemma ZeroStrengthIsIdentity(s: seq<real>, center: Vec3)
    ensures Bent(s, center, 0.0) == s
  {
    assert forall j :: 0 <= j < |s| ==> Bent(s, center, 0.0)[j] == s[j];
  }
}
