/** How much a commitment is slashed for metrics it did not deliver, and for which epochs. */
module Slashing {
  import opened StakingBase
  import opened Arithmetic

  type PoolId = nat

  /** What is known of one pool a commitment committed to: `measured` is the epoch of the newest metric. */
  datatype PoolReport = PoolReport(pool: PoolId, committed: nat, actual: nat, measured: nat, ratio: nat)

  /** Reports on the pools of a commitment, one per pool. */
  type Reports = ps: seq<PoolReport> | OnePerPool(ps)

  predicate OnePerPool(ps: seq<PoolReport>) {
    forall i, j :: 0 <= i < j < |ps| ==> ps[i].pool != ps[j].pool
  }

  function Max(a: nat, b: nat): nat {
    if a < b then b else a
  }

  /** The epochs a slash charges for: all since the last metric or slash, or just the last one. */
  function MissedEpochs(p: PoolReport, lastEpoch: nat, lastSlashing: nat): nat {
    if p.actual == 0 && p.measured < lastEpoch then Minus(lastEpoch, Max(p.measured, lastSlashing)) else 1
  }

  /** A fraction in parts of `QUINTILL`, rounded down. */
  function Fraction(part: nat, whole: nat): nat {
    part * QUINTILL / Max(whole, 1)
  }

  function PoolSlash(p: PoolReport, stake: nat, base: nat, lastEpoch: nat, lastSlashing: nat): nat {
    if p.committed < p.actual then 0
    else
      MulFloor(Fraction(p.committed - p.actual, p.committed), MulFloor(p.ratio, MulFloor(base, stake)))
      * MissedEpochs(p, lastEpoch, lastSlashing)
  }

  function SlashTotal(ps: seq<PoolReport>, stake: nat, base: nat, lastEpoch: nat, lastSlashing: nat): nat
    decreases |ps|
  {
    if ps == [] then 0
    else
      var n := |ps| - 1;
      SlashTotal(ps[..n], stake, base, lastEpoch, lastSlashing) + PoolSlash(ps[n], stake, base, lastEpoch, lastSlashing)
  }

  method TotalSlash(ps: seq<PoolReport>, stake: nat, base: nat, lastEpoch: nat, lastSlashing: nat) returns (total: nat)
    ensures total == SlashTotal(ps, stake, base, lastEpoch, lastSlashing)
  {
    hide PoolSlash;
    total := 0;
    for i := 0 to |ps|
      invariant total == SlashTotal(ps[..i], stake, base, lastEpoch, lastSlashing)
    {
      assert ps[..i + 1][..i] == ps[..i];
      total := total + PoolSlash(ps[i], stake, base, lastEpoch, lastSlashing);
    }
    assert ps[..|ps|] == ps;
  }

  /** A pool without a shortfall is not charged, and one without any delivery is charged in full. */
  lemma {:induction false} SlashScale(p: PoolReport, stake: nat, base: nat, lastEpoch: nat, lastSlashing: nat)
    requires p.ratio <= QUINTILL && base <= QUINTILL
    ensures p.actual >= p.committed ==> PoolSlash(p, stake, base, lastEpoch, lastSlashing) == 0
    ensures p.actual == 0 < p.committed ==>
      PoolSlash(p, stake, base, lastEpoch, lastSlashing)
      == MulFloor(p.ratio, MulFloor(base, stake)) * MissedEpochs(p, lastEpoch, lastSlashing)
    ensures PoolSlash(p, stake, base, lastEpoch, lastSlashing) <= stake * MissedEpochs(p, lastEpoch, lastSlashing)
  {
    var share := MulFloor(p.ratio, MulFloor(base, stake));
    MulFloorBound(base, stake);
    MulFloorBound(p.ratio, MulFloor(base, stake));
    if p.actual <= p.committed {
      var f := Fraction(p.committed - p.actual, p.committed);
      FractionBound(p.committed - p.actual, p.committed);
      MulFloorBound(f, share);
      if p.actual == 0 < p.committed {
        assert f == QUINTILL;
        assert MulFloor(f, share) == share;
      }
      ProductMonotone(MulFloor(f, share), stake, MissedEpochs(p, lastEpoch, lastSlashing));
    }
  }

  lemma {:induction false} ProductMonotone(a: nat, b: nat, c: nat)
    requires a <= b
    ensures a * c <= b * c
  {
  }

  lemma {:induction false} FractionBound(part: nat, whole: nat)
    requires part <= whole
    ensures Fraction(part, whole) <= QUINTILL
    ensures part == whole > 0 ==> Fraction(part, whole) == QUINTILL
  {
    var m := Max(whole, 1);
    assert part * QUINTILL <= m * QUINTILL;
    DivMonotone(part * QUINTILL, m * QUINTILL, m);
    assert m * QUINTILL / m == QUINTILL;
  }

  /** The epochs charged to one pool. */
  function EpochsCharged(ps: seq<PoolReport>, pool: PoolId, lastEpoch: nat, lastSlashing: nat): nat
    decreases |ps|
  {
    if ps == [] then 0
    else
      var n := |ps| - 1;
      EpochsCharged(ps[..n], pool, lastEpoch, lastSlashing)
      + if ps[n].pool == pool then MissedEpochs(ps[n], lastEpoch, lastSlashing) else 0
  }

  lemma {:induction false} NotCharged(ps: seq<PoolReport>, pool: PoolId, lastEpoch: nat, lastSlashing: nat)
    requires forall i :: 0 <= i < |ps| ==> ps[i].pool != pool
    ensures EpochsCharged(ps, pool, lastEpoch, lastSlashing) == 0
    decreases |ps|
  {
    if ps != [] {
      NotCharged(ps[..|ps| - 1], pool, lastEpoch, lastSlashing);
    }
  }

  /** One slash charges a pool at most the epochs since the last slash. */
  lemma {:induction false} ChargeBound(ps: seq<PoolReport>, pool: PoolId, lastEpoch: nat, lastSlashing: nat)
    requires OnePerPool(ps) && lastSlashing < lastEpoch
    ensures lastSlashing + EpochsCharged(ps, pool, lastEpoch, lastSlashing) <= lastEpoch
    decreases |ps|
  {
    if ps != [] {
      var n := |ps| - 1;
      if ps[n].pool == pool {
        NotCharged(ps[..n], pool, lastEpoch, lastSlashing);
      } else {
        ChargeBound(ps[..n], pool, lastEpoch, lastSlashing);
      }
    }
  }
}
