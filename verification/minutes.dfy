/** The first half of `adjust_minutes`: draw a raw minutes value per player,
    clamp it, scale the roster to the target total and round. */
module MinutesAllocation {
  import opened Numeric
  import opened Draws
  import opened Roster

  /** Cap on one player's raw minutes: a full regulation game. */
  const MaxPlayerMinutes: real := 48.0
  /** Standard deviation of the raw minutes draw. */
  const MinutesSigma: real := 2.0
  /** Combined player-minutes of a regulation game: five players for 48 minutes. */
  const RegulationMinutes: int := 240
  /** Extra combined player-minutes per overtime period. */
  const OvertimePeriodMinutes: int := 5

  /** The target of an overtime re-simulation with `periods` overtime periods. */
  function OvertimeTarget(periods: OvertimeDraw): (target: int)
    ensures target in {245, 250, 255, 260}
    ensures RegulationMinutes < target
    ensures periods == (target - RegulationMinutes) / OvertimePeriodMinutes
  {
    RegulationMinutes + OvertimePeriodMinutes * periods
  }

  /** `min(48, max(0, x))`. */
  function ClampMinutes(x: real): (m: real)
    ensures 0.0 <= m <= MaxPlayerMinutes
    ensures 0.0 <= x <= MaxPlayerMinutes ==> m == x
    ensures x < 0.0 ==> m == 0.0
    ensures MaxPlayerMinutes < x ==> m == MaxPlayerMinutes
  {
    if x < 0.0 then 0.0 else if x > MaxPlayerMinutes then MaxPlayerMinutes else x
  }

  /** The first loop: player i's raw minutes come from the draw at `at + i`,
      centred on the player's season minutes, clamped to [0, 48]. */
  function RawMinutes(roster: seq<Player>, src: Source, at: nat): (raw: seq<real>)
    ensures |raw| == |roster|
    ensures forall i :: 0 <= i < |raw| ==> 0.0 <= raw[i] <= MaxPlayerMinutes
    ensures forall i :: 0 <= i < |raw| ==>
      raw[i] == ClampMinutes(Gauss(src, at + i, roster[i].minutesPerGame, MinutesSigma))
  {
    seq(|roster|, i requires 0 <= i < |roster| =>
      ClampMinutes(Gauss(src, at + i, roster[i].minutesPerGame, MinutesSigma)))
  }

  /** `target / total if total > 0 else 0`: never divides by zero. */
  function ScaleFactor(target: int, total: real): real
  {
    DivideOrZero(target, total)
  }

  /** A whole-minute total within half a minute per player of the target. */
  predicate WithinRounding(total: int, target: int, players: nat)
  {
    target as real - (players as real) / 2.0 <= total as real <= target as real + (players as real) / 2.0
  }

  /** One share of a non-negative total, scaled by target / total. */
  lemma ShareAtMostTarget(share: real, total: real, target: int, k: real)
    requires 0.0 <= share <= total
    requires 0 <= target
    requires k == ScaleFactor(target, total)
    ensures 0.0 <= share * k <= target as real
  {
    if total > 0.0 {
      assert 0.0 <= (total - share) * k;
      assert (total - share) * k == total * k - share * k;
      assert 0.0 <= share * k;
    }
  }

  /** Scaling every raw value by the scale factor makes no single share exceed
      the target. */
  lemma ScaledShareAtMostTarget(raw: seq<real>, target: int, k: real)
    requires AllNonNegative(raw)
    requires 0 <= target
    requires k == ScaleFactor(target, SumReal(raw))
    ensures forall i :: 0 <= i < |raw| ==> 0.0 <= raw[i] * k <= target as real
  {
    forall i | 0 <= i < |raw|
      ensures 0.0 <= raw[i] * k <= target as real
    {
      ElementAtMostSum(raw, i);
      ShareAtMostTarget(raw[i], SumReal(raw), target, k);
    }
  }

  /** A share scaled by k, where k times the total is the target, is in the
      same proportion to the target as the share is to the total. */
  lemma ScaledProportion(share: real, total: real, target: int, k: real, scaledShare: real)
    requires k * total == target as real
    requires scaledShare == share * k
    ensures scaledShare * total == share * target as real
  {
    calc {
      scaledShare * total;
      (share * k) * total;
      share * (k * total);
      share * target as real;
    }
  }

  /** Multiplying every raw value by k, where k times a positive total is
      the target, keeps each value's proportion to the total. */
  lemma ScaledSeqProportion(raw: seq<real>, target: int, k: real, scaled: seq<real>)
    requires |scaled| == |raw|
    requires forall i :: 0 <= i < |raw| ==> scaled[i] == raw[i] * k
    requires 0.0 < SumReal(raw) ==> k * SumReal(raw) == target as real
    ensures 0.0 < SumReal(raw) ==>
      forall i :: 0 <= i < |scaled| ==> scaled[i] * SumReal(raw) == raw[i] * target as real
  {
    var total := SumReal(raw);
    if 0.0 < total {
      forall i | 0 <= i < |scaled|
        ensures scaled[i] * total == raw[i] * target as real
      {
        ScaledProportion(raw[i], total, target, k, scaled[i]);
      }
    }
  }

  /** Multiplying every raw value by the scale factor keeps each within
      [0, target] when the values and the target are non-negative. */
  lemma ScaledSeqBounded(raw: seq<real>, target: int, k: real, scaled: seq<real>)
    requires |scaled| == |raw|
    requires forall i :: 0 <= i < |raw| ==> scaled[i] == raw[i] * k
    requires k == ScaleFactor(target, SumReal(raw))
    ensures AllNonNegative(raw) && 0 <= target ==>
      forall i :: 0 <= i < |scaled| ==> 0.0 <= scaled[i] <= target as real
  {
    if AllNonNegative(raw) && 0 <= target {
      ScaledShareAtMostTarget(raw, target, k);
    }
  }

  /** Each raw value multiplied by the scale factor, before rounding: with a
      positive total, scaled[i] : target is raw[i] : total. */
  function Scaled(raw: seq<real>, target: int): (scaled: seq<real>)
    ensures |scaled| == |raw|
    ensures 0.0 < SumReal(raw) ==>
      forall i :: 0 <= i < |scaled| ==> scaled[i] * SumReal(raw) == raw[i] * target as real
    ensures SumReal(raw) <= 0.0 ==> forall i :: 0 <= i < |scaled| ==> scaled[i] == 0.0
    ensures 0.0 < SumReal(raw) ==> SumReal(scaled) == target as real
    ensures AllNonNegative(raw) && 0 <= target ==>
      forall i :: 0 <= i < |scaled| ==> 0.0 <= scaled[i] <= target as real
  {
    var k := ScaleFactor(target, SumReal(raw));
    var scaled := seq(|raw|, i requires 0 <= i < |raw| => raw[i] * k);
    SumRealScaled(raw, scaled, k);
    ScaledSeqProportion(raw, target, k, scaled);
    ScaledSeqBounded(raw, target, k, scaled);
    scaled
  }

  /** Rounding values that lie in [0, target] keeps them there. */
  lemma RoundedSeqBounded(raw: seq<real>, target: int, scaled: seq<real>, alloc: seq<int>)
    requires scaled == Scaled(raw, target)
    requires |alloc| == |scaled|
    requires forall i :: 0 <= i < |alloc| ==> alloc[i] == RoundHalfEven(scaled[i])
    ensures AllNonNegative(raw) && 0 <= target ==>
      forall i :: 0 <= i < |alloc| ==> 0 <= alloc[i] <= target
  {
    if AllNonNegative(raw) && 0 <= target {
      forall i | 0 <= i < |alloc|
        ensures 0 <= alloc[i] <= target
      {
        RoundStaysInRange(scaled[i], target);
      }
    }
  }

  /** The scaling and rounding pass: each value becomes
      `round(value * scale)`. */
  function Allocate(raw: seq<real>, target: int): (alloc: seq<int>)
    ensures |alloc| == |raw|
    ensures forall i :: 0 <= i < |alloc| ==> RoundsTo(alloc[i], Scaled(raw, target)[i])
    ensures SumReal(raw) <= 0.0 ==> forall i :: 0 <= i < |alloc| ==> alloc[i] == 0
    ensures 0.0 < SumReal(raw) ==> WithinRounding(SumInt(alloc), target, |raw|)
    ensures AllNonNegative(raw) && 0 <= target ==>
      forall i :: 0 <= i < |alloc| ==> 0 <= alloc[i] <= target
  {
    var scaled := Scaled(raw, target);
    var alloc := seq(|raw|, i requires 0 <= i < |raw| => RoundHalfEven(scaled[i]));
    RoundingDriftBound(alloc, scaled);
    RoundedSeqBounded(raw, target, scaled, alloc);
    alloc
  }

  /** The whole first half of `adjust_minutes` for one roster. */
  function AllocateMinutes(roster: seq<Player>, target: int, src: Source, at: nat): (alloc: seq<int>)
    ensures |alloc| == |roster|
    ensures forall i :: 0 <= i < |alloc| ==>
      RoundsTo(alloc[i], Scaled(RawMinutes(roster, src, at), target)[i])
    ensures 0 <= target ==> forall i :: 0 <= i < |alloc| ==> 0 <= alloc[i] <= target
    ensures 0.0 < SumReal(RawMinutes(roster, src, at)) ==> WithinRounding(SumInt(alloc), target, |roster|)
    ensures SumReal(RawMinutes(roster, src, at)) <= 0.0 ==> forall i :: 0 <= i < |alloc| ==> alloc[i] == 0
  {
    Allocate(RawMinutes(roster, src, at), target)
  }

  /** Nothing caps the allocated minutes at 48: a lone player with any
      positive raw minutes is scaled to the whole target. */
  lemma LonePlayerTakesWholeTarget(raw: real, target: int)
    requires 0.0 < raw
    ensures Allocate([raw], target) == [target]
  {
    assert SumReal([raw]) == raw;
    var scaled := Scaled([raw], target);
    assert scaled[0] == target as real by {
      assert SumReal(scaled) == scaled[0] + SumReal([]);
    }
    RoundHalfEvenIsUnique(target as real, target);
  }
}
