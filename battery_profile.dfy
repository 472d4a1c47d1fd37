/** The battery predictor's weekly usage profile: one average power draw per
    half-hour of the week (336 slots), each kept as an exponential moving
    average, with a sample count per slot for confidence. The local time is
    a parameter (day of the week from Monday = 0, hour, minute). */
module BatteryProfile {
  import opened RustText

  const SLOTS_PER_DAY: nat := 48
  const NUM_SLOTS: nat := SLOTS_PER_DAY * 7

  /** The slot of a time of the week: two per hour, the second from minute
      30 on. */
  function SlotIndex(day: nat, hour: nat, minute: nat): (i: nat)
    ensures day < 7 && hour < 24 && minute < 60 ==> i < NUM_SLOTS
  {
    day * 48 + hour * 2 + (if minute >= 30 then 1 else 0)
  }

  /** Two times share a slot exactly when they fall in the same half-hour of
      the same day. */
  lemma SlotIndexInjective(d1: nat, h1: nat, m1: nat, d2: nat, h2: nat, m2: nat)
    requires d1 < 7 && h1 < 24 && m1 < 60 && d2 < 7 && h2 < 24 && m2 < 60
    ensures SlotIndex(d1, h1, m1) == SlotIndex(d2, h2, m2) <==> d1 == d2 && h1 == h2 && (m1 >= 30 <==> m2 >= 30)
  {
    var i1, i2 := SlotIndex(d1, h1, m1), SlotIndex(d2, h2, m2);
    if i1 == i2 {
      assert i1 / 48 == d1 && i1 % 48 / 2 == h1 && (i1 % 2 == 1 <==> m1 >= 30);
      assert i2 / 48 == d2 && i2 % 48 / 2 == h2 && (i2 % 2 == 1 <==> m2 >= 30);
    }
  }

  /** Monday 00:00, 00:30, 01:00 and 23:30, Tuesday 00:00 and Sunday 23:30. */
  lemma SlotIndexExamples()
    ensures SlotIndex(0, 0, 0) == 0 && SlotIndex(0, 0, 30) == 1 && SlotIndex(0, 1, 0) == 2
    ensures SlotIndex(0, 23, 30) == 47 && SlotIndex(1, 0, 0) == 48 && SlotIndex(6, 23, 30) == 335
  {
  }

  /** One step of the moving average. */
  function Ewma(alpha: real, observed: real, previous: real): real {
    alpha * observed + (1.0 - alpha) * previous
  }

  /** For a smoothing factor between 0 and 1 the new average lies between
      the previous average and the observation, and is no farther from the
      observation than the previous one. */
  lemma EwmaBetween(alpha: real, observed: real, previous: real)
    requires 0.0 <= alpha <= 1.0
    ensures var r := Ewma(alpha, observed, previous);
      && (previous <= observed ==> previous <= r <= observed)
      && (observed <= previous ==> observed <= r <= previous)
      && r - observed == (1.0 - alpha) * (previous - observed)
  {
    var d := observed - previous;
    assert Ewma(alpha, observed, previous) == previous + alpha * d;
    ScaledKeepsSign(alpha, d);
    ScaledKeepsSign(1.0 - alpha, d);
  }

  lemma ScaledKeepsSign(k: real, d: real)
    requires 0.0 <= k
    ensures d >= 0.0 ==> k * d >= 0.0
    ensures d <= 0.0 ==> k * d <= 0.0
  {
  }

  /** A sample count incremented as a saturating `u32`. */
  function SaturatingInc(count: nat): nat {
    if count < U32_MAX then count + 1 else U32_MAX
  }

  /** The confidence of a slot with `count` samples: the count over 50,
      at most 1. */
  function Confidence(count: nat): (r: real)
    ensures 0.0 <= r <= 1.0
    ensures count >= 50 ==> r == 1.0
    ensures count < 50 ==> r * 50.0 == count as real
  {
    var c := count as real / 50.0;
    if c < 1.0 then c else 1.0
  }

  /** The profile's contents. */
  datatype ProfileState = ProfileState(slots: seq<real>, counts: seq<nat>, alpha: real)

  predicate WellFormed(p: ProfileState) {
    |p.slots| == NUM_SLOTS && |p.counts| == NUM_SLOTS && forall i :: 0 <= i < |p.counts| ==> p.counts[i] <= U32_MAX
  }

  /** `UsageProfile::new`: every slot at the default power, no samples. */
  function NewProfile(alpha: real, defaultPower: real): (p: ProfileState)
    ensures WellFormed(p)
  {
    ProfileState(seq(NUM_SLOTS, _ => defaultPower), seq(NUM_SLOTS, _ => 0), alpha)
  }

  /** One observation in slot `i`. */
  function Observe(p: ProfileState, powerDraw: real, i: nat): ProfileState
    requires i < |p.slots| && i < |p.counts|
  {
    p.(slots := p.slots[i := Ewma(p.alpha, powerDraw, p.slots[i])],
       counts := p.counts[i := SaturatingInc(p.counts[i])])
  }

  /** An observation moves only its own slot's average and count, keeps the
      profile well formed, and leaves the smoothing factor alone. */
  lemma ObserveOnlyItsSlot(p: ProfileState, powerDraw: real, i: nat)
    requires WellFormed(p) && i < NUM_SLOTS
    ensures var q := Observe(p, powerDraw, i);
      && WellFormed(q) && q.alpha == p.alpha
      && (forall j :: 0 <= j < NUM_SLOTS && j != i ==> q.slots[j] == p.slots[j] && q.counts[j] == p.counts[j])
      && q.counts[i] == (if p.counts[i] < U32_MAX then p.counts[i] + 1 else U32_MAX)
  {
  }

  /** `n` observations of the same power in the same slot. */
  function ObserveRepeatedly(p: ProfileState, powerDraw: real, i: nat, n: nat): (q: ProfileState)
    requires i < |p.slots| && i < |p.counts|
    ensures |q.slots| == |p.slots| && |q.counts| == |p.counts| && q.alpha == p.alpha
  {
    if n == 0 then p else Observe(ObserveRepeatedly(p, powerDraw, i, n - 1), powerDraw, i)
  }

  function Pow(b: real, n: nat): real {
    if n == 0 then 1.0 else b * Pow(b, n - 1)
  }

  /** Repeating one observation shrinks the slot's distance to it by the
      factor 1 - alpha each time, and counts every observation up to
      `u32::MAX`. */
  lemma ObserveRepeatedlyConverges(p: ProfileState, powerDraw: real, i: nat, n: nat)
    requires i < |p.slots| && i < |p.counts| && p.counts[i] <= U32_MAX
    ensures var q := ObserveRepeatedly(p, powerDraw, i, n);
      && q.slots[i] - powerDraw == Pow(1.0 - p.alpha, n) * (p.slots[i] - powerDraw)
      && q.counts[i] == (if p.counts[i] + n <= U32_MAX then p.counts[i] + n else U32_MAX)
  {
    SlotConverges(p, powerDraw, i, n);
    CountSaturates(p, powerDraw, i, n);
  }

  lemma {:induction false} SlotConverges(p: ProfileState, powerDraw: real, i: nat, n: nat)
    requires i < |p.slots| && i < |p.counts|
    ensures ObserveRepeatedly(p, powerDraw, i, n).slots[i] - powerDraw == Pow(1.0 - p.alpha, n) * (p.slots[i] - powerDraw)
  {
    if n > 0 {
      SlotConverges(p, powerDraw, i, n - 1);
      SlotStep(p, powerDraw, i, n);
      var b, distance := 1.0 - p.alpha, p.slots[i] - powerDraw;
      assert b * (Pow(b, n - 1) * distance) == (b * Pow(b, n - 1)) * distance;
    }
  }

  /** One more observation scales the slot's distance to the power by
      1 - alpha. */
  lemma SlotStep(p: ProfileState, powerDraw: real, i: nat, n: nat)
    requires i < |p.slots| && i < |p.counts| && n > 0
    ensures ObserveRepeatedly(p, powerDraw, i, n).slots[i] - powerDraw
      == (1.0 - p.alpha) * (ObserveRepeatedly(p, powerDraw, i, n - 1).slots[i] - powerDraw)
  {
    var previous := ObserveRepeatedly(p, powerDraw, i, n - 1).slots[i];
    assert ObserveRepeatedly(p, powerDraw, i, n).slots[i] == Ewma(p.alpha, powerDraw, previous);
    EwmaDistance(p.alpha, powerDraw, previous, 1.0, previous - powerDraw);
  }

  lemma {:induction false} CountSaturates(p: ProfileState, powerDraw: real, i: nat, n: nat)
    requires i < |p.slots| && i < |p.counts| && p.counts[i] <= U32_MAX
    ensures ObserveRepeatedly(p, powerDraw, i, n).counts[i] == (if p.counts[i] + n <= U32_MAX then p.counts[i] + n else U32_MAX)
  {
    if n > 0 {
      CountSaturates(p, powerDraw, i, n - 1);
      var previous := ObserveRepeatedly(p, powerDraw, i, n - 1).counts[i];
      assert ObserveRepeatedly(p, powerDraw, i, n).counts[i] == SaturatingInc(previous);
    }
  }

  /** One moving-average step scales the distance to the observation by
      1 - alpha. */
  lemma EwmaDistance(alpha: real, observed: real, previous: real, factor: real, distance: real)
    requires previous - observed == factor * distance
    ensures Ewma(alpha, observed, previous) - observed == ((1.0 - alpha) * factor) * distance
  {
    calc {
      Ewma(alpha, observed, previous) - observed;
      (1.0 - alpha) * (previous - observed);
      (1.0 - alpha) * (factor * distance);
    }
  }

  /** The confidence of a fresh profile is 0; after 25 samples it is one
      half and after 50 it is 1. */
  lemma ConfidenceExamples(alpha: real, defaultPower: real, powerDraw: real, i: nat)
    requires i < NUM_SLOTS
    ensures Confidence(NewProfile(alpha, defaultPower).counts[i]) == 0.0
    ensures Confidence(ObserveRepeatedly(NewProfile(alpha, defaultPower), powerDraw, i, 25).counts[i]) == 0.5
    ensures Confidence(ObserveRepeatedly(NewProfile(alpha, defaultPower), powerDraw, i, 50).counts[i]) == 1.0
  {
    ObserveRepeatedlyConverges(NewProfile(alpha, defaultPower), powerDraw, i, 25);
    ObserveRepeatedlyConverges(NewProfile(alpha, defaultPower), powerDraw, i, 50);
  }

  class UsageProfile {
    var slots: seq<real>
    var counts: seq<nat>
    var alpha: real

    function State(): ProfileState
      reads this
    {
      ProfileState(slots, counts, alpha)
    }

    ghost predicate Valid()
      reads this
    {
      WellFormed(State())
    }

    /** `UsageProfile::new`. */
    constructor (alpha: real, defaultPower: real)
      ensures State() == NewProfile(alpha, defaultPower) && Valid()
    {
      slots := seq(NUM_SLOTS, _ => defaultPower);
      counts := seq(NUM_SLOTS, _ => 0);
      this.alpha := alpha;
    }

    /** `UsageProfile::default`: smoothing 0.1, every slot at 10 W. */
    constructor Default()
      ensures State() == NewProfile(0.1, 10.0) && Valid()
    {
      slots := seq(NUM_SLOTS, _ => 10.0);
      counts := seq(NUM_SLOTS, _ => 0);
      alpha := 0.1;
    }

    /** `update`: the observation goes into the slot of the given time. */
    method Update(powerDraw: real, day: nat, hour: nat, minute: nat)
      requires Valid() && day < 7 && hour < 24 && minute < 60
      modifies this`slots, this`counts
      ensures State() == Observe(old(State()), powerDraw, SlotIndex(day, hour, minute))
      ensures Valid()
    {
      var i := SlotIndex(day, hour, minute);
      slots := slots[i := alpha * powerDraw + (1.0 - alpha) * slots[i]];
      var c := counts[i];
      counts := counts[i := if c < U32_MAX then c + 1 else U32_MAX];
      ObserveOnlyItsSlot(old(State()), powerDraw, i);
    }

    /** `get_current_power` and `get_power_at`: the average of the slot of
        the given time (now, or now plus the look-ahead). */
    method PowerAt(day: nat, hour: nat, minute: nat) returns (power: real)
      requires Valid() && day < 7 && hour < 24 && minute < 60
      ensures power == slots[SlotIndex(day, hour, minute)]
    {
      power := slots[day * 48 + hour * 2 + (if minute >= 30 then 1 else 0)];
    }

    /** `get_confidence` for the slot of the given time. */
    method ConfidenceAt(day: nat, hour: nat, minute: nat) returns (confidence: real)
      requires Valid() && day < 7 && hour < 24 && minute < 60
      ensures confidence == Confidence(counts[SlotIndex(day, hour, minute)])
      ensures 0.0 <= confidence <= 1.0
    {
      var count := counts[SlotIndex(day, hour, minute)];
      confidence := count as real / 50.0;
      if confidence > 1.0 {
        confidence := 1.0;
      }
    }
  }
}
