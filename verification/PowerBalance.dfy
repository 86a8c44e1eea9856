/** The transmit power balancer (src/Services/Link/LoLaLinkPowerBalancer.h): its control step, and what becomes of the power
    in a loop with the partner's reports, of which the last three are averaged (src/LoLaLinkInfo.h). */
module PowerBalance {
  import opened Common
  import opened Latency

  const RSSI_SAMPLE_COUNT: nat := 3
  const INVALID_MILLIS: nat := 0xFFFF_FFFF
  const TARGET: nat := 140
  const MARGIN: nat := 15
  const UP_LONG: nat := 20
  const DOWN_LONG: nat := 10
  const POWER_MIN: nat := 13
  const POWER_MAX: nat := 100
  const UPDATE_PERIOD: nat := 900
  const MAX_PANIC: nat := 2400

  function Max(a: int, b: int): int {
    if a > b then a else b
  }

  function Min(a: int, b: int): int {
    if a < b then a else b
  }

  /** The next power for the partner's reported RSSI. */
  function Adjust(power: nat, rssi: nat): nat {
    if rssi > TARGET && power > POWER_MIN then
      if rssi > TARGET + MARGIN then Max(POWER_MIN, power - DOWN_LONG) else power - 1
    else if rssi < TARGET && power < POWER_MAX then
      if rssi < TARGET - MARGIN then Min(POWER_MAX, power + UP_LONG) else power + 1
    else power
  }

  /** The step in numbers: far off the target 20 units up or 10 down, near it one, within 13 to 100. */
  lemma AdjustSteps(power: nat, rssi: nat)
    requires 13 <= power <= 100
    ensures var next := Adjust(power, rssi);
            && (rssi > 155 ==> next == if power >= 23 then power - 10 else 13)
            && (140 < rssi <= 155 ==> next == if power > 13 then power - 1 else 13)
            && (rssi == 140 ==> next == power)
            && (125 <= rssi < 140 ==> next == if power < 100 then power + 1 else 100)
            && (rssi < 125 ==> next == if power <= 80 then power + 20 else 100)
  {
  }

  predicate InRange(power: nat) {
    POWER_MIN <= power <= POWER_MAX
  }

  class LinkPowerBalancer {
    var transmitPowerNormalized: nat
    var lastUpdated: nat
    var driverPower: nat   // what the driver was last told

    constructor ()
      ensures transmitPowerNormalized == 0 && lastUpdated == INVALID_MILLIS
    {
      transmitPowerNormalized, lastUpdated, driverPower := 0, INVALID_MILLIS, 0;
    }

    method SetMaxPower()
      modifies this
      ensures transmitPowerNormalized == driverPower == 100 && lastUpdated == old(lastUpdated)
    {
      transmitPowerNormalized := POWER_MAX;
      driverPower := transmitPowerNormalized;
    }

    /** The power stays in range from the first update on, and the driver has it. Going to the maximum is not reported. */
    method Update(millis: nat, sinceLastReceived: nat, partnerRssi: nat) returns (updated: bool)
      requires lastUpdated != INVALID_MILLIS ==> InRange(transmitPowerNormalized) && driverPower == transmitPowerNormalized
      modifies this
      ensures lastUpdated != INVALID_MILLIS ==> InRange(transmitPowerNormalized) && driverPower == transmitPowerNormalized
      ensures var panics := old(lastUpdated) == 0xFFFF_FFFF || sinceLastReceived >= 2400;
              var due := !panics && (millis - old(lastUpdated)) % 0x1_0000_0000 > 900;
              && lastUpdated == (if panics || due then millis else old(lastUpdated))
              && transmitPowerNormalized == (if panics then 100
                                             else if due then Adjust(old(transmitPowerNormalized), partnerRssi)
                                             else old(transmitPowerNormalized))
              && (updated <==> due && transmitPowerNormalized != old(transmitPowerNormalized))
    {
      if lastUpdated == INVALID_MILLIS || sinceLastReceived >= MAX_PANIC {
        lastUpdated := millis;
        SetMaxPower();
      } else if (millis as int - lastUpdated) % UINT32 > UPDATE_PERIOD {
        lastUpdated := millis;
        var nextTransmitPower: nat := transmitPowerNormalized;
        if partnerRssi > TARGET && nextTransmitPower > POWER_MIN {
          if partnerRssi > TARGET + MARGIN {
            nextTransmitPower := Max(POWER_MIN, nextTransmitPower - DOWN_LONG);
          } else {
            nextTransmitPower := nextTransmitPower - 1;
          }
        } else if partnerRssi < TARGET && nextTransmitPower < POWER_MAX {
          if partnerRssi < TARGET - MARGIN {
            nextTransmitPower := Min(POWER_MAX, nextTransmitPower + UP_LONG);
          } else {
            nextTransmitPower := nextTransmitPower + 1;
          }
        }
        if nextTransmitPower != transmitPowerNormalized {
          transmitPowerNormalized := nextTransmitPower;
          driverPower := transmitPowerNormalized;
          return true;
        }
      }
      return false;
    }
  }

  // ---------------------------------------------------------------------------------------------
  // The closed loop

  /** What moves the loop: the partner reports the RSSI it has at the present power, or the balancer updates. */
  datatype Event = Report | Update

  datatype Loop = Loop(power: nat, ring: seq<nat>) {
    function Mean(): nat {
      if ring == [] then 0 else Sum(ring) / |ring|
    }
  }

  function Step(channel: nat -> nat, s: Loop, e: Event): (t: Loop)
    requires |s.ring| <= RSSI_SAMPLE_COUNT
    ensures |t.ring| <= RSSI_SAMPLE_COUNT
  {
    match e
    case Report => s.(ring := AddForce(s.ring, RSSI_SAMPLE_COUNT, channel(s.power)))
    case Update => s.(power := Adjust(s.power, s.Mean()))
  }

  function Run(channel: nat -> nat, s: Loop, events: seq<Event>): (t: Loop)
    requires |s.ring| <= RSSI_SAMPLE_COUNT
    ensures |t.ring| <= RSSI_SAMPLE_COUNT
  {
    if events == [] then s else Step(channel, Run(channel, s, events[..|events| - 1]), events[|events| - 1])
  }

  lemma {:induction false} RunJoins(channel: nat -> nat, s: Loop, a: seq<Event>, b: seq<Event>)
    requires |s.ring| <= RSSI_SAMPLE_COUNT
    ensures Run(channel, s, a + b) == Run(channel, Run(channel, s, a), b)
    decreases |b|
  {
    if b == [] {
      assert a + b == a;
    } else {
      assert (a + b)[..|a + b| - 1] == a + b[..|b| - 1];
      RunJoins(channel, s, a, b[..|b| - 1]);
    }
  }

  /** The power does not change any more, whatever reports and updates are still to come. */
  ghost predicate AtRest(channel: nat -> nat, s: Loop)
    requires |s.ring| <= RSSI_SAMPLE_COUNT
  {
    forall events: seq<Event> :: Run(channel, s, events).power == s.power
  }

  /** The ring after k more reports of the same RSSI. */
  function Filled(ring: seq<nat>, rssi: nat, k: nat): (r: seq<nat>)
    requires |ring| <= RSSI_SAMPLE_COUNT
    ensures |r| <= RSSI_SAMPLE_COUNT
  {
    if k == 0 then ring else AddForce(Filled(ring, rssi, k - 1), RSSI_SAMPLE_COUNT, rssi)
  }

  lemma FullAfterThree(ring: seq<nat>, rssi: nat)
    requires |ring| <= RSSI_SAMPLE_COUNT
    ensures Filled(ring, rssi, 3) == [rssi, rssi, rssi] == Filled(ring, rssi, 4)
  {
    var one, two := Filled(ring, rssi, 1), Filled(ring, rssi, 2);
    assert |one| >= 1 && one[|one| - 1] == rssi;
    assert |two| >= 2 && two[|two| - 1] == two[|two| - 2] == rssi;
  }

  /** No mean that the next three reports can lead to moves the power. */
  predicate NothingToAdjust(channel: nat -> nat, s: Loop)
    requires |s.ring| <= RSSI_SAMPLE_COUNT
  {
    forall k: nat :: k <= 3 ==> Adjust(s.power, Loop(s.power, Filled(s.ring, channel(s.power), k)).Mean()) == s.power
  }

  lemma {:induction false} StaysAtRest(channel: nat -> nat, s: Loop, events: seq<Event>) returns (k: nat)
    requires |s.ring| <= RSSI_SAMPLE_COUNT && NothingToAdjust(channel, s)
    ensures k <= 3 && Run(channel, s, events) == Loop(s.power, Filled(s.ring, channel(s.power), k))
  {
    if events == [] {
      k := 0;
    } else {
      k := StaysAtRest(channel, s, events[..|events| - 1]);
      if events[|events| - 1].Report? {
        FullAfterThree(s.ring, channel(s.power));
        k := if k < 3 then k + 1 else 3;
      }
    }
  }

  lemma Reports(channel: nat -> nat, s: Loop, k: nat)
    requires |s.ring| <= RSSI_SAMPLE_COUNT
    ensures Run(channel, s, seq(k, _ => Report)) == Loop(s.power, Filled(s.ring, channel(s.power), k))
  {
    if k == 0 {
    } else {
      assert seq(k, _ => Report)[..k - 1] == seq(k - 1, _ => Report);
      Reports(channel, s, k - 1);
    }
  }

  /** The power rests for good, under every schedule of reports and updates, just when none of the four means that the
      coming reports lead to would move it. */
  lemma RestsIffNothingToAdjust(channel: nat -> nat, s: Loop)
    requires |s.ring| <= RSSI_SAMPLE_COUNT
    ensures AtRest(channel, s) <==> NothingToAdjust(channel, s)
  {
    if NothingToAdjust(channel, s) {
      forall events: seq<Event>
        ensures Run(channel, s, events).power == s.power
      {
        var k := StaysAtRest(channel, s, events);
      }
    }
    if AtRest(channel, s) {
      forall k: nat | k <= 3
        ensures Adjust(s.power, Loop(s.power, Filled(s.ring, channel(s.power), k)).Mean()) == s.power
      {
        var reports := seq(k, _ => Report);
        Reports(channel, s, k);
        assert (reports + [Update])[..|reports|] == reports;
        assert Run(channel, s, reports + [Update]).power == s.power;
      }
    }
  }

  lemma MeanOf(power: nat, a: nat, b: nat, c: nat)
    ensures Loop(power, [a]).Mean() == a
    ensures Loop(power, [a, b]).Mean() == (a + b) / 2
    ensures Loop(power, [a, b, c]).Mean() == (a + b + c) / 3
  {
    assert [a][..0] == [] && Sum([a]) == Sum([]) + a;
    assert [a, b][..1] == [a] && Sum([a, b]) == Sum([a]) + b;
    assert [a, b, c][..2] == [a, b] && Sum([a, b, c]) == Sum([a, b]) + c;
  }

  /** So it rests at the target RSSI only, or at the end of the power range on the wanted side of it. */
  lemma RestsAtTarget(channel: nat -> nat, s: Loop)
    requires |s.ring| <= RSSI_SAMPLE_COUNT && InRange(s.power) && AtRest(channel, s)
    ensures || channel(s.power) == TARGET
            || (channel(s.power) > TARGET && s.power == POWER_MIN)
            || (channel(s.power) < TARGET && s.power == POWER_MAX)
  {
    RestsIffNothingToAdjust(channel, s);
    FullAfterThree(s.ring, channel(s.power));
    MeanOf(s.power, channel(s.power), channel(s.power), channel(s.power));
    assert Adjust(s.power, Loop(s.power, Filled(s.ring, channel(s.power), 3)).Mean()) == s.power;
  }

  /** What RSSI the partner has at each power. More power is never received more weakly, and one unit of power adds at
      most the given gain. */
  ghost predicate HasGain(channel: nat -> nat, gain: nat) {
    forall p :: POWER_MIN <= p < POWER_MAX ==> channel(p) <= channel(p + 1) <= channel(p) + gain
  }

  /** The loop is in range and has heard reports, all of powers in range. */
  ghost predicate Proper(channel: nat -> nat, s: Loop) {
    && InRange(s.power) && 0 < |s.ring| <= RSSI_SAMPLE_COUNT
    && forall i :: 0 <= i < |s.ring| ==> exists p :: InRange(p) && s.ring[i] == channel(p)
  }

  function Updates(events: seq<Event>): nat {
    if events == [] then 0 else Updates(events[..|events| - 1]) + if events[|events| - 1].Update? then 1 else 0
  }

  /** After so many updates the power rests, however reports come in between. */
  ghost predicate SettlesIn(channel: nat -> nat, s: Loop, updates: nat)
    requires |s.ring| <= RSSI_SAMPLE_COUNT
  {
    forall events: seq<Event> :: Updates(events) >= updates ==> AtRest(channel, Run(channel, s, events))
  }

  /** More power is never received more weakly. */
  ghost predicate Rising(channel: nat -> nat) {
    forall p :: POWER_MIN <= p < POWER_MAX ==> channel(p) <= channel(p + 1)
  }

  lemma {:induction false} RisingBetween(channel: nat -> nat, p: nat, q: nat)
    requires Rising(channel) && POWER_MIN <= p <= q <= POWER_MAX
    ensures channel(p) <= channel(q)
  {
    if p == q {
    } else {
      RisingBetween(channel, p, q - 1);
      assert channel(q - 1) <= channel(q - 1 + 1);
    }
  }

  predicate Within(ring: seq<nat>, low: nat, high: nat) {
    0 < |ring| <= RSSI_SAMPLE_COUNT && forall i :: 0 <= i < |ring| ==> low <= ring[i] <= high
  }

  lemma MeanWithin(power: nat, ring: seq<nat>, low: nat, high: nat)
    requires Within(ring, low, high)
    ensures low <= Loop(power, ring).Mean() <= high
  {
    SumBounds(ring, low, high);
    QuotientInRange(Sum(ring), |ring|, low, high);
  }

  lemma {:induction false} FilledWithin(ring: seq<nat>, rssi: nat, k: nat, low: nat, high: nat)
    requires Within(ring, low, high) && low <= rssi <= high
    ensures Within(Filled(ring, rssi, k), low, high)
  {
    if k == 0 {
    } else {
      FilledWithin(ring, rssi, k - 1, low, high);
      AddedWithin(Filled(ring, rssi, k - 1), rssi, low, high);
    }
  }

  lemma AddedWithin(ring: seq<nat>, rssi: nat, low: nat, high: nat)
    requires Within(ring, low, high) && low <= rssi <= high
    ensures Within(AddForce(ring, RSSI_SAMPLE_COUNT, rssi), low, high)
  {
  }

  lemma ProperIsWithin(channel: nat -> nat, s: Loop)
    requires Rising(channel) && Proper(channel, s)
    ensures Within(s.ring, channel(POWER_MIN), channel(POWER_MAX))
  {
    forall i | 0 <= i < |s.ring|
      ensures channel(POWER_MIN) <= s.ring[i] <= channel(POWER_MAX)
    {
      var p :| InRange(p) && s.ring[i] == channel(p);
      RisingBetween(channel, POWER_MIN, p);
      RisingBetween(channel, p, POWER_MAX);
    }
  }

  // Any schedule.

  /** The target is out of reach at every power, always on the same side, or met at every power. */
  predicate OneSided(channel: nat -> nat) {
    channel(POWER_MIN) > TARGET || channel(POWER_MAX) < TARGET || channel(POWER_MIN) == channel(POWER_MAX) == TARGET
  }

  /** Every update moves the power one unit at least, until it is where it wants to be. */
  lemma {:induction false} OneSidedMoves(channel: nat -> nat, s: Loop, events: seq<Event>)
    requires Rising(channel) && InRange(s.power) && Within(s.ring, channel(POWER_MIN), channel(POWER_MAX))
    ensures var t := Run(channel, s, events);
            && InRange(t.power) && Within(t.ring, channel(POWER_MIN), channel(POWER_MAX))
            && (channel(POWER_MIN) > TARGET ==> t.power == POWER_MIN || t.power + Updates(events) <= s.power)
            && (channel(POWER_MAX) < TARGET ==> t.power == POWER_MAX || t.power >= s.power + Updates(events))
  {
    if events == [] {
    } else {
      var before := events[..|events| - 1];
      OneSidedMoves(channel, s, before);
      var t := Run(channel, s, before);
      MeanWithin(t.power, t.ring, channel(POWER_MIN), channel(POWER_MAX));
      RisingBetween(channel, POWER_MIN, t.power);
      RisingBetween(channel, t.power, POWER_MAX);
      AddedWithin(t.ring, channel(t.power), channel(POWER_MIN), channel(POWER_MAX));
    }
  }

  lemma RestsAtEnd(channel: nat -> nat, s: Loop, low: nat, high: nat)
    requires InRange(s.power) && Within(s.ring, low, high) && low <= channel(s.power) <= high
    requires (low >= TARGET && s.power == POWER_MIN) || (high <= TARGET && s.power == POWER_MAX) || low == TARGET == high
    ensures AtRest(channel, s)
  {
    forall k: nat | k <= 3
      ensures Adjust(s.power, Loop(s.power, Filled(s.ring, channel(s.power), k)).Mean()) == s.power
    {
      FilledWithin(s.ring, channel(s.power), k, low, high);
      MeanWithin(s.power, Filled(s.ring, channel(s.power), k), low, high);
    }
    RestsIffNothingToAdjust(channel, s);
  }

  lemma OneSidedSettles(channel: nat -> nat, s: Loop)
    requires Rising(channel) && OneSided(channel) && Proper(channel, s)
    ensures SettlesIn(channel, s, POWER_MAX - POWER_MIN)
  {
    hide Run, AtRest;
    ProperIsWithin(channel, s);
    forall events: seq<Event> | Updates(events) >= POWER_MAX - POWER_MIN
      ensures AtRest(channel, Run(channel, s, events))
    {
      OneSidedMoves(channel, s, events);
      var t := Run(channel, s, events);
      RisingBetween(channel, POWER_MIN, t.power);
      RisingBetween(channel, t.power, POWER_MAX);
      RestsAtEnd(channel, t, channel(POWER_MIN), channel(POWER_MAX));
    }
  }

  lemma {:induction false} OnlyUpdates(channel: nat -> nat, s: Loop, n: nat)
    requires |s.ring| <= RSSI_SAMPLE_COUNT && Adjust(s.power, s.Mean()) == s.power
    ensures Run(channel, s, seq(n, _ => Update)) == s && Updates(seq(n, _ => Update)) == n
  {
    if n == 0 {
    } else {
      assert seq(n, _ => Update)[..n - 1] == seq(n - 1, _ => Update);
      OnlyUpdates(channel, s, n - 1);
    }
  }

  /** A channel on which some power is right, or some are too weak and others too strong, has a state that updates alone
      do not change and a report does. */
  lemma OtherwiseUnsettled(channel: nat -> nat) returns (s: Loop)
    requires Rising(channel) && !OneSided(channel)
    ensures Proper(channel, s) && forall n: nat :: !SettlesIn(channel, s, n)
  {
    var low, high := channel(POWER_MIN), channel(POWER_MAX);
    RisingBetween(channel, POWER_MIN, POWER_MAX);
    s := if low < TARGET then Loop(POWER_MIN, [high]) else Loop(POWER_MAX, [low]);
    assert InRange(POWER_MIN) && InRange(POWER_MAX);
    MeanOf(s.power, s.ring[0], 0, 0);
    forall n: nat
      ensures !SettlesIn(channel, s, n)
    {
      OnlyUpdates(channel, s, n);
      if AtRest(channel, s) { RestsAtTarget(channel, s); }
    }
  }

  /** On a channel the balancer comes to rest from every proper state, whenever reports and updates come, just when the
      channel is one-sided: after at most 87 updates. */
  lemma SettlesIffOneSided(channel: nat -> nat)
    requires Rising(channel)
    ensures (forall s: Loop :: Proper(channel, s) ==> exists n: nat :: SettlesIn(channel, s, n)) <==> OneSided(channel)
    ensures OneSided(channel) ==> forall s: Loop :: Proper(channel, s) ==> SettlesIn(channel, s, 87)
  {
    hide SettlesIn;
    if OneSided(channel) {
      forall s: Loop | Proper(channel, s)
        ensures SettlesIn(channel, s, 87)
      {
        OneSidedSettles(channel, s);
      }
    } else {
      var s := OtherwiseUnsettled(channel);
    }
  }

  // Schedules in which the reports keep up.

  /** Updates that come right after three reports, so that the mean is of the present power. */
  function FreshUpdates(events: seq<Event>): nat {
    if events == [] then 0 else FreshUpdates(events[..|events| - 1]) + if EndsFresh(events) then 1 else 0
  }

  predicate EndsFresh(events: seq<Event>) {
    var n := |events|;
    n >= 4 && events[n - 1].Update? && events[n - 2].Report? && events[n - 3].Report? && events[n - 4].Report?
  }

  /** After so many of those the power rests. */
  ghost predicate SettlesFresh(channel: nat -> nat, s: Loop, updates: nat)
    requires |s.ring| <= RSSI_SAMPLE_COUNT
  {
    forall events: seq<Event> :: FreshUpdates(events) >= updates ==> AtRest(channel, Run(channel, s, events))
  }

  /** Some power is too weak and some too strong. */
  predicate Straddles(channel: nat -> nat) {
    channel(POWER_MIN) < TARGET < channel(POWER_MAX)
  }

  lemma ThreeReports(channel: nat -> nat, s: Loop, events: seq<Event>)
    requires |s.ring| <= RSSI_SAMPLE_COUNT && EndsFresh(events)
    ensures var t := Run(channel, s, events[..|events| - 1]); t.ring == [channel(t.power), channel(t.power), channel(t.power)]
  {
    hide Run;
    var before := events[..|events| - 4];
    var t := Run(channel, s, before);
    assert events[..|events| - 1] == before + seq(3, _ => Report);
    RunJoins(channel, s, before, seq(3, _ => Report));
    Reports(channel, t, 3);
    FullAfterThree(t.ring, channel(t.power));
  }

  /** Where nothing moves the power any more, on a channel that does not straddle the target. */
  predicate Finished(channel: nat -> nat, t: Loop) {
    || (channel(POWER_MIN) >= TARGET && t.power == POWER_MIN)
    || (channel(POWER_MAX) <= TARGET && t.power == POWER_MAX)
    || (channel(t.power) == TARGET && Within(t.ring, TARGET, TARGET))
  }

  /** The power never moves back, and each fresh update moves it on until it is finished. */
  ghost predicate MovesOn(channel: nat -> nat, s: Loop, t: Loop, updates: nat) {
    && InRange(t.power) && Within(t.ring, channel(POWER_MIN), channel(POWER_MAX))
    && (Finished(channel, t)
        || (channel(POWER_MIN) >= TARGET && t.power + updates <= s.power)
        || (channel(POWER_MAX) <= TARGET && t.power >= s.power + updates))
  }

  lemma ReportMovesOn(channel: nat -> nat, s: Loop, t: Loop, updates: nat)
    requires Rising(channel) && MovesOn(channel, s, t, updates)
    ensures MovesOn(channel, s, Step(channel, t, Report), updates)
  {
    RisingBetween(channel, POWER_MIN, t.power);
    RisingBetween(channel, t.power, POWER_MAX);
    AddedWithin(t.ring, channel(t.power), channel(POWER_MIN), channel(POWER_MAX));
    if Within(t.ring, TARGET, TARGET) && channel(t.power) == TARGET { AddedWithin(t.ring, TARGET, TARGET, TARGET); }
  }

  lemma UpdateMovesOn(channel: nat -> nat, s: Loop, t: Loop, updates: nat)
    requires Rising(channel) && !Straddles(channel) && MovesOn(channel, s, t, updates)
    ensures MovesOn(channel, s, Step(channel, t, Update), updates)
    ensures t.ring == [channel(t.power), channel(t.power), channel(t.power)] ==> MovesOn(channel, s, Step(channel, t, Update), updates + 1)
  {
    RisingBetween(channel, POWER_MIN, t.power);
    RisingBetween(channel, t.power, POWER_MAX);
    MeanWithin(t.power, t.ring, channel(POWER_MIN), channel(POWER_MAX));
    if Within(t.ring, TARGET, TARGET) { MeanWithin(t.power, t.ring, TARGET, TARGET); }
    MeanOf(t.power, channel(t.power), channel(t.power), channel(t.power));
  }

  lemma {:induction false} RunMovesOn(channel: nat -> nat, s: Loop, events: seq<Event>)
    requires Rising(channel) && !Straddles(channel) && InRange(s.power) && Within(s.ring, channel(POWER_MIN), channel(POWER_MAX))
    ensures MovesOn(channel, s, Run(channel, s, events), FreshUpdates(events))
  {
    if events == [] {
    } else {
      hide MovesOn, Step;
      var before := events[..|events| - 1];
      RunMovesOn(channel, s, before);
      var t := Run(channel, s, before);
      if events[|events| - 1].Report? {
        ReportMovesOn(channel, s, t, FreshUpdates(before));
      } else {
        if EndsFresh(events) { ThreeReports(channel, s, events); }
        UpdateMovesOn(channel, s, t, FreshUpdates(before));
      }
    }
  }

  lemma UnstraddledSettles(channel: nat -> nat, s: Loop)
    requires Rising(channel) && !Straddles(channel) && Proper(channel, s)
    ensures SettlesFresh(channel, s, POWER_MAX - POWER_MIN + 1)
  {
    hide Run, AtRest;
    ProperIsWithin(channel, s);
    forall events: seq<Event> | FreshUpdates(events) >= POWER_MAX - POWER_MIN + 1
      ensures AtRest(channel, Run(channel, s, events))
    {
      RunMovesOn(channel, s, events);
      var t := Run(channel, s, events);
      RisingBetween(channel, POWER_MIN, t.power);
      RisingBetween(channel, t.power, POWER_MAX);
      if Within(t.ring, TARGET, TARGET) && channel(t.power) == TARGET { RestsAtEnd(channel, t, TARGET, TARGET); }
      else { RestsAtEnd(channel, t, channel(POWER_MIN), channel(POWER_MAX)); }
    }
  }

  /** Updates alone, from one end of the range: they carry the power to the other end. */
  lemma {:induction false} Sweeps(channel: nat -> nat, s: Loop, n: nat)
    requires InRange(s.power) && |s.ring| <= RSSI_SAMPLE_COUNT && s.Mean() != TARGET
    ensures var t := Run(channel, s, seq(n, _ => Update));
            && t.ring == s.ring && InRange(t.power)
            && (s.Mean() < TARGET ==> t.power == POWER_MAX || t.power >= s.power + n)
            && (s.Mean() > TARGET ==> t.power == POWER_MIN || t.power + n <= s.power)
  {
    if n == 0 {
    } else {
      assert seq(n, _ => Update)[..n - 1] == seq(n - 1, _ => Update);
      Sweeps(channel, s, n - 1);
    }
  }

  function Across(): seq<Event> {
    seq(POWER_MAX - POWER_MIN, _ => Update)
  }

  function Afresh(): seq<Event> {
    seq(3, _ => Report)
  }

  /** All the way with old reports, new reports, and all the way back. */
  function Sweep(): seq<Event> {
    Across() + Afresh() + (Across() + Afresh())
  }

  function ManySweeps(n: nat): seq<Event> {
    if n == 0 then [] else ManySweeps(n - 1) + Sweep()
  }

  lemma HalfSweep(channel: nat -> nat, s: Loop, power: nat)
    requires |s.ring| <= RSSI_SAMPLE_COUNT && s.Mean() != TARGET
    requires || (s.power == POWER_MIN && s.Mean() < TARGET && power == POWER_MAX)
             || (s.power == POWER_MAX && s.Mean() > TARGET && power == POWER_MIN)
    ensures Run(channel, s, Across() + Afresh()) == Loop(power, [channel(power), channel(power), channel(power)])
  {
    Sweeps(channel, s, POWER_MAX - POWER_MIN);
    RunJoins(channel, s, Across(), Afresh());
    var t := Run(channel, s, Across());
    Reports(channel, t, 3);
    FullAfterThree(t.ring, channel(power));
  }

  /** The weakest power, and it has been reported. */
  function Bottom(channel: nat -> nat): Loop {
    Loop(POWER_MIN, [channel(POWER_MIN), channel(POWER_MIN), channel(POWER_MIN)])
  }

  lemma SweepReturns(channel: nat -> nat)
    requires Straddles(channel)
    ensures Run(channel, Bottom(channel), Sweep()) == Bottom(channel)
  {
    var low, high := channel(POWER_MIN), channel(POWER_MAX);
    MeanOf(POWER_MIN, low, low, low);
    MeanOf(POWER_MAX, high, high, high);
    HalfSweep(channel, Bottom(channel), POWER_MAX);
    HalfSweep(channel, Loop(POWER_MAX, [high, high, high]), POWER_MIN);
    RunJoins(channel, Bottom(channel), Across() + Afresh(), Across() + Afresh());
  }

  lemma {:induction false} ManySweepsReturn(channel: nat -> nat, n: nat)
    requires Straddles(channel)
    ensures Run(channel, Bottom(channel), ManySweeps(n)) == Bottom(channel)
  {
    hide Run, Sweep;
    if n == 0 {
      RunNothing(channel, Bottom(channel));
    } else {
      ManySweepsReturn(channel, n - 1);
      RunJoins(channel, Bottom(channel), ManySweeps(n - 1), Sweep());
      SweepReturns(channel);
    }
  }

  lemma {:induction false} FreshJoins(a: seq<Event>, b: seq<Event>)
    ensures FreshUpdates(a + b) >= FreshUpdates(a) + FreshUpdates(b)
    decreases |b|
  {
    if b == [] {
      assert a + b == a;
    } else {
      assert (a + b)[..|a + b| - 1] == a + b[..|b| - 1];
      FreshJoins(a, b[..|b| - 1]);
    }
  }

  lemma SweepIsFresh()
    ensures FreshUpdates(Sweep()) >= 1
  {
    var start := Across() + Afresh() + [Update];
    var rest: seq<Event> := seq(POWER_MAX - POWER_MIN - 1, _ => Update) + Afresh();
    assert EndsFresh(start);
    assert Sweep() == start + rest;
    FreshJoins(start, rest);
  }

  lemma {:induction false} ManySweepsAreFresh(n: nat)
    ensures FreshUpdates(ManySweeps(n)) >= n
  {
    hide Sweep, FreshUpdates;
    if n == 0 {
    } else {
      ManySweepsAreFresh(n - 1);
      FreshJoins(ManySweeps(n - 1), Sweep());
      SweepIsFresh();
    }
  }

  /** Schedules in which the reports keep up now and then: on a channel that straddles the target the power may still sweep
      its whole range for ever, acting on old reports in between. On any other it has come to rest once an update has
      come right after three reports 88 times. */
  lemma SettlesFreshIffUnstraddled(channel: nat -> nat)
    requires Rising(channel)
    ensures (forall s: Loop :: Proper(channel, s) ==> exists n: nat :: SettlesFresh(channel, s, n)) <==> !Straddles(channel)
    ensures !Straddles(channel) ==> forall s: Loop :: Proper(channel, s) ==> SettlesFresh(channel, s, 88)
  {
    hide Run, AtRest, ManySweeps, FreshUpdates;
    if !Straddles(channel) {
      forall s: Loop | Proper(channel, s)
        ensures SettlesFresh(channel, s, 88)
      {
        UnstraddledSettles(channel, s);
      }
    } else {
      var s := Bottom(channel);
      assert InRange(POWER_MIN) && Proper(channel, s);
      if AtRest(channel, s) { RestsAtTarget(channel, s); }
      forall n: nat
        ensures !SettlesFresh(channel, s, n)
      {
        ManySweepsReturn(channel, n);
        ManySweepsAreFresh(n);
      }
    }
  }

  // A channel that adds one unit of RSSI for each unit of power, and the schedule that the source's own periods give.

  const LINEAR: nat -> nat := p => p + 58

  /** Full power, with the report of it: how the balancer starts. */
  const START: Loop := Loop(POWER_MAX, [158])

  /** Reports every 1500 ms and updates every 900 ms: 4500 ms of them, after what came before. */
  function OnePeriod(events: seq<Event>): seq<Event> {
    events + [Update] + [Report] + [Update] + [Update] + [Report] + [Update] + [Update] + [Report]
  }

  function Periods(n: nat): seq<Event> {
    if n == 0 then [] else OnePeriod(Periods(n - 1))
  }

  lemma RunLast(s: Loop, events: seq<Event>, e: Event)
    requires |s.ring| <= RSSI_SAMPLE_COUNT
    ensures Run(LINEAR, s, events + [e]) == Step(LINEAR, Run(LINEAR, s, events), e)
  {
    assert (events + [e])[..|events|] == events;
  }

  lemma StepReport(p: nat, a: nat, b: nat, c: nat)
    ensures Step(LINEAR, Loop(p, [a, b, c]), Report) == Loop(p, [b, c, p + 58])
    ensures Step(LINEAR, Loop(p, [a, b]), Report) == Loop(p, [a, b, p + 58])
    ensures Step(LINEAR, Loop(p, [a]), Report) == Loop(p, [a, p + 58])
  {
    assert [a, b, c][1..] + [p + 58] == [b, c, p + 58];
  }

  /** The two halves of a period. */
  function FirstHalf(s: Loop): (t: Loop)
    requires |s.ring| <= RSSI_SAMPLE_COUNT
    ensures |t.ring| <= RSSI_SAMPLE_COUNT
  {
    Step(LINEAR, Step(LINEAR, Step(LINEAR, Step(LINEAR, s, Update), Report), Update), Update)
  }

  function SecondHalf(s: Loop): (t: Loop)
    requires |s.ring| <= RSSI_SAMPLE_COUNT
    ensures |t.ring| <= RSSI_SAMPLE_COUNT
  {
    Step(LINEAR, Step(LINEAR, Step(LINEAR, Step(LINEAR, s, Report), Update), Update), Report)
  }

  lemma RunTwo(s: Loop, events: seq<Event>, a: Event, b: Event)
    requires |s.ring| <= RSSI_SAMPLE_COUNT
    ensures Run(LINEAR, s, events + [a] + [b]) == Step(LINEAR, Step(LINEAR, Run(LINEAR, s, events), a), b)
  {
    hide Run, Step;
    RunLast(s, events, a);
    RunLast(s, events + [a], b);
  }

  lemma PeriodIs(s: Loop, events: seq<Event>)
    requires |s.ring| <= RSSI_SAMPLE_COUNT
    ensures Run(LINEAR, s, OnePeriod(events)) == SecondHalf(FirstHalf(Run(LINEAR, s, events)))
  {
    hide Run, Step;
    RunTwo(s, events, Update, Report);
    var b := events + [Update] + [Report];
    RunTwo(s, b, Update, Update);
    var d := b + [Update] + [Update];
    RunTwo(s, d, Report, Update);
    var f := d + [Report] + [Update];
    RunTwo(s, f, Update, Report);
  }

  lemma FullPower()
    ensures SecondHalf(FirstHalf(Loop(100, [158]))) == Loop(86, [148, 146, 144])
  {
    assert FirstHalf(Loop(100, [158])) == Loop(88, [158, 148]) by {
      MeanOf(100, 158, 0, 0);
      StepReport(90, 158, 0, 0);
      MeanOf(90, 158, 148, 0);
      MeanOf(89, 158, 148, 0);
    }
    assert SecondHalf(Loop(88, [158, 148])) == Loop(86, [148, 146, 144]) by {
      StepReport(88, 158, 148, 0);
      MeanOf(88, 158, 148, 146);
      MeanOf(87, 158, 148, 146);
      StepReport(86, 158, 148, 146);
    }
  }

  lemma Descending()
    ensures SecondHalf(FirstHalf(Loop(86, [148, 146, 144]))) == Loop(81, [143, 141, 139])
  {
    assert FirstHalf(Loop(86, [148, 146, 144])) == Loop(83, [146, 144, 143]) by {
      MeanOf(86, 148, 146, 144);
      StepReport(85, 148, 146, 144);
      MeanOf(85, 146, 144, 143);
      MeanOf(84, 146, 144, 143);
    }
    assert SecondHalf(Loop(83, [146, 144, 143])) == Loop(81, [143, 141, 139]) by {
      StepReport(83, 146, 144, 143);
      MeanOf(83, 144, 143, 141);
      MeanOf(82, 144, 143, 141);
      StepReport(81, 144, 143, 141);
    }
  }

  lemma Nearing()
    ensures SecondHalf(FirstHalf(Loop(81, [143, 141, 139]))) == Loop(84, [138, 140, 142])
  {
    assert FirstHalf(Loop(81, [143, 141, 139])) == Loop(82, [141, 139, 138]) by {
      MeanOf(81, 143, 141, 139);
      StepReport(80, 143, 141, 139);
      MeanOf(80, 141, 139, 138);
      MeanOf(81, 141, 139, 138);
    }
    assert SecondHalf(Loop(82, [141, 139, 138])) == Loop(84, [138, 140, 142]) by {
      StepReport(82, 141, 139, 138);
      MeanOf(82, 139, 138, 140);
      MeanOf(83, 139, 138, 140);
      StepReport(84, 139, 138, 140);
    }
  }

  lemma Above()
    ensures SecondHalf(FirstHalf(Loop(84, [138, 140, 142]))) == Loop(80, [142, 140, 138])
  {
    assert FirstHalf(Loop(84, [138, 140, 142])) == Loop(82, [140, 142, 142]) by {
      MeanOf(84, 138, 140, 142);
      StepReport(84, 138, 140, 142);
      MeanOf(84, 140, 142, 142);
      MeanOf(83, 140, 142, 142);
    }
    assert SecondHalf(Loop(82, [140, 142, 142])) == Loop(80, [142, 140, 138]) by {
      StepReport(82, 140, 142, 142);
      MeanOf(82, 142, 142, 140);
      MeanOf(81, 142, 142, 140);
      StepReport(80, 142, 142, 140);
    }
  }

  lemma Below()
    ensures SecondHalf(FirstHalf(Loop(80, [142, 140, 138]))) == Loop(84, [138, 140, 142])
  {
    assert FirstHalf(Loop(80, [142, 140, 138])) == Loop(82, [140, 138, 138]) by {
      MeanOf(80, 142, 140, 138);
      StepReport(80, 142, 140, 138);
      MeanOf(80, 140, 138, 138);
      MeanOf(81, 140, 138, 138);
    }
    assert SecondHalf(Loop(82, [140, 138, 138])) == Loop(84, [138, 140, 142]) by {
      StepReport(82, 140, 138, 138);
      MeanOf(82, 138, 138, 140);
      MeanOf(83, 138, 138, 140);
      StepReport(84, 138, 138, 140);
    }
  }

  const HIGH: Loop := Loop(84, [138, 140, 142])
  const LOW: Loop := Loop(80, [142, 140, 138])

  /** Where the loop is after so many periods from its start: from the third on it swings between two states. */
  function SwingAt(n: nat): (s: Loop)
    ensures |s.ring| <= RSSI_SAMPLE_COUNT
  {
    if n == 0 then START
    else if n == 1 then Loop(86, [148, 146, 144])
    else if n == 2 then Loop(81, [143, 141, 139])
    else if n % 2 == 1 then HIGH
    else LOW
  }

  lemma SwingsOn(n: nat)
    ensures SecondHalf(FirstHalf(SwingAt(n))) == SwingAt(n + 1)
    ensures SwingAt(n + 1).power != SwingAt(n).power
  {
    FullPower();
    Descending();
    Nearing();
    Above();
    Below();
    hide FirstHalf, SecondHalf;
  }

  lemma {:induction false} Swings(n: nat)
    ensures Run(LINEAR, START, Periods(n)) == SwingAt(n)
  {
    hide Run, FirstHalf, SecondHalf, OnePeriod;
    if n == 0 {
      RunNothing(LINEAR, START);
    } else {
      hide SwingAt;
      Swings(n - 1);
      PeriodIs(START, Periods(n - 1));
      SwingsOn(n - 1);
    }
  }

  lemma RunNothing(channel: nat -> nat, s: Loop)
    requires |s.ring| <= RSSI_SAMPLE_COUNT
    ensures Run(channel, s, []) == s
  {
  }

  lemma UpdatesLast(events: seq<Event>, e: Event)
    ensures Updates(events + [e]) == Updates(events) + if e.Update? then 1 else 0
  {
    assert (events + [e])[..|events|] == events;
  }

  lemma {:induction false} PeriodsUpdate(n: nat)
    ensures Updates(Periods(n)) >= n
  {
    if n == 0 {
    } else {
      PeriodsUpdate(n - 1);
      var a := Periods(n - 1);
      UpdatesLast(a, Update);
      var b := a + [Update] + [Report];
      UpdatesLast(a + [Update], Report);
      UpdatesLast(b, Update);
      var d := b + [Update] + [Update];
      UpdatesLast(b + [Update], Update);
      UpdatesLast(d, Report);
      var f := d + [Report] + [Update];
      UpdatesLast(d + [Report], Update);
      UpdatesLast(f, Update);
      UpdatesLast(f + [Update], Report);
      hide Updates;
    }
  }

  /** With the source's periods the power never comes to rest on that channel: it moves in every period, for ever. */
  lemma NeverRests(n: nat)
    ensures !AtRest(LINEAR, Run(LINEAR, START, Periods(n)))
  {
    hide Run, FirstHalf, SecondHalf, SwingAt, OnePeriod, Periods;
    Swings(n);
    PeriodIs(SwingAt(n), []);
    SwingsOn(n);
    RunNothing(LINEAR, SwingAt(n));
    assert Run(LINEAR, SwingAt(n), OnePeriod([])).power != SwingAt(n).power;
  }

  lemma {:induction false} FlatChannel(channel: nat -> nat, p: nat)
    requires HasGain(channel, 0) && InRange(p)
    ensures channel(p) == channel(POWER_MIN)
  {
    if p == POWER_MIN {
    } else {
      FlatChannel(channel, p - 1);
      assert channel(p - 1) <= channel(p - 1 + 1) <= channel(p - 1) + 0;
    }
  }

  /** For a gain, instead of a channel: it comes to rest on all channels of the gain just when they are flat. */
  lemma SettlesIffFlat(gain: nat)
    ensures (forall channel: nat -> nat, s: Loop :: HasGain(channel, gain) && Proper(channel, s) ==>
               exists n: nat :: SettlesIn(channel, s, n))
            <==> gain == 0
    ensures gain == 0 ==> forall channel: nat -> nat, s: Loop :: HasGain(channel, gain) && Proper(channel, s) ==> SettlesIn(channel, s, 87)
  {
    hide SettlesIn;
    if gain == 0 {
      forall channel: nat -> nat, s: Loop | HasGain(channel, gain) && Proper(channel, s)
        ensures SettlesIn(channel, s, 87)
      {
        FlatChannel(channel, POWER_MAX);
        SettlesIffOneSided(channel);
      }
    } else {
      assert HasGain(LINEAR, gain);
      SettlesIffOneSided(LINEAR);
    }
  }
}
