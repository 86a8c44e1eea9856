/** The half-duplex slots of the packet driver (src/PacketDriver/LoLaPacketDriver.h). */
module Duplex {
  import opened Common

  const PERIOD: nat := 10000
  const HALF: nat := 5000
  const BACK_OFF_LINKED: nat := 1
  const BACK_OFF_UNLINKED: nat := 5

  function Sub32(a: nat, b: nat): nat {
    (a as int - b as int) % UINT32
  }

  /** Where a packet sent when the synchronized clock reads sync would arrive in its period. */
  function Elapsed(sync: nat, ettm: nat): nat {
    (sync + ettm) % UINT32 % PERIOD
  }

  predicate IsInSendSlot(even: bool, sync: nat, ettm: nat) {
    var elapsed := Elapsed(sync, ettm);
    if even then elapsed <= Sub32(HALF, ettm)
    else elapsed >= HALF && elapsed <= Sub32(PERIOD, ettm)
  }

  predicate IsInReceiveSlot(even: bool, sync: nat, offset: int) {
    var elapsed := (sync + offset) % UINT32 % PERIOD;
    if even then elapsed >= HALF else elapsed <= HALF
  }

  /** AllowedSend of a driver that is ready for anything and has no channel change pending. */
  predicate AllowedSend(linked: bool, even: bool, sync: nat, ettm: nat, sinceLastSent: nat) {
    if linked then IsInSendSlot(even, sync, ettm) && sinceLastSent >= BACK_OFF_LINKED
    else sinceLastSent >= BACK_OFF_UNLINKED
  }

  /** The slots in numbers: the host sends what arrives in the first half of a period of 10 ms, the remote what arrives in the
      second half, each with the transmission time to spare; each receives in the other half. */
  lemma SlotsInNumbers(sync: nat, ettm: nat)
    requires ettm <= 5000
    ensures var arrival := (sync + ettm) % 0x1_0000_0000 % 10000;
            && (IsInSendSlot(true, sync, ettm) <==> arrival + ettm <= 5000)
            && (IsInSendSlot(false, sync, ettm) <==> 5000 <= arrival && arrival + ettm <= 10000)
            && (IsInReceiveSlot(true, sync, ettm) <==> 5000 <= arrival)
            && (IsInReceiveSlot(false, sync, ettm) <==> arrival <= 5000)
  {
  }

  /** A packet that starts when the clock reads start occupies the air until it arrives, ettm later. */
  predicate OnAir(start: nat, ettm: nat, instant: nat) {
    start <= instant < start + ettm
  }

  /** Both ends linked, one clock, one estimated transmission time of at most a period, and no wrap of the counter:
      what the host and the remote are allowed to send never overlaps, in the same or in different periods. */
  lemma NoCollision(host: nat, remote: nat, ettm: nat, instant: nat, hostIdle: nat, remoteIdle: nat)
    requires ettm <= PERIOD && host + ettm < UINT32 && remote + ettm < UINT32
    requires AllowedSend(true, true, host, ettm, hostIdle) && AllowedSend(true, false, remote, ettm, remoteIdle)
    ensures !(OnAir(host, ettm, instant) && OnAir(remote, ettm, instant))
  {
    var a, b := (host + ettm) / PERIOD, (remote + ettm) / PERIOD;
    assert host + ettm == a * PERIOD + Elapsed(host, ettm);
    assert remote + ettm == b * PERIOD + Elapsed(remote, ettm);
    if a < b {
      assert a * PERIOD + PERIOD <= b * PERIOD;
    } else if b < a {
      assert b * PERIOD + PERIOD <= a * PERIOD;
    }
  }

  ghost predicate Overlap(a: nat, b: nat, ettm: nat) {
    exists instant: nat :: OnAir(a, ettm, instant) && OnAir(b, ettm, instant)
  }

  /** What the partner of an end of the given slot may send, whenever it is. */
  predicate PartnerMay(even: bool, partner: nat, ettm: nat, idle: nat) {
    partner + ettm < UINT32 && AllowedSend(true, !even, partner, ettm, idle)
  }

  /** What is sent by an end of the given slot when the clock reads sync overlaps nothing its partner is ever allowed to send. */
  ghost predicate KeepsClear(even: bool, sync: nat, ettm: nat) {
    forall partner: nat, idle: nat :: PartnerMay(even, partner, ettm, idle) ==> !Overlap(sync, partner, ettm)
  }

  lemma AllowedKeepsClear(even: bool, sync: nat, ettm: nat, elapsed: nat)
    requires ettm <= PERIOD && sync + ettm < UINT32 && AllowedSend(true, even, sync, ettm, elapsed)
    ensures KeepsClear(even, sync, ettm)
  {
    forall partner: nat, idle: nat | PartnerMay(even, partner, ettm, idle)
      ensures !Overlap(sync, partner, ettm)
    {
      if Overlap(sync, partner, ettm) {
        var instant: nat :| OnAir(sync, ettm, instant) && OnAir(partner, ettm, instant);
        if even {
          NoCollision(sync, partner, ettm, instant, elapsed, idle);
        } else {
          NoCollision(partner, sync, ettm, instant, idle, elapsed);
        }
      }
    }
  }

  ghost predicate Collides(host: nat, remote: nat, ettm: nat) {
    && host + ettm < UINT32 && remote + ettm < UINT32
    && IsInSendSlot(true, host, ettm) && IsInSendSlot(false, remote, ettm)
    && Overlap(host, remote, ettm)
  }

  /** Above a period the unsigned subtractions wrap and the slots no longer exclude each other: up to half the range
      of the counter, collisions are possible exactly then. */
  lemma CollisionIffTooSlow(ettm: nat)
    requires ettm < UINT32 / 2
    ensures (exists host: nat, remote: nat :: Collides(host, remote, ettm)) <==> ettm > PERIOD
  {
    if ettm > PERIOD {
      var sync: nat := PERIOD - ettm % PERIOD + HALF;
      assert (sync + ettm) % PERIOD == HALF;
      assert OnAir(sync, ettm, sync);
      assert Collides(sync, sync, ettm);
    }
    forall host: nat, remote: nat | Collides(host, remote, ettm)
      ensures ettm > PERIOD
    {
      var instant: nat :| OnAir(host, ettm, instant) && OnAir(remote, ettm, instant);
      if ettm <= PERIOD {
        NoCollision(host, remote, ettm, instant, BACK_OFF_LINKED, BACK_OFF_LINKED);
      }
    }
  }

  /** The remote ever gets to send just for a transmission time of at most half a period, or above a whole one, where the
      unsigned subtraction wraps and the upper end of its slot is gone. */
  lemma RemoteServedIffFast(ettm: nat)
    requires ettm < UINT32
    ensures (exists sync: nat :: sync + ettm < UINT32 && IsInSendSlot(false, sync, ettm)) <==> ettm <= HALF || ettm > PERIOD
  {
    if ettm <= HALF {
      var sync: nat := HALF - ettm;
      assert IsInSendSlot(false, sync, ettm);
    } else if ettm > PERIOD {
      var sync: nat := UINT32 - 1 - ettm;
      assert IsInSendSlot(false, sync, ettm);
    }
  }

  /** How far the remote's clock is ahead of the host's, reduced to one period. */
  function Phase(skew: int): nat {
    skew % PERIOD
  }

  lemma ElapsedPhase(sync: nat, ettm: nat, skew: int)
    requires sync + ettm < UINT32 && 0 <= sync + skew && sync + skew + ettm < UINT32
    ensures Elapsed(sync + skew, ettm) == (Elapsed(sync, ettm) + Phase(skew)) % PERIOD
  {
    var a, b := (sync + ettm) / PERIOD, skew / PERIOD;
    assert sync + skew + ettm == (a + b) * PERIOD + Elapsed(sync, ettm) + Phase(skew);
    assert (sync + skew + ettm) % PERIOD == (Elapsed(sync, ettm) + Phase(skew)) % PERIOD;
  }

  lemma BothAllowedMeansSkewed(ettm: nat, skew: int, sync: nat)
    requires ettm <= HALF && BothAllowed(sync, ettm, skew)
    ensures ettm <= Phase(skew) <= PERIOD - ettm
  {
    ElapsedPhase(sync, ettm, skew);
  }

  lemma SkewedMeansBothAllowed(ettm: nat, skew: int) returns (sync: nat)
    requires ettm <= HALF && -0x4000_0000 < skew < 0x4000_0000 && ettm <= Phase(skew) <= PERIOD - ettm
    ensures BothAllowed(sync, ettm, skew)
  {
    // the host's place in its period: as early as the remote's second half allows
    var place: nat := if Phase(skew) >= HALF then 0 else HALF - Phase(skew);
    sync := 200000 * PERIOD + place - ettm;
    assert (sync + ettm) % PERIOD == place;
    ElapsedPhase(sync, ettm, skew);
  }

  /** With clocks that differ, both ends can be allowed to send at one and the same instant just when the difference,
      reduced to one period, is at least the estimated transmission time and at most the period less that time. */
  lemma BothAllowedIffSkewed(ettm: nat, skew: int)
    requires ettm <= HALF && -0x4000_0000 < skew < 0x4000_0000
    ensures (exists sync: nat :: BothAllowed(sync, ettm, skew)) <==> ettm <= Phase(skew) <= PERIOD - ettm
  {
    if ettm <= Phase(skew) <= PERIOD - ettm {
      var sync := SkewedMeansBothAllowed(ettm, skew);
    }
    forall sync: nat | BothAllowed(sync, ettm, skew)
      ensures ettm <= Phase(skew) <= PERIOD - ettm
    {
      BothAllowedMeansSkewed(ettm, skew, sync);
    }
  }

  predicate BothAllowed(sync: nat, ettm: nat, skew: int) {
    && sync + ettm < UINT32 && 0 <= sync + skew && sync + skew + ettm < UINT32
    && IsInSendSlot(true, sync, ettm) && IsInSendSlot(false, sync + skew, ettm)
  }

  /** In particular never with a difference strictly below the estimated transmission time. */
  lemma SmallSkewIsSafe(ettm: nat, skew: int, sync: nat)
    requires ettm <= HALF && -(ettm as int) < skew < ettm
    ensures !BothAllowed(sync, ettm, skew)
  {
    if BothAllowed(sync, ettm, skew) {
      BothAllowedMeansSkewed(ettm, skew, sync);
    }
  }

  /** A packet sent in the own slot arrives in the partner's receive slot, if its flight takes the estimated
      transmission time or up to twice as long. */
  lemma ArrivesInReceiveSlot(even: bool, sync: nat, ettm: nat, flight: nat)
    requires ettm <= HALF && sync + flight < UINT32 && sync + ettm < UINT32
    requires IsInSendSlot(even, sync, ettm) && ettm <= flight && (flight == ettm || flight < 2 * ettm)
    ensures IsInReceiveSlot(!even, sync, flight)
  {
  }
}
