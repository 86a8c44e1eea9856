/** Latency measurement on the host and what becomes of it on both ends: the sample filter, the averaging loop, the
    round trip time sent to the remote in two bytes, and the estimated transmission time (ETTM) each driver derives
    (src/Services/Link/LoLaLinkLatencyMeter.h, src/LoLaLinkInfo.h). */
module Latency {
  import opened Common
  import Duplex

  const INVALID_MICROS: nat := 0xFFFF_FFFF
  const INVALID_LATENCY: nat := 0xFFFF
  const PING_TIMEOUT_MICROS: nat := 10000
  const MAX_SAMPLES: nat := 3

  /** RingBufCPP::addForce: a full ring loses its oldest entry. */
  function AddForce<T>(ring: seq<T>, capacity: nat, x: T): (r: seq<T>)
    requires |ring| <= capacity && capacity > 0
    ensures |r| <= capacity && r != [] && r[|r| - 1] == x
    ensures forall k :: 0 <= k < |r| - 1 ==> r[k] in ring
  {
    if |ring| < capacity then ring + [x] else ring[1..] + [x]
  }

  function Sum(s: seq<nat>): nat {
    if s == [] then 0 else Sum(s[..|s| - 1]) + s[|s| - 1]
  }

  lemma MulMonotone(a: nat, b: nat, n: nat)
    requires a <= b
    ensures a * n <= b * n
  {
  }

  lemma QuotientInRange(s: nat, n: nat, low: nat, high: nat)
    requires n > 0 && low * n <= s <= high * n
    ensures low <= s / n <= high
  {
    var q := s / n;
    if q < low {
      MulMonotone(q + 1, low, n);
    }
  }

  lemma {:induction false} SumBounds(s: seq<nat>, low: nat, high: nat)
    requires forall k :: 0 <= k < |s| ==> low <= s[k] <= high
    ensures low * |s| <= Sum(s) <= high * |s|
  {
    if s == [] {
    } else {
      var n: nat := |s| - 1;
      SumBounds(s[..n], low, high);
      assert low * (n + 1) == low * n + low && high * (n + 1) == high * n + high;
    }
  }

  datatype Meter = Meter(sentAt: nat, sentId: nat, samples: seq<nat>) {
    predicate Valid() {
      |samples| <= MAX_SAMPLES && forall k :: 0 <= k < |samples| ==> samples[k] < PING_TIMEOUT_MICROS
    }

    function OnAckPacketSent(micros: nat, id: nat): Meter {
      this.(sentAt := micros, sentId := id)
    }

    /** A sample counts if the acknowledged ping is the last one sent and took less than the ping time out. */
    function OnAckReceived(micros: nat, id: nat): (r: (Meter, bool))
      requires |samples| <= MAX_SAMPLES
      ensures Valid() ==> r.0.Valid()
      ensures r.1 ==> r.0.samples != []
      ensures |r.0.samples| >= |samples|
    {
      var duration := (micros as int - sentAt) % UINT32;
      if sentAt != INVALID_MICROS && sentId == id && duration < PING_TIMEOUT_MICROS then
        (this.(samples := AddForce(samples, MAX_SAMPLES, duration)), true)
      else (this, false)
    }

    function Average(): nat {
      if samples == [] then INVALID_LATENCY else Sum(samples) / |samples|
    }
  }

  const FRESH_METER: Meter := Meter(INVALID_MICROS, 0, [])

  /** SetRTT: transmission takes a lot longer than receiving. */
  function Ettm(rtt: nat): nat {
    rtt * 8 / 20
  }

  /** The two payload bytes of the host's info packet, and how the remote reads them. */
  function RttBytes(rtt: nat): (nat, nat) {
    (rtt % 256, rtt / 256 % 256)
  }

  function RttFromBytes(low: nat, high: nat): nat {
    (low + high * 256) % 0x1_0000
  }

  /** The average lies between the samples it is taken from. */
  lemma AverageInRange(m: Meter, low: nat, high: nat)
    requires m.samples != [] && forall k :: 0 <= k < |m.samples| ==> low <= m.samples[k] <= high
    ensures low <= m.Average() <= high
  {
    SumBounds(m.samples, low, high);
    QuotientInRange(Sum(m.samples), |m.samples|, low, high);
  }

  /** The average of one, two or three samples. */
  predicate IsMeanOf(samples: seq<nat>, mean: nat) {
    && (|samples| == 1 ==> mean == samples[0])
    && (|samples| == 2 ==> mean == (samples[0] + samples[1]) / 2)
    && (|samples| == 3 ==> mean == (samples[0] + samples[1] + samples[2]) / 3)
  }

  lemma MeanOf(s: seq<nat>)
    requires s != []
    ensures IsMeanOf(s, Sum(s) / |s|)
  {
    if |s| == 1 { assert s[..0] == []; }
    else if |s| == 2 { assert s[..1][..0] == [] && Sum(s[..1]) == Sum(s[..1][..0]) + s[0]; }
    else if |s| == 3 {
      assert s[..2][..1][..0] == [] && Sum(s[..2][..1]) == Sum([]) + s[0] && Sum(s[..2]) == Sum(s[..2][..1]) + s[1];
    }
  }

  lemma AverageIsMean(m: Meter)
    ensures IsMeanOf(m.samples, m.Average())
  {
    if m.samples != [] { MeanOf(m.samples); }
  }

  lemma {:induction false} SumWithout(s: seq<nat>, j: nat)
    requires j < |s|
    ensures Sum(s) == Sum(s[..j] + s[j + 1..]) + s[j]
  {
    var n := |s| - 1;
    var rest := s[..j] + s[j + 1..];
    if j == n {
      assert rest == s[..n];
    } else {
      SumWithout(s[..n], j);
      assert rest[..n - 1] == s[..n][..j] + s[..n][j + 1..] && rest[n - 1] == s[n] && s[..n][j] == s[j];
    }
  }

  /** The order in which the samples came in does not matter. */
  lemma {:induction false} SumOfPermutation(s: seq<nat>, t: seq<nat>)
    requires multiset(s) == multiset(t)
    ensures Sum(s) == Sum(t) && |s| == |t|
  {
    assert |multiset(s)| == |s| && |multiset(t)| == |t|;
    if s == [] {
    } else {
      var n := |s| - 1;
      SplitAt(s, n);
      assert s[..n] + s[n + 1..] == s[..n];
      assert s[n] in multiset(s);
      var j: nat :| j < |t| && t[j] == s[n];
      SplitAt(t, j);
      assert multiset(s[..n]) == multiset(s) - multiset{s[n]} == multiset(t[..j] + t[j + 1..]);
      SumOfPermutation(s[..n], t[..j] + t[j + 1..]);
      SumWithout(t, j);
    }
  }

  lemma SplitAt(t: seq<nat>, j: nat)
    requires j < |t|
    ensures multiset(t) == multiset(t[..j] + t[j + 1..]) + multiset{t[j]}
  {
    assert t == t[..j] + [t[j]] + t[j + 1..];
  }

  lemma AverageOfPermutation(m: Meter, n: Meter)
    requires multiset(m.samples) == multiset(n.samples)
    ensures m.Average() == n.Average()
  {
    SumOfPermutation(m.samples, n.samples);
  }

  /** The transmission time is two fifths of the round trip time, rounded down. */
  lemma EttmIsTwoFifths(rtt: nat)
    ensures 5 * Ettm(rtt) <= 2 * rtt < 5 * Ettm(rtt) + 5
  {
  }

  /** From the filtered samples to the slot test: with any samples taken, the host's ETTM is at most 3999 us, less than
      half a period, and the remote derives the same ETTM from the two bytes it receives. */
  lemma EttmAgreesAndIsShort(m: Meter)
    requires m.Valid() && m.samples != []
    ensures var rtt := m.Average();
            var (low, high) := RttBytes(rtt);
            && rtt < PING_TIMEOUT_MICROS
            && RttFromBytes(low, high) == rtt
            && Ettm(RttFromBytes(low, high)) == Ettm(rtt) <= 3999 < Duplex.HALF
  {
    AverageInRange(m, 0, PING_TIMEOUT_MICROS - 1);
  }

  /** The running form of the source: a bounded ring changed in place and a loop that adds it up. */
  class LatencyMeter {
    var lastSentWith: nat
    var lastSentPacketId: nat
    var durationStack: seq<nat>

    ghost function View(): Meter
      reads this
    {
      Meter(lastSentWith, lastSentPacketId, durationStack)
    }

    constructor ()
      ensures View() == FRESH_METER
    {
      lastSentWith, lastSentPacketId, durationStack := INVALID_MICROS, 0, [];
    }

    method Reset()
      modifies this
      ensures View() == FRESH_METER
    {
      lastSentWith := INVALID_MICROS;
      lastSentPacketId := 0;
      while durationStack != []
        decreases |durationStack|
        invariant lastSentWith == INVALID_MICROS && lastSentPacketId == 0
      {
        durationStack := durationStack[1..];
      }
    }

    method GetAverageLatency() returns (average: nat)
      requires View().Valid()
      ensures average == View().Average() && IsMeanOf(durationStack, average)
      ensures durationStack == [] ==> average == 0xFFFF
      ensures average <= INVALID_LATENCY
    {
      if durationStack == [] {
        return INVALID_LATENCY;
      }
      var durationSum := 0;
      for i := 0 to |durationStack|
        invariant durationSum == Sum(durationStack[..i])
      {
        assert durationStack[..i + 1][..i] == durationStack[..i];
        durationSum := durationSum + durationStack[i];
      }
      assert durationStack[..|durationStack|] == durationStack;
      AverageInRange(View(), 0, PING_TIMEOUT_MICROS - 1);
      AverageIsMean(View());
      return durationSum / |durationStack|;
    }

    method OnAckPacketSent(packetId: nat, micros: nat)
      modifies this
      ensures View() == old(View()).OnAckPacketSent(micros, packetId)
    {
      lastSentWith := micros;
      lastSentPacketId := packetId;
    }

    method OnAckReceived(packetId: nat, micros: nat) returns (accepted: bool)
      requires View().Valid()
      modifies this
      ensures (View(), accepted) == old(View()).OnAckReceived(micros, packetId)
    {
      var grunt := (micros as int - lastSentWith) % UINT32;
      if lastSentWith != INVALID_MICROS && lastSentPacketId == packetId {
        if grunt < PING_TIMEOUT_MICROS {
          durationStack := AddForce(durationStack, MAX_SAMPLES, grunt);
          return true;
        }
      }
      return false;
    }
  }
}
