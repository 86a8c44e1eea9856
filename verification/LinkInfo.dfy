/** The link's shared information as an object (src/LoLaLinkInfo.h): link state, session, partner, round trip time, the
    ring of the partner's RSSI reports, and what the driver is told of them. */
module LinkInfo {
  import opened Latency
  import LinkNodes

  const RSSI_SAMPLE_COUNT: nat := 3
  const UINT8_MAX: nat := 255

  class LoLaLinkInfo {
    var linkState: LinkNodes.LinkState
    var sessionId: nat
    var partnerId: nat
    var partnerIdPresent: bool
    var rtt: nat
    var driverEttm: nat
    var driverLinkActive: bool
    var partnerRSSISamples: seq<nat>

    ghost predicate Valid()
      reads this
    {
      |partnerRSSISamples| <= RSSI_SAMPLE_COUNT
    }

    /** The driver computes its slots with the ETTM of the round trip time, with 0 as long as there is none. */
    ghost predicate DriverFollows()
      reads this
    {
      driverEttm == if rtt == INVALID_LATENCY then 0 else Ettm(rtt)
    }

    constructor ()
      ensures Valid() && DriverFollows() && !driverLinkActive && linkState == LinkNodes.Disabled
      ensures sessionId == 0 && partnerId == 0 && !partnerIdPresent && rtt == INVALID_LATENCY && partnerRSSISamples == []
    {
      linkState, sessionId, partnerId, partnerIdPresent, rtt := LinkNodes.Disabled, 0, 0, false, INVALID_LATENCY;
      driverEttm, driverLinkActive, partnerRSSISamples := 0, false, [];
    }

    method UpdateState(newState: LinkNodes.LinkState)
      modifies this`linkState
      ensures linkState == newState
    {
      linkState := newState;
    }

    method SetPartnerId(id: nat)
      modifies this`partnerId, this`partnerIdPresent
      ensures partnerId == id && partnerIdPresent
    {
      partnerId := id;
      partnerIdPresent := true;
    }

    /** An id of 0 is stored too, but refused. */
    method SetSessionId(id: nat) returns (accepted: bool)
      modifies this`sessionId
      ensures sessionId == id && (accepted <==> id != 0)
    {
      sessionId := id;
      accepted := sessionId != 0;
    }

    /** Whether there is a partner is read off its id and not off partnerIdPresent: a partner with id 0 does not count,
        and one of an earlier session still does. */
    method HasSession() returns (has: bool)
      ensures has <==> sessionId != 0 && partnerId != 0
    {
      has := sessionId != 0 && partnerId != 0;
    }

    /** Neither the link state nor the partner's id is touched; the driver is unlinked and forgets its ETTM. */
    method Reset()
      modifies this
      ensures Valid() && sessionId == 0 && !partnerIdPresent && rtt == INVALID_LATENCY && partnerRSSISamples == []
      ensures DriverFollows() && driverEttm == 0 && !driverLinkActive
      ensures partnerId == old(partnerId) && linkState == old(linkState)
    {
      sessionId := 0;
      partnerIdPresent := false;
      rtt := INVALID_LATENCY;
      while partnerRSSISamples != []
        decreases |partnerRSSISamples|
        invariant sessionId == 0 && !partnerIdPresent && rtt == INVALID_LATENCY
        invariant partnerId == old(partnerId) && linkState == old(linkState)
      {
        partnerRSSISamples := partnerRSSISamples[1..];
      }
      driverLinkActive := false;
      driverEttm := 0;
    }

    method StampLinkStarted()
      modifies this`driverLinkActive
      ensures driverLinkActive
    {
      driverLinkActive := true;
    }

    /** The driver's estimated transmission time follows; below the ping time out it leaves room in both half periods. */
    method SetRTT(rttMicros: nat)
      modifies this`rtt, this`driverEttm
      ensures rtt == rttMicros && driverEttm == Ettm(rttMicros)
      ensures 5 * driverEttm <= 2 * rttMicros < 5 * driverEttm + 5
      ensures rttMicros != INVALID_LATENCY ==> DriverFollows()
      ensures rttMicros < PING_TIMEOUT_MICROS ==> driverEttm <= 3999
    {
      rtt := rttMicros;
      driverEttm := rtt * 8 / 20;
    }

    method SetPartnerRSSINormalized(rssi: nat)
      requires Valid()
      modifies this`partnerRSSISamples
      ensures Valid()
      ensures partnerRSSISamples == (if |old(partnerRSSISamples)| < 3 then old(partnerRSSISamples) else old(partnerRSSISamples)[1..]) + [rssi]
    {
      if |partnerRSSISamples| == RSSI_SAMPLE_COUNT {
        partnerRSSISamples := partnerRSSISamples[1..];
      }
      partnerRSSISamples := partnerRSSISamples + [rssi];
    }

    /** The average of the samples in the ring, between the weakest and the strongest of them; 0 if there is none. */
    method GetPartnerRSSINormalized(ghost low: nat, ghost high: nat) returns (average: nat)
      requires Valid() && forall k :: 0 <= k < |partnerRSSISamples| ==> low <= partnerRSSISamples[k] <= high
      ensures partnerRSSISamples == [] ==> average == 0
      ensures IsMeanOf(partnerRSSISamples, average) && (partnerRSSISamples != [] ==> low <= average <= high)
      ensures high <= UINT8_MAX ==> average <= UINT8_MAX
    {
      if partnerRSSISamples == [] {
        return 0;
      }
      var sum := 0;
      for i := 0 to |partnerRSSISamples|
        invariant sum == Sum(partnerRSSISamples[..i])
      {
        assert partnerRSSISamples[..i + 1][..i] == partnerRSSISamples[..i];
        sum := sum + partnerRSSISamples[i];
      }
      assert partnerRSSISamples[..|partnerRSSISamples|] == partnerRSSISamples;
      MeanOf(partnerRSSISamples);
      SumBounds(partnerRSSISamples, low, high);
      QuotientInRange(sum, |partnerRSSISamples|, low, high);
      return sum / |partnerRSSISamples|;
    }
  }
}
