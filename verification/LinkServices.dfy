/** The link services as objects (src/Services/Link): a service owns the link's shared information, the clock syncer and
    its clock, the clock transaction, the latency meter and its send machine, and its handlers change them in place.
    What the scheduler and the driver call - a run of the service, a packet, enabling and disabling - is proved to keep
    the invariant of the handshake, for any history that the object's state agrees with. */
module LinkServices {
  import opened Common
  import opened LinkCrypto
  import opened SendService
  import opened LinkNodes
  import opened LinkSystem
  import opened LinkInfo
  import opened ClockSync
  import Latency
  import Clock

  class LinkHostService {
    const localId: nat
    const sender: PacketSender<Payload>
    const linkInfo: LoLaLinkInfo
    const clockSyncer: HostClockSyncer
    const transaction: ClockSyncResponseTransaction
    const latencyMeter: Latency.LatencyMeter
    var linkingState: nat
    var infoSyncStage: nat
    var keyExchanger: KeyExchanger
    var encoder: Encoder
    var pingAcked: bool

    ghost function Repr(): set<object> {
      {this, sender, linkInfo, clockSyncer, clockSyncer.syncedClock, transaction, latencyMeter}
    }

    ghost function View(): Host
      reads Repr()
    {
      Host(localId, linkInfo.linkState, linkingState, infoSyncStage, linkInfo.sessionId, linkInfo.partnerId, keyExchanger, encoder,
           sender.View(), pingAcked, latencyMeter.View(), linkInfo.partnerRSSISamples, linkInfo.rtt, clockSyncer.syncGoodCount,
           clockSyncer.errors, clockSyncer.syncedClock.offsetMicros, transaction.View())
    }

    /** The driver works with the round trip time of the link, and takes the link to be up just while it is. */
    ghost predicate Valid()
      reads Repr()
    {
      Sound() && (linkInfo.driverLinkActive <==> linkInfo.linkState.Linked?)
    }

    /** What holds also in the middle of a change of the link state. */
    ghost predicate Sound()
      reads Repr()
    {
      sender.View().Valid() && linkInfo.Valid() && clockSyncer.Valid() && latencyMeter.View().Valid() && linkInfo.DriverFollows()
    }

    constructor (localId: nat)
      ensures Valid() && fresh(Repr())
      ensures forall remoteId: nat, clocks: Clocks :: View() == Start(localId, remoteId, clocks).h
    {
      this.localId := localId;
      sender := new PacketSender(LinkDiscovery);
      linkInfo := new LoLaLinkInfo();
      var syncedClock := new ClockSource();
      clockSyncer := new HostClockSyncer(syncedClock);
      transaction := new ClockSyncResponseTransaction();
      latencyMeter := new Latency.LatencyMeter();
      linkingState, infoSyncStage, pingAcked := 0, 0, false;
      keyExchanger, encoder := KeyExchanger(StageClear, 0, 0, {}), Encoder(AllClear, Cipher(None, None));
    }

    // -------------------------------------------------------------------------------------------
    // Calls from outside

    /** One callback of the service, whichever hook it runs. */
    method Callback(c: Chance, ghost past: History)
      requires Valid() && HostReady(View(), past, c) && !linkInfo.linkState.Disabled?
      modifies Repr()
      ensures Valid() && View() == old(View()).Callback(c)
      ensures HostDone(old(View()), View(), past)
      ensures FreshUntilLinking(old(View())) ==> StartsFresh(old(View()), View())
    {
      HostRunsStep(View(), past, c);
      if FreshUntilLinking(View()) { CallbackStartsFresh(View(), c); }
      hide HostReady, HostDone, FreshUntilLinking, StartsFresh, Host.Callback;
      Run(c);
    }

    /** A packet that the driver could read. */
    method ProcessPacket(p: AirPacket, micros: nat, ghost past: History)
      requires Valid() && HostKept(View(), past) && PastOk(past) && ToHostOk(p, past) && p.cipher == encoder.OnAir()
      modifies Repr()
      ensures Valid() && View() == old(View()).Receive(p.frame, micros) && HostKept(View(), past)
    {
      HostHearsStep(View(), past, p, micros);
      hide HostKept, PastOk, ToHostOk;
      Dispatch(p.frame, micros);
    }

    method OnEnable(c: Chance, ghost past: History)
      requires Valid() && HostReady(View(), past, c)
      modifies Repr()
      ensures Valid() && View() == old(View()).UpdateLinkState(Setup, c) && HostDone(old(View()), View(), past)
    {
      HostLeavesLink(View(), past, c, Setup);
      hide HostReady, HostDone;
      UpdateLinkState(Setup, c);
    }

    method OnDisable(c: Chance, ghost past: History)
      requires Valid() && HostReady(View(), past, c)
      modifies Repr()
      ensures Valid() && View() == old(View()).UpdateLinkState(Disabled, c) && HostDone(old(View()), View(), past)
    {
      HostLeavesLink(View(), past, c, Disabled);
      hide HostReady, HostDone;
      UpdateLinkState(Disabled, c);
    }

    // -------------------------------------------------------------------------------------------
    // Link states

    method ClearSession(c: Chance)
      requires Sound()
      modifies Repr()
      ensures Sound() && !linkInfo.driverLinkActive && linkInfo.linkState == old(linkInfo.linkState)
      ensures View() == old(View()).ClearSession(c)
    {
      clockSyncer.Reset(Clock.Wrap(c.random));
      transaction.Reset();
      linkInfo.Reset();
      encoder := encoder.Clear();
      keyExchanger := keyExchanger.ClearPartner();
      infoSyncStage := 0;
      latencyMeter.Reset();
    }

    method NewSession(c: Chance)
      requires Sound()
      modifies Repr()
      ensures Sound() && !linkInfo.driverLinkActive && linkInfo.linkState == old(linkInfo.linkState)
      ensures View() == old(View()).NewSession(c)
    {
      ClearSession(c);
      var accepted := linkInfo.SetSessionId(c.unused);
    }

    method EnterState(newState: LinkState, c: Chance)
      requires Valid() && linkInfo.linkState != newState && (newState.Linking? ==> linkInfo.linkState.AwaitingLink?)
      modifies Repr()
      ensures Sound() && (linkInfo.driverLinkActive <==> newState.Linked?) && View() == old(View()).EnterState(newState, c)
      decreases newState.Linking?, 1
    {
      hide Host.ClearSession;
      if linkInfo.linkState.Linked? {
        ClearSession(c);
      }
      match newState
      case Setup =>
        linkingState := 0;
        ClearSession(c);
      case AwaitingLink =>
        ClearSession(c);
        linkingState := 0;
      case AwaitingSleeping =>
        ClearSession(c);
        linkingState := 0;
      case Linking => StartLinking(c);
      case Linked => linkInfo.StampLinkStarted();
      case Disabled => linkInfo.Reset();
    }

    /** The nested change after a failed SetEnabled is the source's; it finds the state it asks for. */
    method StartLinking(c: Chance)
      requires Valid() && linkInfo.linkState.AwaitingLink?
      modifies Repr()
      ensures Sound() && !linkInfo.driverLinkActive && View() == old(View()).EnterState(Linking, c)
      decreases true, 0
    {
      linkingState := 0;
      var (e, ok) := encoder.SetEnabled();
      encoder := e;
      if !ok {
        UpdateLinkState(AwaitingLink, c);
      }
    }

    method OnLinkStateChanged(newState: LinkState, c: Chance)
      requires Sound() && (linkInfo.driverLinkActive <==> newState.Linked?)
      modifies Repr()
      ensures Sound() && (linkInfo.driverLinkActive <==> newState.Linked?) && View() == old(View()).OnLinkStateChanged(newState, c)
    {
      match newState
      case AwaitingLink => NewSession(c);
      case Linking => infoSyncStage := MEASURING;
      case Linked => transaction.Reset();
      case _ =>
    }

    method UpdateLinkState(newState: LinkState, c: Chance)
      requires Valid() && (newState.Linking? ==> linkInfo.linkState.AwaitingLink?)
      modifies Repr()
      ensures Valid() && View() == old(View()).UpdateLinkState(newState, c)
      decreases newState.Linking?, 2
    {
      hide Host.EnterState, Host.OnLinkStateChanged;
      if linkInfo.linkState != newState {
        EnterState(newState, c);
        OnLinkStateChanged(newState, c);
        linkInfo.UpdateState(newState);
      }
    }

    // -------------------------------------------------------------------------------------------
    // The service

    method Request(header: nat, id: nat, hasAck: bool, payload: Payload, c: Chance)
      modifies sender
      ensures View() == old(View()).Request(Frame(header, id, hasAck, payload), c) && sender.View().Valid()
    {
      sender.Prepare(header, id, hasAck, payload);
      sender.RequestSendPacket(c.send.now);
    }

    method RestartAwaitingLink(c: Chance)
      requires Sound()
      modifies Repr()
      ensures Sound() && !linkInfo.driverLinkActive && linkInfo.linkState == old(linkInfo.linkState)
      ensures View() == old(View()).ClearSession(c).SetStage(BROADCASTING)
    {
      ClearSession(c);
      linkingState := BROADCASTING;
    }

    method OnAwaitingLink(c: Chance)
      requires Valid() && linkInfo.linkState.AwaitingLink?
      modifies Repr()
      ensures Valid() && View() == old(View()).OnAwaitingLink(c)
    {
      hide Host.UpdateLinkState, Host.ClearSession, Host.NewSession, Host.Request;
      if linkingState == BROADCASTING {
        if linkInfo.sessionId == 0 || c.sessionOld {
          NewSession(c);
        }
        if c.resend {
          Request(SHORT, linkInfo.sessionId, false, IdBroadcast(localId), c);
        }
      } else if linkingState == VALIDATING {
        encoder := encoder.SetIvData(linkInfo.sessionId, localId, linkInfo.partnerId);
        linkingState := HOST_SENDING_KEY;
      } else if linkingState == HOST_SENDING_KEY {
        if c.subExpired {
          RestartAwaitingLink(c);
        } else if c.resend {
          Request(LONG, linkInfo.sessionId, false, HostKey(keyExchanger.local), c);
        }
      } else if linkingState == HOST_PROCESSING {
        ProcessKey(c);
      } else if linkingState == GOT_SHARED_KEY {
        if c.subExpired {
          RestartAwaitingLink(c);
        } else if c.resend {
          Request(SHORT_WITH_ACK, linkInfo.sessionId, true, CryptoStart(encoder.cipher, linkInfo.partnerId), c);
        }
      } else if linkingState == SWITCH_OVER {
        UpdateLinkState(Linking, c);
      } else {
        linkingState := 0;
      }
    }

    method ProcessKey(c: Chance)
      requires Valid() && linkInfo.linkState.AwaitingLink? && linkingState == HOST_PROCESSING
      modifies Repr()
      ensures Valid() && View() == old(View()).OnAwaitingLink(c)
    {
      var (k, ok) := keyExchanger.GenerateSharedKey(c.sharedOk);
      keyExchanger := k;
      if ok {
        encoder := encoder.SetSecretKey(k.shared);
        linkingState := GOT_SHARED_KEY;
      } else {
        RestartAwaitingLink(c);
      }
    }

    method OnInfoSync(c: Chance)
      requires Valid() && linkInfo.linkState.Linking?
      modifies Repr()
      ensures Valid() && View() == old(View()).OnInfoSync(c)
    {
      if infoSyncStage == MEASURING {
        if |latencyMeter.durationStack| >= MIN_LATENCY_SAMPLES {
          Latency.AverageInRange(latencyMeter.View(), 0, Latency.PING_TIMEOUT_MICROS - 1);
          var average := latencyMeter.GetAverageLatency();
          linkInfo.SetRTT(average);
          infoSyncStage := REQUESTING_INFO;
        } else if pingAcked || c.resend {
          pingAcked := false;
          Request(PING, c.random, true, Ping, c);
        }
      } else if infoSyncStage == REQUESTING_INFO {
        if linkInfo.partnerRSSISamples != [] {
          infoSyncStage := SENDING_HOST_INFO;
        } else if c.resend {
          Request(REPORT, 0x40, false, InfoRequest, c);
        }
      } else if infoSyncStage == SENDING_HOST_INFO {
        if c.resend {
          Request(REPORT, 0x41, false, HostInfo(c.rssi, linkInfo.rtt), c);
        }
      }
    }

    /** Answers a waiting clock request, with or without the tune sub-header. */
    method AnswerClockRequest(reply: Payload, c: Chance)
      requires Valid()
      modifies Repr()
      ensures Valid()
      ensures View() == old(View()).OnEstimationReceived(old(transaction.result))
                        .(transaction := old(transaction.View()).(ready := false, id := 0))
                        .Request(Short(old(transaction.id), reply), c)
    {
      assert Clock.Count(clockSyncer.errors + [transaction.result]) == Clock.CountAfter(clockSyncer.syncGoodCount, transaction.result) by {
        assert (clockSyncer.errors + [transaction.result])[..|clockSyncer.errors|] == clockSyncer.errors;
      }
      var good := clockSyncer.OnEstimationReceived(transaction.result);
      var id := transaction.id;
      transaction.Reset();
      Request(SHORT, id, false, reply, c);
    }

    method OnClockSync(c: Chance)
      requires Valid()
      modifies Repr()
      ensures Valid() && View() == old(View()).OnClockSync(c)
    {
      if transaction.resultReady {
        AnswerClockRequest(NtpReply(transaction.result), c);
      }
    }

    method OnLinking(c: Chance)
      requires Valid() && linkInfo.linkState.Linking?
      modifies Repr()
      ensures Valid() && View() == old(View()).OnLinking(c)
    {
      if linkingState == INFO_SYNC {
        OnInfoSync(c);
      } else if linkingState == CLOCK_SYNC {
        if clockSyncer.syncGoodCount > Clock.MIN_CLOCK_SAMPLES {
          linkingState := PROTOCOL_SWITCH_OVER;
        } else {
          OnClockSync(c);
        }
      } else if linkingState == PROTOCOL_SWITCH_OVER {
        if c.resend {
          Request(SHORT_WITH_ACK, linkInfo.sessionId, true, SwitchOver(linkInfo.partnerId), c);
        }
      } else if linkingState == LINKING_DONE {
        UpdateLinkState(Linked, c);
      } else {
        UpdateLinkState(AwaitingLink, c);
      }
    }

    method OnKeepingLink(c: Chance)
      requires Valid()
      modifies Repr()
      ensures Valid() && View() == old(View()).OnKeepingLink(c)
    {
      if c.report {
        Request(REPORT, 0x0A, false, Report(c.rssi), c);
      } else if transaction.resultReady {
        AnswerClockRequest(TuneReply(transaction.result), c);
      }
    }

    method OnService(c: Chance)
      requires Valid()
      modifies Repr()
      ensures Valid() && View() == old(View()).OnService(c)
    {
      hide Host.UpdateLinkState, Host.OnAwaitingLink, Host.OnLinking, Host.OnKeepingLink;
      match linkInfo.linkState
      case Setup => UpdateLinkState(AwaitingLink, c);
      case AwaitingLink =>
        if c.keysOld {
          keyExchanger := keyExchanger.GenerateNewKeyPair(c.unused, c.keyOk);
        } else if c.expired {
          UpdateLinkState(AwaitingSleeping, c);
        } else {
          OnAwaitingLink(c);
        }
      case AwaitingSleeping => UpdateLinkState(AwaitingLink, c);
      case Linking =>
        if c.expired { UpdateLinkState(AwaitingLink, c); } else { OnLinking(c); }
      case Linked =>
        if c.lost { UpdateLinkState(AwaitingLink, c); } else { OnKeepingLink(c); }
      case Disabled =>
    }

    // -------------------------------------------------------------------------------------------
    // Hooks and packets

    method Run(c: Chance)
      requires Valid()
      modifies Repr()
      ensures Valid() && View() == old(View()).Callback(c)
    {
      hide Host.OnService, Host.OnPreSend, Host.OnPingAckReceived, Host.OnLinkAckReceived;
      var header, id := sender.header, sender.id;
      var event := sender.Callback(c.send);
      match event
      case OnService => OnService(c);
      case OnAckReceived =>
        if header == PING { OnPingAckReceived(id, c); } else { OnLinkAckReceived(header, id); }
      case Transmitted => OnPreSend(c);
      case Refused => OnPreSend(c);
      case OnSendRetrying => OnPreSend(c);
      case _ =>
    }

    method OnPingAckReceived(id: nat, c: Chance)
      requires Valid()
      modifies this, latencyMeter
      ensures Valid() && View() == old(View()).OnPingAckReceived(id, c)
    {
      if linkInfo.linkState.Linking? && linkingState == INFO_SYNC {
        var accepted := latencyMeter.OnAckReceived(id, c.micros);
        if accepted {
          pingAcked := true;
        }
      }
    }

    method OnLinkAckReceived(header: nat, id: nat)
      requires Valid()
      modifies this`linkingState
      ensures Valid() && View() == old(View()).OnLinkAckReceived(header, id)
    {
      if header != SHORT_WITH_ACK {
        return;
      }
      match linkInfo.linkState
      case AwaitingLink =>
        if linkingState == GOT_SHARED_KEY && linkInfo.sessionId == id {
          linkingState := SWITCH_OVER;
        }
      case Linking =>
        if linkingState == PROTOCOL_SWITCH_OVER && linkInfo.sessionId == id {
          linkingState := LINKING_DONE;
        }
      case _ =>
    }

    method OnPreSend(c: Chance)
      requires Valid()
      modifies latencyMeter
      ensures Valid() && View() == old(View()).OnPreSend(c)
    {
      if linkInfo.linkState.Linking? && linkingState == INFO_SYNC && sender.header == PING {
        latencyMeter.OnAckPacketSent(sender.id, c.micros);
      }
    }

    method OnClockSyncRequestReceived(id: nat, estimate: nat, micros: nat)
      requires Valid()
      modifies transaction, this`linkingState
      ensures Valid() && View() == old(View()).OnClockSyncRequestReceived(id, estimate, micros)
    {
      if linkInfo.linkState.Linking? {
        StoreError(id, estimate, micros);
        if linkingState == INFO_SYNC {
          if |latencyMeter.durationStack| >= MIN_LATENCY_SAMPLES && linkInfo.partnerRSSISamples != [] {
            linkingState := CLOCK_SYNC;
          }
        } else if linkingState != CLOCK_SYNC {
          transaction.Reset();
        }
      }
    }

    /** The clock is read as it was when the packet came in. */
    method StoreError(id: nat, estimate: nat, micros: nat)
      modifies transaction
      ensures transaction.View() == Transaction(true, id, View().EstimateError(micros, estimate))
    {
      var reading := clockSyncer.syncedClock.GetSyncMicros(micros);
      transaction.SetResult(id, Clock.Signed(reading as int - estimate));
    }

    method OnPKCRequestReceived(p: Packet, ghost micros: nat)
      requires Valid() && p.payload.PkcRequest?
      modifies this, linkInfo
      ensures Valid() && View() == old(View()).Receive(p, micros)
    {
      if linkInfo.linkState.AwaitingLink? && linkingState == BROADCASTING && linkInfo.sessionId != 0 && linkInfo.sessionId == p.id {
        linkInfo.SetPartnerId(p.payload.remoteId);
        linkingState := VALIDATING;
      }
    }

    method OnRemotePublicKeyReceived(p: Packet, ghost micros: nat)
      requires Valid() && p.payload.RemoteKey?
      modifies this
      ensures Valid() && View() == old(View()).Receive(p, micros)
    {
      if linkInfo.linkState.AwaitingLink? && linkingState == HOST_SENDING_KEY && linkInfo.sessionId != 0 && linkInfo.sessionId == p.id {
        var (k, ok) := keyExchanger.SetPartnerPublicKey(p.payload.pair);
        keyExchanger := k;
        if ok {
          linkingState := HOST_PROCESSING;
        }
      }
    }

    /** The partner's RSSI, from its info packet or from a report. */
    method OnRssiReceived(p: Packet, ghost micros: nat)
      requires Valid() && (p.payload.RemoteInfo? || p.payload.Report?)
      modifies linkInfo
      ensures Valid() && View() == old(View()).Receive(p, micros)
    {
      match p.payload
      case RemoteInfo(rssi) =>
        if linkInfo.linkState.Linking? && linkingState == INFO_SYNC {
          linkInfo.SetPartnerRSSINormalized(rssi);
        }
      case Report(rssi) =>
        if linkInfo.linkState.Linked? {
          linkInfo.SetPartnerRSSINormalized(rssi);
        }
      case _ =>
    }

    method OnClockSyncTuneRequestReceived(p: Packet, micros: nat)
      requires Valid() && p.payload.TuneRequest?
      modifies transaction
      ensures Valid() && View() == old(View()).Receive(p, micros)
    {
      if linkInfo.linkState.Linked? {
        StoreError(p.id, p.payload.tuneEstimate, micros);
      }
    }

    /** Hands a packet to the handler of its header and sub-header; acks go to the send machine. */
    method Dispatch(p: Packet, micros: nat)
      requires Valid()
      modifies Repr()
      ensures Valid() && View() == old(View()).Receive(p, micros)
    {
      match p.payload
      case PkcRequest(_) => OnPKCRequestReceived(p, micros);
      case RemoteKey(_) => OnRemotePublicKeyReceived(p, micros);
      case RemoteInfo(_) => OnRssiReceived(p, micros);
      case NtpRequest(estimate) => OnClockSyncRequestReceived(p.id, estimate, micros);
      case TuneRequest(_) => OnClockSyncTuneRequestReceived(p, micros);
      case Report(_) => OnRssiReceived(p, micros);
      case AckOf(header) => var mine := sender.ProcessAck(header, p.id);
      case _ =>
    }
  }

  /** The round trip time in the host's info packet, when it comes encrypted under the remote's key and IV, is a real one. */
  lemma ReceivedRttIsShort(r: Remote, past: History, p: AirPacket)
    requires RemoteOk(r, past) && PastOk(past) && ToRemoteOk(p, past) && p.cipher == r.encoder.OnAir()
    requires r.link.Linking? && p.frame.payload.HostInfo?
    ensures p.frame.payload.rtt < Latency.PING_TIMEOUT_MICROS
  {
  }

  class LinkRemoteService {
    const localId: nat
    const sender: PacketSender<Payload>
    const linkInfo: LoLaLinkInfo
    const clockSyncer: RemoteClockSyncer
    const transaction: ClockSyncRequestTransaction
    var linkingState: nat
    var infoSyncStage: nat
    var keyExchanger: KeyExchanger
    var encoder: Encoder
    ghost var tuned: Option<nat>

    ghost function Repr(): set<object> {
      {this, sender, linkInfo, clockSyncer, clockSyncer.syncedClock, transaction}
    }

    ghost function View(): Remote
      reads Repr()
    {
      Remote(localId, linkInfo.linkState, linkingState, infoSyncStage, linkInfo.sessionId, linkInfo.partnerId, keyExchanger, encoder,
             sender.View(), linkInfo.partnerRSSISamples, linkInfo.rtt, transaction.stage, transaction.id, transaction.result,
             clockSyncer.syncedClock.offsetMicros, tuned)
    }

    /** As on the host. */
    ghost predicate Valid()
      reads Repr()
    {
      Sound() && (linkInfo.driverLinkActive <==> linkInfo.linkState.Linked?)
    }

    ghost predicate Sound()
      reads Repr()
    {
      sender.View().Valid() && linkInfo.Valid() && linkInfo.DriverFollows()
    }

    constructor (localId: nat)
      ensures Valid() && fresh(Repr())
      ensures forall hostId: nat, clocks: Clocks :: View() == Start(hostId, localId, clocks).r
    {
      this.localId := localId;
      sender := new PacketSender(LinkDiscovery);
      linkInfo := new LoLaLinkInfo();
      var syncedClock := new ClockSource();
      clockSyncer := new RemoteClockSyncer(syncedClock);
      transaction := new ClockSyncRequestTransaction();
      linkingState, infoSyncStage, tuned := 0, 0, None;
      keyExchanger, encoder := KeyExchanger(StageClear, 0, 0, {}), Encoder(AllClear, Cipher(None, None));
    }

    // -------------------------------------------------------------------------------------------
    // Calls from outside

    /** One callback of the service, whichever hook it runs. */
    method Callback(c: Chance, ghost past: History)
      requires Valid() && RemoteReady(View(), past, c) && !linkInfo.linkState.Disabled?
      modifies Repr()
      ensures Valid() && View() == old(View()).Callback(c) && RemoteDone(old(View()), View(), past)
    {
      RemoteRunsStep(View(), past, c);
      hide RemoteReady, RemoteDone, Remote.Callback;
      Run(c);
    }

    /** A packet that the driver could read and need not acknowledge. */
    method ProcessPacket(p: AirPacket, c: Chance, ghost past: History)
      requires Valid() && RemoteReady(View(), past, c) && ToRemoteOk(p, past) && p.cipher == encoder.OnAir()
      modifies Repr()
      ensures Valid() && View() == old(View()).Receive(p.frame, c) && RemoteDone(old(View()), View(), past)
    {
      RemoteHearsPlain(View(), past, p, c);
      if linkInfo.linkState.Linking? && p.frame.payload.HostInfo? { ReceivedRttIsShort(View(), past, p); }
      hide RemoteReady, RemoteDone, ToRemoteOk, Remote.Receive;
      Dispatch(p.frame, c);
    }

    /** A packet that asks for an ack; the result is whether the driver acknowledges it. */
    method ProcessAckedPacket(p: AirPacket, ghost c: Chance, ghost past: History) returns (ok: bool)
      requires Valid() && RemoteReady(View(), past, c) && ToRemoteOk(p, past) && p.cipher == encoder.OnAir() && p.frame.hasAck
      modifies Repr()
      ensures Valid() && (View(), ok) == old(View()).ReceiveAcked(p.frame) && RemoteDone(old(View()), View(), past)
    {
      RemoteHearsAcked(View(), past, p, c);
      hide RemoteReady, RemoteDone, ToRemoteOk, Remote.ReceiveAcked;
      ok := DispatchAcked(p.frame);
    }

    method OnEnable(c: Chance, ghost past: History)
      requires Valid() && RemoteReady(View(), past, c)
      modifies Repr()
      ensures Valid() && View() == old(View()).UpdateLinkState(Setup, c) && RemoteDone(old(View()), View(), past)
    {
      RemoteLeavesLink(View(), past, c, Setup);
      hide RemoteReady, RemoteDone;
      UpdateLinkState(Setup, c);
    }

    method OnDisable(c: Chance, ghost past: History)
      requires Valid() && RemoteReady(View(), past, c)
      modifies Repr()
      ensures Valid() && View() == old(View()).UpdateLinkState(Disabled, c) && RemoteDone(old(View()), View(), past)
    {
      RemoteLeavesLink(View(), past, c, Disabled);
      hide RemoteReady, RemoteDone;
      UpdateLinkState(Disabled, c);
    }

    // -------------------------------------------------------------------------------------------
    // Link states

    method ClearSession()
      requires Sound()
      modifies Repr()
      ensures Sound() && !linkInfo.driverLinkActive && linkInfo.linkState == old(linkInfo.linkState)
      ensures View() == old(View()).ClearSession()
    {
      clockSyncer.Reset();
      transaction.Reset();
      linkInfo.Reset();
      encoder := encoder.Clear();
      keyExchanger := keyExchanger.ClearPartner();
      infoSyncStage := 0;
      tuned := None;
    }

    method EnterState(newState: LinkState, c: Chance)
      requires Valid() && linkInfo.linkState != newState && (newState.Linking? ==> linkInfo.linkState.AwaitingLink?)
      modifies Repr()
      ensures Sound() && (linkInfo.driverLinkActive <==> newState.Linked?) && View() == old(View()).EnterState(newState, c)
      decreases newState.Linking?, 1
    {
      hide Remote.ClearSession;
      if linkInfo.linkState.Linked? {
        ClearSession();
      }
      match newState
      case Setup =>
        linkingState := 0;
        ClearSession();
      case AwaitingLink =>
        ClearSession();
        linkingState := 0;
      case AwaitingSleeping =>
        ClearSession();
        linkingState := 0;
      case Linking => StartLinking(c);
      case Linked =>
        linkInfo.StampLinkStarted();
        clockSyncer.StampSynced(c.send.now);
      case Disabled => linkInfo.Reset();
    }

    /** The nested change after a failed SetEnabled is the source's; it finds the state it asks for. */
    method StartLinking(c: Chance)
      requires Valid() && linkInfo.linkState.AwaitingLink?
      modifies Repr()
      ensures Sound() && !linkInfo.driverLinkActive && View() == old(View()).EnterState(Linking, c)
      decreases true, 0
    {
      linkingState := 0;
      var (e, ok) := encoder.SetEnabled();
      encoder := e;
      if !ok {
        UpdateLinkState(AwaitingLink, c);
      }
    }

    method OnLinkStateChanged(newState: LinkState, c: Chance)
      requires Sound() && (linkInfo.driverLinkActive <==> newState.Linked?)
      modifies Repr()
      ensures Sound() && (linkInfo.driverLinkActive <==> newState.Linked?) && View() == old(View()).OnLinkStateChanged(newState, c)
    {
      match newState
      case AwaitingLink => keyExchanger := keyExchanger.GenerateNewKeyPair(c.unused, c.keyOk);
      case Linking => infoSyncStage := AWAITING_REQUEST;
      case Linked =>
        clockSyncer.SetReadyForEstimation(c.send.now);
        transaction.Reset();
      case _ =>
    }

    method UpdateLinkState(newState: LinkState, c: Chance)
      requires Valid() && (newState.Linking? ==> linkInfo.linkState.AwaitingLink?)
      modifies Repr()
      ensures Valid() && View() == old(View()).UpdateLinkState(newState, c)
      decreases newState.Linking?, 2
    {
      hide Remote.EnterState, Remote.OnLinkStateChanged;
      if linkInfo.linkState != newState {
        EnterState(newState, c);
        OnLinkStateChanged(newState, c);
        linkInfo.UpdateState(newState);
      }
    }

    // -------------------------------------------------------------------------------------------
    // The service

    method Request(header: nat, id: nat, hasAck: bool, payload: Payload, c: Chance)
      modifies sender
      ensures View() == old(View()).Request(Frame(header, id, hasAck, payload), c) && sender.View().Valid()
    {
      sender.Prepare(header, id, hasAck, payload);
      sender.RequestSendPacket(c.send.now);
    }

    method RestartAwaitingLink()
      requires Sound()
      modifies Repr()
      ensures Sound() && !linkInfo.driverLinkActive && linkInfo.linkState == old(linkInfo.linkState)
      ensures View() == old(View()).ClearSession().SetStage(SEARCHING)
    {
      ClearSession();
      linkingState := SEARCHING;
    }

    method OnAwaitingLink(c: Chance)
      requires Valid() && linkInfo.linkState.AwaitingLink?
      modifies Repr()
      ensures Valid() && View() == old(View()).OnAwaitingLink(c)
    {
      hide Remote.UpdateLinkState, Remote.ClearSession, Remote.Request;
      if linkingState == SEARCHING {
        if c.resend {
          Request(SHORT, linkInfo.sessionId, false, LinkDiscovery, c);
        }
      } else if linkingState == VALIDATING {
        encoder := encoder.SetIvData(linkInfo.sessionId, linkInfo.partnerId, localId);
        linkingState := AWAITING_HOST_KEY;
      } else if linkingState == AWAITING_HOST_KEY {
        if c.subExpired {
          RestartAwaitingLink();
        } else if c.resend {
          Request(SHORT, linkInfo.sessionId, false, PkcRequest(localId), c);
        }
      } else if linkingState == REMOTE_PROCESSING {
        ProcessKey(c);
      } else if linkingState == REMOTE_SENDING_KEY {
        if c.subExpired {
          RestartAwaitingLink();
        } else if c.resend {
          Request(LONG, linkInfo.sessionId, false, RemoteKey(keyExchanger.local), c);
        }
      } else if linkingState == SWITCH_OVER {
        UpdateLinkState(Linking, c);
      }
    }

    method ProcessKey(c: Chance)
      requires Valid() && linkInfo.linkState.AwaitingLink? && linkingState == REMOTE_PROCESSING
      modifies Repr()
      ensures Valid() && View() == old(View()).OnAwaitingLink(c)
    {
      var (k, ok) := keyExchanger.GenerateSharedKey(c.sharedOk);
      keyExchanger := k;
      if ok {
        encoder := encoder.SetSecretKey(k.shared);
        linkingState := REMOTE_SENDING_KEY;
      } else {
        RestartAwaitingLink();
      }
    }

    method OnInfoSync(c: Chance)
      requires Valid() && linkInfo.linkState.Linking? && linkingState == INFO_SYNC
      modifies Repr()
      ensures Valid() && View() == old(View()).OnLinking(c)
    {
      if infoSyncStage == SENDING_REMOTE_INFO {
        if c.resend {
          Request(REPORT, 0x50, false, RemoteInfo(c.rssi), c);
        }
      } else if infoSyncStage == INFO_DONE {
        linkingState := CLOCK_SYNC;
      }
    }

    method AskClock(payload: Payload, c: Chance)
      requires Valid()
      modifies transaction, sender
      ensures Valid() && View() == old(View()).ResetTransaction().AskClock(payload, c)
    {
      transaction.Reset();
      transaction.SetRequested(c.unused, c.send.now);
      Request(SHORT, c.unused, false, payload, c);
    }

    /** A result that has come in is used up even when the next request is not made yet. */
    method OnClockSync(c: Chance)
      requires Valid()
      modifies Repr()
      ensures Valid() && View() == old(View()).OnClockSync(c)
    {
      if transaction.stage.ResultIn? {
        clockSyncer.OnEstimationErrorReceived(transaction.result);
        tuned := Some(transaction.id);
        transaction.Reset();
      }
      if (!transaction.stage.Requested? || c.stale) && c.resend {
        AskClock(NtpRequest(0), c);
      }
    }

    method OnLinking(c: Chance)
      requires Valid() && linkInfo.linkState.Linking?
      modifies Repr()
      ensures Valid() && View() == old(View()).OnLinking(c)
    {
      hide Remote.UpdateLinkState, Remote.OnClockSync;
      if linkingState == INFO_SYNC {
        OnInfoSync(c);
      } else if linkingState == CLOCK_SYNC {
        OnClockSync(c);
      } else if linkingState == PROTOCOL_SWITCH_OVER {
        clockSyncer.SetSynced(c.send.now);
        linkingState := LINKING_DONE;
      } else if linkingState == LINKING_DONE {
        UpdateLinkState(Linked, c);
      } else {
        UpdateLinkState(AwaitingLink, c);
      }
    }

    method OnKeepingLink(c: Chance)
      requires Valid()
      modifies Repr()
      ensures Valid() && View() == old(View()).OnKeepingLink(c)
    {
      if c.report {
        Request(REPORT, 0x0A, false, Report(c.rssi), c);
      } else if transaction.stage.ResultIn? {
        var good := clockSyncer.OnTuneErrorReceived(transaction.result, c.send.now);
        tuned := Some(transaction.id);
        transaction.Reset();
      } else if c.tune && !transaction.stage.Requested? {
        AskClock(TuneRequest(0), c);
      }
    }

    method OnService(c: Chance)
      requires Valid()
      modifies Repr()
      ensures Valid() && View() == old(View()).OnService(c)
    {
      hide Remote.UpdateLinkState, Remote.OnAwaitingLink, Remote.OnLinking, Remote.OnKeepingLink;
      match linkInfo.linkState
      case Setup => UpdateLinkState(AwaitingLink, c);
      case AwaitingLink =>
        if c.keysOld {
          keyExchanger := keyExchanger.GenerateNewKeyPair(c.unused, c.keyOk);
        } else if c.expired {
          UpdateLinkState(AwaitingSleeping, c);
        } else {
          OnAwaitingLink(c);
        }
      case AwaitingSleeping => UpdateLinkState(AwaitingLink, c);
      case Linking =>
        if c.expired { UpdateLinkState(AwaitingLink, c); } else { OnLinking(c); }
      case Linked =>
        if c.lost { UpdateLinkState(AwaitingLink, c); } else { OnKeepingLink(c); }
      case Disabled =>
    }

    // -------------------------------------------------------------------------------------------
    // Hooks and packets

    method Run(c: Chance)
      requires Valid()
      modifies Repr()
      ensures Valid() && View() == old(View()).Callback(c)
    {
      hide Remote.OnService, Remote.OnPreSend;
      var event := sender.Callback(c.send);
      match event
      case OnService => OnService(c);
      case Transmitted => OnPreSend(c);
      case Refused => OnPreSend(c);
      case OnSendRetrying => OnPreSend(c);
      case _ =>
    }

    /** The estimate is what the host's clock should read on arrival: the synchronized clock now, and the driver's ETTM. */
    method OnPreSend(c: Chance)
      requires Valid()
      modifies sender
      ensures Valid() && View() == old(View()).OnPreSend(c)
    {
      var reading := clockSyncer.syncedClock.GetSyncMicros(c.micros);
      var estimate := Clock.Wrap(reading + linkInfo.driverEttm);
      match sender.payload
      case NtpRequest(_) => sender.payload := NtpRequest(estimate);
      case TuneRequest(_) => sender.payload := TuneRequest(estimate);
      case _ =>
    }

    method OnIdBroadcastReceived(broadcastId: nat, hostId: nat, c: Chance)
      requires Valid()
      modifies Repr()
      ensures Valid() && View() == old(View()).OnIdBroadcastReceived(broadcastId, hostId, c)
    {
      if linkInfo.linkState.AwaitingSleeping? {
        UpdateLinkState(AwaitingLink, c);
      }
      if linkInfo.linkState.AwaitingLink? {
        OnIdBroadcastAwaiting(broadcastId, hostId, c);
      }
    }

    /** A session id is stored before it is judged. */
    method OnIdBroadcastAwaiting(broadcastId: nat, hostId: nat, ghost c: Chance)
      requires Valid() && linkInfo.linkState.AwaitingLink?
      modifies Repr()
      ensures Valid() && View() == old(View()).OnIdBroadcastReceived(broadcastId, hostId, c)
    {
      var has := linkInfo.HasSession();
      if linkingState == SEARCHING && !has {
        var accepted := linkInfo.SetSessionId(broadcastId);
        if accepted {
          linkInfo.SetPartnerId(hostId);
          linkingState := VALIDATING;
        }
      } else if linkingState in {VALIDATING, AWAITING_HOST_KEY} && has && linkInfo.partnerId == hostId {
        var accepted := linkInfo.SetSessionId(broadcastId);
        if accepted {
          linkingState := VALIDATING;
        }
      }
    }

    method OnHostPublicKeyReceived(p: Packet, ghost c: Chance)
      requires Valid() && p.payload.HostKey?
      modifies this
      ensures Valid() && View() == old(View()).Receive(p, c)
    {
      var has := linkInfo.HasSession();
      if linkInfo.linkState.AwaitingLink? && linkingState == AWAITING_HOST_KEY && has && linkInfo.sessionId == p.id {
        var (k, ok) := keyExchanger.SetPartnerPublicKey(p.payload.pair);
        keyExchanger := k;
        if ok {
          linkingState := REMOTE_PROCESSING;
        }
      }
    }

    method OnLinkInfoReportReceived(p: Packet, ghost c: Chance)
      requires Valid() && p.payload.Report?
      modifies linkInfo
      ensures Valid() && View() == old(View()).Receive(p, c)
    {
      if linkInfo.linkState.Linked? {
        linkInfo.SetPartnerRSSINormalized(p.payload.rssi);
      }
    }

    method OnHostInfoSyncRequestReceived(p: Packet, ghost c: Chance)
      requires Valid() && p.payload.InfoRequest?
      modifies this
      ensures Valid() && View() == old(View()).Receive(p, c)
    {
      if linkInfo.linkState.Linking? && linkingState == INFO_SYNC && infoSyncStage == AWAITING_REQUEST {
        infoSyncStage := SENDING_REMOTE_INFO;
      }
    }

    method OnHostInfoSyncReceived(p: Packet, ghost c: Chance)
      requires Valid() && p.payload.HostInfo? && (linkInfo.linkState.Linking? ==> p.payload.rtt != Latency.INVALID_LATENCY)
      modifies this, linkInfo
      ensures Valid() && View() == old(View()).Receive(p, c)
    {
      if linkInfo.linkState.Linking? && linkingState == INFO_SYNC && infoSyncStage == SENDING_REMOTE_INFO {
        linkInfo.SetRTT(p.payload.rtt);
        linkInfo.SetPartnerRSSINormalized(p.payload.hostRssi);
        infoSyncStage := INFO_DONE;
      }
    }

    /** The host's answer to a clock request, while linking only in time. */
    method OnClockSyncAnswered(p: Packet, c: Chance)
      requires Valid() && (p.payload.NtpReply? || p.payload.TuneReply?)
      modifies transaction
      ensures Valid() && View() == old(View()).Receive(p, c)
    {
      var taken := false;
      match p.payload
      case NtpReply(error) =>
        if linkInfo.linkState.Linking? && linkingState == CLOCK_SYNC && transaction.stage.Requested? && !c.stale {
          taken := transaction.SetResult(p.id, error);
        }
      case TuneReply(error) =>
        if linkInfo.linkState.Linked? && transaction.stage.Requested? {
          taken := transaction.SetResult(p.id, error);
        }
      case _ =>
    }

    /** Hands a packet to the handler of its header and sub-header. */
    method Dispatch(p: Packet, c: Chance)
      requires Valid() && (p.payload.HostInfo? && linkInfo.linkState.Linking? ==> p.payload.rtt != Latency.INVALID_LATENCY)
      modifies Repr()
      ensures Valid() && View() == old(View()).Receive(p, c)
    {
      hide Remote.OnIdBroadcastReceived;
      match p.payload
      case IdBroadcast(hostId) => OnIdBroadcastReceived(p.id, hostId, c);
      case HostKey(_) => OnHostPublicKeyReceived(p, c);
      case InfoRequest => OnHostInfoSyncRequestReceived(p, c);
      case HostInfo(_, _) => OnHostInfoSyncReceived(p, c);
      case NtpReply(_) => OnClockSyncAnswered(p, c);
      case TuneReply(_) => OnClockSyncAnswered(p, c);
      case Report(_) => OnLinkInfoReportReceived(p, c);
      case _ =>
    }

    method OnCryptoStartReceived(id: nat, cipher: Cipher, encryptedId: nat) returns (ok: bool)
      requires linkInfo.linkState.AwaitingLink?
      modifies this`linkingState
      ensures (View(), ok) == old(View()).ReceiveAcked(ShortWithAck(id, CryptoStart(cipher, encryptedId)))
    {
      if linkingState == REMOTE_SENDING_KEY && linkInfo.sessionId != 0 && linkInfo.sessionId == id {
        if cipher == encoder.cipher && encryptedId == localId {
          linkingState := SWITCH_OVER;
          return true;
        }
      }
      return false;
    }

    method OnLinkProtocolReceived(id: nat, hostId: nat) returns (ok: bool)
      modifies this`linkingState
      ensures (View(), ok) == old(View()).ReceiveAcked(ShortWithAck(id, SwitchOver(hostId)))
    {
      if linkInfo.linkState.Linking? && linkingState == CLOCK_SYNC && linkInfo.sessionId == id && localId == hostId {
        linkingState := PROTOCOL_SWITCH_OVER;
        return true;
      }
      return false;
    }

    method DispatchAcked(p: Packet) returns (ok: bool)
      requires Valid()
      modifies this`linkingState
      ensures Valid() && (View(), ok) == old(View()).ReceiveAcked(p)
    {
      match p.payload
      case Ping => return linkInfo.linkState.Linking? || linkInfo.linkState.Linked?;
      case CryptoStart(cipher, id) =>
        if linkInfo.linkState.AwaitingLink? {
          ok := OnCryptoStartReceived(p.id, cipher, id);
        } else {
          ok := false;
        }
      case SwitchOver(id) => ok := OnLinkProtocolReceived(p.id, id);
      case _ => ok := false;
    }
  }
}
