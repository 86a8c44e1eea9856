/** A host and a remote that set up a link over a radio which may lose, delay, reorder and repeat packets: the network
    is the set of packets ever put on the air. A packet encrypted under a key and IV the receiver is not using itself
    (or read in the clear while encrypted) is rejected. */
module LinkSystem {
  import opened Common
  import opened LinkCrypto
  import opened SendService
  import opened Latency
  import opened LinkNodes
  import Clock

  datatype AirPacket = AirPacket(cipher: Option<Cipher>, frame: Packet)

  /** What the remote held when it entered LinkProtocolSwitchOver. */
  datatype SwitchRecord = SwitchRecord(cipher: Cipher, rtt: nat, info: nat)

  /** What happened so far, per session; read by no handler. */
  datatype History = History(
    ciphers: map<nat, Cipher>,             // the host got its shared key
    rtts: map<nat, nat>,                   // the host settled the round trip time
    accepted: set<nat>,                    // the remote accepted the crypto start
    switched: map<nat, SwitchRecord>,      // the remote entered LinkProtocolSwitchOver
    unused: nat)                           // session ids and key pairs from here on are new

  /** Real time, and what the two boards' counters read at time 0. */
  datatype Clocks = Clocks(hostBase: int, remoteBase: int, now: nat) {
    function HostMicros(): nat {
      Clock.Wrap(hostBase + now)
    }

    function RemoteMicros(): nat {
      Clock.Wrap(remoteBase + now)
    }
  }

  /** A clock request that went on the air: the remote's offset, the time and the remote's ETTM. */
  datatype Asked = Asked(offset: nat, at: nat, ettm: nat)

  /** What happened to the clocks so far; read by no handler. */
  datatype Trips = Trips(
    asked: map<nat, Asked>,        // per request id
    heard: set<(nat, nat)>,        // request ids and the times at which the host heard them
    offsets: map<nat, nat>)        // per session, the host's offset

  datatype System = System(h: Host, r: Remote, toHost: set<AirPacket>, toRemote: set<AirPacket>, past: History,
                           clocks: Clocks, trips: Trips)

  datatype Action =
    | HostRuns(c: Chance)
    | RemoteRuns(c: Chance)
    | HostSentOk(header: nat)
    | RemoteSentOk(header: nat)
    | HostHears(p: AirPacket)
    | RemoteHears(p: AirPacket, c: Chance)
    | HostEnables(on: bool, c: Chance)
    | RemoteEnables(on: bool, c: Chance)
    | Wait(micros: nat)

  function FreshSend(): Send<Payload> {
    Send(Frame(0, 0, false, LinkDiscovery), false, Done, 0, INVALID_MILLIS, 0, 0)
  }

  function Start(hostId: nat, remoteId: nat, clocks: Clocks): System {
    var keys := KeyExchanger(StageClear, 0, 0, {});
    var encoder := Encoder(AllClear, Cipher(None, None));
    System(Host(hostId, Disabled, 0, 0, 0, 0, keys, encoder, FreshSend(), false, FRESH_METER, [], INVALID_LATENCY, 0, [], 0,
                Transaction(false, 0, 0)),
           Remote(remoteId, Disabled, 0, 0, 0, 0, keys, encoder, FreshSend(), [], INVALID_LATENCY, RequestStage.Clear, 0, 0, 0, None),
           {}, {}, History(map[], map[], {}, map[], 1), clocks, Trips(map[], {}, map[]))
  }

  predicate Shape(s: System) {
    && s.h.send.Valid() && s.r.send.Valid()
    && s.h.meter.Valid() && |s.h.rssi| <= RSSI_SAMPLES && |s.r.rssi| <= RSSI_SAMPLES
    && s.past.unused > 0
  }

  /** The history after the host went from h to g. */
  function HostPast(past: History, h: Host, g: Host): History {
    past.(ciphers := if g.link.AwaitingLink? && g.stage == GOT_SHARED_KEY && h.stage == HOST_PROCESSING
                     then past.ciphers[g.session := g.encoder.cipher] else past.ciphers,
          rtts := if h.link.Linking? && g.link.Linking? && h.info == MEASURING && g.info == REQUESTING_INFO
                  then past.rtts[g.session := g.rtt] else past.rtts,
          unused := past.unused + 1)
  }

  /** The history after the remote went from r to q. */
  function RemotePast(past: History, r: Remote, q: Remote): History {
    past.(accepted := if q.link.AwaitingLink? && q.stage == SWITCH_OVER && r.stage == REMOTE_SENDING_KEY
                      then past.accepted + {q.session} else past.accepted,
          switched := if q.link.Linking? && q.stage == PROTOCOL_SWITCH_OVER && r.stage == CLOCK_SYNC
                      then past.switched[q.session := SwitchRecord(q.encoder.cipher, q.rtt, q.info)] else past.switched,
          unused := past.unused + 1)
  }

  /** The clock history after the host came to g. */
  function HostTrips(trips: Trips, g: Host): Trips {
    if g.session != 0 && g.session !in trips.offsets then trips.(offsets := trips.offsets[g.session := g.offset]) else trips
  }

  predicate AsksClock(payload: Payload) {
    payload.NtpRequest? || payload.TuneRequest?
  }

  function HostTurn(s: System, g: Host, sent: set<AirPacket>): System {
    s.(h := g, toRemote := s.toRemote + sent, past := HostPast(s.past, s.h, g), trips := HostTrips(s.trips, g))
  }

  function RemoteTurn(s: System, q: Remote, sent: set<AirPacket>): System {
    s.(r := q, toHost := s.toHost + sent, past := RemotePast(s.past, s.r, q))
  }

  /** The driver passes a packet on only if it can read it, and acknowledges when the service says so. */
  function RemoteReceives(s: System, p: AirPacket, c: Chance): System
    requires Shape(s)
  {
    if p !in s.toRemote || p.cipher != s.r.encoder.OnAir() then s
    else if p.frame.hasAck then
      var (q, ok) := s.r.ReceiveAcked(p.frame);
      RemoteTurn(s, q, if ok then {AirPacket(q.encoder.OnAir(), AckPacket(p.frame.header, p.frame.id))} else {})
    else RemoteTurn(s, s.r.Receive(p.frame, c), {})
  }

  function HostReceives(s: System, p: AirPacket): System
    requires Shape(s)
  {
    if p !in s.toHost || p.cipher != s.h.encoder.OnAir() then s
    else
      s.(h := s.h.Receive(p.frame, s.clocks.HostMicros()),
         trips := if AsksClock(p.frame.payload) then s.trips.(heard := s.trips.heard + {(p.frame.id, s.clocks.now)}) else s.trips)
  }

  /** A callback of the remote; what it transmits is the frame its hook has completed. */
  function RemoteCalls(s: System, c: Chance): System
    requires Shape(s)
  {
    var q := s.r.Callback(c);
    if !s.r.send.Callback(c.send).1.Transmitted? then RemoteTurn(s, q, {})
    else
      var t := RemoteTurn(s, q, {AirPacket(s.r.encoder.OnAir(), q.send.frame)});
      if AsksClock(q.send.frame.payload) then
        t.(trips := s.trips.(asked := s.trips.asked[q.send.frame.id := Asked(s.r.offset, s.clocks.now, s.r.Ettm())]))
      else t
  }

  function HostChance(s: System, c: Chance): Chance {
    c.(unused := s.past.unused, micros := s.clocks.HostMicros())
  }

  function RemoteChance(s: System, c: Chance): Chance {
    c.(unused := s.past.unused, micros := s.clocks.RemoteMicros())
  }

  /** A disabled service does not run; new numbers are drawn from the unused ones. */
  function Step(s: System, a: Action): System
    requires Shape(s)
  {
    match a
    case HostRuns(c) =>
      if s.h.link.Disabled? then s
      else HostTurn(s, s.h.Callback(HostChance(s, c)),
                    if s.h.send.Callback(c.send).1.Transmitted? then {AirPacket(s.h.encoder.OnAir(), s.h.send.frame)} else {})
    case RemoteRuns(c) => if s.r.link.Disabled? then s else RemoteCalls(s, RemoteChance(s, c))
    case HostSentOk(header) => s.(h := s.h.(send := s.h.send.ProcessSent(header)))
    case RemoteSentOk(header) => s.(r := s.r.(send := s.r.send.ProcessSent(header)))
    case HostHears(p) => HostReceives(s, p)
    case RemoteHears(p, c) => RemoteReceives(s, p, RemoteChance(s, c))
    case HostEnables(on, c) => HostTurn(s, s.h.UpdateLinkState(if on then Setup else Disabled, HostChance(s, c)), {})
    case RemoteEnables(on, c) => RemoteTurn(s, s.r.UpdateLinkState(if on then Setup else Disabled, RemoteChance(s, c)), {})
    case Wait(micros) => s.(clocks := s.clocks.(now := s.clocks.now + micros))
  }

  // ---------------------------------------------------------------------------------------------
  // The invariant, part by part

  predicate IsLinking(link: LinkState) {
    link.Linking? || link.Linked?
  }

  /** No key, no IV, packets in the clear. */
  predicate IsCleared(encoder: Encoder) {
    encoder == Encoder(AllClear, Cipher(None, None))
  }

  /** Encoder and link state agree. */
  predicate EncoderAgrees(link: LinkState, stage: nat, encoder: Encoder) {
    match link
    case Linking => encoder.stage.FullPower?
    case Linked => encoder.stage.FullPower?
    case AwaitingLink =>
      if stage == 0 then IsCleared(encoder)
      else if stage < GOT_SHARED_KEY then encoder.stage.AllClear? && encoder.cipher.key.None?
      else stage <= SWITCH_OVER && encoder.stage.AllReady?
    case Setup => IsCleared(encoder)
    case AwaitingSleeping => IsCleared(encoder)
    case Disabled => true
  }

  /** The host's session and what the history says about it. */
  predicate HostSession(h: Host, past: History) {
    && h.session < past.unused
    && (h.link in {Disabled, Setup, AwaitingSleeping} ==> h.session == 0)
    && (h.link.AwaitingLink? && h.stage > BROADCASTING ==> h.session != 0)
    && (h.link.AwaitingLink? && h.stage in {HOST_SENDING_KEY, HOST_PROCESSING} ==> h.encoder.cipher.iv == Some(Iv(h.session, h.localId, h.partner)))
    && (h.link.AwaitingLink? && h.stage < GOT_SHARED_KEY && h.session != 0 ==> h.session !in past.ciphers)
    && ((h.link.AwaitingLink? && h.stage >= GOT_SHARED_KEY) || IsLinking(h.link) ==> HostHasKey(h, past))
  }

  predicate HostHasKey(h: Host, past: History) {
    && h.session != 0 && h.session in past.ciphers && past.ciphers[h.session] == h.encoder.cipher
    && h.encoder.cipher.iv == Some(Iv(h.session, h.localId, h.partner))
  }

  /** What the host has measured, and whether it may go on. */
  predicate HostMeasures(h: Host, past: History) {
    && h.syncGood == Clock.Count(h.errors)
    && (!IsLinking(h.link) ==> h.rssi == [] && (h.session != 0 ==> h.session !in past.rtts))
    && (h.link.Linking? && h.info == MEASURING ==> h.session !in past.rtts && h.rssi == [] && h.stage == INFO_SYNC)
    && ((h.link.Linking? && h.info != MEASURING) || h.link.Linked? ==> h.session in past.rtts && past.rtts[h.session] == h.rtt)
    && ((h.link.Linking? && h.stage > INFO_SYNC) || h.link.Linked? ==> |h.meter.samples| >= MIN_LATENCY_SAMPLES && h.rssi != [])
    && ((h.link.Linking? && h.stage > CLOCK_SYNC) || h.link.Linked? ==> Clock.CountIsSynced(h.syncGood))
  }

  /** The host is past the remote's acknowledgements only if the remote gave them. */
  predicate HostIsFollowed(h: Host, past: History) {
    && (h.link.AwaitingLink? && h.stage == SWITCH_OVER ==> h.session in past.accepted)
    && ((h.link.Linking? && h.stage >= LINKING_DONE) || h.link.Linked? ==> h.session in past.switched)
    && (h.send.status.AckOk? && h.send.frame.header == SHORT_WITH_ACK && h.send.frame.id == h.session && h.session != 0 ==>
          && (h.link.AwaitingLink? ==> h.session in past.accepted)
          && (h.link.Linking? ==> h.session in past.switched))
  }

  /** What the host has ready to send. */
  predicate HostPending(h: Host, past: History) {
    h.send.pending ==> match h.send.frame.payload
      case CryptoStart(cipher, id) => h.send.frame.id in past.ciphers && past.ciphers[h.send.frame.id] == cipher
      case Ping => h.send.frame.header == PING
      case InfoRequest => IsLinking(h.link) ==> h.session in past.rtts
      case HostInfo(r, rtt) => IsLinking(h.link) ==> h.session in past.rtts && past.rtts[h.session] == rtt
      case _ => true
  }

  predicate HostOk(h: Host, past: History) {
    && EncoderAgrees(h.link, h.stage, h.encoder)
    && HostSession(h, past) && HostMeasures(h, past) && HostIsFollowed(h, past) && HostPending(h, past)
  }

  predicate RemoteOk(r: Remote, past: History) {
    && EncoderAgrees(r.link, r.stage, r.encoder)
    && (r.link.AwaitingLink? && r.stage in {AWAITING_HOST_KEY, REMOTE_PROCESSING, REMOTE_SENDING_KEY} && r.session != 0 ==>
          r.encoder.cipher.iv == Some(Iv(r.session, r.partner, r.localId)))
    && ((r.link.AwaitingLink? && r.stage == SWITCH_OVER) || IsLinking(r.link) ==>
          && r.session in past.accepted && r.session in past.ciphers && past.ciphers[r.session] == r.encoder.cipher
          && r.encoder.cipher.iv == Some(Iv(r.session, r.partner, r.localId)))
    && (r.link.Linking? && r.info >= SENDING_REMOTE_INFO ==> r.session in past.rtts)
    && (r.link.Linking? && r.stage > INFO_SYNC ==> r.info == INFO_DONE)
    && ((r.link.Linking? && r.info == INFO_DONE) || r.link.Linked? ==> r.session in past.rtts && past.rtts[r.session] == r.rtt)
    && ((r.link.Linking? && r.stage > CLOCK_SYNC) || r.link.Linked? ==> r.session in past.switched)
    && (r.send.pending && r.send.frame.payload.RemoteInfo? && IsLinking(r.link) ==> r.session in past.rtts)
    && !r.send.frame.payload.AckOf?
  }

  /** The session an encrypted packet belongs to has its round trip time settled. */
  predicate RttSettled(p: AirPacket, past: History) {
    p.cipher.Some? ==> p.cipher.value.iv.Some? && p.cipher.value.iv.value.session in past.rtts
  }

  predicate ToRemoteOk(p: AirPacket, past: History) {
    match p.frame.payload
    case CryptoStart(cipher, id) => p.frame.id in past.ciphers && past.ciphers[p.frame.id] == cipher
    case Ping => p.frame.header == PING
    case InfoRequest => RttSettled(p, past)
    case HostInfo(r, rtt) => RttSettled(p, past) && (p.cipher.Some? ==> past.rtts[p.cipher.value.iv.value.session] == rtt)
    case _ => true
  }

  predicate ToHostOk(p: AirPacket, past: History) {
    match p.frame.payload
    case AckOf(header) => header == SHORT_WITH_ACK ==> if p.cipher.None? then p.frame.id in past.accepted else p.frame.id in past.switched
    case RemoteInfo(r) => RttSettled(p, past)
    case _ => true
  }

  predicate PastOk(past: History) {
    && (forall n :: n in past.ciphers ==> n < past.unused)
    && (forall n :: n in past.rtts ==> n < past.unused && past.rtts[n] < PING_TIMEOUT_MICROS)
    && (forall n :: n in past.switched ==>
          && n in past.ciphers && n in past.rtts
          && past.switched[n] == SwitchRecord(past.ciphers[n], past.rtts[n], INFO_DONE))
  }

  predicate Inv(s: System) {
    && Shape(s) && PastOk(s.past) && HostOk(s.h, s.past) && RemoteOk(s.r, s.past)
    && (forall p :: p in s.toRemote ==> ToRemoteOk(p, s.past))
    && (forall p :: p in s.toHost ==> ToHostOk(p, s.past))
  }

  lemma StartInv(hostId: nat, remoteId: nat, clocks: Clocks)
    ensures Inv(Start(hostId, remoteId, clocks))
  {
  }

  /** Nothing recorded about an earlier session changes. */
  predicate Grows(past: History, next: History) {
    && (forall n :: n in past.ciphers ==> n in next.ciphers && next.ciphers[n] == past.ciphers[n])
    && (forall n :: n in past.rtts ==> n in next.rtts && next.rtts[n] == past.rtts[n])
    && past.accepted <= next.accepted
    && (forall n :: n in past.switched ==> n in next.switched && next.switched[n] == past.switched[n])
    && past.unused <= next.unused
  }

  // ---------------------------------------------------------------------------------------------
  // Host steps

  /** The host may take part in a step: what it needs from the rest of the system. */
  predicate HostReady(h: Host, past: History, c: Chance) {
    HostOk(h, past) && PastOk(past) && c.unused == past.unused > 0 && h.send.Valid() && h.meter.Valid() && |h.rssi| <= RSSI_SAMPLES
  }

  predicate HostDone(h: Host, g: Host, past: History) {
    && HostOk(g, HostPast(past, h, g)) && PastOk(HostPast(past, h, g)) && Grows(past, HostPast(past, h, g))
    && g.send.Valid() && g.meter.Valid() && |g.rssi| <= RSSI_SAMPLES
  }

  lemma HostLeavesLink(h: Host, past: History, c: Chance, newState: LinkState)
    requires HostReady(h, past, c)
    requires newState in {Disabled, Setup} || (newState in {AwaitingLink, AwaitingSleeping} && h.send.Idle() && h.link != newState)
    ensures HostDone(h, h.UpdateLinkState(newState, c), past)
  {
  }

  lemma HostStartsLinking(h: Host, past: History, c: Chance)
    requires HostReady(h, past, c) && h.send.Idle() && h.link.AwaitingLink? && h.stage == SWITCH_OVER
    ensures HostDone(h, h.UpdateLinkState(Linking, c), past)
  {
  }

  lemma HostFinishesLinking(h: Host, past: History, c: Chance)
    requires HostReady(h, past, c) && h.send.Idle() && h.link.Linking? && h.stage == LINKING_DONE
    ensures HostDone(h, h.UpdateLinkState(Linked, c), past)
  {
  }

  lemma HostBroadcasts(h: Host, past: History, c: Chance)
    requires HostReady(h, past, c) && h.send.Idle() && h.link.AwaitingLink? && h.stage == BROADCASTING
    ensures HostDone(h, h.OnAwaitingLink(c), past)
  {
  }

  lemma HostSendsKey(h: Host, past: History, c: Chance)
    requires HostReady(h, past, c) && h.send.Idle() && h.link.AwaitingLink? && h.stage in {VALIDATING, HOST_SENDING_KEY}
    ensures HostDone(h, h.OnAwaitingLink(c), past)
  {
  }

  lemma HostProcessesKey(h: Host, past: History, c: Chance)
    requires HostReady(h, past, c) && h.send.Idle() && h.link.AwaitingLink? && h.stage == HOST_PROCESSING
    ensures HostDone(h, h.OnAwaitingLink(c), past)
  {
  }

  lemma HostStartsCrypto(h: Host, past: History, c: Chance)
    requires HostReady(h, past, c) && h.send.Idle() && h.link.AwaitingLink? && h.stage == GOT_SHARED_KEY
    ensures HostDone(h, h.OnAwaitingLink(c), past)
  {
  }

  lemma HostAwaits(h: Host, past: History, c: Chance)
    requires HostReady(h, past, c) && h.send.Idle() && h.link.AwaitingLink?
    ensures HostDone(h, h.OnAwaitingLink(c), past)
  {
    hide HostDone, HostReady;
    assert h.stage <= SWITCH_OVER by { AwaitingStage(h, past, c); }
    if h.stage == BROADCASTING { HostBroadcasts(h, past, c); }
    else if h.stage == HOST_PROCESSING { HostProcessesKey(h, past, c); }
    else if h.stage == GOT_SHARED_KEY { HostStartsCrypto(h, past, c); }
    else if h.stage == SWITCH_OVER { HostStartsLinking(h, past, c); }
    else { HostSendsKey(h, past, c); }
  }

  lemma AwaitingStage(h: Host, past: History, c: Chance)
    requires HostReady(h, past, c) && h.link.AwaitingLink?
    ensures h.stage <= SWITCH_OVER
  {
  }

  lemma HostMeasuresLatency(h: Host, past: History, c: Chance)
    requires HostReady(h, past, c) && h.send.Idle() && h.link.Linking? && h.stage == INFO_SYNC && h.info == MEASURING
    ensures HostDone(h, h.OnInfoSync(c), past)
  {
    if h.meter.samples != [] { AverageInRange(h.meter, 0, PING_TIMEOUT_MICROS - 1); }
  }

  lemma HostSendsInfo(h: Host, past: History, c: Chance)
    requires HostReady(h, past, c) && h.send.Idle() && h.link.Linking? && h.stage == INFO_SYNC && h.info != MEASURING
    ensures HostDone(h, h.OnInfoSync(c), past)
  {
  }

  lemma HostEstimates(h: Host, error: int)
    requires h.syncGood == Clock.Count(h.errors)
    ensures var g := h.OnEstimationReceived(error);
            && g.syncGood == Clock.Count(g.errors)
            && (Clock.CountIsSynced(h.syncGood) ==> Clock.CountIsSynced(g.syncGood))
  {
  }

  lemma HostSyncsClock(h: Host, past: History, c: Chance)
    requires HostReady(h, past, c) && h.send.Idle() && h.link.Linking? && h.stage == CLOCK_SYNC
    ensures HostDone(h, h.OnLinking(c), past)
  {
    HostEstimates(h, h.transaction.result);
  }

  lemma HostSwitchesProtocol(h: Host, past: History, c: Chance)
    requires HostReady(h, past, c) && h.send.Idle() && h.link.Linking? && h.stage == PROTOCOL_SWITCH_OVER
    ensures HostDone(h, h.OnLinking(c), past)
  {
  }

  lemma HostKeepsLink(h: Host, past: History, c: Chance)
    requires HostReady(h, past, c) && h.send.Idle() && h.link.Linked?
    ensures HostDone(h, h.OnKeepingLink(c), past)
  {
    HostEstimates(h, h.transaction.result);
  }

  lemma HostRegenerates(h: Host, past: History, c: Chance)
    requires HostReady(h, past, c) && h.send.Idle() && h.link.AwaitingLink?
    ensures HostDone(h, h.(keys := h.keys.GenerateNewKeyPair(c.unused, c.keyOk)), past)
  {
  }

  lemma HostLinks(h: Host, past: History, c: Chance)
    requires HostReady(h, past, c) && h.send.Idle() && h.link.Linking?
    ensures HostDone(h, h.OnLinking(c), past)
  {
    if h.stage == INFO_SYNC {
      if h.info == MEASURING { HostMeasuresLatency(h, past, c); } else { HostSendsInfo(h, past, c); }
    } else if h.stage == CLOCK_SYNC {
      HostSyncsClock(h, past, c);
    } else if h.stage == PROTOCOL_SWITCH_OVER {
      HostSwitchesProtocol(h, past, c);
    } else if h.stage == LINKING_DONE {
      HostFinishesLinking(h, past, c);
    } else {
      HostLeavesLink(h, past, c, AwaitingLink);
    }
  }

  lemma HostServes(h: Host, past: History, c: Chance)
    requires HostReady(h, past, c) && h.send.Idle() && !h.link.Disabled?
    ensures HostDone(h, h.OnService(c), past)
  {
    hide HostReady, HostDone;
    match h.link
    case Setup => HostLeavesLink(h, past, c, AwaitingLink);
    case AwaitingLink =>
      if c.keysOld { HostRegenerates(h, past, c); }
      else if c.expired { HostLeavesLink(h, past, c, AwaitingSleeping); }
      else { HostAwaits(h, past, c); }
    case AwaitingSleeping => HostLeavesLink(h, past, c, AwaitingLink);
    case Linking => if c.expired { HostLeavesLink(h, past, c, AwaitingLink); } else { HostLinks(h, past, c); }
    case Linked => if c.lost { HostLeavesLink(h, past, c, AwaitingLink); } else { HostKeepsLink(h, past, c); }
    case Disabled =>
  }

  /** The send machine moves on with the frame it has. */
  predicate SendMoves(t: Send<Payload>, u: Send<Payload>) {
    u.Valid() && u.frame == t.frame && (u.pending ==> t.pending) && (u.status.AckOk? ==> t.status.AckOk?)
  }

  lemma HostSends(h: Host, past: History, c: Chance, t: Send<Payload>)
    requires HostReady(h, past, c) && SendMoves(h.send, t)
    ensures HostDone(h, h.(send := t), past)
  {
  }

  lemma HostGetsPingAck(h: Host, past: History, c: Chance, t: Send<Payload>)
    requires HostReady(h, past, c) && SendMoves(h.send, t)
    ensures HostDone(h, h.(send := t).OnPingAckReceived(h.send.frame.id, c), past)
  {
    HostSends(h, past, c, t);
  }

  lemma HostGetsLinkAck(h: Host, past: History, c: Chance, t: Send<Payload>)
    requires HostReady(h, past, c) && h.send.status.AckOk? && t == h.send.ClearSendRequest()
    ensures HostDone(h, h.(send := t).OnLinkAckReceived(h.send.frame.header, h.send.frame.id), past)
  {
    HostSends(h, past, c, t);
  }

  lemma HostPreSends(h: Host, past: History, c: Chance, t: Send<Payload>)
    requires HostReady(h, past, c) && SendMoves(h.send, t)
    ensures HostDone(h, h.(send := t).OnPreSend(c), past)
  {
    HostSends(h, past, c, t);
  }

  lemma CallbackMoves(s: Send<Payload>, env: Env)
    requires s.Valid()
    ensures SendMoves(s, s.Callback(env).0)
    ensures s.Callback(env).1.OnAckReceived? ==> s.status.AckOk? && s.Callback(env).0 == s.ClearSendRequest()
  {
  }

  lemma HostRunsHook(h: Host, past: History, c: Chance)
    requires HostReady(h, past, c) && !h.send.Callback(c.send).1.OnService?
    ensures HostDone(h, h.Callback(c), past)
  {
    assert h.send.Valid() && h.meter.Valid();
    var (t, e) := h.send.Callback(c.send);
    CallbackMoves(h.send, c.send);
    hide HostDone, HostReady, SendMoves, Host.OnPingAckReceived, Host.OnLinkAckReceived, Host.OnPreSend, Host.OnService;
    HostSends(h, past, c, t);
    HostGetsPingAck(h, past, c, t);
    HostPreSends(h, past, c, t);
    if e.OnAckReceived? {
      HostGetsLinkAck(h, past, c, t);
    }
  }

  lemma HostRunsStep(h: Host, past: History, c: Chance)
    requires HostReady(h, past, c) && !h.link.Disabled?
    ensures HostDone(h, h.Callback(c), past)
  {
    var (t, e) := h.send.Callback(c.send);
    if e.OnService? {
      assert t == h.send && h.(send := t) == h;
      hide HostDone, Host.OnService;
      HostServes(h, past, c);
    } else {
      HostRunsHook(h, past, c);
    }
  }

  /** Hearing a packet needs no new numbers, and records nothing. */
  predicate HostKept(h: Host, past: History) {
    HostOk(h, past) && h.send.Valid() && h.meter.Valid() && |h.rssi| <= RSSI_SAMPLES
  }

  lemma HostHearsAck(h: Host, past: History, p: AirPacket, micros: nat)
    requires HostKept(h, past) && PastOk(past) && ToHostOk(p, past) && p.cipher == h.encoder.OnAir() && p.frame.payload.AckOf?
    ensures HostKept(h.Receive(p.frame, micros), past)
  {
  }

  lemma HostHearsClockRequest(h: Host, past: History, p: AirPacket, micros: nat)
    requires HostKept(h, past) && (p.frame.payload.NtpRequest? || p.frame.payload.TuneRequest?)
    ensures HostKept(h.Receive(p.frame, micros), past)
  {
  }

  lemma HostHearsKeyExchange(h: Host, past: History, p: AirPacket, micros: nat)
    requires HostKept(h, past) && (p.frame.payload.PkcRequest? || p.frame.payload.RemoteKey?)
    ensures HostKept(h.Receive(p.frame, micros), past)
  {
  }

  lemma HostHearsInfo(h: Host, past: History, p: AirPacket, micros: nat)
    requires HostKept(h, past) && ToHostOk(p, past) && p.cipher == h.encoder.OnAir()
    requires p.frame.payload.RemoteInfo? || p.frame.payload.Report?
    ensures HostKept(h.Receive(p.frame, micros), past)
  {
  }

  lemma HostHearsStep(h: Host, past: History, p: AirPacket, micros: nat)
    requires HostKept(h, past) && PastOk(past) && ToHostOk(p, past) && p.cipher == h.encoder.OnAir()
    ensures HostKept(h.Receive(p.frame, micros), past)
  {
    match p.frame.payload
    case AckOf(header) => HostHearsAck(h, past, p, micros);
    case NtpRequest(_) => HostHearsClockRequest(h, past, p, micros);
    case TuneRequest(_) => HostHearsClockRequest(h, past, p, micros);
    case PkcRequest(id) => HostHearsKeyExchange(h, past, p, micros);
    case RemoteKey(k) => HostHearsKeyExchange(h, past, p, micros);
    case RemoteInfo(r) => HostHearsInfo(h, past, p, micros);
    case Report(r) => HostHearsInfo(h, past, p, micros);
    case _ =>
  }

  // ---------------------------------------------------------------------------------------------
  // Remote steps

  predicate RemoteReady(r: Remote, past: History, c: Chance) {
    RemoteOk(r, past) && PastOk(past) && r.send.Valid() && |r.rssi| <= RSSI_SAMPLES
  }

  predicate RemoteDone(r: Remote, q: Remote, past: History) {
    && RemoteOk(q, RemotePast(past, r, q)) && PastOk(RemotePast(past, r, q)) && Grows(past, RemotePast(past, r, q))
    && q.send.Valid() && |q.rssi| <= RSSI_SAMPLES
  }

  lemma RemoteLeavesLink(r: Remote, past: History, c: Chance, newState: LinkState)
    requires RemoteReady(r, past, c)
    requires newState in {Disabled, Setup} || (newState in {AwaitingLink, AwaitingSleeping} && r.link != newState)
    ensures RemoteDone(r, r.UpdateLinkState(newState, c), past)
  {
  }

  lemma RemoteFindsHost(r: Remote, past: History, c: Chance)
    requires RemoteReady(r, past, c) && r.send.Idle() && r.link.AwaitingLink? && r.stage in {SEARCHING, VALIDATING, AWAITING_HOST_KEY}
    ensures RemoteDone(r, r.OnAwaitingLink(c), past)
  {
  }

  lemma RemoteExchangesKey(r: Remote, past: History, c: Chance)
    requires RemoteReady(r, past, c) && r.send.Idle() && r.link.AwaitingLink? && r.stage in {REMOTE_PROCESSING, REMOTE_SENDING_KEY}
    ensures RemoteDone(r, r.OnAwaitingLink(c), past)
  {
  }

  lemma RemoteStartsLinking(r: Remote, past: History, c: Chance)
    requires RemoteReady(r, past, c) && r.send.Idle() && r.link.AwaitingLink? && r.stage == SWITCH_OVER
    ensures RemoteDone(r, r.OnAwaitingLink(c), past)
  {
  }

  lemma RemoteAwaits(r: Remote, past: History, c: Chance)
    requires RemoteReady(r, past, c) && r.send.Idle() && r.link.AwaitingLink?
    ensures RemoteDone(r, r.OnAwaitingLink(c), past)
  {
    assert r.stage <= SWITCH_OVER;
    if r.stage in {SEARCHING, VALIDATING, AWAITING_HOST_KEY} { RemoteFindsHost(r, past, c); }
    else if r.stage == SWITCH_OVER { RemoteStartsLinking(r, past, c); }
    else { RemoteExchangesKey(r, past, c); }
  }

  lemma RemoteSyncs(r: Remote, past: History, c: Chance)
    requires RemoteReady(r, past, c) && r.send.Idle() && r.link.Linking? && r.stage in {INFO_SYNC, CLOCK_SYNC}
    ensures RemoteDone(r, r.OnLinking(c), past)
  {
  }

  lemma RemoteLinks(r: Remote, past: History, c: Chance)
    requires RemoteReady(r, past, c) && r.send.Idle() && r.link.Linking?
    ensures RemoteDone(r, r.OnLinking(c), past)
  {
    if r.stage in {INFO_SYNC, CLOCK_SYNC} {
      RemoteSyncs(r, past, c);
    } else if r.stage !in {PROTOCOL_SWITCH_OVER, LINKING_DONE} {
      RemoteLeavesLink(r, past, c, AwaitingLink);
    }
  }

  lemma RemoteKeepsLink(r: Remote, past: History, c: Chance)
    requires RemoteReady(r, past, c) && r.send.Idle() && r.link.Linked?
    ensures RemoteDone(r, r.OnKeepingLink(c), past)
  {
  }

  lemma RemoteServes(r: Remote, past: History, c: Chance)
    requires RemoteReady(r, past, c) && r.send.Idle() && !r.link.Disabled?
    ensures RemoteDone(r, r.OnService(c), past)
  {
    match r.link
    case Setup => RemoteLeavesLink(r, past, c, AwaitingLink);
    case AwaitingLink =>
      if c.keysOld { }
      else if c.expired { RemoteLeavesLink(r, past, c, AwaitingSleeping); }
      else { RemoteAwaits(r, past, c); }
    case AwaitingSleeping => RemoteLeavesLink(r, past, c, AwaitingLink);
    case Linking => if c.expired { RemoteLeavesLink(r, past, c, AwaitingLink); } else { RemoteLinks(r, past, c); }
    case Linked => if c.lost { RemoteLeavesLink(r, past, c, AwaitingLink); } else { RemoteKeepsLink(r, past, c); }
    case Disabled =>
  }

  lemma RemoteRunsStep(r: Remote, past: History, c: Chance)
    requires RemoteReady(r, past, c) && !r.link.Disabled?
    ensures RemoteDone(r, r.Callback(c), past)
  {
    var (t, e) := r.send.Callback(c.send);
    if e.OnService? {
      assert t == r.send && r.(send := t) == r;
      RemoteServes(r, past, c);
    } else {
      CallbackMoves(r.send, c.send);
      RemoteSends(r, past, c, t);
      RemotePreSends(r, past, c, t);
      assert r.Callback(c) in {r.(send := t), r.(send := t).OnPreSend(c)};
    }
  }

  lemma RemoteSends(r: Remote, past: History, c: Chance, t: Send<Payload>)
    requires RemoteReady(r, past, c) && SendMoves(r.send, t)
    ensures RemoteDone(r, r.(send := t), past)
  {
  }

  /** The completed request is of the kind it was. */
  lemma RemotePreSends(r: Remote, past: History, c: Chance, t: Send<Payload>)
    requires RemoteReady(r, past, c) && SendMoves(r.send, t)
    ensures RemoteDone(r, r.(send := t).OnPreSend(c), past)
  {
    RemoteSends(r, past, c, t);
    var u := r.(send := t).OnPreSend(c).send;
    assert r.(send := t).OnPreSend(c) == r.(send := u);
    assert u.frame == t.frame || (AsksClock(u.frame.payload) && AsksClock(t.frame.payload));
    assert RemotePast(past, r, r.(send := u)) == RemotePast(past, r, r.(send := t));
  }

  lemma RemoteHearsAcked(r: Remote, past: History, p: AirPacket, c: Chance)
    requires RemoteReady(r, past, c) && ToRemoteOk(p, past) && p.cipher == r.encoder.OnAir() && p.frame.hasAck
    ensures RemoteDone(r, r.ReceiveAcked(p.frame).0, past)
  {
  }

  lemma RemoteHearsBroadcast(r: Remote, past: History, id: nat, hostId: nat, c: Chance)
    requires RemoteReady(r, past, c) && !r.link.AwaitingSleeping?
    ensures RemoteDone(r, r.OnIdBroadcastReceived(id, hostId, c), past)
  {
  }

  lemma SleeperHearsBroadcast(r: Remote, past: History, id: nat, hostId: nat, c: Chance)
    requires RemoteReady(r, past, c) && r.link.AwaitingSleeping?
    ensures RemoteDone(r, r.OnIdBroadcastReceived(id, hostId, c), past)
  {
  }

  lemma RemoteHearsInfo(r: Remote, past: History, p: AirPacket, c: Chance)
    requires RemoteReady(r, past, c) && ToRemoteOk(p, past) && p.cipher == r.encoder.OnAir()
    requires p.frame.payload.InfoRequest? || p.frame.payload.HostInfo?
    ensures RemoteDone(r, r.Receive(p.frame, c), past)
  {
  }

  lemma RemoteHearsKey(r: Remote, past: History, p: AirPacket, c: Chance)
    requires RemoteReady(r, past, c) && p.frame.payload.HostKey?
    ensures RemoteDone(r, r.Receive(p.frame, c), past)
  {
  }

  lemma RemoteStays(r: Remote, past: History, c: Chance, rssi: seq<nat>, request: RequestStage, result: int)
    requires RemoteReady(r, past, c) && |rssi| <= RSSI_SAMPLES
    ensures RemoteDone(r, r.(rssi := rssi, request := request, result := result), past)
  {
  }

  lemma RemoteHearsOther(r: Remote, past: History, p: AirPacket, c: Chance)
    requires RemoteReady(r, past, c) && !p.frame.payload.InfoRequest? && !p.frame.payload.HostInfo? && !p.frame.payload.IdBroadcast?
    requires !p.frame.payload.HostKey?
    ensures RemoteDone(r, r.Receive(p.frame, c), past)
  {
    assert |r.rssi| <= RSSI_SAMPLES;
    hide RemoteDone, RemoteReady, RemoteOk, PastOk;
    var q := r.Receive(p.frame, c);
    RemoteStays(r, past, c, q.rssi, q.request, q.result);
    assert q == r.(rssi := q.rssi, request := q.request, result := q.result);
  }

  lemma RemoteHearsPlain(r: Remote, past: History, p: AirPacket, c: Chance)
    requires RemoteReady(r, past, c) && ToRemoteOk(p, past) && p.cipher == r.encoder.OnAir()
    ensures RemoteDone(r, r.Receive(p.frame, c), past)
  {
    match p.frame.payload
    case IdBroadcast(hostId) =>
      if r.link.AwaitingSleeping? { SleeperHearsBroadcast(r, past, p.frame.id, hostId, c); }
      else { RemoteHearsBroadcast(r, past, p.frame.id, hostId, c); }
    case InfoRequest => RemoteHearsInfo(r, past, p, c);
    case HostInfo(a, b) => RemoteHearsInfo(r, past, p, c);
    case HostKey(k) => RemoteHearsKey(r, past, p, c);
    case _ => RemoteHearsOther(r, past, p, c);
  }

  // ---------------------------------------------------------------------------------------------
  // The system

  lemma GrownRemoteOk(r: Remote, past: History, next: History)
    requires RemoteOk(r, past) && Grows(past, next)
    ensures RemoteOk(r, next)
  {
  }

  /** A step of the remote leaves what the host relies on. */
  lemma GrownHostOk(h: Host, past: History, r: Remote, q: Remote)
    requires HostOk(h, past) && Grows(past, RemotePast(past, r, q))
    ensures HostOk(h, RemotePast(past, r, q))
  {
  }

  lemma GrownAirOk(p: AirPacket, past: History, next: History)
    requires Grows(past, next)
    ensures ToRemoteOk(p, past) ==> ToRemoteOk(p, next)
    ensures ToHostOk(p, past) ==> ToHostOk(p, next)
  {
  }

  lemma HostTransmits(h: Host, past: History)
    requires HostOk(h, past) && h.send.pending && !h.link.Disabled?
    ensures ToRemoteOk(AirPacket(h.encoder.OnAir(), h.send.frame), past)
  {
  }

  lemma RemoteTransmits(r: Remote, past: History, frame: Packet)
    requires RemoteOk(r, past) && r.send.pending && !r.link.Disabled?
    requires frame == r.send.frame || (AsksClock(frame.payload) && AsksClock(r.send.frame.payload))
    ensures ToHostOk(AirPacket(r.encoder.OnAir(), frame), past)
  {
  }

  /** The ack of a crypto start goes out in the clear, that of a protocol switch-over encrypted. */
  lemma RemoteAcks(r: Remote, past: History, p: Packet, c: Chance)
    requires RemoteReady(r, past, c) && r.ReceiveAcked(p).1 && (p.payload.Ping? ==> p.header == PING)
    ensures var q := r.ReceiveAcked(p).0;
            ToHostOk(AirPacket(q.encoder.OnAir(), AckPacket(p.header, p.id)), RemotePast(past, r, q))
  {
  }

  lemma StepsOn(s: System, t: System)
    requires Inv(s) && Grows(s.past, t.past)
    ensures RemoteOk(s.r, t.past)
    ensures forall p :: p in s.toRemote ==> ToRemoteOk(p, t.past)
    ensures forall p :: p in s.toHost ==> ToHostOk(p, t.past)
  {
    GrownRemoteOk(s.r, s.past, t.past);
    forall p | p in s.toRemote
      ensures ToRemoteOk(p, t.past)
    {
      GrownAirOk(p, s.past, t.past);
    }
    forall p | p in s.toHost
      ensures ToHostOk(p, t.past)
    {
      GrownAirOk(p, s.past, t.past);
    }
  }

  lemma HostTurnInv(s: System, g: Host, sent: set<AirPacket>)
    requires Inv(s) && HostDone(s.h, g, s.past) && forall p :: p in sent ==> ToRemoteOk(p, s.past)
    ensures Inv(HostTurn(s, g, sent))
  {
    var t := HostTurn(s, g, sent);
    StepsOn(s, t);
    forall p | p in sent
      ensures ToRemoteOk(p, t.past)
    {
      GrownAirOk(p, s.past, t.past);
    }
  }

  lemma HostRunsInv(s: System, c: Chance)
    requires Inv(s)
    ensures Inv(Step(s, HostRuns(c)))
  {
    if !s.h.link.Disabled? {
      HostRunsStep(s.h, s.past, HostChance(s, c));
      var sent := if s.h.send.Callback(c.send).1.Transmitted? then {AirPacket(s.h.encoder.OnAir(), s.h.send.frame)} else {};
      if s.h.send.Callback(c.send).1.Transmitted? {
        HostTransmits(s.h, s.past);
      }
      hide HostDone, Inv, ToRemoteOk, Host.Callback;
      HostTurnInv(s, s.h.Callback(HostChance(s, c)), sent);
    }
  }

  /** A step of the remote that leaves it in q and puts the packets sent on the air. */
  lemma RemoteTurnInv(s: System, q: Remote, sent: set<AirPacket>)
    requires Inv(s) && RemoteDone(s.r, q, s.past)
    requires forall p :: p in sent ==> ToHostOk(p, RemotePast(s.past, s.r, q))
    ensures Inv(RemoteTurn(s, q, sent))
  {
    var t := RemoteTurn(s, q, sent);
    StepsOn(s, t);
    GrownHostOk(s.h, s.past, s.r, q);
  }

  lemma PreSendCompletes(r: Remote, c: Chance)
    requires r.send.Valid() && r.send.Callback(c.send).1.Transmitted?
    ensures var frame := r.Callback(c).send.frame;
            && r.send.pending
            && (frame == r.send.frame || (AsksClock(frame.payload) && AsksClock(r.send.frame.payload)))
  {
  }

  function RemoteAirs(s: System, c: Chance): set<AirPacket>
    requires Shape(s)
  {
    if s.r.send.Callback(c.send).1.Transmitted? then {AirPacket(s.r.encoder.OnAir(), s.r.Callback(c).send.frame)} else {}
  }

  lemma RemoteAirsOk(s: System, c: Chance)
    requires Inv(s) && !s.r.link.Disabled?
    ensures RemoteDone(s.r, s.r.Callback(c), s.past)
    ensures forall p :: p in RemoteAirs(s, c) ==> ToHostOk(p, RemotePast(s.past, s.r, s.r.Callback(c)))
  {
    RemoteRunsStep(s.r, s.past, c);
    if s.r.send.Callback(c.send).1.Transmitted? {
      var q := s.r.Callback(c);
      PreSendCompletes(s.r, c);
      RemoteTransmits(s.r, s.past, q.send.frame);
      hide Remote.Callback, ToHostOk;
      GrownAirOk(AirPacket(s.r.encoder.OnAir(), q.send.frame), s.past, RemotePast(s.past, s.r, q));
    }
  }

  /** But for the record of its clock requests, a callback is a turn. */
  lemma RemoteCallsTurn(s: System, c: Chance)
    requires Shape(s)
    ensures var t := RemoteCalls(s, c); t == RemoteTurn(s, s.r.Callback(c), RemoteAirs(s, c)).(clocks := t.clocks, trips := t.trips)
  {
    hide Remote.Callback;
  }

  lemma RemoteRunsInv(s: System, c: Chance)
    requires Inv(s)
    ensures Inv(Step(s, RemoteRuns(c)))
  {
    if !s.r.link.Disabled? {
      var d := RemoteChance(s, c);
      var q := s.r.Callback(d);
      RemoteAirsOk(s, d);
      RemoteCallsTurn(s, d);
      hide Inv, RemoteDone, ToHostOk, Remote.Callback, RemoteTurn, RemoteAirs;
      RemoteTurnInv(s, q, RemoteAirs(s, d));
      TripsOnly(RemoteTurn(s, q, RemoteAirs(s, d)), RemoteCalls(s, d));
    }
  }

  /** The invariant does not look at the clocks. */
  lemma TripsOnly(s: System, t: System)
    requires Inv(s) && t == s.(clocks := t.clocks, trips := t.trips)
    ensures Inv(t)
  {
  }

  lemma RemoteHearsAckedInv(s: System, p: AirPacket, c: Chance)
    requires Inv(s) && p in s.toRemote && p.cipher == s.r.encoder.OnAir() && p.frame.hasAck
    ensures Inv(RemoteReceives(s, p, c))
  {
    var (q, ok) := s.r.ReceiveAcked(p.frame);
    var ack := AirPacket(q.encoder.OnAir(), AckPacket(p.frame.header, p.frame.id));
    assert RemoteReceives(s, p, c) == RemoteTurn(s, q, if ok then {ack} else {});
    RemoteHearsAcked(s.r, s.past, p, c);
    if ok {
      assert p.frame.payload.Ping? ==> p.frame.header == PING;
      RemoteAcks(s.r, s.past, p.frame, c);
    }
    hide Inv, RemoteDone, ToHostOk, RemotePast;
    RemoteTurnInv(s, q, if ok then {ack} else {});
  }

  lemma RemoteHearsInv(s: System, p: AirPacket, c: Chance)
    requires Inv(s)
    ensures Inv(Step(s, RemoteHears(p, c)))
  {
    var d := RemoteChance(s, c);
    if p in s.toRemote && p.cipher == s.r.encoder.OnAir() {
      if p.frame.hasAck {
        RemoteHearsAckedInv(s, p, d);
      } else {
        RemoteHearsPlain(s.r, s.past, p, d);
        hide Inv, RemoteDone, RemotePast;
        RemoteTurnInv(s, s.r.Receive(p.frame, d), {});
      }
    }
  }

  lemma HostHearsInv(s: System, p: AirPacket)
    requires Inv(s)
    ensures Inv(Step(s, HostHears(p)))
  {
    if p in s.toHost && p.cipher == s.h.encoder.OnAir() {
      HostHearsStep(s.h, s.past, p, s.clocks.HostMicros());
    }
  }

  lemma HostEnablesInv(s: System, on: bool, c: Chance)
    requires Inv(s)
    ensures Inv(Step(s, HostEnables(on, c)))
  {
    HostLeavesLink(s.h, s.past, HostChance(s, c), if on then Setup else Disabled);
    HostTurnInv(s, s.h.UpdateLinkState(if on then Setup else Disabled, HostChance(s, c)), {});
  }

  lemma RemoteEnablesInv(s: System, on: bool, c: Chance)
    requires Inv(s)
    ensures Inv(Step(s, RemoteEnables(on, c)))
  {
    var d := RemoteChance(s, c);
    RemoteLeavesLink(s.r, s.past, d, if on then Setup else Disabled);
    RemoteTurnInv(s, s.r.UpdateLinkState(if on then Setup else Disabled, d), {});
  }

  lemma SentOkInv(s: System, a: Action)
    requires Inv(s) && (a.HostSentOk? || a.RemoteSentOk? || a.Wait?)
    ensures Inv(Step(s, a))
  {
  }

  lemma StepKeepsInv(s: System, a: Action)
    requires Inv(s)
    ensures Inv(Step(s, a))
  {
    hide Inv, Step;
    match a
    case HostRuns(c) => HostRunsInv(s, c);
    case RemoteRuns(c) => RemoteRunsInv(s, c);
    case HostSentOk(header) => SentOkInv(s, a);
    case RemoteSentOk(header) => SentOkInv(s, a);
    case HostHears(p) => HostHearsInv(s, p);
    case RemoteHears(p, c) => RemoteHearsInv(s, p, c);
    case HostEnables(on, c) => HostEnablesInv(s, on, c);
    case RemoteEnables(on, c) => RemoteEnablesInv(s, on, c);
    case Wait(micros) => SentOkInv(s, a);
  }

  // ---------------------------------------------------------------------------------------------
  // Whole runs

  ghost predicate Next(s: System, t: System) {
    Shape(s) && exists a: Action :: t == Step(s, a)
  }

  ghost predicate NextAt(run: seq<System>, i: nat)
    requires i + 1 < |run|
  {
    Next(run[i], run[i + 1])
  }

  ghost predicate Initial(s: System) {
    exists hostId: nat, remoteId: nat, clocks: Clocks :: s == Start(hostId, remoteId, clocks)
  }

  /** A sequence of states from power-up on, each one step from the one before it. */
  ghost predicate IsRun(run: seq<System>) {
    run != [] && Initial(run[0]) && forall i: nat :: i + 1 < |run| ==> NextAt(run, i)
  }

  lemma NextKeepsInv(s: System, t: System)
    requires Inv(s) && Next(s, t)
    ensures Inv(t)
  {
    hide Inv, Step;
    var a: Action :| t == Step(s, a);
    StepKeepsInv(s, a);
  }

  lemma {:induction false} RunKeepsInv(run: seq<System>, k: nat)
    requires IsRun(run) && k < |run|
    ensures Inv(run[k])
  {
    hide Next, Inv;
    if k == 0 {
      var hostId: nat, remoteId: nat, clocks: Clocks :| run[0] == Start(hostId, remoteId, clocks);
      StartInv(hostId, remoteId, clocks);
    } else {
      RunKeepsInv(run, k - 1);
      assert NextAt(run, k - 1);
      NextKeepsInv(run[k - 1], run[k]);
    }
  }

  /** The host never links alone: when it is done linking or linked, the remote has entered LinkProtocolSwitchOver in
      that session, with its info sync complete, under the host's key and IV and with the host's round trip time. */
  lemma HostNeverLinksAlone(run: seq<System>, k: nat)
    requires IsRun(run) && k < |run|
    ensures var h, past := run[k].h, run[k].past;
            (h.link.Linking? && h.stage == LINKING_DONE) || h.link.Linked? ==>
              h.session in past.switched && past.switched[h.session] == SwitchRecord(h.encoder.cipher, h.rtt, INFO_DONE)
  {
    hide Next;
    RunKeepsInv(run, k);
  }

  predicate Switches(r: Remote, q: Remote) {
    q.link.Linking? && q.stage == PROTOCOL_SWITCH_OVER && r.stage == CLOCK_SYNC
  }

  lemma RunsNeverSwitch(r: Remote, c: Chance, newState: LinkState)
    requires r.send.Valid() && newState in {Setup, Disabled}
    ensures !Switches(r, r.Callback(c)) && !Switches(r, r.UpdateLinkState(newState, c))
  {
  }

  lemma OnlyAckedPacketsSwitch(r: Remote, c: Chance, p: Packet)
    requires |r.rssi| <= RSSI_SAMPLES
    ensures !Switches(r, r.Receive(p, c))
    ensures Switches(r, r.ReceiveAcked(p).0) ==> r.link.Linking? && r.ReceiveAcked(p).0 == r.SetStage(PROTOCOL_SWITCH_OVER)
  {
  }

  lemma InfoWasDone(r: Remote, past: History)
    requires RemoteOk(r, past) && r.link.Linking? && r.stage == CLOCK_SYNC
    ensures r.info == INFO_DONE
  {
  }

  lemma StepSwitches(s: System, a: Action)
    requires Inv(s) && Shape(s) && Switches(s.r, Step(s, a).r) && s.r != Step(s, a).r
    ensures s.r.link.Linking? && s.r.info == INFO_DONE && Step(s, a).r == s.r.SetStage(PROTOCOL_SWITCH_OVER)
  {
    if s.r.link.Linking? { InfoWasDone(s.r, s.past); }
    hide Inv, Remote.Callback, Remote.Receive, Remote.ReceiveAcked, Remote.UpdateLinkState;
    match a
    case RemoteRuns(c) => RunsNeverSwitch(s.r, RemoteChance(s, c), Setup);
    case RemoteEnables(on, c) => RunsNeverSwitch(s.r, RemoteChance(s, c), if on then Setup else Disabled);
    case RemoteHears(p, c) => OnlyAckedPacketsSwitch(s.r, RemoteChance(s, c), p.frame);
    case _ =>
  }

  lemma StepRecordsSwitch(s: System, a: Action, session: nat)
    requires Inv(s) && Shape(s) && session in Step(s, a).past.switched && session !in s.past.switched
    ensures EntersSwitchOver(s.r, Step(s, a).r, session, Step(s, a).past.switched[session])
  {
    hide Inv, Host.Callback, Host.Receive, Host.UpdateLinkState, Remote.Callback, Remote.Receive, Remote.ReceiveAcked, Remote.UpdateLinkState;
    assert Step(s, a).past.switched == RemotePast(s.past, s.r, Step(s, a).r).switched;
    StepSwitches(s, a);
  }

  /** The record holds what the remote has as it enters. */
  predicate EntersSwitchOver(r: Remote, q: Remote, session: nat, record: SwitchRecord) {
    && r.link.Linking? && r.stage == CLOCK_SYNC && r.info == INFO_DONE
    && q.link.Linking? && q.stage == PROTOCOL_SWITCH_OVER && q.session == session
    && record == SwitchRecord(q.encoder.cipher, q.rtt, q.info)
  }

  /** The record is truthful: it is written only by the step that takes the remote, its info sync complete, into
      LinkProtocolSwitchOver of that session. */
  lemma SwitchIsRecordedWhenEntered(run: seq<System>, k: nat, session: nat)
    requires IsRun(run) && k + 1 < |run| && session in run[k + 1].past.switched && session !in run[k].past.switched
    ensures EntersSwitchOver(run[k].r, run[k + 1].r, session, run[k + 1].past.switched[session])
  {
    hide Step, Inv, EntersSwitchOver;
    RunKeepsInv(run, k);
    assert NextAt(run, k);
    var a: Action :| run[k + 1] == Step(run[k], a);
    StepRecordsSwitch(run[k], a, session);
  }

  predicate HostInfoDone(h: Host) {
    (h.link.Linking? && h.info > MEASURING) || h.link.Linked?
  }

  predicate RemoteInfoDone(r: Remote) {
    (r.link.Linking? && r.info == INFO_DONE) || r.link.Linked?
  }

  lemma TimesAgree(h: Host, r: Remote, past: History)
    requires HostOk(h, past) && RemoteOk(r, past) && PastOk(past) && h.session == r.session && HostInfoDone(h) && RemoteInfoDone(r)
    ensures h.rtt == r.rtt < PING_TIMEOUT_MICROS
  {
  }

  /** Whenever both ends are linking or linked in the same session they use the same key and IV, and once both have
      finished info sync they work with the same, short, transmission time. */
  lemma KeysAndTimesAgree(run: seq<System>, k: nat)
    requires IsRun(run) && k < |run|
    ensures var h, r := run[k].h, run[k].r;
            IsLinking(h.link) && IsLinking(r.link) && h.session == r.session ==>
              && h.encoder == r.encoder
              && h.encoder.OnAir() == Some(Cipher(h.encoder.cipher.key, Some(Iv(h.session, h.localId, h.partner))))
              && (HostInfoDone(h) && RemoteInfoDone(r) ==> h.rtt == r.rtt && Ettm(h.rtt) == Ettm(r.rtt) <= 3999)
  {
    hide Next;
    RunKeepsInv(run, k);
    var s := run[k];
    if s.h.session == s.r.session && HostInfoDone(s.h) && RemoteInfoDone(s.r) {
      TimesAgree(s.h, s.r, s.past);
    }
  }

  /** A session whose round trip time is the average of the two or three latency samples taken in it, each under 10 ms. */
  predicate Measured(h: Host, session: nat, rtt: nat) {
    && h.link.Linking? && h.session == session
    && 2 <= |h.meter.samples| <= 3 && (forall i :: 0 <= i < |h.meter.samples| ==> h.meter.samples[i] < 10000)
    && IsMeanOf(h.meter.samples, rtt)
  }

  lemma CallbackSettles(h: Host, c: Chance)
    requires h.send.Valid() && h.meter.Valid() && h.link.Linking? && h.info == MEASURING
    ensures var g := h.Callback(c); g.link.Linking? && g.info == REQUESTING_INFO ==> Measured(h, g.session, g.rtt)
  {
    AverageIsMean(h.meter);
  }

  lemma SwitchSettlesNothing(h: Host, c: Chance, newState: LinkState)
    requires newState in {Setup, Disabled}
    ensures !h.UpdateLinkState(newState, c).link.Linking?
  {
  }

  lemma StepSettles(s: System, a: Action, session: nat)
    requires Shape(s) && session in Step(s, a).past.rtts
    ensures var rtt := Step(s, a).past.rtts[session];
            (session in s.past.rtts && s.past.rtts[session] == rtt) || Measured(s.h, session, rtt)
  {
    hide Measured, Host.Callback, Host.Receive, Host.UpdateLinkState, Remote.Callback, Remote.Receive, Remote.ReceiveAcked, Remote.UpdateLinkState;
    match a
    case HostRuns(c) => if s.h.link.Linking? && s.h.info == MEASURING { CallbackSettles(s.h, HostChance(s, c)); }
    case HostEnables(on, c) => SwitchSettlesNothing(s.h, HostChance(s, c), if on then Setup else Disabled);
    case _ =>
  }

  lemma NextSettles(s: System, t: System, session: nat)
    requires Next(s, t) && session in t.past.rtts
    ensures (session in s.past.rtts && s.past.rtts[session] == t.past.rtts[session]) || Measured(s.h, session, t.past.rtts[session])
  {
    hide Step, Measured;
    var a: Action :| t == Step(s, a);
    StepSettles(s, a, session);
  }

  lemma {:induction false} RecordedRttIsAverage(run: seq<System>, k: nat, session: nat)
    requires IsRun(run) && k < |run| && session in run[k].past.rtts
    ensures exists j: nat :: j < k && Measured(run[j].h, session, run[k].past.rtts[session])
  {
    hide Next, Measured, Step;
    if k == 0 {
      assert false;
    } else {
      RunKeepsInv(run, k - 1);
      assert NextAt(run, k - 1);
      NextSettles(run[k - 1], run[k], session);
      if !Measured(run[k - 1].h, session, run[k].past.rtts[session]) {
        RecordedRttIsAverage(run, k - 1, session);
      }
    }
  }

  /** The round trip time that an end works with after its info sync is the average of the two or three latency samples
      that the host had taken in that session when it settled it. */
  lemma RttIsAverage(run: seq<System>, k: nat)
    requires IsRun(run) && k < |run|
    ensures HostInfoDone(run[k].h) ==> exists j: nat :: j < k && Measured(run[j].h, run[k].h.session, run[k].h.rtt)
    ensures RemoteInfoDone(run[k].r) ==> exists j: nat :: j < k && Measured(run[j].h, run[k].r.session, run[k].r.rtt)
  {
    hide Next, Measured;
    RunKeepsInv(run, k);
    var s := run[k];
    if HostInfoDone(s.h) { RecordedRttIsAverage(run, k, s.h.session); }
    if RemoteInfoDone(s.r) { RecordedRttIsAverage(run, k, s.r.session); }
  }

  /** Over every run encoder and link state agree on both ends, unless disabled: full power just while linking or linked,
      nothing left of key or IV whenever an end is back at the start of awaiting a link, and ready when linking is about
      to start, so that enabling the encoder cannot fail there. */
  lemma EncoderFollowsLink(run: seq<System>, k: nat)
    requires IsRun(run) && k < |run|
    ensures var h, r := run[k].h, run[k].r;
            && (!h.link.Disabled? ==> (h.encoder.stage.FullPower? <==> IsLinking(h.link)))
            && (!r.link.Disabled? ==> (r.encoder.stage.FullPower? <==> IsLinking(r.link)))
            && (h.link.AwaitingLink? && h.stage == BROADCASTING ==> IsCleared(h.encoder))
            && (r.link.AwaitingLink? && r.stage == SEARCHING ==> IsCleared(r.encoder))
            && (h.link.AwaitingLink? && h.stage == SWITCH_OVER ==> h.encoder.SetEnabled().1)
            && (r.link.AwaitingLink? && r.stage == SWITCH_OVER ==> r.encoder.SetEnabled().1)
  {
    hide Next;
    RunKeepsInv(run, k);
  }

  /** Disabling clears the encoder just when the end was linked. From every other state key, IV and stage stay as they
      are, also at full power, until the service is enabled again. */
  lemma DisablingKeepsEncoder(h: Host, r: Remote, c: Chance)
    ensures h.UpdateLinkState(Disabled, c).encoder == if h.link.Linked? then h.encoder.Clear() else h.encoder
    ensures r.UpdateLinkState(Disabled, c).encoder == if r.link.Linked? then r.encoder.Clear() else r.encoder
    ensures h.link != Setup ==> IsCleared(h.UpdateLinkState(Setup, c).encoder)
    ensures r.link != Setup ==> IsCleared(r.UpdateLinkState(Setup, c).encoder)
  {
  }

  /** Going back to AwaitingLink, from whatever state, ends at its start with a cleared encoder and, on the host, a new session. */
  lemma BackToAwaiting(h: Host, r: Remote, c: Chance)
    requires !h.link.AwaitingLink? && !r.link.AwaitingLink?
    ensures var g := h.UpdateLinkState(AwaitingLink, c);
            g.link.AwaitingLink? && g.stage == BROADCASTING && IsCleared(g.encoder) && g.session == c.unused
    ensures var q := r.UpdateLinkState(AwaitingLink, c);
            q.link.AwaitingLink? && q.stage == SEARCHING && IsCleared(q.encoder) && q.session == 0
  {
  }

  /** Why that matters: had enabling failed, the nested change back to AwaitingLink would have done nothing, the link
      state being AwaitingLink still, and the host would be linking in the clear. It links at full power just when the
      encoder was not clear. */
  lemma FailedEnableLinksInTheClear(h: Host, c: Chance)
    requires h.link.AwaitingLink?
    ensures h.SetStage(0).UpdateLinkState(AwaitingLink, c) == h.SetStage(0)
    ensures var g := h.UpdateLinkState(Linking, c);
            && g.link.Linking?
            && (g.encoder.stage.FullPower? <==> !h.encoder.stage.AllClear?)
  {
  }

  // ---------------------------------------------------------------------------------------------
  // What is measured in a session

  predicate Unmeasured(h: Host) {
    h.meter.samples == [] && h.errors == [] && h.rssi == []
  }

  /** Nothing is measured before linking. */
  predicate FreshUntilLinking(h: Host) {
    h.link in {Setup, AwaitingLink, AwaitingSleeping} ==> Unmeasured(h)
  }

  /** From h to g, nothing is measured before linking, and a session that is new in g starts with nothing. */
  predicate StartsFresh(h: Host, g: Host) {
    FreshUntilLinking(g) && (g.session != 0 && g.session != h.session ==> Unmeasured(g))
  }

  lemma UpdateStartsFresh(h: Host, newState: LinkState, c: Chance)
    requires FreshUntilLinking(h)
    requires newState in {Disabled, Setup, AwaitingLink, AwaitingSleeping} || h.link.AwaitingLink? || (newState.Linked? && h.link.Linking?)
    ensures StartsFresh(h, h.UpdateLinkState(newState, c))
  {
  }

  lemma AwaitingStartsFresh(h: Host, c: Chance)
    requires FreshUntilLinking(h) && h.link.AwaitingLink?
    ensures StartsFresh(h, h.OnAwaitingLink(c))
  {
    hide Host.UpdateLinkState;
    UpdateStartsFresh(h, Linking, c);
  }

  lemma LinkingStartsFresh(h: Host, c: Chance)
    requires FreshUntilLinking(h) && h.link.Linking?
    ensures StartsFresh(h, h.OnLinking(c))
  {
    hide Host.UpdateLinkState;
    UpdateStartsFresh(h, Linked, c);
    UpdateStartsFresh(h, AwaitingLink, c);
  }

  lemma ServiceStartsFresh(h: Host, c: Chance)
    requires FreshUntilLinking(h)
    ensures StartsFresh(h, h.OnService(c))
  {
    hide Host.UpdateLinkState, Host.OnAwaitingLink, Host.OnLinking;
    UpdateStartsFresh(h, AwaitingLink, c);
    UpdateStartsFresh(h, AwaitingSleeping, c);
    if h.link.AwaitingLink? { AwaitingStartsFresh(h, c); }
    if h.link.Linking? { LinkingStartsFresh(h, c); }
  }

  lemma CallbackStartsFresh(h: Host, c: Chance)
    requires FreshUntilLinking(h) && h.send.Valid() && h.meter.Valid()
    ensures StartsFresh(h, h.Callback(c))
  {
    hide Host.OnService;
    ServiceStartsFresh(h.(send := h.send.Callback(c.send).0), c);
  }

  lemma ReceiveStartsFresh(h: Host, p: Packet, micros: nat)
    requires FreshUntilLinking(h) && |h.rssi| <= RSSI_SAMPLES
    ensures StartsFresh(h, h.Receive(p, micros))
  {
  }

  lemma StepStartsFresh(s: System, a: Action)
    requires Shape(s) && FreshUntilLinking(s.h)
    ensures StartsFresh(s.h, Step(s, a).h)
  {
    hide Host.Callback, Host.Receive, Host.UpdateLinkState;
    match a
    case HostRuns(c) => CallbackStartsFresh(s.h, HostChance(s, c));
    case HostHears(p) => ReceiveStartsFresh(s.h, p.frame, s.clocks.HostMicros());
    case HostEnables(on, c) => UpdateStartsFresh(s.h, if on then Setup else Disabled, HostChance(s, c));
    case _ =>
  }

  lemma NextStartsFresh(s: System, t: System)
    requires Next(s, t) && FreshUntilLinking(s.h)
    ensures StartsFresh(s.h, t.h)
  {
    hide Step;
    var a: Action :| t == Step(s, a);
    StepStartsFresh(s, a);
  }

  /** Since state j, in which nothing was measured, the host has been in the session it is in at state k. */
  ghost predicate SessionSince(run: seq<System>, j: nat, k: nat) {
    && j <= k < |run| && Unmeasured(run[j].h)
    && forall i :: j <= i <= k ==> run[i].h.session == run[k].h.session
  }

  lemma {:induction false} SessionStarts(run: seq<System>, k: nat)
    requires IsRun(run) && k < |run|
    ensures FreshUntilLinking(run[k].h)
    ensures run[k].h.session != 0 ==> exists j: nat :: SessionSince(run, j, k)
  {
    hide Next;
    if k == 0 {
      assert run[0].h.session == 0;
    } else {
      SessionStarts(run, k - 1);
      assert NextAt(run, k - 1);
      NextStartsFresh(run[k - 1], run[k]);
      if run[k].h.session != 0 {
        if run[k].h.session == run[k - 1].h.session {
          var j: nat :| SessionSince(run, j, k - 1);
          assert SessionSince(run, j, k);
        } else {
          assert SessionSince(run, k, k);
        }
      }
    }
  }

  /** The host's gate: a linked host has been in its session since a moment at which nothing was measured, and has taken
      since at least two latency samples, all of them under 10 ms, an RSSI of the partner, and three clock errors in a
      row under 100 us. */
  lemma HostGate(run: seq<System>, k: nat)
    requires IsRun(run) && k < |run| && run[k].h.link.Linked?
    ensures exists j: nat :: SessionSince(run, j, k)
    ensures var h := run[k].h;
            && h.session != 0
            && |h.meter.samples| >= 2 && (forall i :: 0 <= i < |h.meter.samples| ==> h.meter.samples[i] < 10000)
            && h.rssi != []
            && exists i: nat :: Clock.ThreeGoodAt(h.errors, i)
  {
    hide Next;
    RunKeepsInv(run, k);
    SessionStarts(run, k);
    Clock.SyncedIffThreeGood(run[k].h.errors);
  }
}
