/** A second, flat description of the two link services: for every field of a service exactly what changes it, in whatever
    handler that happens. A service run, a packet and a switch of the link state are proved to be what it says. */
module LinkEffects {
  import opened Common
  import opened LinkCrypto
  import opened SendService
  import opened Latency
  import opened LinkNodes
  import Clock

  // ---------------------------------------------------------------------------------------------
  // The host's service

  /** The host is looking for a remote, and its keys and its patience are not used up. */
  predicate HostLooks(h: Host, c: Chance) {
    h.link.AwaitingLink? && !c.keysOld && !c.expired
  }

  predicate HostLinks(h: Host, c: Chance) {
    h.link.Linking? && !c.expired
  }

  /** Linking has taken too long, the partner is lost, or the host is only starting. */
  predicate HostGoesBack(h: Host, c: Chance) {
    || h.link.Setup? || h.link.AwaitingSleeping?
    || (h.link.Linking? && (c.expired || h.stage > 3))
    || (h.link.Linked? && c.lost)
  }

  predicate HostFallsAsleep(h: Host, c: Chance) {
    h.link.AwaitingLink? && !c.keysOld && c.expired
  }

  /** The shared secret can be derived. */
  predicate SecretOk(keys: KeyExchanger, ok: bool) {
    keys.stage.StageSharedKey? || (keys.stage.StagePartnerKey? && ok)
  }

  predicate HostRenews(h: Host, c: Chance) {
    HostLooks(h, c) && h.stage == 0 && (h.session == 0 || c.sessionOld)
  }

  /** A key exchange has taken too long or has failed. */
  predicate HostCancels(h: Host, c: Chance) {
    HostLooks(h, c) && (((h.stage == 2 || h.stage == 4) && c.subExpired) || (h.stage == 3 && !SecretOk(h.keys, c.sharedOk)))
  }

  /** Nothing of the session is left. */
  predicate HostForgets(h: Host, c: Chance) {
    HostGoesBack(h, c) || HostFallsAsleep(h, c) || HostRenews(h, c) || HostCancels(h, c)
  }

  predicate HostStartsLinking(h: Host, c: Chance) {
    HostLooks(h, c) && h.stage == 5
  }

  predicate HostFinishesLinking(h: Host, c: Chance) {
    HostLinks(h, c) && h.stage == 3
  }

  predicate HostSettlesRtt(h: Host, c: Chance) {
    HostLinks(h, c) && h.stage == 0 && h.info == 0 && |h.meter.samples| >= 2
  }

  predicate HostPings(h: Host, c: Chance) {
    HostLinks(h, c) && h.stage == 0 && h.info == 0 && |h.meter.samples| < 2 && (h.pingAcked || c.resend)
  }

  /** A clock request is answered: while linking before three errors were good, while linked when no report is due. */
  predicate HostAnswers(h: Host, c: Chance) {
    && h.transaction.ready
    && ((HostLinks(h, c) && h.stage == 1 && h.syncGood < 3) || (h.link.Linked? && !c.lost && !c.report))
  }

  function HostSends(h: Host, c: Chance): Option<Packet> {
    if HostLooks(h, c) && h.stage == 0 && c.resend then
      Some(Frame(SHORT, if HostRenews(h, c) then c.unused else h.session, false, IdBroadcast(h.localId)))
    else if HostLooks(h, c) && h.stage == 2 && !c.subExpired && c.resend then Some(Frame(LONG, h.session, false, HostKey(h.keys.local)))
    else if HostLooks(h, c) && h.stage == 4 && !c.subExpired && c.resend then
      Some(Frame(SHORT_WITH_ACK, h.session, true, CryptoStart(h.encoder.cipher, h.partner)))
    else if HostPings(h, c) then Some(Frame(PING, c.random, true, Ping))
    else if HostLinks(h, c) && h.stage == 0 && h.info == 1 && h.rssi == [] && c.resend then Some(Frame(REPORT, 0x40, false, InfoRequest))
    else if HostLinks(h, c) && h.stage == 0 && h.info == 2 && c.resend then Some(Frame(REPORT, 0x41, false, HostInfo(c.rssi, h.rtt)))
    else if HostLinks(h, c) && h.stage == 2 && c.resend then Some(Frame(SHORT_WITH_ACK, h.session, true, SwitchOver(h.partner)))
    else if h.link.Linked? && !c.lost && c.report then Some(Frame(REPORT, 0x0A, false, Report(c.rssi)))
    else if HostAnswers(h, c) then
      Some(Frame(SHORT, h.transaction.id, false, if h.link.Linked? then TuneReply(h.transaction.result) else NtpReply(h.transaction.result)))
    else None
  }

  function Ready(stage: EncoderStage): EncoderStage {
    if stage.AllClear? then AllClear else FullPower
  }

  function WithoutPartner(keys: KeyExchanger): KeyExchanger {
    keys.(stage := if keys.stage.StageClear? then StageClear else StageLocalKey)
  }

  /** The secret of the two key pairs, as it was derived before or from the pairs now. */
  function SecretOf(keys: KeyExchanger): Secret {
    if keys.stage.StageSharedKey? then keys.shared else {keys.local, keys.partner}
  }

  function HostServed(h: Host, c: Chance): Host {
    h.(link := if HostGoesBack(h, c) then AwaitingLink
               else if HostFallsAsleep(h, c) then AwaitingSleeping
               else if HostStartsLinking(h, c) then Linking
               else if HostFinishesLinking(h, c) then Linked
               else h.link,
       stage := if HostGoesBack(h, c) || HostFallsAsleep(h, c) || HostCancels(h, c) || HostStartsLinking(h, c) then 0
                else if HostLooks(h, c) && h.stage == 1 then 2
                else if HostLooks(h, c) && h.stage == 3 then 4
                else if HostLooks(h, c) && h.stage > 5 then 0
                else if HostLinks(h, c) && h.stage == 1 && h.syncGood >= 3 then 2
                else h.stage,
       info := if HostForgets(h, c) || HostStartsLinking(h, c) then 0
               else if HostSettlesRtt(h, c) then 1
               else if HostLinks(h, c) && h.stage == 0 && h.info == 1 && h.rssi != [] then 2
               else h.info,
       session := if HostGoesBack(h, c) || HostRenews(h, c) then c.unused else if HostForgets(h, c) then 0 else h.session,
       keys := if h.link.AwaitingLink? && c.keysOld then
                 (if c.keyOk then h.keys.(local := c.unused, stage := StageLocalKey) else h.keys)
               else if HostForgets(h, c) then WithoutPartner(h.keys)
               else if HostLooks(h, c) && h.stage == 3 && h.keys.stage.StagePartnerKey? then
                 h.keys.(shared := {h.keys.local, h.keys.partner}, stage := StageSharedKey)
               else h.keys,
       encoder := if HostForgets(h, c) then Encoder(AllClear, Cipher(None, None))
                  else if HostLooks(h, c) && h.stage == 1 then
                    h.encoder.(cipher := h.encoder.cipher.(iv := Some(Iv(h.session, h.localId, h.partner))))
                  else if HostLooks(h, c) && h.stage == 3 then Encoder(AllReady, h.encoder.cipher.(key := Some(SecretOf(h.keys))))
                  else if HostStartsLinking(h, c) then h.encoder.(stage := Ready(h.encoder.stage))
                  else h.encoder,
       send := if HostSends(h, c).Some? then h.send.Request(HostSends(h, c).value, c.send.now) else h.send,
       pingAcked := h.pingAcked && !HostPings(h, c),
       meter := if HostForgets(h, c) then Meter(INVALID_MICROS, 0, []) else h.meter,
       rssi := if HostForgets(h, c) then [] else h.rssi,
       rtt := if HostForgets(h, c) then INVALID_LATENCY else if HostSettlesRtt(h, c) then h.meter.Average() else h.rtt,
       syncGood := if HostForgets(h, c) then 0
                   else if !HostAnswers(h, c) then h.syncGood
                   else if -100 < h.transaction.result < 100 then (if h.syncGood < 255 then h.syncGood + 1 else 255)
                   else if h.syncGood >= 3 then h.syncGood
                   else 0,
       errors := if HostForgets(h, c) then [] else if HostAnswers(h, c) then h.errors + [h.transaction.result] else h.errors,
       offset := if HostForgets(h, c) then c.random % 0x1_0000_0000 else h.offset,
       transaction := if HostForgets(h, c) || HostAnswers(h, c) || HostFinishesLinking(h, c) then h.transaction.(ready := false, id := 0)
                      else h.transaction)
  }

  lemma HostServedLinked(h: Host, c: Chance)
    requires h.link.Linked? && h.send.Valid() && h.syncGood <= 255
    ensures h.OnService(c) == HostServed(h, c)
  {
  }

  lemma HostServedWaking(h: Host, c: Chance)
    requires (h.link.Setup? || h.link.AwaitingSleeping? || h.link.Disabled?) && h.send.Valid()
    ensures h.OnService(c) == HostServed(h, c)
  {
  }

  lemma HostServedBroadcasting(h: Host, c: Chance)
    requires HostLooks(h, c) && h.send.Valid() && h.stage <= 1
    ensures h.OnService(c) == HostServed(h, c)
  {
  }

  lemma HostServedLooking(h: Host, c: Chance)
    requires HostLooks(h, c) && h.send.Valid() && h.stage > 1 && h.stage !in {3, 5}
    ensures h.OnService(c) == HostServed(h, c)
  {
  }

  lemma HostServedKeyed(h: Host, c: Chance)
    requires HostLooks(h, c) && h.send.Valid() && h.stage in {3, 5}
    ensures h.OnService(c) == HostServed(h, c)
  {
  }

  lemma HostServedImpatient(h: Host, c: Chance)
    requires h.link.AwaitingLink? && !HostLooks(h, c) && h.send.Valid()
    ensures h.OnService(c) == HostServed(h, c)
  {
  }

  lemma HostServedMeasuring(h: Host, c: Chance)
    requires h.link.Linking? && h.send.Valid() && h.syncGood <= 255 && !c.expired && h.stage == 0
    ensures h.OnService(c) == HostServed(h, c)
  {
  }

  lemma HostServedLinking(h: Host, c: Chance)
    requires h.link.Linking? && h.send.Valid() && h.syncGood <= 255 && (c.expired || h.stage != 0)
    ensures h.OnService(c) == HostServed(h, c)
  {
  }

  /** A run of the host's service, through all handlers and changes of state. */
  lemma HostServesExactly(h: Host, c: Chance)
    requires h.send.Valid() && h.syncGood <= 255
    ensures h.OnService(c) == HostServed(h, c)
  {
    hide *;
    match h.link
    case Linked => HostServedLinked(h, c);
    case Linking => if c.expired || h.stage != 0 { HostServedLinking(h, c); } else { HostServedMeasuring(h, c); }
    case AwaitingLink =>
      if !HostLooks(h, c) { HostServedImpatient(h, c); }
      else if h.stage <= 1 { HostServedBroadcasting(h, c); }
      else if h.stage in {3, 5} { HostServedKeyed(h, c); }
      else { HostServedLooking(h, c); }
    case _ => HostServedWaking(h, c);
  }

  // ---------------------------------------------------------------------------------------------
  // What the host hears

  predicate HostInvited(h: Host, p: Packet) {
    p.payload.PkcRequest? && h.link.AwaitingLink? && h.stage == 0 && h.session != 0 && h.session == p.id
  }

  predicate HostTakesKey(h: Host, p: Packet) {
    p.payload.RemoteKey? && h.link.AwaitingLink? && h.stage == 2 && h.session != 0 && h.session == p.id && h.keys.stage.StageLocalKey?
  }

  predicate HostTakesRssi(h: Host, p: Packet) {
    (p.payload.RemoteInfo? && h.link.Linking? && h.stage == 0) || (p.payload.Report? && h.link.Linked?)
  }

  /** A clock request is kept to be answered: while linking up to the clock sync, or a tune request while linked. */
  predicate HostTakesRequest(h: Host, p: Packet) {
    (p.payload.NtpRequest? && h.link.Linking? && h.stage <= 1) || (p.payload.TuneRequest? && h.link.Linked?)
  }

  /** Later it is dropped, and with it whatever waited. */
  predicate HostDropsRequest(h: Host, p: Packet) {
    p.payload.NtpRequest? && h.link.Linking? && h.stage > 1
  }

  predicate HostTakesAck(h: Host, p: Packet) {
    p.payload.AckOf? && h.send.frame.header == p.payload.header && h.send.frame.id == p.id && h.send.status.WaitingForAck? && h.send.pending
  }

  function EstimateOf(payload: Payload): nat {
    match payload
    case NtpRequest(e) => e
    case TuneRequest(e) => e
    case _ => 0
  }

  function HostHeard(h: Host, p: Packet, micros: nat): Host {
    var error := Clock.Signed((micros + h.offset) % 0x1_0000_0000 - EstimateOf(p.payload));
    h.(partner := if HostInvited(h, p) then p.payload.remoteId else h.partner,
       stage := if HostInvited(h, p) then 1
                else if HostTakesKey(h, p) then 3
                else if HostTakesRequest(h, p) && h.link.Linking? && h.stage == 0 && |h.meter.samples| >= 2 && h.rssi != [] then 1
                else h.stage,
       keys := if HostTakesKey(h, p) then h.keys.(partner := p.payload.pair, stage := StagePartnerKey) else h.keys,
       rssi := if HostTakesRssi(h, p) then
                 (if |h.rssi| < 3 then h.rssi else h.rssi[1..]) + [if p.payload.Report? then p.payload.rssi else p.payload.remoteRssi]
               else h.rssi,
       transaction := if HostTakesRequest(h, p) then Transaction(true, p.id, error)
                      else if HostDropsRequest(h, p) then Transaction(false, 0, error)
                      else h.transaction,
       send := if HostTakesAck(h, p) then h.send.(status := AckOk) else h.send)
  }

  /** Whatever packet reaches the host. */
  lemma HostHearsExactly(h: Host, p: Packet, micros: nat)
    requires |h.rssi| <= 3
    ensures h.Receive(p, micros) == HostHeard(h, p, micros)
  {
  }

  /** The ack of its crypto start or of its switch-over moves the host on, in the stage that waits for it and for its session. */
  lemma HostAckedExactly(h: Host, header: nat, id: nat)
    ensures h.OnLinkAckReceived(header, id) ==
            h.(stage := if header == SHORT_WITH_ACK && h.session == id && h.link.AwaitingLink? && h.stage == 4 then 5
                        else if header == SHORT_WITH_ACK && h.session == id && h.link.Linking? && h.stage == 2 then 3
                        else h.stage)
  {
  }

  /** A ping is stamped when it is sent and measured when it is acknowledged, during the info sync only. */
  lemma HostPingsExactly(h: Host, id: nat, c: Chance)
    requires |h.meter.samples| <= 3
    ensures var syncs := h.link.Linking? && h.stage == 0;
            var took := (c.micros as int - h.meter.sentAt) % 0x1_0000_0000;
            var counts := syncs && h.meter.sentAt != 0xFFFF_FFFF && h.meter.sentId == id && took < 10000;
            && h.OnPreSend(c) == h.(meter := if syncs && h.send.frame.header == PING then Meter(c.micros, h.send.frame.id, h.meter.samples)
                                             else h.meter)
            && h.OnPingAckReceived(id, c) ==
               h.(pingAcked := h.pingAcked || counts,
                  meter := if counts then h.meter.(samples := (if |h.meter.samples| < 3 then h.meter.samples else h.meter.samples[1..]) + [took])
                           else h.meter)
  {
  }

  /** The request is being sent, in time and allowed: the service completes its packet as it goes to the driver. */
  predicate GoesToDriver<P>(s: Send<P>, env: Env) {
    s.pending && s.status.SendingPacket? && s.start != 0xFFFF_FFFF && Elapsed(env.now, s.start) <= s.sendTimeOut && env.allowed
  }

  /** Which hook a callback runs: the service with nothing pending, the pre-send hook as the packet goes to the driver, whether
      the driver takes it or not, and the ack's hook once it was acknowledged; otherwise only the request moves on. */
  lemma HostRunsExactly(h: Host, c: Chance)
    requires h.send.Valid() && h.meter.Valid() && h.syncGood <= 255
    ensures var g := h.(send := h.send.Callback(c.send).0);
            h.Callback(c) == (if !h.send.pending then HostServed(h, c)
                              else if GoesToDriver(h.send, c.send) then g.OnPreSend(c)
                              else if h.send.status.AckOk? && h.send.frame.header == PING then g.OnPingAckReceived(h.send.frame.id, c)
                              else if h.send.status.AckOk? then g.OnLinkAckReceived(h.send.frame.header, h.send.frame.id)
                              else g)
  {
    HostServesExactly(h, c);
    hide HostServed, Host.OnService, Host.OnPreSend, Host.OnPingAckReceived, Host.OnLinkAckReceived;
  }

  // ---------------------------------------------------------------------------------------------
  // The remote's service

  predicate RemoteLooks(r: Remote, c: Chance) {
    r.link.AwaitingLink? && !c.keysOld && !c.expired
  }

  predicate RemoteLinks(r: Remote, c: Chance) {
    r.link.Linking? && !c.expired
  }

  predicate RemoteGoesBack(r: Remote, c: Chance) {
    || r.link.Setup? || r.link.AwaitingSleeping?
    || (r.link.Linking? && (c.expired || r.stage > 3))
    || (r.link.Linked? && c.lost)
  }

  predicate RemoteFallsAsleep(r: Remote, c: Chance) {
    r.link.AwaitingLink? && !c.keysOld && c.expired
  }

  predicate RemoteCancels(r: Remote, c: Chance) {
    RemoteLooks(r, c) && (((r.stage == 2 || r.stage == 4) && c.subExpired) || (r.stage == 3 && !SecretOk(r.keys, c.sharedOk)))
  }

  predicate RemoteForgets(r: Remote, c: Chance) {
    RemoteGoesBack(r, c) || RemoteFallsAsleep(r, c) || RemoteCancels(r, c)
  }

  predicate RemoteStartsLinking(r: Remote, c: Chance) {
    RemoteLooks(r, c) && r.stage == 5
  }

  predicate RemoteFinishesLinking(r: Remote, c: Chance) {
    RemoteLinks(r, c) && r.stage == 3
  }

  /** The host's error moves the clock: in the clock sync, and while linked when no report is due. */
  predicate RemoteTunes(r: Remote, c: Chance) {
    r.request.ResultIn? && ((RemoteLinks(r, c) && r.stage == 1) || (r.link.Linked? && !c.lost && !c.report))
  }

  /** A new clock request: in the clock sync when none is out or the last one is stale; while linked when a tune is due and
      none is out. */
  predicate RemoteAsks(r: Remote, c: Chance) {
    || (RemoteLinks(r, c) && r.stage == 1 && c.resend && (!r.request.Requested? || c.stale))
    || (r.link.Linked? && !c.lost && !c.report && c.tune && r.request.Clear?)
  }

  function RemoteSends(r: Remote, c: Chance): Option<Packet> {
    if RemoteLooks(r, c) && r.stage == 0 && c.resend then Some(Frame(SHORT, r.session, false, LinkDiscovery))
    else if RemoteLooks(r, c) && r.stage == 2 && !c.subExpired && c.resend then Some(Frame(SHORT, r.session, false, PkcRequest(r.localId)))
    else if RemoteLooks(r, c) && r.stage == 4 && !c.subExpired && c.resend then Some(Frame(LONG, r.session, false, RemoteKey(r.keys.local)))
    else if RemoteLinks(r, c) && r.stage == 0 && r.info == 1 && c.resend then Some(Frame(REPORT, 0x50, false, RemoteInfo(c.rssi)))
    else if r.link.Linked? && !c.lost && c.report then Some(Frame(REPORT, 0x0A, false, Report(c.rssi)))
    else if RemoteAsks(r, c) then Some(Frame(SHORT, c.unused, false, if r.link.Linked? then TuneRequest(0) else NtpRequest(0)))
    else None
  }

  function RemoteServed(r: Remote, c: Chance): Remote {
    r.(link := if RemoteGoesBack(r, c) then AwaitingLink
               else if RemoteFallsAsleep(r, c) then AwaitingSleeping
               else if RemoteStartsLinking(r, c) then Linking
               else if RemoteFinishesLinking(r, c) then Linked
               else r.link,
       stage := if RemoteForgets(r, c) || RemoteStartsLinking(r, c) then 0
                else if RemoteLooks(r, c) && r.stage == 1 then 2
                else if RemoteLooks(r, c) && r.stage == 3 then 4
                else if RemoteLinks(r, c) && r.stage == 0 && r.info == 2 then 1
                else if RemoteLinks(r, c) && r.stage == 2 then 3
                else r.stage,
       info := if RemoteForgets(r, c) || RemoteStartsLinking(r, c) then 0 else r.info,
       session := if RemoteForgets(r, c) then 0 else r.session,
       keys := if (r.link.AwaitingLink? && c.keysOld) || RemoteGoesBack(r, c) then
                 (if c.keyOk then r.keys.(local := c.unused, stage := StageLocalKey)
                  else if RemoteGoesBack(r, c) then WithoutPartner(r.keys) else r.keys)
               else if RemoteForgets(r, c) then WithoutPartner(r.keys)
               else if RemoteLooks(r, c) && r.stage == 3 && r.keys.stage.StagePartnerKey? then
                 r.keys.(shared := {r.keys.local, r.keys.partner}, stage := StageSharedKey)
               else r.keys,
       encoder := if RemoteForgets(r, c) then Encoder(AllClear, Cipher(None, None))
                  else if RemoteLooks(r, c) && r.stage == 1 then
                    r.encoder.(cipher := r.encoder.cipher.(iv := Some(Iv(r.session, r.partner, r.localId))))
                  else if RemoteLooks(r, c) && r.stage == 3 then Encoder(AllReady, r.encoder.cipher.(key := Some(SecretOf(r.keys))))
                  else if RemoteStartsLinking(r, c) then r.encoder.(stage := Ready(r.encoder.stage))
                  else r.encoder,
       send := if RemoteSends(r, c).Some? then r.send.Request(RemoteSends(r, c).value, c.send.now) else r.send,
       rssi := if RemoteForgets(r, c) then [] else r.rssi,
       rtt := if RemoteForgets(r, c) then INVALID_LATENCY else r.rtt,
       request := if RemoteAsks(r, c) then Requested
                  else if RemoteForgets(r, c) || RemoteTunes(r, c) || RemoteFinishesLinking(r, c) then RequestStage.Clear
                  else r.request,
       requestId := if RemoteAsks(r, c) then c.unused
                    else if RemoteForgets(r, c) || RemoteTunes(r, c) || RemoteFinishesLinking(r, c) then 0 else r.requestId,
       result := if RemoteAsks(r, c) || RemoteForgets(r, c) || RemoteTunes(r, c) || RemoteFinishesLinking(r, c) then 0 else r.result,
       offset := if RemoteTunes(r, c) then (r.offset + r.result) % 0x1_0000_0000 else r.offset,
       tuned := if RemoteForgets(r, c) then None else if RemoteTunes(r, c) then Some(r.requestId) else r.tuned)
  }

  lemma RemoteServedLinked(r: Remote, c: Chance)
    requires r.link.Linked? && r.send.Valid()
    ensures r.OnService(c) == RemoteServed(r, c)
  {
  }

  lemma RemoteServedWaking(r: Remote, c: Chance)
    requires (r.link.Setup? || r.link.AwaitingSleeping? || r.link.Disabled?) && r.send.Valid()
    ensures r.OnService(c) == RemoteServed(r, c)
  {
  }

  lemma RemoteServedLooking(r: Remote, c: Chance)
    requires RemoteLooks(r, c) && r.send.Valid() && r.stage !in {3, 5}
    ensures r.OnService(c) == RemoteServed(r, c)
  {
  }

  lemma RemoteServedKeyed(r: Remote, c: Chance)
    requires RemoteLooks(r, c) && r.send.Valid() && r.stage in {3, 5}
    ensures r.OnService(c) == RemoteServed(r, c)
  {
  }

  lemma RemoteServedImpatient(r: Remote, c: Chance)
    requires r.link.AwaitingLink? && !RemoteLooks(r, c) && r.send.Valid()
    ensures r.OnService(c) == RemoteServed(r, c)
  {
  }

  lemma RemoteServedLinking(r: Remote, c: Chance)
    requires r.link.Linking? && r.send.Valid()
    ensures r.OnService(c) == RemoteServed(r, c)
  {
  }

  /** A run of the remote's service, through all handlers and changes of state. */
  lemma RemoteServesExactly(r: Remote, c: Chance)
    requires r.send.Valid()
    ensures r.OnService(c) == RemoteServed(r, c)
  {
    hide *;
    match r.link
    case Linked => RemoteServedLinked(r, c);
    case Linking => RemoteServedLinking(r, c);
    case AwaitingLink =>
      if !RemoteLooks(r, c) { RemoteServedImpatient(r, c); }
      else if r.stage in {3, 5} { RemoteServedKeyed(r, c); }
      else { RemoteServedLooking(r, c); }
    case _ => RemoteServedWaking(r, c);
  }

  // ---------------------------------------------------------------------------------------------
  // What the remote hears

  /** A broadcast means something to a remote that sleeps, searches, or is in an exchange with the same host that has not come
      to the keys. */
  predicate RemoteListens(r: Remote, p: Packet) {
    && p.payload.IdBroadcast?
    && (r.link.AwaitingSleeping?
        || (r.link.AwaitingLink? && r.stage == 0 && (r.session == 0 || r.partner == 0))
        || (r.link.AwaitingLink? && (r.stage == 1 || r.stage == 2) && r.session != 0 && r.partner != 0 && r.partner == p.payload.hostId))
  }

  predicate RemoteTakesKey(r: Remote, p: Packet) {
    && p.payload.HostKey? && r.link.AwaitingLink? && r.stage == 2
    && r.session != 0 && r.partner != 0 && r.session == p.id && r.keys.stage.StageLocalKey?
  }

  predicate RemoteTakesInfo(r: Remote, p: Packet) {
    p.payload.HostInfo? && r.link.Linking? && r.stage == 0 && r.info == 1
  }

  predicate RemoteTakesReply(r: Remote, p: Packet, c: Chance) {
    && r.request.Requested? && r.requestId == p.id
    && ((p.payload.NtpReply? && r.link.Linking? && r.stage == 1 && !c.stale) || (p.payload.TuneReply? && r.link.Linked?))
  }

  /** Waking from sleep forgets what was left of a session and draws a new key pair. */
  function Woken(r: Remote, p: Packet, c: Chance): Remote {
    if !(p.payload.IdBroadcast? && r.link.AwaitingSleeping?) then r
    else
      r.(link := AwaitingLink, stage := 0, info := 0, session := 0, rssi := [], rtt := INVALID_LATENCY,
         request := RequestStage.Clear, requestId := 0, result := 0, tuned := None, encoder := Encoder(AllClear, Cipher(None, None)),
         keys := if c.keyOk then r.keys.(local := c.unused, stage := StageLocalKey) else WithoutPartner(r.keys))
  }

  function RemoteHeard(r: Remote, p: Packet, c: Chance): Remote {
    Woken(r, p, c).(
      session := if RemoteListens(r, p) then p.id else r.session,
      partner := if RemoteListens(r, p) && p.id != 0 then p.payload.hostId else r.partner,
      stage := if RemoteListens(r, p) && p.id != 0 then 1
               else if RemoteTakesKey(r, p) then 3
               else Woken(r, p, c).stage,
      keys := if RemoteTakesKey(r, p) then r.keys.(partner := p.payload.pair, stage := StagePartnerKey) else Woken(r, p, c).keys,
      info := if p.payload.InfoRequest? && r.link.Linking? && r.stage == 0 && r.info == 0 then 1
              else if RemoteTakesInfo(r, p) then 2
              else Woken(r, p, c).info,
      rtt := if RemoteTakesInfo(r, p) then p.payload.rtt else Woken(r, p, c).rtt,
      rssi := if RemoteTakesInfo(r, p) then (if |r.rssi| < 3 then r.rssi else r.rssi[1..]) + [p.payload.hostRssi]
              else if p.payload.Report? && r.link.Linked? then (if |r.rssi| < 3 then r.rssi else r.rssi[1..]) + [p.payload.rssi]
              else Woken(r, p, c).rssi,
      request := if RemoteTakesReply(r, p, c) then ResultIn else Woken(r, p, c).request,
      result := if RemoteTakesReply(r, p, c) then (if p.payload.NtpReply? then p.payload.error else p.payload.tuneError)
                else Woken(r, p, c).result)
  }

  lemma RemoteHearsBroadcastExactly(r: Remote, p: Packet, c: Chance)
    requires |r.rssi| <= 3 && p.payload.IdBroadcast?
    ensures r.Receive(p, c) == RemoteHeard(r, p, c)
  {
  }

  lemma RemoteHearsOtherExactly(r: Remote, p: Packet, c: Chance)
    requires |r.rssi| <= 3 && !p.payload.IdBroadcast?
    ensures r.Receive(p, c) == RemoteHeard(r, p, c)
  {
  }

  /** Whatever packet that asks for no ack reaches the remote. */
  lemma RemoteHearsExactly(r: Remote, p: Packet, c: Chance)
    requires |r.rssi| <= 3
    ensures r.Receive(p, c) == RemoteHeard(r, p, c)
  {
    hide *;
    if p.payload.IdBroadcast? { RemoteHearsBroadcastExactly(r, p, c); } else { RemoteHearsOtherExactly(r, p, c); }
  }

  /** The host's crypto start is accepted in the stage that waits for it, in its session, if it decodes to the own id. */
  predicate RemoteAcceptsCrypto(r: Remote, p: Packet) {
    && p.payload.CryptoStart? && r.link.AwaitingLink? && r.stage == 4 && r.session != 0 && r.session == p.id
    && p.payload.cipher == r.encoder.cipher && p.payload.partnerId == r.localId
  }

  predicate RemoteAcceptsSwitch(r: Remote, p: Packet) {
    p.payload.SwitchOver? && r.link.Linking? && r.stage == 1 && r.session == p.id && p.payload.partnerId == r.localId
  }

  /** Exactly what is acknowledged, and what that does. */
  lemma RemoteAcksExactly(r: Remote, p: Packet)
    ensures var (q, ok) := r.ReceiveAcked(p);
            && (ok <==> (p.payload.Ping? && (r.link.Linking? || r.link.Linked?)) || RemoteAcceptsCrypto(r, p) || RemoteAcceptsSwitch(r, p))
            && q == r.(stage := if RemoteAcceptsCrypto(r, p) then 5 else if RemoteAcceptsSwitch(r, p) then 2 else r.stage)
  {
  }

  /** A clock request is completed as it is sent: the synchronized clock, and the transmission time of the round trip time that
      the host sent, if it did. */
  lemma RemoteCompletesExactly(r: Remote, c: Chance)
    ensures var reading := (c.micros + r.offset) % 0x1_0000_0000;
            var estimate := (reading + if r.rtt == 0xFFFF then 0 else r.rtt * 2 / 5) % 0x1_0000_0000;
            var frame := r.send.frame;
            r.OnPreSend(c) == r.(send := r.send.(frame := frame.(payload :=
              match frame.payload
              case NtpRequest(_) => NtpRequest(estimate)
              case TuneRequest(_) => TuneRequest(estimate)
              case payload => payload)))
  {
  }

  lemma RemoteRunsExactly(r: Remote, c: Chance)
    requires r.send.Valid()
    ensures var q := r.(send := r.send.Callback(c.send).0);
            r.Callback(c) == (if !r.send.pending then RemoteServed(r, c) else if GoesToDriver(r.send, c.send) then q.OnPreSend(c) else q)
  {
    RemoteServesExactly(r, c);
    hide RemoteServed, Remote.OnService, Remote.OnPreSend;
  }

  // ---------------------------------------------------------------------------------------------
  // Switched on and off

  /** Switching a service on starts it with nothing of a session left; switching it off from a link clears the session, from
      elsewhere only what is shared of it. */
  lemma HostSwitchesExactly(h: Host, c: Chance)
    ensures var g := h.UpdateLinkState(Setup, c);
            g.link.Setup? && (h.link != Setup ==> g == h.ClearSession(c).(link := Setup, stage := 0))
    ensures var g := h.UpdateLinkState(Disabled, c);
            && g.link.Disabled?
            && (!h.link.Disabled? ==>
                  g == (if h.link.Linked? then h.ClearSession(c) else h.(session := 0, rtt := INVALID_LATENCY, rssi := [])).(link := Disabled))
    ensures h.ClearSession(c) == h.(syncGood := 0, errors := [], offset := c.random % 0x1_0000_0000,
                                    transaction := h.transaction.(ready := false, id := 0), encoder := Encoder(AllClear, Cipher(None, None)),
                                    keys := WithoutPartner(h.keys), info := 0, meter := Meter(INVALID_MICROS, 0, []), session := 0,
                                    rtt := INVALID_LATENCY, rssi := [])
  {
  }

  lemma RemoteSwitchesExactly(r: Remote, c: Chance)
    ensures var q := r.UpdateLinkState(Setup, c);
            q.link.Setup? && (r.link != Setup ==> q == r.ClearSession().(link := Setup, stage := 0))
    ensures var q := r.UpdateLinkState(Disabled, c);
            && q.link.Disabled?
            && (!r.link.Disabled? ==>
                  q == (if r.link.Linked? then r.ClearSession() else r.(session := 0, rtt := INVALID_LATENCY, rssi := [])).(link := Disabled))
    ensures r.ClearSession() == r.(request := RequestStage.Clear, requestId := 0, result := 0, tuned := None,
                                   encoder := Encoder(AllClear, Cipher(None, None)), keys := WithoutPartner(r.keys), info := 0, session := 0,
                                   rtt := INVALID_LATENCY, rssi := [])
  {
  }
}
