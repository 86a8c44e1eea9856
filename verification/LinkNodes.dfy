/** The two link services as values (src/Services/Link). Elapsed-time tests, random numbers and failures of the curve
    library are decided by the environment of each step. */
module LinkNodes {
  import opened Common
  import opened LinkCrypto
  import opened SendService
  import opened Latency
  import Clock

  // Packet headers.
  const ACK: nat := 0
  const PING: nat := 1
  const SHORT: nat := 2
  const SHORT_WITH_ACK: nat := 3
  const LONG: nat := 4
  const REPORT: nat := 5

  const MIN_LATENCY_SAMPLES: nat := 2
  const RSSI_SAMPLES: nat := 3

  datatype LinkState = Disabled | Setup | AwaitingLink | AwaitingSleeping | Linking | Linked

  // LinkingState while awaiting a link, host and remote.
  const BROADCASTING: nat := 0
  const SEARCHING: nat := 0
  const VALIDATING: nat := 1
  const HOST_SENDING_KEY: nat := 2
  const HOST_PROCESSING: nat := 3
  const GOT_SHARED_KEY: nat := 4
  const AWAITING_HOST_KEY: nat := 2
  const REMOTE_PROCESSING: nat := 3
  const REMOTE_SENDING_KEY: nat := 4
  const SWITCH_OVER: nat := 5

  // LinkingState while linking, both ends.
  const INFO_SYNC: nat := 0
  const CLOCK_SYNC: nat := 1
  const PROTOCOL_SWITCH_OVER: nat := 2
  const LINKING_DONE: nat := 3

  // InfoSyncStage, host and remote.
  const MEASURING: nat := 0
  const REQUESTING_INFO: nat := 1
  const SENDING_HOST_INFO: nat := 2
  const AWAITING_REQUEST: nat := 0
  const SENDING_REMOTE_INFO: nat := 1
  const INFO_DONE: nat := 2

  datatype Payload =
    | LinkDiscovery
    | IdBroadcast(hostId: nat)
    | PkcRequest(remoteId: nat)
    | HostKey(pair: nat)
    | RemoteKey(pair: nat)
    | CryptoStart(cipher: Cipher, partnerId: nat)   // the id encrypted directly, under a key not yet in use
    | SwitchOver(partnerId: nat)
    | Ping
    | InfoRequest
    | HostInfo(hostRssi: nat, rtt: nat)
    | RemoteInfo(remoteRssi: nat)
    | NtpRequest(estimate: nat)    // the remote's estimate of the host's clock on arrival
    | NtpReply(error: int)
    | TuneRequest(tuneEstimate: nat)
    | TuneReply(tuneError: int)
    | Report(rssi: nat)
    | AckOf(header: nat)

  type Packet = Frame<Payload>

  function Short(id: nat, payload: Payload): Packet { Frame(SHORT, id, false, payload) }
  function ShortWithAck(id: nat, payload: Payload): Packet { Frame(SHORT_WITH_ACK, id, true, payload) }
  function Long(id: nat, payload: Payload): Packet { Frame(LONG, id, false, payload) }
  function ReportPacket(id: nat, payload: Payload): Packet { Frame(REPORT, id, false, payload) }
  function PingPacket(id: nat): Packet { Frame(PING, id, true, Ping) }
  function AckPacket(header: nat, id: nat): Packet { Frame(ACK, id, false, AckOf(header)) }

  /** Everything one step of a link service leaves to chance or to the clock. */
  datatype Chance = Chance(
    send: Env,
    expired: bool,       // the link state has lasted too long
    subExpired: bool,    // the key exchange has lasted too long
    sessionOld: bool,    // the host's session is past its life time
    keysOld: bool,       // the key pair is past its life time
    resend: bool,        // the resend period has passed
    stale: bool,         // the clock request is past its life time
    lost: bool,          // the partner has been silent for too long
    report: bool,        // a link report is due
    tune: bool,          // a clock tune is due
    keyOk: bool,         // uECC_make_key succeeds
    sharedOk: bool,      // uECC_shared_secret succeeds
    unused: nat,         // a number not used before, for a new session, key pair or clock request
    random: nat,
    micros: nat,         // the board's own counter
    rssi: nat)

  // ---------------------------------------------------------------------------------------------
  // Host

  datatype Transaction = Transaction(ready: bool, id: nat, result: int)

  datatype Host = Host(
    localId: nat,
    link: LinkState,
    stage: nat,            // LinkingState
    info: nat,             // InfoSyncStage
    session: nat,          // 0 is no session
    partner: nat,
    keys: KeyExchanger,
    encoder: Encoder,
    send: Send<Payload>,
    pingAcked: bool,
    meter: Meter,
    rssi: seq<nat>,        // the partner's
    rtt: nat,
    syncGood: nat,
    errors: seq<int>,      // history: the estimation errors since the last reset of the syncer
    offset: nat,           // of the synchronized clock
    transaction: Transaction)
  {
    function SetStage(s: nat): Host {
      this.(stage := s)
    }

    function ResetLinkInfo(): Host {
      this.(session := 0, rtt := INVALID_LATENCY, rssi := [])
    }

    /** The host starts every session from a random clock. */
    function ClearSession(c: Chance): Host {
      this.(syncGood := 0, errors := [], offset := Clock.Wrap(c.random), transaction := transaction.(ready := false, id := 0),
            encoder := encoder.Clear(), keys := keys.ClearPartner(), info := 0, meter := FRESH_METER)
      .ResetLinkInfo()
    }

    function NewSession(c: Chance): Host {
      ClearSession(c).(session := c.unused)
    }

    /** The work UpdateLinkState does before the OnLinkStateChanged hook. A failed SetEnabled makes a nested call. */
    function EnterState(newState: LinkState, c: Chance): Host
      decreases newState.Linking?, 0
    {
      var h := if link.Linked? then ClearSession(c) else this;
      match newState
      case Setup => h.SetStage(0).ClearSession(c)
      case AwaitingLink => h.ClearSession(c).SetStage(0)
      case AwaitingSleeping => h.ClearSession(c).SetStage(0)
      case Linking =>
        var (e, ok) := h.encoder.SetEnabled();
        if ok then h.SetStage(0).(encoder := e) else h.SetStage(0).UpdateLinkState(AwaitingLink, c)
      case Linked => h
      case Disabled => h.ResetLinkInfo()
    }

    function OnLinkStateChanged(newState: LinkState, c: Chance): Host {
      match newState
      case AwaitingLink => NewSession(c)
      case Linking => this.(info := MEASURING)
      case Linked => this.(transaction := transaction.(ready := false, id := 0))
      case _ => this
    }

    function UpdateLinkState(newState: LinkState, c: Chance): Host
      decreases newState.Linking?, 1
    {
      if link == newState then this
      else EnterState(newState, c).OnLinkStateChanged(newState, c).(link := newState)
    }

    function Request(p: Packet, c: Chance): Host {
      this.(send := send.Request(p, c.send.now))
    }

    function OnAwaitingLink(c: Chance): Host {
      if stage == BROADCASTING then
        var h := if session == 0 || c.sessionOld then NewSession(c) else this;
        if c.resend then h.Request(Short(h.session, IdBroadcast(localId)), c) else h
      else if stage == VALIDATING then
        this.(encoder := encoder.SetIvData(session, localId, partner)).SetStage(HOST_SENDING_KEY)
      else if stage == HOST_SENDING_KEY then
        if c.subExpired then ClearSession(c).SetStage(BROADCASTING)
        else if c.resend then Request(Long(session, HostKey(keys.local)), c)
        else this
      else if stage == HOST_PROCESSING then
        var (k, ok) := keys.GenerateSharedKey(c.sharedOk);
        if ok then this.(keys := k, encoder := encoder.SetSecretKey(k.shared)).SetStage(GOT_SHARED_KEY)
        else this.(keys := k).ClearSession(c).SetStage(BROADCASTING)
      else if stage == GOT_SHARED_KEY then
        if c.subExpired then ClearSession(c).SetStage(BROADCASTING)
        else if c.resend then Request(ShortWithAck(session, CryptoStart(encoder.cipher, partner)), c)
        else this
      else if stage == SWITCH_OVER then UpdateLinkState(Linking, c)
      else SetStage(0)
    }

    function OnInfoSync(c: Chance): Host {
      if info == MEASURING then
        if |meter.samples| >= MIN_LATENCY_SAMPLES then this.(rtt := meter.Average(), info := REQUESTING_INFO)
        else if pingAcked || c.resend then this.(pingAcked := false).Request(PingPacket(c.random), c)
        else this
      else if info == REQUESTING_INFO then
        if rssi != [] then this.(info := SENDING_HOST_INFO)
        else if c.resend then Request(ReportPacket(0x40, InfoRequest), c)
        else this
      else if info == SENDING_HOST_INFO then
        if c.resend then Request(ReportPacket(0x41, HostInfo(c.rssi, rtt)), c) else this
      else this
    }

    function OnEstimationReceived(error: int): Host {
      this.(syncGood := Clock.CountAfter(syncGood, error), errors := errors + [error])
    }

    function OnClockSync(c: Chance): Host {
      if transaction.ready then
        OnEstimationReceived(transaction.result)
        .(transaction := transaction.(ready := false, id := 0))
        .Request(Short(transaction.id, NtpReply(transaction.result)), c)
      else this
    }

    function OnLinking(c: Chance): Host {
      if stage == INFO_SYNC then OnInfoSync(c)
      else if stage == CLOCK_SYNC then
        if Clock.CountIsSynced(syncGood) then SetStage(PROTOCOL_SWITCH_OVER) else OnClockSync(c)
      else if stage == PROTOCOL_SWITCH_OVER then
        if c.resend then Request(ShortWithAck(session, SwitchOver(partner)), c) else this
      else if stage == LINKING_DONE then UpdateLinkState(Linked, c)
      else UpdateLinkState(AwaitingLink, c)
    }

    /** Reports come first; a clock tune request of the remote is answered otherwise. */
    function OnKeepingLink(c: Chance): Host {
      if c.report then Request(ReportPacket(0x0A, Report(c.rssi)), c)
      else if transaction.ready then
        OnEstimationReceived(transaction.result)
        .(transaction := transaction.(ready := false, id := 0))
        .Request(Short(transaction.id, TuneReply(transaction.result)), c)
      else this
    }

    function OnService(c: Chance): Host {
      match link
      case Setup => UpdateLinkState(AwaitingLink, c)
      case AwaitingLink =>
        if c.keysOld then this.(keys := keys.GenerateNewKeyPair(c.unused, c.keyOk))
        else if c.expired then UpdateLinkState(AwaitingSleeping, c)
        else OnAwaitingLink(c)
      case AwaitingSleeping => UpdateLinkState(AwaitingLink, c)
      case Linking => if c.expired then UpdateLinkState(AwaitingLink, c) else OnLinking(c)
      case Linked => if c.lost then UpdateLinkState(AwaitingLink, c) else OnKeepingLink(c)
      case Disabled => this
    }

    function OnPingAckReceived(id: nat, c: Chance): Host
      requires |meter.samples| <= MAX_SAMPLES
    {
      if link.Linking? && stage == INFO_SYNC then
        var (m, ok) := meter.OnAckReceived(c.micros, id);
        this.(meter := m, pingAcked := pingAcked || ok)
      else this
    }

    function OnLinkAckReceived(header: nat, id: nat): Host {
      if header != SHORT_WITH_ACK then this
      else if link.AwaitingLink? && stage == GOT_SHARED_KEY && session == id then SetStage(SWITCH_OVER)
      else if link.Linking? && stage == PROTOCOL_SWITCH_OVER && session == id then SetStage(LINKING_DONE)
      else this
    }

    function OnPreSend(c: Chance): Host {
      if link.Linking? && stage == INFO_SYNC && send.frame.header == PING then
        this.(meter := meter.OnAckPacketSent(c.micros, send.frame.id))
      else this
    }

    function Callback(c: Chance): Host
      requires send.Valid() && |meter.samples| <= MAX_SAMPLES
    {
      var (s, e) := send.Callback(c.send);
      var h := this.(send := s);
      match e
      case OnService => h.OnService(c)
      case OnAckReceived =>
        if send.frame.header == PING then h.OnPingAckReceived(send.frame.id, c) else h.OnLinkAckReceived(send.frame.header, send.frame.id)
      case Transmitted => h.OnPreSend(c)
      case Refused => h.OnPreSend(c)
      case OnSendRetrying => h.OnPreSend(c)
      case _ => h
    }

    /** By how much an estimate of the host's clock is off when the board's counter reads micros. */
    function EstimateError(micros: nat, estimate: nat): int {
      Clock.Signed(Clock.Wrap(micros + offset) as int - estimate)
    }

    function OnClockSyncRequestReceived(id: nat, estimate: nat, micros: nat): Host {
      if !link.Linking? then this
      else
        var h := this.(transaction := Transaction(true, id, EstimateError(micros, estimate)));
        if stage == INFO_SYNC then
          if |meter.samples| >= MIN_LATENCY_SAMPLES && rssi != [] then h.SetStage(CLOCK_SYNC) else h
        else if stage == CLOCK_SYNC then h
        else this.(transaction := Transaction(false, 0, EstimateError(micros, estimate)))
    }

    /** micros: the board's counter when the packet came in. */
    function Receive(p: Packet, micros: nat): Host
      requires |rssi| <= RSSI_SAMPLES
    {
      match p.payload
      case PkcRequest(id) =>
        if link.AwaitingLink? && stage == BROADCASTING && session != 0 && session == p.id then
          this.(partner := id).SetStage(VALIDATING)
        else this
      case RemoteKey(pair) =>
        if link.AwaitingLink? && stage == HOST_SENDING_KEY && session != 0 && session == p.id then
          var (k, ok) := keys.SetPartnerPublicKey(pair);
          if ok then this.(keys := k).SetStage(HOST_PROCESSING) else this
        else this
      case RemoteInfo(r) =>
        if link.Linking? && stage == INFO_SYNC then this.(rssi := AddForce(rssi, RSSI_SAMPLES, r)) else this
      case NtpRequest(estimate) => OnClockSyncRequestReceived(p.id, estimate, micros)
      case TuneRequest(estimate) =>
        if link.Linked? then this.(transaction := Transaction(true, p.id, EstimateError(micros, estimate))) else this
      case Report(r) => if link.Linked? then this.(rssi := AddForce(rssi, RSSI_SAMPLES, r)) else this
      case AckOf(header) => this.(send := send.ProcessAck(header, p.id))
      case _ => this
    }
  }

  // ---------------------------------------------------------------------------------------------
  // Remote

  datatype RequestStage = Clear | Requested | ResultIn

  datatype Remote = Remote(
    localId: nat,
    link: LinkState,
    stage: nat,
    info: nat,
    session: nat,
    partner: nat,
    keys: KeyExchanger,
    encoder: Encoder,
    send: Send<Payload>,
    rssi: seq<nat>,
    rtt: nat,
    request: RequestStage,   // the clock transaction
    requestId: nat,
    result: int,
    offset: nat,             // of the synchronized clock
    tuned: Option<nat>)      // history: the request whose result moved the clock last in this session
  {
    function SetStage(s: nat): Remote {
      this.(stage := s)
    }

    predicate HasSession() {
      session != 0 && partner != 0
    }

    function ResetLinkInfo(): Remote {
      this.(session := 0, rtt := INVALID_LATENCY, rssi := [])
    }

    function ResetTransaction(): Remote {
      this.(request := RequestStage.Clear, requestId := 0, result := 0)
    }

    /** A request goes out under a new id; its estimate is filled in when it is sent. */
    function AskClock(payload: Payload, c: Chance): Remote {
      this.(request := Requested, requestId := c.unused).Request(Short(c.unused, payload), c)
    }

    /** The error the host reported moves the clock. */
    function UseResult(): Remote {
      this.(offset := Clock.Wrap(offset + result), tuned := Some(requestId)).ResetTransaction()
    }

    /** The driver's estimated transmission time is 0 until a round trip time is set. */
    function Ettm(): nat {
      if rtt == INVALID_LATENCY then 0 else Latency.Ettm(rtt)
    }

    function ClearSession(): Remote {
      this.(request := RequestStage.Clear, requestId := 0, result := 0, tuned := None,
            encoder := encoder.Clear(), keys := keys.ClearPartner(), info := 0)
      .ResetLinkInfo()
    }

    function EnterState(newState: LinkState, c: Chance): Remote
      decreases newState.Linking?, 0
    {
      var r := if link.Linked? then ClearSession() else this;
      match newState
      case Setup => r.SetStage(0).ClearSession()
      case AwaitingLink => r.ClearSession().SetStage(0)
      case AwaitingSleeping => r.ClearSession().SetStage(0)
      case Linking =>
        var (e, ok) := r.encoder.SetEnabled();
        if ok then r.SetStage(0).(encoder := e) else r.SetStage(0).UpdateLinkState(AwaitingLink, c)
      case Linked => r
      case Disabled => r.ResetLinkInfo()
    }

    function OnLinkStateChanged(newState: LinkState, c: Chance): Remote {
      match newState
      case AwaitingLink => this.(keys := keys.GenerateNewKeyPair(c.unused, c.keyOk))
      case Linking => this.(info := AWAITING_REQUEST)
      case Linked => ResetTransaction()
      case _ => this
    }

    function UpdateLinkState(newState: LinkState, c: Chance): Remote
      decreases newState.Linking?, 1
    {
      if link == newState then this
      else EnterState(newState, c).OnLinkStateChanged(newState, c).(link := newState)
    }

    function Request(p: Packet, c: Chance): Remote {
      this.(send := send.Request(p, c.send.now))
    }

    function OnAwaitingLink(c: Chance): Remote {
      if stage == SEARCHING then
        if c.resend then Request(Short(session, LinkDiscovery), c) else this
      else if stage == VALIDATING then
        this.(encoder := encoder.SetIvData(session, partner, localId)).SetStage(AWAITING_HOST_KEY)
      else if stage == AWAITING_HOST_KEY then
        if c.subExpired then ClearSession().SetStage(SEARCHING)
        else if c.resend then Request(Short(session, PkcRequest(localId)), c)
        else this
      else if stage == REMOTE_PROCESSING then
        var (k, ok) := keys.GenerateSharedKey(c.sharedOk);
        if ok then this.(keys := k, encoder := encoder.SetSecretKey(k.shared)).SetStage(REMOTE_SENDING_KEY)
        else this.(keys := k).ClearSession().SetStage(SEARCHING)
      else if stage == REMOTE_SENDING_KEY then
        if c.subExpired then ClearSession().SetStage(SEARCHING)
        else if c.resend then Request(Long(session, RemoteKey(keys.local)), c)
        else this
      else if stage == SWITCH_OVER then UpdateLinkState(Linking, c)
      else this
    }

    function OnClockSync(c: Chance): Remote {
      var r := if request.ResultIn? then UseResult() else this;
      if (!r.request.Requested? || c.stale) && c.resend then r.ResetTransaction().AskClock(NtpRequest(0), c) else r
    }

    function OnLinking(c: Chance): Remote {
      if stage == INFO_SYNC then
        if info == SENDING_REMOTE_INFO then
          if c.resend then Request(ReportPacket(0x50, RemoteInfo(c.rssi)), c) else this
        else if info == INFO_DONE then SetStage(CLOCK_SYNC)
        else this
      else if stage == CLOCK_SYNC then OnClockSync(c)
      else if stage == PROTOCOL_SWITCH_OVER then SetStage(LINKING_DONE)
      else if stage == LINKING_DONE then UpdateLinkState(Linked, c)
      else UpdateLinkState(AwaitingLink, c)
    }

    function OnKeepingLink(c: Chance): Remote {
      if c.report then Request(ReportPacket(0x0A, Report(c.rssi)), c)
      else if request.ResultIn? then UseResult()
      else if c.tune && !request.Requested? then ResetTransaction().AskClock(TuneRequest(0), c)
      else this
    }

    function OnService(c: Chance): Remote {
      match link
      case Setup => UpdateLinkState(AwaitingLink, c)
      case AwaitingLink =>
        if c.keysOld then this.(keys := keys.GenerateNewKeyPair(c.unused, c.keyOk))
        else if c.expired then UpdateLinkState(AwaitingSleeping, c)
        else OnAwaitingLink(c)
      case AwaitingSleeping => UpdateLinkState(AwaitingLink, c)
      case Linking => if c.expired then UpdateLinkState(AwaitingLink, c) else OnLinking(c)
      case Linked => if c.lost then UpdateLinkState(AwaitingLink, c) else OnKeepingLink(c)
      case Disabled => this
    }

    /** A clock request gets its estimate as late as possible: what the host's clock should read when it arrives. */
    function OnPreSend(c: Chance): Remote {
      var estimate := Clock.Wrap(Clock.Wrap(c.micros + offset) + Ettm());
      match send.frame.payload
      case NtpRequest(_) => this.(send := send.(frame := send.frame.(payload := NtpRequest(estimate))))
      case TuneRequest(_) => this.(send := send.(frame := send.frame.(payload := TuneRequest(estimate))))
      case _ => this
    }

    function Callback(c: Chance): Remote
      requires send.Valid()
    {
      var (s, e) := send.Callback(c.send);
      var r := this.(send := s);
      match e
      case OnService => r.OnService(c)
      case Transmitted => r.OnPreSend(c)
      case Refused => r.OnPreSend(c)
      case OnSendRetrying => r.OnPreSend(c)
      case _ => r
    }

    /** A session id of 0 is stored but not accepted. */
    function OnIdBroadcastReceived(sessionId: nat, hostId: nat, c: Chance): Remote {
      var r := if link.AwaitingSleeping? then UpdateLinkState(AwaitingLink, c) else this;
      if !r.link.AwaitingLink? then r
      else if r.stage == SEARCHING then
        if r.HasSession() then r
        else if sessionId == 0 then r.(session := 0)
        else r.(session := sessionId, partner := hostId).SetStage(VALIDATING)
      else if r.stage == VALIDATING || r.stage == AWAITING_HOST_KEY then
        if !(r.HasSession() && r.partner == hostId) then r
        else if sessionId == 0 then r.(session := 0)
        else r.(session := sessionId).SetStage(VALIDATING)
      else r
    }

    function Receive(p: Packet, c: Chance): Remote
      requires |rssi| <= RSSI_SAMPLES
    {
      match p.payload
      case IdBroadcast(hostId) => OnIdBroadcastReceived(p.id, hostId, c)
      case HostKey(pair) =>
        if link.AwaitingLink? && stage == AWAITING_HOST_KEY && HasSession() && session == p.id then
          var (k, ok) := keys.SetPartnerPublicKey(pair);
          if ok then this.(keys := k).SetStage(REMOTE_PROCESSING) else this
        else this
      case InfoRequest =>
        if link.Linking? && stage == INFO_SYNC && info == AWAITING_REQUEST then this.(info := SENDING_REMOTE_INFO) else this
      case HostInfo(r, t) =>
        if link.Linking? && stage == INFO_SYNC && info == SENDING_REMOTE_INFO then
          this.(rtt := t, rssi := AddForce(rssi, RSSI_SAMPLES, r), info := INFO_DONE)
        else this
      case NtpReply(e) =>
        if link.Linking? && stage == CLOCK_SYNC && request.Requested? && requestId == p.id && !c.stale then
          this.(request := ResultIn, result := e)
        else this
      case TuneReply(e) =>
        if link.Linked? && request.Requested? && requestId == p.id then this.(request := ResultIn, result := e) else this
      case Report(r) => if link.Linked? then this.(rssi := AddForce(rssi, RSSI_SAMPLES, r)) else this
      case _ => this
    }

    /** Packets that ask for an ack: the result says whether the driver acknowledges. */
    function ReceiveAcked(p: Packet): (Remote, bool) {
      match p.payload
      case Ping => (this, link.Linking? || link.Linked?)
      case CryptoStart(cipher, id) =>
        if link.AwaitingLink? && stage == REMOTE_SENDING_KEY && session != 0 && session == p.id
           && cipher == encoder.cipher && id == localId then (SetStage(SWITCH_OVER), true)
        else (this, false)
      case SwitchOver(id) =>
        if link.Linking? && stage == CLOCK_SYNC && session == p.id && id == localId then (SetStage(PROTOCOL_SWITCH_OVER), true)
        else (this, false)
      case _ => (this, false)
    }
  }
}
