/** The clocks of the two ends over whole runs of the handshake: which exchange the remote's clock was last set by, by how
    much the host's is ahead of it since, and what that means for the half-duplex slots of a linked pair. */
module LinkClocks {
  import opened Common
  import opened LinkCrypto
  import opened SendService
  import opened LinkNodes
  import opened LinkSystem
  import Clock
  import Duplex
  import Latency

  function PairOf(clocks: Clocks, hostOffset: nat, remoteOffset: nat): Clock.Pair {
    Clock.Pair(Clock.Board(clocks.hostBase, hostOffset), Clock.Board(clocks.remoteBase, remoteOffset))
  }

  /** What the request carried: the remote's estimate of the host's clock. */
  function Estimate(clocks: Clocks, q: Asked): nat {
    Clock.Wrap(Clock.Wrap(Clock.Wrap(clocks.remoteBase + q.at) + q.offset) + q.ettm)
  }

  /** By how much it was off for a host with this offset that hears it at time t. */
  function ErrorAt(clocks: Clocks, q: Asked, offset: nat, t: nat): int {
    Clock.Signed(Clock.Wrap(Clock.Wrap(clocks.hostBase + t) + offset) as int - Estimate(clocks, q))
  }

  /** The request was heard at time t. */
  predicate HeardAt(trips: Trips, id: nat, t: nat) {
    id in trips.asked && (id, t) in trips.heard && trips.asked[id].at <= t
  }

  /** The error is that of the request, at one of the times at which the host heard it. */
  ghost predicate Answers(clocks: Clocks, trips: Trips, id: nat, error: int, offset: nat) {
    exists t: nat :: HeardAt(trips, id, t) && error == ErrorAt(clocks, trips.asked[id], offset, t)
  }

  /** The host is ahead of the remote by the ETTM less the flight of that request. */
  predicate LeadsBy(clocks: Clocks, q: Asked, t: nat, hostOffset: nat, remoteOffset: nat)
    requires q.at <= t
  {
    PairOf(clocks, hostOffset, remoteOffset).Lead() == Clock.Wrap(q.ettm - (t - q.at))
  }

  ghost predicate SetBy(clocks: Clocks, trips: Trips, id: nat, hostOffset: nat, remoteOffset: nat) {
    exists t: nat :: HeardAt(trips, id, t) && LeadsBy(clocks, trips.asked[id], t, hostOffset, remoteOffset)
  }

  lemma ErrorIsEstimationError(clocks: Clocks, q: Asked, offset: nat, t: nat)
    requires q.at <= t
    ensures ErrorAt(clocks, q, offset, t) == Clock.EstimationError(PairOf(clocks, offset, q.offset), q.at, t - q.at, q.ettm)
  {
    assert clocks.hostBase + t == clocks.hostBase + (q.at + (t - q.at));
    hide Clock.Wrap, Clock.Signed;
  }

  /** The result of a request that was sent with the offset the remote still has sets the remote's clock. */
  lemma ResultSets(clocks: Clocks, trips: Trips, id: nat, error: int, hostOffset: nat, remoteOffset: nat)
    requires Answers(clocks, trips, id, error, hostOffset) && id in trips.asked && trips.asked[id].offset == remoteOffset
    ensures SetBy(clocks, trips, id, hostOffset, Clock.Wrap(remoteOffset + error))
  {
    hide Clock.Wrap, Clock.Signed, Clock.EstimationError, ErrorAt;
    var t: nat :| HeardAt(trips, id, t) && error == ErrorAt(clocks, trips.asked[id], hostOffset, t);
    var q := trips.asked[id];
    ErrorIsEstimationError(clocks, q, hostOffset, t);
    Clock.ExchangeLeavesFlightError(PairOf(clocks, hostOffset, remoteOffset), q.at, t - q.at, q.ettm);
    assert LeadsBy(clocks, q, t, hostOffset, Clock.Wrap(remoteOffset + error));
  }

  // ---------------------------------------------------------------------------------------------
  // The invariant

  predicate PastInfo(r: Remote) {
    r.link.Linked? || r.stage > INFO_SYNC
  }

  ghost predicate TripsOk(s: System) {
    && (forall id :: id in s.trips.asked ==> id < s.past.unused && s.trips.asked[id].at <= s.clocks.now)
    && (forall n :: n in s.trips.offsets ==> n < s.past.unused)
  }

  ghost predicate LinkedClock(r: Remote, clocks: Clocks, trips: Trips) {
    && (!r.request.Clear? ==> PastInfo(r))
    && (!r.request.Clear? && r.requestId in trips.asked ==>
          trips.asked[r.requestId].offset == r.offset && trips.asked[r.requestId].ettm == r.Ettm())
    && (r.request.ResultIn? ==>
          r.requestId in trips.asked && r.session in trips.offsets && Answers(clocks, trips, r.requestId, r.result, trips.offsets[r.session]))
    && (r.tuned.Some? ==>
          && PastInfo(r) && r.tuned.value in trips.asked && trips.asked[r.tuned.value].ettm == r.Ettm()
          && r.session in trips.offsets && SetBy(clocks, trips, r.tuned.value, trips.offsets[r.session], r.offset))
  }

  ghost predicate RemoteClock(r: Remote, clocks: Clocks, trips: Trips, unused: nat) {
    && r.requestId < unused
    && (r.send.pending && AsksClock(r.send.frame.payload) ==>
          r.send.frame.id < unused && (r.send.status.SendingPacket? ==> r.send.frame.id !in trips.asked))
    && (r.link in {Setup, AwaitingLink, AwaitingSleeping} ==> r.request.Clear? && r.tuned.None?)
    && (IsLinking(r.link) ==> LinkedClock(r, clocks, trips))
  }

  predicate IsReply(payload: Payload) {
    payload.NtpReply? || payload.TuneReply?
  }

  function ErrorOf(payload: Payload): int
    requires IsReply(payload)
  {
    if payload.NtpReply? then payload.error else payload.tuneError
  }

  ghost predicate HostClock(h: Host, clocks: Clocks, trips: Trips) {
    && (h.session != 0 ==> h.session in trips.offsets && trips.offsets[h.session] == h.offset)
    && (h.transaction.ready ==> Answers(clocks, trips, h.transaction.id, h.transaction.result, h.offset))
    && (IsLinking(h.link) && h.send.pending && IsReply(h.send.frame.payload) ==>
          Answers(clocks, trips, h.send.frame.id, ErrorOf(h.send.frame.payload), h.offset))
  }

  predicate RequestOk(p: AirPacket, clocks: Clocks, trips: Trips) {
    match p.frame.payload
    case NtpRequest(e) => p.frame.id in trips.asked && e == Estimate(clocks, trips.asked[p.frame.id])
    case TuneRequest(e) => p.frame.id in trips.asked && e == Estimate(clocks, trips.asked[p.frame.id])
    case _ => true
  }

  ghost predicate ReplyOk(p: AirPacket, clocks: Clocks, trips: Trips) {
    IsReply(p.frame.payload) && p.cipher.Some? ==>
      && p.cipher.value.iv.Some? && p.cipher.value.iv.value.session in trips.offsets
      && Answers(clocks, trips, p.frame.id, ErrorOf(p.frame.payload), trips.offsets[p.cipher.value.iv.value.session])
  }

  ghost predicate ClockInv(s: System) {
    && TripsOk(s) && RemoteClock(s.r, s.clocks, s.trips, s.past.unused) && HostClock(s.h, s.clocks, s.trips)
    && (forall p :: p in s.toHost ==> RequestOk(p, s.clocks, s.trips))
    && (forall p :: p in s.toRemote ==> ReplyOk(p, s.clocks, s.trips))
  }

  lemma StartClockInv(hostId: nat, remoteId: nat, clocks: Clocks)
    ensures ClockInv(Start(hostId, remoteId, clocks))
  {
  }

  /** Nothing recorded is changed later. */
  ghost predicate TripsGrow(trips: Trips, next: Trips) {
    && (forall id :: id in trips.asked ==> id in next.asked && next.asked[id] == trips.asked[id])
    && trips.heard <= next.heard
    && (forall n :: n in trips.offsets ==> n in next.offsets && next.offsets[n] == trips.offsets[n])
  }

  lemma AnswersStays(clocks: Clocks, trips: Trips, next: Trips, id: nat, error: int, offset: nat)
    requires TripsGrow(trips, next) && Answers(clocks, trips, id, error, offset)
    ensures Answers(clocks, next, id, error, offset)
  {
    hide ErrorAt;
    var t: nat :| HeardAt(trips, id, t) && error == ErrorAt(clocks, trips.asked[id], offset, t);
    assert HeardAt(next, id, t);
  }

  lemma SetByStays(clocks: Clocks, trips: Trips, next: Trips, id: nat, hostOffset: nat, remoteOffset: nat)
    requires TripsGrow(trips, next) && SetBy(clocks, trips, id, hostOffset, remoteOffset)
    ensures SetBy(clocks, next, id, hostOffset, remoteOffset)
  {
    hide LeadsBy;
    var t: nat :| HeardAt(trips, id, t) && LeadsBy(clocks, trips.asked[id], t, hostOffset, remoteOffset);
    assert HeardAt(next, id, t);
  }

  lemma ReplyStays(p: AirPacket, clocks: Clocks, trips: Trips, next: Trips)
    requires TripsGrow(trips, next) && ReplyOk(p, clocks, trips)
    ensures ReplyOk(p, clocks, next)
  {
    hide Answers;
    if IsReply(p.frame.payload) && p.cipher.Some? {
      AnswersStays(clocks, trips, next, p.frame.id, ErrorOf(p.frame.payload), trips.offsets[p.cipher.value.iv.value.session]);
    }
  }

  lemma RequestStays(p: AirPacket, clocks: Clocks, trips: Trips, next: Trips)
    requires TripsGrow(trips, next) && RequestOk(p, clocks, trips)
    ensures RequestOk(p, clocks, next)
  {
    hide Estimate;
  }

  lemma HostClockStays(h: Host, clocks: Clocks, trips: Trips, next: Trips)
    requires TripsGrow(trips, next) && HostClock(h, clocks, trips)
    ensures HostClock(h, clocks, next)
  {
    hide Answers;
    if h.transaction.ready {
      AnswersStays(clocks, trips, next, h.transaction.id, h.transaction.result, h.offset);
    }
    if IsLinking(h.link) && h.send.pending && IsReply(h.send.frame.payload) {
      AnswersStays(clocks, trips, next, h.send.frame.id, ErrorOf(h.send.frame.payload), h.offset);
    }
  }

  /** What the host adds leaves the remote's clock as it is; asked is added to in another way. */
  lemma RemoteClockStays(r: Remote, clocks: Clocks, trips: Trips, next: Trips, unused: nat, later: nat)
    requires TripsGrow(trips, next) && next.asked == trips.asked && RemoteClock(r, clocks, trips, unused) && unused <= later
    ensures RemoteClock(r, clocks, next, later)
  {
    hide Answers, SetBy;
    if IsLinking(r.link) && r.request.ResultIn? {
      AnswersStays(clocks, trips, next, r.requestId, r.result, trips.offsets[r.session]);
    }
    if IsLinking(r.link) && r.tuned.Some? {
      SetByStays(clocks, trips, next, r.tuned.value, trips.offsets[r.session], r.offset);
    }
  }

  // ---------------------------------------------------------------------------------------------
  // Remote steps

  /** Ids that are not used yet were not asked with. */
  predicate NewIds(trips: Trips, unused: nat) {
    forall id :: id in trips.asked ==> id < unused
  }

  ghost predicate RemoteClockReady(r: Remote, clocks: Clocks, trips: Trips, c: Chance) {
    RemoteClock(r, clocks, trips, c.unused) && NewIds(trips, c.unused)
  }

  lemma UpdateKeepsRemoteClock(r: Remote, clocks: Clocks, trips: Trips, c: Chance, newState: LinkState)
    requires RemoteClockReady(r, clocks, trips, c)
    requires newState in {Disabled, Setup, AwaitingLink, AwaitingSleeping} || (newState.Linking? && r.link.AwaitingLink?)
             || (newState.Linked? && r.link.Linking? && r.stage > INFO_SYNC)
    ensures RemoteClock(r.UpdateLinkState(newState, c), clocks, trips, c.unused + 1)
  {
    hide Answers, SetBy;
  }

  lemma AwaitingKeepsRemoteClock(r: Remote, clocks: Clocks, trips: Trips, c: Chance)
    requires RemoteClockReady(r, clocks, trips, c) && r.link.AwaitingLink?
    ensures RemoteClock(r.OnAwaitingLink(c), clocks, trips, c.unused + 1)
  {
    UpdateKeepsRemoteClock(r, clocks, trips, c, Linking);
    hide Answers, SetBy, LinkedClock, Remote.UpdateLinkState;
    hide Encoder.SetIvData, Encoder.SetSecretKey, KeyExchanger.GenerateSharedKey, KeyExchanger.ClearPartner;
  }

  lemma UseResultKeepsClock(r: Remote, clocks: Clocks, trips: Trips, c: Chance)
    requires RemoteClockReady(r, clocks, trips, c) && IsLinking(r.link) && r.request.ResultIn?
    ensures RemoteClockReady(r.UseResult(), clocks, trips, c)
  {
    ResultSets(clocks, trips, r.requestId, r.result, trips.offsets[r.session], r.offset);
    hide Answers, SetBy, Clock.Wrap;
  }

  lemma AskKeepsClock(r: Remote, clocks: Clocks, trips: Trips, c: Chance, payload: Payload)
    requires RemoteClockReady(r, clocks, trips, c) && IsLinking(r.link) && PastInfo(r)
    ensures RemoteClock(r.ResetTransaction().AskClock(payload, c), clocks, trips, c.unused + 1)
  {
    hide Answers, SetBy;
  }

  lemma LinkingKeepsRemoteClock(r: Remote, clocks: Clocks, trips: Trips, c: Chance)
    requires RemoteClockReady(r, clocks, trips, c) && r.link.Linking?
    ensures RemoteClock(r.OnLinking(c), clocks, trips, c.unused + 1)
  {
    UpdateKeepsRemoteClock(r, clocks, trips, c, AwaitingLink);
    if r.stage == LINKING_DONE { UpdateKeepsRemoteClock(r, clocks, trips, c, Linked); }
    if r.stage == CLOCK_SYNC {
      var q := if r.request.ResultIn? then r.UseResult() else r;
      if r.request.ResultIn? { UseResultKeepsClock(r, clocks, trips, c); }
      AskKeepsClock(q, clocks, trips, c, NtpRequest(0));
    }
    hide Answers, SetBy, Remote.UpdateLinkState, Remote.UseResult;
  }

  lemma LinkedKeepsRemoteClock(r: Remote, clocks: Clocks, trips: Trips, c: Chance)
    requires RemoteClockReady(r, clocks, trips, c) && r.link.Linked?
    ensures RemoteClock(r.OnKeepingLink(c), clocks, trips, c.unused + 1)
  {
    if r.request.ResultIn? { UseResultKeepsClock(r, clocks, trips, c); }
    AskKeepsClock(r, clocks, trips, c, TuneRequest(0));
    hide Answers, SetBy, Remote.UseResult, Remote.AskClock;
  }

  lemma ServiceKeepsRemoteClock(r: Remote, clocks: Clocks, trips: Trips, c: Chance)
    requires RemoteClockReady(r, clocks, trips, c)
    ensures RemoteClock(r.OnService(c), clocks, trips, c.unused + 1)
  {
    UpdateKeepsRemoteClock(r, clocks, trips, c, AwaitingLink);
    UpdateKeepsRemoteClock(r, clocks, trips, c, AwaitingSleeping);
    match r.link
    case AwaitingLink => AwaitingKeepsRemoteClock(r, clocks, trips, c); hide Answers, SetBy, Remote.OnAwaitingLink, Remote.UpdateLinkState;
    case Linking => LinkingKeepsRemoteClock(r, clocks, trips, c); hide Answers, SetBy, Remote.OnLinking, Remote.UpdateLinkState;
    case Linked => LinkedKeepsRemoteClock(r, clocks, trips, c); hide Answers, SetBy, Remote.OnKeepingLink, Remote.UpdateLinkState;
    case _ => hide Answers, SetBy, Remote.UpdateLinkState;
  }

  lemma CallbackKeepsRemoteClock(r: Remote, clocks: Clocks, trips: Trips, c: Chance)
    requires RemoteClockReady(r, clocks, trips, c) && r.send.Valid() && !r.send.Callback(c.send).1.Transmitted?
    ensures RemoteClock(r.Callback(c), clocks, trips, c.unused + 1)
  {
    var (t, e) := r.send.Callback(c.send);
    if e.OnService? {
      assert r.(send := t) == r;
      ServiceKeepsRemoteClock(r, clocks, trips, c);
      hide Answers, SetBy, Remote.OnService;
    } else {
      assert t.status.SendingPacket? ==> r.send.status.SendingPacket?;
      hide Answers, SetBy, Remote.OnService;
    }
  }

  /** Transmitting completes a clock request and leaves everything else of the remote but the send machine's status. */
  lemma TransmitCompletes(r: Remote, c: Chance)
    requires r.send.Valid() && r.send.Callback(c.send).1.Transmitted?
    ensures var q := r.Callback(c);
            var estimate := Clock.Wrap(Clock.Wrap(c.micros + r.offset) + r.Ettm());
            && q == r.(send := q.send) && r.send.pending && r.send.status.SendingPacket? && !q.send.status.SendingPacket?
            && q.send.frame == r.send.frame.(payload := q.send.frame.payload)
            && match r.send.frame.payload
               case NtpRequest(_) => q.send.frame.payload == NtpRequest(estimate)
               case TuneRequest(_) => q.send.frame.payload == TuneRequest(estimate)
               case payload => q.send.frame.payload == payload
  {
  }

  lemma TransmitAsks(s: System, c: Chance)
    requires Shape(s) && RemoteClock(s.r, s.clocks, s.trips, s.past.unused) && TripsOk(s)
    requires s.r.send.Callback(c.send).1.Transmitted?
    ensures var t := RemoteCalls(s, RemoteChance(s, c));
            && TripsGrow(s.trips, t.trips) && TripsOk(t) && t.h == s.h && t.toRemote == s.toRemote && t.clocks == s.clocks
  {
    TransmitCompletes(s.r, RemoteChance(s, c));
    hide Remote.Callback, LinkedClock, Clock.Wrap, Remote.Ettm;
  }

  lemma TransmitFits(s: System, c: Chance)
    requires Shape(s) && s.r.send.Callback(c.send).1.Transmitted?
    ensures var t := RemoteCalls(s, RemoteChance(s, c));
            && (forall p :: p in t.toHost ==> p in s.toHost || RequestOk(p, s.clocks, t.trips))
            && RemoteFitsRecord(s, t)
  {
    TransmitCompletes(s.r, RemoteChance(s, c));
    hide Remote.Callback, Clock.Wrap, Remote.Ettm;
  }

  /** Transmitting records the request under an id that was not asked with before. */
  lemma TransmitRecords(s: System, c: Chance)
    requires Shape(s) && RemoteClock(s.r, s.clocks, s.trips, s.past.unused) && TripsOk(s)
    requires s.r.send.Callback(c.send).1.Transmitted?
    ensures var t := RemoteCalls(s, RemoteChance(s, c));
            && TripsGrow(s.trips, t.trips) && TripsOk(t) && t.h == s.h && t.toRemote == s.toRemote && t.clocks == s.clocks
            && (forall p :: p in t.toHost ==> p in s.toHost || RequestOk(p, s.clocks, t.trips))
            && RemoteFitsRecord(s, t)
  {
    TransmitAsks(s, c);
    TransmitFits(s, c);
    hide *;
  }

  /** Of the remote only the frame has changed, and if it is the request that is out, it was recorded as it is. */
  predicate RemoteFitsRecord(s: System, t: System) {
    && t.r == s.r.(send := t.r.send) && !t.r.send.status.SendingPacket? && t.r.send.frame.id == s.r.send.frame.id
    && (AsksClock(t.r.send.frame.payload) ==> AsksClock(s.r.send.frame.payload)) && s.r.send.pending
    && t.trips.offsets == s.trips.offsets
    && forall id :: id in t.trips.asked && id !in s.trips.asked ==>
         t.trips.asked[id].offset == s.r.offset && t.trips.asked[id].ettm == s.r.Ettm()
  }

  lemma RecordKeepsRemoteClock(s: System, t: System)
    requires RemoteClock(s.r, s.clocks, s.trips, s.past.unused) && TripsGrow(s.trips, t.trips) && RemoteFitsRecord(s, t)
    ensures RemoteClock(t.r, s.clocks, t.trips, s.past.unused + 1)
  {
    hide Answers, SetBy;
    if IsLinking(s.r.link) && s.r.request.ResultIn? {
      AnswersStays(s.clocks, s.trips, t.trips, s.r.requestId, s.r.result, s.trips.offsets[s.r.session]);
    }
    if IsLinking(s.r.link) && s.r.tuned.Some? {
      SetByStays(s.clocks, s.trips, t.trips, s.r.tuned.value, s.trips.offsets[s.r.session], s.r.offset);
    }
  }

  lemma AckedKeepsRemoteClock(r: Remote, clocks: Clocks, trips: Trips, unused: nat, p: Packet)
    requires RemoteClock(r, clocks, trips, unused)
    ensures RemoteClock(r.ReceiveAcked(p).0, clocks, trips, unused + 1)
  {
    hide Answers, SetBy;
  }

  lemma BroadcastKeepsRemoteClock(r: Remote, clocks: Clocks, trips: Trips, c: Chance, id: nat, hostId: nat)
    requires RemoteClockReady(r, clocks, trips, c)
    ensures RemoteClock(r.OnIdBroadcastReceived(id, hostId, c), clocks, trips, c.unused + 1)
  {
    UpdateKeepsRemoteClock(r, clocks, trips, c, AwaitingLink);
    hide Answers, SetBy, Remote.EnterState, Remote.OnLinkStateChanged;
  }

  /** The reply belongs to the session the remote is in. */
  lemma ReplyFits(r: Remote, clocks: Clocks, trips: Trips, past: History, p: AirPacket)
    requires RemoteOk(r, past) && IsLinking(r.link) && ReplyOk(p, clocks, trips) && IsReply(p.frame.payload) && p.cipher == r.encoder.OnAir()
    ensures r.session in trips.offsets && p.frame.id in trips.asked
    ensures Answers(clocks, trips, p.frame.id, ErrorOf(p.frame.payload), trips.offsets[r.session])
  {
  }

  lemma ReceiveKeepsRemoteClock(r: Remote, clocks: Clocks, trips: Trips, past: History, p: AirPacket, c: Chance)
    requires RemoteClockReady(r, clocks, trips, c) && RemoteOk(r, past) && |r.rssi| <= RSSI_SAMPLES
    requires ReplyOk(p, clocks, trips) && p.cipher == r.encoder.OnAir()
    ensures RemoteClock(r.Receive(p.frame, c), clocks, trips, c.unused + 1)
  {
    if IsLinking(r.link) && IsReply(p.frame.payload) { ReplyFits(r, clocks, trips, past, p); }
    if p.frame.payload.IdBroadcast? {
      BroadcastKeepsRemoteClock(r, clocks, trips, c, p.frame.id, p.frame.payload.hostId);
    }
    hide Answers, SetBy, RemoteOk, ReplyOk, Remote.OnIdBroadcastReceived;
  }

  // ---------------------------------------------------------------------------------------------
  // Host steps

  /** A step of the host from h to g, with trips as HostTrips leaves them. */
  ghost predicate HostClockDone(g: Host, clocks: Clocks, trips: Trips) {
    HostClock(g, clocks, HostTrips(trips, g))
  }

  ghost predicate HostClockReady(h: Host, clocks: Clocks, trips: Trips, c: Chance) {
    HostClock(h, clocks, trips) && forall n :: n in trips.offsets ==> n < c.unused
  }

  /** Offset, transaction and pending reply are as before, or the session is over and a new one may have begun. */
  predicate ClockUntouched(h: Host, g: Host, c: Chance) {
    && ((g.session == h.session && g.offset == h.offset) || g.session == 0 || g.session == c.unused)
    && (g.transaction.ready ==> g.transaction == h.transaction && g.offset == h.offset)
    && (IsLinking(g.link) && g.send.pending && IsReply(g.send.frame.payload) ==>
          IsLinking(h.link) && h.send.pending && g.send.frame == h.send.frame && g.offset == h.offset)
  }

  lemma UntouchedKeepsHostClock(h: Host, g: Host, clocks: Clocks, trips: Trips, c: Chance)
    requires HostClockReady(h, clocks, trips, c) && ClockUntouched(h, g, c)
    ensures HostClockDone(g, clocks, trips)
  {
    var next := HostTrips(trips, g);
    hide Answers;
    if g.transaction.ready {
      AnswersStays(clocks, trips, next, g.transaction.id, g.transaction.result, g.offset);
    }
    if IsLinking(g.link) && g.send.pending && IsReply(g.send.frame.payload) {
      AnswersStays(clocks, trips, next, g.send.frame.id, ErrorOf(g.send.frame.payload), g.offset);
    }
  }

  lemma HostUpdateUntouched(h: Host, c: Chance, newState: LinkState)
    requires || newState in {Disabled, Setup, AwaitingLink, AwaitingSleeping}
             || (h.send.Idle() && (h.link.AwaitingLink? || (newState.Linked? && h.link.Linking?)))
    ensures ClockUntouched(h, h.UpdateLinkState(newState, c), c)
  {
  }

  lemma HostBroadcastingUntouched(h: Host, c: Chance)
    requires h.link.AwaitingLink? && h.stage == BROADCASTING && h.send.Idle()
    ensures ClockUntouched(h, h.OnAwaitingLink(c), c)
  {
    hide Host.UpdateLinkState;
  }

  lemma HostAwaitingUntouched(h: Host, c: Chance)
    requires h.link.AwaitingLink? && h.send.Idle()
    ensures ClockUntouched(h, h.OnAwaitingLink(c), c)
  {
    HostUpdateUntouched(h, c, Linking);
    if h.stage == BROADCASTING { HostBroadcastingUntouched(h, c); return; }
    hide Host.UpdateLinkState, Encoder.SetIvData, Encoder.SetSecretKey, KeyExchanger.GenerateSharedKey, KeyExchanger.ClearPartner;
  }

  /** The host answers with the error it has for the request. */
  lemma HostAnswersKeep(h: Host, clocks: Clocks, trips: Trips, c: Chance, reply: Payload)
    requires HostClockReady(h, clocks, trips, c) && h.transaction.ready && IsReply(reply) && ErrorOf(reply) == h.transaction.result
    ensures HostClock(h.OnEstimationReceived(h.transaction.result).(transaction := h.transaction.(ready := false, id := 0))
                      .Request(Short(h.transaction.id, reply), c), clocks, trips)
  {
    hide Answers;
  }

  lemma HostInfoUntouched(h: Host, c: Chance)
    requires h.link.Linking? && h.send.Idle()
    ensures ClockUntouched(h, h.OnInfoSync(c), c)
  {
  }

  lemma HostLinkingUntouched(h: Host, c: Chance)
    requires h.link.Linking? && h.send.Idle() && !(h.stage == CLOCK_SYNC && h.transaction.ready && !Clock.CountIsSynced(h.syncGood))
    ensures ClockUntouched(h, h.OnLinking(c), c)
  {
    HostInfoUntouched(h, c);
    HostUpdateUntouched(h, c, Linked);
    HostUpdateUntouched(h, c, AwaitingLink);
    hide Host.UpdateLinkState, Host.OnInfoSync;
  }

  lemma HostLinkingKeepsClock(h: Host, clocks: Clocks, trips: Trips, c: Chance)
    requires HostClockReady(h, clocks, trips, c) && h.link.Linking? && h.send.Idle()
    ensures HostClockDone(h.OnLinking(c), clocks, trips)
  {
    var g := h.OnLinking(c);
    hide Answers;
    if h.stage == CLOCK_SYNC && !Clock.CountIsSynced(h.syncGood) && h.transaction.ready {
      HostAnswersKeep(h, clocks, trips, c, NtpReply(h.transaction.result));
      HostClockStays(g, clocks, trips, HostTrips(trips, g));
    } else {
      HostLinkingUntouched(h, c);
      hide Host.OnLinking, ClockUntouched;
      UntouchedKeepsHostClock(h, g, clocks, trips, c);
    }
  }

  lemma HostLinkedKeepsClock(h: Host, clocks: Clocks, trips: Trips, c: Chance)
    requires HostClockReady(h, clocks, trips, c) && h.link.Linked? && h.send.Idle()
    ensures HostClockDone(h.OnKeepingLink(c), clocks, trips)
  {
    var g := h.OnKeepingLink(c);
    if !c.report && h.transaction.ready {
      HostAnswersKeep(h, clocks, trips, c, TuneReply(h.transaction.result));
      HostClockStays(g, clocks, trips, HostTrips(trips, g));
    } else {
      UntouchedKeepsHostClock(h, g, clocks, trips, c);
    }
  }

  lemma HostServiceUntouched(h: Host, c: Chance)
    requires h.send.Idle() && (!IsLinking(h.link) || (h.link.Linking? && c.expired) || (h.link.Linked? && c.lost))
    ensures ClockUntouched(h, h.OnService(c), c)
  {
    HostUpdateUntouched(h, c, AwaitingLink);
    HostUpdateUntouched(h, c, AwaitingSleeping);
    if h.link.AwaitingLink? { HostAwaitingUntouched(h, c); }
    hide Host.UpdateLinkState, Host.OnAwaitingLink;
  }

  lemma HostServiceKeepsClock(h: Host, clocks: Clocks, trips: Trips, c: Chance)
    requires HostClockReady(h, clocks, trips, c) && h.send.Idle()
    ensures HostClockDone(h.OnService(c), clocks, trips)
  {
    if h.link.Linking? { HostLinkingKeepsClock(h, clocks, trips, c); }
    if h.link.Linked? { HostLinkedKeepsClock(h, clocks, trips, c); }
    hide Host.UpdateLinkState, Host.OnAwaitingLink, Host.OnLinking, Host.OnKeepingLink, HostClockReady, HostClockDone, ClockUntouched;
    if !IsLinking(h.link) || (h.link.Linking? && c.expired) || (h.link.Linked? && c.lost) {
      HostServiceUntouched(h, c);
      hide Host.OnService;
      UntouchedKeepsHostClock(h, h.OnService(c), clocks, trips, c);
    }
  }

  lemma HostHooksUntouched(h: Host, t: Send<Payload>, c: Chance)
    requires t.frame == h.send.frame && (t.pending ==> h.send.pending) && h.meter.Valid()
    ensures ClockUntouched(h, h.(send := t), c)
    ensures ClockUntouched(h, h.(send := t).OnPreSend(c), c)
    ensures ClockUntouched(h, h.(send := t).OnPingAckReceived(h.send.frame.id, c), c)
    ensures ClockUntouched(h, h.(send := t).OnLinkAckReceived(h.send.frame.header, h.send.frame.id), c)
  {
  }

  lemma HostCallbackKeepsClock(h: Host, clocks: Clocks, trips: Trips, c: Chance)
    requires HostClockReady(h, clocks, trips, c) && h.send.Valid() && h.meter.Valid()
    ensures HostClockDone(h.Callback(c), clocks, trips)
  {
    var (t, e) := h.send.Callback(c.send);
    if e.OnService? {
      assert h.(send := t) == h;
      HostServiceKeepsClock(h, clocks, trips, c);
    } else {
      HostHooksUntouched(h, t, c);
      hide HostClockReady, HostClockDone, ClockUntouched, Host.OnService, Host.OnPreSend, Host.OnPingAckReceived, Host.OnLinkAckReceived;
      UntouchedKeepsHostClock(h, h.Callback(c), clocks, trips, c);
    }
  }

  /** Hearing a request leaves an error that answers it. */
  lemma RequestAnswered(s: System, p: AirPacket)
    requires TripsOk(s) && RequestOk(p, s.clocks, s.trips) && AsksClock(p.frame.payload)
    ensures var next := s.trips.(heard := s.trips.heard + {(p.frame.id, s.clocks.now)});
            var e := if p.frame.payload.NtpRequest? then p.frame.payload.estimate else p.frame.payload.tuneEstimate;
            Answers(s.clocks, next, p.frame.id, s.h.EstimateError(s.clocks.HostMicros(), e), s.h.offset)
  {
    var next := s.trips.(heard := s.trips.heard + {(p.frame.id, s.clocks.now)});
    hide Clock.Wrap, Clock.Signed;
    assert HeardAt(next, p.frame.id, s.clocks.now);
  }

  lemma HostReceiveKeepsClock(s: System, p: AirPacket)
    requires ClockInv(s) && Shape(s) && p in s.toHost
    ensures var t := HostReceives(s, p);
            TripsGrow(s.trips, t.trips) && TripsOk(t) && t.trips.asked == s.trips.asked && HostClock(t.h, s.clocks, t.trips)
  {
    var t := HostReceives(s, p);
    HostClockStays(s.h, s.clocks, s.trips, t.trips);
    if AsksClock(p.frame.payload) { RequestAnswered(s, p); }
    hide Answers, RequestOk, ReplyOk, RemoteClock, Host.EstimateError;
  }

  // ---------------------------------------------------------------------------------------------
  // The system

  /** The parts of the invariant that a step leaves to be shown once what is recorded has grown. */
  lemma AirStays(s: System, next: Trips)
    requires ClockInv(s) && TripsGrow(s.trips, next)
    ensures forall p :: p in s.toHost ==> RequestOk(p, s.clocks, next)
    ensures forall p :: p in s.toRemote ==> ReplyOk(p, s.clocks, next)
  {
    forall p | p in s.toHost
      ensures RequestOk(p, s.clocks, next)
    {
      RequestStays(p, s.clocks, s.trips, next);
    }
    forall p | p in s.toRemote
      ensures ReplyOk(p, s.clocks, next)
    {
      ReplyStays(p, s.clocks, s.trips, next);
    }
  }

  /** A reply goes on the air under the session whose offset it was computed with. */
  lemma ReplyIsOk(h: Host, clocks: Clocks, trips: Trips, past: History)
    requires HostOk(h, past) && HostClock(h, clocks, trips) && h.send.pending && !h.link.Disabled?
    ensures ReplyOk(AirPacket(h.encoder.OnAir(), h.send.frame), clocks, trips)
  {
    hide Answers;
  }

  lemma HostTurnKeepsClocks(s: System, g: Host, sent: set<AirPacket>)
    requires ClockInv(s) && HostClockDone(g, s.clocks, s.trips) && g.session <= s.past.unused
    requires forall p :: p in sent ==> ReplyOk(p, s.clocks, s.trips)
    ensures ClockInv(HostTurn(s, g, sent))
  {
    var t := HostTurn(s, g, sent);
    AirStays(s, t.trips);
    RemoteClockStays(s.r, s.clocks, s.trips, t.trips, s.past.unused, t.past.unused);
    forall p | p in sent
      ensures ReplyOk(p, s.clocks, t.trips)
    {
      ReplyStays(p, s.clocks, s.trips, t.trips);
    }
    hide HostClock, RemoteClock, RequestOk, ReplyOk;
  }

  lemma SessionIsKnown(s: System)
    requires Inv(s)
    ensures s.h.session < s.past.unused && HostOk(s.h, s.past) && RemoteOk(s.r, s.past)
  {
  }

  lemma HostRunsKeepsClocks(s: System, c: Chance)
    requires Inv(s) && Shape(s) && ClockInv(s)
    ensures ClockInv(Step(s, HostRuns(c)))
  {
    if !s.h.link.Disabled? {
      var d := HostChance(s, c);
      HostCallbackKeepsClock(s.h, s.clocks, s.trips, d);
      StepKeepsInv(s, HostRuns(c));
      SessionIsKnown(s);
      SessionIsKnown(Step(s, HostRuns(c)));
      if s.h.send.Callback(c.send).1.Transmitted? { ReplyIsOk(s.h, s.clocks, s.trips, s.past); }
      hide Inv, ClockInv, HostClockDone, HostOk, RemoteOk, ReplyOk, Host.Callback;
      HostTurnKeepsClocks(s, s.h.Callback(d),
                          if s.h.send.Callback(c.send).1.Transmitted? then {AirPacket(s.h.encoder.OnAir(), s.h.send.frame)} else {});
    }
  }

  lemma HostEnablesKeepsClocks(s: System, on: bool, c: Chance)
    requires Inv(s) && Shape(s) && ClockInv(s)
    ensures ClockInv(Step(s, HostEnables(on, c)))
  {
    var d, newState := HostChance(s, c), if on then Setup else Disabled;
    HostUpdateUntouched(s.h, d, newState);
    UntouchedKeepsHostClock(s.h, s.h.UpdateLinkState(newState, d), s.clocks, s.trips, d);
    StepKeepsInv(s, HostEnables(on, c));
    SessionIsKnown(Step(s, HostEnables(on, c)));
    hide Inv, ClockInv, HostClockDone, HostOk, RemoteOk, Host.UpdateLinkState;
    HostTurnKeepsClocks(s, s.h.UpdateLinkState(newState, d), {});
  }

  lemma HostHearsKeepsClocks(s: System, p: AirPacket)
    requires Shape(s) && ClockInv(s)
    ensures ClockInv(Step(s, HostHears(p)))
  {
    var t := HostReceives(s, p);
    if p in s.toHost && p.cipher == s.h.encoder.OnAir() {
      HostReceiveKeepsClock(s, p);
      AirStays(s, t.trips);
      RemoteClockStays(s.r, s.clocks, s.trips, t.trips, s.past.unused, t.past.unused);
      hide HostClock, RemoteClock, RequestOk, ReplyOk, Host.Receive;
    }
  }

  /** A step of the remote that records nothing about the clocks. */
  lemma RemoteTurnKeepsClocks(s: System, q: Remote, sent: set<AirPacket>)
    requires ClockInv(s) && RemoteClock(q, s.clocks, s.trips, s.past.unused + 1)
    requires forall p :: p in sent ==> !AsksClock(p.frame.payload)
    ensures ClockInv(RemoteTurn(s, q, sent))
  {
    hide HostClock, RemoteClock, ReplyOk;
  }

  lemma RemoteRunsKeepsClocks(s: System, c: Chance)
    requires Shape(s) && ClockInv(s)
    ensures ClockInv(Step(s, RemoteRuns(c)))
  {
    if !s.r.link.Disabled? {
      var d := RemoteChance(s, c);
      if s.r.send.Callback(c.send).1.Transmitted? {
        var t := RemoteCalls(s, d);
        TransmitRecords(s, c);
        RecordKeepsRemoteClock(s, t);
        AirStays(s, t.trips);
        HostClockStays(s.h, s.clocks, s.trips, t.trips);
        TransmitCounts(s, d);
        hide HostClock, RemoteClock, RequestOk, ReplyOk, RemoteCalls, RemoteFitsRecord;
      } else {
        CallbackKeepsRemoteClock(s.r, s.clocks, s.trips, d);
        hide ClockInv, RemoteClock, Remote.Callback;
        RemoteTurnKeepsClocks(s, s.r.Callback(d), {});
      }
    }
  }

  lemma TransmitCounts(s: System, c: Chance)
    requires Shape(s)
    ensures RemoteCalls(s, c).past.unused == s.past.unused + 1
  {
    hide Remote.Callback;
  }

  lemma RemoteHearsKeepsClocks(s: System, p: AirPacket, c: Chance)
    requires Inv(s) && Shape(s) && ClockInv(s)
    ensures ClockInv(Step(s, RemoteHears(p, c)))
  {
    var d := RemoteChance(s, c);
    if p in s.toRemote && p.cipher == s.r.encoder.OnAir() {
      SessionIsKnown(s);
      AckedKeepsRemoteClock(s.r, s.clocks, s.trips, s.past.unused, p.frame);
      ReceiveKeepsRemoteClock(s.r, s.clocks, s.trips, s.past, p, d);
      hide Inv, ClockInv, RemoteClock, HostOk, RemoteOk, Remote.Receive, Remote.ReceiveAcked;
      if p.frame.hasAck {
        var (q, ok) := s.r.ReceiveAcked(p.frame);
        RemoteTurnKeepsClocks(s, q, if ok then {AirPacket(q.encoder.OnAir(), AckPacket(p.frame.header, p.frame.id))} else {});
      } else {
        RemoteTurnKeepsClocks(s, s.r.Receive(p.frame, d), {});
      }
    }
  }

  lemma RemoteEnablesKeepsClocks(s: System, on: bool, c: Chance)
    requires Shape(s) && ClockInv(s)
    ensures ClockInv(Step(s, RemoteEnables(on, c)))
  {
    var d, newState := RemoteChance(s, c), if on then Setup else Disabled;
    UpdateKeepsRemoteClock(s.r, s.clocks, s.trips, d, newState);
    hide ClockInv, RemoteClock, Remote.UpdateLinkState;
    RemoteTurnKeepsClocks(s, s.r.UpdateLinkState(newState, d), {});
  }

  /** Time may pass, and sent reports may come in. */
  lemma WaitKeepsClocks(s: System, micros: nat)
    requires Shape(s) && ClockInv(s)
    ensures ClockInv(Step(s, Wait(micros)))
  {
    var t := Step(s, Wait(micros));
    forall id: nat, e: int, offset: nat
      ensures Answers(t.clocks, t.trips, id, e, offset) == Answers(s.clocks, s.trips, id, e, offset)
    {
    }
    hide Answers, SetBy;
  }

  lemma ReportKeepsClocks(s: System, a: Action)
    requires Shape(s) && ClockInv(s) && (a.HostSentOk? || a.RemoteSentOk?)
    ensures ClockInv(Step(s, a))
  {
    hide Answers, SetBy, ReplyOk, RequestOk;
  }

  lemma StepKeepsClocks(s: System, a: Action)
    requires Inv(s) && Shape(s) && ClockInv(s)
    ensures ClockInv(Step(s, a))
  {
    hide Inv, ClockInv, Step;
    match a
    case HostRuns(c) => HostRunsKeepsClocks(s, c);
    case RemoteRuns(c) => RemoteRunsKeepsClocks(s, c);
    case HostHears(p) => HostHearsKeepsClocks(s, p);
    case RemoteHears(p, c) => RemoteHearsKeepsClocks(s, p, c);
    case HostEnables(on, c) => HostEnablesKeepsClocks(s, on, c);
    case RemoteEnables(on, c) => RemoteEnablesKeepsClocks(s, on, c);
    case Wait(micros) => WaitKeepsClocks(s, micros);
    case _ => ReportKeepsClocks(s, a);
  }

  // ---------------------------------------------------------------------------------------------
  // Whole runs

  lemma NextKeepsClocks(s: System, t: System)
    requires Inv(s) && Next(s, t) && ClockInv(s)
    ensures ClockInv(t)
  {
    hide Inv, ClockInv, Step;
    var a: Action :| t == Step(s, a);
    StepKeepsClocks(s, a);
  }

  lemma InitialClocks(s: System)
    requires Initial(s)
    ensures ClockInv(s)
  {
    var hostId: nat, remoteId: nat, clocks: Clocks :| s == Start(hostId, remoteId, clocks);
    StartClockInv(hostId, remoteId, clocks);
  }

  lemma {:induction false} RunKeepsClocks(run: seq<System>, k: nat)
    requires IsRun(run) && k < |run|
    ensures ClockInv(run[k])
  {
    hide Next, ClockInv, Initial;
    if k == 0 {
      InitialClocks(run[0]);
    } else {
      RunKeepsClocks(run, k - 1);
      RunKeepsInv(run, k - 1);
      assert NextAt(run, k - 1);
      NextKeepsClocks(run[k - 1], run[k]);
    }
  }

  /** Both ends work in one session, and a clock exchange of that session has moved the remote's clock. */
  predicate IsTuned(s: System) {
    IsLinking(s.h.link) && IsLinking(s.r.link) && s.h.session == s.r.session && s.r.tuned.Some?
  }

  /** The request that set the remote's clock last was in flight for that long. */
  ghost predicate LastFlight(s: System, flight: nat)
    requires IsTuned(s)
  {
    HeardAfter(s.trips, s.r.tuned.value, flight)
  }

  predicate HeardAfter(trips: Trips, id: nat, flight: nat) {
    id in trips.asked && (id, trips.asked[id].at + flight) in trips.heard
  }

  lemma TunedTimes(s: System)
    requires Inv(s) && ClockInv(s) && IsTuned(s)
    ensures s.h.rtt == s.r.rtt < Latency.PING_TIMEOUT_MICROS
    ensures s.r.session in s.trips.offsets && s.trips.offsets[s.r.session] == s.h.offset
    ensures s.r.tuned.value in s.trips.asked && s.trips.asked[s.r.tuned.value].ettm == Latency.Ettm(s.r.rtt) <= 3999
    ensures SetBy(s.clocks, s.trips, s.r.tuned.value, s.h.offset, s.r.offset)
  {
    hide Answers, SetBy;
  }

  /** In every run, whatever is lost, repeated or overtaken: since the last exchange of the session that moved the remote's
      clock, the host is ahead of the remote by exactly the ETTM both ends work with less the flight time of that
      exchange's request. */
  lemma LeadIsFlightError(run: seq<System>, k: nat)
    requires IsRun(run) && k < |run| && IsTuned(run[k])
    ensures var s := run[k];
            exists flight: nat :: LastFlight(s, flight)
                               && PairOf(s.clocks, s.h.offset, s.r.offset).Lead() == Clock.Wrap(Latency.Ettm(s.r.rtt) - flight)
    ensures run[k].h.rtt == run[k].r.rtt
  {
    hide Next, Initial;
    RunKeepsClocks(run, k);
    RunKeepsInv(run, k);
    var s := run[k];
    TunedTimes(s);
    hide Inv, ClockInv, LeadsBy;
    var id := s.r.tuned.value;
    var t: nat :| HeardAt(s.trips, id, t) && LeadsBy(s.clocks, s.trips.asked[id], t, s.h.offset, s.r.offset);
    LeadsByFlight(s, id, t);
  }

  lemma LeadsByFlight(s: System, id: nat, t: nat)
    requires IsTuned(s) && id == s.r.tuned.value && HeardAt(s.trips, id, t)
    requires LeadsBy(s.clocks, s.trips.asked[id], t, s.h.offset, s.r.offset)
    ensures var flight: nat := t - s.trips.asked[id].at;
            LastFlight(s, flight) && PairOf(s.clocks, s.h.offset, s.r.offset).Lead() == Clock.Wrap(s.trips.asked[id].ettm - flight)
  {
  }

  function HostSync(s: System): nat {
    Clock.Wrap(s.clocks.HostMicros() + s.h.offset)
  }

  function RemoteSync(s: System): nat {
    Clock.Wrap(s.clocks.RemoteMicros() + s.r.offset)
  }

  /** Neither counter wraps within the next period, or has wrapped without the other. */
  predicate NoWrap(hostSync: nat, remoteSync: nat, ettm: nat) {
    hostSync + ettm < UINT32 && remoteSync + ettm < UINT32 && -Clock.INT32 < hostSync - remoteSync < Clock.INT32
  }

  lemma SkewIs(hostSync: nat, remoteSync: nat, ettm: nat, flight: nat)
    requires Clock.Wrap(hostSync - remoteSync) == Clock.Wrap(ettm - flight) && NoWrap(hostSync, remoteSync, ettm)
    requires ettm <= 3999 && 0 < flight < 2 * ettm
    ensures remoteSync - hostSync == flight - ettm
  {
    var d := hostSync - remoteSync;
    if d < 0 { assert Clock.Wrap(d) == d + UINT32; }
    var e := ettm - flight;
    if e < 0 { assert Clock.Wrap(e) == e + UINT32; }
  }

  /** So the slots of a linked pair exclude each other: if that flight, whichever of the times at which the host heard the
      request it is, took some time and less than twice the ETTM, the two drivers are never both in their send slots, each
      by its own clock and its own ETTM. */
  lemma TunedPairExcludesSends(run: seq<System>, k: nat)
    requires IsRun(run) && k < |run| && IsTuned(run[k])
    requires forall flight: nat :: LastFlight(run[k], flight) ==> 0 < flight < 2 * Latency.Ettm(run[k].r.rtt)
    requires NoWrap(HostSync(run[k]), RemoteSync(run[k]), Latency.Ettm(run[k].r.rtt))
    ensures var s := run[k];
            !(Duplex.IsInSendSlot(true, HostSync(s), Latency.Ettm(s.h.rtt))
              && Duplex.IsInSendSlot(false, RemoteSync(s), Latency.Ettm(s.r.rtt)))
  {
    hide Next, Initial;
    RunKeepsClocks(run, k);
    RunKeepsInv(run, k);
    LeadIsFlightError(run, k);
    var s := run[k];
    TunedTimes(s);
    hide *;
    var ettm := Latency.Ettm(s.r.rtt);
    var flight: nat :| LastFlight(s, flight) && PairOf(s.clocks, s.h.offset, s.r.offset).Lead() == Clock.Wrap(ettm - flight);
    LeadNow(s);
    SkewIs(HostSync(s), RemoteSync(s), ettm, flight);
    Excludes(HostSync(s), RemoteSync(s), ettm, flight);
  }

  lemma LeadNow(s: System)
    ensures Clock.Wrap(HostSync(s) as int - RemoteSync(s)) == PairOf(s.clocks, s.h.offset, s.r.offset).Lead()
  {
    Clock.LeadEverywhere(PairOf(s.clocks, s.h.offset, s.r.offset), s.clocks.now);
    hide Clock.Wrap;
  }

  lemma Excludes(hostSync: nat, remoteSync: nat, ettm: nat, flight: nat)
    requires remoteSync - hostSync == flight - ettm && NoWrap(hostSync, remoteSync, ettm) && ettm <= 3999 && 0 < flight < 2 * ettm
    ensures !(Duplex.IsInSendSlot(true, hostSync, ettm) && Duplex.IsInSendSlot(false, remoteSync, ettm))
  {
    Duplex.SmallSkewIsSafe(ettm, flight - ettm, hostSync);
    assert hostSync + (flight - ettm) == remoteSync;
  }
}
