/** What a link needs to come about: from every state of every run both ends can still get to a common link by themselves,
    just when both services are on and the host's id is not 0. */
module LinkProgress {
  import opened Common
  import opened LinkCrypto
  import opened SendService
  import opened Latency
  import opened LinkNodes
  import opened LinkSystem
  import opened LinkClocks
  import Clock

  /** A step that switches neither service on or off. */
  ghost predicate Calm(s: System, t: System) {
    Shape(s) && exists a: Action :: !a.HostEnables? && !a.RemoteEnables? && t == Step(s, a)
  }

  /** t can be reached from s in n such steps. */
  ghost predicate Can(s: System, t: System, n: nat)
    decreases n
  {
    if n == 0 then s == t else exists u: System :: Can(s, u, n - 1) && Calm(u, t)
  }

  ghost predicate Reaches(s: System, t: System) {
    Inv(t) && exists n: nat :: Can(s, t, n)
  }

  lemma {:induction false} CanJoin(s: System, t: System, u: System, m: nat, n: nat)
    requires Can(s, t, m) && Can(t, u, n)
    ensures Can(s, u, m + n)
    decreases n
  {
    hide Calm;
    if n == 0 {
    } else {
      var v: System :| Can(t, v, n - 1) && Calm(v, u);
      CanJoin(s, t, v, m, n - 1);
      assert Can(s, v, m + n - 1) && Calm(v, u);
    }
  }

  lemma Join(s: System, t: System, u: System)
    requires Reaches(s, t) && Reaches(t, u)
    ensures Reaches(s, u)
  {
    hide Inv;
    var m: nat :| Can(s, t, m);
    var n: nat :| Can(t, u, n);
    CanJoin(s, t, u, m, n);
  }

  lemma HasShape(s: System)
    requires Inv(s)
    ensures Shape(s)
  {
  }

  lemma Do(s: System, a: Action) returns (t: System)
    requires Inv(s) && Shape(s) && !a.HostEnables? && !a.RemoteEnables?
    ensures t == Step(s, a) && Inv(t) && Shape(t) && Reaches(s, t)
  {
    hide Inv, Step;
    t := Step(s, a);
    StepKeepsInv(s, a);
    HasShape(t);
    assert Can(s, s, 0) && Calm(s, t);
    assert Can(s, t, 1);
  }

  ghost predicate CalmAt(run: seq<System>, i: nat)
    requires i + 1 < |run|
  {
    Calm(run[i], run[i + 1])
  }

  /** The longer run goes on from the end of the shorter without either service being switched on or off. */
  ghost predicate Continues(run: seq<System>, more: seq<System>) {
    && IsRun(more) && run != [] && run <= more
    && forall i: nat :: |run| - 1 <= i && i + 1 < |more| ==> CalmAt(more, i)
  }

  lemma {:induction false} RunContinues(run: seq<System>, t: System, n: nat) returns (more: seq<System>)
    requires IsRun(run) && Can(run[|run| - 1], t, n)
    ensures Continues(run, more) && more[|more| - 1] == t
    decreases n
  {
    hide Next, Calm, Initial;
    if n == 0 {
      more := run;
    } else {
      var u: System :| Can(run[|run| - 1], u, n - 1) && Calm(u, t);
      var before := RunContinues(run, u, n - 1);
      more := before + [t];
      CalmIsNext(u, t);
      forall i: nat | i + 1 < |more|
        ensures NextAt(more, i)
      {
        assert i + 1 < |before| ==> NextAt(before, i);
      }
      forall i: nat | |run| - 1 <= i && i + 1 < |more|
        ensures CalmAt(more, i)
      {
        assert i + 1 < |before| ==> CalmAt(before, i);
      }
    }
  }

  lemma CalmIsNext(s: System, t: System)
    requires Calm(s, t)
    ensures Next(s, t)
  {
    hide Step;
  }

  // ---------------------------------------------------------------------------------------------
  // A packet that gets through

  /** Everything goes well; the service's clock reads 0 and stands still. */
  const GO: Chance := Chance(Env(0, true, true), false, false, false, false, true, false, false, false, false, true, true, 0, 0, 0, 0)

  predicate Ready(send: Send<Payload>) {
    send.pending && send.status.SendingPacket? && send.start == 0
  }

  lemma HostPutsOnAir(s: System) returns (t: System)
    requires Inv(s) && Shape(s) && Ready(s.h.send) && !s.h.link.Disabled?
    ensures Inv(t) && Shape(t) && Reaches(s, t) && t.clocks == s.clocks
    ensures t.h == s.h.OnPreSend(HostChance(s, GO)).(send := s.h.send.(status := WaitingForSentOk)) && t.r == s.r
    ensures AirPacket(s.h.encoder.OnAir(), s.h.send.frame) in t.toRemote
  {
    hide Inv, Reaches;
    t := Do(s, HostRuns(GO));
  }

  lemma HostSentIt(s: System) returns (t: System)
    requires Inv(s) && Shape(s) && s.h.send.pending && s.h.send.status.WaitingForSentOk? && !s.h.link.Disabled?
    ensures Inv(t) && Shape(t) && Reaches(s, t) && t.r == s.r && t.toHost == s.toHost && t.clocks == s.clocks
    ensures t.h == s.h.(send := if s.h.send.frame.hasAck then s.h.send.(status := WaitingForAck) else s.h.send.ClearSendRequest())
  {
    hide Inv, Reaches;
    var u := Do(s, HostSentOk(s.h.send.frame.header));
    t := Do(u, HostRuns(GO));
    Join(s, u, t);
  }

  /** A packet of the host that asks for no ack. */
  lemma HostDelivers(s: System) returns (t: System, c: Chance)
    requires Inv(s) && Shape(s) && Ready(s.h.send) && !s.h.link.Disabled? && s.h.encoder.OnAir() == s.r.encoder.OnAir()
    requires !s.h.send.frame.hasAck && s.h.send.frame.header != PING
    ensures Inv(t) && Shape(t) && Reaches(s, t) && t.clocks == s.clocks
    ensures c == GO.(unused := c.unused, micros := c.micros)
    ensures t.h == s.h.(send := s.h.send.ClearSendRequest()) && t.r == s.r.Receive(s.h.send.frame, c)
  {
    hide Inv, Reaches, Host.Callback;
    var u := HostPutsOnAir(s);
    var p := AirPacket(s.h.encoder.OnAir(), s.h.send.frame);
    c := RemoteChance(u, GO);
    var v := Do(u, RemoteHears(p, GO));
    t := HostSentIt(v);
    Join(s, u, v);
    Join(s, v, t);
  }

  /** What a packet that is acknowledged does to the host, sent with c and acknowledged with d. */
  function AfterAck(h: Host, c: Chance, d: Chance): Host
    requires |h.meter.samples| <= MAX_SAMPLES
  {
    var g := h.OnPreSend(c).(send := h.send.ClearSendRequest());
    if h.send.frame.header == PING then g.OnPingAckReceived(h.send.frame.id, d) else g.OnLinkAckReceived(h.send.frame.header, h.send.frame.id)
  }

  function Later(clocks: Clocks, micros: nat): Clocks {
    clocks.(now := clocks.now + micros)
  }

  lemma HostTakesAck(s: System) returns (t: System)
    requires Inv(s) && Shape(s) && s.h.send.pending && s.h.send.status.WaitingForAck?
    requires AirPacket(s.h.encoder.OnAir(), AckPacket(s.h.send.frame.header, s.h.send.frame.id)) in s.toHost
    ensures Inv(t) && Shape(t) && Reaches(s, t) && t.r == s.r && t.clocks == s.clocks
    ensures t.h == s.h.(send := s.h.send.(status := AckOk))
  {
    hide Inv, Reaches, Host.Callback;
    t := Do(s, HostHears(AirPacket(s.h.encoder.OnAir(), AckPacket(s.h.send.frame.header, s.h.send.frame.id))));
  }

  lemma HostGetsAck(s: System) returns (t: System)
    requires Inv(s) && Shape(s) && s.h.send.pending && s.h.send.status.WaitingForAck? && !s.h.link.Disabled?
    requires AirPacket(s.h.encoder.OnAir(), AckPacket(s.h.send.frame.header, s.h.send.frame.id)) in s.toHost
    ensures Inv(t) && Shape(t) && Reaches(s, t) && t.r == s.r && t.clocks == s.clocks
    ensures var g := s.h.(send := s.h.send.ClearSendRequest());
            t.h == if s.h.send.frame.header == PING then g.OnPingAckReceived(s.h.send.frame.id, HostChance(s, GO))
                   else g.OnLinkAckReceived(s.h.send.frame.header, s.h.send.frame.id)
  {
    hide Inv, Reaches, Host.Receive, Remote.Receive, Host.OnService;
    var u := HostTakesAck(s);
    t := Do(u, HostRuns(GO));
    Join(s, u, t);
  }

  lemma AckLeavesEncoder(r: Remote, p: Packet)
    ensures r.ReceiveAcked(p).0.encoder == r.encoder
  {
  }

  lemma WaitFor(s: System, micros: nat) returns (t: System)
    requires Inv(s) && Shape(s)
    ensures Inv(t) && Shape(t) && Reaches(s, t) && t == s.(clocks := Later(s.clocks, micros))
  {
    hide Inv, Reaches;
    t := Do(s, Wait(micros));
  }

  /** The ack is back after the given time. */
  lemma HostDeliversAcked(s: System, roundTrip: nat) returns (t: System)
    requires Inv(s) && Shape(s) && Ready(s.h.send) && !s.h.link.Disabled? && s.h.encoder.OnAir() == s.r.encoder.OnAir()
    requires s.h.send.frame.hasAck && s.r.ReceiveAcked(s.h.send.frame).1
    ensures Inv(t) && Shape(t) && Reaches(s, t) && t.clocks == Later(s.clocks, roundTrip)
    ensures t.r == s.r.ReceiveAcked(s.h.send.frame).0
    ensures t.h == AfterAck(s.h, GO.(micros := s.clocks.HostMicros()), GO.(micros := Later(s.clocks, roundTrip).HostMicros()))
  {
    hide Inv, Reaches, Host.Callback, Remote.ReceiveAcked, Clocks.HostMicros;
    var u := HostPutsOnAir(s);
    AckLeavesEncoder(u.r, s.h.send.frame);
    var v := Do(u, RemoteHears(AirPacket(s.h.encoder.OnAir(), s.h.send.frame), GO));
    var w := WaitFor(v, roundTrip);
    var x := HostSentIt(w);
    t := HostGetsAck(x);
    Join(s, u, v);
    Join(s, v, w);
    Join(s, w, x);
    Join(s, x, t);
  }

  lemma RemotePutsOnAir(s: System) returns (t: System)
    requires Inv(s) && Shape(s) && Ready(s.r.send) && !s.r.link.Disabled?
    ensures Inv(t) && Shape(t) && Reaches(s, t) && t.clocks == s.clocks && t.h == s.h
    ensures t.r == s.r.(send := s.r.OnPreSend(RemoteChance(s, GO)).send.(status := WaitingForSentOk))
    ensures AirPacket(s.r.encoder.OnAir(), t.r.send.frame) in t.toHost
  {
    hide Inv, Reaches, Remote.OnService;
    t := Do(s, RemoteRuns(GO));
  }

  lemma RemoteDelivers(s: System, flight: nat) returns (t: System)
    requires Inv(s) && Shape(s) && Ready(s.r.send) && !s.r.link.Disabled? && s.h.encoder.OnAir() == s.r.encoder.OnAir()
    requires !s.r.send.frame.hasAck
    ensures Inv(t) && Shape(t) && Reaches(s, t) && t.clocks == Later(s.clocks, flight)
    ensures var send := s.r.OnPreSend(GO.(micros := s.clocks.RemoteMicros())).send;
            t.r == s.r.(send := send.ClearSendRequest()) && t.h == s.h.Receive(send.frame, Later(s.clocks, flight).HostMicros())
  {
    hide Inv, Reaches, Host.Receive, Clocks.HostMicros, Clocks.RemoteMicros;
    var u := RemotePutsOnAir(s);
    PreSendKeepsFrame(s.r, RemoteChance(s, GO));
    var v := WaitFor(u, flight);
    var w := Do(v, HostHears(AirPacket(s.r.encoder.OnAir(), u.r.send.frame)));
    var x := Do(w, RemoteSentOk(u.r.send.frame.header));
    t := Do(x, RemoteRuns(GO));
    Join(s, u, v);
    Join(s, v, w);
    Join(s, w, x);
    Join(s, x, t);
  }

  lemma PreSendKeepsFrame(r: Remote, c: Chance)
    ensures var send := r.OnPreSend(c).send;
            && send == r.send.(frame := send.frame) && send.frame.header == r.send.frame.header
            && send.frame.id == r.send.frame.id && send.frame.hasAck == r.send.frame.hasAck
  {
  }

  // ---------------------------------------------------------------------------------------------
  // From anywhere back to the start

  /** How many callbacks a request needs at most to end when nothing comes back and the driver accepts. */
  function Left(send: Send<Payload>): nat {
    match send.status
    case SendingPacket => 4
    case WaitingForSentOk => 2
    case SentOk => 3
    case WaitingForAck => 2
    case Done => 0
    case _ => 1
  }

  /** What is pending ends, whatever the link state. */
  lemma {:induction false} HostFlushes(s: System) returns (t: System)
    requires Inv(s) && Shape(s) && !s.h.link.Disabled?
    ensures Inv(t) && Shape(t) && Reaches(s, t)
    ensures t.h.link == s.h.link && t.h.localId == s.h.localId && t.h.send.Idle() && t.r == s.r
    decreases Left(s.h.send)
  {
    hide Inv, Reaches, Host.OnService;
    if s.h.send.Idle() {
      t := Do(s, Wait(0));
    } else {
      var u := Do(s, HostRuns(GO.(send := Env(s.h.send.start, true, true))));
      t := HostFlushes(u);
      Join(s, u, t);
    }
  }

  lemma {:induction false} RemoteFlushes(s: System) returns (t: System)
    requires Inv(s) && Shape(s) && !s.r.link.Disabled?
    ensures Inv(t) && Shape(t) && Reaches(s, t)
    ensures t.r.link == s.r.link && t.r.send.Idle() && t.h == s.h
    decreases Left(s.r.send)
  {
    hide Inv, Reaches, Remote.OnService;
    if s.r.send.Idle() {
      t := Do(s, Wait(0));
    } else {
      var u := Do(s, RemoteRuns(GO.(send := Env(s.r.send.start, true, true))));
      t := RemoteFlushes(u);
      Join(s, u, t);
    }
  }

  predicate BothIdle(s: System) {
    s.h.send.Idle() && s.r.send.Idle()
  }

  /** The host has measured nothing yet. */
  predicate NothingMeasured(s: System) {
    s.h.meter.samples == [] && s.h.rssi == [] && s.h.syncGood == 0
  }

  predicate HostAtStart(h: Host) {
    && h.send.Idle() && h.link.AwaitingLink? && h.stage == BROADCASTING && h.session != 0 && IsCleared(h.encoder)
    && h.meter.samples == [] && h.rssi == [] && h.syncGood == 0
  }

  /** From every other state, a time-out, a lost partner or the state's own course leads to AwaitingLink. */
  lemma HostGivesUp(s: System) returns (t: System)
    requires Inv(s) && Shape(s) && !s.h.link.Disabled? && !s.h.link.AwaitingLink? && s.h.send.Idle()
    ensures Inv(t) && Shape(t) && Reaches(s, t) && t.r == s.r && t.h.localId == s.h.localId && HostAtStart(t.h)
  {
    hide Inv, Reaches, Host.UpdateLinkState, Host.OnAwaitingLink, Host.OnLinking, Host.OnKeepingLink, Clock.Wrap, HostAtStart;
    var a := HostRuns(GO.(expired := true, lost := true));
    t := Do(s, a);
    HostComesBack(s.h, HostChance(s, a.c));
    assert t.h == s.h.UpdateLinkState(AwaitingLink, HostChance(s, a.c));
  }

  lemma HostComesBack(h: Host, c: Chance)
    requires !h.link.AwaitingLink? && h.send.Idle() && c.unused != 0
    ensures HostAtStart(h.UpdateLinkState(AwaitingLink, c)) && h.UpdateLinkState(AwaitingLink, c).localId == h.localId
  {
    hide Clock.Wrap;
  }

  lemma HostFallsAsleep(s: System) returns (t: System)
    requires Inv(s) && Shape(s) && s.h.link.AwaitingLink? && s.h.send.Idle()
    ensures Inv(t) && Shape(t) && Reaches(s, t) && t.r == s.r && t.h.localId == s.h.localId && t.h.link.AwaitingSleeping? && t.h.send.Idle()
  {
    hide Inv, Reaches, Host.OnAwaitingLink, Host.OnLinking, Host.OnKeepingLink;
    t := Do(s, HostRuns(GO.(expired := true)));
  }

  lemma HostDrawsKeys(s: System) returns (t: System)
    requires Inv(s) && Shape(s) && HostAtStart(s.h)
    ensures Inv(t) && Shape(t) && Reaches(s, t) && t.r == s.r && t.h.localId == s.h.localId
    ensures HostAtStart(t.h) && t.h.keys.stage.StageLocalKey?
  {
    hide Inv, Reaches, Host.OnAwaitingLink, Host.OnLinking, Host.OnKeepingLink;
    t := Do(s, HostRuns(GO.(keysOld := true)));
  }

  lemma HostStartsOver(s: System) returns (t: System)
    requires Inv(s) && Shape(s) && !s.h.link.Disabled?
    ensures Inv(t) && Shape(t) && Reaches(s, t) && t.r == s.r && t.h.localId == s.h.localId
    ensures HostAtStart(t.h) && t.h.keys.stage.StageLocalKey?
  {
    hide Inv, Reaches, Shape, HostAtStart;
    var u := HostFlushes(s);
    var v := u;
    if u.h.link.AwaitingLink? {
      v := HostFallsAsleep(u);
      Join(s, u, v);
    }
    var w := HostGivesUp(v);
    t := HostDrawsKeys(w);
    Join(s, v, w);
    Join(s, w, t);
  }

  predicate RemoteAtStart(r: Remote) {
    r.send.Idle() && r.link.AwaitingLink? && r.stage == SEARCHING && r.session == 0 && r.keys.stage.StageLocalKey? && IsCleared(r.encoder)
  }

  lemma RemoteGivesUp(s: System) returns (t: System)
    requires Inv(s) && Shape(s) && !s.r.link.Disabled? && !s.r.link.AwaitingLink? && s.r.send.Idle()
    ensures Inv(t) && Shape(t) && Reaches(s, t) && t.h == s.h && RemoteAtStart(t.r)
  {
    hide Inv, Reaches, Remote.OnAwaitingLink, Remote.OnLinking, Remote.OnKeepingLink;
    t := Do(s, RemoteRuns(GO.(expired := true, lost := true)));
  }

  lemma RemoteFallsAsleep(s: System) returns (t: System)
    requires Inv(s) && Shape(s) && s.r.link.AwaitingLink? && s.r.send.Idle()
    ensures Inv(t) && Shape(t) && Reaches(s, t) && t.h == s.h && t.r.link.AwaitingSleeping? && t.r.send.Idle()
  {
    hide Inv, Reaches, Remote.OnAwaitingLink, Remote.OnLinking, Remote.OnKeepingLink;
    t := Do(s, RemoteRuns(GO.(expired := true)));
  }

  lemma RemoteStartsOver(s: System) returns (t: System)
    requires Inv(s) && Shape(s) && !s.r.link.Disabled?
    ensures Inv(t) && Shape(t) && Reaches(s, t) && t.h == s.h && RemoteAtStart(t.r)
  {
    hide Inv, Reaches, Shape, RemoteAtStart;
    var u := RemoteFlushes(s);
    var v := u;
    if u.r.link.AwaitingLink? {
      v := RemoteFallsAsleep(u);
      Join(s, u, v);
    }
    t := RemoteGivesUp(v);
    Join(s, v, t);
  }

  predicate AtStart(s: System) {
    HostAtStart(s.h) && s.h.keys.stage.StageLocalKey? && RemoteAtStart(s.r)
  }

  /** Both ends are enabled: time-outs alone bring them back to the start. */
  lemma Restart(s: System) returns (t: System)
    requires Inv(s) && Shape(s) && !s.h.link.Disabled? && !s.r.link.Disabled?
    ensures Inv(t) && Shape(t) && Reaches(s, t) && AtStart(t) && t.h.localId == s.h.localId
  {
    hide Inv, Reaches, Shape;
    var u := HostStartsOver(s);
    t := RemoteStartsOver(u);
    Join(s, u, t);
  }

  // ---------------------------------------------------------------------------------------------
  // From the start to a link

  /** Both ends are in the same session and know each other. */
  predicate Together(s: System) {
    && BothIdle(s)
    && s.h.session == s.r.session != 0 && s.r.partner == s.h.localId != 0 && s.h.partner == s.r.localId
  }

  predicate SessionIv(s: System) {
    && s.h.encoder.cipher.iv == s.r.encoder.cipher.iv == Some(Iv(s.h.session, s.h.localId, s.r.localId))
    && s.h.encoder.stage.AllClear? && s.r.encoder.stage.AllClear?
  }

  /** The remote has found the host. */
  predicate Found(s: System) {
    && BothIdle(s) && NothingMeasured(s)
    && s.h.link.AwaitingLink? && s.h.stage == BROADCASTING && s.h.session != 0 && s.h.keys.stage.StageLocalKey? && IsCleared(s.h.encoder)
    && s.r.link.AwaitingLink? && s.r.stage == AWAITING_HOST_KEY && s.r.session == s.h.session && s.r.partner == s.h.localId != 0
    && s.r.keys.stage.StageLocalKey?
    && s.r.encoder == Encoder(AllClear, Cipher(None, Some(Iv(s.h.session, s.h.localId, s.r.localId))))
  }

  lemma Find(s: System) returns (t: System)
    requires Inv(s) && Shape(s) && AtStart(s) && s.h.localId != 0
    ensures Inv(t) && Shape(t) && Reaches(s, t) && Found(t)
  {
    hide Inv, Reaches;
    var u := Do(s, HostRuns(GO));
    var v, c := HostDelivers(u);
    t := Do(v, RemoteRuns(GO));
    Join(s, u, v);
    Join(s, v, t);
  }

  /** The host has found the remote. */
  predicate Paired(s: System) {
    && Together(s) && SessionIv(s) && NothingMeasured(s)
    && s.h.link.AwaitingLink? && s.h.stage == HOST_SENDING_KEY && s.h.keys.stage.StageLocalKey?
    && s.r.link.AwaitingLink? && s.r.stage == AWAITING_HOST_KEY && s.r.keys.stage.StageLocalKey?
  }

  lemma Pair(s: System) returns (t: System)
    requires Inv(s) && Shape(s) && Found(s)
    ensures Inv(t) && Shape(t) && Reaches(s, t) && Paired(t)
  {
    hide Inv, Reaches;
    var u := Do(s, RemoteRuns(GO));
    var v := RemoteDelivers(u, 0);
    t := Do(v, HostRuns(GO));
    Join(s, u, v);
    Join(s, v, t);
  }

  predicate RemoteKeyed(s: System) {
    && Together(s) && NothingMeasured(s)
    && s.h.encoder.stage.AllClear? && s.r.encoder.stage.AllReady?
    && s.h.encoder.cipher.iv == s.r.encoder.cipher.iv && s.r.encoder.cipher.key == Some({s.r.keys.local, s.h.keys.local})
    && s.h.link.AwaitingLink? && s.h.stage == HOST_SENDING_KEY && s.h.keys.stage.StageLocalKey?
    && s.r.link.AwaitingLink? && s.r.stage == REMOTE_SENDING_KEY
  }

  lemma KeyRemote(s: System) returns (t: System)
    requires Inv(s) && Shape(s) && Paired(s)
    ensures Inv(t) && Shape(t) && Reaches(s, t) && RemoteKeyed(t)
  {
    hide Inv, Reaches;
    var u := Do(s, HostRuns(GO));
    var v, c := HostDelivers(u);
    t := Do(v, RemoteRuns(GO));
    Join(s, u, v);
    Join(s, v, t);
  }

  predicate Keyed(s: System) {
    && Together(s) && NothingMeasured(s) && s.h.encoder == s.r.encoder && s.h.encoder.stage.AllReady?
    && s.h.link.AwaitingLink? && s.h.stage == GOT_SHARED_KEY
    && s.r.link.AwaitingLink? && s.r.stage == REMOTE_SENDING_KEY
  }

  lemma KeyHost(s: System) returns (t: System)
    requires Inv(s) && Shape(s) && RemoteKeyed(s)
    ensures Inv(t) && Shape(t) && Reaches(s, t) && Keyed(t)
  {
    hide Inv, Reaches;
    var u := Do(s, RemoteRuns(GO));
    var v := RemoteDelivers(u, 0);
    t := Do(v, HostRuns(GO));
    assert {s.r.keys.local, s.h.keys.local} == {s.h.keys.local, s.r.keys.local};
    Join(s, u, v);
    Join(s, v, t);
  }

  /** Both ends are linking, under the same key and IV. */
  predicate Secured(s: System) {
    && Together(s) && s.h.encoder == s.r.encoder && s.h.encoder.stage.FullPower?
    && s.h.link.Linking? && s.r.link.Linking?
  }

  /** So many latency samples have been taken, each of that round trip time. */
  predicate Measuring(s: System, samples: nat, rtt: nat) {
    && Secured(s) && s.h.stage == INFO_SYNC && s.h.info == MEASURING && s.h.rssi == [] && s.h.syncGood == 0
    && |s.h.meter.samples| == samples && (forall k :: 0 <= k < samples ==> s.h.meter.samples[k] == rtt)
    && s.r.stage == INFO_SYNC && s.r.info == AWAITING_REQUEST
  }

  predicate Switching(s: System) {
    && Together(s) && NothingMeasured(s) && s.h.encoder == s.r.encoder && s.h.encoder.stage.AllReady?
    && s.h.link.AwaitingLink? && s.h.stage == SWITCH_OVER
    && s.r.link.AwaitingLink? && s.r.stage == SWITCH_OVER
  }

  lemma StartCrypto(s: System) returns (t: System)
    requires Inv(s) && Shape(s) && Keyed(s)
    ensures Inv(t) && Shape(t) && Reaches(s, t) && Switching(t)
  {
    hide Inv, Reaches;
    var u := Do(s, HostRuns(GO));
    t := HostDeliversAcked(u, 0);
    Join(s, u, t);
  }

  lemma StartLinking(s: System, rtt: nat) returns (t: System)
    requires Inv(s) && Shape(s) && Switching(s)
    ensures Inv(t) && Shape(t) && Reaches(s, t) && Measuring(t, 0, rtt)
  {
    hide Inv, Reaches;
    var u := Do(s, HostRuns(GO));
    t := Do(u, RemoteRuns(GO));
    Join(s, u, t);
  }

  /** The counter is moved off the one reading that means "never". */
  lemma AwaitReading(s: System) returns (t: System)
    requires Inv(s) && Shape(s)
    ensures Inv(t) && Shape(t) && Reaches(s, t) && t == s.(clocks := t.clocks) && t.clocks.HostMicros() != INVALID_MICROS
  {
    hide Inv, Reaches;
    t := WaitFor(s, if s.clocks.HostMicros() == INVALID_MICROS then 1 else 0);
  }

  lemma PingTakes(h: Host, clocks: Clocks, rtt: nat)
    requires h.link.Linking? && h.stage == INFO_SYNC && h.send.frame.header == PING && h.meter.Valid() && |h.meter.samples| < MAX_SAMPLES
    requires clocks.HostMicros() != INVALID_MICROS && rtt < PING_TIMEOUT_MICROS
    ensures var g := AfterAck(h, GO.(micros := clocks.HostMicros()), GO.(micros := Later(clocks, rtt).HostMicros()));
            && g == h.(send := h.send.ClearSendRequest(), meter := g.meter, pingAcked := true)
            && g.meter.samples == h.meter.samples + [rtt]
  {
    assert (Later(clocks, rtt).HostMicros() - clocks.HostMicros()) % UINT32 == rtt;
  }

  lemma PingRequested(s: System) returns (t: System)
    requires Inv(s) && Shape(s) && Secured(s) && s.h.stage == INFO_SYNC && s.h.info == MEASURING && |s.h.meter.samples| < 2
    ensures Inv(t) && Shape(t) && Reaches(s, t) && t.clocks == s.clocks && t.r == s.r
    ensures t.h == s.h.(pingAcked := false, send := t.h.send) && Ready(t.h.send) && t.h.send.frame.header == PING
    ensures t.h.send.frame.hasAck && t.h.send.frame.payload.Ping?
  {
    hide Inv, Reaches;
    t := Do(s, HostRuns(GO));
  }

  lemma Measure(s: System, rtt: nat) returns (t: System)
    requires Inv(s) && Shape(s) && Measuring(s, |s.h.meter.samples|, rtt) && |s.h.meter.samples| < 2 && rtt < PING_TIMEOUT_MICROS
    ensures Inv(t) && Shape(t) && Reaches(s, t) && Measuring(t, |s.h.meter.samples| + 1, rtt)
  {
    hide Inv, Reaches, AfterAck, Clocks.HostMicros;
    var r := AwaitReading(s);
    var u := PingRequested(r);
    t := HostDeliversAcked(u, rtt);
    PingTakes(u.h, u.clocks, rtt);
    Join(s, r, u);
    Join(s, u, t);
  }

  predicate Requesting(s: System, rtt: nat) {
    && Secured(s) && s.h.stage == INFO_SYNC && s.h.info == REQUESTING_INFO && |s.h.meter.samples| == 2 && s.h.syncGood == 0
    && s.h.rtt == rtt
    && s.r.stage == INFO_SYNC
  }

  lemma SettleRtt(s: System, rtt: nat) returns (t: System)
    requires Inv(s) && Shape(s) && Measuring(s, 2, rtt)
    ensures Inv(t) && Shape(t) && Reaches(s, t) && Requesting(t, rtt) && t.h.rssi == [] && t.r.info == AWAITING_REQUEST
  {
    hide Inv, Reaches;
    AverageInRange(s.h.meter, rtt, rtt);
    t := Do(s, HostRuns(GO));
  }

  lemma RequestInfo(s: System, rtt: nat) returns (t: System)
    requires Inv(s) && Shape(s) && Requesting(s, rtt) && s.h.rssi == [] && s.r.info == AWAITING_REQUEST
    ensures Inv(t) && Shape(t) && Reaches(s, t) && Requesting(t, rtt) && t.r.info == SENDING_REMOTE_INFO
  {
    hide Inv, Reaches;
    var u := Do(s, HostRuns(GO));
    var v, c := HostDelivers(u);
    t := v;
    Join(s, u, t);
  }

  lemma SendRemoteInfo(s: System, rtt: nat) returns (t: System)
    requires Inv(s) && Shape(s) && Requesting(s, rtt) && s.r.info == SENDING_REMOTE_INFO
    ensures Inv(t) && Shape(t) && Reaches(s, t) && Requesting(t, rtt) && t.r.info == SENDING_REMOTE_INFO && t.h.rssi != []
  {
    hide Inv, Reaches;
    var u := Do(s, RemoteRuns(GO));
    t := RemoteDelivers(u, 0);
    Join(s, u, t);
  }

  /** The clocks are being synchronized, whatever is pending; the last n errors of the remote's clock were good. */
  predicate Exchanging(s: System, n: nat, rtt: nat) {
    && s.h.session == s.r.session != 0 && s.r.partner == s.h.localId != 0 && s.h.partner == s.r.localId
    && s.h.encoder == s.r.encoder && s.h.encoder.stage.FullPower? && s.h.link.Linking? && s.r.link.Linking?
    && s.h.stage in {INFO_SYNC, CLOCK_SYNC} && s.h.info == SENDING_HOST_INFO
    && |s.h.meter.samples| == 2 && s.h.rssi != [] && s.h.syncGood == n && s.h.rtt == s.r.rtt == rtt < PING_TIMEOUT_MICROS
    && s.r.stage == CLOCK_SYNC && s.r.info == INFO_DONE
  }

  predicate Syncing(s: System, n: nat, rtt: nat) {
    BothIdle(s) && Exchanging(s, n, rtt)
  }

  lemma SendHostInfo(s: System, rtt: nat) returns (t: System)
    requires Inv(s) && Shape(s) && Requesting(s, rtt) && s.r.info == SENDING_REMOTE_INFO && s.h.rssi != [] && rtt < PING_TIMEOUT_MICROS
    ensures Inv(t) && Shape(t) && Reaches(s, t) && Syncing(t, 0, rtt)
  {
    hide Inv, Reaches;
    var u := Do(s, HostRuns(GO));
    var v := Do(u, HostRuns(GO));
    var w, c := HostDelivers(v);
    t := Do(w, RemoteRuns(GO));
    Join(s, u, v);
    Join(s, v, w);
    Join(s, w, t);
  }

  /** A result that has come in is used, and the next request made. */
  lemma AskClockNow(s: System, n: nat, rtt: nat) returns (t: System)
    requires Inv(s) && Shape(s) && Syncing(s, n, rtt)
    ensures Inv(t) && Shape(t) && Reaches(s, t) && t.clocks == s.clocks && t.h == s.h
    ensures Exchanging(t, n, rtt) && Ready(t.r.send) && t.r.send.frame == Short(t.r.requestId, NtpRequest(0)) && t.r.request.Requested?
    ensures t.r.offset == if s.r.request.ResultIn? then Clock.Wrap(s.r.offset + s.r.result) else s.r.offset
    ensures s.r.request.ResultIn? ==> t.r.tuned.Some?
  {
    hide Inv, Reaches, Clock.Wrap;
    t := Do(s, RemoteRuns(GO.(stale := true)));
  }

  /** The error the host finds in a request that is on its way for the given time. */
  function FlightError(s: System, time: int, flight: nat, rtt: nat): int {
    Clock.EstimationError(PairOf(s.clocks, s.h.offset, s.r.offset), time, flight, Latency.Ettm(rtt))
  }

  lemma FoundError(s: System, flight: nat, rtt: nat)
    ensures var estimate := Clock.Wrap(Clock.Wrap(s.clocks.RemoteMicros() + s.r.offset) + Latency.Ettm(rtt));
            s.h.EstimateError(Later(s.clocks, flight).HostMicros(), estimate) == FlightError(s, s.clocks.now, flight, rtt)
  {
    assert s.clocks.hostBase + (s.clocks.now + flight) == s.clocks.hostBase + s.clocks.now + flight;
    hide Clock.Wrap, Clock.Signed;
  }

  /** The request arrives and the host has its error. */
  lemma HearClock(s: System, n: nat, rtt: nat, flight: nat) returns (t: System)
    requires Inv(s) && Shape(s) && Exchanging(s, n, rtt) && s.h.send.Idle()
    requires Ready(s.r.send) && s.r.send.frame == Short(s.r.requestId, NtpRequest(0)) && s.r.request.Requested?
    ensures Inv(t) && Shape(t) && Reaches(s, t) && Syncing(t, n, rtt) && t.h.stage == CLOCK_SYNC
    ensures t.clocks == Later(s.clocks, flight) && t.h.offset == s.h.offset && t.r == s.r.(send := t.r.send)
    ensures t.h.transaction == Transaction(true, s.r.requestId, FlightError(s, s.clocks.now, flight, rtt))
  {
    hide Inv, Reaches, Clock.Wrap, Host.EstimateError, Clocks.HostMicros, Clocks.RemoteMicros, FlightError;
    t := RemoteDelivers(s, flight);
    FoundError(s, flight, rtt);
  }

  /** The host counts it and answers. */
  lemma AnswerClock(s: System, n: nat, rtt: nat) returns (t: System)
    requires Inv(s) && Shape(s) && Syncing(s, n, rtt) && n < 3 && s.h.stage == CLOCK_SYNC
    requires s.h.transaction.ready && s.h.transaction.id == s.r.requestId && s.r.request.Requested?
    ensures Inv(t) && Shape(t) && Reaches(s, t) && Syncing(t, Clock.CountAfter(n, s.h.transaction.result), rtt) && t.h.stage == CLOCK_SYNC
    ensures t.clocks == s.clocks && t.h.offset == s.h.offset && t.r.offset == s.r.offset && t.r.tuned == s.r.tuned
    ensures t.r.request.ResultIn? && t.r.result == s.h.transaction.result
  {
    hide Inv, Reaches;
    var u := Do(s, HostRuns(GO));
    var v, c := HostDelivers(u);
    t := v;
    Join(s, u, t);
  }

  /** A result is in, and it is the error of a request with that flight time. */
  ghost predicate Fitted(s: System, rtt: nat, flight: nat) {
    s.r.request.ResultIn? && exists time: int :: s.r.result == FlightError(s, time, flight, rtt)
  }

  lemma ExchangeClock(s: System, n: nat, rtt: nat, flight: nat) returns (t: System)
    requires Inv(s) && Shape(s) && Syncing(s, n, rtt) && n < 3
    ensures Inv(t) && Shape(t) && Reaches(s, t) && Fitted(t, rtt, flight) && t.h.stage == CLOCK_SYNC
    ensures Fitted(s, rtt, flight) ==> Syncing(t, n + 1, rtt) && t.r.tuned.Some?
    ensures Syncing(t, n + 1, rtt) || Syncing(t, 0, rtt)
  {
    hide Inv, Reaches, Syncing, Exchanging, FlightError;
    var u := AskClockNow(s, n, rtt);
    StillIdle(s, u, n, rtt);
    var v := HearClock(u, n, rtt, flight);
    t := AnswerClock(v, n, rtt);
    SamePair(u, t, flight, rtt);
    if Fitted(s, rtt, flight) {
      NoJitter(s, u, rtt, flight);
    }
    Join(s, u, v);
    Join(s, v, t);
  }

  lemma StillIdle(s: System, u: System, n: nat, rtt: nat)
    requires Syncing(s, n, rtt) && u.h == s.h
    ensures u.h.send.Idle()
  {
  }

  lemma SamePair(s: System, t: System, flight: nat, rtt: nat)
    requires t.clocks == s.clocks.(now := t.clocks.now) && t.h.offset == s.h.offset && t.r.offset == s.r.offset
    ensures forall time: int :: FlightError(t, time, flight, rtt) == FlightError(s, time, flight, rtt)
  {
  }

  /** Once the result is used, a request with the same flight time finds no error. */
  lemma NoJitter(s: System, u: System, rtt: nat, flight: nat)
    requires Fitted(s, rtt, flight) && u.clocks == s.clocks && u.h == s.h && u.r.offset == Clock.Wrap(s.r.offset + s.r.result)
    ensures FlightError(u, u.clocks.now, flight, rtt) == 0
  {
    var time: int :| s.r.result == FlightError(s, time, flight, rtt);
    Clock.NextErrorIsJitter(PairOf(s.clocks, s.h.offset, s.r.offset), time, flight, u.clocks.now, flight, Latency.Ettm(rtt));
  }

  lemma SwitchProtocol(s: System, rtt: nat) returns (t: System)
    requires Inv(s) && Shape(s) && Syncing(s, 3, rtt) && s.h.stage == CLOCK_SYNC && s.r.tuned.Some?
    ensures Inv(t) && Shape(t) && Reaches(s, t) && Secured(t) && t.h.stage == LINKING_DONE && t.r.stage == PROTOCOL_SWITCH_OVER
    ensures t.r.tuned.Some? && t.h.rtt == t.r.rtt == rtt
  {
    hide Inv, Reaches;
    var u := Do(s, HostRuns(GO));
    var v := Do(u, HostRuns(GO));
    t := HostDeliversAcked(v, 0);
    Join(s, u, v);
    Join(s, v, t);
  }

  /** A common link: same session, same key and IV, same round trip time, and clocks set by an exchange of the session. */
  predicate BothLinked(s: System) {
    && s.h.link.Linked? && s.r.link.Linked? && IsTuned(s)
    && s.h.session != 0 && s.h.encoder == s.r.encoder && s.h.rtt == s.r.rtt
  }

  lemma Link(s: System, rtt: nat) returns (t: System)
    requires Inv(s) && Shape(s) && Secured(s) && s.h.stage == LINKING_DONE && s.r.stage == PROTOCOL_SWITCH_OVER
    requires s.r.tuned.Some? && s.h.rtt == s.r.rtt == rtt
    ensures Inv(t) && Shape(t) && Reaches(s, t) && BothLinked(t) && t.h.rtt == rtt
  {
    hide Inv, Reaches;
    var u := Do(s, HostRuns(GO));
    var v := Do(u, RemoteRuns(GO));
    t := Do(v, RemoteRuns(GO));
    Join(s, u, v);
    Join(s, v, t);
  }

  lemma ExchangeKeys(s: System, rtt: nat) returns (t: System)
    requires Inv(s) && Shape(s) && AtStart(s) && s.h.localId != 0
    ensures Inv(t) && Shape(t) && Reaches(s, t) && Measuring(t, 0, rtt)
  {
    hide Inv, Reaches, Shape, AtStart, Found, Paired, RemoteKeyed, Keyed, Switching, Measuring;
    var a := Find(s);
    var b := Pair(a);
    Join(s, a, b);
    a := KeyRemote(b);
    Join(s, b, a);
    b := KeyHost(a);
    Join(s, a, b);
    a := StartCrypto(b);
    Join(s, b, a);
    t := StartLinking(a, rtt);
    Join(s, a, t);
  }

  lemma SyncInfo(s: System, rtt: nat) returns (t: System)
    requires Inv(s) && Shape(s) && Measuring(s, 0, rtt) && rtt < PING_TIMEOUT_MICROS
    ensures Inv(t) && Shape(t) && Reaches(s, t) && Syncing(t, 0, rtt)
  {
    hide Inv, Reaches, Shape, Requesting, Syncing;
    var a := Measure(s, rtt);
    var b := Measure(a, rtt);
    Join(s, a, b);
    a := SettleRtt(b, rtt);
    Join(s, b, a);
    b := RequestInfo(a, rtt);
    Join(s, a, b);
    a := SendRemoteInfo(b, rtt);
    Join(s, b, a);
    t := SendHostInfo(a, rtt);
    Join(s, a, t);
  }

  /** Three good errors in a row, whatever the first exchange of the session finds. */
  lemma SyncClocks(s: System, rtt: nat, flight: nat) returns (t: System)
    requires Inv(s) && Shape(s) && Syncing(s, 0, rtt)
    ensures Inv(t) && Shape(t) && Reaches(s, t) && Syncing(t, 3, rtt) && t.h.stage == CLOCK_SYNC && t.r.tuned.Some?
  {
    hide Inv, Reaches, Shape, Syncing, Fitted;
    var a := ExchangeClock(s, 0, rtt, flight);
    var n: nat := if Syncing(a, 1, rtt) then 1 else 0;
    var b := ExchangeClock(a, n, rtt, flight);
    Join(s, a, b);
    a := ExchangeClock(b, n + 1, rtt, flight);
    Join(s, b, a);
    t := a;
    if n == 0 {
      t := ExchangeClock(a, 2, rtt, flight);
      Join(s, a, t);
    }
  }

  /** However the two enabled ends got where they are, and whatever is on the air, they can still set up a link by
      themselves, with every round trip time below the ping time out and every steady flight time of the clock requests. */
  lemma CanLink(s: System, rtt: nat, flight: nat) returns (t: System)
    requires Inv(s) && s.h.localId != 0 && !s.h.link.Disabled? && !s.r.link.Disabled? && rtt < PING_TIMEOUT_MICROS
    ensures Reaches(s, t) && BothLinked(t) && t.h.rtt == rtt
  {
    hide Inv, Reaches, Shape, AtStart, Measuring, Syncing, BothLinked;
    HasShape(s);
    var a := Restart(s);
    var b := ExchangeKeys(a, rtt);
    Join(s, a, b);
    a := SyncInfo(b, rtt);
    Join(s, b, a);
    b := SyncClocks(a, rtt, flight);
    Join(s, a, b);
    a := SwitchProtocol(b, rtt);
    Join(s, b, a);
    t := Link(a, rtt);
    Join(s, a, t);
  }

  // ---------------------------------------------------------------------------------------------
  // A host whose id is 0

  /** The remote takes a partner with id 0 for none and never goes on to exchange keys with it. */
  predicate Unlinkable(s: System) {
    && s.h.localId == 0 && s.r.partner == 0 && !IsLinking(s.h.link) && !IsLinking(s.r.link)
    && (s.r.link.AwaitingLink? ==> s.r.stage <= AWAITING_HOST_KEY)
    && s.past.accepted == {}
    && (s.h.send.pending && s.h.send.frame.payload.IdBroadcast? ==> s.h.send.frame.payload.hostId == 0)
    && forall p :: p in s.toRemote && p.frame.payload.IdBroadcast? ==> p.frame.payload.hostId == 0
  }

  lemma HostStaysUnlinked(h: Host, c: Chance)
    requires h.send.Valid() && h.meter.Valid() && !IsLinking(h.link) && !(h.link.AwaitingLink? && h.stage == SWITCH_OVER)
    requires h.send.pending && h.send.frame.payload.IdBroadcast? ==> h.send.frame.payload.hostId == h.localId
    ensures var g := h.Callback(c);
            && g.localId == h.localId && !IsLinking(g.link)
            && (g.send.pending && g.send.frame.payload.IdBroadcast? ==> g.send.frame.payload.hostId == h.localId)
  {
  }

  lemma HostRunsUnlinkable(s: System, c: Chance)
    requires Inv(s) && Shape(s) && Unlinkable(s)
    ensures Unlinkable(Step(s, HostRuns(c)))
  {
    assert !(s.h.link.AwaitingLink? && s.h.stage == SWITCH_OVER);
    hide Inv, Host.Callback;
    HostStaysUnlinked(s.h, HostChance(s, c));
  }

  lemma RemoteStaysUnlinked(r: Remote, c: Chance)
    requires r.send.Valid() && r.partner == 0 && !IsLinking(r.link) && (r.link.AwaitingLink? ==> r.stage <= AWAITING_HOST_KEY)
    ensures var q := r.Callback(c);
            q.partner == 0 && !IsLinking(q.link) && (q.link.AwaitingLink? ==> q.stage <= AWAITING_HOST_KEY)
  {
  }

  lemma RemoteRunsUnlinkable(s: System, c: Chance)
    requires Shape(s) && Unlinkable(s)
    ensures Unlinkable(Step(s, RemoteRuns(c)))
  {
    RemoteStaysUnlinked(s.r, RemoteChance(s, c));
    hide Remote.Callback;
  }

  lemma RemoteHearsUnlinkable(s: System, p: AirPacket, c: Chance)
    requires Shape(s) && Unlinkable(s)
    ensures Unlinkable(Step(s, RemoteHears(p, c)))
  {
  }

  lemma HostHearsUnlinkable(s: System, p: AirPacket)
    requires Shape(s) && Unlinkable(s)
    ensures Unlinkable(Step(s, HostHears(p)))
  {
  }

  lemma StaysUnlinkable(s: System, a: Action)
    requires Inv(s) && Shape(s) && Unlinkable(s)
    ensures Unlinkable(Step(s, a))
  {
    match a
    case HostRuns(c) => hide *; HostRunsUnlinkable(s, c);
    case RemoteRuns(c) => hide *; RemoteRunsUnlinkable(s, c);
    case RemoteHears(p, c) => hide *; RemoteHearsUnlinkable(s, p, c);
    case HostHears(p) => hide *; HostHearsUnlinkable(s, p);
    case _ => hide Inv, Shape;
  }

  lemma NextUnlinkable(s: System, t: System)
    requires Inv(s) && Unlinkable(s) && Next(s, t)
    ensures Unlinkable(t)
  {
    hide Inv, Unlinkable, Step;
    var a: Action :| t == Step(s, a);
    StaysUnlinkable(s, a);
  }

  lemma {:induction false} RunUnlinkable(run: seq<System>, k: nat)
    requires IsRun(run) && k < |run| && run[0].h.localId == 0
    ensures Unlinkable(run[k])
  {
    hide Inv, Unlinkable, Next;
    if k == 0 {
      StartUnlinkable(run[0]);
    } else {
      RunUnlinkable(run, k - 1);
      RunKeepsInv(run, k - 1);
      assert NextAt(run, k - 1);
      NextUnlinkable(run[k - 1], run[k]);
    }
  }

  lemma StartUnlinkable(s: System)
    requires Initial(s) && s.h.localId == 0
    ensures Unlinkable(s)
  {
  }

  lemma UpdateKeepsId(h: Host, newState: LinkState, c: Chance)
    ensures h.UpdateLinkState(newState, c).localId == h.localId
  {
  }

  lemma AwaitingKeepsId(h: Host, c: Chance)
    ensures h.OnAwaitingLink(c).localId == h.localId && h.OnLinking(c).localId == h.localId
  {
    hide Host.UpdateLinkState;
    UpdateKeepsId(h, Linking, c);
    UpdateKeepsId(h, Linked, c);
    UpdateKeepsId(h, AwaitingLink, c);
  }

  lemma CallbackKeepsId(h: Host, c: Chance)
    requires h.send.Valid() && h.meter.Valid()
    ensures h.Callback(c).localId == h.localId
  {
    hide Host.UpdateLinkState, Host.OnAwaitingLink, Host.OnLinking;
    var g := h.(send := h.send.Callback(c.send).0);
    AwaitingKeepsId(g, c);
    UpdateKeepsId(g, AwaitingLink, c);
    UpdateKeepsId(g, AwaitingSleeping, c);
  }

  lemma ReceiveKeepsId(h: Host, p: Packet, micros: nat)
    requires |h.rssi| <= RSSI_SAMPLES
    ensures h.Receive(p, micros).localId == h.localId
  {
  }

  lemma StepKeepsId(s: System, a: Action)
    requires Shape(s)
    ensures Step(s, a).h.localId == s.h.localId
  {
    hide Host.Callback, Remote.Callback, Host.Receive, Remote.Receive, Remote.ReceiveAcked;
    if a.HostRuns? { CallbackKeepsId(s.h, HostChance(s, a.c)); }
    if a.HostHears? { ReceiveKeepsId(s.h, a.p.frame, s.clocks.HostMicros()); }
  }

  lemma NextKeepsId(s: System, t: System)
    requires Next(s, t)
    ensures t.h.localId == s.h.localId
  {
    hide Step;
    var a: Action :| t == Step(s, a);
    StepKeepsId(s, a);
  }

  lemma {:induction false} RunKeepsId(run: seq<System>, k: nat)
    requires IsRun(run) && k < |run|
    ensures run[k].h.localId == run[0].h.localId
  {
    hide Next, Initial;
    if k == 0 {
    } else {
      RunKeepsId(run, k - 1);
      assert NextAt(run, k - 1);
      NextKeepsId(run[k - 1], run[k]);
    }
  }

  /** A host with id 0 is broadcast as such, and in no run does either end start linking. */
  lemma ZeroHostNeverLinks(run: seq<System>, k: nat)
    requires IsRun(run) && k < |run| && run[0].h.localId == 0
    ensures !IsLinking(run[k].h.link) && !IsLinking(run[k].r.link)
  {
    hide Next, Initial;
    RunUnlinkable(run, k);
  }

  /** A service that is off stays off until it is switched on. */
  lemma OffStaysOff(s: System, t: System)
    requires Calm(s, t)
    ensures s.h.link.Disabled? ==> t.h.link.Disabled?
    ensures s.r.link.Disabled? ==> t.r.link.Disabled?
  {
    hide Host.Callback, Remote.Callback;
  }

  lemma {:induction false} ContinuesOff(run: seq<System>, more: seq<System>, k: nat)
    requires Continues(run, more) && |run| - 1 <= k < |more|
    ensures run[|run| - 1].h.link.Disabled? ==> more[k].h.link.Disabled?
    ensures run[|run| - 1].r.link.Disabled? ==> more[k].r.link.Disabled?
  {
    hide Calm, IsRun;
    if k == |run| - 1 {
      assert more[k] == run[k];
    } else {
      ContinuesOff(run, more, k - 1);
      assert CalmAt(more, k - 1);
      OffStaysOff(more[k - 1], more[k]);
    }
  }

  /** From the end of every run, whatever was lost, repeated or is still on the air and wherever the two ends are, the
      run can go on to a common link without either service being switched off or on - just when both services are on
      and the host's id is not 0. */
  lemma LinkableIffHostHasId(run: seq<System>)
    requires IsRun(run)
    ensures (exists more: seq<System> :: Continues(run, more) && BothLinked(more[|more| - 1]))
            <==> run[0].h.localId != 0 && !run[|run| - 1].h.link.Disabled? && !run[|run| - 1].r.link.Disabled?
  {
    hide Inv, Next, Initial, BothLinked, Can;
    var last: nat := |run| - 1;
    RunKeepsInv(run, last);
    RunKeepsId(run, last);
    if run[0].h.localId != 0 && !run[last].h.link.Disabled? && !run[last].r.link.Disabled? {
      var t := CanLink(run[last], 0, 0);
      var n: nat :| Can(run[last], t, n);
      var more := RunContinues(run, t, n);
      assert BothLinked(more[|more| - 1]);
    }
    forall more: seq<System> | Continues(run, more) && BothLinked(more[|more| - 1])
      ensures run[0].h.localId != 0 && !run[last].h.link.Disabled? && !run[last].r.link.Disabled?
    {
      LinkedWasOn(run, more);
    }
  }

  lemma LinkedWasOn(run: seq<System>, more: seq<System>)
    requires Continues(run, more) && BothLinked(more[|more| - 1])
    ensures run[0].h.localId != 0 && !run[|run| - 1].h.link.Disabled? && !run[|run| - 1].r.link.Disabled?
  {
    hide Next, Initial, Calm;
    ContinuesOff(run, more, |more| - 1);
    if run[0].h.localId == 0 {
      ZeroHostNeverLinks(more, |more| - 1);
    }
  }
}
