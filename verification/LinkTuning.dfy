/** The linked phase of the clocks: a tune reply moves the clock of a linked remote, and from every common link a tune
    exchange can be completed without losing the link. */
module LinkTuning {
  import opened Common
  import opened LinkCrypto
  import opened SendService
  import opened Latency
  import opened LinkNodes
  import opened LinkSystem
  import opened LinkClocks
  import LinkProgress
  import Clock

  // ---------------------------------------------------------------------------------------------
  // A reply is used

  /** The remote is linked, hears its host, has no report to send and nothing pending: its service is about to keep the link. */
  predicate KeepsLink(r: Remote, c: Chance) {
    r.link.Linked? && r.send.Idle() && !c.lost && !c.report
  }

  /** A result that is in moves the clock by the error, is used once, and is remembered as the exchange that set the clock. */
  lemma ResultMovesClock(r: Remote, c: Chance)
    requires r.send.Valid() && KeepsLink(r, c) && r.request.ResultIn?
    ensures var q := r.Callback(c);
            && q.offset == Clock.Wrap(r.offset + r.result) && q.tuned == Some(r.requestId) && q.request.Clear?
            && q.link.Linked? && q.session == r.session && q.rtt == r.rtt && q.send == r.send
  {
  }

  /** In every run: the service run that finds a tune reply leaves the host ahead of the remote by the ETTM less the flight
      time of the request that was answered. */
  lemma TuneReplyMovesClock(run: seq<System>, k: nat, c: Chance)
    requires IsRun(run) && k + 1 < |run| && Shape(run[k]) && run[k + 1] == Step(run[k], RemoteRuns(c))
    requires KeepsLink(run[k].r, c) && run[k].r.request.ResultIn?
    ensures var s, t := run[k], run[k + 1];
            && t.r.tuned == Some(s.r.requestId) && t.r.offset == Clock.Wrap(s.r.offset + s.r.result) && t.r.request.Clear?
            && (IsLinking(s.h.link) && s.h.session == s.r.session ==>
                  && IsTuned(t)
                  && exists flight: nat :: HeardAfter(t.trips, s.r.requestId, flight)
                       && PairOf(t.clocks, t.h.offset, t.r.offset).Lead() == Clock.Wrap(Latency.Ettm(t.r.rtt) - flight))
  {
    hide Next, Initial;
    ResultMovesClock(run[k].r, RemoteChance(run[k], c));
    if IsLinking(run[k].h.link) && run[k].h.session == run[k].r.session {
      ServiceLeavesHost(run[k], c);
      LeadIsFlightError(run, k + 1);
      var flight: nat :| LastFlight(run[k + 1], flight)
        && PairOf(run[k + 1].clocks, run[k + 1].h.offset, run[k + 1].r.offset).Lead() == Clock.Wrap(Latency.Ettm(run[k + 1].r.rtt) - flight);
      assert HeardAfter(run[k + 1].trips, run[k].r.requestId, flight);
    }
  }

  lemma ServiceLeavesHost(s: System, c: Chance)
    requires Shape(s)
    ensures Step(s, RemoteRuns(c)).h == s.h
  {
    hide Remote.Callback;
  }

  // ---------------------------------------------------------------------------------------------
  // A request that gets no reply

  /** The answer to that clock request has been on the air. */
  ghost predicate Replied(s: System, id: nat) {
    exists p :: p in s.toRemote && p.frame.payload.TuneReply? && p.frame.id == id
  }

  predicate Waits(r: Remote, id: nat, offset: nat) {
    r.link.Linked? && r.request.Requested? && r.requestId == id && r.offset == offset
  }

  lemma ServiceWaits(r: Remote, c: Chance)
    requires r.link.Linked? && r.request.Requested? && r.send.Valid()
    ensures var q := r.Callback(c); q.link.Linked? ==> Waits(q, r.requestId, r.offset)
  {
  }

  lemma HearingWaits(r: Remote, p: Packet, c: Chance)
    requires r.link.Linked? && r.request.Requested? && |r.rssi| <= RSSI_SAMPLES
    ensures Waits(r.Receive(p, c), r.requestId, r.offset) || (p.payload.TuneReply? && p.id == r.requestId)
    ensures Waits(r.ReceiveAcked(p).0, r.requestId, r.offset)
  {
  }

  lemma SwitchingLeavesLink(r: Remote, c: Chance, on: bool)
    requires r.link.Linked?
    ensures !r.UpdateLinkState(if on then Setup else Disabled, c).link.Linked?
  {
  }

  lemma StepWaits(s: System, a: Action, id: nat, offset: nat)
    requires Shape(s) && Waits(s.r, id, offset) && Step(s, a).r.link.Linked?
    ensures Waits(Step(s, a).r, id, offset) || Replied(s, id)
    ensures s.toRemote <= Step(s, a).toRemote
  {
    hide Remote.Callback, Remote.Receive, Remote.ReceiveAcked, Remote.UpdateLinkState, Host.Callback, Host.Receive, Host.UpdateLinkState;
    match a
    case RemoteRuns(c) => ServiceWaits(s.r, RemoteChance(s, c));
    case RemoteHears(p, c) => HearingWaits(s.r, p.frame, RemoteChance(s, c));
    case RemoteEnables(on, c) => SwitchingLeavesLink(s.r, RemoteChance(s, c), on);
    case _ =>
  }

  lemma NextWaits(s: System, t: System, id: nat, offset: nat)
    requires Next(s, t) && Waits(s.r, id, offset) && t.r.link.Linked?
    ensures Waits(t.r, id, offset) || Replied(s, id)
    ensures s.toRemote <= t.toRemote
  {
    hide Step;
    var a: Action :| t == Step(s, a);
    StepWaits(s, a, id, offset);
  }

  /** In every run a tune request that is lost, or whose reply is, ends the tuning of the link: as long as the remote stays
      linked and no reply to it has been on the air, it makes no other request and its clock stays as it is. */
  lemma {:induction false} TuneIsNotRetried(run: seq<System>, j: nat, k: nat)
    requires IsRun(run) && j <= k < |run| && run[j].r.request.Requested?
    requires forall m :: j <= m <= k ==> run[m].r.link.Linked?
    ensures Waits(run[k].r, run[j].r.requestId, run[j].r.offset) || Replied(run[k], run[j].r.requestId)
  {
    hide Next, Initial;
    if j == k {
    } else {
      TuneIsNotRetried(run, j, k - 1);
      assert NextAt(run, k - 1);
      RunKeepsInv(run, k - 1);
      AirGrows(run[k - 1], run[k]);
      if Replied(run[k - 1], run[j].r.requestId) {
        var p :| p in run[k - 1].toRemote && p.frame.payload.TuneReply? && p.frame.id == run[j].r.requestId;
        assert p in run[k].toRemote;
      } else {
        NextWaits(run[k - 1], run[k], run[j].r.requestId, run[j].r.offset);
      }
    }
  }

  lemma AirGrows(s: System, t: System)
    requires Next(s, t)
    ensures s.toRemote <= t.toRemote
  {
    hide Remote.Callback, Remote.Receive, Remote.ReceiveAcked, Remote.UpdateLinkState, Host.Callback, Host.Receive, Host.UpdateLinkState;
    var a: Action :| t == Step(s, a);
  }

  // ---------------------------------------------------------------------------------------------
  // Without loss of link

  /** Both ends linked, in one session. */
  predicate Up(s: System) {
    s.h.link.Linked? && s.r.link.Linked? && s.h.session == s.r.session != 0
  }

  /** A step that switches neither service on or off and keeps the link up. */
  ghost predicate Steady(s: System, t: System) {
    Up(s) && Up(t) && LinkProgress.Calm(s, t)
  }

  ghost predicate SteadyAt(path: seq<System>, i: nat)
    requires i + 1 < |path|
  {
    Steady(path[i], path[i + 1])
  }

  ghost predicate IsPath(path: seq<System>, s: System, t: System) {
    path != [] && path[0] == s && path[|path| - 1] == t && forall i: nat :: i + 1 < |path| ==> SteadyAt(path, i)
  }

  ghost predicate Keeps(s: System, t: System) {
    Inv(t) && exists path: seq<System> :: IsPath(path, s, t)
  }

  lemma PathsJoin(a: seq<System>, b: seq<System>, s: System, t: System, u: System) returns (path: seq<System>)
    requires IsPath(a, s, t) && IsPath(b, t, u)
    ensures IsPath(path, s, u)
  {
    hide Steady;
    path := a + b[1..];
    forall i: nat | i + 1 < |path|
      ensures SteadyAt(path, i)
    {
      if i + 1 < |a| {
        assert SteadyAt(a, i);
      } else {
        assert SteadyAt(b, i + 1 - |a|);
        assert path[i] == b[i + 1 - |a|] && path[i + 1] == b[i + 2 - |a|];
      }
    }
  }

  lemma Join(s: System, t: System, u: System)
    requires Keeps(s, t) && Keeps(t, u)
    ensures Keeps(s, u)
  {
    hide Inv, IsPath;
    var a: seq<System> :| IsPath(a, s, t);
    var b: seq<System> :| IsPath(b, t, u);
    var path := PathsJoin(a, b, s, t, u);
  }

  lemma Take(s: System, a: Action) returns (t: System)
    requires Inv(s) && Shape(s) && !a.HostEnables? && !a.RemoteEnables? && Up(s) && Up(Step(s, a))
    ensures t == Step(s, a) && Inv(t) && Shape(t) && Keeps(s, t)
  {
    t := Step(s, a);
    StepKeepsInv(s, a);
    LinkProgress.HasShape(t);
    hide Inv, Step;
    assert SteadyAt([s, t], 0);
    assert IsPath([s, t], s, t);
  }

  lemma Stay(s: System)
    requires Inv(s)
    ensures Keeps(s, s)
  {
    hide Inv;
    assert IsPath([s], s, s);
  }

  // ---------------------------------------------------------------------------------------------
  // A tune exchange

  const GO: Chance := LinkProgress.GO

  /** What the remote has pending ends; nothing else changes. */
  lemma {:induction false} RemoteEnds(s: System) returns (t: System)
    requires Inv(s) && Shape(s) && Up(s)
    ensures Inv(t) && Shape(t) && Up(t) && Keeps(s, t) && t.clocks == s.clocks
    ensures t.h == s.h && t.r == s.r.(send := t.r.send) && t.r.send.Idle() && t.past.unused >= s.past.unused
    decreases LinkProgress.Left(s.r.send)
  {
    hide Inv, Keeps, Remote.OnService;
    if s.r.send.Idle() {
      Stay(s);
      t := s;
    } else {
      var u := Take(s, RemoteRuns(GO.(send := Env(s.r.send.start, true, true))));
      t := RemoteEnds(u);
      Join(s, u, t);
    }
  }

  lemma {:induction false} HostEnds(s: System) returns (t: System)
    requires Inv(s) && Shape(s) && Up(s)
    ensures Inv(t) && Shape(t) && Up(t) && Keeps(s, t) && t.clocks == s.clocks
    ensures t.r == s.r && t.h == s.h.(send := t.h.send) && t.h.send.Idle() && t.past.unused >= s.past.unused
    decreases LinkProgress.Left(s.h.send)
  {
    hide Inv, Keeps, Host.OnService;
    if s.h.send.Idle() {
      Stay(s);
      t := s;
    } else {
      var u := Take(s, HostRuns(GO.(send := Env(s.h.send.start, true, true))));
      t := HostEnds(u);
      Join(s, u, t);
    }
  }

  /** Both ends idle, under one key and IV and with one round trip time. */
  predicate Resting(s: System) {
    && Up(s) && s.h.send.Idle() && s.r.send.Idle() && s.h.encoder == s.r.encoder && s.h.rtt == s.r.rtt < PING_TIMEOUT_MICROS
  }

  /** With no request out and a tune due, the remote asks under a new id. */
  lemma Ask(s: System) returns (t: System)
    requires Inv(s) && Shape(s) && Resting(s) && s.r.request.Clear?
    ensures Inv(t) && Shape(t) && Up(t) && Keeps(s, t) && t.clocks == s.clocks && t.h == s.h
    ensures t.r == s.r.(request := Requested, requestId := s.past.unused, result := 0, send := t.r.send)
    ensures LinkProgress.Ready(t.r.send) && t.r.send.frame == Short(s.past.unused, TuneRequest(0))
  {
    hide Inv, Keeps;
    t := Take(s, RemoteRuns(GO.(tune := true)));
  }

  lemma RequestLeaves(s: System) returns (t: System)
    requires Inv(s) && Shape(s) && Up(s) && LinkProgress.Ready(s.r.send)
    ensures Inv(t) && Shape(t) && Up(t) && Keeps(s, t) && t.clocks == s.clocks && t.h == s.h
    ensures t.r == s.r.(send := s.r.OnPreSend(RemoteChance(s, GO)).send.(status := WaitingForSentOk))
    ensures AirPacket(s.r.encoder.OnAir(), t.r.send.frame) in t.toHost
  {
    hide Inv, Keeps, Remote.OnService;
    t := Take(s, RemoteRuns(GO));
  }

  lemma RequestReported(s: System) returns (t: System)
    requires Inv(s) && Shape(s) && Up(s) && s.r.send.pending && s.r.send.status.WaitingForSentOk? && !s.r.send.frame.hasAck
    ensures Inv(t) && Shape(t) && Up(t) && Keeps(s, t) && t.clocks == s.clocks && t.h == s.h
    ensures t.r == s.r.(send := s.r.send.ClearSendRequest())
  {
    hide Inv, Keeps, Remote.OnService;
    var u := Take(s, RemoteSentOk(s.r.send.frame.header));
    t := Take(u, RemoteRuns(GO));
    Join(s, u, t);
  }

  /** What the remote's clock estimates when it sends, and by how much that is off when it is heard. */
  function Estimate(s: System): nat {
    Clock.Wrap(Clock.Wrap(s.clocks.RemoteMicros() + s.r.offset) + Latency.Ettm(s.r.rtt))
  }

  /** The request is on its way for the given time, and the host has the error. */
  lemma RequestArrives(s: System, flight: nat) returns (t: System)
    requires Inv(s) && Shape(s) && Up(s) && s.h.encoder == s.r.encoder && s.h.send.Idle() && s.r.rtt != INVALID_LATENCY
    requires LinkProgress.Ready(s.r.send) && s.r.send.frame == Short(s.r.requestId, TuneRequest(0))
    ensures Inv(t) && Shape(t) && Up(t) && Keeps(s, t) && t.clocks == LinkProgress.Later(s.clocks, flight)
    ensures t.r == s.r.(send := t.r.send) && t.r.send.Idle()
    ensures t.h == s.h.(transaction := t.h.transaction)
    ensures t.h.transaction == Transaction(true, s.r.requestId, s.h.EstimateError(LinkProgress.Later(s.clocks, flight).HostMicros(), Estimate(s)))
  {
    hide Inv, Keeps, Clock.Wrap, Host.EstimateError, Clocks.HostMicros, Clocks.RemoteMicros;
    var u := RequestLeaves(s);
    var v := Take(u, Wait(flight));
    var w := Take(v, HostHears(AirPacket(s.r.encoder.OnAir(), u.r.send.frame)));
    t := RequestReported(w);
    Join(s, u, v);
    Join(s, v, w);
    Join(s, w, t);
  }

  /** The host answers the request it has. */
  lemma Answer(s: System) returns (t: System)
    requires Inv(s) && Shape(s) && Up(s) && s.h.send.Idle() && s.h.transaction.ready
    ensures Inv(t) && Shape(t) && Up(t) && Keeps(s, t) && t.clocks == s.clocks && t.r == s.r
    ensures t.h.encoder == s.h.encoder && t.h.rtt == s.h.rtt && t.h.offset == s.h.offset && LinkProgress.Ready(t.h.send)
    ensures t.h.send.frame == Short(s.h.transaction.id, TuneReply(s.h.transaction.result))
  {
    hide Inv, Keeps;
    t := Take(s, HostRuns(GO));
  }

  lemma AnswerLeaves(s: System) returns (t: System)
    requires Inv(s) && Shape(s) && Up(s) && LinkProgress.Ready(s.h.send) && s.h.send.frame.payload.TuneReply?
    ensures Inv(t) && Shape(t) && Up(t) && Keeps(s, t) && t.clocks == s.clocks && t.r == s.r
    ensures t.h == s.h.(send := s.h.send.(status := WaitingForSentOk))
    ensures AirPacket(s.h.encoder.OnAir(), s.h.send.frame) in t.toRemote
  {
    hide Inv, Keeps, Host.OnService;
    t := Take(s, HostRuns(GO));
  }

  lemma AnswerReported(s: System) returns (t: System)
    requires Inv(s) && Shape(s) && Up(s) && s.h.send.pending && s.h.send.status.WaitingForSentOk? && !s.h.send.frame.hasAck
    ensures Inv(t) && Shape(t) && Up(t) && Keeps(s, t) && t.clocks == s.clocks && t.r == s.r
    ensures t.h == s.h.(send := s.h.send.ClearSendRequest())
  {
    hide Inv, Keeps, Host.OnService;
    var u := Take(s, HostSentOk(s.h.send.frame.header));
    t := Take(u, HostRuns(GO));
    Join(s, u, t);
  }

  lemma AnswerArrives(s: System, error: int) returns (t: System)
    requires Inv(s) && Shape(s) && Up(s) && s.h.encoder == s.r.encoder && s.r.request.Requested?
    requires LinkProgress.Ready(s.h.send) && s.h.send.frame == Short(s.r.requestId, TuneReply(error))
    ensures Inv(t) && Shape(t) && Up(t) && Keeps(s, t) && t.clocks == s.clocks
    ensures t.h == s.h.(send := s.h.send.ClearSendRequest())
    ensures t.r == s.r.(request := ResultIn, result := error)
  {
    hide Inv, Keeps;
    var u := AnswerLeaves(s);
    var v := Take(u, RemoteHears(AirPacket(s.h.encoder.OnAir(), s.h.send.frame), GO));
    t := AnswerReported(v);
    Join(s, u, v);
    Join(s, v, t);
  }

  lemma Tune(s: System) returns (t: System)
    requires Inv(s) && Shape(s) && Up(s) && s.r.send.Idle() && s.r.request.ResultIn?
    ensures Inv(t) && Shape(t) && Up(t) && Keeps(s, t) && t.clocks == s.clocks && t.h == s.h
    ensures t.r.offset == Clock.Wrap(s.r.offset + s.r.result) && t.r.tuned == Some(s.r.requestId) && t.r.request.Clear? && t.r.rtt == s.r.rtt
  {
    ResultMovesClock(s.r, RemoteChance(s, GO));
    ServiceLeavesHost(s, GO);
    hide Inv, Keeps, Clock.Wrap;
    t := Take(s, RemoteRuns(GO));
  }

  /** From an exchange with the given flight on, the host is ahead by the ETTM less that flight. */
  predicate TunedBy(s: System, t: System, flight: nat) {
    && t.r.tuned.Some? && t.r.tuned.value >= s.past.unused && t.r.request.Clear?
    && PairOf(t.clocks, t.h.offset, t.r.offset).Lead() == Clock.Wrap(Latency.Ettm(t.r.rtt) - flight)
  }

  lemma ExchangeFrom(s: System, flight: nat) returns (t: System)
    requires Inv(s) && Shape(s) && Resting(s) && s.r.request.Clear?
    ensures Inv(t) && Up(t) && Keeps(s, t) && TunedBy(s, t, flight)
  {
    hide Inv, Keeps, Host.EstimateError, Clock.Wrap, Clock.EstimationError, Estimate, LinkProgress.Ready, LinkProgress.FlightError;
    var a := Ask(s);
    var b := RequestArrives(a, flight);
    var c := Answer(b);
    var d := AnswerArrives(c, b.h.transaction.result);
    t := Tune(d);
    Join(s, a, b);
    Join(s, b, c);
    Join(s, c, d);
    Join(s, d, t);
    LeadsByExchange(a, t, flight, b.h.transaction.result);
  }

  lemma LeadsByExchange(a: System, t: System, flight: nat, error: int)
    requires error == a.h.EstimateError(LinkProgress.Later(a.clocks, flight).HostMicros(), Estimate(a))
    requires t.clocks == LinkProgress.Later(a.clocks, flight) && t.h.offset == a.h.offset && t.r.offset == Clock.Wrap(a.r.offset + error)
    requires t.r.rtt == a.r.rtt
    ensures PairOf(t.clocks, t.h.offset, t.r.offset).Lead() == Clock.Wrap(Latency.Ettm(t.r.rtt) - flight)
  {
    LinkProgress.FoundError(a, flight, a.r.rtt);
    var p := PairOf(a.clocks, a.h.offset, a.r.offset);
    Clock.ExchangeLeavesFlightError(p, a.clocks.now, flight, Latency.Ettm(a.r.rtt));
    hide Clock.Wrap, Clock.EstimationError;
    assert PairOf(t.clocks, t.h.offset, t.r.offset) == Clock.Exchange(p, a.clocks.now, flight, Latency.Ettm(a.r.rtt));
  }

  lemma CommonLinkRests(s: System) returns (t: System)
    requires Inv(s) && Shape(s) && LinkProgress.BothLinked(s)
    ensures Inv(t) && Shape(t) && Keeps(s, t) && Resting(t) && t.r.request == s.r.request && t.past.unused >= s.past.unused
  {
    TimesAgree(s.h, s.r, s.past);
    hide Inv, Keeps;
    var u := RemoteEnds(s);
    t := HostEnds(u);
    Join(s, u, t);
  }

  /** The longer run goes on from the end of the shorter with the link up all the time, and neither service switched. */
  ghost predicate StaysUp(run: seq<System>, more: seq<System>) {
    && IsRun(more) && run != [] && run <= more
    && forall i: nat :: |run| - 1 <= i && i + 1 < |more| ==> SteadyAt(more, i)
  }

  lemma PathExtends(run: seq<System>, path: seq<System>, t: System) returns (more: seq<System>)
    requires IsRun(run) && IsPath(path, run[|run| - 1], t)
    ensures StaysUp(run, more) && more[|more| - 1] == t
  {
    hide Next, Initial, Steady;
    more := run + path[1..];
    var n: nat := |run| - 1;
    forall i: nat | n <= i && i + 1 < |more|
      ensures SteadyAt(more, i)
    {
      assert SteadyAt(path, i - n);
      assert more[i] == path[i - n] && more[i + 1] == path[i + 1 - n];
    }
    forall i: nat | i + 1 < |more|
      ensures NextAt(more, i)
    {
      if i < n {
        assert NextAt(run, i);
      } else {
        assert SteadyAt(more, i);
        SteadyIsNext(more[i], more[i + 1]);
      }
    }
  }

  lemma SteadyIsNext(s: System, t: System)
    requires Steady(s, t)
    ensures Next(s, t)
  {
    LinkProgress.CalmIsNext(s, t);
  }

  /** From the end of every run in a common link with no clock request out, whatever is pending or on the air, the run can go
      on, the link up all the time, to the end of a tune exchange whose request took any given time: then the clocks are
      apart by the ETTM less that time, set by a request that had not been made before. */
  lemma TuneCompletes(run: seq<System>, flight: nat)
    requires IsRun(run) && LinkProgress.BothLinked(run[|run| - 1]) && run[|run| - 1].r.request.Clear?
    ensures exists more: seq<System> :: StaysUp(run, more) && TunedBy(run[|run| - 1], more[|more| - 1], flight)
  {
    hide Inv, Next, Initial, LinkProgress.BothLinked, TunedBy;
    var s := run[|run| - 1];
    RunKeepsInv(run, |run| - 1);
    LinkProgress.HasShape(s);
    var u := CommonLinkRests(s);
    var t := ExchangeFrom(u, flight);
    Join(s, u, t);
    TunedSince(s, u, t, flight);
    var path: seq<System> :| IsPath(path, s, t);
    var more := PathExtends(run, path, t);
  }

  lemma TunedSince(s: System, u: System, t: System, flight: nat)
    requires TunedBy(u, t, flight) && u.past.unused >= s.past.unused
    ensures TunedBy(s, t, flight)
  {
  }
}
