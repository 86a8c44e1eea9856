/** What becomes of any state of a run once the surroundings are quiet: no local write, no change of a link, and a packet
    is heard only when it has just been transmitted. The states from which replication can still be completed are told
    from those in which it is stuck. */
module SyncRecovery {
  import opened Checksum
  import opened Surfaces
  import opened SendService
  import opened SyncNodes
  import opened SyncSystem
  import opened SyncConvergence

  /** A callback of either end, in any surroundings, with the delivery of what it transmits; or a sent report. */
  datatype Move = WriterMoves(env: Env) | ReaderMoves(env: Env, expired: bool) | WriterReported | ReaderReported

  function Make(s: System, m: Move): (t: System)
    requires Inv(s)
    ensures Inv(t)
  {
    match m
    case WriterMoves(env) =>
      var t := Do(s, WriterRuns(env));
      if s.w.core.enabled && s.w.core.send.Callback(env).1.Transmitted? then Do(t, ReaderHears(s.w.core.send.frame, env.now)) else t
    case ReaderMoves(env, expired) =>
      var t := Do(s, ReaderRuns(env, expired));
      if s.r.core.enabled && s.r.core.send.Callback(env).1.Transmitted? then Do(t, WriterHears(s.r.core.send.frame)) else t
    case WriterReported => Do(s, WriterSentOk(s.w.core.send.frame.header))
    case ReaderReported => Do(s, ReaderSentOk(s.r.core.send.frame.header))
  }

  function After(s: System, moves: seq<Move>): (t: System)
    requires Inv(s)
    ensures Inv(t)
    decreases |moves|
  {
    if moves == [] then s else After(Make(s, moves[0]), moves[1..])
  }

  ghost predicate Leads(s: System, t: System) {
    Inv(s) && exists moves: seq<Move> :: After(s, moves) == t
  }

  lemma {:induction false} AfterJoins(s: System, a: seq<Move>, b: seq<Move>)
    requires Inv(s)
    ensures After(s, a + b) == After(After(s, a), b)
    decreases |a|
  {
    hide Make, Inv;
    if a == [] {
      assert a + b == b;
    } else {
      assert (a + b)[0] == a[0] && (a + b)[1..] == a[1..] + b;
      AfterJoins(Make(s, a[0]), a[1..], b);
    }
  }

  lemma Join(s: System, t: System, u: System)
    requires Leads(s, t) && Leads(t, u)
    ensures Leads(s, u)
  {
    hide Inv, After;
    var a: seq<Move> :| After(s, a) == t;
    var b: seq<Move> :| After(t, b) == u;
    AfterJoins(s, a, b);
  }

  lemma Makes(s: System, m: Move)
    requires Inv(s)
    ensures Leads(s, Make(s, m))
  {
    hide Make, Inv;
    assert After(s, [m]) == After(Make(s, m), []);
  }

  lemma Stays(s: System)
    requires Inv(s)
    ensures Leads(s, s)
  {
    hide Inv;
    assert After(s, []) == s;
  }

  // ---------------------------------------------------------------------------------------------
  // Quiet rounds are made of such moves

  lemma ServeLeads(s: System, now: nat)
    requires Inv(s) && s.w.core.send.Idle()
    ensures Leads(s, Serve(s, now))
  {
    hide Leads, Inv, Do;
    Makes(s, WriterMoves(Env(now, true, true)));
  }

  lemma ThreeMoves(s: System, a: Move, b: Move, c: Move)
    requires Inv(s)
    ensures Leads(s, Make(Make(Make(s, a), b), c))
  {
    hide Leads, Inv, Make;
    var u := Make(s, a);
    var v := Make(u, b);
    Makes(s, a);
    Makes(u, b);
    Makes(v, c);
    Join(s, u, v);
    Join(s, v, Make(v, c));
  }

  lemma DeliverLeads(s: System, now: nat)
    requires Inv(s) && s.w.core.sync.Syncing? && now < INVALID_MILLIS
    requires s.w.core.send.pending && s.w.core.send.status.SendingPacket? && s.w.core.send.start == now
    ensures Leads(s, Deliver(s, now))
  {
    hide Leads;
    var env := Env(now, true, true);
    var u := Make(s, WriterMoves(env));
    var v := Make(u, WriterReported);
    assert u == Do(Do(s, WriterRuns(env)), ReaderHears(s.w.core.send.frame, now));
    assert v == Do(u, WriterSentOk(s.w.core.send.frame.header));
    assert Make(v, WriterMoves(env)) == Do(v, WriterRuns(env));
    hide Inv, Make;
    ThreeMoves(s, WriterMoves(env), WriterReported, WriterMoves(env));
  }

  lemma AnswerLeads(s: System, now: nat)
    requires Inv(s) && now != INVALID_MILLIS && s.r.core.enabled
    requires s.r.core.send.pending && s.r.core.send.status.SendingPacket? && s.r.core.send.start == now
    ensures Leads(s, DeliverAnswer(s, now))
  {
    hide Leads;
    var env := Env(now, true, true);
    var u := Make(s, ReaderMoves(env, false));
    var v := Make(u, ReaderReported);
    assert u == Do(Do(s, ReaderRuns(env, false)), WriterHears(s.r.core.send.frame));
    assert v == Do(u, ReaderSentOk(s.r.core.send.frame.header));
    assert Make(v, ReaderMoves(env, false)) == Do(v, ReaderRuns(env, false));
    hide Inv, Make;
    ThreeMoves(s, ReaderMoves(env, false), ReaderReported, ReaderMoves(env, false));
  }

  predicate JustRequested(core: Core, now: nat) {
    core.send.pending ==> core.enabled && core.send.status.SendingPacket? && core.send.start == now
  }

  lemma ServiceRequests(w: Writer, now: nat)
    requires w.Valid() && w.core.send.Idle() && w.core.sync.Syncing?
    ensures JustRequested(w.OnService(now).core, now) && w.OnService(now).core.sync.Syncing?
  {
  }

  lemma HearingRequests(r: Reader, f: Packet, now: nat)
    requires r.Valid() && r.Justified() && !r.core.sync.Disabled? && Wellformed(f, r.core.surface.blocks) && r.core.send.Idle()
    ensures JustRequested(r.Receive(f, now).core, now)
  {
  }

  lemma RoundLeads(s: System, now: nat)
    requires Quiet(s) && now < INVALID_MILLIS
    ensures Leads(s, Round(s, now))
  {
    ServeResult(s, now);
    ServeLeads(s, now);
    ServiceRequests(s.w, now);
    var s1 := Serve(s, now);
    if s1.w.core.send.pending {
      DeliverLeads(s1, now);
      DeliverResult(s1, now);
      HearingRequests(s1.r, s1.w.core.send.frame, now);
      var s2 := Deliver(s1, now);
      hide Leads, Inv, Deliver, Serve;
      Join(s, s1, s2);
      if s2.r.core.send.pending {
        AnswerLeads(s2, now);
        Join(s, s2, DeliverAnswer(s2, now));
      }
    }
  }

  /** Nothing pending, the writer at work or done, the reader not Disabled. */
  ghost predicate Ordered(s: System) {
    && Inv(s) && s.w.core.send.Idle() && s.r.core.send.Idle() && !s.r.core.sync.Disabled?
    && (s.w.core.sync.Syncing? || s.w.core.sync.Synced?)
  }

  /** Blocks dirtied in SendingFinished send the writer back. */
  lemma ReopenRound(s: System, now: nat)
    requires Quiet(s) && s.w.state.SendingFinished? && s.w.core.surface.dirty != {}
    ensures Quiet(Round(s, now)) && Round(s, now).w.state.UpdatingBlocks?
  {
    assert s.w.OnService(now) == s.w.(core := s.w.core.UpdateLocalHash()).UpdateSyncingState(UpdatingBlocks);
    SilentRound(s, now);
  }

  lemma SyncedOrderedRound(s: System, now: nat)
    requires Ordered(s) && s.w.core.sync.Synced?
    ensures Ordered(Round(s, now)) && Leads(s, Round(s, now))
  {
    hide Leads;
    SyncedRound(s, now);
    ServeLeads(s, now);
    assert Round(s, now) == Serve(s, now);
  }

  lemma OrderedRound(s: System, now: nat)
    requires Ordered(s) && now < INVALID_MILLIS
    ensures Ordered(Round(s, now)) && Leads(s, Round(s, now))
  {
    hide Round, Leads, Inv;
    if s.w.core.sync.Synced? {
      SyncedOrderedRound(s, now);
    } else {
      RoundLeads(s, now);
      if s.w.state.SendingBlock? { BackOffRound(s, now); }
      else if s.w.state.UpdatingBlocks? {
        if s.w.core.surface.dirty == {} { LastBlockRound(s, now); } else { BlockRound(s, now); }
      }
      else if s.w.core.surface.dirty == {} { ConfirmRound(s, now); }
      else { ReopenRound(s, now); }
    }
  }

  lemma {:induction false} RoundsLead(s: System, clock: seq<nat>)
    requires Ordered(s) && ClockOk(clock)
    ensures Leads(s, Rounds(s, clock))
    decreases |clock|
  {
    hide Round, Leads;
    if clock == [] {
      Stays(s);
    } else {
      OrderedRound(s, clock[0]);
      RoundsLead(Round(s, clock[0]), clock[1..]);
      Join(s, Round(s, clock[0]), Rounds(s, clock));
    }
  }

  // ---------------------------------------------------------------------------------------------
  // From a quiet state the goal is reached

  /** The writer is Synced and the reader's data good. */
  predicate Replicated(s: System) {
    s.w.core.sync.Synced? && s.r.core.surface.good
  }

  lemma UpdatingSettles(s: System) returns (t: System)
    requires Quiet(s) && s.w.state.UpdatingBlocks?
    ensures Leads(s, t) && Replicated(t)
  {
    hide Round, Rounds, Leads;
    var n := 2 * |s.w.core.surface.dirty| + 2 + 2 * s.w.core.surface.blocks + 2;
    var clock: seq<nat> := seq(n, _ => 0);
    RoundsSettle(s, clock);
    RoundsLead(s, clock);
    t := Rounds(s, clock);
  }

  lemma QuietSettles(s: System) returns (t: System)
    requires Quiet(s)
    ensures Leads(s, t) && Replicated(t)
  {
    hide Round, Leads;
    if s.w.state.UpdatingBlocks? {
      t := UpdatingSettles(s);
    } else {
      var u := Round(s, 0);
      OrderedRound(s, 0);
      if s.w.state.SendingBlock? { BackOffRound(s, 0); }
      else if s.w.core.surface.dirty == {} { ConfirmRound(s, 0); }
      else { ReopenRound(s, 0); }
      if u.w.core.sync.Synced? {
        t := u;
      } else {
        t := UpdatingSettles(u);
        Join(s, u, t);
      }
    }
  }

  // ---------------------------------------------------------------------------------------------
  // Pending packets

  /** How many callbacks a request needs at most to end when the driver refuses and nothing comes back. */
  function Left(send: Send<seq<byte>>): nat
    requires send.Valid()
  {
    match send.status
    case SendingPacket => MAX_DENIED + 2 - send.failures
    case WaitingForSentOk => 2
    case SentOk => 3
    case WaitingForAck => 2
    case Done => 0
    case _ => 1
  }

  const REFUSED: Env := Env(0, true, false)

  lemma WriterRefused(s: System)
    requires Inv(s) && s.w.core.enabled && !s.w.core.send.Idle()
    ensures var u := Make(s, WriterMoves(REFUSED.(now := s.w.core.send.start)));
            && u.r == s.r && u.w.core.enabled && u.w.core.sync == s.w.core.sync && Left(u.w.core.send) < Left(s.w.core.send)
  {
    var env := REFUSED.(now := s.w.core.send.start);
    assert s.w.Valid();
    WriterMoveIs(s, env);
    RefusedRuns(s.w, env);
    hide Make, Writer.Callback, Left, Inv;
  }

  lemma RefusedRuns(w: Writer, env: Env)
    requires w.Valid() && w.core.enabled && !w.core.send.Idle() && env == REFUSED.(now := w.core.send.start)
    ensures var v := w.Callback(env);
            v.core.enabled && v.core.sync == w.core.sync && v.core.send.Valid() && Left(v.core.send) < Left(w.core.send)
    ensures !w.core.send.Callback(env).1.Transmitted?
  {
  }

  lemma {:induction false} WriterFlushes(s: System) returns (t: System)
    requires Inv(s) && s.w.core.enabled
    ensures Leads(s, t) && Inv(t) && t.w.core.send.Idle() && t.w.core.sync == s.w.core.sync && t.r == s.r
    decreases Left(s.w.core.send)
  {
    hide Leads, Make, Left;
    if s.w.core.send.Idle() {
      Stays(s);
      t := s;
    } else {
      var m := WriterMoves(REFUSED.(now := s.w.core.send.start));
      WriterRefused(s);
      Makes(s, m);
      t := WriterFlushes(Make(s, m));
      Join(s, Make(s, m), t);
    }
  }

  lemma ReaderRefused(s: System)
    requires Inv(s) && s.r.core.enabled && !s.r.core.send.Idle()
    ensures var u := Make(s, ReaderMoves(REFUSED.(now := s.r.core.send.start), false));
            && u.w == s.w && u.r.core.enabled && u.r.core.sync == s.r.core.sync && Left(u.r.core.send) < Left(s.r.core.send)
            && u.r.core.surface.good == s.r.core.surface.good
  {
  }

  lemma {:induction false} ReaderFlushes(s: System) returns (t: System)
    requires Inv(s) && s.r.core.enabled
    ensures Leads(s, t) && Inv(t) && t.r.core.send.Idle() && t.r.core.sync == s.r.core.sync && t.r.core.enabled && t.w == s.w
    ensures t.r.core.surface.good == s.r.core.surface.good
    decreases Left(s.r.core.send)
  {
    hide Leads, Make, Left;
    if s.r.core.send.Idle() {
      Stays(s);
      t := s;
    } else {
      var m := ReaderMoves(REFUSED.(now := s.r.core.send.start), false);
      ReaderRefused(s);
      Makes(s, m);
      t := ReaderFlushes(Make(s, m));
      Join(s, Make(s, m), t);
    }
  }

  /** A reader with a packet pending has its task running. */
  predicate Awake(r: Reader) {
    r.core.send.pending ==> r.core.enabled
  }

  lemma HearingIsAwake(r: Reader, f: Packet, now: nat)
    requires r.Valid() && r.Justified() && Wellformed(f, r.core.surface.blocks) && Awake(r)
    ensures Awake(r.Receive(f, now))
  {
  }

  lemma StepIsAwake(s: System, a: Action)
    requires Inv(s) && Awake(s.r)
    ensures Awake(Step(s, a).r)
  {
    hide Reader.Receive, Writer.Receive, Writer.Callback;
    match a
    case ReaderHears(f, now) => if f in s.toReader { HearingIsAwake(s.r, f, now); }
    case _ =>
  }

  lemma {:induction false} RunIsAwake(run: seq<System>, k: nat)
    requires IsRun(run) && k < |run|
    ensures Awake(run[k].r)
  {
    hide Step, Inv;
    if k == 0 {
    } else {
      RunIsAwake(run, k - 1);
      RunKeepsInv(run, k - 1);
      assert NextAt(run, k - 1);
      var a: Action :| run[k] == Step(run[k - 1], a);
      StepIsAwake(run[k - 1], a);
    }
  }

  // ---------------------------------------------------------------------------------------------
  // Recovery

  predicate LinksAreUp(s: System) {
    !s.w.core.sync.Disabled? && !s.r.core.sync.Disabled?
  }

  /** The reader still announces itself. */
  predicate Searching(r: Reader) {
    r.core.sync.WaitingForServiceDiscovery? && r.core.enabled
  }

  /** An announcement sets any writer to work whose link is up. */
  lemma Discovery(s: System) returns (t: System)
    requires Inv(s) && LinksAreUp(s) && Searching(s.r) && s.r.core.send.Idle() && !s.w.core.sync.Syncing?
    ensures Leads(s, t) && Inv(t) && t.w.core.sync.Syncing? && t.r.core.send.Idle() && !t.r.core.sync.Disabled?
  {
    var m := ReaderMoves(Env(0, true, true), false);
    var u := Make(s, m);
    assert u.w == s.w && u.r == s.r.OnService(0, false);
    assert u.r.core.send.pending && u.r.core.send.status.SendingPacket? && u.r.core.send.start == 0 && u.r.core.enabled;
    Makes(s, m);
    AnswerLeads(u, 0);
    DeliverAnswerResult(u, 0);
    t := DeliverAnswer(u, 0);
    Join(s, u, t);
    DiscoveryStarts(s.w, u.r.core.send.frame);
  }

  lemma DiscoveryStarts(w: Writer, f: Packet)
    requires w.Valid() && w.Justified() && |f.payload| == BLOCK_SIZE && f.header == META && f.id == SERVICE_DISCOVERY
    requires !w.core.sync.Disabled?
    ensures w.Receive(f).core.sync.Syncing?
  {
  }

  lemma WorksOn(s: System) returns (t: System)
    requires Inv(s) && Awake(s.r) && LinksAreUp(s) && (s.w.core.sync.Syncing? || Searching(s.r))
    ensures Leads(s, t) && Replicated(t)
  {
    hide Leads;
    var u := s;
    if s.r.core.enabled { u := ReaderFlushes(s); } else { Stays(s); }
    var v := u;
    if !u.w.core.sync.Syncing? {
      v := Discovery(u);
      Join(s, u, v);
    }
    var x := WriterFlushes(v);
    Join(s, v, x);
    t := QuietSettles(x);
    Join(s, x, t);
  }

  /** No packet will be sent unless the reader announces itself or the writer serves. */
  predicate AtRest(s: System) {
    s.r.core.send.Idle() && (s.w.core.send.Idle() || (s.w.core.sync.WaitingForServiceDiscovery? && !s.w.core.enabled))
  }

  lemma ComesToRest(s: System) returns (t: System)
    requires Inv(s) && Awake(s.r) && LinksAreUp(s)
    ensures Leads(s, t) && AtRest(t)
  {
    hide Leads;
    var u := s;
    if s.r.core.enabled { u := ReaderFlushes(s); } else { Stays(s); }
    t := u;
    if u.w.core.enabled {
      t := WriterFlushes(u);
      Join(s, u, t);
    }
  }

  /** The packet waits for its turn on the air, and its request will not time out at once. */
  predicate ToBeSent(send: Send<seq<byte>>) {
    send.pending && send.status.SendingPacket? && send.start != INVALID_MILLIS
  }

  /** The reader's pending packet is one that sets the writer to work: an announcement, or, to a Synced writer, a request
      to invalidate or a reply with another checksum than the writer's. */
  ghost predicate ReaderHelps(s: System)
    requires Inv(s)
  {
    && s.r.core.enabled && ToBeSent(s.r.core.send)
    && var f := s.r.core.send.frame;
       || f.id == SERVICE_DISCOVERY
       || (s.w.core.sync.Synced?
           && (f.id == INVALIDATE_REQUEST || (f.id == UPDATE_FINISHED_REPLY && f.payload[0] != s.w.core.surface.Crc())))
  }

  /** A Synced writer's pending packet is one that the reader agrees to, or answers with another checksum. */
  ghost predicate WriterHelps(s: System)
    requires Inv(s)
  {
    && s.w.core.sync.Synced? && ToBeSent(s.w.core.send)
    && var crc := s.r.core.surface.Crc();
       s.w.core.send.frame.payload[0] == crc || crc != s.w.core.surface.Crc()
  }

  /** What a caller can see of the state decides: it is replicated, the writer is syncing, the reader announces itself, or
      one of the two has a packet to send that helps. */
  ghost predicate Recoverable(s: System)
    requires Inv(s)
  {
    Replicated(s) || s.w.core.sync.Syncing? || Searching(s.r) || ReaderHelps(s) || WriterHelps(s)
  }

  lemma ReaderIsHeard(s: System) returns (t: System)
    requires Inv(s) && LinksAreUp(s) && ReaderHelps(s) && !s.w.core.sync.Syncing?
    ensures Leads(s, t) && Inv(t) && t.w.core.sync.Syncing? && Awake(t.r) && LinksAreUp(t)
  {
    var now := s.r.core.send.start;
    AnswerLeads(s, now);
    DeliverAnswerResult(s, now);
    t := DeliverAnswer(s, now);
    HelpfulReply(s.w, s.r.core.send.frame);
  }

  lemma HelpfulReply(w: Writer, f: Packet)
    requires w.Valid() && w.Justified() && |f.payload| == BLOCK_SIZE && f.header == META
    requires !w.core.sync.Disabled? && !w.core.sync.Syncing?
    requires || f.id == SERVICE_DISCOVERY
             || (w.core.sync.Synced?
                 && (f.id == INVALIDATE_REQUEST || (f.id == UPDATE_FINISHED_REPLY && f.payload[0] != w.core.surface.Crc())))
    ensures w.Receive(f).core.sync.Syncing?
  {
  }

  /** What a Synced writer has pending is its update-finished packet. */
  lemma SyncedAnnounces(s: System)
    requires Inv(s) && s.w.core.sync.Synced? && s.w.core.send.pending
    ensures s.w.core.send.frame.header == META && s.w.core.send.frame.id == UPDATE_FINISHED
  {
  }

  lemma WriterIsHeard(s: System) returns (t: System)
    requires Inv(s) && LinksAreUp(s) && WriterHelps(s)
    ensures Leads(s, t) && Inv(t) && LinksAreUp(t) && t.w.core.sync.Synced? && Awake(t.r) && (Replicated(t) || ReaderHelps(t))
  {
    var m := WriterMoves(Env(s.w.core.send.start, true, true));
    SyncedAnnounces(s);
    Makes(s, m);
    t := Make(s, m);
    FinishAnswered(s.r, s.w.core.send.frame, s.w.core.send.start);
    WriterSends(s, s.w.core.send.start);
  }

  lemma WriterSends(s: System, now: nat)
    requires Inv(s) && s.w.core.sync.Synced? && ToBeSent(s.w.core.send) && now == s.w.core.send.start
    ensures var t := Make(s, WriterMoves(Env(now, true, true)));
            && t.r == s.r.Receive(s.w.core.send.frame, now) && t.w.core.sync.Synced?
            && t.w.core.surface == s.w.core.surface
  {
    hide Reader.Receive;
  }

  lemma Recovers(s: System) returns (t: System)
    requires Inv(s) && Awake(s.r) && LinksAreUp(s) && Recoverable(s)
    ensures Leads(s, t) && Replicated(t)
  {
    hide Leads, ReaderHelps, WriterHelps;
    Stays(s);
    t := s;
    if Replicated(s) {
    } else if s.w.core.sync.Syncing? || Searching(s.r) {
      t := WorksOn(s);
    } else {
      if !ReaderHelps(s) { t := WriterIsHeard(s); }
      if !Replicated(t) {
        var u := ReaderIsHeard(t);
        Join(s, t, u);
        t := WorksOn(u);
        Join(s, u, t);
      }
    }
  }

  // ---------------------------------------------------------------------------------------------
  // Nothing else helps

  /** Both links up, and nothing under way that could complete the replication. */
  ghost predicate Stuck(s: System)
    requires Inv(s)
  {
    LinksAreUp(s) && Awake(s.r) && !Recoverable(s)
  }

  /** What is still to be sent was so before. */
  predicate NothingNew(earlier: Send<seq<byte>>, later: Send<seq<byte>>) {
    ToBeSent(later) ==> ToBeSent(earlier) && later.frame == earlier.frame
  }

  lemma IdleWriterRuns(w: Writer, env: Env)
    requires w.Valid() && (w.core.sync.Synced? || w.core.sync.WaitingForServiceDiscovery?)
    ensures var v := w.Callback(env);
            && v.core.sync == w.core.sync && v.core.surface.Crc() == w.core.surface.Crc() && NothingNew(w.core.send, v.core.send)
    ensures w.core.send.Callback(env).1.Transmitted? ==> ToBeSent(w.core.send) && !ToBeSent(w.Callback(env).core.send)
  {
  }

  lemma SilentReaderRuns(r: Reader, env: Env, expired: bool)
    requires r.Valid() && r.core.enabled && !r.core.sync.WaitingForServiceDiscovery? && !r.core.sync.Disabled?
    ensures var q := r.Callback(env, expired);
            && q.core.sync == r.core.sync && q.core.enabled && q.core.surface.good == r.core.surface.good
            && q.core.surface.Crc() == r.core.surface.Crc() && NothingNew(r.core.send, q.core.send)
    ensures r.core.send.Callback(env).1.Transmitted? ==> ToBeSent(r.core.send) && !ToBeSent(r.Callback(env, expired).core.send)
  {
  }

  lemma WriterMoveIs(s: System, env: Env)
    requires Inv(s)
    ensures var t := Make(s, WriterMoves(env));
            && t.w == (if s.w.core.enabled then s.w.Callback(env) else s.w)
            && t.r == (if s.w.core.enabled && s.w.core.send.Callback(env).1.Transmitted?
                       then s.r.Receive(s.w.core.send.frame, env.now) else s.r)
    ensures s.w.core.send.Callback(env).1.Transmitted? ==>
              Wellformed(s.w.core.send.frame, s.r.core.surface.blocks) && WriterSpeaks(s.w.core.send.frame)
  {
    hide Writer.Callback, Reader.Receive;
  }

  lemma ReaderMoveIs(s: System, env: Env, expired: bool)
    requires Inv(s)
    ensures var t := Make(s, ReaderMoves(env, expired));
            && t.r == (if s.r.core.enabled then s.r.Callback(env, expired) else s.r)
            && t.w == (if s.r.core.enabled && s.r.core.send.Callback(env).1.Transmitted?
                       then s.w.Receive(s.r.core.send.frame) else s.w)
    ensures s.r.core.send.Callback(env).1.Transmitted? ==>
              |s.r.core.send.frame.payload| == BLOCK_SIZE && ReaderSpeaks(s.r.core.send.frame)
  {
    hide Reader.Callback, Writer.Receive;
  }

  /** Whatever it hears, the reader is not waiting afterwards, and what it then has to send is no announcement. */
  lemma HearingEndsSearch(r: Reader, f: Packet, now: nat)
    requires r.Valid() && r.Justified() && Wellformed(f, r.core.surface.blocks) && WriterSpeaks(f) && !r.core.sync.Disabled?
    ensures var q := r.Receive(f, now);
            && !q.core.sync.WaitingForServiceDiscovery? && !q.core.sync.Disabled?
            && (q.core.send == r.core.send || q.core.send.frame.id in {UPDATE_FINISHED_REPLY, INVALIDATE_REQUEST})
  {
  }

  /** A reader with bad data that hears another checksum than its own replies with its own. */
  lemma MismatchIsReplied(r: Reader, f: Packet, now: nat)
    requires r.Valid() && r.Justified() && Wellformed(f, r.core.surface.blocks) && !r.core.sync.Disabled?
    requires f.header == META && f.id == UPDATE_FINISHED && f.payload[0] != r.core.surface.Crc() && !r.core.surface.good
    ensures var q := r.Receive(f, now);
            && !q.core.surface.good && q.core.surface.Crc() == r.core.surface.Crc()
            && q.core.send.frame.id == UPDATE_FINISHED_REPLY && q.core.send.frame.payload[0] == q.core.surface.Crc()
  {
  }

  lemma StuckWriterMoves(s: System, env: Env)
    requires Inv(s) && Stuck(s)
    ensures Stuck(Make(s, WriterMoves(env)))
  {
    WriterMoveIs(s, env);
    IdleWriterRuns(s.w, env);
    assert s.r.Valid() && s.r.Justified();
    if s.w.core.enabled && s.w.core.send.Callback(env).1.Transmitted? {
      HearingEndsSearch(s.r, s.w.core.send.frame, env.now);
      HearingIsAwake(s.r, s.w.core.send.frame, env.now);
      if s.w.core.sync.Synced? {
        SyncedAnnounces(s);
        MismatchIsReplied(s.r, s.w.core.send.frame, env.now);
      }
    }
    hide Make, Writer.Callback, Reader.Receive;
  }

  /** A reply that does not help leaves the writer as it is, but for the checksums it remembers. */
  lemma UnhelpfulReply(w: Writer, f: Packet)
    requires w.Valid() && w.Justified() && |f.payload| == BLOCK_SIZE && f.header == META && !w.core.sync.Disabled? && !w.core.sync.Syncing?
    requires f.id == UPDATE_FINISHED_REPLY || f.id == INVALIDATE_REQUEST
    requires w.core.sync.Synced? ==> f.id == UPDATE_FINISHED_REPLY && f.payload[0] == w.core.surface.Crc()
    ensures var v := w.Receive(f);
            v.core.sync == w.core.sync && v.core.surface.Crc() == w.core.surface.Crc() && v.core.send == w.core.send
  {
  }

  lemma StuckReaderMoves(s: System, env: Env, expired: bool)
    requires Inv(s) && Stuck(s)
    ensures Stuck(Make(s, ReaderMoves(env, expired)))
  {
    ReaderMoveIs(s, env, expired);
    assert s.w.Valid() && s.w.Justified();
    if s.r.core.enabled {
      SilentReaderRuns(s.r, env, expired);
      if s.r.core.send.Callback(env).1.Transmitted? {
        UnhelpfulReply(s.w, s.r.core.send.frame);
      }
    }
    hide Make, Reader.Callback, Writer.Receive;
  }

  lemma StuckReports(s: System, m: Move)
    requires Inv(s) && Stuck(s) && (m.WriterReported? || m.ReaderReported?)
    ensures Stuck(Make(s, m))
  {
  }

  lemma StuckStays(s: System, m: Move)
    requires Inv(s) && Stuck(s)
    ensures Stuck(Make(s, m))
  {
    hide Make, Inv, Stuck;
    match m
    case WriterMoves(env) => StuckWriterMoves(s, env);
    case ReaderMoves(env, expired) => StuckReaderMoves(s, env, expired);
    case _ => StuckReports(s, m);
  }

  lemma {:induction false} StuckForever(s: System, moves: seq<Move>)
    requires Inv(s) && Stuck(s)
    ensures Stuck(After(s, moves))
    decreases |moves|
  {
    hide Make, Inv, Stuck;
    if moves == [] {
    } else {
      StuckStays(s, moves[0]);
      StuckForever(Make(s, moves[0]), moves[1..]);
    }
  }

  ghost predicate CanReplicate(s: System)
    requires Inv(s)
  {
    exists moves: seq<Move> :: Replicated(After(s, moves))
  }

  ghost predicate CanRest(s: System)
    requires Inv(s)
  {
    exists moves: seq<Move> :: AtRest(After(s, moves))
  }

  /** From every state of a run with both links up, whatever is pending, some quiet continuation completes the replication
      just if the state is recoverable. In any case one comes to rest. */
  lemma RecoversIff(run: seq<System>, k: nat)
    requires IsRun(run) && k < |run| && LinksAreUp(run[k])
    ensures Inv(run[k])
    ensures CanReplicate(run[k]) <==> Recoverable(run[k])
    ensures CanRest(run[k])
  {
    hide Inv, Make, After, Next, Recoverable;
    var s := run[k];
    RunKeepsInv(run, k);
    RunIsAwake(run, k);
    var t := ComesToRest(s);
    if Recoverable(s) {
      var u := Recovers(s);
    } else {
      StuckIsNotReplicated(s);
    }
  }

  lemma StuckIsNotReplicated(s: System)
    requires Inv(s) && Stuck(s)
    ensures !CanReplicate(s)
  {
    forall moves: seq<Move>
      ensures !Replicated(After(s, moves))
    {
      StuckForever(s, moves);
    }
  }

  /** Being stuck happens: the reader gives up announcing itself before the writer has heard of it. */
  lemma StuckHappens()
    ensures exists run: seq<System> :: IsRun(run) && Inv(run[|run| - 1]) && Stuck(run[|run| - 1])
  {
    var s := LinksUp();
    var t := Do(s, ReaderRuns(READY, true));
    assert Stuck(t);
    LinksUpIsReached();
    hide Do, Inv, LinksUp, IsRun, Stuck;
    DoIsReached(s, ReaderRuns(READY, true));
    var run: seq<System> :| RunsTo(run, t);
  }
}
