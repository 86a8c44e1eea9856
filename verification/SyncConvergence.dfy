/** When the link is quiet, every packet is delivered before the next step is taken. This module shows where such
    a run ends, whatever the two ends held at its start. */
module SyncConvergence {
  import opened Common
  import opened Checksum
  import opened Surfaces
  import opened SendService
  import opened SyncNodes
  import opened SyncSystem

  /** The writer is syncing, no packet is pending on either side, and the reader is not Disabled. */
  ghost predicate Quiet(s: System) {
    && Inv(s)
    && s.w.core.sync.Syncing? && s.w.core.send.Idle()
    && s.r.core.send.Idle() && !s.r.core.sync.Disabled?
  }

  /** From s to t the writer has transmitted so many block packets and so many update-finished packets. */
  predicate Aired(s: System, t: System, blocks: nat, finishes: nat) {
    t.blocksAired == s.blocksAired + blocks && t.finishesAired == s.finishesAired + finishes
  }

  /** The pending packet of the writer is transmitted, heard and reported sent. */
  function Deliver(s: System, now: nat): (t: System)
    requires Inv(s)
    ensures Inv(t)
  {
    var env := Env(now, true, true);
    var f := s.w.core.send.frame;
    Do(Do(Do(Do(s, WriterRuns(env)), ReaderHears(f, now)), WriterSentOk(f.header)), WriterRuns(env))
  }

  /** The pending answer of the reader is transmitted, heard and reported sent. */
  function DeliverAnswer(s: System, now: nat): (t: System)
    requires Inv(s)
    ensures Inv(t)
  {
    var env := Env(now, true, true);
    var f := s.r.core.send.frame;
    Do(Do(Do(Do(s, ReaderRuns(env, false)), WriterHears(f)), ReaderSentOk(f.header)), ReaderRuns(env, false))
  }

  /** One run of the writer's service, with all the traffic it causes. */
  function Round(s: System, now: nat): (t: System)
    requires Inv(s)
    ensures Inv(t)
  {
    var s1 := Serve(s, now);
    if !s1.w.core.send.pending then s1
    else
      var s2 := Deliver(s1, now);
      if !s2.r.core.send.pending then s2 else DeliverAnswer(s2, now)
  }

  /** One round per clock reading. */
  function Rounds(s: System, clock: seq<nat>): (t: System)
    requires Inv(s)
    ensures Inv(t)
    decreases |clock|
  {
    if clock == [] then s else Rounds(Round(s, clock[0]), clock[1..])
  }

  /** A request made at the one reading that means "never" times out at once. */
  predicate ClockOk(clock: seq<nat>) {
    forall i :: 0 <= i < |clock| ==> clock[i] < INVALID_MILLIS
  }

  lemma DeliverResult(s: System, now: nat)
    requires Inv(s) && s.w.core.sync.Syncing? && now < INVALID_MILLIS
    requires s.w.core.send.pending && s.w.core.send.status.SendingPacket? && s.w.core.send.start == now
    ensures var t := Deliver(s, now);
            var f := s.w.core.send.frame;
            && t.r == s.r.Receive(f, now)
            && t.w.core.send.Idle() && t.w.core.sync == s.w.core.sync && t.w.state == s.w.state
            && s.w.core.SameBytes(t.w.core)
            && t.w.core.surface.dirty == (if s.w.state.SendingBlock? then s.w.core.surface.dirty - {s.w.index} else s.w.core.surface.dirty)
            && Aired(s, t, if f.header == DATA then 1 else 0, if f.header == DATA then 0 else 1)
  {
  }

  lemma DeliverAnswerResult(s: System, now: nat)
    requires Inv(s) && now != INVALID_MILLIS && s.r.core.enabled
    requires s.r.core.send.pending && s.r.core.send.status.SendingPacket? && s.r.core.send.start == now
    ensures var t := DeliverAnswer(s, now);
            && t.w == s.w.Receive(s.r.core.send.frame)
            && t.r.core == s.r.core.(send := t.r.core.send) && t.r.core.send.Idle()
            && Aired(s, t, 0, 0)
  {
    hide Writer.Receive;
  }

  // The four kinds of round.

  function Serve(s: System, now: nat): (t: System)
    requires Inv(s)
    ensures Inv(t)
  {
    Do(s, WriterRuns(Env(now, true, true)))
  }

  lemma ServeResult(s: System, now: nat)
    requires Quiet(s)
    ensures var t := Serve(s, now); t.w == s.w.OnService(now) && t.r == s.r && Aired(s, t, 0, 0)
  {
  }

  /** A service run that leaves nothing pending is a whole round. */
  lemma SilentRound(s: System, now: nat)
    requires Quiet(s) && !s.w.OnService(now).core.send.pending
    ensures var t := Round(s, now);
            && t.w == s.w.OnService(now) && t.r == s.r && Aired(s, t, 0, 0) && Inv(t)
  {
    ServeResult(s, now);
  }

  lemma BlockRound(s: System, now: nat)
    requires Quiet(s) && now < INVALID_MILLIS && s.w.state.UpdatingBlocks? && s.w.core.surface.dirty != {}
    ensures var t := Round(s, now);
            && Quiet(t) && t.w.state.SendingBlock? && Aired(s, t, 1, 0)
            && s.w.core.SameBytes(t.w.core)
            && exists i :: i in s.w.core.surface.dirty && t.w.core.surface.dirty == s.w.core.surface.dirty - {i}
                 && i < s.w.core.surface.blocks
                 && t.r.core.surface.data == PutBlock(s.r.core.surface.data, i, s.w.core.surface.Block(i))
  {
    ServeResult(s, now);
    DeliverResult(Serve(s, now), now);
  }

  lemma BackOffRound(s: System, now: nat)
    requires Quiet(s) && s.w.state.SendingBlock?
    ensures var t := Round(s, now);
            && Quiet(t) && t.w.state.UpdatingBlocks? && Aired(s, t, 0, 0) && t.r == s.r
            && s.w.core.SameBytes(t.w.core) && t.w.core.surface.dirty == s.w.core.surface.dirty
  {
    assert s.w.OnService(now) == s.w.(core := s.w.core.UpdateLocalHash()).UpdateSyncingState(UpdatingBlocks);
    SilentRound(s, now);
  }

  lemma LastBlockRound(s: System, now: nat)
    requires Quiet(s) && s.w.state.UpdatingBlocks? && s.w.core.surface.dirty == {}
    ensures var t := Round(s, now);
            && Quiet(t) && t.w.state.SendingFinished? && Aired(s, t, 0, 0) && t.r == s.r
            && s.w.core.SameBytes(t.w.core) && t.w.core.surface.dirty == {}
  {
    assert s.w.OnService(now) == s.w.(core := s.w.core.UpdateLocalHash()).UpdateSyncingState(SendingFinished);
    SilentRound(s, now);
  }

  lemma FinishRequested(w: Writer, now: nat)
    requires w.Valid() && w.core.send.Idle() && w.core.sync.Syncing? && w.state.SendingFinished? && w.core.surface.dirty == {}
    ensures var v := w.OnService(now);
            && v.core.send.pending && v.core.send.start == now && v.state.SendingFinished?
  {
  }

  lemma FinishAnswered(r: Reader, f: Packet, now: nat)
    requires r.Valid() && r.Justified() && !r.core.sync.Disabled? && Wellformed(f, r.core.surface.blocks)
    requires f.header == META && f.id == UPDATE_FINISHED
    ensures var q := r.Receive(f, now);
            && Reader(r.core.(remote := Some(f.payload[0]))).Answers(q) && q.core.send.start == now && q.core.enabled
  {
  }

  lemma AnswerHeard(w: Writer, f: Packet)
    requires w.Valid() && w.core.sync.Syncing? && w.state.SendingFinished? && w.core.surface.dirty == {} && w.core.send.Idle()
    requires f.header == META && |f.payload| == BLOCK_SIZE
    requires f.id in {UPDATE_FINISHED_REPLY, INVALIDATE_REQUEST}
    ensures var v := w.Receive(f);
            if f.id == UPDATE_FINISHED_REPLY && f.payload[0] == w.core.surface.Crc() then v.core.sync.Synced?
            else v.core.sync.Syncing? && v.state.UpdatingBlocks? && v.core.surface.dirty == w.core.surface.AllBlocks()
  {
  }

  /** The update-finished packet is out and the reader has its answer ready. */
  lemma ConfirmAsked(s: System, now: nat)
    requires Quiet(s) && now < INVALID_MILLIS && s.w.state.SendingFinished? && s.w.core.surface.dirty == {}
    ensures var s1 := Serve(s, now);
            var t := Deliver(s1, now);
            && s1.w.core.send.pending
            && t.w.core.send.Idle() && t.w.core.sync.Syncing? && t.w.state.SendingFinished? && t.w.core.surface.dirty == {}
            && s.w.core.SameBytes(t.w.core) && Aired(s, t, 0, 1)
            && Reader(s.r.core.(remote := Some(s.w.core.surface.Crc()))).Answers(t.r) && t.r.core.send.start == now
            && t.r.core.enabled
  {
    ServeResult(s, now);
    var s1 := Serve(s, now);
    FinishRequested(s.w, now);
    DeliverResult(s1, now);
    FinishAnswered(s1.r, s1.w.core.send.frame, now);
  }

  lemma ConfirmRound(s: System, now: nat)
    requires Quiet(s) && now < INVALID_MILLIS && s.w.state.SendingFinished? && s.w.core.surface.dirty == {}
    ensures var t := Round(s, now);
            && t.w.core.send.Idle() && t.r.core.send.Idle() && Aired(s, t, 0, 1)
            && s.w.core.SameBytes(t.w.core) && t.r.core.surface.data == s.r.core.surface.data && !t.r.core.sync.Disabled?
            && if s.w.core.surface.Crc() == s.r.core.surface.Crc() then
                 t.w.core.sync.Synced? && t.r.core.surface.good
               else
                 t.w.core.sync.Syncing? && t.w.state.UpdatingBlocks? && t.w.core.surface.dirty == s.w.core.surface.AllBlocks()
  {
    ConfirmAsked(s, now);
    var s2 := Deliver(Serve(s, now), now);
    DeliverAnswerResult(s2, now);
    AnswerHeard(s2.w, s2.r.core.send.frame);
  }

  // ---------------------------------------------------------------------------------------------
  // Whole passes

  /** Bytes of the blocks in t from the writer's data d, of the others from the reader's data e. */
  function Overlay(d: seq<byte>, e: seq<byte>, t: set<nat>): (o: seq<byte>)
    requires |d| == |e|
    ensures |o| == |d|
  {
    seq(|d|, k requires 0 <= k < |d| => if k / BLOCK_SIZE in t then d[k] else e[k])
  }

  lemma OverlayBlock(d: seq<byte>, e: seq<byte>, t: set<nat>, i: nat)
    requires |d| == |e| && i in t && BLOCK_SIZE * i + BLOCK_SIZE <= |d|
    ensures Overlay(d, PutBlock(e, i, d[BLOCK_SIZE * i..BLOCK_SIZE * i + BLOCK_SIZE]), t - {i}) == Overlay(d, e, t)
  {
  }

  lemma OverlayAll(d: seq<byte>, e: seq<byte>, blocks: nat)
    requires |d| == |e| == BLOCK_SIZE * blocks
    ensures Overlay(d, e, Below(blocks)) == d && Overlay(d, e, {}) == e
  {
  }

  /** The bytes the reader ends up with once every dirty block has reached it. */
  function Target(s: System): seq<byte>
    requires Inv(s)
  {
    Overlay(s.w.core.surface.data, s.r.core.surface.data, s.w.core.surface.dirty)
  }

  /** From s to t, n block packets were transmitted and the target stayed the same. */
  ghost predicate Progress(s: System, t: System, n: nat) {
    && Quiet(s) && Quiet(t) && t.w.state.UpdatingBlocks?
    && s.w.core.SameBytes(t.w.core) && Target(t) == Target(s)
    && |t.w.core.surface.dirty| + n == |s.w.core.surface.dirty| && Aired(s, t, n, 0)
  }

  lemma OneBlock(s: System, now: nat, later: nat)
    requires Quiet(s) && now < INVALID_MILLIS && s.w.state.UpdatingBlocks? && s.w.core.surface.dirty != {}
    ensures Progress(s, Round(Round(s, now), later), 1)
  {
    hide Round;
    var d, e, dirty := s.w.core.surface.data, s.r.core.surface.data, s.w.core.surface.dirty;
    BlockRound(s, now);
    var s1 := Round(s, now);
    var i :| i in dirty && s1.w.core.surface.dirty == dirty - {i} && i < s.w.core.surface.blocks
      && s1.r.core.surface.data == PutBlock(e, i, s.w.core.surface.Block(i));
    OverlayBlock(d, e, dirty, i);
    BackOffRound(s1, later);
  }

  lemma TwoRounds(s: System, clock: seq<nat>)
    requires Inv(s) && |clock| >= 2
    ensures Rounds(s, clock) == Rounds(Round(Round(s, clock[0]), clock[1]), clock[2..])
  {
    assert clock[1..][0] == clock[1] && clock[1..][1..] == clock[2..];
  }

  /** Two rounds per dirty block empty the tracker. */
  lemma {:induction false} Drain(s: System, clock: seq<nat>)
    requires Quiet(s) && s.w.state.UpdatingBlocks? && ClockOk(clock) && |clock| == 2 * |s.w.core.surface.dirty|
    ensures Progress(s, Rounds(s, clock), |s.w.core.surface.dirty|)
    decreases |clock|
  {
    hide Round;
    if s.w.core.surface.dirty == {} {
    } else {
      OneBlock(s, clock[0], clock[1]);
      TwoRounds(s, clock);
      Drain(Round(Round(s, clock[0]), clock[1]), clock[2..]);
    }
  }

  lemma DrainedIsTarget(s: System)
    requires Inv(s) && s.w.core.surface.dirty == {}
    ensures s.r.core.surface.data == Target(s)
  {
  }

  lemma {:induction false} RoundsCompose(s: System, a: seq<nat>, b: seq<nat>)
    requires Inv(s)
    ensures Rounds(s, a + b) == Rounds(Rounds(s, a), b)
    decreases |a|
  {
    hide Round;
    if a == [] {
      assert a + b == b;
    } else {
      assert (a + b)[1..] == a[1..] + b;
      RoundsCompose(Round(s, a[0]), a[1..], b);
    }
  }

  /** Where one pass ends: agreement, or a second pass with every block marked. */
  ghost predicate PassEnd(s: System, t: System) {
    && Inv(s) && Inv(t) && s.w.core.SameBytes(t.w.core) && t.r.core.surface.data == Target(s)
    && t.w.core.send.Idle() && t.r.core.send.Idle() && !t.r.core.sync.Disabled?
    && Aired(s, t, |s.w.core.surface.dirty|, 1)
    && if s.w.core.surface.hash(Target(s)) == s.w.core.surface.Crc() then
         t.w.core.sync.Synced? && t.r.core.surface.good
       else
         t.w.core.sync.Syncing? && t.w.state.UpdatingBlocks? && t.w.core.surface.dirty == s.w.core.surface.AllBlocks()
  }

  lemma SameChecksum(s: System)
    requires Inv(s)
    ensures s.w.core.surface.hash == s.r.core.surface.hash
  {
  }

  lemma Pass(s: System, clock: seq<nat>)
    requires Quiet(s) && s.w.state.UpdatingBlocks? && ClockOk(clock) && |clock| == 2 * |s.w.core.surface.dirty| + 2
    ensures PassEnd(s, Rounds(s, clock))
  {
    hide Round, Inv;
    var n := 2 * |s.w.core.surface.dirty|;
    Drain(s, clock[..n]);
    var s1 := Rounds(s, clock[..n]);
    DrainedIsTarget(s1);
    LastBlockRound(s1, clock[n]);
    var s2 := Round(s1, clock[n]);
    ConfirmRound(s2, clock[n + 1]);
    SameChecksum(s2);
    RoundsCompose(s, clock[..n], clock[n..]);
    assert clock[..n] + clock[n..] == clock;
    TwoRounds(s1, clock[n..]);
    assert Rounds(s, clock) == Round(s2, clock[n + 1]);
  }

  lemma {:induction false} SyncedStays(s: System, clock: seq<nat>)
    requires Inv(s) && s.w.core.sync.Synced? && s.w.core.send.Idle()
    ensures var t := Rounds(s, clock);
            t.w.core.sync.Synced? && t.r == s.r && s.w.core.SameBytes(t.w.core) && Aired(s, t, 0, 0)
    decreases |clock|
  {
    if clock == [] {
    } else {
      SyncedRound(s, clock[0]);
      hide Round;
      SyncedStays(Round(s, clock[0]), clock[1..]);
    }
  }

  lemma SyncedRound(s: System, now: nat)
    requires Inv(s) && s.w.core.sync.Synced? && s.w.core.send.Idle()
    ensures var t := Round(s, now);
            t.w == s.w.(core := s.w.core.UpdateLocalHash()) && t.r == s.r && Aired(s, t, 0, 0)
  {
  }

  /** How a quiet run from s is over in t. */
  ghost predicate Settled(s: System, t: System)
    requires Inv(s)
  {
    && t.w.core.sync.Synced? && t.r.core.surface.good
    && t.w.core.surface.data == s.w.core.surface.data
    && if s.w.core.surface.hash(Target(s)) == s.w.core.surface.Crc() then
         && t.r.core.surface.data == Target(s)
         && Aired(s, t, |s.w.core.surface.dirty|, 1)
       else
         && t.r.core.surface.data == t.w.core.surface.data
         && Aired(s, t, |s.w.core.surface.dirty| + s.w.core.surface.blocks, 2)
  }

  /** With every block marked, one pass is enough. */
  lemma FullPass(s: System, clock: seq<nat>)
    requires Quiet(s) && s.w.state.UpdatingBlocks? && s.w.core.surface.dirty == s.w.core.surface.AllBlocks()
    requires ClockOk(clock) && |clock| >= 2 * s.w.core.surface.blocks + 2
    ensures var t := Rounds(s, clock);
            && Target(s) == s.w.core.surface.data && Settled(s, t)
  {
    hide Round;
    var m := 2 * s.w.core.surface.blocks + 2;
    assert clock == clock[..m] + clock[m..];
    RoundsCompose(s, clock[..m], clock[m..]);
    OverlayAll(s.w.core.surface.data, s.r.core.surface.data, s.w.core.surface.blocks);
    Pass(s, clock[..m]);
    SyncedStays(Rounds(s, clock[..m]), clock[m..]);
  }

  /** The packet tells the writer that the reader's bytes are not its own: an invalidation, or a reply with another checksum
      when the writer is Synced or has announced the end of a pass with nothing dirtied since. */
  predicate SendsBack(w: Writer, f: Packet) {
    && f.header == META && |f.payload| == BLOCK_SIZE
    && ((f.id == INVALIDATE_REQUEST && (w.core.sync.Syncing? || w.core.sync.Synced?))
        || (f.id == UPDATE_FINISHED_REPLY && f.payload[0] != w.core.surface.Crc()
            && (w.core.sync.Synced? || (w.core.sync.Syncing? && w.state.SendingFinished? && w.core.surface.dirty == {}))))
  }

  lemma SentBackMarksAll(s: System, f: Packet)
    requires Inv(s) && f in s.toWriter && SendsBack(s.w, f)
    ensures var t := Do(s, WriterHears(f));
            && t.w.core.sync.Syncing? && t.w.state.UpdatingBlocks? && t.w.core.surface.dirty == s.w.core.surface.AllBlocks()
            && s.w.core.SameBytes(t.w.core) && t.w.core.send == s.w.core.send && t.r == s.r && Aired(s, t, 0, 0)
  {
  }

  /** What such a packet leads to, for every hash function: with nothing else pending, exactly BlockCount block packets go out
      before the update-finished packet, and then the reader's bytes are the writer's; one update-finished packet
      concludes. */
  lemma SentBackResends(s: System, f: Packet, clock: seq<nat>)
    requires Inv(s) && f in s.toWriter && SendsBack(s.w, f)
    requires s.w.core.send.Idle() && s.r.core.send.Idle() && !s.r.core.sync.Disabled?
    requires ClockOk(clock) && |clock| == 2 * s.w.core.surface.blocks + 2
    ensures var t := Do(s, WriterHears(f));
            var u := Rounds(t, clock[..2 * s.w.core.surface.blocks]);
            && Aired(s, u, s.w.core.surface.blocks, 0)
            && u.r.core.surface.data == u.w.core.surface.data == s.w.core.surface.data
    ensures var v := Rounds(Do(s, WriterHears(f)), clock);
            && Aired(s, v, s.w.core.surface.blocks, 1)
            && v.w.core.sync.Synced? && v.r.core.surface.good
            && v.r.core.surface.data == v.w.core.surface.data == s.w.core.surface.data
  {
    hide Round, Inv;
    SentBackMarksAll(s, f);
    var t, n := Do(s, WriterHears(f)), 2 * s.w.core.surface.blocks;
    HasBytes(t);
    OverlayAll(t.w.core.surface.data, t.r.core.surface.data, t.w.core.surface.blocks);
    Drain(t, clock[..n]);
    DrainedIsTarget(Rounds(t, clock[..n]));
    Pass(t, clock);
  }

  lemma HasBytes(s: System)
    requires Inv(s)
    ensures |s.w.core.surface.data| == |s.r.core.surface.data| == BLOCK_SIZE * s.w.core.surface.blocks
  {
  }

  lemma RoundsSettle(s: System, clock: seq<nat>)
    requires Quiet(s) && s.w.state.UpdatingBlocks? && ClockOk(clock)
    requires |clock| >= 2 * |s.w.core.surface.dirty| + 2 + 2 * s.w.core.surface.blocks + 2
    ensures Settled(s, Rounds(s, clock))
  {
    hide Round;
    var n := 2 * |s.w.core.surface.dirty| + 2;
    assert clock == clock[..n] + clock[n..];
    RoundsCompose(s, clock[..n], clock[n..]);
    Pass(s, clock[..n]);
    var s1 := Rounds(s, clock[..n]);
    if s1.w.core.sync.Synced? {
      SyncedStays(s1, clock[n..]);
    } else {
      FullPass(s1, clock[n..]);
    }
  }

  ghost predicate RoundAt(run: seq<System>, clock: seq<nat>, i: nat)
    requires i < |clock| && |run| == |clock| + 1
  {
    Inv(run[i]) && run[i + 1] == Round(run[i], clock[i])
  }

  /** A run of rounds, one for each reading of the clock, from a quiet state in UpdatingBlocks. */
  ghost predicate IsQuietRun(run: seq<System>, clock: seq<nat>) {
    && |run| == |clock| + 1 && ClockOk(clock)
    && Quiet(run[0]) && run[0].w.state.UpdatingBlocks?
    && forall i: nat :: i < |clock| ==> RoundAt(run, clock, i)
  }

  /** Two rounds for each block of a pass, and two to conclude it. */
  predicate TwoPasses(s: System, clock: seq<nat>) {
    |clock| >= 2 * |s.w.core.surface.dirty| + 2 + 2 * s.w.core.surface.blocks + 2
  }

  lemma {:induction false} QuietRunIsRounds(run: seq<System>, clock: seq<nat>, k: nat)
    requires IsQuietRun(run, clock) && k <= |clock|
    ensures Inv(run[0]) && run[k] == Rounds(run[0], clock[..k])
  {
    hide Round;
    if k == 0 {
    } else {
      QuietRunIsRounds(run, clock, k - 1);
      assert RoundAt(run, clock, k - 1);
      assert clock[..k] == clock[..k - 1] + [clock[k - 1]];
      RoundsCompose(run[0], clock[..k - 1], [clock[k - 1]]);
      assert Rounds(run[k - 1], [clock[k - 1]]) == Round(run[k - 1], clock[k - 1]);
    }
  }

  /** A quiet run ends with the writer Synced and the reader's data good after at most two passes, whatever either
      side held before: the first pass puts the writer's dirty blocks into the reader's bytes, and if the checksums
      then still differ, the second pass sends every block. */
  lemma Converges(run: seq<System>, clock: seq<nat>)
    requires IsQuietRun(run, clock) && TwoPasses(run[0], clock)
    ensures Inv(run[0]) && Settled(run[0], run[|clock|])
  {
    hide Round, Settled, Inv;
    QuietRunIsRounds(run, clock, |clock|);
    assert clock[..|clock|] == clock;
    RoundsSettle(run[0], clock);
  }

  /** The exact condition under which both ends hold the same bytes when the run is over: the first pass already made
      them equal, or its checksum comparison told them apart. Equal checksums of different bytes are never repaired. */
  lemma BytesAgree(run: seq<System>, clock: seq<nat>)
    requires IsQuietRun(run, clock) && TwoPasses(run[0], clock)
    ensures var s, t := run[0], run[|clock|];
            && Inv(s)
            && (t.r.core.surface.data == t.w.core.surface.data <==>
                  (Target(s) == s.w.core.surface.data || s.w.core.surface.hash(Target(s)) != s.w.core.surface.Crc()))
  {
    hide Round, Inv;
    Converges(run, clock);
  }

  // A run from power-up after which both ends are content with different bytes.

  const READY: Env := Env(0, true, true)
  const ZEROS: seq<byte> := [0, 0, 0, 0]
  const OTHER: seq<byte> := [0, 0, 1, 7]

  predicate WriterAt(w: Writer, sync: SyncState, dirty: set<nat>, data: seq<byte>) {
    && w.core.sync == sync && w.state.UpdatingBlocks? && w.core.send.Idle() && w.index <= 1
    && w.core.surface.dirty == dirty && w.core.surface.blocks == 1 && w.core.surface.data == data
  }

  predicate ReaderAt(r: Reader) {
    r.core.sync.WaitingForServiceDiscovery? && r.core.surface.data == ZEROS
  }

  function LinksUp(): (s: System)
    ensures Inv(s) && s.w.core.surface.hash == Crc8
    ensures WriterAt(s.w, WaitingForServiceDiscovery, {}, ZEROS)
    ensures ReaderAt(s.r) && s.r.core.send.Idle() && s.r.core.enabled
  {
    StartInv(1, Frame(META, 0, false, ZEROS), Crc8);
    Do(Do(Start(1, Frame(META, 0, false, ZEROS), Crc8), WriterLink(true)), ReaderLink(true))
  }

  function Asking(): (s: System)
    ensures Inv(s) && s.w == LinksUp().w
    ensures ReaderAt(s.r) && s.r.core.send.pending && s.r.core.send.status.SendingPacket? && s.r.core.send.start == 0
    ensures s.r.core.enabled && s.r.core.send.frame.header == META && s.r.core.send.frame.id == SERVICE_DISCOVERY
  {
    Do(LinksUp(), ReaderRuns(READY, false))
  }

  /** The reader's discovery packet has started the writer. */
  function Discovered(): (s: System)
    ensures Inv(s) && s.w.core.surface.hash == Crc8
    ensures WriterAt(s.w, Syncing, {}, ZEROS) && ReaderAt(s.r) && s.r.core.send.Idle()
  {
    DeliverAnswerResult(Asking(), 0);
    DeliverAnswer(Asking(), 0)
  }

  ghost predicate Stage(s: System) {
    Inv(s) && s.w.core.surface.hash == Crc8 && ReaderAt(s.r) && s.r.core.send.Idle()
  }

  ghost predicate OnAir(s: System) {
    && Stage(s) && s.w.SendsBlock() && s.w.index == 0 && s.w.core.surface.blocks == 1 && s.w.core.surface.dirty == {0}
    && s.w.core.send.pending && s.w.core.send.frame.header == DATA
  }

  function WritesZeros(s: System): (t: System)
    requires Stage(s) && WriterAt(s.w, Syncing, {}, ZEROS)
    ensures Stage(t) && WriterAt(t.w, Syncing, {0}, ZEROS)
  {
    var t := Do(s, WriterSets(0, ZEROS));
    assert t.w == s.w.SetBlock(0, ZEROS) && t.r == s.r;
    t
  }

  function PreparesBlock(s: System): (t: System)
    requires Stage(s) && WriterAt(s.w, Syncing, {0}, ZEROS)
    ensures OnAir(t) && t.w.core.send.status.SendingPacket? && t.w.core.send.start == 0
  {
    Do(s, WriterRuns(READY))
  }

  function Airs(s: System): (t: System)
    requires OnAir(s) && s.w.core.send.status.SendingPacket? && s.w.core.send.start == 0
    ensures OnAir(t) && t.w.core.send.status.WaitingForSentOk?
  {
    Do(s, WriterRuns(READY))
  }

  /** Other bytes are written before the packet is reported sent. */
  function Overtakes(s: System): (t: System)
    requires OnAir(s) && s.w.core.send.status.WaitingForSentOk?
    ensures OnAir(t) && t.w.core.send.status.SentOk? && t.w.core.surface.data == OTHER
  {
    Do(Do(s, WriterSets(0, OTHER)), WriterSentOk(DATA))
  }

  function Concludes(s: System): (t: System)
    requires OnAir(s) && s.w.core.send.status.SentOk? && s.w.core.surface.data == OTHER
    ensures Stage(t) && t.w.SendsBlock() && t.w.core.send.Idle() && t.w.core.surface.dirty == {}
    ensures t.w.core.surface.blocks == 1 && t.w.core.surface.data == OTHER
  {
    Do(s, WriterRuns(READY))
  }

  function BacksOff(s: System): (t: System)
    requires Stage(s) && s.w.SendsBlock() && s.w.core.send.Idle() && s.w.core.surface.dirty == {}
    requires s.w.core.surface.blocks == 1 && s.w.core.surface.data == OTHER
    ensures Quiet(t) && Stage(t) && WriterAt(t.w, Syncing, {}, OTHER)
  {
    Do(s, WriterRuns(READY))
  }

  /** From power-up the writer has sent a zero block, written other bytes meanwhile, and has nothing left to send. */
  function Overtaken(): (s: System)
    ensures Quiet(s) && Stage(s) && WriterAt(s.w, Syncing, {}, OTHER)
  {
    BacksOff(Concludes(Overtakes(Airs(PreparesBlock(WritesZeros(Discovered()))))))
  }

  lemma StepsReached(s: System, a: Action, b: Action, c: Action, d: Action)
    requires Inv(s) && ReachedWithCrc8(s)
    ensures ReachedWithCrc8(Do(Do(Do(Do(s, a), b), c), d))
  {
    hide Do, Inv, ReachedWithCrc8;
    DoIsReached(s, a);
    DoIsReached(Do(s, a), b);
    DoIsReached(Do(Do(s, a), b), c);
    DoIsReached(Do(Do(Do(s, a), b), c), d);
  }

  lemma RoundIsReached(s: System, now: nat)
    requires Inv(s) && ReachedWithCrc8(s)
    ensures ReachedWithCrc8(Round(s, now))
  {
    hide Do, Inv, ReachedWithCrc8;
    var env := Env(now, true, true);
    DoIsReached(s, WriterRuns(env));
    var s1 := Serve(s, now);
    var f := s1.w.core.send.frame;
    StepsReached(s1, WriterRuns(env), ReaderHears(f, now), WriterSentOk(f.header), WriterRuns(env));
    var s2 := Deliver(s1, now);
    var g := s2.r.core.send.frame;
    StepsReached(s2, ReaderRuns(env, false), WriterHears(g), ReaderSentOk(g.header), ReaderRuns(env, false));
  }

  lemma {:induction false} RoundsReached(s: System, clock: seq<nat>)
    requires Inv(s) && ReachedWithCrc8(s)
    ensures ReachedWithCrc8(Rounds(s, clock))
    decreases |clock|
  {
    hide Round, Inv, ReachedWithCrc8;
    if clock == [] {
    } else {
      RoundIsReached(s, clock[0]);
      RoundsReached(Round(s, clock[0]), clock[1..]);
    }
  }

  lemma LinksUpIsReached()
    ensures ReachedWithCrc8(LinksUp())
  {
    var s := Start(1, Frame(META, 0, false, ZEROS), Crc8);
    StartInv(1, Frame(META, 0, false, ZEROS), Crc8);
    assert RunsTo([s], s);
    hide Do, Inv, ReachedWithCrc8;
    DoIsReached(s, WriterLink(true));
    DoIsReached(Do(s, WriterLink(true)), ReaderLink(true));
  }

  lemma DiscoveredIsReached()
    ensures ReachedWithCrc8(Discovered())
  {
    LinksUpIsReached();
    hide Do, Inv, ReachedWithCrc8, LinksUp;
    DoIsReached(LinksUp(), ReaderRuns(READY, false));
    var g := Asking().r.core.send.frame;
    StepsReached(Asking(), ReaderRuns(READY, false), WriterHears(g), ReaderSentOk(g.header), ReaderRuns(READY, false));
  }

  lemma OvertakenIsReached()
    ensures ReachedWithCrc8(Overtaken())
  {
    DiscoveredIsReached();
    hide Do, Inv, ReachedWithCrc8, Discovered;
    StepsReached(Discovered(), WriterSets(0, ZEROS), WriterRuns(READY), WriterRuns(READY), WriterSets(0, OTHER));
    var s := Do(Airs(PreparesBlock(WritesZeros(Discovered()))), WriterSets(0, OTHER));
    DoIsReached(s, WriterSentOk(DATA));
    DoIsReached(Do(s, WriterSentOk(DATA)), WriterRuns(READY));
    DoIsReached(Do(Do(s, WriterSentOk(DATA)), WriterRuns(READY)), WriterRuns(READY));
  }

  /** Both ends are content, and hold different bytes. */
  predicate ContentApart(t: System) {
    t.w.core.sync.Synced? && t.r.core.surface.good && t.w.core.surface.data != t.r.core.surface.data
  }

  lemma OvertakenSettlesApart(clock: seq<nat>)
    requires ClockOk(clock) && |clock| >= 6
    ensures ContentApart(Rounds(Overtaken(), clock))
  {
    hide Round, Overtaken;
    var s := Overtaken();
    Crc8Collides();
    OverlayAll(s.w.core.surface.data, s.r.core.surface.data, 1);
    RoundsSettle(s, clock);
  }

  /** With the CRC the library computes the failing case does occur: some run from power-up ends with both ends content,
      the reader holding zeros and the writer 0 0 1 7. */
  lemma SyncedWithDifferentBytes()
    ensures exists run: seq<System> :: IsRun(run) && run[0].w.core.surface.hash == Crc8 && ContentApart(run[|run| - 1])
  {
    hide Rounds, Overtaken, IsRun, Inv, ContentApart;
    var clock: seq<nat> := [0, 0, 0, 0, 0, 0];
    OvertakenIsReached();
    RoundsReached(Overtaken(), clock);
    OvertakenSettlesApart(clock);
    var run: seq<System> :| RunsTo(run, Rounds(Overtaken(), clock));
  }
}
