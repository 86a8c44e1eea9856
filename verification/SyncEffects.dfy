/** What every event does to the two ends of a surface, effect by effect: exactly which events mark blocks, wake an end, put
    it to sleep, take it into another state, or make it speak, and what stays as it is. */
module SyncEffects {
  import opened Common
  import opened Checksum
  import opened Surfaces
  import opened SendService
  import opened SyncNodes
  import opened SyncSystem
  import opened SyncConvergence

  // ---------------------------------------------------------------------------------------------
  // The writer

  predicate IsMeta(f: Packet, id: nat) {
    f.header == META && f.id == id
  }

  /** An announcement of the reader sets the writer to work, unless its link is down or it is at work. */
  predicate Wakes(w: Writer, f: Packet) {
    IsMeta(f, SERVICE_DISCOVERY) && (w.core.sync.WaitingForServiceDiscovery? || w.core.sync.Synced?)
  }

  /** The only packet that makes the writer Synced: a reply with its own checksum, once it has announced the end of a pass
      and nothing has been dirtied since. */
  predicate Agrees(w: Writer, f: Packet) {
    && IsMeta(f, UPDATE_FINISHED_REPLY) && |f.payload| == BLOCK_SIZE && f.payload[0] == w.core.surface.Crc()
    && w.core.sync.Syncing? && w.state.SendingFinished? && w.core.surface.dirty == {}
  }

  /** A reply that finds blocks dirtied since the announcement. */
  predicate Reopens(w: Writer, f: Packet) {
    IsMeta(f, UPDATE_FINISHED_REPLY) && w.core.sync.Syncing? && w.state.SendingFinished? && w.core.surface.dirty != {}
  }

  /** All effects of a packet on the writer. */
  ghost predicate Heard(w: Writer, f: Packet, v: Writer)
    requires |f.payload| == BLOCK_SIZE
  {
    && v.core.remote == (if f.header == META then Some(f.payload[0]) else w.core.remote)
    && v.core.surface.dirty == (if SendsBack(w, f) then w.core.surface.AllBlocks() else w.core.surface.dirty)
    && v.core.sync == (if Agrees(w, f) then Synced
                       else if Wakes(w, f) || (w.core.sync.Synced? && SendsBack(w, f)) then Syncing
                       else w.core.sync)
    && v.state == (if SendsBack(w, f) || Reopens(w, f) || Wakes(w, f) then UpdatingBlocks else w.state)
    && (v.core.enabled <==> w.core.enabled || Wakes(w, f))
    && w.core.SameBytes(v.core) && v.core.send == w.core.send && v.index == w.index
  }

  lemma ReplyIsHeard(w: Writer, f: Packet)
    requires w.Valid() && w.Justified() && |f.payload| == BLOCK_SIZE && IsMeta(f, UPDATE_FINISHED_REPLY)
    ensures Heard(w, f, w.Receive(f))
  {
  }

  lemma OtherIsHeard(w: Writer, f: Packet)
    requires w.Valid() && w.Justified() && |f.payload| == BLOCK_SIZE && !IsMeta(f, UPDATE_FINISHED_REPLY)
    ensures Heard(w, f, w.Receive(f))
  {
  }

  /** Every meta packet leaves its checksum; beyond that, four kinds of packet have an effect, each in its states only. */
  lemma WriterHearsExactly(w: Writer, f: Packet)
    requires w.Valid() && w.Justified() && |f.payload| == BLOCK_SIZE
    ensures Heard(w, f, w.Receive(f))
  {
    hide *;
    if IsMeta(f, UPDATE_FINISHED_REPLY) { ReplyIsHeard(w, f); } else { OtherIsHeard(w, f); }
  }

  /** The link going up makes the writer wait, asleep, for an announcement, at the start of a pass and with no checksum of the
      partner's; going down leaves it where it is. */
  lemma WriterLinkExactly(w: Writer, up: bool)
    requires w.Valid() && w.core.sync != LinkState(up)
    ensures var v := w.UpdateSyncState(LinkState(up));
            && v.core.sync == (if up then WaitingForServiceDiscovery else Disabled)
            && (v.core.enabled <==> !up)
            && v.core.remote == (if up then None else w.core.remote)
            && v.state == (if up then UpdatingBlocks else w.state)
            && w.core.SameBytes(v.core) && v.core.surface.dirty == w.core.surface.dirty
            && v.core.send == w.core.send && v.index == w.index
  {
  }

  /** Entering Syncing or Synced throws the cached checksum away; no other change of state does. */
  lemma EnteringMakesStale(w: Writer, newState: SyncState)
    requires w.Valid() && w.core.sync != newState
    ensures w.UpdateSyncState(newState).core.surface.stale <==> newState in {Syncing, Synced} || w.core.surface.stale
  {
  }

  /** Block i is the first dirty one from the start on, wrapping round at the end. */
  predicate IsNextDirty(dirty: set<nat>, start: nat, i: nat) {
    && i in dirty
    && (i >= start ==> forall k :: start <= k < i ==> k !in dirty)
    && (i < start ==> forall k :: k in dirty ==> i <= k < start)
  }

  /** A service run with nothing pending: what is sent, where the pass goes on, and whether its task stays alive. */
  lemma WriterServesExactly(w: Writer, now: nat)
    requires w.Valid() && w.core.send.Idle()
    ensures var v, dirty := w.OnService(now), w.core.surface.dirty;
            match w.core.sync
            case Syncing =>
              (match w.state
               case UpdatingBlocks =>
                 if dirty == {} then !v.core.send.pending && v.state.SendingFinished?
                 else
                   && v.state.SendingBlock? && v.core.remote.None?
                   && IsNextDirty(dirty, if w.index < w.core.surface.blocks then w.index else 0, v.index)
                   && v.core.send.pending && v.core.send.frame == Frame(DATA, v.index, false, w.core.surface.Block(v.index))
               case SendingBlock => !v.core.send.pending && v.state.UpdatingBlocks?
               case SendingFinished =>
                 if dirty != {} then !v.core.send.pending && v.state.UpdatingBlocks?
                 else v.state.SendingFinished? && v.core.send.pending && IsMeta(v.core.send.frame, UPDATE_FINISHED)
                      && v.core.send.frame.payload[0] == w.core.surface.Crc())
            case _ => !v.core.send.pending && v.state == w.state
    ensures var v := w.OnService(now);
            && v.core.sync == w.core.sync && v.core.surface.dirty == w.core.surface.dirty && w.core.SameBytes(v.core)
            && (v.core.enabled <==> (w.core.sync.Syncing? || w.core.sync.Synced?))
            && (!v.state.SendingBlock? || w.state.SendingBlock? ==> v.index == w.index && v.core.remote == w.core.remote)
  {
  }

  /** A callback with a packet pending: a data packet that is held back or refused is refreshed with the block's bytes, one that
      was reported sent clears its block and moves on to the next, and nothing else happens but to the packet. */
  lemma WriterRunsExactly(w: Writer, env: Env)
    requires w.Valid() && w.core.send.pending
    ensures var s := w.core.send;
            var next := s.Callback(env).0;
            var inTime := s.start != 0xFFFF_FFFF && Elapsed(env.now, s.start) <= s.sendTimeOut;
            var heldBack := s.status.SendingPacket? && inTime && (!env.allowed || (!env.accepted && s.failures < 3));
            var sent := w.SendsBlock() && s.status.SentOk?;
            w.Callback(env) ==
              w.(core := w.core.(send := if heldBack && w.SendsBlock() then next.(frame := next.frame.(payload := w.core.surface.Block(w.index)))
                                         else next,
                                 surface := w.core.surface.(dirty := w.core.surface.dirty - if sent then {w.index} else {})),
                 index := if sent then w.index + 1 else w.index)
  {
    assert w.core.surface.dirty - {} == w.core.surface.dirty;
  }

  /** A write by the application marks its block; a Synced writer starts a pass, any other state goes on. */
  lemma WriterWritesExactly(w: Writer, i: nat, b: seq<byte>)
    requires w.Valid() && i < w.core.surface.blocks && |b| == BLOCK_SIZE
    ensures var v := w.SetBlock(i, b);
            && v.core.surface.data == PutBlock(w.core.surface.data, i, b) && v.core.surface.dirty == w.core.surface.dirty + {i}
            && v.core.sync == (if w.core.sync.Synced? then Syncing else w.core.sync)
            && v.state == (if w.core.sync.Synced? then UpdatingBlocks else w.state)
            && v.core.remote == w.core.remote && v.core.send == w.core.send && v.index == w.index
            && v.core.enabled == w.core.enabled
  {
  }

  /** Blocks go out in turn: after a block has been reported sent, the next one sent is the first dirty block after it. */
  lemma BlocksGoInTurn(w: Writer, env: Env)
    requires w.Valid() && w.SendsBlock() && w.core.send.pending && w.core.send.status.SentOk? && !w.core.send.frame.hasAck
    ensures var u := w.Callback(env); u.Valid() && u.core.surface.dirty == w.core.surface.dirty - {w.index} && u.core.send.Idle()
    ensures var u := w.Callback(env);
            var v := u.OnService(env.now);
            && v.Valid() && v.core.send.Idle() && v.state.UpdatingBlocks?
            && (u.core.surface.dirty != {} ==>
                  var x := v.OnService(env.now);
                  && x.SendsBlock() && x.core.send.pending
                  && IsNextDirty(u.core.surface.dirty, if w.index + 1 < w.core.surface.blocks then w.index + 1 else 0, x.index))
  {
    var u := w.Callback(env);
    WriterServesExactly(u, env.now);
    WriterServesExactly(u.OnService(env.now), env.now);
  }

  // Over runs

  predicate Sleeps(w: Writer) {
    w.core.sync.WaitingForServiceDiscovery? ==> !w.core.enabled
  }

  lemma CallbackSleeps(w: Writer, env: Env)
    requires w.Valid() && Sleeps(w) && w.core.enabled
    ensures Sleeps(w.Callback(env))
  {
  }

  lemma StepSleeps(s: System, a: Action)
    requires Inv(s) && Sleeps(s.w)
    ensures Sleeps(Step(s, a).w)
  {
    hide Writer.Receive, Writer.Callback, Reader.Receive, Reader.Callback;
    match a
    case WriterRuns(env) => if s.w.core.enabled { CallbackSleeps(s.w, env); }
    case WriterHears(f) => if f in s.toWriter { WriterHearsExactly(s.w, f); }
    case _ =>
  }

  /** In every run a writer that waits for its reader does nothing, whenever its task would run, until it hears an
      announcement. */
  lemma {:induction false} WaitingWriterIsSilent(run: seq<System>, k: nat, env: Env)
    requires IsRun(run) && k < |run|
    ensures Sleeps(run[k].w)
    ensures run[k].w.core.sync.WaitingForServiceDiscovery? && Shape(run[k]) ==> Step(run[k], WriterRuns(env)) == run[k]
  {
    hide Step, Inv;
    if k == 0 {
    } else {
      WaitingWriterIsSilent(run, k - 1, env);
      RunKeepsInv(run, k - 1);
      assert NextAt(run, k - 1);
      var a: Action :| run[k] == Step(run[k - 1], a);
      StepSleeps(run[k - 1], a);
    }
    SleeperStays(run[k], env);
  }

  lemma SleeperStays(s: System, env: Env)
    ensures Shape(s) && !s.w.core.enabled ==> Step(s, WriterRuns(env)) == s
  {
  }

  /** In every step, the writer becomes Synced just by hearing a packet it agrees to. */
  lemma SyncsIffAgrees(s: System, a: Action)
    requires Inv(s) && !s.w.core.sync.Synced?
    ensures Step(s, a).w.core.sync.Synced? <==> a.WriterHears? && a.f in s.toWriter && Agrees(s.w, a.f)
  {
    if Step(s, a).w.core.sync.Synced? { OnlyRepliesSync(s, a); }
    if a.WriterHears? && a.f in s.toWriter { WriterHearsExactly(s.w, a.f); }
  }

  // ---------------------------------------------------------------------------------------------
  // The reader

  /** A block is stored and no longer marked by itself; an end that was content or waiting starts over with every block marked,
      and one that was waiting does not trust its data. */
  lemma ReaderHearsBlockExactly(r: Reader, f: Packet, now: nat)
    requires r.Valid() && r.Justified() && Wellformed(f, r.core.surface.blocks) && f.header == DATA
    ensures var q := r.Receive(f, now);
            var restarts := r.core.sync.Synced? || r.core.sync.WaitingForServiceDiscovery?;
            && q.core.surface.data == PutBlock(r.core.surface.data, f.id, f.payload) && q.core.remote == r.core.remote
            && q.core.send == r.core.send
            && q.core.sync == (if restarts then Syncing else r.core.sync)
            && q.core.surface.dirty == (if restarts then r.core.surface.AllBlocks() else r.core.surface.dirty - {f.id})
            && (q.core.surface.good <==> r.core.surface.good && !r.core.sync.WaitingForServiceDiscovery?)
            && (q.core.enabled <==> r.core.enabled || restarts)
  {
  }

  /** The announcement of the end of a pass is answered with the checksum of the reader's bytes, by an invalidation from a
      Synced reader that disagrees and by a reply otherwise; agreeing makes the data good, and the reader Synced if they
      were good before. */
  lemma ReaderHearsFinishExactly(r: Reader, f: Packet, now: nat)
    requires r.Valid() && r.Justified() && Wellformed(f, r.core.surface.blocks) && IsMeta(f, UPDATE_FINISHED)
    requires !r.core.sync.Disabled?
    ensures var q := r.Receive(f, now);
            var agrees := f.payload[0] == r.core.surface.Crc();
            && r.core.SameBytes(q.core) && q.core.remote == Some(f.payload[0]) && q.core.enabled
            && q.core.send.pending && q.core.send.frame.payload[0] == r.core.surface.Crc()
            && IsMeta(q.core.send.frame, if r.core.sync.Synced? && !agrees then INVALIDATE_REQUEST else UPDATE_FINISHED_REPLY)
            && (q.core.surface.good <==> agrees || r.core.surface.good)
            && q.core.sync == (if agrees && r.core.surface.good then Synced else Syncing)
            && q.core.surface.dirty == (if r.core.sync.Synced? && agrees then r.core.surface.dirty
                                        else if agrees && r.core.surface.good then {}
                                        else if r.core.sync.Syncing? && !agrees then r.core.surface.dirty
                                        else r.core.surface.AllBlocks())
  {
  }

  /** Nothing else that it hears moves the reader, but for the checksum of a meta packet. */
  lemma ReaderHearsOtherExactly(r: Reader, f: Packet, now: nat)
    requires r.Valid() && r.Justified() && Wellformed(f, r.core.surface.blocks) && f.header != DATA
    requires !IsMeta(f, UPDATE_FINISHED) || r.core.sync.Disabled?
    ensures var q := r.Receive(f, now);
            && q.core == r.core.(remote := if f.header == META then Some(f.payload[0]) else r.core.remote, surface := q.core.surface)
            && r.core.SameBytes(q.core) && q.core.surface.dirty == r.core.surface.dirty && q.core.surface.good == r.core.surface.good
  {
  }

  /** The link going up makes the reader announce itself, going down makes its data bad. */
  lemma ReaderLinkExactly(r: Reader, up: bool)
    requires r.Valid() && r.core.sync != LinkState(up)
    ensures var q := r.UpdateSyncState(LinkState(up));
            && q.core.sync == (if up then WaitingForServiceDiscovery else Disabled) && q.core.enabled
            && (q.core.surface.good <==> up && r.core.surface.good)
            && r.core.SameBytes(q.core) && q.core.surface.dirty == r.core.surface.dirty
            && q.core.send == r.core.send && q.core.remote == r.core.remote
  {
  }

  /** The reader speaks by itself only while it waits, until its time is up; then, or when its link is down, its task stops. */
  lemma ReaderServesExactly(r: Reader, now: nat, expired: bool)
    requires r.Valid() && r.core.send.Idle() && r.core.enabled
    ensures var q := r.OnService(now, expired);
            var announces := r.core.sync.WaitingForServiceDiscovery? && !expired;
            && (q.core.send.pending <==> announces)
            && (announces ==> IsMeta(q.core.send.frame, SERVICE_DISCOVERY) && q.core.send.frame.payload[0] == r.core.surface.Crc())
            && (q.core.enabled <==> announces || r.core.sync.Syncing? || r.core.sync.Synced?)
            && q.core.sync == r.core.sync && q.core.remote == r.core.remote && r.core.SameBytes(q.core)
            && q.core.surface.dirty == r.core.surface.dirty && q.core.surface.good == r.core.surface.good
  {
  }

  /** Its task runs the service just when no packet is pending; otherwise only the packet moves on. */
  lemma ReaderRunsExactly(r: Reader, env: Env, expired: bool)
    requires r.Valid()
    ensures r.core.send.pending ==> r.Callback(env, expired) == Reader(r.core.(send := r.core.send.Callback(env).0))
    ensures !r.core.send.pending ==> r.Callback(env, expired) == r.OnService(env.now, expired)
  {
  }

  /** A write on the reader's side marks its block, or all of them if the reader was Synced, which starts over; its data
      stays as good as it was. */
  lemma ReaderWritesExactly(r: Reader, i: nat, b: seq<byte>)
    requires r.Valid() && i < r.core.surface.blocks && |b| == BLOCK_SIZE
    ensures var q := r.SetBlock(i, b);
            && q.core.surface.data == PutBlock(r.core.surface.data, i, b)
            && q.core.surface.dirty == (if r.core.sync.Synced? then r.core.surface.AllBlocks() else r.core.surface.dirty + {i})
            && q.core.sync == (if r.core.sync.Synced? then Syncing else r.core.sync)
            && q.core.surface.good == r.core.surface.good && q.core.remote == r.core.remote && q.core.send == r.core.send
            && q.core.enabled == r.core.enabled
  {
  }
}
