/** A writer and a reader joined by a radio that may lose, delay, reorder and repeat packets: the network is
    the set of packets ever transmitted, and any of them may arrive at any time. */
module SyncSystem {
  import opened Common
  import opened Checksum
  import opened Surfaces
  import opened SendService
  import opened SyncNodes

  datatype System = System(
    w: Writer,
    r: Reader,
    toReader: set<Packet>,
    toWriter: set<Packet>,
    // history, read by no handler
    aired: seq<seq<byte>>,   // per block, the payload the writer last transmitted
    touched: bool,           // the block being sent was written since its payload was last prepared
    raced: set<nat>,         // blocks whose dirty bit was last cleared while touched
    matched: bool,           // an update-finished hash matched the reader's data since it was last Disabled
    blocksAired: nat,        // block packets transmitted so far
    finishesAired: nat)      // and update-finished packets

  datatype Action =
    | WriterSets(i: nat, b: seq<byte>)
    | ReaderSets(i: nat, b: seq<byte>)
    | WriterRuns(env: Env)
    | ReaderRuns(env: Env, expired: bool)
    | WriterSentOk(header: nat)
    | ReaderSentOk(header: nat)
    | ReaderHears(f: Packet, now: nat)
    | WriterHears(f: Packet)
    | WriterLink(up: bool)
    | ReaderLink(up: bool)

  function Start(blocks: nat, frame: Packet, hash: seq<byte> -> byte): System {
    var core := Core(Disabled, None, Fresh(blocks, hash), Send(frame, false, Done, 0, INVALID_MILLIS, 0, 0), false, INVALID_MILLIS);
    System(Writer(core, UpdatingBlocks, 0), Reader(core), {}, {}, seq(blocks, _ => [0, 0, 0, 0]), false, {}, false, 0, 0)
  }

  ghost predicate Shape(s: System) {
    && s.w.Valid() && s.w.Justified() && s.r.Valid() && s.r.Justified()
    && s.w.core.surface.blocks == s.r.core.surface.blocks == |s.aired|
    && s.w.core.surface.hash == s.r.core.surface.hash
    && (forall f :: f in s.toReader ==> Wellformed(f, |s.aired|))
    && (forall f :: f in s.toWriter ==> Wellformed(f, |s.aired|))
  }

  function LinkState(up: bool): SyncState {
    if up then WaitingForServiceDiscovery else Disabled
  }

  function WriterCallback(s: System, env: Env): System
    requires s.w.Valid()
  {
    var w := s.w.Callback(env);
    var e := s.w.core.send.Callback(env).1;
    var f := s.w.core.send.frame;
    match e
    case Transmitted =>
      s.(w := w, toReader := s.toReader + {f},
         aired := if f.header == DATA && f.id < |s.aired| then s.aired[f.id := f.payload] else s.aired,
         blocksAired := if f.header == DATA then s.blocksAired + 1 else s.blocksAired,
         finishesAired := if f.header == DATA then s.finishesAired else s.finishesAired + 1)
    case OnSendOk =>
      s.(w := w, raced := if !s.w.SendsBlock() then s.raced else if s.touched then s.raced + {s.w.index} else s.raced - {s.w.index})
    case OnSendDelayed => s.(w := w, touched := s.touched && !s.w.SendsBlock())
    case OnSendRetrying => s.(w := w, touched := s.touched && !s.w.SendsBlock())
    case OnService => s.(w := w, touched := false)
    case _ => s.(w := w)
  }

  function Step(s: System, a: Action): System
    requires Shape(s)
  {
    match a
    case WriterSets(i, b) =>
      if i < |s.aired| && |b| == BLOCK_SIZE then s.(w := s.w.SetBlock(i, b), touched := s.touched || i == s.w.index) else s
    case ReaderSets(i, b) =>
      if i < |s.aired| && |b| == BLOCK_SIZE then s.(r := s.r.SetBlock(i, b)) else s
    case WriterRuns(env) => if s.w.core.enabled then WriterCallback(s, env) else s
    case ReaderRuns(env, expired) =>
      if !s.r.core.enabled then s
      else if s.r.core.send.Callback(env).1.Transmitted? then
        s.(r := s.r.Callback(env, expired), toWriter := s.toWriter + {s.r.core.send.frame})
      else s.(r := s.r.Callback(env, expired))
    case WriterSentOk(h) => s.(w := s.w.ProcessSent(h))
    case ReaderSentOk(h) => s.(r := s.r.ProcessSent(h))
    case ReaderHears(f, now) =>
      if f !in s.toReader then s
      else s.(r := s.r.Receive(f, now), matched := s.matched || Matches(s.r, f))
    case WriterHears(f) => if f in s.toWriter then s.(w := s.w.Receive(f)) else s
    case WriterLink(up) => s.(w := s.w.UpdateSyncState(LinkState(up)))
    case ReaderLink(up) => s.(r := s.r.UpdateSyncState(LinkState(up)), matched := s.matched && up)
  }

  /** The packet is an update-finished packet whose hash is the checksum of the bytes the reader holds. */
  predicate Matches(r: Reader, f: Packet) {
    && f.header == META && f.id == UPDATE_FINISHED && |f.payload| == BLOCK_SIZE
    && f.payload[0] == r.core.surface.Crc()
    && !r.core.sync.Disabled?
  }

  // ---------------------------------------------------------------------------------------------
  // What every step keeps

  predicate GoodIsEarned(s: System) {
    s.r.core.surface.good ==> s.matched && !s.r.core.sync.Disabled?
  }

  /** A block that is neither dirty nor raced was last transmitted with the bytes it holds now. */
  ghost predicate NothingDropped(s: System)
    requires Shape(s)
  {
    var surface, send := s.w.core.surface, s.w.core.send;
    && (forall i: nat :: i < |s.aired| && i !in surface.dirty && i !in s.raced ==> s.aired[i] == surface.Block(i))
    && (send.pending && send.frame.header == DATA ==>
          && send.frame.id in surface.dirty
          && (send.status in {WaitingForSentOk, SentOk} ==> s.aired[send.frame.id] == send.frame.payload))
    && (send.pending && s.w.state.SendingBlock? && !s.touched ==> send.frame.payload == surface.Block(s.w.index))
  }

  ghost predicate Roles(s: System) {
    && (s.w.core.send.pending ==> WriterSpeaks(s.w.core.send.frame))
    && (s.r.core.send.pending ==> ReaderSpeaks(s.r.core.send.frame))
    && (forall f :: f in s.toReader ==> WriterSpeaks(f))
    && (forall f :: f in s.toWriter ==> ReaderSpeaks(f))
  }

  ghost predicate Inv(s: System) {
    && Shape(s) && Roles(s)
    && GoodIsEarned(s) && NothingDropped(s)
  }

  lemma StartInv(blocks: nat, frame: Packet, hash: seq<byte> -> byte)
    requires 0 < blocks < MAX_BLOCKS && |frame.payload| == BLOCK_SIZE
    ensures Inv(Start(blocks, frame, hash))
  {
  }

  lemma WriterMarksKeepsInv(s: System, w: Writer)
    requires Inv(s) && w.Valid() && w.Justified() && s.w.OnlyMarks(w)
    ensures Inv(s.(w := w))
  {
  }

  lemma WriterHearsStep(s: System, a: Action)
    requires Inv(s) && (a.WriterHears? || a.WriterLink?)
    ensures Inv(Step(s, a))
  {
    if !a.WriterHears? || a.f in s.toWriter {
      WriterMarksKeepsInv(s, Step(s, a).w);
    }
  }

  lemma WriterSentOkStep(s: System, h: nat)
    requires Inv(s)
    ensures Inv(Step(s, WriterSentOk(h)))
  {
  }

  lemma WriterSetsStep(s: System, i: nat, b: seq<byte>)
    requires Inv(s)
    ensures Inv(Step(s, WriterSets(i, b)))
  {
    if i < |s.aired| && |b| == BLOCK_SIZE {
      var w := s.w.SetBlock(i, b);
      forall j: nat | j < |s.aired| && j != i
        ensures w.core.surface.Block(j) == s.w.core.surface.Block(j)
      {
        OtherBlocksUnchanged(s.w.core.surface, i, b, j);
      }
    }
  }

  lemma WriterServesStep(s: System, env: Env)
    requires Inv(s) && s.w.core.send.Callback(env).1.OnService?
    ensures Inv(WriterCallback(s, env))
  {
  }

  lemma WriterTransmitsStep(s: System, env: Env)
    requires Inv(s) && s.w.core.send.Callback(env).1.Transmitted?
    ensures Inv(WriterCallback(s, env))
  {
  }

  lemma WriterRefreshesStep(s: System, env: Env)
    requires Inv(s) && s.w.core.send.Callback(env).1 in {OnSendDelayed, OnSendRetrying}
    ensures Inv(WriterCallback(s, env))
  {
  }

  lemma WriterSendOkStep(s: System, env: Env)
    requires Inv(s) && s.w.core.send.Callback(env).1.OnSendOk?
    ensures Inv(WriterCallback(s, env))
  {
  }

  lemma WriterOtherStep(s: System, env: Env)
    requires Inv(s) && s.w.core.send.Callback(env).1 !in {OnService, Transmitted, OnSendDelayed, OnSendRetrying, OnSendOk}
    ensures Inv(WriterCallback(s, env))
  {
  }

  lemma ReaderSetsStep(s: System, a: Action)
    requires Inv(s) && (a.ReaderSets? || a.ReaderSentOk? || a.ReaderLink?)
    ensures Inv(Step(s, a))
  {
  }

  lemma ReaderTransmitsStep(s: System, env: Env, expired: bool)
    requires Inv(s) && !s.r.core.send.Callback(env).1.OnService?
    ensures Inv(Step(s, ReaderRuns(env, expired)))
  {
  }

  lemma ReaderServesStep(s: System, env: Env, expired: bool)
    requires Inv(s) && s.r.core.send.Callback(env).1.OnService?
    ensures Inv(Step(s, ReaderRuns(env, expired)))
  {
  }

  lemma ReaderHearsStep(s: System, f: Packet, now: nat)
    requires Inv(s)
    ensures Inv(Step(s, ReaderHears(f, now)))
  {
  }

  lemma StepKeepsInv(s: System, a: Action)
    requires Inv(s)
    ensures Inv(Step(s, a))
  {
    match a
    case WriterSets(i, b) => WriterSetsStep(s, i, b);
    case ReaderSets(i, b) => ReaderSetsStep(s, a);
    case WriterRuns(env) =>
      match s.w.core.send.Callback(env).1 {
        case OnService => WriterServesStep(s, env);
        case Transmitted => WriterTransmitsStep(s, env);
        case OnSendDelayed => WriterRefreshesStep(s, env);
        case OnSendRetrying => WriterRefreshesStep(s, env);
        case OnSendOk => WriterSendOkStep(s, env);
        case _ => WriterOtherStep(s, env);
      }
    case ReaderRuns(env, expired) =>
      if s.r.core.send.Callback(env).1.OnService? { ReaderServesStep(s, env, expired); } else { ReaderTransmitsStep(s, env, expired); }
    case WriterSentOk(h) => WriterSentOkStep(s, h);
    case ReaderSentOk(h) => ReaderSetsStep(s, a);
    case ReaderHears(f, now) => ReaderHearsStep(s, f, now);
    case WriterHears(f) => WriterHearsStep(s, a);
    case WriterLink(up) => WriterHearsStep(s, a);
    case ReaderLink(up) => ReaderSetsStep(s, a);
  }

  // ---------------------------------------------------------------------------------------------
  // Whole runs

  ghost predicate Initial(s: System) {
    exists blocks: nat, frame: Packet, hash: seq<byte> -> byte ::
      0 < blocks < MAX_BLOCKS && |frame.payload| == BLOCK_SIZE && s == Start(blocks, frame, hash)
  }

  ghost predicate Next(s: System, t: System) {
    Shape(s) && exists a: Action :: t == Step(s, a)
  }

  ghost predicate NextAt(run: seq<System>, i: nat)
    requires i + 1 < |run|
  {
    Next(run[i], run[i + 1])
  }

  /** A sequence of states from power-up on, each one step from the one before it. */
  ghost predicate IsRun(run: seq<System>) {
    run != [] && Initial(run[0]) && forall i: nat :: i + 1 < |run| ==> NextAt(run, i)
  }

  lemma InitialInv(s: System)
    requires Initial(s)
    ensures Inv(s)
  {
    var blocks: nat, frame: Packet, hash: seq<byte> -> byte :|
      0 < blocks < MAX_BLOCKS && |frame.payload| == BLOCK_SIZE && s == Start(blocks, frame, hash);
    StartInv(blocks, frame, hash);
  }

  lemma NextKeepsInv(s: System, t: System)
    requires Inv(s) && Next(s, t)
    ensures Inv(t)
  {
    var a: Action :| t == Step(s, a);
    StepKeepsInv(s, a);
  }

  lemma {:induction false} RunKeepsInv(run: seq<System>, k: nat)
    requires IsRun(run) && k < |run|
    ensures Inv(run[k])
  {
    hide Next, Inv, Initial;
    if k == 0 {
      InitialInv(run[0]);
    } else {
      RunKeepsInv(run, k - 1);
      assert NextAt(run, k - 1);
      NextKeepsInv(run[k - 1], run[k]);
    }
  }

  /** f is ready to be sent by the reader and carries the checksum of the bytes the reader holds. */
  ghost predicate ReadyAt(s: System, f: Packet) {
    && s.r.core.send.pending && s.r.core.send.frame == f
    && |f.payload| == BLOCK_SIZE && f.payload[0] == s.r.core.surface.Crc()
  }

  /** It was so in the run before state k or in it. */
  ghost predicate Prepared(run: seq<System>, k: nat, f: Packet) {
    exists j: nat :: j <= k && j < |run| && ReadyAt(run[j], f)
  }

  /** Where the packets and the writer's remote hash in state k come from. */
  ghost predicate Origins(run: seq<System>, k: nat)
    requires k < |run|
  {
    var s := run[k];
    && (s.r.core.send.pending ==> Prepared(run, k, s.r.core.send.frame))
    && (forall f :: f in s.toWriter ==> Prepared(run, k, f))
    && (s.w.core.remote.Some? ==> exists f :: f in s.toWriter && f.payload != [] && f.payload[0] == s.w.core.remote.value)
  }

  /** What a single step can make the reader have ready. */
  lemma ReaderPrepares(s: System, a: Action)
    requires Inv(s)
    ensures var t := Step(s, a);
            && (t.r.core.send.pending ==>
                  ReadyAt(t, t.r.core.send.frame) || (s.r.core.send.pending && s.r.core.send.frame == t.r.core.send.frame))
            && (forall f :: f in t.toWriter ==> f in s.toWriter || (s.r.core.send.pending && f == s.r.core.send.frame))
            && s.toWriter <= t.toWriter
  {
  }

  lemma WriterRemoteHash(s: System, a: Action)
    requires Inv(s) && Step(s, a).w.core.remote.Some?
    ensures Step(s, a).w.core.remote == s.w.core.remote
            || (a.WriterHears? && a.f in s.toWriter && Step(s, a).w.core.remote == Some(a.f.payload[0]))
  {
    match a
    case WriterRuns(env) =>
      var send := s.w.core.send.Callback(env).0;
      assert s.w.(core := s.w.core.(send := send)).core.remote == s.w.core.remote;
    case _ =>
  }

  lemma StepKeepsOrigins(run: seq<System>, k: nat, a: Action)
    requires k + 1 < |run| && Inv(run[k]) && Origins(run, k) && run[k + 1] == Step(run[k], a)
    ensures Origins(run, k + 1)
  {
    var s, t := run[k], run[k + 1];
    ReaderPrepares(s, a);
    forall f | Prepared(run, k, f)
      ensures Prepared(run, k + 1, f)
    {
      var j: nat :| j <= k && j < |run| && ReadyAt(run[j], f);
    }
    if t.w.core.remote.Some? {
      WriterRemoteHash(s, a);
    }
  }

  lemma NextKeepsOrigins(run: seq<System>, k: nat)
    requires k + 1 < |run| && Inv(run[k]) && Origins(run, k) && Next(run[k], run[k + 1])
    ensures Origins(run, k + 1)
  {
    hide Step, Inv, Origins;
    var a: Action :| run[k + 1] == Step(run[k], a);
    StepKeepsOrigins(run, k, a);
  }

  lemma InitialHasOrigins(run: seq<System>)
    requires run != [] && Initial(run[0])
    ensures Origins(run, 0)
  {
  }

  lemma {:induction false} RunHasOrigins(run: seq<System>, k: nat)
    requires IsRun(run) && k < |run|
    ensures Origins(run, k)
  {
    hide Next, Inv, Origins, Initial;
    if k == 0 {
      InitialHasOrigins(run);
    } else {
      RunKeepsInv(run, k - 1);
      RunHasOrigins(run, k - 1);
      assert NextAt(run, k - 1);
      NextKeepsOrigins(run, k - 1);
    }
  }

  /** Over every run from power-up, whatever packets are lost, repeated or overtaken and whatever is written locally:
      a writer that is Synced has no block left to send, and at some moment the reader had an answer ready that
      carried the checksum of the bytes it held then, which is the checksum of the bytes the writer holds now. */
  lemma SyncedIsJustified(run: seq<System>, k: nat)
    requires IsRun(run) && k < |run| && run[k].w.core.sync.Synced?
    ensures run[k].w.core.surface.dirty == {}
    ensures exists j: nat :: j <= k && ReadyAt(run[j], run[j].r.core.send.frame) && run[j].r.core.surface.Crc() == run[k].w.core.surface.Crc()
  {
    hide Next, Initial;
    RunKeepsInv(run, k);
    RunHasOrigins(run, k);
    var f :| f in run[k].toWriter && f.payload != [] && f.payload[0] == run[k].w.core.remote.value;
    var j: nat :| j <= k && j < |run| && ReadyAt(run[j], f);
  }

  /** Only an answer to its update-finished packet takes the writer into Synced. */
  lemma OnlyRepliesSync(s: System, a: Action)
    requires Inv(s) && !s.w.core.sync.Synced? && Step(s, a).w.core.sync.Synced?
    ensures a.WriterHears? && a.f in s.toWriter && a.f.header == META && a.f.id == UPDATE_FINISHED_REPLY
  {
    if a.WriterRuns? {
      RunsNeverSync(s.w, a.env);
    }
  }

  lemma RunsNeverSync(w: Writer, env: Env)
    requires w.Valid() && w.Justified()
    ensures w.Callback(env).core.sync == w.core.sync
  {
  }

  lemma HeardHash(s: System, a: Action)
    requires Inv(s) && a.WriterHears? && a.f in s.toWriter && Step(s, a).w.core.sync.Synced? && !s.w.core.sync.Synced?
    ensures Step(s, a).w.core.remote == Some(a.f.payload[0])
  {
    OnlyRepliesSync(s, a);
  }

  /** An update-finished reply on the air at state k, prepared before, carrying the reader's checksum of that time. */
  ghost predicate JustReply(run: seq<System>, k: nat, f: Packet, crc: byte)
    requires k < |run|
  {
    && f in run[k].toWriter && f.header == META && f.id == UPDATE_FINISHED_REPLY
    && exists j: nat :: j <= k && ReadyAt(run[j], f) && run[j].r.core.surface.Crc() == crc
  }

  lemma ReplyWasJust(run: seq<System>, k: nat, a: Action)
    requires k + 1 < |run| && Inv(run[k]) && Origins(run, k) && run[k + 1] == Step(run[k], a)
    requires !run[k].w.core.sync.Synced? && run[k + 1].w.core.sync.Synced?
    ensures a.WriterHears? && JustReply(run, k, a.f, run[k + 1].w.core.surface.Crc())
  {
    OnlyRepliesSync(run[k], a);
    HeardHash(run[k], a);
    StepKeepsInv(run[k], a);
    hide Step;
    var j: nat :| j <= k && j < |run| && ReadyAt(run[j], a.f);
  }

  /** Every entry of the writer into Synced is the step in which it hears an update-finished reply that carried, when it
      was prepared, the checksum of the reader's bytes at that moment; and that is the checksum of its own bytes now,
      of which no block is left to send. */
  lemma SyncedByJustReply(run: seq<System>, k: nat)
    requires IsRun(run) && k + 1 < |run| && !run[k].w.core.sync.Synced? && run[k + 1].w.core.sync.Synced?
    ensures exists a: Action :: a.WriterHears? && Shape(run[k]) && run[k + 1] == Step(run[k], a)
                             && JustReply(run, k, a.f, run[k + 1].w.core.surface.Crc())
    ensures run[k + 1].w.core.surface.dirty == {}
  {
    SyncedIsJustified(run, k + 1);
    hide Step, Inv, Origins, JustReply, Initial;
    RunKeepsInv(run, k);
    RunHasOrigins(run, k);
    assert NextAt(run, k);
    var a: Action :| run[k + 1] == Step(run[k], a);
    ReplyWasJust(run, k, a);
  }

  /** While a block is being sent, what is pending is that block's packet, and the block is still marked dirty. */
  lemma PendingIsTheBlock(run: seq<System>, k: nat)
    requires IsRun(run) && k < |run|
    ensures var w := run[k].w;
            w.state.SendingBlock? && w.core.send.pending ==>
              w.core.send.frame.header == DATA && w.core.send.frame.id == w.index && w.index in w.core.surface.dirty
  {
    hide Next, Initial;
    RunKeepsInv(run, k);
  }

  /** Over every run: the reader claims to be Synced only with good data, an empty tracker and a remote hash equal to
      the checksum of its bytes, and its data is good only if an update-finished hash has matched those it held at the
      time, since the link last went down. */
  lemma ReaderIsSafe(run: seq<System>, k: nat)
    requires IsRun(run) && k < |run|
    ensures run[k].r.Justified()
    ensures run[k].r.core.surface.good ==> run[k].matched && !run[k].r.core.sync.Disabled?
  {
    hide Next, Initial;
    RunKeepsInv(run, k);
  }

  /** Over every run: a block with a clear bit was last transmitted with the bytes it holds now, unless it was written
      between the last preparation of its packet and the report that the packet was sent. */
  lemma NoDirtyBlockDropped(run: seq<System>, k: nat, i: nat)
    requires IsRun(run) && k < |run| && i < |run[k].aired|
    requires i !in run[k].w.core.surface.dirty && i !in run[k].raced
    ensures var surface := run[k].w.core.surface;
            BLOCK_SIZE * i + BLOCK_SIZE <= |surface.data| && run[k].aired[i] == surface.Block(i)
  {
    hide Next, Initial;
    RunKeepsInv(run, k);
  }

  /** The block is not marked, and the partner was last sent other bytes than it holds. */
  ghost predicate Lost(s: System, i: nat)
    requires Shape(s)
  {
    i < |s.aired| && i !in s.w.core.surface.dirty && s.aired[i] != s.w.core.surface.Block(i)
  }

  /** The writer's callback is about to clear the bit of a block that no longer holds the bytes it sent. */
  ghost predicate Loses(s: System, a: Action, i: nat)
    requires Shape(s)
  {
    && a.WriterRuns? && s.w.core.enabled && s.w.SendsBlock() && s.w.index == i
    && s.w.core.send.pending && s.w.core.send.status.SentOk?
    && i < |s.aired| && s.w.core.send.frame.payload != s.w.core.surface.Block(i)
  }

  /** From s to t, blocks that are not marked in t keep their bytes, what was last sent of them, and were not marked before. */
  ghost predicate OnlyMarksBlocks(s: System, t: System)
    requires Shape(s)
  {
    && Shape(t) && |t.aired| == |s.aired| && t.w.core.surface.dirty >= s.w.core.surface.dirty
    && forall j: nat :: j < |s.aired| && j !in t.w.core.surface.dirty ==>
         t.aired[j] == s.aired[j] && t.w.core.surface.Block(j) == s.w.core.surface.Block(j)
  }

  lemma RunMarksBlocks(s: System, env: Env)
    requires Inv(s) && !s.w.core.send.Callback(env).1.Transmitted? && !s.w.core.send.Callback(env).1.OnSendOk?
    ensures OnlyMarksBlocks(s, WriterCallback(s, env))
  {
    RunKeepsShape(s, env);
    assert s.w.core.SameBytes(WriterCallback(s, env).w.core);
    assert WriterCallback(s, env).w.core.surface.dirty == s.w.core.surface.dirty;
    hide Inv, Shape, WriterCallback;
  }

  lemma RunKeepsShape(s: System, env: Env)
    requires Inv(s)
    ensures Shape(WriterCallback(s, env))
  {
    hide WriterCallback;
    if s.w.core.send.Callback(env).1.OnService? { WriterServesStep(s, env); }
    else if s.w.core.send.Callback(env).1.Transmitted? { WriterTransmitsStep(s, env); }
    else if s.w.core.send.Callback(env).1 in {OnSendDelayed, OnSendRetrying} { WriterRefreshesStep(s, env); }
    else if s.w.core.send.Callback(env).1.OnSendOk? { WriterSendOkStep(s, env); }
    else { WriterOtherStep(s, env); }
  }

  /** Only a marked block is sent. */
  lemma AiringMarksBlocks(s: System, env: Env)
    requires Inv(s) && s.w.core.send.Callback(env).1.Transmitted?
    ensures OnlyMarksBlocks(s, WriterCallback(s, env))
  {
    RunKeepsShape(s, env);
    assert WriterCallback(s, env).w.core.surface == s.w.core.surface;
  }

  lemma ReportClears(s: System, env: Env)
    requires Inv(s) && s.w.core.send.Callback(env).1.OnSendOk?
    ensures var t := WriterCallback(s, env);
            && Shape(t) && t.aired == s.aired && s.w.core.SameBytes(t.w.core)
            && t.w.core.surface.dirty == (if s.w.SendsBlock() then s.w.core.surface.dirty - {s.w.index} else s.w.core.surface.dirty)
    ensures s.w.core.send.pending && s.w.core.send.status.SentOk?
    ensures s.w.SendsBlock() ==> s.w.index < |s.aired| && s.aired[s.w.index] == s.w.core.send.frame.payload
  {
    RunKeepsShape(s, env);
  }

  lemma OtherMarksBlocks(s: System, a: Action)
    requires Inv(s) && !a.WriterRuns?
    ensures OnlyMarksBlocks(s, Step(s, a))
  {
    StepKeepsInv(s, a);
    if a.WriterSets? && a.i < |s.aired| && |a.b| == BLOCK_SIZE {
      forall j: nat | j < |s.aired| && j != a.i
        ensures Step(s, a).w.core.surface.Block(j) == s.w.core.surface.Block(j)
      {
        OtherBlocksUnchanged(s.w.core.surface, a.i, a.b, j);
      }
    }
  }

  lemma MarkingLosesNothing(s: System, t: System, i: nat)
    requires Shape(s) && OnlyMarksBlocks(s, t)
    ensures Shape(t) && (Lost(t, i) <==> Lost(s, i) && i !in t.w.core.surface.dirty)
  {
  }

  /** Clearing loses a block just if it no longer holds what was sent of it. */
  lemma ReportLosesIff(s: System, env: Env, i: nat)
    requires Inv(s) && s.w.core.send.Callback(env).1.OnSendOk? && s.w.core.enabled
    ensures Shape(WriterCallback(s, env)) && (Lost(WriterCallback(s, env), i) <==> Lost(s, i) || Loses(s, WriterRuns(env), i))
    ensures Lost(s, i) ==> i !in WriterCallback(s, env).w.core.surface.dirty
  {
    ReportClears(s, env);
    hide Inv, WriterCallback;
  }

  lemma OnlyReportsLose(s: System, a: Action, i: nat)
    requires Inv(s) && (a.WriterRuns? ==> !s.w.core.send.Callback(a.env).1.OnSendOk?)
    ensures !Loses(s, a, i)
  {
  }

  /** What is lost after a step: what it loses, and what was lost and is not marked by it. */
  lemma LostAfter(s: System, a: Action, i: nat)
    requires Inv(s)
    ensures Shape(Step(s, a))
    ensures Lost(Step(s, a), i) <==> Loses(s, a, i) || (Lost(s, i) && i !in Step(s, a).w.core.surface.dirty)
  {
    hide Lost, Loses, WriterCallback, OnlyMarksBlocks;
    assert Shape(s) && s.w.Valid();
    hide Inv;
    if a.WriterRuns? && s.w.core.enabled {
      if s.w.core.send.Callback(a.env).1.OnSendOk? {
        ReportLosesIff(s, a.env, i);
      } else {
        if s.w.core.send.Callback(a.env).1.Transmitted? { AiringMarksBlocks(s, a.env); } else { RunMarksBlocks(s, a.env); }
        MarkingLosesNothing(s, WriterCallback(s, a.env), i);
        OnlyReportsLose(s, a, i);
      }
    } else if !a.WriterRuns? {
      OtherMarksBlocks(s, a);
      MarkingLosesNothing(s, Step(s, a), i);
      OnlyReportsLose(s, a, i);
    } else {
      LostIsUnmarked(s, a, i);
    }
  }

  /** A writer whose task is not running does nothing. */
  lemma LostIsUnmarked(s: System, a: Action, i: nat)
    requires Inv(s) && a.WriterRuns? && !s.w.core.enabled
    ensures Step(s, a) == s && !Loses(s, a, i) && (Lost(s, i) ==> i !in s.w.core.surface.dirty)
  {
  }

  /** The step from state j of the run to the next one loses block i. */
  ghost predicate LosesAt(run: seq<System>, j: nat, i: nat)
    requires j + 1 < |run|
  {
    exists a: Action :: Shape(run[j]) && run[j + 1] == Step(run[j], a) && Loses(run[j], a, i)
  }

  /** Between states j and k, state j not included, the block has never been marked. */
  predicate UnmarkedSince(run: seq<System>, j: nat, k: nat, i: nat)
    requires k < |run|
  {
    forall m: nat :: j < m <= k ==> i !in run[m].w.core.surface.dirty
  }

  lemma NextLost(run: seq<System>, k: nat, i: nat)
    requires k + 1 < |run| && Inv(run[k]) && NextAt(run, k)
    ensures Shape(run[k + 1])
    ensures Lost(run[k + 1], i) <==> LosesAt(run, k, i) || (Lost(run[k], i) && i !in run[k + 1].w.core.surface.dirty)
  {
    hide Step, Inv, Lost, Loses;
    var a: Action :| run[k + 1] == Step(run[k], a);
    LostAfter(run[k], a, i);
    if LosesAt(run, k, i) {
      var b: Action :| Shape(run[k]) && run[k + 1] == Step(run[k], b) && Loses(run[k], b, i);
      LostAfter(run[k], b, i);
    }
  }

  lemma LostUnmarked(s: System, i: nat)
    requires Shape(s) && Lost(s, i)
    ensures i !in s.w.core.surface.dirty
  {
  }

  lemma StartLosesNothing(s: System, i: nat)
    requires Initial(s)
    ensures Shape(s) && !Lost(s, i)
  {
    InitialInv(s);
  }

  /** Over every run: a block is lost, unmarked though the partner was last sent other bytes, just when some callback has
      cleared its bit while it no longer held the bytes that were sent, and it has not been marked since. */
  lemma {:induction false} LostIffSentStale(run: seq<System>, k: nat, i: nat)
    requires IsRun(run) && k < |run|
    ensures Shape(run[k])
    ensures Lost(run[k], i) <==> exists j: nat :: j < k && LosesAt(run, j, i) && UnmarkedSince(run, j, k, i)
  {
    hide Inv, Lost, LosesAt, Initial, Next, Shape;
    if k == 0 {
      StartLosesNothing(run[0], i);
    } else {
      RunKeepsInv(run, k - 1);
      LostIffSentStale(run, k - 1, i);
      assert NextAt(run, k - 1);
      NextLost(run, k - 1, i);
      if Lost(run[k], i) {
        LostUnmarked(run[k], i);
        if LosesAt(run, k - 1, i) {
          assert UnmarkedSince(run, k - 1, k, i);
        } else {
          var j: nat :| j < k - 1 && LosesAt(run, j, i) && UnmarkedSince(run, j, k - 1, i);
          assert UnmarkedSince(run, j, k, i);
        }
      }
      forall j: nat | j < k && LosesAt(run, j, i) && UnmarkedSince(run, j, k, i)
        ensures Lost(run[k], i)
      {
        if j < k - 1 { assert UnmarkedSince(run, j, k - 1, i); }
      }
    }
  }

  /** The exception is real, and exact: bytes written to a block whose packet is on the air, or prepared and sent without
      being refreshed, are dropped from the tracker when the sent report arrives, and the partner has missed them just if
      they differ from what was prepared. */
  lemma WriteDuringSendIsDropped(s: System, b: seq<byte>, air: Env, env: Env)
    requires Inv(s) && s.w.SendsBlock() && s.w.core.send.pending && |b| == BLOCK_SIZE
    requires s.w.core.send.status.WaitingForSentOk? || s.w.core.send.Callback(air).1.Transmitted?
    ensures var i := s.w.index;
            var t := Written(s, b, air, env);
            && i !in t.w.core.surface.dirty && t.w.core.surface.blocks == |t.aired|
            && t.w.core.surface.Valid() && i < |t.aired|
            && t.w.core.surface.Block(i) == b
            && (t.aired[i] == t.w.core.surface.Block(i) <==> b == s.w.core.send.frame.payload)
  {
  }

  function Do(s: System, a: Action): (t: System)
    requires Inv(s)
    ensures Inv(t)
  {
    StepKeepsInv(s, a);
    Step(s, a)
  }

  /** A write to the block being sent, its transmission if it is still to come, the sent report, and the callback that
      handles the report. */
  function Written(s: System, b: seq<byte>, air: Env, env: Env): System
    requires Inv(s)
  {
    var t := Do(s, WriterSets(s.w.index, b));
    Do(Do(if s.w.core.send.status.WaitingForSentOk? then t else Do(t, WriterRuns(air)), WriterSentOk(DATA)), WriterRuns(env))
  }

  /** Some run from power-up, with the checksum the library computes, ends in the state. */
  ghost predicate ReachedWithCrc8(s: System) {
    exists run: seq<System> :: RunsTo(run, s)
  }

  ghost predicate RunsTo(run: seq<System>, s: System) {
    IsRun(run) && run[0].w.core.surface.hash == Crc8 && run[|run| - 1] == s
  }

  lemma DoIsReached(s: System, a: Action)
    requires Inv(s) && ReachedWithCrc8(s)
    ensures ReachedWithCrc8(Do(s, a))
  {
    hide Step, Inv, RunsTo;
    var run: seq<System> :| RunsTo(run, s);
    ExtendRun(run, s, a);
  }

  lemma ExtendRun(run: seq<System>, s: System, a: Action)
    requires Inv(s) && RunsTo(run, s)
    ensures RunsTo(run + [Step(s, a)], Step(s, a))
  {
    hide Step, Initial;
    var more := run + [Step(s, a)];
    assert Next(s, Step(s, a)) by { Steps(s, a); }
    forall i: nat | i + 1 < |more|
      ensures NextAt(more, i)
    {
      if i + 1 < |run| { assert NextAt(run, i); }
    }
  }

  lemma Steps(s: System, a: Action)
    requires Inv(s)
    ensures Next(s, Step(s, a))
  {
  }
}
