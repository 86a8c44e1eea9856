/** The two ends of the surface replication protocol as values: every handler is a function from the
    state it finds to the state it leaves (src/Services/SyncSurface). Scheduling delays are left to the
    environment: a callback may run at any time while the service is enabled. */
module SyncNodes {
  import opened Common
  import opened Checksum
  import opened Surfaces
  import opened SendService

  // Packet headers relative to the surface's base header, and the meta packet ids.
  const META: nat := 0
  const DATA: nat := 1
  const SERVICE_DISCOVERY: nat := 0
  const UPDATE_FINISHED: nat := 1
  const UPDATE_FINISHED_REPLY: nat := 2
  const INVALIDATE_REQUEST: nat := 3

  const SYNC_CONFIRM_SEND_PERIOD: nat := 20
  const SERVICE_DISCOVERY_SEND_PERIOD: nat := 50

  datatype SyncState = WaitingForServiceDiscovery | Syncing | Synced | Disabled
  datatype WriterState = UpdatingBlocks | SendingBlock | SendingFinished

  type Packet = Frame<seq<byte>>

  /** A packet that fits the shared packet buffer and, if it carries a block, names an existing one. */
  predicate Wellformed(f: Packet, blocks: nat) {
    !f.hasAck && |f.payload| == BLOCK_SIZE && (f.header == DATA ==> f.id < blocks)
  }

  function DataPacket(i: nat, block: seq<byte>): Packet {
    Frame(DATA, i, false, block)
  }

  /** AbstractSync: the part both ends share. */
  datatype Core = Core(
    sync: SyncState,
    remote: Option<byte>,     // LastRemoteHash when RemoteHashIsSet
    surface: Surface,
    send: Send<seq<byte>>,
    enabled: bool,            // the service's task is running
    lastSent: nat)
  {
    predicate Valid() {
      && surface.Valid()
      && send.Valid()
      && |send.frame.payload| == BLOCK_SIZE
      && (send.pending ==> Wellformed(send.frame, surface.blocks))
      && (sync.Syncing? || sync.Synced? ==> enabled)
      && lastSent == INVALID_MILLIS
    }

    function UpdateLocalHash(): Core {
      this.(surface := surface.UpdateHash())
    }

    function InvalidateLocalHash(): Core {
      this.(surface := surface.InvalidateHash())
    }

    predicate HashesMatch() {
      remote.Some? && surface.crc == remote.value
    }

    function ElapsedSinceLastSent(now: nat): nat {
      if lastSent == INVALID_MILLIS then INVALID_MILLIS else Elapsed(now, lastSent)
    }

    /** PrepareMetaPacket then RequestSendPacket: only the first payload byte is written. */
    function SendMeta(subHeader: nat, now: nat): (c: Core)
      requires Valid()
      ensures c.Valid() && c.surface.crc == c.surface.Crc() && c.send.frame.payload[0] == surface.Crc()
      ensures SameBytes(c) && c.sync == sync && c.remote == remote
      ensures c.surface.dirty == surface.dirty && c.surface.good == surface.good
      ensures c.send.pending && c.send.frame.header == META && c.send.frame.id == subHeader && c.send.status.SendingPacket?
    {
      var c := UpdateLocalHash();
      c.(send := send.Request(Frame(META, subHeader, false, send.frame.payload[0 := c.surface.crc]), now))
    }

    /** UpdateSyncState up to the call of the OnStateUpdated hook. */
    function EnterState(newState: SyncState): (c: Core) {
      var c := this.(lastSent := INVALID_MILLIS, enabled := true);
      var d := if newState.Syncing? || newState.Synced? then c.InvalidateLocalHash() else c;
      d.(sync := newState)
    }

    ghost predicate SameBytes(c: Core) {
      c.surface.blocks == surface.blocks && c.surface.data == surface.data && c.surface.hash == surface.hash
    }
  }

  // ---------------------------------------------------------------------------------------------
  // SyncSurfaceWriter

  datatype Writer = Writer(core: Core, state: WriterState, index: nat) {
    predicate Valid() {
      && core.Valid()
      && index <= core.surface.blocks
      // a packet pending while a block is being sent is the data packet of that block
      && (state.SendingBlock? && core.send.pending ==>
            index < core.surface.blocks && core.send.frame.header == DATA && core.send.frame.id == index)
    }

    /** Synced is claimed only with nothing left to send and the reader's last hash equal to the writer's own. */
    predicate Justified() {
      core.sync.Synced? ==> core.surface.dirty == {} && core.remote == Some(core.surface.Crc())
    }

    /** The step from this to w kept bytes, packet and index, added at most dirty bits, and did not start sending a block. */
    ghost predicate OnlyMarks(w: Writer) {
      && core.SameBytes(w.core) && w.core.send == core.send && w.index == index
      && w.core.surface.dirty >= core.surface.dirty
      && (w.state.SendingBlock? ==> state.SendingBlock?)
    }

    ghost predicate KeepsRemote(w: Writer) {
      w.core.remote == core.remote || w.core.remote.None?
    }

    function UpdateSyncingState(newState: WriterState): Writer {
      if state == newState then this
      else this.(core := core.(lastSent := INVALID_MILLIS, remote := if newState.SendingBlock? then None else core.remote),
                 state := newState)
    }

    /** The WaitingForServiceDiscovery case falls through into the Syncing case. */
    function OnStateUpdated(newState: SyncState): Writer {
      match newState
      case WaitingForServiceDiscovery => this.(core := core.(remote := None, enabled := false)).UpdateSyncingState(UpdatingBlocks)
      case Syncing => UpdateSyncingState(UpdatingBlocks)
      case _ => this
    }

    function UpdateSyncState(newState: SyncState): (w: Writer)
      requires Valid()
      ensures w.Valid() && OnlyMarks(w) && KeepsRemote(w) && w.core.sync == newState
      ensures w.core.surface.dirty == core.surface.dirty
      ensures newState.Synced? ==> w.core.remote == core.remote
      ensures newState.Syncing? && !core.sync.Syncing? ==> w.state.UpdatingBlocks?
    {
      if core.sync == newState then this
      else this.(core := core.EnterState(newState)).OnStateUpdated(newState)
    }

    function SurfaceDataChangedEvent(): Writer
      requires this.(core := core.InvalidateLocalHash()).Valid()
    {
      var w := this.(core := core.InvalidateLocalHash());
      if core.sync.Synced? then w.UpdateSyncState(Syncing) else w
    }

    /** A local Set8, Set16 or Set32 that leaves block i holding b. */
    function SetBlock(i: nat, b: seq<byte>): (w: Writer)
      requires Valid() && i < core.surface.blocks && |b| == BLOCK_SIZE
      ensures w.Valid() && !w.core.sync.Synced?
      ensures w.core.surface.data == PutBlock(core.surface.data, i, b) && w.core.surface.dirty == core.surface.dirty + {i}
      ensures w.core.surface.blocks == core.surface.blocks && w.core.surface.hash == core.surface.hash
      ensures w.core.send == core.send && w.index == index && (w.state.SendingBlock? ==> state.SendingBlock?)
      ensures KeepsRemote(w)
    {
      this.(core := core.(surface := core.surface.(data := PutBlock(core.surface.data, i, b), dirty := core.surface.dirty + {i})))
      .SurfaceDataChangedEvent()
    }

    function SetAllDirty(): (w: Writer)
      requires Valid()
      ensures w.Valid() && OnlyMarks(w) && KeepsRemote(w)
    {
      this.(core := core.(surface := core.surface.SetAll()))
    }

    function OnServiceDiscoveryReceived(): (w: Writer)
      requires Valid()
      ensures w.Valid() && w.Justified() && OnlyMarks(w) && KeepsRemote(w)
    {
      match core.sync
      case Syncing => this
      case Disabled => this
      case _ => UpdateSyncState(Syncing)
    }

    function OnUpdateFinishedReplyReceived(): (w: Writer)
      requires Valid() && core.remote.Some? && (core.sync.Synced? ==> core.surface.dirty == {})
      ensures w.Valid() && w.Justified() && OnlyMarks(w) && KeepsRemote(w)
    {
      var w := this.(core := core.UpdateLocalHash());
      match w.core.sync
      case Syncing =>
        if !w.state.SendingFinished? then w
        else if w.core.surface.dirty != {} then w.UpdateSyncingState(UpdatingBlocks)
        else if w.core.HashesMatch() then w.UpdateSyncState(Synced)
        else w.SetAllDirty().UpdateSyncingState(UpdatingBlocks)
      case Synced => if !w.core.HashesMatch() then w.SetAllDirty().UpdateSyncState(Syncing) else w
      case _ => w
    }

    function OnInvalidateRequestReceived(): (w: Writer)
      requires Valid()
      ensures w.Valid() && w.Justified() && OnlyMarks(w) && KeepsRemote(w)
    {
      match core.sync
      case Syncing => SetAllDirty().UpdateSyncingState(UpdatingBlocks)
      case Synced => SetAllDirty().UpdateSyncState(Syncing)
      case _ => this
    }

    /** ProcessPacket: only meta packets mean anything to a writer. */
    function Receive(f: Packet): (w: Writer)
      requires Valid() && Justified() && |f.payload| == BLOCK_SIZE
      ensures w.Valid() && OnlyMarks(w)
      ensures ReaderSpeaks(f) ==> w.Justified()
      ensures w.core.remote in {core.remote, None, Some(f.payload[0])}
    {
      if f.header != META then this
      else
        var w := this.(core := core.(remote := Some(f.payload[0])));
        if f.id == UPDATE_FINISHED_REPLY then w.OnUpdateFinishedReplyReceived()
        else if f.id == INVALIDATE_REQUEST then w.OnInvalidateRequestReceived()
        else if f.id == SERVICE_DISCOVERY then w.OnServiceDiscoveryReceived()
        else w
    }

    /** PrepareNextPendingBlockPacket then RequestSendPacket. */
    function SendNextBlock(now: nat): (w: Writer)
      requires Valid() && core.surface.dirty != {}
      ensures w.index in core.surface.dirty && w.index < core.surface.blocks
      ensures w == this.(index := w.index, core := core.(send := core.send.Request(DataPacket(w.index, core.surface.Block(w.index)), now)))
    {
      var start := if index >= core.surface.blocks then 0 else index;
      var i := NextSetIndex(core.surface.dirty, start, core.surface.blocks);
      this.(index := i, core := core.(send := core.send.Request(DataPacket(i, core.surface.Block(i)), now)))
    }

    /** What one run of the service leaves pending: nothing, or the data packet of a dirty block holding that
        block's bytes, or with no block dirty an update-finished packet holding the checksum. */
    ghost predicate Serves(w: Writer) {
      && w.Valid() && core.SameBytes(w.core) && w.core.surface.dirty == core.surface.dirty && w.core.sync == core.sync
      && KeepsRemote(w)
      && if w.core.send.pending then
           && w.core.send.status.SendingPacket? && core.sync.Syncing?
           && if w.state.SendingBlock? then
                w.index in core.surface.dirty && w.core.send.frame == DataPacket(w.index, core.surface.Block(w.index))
              else
                && w.state.SendingFinished? && core.surface.dirty == {}
                && w.core.send.frame.header == META && w.core.send.frame.id == UPDATE_FINISHED
                && w.core.send.frame.payload[0] == core.surface.Crc()
         else w.core.send == core.send
    }

    function SendBlockOrFinish(now: nat): (w: Writer)
      requires Valid() && core.send.Idle() && core.sync.Syncing?
      ensures Serves(w)
    {
      if core.surface.dirty != {} then SendNextBlock(now).UpdateSyncingState(SendingBlock)
      else UpdateSyncingState(SendingFinished)
    }

    function ConfirmFinished(now: nat): (w: Writer)
      requires Valid() && core.send.Idle() && core.sync.Syncing? && state.SendingFinished?
      ensures Serves(w)
    {
      if core.surface.dirty != {} then UpdateSyncingState(UpdatingBlocks)
      else if core.ElapsedSinceLastSent(now) > SYNC_CONFIRM_SEND_PERIOD then this.(core := core.SendMeta(UPDATE_FINISHED, now))
      else this
    }

    function OnSyncActive(now: nat): (w: Writer)
      requires Valid() && core.send.Idle() && core.sync.Syncing?
      ensures Serves(w)
    {
      match state
      case UpdatingBlocks => SendBlockOrFinish(now)
      case SendingBlock => UpdateSyncingState(UpdatingBlocks)
      case SendingFinished => ConfirmFinished(now)
    }

    function OnService(now: nat): (w: Writer)
      requires Valid() && core.send.Idle()
      ensures Serves(w) && (core.sync.Synced? ==> w.core.remote == core.remote)
    {
      var w := this.(core := core.UpdateLocalHash());
      match core.sync
      case Syncing => w.OnSyncActive(now)
      case Synced => w
      case _ => w.(core := w.core.(enabled := false))
    }

    predicate SendsBlock() {
      core.sync.Syncing? && state.SendingBlock?
    }

    /** UpdatePendingBlockPacketPayload: a packet held back is refreshed with the latest bytes. */
    function RefreshPayload(): Writer
      requires Valid() && core.send.pending
    {
      if SendsBlock() then this.(core := core.(send := core.send.(frame := core.send.frame.(payload := core.surface.Block(index))))) else this
    }

    function OnSendOk(): Writer {
      if SendsBlock() then this.(core := core.(surface := core.surface.(dirty := core.surface.dirty - {index})), index := index + 1) else this
    }

    function Callback(env: Env): Writer
      requires Valid()
    {
      var (s, e) := core.send.Callback(env);
      var w := this.(core := core.(send := s));
      match e
      case OnService => w.OnService(env.now)
      case OnSendDelayed => w.RefreshPayload()
      case OnSendRetrying => w.RefreshPayload()
      case OnSendOk => w.OnSendOk()
      case _ => w
    }

    function ProcessSent(header: nat): Writer {
      this.(core := core.(send := core.send.ProcessSent(header)))
    }
  }

  /** What each end puts on the air. */
  predicate WriterSpeaks(f: Packet) {
    f.header == DATA || (f.header == META && f.id == UPDATE_FINISHED)
  }

  predicate ReaderSpeaks(f: Packet) {
    f.header == META && f.id in {SERVICE_DISCOVERY, UPDATE_FINISHED_REPLY, INVALIDATE_REQUEST}
  }

  // ---------------------------------------------------------------------------------------------
  // SyncSurfaceReader

  datatype Reader = Reader(core: Core) {
    predicate Valid() {
      core.Valid()
    }

    predicate Justified() {
      core.sync.Synced? ==> core.surface.good && core.surface.dirty == {} && core.remote == Some(core.surface.Crc())
    }

    /** The step from this to r kept bytes, packet and remote hash. */
    ghost predicate SameStore(r: Reader) {
      core.SameBytes(r.core) && r.core.send == core.send && r.core.remote == core.remote
    }

    function SetDirty(d: set<nat>): Reader {
      Reader(core.(surface := core.surface.(dirty := d)))
    }

    function SetDataGood(good: bool): Reader {
      Reader(core.(surface := core.surface.(good := good)))
    }

    /** Entering Synced with bad data notifies, and the notification runs SurfaceDataChangedEvent at once. */
    function OnStateUpdated(newState: SyncState): (r: Reader)
      requires Valid() && core.sync == newState
      ensures r.Valid() && SameStore(r)
      ensures newState.Synced? ==> r.core.surface.good
      ensures newState.Synced? && core.surface.good ==> r.core.sync.Synced? && r.core.surface.dirty == {}
      ensures newState.Synced? && !core.surface.good ==> r.core.sync.Syncing?
      ensures newState.Syncing? || (newState.Synced? && !core.surface.good) ==> r.core.surface.dirty == core.surface.AllBlocks()
      ensures !newState.Synced? ==> r.core.sync == newState && r.core.surface.good == (core.surface.good && !newState.Disabled?)
      decreases newState.Synced?, 0
    {
      match newState
      case Syncing => SetDirty(core.surface.AllBlocks())
      case Synced =>
        var r := Reader(SetDirty({}).core.InvalidateLocalHash().UpdateLocalHash());
        if r.core.surface.good then r else r.SetDataGood(true).SurfaceDataChangedEvent(true)
      case Disabled => SetDataGood(false)
      case WaitingForServiceDiscovery => this
    }

    function UpdateSyncState(newState: SyncState): (r: Reader)
      requires Valid()
      ensures r.Valid() && SameStore(r)
      ensures core.sync == newState ==> r == this
      ensures newState.Synced? && !core.sync.Synced? ==> r.core.surface.good
      ensures newState.Synced? && !core.sync.Synced? && core.surface.good ==> r.core.sync.Synced? && r.core.surface.dirty == {}
      ensures newState.Synced? && !core.sync.Synced? && !core.surface.good ==> r.core.sync.Syncing?
      ensures core.sync != newState && (newState.Syncing? || (newState.Synced? && !core.surface.good)) ==>
                r.core.surface.dirty == core.surface.AllBlocks()
      ensures core.sync != newState && !newState.Synced? ==>
                r.core.sync == newState && r.core.surface.good == (core.surface.good && !newState.Disabled?)
      decreases newState.Synced?, 1
    {
      if core.sync == newState then this
      else Reader(core.EnterState(newState)).OnStateUpdated(newState)
    }

    function SurfaceDataChangedEvent(dataGood: bool): (r: Reader)
      requires Reader(core.InvalidateLocalHash()).Valid()
      ensures r.Valid() && SameStore(r) && r.core.surface.good == core.surface.good
      ensures r.core.sync == if core.sync.Synced? then Syncing else core.sync
      ensures r.core.surface.dirty == if core.sync.Synced? then core.surface.AllBlocks() else core.surface.dirty
      decreases false, 2
    {
      var r := Reader(core.InvalidateLocalHash());
      if core.sync.Synced? then r.UpdateSyncState(Syncing) else r
    }

    function SetBlock(i: nat, b: seq<byte>): (r: Reader)
      requires Valid() && i < core.surface.blocks && |b| == BLOCK_SIZE
      ensures r.Valid() && !r.core.sync.Synced? && r.core.surface.good == core.surface.good
      ensures r.core.surface.data == PutBlock(core.surface.data, i, b)
      ensures r.core.surface.blocks == core.surface.blocks && r.core.surface.hash == core.surface.hash && r.core.send == core.send
      ensures r.core.sync.Disabled? <==> core.sync.Disabled?
    {
      Reader(core.(surface := core.surface.(data := PutBlock(core.surface.data, i, b), dirty := core.surface.dirty + {i})))
      .SurfaceDataChangedEvent(core.surface.good)
    }

    /** The notification comes before the switch on the state, and it takes a Synced reader back to Syncing:
        the Synced case of that switch is never reached. */
    function OnBlockReceived(i: nat, b: seq<byte>): (r: Reader)
      requires Valid() && i < core.surface.blocks && |b| == BLOCK_SIZE
      ensures r.Valid() && !r.core.sync.Synced? && (r.core.surface.good ==> core.surface.good)
      ensures r.core.surface.data == PutBlock(core.surface.data, i, b)
      ensures r.core.surface.blocks == core.surface.blocks && r.core.surface.hash == core.surface.hash && r.core.send == core.send
      ensures r.core.sync == if core.sync.Disabled? then Disabled else Syncing
    {
      var s := core.surface.WithBlock(i, b);
      var r := Reader(core.(surface := s.(dirty := s.dirty - {i}))).SurfaceDataChangedEvent(core.surface.good);
      match r.core.sync
      case WaitingForServiceDiscovery => r.UpdateSyncState(Syncing).SetDataGood(false)
      case _ => r
    }

    /** What the reader leaves behind when an update-finished packet reaches it: an answer carrying the checksum of
        its bytes. A matching hash makes the data good. */
    ghost predicate Answers(r: Reader) {
      && r.Valid() && core.SameBytes(r.core) && r.core.remote == core.remote && !r.core.sync.Disabled?
      && r.core.send.pending && r.core.send.status.SendingPacket? && r.core.send.frame.header == META
      && r.core.send.frame.payload[0] == core.surface.Crc()
      && if core.remote == Some(core.surface.Crc()) then
           r.core.surface.good && r.core.send.frame.id == UPDATE_FINISHED_REPLY
         else
           && r.core.surface.good == core.surface.good && !r.core.sync.Synced?
           && r.core.send.frame.id == if core.sync.Synced? then INVALIDATE_REQUEST else UPDATE_FINISHED_REPLY
    }

    /** The reply is prepared before the state changes; data that was not good bounces the reader back to Syncing. */
    function ReplyAndCompare(now: nat): (r: Reader)
      requires Valid() && (core.sync.Syncing? || core.sync.WaitingForServiceDiscovery?)
      ensures Answers(r)
      ensures r.core.remote == Some(r.core.surface.Crc()) ==> r.Justified()
      ensures r.core.remote != Some(r.core.surface.Crc()) ==> r.core.sync == core.sync
    {
      var r := Reader(core.UpdateLocalHash().SendMeta(UPDATE_FINISHED_REPLY, now));
      if r.core.HashesMatch() then r.UpdateSyncState(Synced) else r
    }

    function ReplyAndStart(now: nat): (r: Reader)
      requires Valid() && core.sync.WaitingForServiceDiscovery?
      ensures Answers(r) && r.Justified()
    {
      var r := ReplyAndCompare(now);
      if core.UpdateLocalHash().HashesMatch() then r else r.UpdateSyncState(Syncing)
    }

    function CompareOrInvalidate(now: nat): (r: Reader)
      requires Valid() && Reader(core.(remote := Some(core.surface.Crc()))).Justified() && core.sync.Synced?
      ensures Answers(r) && r.Justified()
    {
      var c := core.UpdateLocalHash();
      if c.HashesMatch() then Reader(c.SendMeta(UPDATE_FINISHED_REPLY, now))
      else Reader(c.SendMeta(INVALIDATE_REQUEST, now)).UpdateSyncState(Syncing)
    }

    /** Every case starts by bringing the cached checksum up to date. */
    function OnUpdateFinishedReceived(now: nat): (r: Reader)
      requires Valid() && Reader(core.(remote := Some(core.surface.Crc()))).Justified()
      ensures !core.sync.Disabled? ==> Answers(r) && r.Justified()
    {
      match core.sync
      case Syncing => ReplyAndCompare(now)
      case Synced => CompareOrInvalidate(now)
      case WaitingForServiceDiscovery => ReplyAndStart(now)
      case Disabled => Reader(core.UpdateLocalHash())
    }

    function Receive(f: Packet, now: nat): (r: Reader)
      requires Valid() && Justified() && Wellformed(f, core.surface.blocks)
    {
      if f.header == DATA then OnBlockReceived(f.id, f.payload)
      else if f.header == META then
        var r := Reader(core.(remote := Some(f.payload[0])));
        if f.id == UPDATE_FINISHED then r.OnUpdateFinishedReceived(now) else r
      else this
    }

    /** expired: no service was found for longer than ABSTRACT_SURFACE_MAX_ELAPSED_NO_DISCOVERY_MILLIS. */
    function OnService(now: nat, expired: bool): (r: Reader)
      requires Valid() && core.send.Idle()
      ensures r.Valid() && core.SameBytes(r.core) && r.core.sync == core.sync && r.core.remote == core.remote
      ensures r.core.surface.good == core.surface.good && r.core.surface.dirty == core.surface.dirty
      ensures !r.core.send.pending ==> r.core.send == core.send
      ensures r.core.send.pending ==>
                && core.sync.WaitingForServiceDiscovery? && r.core.send.frame.header == META
                && r.core.send.frame.id == SERVICE_DISCOVERY && r.core.send.frame.payload[0] == core.surface.Crc()
    {
      var r := Reader(core.UpdateLocalHash());
      match core.sync
      case WaitingForServiceDiscovery =>
        if expired then Reader(r.core.(enabled := false))
        else if r.core.ElapsedSinceLastSent(now) > SERVICE_DISCOVERY_SEND_PERIOD then Reader(r.core.SendMeta(SERVICE_DISCOVERY, now))
        else r
      case Disabled => Reader(r.core.(enabled := false))
      case _ => r
    }

    function Callback(env: Env, expired: bool): Reader
      requires Valid()
    {
      var (s, e) := core.send.Callback(env);
      var r := Reader(core.(send := s));
      if e.OnService? then r.OnService(env.now, expired) else r
    }

    function ProcessSent(header: nat): Reader {
      Reader(core.(send := core.send.ProcessSent(header)))
    }
  }
}
