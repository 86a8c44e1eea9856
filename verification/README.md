# LoLa: a verification model

LoLa is a packet radio stack for small boards: two ends, a host and a remote, share one half-duplex channel, find each
other, agree on a key, synchronize their clocks and then replicate blocks of bytes. This project models the state
machines of that stack in Dafny and proves what they promise over whole runs, with a radio that loses, delays, reorders
and repeats packets.

Parts that change in place appear in two forms. The *value form* is a datatype with one function per handler; systems of
two ends, their invariants and the theorems over runs are stated on it. The *object form* is a class with the fields and
buffers of the source, whose methods change them in place. A `View()` gives an object's value, and what is called from
outside - a callback, a packet, an interrupt, a send - is proved to move it as the value form does and to keep the
invariant that the theorems rest on. The link services own the link's shared information, the clock syncer with its
clock, the clock transaction, the latency meter and the send machine; the driver owns its action queue and its packet
buffers with encoder and packet map.

The value forms of the services and of the driver are described a second time, without their handlers: the three `Effects`
files say of each field what changes it, and to what, and prove that the handlers do exactly that. The files:

| file | part of the stack |
|---|---|
| `Common.dfy`, `Checksum.dfy`, `Surface.dfy`, `SurfaceObject.dfy` | what several parts use; the CRC-8 and the tracked surface: blocks, dirty bits, hash cache |
| `SendService.dfy` | the send and acknowledge machine that every service runs on |
| `SyncNodes.dfy`, `SyncSystem.dfy`, `SyncConvergence.dfy`, `SyncRecovery.dfy`, `SyncEffects.dfy`, `SyncServices.dfy` | surface replication: handlers, the two-ended system, where quiet runs end, from where they can, what each event does exactly, the objects |
| `Clock.dfy`, `ClockSync.dfy` | offset clocks modulo 2^32, the exchange that synchronizes them, the host's sync counter |
| `Latency.dfy`, `LinkInfo.dfy`, `Duplex.dfy` | latency samples, round trip time, estimated transmission time (ETTM), half-duplex slots |
| `LinkCrypto.dfy`, `LinkNodes.dfy`, `LinkSystem.dfy`, `LinkClocks.dfy`, `LinkProgress.dfy`, `LinkTuning.dfy`, `LinkEffects.dfy`, `LinkServices.dfy` | link handshake: symbolic keys, handlers, the two-ended system, its clocks, what it can always still do, tuning while linked, what each event does exactly, the objects |
| `KeyExchange.dfy` | the key exchanger with its key buffers |
| `Packets.dfy`, `PacketBuffers.dfy` | packet layout, packet map, encoder, the way of a packet from one driver to the other |
| `Driver.dfy`, `DriverEffects.dfy`, `PacketDriver.dfy` | the packet driver: interrupts, action queue, sends, channel and power changes; what each event does exactly; the object |
| `PowerBalance.dfy` | the transmit power balancer and its closed loop |

Some results are about what the code does *not* do, and say exactly when:

* The two ends of a surface can both be content with different bytes: an 8 bit checksum misses the difference
  (`BytesAgree` gives the exact condition, `SyncedWithDifferentBytes` a run from power-up).
* Bytes written to a block after its packet was last prepared are dropped from the tracker when the sent report comes
  (`WriteDuringSendIsDropped`).
* A block is unmarked though the partner has other bytes just when a sent report has cleared its bit while it no longer held
  the bytes sent, and it has not been marked since (`LostIffSentStale`).
* Replication can come to a stop: with both links up it can still be completed just when it is complete, the writer is
  syncing, the reader announces itself, or a packet that helps waits to be sent (`RecoversIff`, `StuckHappens`).
* The driver goes deaf for good just when an action is queued while the queue is full and its oldest entry is the action
  for a received packet (`WedgesIffOverwrites`, over runs `WedgedIffOverwritten`), and four power changes are enough for
  that (`FourPowerChangesWedge`).
* A failed send is never restored by the queue just when its restore has been overwritten in the same way and nothing else
  has freed the driver since (`StrandedIffOverwritten`, `StrandingHappens`).
* The slots exclude each other for transmission times up to a whole period, and no further (`CollisionIffTooSlow`); with
  clocks that differ, both ends may send at one instant just for differences between the ETTM and the period less the
  ETTM (`BothAllowedIffSkewed`). A linked pair's clocks differ by the ETTM less the flight time of the last request
  (`LeadIsFlightError`), so a flight of more than 0 and less than twice the ETTM keeps them apart (`TunedPairExcludesSends`).
* From the end of every run the two ends can still get to a common link by themselves, just when both services are on and
  the host's id is not 0: the remote takes a partner with that id for none (`LinkableIffHostHasId`).
* A linked pair can always complete a tune exchange when none is out (`TuneCompletes`), but one that is lost is never
  repeated while the link lasts: a tune request has no time out (`TuneIsNotRetried`).
* The power balancer feeds the mean of the last three reports back. Under every schedule it comes to rest on a channel just
  when the target is out of reach on one side at every power, or met at every power (`SettlesIffOneSided`); when updates
  keep coming right after three reports, just when the channel does not straddle the target
  (`SettlesFreshIffUnstraddled`). With the source's own periods it hunts for ever on the channel 58 above the power
  (`NeverRests`).
* A received packet is never held against the length its definition gives it (`LengthIsNotChecked`).

Where comments or names in the source and the code disagree, the model follows the code: `AbstractSync::LastSent` is
reset but never stamped, so the time since the last send is always the invalid maximum; `HasPartnerId` looks at the id
and not at `PartnerIdPresent`; the reader's `Synced` case in `OnBlockReceived` cannot be reached, because the
notification before it has already taken the reader to `Syncing`, and is left out of the model's function for that
reason; a failed `SetEnabled` asks for a change back to `AwaitingLink` while that is still the recorded state, so that
nothing happens and linking goes on in the clear (`FailedEnableLinksInTheClear`; `EncoderFollowsLink` shows that enabling
does not fail there).

## Model

| member | source | states |
|---|---|---|
| SyncConvergence.Converges | src/Services/SyncSurface/SyncSurfaceWriter.h:85-191 | from every state with the writer syncing in UpdatingBlocks, nothing pending or in flight and the reader not disabled, a run that delivers every packet ends with the writer Synced and the reader's data good after at most two passes, with exactly as many block packets as there were dirty blocks, plus all blocks if the first comparison failed |
| SyncConvergence.BytesAgree | src/Services/SyncSurface/SyncSurfaceReader.h:102-144 | after such a run both ends hold the same bytes if and only if the first pass made them equal or its checksums told them apart |
| SyncConvergence.SyncedWithDifferentBytes | src/Services/SyncSurface/SyncSurfaceWriter.h:41-49 | with the real CRC some run from power-up ends with the writer Synced, the reader's data good, and different bytes |
| SyncConvergence.Pass | src/Services/SyncSurface/SyncSurfaceWriter.h:150-191 | one pass puts exactly the writer's dirty blocks into the reader's bytes, and ends Synced or with every block marked again, as the checksums decide |
| SyncConvergence.Drain | src/Services/SyncSurface/SyncSurfaceWriter.h:150-171 | two rounds per dirty block empty the tracker with one packet per block |
| SyncConvergence.FullPass | src/Services/SyncSurface/SyncSurfaceWriter.h:101-109 | with every block marked one pass makes the bytes equal and both ends content |
| SyncConvergence.ConfirmRound | src/Services/SyncSurface/SyncSurfaceReader.h:102-144 | the update-finished exchange ends in agreement just when the checksums are equal, through the reader's bounce from Synced to Syncing |
| SyncConvergence.SentBackResends | src/Services/SyncSurface/SyncSurfaceWriter.h:112-148 | for every hash function, when an invalidation reaches a Synced or Syncing writer, or a reply with another checksum a writer that is Synced or has announced the end of its pass, and nothing else is pending: exactly BlockCount block packets and no update-finished go out until the reader's bytes are the writer's, which they are then, and one update-finished packet later the writer is Synced and the reader's data good |
| SyncConvergence.SentBackMarksAll | src/Services/SyncSurface/SyncSurfaceWriter.h:112-148 | such a packet, at any moment of a run, leaves every block marked and the writer at the start of a pass, and sends nothing itself |
| SyncRecovery.RecoversIff | src/Services/SyncSurface/SyncSurfaceWriter.h:69-148 | from every state of a run with both links up, pending packets included, some quiet continuation ends with the writer Synced and the reader's data good just if it is so already, the writer is syncing, the reader announces itself, or one end has a packet to send that helps: an announcement; to a Synced writer an invalidation or a reply with another checksum; from a Synced writer an update-finished that the reader agrees to or answers with another checksum |
| SyncRecovery.StuckForever | src/Services/SyncSurface/SyncSurfaceReader.h:77-100 | from every other state with both links up, no quiet continuation ever completes the replication, or makes that possible again |
| SyncRecovery.StuckHappens | src/Services/SyncSurface/SyncSurfaceReader.h:77-100 | some run from power-up ends in such a state: the reader gives up announcing itself |
| SyncSystem.SyncedIsJustified | src/Services/SyncSurface/SyncSurfaceWriter.h:85-127 | in every lossy run a Synced writer has no dirty block, and the reader once had an answer ready with the checksum of its bytes, which is the checksum of the writer's bytes now |
| SyncSystem.SyncedByJustReply | src/Services/SyncSurface/SyncSurfaceWriter.h:94-110 | every entry of the writer into Synced is caused by an update-finished reply that carried the checksum of the reader's bytes when it was prepared, equal to that of the writer's bytes, and finds nothing dirty |
| SyncSystem.ReaderIsSafe | src/Services/SyncSurface/SyncSurfaceReader.h:29-75 | in every run a Synced reader has good data, an empty tracker and a remote hash equal to the checksum of its bytes; good data means that an update-finished hash matched its bytes since the link last went down |
| SyncSystem.NoDirtyBlockDropped | src/Services/SyncSurface/SyncSurfaceWriter.h:41-49 | in every run a block with a clear bit was last transmitted with the bytes it holds, unless it was written between the last preparation of its packet and the sent report |
| SyncSystem.LostAfter | src/Services/SyncSurface/SyncSurfaceWriter.h:41-49 | after any step a block is unmarked though the partner was last sent other bytes just if the step is the callback that handles the sent report of its packet while the block no longer holds the bytes sent, or it was so before and the step does not mark it |
| SyncSystem.LostIffSentStale | src/Services/SyncSurface/SyncSurfaceWriter.h:41-49 | over every run: just if such a callback has come and the block has not been marked since |
| SyncSystem.WriteDuringSendIsDropped | src/Services/SyncSurface/SyncSurfaceWriter.h:41-49 | a write to the block being sent, while its packet is on the air or prepared and then transmitted without a refresh, leaves the bit clear after the sent report, and the partner has missed it just if the bytes differ from those prepared |
| SyncSystem.PendingIsTheBlock | src/Services/SyncSurface/SyncSurfaceWriter.h:247-261 | in every run, what is pending while a block is sent is the data packet of SurfaceSendingIndex, and that block is dirty |
| SyncSystem.RunKeepsInv | src/Services/SyncSurface/SyncSurfaceBase.h:67-117 | the invariant of the two-ended system over every run: packets well formed and of the right kind in each direction, Synced justified on both ends, nothing dropped |
| SyncSystem.RunHasOrigins | src/Services/SyncSurface/SyncSurfaceBase.h:139-145 | every packet on the way to the writer, and the writer's remote hash, stem from an answer that carried the reader's checksum at the time |
| SyncEffects.WriterHearsExactly | src/Services/SyncSurface/SyncSurfaceWriter.h:69-148 | whatever packet reaches the writer: the partner's checksum is taken from exactly the meta packets, blocks are marked by exactly the packets that send a pass back, Synced follows exactly from an agreeing reply to the announced end of a clean pass, and exactly an announcement to a waiting or Synced writer wakes it; bytes, packet and index stay |
| SyncEffects.WriterServesExactly | src/Services/SyncSurface/SyncSurfaceWriter.h:150-191 | a service run of an idle writer, by state: what is sent, which block is next (the first dirty one from the index on, wrapping), where the pass goes, when the partner's checksum is forgotten, and that only a syncing or Synced writer keeps its task |
| SyncEffects.WriterRunsExactly | src/Services/SyncSurface/SyncSurfaceWriter.h:193-208 | a callback with a packet pending: a block packet that is held back or refused, fewer than four times, is refreshed with the block's bytes, a sent one clears its bit and moves the index on, and nothing else changes but the packet's progress |
| SyncEffects.WriterLinkExactly | src/Services/SyncSurface/AbstractSync.h:190-237 | the link going up makes the writer wait asleep with no checksum of the partner, at the start of a pass; going down stops it where it is |
| SyncEffects.WriterWritesExactly | src/Services/SyncSurface/AbstractSync.h:87-95 | a local write marks exactly its block and takes exactly a Synced writer to the start of a pass |
| SyncEffects.BlocksGoInTurn | src/Services/SyncSurface/SyncSurfaceWriter.h:41-49 | after a block was reported sent the next one to go out is the first dirty block after it, wrapping round |
| SyncEffects.SyncsIffAgrees | src/Services/SyncSurface/SyncSurfaceWriter.h:94-110 | in any step a writer becomes Synced just by hearing an update-finished reply with its own checksum after it has announced the end of a pass, with nothing dirtied since |
| SyncEffects.WaitingWriterIsSilent | src/Services/SyncSurface/AbstractSync.h:190-237 | in every run a writer that waits for its reader does nothing whenever its task would run |
| SyncEffects.ReaderHearsBlockExactly | src/Services/SyncSurface/SyncSurfaceReader.h:29-50 | a block is stored and unmarked; a Synced or waiting reader starts over with every block marked, and exactly a waiting one stops trusting its data |
| SyncEffects.ReaderHearsFinishExactly | src/Services/SyncSurface/SyncSurfaceReader.h:102-144 | the answer's kind and checksum, the state, the goodness of the data and the dirty blocks after an update-finished packet, for every state with the link up |
| SyncEffects.ReaderHearsOtherExactly | src/Services/SyncSurface/SyncSurfaceBase.h:76-114 | any other packet changes nothing but the partner's checksum, and that for every meta packet |
| SyncEffects.ReaderLinkExactly | src/Services/SyncSurface/SyncSurfaceReader.h:52-75 | the link going up makes the reader announce itself, going down makes its data bad; bytes and marks stay |
| SyncEffects.ReaderServesExactly | src/Services/SyncSurface/SyncSurfaceReader.h:77-100 | the reader speaks by itself just while it waits and its time is not up, and its task goes on just then or while syncing or Synced |
| SyncNodes.Writer.OnUpdateFinishedReplyReceived | src/Services/SyncSurface/SyncSurfaceWriter.h:85-127 | a reply never leaves an unjustified Synced behind, changes no byte, and only adds dirty bits |
| SyncNodes.Writer.OnService | src/Services/SyncSurface/SyncSurfaceWriter.h:150-191 | a service run leaves pending nothing, or the packet of a dirty block with that block's bytes, or, with nothing dirty, the update-finished packet with the checksum |
| SyncNodes.Writer.SetBlock | src/Services/SyncSurface/ITrackedSurface.h:123-127 | a local write marks its block, takes a Synced writer out of Synced and leaves packet and index alone |
| SyncNodes.Reader.OnBlockReceived | src/Services/SyncSurface/SyncSurfaceReader.h:29-50 | stores the block, never leaves the reader Synced and never makes data good |
| SyncNodes.Reader.OnStateUpdated | src/Services/SyncSurface/SyncSurfaceReader.h:52-75 | entering Synced always ends with good data, in Synced if it was good before and bounced back to Syncing if not |
| SyncNodes.Reader.OnUpdateFinishedReceived | src/Services/SyncSurface/SyncSurfaceReader.h:102-144 | an enabled reader answers with the checksum of its bytes: a matching hash makes the data good, a mismatch in Synced asks for invalidation |
| SyncServices.SyncWriter.OnUpdateFinishedReplyReceived | src/Services/SyncSurface/SyncSurfaceWriter.h:85-127 | a reply counts in SendingFinished and in Synced only: blocks dirtied meanwhile or a differing hash send the writer back to updating, the latter with every block marked; equal hashes make it Synced |
| SyncServices.SyncWriter.OnInvalidateRequestReceived | src/Services/SyncSurface/SyncSurfaceWriter.h:129-148 | an invalidation ends as the value form has it, for which `SentBackMarksAll`, `SentBackResends` and `WriterHearsExactly` prove that exactly in Syncing and Synced every block is marked and the pass starts over, so that all of them are sent again |
| SyncServices.SyncWriter.OnSyncActive | src/Services/SyncSurface/SyncSurfaceWriter.h:150-191 | a step of the sub-state machine: the next dirty block is sent, or the end of the pass is announced once nothing is dirty; state, index, packet and remote hash end as the proved value form has them |
| SyncServices.SyncWriter.UpdateSyncingState | src/Services/SyncSurface/SyncSurfaceWriter.h:210-245 | starting to send a block forgets the remote hash, so that no older reply can match |
| SyncServices.SyncWriter.PrepareNextPendingBlockPacket | src/Services/SyncSurface/SyncSurfaceWriter.h:252-261 | the next dirty block at or after the index, wrapping round, goes into the packet with its bytes |
| SyncServices.SyncWriter.OnSendOk | src/Services/SyncSurface/SyncSurfaceWriter.h:41-49 | the bit of the block just sent is cleared and the index moves on, while a block is being sent only |
| SyncServices.SyncWriter.UpdateSyncState | src/Services/SyncSurface/AbstractSync.h:190-237 | entering Syncing or Synced makes the cached hash stale before the hook runs; waiting for discovery forgets the remote hash and stops the task |
| SyncServices.SyncWriter.SurfaceDataChangedEvent | src/Services/SyncSurface/AbstractSync.h:87-95 | a change notification makes the hash stale and takes a Synced writer to Syncing |
| SyncServices.SyncWriter.ReceiveMeta | src/Services/SyncSurface/SyncSurfaceBase.h:76-114 | the remote hash is taken from every meta packet, then the one handler for its sub-header runs |
| SyncServices.SyncWriter.Callback | src/Services/IPacketSendService.h:91-182 | one callback with whichever hook it runs: held back block packets are refreshed with the latest bytes, sent ones clear their bit, an idle writer is served |
| SyncServices.SyncReader.OnBlockReceived | src/Services/SyncSurface/SyncSurfaceReader.h:29-50 | the bytes are stored and the change is notified, by a direct call, before the state is looked at, so a Synced reader is already Syncing then |
| SyncServices.SyncReader.OnStateUpdated | src/Services/SyncSurface/SyncSurfaceReader.h:52-75 | entering Synced with bad data makes it good and re-enters the change handler, which leaves the reader in Syncing with every block marked |
| SyncServices.SyncReader.OnUpdateFinishedReceived | src/Services/SyncSurface/SyncSurfaceReader.h:102-144 | the answer is prepared before the state changes; a mismatch is an invalidation in Synced and a reply otherwise |
| SyncServices.SyncReader.OnService | src/Services/SyncSurface/SyncSurfaceReader.h:77-100 | while waiting for discovery the reader announces itself until the time is up, then its task stops |
| SyncServices.SyncReader.ReceiveMeta | src/Services/SyncSurface/SyncSurfaceBase.h:76-114 | the remote hash is taken from every meta packet, and only update-finished is acted on |
| Surfaces.Stored16IsRead | src/Services/SyncSurface/ITrackedSurface.h:175-189 | Get16 after Set16 returns the value, and the other half of the block keeps its own |
| Surfaces.Stored8IsRead | src/Services/SyncSurface/ITrackedSurface.h:161-172 | Get8 after Set8 returns the value, and the other three bytes of the block keep their own |
| Surfaces.Stored32IsRead | src/Services/SyncSurface/ITrackedSurface.h:191-211 | Get32 after Set32 returns the value |
| Surfaces.OtherBlocksUnchanged | src/Services/SyncSurface/SyncSurfaceBase.h:119-127 | writing one block leaves every other block alone |
| Surfaces.Surface.WithBlock | src/Services/SyncSurface/SyncSurfaceReader.h:29-34 | a received block keeps the hash cache coherent and is what is read back |
| SurfaceObject.TrackedSurface.UpdateHash | src/Services/SyncSurface/ITrackedSurface.h:62-69 | a stale hash is recomputed from the current bytes, a fresh one kept |
| SurfaceObject.TrackedSurface.Set8 | src/Services/SyncSurface/ITrackedSurface.h:167-172 | only the addressed byte changes and its block is marked |
| SurfaceObject.TrackedSurface.Set16 | src/Services/SyncSurface/ITrackedSurface.h:182-189 | only the addressed half of the block changes and the block is marked |
| SurfaceObject.TrackedSurface.Set32 | src/Services/SyncSurface/ITrackedSurface.h:201-211 | only the addressed block changes and is marked |
| SurfaceObject.TrackedSurface.ReadBlock | src/Services/SyncSurface/SyncSurfaceBase.h:119-127 | the copy loop overwrites exactly one block |
| SurfaceObject.TrackedSurface.WriteBlock | src/Services/SyncSurface/SyncSurfaceBase.h:129-137 | the copy loop fills the payload with the bytes of one block |
| SurfaceObject.TrackedSurface.GetNextSetIndex | src/Services/SyncSurface/SyncSurfaceWriter.h:258-258 | finds the first set bit from the start index on, wrapping round |
| SendService.RequestEndsOnce | src/Services/IPacketSendService.h:91-182 | a request that is not superseded ends in exactly one of its five ways, after at most four refused sends and nine callbacks that move it on |
| SendService.WaitingIsBounded | src/Services/IPacketSendService.h:102-109 | a request still waiting to be sent is within its time out |
| SendService.GivesUpAtFourth | src/Services/IPacketSendService.h:127-137 | over every run of a request the driver gives up on it just at the fourth refusal; with up to three, nothing transmitted and no time out, it is still waiting to be sent |
| SendService.WaitingIsDecided | src/Services/IPacketSendService.h:102-138 | in every run, what the next callback of a waiting request does: time out, hold back, transmit, retry after up to three refusals, give up at the fourth |
| SendService.DefaultTimeOut | src/Services/IPacketSendService.h:10-18 | a request with no time outs named times out just after 100 ms, and waits 10 ms for its ack |
| SendService.AckReceivedIsEarned | src/Services/IPacketSendService.h:214-236 | the ack hook runs only if the driver accepted the frame, then reported it sent, and then an ack with its header and id arrived |
| SendService.PacketSender.Callback | src/Services/IPacketSendService.h:91-182 | one callback moves the request and reports the one hook to run as the value form does, of which `RequestEndsOnce`, `GivesUpAtFourth` and `WaitingIsDecided` prove over runs when it times out, holds back, transmits, retries (three times), gives up (at the fourth refusal), ends or serves |
| SendService.PacketSender.RequestSendPacket | src/Services/IPacketSendService.h:185-198 | a request starts the timers and the failure count afresh, and does nothing without a prepared packet |
| SendService.PacketSender.ProcessSent | src/Services/IPacketSendService.h:76-89 | claims a sent report just when it moves a request on |
| SendService.PacketSender.ProcessAck | src/Services/IPacketSendService.h:214-236 | claims every ack of its header but one with a foreign id while it waits |
| Clock.LeadEverywhere | src/LoLaClock/ILoLaClockSource.h:37-50 | modulo 2^32 the difference of two synchronized clocks is the same at every time |
| Clock.ExchangeLeavesFlightError | src/Services/Link/LoLaLinkHostService.h:366-371 | whatever the offsets, after one exchange the host is ahead by exactly the ETTM less the flight time |
| Clock.NextErrorIsJitter | src/Services/Link/LoLaLinkRemoteService.h:72-82 | from the second exchange on the reported error is the change of the flight time |
| Clock.ErrorsAreJitter | src/Services/Link/LoLaLinkRemoteService.h:351-373 | in a whole session of exchanges every error but the first is the change of the flight time |
| Clock.FourExchangesSync | src/Services/Link/LoLaLinkClockSyncer.h:158-177 | four exchanges with jitter under 100 us make the host synced, with the remote off by the last flight error only |
| Clock.SyncedIffThreeGood | src/Services/Link/LoLaLinkClockSyncer.h:158-177 | the host is synced just when three consecutive errors since the reset were good |
| Clock.CountIsTrailingRun | src/Services/Link/LoLaLinkClockSyncer.h:163-177 | until then its counter is the length of the trailing run of good errors |
| ClockSync.HostClockSyncer.IsSynced | src/Services/Link/LoLaLinkClockSyncer.h:158-161 | reports exactly whether three errors in a row were good |
| ClockSync.HostClockSyncer.OnEstimationReceived | src/Services/Link/LoLaLinkClockSyncer.h:163-177 | keeps the counter equal to the count over the history of errors |
| ClockSync.RemoteClockSyncer.OnEstimationErrorReceived | src/Services/Link/LoLaLinkClockSyncer.h:118-126 | every error moves the clock by itself; only good ones are counted |
| ClockSync.RemoteClockSyncer.OnTuneErrorReceived | src/Services/Link/LoLaLinkClockSyncer.h:131-144 | every tune error moves the clock; only a good one raises the sync count and restarts the tune period |
| ClockSync.ClockSyncRequestTransaction.SetResult | src/Services/Link/ClockSyncTransaction.h:53-63 | takes one result, for the request that is out |
| ClockSync.ClockSource.AddOffsetMicros | src/LoLaClock/ILoLaClockSource.h:37-50 | whatever the board's counter reads, the synchronized reading moves by the offset modulo 2^32, also where the stored offset wraps |
| Latency.EttmAgreesAndIsShort | src/Services/Link/LoLaLinkHostService.h:480-490 | the ETTM from filtered samples is at most 3999 us, and the remote derives the same one from the two bytes it is sent |
| Latency.AverageInRange | src/Services/Link/LoLaLinkLatencyMeter.h:43-60 | the average lies between the smallest and the largest sample |
| Latency.AverageIsMean | src/Services/Link/LoLaLinkLatencyMeter.h:43-60 | one sample is its own average, two give half their sum, three a third of it, rounded down |
| Latency.AverageOfPermutation | src/Services/Link/LoLaLinkLatencyMeter.h:43-60 | rings with the same samples in another order have the same average |
| Latency.EttmIsTwoFifths | src/LoLaLinkInfo.h:217-224 | the ETTM is two fifths of the round trip time, rounded down |
| Latency.LatencyMeter.GetAverageLatency | src/Services/Link/LoLaLinkLatencyMeter.h:43-60 | the summing loop ends with the mean of the one, two or three samples in the ring, rounded down; an empty ring gives the invalid latency |
| Latency.LatencyMeter.OnAckReceived | src/Services/Link/LoLaLinkLatencyMeter.h:68-88 | takes a sample just for the ack of the last ping within the time out |
| Latency.LatencyMeter.Reset | src/Services/Link/LoLaLinkLatencyMeter.h:28-36 | empties the ring and forgets the last ping |
| LinkInfo.LoLaLinkInfo.Reset | src/LoLaLinkInfo.h:167-189 | empties session, round trip time and ring, tells the driver that the link is down and its ETTM 0, and keeps link state and partner id |
| LinkInfo.LoLaLinkInfo.SetRTT | src/LoLaLinkInfo.h:217-224 | the driver works with an ETTM of two fifths of the round trip time, rounded down: below the ping time out at most 3999 us |
| LinkInfo.LoLaLinkInfo.GetPartnerRSSINormalized | src/LoLaLinkInfo.h:266-284 | the summing loop computes the mean of the one, two or three samples, between the weakest and the strongest, in a byte; 0 if there is none |
| LinkInfo.LoLaLinkInfo.SetPartnerRSSINormalized | src/LoLaLinkInfo.h:286-289 | the ring keeps the last three samples |
| Duplex.NoCollision | src/PacketDriver/LoLaPacketDriver.h:425-442 | with one clock and equal ETTM up to a period, the airtimes of sends the two linked ends are allowed never overlap, in the same or different periods |
| Duplex.CollisionIffTooSlow | src/PacketDriver/LoLaPacketDriver.h:486-508 | below half the counter's range, collisions are possible just for an ETTM above a period |
| Duplex.RemoteServedIffFast | src/PacketDriver/LoLaPacketDriver.h:500-504 | the remote ever gets to send just for an ETTM of at most half a period, or of more than a whole one, where the unsigned subtraction wraps |
| Duplex.BothAllowedIffSkewed | src/PacketDriver/LoLaPacketDriver.h:486-508 | both ends can be allowed to send at one instant just when the clock difference modulo the period is between the ETTM and the period less the ETTM |
| Duplex.SmallSkewIsSafe | src/PacketDriver/LoLaPacketDriver.h:486-508 | never with a difference strictly below the ETTM |
| Duplex.ArrivesInReceiveSlot | src/PacketDriver/LoLaPacketDriver.h:463-484 | a packet sent in the own slot arrives in the partner's receive slot for flight times from the ETTM to below twice the ETTM |
| Duplex.SlotsInNumbers | src/PacketDriver/LoLaPacketDriver.h:486-508 | up to an ETTM of 5 ms the host may send just what arrives in the first half of a 10 ms period with the ETTM to spare before its end, the remote just so in the second half; each receives in the other half |
| LinkSystem.HostNeverLinksAlone | src/Services/Link/LoLaLinkHostService.h:431-457 | in every run, a host that is done linking or linked is followed: the remote entered LinkProtocolSwitchOver in that session, with its info sync done, under the same key and IV and with the same round trip time |
| LinkSystem.SwitchIsRecordedWhenEntered | src/Services/Link/LoLaLinkRemoteService.h:233-246 | the record used there is written only by a step that takes the remote from ClockSyncStage into LinkProtocolSwitchOver of that session, and holds the key, IV, round trip time and info stage the remote has then |
| LinkSystem.KeysAndTimesAgree | src/Services/Link/LoLaLinkRemoteService.h:248-266 | in every run, both ends linking or linked in one session have the same encoder state, key and IV, even if key pairs were regenerated; once info sync is done on both, the same ETTM of at most 3999 us |
| LinkSystem.RttIsAverage | src/Services/Link/LoLaLinkHostService.h:285-306 | in every run, the round trip time an end works with after its info sync is the mean of the two or three latency samples under 10 ms that the host had taken in that session when it settled it |
| LinkSystem.EncoderFollowsLink | src/Services/Link/LoLaLinkService.h:380-477 | in every run the encoder of an end that is not disabled is at full power just while linking or linked, clear at the start of awaiting a link, and SetEnabled cannot fail where linking starts |
| LinkSystem.DisablingKeepsEncoder | src/Services/Link/LoLaLinkService.h:468-469 | disabling clears key, IV and stage just when the end was linked; an end disabled while linking keeps its encoder at full power until it is enabled again |
| LinkSystem.BackToAwaiting | src/Services/Link/LoLaLinkService.h:416-425 | every way back to AwaitingLink clears the encoder and starts over, on the host with a new session |
| LinkSystem.FailedEnableLinksInTheClear | src/Services/Link/LoLaLinkService.h:433-443 | had SetEnabled failed, the nested change back would have found the state unchanged and done nothing, and the host would be linking in the clear |
| LinkSystem.HostGate | src/Services/Link/LoLaLinkHostService.h:242-279 | in every run, a linked host has been in its session since a state in which nothing was measured, and has taken since two latency samples under 10 ms, an RSSI of the partner, and three good clock errors in a row |
| LinkSystem.SessionStarts | src/Services/Link/LoLaLinkHostService.h:460-465 | in every run nothing is measured before linking, and every session goes back to a state in which nothing was measured |
| LinkSystem.RunKeepsInv | src/Services/Link/LoLaLinkService.h:479-581 | the invariant of the handshake over every run, for every packet on the air and every stage of both ends |
| LinkEffects.HostServesExactly | src/Services/Link/LoLaLinkService.h:230-280 | a run of the host's service, for every state and every choice of the environment, equals a flat table that says of each field which conditions change it and to what: states and stages, session, keys, encoder, what is sent, latency and RSSI, the clock and its transaction |
| LinkEffects.HostRunsExactly | src/Services/IPacketSendService.h:91-182 | which hook a callback of the host runs: the service with nothing pending, the pre-send hook as the packet goes to the driver, the ack's hook once it was acknowledged, and otherwise none |
| LinkEffects.HostHearsExactly | src/Services/Link/LoLaLinkHostService.h:205-240 | whatever packet reaches the host: exactly the invitation, key, RSSI, clock request and ack that its state and session ask for change it, each in its own fields |
| LinkEffects.HostAckedExactly | src/Services/Link/LoLaLinkHostService.h:431-457 | an acknowledged crypto start or switch-over moves the host on, in the stage that waits for it and for its own session only |
| LinkEffects.HostPingsExactly | src/Services/Link/LoLaLinkLatencyMeter.h:62-88 | a ping is stamped as it is sent and measured as it is acknowledged, during the info sync only, and counts below 10 ms only |
| LinkEffects.HostSwitchesExactly | src/Services/Link/LoLaLinkService.h:347-477 | switching the host on or off, from every state: what is cleared and what stays |
| LinkEffects.RemoteServesExactly | src/Services/Link/LoLaLinkService.h:230-280 | a run of the remote's service equals the remote's flat table, in the same way; the host's error moves the clock in the clock sync and while linked with no report due |
| LinkEffects.RemoteRunsExactly | src/Services/IPacketSendService.h:91-182 | which hook a callback of the remote runs |
| LinkEffects.RemoteHearsExactly | src/Services/Link/LoLaLinkRemoteService.h:182-266 | whatever packet that asks for no ack reaches the remote: exactly what it listens to in its state and session, and each field that follows |
| LinkEffects.RemoteAcksExactly | src/Services/Link/LoLaLinkRemoteService.h:428-450 | exactly which packets the remote accepts for an ack, and what accepting does |
| LinkEffects.RemoteCompletesExactly | src/Services/Link/LoLaLinkRemoteService.h:72-82 | a clock request is completed as it is sent with the synchronized reading plus the ETTM of the host's round trip time, 0 while there is none |
| LinkEffects.RemoteSwitchesExactly | src/Services/Link/LoLaLinkService.h:347-477 | switching the remote on or off, from every state: what is cleared and what stays |
| LinkClocks.LeadIsFlightError | src/Services/Link/LoLaLinkRemoteService.h:72-82 | in every run, since the last exchange of the session that moved the remote's clock the host is ahead by exactly the ETTM both work with less the flight time of that request |
| LinkClocks.TunedPairExcludesSends | src/PacketDriver/LoLaPacketDriver.h:486-508 | if the flight of that request was not 0 and less than twice the ETTM, and no counter is about to wrap, the two drivers are never both in their send slots, each by its own clock |
| LinkTuning.TuneReplyMovesClock | src/Services/Link/LoLaLinkRemoteService.h:392-402 | in every run, the first service run of a linked remote that has a tune result in, nothing pending and no report due, moves its clock by the error and leaves the host, if still in that session, ahead by the ETTM less the flight of the request that was answered |
| LinkTuning.TuneCompletes | src/Services/Link/LoLaLinkHostService.h:392-415 | every run that ends in a common link with no clock request out can go on, the link up all the time, to the end of a new tune exchange of any given flight, with the clocks then apart by the ETTM less that flight |
| LinkTuning.TuneIsNotRetried | src/Services/Link/LoLaLinkRemoteService.h:404-426 | in every run a tune request that is lost, or whose reply is, ends the tuning: while the remote stays linked and no reply to it has been on the air, it makes no other request and its clock stays as it is |
| LinkClocks.RunKeepsClocks | src/Services/Link/LoLaLinkHostService.h:366-400 | over every run, every clock request, its answer and the offsets on both ends belong to one exchange of the session |
| LinkClocks.ResultSets | src/Services/Link/LoLaLinkClockSyncer.h:118-126 | adding an answered error to the clock leaves the lead that its request measured |
| LinkProgress.LinkableIffHostHasId | src/Services/Link/LoLaLinkRemoteService.h:182-231 | every run can be continued to a common link without either service being switched on or off, just when both are on and the host's id is not 0 |
| LinkProgress.ZeroHostNeverLinks | src/LoLaLinkInfo.h:95-110 | with host id 0 neither end starts linking in any run |
| LinkProgress.CanLink | src/Services/Link/LoLaLinkHostService.h:103-203 | from every state the invariant allows with both services on, whatever is on the air, time-outs and the protocol itself lead to a common link, for every round trip time below the ping time out and every steady flight time |
| LinkProgress.ExchangeKeys | src/Services/Link/LoLaLinkRemoteService.h:84-181 | discovery and key exchange can bring both ends from the start to linking under one key and IV |
| LinkProgress.SyncInfo | src/Services/Link/LoLaLinkHostService.h:281-338 | the info sync can be completed on both ends |
| LinkProgress.SyncClocks | src/Services/Link/LoLaLinkRemoteService.h:351-373 | with steady flights the exchange itself yields three good errors in a row, whatever the offsets were |
| LinkProgress.Restart | src/Services/Link/LoLaLinkService.h:230-280 | time-outs and lost partners alone bring both ends back to the start, with whatever was pending ended |
| LinkServices.LinkHostService.constructor | src/Services/Link/LoLaLinkHostService.h:42-50 | a host starts as the handshake's invariant starts, the driver unlinked and with no ETTM |
| LinkServices.LinkHostService.Callback | src/Services/IPacketSendService.h:91-182 | one callback, whichever hook it runs, ends as the value form and its flat table have it, keeps the handshake's invariant for every history it agrees with, records truthfully what it adds to it, measures nothing before linking, and leaves the driver with the link's ETTM and link flag |
| LinkServices.LinkHostService.ProcessPacket | src/Services/Link/LoLaLinkService.h:479-581 | every packet that the host can read keeps that invariant, whatever its header, and adds nothing to the history |
| LinkServices.LinkHostService.OnEnable | src/Services/Link/LoLaLinkService.h:108-113 | enabling keeps the handshake's invariant from whatever state |
| LinkServices.LinkHostService.OnDisable | src/Services/Link/LoLaLinkService.h:115-118 | disabling keeps the handshake's invariant from whatever state, and leaves the driver unlinked |
| LinkServices.LinkRemoteService.constructor | src/Services/Link/LoLaLinkRemoteService.h:33-40 | a remote starts as the handshake's invariant starts |
| LinkServices.LinkRemoteService.Callback | src/Services/IPacketSendService.h:91-182 | one callback, whichever hook it runs, ends as the value form and its flat table have it, keeps the handshake's invariant for every history it agrees with and records truthfully what it adds; a clock request is completed as it is sent from the synchronized clock and the driver's ETTM, and a tune result moves the clock (`TuneReplyMovesClock`) |
| LinkServices.LinkRemoteService.ProcessPacket | src/Services/Link/LoLaLinkService.h:479-581 | every packet that the remote can read keeps the invariant, and the driver's ETTM follows the host's round trip time |
| LinkServices.LinkRemoteService.ProcessAckedPacket | src/Services/Link/LoLaLinkRemoteService.h:428-450 | packets that ask for an ack keep the invariant, the record of a switch-over included, and are acknowledged just where the value form does so |
| LinkServices.LinkRemoteService.OnEnable | src/Services/Link/LoLaLinkService.h:108-113 | enabling keeps the handshake's invariant from whatever state |
| LinkServices.LinkRemoteService.OnDisable | src/Services/Link/LoLaLinkService.h:115-118 | disabling keeps the handshake's invariant from whatever state, and leaves the driver unlinked |
| LinkServices.ReceivedRttIsShort | src/Services/Link/LoLaLinkRemoteService.h:337-349 | a round trip time taken from an encrypted info packet is below the ping time out |
| KeyExchange.SecretIsOfThePair | src/LoLaCrypto/LoLaCryptoKeyExchange.h:191-225 | the shared secret depends on the two key pairs only, not on which end computes it |
| KeyExchange.Exchange | src/LoLaCrypto/LoLaCryptoKeyExchange.h:150-225 | a whole exchange leaves both ends with the same shared key, the one of their key pairs |
| KeyExchange.LoLaCryptoKeyExchanger.GenerateNewKeyPair | src/LoLaCrypto/LoLaCryptoKeyExchange.h:167-189 | a new pair is consistent with its public key and forgets any exchange going on |
| KeyExchange.LoLaCryptoKeyExchanger.SetPartnerPublicKey | src/LoLaCrypto/LoLaCryptoKeyExchange.h:150-165 | the copy loop takes the key just once, at the right stage |
| KeyExchange.LoLaCryptoKeyExchanger.GenerateSharedKey | src/LoLaCrypto/LoLaCryptoKeyExchange.h:191-225 | succeeds at the right stages only and yields the secret of the own private and the partner's public key |
| KeyExchange.LoLaCryptoKeyExchanger.ClearPartner | src/LoLaCrypto/LoLaCryptoKeyExchange.h:82-88 | forgets the partner and keeps the local pair |
| Packets.PacketRoundTrip | src/PacketDriver/LoLaPacketDriver.h:211-216 | in clear and encrypted, a packet of a mapped definition and legal size arrives with the same definition, header, id and payload |
| Packets.AcceptedWasSendable | src/PacketDriver/LoLaPacketDriver.h:246-258 | an accepted packet is bit for bit the on-air form of its content under the receiver's key and IV |
| Packets.JudgedExactly | src/PacketDriver/LoLaPacketDriver.h:246-258 | of the received bytes those under 4 or over 26 are dropped for their size, and the others get through just with the checksum of what follows it and a header below 20 that is mapped |
| Packets.LengthIsNotChecked | src/PacketDriver/LoLaPacketDriver.h:246-258 | but its length is not held against its definition: content of any length the radio can receive is accepted under the definition of its header |
| PacketBuffers.RadioPath.Prepare | src/PacketDriver/LoLaPacketDriver.h:211-216 | the outgoing buffer holds exactly the on-air form of the packet |
| PacketBuffers.RadioPath.Judge | src/PacketDriver/LoLaPacketDriver.h:246-258 | decoding in place accepts just what the verdict on the raw bytes accepts, with that content and definition; every size is judged, one above the buffer rejected |
| PacketBuffers.RadioPath.BuildAck | src/PacketDriver/LoLaPacketDriver.h:284-286 | the ack carries the header and the id of the packet in the incoming buffer |
| PacketBuffers.CryptoEncoder.Encode | src/LoLaCrypto/LoLaCryptoEncoder.h:83-96 | writes the encoded content and nothing else, and returns its checksum |
| PacketBuffers.CryptoEncoder.Decode | src/LoLaCrypto/LoLaCryptoEncoder.h:99-113 | refuses a wrong checksum without touching the message, else decodes in place |
| PacketBuffers.CryptoEncoder.Clear | src/LoLaCrypto/LoLaCryptoEncoder.h:127-143 | the loops leave nothing of key, IV or token |
| PacketBuffers.CryptoEncoder.SetEnabled | src/LoLaCrypto/LoLaCryptoEncoder.h:145-163 | fails just when the encoder is clear |
| PacketBuffers.CryptoEncoder.SetSecretKey | src/LoLaCrypto/LoLaCryptoEncoder.h:165-200 | of a secret that is long enough the first sixteen bytes become the key; the encoder is ready just if the cipher takes key and IV, and a refusal leaves the stage as it was with the key already written |
| PacketBuffers.Packet.SetMACCRC | src/Packet/LoLaPacket.h:53-58 | writes the checksum low byte first and leaves the rest |
| PacketBuffers.Packet.SetDefinition | src/Packet/LoLaPacket.h:65-74 | writes the header byte; a missing definition is stored but reported |
| PacketBuffers.PacketMap.AddMapping | src/Packet/LoLaPacketMap.h:38-50 | the first definition of a header stays, and the map keeps each definition under its own header |
| PacketBuffers.PacketMap.ClearMapping | src/Packet/LoLaPacketMap.h:52-62 | leaves only the ack definition |
| PacketBuffers.PacketMap.GetDefinition | src/Packet/LoLaPacketMap.h:69-77 | what is found under a header is a definition of that header, and nothing is found only if the map has none of it |
| Drivers.WedgesIffOverwrites | src/PacketDriver/LoLaPacketDriver.h:142-173 | a driver that is not wedged becomes so just when the queue is full with the action for a received packet as its oldest entry, and the event queues an action: a channel or power change in a state that is not ready, or a send that the radio refuses or that finds a power change waiting |
| Drivers.WedgedIffOverwritten | src/PacketDriver/AsyncActionCallback.h:34-42 | in every run, interrupts are off with nothing queued to turn them on just when some event before met that condition |
| Drivers.UnwedgedIsServed | src/PacketDriver/LoLaPacketDriver.h:361-380 | short of that, interrupts off or a packet awaiting processing mean that its action is queued |
| Drivers.StrandedAfter | src/PacketDriver/LoLaPacketDriver.h:201-231 | after any event a failed send is without a queued restore just if the restore was the oldest entry of a full queue, queued nowhere else, and the event is a channel or power change that has to be queued or a battery alarm; or it was so before, and the event is no start, no interrupt that queues a restore, and no turn of a received packet or a sent notification |
| Drivers.StrandedIffOverwritten | src/PacketDriver/AsyncActionCallback.h:34-42 | over every run: just if some event met that condition and none has freed the driver since |
| Drivers.FourPowerChangesStrand | src/PacketDriver/LoLaPacketDriver.h:158-173 | after any failed send four power changes to powers the radio does not have cost its restore |
| Drivers.StrandingHappens | src/PacketDriver/LoLaPacketDriver.h:225-228 | some run from power-up ends in such a driver |
| Drivers.WedgedForGood | src/PacketDriver/AsyncActionCallback.h:34-42 | such a driver stays that way whatever happens |
| Drivers.FourPowerChangesWedge | src/PacketDriver/LoLaPacketDriver.h:158-173 | whenever a received packet awaits processing, four power changes to powers the radio does not have drop its action |
| Drivers.WedgingHappens | src/PacketDriver/LoLaPacketDriver.h:361-380 | some run from power-up ends in such a driver |
| Drivers.ProcessIncomingEnds | src/PacketDriver/LoLaPacketDriver.h:234-323 | every path through ProcessIncoming ends with interrupts on, ready or waiting for the end of the ack |
| Drivers.AcksIffAccepted | src/PacketDriver/LoLaPacketDriver.h:272-307 | serving a received packet puts an ack on the air just when the packet asks for one, the services accept it and leave no channel change pending, and the radio takes it; otherwise nothing is sent |
| Drivers.ServicesAreHeard | src/PacketDriver/LoLaPacketDriver.h:281-314 | the channel and power that services ask for while they handle a packet are the ones the driver has afterwards, in order; with no packet to handle both stay |
| Drivers.NotifiesLastSent | src/PacketDriver/LoLaPacketDriver.h:395-412 | in every run the first sent report after a transmission queues the notification for the packet handed to the radio last, and no notification is for a packet that was never handed over |
| DriverEffects.StepsExactly | src/PacketDriver/LoLaPacketDriver.h:94-231 | every event but the serving of a packet - channel and power changes, sends, each action of the queue, each interrupt - equals a flat table that says of each field which conditions change it and to what |
| DriverEffects.ServesExactly | src/PacketDriver/LoLaPacketDriver.h:234-323 | serving a packet that is handed to the services, whatever calls they make: state, queue, channel, power of the radio and last sent header afterwards |
| DriverEffects.OtherwiseReceives | src/PacketDriver/LoLaPacketDriver.h:236-255 | a packet that is dropped, or an ack, only puts the radio back to receiving with interrupts on |
| Drivers.InterruptsReturn | src/PacketDriver/AsyncActionCallback.h:54-66 | in every run and whatever else happens meanwhile, a received packet is served with interrupts on again by the time the queue's task has run once more than there were actions before it, four times at most, unless its action was overwritten |
| Drivers.ListensOnCurrentChannel | src/PacketDriver/LoLaPacketDriver.h:142-156 | in every run a ready driver has no channel change pending and listens on the current channel, and no packet is sent while one is pending |
| PacketDrivers.ActionQueue.AppendToQueue | src/PacketDriver/AsyncActionCallback.h:34-42 | a full queue loses its oldest action |
| PacketDrivers.PacketDriver.SendPacket | src/PacketDriver/LoLaPacketDriver.h:201-231 | a packet goes to the radio, in its on-air form, just when it has a definition, no channel change is pending, the driver is ready and the radio takes it; the driver's invariant holds after either outcome |
| PacketDrivers.PacketDriver.ProcessIncoming | src/PacketDriver/LoLaPacketDriver.h:234-323 | services are handed a packet just when the verdict on the received bytes accepts it, with that definition and the decoded content in the buffer; an ack with that packet's header and id goes to the radio just when the verdict is an accepted packet that asks for one, the services accept it and leave no channel change pending, and the radio takes it, and nothing is sent otherwise |
| PacketDrivers.PacketDriver.RunQueue | src/PacketDriver/LoLaPacketDriver.h:94-121 | a run of the queue keeps the driver's invariant, serves a received packet whose action is the oldest, or brings its action one place forward, and sends nothing but the ack of a packet served, just when `ProcessIncoming` does |
| PacketDrivers.PacketDriver.ServiceCall | src/PacketDriver/LoLaPacketDriver.h:142-173 | a channel or power change keeps the driver's invariant, and wedges the driver just when the queue is full with the action for a received packet at its head and the change has to be queued |
| PacketDrivers.PacketDriver.OnReceiveBegin | src/PacketDriver/LoLaPacketDriver.h:361-380 | interrupts go off just for a driver blocked for the packet, with its action queued: a received packet by itself never wedges the driver |
| PacketDrivers.PacketDriver.AllowedSend | src/PacketDriver/LoLaPacketDriver.h:425-442 | a send that is allowed is refused by nothing but the radio, comes at least 1 ms after the last one while linked and 5 ms otherwise, and while linked it overlaps nothing that the partner is ever allowed to send by the same clock |
| PowerBalance.SettlesIffOneSided | src/Services/Link/LoLaLinkPowerBalancer.h:46-101 | with the mean of the last three reports fed back, under whatever schedule of reports and updates, the power comes to rest on a channel where more power is never received more weakly just when the target is out of reach at every power on one side, or met at every power; then after at most 87 updates |
| PowerBalance.SettlesFreshIffUnstraddled | src/LoLaLinkInfo.h:266-289 | when updates keep coming right after three reports, whatever comes in between, it comes to rest just when the channel is not below the target at the least and above it at the full power; then after at most 88 of those updates |
| PowerBalance.SettlesIffFlat | src/Services/Link/LoLaLinkPowerBalancer.h:46-101 | for a gain instead of a channel: the power comes to rest on every channel of the gain just when the gain is 0 |
| PowerBalance.NeverRests | src/Services/Link/LoLaLinkPowerBalancer.h:54-97 | with the source's periods, from full power, on the channel that is 58 above the power, the power keeps moving for ever |
| PowerBalance.RestsIffNothingToAdjust | src/LoLaLinkInfo.h:266-289 | the power rests for good just when none of the means that the coming reports lead to would move it |
| PowerBalance.RestsAtTarget | src/Services/Link/LoLaLinkPowerBalancer.h:63-89 | where the power rests for good, the RSSI is at the target, or the power at the end of its range on the wanted side of it |
| PowerBalance.AdjustSteps | src/Services/Link/LoLaLinkPowerBalancer.h:63-89 | the step in numbers: above 155 ten units down, below 125 twenty up, one towards 140 in between, never out of 13 to 100 |
| PowerBalance.LinkPowerBalancer.Update | src/Services/Link/LoLaLinkPowerBalancer.h:46-101 | from the first update on the power stays in range and the driver has it; 2400 ms of silence mean full power at once, and otherwise the power is adjusted once more than 900 ms have passed |

## Left out

- Concurrency inside a method: methods are atomic; an interrupt comes between methods, not in the middle of one.
- Scheduling delays: a task may run at any time while it is enabled; elapsed-time tests in the link services are choices of the environment, taken both ways.
- The network of the two-ended systems is the set of all packets ever sent, so loss, delay, repetition and reordering are covered and forged packets are not.
- Ciphers and hashes: Ascon, SHA-256, the curve and the 16 bit CRC are parameters; in the handshake a packet under another key or IV, or in the clear while encrypted, is never readable.
- Random numbers: session ids, key pairs and ids of clock requests are never drawn twice (the source draws the ids from about 250 values).
- PacketBuffers.CryptoEncoder.SetSecretKey: the token seed is left out; the source reads it past the end of the key.
- PacketBuffers.PacketMap.AddMapping: a header of 20 or more is not modelled; the source indexes its table with it before any test.
- Clock.ExchangeLeavesFlightError: the clocks do not drift, here and in LinkClocks.dfy, and the RTC clock source is not modelled.
- Clock.SyncedIffThreeGood: the absolute value of the smallest 32 bit integer is undefined in the source and counts as a bad error here.
- Duplex.NoCollision: no wrap of the 32 bit counter between the two sends, since 2^32 is not a multiple of the period; acks are sent outside the slots.
- SyncConvergence.Converges: a request made at the one reading of the clock that also means "never" times out at once, so the readings exclude it.
- SyncRecovery.RecoversIff: that replication can be completed, not that it will be; pending packets may end refused on the way.
- SyncNodes.Reader.OnBlockReceived: a block index beyond the surface is not modelled (the source writes out of bounds); the writer is proved to send existing blocks only.
- SyncServices.SyncReader.OnBlockReceived: as for the value form, no block index beyond the surface.
- SyncSystem.NoDirtyBlockDropped: SetAllPending, which the services never call, is not an action of the system.
- PowerBalance.SettlesIffOneSided: a channel is a function of the power alone and reports are not lost for so long that the balancer goes to full power.
- LinkProgress.LinkableIffHostHasId: that a link can be set up, not that it will be.
- Drivers.WedgedIffOverwritten: services call the driver while it handles a received packet, not from their sent notification.
- LinkServices.LinkHostService.Callback: key exchanger and encoder are held as symbolic values in the link services; their buffers are objects in KeyExchange.dfy and PacketBuffers.dfy, and the driver calls made on a change of the link state are left to the driver model.
- Report packets carry the RSSI only, and the reply they may ask for, the statistics and the lost count are not modelled; power and channel updates of the link are separate from the handshake.
- Token and TOTP hop, channel manager, services manager, IsReceiveCollision (it returns no value), the declared size of the ack packet, the stream services, the Si446x hardware, entropy, EEPROM ids, LEDs and debug output.
