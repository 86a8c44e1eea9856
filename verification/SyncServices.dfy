/** The writer and the reader as objects whose handlers change their fields, the surface and the packet in place
    (src/Services/SyncSurface). Each handler is proved against its value form in SyncNodes. */
module SyncServices {
  import opened Common
  import opened Checksum
  import opened Surfaces
  import opened SurfaceObject
  import opened SendService
  import opened SyncNodes

  class SyncWriter {
    const surface: TrackedSurface
    const sender: PacketSender<seq<byte>>
    const payload: array<byte>        // the bytes of the packet's payload while a block is copied
    var syncState: SyncState
    var writerState: WriterState
    var surfaceSendingIndex: nat
    var lastRemoteHash: byte
    var remoteHashIsSet: bool
    var taskEnabled: bool
    var lastSent: nat

    ghost predicate Fits()
      reads this, surface
    {
      surface.Fits() && payload.Length == BLOCK_SIZE && payload != surface.data
    }

    ghost function View(): Writer
      reads this, surface, surface.data, sender
    {
      Writer(Core(syncState, if remoteHashIsSet then Some(lastRemoteHash) else None, surface.View(), sender.View(), taskEnabled, lastSent),
             writerState, surfaceSendingIndex)
    }

    constructor (surface: TrackedSurface)
      requires surface.Fits() && surface.View().Valid()
      ensures Fits() && View().Valid() && View().Justified() && this.surface == surface && syncState == Disabled
      ensures fresh(sender) && fresh(payload)
    {
      this.surface := surface;
      sender := new PacketSender([0, 0, 0, 0]);
      payload := new byte[BLOCK_SIZE];
      syncState, writerState, surfaceSendingIndex := Disabled, UpdatingBlocks, 0;
      lastRemoteHash, remoteHashIsSet, taskEnabled, lastSent := 0, false, false, INVALID_MILLIS;
    }

    method UpdateSyncingState(newState: WriterState)
      modifies this
      ensures View() == old(View()).UpdateSyncingState(newState)
    {
      if writerState != newState {
        lastSent := INVALID_MILLIS;
        if newState == SendingBlock {
          InvalidateRemoteHash();
        }
        writerState := newState;
      }
    }

    method InvalidateRemoteHash()
      modifies this`lastRemoteHash, this`remoteHashIsSet
      ensures !remoteHashIsSet
    {
      lastRemoteHash := 0;
      remoteHashIsSet := false;
    }

    method OnStateUpdated(newState: SyncState)
      modifies this
      ensures View() == old(View()).OnStateUpdated(newState)
    {
      match newState
      case WaitingForServiceDiscovery =>
        InvalidateRemoteHash();
        taskEnabled := false;
        UpdateSyncingState(UpdatingBlocks);
      case Syncing =>
        UpdateSyncingState(UpdatingBlocks);
      case _ =>
    }

    method UpdateSyncState(newState: SyncState)
      requires View().Valid()
      modifies this, surface
      ensures View() == old(View()).UpdateSyncState(newState)
    {
      if syncState != newState {
        lastSent := INVALID_MILLIS;
        taskEnabled := true;
        if newState == Syncing || newState == Synced {
          surface.InvalidateHash();
        }
        syncState := newState;
        OnStateUpdated(newState);
      }
    }

    method SurfaceDataChangedEvent()
      requires View().(core := View().core.InvalidateLocalHash()).Valid()
      modifies this, surface
      ensures View() == old(View()).SurfaceDataChangedEvent()
    {
      surface.InvalidateHash();
      if syncState == Synced {
        UpdateSyncState(Syncing);
      }
    }

    /** A local write; the surface's signal calls SurfaceDataChangedEvent directly. */
    method Set16(value: bv16, block: nat, offset: nat)
      requires Fits() && View().Valid() && block < surface.blockCount && offset < 2
      modifies this, surface, surface.data
      ensures View() == old(View()).SetBlock(block, Put16(old(surface.View()).Block(block), offset, value))
    {
      surface.Set16(value, block, offset);
      SurfaceDataChangedEvent();
    }

    method Set8(value: byte, block: nat, offset: nat)
      requires Fits() && View().Valid() && block < surface.blockCount && offset < BLOCK_SIZE
      modifies this, surface, surface.data
      ensures View() == old(View()).SetBlock(block, Put8(old(surface.View()).Block(block), offset, value))
    {
      surface.Set8(value, block, offset);
      SurfaceDataChangedEvent();
    }

    method Set32(value: bv32, block: nat)
      requires Fits() && View().Valid() && block < surface.blockCount
      modifies this, surface, surface.data
      ensures View() == old(View()).SetBlock(block, Put32(value))
    {
      surface.Set32(value, block);
      SurfaceDataChangedEvent();
    }

    method HashesMatch() returns (match_: bool)
      ensures match_ == View().core.HashesMatch()
    {
      match_ := remoteHashIsSet && surface.lastCRC == lastRemoteHash;
    }

    method OnServiceDiscoveryReceived()
      requires View().Valid()
      modifies this, surface
      ensures View() == old(View()).OnServiceDiscoveryReceived()
    {
      match syncState
      case Syncing =>
      case Disabled =>
      case _ => UpdateSyncState(Syncing);
    }

    method OnUpdateFinishedReplyReceived()
      requires View().Valid() && remoteHashIsSet && (syncState == Synced ==> surface.tracker == {})
      modifies this, surface
      ensures View() == old(View()).OnUpdateFinishedReplyReceived()
    {
      surface.UpdateHash();
      match syncState
      case Syncing =>
        if writerState == SendingFinished {
          if surface.tracker != {} {
            UpdateSyncingState(UpdatingBlocks);
          } else {
            var same := HashesMatch();
            if same {
              UpdateSyncState(Synced);
            } else {
              surface.SetAll();
              UpdateSyncingState(UpdatingBlocks);
            }
          }
        }
      case Synced =>
        var same := HashesMatch();
        if !same {
          surface.SetAll();
          UpdateSyncState(Syncing);
        }
      case _ =>
    }

    method OnInvalidateRequestReceived()
      requires View().Valid()
      modifies this, surface
      ensures View() == old(View()).OnInvalidateRequestReceived()
    {
      match syncState
      case Syncing =>
        surface.SetAll();
        UpdateSyncingState(UpdatingBlocks);
      case Synced =>
        surface.SetAll();
        UpdateSyncState(Syncing);
      case _ =>
    }

    /** ProcessPacket of a meta packet. */
    method ReceiveMeta(subHeader: nat, payload: seq<byte>)
      requires View().Valid() && View().Justified() && |payload| == BLOCK_SIZE
      modifies this, surface
      ensures View() == old(View()).Receive(Frame(META, subHeader, false, payload))
    {
      ghost var before := View();
      remoteHashIsSet := true;
      lastRemoteHash := payload[0];
      assert View() == before.(core := before.core.(remote := Some(payload[0])));
      if subHeader == UPDATE_FINISHED_REPLY {
        OnUpdateFinishedReplyReceived();
      } else if subHeader == INVALIDATE_REQUEST {
        OnInvalidateRequestReceived();
      } else if subHeader == SERVICE_DISCOVERY {
        OnServiceDiscoveryReceived();
      }
    }

    method SendMeta(subHeader: nat, now: nat)
      requires View().Valid()
      modifies surface, sender
      ensures View() == old(View()).(core := old(View()).core.SendMeta(subHeader, now))
    {
      surface.UpdateHash();
      sender.Prepare(META, subHeader, false, sender.payload[0 := surface.lastCRC]);
      sender.RequestSendPacket(now);
    }

    method PrepareNextPendingBlockPacket()
      requires Fits() && View().Valid() && surface.tracker != {}
      modifies this`surfaceSendingIndex, sender, payload
      ensures surfaceSendingIndex ==
                NextSetIndex(surface.tracker, if old(surfaceSendingIndex) >= surface.blockCount then 0 else old(surfaceSendingIndex),
                             surface.blockCount)
      ensures sender.View() ==
                old(sender.View()).(frame := DataPacket(surfaceSendingIndex, surface.View().Block(surfaceSendingIndex)), pending := true)
    {
      if surfaceSendingIndex >= surface.blockCount {
        surfaceSendingIndex := 0;
      }
      surfaceSendingIndex := surface.GetNextSetIndex(surfaceSendingIndex);
      surface.WriteBlock(surfaceSendingIndex, payload);
      sender.Prepare(DATA, surfaceSendingIndex, false, payload[..BLOCK_SIZE]);
    }

    method OnSyncActive(now: nat)
      requires Fits() && View().Valid() && sender.View().Idle() && syncState == Syncing
      modifies this, surface, sender, payload
      ensures View() == old(View()).OnSyncActive(now)
    {
      match writerState
      case UpdatingBlocks =>
        if surface.tracker != {} {
          PrepareNextPendingBlockPacket();
          sender.RequestSendPacket(now);
          UpdateSyncingState(SendingBlock);
        } else {
          UpdateSyncingState(SendingFinished);
          lastSent := INVALID_MILLIS;
        }
      case SendingBlock =>
        UpdateSyncingState(UpdatingBlocks);
      case SendingFinished =>
        if surface.tracker != {} {
          UpdateSyncingState(UpdatingBlocks);
        } else if lastSent == INVALID_MILLIS || Elapsed(now, lastSent) > SYNC_CONFIRM_SEND_PERIOD {
          SendMeta(UPDATE_FINISHED, now);
        }
    }

    method OnService(now: nat)
      requires Fits() && View().Valid() && sender.View().Idle()
      modifies this, surface, sender, payload
      ensures View() == old(View()).OnService(now)
    {
      surface.UpdateHash();
      match syncState
      case Syncing => OnSyncActive(now);
      case Synced =>
      case _ => taskEnabled := false;
    }

    /** OnSendDelayed and OnSendRetrying: the held back packet gets the latest bytes. */
    method RefreshPayload()
      requires Fits() && View().Valid() && sender.hasDefinition
      modifies sender, payload
      ensures View() == old(View()).RefreshPayload()
    {
      if syncState == Syncing && writerState == SendingBlock {
        surface.WriteBlock(surfaceSendingIndex, payload);
        sender.payload := payload[..BLOCK_SIZE];
      }
    }

    method OnSendOk()
      modifies this, surface
      ensures View() == old(View()).OnSendOk()
    {
      if syncState == Syncing && writerState == SendingBlock {
        surface.tracker := surface.tracker - {surfaceSendingIndex};
        surfaceSendingIndex := surfaceSendingIndex + 1;
      }
    }

    method Callback(env: Env)
      requires Fits() && View().Valid()
      modifies this, surface, sender, payload
      ensures View() == old(View()).Callback(env)
    {
      var event := sender.Callback(env);
      match event
      case OnService => OnService(env.now);
      case OnSendDelayed => RefreshPayload();
      case OnSendRetrying => RefreshPayload();
      case OnSendOk => OnSendOk();
      case _ =>
    }
  }

  class SyncReader {
    const surface: TrackedSurface
    const sender: PacketSender<seq<byte>>
    var syncState: SyncState
    var lastRemoteHash: byte
    var remoteHashIsSet: bool
    var taskEnabled: bool
    var lastSent: nat

    ghost function View(): Reader
      reads this, surface, surface.data, sender
    {
      Reader(Core(syncState, if remoteHashIsSet then Some(lastRemoteHash) else None, surface.View(), sender.View(), taskEnabled, lastSent))
    }

    constructor (surface: TrackedSurface)
      requires surface.Fits() && surface.View().Valid()
      ensures View().Valid() && View().Justified() && this.surface == surface && syncState == Disabled && fresh(sender)
    {
      this.surface := surface;
      sender := new PacketSender([0, 0, 0, 0]);
      syncState, lastRemoteHash, remoteHashIsSet, taskEnabled, lastSent := Disabled, 0, false, false, INVALID_MILLIS;
    }

    method OnStateUpdated(newState: SyncState)
      requires View().Valid() && syncState == newState
      modifies this, surface
      ensures View() == old(View()).OnStateUpdated(newState)
      decreases newState.Synced?, 0
    {
      match newState
      case Syncing =>
        surface.SetAll();
      case Synced =>
        surface.tracker := {};
        surface.InvalidateHash();
        surface.UpdateHash();
        if !surface.dataGood {
          surface.dataGood := true;
          NotifyDataChanged();
        }
      case Disabled =>
        surface.dataGood := false;
      case WaitingForServiceDiscovery =>
    }

    /** The surface's signal is a direct call. */
    method NotifyDataChanged()
      requires Reader(View().core.InvalidateLocalHash()).Valid()
      modifies this, surface
      ensures View() == old(View()).SurfaceDataChangedEvent(old(surface.dataGood))
      decreases false, 3
    {
      SurfaceDataChangedEvent(surface.dataGood);
    }

    method UpdateSyncState(newState: SyncState)
      requires View().Valid()
      modifies this, surface
      ensures View() == old(View()).UpdateSyncState(newState)
      decreases newState.Synced?, 1
    {
      hide Reader.OnStateUpdated;
      if syncState != newState {
        lastSent := INVALID_MILLIS;
        taskEnabled := true;
        if newState == Syncing || newState == Synced {
          surface.InvalidateHash();
        }
        syncState := newState;
        OnStateUpdated(newState);
      }
    }

    method SurfaceDataChangedEvent(dataGood: bool)
      requires Reader(View().core.InvalidateLocalHash()).Valid()
      modifies this, surface
      ensures View() == old(View()).SurfaceDataChangedEvent(dataGood)
      decreases false, 2
    {
      surface.InvalidateHash();
      if syncState == Synced {
        UpdateSyncState(Syncing);
      }
    }

    /** The part of OnBlockReceived before the notification. */
    method StoreBlock(index: nat, payload: array<byte>)
      requires surface.Fits() && View().Valid() && index < surface.blockCount
      requires payload.Length == BLOCK_SIZE && payload != surface.data
      modifies surface, surface.data
      ensures var s := old(View()).core.surface.WithBlock(index, old(payload[..]));
              View() == Reader(old(View()).core.(surface := s.(dirty := s.dirty - {index})))
    {
      surface.ReadBlock(index, payload);
      surface.InvalidateHash();
      surface.tracker := surface.tracker - {index};
      assert payload[..BLOCK_SIZE] == payload[..];
    }

    method OnBlockReceived(index: nat, payload: array<byte>)
      requires surface.Fits() && View().Valid() && index < surface.blockCount
      requires payload.Length == BLOCK_SIZE && payload != surface.data
      modifies this, surface, surface.data
      ensures View() == old(View()).OnBlockReceived(index, old(payload[..]))
    {
      StoreBlock(index, payload);
      NotifyDataChanged();
      if syncState == WaitingForServiceDiscovery {
        UpdateSyncState(Syncing);
        surface.dataGood := false;
      }
    }

    method HashesMatch() returns (same: bool)
      ensures same == View().core.HashesMatch()
    {
      same := remoteHashIsSet && surface.lastCRC == lastRemoteHash;
    }

    method SendMeta(subHeader: nat, now: nat)
      requires View().Valid()
      modifies surface, sender
      ensures View() == Reader(old(View()).core.SendMeta(subHeader, now))
    {
      surface.UpdateHash();
      sender.Prepare(META, subHeader, false, sender.payload[0 := surface.lastCRC]);
      sender.RequestSendPacket(now);
    }

    method ReplyAndCompare(now: nat) returns (same: bool)
      requires View().Valid() && (syncState == Syncing || syncState == WaitingForServiceDiscovery)
      modifies this, surface, sender
      ensures View() == old(View()).ReplyAndCompare(now)
      ensures same == old(View()).core.UpdateLocalHash().HashesMatch()
    {
      surface.UpdateHash();
      SendMeta(UPDATE_FINISHED_REPLY, now);
      same := HashesMatch();
      if same {
        UpdateSyncState(Synced);
      }
    }

    method CompareOrInvalidate(now: nat)
      requires View().Valid() && Reader(View().core.(remote := Some(View().core.surface.Crc()))).Justified() && syncState == Synced
      modifies this, surface, sender
      ensures View() == old(View()).CompareOrInvalidate(now)
    {
      surface.UpdateHash();
      var same := HashesMatch();
      if same {
        SendMeta(UPDATE_FINISHED_REPLY, now);
      } else {
        SendMeta(INVALIDATE_REQUEST, now);
        UpdateSyncState(Syncing);
      }
    }

    method OnUpdateFinishedReceived(now: nat)
      requires View().Valid() && Reader(View().core.(remote := Some(View().core.surface.Crc()))).Justified()
      modifies this, surface, sender
      ensures View() == old(View()).OnUpdateFinishedReceived(now)
    {
      match syncState
      case Syncing =>
        var same := ReplyAndCompare(now);
      case Synced =>
        CompareOrInvalidate(now);
      case WaitingForServiceDiscovery =>
        var same := ReplyAndCompare(now);
        if !same {
          UpdateSyncState(Syncing);
        }
      case Disabled =>
        surface.UpdateHash();
    }

    /** ProcessPacket of a meta packet. */
    method ReceiveMeta(subHeader: nat, payload: seq<byte>, now: nat)
      requires View().Valid() && View().Justified() && |payload| == BLOCK_SIZE
      modifies this, surface, sender
      ensures View() == old(View()).Receive(Frame(META, subHeader, false, payload), now)
    {
      ghost var before := View();
      remoteHashIsSet := true;
      lastRemoteHash := payload[0];
      assert View() == Reader(before.core.(remote := Some(payload[0])));
      if subHeader == UPDATE_FINISHED {
        OnUpdateFinishedReceived(now);
      }
    }

    method OnService(now: nat, expired: bool)
      requires View().Valid() && sender.View().Idle()
      modifies this, surface, sender
      ensures View() == old(View()).OnService(now, expired)
    {
      surface.UpdateHash();
      match syncState
      case WaitingForServiceDiscovery =>
        if expired {
          taskEnabled := false;
        } else if lastSent == INVALID_MILLIS || Elapsed(now, lastSent) > SERVICE_DISCOVERY_SEND_PERIOD {
          SendMeta(SERVICE_DISCOVERY, now);
        }
      case Disabled =>
        taskEnabled := false;
      case _ =>
    }

    method Callback(env: Env, expired: bool)
      requires View().Valid()
      modifies this, surface, sender
      ensures View() == old(View()).Callback(env, expired)
    {
      var event := sender.Callback(env);
      if event == Event.OnService {
        OnService(env.now, expired);
      }
    }
  }
}
