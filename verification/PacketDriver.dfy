/** The packet driver as an object (src/PacketDriver): its state, its action queue and its packet buffers, which methods
    and interrupt handlers change in place. The buffers decide what becomes of a received packet; what the radio accepts
    and what services do meanwhile are parameters. */
module PacketDrivers {
  import opened Common
  import opened Drivers
  import opened Latency
  import PacketBuffers
  import Packets
  import Duplex

  class ActionQueue {
    var eventQueue: seq<AsyncAction>

    constructor ()
      ensures eventQueue == []
    {
      eventQueue := [];
    }

    /** A full queue loses its oldest action. */
    method AppendToQueue(action: AsyncAction)
      requires |eventQueue| <= QUEUE_SIZE
      modifies this
      ensures eventQueue == AddForce(old(eventQueue), QUEUE_SIZE, action)
    {
      if |eventQueue| == QUEUE_SIZE {
        eventQueue := eventQueue[1..];
      }
      eventQueue := eventQueue + [action];
    }

    method Pull() returns (action: AsyncAction)
      requires eventQueue != []
      modifies this
      ensures [action] + eventQueue == old(eventQueue)
    {
      action := eventQueue[0];
      eventQueue := eventQueue[1..];
    }
  }

  /** What becomes of an accepted packet of the given configuration. */
  function Answer(configuration: Packets.Configuration, calls: seq<Call>, accepted: bool, transmits: bool): Incoming {
    match configuration
    case IsAck => IsAck
    case HasAck => WithAck(calls, accepted, transmits)
    case Basic => Plain(calls)
  }

  function Outcome(v: Packets.Verdict, calls: seq<Call>, accepted: bool, transmits: bool): Incoming {
    match v
    case BadSize => BadSize
    case Rejected => Rejected
    case Accepted(definition, _) => Answer(definition.configuration, calls, accepted, transmits)
  }

  class PacketDriver {
    const callbackHandler: ActionQueue
    const path: PacketBuffers.RadioPath
    const evenSlot: bool
    var driverActiveState: ActiveState
    var interrupts: bool
    var channelPending: bool
    var currentChannel: nat
    var lastChannel: nat
    var currentTransmitPower: nat
    var lastPower: nat
    var lastSentHeader: nat
    var tunedChannel: nat
    ghost var sent: seq<nat>
    ghost var dropped: set<AsyncAction>

    ghost function View(): Driver
      reads this, callbackHandler
    {
      Driver(driverActiveState, callbackHandler.eventQueue, interrupts, channelPending, currentChannel, lastChannel,
             currentTransmitPower, lastPower, lastSentHeader, tunedChannel, sent, dropped)
    }

    ghost predicate Valid()
      reads this, path, path.encoder, path.packetMap, path.packetMap.mapping, path.incoming, path.outgoing, path.ackPacket
    {
      path.Valid()
    }

    constructor (evenSlot: bool, path: PacketBuffers.RadioPath)
      requires path.Valid()
      ensures Valid() && View() == POWER_UP && fresh(callbackHandler) && this.evenSlot == evenSlot && this.path == path
    {
      this.evenSlot, this.path := evenSlot, path;
      callbackHandler := new ActionQueue();
      driverActiveState, interrupts, channelPending := DriverDisabled, true, false;
      currentChannel, lastChannel, currentTransmitPower, lastPower, lastSentHeader, tunedChannel := 0, 0, 0, 0, NO_HEADER, 0;
      sent, dropped := [], {};
    }

    // -------------------------------------------------------------------------------------------
    // Calls from outside: each keeps the driver's invariant

    /** A packet without a definition is refused. Any other is handed to the radio, in its on-air form, just when no
        channel change is pending, the driver is ready, and the radio takes it. */
    method SendPacket(p: PacketBuffers.Packet, transmits: bool) returns (ok: bool)
      requires Valid() && Inv(View()) && Sendable(p)
      modifies this, callbackHandler, path.outgoing.data
      ensures Valid() && Inv(View())
      ensures ok <==> old(p.definition.Some? && !channelPending && driverActiveState == ReadyForAnything) && transmits
      ensures p.definition.None? ==> View() == old(View())
      ensures p.definition.Some? ==> (View(), ok) == old(View()).SendPacket(Header(p), transmits)
      ensures ok ==> sent == old(sent) + [Header(p)] && HoldsOnAir(p)
    {
      if p.definition.None? {
        return false;
      }
      SendKeeps(View(), Header(p), transmits);
      hide Inv;
      ok := Send(p, transmits);
    }

    /** The action for a received packet is the oldest. */
    ghost predicate Serves()
      reads callbackHandler, this
    {
      callbackHandler.eventQueue != [] && callbackHandler.eventQueue[0] == ProcessIncomingPacket
    }

    /** One run of the callback handler's task. If the oldest action is that for a received packet, it is served: with
        interrupts on, the driver is ready or its ack is on the way. */
    method RunQueue(size: nat, calls: seq<Call>, accepted: bool, transmits: bool) returns (handed: Option<Packets.Definition>)
      requires Valid() && Inv(View())
      modifies this, callbackHandler, path.incoming, path.incoming.data, path.outgoing.data, path.ackPacket, path.ackPacket.data
      ensures Valid() && Inv(View())
      ensures View() == old(View()).RunQueue(Outcome(old(path.Verdict(size)), calls, accepted, transmits))
      ensures old(ProcessIncomingPacket in callbackHandler.eventQueue) ==>
                if old(Serves()) then Served(View())
                else ProcessIncomingPacket in callbackHandler.eventQueue
                     && Place(callbackHandler.eventQueue) == Place(old(callbackHandler.eventQueue)) - 1
      ensures handed.Some? <==> old(Serves() && driverActiveState == AwaitingProcessing && path.Verdict(size).Accepted?)
      ensures handed.Some? ==> HandedOver(old(path.Verdict(size)), handed.value, size)
      ensures old(Serves()) && driverActiveState == WaitingForTransmissionEnd ==> AckIsOut()
      ensures sent == old(sent) + if old(Serves() && IsAcked(size, calls, accepted, transmits)) then [ACK_HEADER] else []
    {
      ghost var p := Outcome(path.Verdict(size), calls, accepted, transmits);
      RunsKeeps(View(), p);
      if ProcessIncomingPacket in View().queue { RunServes(View(), p); }
      hide *;
      handed := Turn(size, calls, accepted, transmits);
    }

    method Turn(size: nat, calls: seq<Call>, accepted: bool, transmits: bool) returns (handed: Option<Packets.Definition>)
      requires Valid() && View().Valid()
      modifies this, callbackHandler, path.incoming, path.incoming.data, path.outgoing.data, path.ackPacket, path.ackPacket.data
      ensures Valid() && View() == old(View()).RunQueue(Outcome(old(path.Verdict(size)), calls, accepted, transmits))
      ensures handed.Some? <==> old(Serves() && driverActiveState == AwaitingProcessing && path.Verdict(size).Accepted?)
      ensures handed.Some? ==> HandedOver(old(path.Verdict(size)), handed.value, size)
      ensures old(Serves()) && driverActiveState == WaitingForTransmissionEnd ==> AckIsOut()
      ensures sent == old(sent) + if old(Serves() && IsAcked(size, calls, accepted, transmits)) then [ACK_HEADER] else []
    {
      handed := None;
      if callbackHandler.eventQueue == [] {
        return;
      }
      hide Outcome, AckIsOut, HandedOver, IsAcked, Driver.CarryOut, PacketBuffers.RadioPath.Valid, PacketBuffers.RadioPath.Verdict;
      var action := callbackHandler.Pull();
      handed := CarryOut(action, size, calls, accepted, transmits);
    }

    /** The packet in the buffer asks for an ack and gets it. */
    ghost predicate IsAcked(size: nat, calls: seq<Call>, accepted: bool, transmits: bool)
      requires Valid()
      reads this, callbackHandler, path, path.encoder, path.encoder.keyHolder, path.encoder.ivHolder
      reads path.packetMap, path.packetMap.mapping, path.incoming, path.incoming.data, path.outgoing, path.ackPacket
    {
      var v := path.Verdict(size);
      && driverActiveState == AwaitingProcessing && v.Accepted? && v.definition.configuration == Packets.HasAck
      && accepted && transmits && !LeavesPending(View(), calls)
    }

    method CarryOut(action: AsyncAction, size: nat, calls: seq<Call>, accepted: bool, transmits: bool) returns (handed: Option<Packets.Definition>)
      requires Valid() && View().Valid()
      modifies this, callbackHandler, path.incoming, path.incoming.data, path.outgoing.data, path.ackPacket, path.ackPacket.data
      ensures Valid() && View() == old(View()).CarryOut(action, Outcome(old(path.Verdict(size)), calls, accepted, transmits))
      ensures handed.Some? <==> action.ProcessIncomingPacket? && old(driverActiveState == AwaitingProcessing && path.Verdict(size).Accepted?)
      ensures handed.Some? ==> HandedOver(old(path.Verdict(size)), handed.value, size)
      ensures action.ProcessIncomingPacket? && driverActiveState == WaitingForTransmissionEnd ==> AckIsOut()
      ensures sent == old(sent) + if action.ProcessIncomingPacket? && old(IsAcked(size, calls, accepted, transmits)) then [ACK_HEADER] else []
    {
      hide Driver.ProcessIncoming, Outcome, HandedOver, AckIsOut, IsAcked, PacketBuffers.RadioPath.Valid, PacketBuffers.RadioPath.Verdict;
      handed := None;
      match action
      case ProcessIncomingPacket => handed := ProcessIncoming(size, calls, accepted, transmits);
      case ProcessSentOk(h) => RestoreToReceiving();
      case UpdatePower => OnTransmitPowerUpdated();
      case UpdateChannel => OnChannelUpdated();
      case AsyncRestore => OnAsyncRestore();
      case BatteryAlarm =>
    }

    /** A driver blocked for an incoming packet turns interrupts off and has its action queued. */
    method OnReceiveBegin()
      requires Inv(View()) && interrupts
      modifies this, callbackHandler
      ensures Inv(View()) && !Wedged(View()) && View() == Step(old(View()), ReceiveBegin)
      ensures !interrupts <==> old(driverActiveState == BlockedForIncoming)
      ensures !interrupts ==> ProcessIncomingPacket in callbackHandler.eventQueue
    {
      ReceiveBeginKeeps(View());
      WedgesIffOverwrites(View(), ReceiveBegin);
      hide Inv;
      if driverActiveState == BlockedForIncoming {
        interrupts := false;
        driverActiveState := AwaitingProcessing;
        AddAsyncAction(ProcessIncomingPacket);
      } else {
        AddAsyncAction(AsyncRestore);
      }
    }

    method OnIncoming()
      requires Inv(View()) && interrupts
      modifies this
      ensures Inv(View()) && View() == Step(old(View()), Incoming)
    {
      if driverActiveState == ReadyForAnything {
        driverActiveState := BlockedForIncoming;
      }
    }

    method OnReceivedFail()
      requires Inv(View()) && interrupts
      modifies this, callbackHandler
      ensures Inv(View()) && View() == Step(old(View()), ReceivedFail)
    {
      AppendKeeps(View(), AsyncRestore);
      AddAsyncAction(AsyncRestore);
    }

    method OnSentOk()
      requires Inv(View()) && interrupts
      modifies this, callbackHandler
      ensures Inv(View()) && View() == Step(old(View()), SentOk)
    {
      InterruptKeeps(View(), SentOk);
      hide Inv;
      if driverActiveState == WaitingForTransmissionEnd {
        AddAsyncAction(ProcessSentOk(lastSentHeader));
        lastSentHeader := NO_HEADER;
      } else {
        AddAsyncAction(AsyncRestore);
      }
    }

    /** A channel or power change, or a start, outside the handling of a packet. What can be seen of the queue before the
        call tells whether it wedges the driver. */
    method ServiceCall(call: Call)
      requires Inv(View())
      modifies this, callbackHandler
      ensures Inv(View()) && View() == old(View()).Do(call)
      ensures !Wedged(old(View())) ==> (Wedged(View()) <==> Overwrites(old(View()), Calls(call)))
    {
      CallKeeps(View(), call);
      if !Wedged(View()) { CallWedges(View(), call); }
      hide Inv, Wedged, Overwrites;
      Do(call);
    }

    // -------------------------------------------------------------------------------------------
    // Sending

    ghost predicate Sendable(p: PacketBuffers.Packet)
      requires Valid()
      reads this, p, path, path.encoder, path.packetMap, path.packetMap.mapping, path.incoming, path.outgoing, path.ackPacket
    {
      && p.Valid() && p.data != path.outgoing.data
      && (p.definition.Some? ==> p.definition.value.TotalSize() <= Packets.MAX_SIZE)
    }

    /** GetDataHeader. */
    function Header(p: PacketBuffers.Packet): nat
      requires p.Valid()
      reads p, p.data
    {
      p.data[Packets.HEADER_INDEX] as nat
    }

    /** The outgoing buffer holds the on-air form of the packet. */
    ghost predicate HoldsOnAir(p: PacketBuffers.Packet)
      requires Valid() && p.Valid() && p.definition.Some? && p.definition.value.TotalSize() <= Packets.MAX_SIZE
      reads this, path, path.encoder, path.encoder.keyHolder, path.encoder.ivHolder, path.packetMap, path.packetMap.mapping
      reads path.incoming, path.outgoing, path.ackPacket, path.outgoing.data, p, p.data
    {
      var size := p.definition.value.TotalSize();
      path.outgoing.data[..size] == Packets.OnAir(path.encoder.View(), p.data[Packets.HEADER_INDEX..size])
    }

    method Send(p: PacketBuffers.Packet, transmits: bool) returns (ok: bool)
      requires Valid() && View().Valid() && Sendable(p) && p.definition.Some?
      modifies this, callbackHandler, path.outgoing.data
      ensures Valid() && (View(), ok) == old(View()).SendPacket(Header(p), transmits)
      ensures ok ==> HoldsOnAir(p)
    {
      hide Packets.OnAir, PacketBuffers.CryptoEncoder.View, Driver.OnTransmitted, Driver.Append;
      if channelPending || !(driverActiveState == ReadyForAnything || driverActiveState == SendingAck) {
        return false;
      }
      var size := path.Prepare(p);
      ok := Transmit(Header(p), transmits);
    }

    method Transmit(header: nat, transmits: bool) returns (ok: bool)
      requires View().Valid() && !channelPending && (driverActiveState == ReadyForAnything || driverActiveState == SendingAck)
      modifies this, callbackHandler
      ensures (View(), ok) == old(View()).SendPacket(header, transmits)
    {
      driverActiveState := SendingOutgoing;
      if transmits {
        OnTransmitted(header);
        driverActiveState := WaitingForTransmissionEnd;
        return true;
      }
      AddAsyncAction(AsyncRestore);
      return false;
    }

    // -------------------------------------------------------------------------------------------
    // Receiving

    /** The services are handed the packet's definition, and the buffer holds its content. */
    ghost predicate HandedOver(v: Packets.Verdict, definition: Packets.Definition, size: nat)
      reads path, path.incoming, path.incoming.data
    {
      && v.Accepted? && v.definition == definition && Packets.HEADER_INDEX <= size <= path.incoming.data.Length
      && path.incoming.data[Packets.HEADER_INDEX..size] == v.content
    }

    /** The buffer is read only in AwaitingProcessing; services then get a packet just when the verdict on its bytes
        accepts it, and if the driver ends waiting for a transmission it is the ack of that packet. */
    method ProcessIncoming(size: nat, calls: seq<Call>, accepted: bool, transmits: bool) returns (handed: Option<Packets.Definition>)
      requires Valid() && View().Valid()
      modifies this, callbackHandler, path.incoming, path.incoming.data, path.outgoing.data, path.ackPacket, path.ackPacket.data
      ensures Valid() && View() == old(View()).ProcessIncoming(Outcome(old(path.Verdict(size)), calls, accepted, transmits))
      ensures handed.Some? <==> old(driverActiveState == AwaitingProcessing && path.Verdict(size).Accepted?)
      ensures handed.Some? ==> HandedOver(old(path.Verdict(size)), handed.value, size)
      ensures driverActiveState == WaitingForTransmissionEnd ==> AckIsOut()
      ensures sent == old(sent) + if old(IsAcked(size, calls, accepted, transmits)) then [ACK_HEADER] else []
    {
      AcksIffAccepted(View(), Outcome(path.Verdict(size), calls, accepted, transmits));
      hide LeavesPending, HandedOver, AckIsOut, Driver.ProcessIncoming, PacketBuffers.RadioPath.Valid, PacketBuffers.RadioPath.Verdict;
      handed := Handle(size, calls, accepted, transmits);
    }

    /** From the test of the state on. */
    method Handle(size: nat, calls: seq<Call>, accepted: bool, transmits: bool) returns (handed: Option<Packets.Definition>)
      requires Valid() && View().Valid()
      modifies this, callbackHandler, path.incoming, path.incoming.data, path.outgoing.data, path.ackPacket, path.ackPacket.data
      ensures Valid() && View() == old(View()).ProcessIncoming(Outcome(old(path.Verdict(size)), calls, accepted, transmits))
      ensures handed.Some? <==> old(driverActiveState == AwaitingProcessing && path.Verdict(size).Accepted?)
      ensures handed.Some? ==> HandedOver(old(path.Verdict(size)), handed.value, size)
      ensures driverActiveState == WaitingForTransmissionEnd ==> AckIsOut()
    {
      hide Driver.DoAll, Driver.SendPacket, AckIsOut, PacketBuffers.RadioPath.Valid, PacketBuffers.RadioPath.Verdict;
      handed := None;
      if driverActiveState != AwaitingProcessing {
        RestoreWithInterrupts();
        return;
      }
      driverActiveState := ProcessingIncoming;
      var readable := path.Judge(size);
      if !readable {
        RestoreWithInterrupts();
        return;
      }
      handed := path.incoming.definition;
      Respond(handed.value.configuration, calls, accepted, transmits);
    }

    /** What is done with an accepted packet. */
    method Respond(configuration: Packets.Configuration, calls: seq<Call>, accepted: bool, transmits: bool)
      requires Valid() && View().Valid() && driverActiveState == ProcessingIncoming
      modifies this, callbackHandler, path.outgoing.data, path.ackPacket, path.ackPacket.data
      ensures Valid()
      ensures View() == old(View()).(state := AwaitingProcessing).ProcessIncoming(Answer(configuration, calls, accepted, transmits))
      ensures driverActiveState == WaitingForTransmissionEnd ==> AckIsOut()
    {
      hide Driver.DoAll, Driver.SendPacket, AckIsOut, PacketBuffers.RadioPath.Valid;
      match configuration
      case IsAck => RestoreWithInterrupts();
      case Basic =>
        Serve(calls);
        RestoreWithInterrupts();
      case HasAck =>
        Serve(calls);
        if accepted {
          SendAck(transmits);
        } else {
          RestoreWithInterrupts();
        }
    }

    /** The outgoing buffer holds the ack of the packet in the incoming buffer. */
    ghost predicate AckIsOut()
      requires Valid()
      reads this, path, path.encoder, path.encoder.keyHolder, path.encoder.ivHolder, path.packetMap, path.packetMap.mapping
      reads path.incoming, path.outgoing, path.ackPacket, path.outgoing.data, path.incoming.data
    {
      path.outgoing.data[..Packets.ACK_DEFINITION.TotalSize()]
        == Packets.OnAir(path.encoder.View(), [Packets.ACK_DEFINITION.header, path.incoming.data[Packets.ID_INDEX],
                                               path.incoming.data[Packets.HEADER_INDEX]])
    }

    method SendAck(transmits: bool)
      requires Valid() && View().Valid()
      modifies this, callbackHandler, path.outgoing.data, path.ackPacket, path.ackPacket.data
      ensures Valid()
      ensures var (d, ok) := old(View()).(state := SendingAck).SendPacket(ACK_HEADER, transmits);
              View() == if ok then d.(interrupts := true) else d.RestoreWithInterrupts()
      ensures driverActiveState == WaitingForTransmissionEnd ==> AckIsOut()
    {
      hide Packets.OnAir, PacketBuffers.CryptoEncoder.View, Driver.SendPacket;
      path.BuildAck();
      ConcludeAck(transmits);
    }

    method ConcludeAck(transmits: bool)
      requires Valid() && View().Valid() && Header(path.ackPacket) == ACK_HEADER
      requires path.ackPacket.definition == Some(Packets.ACK_DEFINITION)
      modifies this, callbackHandler, path.outgoing.data
      ensures Valid()
      ensures var (d, ok) := old(View()).(state := SendingAck).SendPacket(ACK_HEADER, transmits);
              View() == if ok then d.(interrupts := true) else d.RestoreWithInterrupts()
      ensures driverActiveState == WaitingForTransmissionEnd ==> HoldsOnAir(path.ackPacket)
    {
      driverActiveState := SendingAck;
      assert Sendable(path.ackPacket);
      hide HoldsOnAir, Driver.OnTransmitted, Driver.Append, PacketBuffers.RadioPath.Valid;
      var ok := Send(path.ackPacket, transmits);
      if ok {
        interrupts := true;
      } else {
        RestoreWithInterrupts();
      }
    }

    method RestoreWithInterrupts()
      modifies this
      ensures View() == old(View()).RestoreWithInterrupts()
    {
      RestoreToReceiving();
      interrupts := true;
    }

    // -------------------------------------------------------------------------------------------
    // Channel, power and queue

    method AddAsyncAction(action: AsyncAction)
      requires View().Valid()
      modifies this`dropped, callbackHandler
      ensures View() == old(View()).Append(action)
    {
      if |callbackHandler.eventQueue| == QUEUE_SIZE {
        dropped := dropped + {callbackHandler.eventQueue[0]};
      }
      callbackHandler.AppendToQueue(action);
    }

    method RestoreToReceiving()
      modifies this
      ensures View() == old(View()).RestoreToReceiving()
    {
      lastChannel := currentChannel;
      channelPending := false;
      driverActiveState := ReadyForAnything;
      tunedChannel := currentChannel;
    }

    method OnStart()
      modifies this
      ensures View() == old(View()).OnStart()
    {
      lastChannel := NO_CHANNEL;
      lastPower := 0;
      channelPending := false;
      RestoreToReceiving();
    }

    method OnChannelUpdated()
      requires View().Valid()
      modifies this, callbackHandler
      ensures View() == old(View()).OnChannelUpdated()
    {
      if lastChannel != currentChannel {
        if driverActiveState == ReadyForAnything {
          RestoreToReceiving();
        } else {
          channelPending := true;
          AddAsyncAction(UpdateChannel);
        }
      }
    }

    method OnTransmitPowerUpdated()
      requires View().Valid()
      modifies this, callbackHandler
      ensures View() == old(View()).OnTransmitPowerUpdated()
    {
      if lastPower != currentTransmitPower {
        if driverActiveState == ReadyForAnything {
          lastPower := currentTransmitPower;
          RestoreToReceiving();
        } else {
          AddAsyncAction(UpdatePower);
        }
      }
    }

    method OnAsyncRestore()
      modifies this
      ensures View() == old(View()).(lastSentHeader := NO_HEADER).RestoreToReceiving()
    {
      lastSentHeader := NO_HEADER;
      RestoreToReceiving();
    }

    method Do(call: Call)
      requires View().Valid()
      modifies this, callbackHandler
      ensures View() == old(View()).Do(call)
    {
      match call
      case SetChannel(c) =>
        currentChannel := c;
        OnChannelUpdated();
      case SetPower(p) =>
        currentTransmitPower := p;
        OnTransmitPowerUpdated();
      case Start => OnStart();
    }

    /** The calls that services make while they handle a packet, in order. */
    method Serve(calls: seq<Call>)
      requires View().Valid()
      modifies this, callbackHandler
      ensures View() == old(View()).DoAll(calls)
      decreases |calls|
    {
      if calls != [] {
        Do(calls[0]);
        Serve(calls[1..]);
      }
    }

    method OnTransmitted(header: nat)
      requires View().Valid()
      modifies this, callbackHandler
      ensures View() == old(View()).OnTransmitted(header)
    {
      lastSentHeader := header;
      lastChannel := currentChannel;
      sent := sent + [header];
      OnTransmitPowerUpdated();
    }

    // -------------------------------------------------------------------------------------------
    // Slots

    method IsInSendSlot(sync: nat, ettm: nat) returns (inSlot: bool)
      ensures inSlot == Duplex.IsInSendSlot(evenSlot, sync, ettm)
    {
      var duplexElapsed := (sync + ettm) % UINT32 % Duplex.PERIOD;
      if evenSlot {
        return duplexElapsed <= Duplex.Sub32(Duplex.HALF, ettm);
      }
      return duplexElapsed >= Duplex.HALF && duplexElapsed <= Duplex.Sub32(Duplex.PERIOD, ettm);
    }

    /** A send that is allowed now is refused by nothing but the radio, and while linked it keeps clear of everything the
        partner is allowed to send, whenever it is. */
    method AllowedSend(linkActive: bool, sync: nat, ettm: nat, elapsedLastValidSent: nat) returns (allowed: bool)
      requires View().Valid()
      ensures allowed <==> driverActiveState == ReadyForAnything && !channelPending
                           && Duplex.AllowedSend(linkActive, evenSlot, sync, ettm, elapsedLastValidSent)
      ensures !linkActive ==> (allowed <==> driverActiveState == ReadyForAnything && !channelPending && elapsedLastValidSent >= 5)
      ensures linkActive && allowed ==> elapsedLastValidSent >= 1
      ensures linkActive && elapsedLastValidSent >= 1 ==>
                (allowed <==> driverActiveState == ReadyForAnything && !channelPending && Duplex.IsInSendSlot(evenSlot, sync, ettm))
      ensures allowed ==> forall header: nat, transmits: bool :: View().SendPacket(header, transmits).1 == transmits
      ensures allowed && linkActive && ettm <= Duplex.PERIOD && sync + ettm < UINT32 ==> Duplex.KeepsClear(evenSlot, sync, ettm)
    {
      if driverActiveState != ReadyForAnything || channelPending {
        return false;
      }
      if !linkActive {
        return elapsedLastValidSent >= Duplex.BACK_OFF_UNLINKED;
      }
      var inSlot := IsInSendSlot(sync, ettm);
      allowed := inSlot && elapsedLastValidSent >= Duplex.BACK_OFF_LINKED;
      if allowed && ettm <= Duplex.PERIOD && sync + ettm < UINT32 {
        Duplex.AllowedKeepsClear(evenSlot, sync, ettm, elapsedLastValidSent);
      }
    }
  }
}
