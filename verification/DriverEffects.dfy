/** A second, flat description of the packet driver: for every field exactly which events change it, and how. */
module DriverEffects {
  import opened Latency
  import opened Drivers

  // ---------------------------------------------------------------------------------------------
  // Everything but the serving of a packet

  /** The action that the queue's task is about to carry out. */
  predicate Pulls(d: Driver, e: Event, action: AsyncAction) {
    e.Runs? && d.queue != [] && d.queue[0] == action
  }

  predicate PullsSentOk(d: Driver, e: Event) {
    e.Runs? && d.queue != [] && d.queue[0].ProcessSentOk?
  }

  predicate CanSend(d: Driver) {
    !d.channelPending && (d.state.ReadyForAnything? || d.state.SendingAck?)
  }

  predicate Transmits(d: Driver, e: Event) {
    e.Sends? && CanSend(d) && e.transmits
  }

  predicate Interrupted(d: Driver, e: Event, interrupt: Event) {
    d.interrupts && e == interrupt
  }

  function ChannelThen(d: Driver, e: Event): nat {
    if e.Calls? && e.call.SetChannel? then e.call.channel else d.channel
  }

  function PowerThen(d: Driver, e: Event): nat {
    if e.Calls? && e.call.SetPower? then e.call.power else d.power
  }

  /** The channel, or the power, is to be brought up to date, and the radio has another one. */
  predicate ChannelDiffers(d: Driver, e: Event) {
    ((e.Calls? && e.call.SetChannel?) || Pulls(d, e, UpdateChannel)) && ChannelThen(d, e) != d.lastChannel
  }

  predicate PowerDiffers(d: Driver, e: Event) {
    ((e.Calls? && e.call.SetPower?) || Pulls(d, e, UpdatePower)) && PowerThen(d, e) != d.lastPower
  }

  /** The radio is put back to receiving, on the current channel. */
  predicate Receives(d: Driver, e: Event) {
    || (e.Calls? && e.call.Start?)
    || PullsSentOk(d, e) || Pulls(d, e, AsyncRestore)
    || ((ChannelDiffers(d, e) || PowerDiffers(d, e)) && d.state.ReadyForAnything?)
  }

  /** What is queued. */
  function Queues(d: Driver, e: Event): seq<AsyncAction> {
    if ChannelDiffers(d, e) && !d.state.ReadyForAnything? then [UpdateChannel]
    else if PowerDiffers(d, e) && !d.state.ReadyForAnything? then [UpdatePower]
    else if e.Sends? && CanSend(d) && !e.transmits then [AsyncRestore]
    else if Transmits(d, e) && d.power != d.lastPower then [UpdatePower]
    else if Interrupted(d, e, ReceiveBegin) then [if d.state.BlockedForIncoming? then ProcessIncomingPacket else AsyncRestore]
    else if Interrupted(d, e, ReceivedFail) then [AsyncRestore]
    else if Interrupted(d, e, SentOk) then [if d.state.WaitingForTransmissionEnd? then ProcessSentOk(d.lastSentHeader) else AsyncRestore]
    else if Interrupted(d, e, Alarm) then [BatteryAlarm]
    else []
  }

  /** Four actions are kept, the newest. */
  function Kept(queue: seq<AsyncAction>): seq<AsyncAction> {
    if |queue| <= 4 then queue else queue[|queue| - 4..]
  }

  function Rest(d: Driver, e: Event): seq<AsyncAction> {
    if e.Runs? && d.queue != [] then d.queue[1..] else d.queue
  }

  function Stepped(d: Driver, e: Event): Driver {
    var back, added, rest := Receives(d, e), Queues(d, e), Rest(d, e);
    d.(state := if back then ReadyForAnything
                else if Transmits(d, e) then WaitingForTransmissionEnd
                else if e.Sends? && CanSend(d) then SendingOutgoing
                else if Interrupted(d, e, Incoming) && d.state.ReadyForAnything? then BlockedForIncoming
                else if Interrupted(d, e, ReceiveBegin) && d.state.BlockedForIncoming? then AwaitingProcessing
                else d.state,
       queue := if added == [] then rest else Kept(rest + added),
       interrupts := d.interrupts && !(e.ReceiveBegin? && d.state.BlockedForIncoming?),
       channelPending := !back && (d.channelPending || (ChannelDiffers(d, e) && !d.state.ReadyForAnything?)),
       channel := ChannelThen(d, e),
       lastChannel := if back || Transmits(d, e) then ChannelThen(d, e) else d.lastChannel,
       power := PowerThen(d, e),
       lastPower := if e.Calls? && e.call.Start? then 0 else if PowerDiffers(d, e) && back then PowerThen(d, e) else d.lastPower,
       lastSentHeader := if Transmits(d, e) then e.header
                         else if Pulls(d, e, AsyncRestore) || (Interrupted(d, e, SentOk) && d.state.WaitingForTransmissionEnd?) then 0xFF
                         else d.lastSentHeader,
       tuned := if back then ChannelThen(d, e) else d.tuned,
       sent := if Transmits(d, e) then d.sent + [e.header] else d.sent,
       dropped := if added != [] && |rest| == 4 then d.dropped + {rest[0]} else d.dropped)
  }

  lemma KeptIsForced(queue: seq<AsyncAction>, a: AsyncAction)
    requires |queue| <= 4
    ensures Kept(queue + [a]) == AddForce(queue, QUEUE_SIZE, a)
  {
  }

  lemma AppendExactly(d: Driver, a: AsyncAction)
    requires d.Valid()
    ensures d.Append(a) == d.(queue := Kept(d.queue + [a]), dropped := if |d.queue| == 4 then d.dropped + {d.queue[0]} else d.dropped)
  {
    KeptIsForced(d.queue, a);
  }

  lemma ChannelExactly(d: Driver, e: Event, c: nat)
    requires d.Valid() && e == Calls(SetChannel(c))
    ensures Step(d, e) == Stepped(d, e)
  {
    AppendExactly(d.(channel := c, channelPending := true), UpdateChannel);
    hide Kept, Driver.Append;
  }

  lemma PowerExactly(d: Driver, e: Event, p: nat)
    requires d.Valid() && e == Calls(SetPower(p))
    ensures Step(d, e) == Stepped(d, e)
  {
    assert Receives(d, e) == (p != d.lastPower && d.state.ReadyForAnything?) && Rest(d, e) == d.queue;
    assert Queues(d, e) == if p != d.lastPower && !d.state.ReadyForAnything? then [UpdatePower] else [];
    AppendExactly(d.(power := p), UpdatePower);
    hide Kept, Driver.Append, Receives, Queues, Rest;
  }

  lemma StartExactly(d: Driver, e: Event)
    requires d.Valid() && e == Calls(Start)
    ensures Step(d, e) == Stepped(d, e)
  {
  }

  lemma SendExactly(d: Driver, e: Event)
    requires d.Valid() && e.Sends?
    ensures Step(d, e) == Stepped(d, e)
  {
    assert !Receives(d, e) && Rest(d, e) == d.queue;
    assert Queues(d, e) == if CanSend(d) && !e.transmits then [AsyncRestore] else if CanSend(d) && d.power != d.lastPower then [UpdatePower] else [];
    var sending := d.(state := SendingOutgoing);
    AppendExactly(sending, AsyncRestore);
    AppendExactly(sending.(lastSentHeader := e.header, lastChannel := d.channel, sent := d.sent + [e.header]), UpdatePower);
    hide Kept, Driver.Append, Receives, Queues, Rest;
  }

  lemma RunExactly(d: Driver, e: Event)
    requires d.Valid() && e.Runs? && !Pulls(d, e, ProcessIncomingPacket)
    ensures Step(d, e) == Stepped(d, e)
  {
    if d.queue == [] {
      assert Rest(d, e) == [] && Queues(d, e) == [] && !Receives(d, e);
    } else if d.queue[0].UpdateChannel? {
      RunChannelExactly(d, e);
    } else if d.queue[0].UpdatePower? {
      RunPowerExactly(d, e);
    } else {
      assert Rest(d, e) == d.queue[1..] && Queues(d, e) == [] && Receives(d, e) == !d.queue[0].BatteryAlarm?;
    }
  }

  lemma RunChannelExactly(d: Driver, e: Event)
    requires d.Valid() && Pulls(d, e, UpdateChannel)
    ensures Step(d, e) == Stepped(d, e)
  {
    assert Receives(d, e) == (d.channel != d.lastChannel && d.state.ReadyForAnything?) && Rest(d, e) == d.queue[1..];
    assert Queues(d, e) == if d.channel != d.lastChannel && !d.state.ReadyForAnything? then [UpdateChannel] else [];
    AppendExactly(d.(queue := d.queue[1..], channelPending := true), UpdateChannel);
    hide Kept, Driver.Append, Receives, Queues, Rest;
  }

  lemma RunPowerExactly(d: Driver, e: Event)
    requires d.Valid() && Pulls(d, e, UpdatePower)
    ensures Step(d, e) == Stepped(d, e)
  {
    assert Receives(d, e) == (d.power != d.lastPower && d.state.ReadyForAnything?) && Rest(d, e) == d.queue[1..];
    assert Queues(d, e) == if d.power != d.lastPower && !d.state.ReadyForAnything? then [UpdatePower] else [];
    AppendExactly(d.(queue := d.queue[1..]), UpdatePower);
    hide Kept, Driver.Append, Receives, Queues, Rest;
  }

  lemma ReceiveBeginExactly(d: Driver)
    requires d.Valid()
    ensures Step(d, ReceiveBegin) == Stepped(d, ReceiveBegin)
  {
    AppendExactly(d, AsyncRestore);
    AppendExactly(d.(interrupts := false, state := AwaitingProcessing), ProcessIncomingPacket);
    hide Kept, Driver.Append;
  }

  lemma SentOkExactly(d: Driver)
    requires d.Valid()
    ensures Step(d, SentOk) == Stepped(d, SentOk)
  {
    AppendExactly(d, AsyncRestore);
    AppendExactly(d, ProcessSentOk(d.lastSentHeader));
    hide Kept, Driver.Append;
  }

  lemma InterruptExactly(d: Driver, e: Event)
    requires d.Valid() && e in {Incoming, ReceivedFail, Alarm}
    ensures Step(d, e) == Stepped(d, e)
  {
    AppendExactly(d, AsyncRestore);
    AppendExactly(d, BatteryAlarm);
    hide Kept, Driver.Append;
  }

  /** Every event but the serving of a received packet. */
  lemma StepsExactly(d: Driver, e: Event)
    requires d.Valid() && !Pulls(d, e, ProcessIncomingPacket)
    ensures Step(d, e) == Stepped(d, e)
  {
    hide *;
    match e
    case Calls(SetChannel(c)) => ChannelExactly(d, e, c);
    case Calls(SetPower(p)) => PowerExactly(d, e, p);
    case Calls(Start) => StartExactly(d, e);
    case Sends(_, _) => SendExactly(d, e);
    case Runs(_) => RunExactly(d, e);
    case ReceiveBegin => ReceiveBeginExactly(d);
    case SentOk => SentOkExactly(d);
    case _ => InterruptExactly(d, e);
  }

  // ---------------------------------------------------------------------------------------------
  // The serving of a packet

  /** The calls made before the driver was last started, and those made since. */
  function BeforeStart(calls: seq<Call>): seq<Call> {
    if calls == [] || calls[0].Start? then [] else [calls[0]] + BeforeStart(calls[1..])
  }

  /** The power of the radio after the calls: changes wait, unless the driver has been started meanwhile. */
  function RadioPower(calls: seq<Call>, started: bool, last: nat): nat
    decreases |calls|
  {
    if calls == [] then last
    else
      match calls[0]
      case Start => RadioPower(calls[1..], true, 0)
      case SetPower(p) => RadioPower(calls[1..], started, if started then p else last)
      case SetChannel(_) => RadioPower(calls[1..], started, last)
  }

  /** What the calls queue: one action for every change that has to wait. */
  function Waiting(calls: seq<Call>, channel: nat, power: nat): seq<AsyncAction>
    decreases |calls|
  {
    if calls == [] then [] else Waits(calls[0], channel, power) + Waiting(calls[1..], channel, power)
  }

  function Waits(call: Call, channel: nat, power: nat): seq<AsyncAction> {
    match call
    case SetChannel(c) => if c != channel then [UpdateChannel] else []
    case SetPower(p) => if p != power then [UpdatePower] else []
    case Start => []
  }

  function PushAll(queue: seq<AsyncAction>, added: seq<AsyncAction>): seq<AsyncAction>
    decreases |added|
  {
    if added == [] then queue else PushAll(Kept(queue + [added[0]]), added[1..])
  }

  lemma {:induction false} ReadyCalls(d: Driver, calls: seq<Call>)
    requires d.Valid() && d.state.ReadyForAnything?
    ensures var e := d.DoAll(calls);
            && e.state.ReadyForAnything? && e.queue == d.queue && e.lastPower == RadioPower(calls, true, d.lastPower)
            && e.lastSentHeader == d.lastSentHeader && e.interrupts == d.interrupts && e.dropped == d.dropped
    decreases |calls|
  {
    if calls == [] {
    } else {
      ReadyCalls(d.Do(calls[0]), calls[1..]);
    }
  }

  lemma {:induction false} BusyCalls(d: Driver, calls: seq<Call>)
    requires d.Valid() && d.state.ProcessingIncoming?
    ensures var e := d.DoAll(calls);
            && (e.state == if Start in calls then ReadyForAnything else ProcessingIncoming)
            && e.queue == PushAll(d.queue, Waiting(BeforeStart(calls), d.lastChannel, d.lastPower))
            && e.lastPower == RadioPower(calls, false, d.lastPower)
            && e.lastSentHeader == d.lastSentHeader && e.interrupts == d.interrupts
    decreases |calls|
  {
    if calls == [] {
    } else {
      var e := d.Do(calls[0]);
      assert calls == [calls[0]] + calls[1..];
      if calls[0].Start? {
        ReadyCalls(e, calls[1..]);
      } else {
        FirstWaits(d, calls);
        BusyCalls(e, calls[1..]);
      }
    }
  }

  lemma FirstWaits(d: Driver, calls: seq<Call>)
    requires d.Valid() && d.state.ProcessingIncoming? && calls != [] && !calls[0].Start?
    ensures var e := d.Do(calls[0]);
            && e.Valid() && e.state.ProcessingIncoming? && e.lastChannel == d.lastChannel && e.lastPower == d.lastPower
            && e.lastSentHeader == d.lastSentHeader && e.interrupts == d.interrupts
            && PushAll(d.queue, Waiting(BeforeStart(calls), d.lastChannel, d.lastPower))
                 == PushAll(e.queue, Waiting(BeforeStart(calls[1..]), d.lastChannel, d.lastPower))
  {
    var first, more := Waits(calls[0], d.lastChannel, d.lastPower), Waiting(BeforeStart(calls[1..]), d.lastChannel, d.lastPower);
    assert BeforeStart(calls)[1..] == BeforeStart(calls[1..]);
    assert Waiting(BeforeStart(calls), d.lastChannel, d.lastPower) == first + more;
    hide BeforeStart, Waiting;
    CallWaits(d, calls[0]);
    if first == [] {
      assert first + more == more;
    } else {
      assert (first + more)[1..] == more;
    }
  }

  lemma CallWaits(d: Driver, call: Call)
    requires d.Valid() && d.state.ProcessingIncoming? && !call.Start?
    ensures var e := d.Do(call);
            && e.Valid() && e.state.ProcessingIncoming? && e.lastChannel == d.lastChannel && e.lastPower == d.lastPower
            && e.lastSentHeader == d.lastSentHeader && e.interrupts == d.interrupts
            && e.queue == (if Waits(call, d.lastChannel, d.lastPower) == [] then d.queue
                           else Kept(d.queue + [Waits(call, d.lastChannel, d.lastPower)[0]]))
  {
    KeptIsForced(d.queue, UpdateChannel);
    KeptIsForced(d.queue, UpdatePower);
  }

  /** Serving a packet that is handed to the services: where the driver ends, what it has queued, and what the radio has. */
  lemma ServesExactly(d: Driver, p: Incoming)
    requires d.Valid() && d.state.AwaitingProcessing? && (p.Plain? || p.WithAck?)
    ensures var e := d.ProcessIncoming(p);
            var tries := p.WithAck? && p.accepted && !LeavesPending(d, p.calls);
            var waiting := Waiting(BeforeStart(p.calls), d.lastChannel, d.lastPower);
            var radio := RadioPower(p.calls, false, d.lastPower);
            && e.interrupts && !e.channelPending
            && e.state == (if tries && p.transmits then WaitingForTransmissionEnd else ReadyForAnything)
            && e.lastPower == radio
            && e.lastSentHeader == (if tries && p.transmits then ACK_HEADER else d.lastSentHeader)
            && e.lastChannel == e.channel == ChannelAfter(p.calls, d.channel)
            && e.queue == PushAll(d.queue, waiting + if tries && !p.transmits then [AsyncRestore]
                                                     else if tries && radio != PowerAfter(p.calls, d.power) then [UpdatePower]
                                                     else [])
  {
    var b := d.(state := ProcessingIncoming);
    BusyCalls(b, p.calls);
    CallsTakeEffect(b, p.calls);
    var waiting := Waiting(BeforeStart(p.calls), d.lastChannel, d.lastPower);
    PushOne(d.queue, waiting, AsyncRestore);
    PushOne(d.queue, waiting, UpdatePower);
    assert waiting + [] == waiting;
  }

  lemma {:induction false} PushOne(queue: seq<AsyncAction>, added: seq<AsyncAction>, a: AsyncAction)
    requires |queue| <= 4
    ensures |PushAll(queue, added)| <= 4 && PushAll(queue, added + [a]) == AddForce(PushAll(queue, added), QUEUE_SIZE, a)
    decreases |added|
  {
    if added == [] {
      assert [] + [a] == [a] && [a][1..] == [];
      KeptIsForced(queue, a);
    } else {
      assert (added + [a])[1..] == added[1..] + [a];
      PushOne(Kept(queue + [added[0]]), added[1..], a);
    }
  }

  /** An ack, or a packet that is not handed over, changes nothing but to put the radio back to receiving. */
  lemma OtherwiseReceives(d: Driver, p: Incoming)
    requires d.Valid() && (!d.state.AwaitingProcessing? || (!p.Plain? && !p.WithAck?))
    ensures d.ProcessIncoming(p) ==
            d.(state := ReadyForAnything, channelPending := false, lastChannel := d.channel, tuned := d.channel, interrupts := true)
  {
  }
}
