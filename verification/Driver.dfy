/** The packet driver's state machine: radio interrupts, a queue of four deferred actions that overwrites its oldest
    entry, sends, and channel and power changes (src/PacketDriver). Methods are atomic; what the services do with a
    received packet is a list of the driver calls they make meanwhile. */
module Drivers {
  import opened Latency

  const QUEUE_SIZE: nat := 4
  const NO_HEADER: nat := 0xFF
  const NO_CHANNEL: nat := 0xFF
  const ACK_HEADER: nat := 0

  datatype ActiveState = DriverDisabled | ReadyForAnything | BlockedForIncoming | AwaitingProcessing
                       | ProcessingIncoming | SendingOutgoing | SendingAck | WaitingForTransmissionEnd

  datatype AsyncAction = ProcessIncomingPacket | ProcessSentOk(header: nat) | UpdatePower | UpdateChannel | AsyncRestore | BatteryAlarm

  /** Driver calls a service may make while it handles a received packet. */
  datatype Call = SetChannel(channel: nat) | SetPower(power: nat) | Start

  /** What becomes of the packet that the radio holds. transmits: the radio takes the ack. */
  datatype Incoming = BadSize | Rejected | IsAck | Plain(calls: seq<Call>) | WithAck(calls: seq<Call>, accepted: bool, transmits: bool)

  datatype Driver = Driver(
    state: ActiveState,
    queue: seq<AsyncAction>,
    interrupts: bool,
    channelPending: bool,
    channel: nat,            // CurrentChannel
    lastChannel: nat,
    power: nat,              // CurrentTransmitPower
    lastPower: nat,
    lastSentHeader: nat,
    tuned: nat,              // the channel the radio was last set to receive on
    sent: seq<nat>,          // history: headers of the packets handed to the radio
    dropped: set<AsyncAction>)  // history: the actions the queue overwrote
  {
    predicate Valid() {
      |queue| <= QUEUE_SIZE
    }

    function Append(a: AsyncAction): Driver
      requires Valid()
    {
      this.(queue := AddForce(queue, QUEUE_SIZE, a),
            dropped := if |queue| == QUEUE_SIZE then dropped + {queue[0]} else dropped)
    }

    function RestoreToReceiving(): Driver {
      this.(lastChannel := channel, channelPending := false, state := ReadyForAnything, tuned := channel)
    }

    function OnStart(): Driver {
      this.(lastPower := 0).RestoreToReceiving()
    }

    function OnChannelUpdated(): Driver
      requires Valid()
    {
      if lastChannel == channel then this
      else if state.ReadyForAnything? then RestoreToReceiving()
      else this.(channelPending := true).Append(UpdateChannel)
    }

    function OnTransmitPowerUpdated(): Driver
      requires Valid()
    {
      if lastPower == power then this
      else if state.ReadyForAnything? then this.(lastPower := power).RestoreToReceiving()
      else Append(UpdatePower)
    }

    function Do(call: Call): (d: Driver)
      requires Valid()
      ensures d.Valid()
    {
      match call
      case SetChannel(c) => this.(channel := c).OnChannelUpdated()
      case SetPower(p) => this.(power := p).OnTransmitPowerUpdated()
      case Start => OnStart()
    }

    function DoAll(calls: seq<Call>): (d: Driver)
      requires Valid()
      ensures d.Valid()
      decreases |calls|
    {
      if calls == [] then this else Do(calls[0]).DoAll(calls[1..])
    }

    function OnTransmitted(header: nat): Driver
      requires Valid()
    {
      this.(lastSentHeader := header, lastChannel := channel, sent := sent + [header]).OnTransmitPowerUpdated()
    }

    function SendPacket(header: nat, transmits: bool): (Driver, bool)
      requires Valid()
    {
      if channelPending || !(state.ReadyForAnything? || state.SendingAck?) then (this, false)
      else
        var d := this.(state := SendingOutgoing);
        if transmits then (d.OnTransmitted(header).(state := WaitingForTransmissionEnd), true)
        else (d.Append(AsyncRestore), false)
    }

    function RestoreWithInterrupts(): Driver {
      RestoreToReceiving().(interrupts := true)
    }

    function ProcessIncoming(p: Incoming): Driver
      requires Valid()
    {
      if !state.AwaitingProcessing? then RestoreWithInterrupts()
      else
        var d := this.(state := ProcessingIncoming);
        match p
        case BadSize => d.RestoreWithInterrupts()
        case Rejected => d.RestoreWithInterrupts()
        case IsAck => d.RestoreWithInterrupts()
        case Plain(calls) => d.DoAll(calls).RestoreWithInterrupts()
        case WithAck(calls, accepted, transmits) =>
          var e := d.DoAll(calls);
          if !accepted then e.RestoreWithInterrupts()
          else
            var (f, ok) := e.(state := SendingAck).SendPacket(ACK_HEADER, transmits);
            if ok then f.(interrupts := true) else f.RestoreWithInterrupts()
    }

    function CarryOut(action: AsyncAction, p: Incoming): Driver
      requires Valid()
    {
      match action
      case ProcessIncomingPacket => ProcessIncoming(p)
      case ProcessSentOk(h) => RestoreToReceiving()
      case UpdatePower => OnTransmitPowerUpdated()
      case UpdateChannel => OnChannelUpdated()
      case AsyncRestore => this.(lastSentHeader := NO_HEADER).RestoreToReceiving()
      case BatteryAlarm => this
    }

    /** The callback handler's task: the oldest action is pulled and carried out. */
    function RunQueue(p: Incoming): Driver
      requires Valid()
    {
      if queue == [] then this else this.(queue := queue[1..]).CarryOut(queue[0], p)
    }

    // Interrupts.

    function OnIncoming(): Driver {
      if state.ReadyForAnything? then this.(state := BlockedForIncoming) else this
    }

    function OnReceiveBegin(): Driver
      requires Valid()
    {
      if state.BlockedForIncoming? then this.(interrupts := false, state := AwaitingProcessing).Append(ProcessIncomingPacket)
      else Append(AsyncRestore)
    }

    function OnReceivedFail(): Driver
      requires Valid()
    {
      Append(AsyncRestore)
    }

    function OnSentOk(): Driver
      requires Valid()
    {
      if state.WaitingForTransmissionEnd? then Append(ProcessSentOk(lastSentHeader)).(lastSentHeader := NO_HEADER)
      else Append(AsyncRestore)
    }
  }

  datatype Event = Calls(call: Call) | Sends(header: nat, transmits: bool) | Runs(p: Incoming)
                 | Incoming | ReceiveBegin | ReceivedFail | SentOk | Alarm

  /** Radio interrupts occur only while they are enabled. */
  function Step(d: Driver, e: Event): (r: Driver)
    requires d.Valid()
  {
    match e
    case Calls(call) => d.Do(call)
    case Sends(header, transmits) => d.SendPacket(header, transmits).0
    case Runs(p) => d.RunQueue(p)
    case Incoming => if d.interrupts then d.OnIncoming() else d
    case ReceiveBegin => if d.interrupts then d.OnReceiveBegin() else d
    case ReceivedFail => if d.interrupts then d.OnReceivedFail() else d
    case SentOk => if d.interrupts then d.OnSentOk() else d
    case Alarm => if d.interrupts then d.Append(BatteryAlarm) else d
  }

  const POWER_UP: Driver := Driver(DriverDisabled, [], true, false, 0, 0, 0, 0, NO_HEADER, 0, [], {})

  // ---------------------------------------------------------------------------------------------
  // What every step keeps

  function Queued(d: Driver): multiset<AsyncAction> {
    multiset(d.queue)
  }

  predicate Inv(d: Driver) {
    && d.Valid()
    // interrupts are off just while a received packet waits to be processed, or for good once that action was dropped
    && Queued(d)[ProcessIncomingPacket] == (if d.interrupts || ProcessIncomingPacket in d.dropped then 0 else 1)
    && (ProcessIncomingPacket in d.dropped ==> !d.interrupts)
    && (d.state.AwaitingProcessing? ==> !d.interrupts)
    // between steps no packet is half handled, and a send that failed has its restore queued
    && !d.state.ProcessingIncoming? && !d.state.SendingAck?
    && (d.state.SendingOutgoing? ==> AsyncRestore in d.queue || AsyncRestore in d.dropped)
    // a ready driver listens on the current channel
    && (d.state.ReadyForAnything? ==> !d.channelPending && d.lastChannel == d.channel == d.tuned)
  }

  lemma AppendQueues(d: Driver, a: AsyncAction)
    requires d.Valid()
    ensures var e := d.Append(a);
            && e.Valid() && a in e.queue
            && (forall x :: x in d.queue ==> x in e.queue || x in e.dropped)
            && forall x :: Queued(e)[x] == Queued(d)[x] + (if x == a then 1 else 0) - (if |d.queue| == QUEUE_SIZE && d.queue[0] == x then 1 else 0)
  {
    if |d.queue| == QUEUE_SIZE {
      assert d.queue == [d.queue[0]] + d.queue[1..];
      assert Queued(d) == multiset{d.queue[0]} + multiset(d.queue[1..]);
    }
  }

  lemma AppendKeeps(d: Driver, a: AsyncAction)
    requires Inv(d) && a != ProcessIncomingPacket
    ensures Inv(d.Append(a))
  {
    AppendQueues(d, a);
    assert Queued(d)[ProcessIncomingPacket] > 0 <==> ProcessIncomingPacket in d.queue;
  }

  lemma CallKeeps(d: Driver, call: Call)
    requires Inv(d)
    ensures Inv(d.Do(call))
  {
    match call
    case SetChannel(c) =>
      if d.lastChannel != c && !d.state.ReadyForAnything? {
        AppendKeeps(d.(channel := c, channelPending := true), UpdateChannel);
      }
    case SetPower(p) => PowerKeeps(d.(power := p));
    case Start =>
  }

  lemma PowerKeeps(d: Driver)
    requires Inv(d)
    ensures Inv(d.OnTransmitPowerUpdated())
  {
    if d.lastPower != d.power && !d.state.ReadyForAnything? {
      AppendKeeps(d, UpdatePower);
    }
  }

  lemma SendKeeps(d: Driver, header: nat, transmits: bool)
    requires Inv(d)
    ensures Inv(d.SendPacket(header, transmits).0)
  {
    if !d.channelPending && d.state.ReadyForAnything? {
      if transmits {
        PowerKeeps(d.(state := WaitingForTransmissionEnd, lastSentHeader := header, lastChannel := d.channel, sent := d.sent + [header]));
      } else {
        AppendKeeps(d.(state := WaitingForTransmissionEnd), AsyncRestore);
        AppendQueues(d, AsyncRestore);
      }
    }
  }

  lemma ReceiveBeginKeeps(d: Driver)
    requires Inv(d) && d.interrupts
    ensures Inv(d.OnReceiveBegin())
  {
    if d.state.BlockedForIncoming? {
      AppendQueues(d, ProcessIncomingPacket);
      assert Queued(d)[ProcessIncomingPacket] > 0 <==> ProcessIncomingPacket in d.queue;
    } else {
      AppendKeeps(d, AsyncRestore);
    }
  }

  lemma InterruptKeeps(d: Driver, e: Event)
    requires Inv(d) && e in {Incoming, ReceiveBegin, ReceivedFail, SentOk, Alarm}
    ensures Inv(Step(d, e))
  {
    if d.interrupts {
      match e
      case Incoming =>
      case ReceiveBegin => ReceiveBeginKeeps(d);
      case ReceivedFail => AppendKeeps(d, AsyncRestore);
      case SentOk =>
        if d.state.WaitingForTransmissionEnd? { AppendKeeps(d, ProcessSentOk(d.lastSentHeader)); } else { AppendKeeps(d, AsyncRestore); }
      case Alarm => AppendKeeps(d, BatteryAlarm);
    }
  }

  /** A received packet is being handled: its action has left the queue and was never dropped. */
  predicate Handling(d: Driver) {
    d.Valid() && ProcessIncomingPacket !in d.queue && ProcessIncomingPacket !in d.dropped
  }

  lemma CallHandling(d: Driver, call: Call)
    requires Handling(d)
    ensures Handling(d.Do(call))
  {
  }

  lemma {:induction false} CallsHandling(d: Driver, calls: seq<Call>)
    requires Handling(d)
    ensures Handling(d.DoAll(calls))
    decreases |calls|
  {
    if calls == [] {
    } else {
      CallHandling(d, calls[0]);
      CallsHandling(d.Do(calls[0]), calls[1..]);
    }
  }

  lemma RestoredIsInv(d: Driver)
    requires Handling(d)
    ensures Inv(d.RestoreWithInterrupts())
  {
  }

  lemma AckSent(d: Driver, transmits: bool)
    requires Handling(d)
    ensures var (f, ok) := d.(state := SendingAck).SendPacket(ACK_HEADER, transmits);
            && Handling(f) && f.Valid()
            && (ok ==> f.state.WaitingForTransmissionEnd? && Inv(f.(interrupts := true)))
  {
  }

  /** Every path through ProcessIncoming ends with interrupts on, ready or waiting for the end of the ack. */
  lemma ProcessIncomingEnds(d: Driver, p: Incoming)
    requires Handling(d)
    ensures var r := d.ProcessIncoming(p);
            && Inv(r) && r.interrupts
            && (r.state.ReadyForAnything? || r.state.WaitingForTransmissionEnd?)
  {
    var e := d.(state := ProcessingIncoming);
    RestoredIsInv(d);
    RestoredIsInv(e);
    if p.Plain? || p.WithAck? {
      CallsHandling(e, p.calls);
      RestoredIsInv(e.DoAll(p.calls));
      if p.WithAck? {
        AckSent(e.DoAll(p.calls), p.transmits);
        RestoredIsInv(e.DoAll(p.calls).(state := SendingAck).SendPacket(ACK_HEADER, p.transmits).0);
      }
    }
  }

  // What serving a received packet does.

  /** The services leave a channel change pending: they have not restarted the driver, and one was pending already or they
      ask for a channel other than the one last used. */
  ghost predicate LeavesPending(d: Driver, calls: seq<Call>) {
    Start !in calls && (d.channelPending || exists c :: SetChannel(c) in calls && c != d.lastChannel)
  }

  function ChannelAfter(calls: seq<Call>, channel: nat): nat {
    if calls == [] then channel
    else
      var last := calls[|calls| - 1];
      if last.SetChannel? then last.channel else ChannelAfter(calls[..|calls| - 1], channel)
  }

  function PowerAfter(calls: seq<Call>, power: nat): nat {
    if calls == [] then power
    else
      var last := calls[|calls| - 1];
      if last.SetPower? then last.power else PowerAfter(calls[..|calls| - 1], power)
  }

  lemma {:induction false} AfterFirst(calls: seq<Call>, channel: nat, power: nat)
    requires calls != []
    ensures var c := calls[0];
            && ChannelAfter(calls, channel) == ChannelAfter(calls[1..], if c.SetChannel? then c.channel else channel)
            && PowerAfter(calls, power) == PowerAfter(calls[1..], if c.SetPower? then c.power else power)
  {
    if |calls| == 1 {
      assert calls[..0] == [];
    } else {
      var n := |calls| - 1;
      assert calls[..n][1..] == calls[1..][..n - 1];
      AfterFirst(calls[..n], channel, power);
    }
  }

  /** The calls that services make while they handle a packet take effect, in order, and put nothing on the air. */
  lemma {:induction false} CallsTakeEffect(d: Driver, calls: seq<Call>)
    requires d.Valid() && (d.state.ReadyForAnything? ==> !d.channelPending) && !d.state.BlockedForIncoming?
    ensures var e := d.DoAll(calls);
            && e.sent == d.sent && e.channel == ChannelAfter(calls, d.channel) && e.power == PowerAfter(calls, d.power)
            && (e.channelPending <==> !d.state.ReadyForAnything? && LeavesPending(d, calls))
    decreases |calls|
  {
    if calls == [] {
    } else {
      var e := d.Do(calls[0]);
      AfterFirst(calls, d.channel, d.power);
      CallsTakeEffect(e, calls[1..]);
      assert calls == [calls[0]] + calls[1..];
    }
  }

  /** The packet is acknowledged: it asks for an ack, the services accept it and leave no channel change pending, and the
      radio takes the ack. */
  ghost predicate Acked(d: Driver, p: Incoming) {
    d.state.AwaitingProcessing? && p.WithAck? && p.accepted && p.transmits && !LeavesPending(d, p.calls)
  }

  /** Serving a received packet puts its ack on the air just then, and nothing else ever. */
  lemma AcksIffAccepted(d: Driver, p: Incoming)
    requires d.Valid()
    ensures d.ProcessIncoming(p).sent == d.sent + if Acked(d, p) then [ACK_HEADER] else []
  {
    if p.Plain? || p.WithAck? {
      CallsTakeEffect(d.(state := ProcessingIncoming), p.calls);
    }
  }

  /** The channel and power that the services ask for are those the driver has afterwards. */
  lemma ServicesAreHeard(d: Driver, p: Incoming)
    requires d.Valid()
    ensures var e := d.ProcessIncoming(p);
            if d.state.AwaitingProcessing? && (p.Plain? || p.WithAck?) then
              e.channel == ChannelAfter(p.calls, d.channel) && e.power == PowerAfter(p.calls, d.power)
            else e.channel == d.channel && e.power == d.power
  {
    if p.Plain? || p.WithAck? {
      CallsTakeEffect(d.(state := ProcessingIncoming), p.calls);
    }
  }

  lemma RunsKeeps(d: Driver, p: Incoming)
    requires Inv(d)
    ensures Inv(d.RunQueue(p))
  {
    if d.queue != [] {
      var e := d.(queue := d.queue[1..]);
      assert d.queue == [d.queue[0]] + e.queue;
      assert Queued(d) == multiset{d.queue[0]} + Queued(e);
      if d.queue[0] == ProcessIncomingPacket { ProcessIncomingEnds(e, p); } else { ActionKeeps(e, d.queue[0], p); }
    }
  }

  /** Any other action; the restore it may have been is made up for. */
  lemma ActionKeeps(d: Driver, action: AsyncAction, p: Incoming)
    requires action != ProcessIncomingPacket
    requires Inv(d) || (action.AsyncRestore? && Inv(d.(state := WaitingForTransmissionEnd)))
    ensures Inv(d.CarryOut(action, p))
  {
    match action
    case UpdatePower => PowerKeeps(d);
    case UpdateChannel => CallKeeps(d, SetChannel(d.channel));
    case _ =>
  }

  lemma StepKeepsInv(d: Driver, e: Event)
    requires Inv(d)
    ensures Inv(Step(d, e))
  {
    match e
    case Calls(call) => CallKeeps(d, call);
    case Sends(header, transmits) => SendKeeps(d, header, transmits);
    case Runs(p) => RunsKeeps(d, p);
    case _ => InterruptKeeps(d, e);
  }

  // ---------------------------------------------------------------------------------------------
  // Whole runs

  predicate StepAt(run: seq<Driver>, events: seq<Event>, i: nat)
    requires i < |events| && |run| == |events| + 1
  {
    run[i].Valid() && run[i + 1] == Step(run[i], events[i])
  }

  /** The states from power-up on, with the events that lead from each to the next. */
  predicate IsRun(run: seq<Driver>, events: seq<Event>) {
    |run| == |events| + 1 && run[0] == POWER_UP && forall i: nat :: i < |events| ==> StepAt(run, events, i)
  }

  lemma {:induction false} RunKeepsInv(run: seq<Driver>, events: seq<Event>, k: nat)
    requires IsRun(run, events) && k < |run|
    ensures Inv(run[k])
  {
    hide Step;
    if k == 0 {
    } else {
      RunKeepsInv(run, events, k - 1);
      assert StepAt(run, events, k - 1);
      hide Inv;
      StepKeepsInv(run[k - 1], events[k - 1]);
    }
  }

  /** Interrupts off and nothing queued that would turn them on again. */
  predicate Wedged(d: Driver) {
    !d.interrupts && ProcessIncomingPacket !in d.queue
  }

  lemma WedgedMeansDropped(d: Driver)
    requires Inv(d)
    ensures Wedged(d) <==> ProcessIncomingPacket in d.dropped
    ensures ProcessIncomingPacket !in d.dropped ==> (!d.interrupts <==> ProcessIncomingPacket in d.queue)
  {
    assert Queued(d)[ProcessIncomingPacket] > 0 <==> ProcessIncomingPacket in d.queue;
  }

  /** The event makes the driver queue an action: a channel or power change while it is not ready, or a send that the
      radio refuses or that finds a power change waiting. */
  predicate Appends(d: Driver, e: Event) {
    match e
    case Calls(SetChannel(c)) => !d.state.ReadyForAnything? && c != d.lastChannel
    case Calls(SetPower(p)) => !d.state.ReadyForAnything? && p != d.lastPower
    case Sends(_, transmits) =>
      !d.channelPending && (d.state.ReadyForAnything? || d.state.SendingAck?) && (transmits ==> d.power != d.lastPower)
    case _ => false
  }

  /** The event overwrites the action for a received packet: the queue is full and that action is its oldest entry. */
  predicate Overwrites(d: Driver, e: Event) {
    |d.queue| == QUEUE_SIZE && d.queue[0] == ProcessIncomingPacket && Appends(d, e)
  }

  /** One more action in a full queue costs the oldest one. */
  lemma AppendOverwrites(d: Driver, a: AsyncAction)
    requires Inv(d) && !Wedged(d) && a != ProcessIncomingPacket
    ensures ProcessIncomingPacket in d.Append(a).queue <==>
              ProcessIncomingPacket in d.queue && !(|d.queue| == QUEUE_SIZE && d.queue[0] == ProcessIncomingPacket)
  {
    AppendQueues(d, a);
    assert Queued(d)[ProcessIncomingPacket] > 0 <==> ProcessIncomingPacket in d.queue;
    assert Queued(d.Append(a))[ProcessIncomingPacket] > 0 <==> ProcessIncomingPacket in d.Append(a).queue;
  }

  lemma CallWedges(d: Driver, call: Call)
    requires Inv(d) && !Wedged(d)
    ensures Wedged(d.Do(call)) <==> Overwrites(d, Calls(call))
  {
    AppendOverwrites(d, UpdateChannel);
    AppendOverwrites(d, UpdatePower);
    match call
    case SetChannel(c) => assert d.(channel := c, channelPending := true).Append(UpdateChannel).queue == d.Append(UpdateChannel).queue;
    case SetPower(p) => assert d.(power := p).Append(UpdatePower).queue == d.Append(UpdatePower).queue;
    case Start =>
  }

  lemma SendWedges(d: Driver, header: nat, transmits: bool)
    requires Inv(d) && !Wedged(d)
    ensures Wedged(d.SendPacket(header, transmits).0) <==> Overwrites(d, Sends(header, transmits))
  {
    AppendOverwrites(d, AsyncRestore);
    AppendOverwrites(d, UpdatePower);
  }

  lemma RunsWedge(d: Driver, p: Incoming)
    requires Inv(d) && !Wedged(d)
    ensures !Wedged(d.RunQueue(p))
  {
    if ProcessIncomingPacket in d.queue {
      RunServes(d, p);
    } else {
      assert d.interrupts;
    }
  }

  /** A driver that is not wedged becomes so with just the events that overwrite the action for a received packet: what
      can be seen of the queue and the guards of the call before it is made decides. */
  lemma WedgesIffOverwrites(d: Driver, e: Event)
    requires Inv(d) && !Wedged(d)
    ensures Wedged(Step(d, e)) <==> Overwrites(d, e)
  {
    WedgedMeansDropped(d);
    match e
    case Calls(call) => CallWedges(d, call);
    case Sends(header, transmits) => SendWedges(d, header, transmits);
    case Runs(p) => RunsWedge(d, p);
    case _ =>
      StepKeepsInv(d, e);
      WedgedMeansDropped(Step(d, e));
  }

  /** In every run, the driver is wedged just when some event before has met a full queue with the action for a received
      packet at its head, and queued an action. */
  lemma {:induction false} WedgedIffOverwritten(run: seq<Driver>, events: seq<Event>, k: nat)
    requires IsRun(run, events) && k < |run|
    ensures Wedged(run[k]) <==> exists j: nat :: j < k && Overwrites(run[j], events[j])
  {
    hide Step, Inv, Overwrites;
    if k == 0 {
    } else {
      WedgedIffOverwritten(run, events, k - 1);
      RunKeepsInv(run, events, k - 1);
      assert StepAt(run, events, k - 1);
      if Wedged(run[k - 1]) {
        WedgedForGood(run, events, k - 1, k);
        var j: nat :| j < k - 1 && Overwrites(run[j], events[j]);
      } else {
        WedgesIffOverwrites(run[k - 1], events[k - 1]);
        if Overwrites(run[k - 1], events[k - 1]) { assert k - 1 < k; }
      }
    }
  }

  /** Short of that, interrupts off or a packet awaiting processing mean that its action is queued. A failed send has its
      restore queued unless that was overwritten. */
  lemma UnwedgedIsServed(run: seq<Driver>, events: seq<Event>, k: nat)
    requires IsRun(run, events) && k < |run|
    ensures var d := run[k];
            && (!Wedged(d) ==> (!d.interrupts <==> ProcessIncomingPacket in d.queue))
            && (!Wedged(d) && d.state.AwaitingProcessing? ==> ProcessIncomingPacket in d.queue)
            && (d.state.SendingOutgoing? && AsyncRestore !in d.dropped ==> AsyncRestore in d.queue)
  {
    RunKeepsInv(run, events, k);
    WedgedMeansDropped(run[k]);
  }

  /** A send has failed, and nothing queued will restore the receiver. */
  predicate Stranded(d: Driver) {
    d.state.SendingOutgoing? && AsyncRestore !in d.queue
  }

  /** The event overwrites the only restore: it is the oldest entry of a full queue, and a channel or power change or the
      battery alarm queues another action. */
  predicate Strands(d: Driver, e: Event) {
    && d.state.SendingOutgoing? && |d.queue| == QUEUE_SIZE && d.queue[0] == AsyncRestore && AsyncRestore !in d.queue[1..]
    && match e
       case Calls(_) => Appends(d, e)
       case Alarm => d.interrupts
       case _ => false
  }

  /** What gets a stranded driver out: a start, an interrupt that queues a restore, or the turn of a received packet or
      of a sent notification. */
  predicate Frees(d: Driver, e: Event) {
    match e
    case Calls(call) => call.Start?
    case Runs(_) => d.queue != [] && (d.queue[0].ProcessIncomingPacket? || d.queue[0].ProcessSentOk?)
    case ReceiveBegin => d.interrupts
    case ReceivedFail => d.interrupts
    case SentOk => d.interrupts
    case _ => false
  }

  lemma RestoreInQueue(d: Driver, a: AsyncAction)
    requires d.Valid()
    ensures AsyncRestore in d.Append(a).queue <==>
              || a == AsyncRestore
              || (AsyncRestore in d.queue && !(|d.queue| == QUEUE_SIZE && d.queue[0] == AsyncRestore && AsyncRestore !in d.queue[1..]))
  {
    if |d.queue| == QUEUE_SIZE {
      assert d.queue == [d.queue[0]] + d.queue[1..];
    }
  }

  lemma CallStrands(d: Driver, call: Call)
    requires Inv(d)
    ensures Stranded(d.Do(call)) <==> Strands(d, Calls(call)) || (Stranded(d) && !Frees(d, Calls(call)))
  {
    RestoreInQueue(d, UpdateChannel);
    RestoreInQueue(d, UpdatePower);
    match call
    case SetChannel(c) => assert d.(channel := c, channelPending := true).Append(UpdateChannel).queue == d.Append(UpdateChannel).queue;
    case SetPower(p) => assert d.(power := p).Append(UpdatePower).queue == d.Append(UpdatePower).queue;
    case Start =>
  }

  lemma RunStrands(d: Driver, p: Incoming)
    requires Inv(d)
    ensures Stranded(d.RunQueue(p)) <==> Stranded(d) && !Frees(d, Runs(p))
  {
    if d.queue != [] {
      assert d.queue == [d.queue[0]] + d.queue[1..];
      if d.queue[0] == ProcessIncomingPacket {
        WedgedMeansDropped(d);
        RunServesAtOnce(d, p);
      }
    }
  }

  lemma RunServesAtOnce(d: Driver, p: Incoming)
    requires Inv(d) && d.queue != [] && d.queue[0] == ProcessIncomingPacket
    ensures Served(d.RunQueue(p))
  {
    assert Place(d.queue) == 0;
    RunServes(d, p);
  }

  lemma InterruptStrands(d: Driver, e: Event)
    requires Inv(d) && e in {Incoming, ReceiveBegin, ReceivedFail, SentOk, Alarm}
    ensures Stranded(Step(d, e)) <==> Strands(d, e) || (Stranded(d) && !Frees(d, e))
  {
    RestoreInQueue(d, AsyncRestore);
    RestoreInQueue(d, BatteryAlarm);
  }

  lemma SendStrands(d: Driver, header: nat, transmits: bool)
    requires Inv(d)
    ensures Stranded(d.SendPacket(header, transmits).0) <==> Stranded(d)
  {
    RestoreInQueue(d, AsyncRestore);
  }

  /** Exactly when a driver is stranded after an event, from what can be seen before it. */
  lemma StrandedAfter(d: Driver, e: Event)
    requires Inv(d)
    ensures Stranded(Step(d, e)) <==> Strands(d, e) || (Stranded(d) && !Frees(d, e))
  {
    match e
    case Calls(call) => CallStrands(d, call);
    case Sends(header, transmits) => SendStrands(d, header, transmits);
    case Runs(p) => RunStrands(d, p);
    case _ => InterruptStrands(d, e);
  }

  /** In every run, the driver is stranded just when some event has overwritten its only restore, and nothing has freed it
      since. */
  lemma {:induction false} StrandedIffOverwritten(run: seq<Driver>, events: seq<Event>, k: nat)
    requires IsRun(run, events) && k < |run|
    ensures Stranded(run[k]) <==>
              exists j: nat :: j < k && Strands(run[j], events[j]) && forall m :: j < m < k ==> !Frees(run[m], events[m])
  {
    hide Step, Inv, Strands, Frees, Stranded;
    if k == 0 {
      assert !Stranded(POWER_UP) by { PowerUpIsFree(); }
    } else {
      StrandedIffOverwritten(run, events, k - 1);
      RunKeepsInv(run, events, k - 1);
      assert StepAt(run, events, k - 1);
      StrandedAfter(run[k - 1], events[k - 1]);
      if Strands(run[k - 1], events[k - 1]) { assert k - 1 < k; }
    }
  }

  lemma PowerUpIsFree()
    ensures !Stranded(POWER_UP)
  {
  }

  /** A wedged driver stays wedged, whatever happens next. */
  lemma {:induction false} WedgedForGood(run: seq<Driver>, events: seq<Event>, j: nat, k: nat)
    requires IsRun(run, events) && j <= k < |run| && Wedged(run[j])
    ensures Wedged(run[k])
  {
    hide Inv, Step;
    if j == k {
    } else {
      WedgedForGood(run, events, j, k - 1);
      RunKeepsInv(run, events, k - 1);
      RunKeepsInv(run, events, k);
      WedgedMeansDropped(run[k - 1]);
      WedgedMeansDropped(run[k]);
      assert StepAt(run, events, k - 1);
      DroppedStays(run[k - 1], events[k - 1]);
    }
  }

  lemma DroppedStays(d: Driver, e: Event)
    requires Inv(d) && ProcessIncomingPacket in d.dropped
    ensures ProcessIncomingPacket in Step(d, e).dropped
  {
  }

  /** In every run, a ready driver has no channel change pending and listens on the current channel, and nothing is
      handed to the radio while a change is pending. */
  lemma ListensOnCurrentChannel(run: seq<Driver>, events: seq<Event>, k: nat, header: nat, transmits: bool)
    requires IsRun(run, events) && k < |run|
    ensures run[k].Valid()
    ensures run[k].state.ReadyForAnything? ==> !run[k].channelPending && run[k].tuned == run[k].channel
    ensures run[k].channelPending ==> run[k].SendPacket(header, transmits) == (run[k], false)
  {
    RunKeepsInv(run, events, k);
  }

  /** The place of the action for a received packet in the queue. */
  function Place(queue: seq<AsyncAction>): (i: nat)
    requires ProcessIncomingPacket in queue
    ensures i < |queue| && queue[i] == ProcessIncomingPacket
    ensures ProcessIncomingPacket !in queue[..i]
  {
    if queue[0] == ProcessIncomingPacket then 0 else Place(queue[1..]) + 1
  }

  lemma OtherActionFirst(d: Driver, p: Incoming)
    requires Inv(d) && ProcessIncomingPacket in d.queue && d.queue[0] != ProcessIncomingPacket
    ensures var e := d.RunQueue(p);
            && !e.interrupts && ProcessIncomingPacket in e.queue && Place(e.queue) == Place(d.queue) - 1
  {
    var rest := d.queue[1..];
    assert d.queue == [d.queue[0]] + rest;
    assert ProcessIncomingPacket in rest;
    var e := d.RunQueue(p);
    assert rest <= e.queue;
    assert Queued(d)[ProcessIncomingPacket] > 0;
    PlaceInPrefix(rest, e.queue);
  }

  lemma {:induction false} PlaceInPrefix(a: seq<AsyncAction>, b: seq<AsyncAction>)
    requires a <= b && ProcessIncomingPacket in a
    ensures ProcessIncomingPacket in b && Place(b) == Place(a)
    decreases |a|
  {
    if a[0] == ProcessIncomingPacket {
    } else {
      PlaceInPrefix(a[1..], b[1..]);
    }
  }

  /** Interrupts are on and the driver is ready or waits for the end of an ack. */
  predicate Served(d: Driver) {
    d.interrupts && (d.state.ReadyForAnything? || d.state.WaitingForTransmissionEnd?)
  }

  /** Queueing an action does not move the action for a received packet back. */
  lemma AppendKeepsPlace(d: Driver, a: AsyncAction)
    requires Inv(d) && ProcessIncomingPacket in d.queue && ProcessIncomingPacket in d.Append(a).queue && a != ProcessIncomingPacket
    ensures Place(d.Append(a).queue) <= Place(d.queue)
  {
    if |d.queue| < QUEUE_SIZE {
      PlaceInPrefix(d.queue, d.Append(a).queue);
    } else {
      assert Queued(d)[ProcessIncomingPacket] > 0;
      assert d.queue == [d.queue[0]] + d.queue[1..];
      PlaceInPrefix(d.queue[1..], d.Append(a).queue);
    }
  }

  lemma StepKeepsPlace(d: Driver, e: Event)
    requires Inv(d) && ProcessIncomingPacket in d.queue && !e.Runs? && !Wedged(Step(d, e))
    ensures ProcessIncomingPacket in Step(d, e).queue && Place(Step(d, e).queue) <= Place(d.queue)
  {
    assert Queued(d)[ProcessIncomingPacket] > 0;
    match e
    case Calls(SetChannel(c)) =>
      if Appends(d, e) { AppendKeepsPlace(d.(channel := c, channelPending := true), UpdateChannel); }
    case Calls(SetPower(p)) =>
      if Appends(d, e) { AppendKeepsPlace(d.(power := p), UpdatePower); }
    case Sends(header, transmits) => SendKeepsPlace(d, header, transmits);
    case _ =>
  }

  lemma SendKeepsPlace(d: Driver, header: nat, transmits: bool)
    requires Inv(d) && ProcessIncomingPacket in d.queue && !Wedged(d.SendPacket(header, transmits).0) && !d.interrupts
    ensures var f := d.SendPacket(header, transmits).0;
            ProcessIncomingPacket in f.queue && Place(f.queue) <= Place(d.queue)
  {
    var f := d.SendPacket(header, transmits).0;
    if f.queue != d.queue {
      var a := if transmits then UpdatePower else AsyncRestore;
      assert f.queue == d.Append(a).queue;
      AppendKeepsPlace(d, a);
    }
  }

  /** A run of the queue serves the received packet or brings its action one place forward. */
  lemma RunServes(d: Driver, p: Incoming)
    requires Inv(d) && ProcessIncomingPacket in d.queue
    ensures var e := d.RunQueue(p);
            if Place(d.queue) == 0 then Served(e)
            else ProcessIncomingPacket in e.queue && Place(e.queue) == Place(d.queue) - 1
  {
    if d.queue[0] == ProcessIncomingPacket {
      var e := d.(queue := d.queue[1..]);
      assert d.queue == [ProcessIncomingPacket] + e.queue;
      assert Queued(d) == multiset{ProcessIncomingPacket} + Queued(e);
      ProcessIncomingEnds(e, p);
    } else {
      OtherActionFirst(d, p);
    }
  }

  /** How often the queue's task has run between states j and k. */
  function Turns(events: seq<Event>, j: nat, k: nat): nat
    requires j <= k <= |events|
  {
    if j == k then 0 else Turns(events, j, k - 1) + if events[k - 1].Runs? then 1 else 0
  }

  ghost predicate ServedSince(run: seq<Driver>, j: nat, k: nat)
    requires k < |run|
  {
    exists m: nat :: j < m <= k && Served(run[m])
  }

  lemma {:induction false} ComesForward(run: seq<Driver>, events: seq<Event>, j: nat, k: nat)
    requires IsRun(run, events) && j <= k < |run| && ProcessIncomingPacket in run[j].queue && !Wedged(run[k])
    ensures ServedSince(run, j, k)
            || (ProcessIncomingPacket in run[k].queue && Place(run[k].queue) + Turns(events, j, k) <= Place(run[j].queue))
  {
    hide Inv, Step, Served, Wedged;
    if j == k {
    } else {
      if Wedged(run[k - 1]) { WedgedForGood(run, events, k - 1, k); }
      ComesForward(run, events, j, k - 1);
      if ServedSince(run, j, k - 1) {
        var m: nat :| j < m <= k - 1 && Served(run[m]);
        assert j < m <= k;
      } else {
        RunKeepsInv(run, events, k - 1);
        assert StepAt(run, events, k - 1);
        if events[k - 1].Runs? {
          RunServes(run[k - 1], events[k - 1].p);
          assert Step(run[k - 1], events[k - 1]) == run[k - 1].RunQueue(events[k - 1].p) by { RunsIsStep(run[k - 1], events[k - 1].p); }
          if Place(run[k - 1].queue) == 0 { assert j < k <= k && Served(run[k]); }
        } else {
          StepKeepsPlace(run[k - 1], events[k - 1]);
        }
      }
    }
  }

  lemma RunsIsStep(d: Driver, p: Incoming)
    requires d.Valid()
    ensures Step(d, Runs(p)) == d.RunQueue(p)
  {
  }

  /** A received packet does not block the driver for long: whatever else happens meanwhile, once the queue's task has run
      more often than there were actions before it, at the latest after four runs, the packet has been served and
      interrupts were on again - unless its action was overwritten. */
  lemma InterruptsReturn(run: seq<Driver>, events: seq<Event>, j: nat, k: nat)
    requires IsRun(run, events) && j <= k < |run| && ProcessIncomingPacket in run[j].queue && !Wedged(run[k])
    requires Turns(events, j, k) > Place(run[j].queue)
    ensures ServedSince(run, j, k)
    ensures Place(run[j].queue) < QUEUE_SIZE
  {
    RunKeepsInv(run, events, j);
    ComesForward(run, events, j, k);
  }

  // Which packet a sent notification is for.

  /** Notifications are queued for packets that went to the radio, and the last header kept is that of the last one. */
  ghost predicate SentKnown(d: Driver) {
    && (forall h :: ProcessSentOk(h) in d.queue ==> h in d.sent || h == NO_HEADER)
    && (d.lastSentHeader != NO_HEADER ==> d.sent != [] && d.lastSentHeader == d.sent[|d.sent| - 1])
  }

  lemma AppendKeepsSent(d: Driver, a: AsyncAction)
    requires d.Valid() && SentKnown(d) && (a.ProcessSentOk? ==> a.header in d.sent || a.header == NO_HEADER)
    ensures SentKnown(d.Append(a))
  {
  }

  lemma CallKeepsSent(d: Driver, call: Call)
    requires d.Valid() && SentKnown(d)
    ensures SentKnown(d.Do(call))
  {
  }

  lemma {:induction false} CallsKeepSent(d: Driver, calls: seq<Call>)
    requires d.Valid() && SentKnown(d)
    ensures SentKnown(d.DoAll(calls))
    decreases |calls|
  {
    if calls == [] {
    } else {
      CallKeepsSent(d, calls[0]);
      CallsKeepSent(d.Do(calls[0]), calls[1..]);
    }
  }

  lemma SendKeepsSent(d: Driver, header: nat, transmits: bool)
    requires d.Valid() && SentKnown(d)
    ensures SentKnown(d.SendPacket(header, transmits).0)
  {
  }

  /** The state alone, interrupts and channel do not matter to it. */
  lemma OtherwiseKeepsSent(d: Driver, e: Driver)
    requires SentKnown(d) && e.queue == d.queue && e.sent == d.sent && e.lastSentHeader == d.lastSentHeader
    ensures SentKnown(e)
  {
  }

  lemma IncomingKeepsSent(d: Driver, p: Incoming)
    requires d.Valid() && SentKnown(d)
    ensures SentKnown(d.ProcessIncoming(p))
  {
    hide SentKnown, Driver.DoAll, Driver.SendPacket;
    var e := d.(state := ProcessingIncoming);
    var r := d.ProcessIncoming(p);
    OtherwiseKeepsSent(d, e);
    OtherwiseKeepsSent(d, d.RestoreWithInterrupts());
    OtherwiseKeepsSent(d, e.RestoreWithInterrupts());
    if d.state.AwaitingProcessing? && (p.Plain? || p.WithAck?) {
      CallsKeepSent(e, p.calls);
      var f := e.DoAll(p.calls);
      OtherwiseKeepsSent(f, f.RestoreWithInterrupts());
      if p.WithAck? && p.accepted {
        var g := f.(state := SendingAck);
        OtherwiseKeepsSent(f, g);
        SendKeepsSent(g, ACK_HEADER, p.transmits);
        OtherwiseKeepsSent(g.SendPacket(ACK_HEADER, p.transmits).0, r);
      }
    }
  }

  lemma ActionKeepsSent(d: Driver, action: AsyncAction, p: Incoming)
    requires d.Valid() && SentKnown(d)
    ensures SentKnown(d.CarryOut(action, p))
  {
    match action
    case ProcessIncomingPacket => IncomingKeepsSent(d, p);
    case UpdateChannel => CallKeepsSent(d, SetChannel(d.channel));
    case UpdatePower => CallKeepsSent(d, SetPower(d.power));
    case _ =>
  }

  lemma InterruptKeepsSent(d: Driver, e: Event)
    requires d.Valid() && SentKnown(d) && e in {Incoming, ReceiveBegin, ReceivedFail, SentOk, Alarm}
    ensures SentKnown(Step(d, e))
  {
  }

  lemma StepKeepsSent(d: Driver, e: Event)
    requires d.Valid() && SentKnown(d)
    ensures SentKnown(Step(d, e))
  {
    match e
    case Calls(call) => CallKeepsSent(d, call);
    case Sends(header, transmits) => SendKeepsSent(d, header, transmits);
    case Runs(p) =>
      if d.queue != [] {
        PulledKeepsSent(d);
        hide SentKnown, Driver.CarryOut;
        ActionKeepsSent(d.(queue := d.queue[1..]), d.queue[0], p);
      }
    case _ => InterruptKeepsSent(d, e);
  }

  lemma PulledKeepsSent(d: Driver)
    requires SentKnown(d) && d.queue != []
    ensures SentKnown(d.(queue := d.queue[1..]))
  {
  }

  lemma {:induction false} RunKeepsSent(run: seq<Driver>, events: seq<Event>, k: nat)
    requires IsRun(run, events) && k < |run|
    ensures SentKnown(run[k])
  {
    hide Step;
    if k == 0 {
    } else {
      RunKeepsSent(run, events, k - 1);
      assert StepAt(run, events, k - 1);
      hide SentKnown;
      StepKeepsSent(run[k - 1], events[k - 1]);
    }
  }

  /** In every run: the first sent report after a transmission queues the notification for the packet that was handed to
      the radio last, and every notification queued is for a packet that was handed to it, or for none. */
  lemma NotifiesLastSent(run: seq<Driver>, events: seq<Event>, k: nat)
    requires IsRun(run, events) && k < |events|
    ensures forall h :: ProcessSentOk(h) in run[k].queue ==> h in run[k].sent || h == NO_HEADER
    ensures var d, e := run[k], run[k + 1];
            events[k] == SentOk && d.interrupts && d.state.WaitingForTransmissionEnd? && d.lastSentHeader != NO_HEADER ==>
              d.sent != [] && e.queue != [] && e.queue[|e.queue| - 1] == ProcessSentOk(d.sent[|d.sent| - 1]) && e.lastSentHeader == NO_HEADER
  {
    RunKeepsSent(run, events, k);
    assert StepAt(run, events, k);
  }

  /** A transmission leaves its header to be notified. */
  lemma TransmissionIsNoted(d: Driver, header: nat)
    requires d.Valid() && d.SendPacket(header, true).1
    ensures var e := d.SendPacket(header, true).0;
            e.state.WaitingForTransmissionEnd? && e.lastSentHeader == header && e.sent == d.sent + [header]
  {
  }

  // The queue can be made to overflow.

  lemma PowerChangeQueues(d: Driver, power: nat)
    requires d.Valid() && !d.state.ReadyForAnything? && power != d.lastPower
    ensures var e := Step(d, Calls(SetPower(power)));
            && e.state == d.state && e.lastPower == d.lastPower && e.interrupts == d.interrupts
            && e.queue == AddForce(d.queue, QUEUE_SIZE, UpdatePower)
  {
  }

  function ChangePower(d: Driver, powers: seq<nat>): (e: Driver)
    requires d.Valid()
    ensures e.Valid()
  {
    if powers == [] then d
    else Step(ChangePower(d, powers[..|powers| - 1]), Calls(SetPower(powers[|powers| - 1])))
  }

  /** Each change puts another UpdatePower at the end of the queue, at the cost of its oldest entry once it is full. */
  lemma {:induction false} ChangesFillQueue(d: Driver, powers: seq<nat>)
    requires d.Valid() && !d.state.ReadyForAnything? && |powers| <= QUEUE_SIZE
    requires forall i :: 0 <= i < |powers| ==> powers[i] != d.lastPower
    ensures var e := ChangePower(d, powers);
            && e.state == d.state && e.lastPower == d.lastPower && e.interrupts == d.interrupts
            && |e.queue| >= |powers| && forall i :: |e.queue| - |powers| <= i < |e.queue| ==> e.queue[i] == UpdatePower
  {
    if powers == [] {
    } else {
      var n := |powers| - 1;
      ChangesFillQueue(d, powers[..n]);
      PowerChangeQueues(ChangePower(d, powers[..n]), powers[n]);
    }
  }

  /** Whenever a received packet awaits processing, four power changes, each to a power the radio does not have, wedge
      the driver. */
  lemma FourPowerChangesWedge(d: Driver, powers: seq<nat>)
    requires Inv(d) && d.state.AwaitingProcessing? && |powers| == QUEUE_SIZE
    requires forall i :: 0 <= i < |powers| ==> powers[i] != d.lastPower
    ensures Wedged(ChangePower(d, powers))
  {
    hide ChangePower;
    ChangesFillQueue(d, powers);
  }

  /** And whenever a send has failed, they strand it. */
  lemma FourPowerChangesStrand(d: Driver, powers: seq<nat>)
    requires d.Valid() && d.state.SendingOutgoing? && |powers| == QUEUE_SIZE
    requires forall i :: 0 <= i < |powers| ==> powers[i] != d.lastPower
    ensures Stranded(ChangePower(d, powers))
  {
    hide ChangePower;
    ChangesFillQueue(d, powers);
  }

  lemma Extend(run: seq<Driver>, events: seq<Event>, e: Event) returns (more: seq<Driver>)
    requires IsRun(run, events) && run[|events|].Valid()
    ensures IsRun(more, events + [e]) && more[|run|] == Step(run[|events|], e)
  {
    hide Step;
    more := run + [Step(run[|events|], e)];
    forall i: nat | i < |events + [e]|
      ensures StepAt(more, events + [e], i)
    {
      assert i < |events| ==> StepAt(run, events, i);
    }
  }

  lemma {:induction false} ExtendWithChanges(run: seq<Driver>, events: seq<Event>, powers: seq<nat>) returns (more: seq<Driver>, others: seq<Event>)
    requires IsRun(run, events) && run[|events|].Valid()
    ensures IsRun(more, others) && more[|others|] == ChangePower(run[|events|], powers)
  {
    hide Step;
    if powers == [] {
      more, others := run, events;
    } else {
      var n := |powers| - 1;
      more, others := ExtendWithChanges(run, events, powers[..n]);
      more := Extend(more, others, Calls(SetPower(powers[n])));
      others := others + [Calls(SetPower(powers[n]))];
    }
  }

  lemma WedgedFrom(run: seq<Driver>, events: seq<Event>) returns (more: seq<Driver>, others: seq<Event>)
    requires IsRun(run, events) && run[|events|].state.AwaitingProcessing? && run[|events|].lastPower == 0
    ensures IsRun(more, others) && Wedged(more[|others|])
  {
    RunKeepsInv(run, events, |events|);
    hide ChangePower, IsRun, Wedged;
    var powers: seq<nat> := [1, 1, 1, 1];
    FourPowerChangesWedge(run[|events|], powers);
    more, others := ExtendWithChanges(run, events, powers);
  }

  /** It does happen: seven steps after power-up. */
  lemma WedgingHappens()
    ensures exists run: seq<Driver>, events: seq<Event> :: IsRun(run, events) && Wedged(run[|events|])
  {
    var run := Extend([POWER_UP], [], Calls(Start));
    run := Extend(run, [] + [Calls(Start)], Incoming);
    run := Extend(run, [] + [Calls(Start)] + [Incoming], ReceiveBegin);
    var more, others := WedgedFrom(run, [] + [Calls(Start)] + [Incoming] + [ReceiveBegin]);
  }

  /** So does stranding, six steps after power-up: a send that the radio refuses, and four power changes. */
  lemma StrandingHappens()
    ensures exists run: seq<Driver>, events: seq<Event> :: IsRun(run, events) && Stranded(run[|events|])
  {
    var run := Extend([POWER_UP], [], Calls(Start));
    run := Extend(run, [] + [Calls(Start)], Sends(1, false));
    var events := [] + [Calls(Start)] + [Sends(1, false)];
    assert run[|events|].state.SendingOutgoing? && run[|events|].lastPower == 0 && run[|events|].Valid();
    hide ChangePower, IsRun, Stranded;
    FourPowerChangesStrand(run[|events|], [1, 1, 1, 1]);
    var more, others := ExtendWithChanges(run, events, [1, 1, 1, 1]);
  }
}
