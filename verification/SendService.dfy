/** The send and acknowledge machine every service runs on (src/Services/IPacketSendService.h). */
module SendService {
  import opened Common

  const INVALID_MILLIS: nat := 0xFFFF_FFFF
  const MAX_DENIED: nat := 3
  const SEND_TIMEOUT: nat := 100
  const ACK_TIMEOUT: nat := 10

  /** Elapsed time on a 32 bit counter. */
  function Elapsed(now: nat, since: nat): nat {
    (now as int - since as int) % UINT32
  }

  /** What a packet buffer holds: header byte, id byte, whether its definition asks for an ack, payload. */
  datatype Frame<+P> = Frame(header: nat, id: nat, hasAck: bool, payload: P)

  datatype Status = Done | SendingPacket | WaitingForSentOk | SentOk | SendFailed | WaitingForAck | AckOk | AckFailed

  /** The hook that one Callback runs. */
  datatype Event = OnService | OnSendTimedOut | OnSendDelayed | Transmitted | Refused | OnSendRetrying
                 | OnSendOk | OnSendFailed | OnAckReceived | OnAckFailed | Nothing

  /** What the surroundings decide during one Callback: the clock, AllowedSend and the result of SendPacket. */
  datatype Env = Env(now: nat, allowed: bool, accepted: bool)

  datatype Send<+P> = Send(
    frame: Frame<P>,    // the service's packet buffer; it keeps its bytes when the definition is cleared
    pending: bool,      // the buffer has a definition
    status: Status,
    failures: nat,
    start: nat,
    sendTimeOut: nat,
    ackTimeOut: nat)
  {
    predicate Valid() {
      && (pending <==> status != Done)
      && failures <= MAX_DENIED + 1
      && (status == SendingPacket ==> failures <= MAX_DENIED)
      && (status.WaitingForAck? || status.AckOk? || status.AckFailed? ==> frame.hasAck)
    }

    /** Nothing requested and nothing in progress. */
    predicate Idle() {
      !pending && status == Done
    }

    function ClearSendRequest(): Send<P> {
      this.(pending := false, start := INVALID_MILLIS, status := Done)
    }

    /** A Prepare call followed by RequestSendPacket. */
    function Request(f: Frame<P>, now: nat, sendTime: nat := SEND_TIMEOUT, ackTime: nat := ACK_TIMEOUT): (s: Send<P>)
      ensures s.Valid()
    {
      Send(f, true, SendingPacket, 0, now, sendTime, ackTime)
    }

    function ProcessSent(header: nat): Send<P> {
      if pending && frame.header == header && status == WaitingForSentOk then this.(status := SentOk) else this
    }

    function ProcessAck(header: nat, id: nat): Send<P> {
      if frame.header == header && status == WaitingForAck && pending && frame.id == id then this.(status := AckOk) else this
    }

    /** The service itself runs only when nothing is pending; a frame stays pending until its request is cleared. */
    function Callback(env: Env): (r: (Send<P>, Event))
      requires Valid()
      ensures r.0.Valid() && r.0.frame == frame
      ensures r.1.OnService? <==> !pending
      ensures r.1.OnService? ==> r.0 == this
      ensures r.1.Transmitted? ==> r.0.pending && r.0.status.WaitingForSentOk?
      ensures r.1 in {OnSendDelayed, OnSendRetrying} ==> r.0.pending && r.0.status.SendingPacket?
      ensures r.1.OnSendOk? ==> status.SentOk? && r.0.pending == frame.hasAck
      ensures r.0.pending && !r.1.Transmitted? ==> pending && !r.0.status.WaitingForSentOk? && !r.0.status.SentOk?
    {
      var s := if !pending && status != Done then this.(status := Done) else this;
      match s.status
      case SendingPacket =>
        if s.start == INVALID_MILLIS || Elapsed(env.now, s.start) > s.sendTimeOut then (s.ClearSendRequest(), OnSendTimedOut)
        else if !env.allowed then (s, OnSendDelayed)
        else if env.accepted then (s.(status := WaitingForSentOk), Transmitted)
        else if s.failures + 1 > MAX_DENIED then (s.(failures := s.failures + 1, status := SendFailed), Refused)
        else (s.(failures := s.failures + 1), OnSendRetrying)
      case WaitingForSentOk => (s.(status := SendFailed), Nothing)
      case SentOk => (if s.frame.hasAck then s.(status := WaitingForAck) else s.ClearSendRequest(), OnSendOk)
      case SendFailed => (s.ClearSendRequest(), OnSendFailed)
      case WaitingForAck => (s.(status := AckFailed), Nothing)
      case AckOk => (s.ClearSendRequest(), OnAckReceived)
      case AckFailed => (s.ClearSendRequest(), OnAckFailed)
      case Done => (s, OnService)
    }
  }

  // ---------------------------------------------------------------------------------------------
  // Runs of one request

  datatype Input<P> = Run(env: Env) | Sent(header: nat) | Ack(header: nat, id: nat) | Refresh(payload: P)

  datatype Trace<P> = Trace(send: Send<P>, events: seq<Event>)

  function Apply<P>(t: Trace<P>, i: Input<P>): (r: Trace<P>)
    requires t.send.Valid()
    ensures r.send.Valid()
  {
    match i
    case Run(env) => var (s, e) := t.send.Callback(env); Trace(s, t.events + [e])
    case Sent(h) => t.(send := t.send.ProcessSent(h))
    case Ack(h, id) => t.(send := t.send.ProcessAck(h, id))
    case Refresh(p) => if t.send.status == SendingPacket then t.(send := t.send.(frame := t.send.frame.(payload := p))) else t
  }

  function Exec<P>(s: Send<P>, inputs: seq<Input<P>>): (t: Trace<P>)
    requires s.Valid()
    ensures t.send.Valid()
  {
    if inputs == [] then Trace(s, [])
    else Apply(Exec(s, inputs[..|inputs| - 1]), inputs[|inputs| - 1])
  }

  /** How often a request ended: the five ways it can. */
  function Endings(events: seq<Event>, hasAck: bool): nat {
    var m := multiset(events);
    m[OnSendTimedOut] + m[OnSendFailed] + m[OnAckReceived] + m[OnAckFailed] + if hasAck then 0 else m[OnSendOk]
  }

  /** Sends that the driver refused. */
  function Denials(events: seq<Event>): nat {
    multiset(events)[Refused] + multiset(events)[OnSendRetrying]
  }

  /** Callbacks that move a request on: everything but a send that AllowedSend holds back. */
  function Moves(events: seq<Event>): int {
    |events| - multiset(events)[OnSendDelayed] - multiset(events)[OnService]
  }

  function Rank<P>(s: Send<P>): nat {
    if !s.pending then 0
    else match s.status
      case SendingPacket => if s.failures <= MAX_DENIED then 6 + MAX_DENIED - s.failures else 6
      case WaitingForSentOk => 5
      case SentOk => 4
      case WaitingForAck => 3
      case AckOk => 1
      case AckFailed => 1
      case SendFailed => 1
      case Done => 0
  }

  ghost predicate RequestInv<P>(t: Trace<P>, f: Frame<P>, s0: Send<P>) {
    && t.send.Valid()
    && t.send.frame.header == f.header && t.send.frame.id == f.id && t.send.frame.hasAck == f.hasAck
    && (t.send.pending ==> t.send.start == s0.start && t.send.sendTimeOut == s0.sendTimeOut)
    && Endings(t.events, f.hasAck) + (if t.send.pending then 1 else 0) == 1
    && Denials(t.events) == t.send.failures
    && Moves(t.events) + Rank(t.send) <= 6 + MAX_DENIED
  }

  /** What has been refused so far, and that nothing else comes of a request before it is transmitted or given up. */
  predicate RefusedSoFar<P>(t: Trace<P>) {
    && t.send.Valid() && Denials(t.events) == t.send.failures
    && (Refused in t.events <==> Denials(t.events) == MAX_DENIED + 1)
    && (Transmitted !in t.events && Refused !in t.events ==>
          && OnSendFailed !in t.events && OnSendOk !in t.events && OnAckReceived !in t.events && OnAckFailed !in t.events
          && (t.send.pending ==> t.send.status == SendingPacket))
  }

  lemma StepKeepsRefused<P>(t: Trace<P>, i: Input<P>)
    requires RefusedSoFar(t)
    ensures RefusedSoFar(Apply(t, i))
  {
  }

  lemma {:induction false} RunKeepsRefused<P>(s: Send<P>, f: Frame<P>, now: nat, sendTime: nat, ackTime: nat, inputs: seq<Input<P>>)
    ensures RefusedSoFar(Exec(s.Request(f, now, sendTime, ackTime), inputs))
  {
    if inputs == [] {
    } else {
      RunKeepsRefused(s, f, now, sendTime, ackTime, inputs[..|inputs| - 1]);
      StepKeepsRefused(Exec(s.Request(f, now, sendTime, ackTime), inputs[..|inputs| - 1]), inputs[|inputs| - 1]);
    }
  }

  lemma StepKeepsRequest<P>(t: Trace<P>, f: Frame<P>, s0: Send<P>, i: Input<P>)
    requires RequestInv(t, f, s0)
    ensures RequestInv(Apply(t, i), f, s0)
  {
  }

  lemma {:induction false} RunKeepsRequest<P>(s: Send<P>, f: Frame<P>, now: nat, sendTime: nat, ackTime: nat, inputs: seq<Input<P>>)
    ensures var s0 := s.Request(f, now, sendTime, ackTime); RequestInv(Exec(s0, inputs), f, s0)
  {
    if inputs == [] {
    } else {
      RunKeepsRequest(s, f, now, sendTime, ackTime, inputs[..|inputs| - 1]);
      var s0 := s.Request(f, now, sendTime, ackTime);
      StepKeepsRequest(Exec(s0, inputs[..|inputs| - 1]), f, s0, inputs[|inputs| - 1]);
    }
  }

  /** Whatever the driver, the radio and the partner do, a request that is not superseded ends exactly once:
      it is pending, or one of the five endings has happened, once. At most four sends are refused, and at most
      nine callbacks move it on: after nine it has ended. */
  lemma RequestEndsOnce<P>(s: Send<P>, f: Frame<P>, now: nat, sendTime: nat, ackTime: nat, inputs: seq<Input<P>>)
    ensures var t := Exec(s.Request(f, now, sendTime, ackTime), inputs);
            && Endings(t.events, f.hasAck) + (if t.send.pending then 1 else 0) == 1
            && Denials(t.events) <= 4
            && Moves(t.events) <= 9
            && (Moves(t.events) == 9 ==> !t.send.pending)
  {
    RunKeepsRequest(s, f, now, sendTime, ackTime, inputs);
  }

  /** Refused sends are repeated: it takes the fourth refusal to give up, and until then, as long as nothing has been
      transmitted and the request has not timed out, it is still waiting to be sent. */
  lemma GivesUpAtFourth<P>(s: Send<P>, f: Frame<P>, now: nat, sendTime: nat, ackTime: nat, inputs: seq<Input<P>>)
    ensures var t := Exec(s.Request(f, now, sendTime, ackTime), inputs);
            && (Refused in t.events <==> Denials(t.events) == 4)
            && (Denials(t.events) <= 3 && Transmitted !in t.events && OnSendTimedOut !in t.events ==>
                  t.send.pending && t.send.status == SendingPacket)
  {
    RunKeepsRefused(s, f, now, sendTime, ackTime, inputs);
    RunKeepsRequest(s, f, now, sendTime, ackTime, inputs);
  }

  /** What becomes of a request that waits to be sent: after its time it times out; before, the driver's permission and
      the radio decide, and a refusal is the last one only if it is the fourth. */
  lemma WaitingIsDecided<P>(s: Send<P>, f: Frame<P>, now: nat, sendTime: nat, ackTime: nat, inputs: seq<Input<P>>, env: Env)
    requires var t := Exec(s.Request(f, now, sendTime, ackTime), inputs); t.send.pending && t.send.status == SendingPacket
    ensures var t := Exec(s.Request(f, now, sendTime, ackTime), inputs);
            var (u, e) := t.send.Callback(env);
            if now == INVALID_MILLIS || Elapsed(env.now, now) > sendTime then e == OnSendTimedOut && u.Idle()
            else if !env.allowed then e == OnSendDelayed && u == t.send
            else if env.accepted then e == Transmitted && u.pending && u.status == WaitingForSentOk
            else if Denials(t.events) < 3 then e == OnSendRetrying && u.pending && u.status == SendingPacket
            else e == Refused && u.pending && u.status == SendFailed
  {
    RunKeepsRequest(s, f, now, sendTime, ackTime, inputs);
  }

  /** Services that name no time outs get 100 ms to be sent, and wait 10 ms for the ack. */
  lemma DefaultTimeOut<P>(s: Send<P>, f: Frame<P>, now: nat, env: Env)
    requires now != INVALID_MILLIS
    ensures s.Request(f, now).Callback(env).1 == OnSendTimedOut <==> Elapsed(env.now, now) > 100
    ensures s.Request(f, now).ackTimeOut == 10
  {
  }

  /** A callback that leaves the request waiting to be sent came within its time out. */
  lemma WaitingIsBounded<P>(s: Send<P>, f: Frame<P>, now: nat, sendTime: nat, ackTime: nat, inputs: seq<Input<P>>, env: Env)
    requires var t := Exec(s.Request(f, now, sendTime, ackTime), inputs); t.send.pending && t.send.Callback(env).0.status == SendingPacket
    ensures now != INVALID_MILLIS && Elapsed(env.now, now) <= sendTime
  {
    RunKeepsRequest(s, f, now, sendTime, ackTime, inputs);
  }

  /** The driver reported this frame as sent after it had accepted it. */
  ghost predicate WasSent<P>(s0: Send<P>, f: Frame<P>, inputs: seq<Input<P>>, i: nat)
    requires s0.Valid()
  {
    i < |inputs| && inputs[i] == Sent(f.header) && Transmitted in Exec(s0, inputs[..i]).events
  }

  ghost predicate WasAcked<P>(s0: Send<P>, f: Frame<P>, inputs: seq<Input<P>>, i: nat, j: nat)
    requires s0.Valid()
  {
    WasSent(s0, f, inputs, i) && i < j < |inputs| && inputs[j] == Ack(f.header, f.id)
  }

  ghost predicate SentBefore<P>(s0: Send<P>, f: Frame<P>, inputs: seq<Input<P>>)
    requires s0.Valid()
  {
    exists i: nat :: WasSent(s0, f, inputs, i)
  }

  ghost predicate AckedBefore<P>(s0: Send<P>, f: Frame<P>, inputs: seq<Input<P>>)
    requires s0.Valid()
  {
    exists i: nat, j: nat :: WasAcked(s0, f, inputs, i, j)
  }

  /** t is the trace that inputs produce from s0. */
  ghost predicate SentInv<P>(s0: Send<P>, f: Frame<P>, inputs: seq<Input<P>>, t: Trace<P>)
    requires s0.Valid()
  {
    && (t.send.status == WaitingForSentOk ==> Transmitted in t.events)
    && (t.send.status in {SentOk, WaitingForAck, AckFailed} ==> SentBefore(s0, f, inputs))
    && (t.send.status == AckOk || OnAckReceived in t.events ==> AckedBefore(s0, f, inputs))
  }

  lemma BeforeStays<P>(s0: Send<P>, f: Frame<P>, inputs: seq<Input<P>>, x: Input<P>)
    requires s0.Valid()
    ensures SentBefore(s0, f, inputs) ==> SentBefore(s0, f, inputs + [x])
    ensures AckedBefore(s0, f, inputs) ==> AckedBefore(s0, f, inputs + [x])
  {
    hide Exec;
    var all := inputs + [x];
    forall i: nat | WasSent(s0, f, inputs, i)
      ensures WasSent(s0, f, all, i)
    {
      assert all[..i] == inputs[..i];
    }
    forall i: nat, j: nat | WasAcked(s0, f, inputs, i, j)
      ensures WasAcked(s0, f, all, i, j)
    {
      assert all[j] == inputs[j];
    }
  }

  lemma SentNow<P>(s0: Send<P>, f: Frame<P>, inputs: seq<Input<P>>, h: nat)
    requires s0.Valid() && Transmitted in Exec(s0, inputs).events && h == f.header
    ensures SentBefore(s0, f, inputs + [Sent(h)])
  {
    hide Exec;
    assert (inputs + [Sent(h)])[..|inputs|] == inputs;
    assert WasSent(s0, f, inputs + [Sent(h)], |inputs|);
  }

  lemma AckedNow<P>(s0: Send<P>, f: Frame<P>, inputs: seq<Input<P>>, h: nat, id: nat)
    requires s0.Valid() && SentBefore(s0, f, inputs) && h == f.header && id == f.id
    ensures AckedBefore(s0, f, inputs + [Ack(h, id)])
  {
    hide Exec;
    var i: nat :| WasSent(s0, f, inputs, i);
    assert (inputs + [Ack(h, id)])[..i] == inputs[..i];
    assert WasAcked(s0, f, inputs + [Ack(h, id)], i, |inputs|);
  }

  lemma StepKeepsSent<P>(s0: Send<P>, f: Frame<P>, inputs: seq<Input<P>>, t: Trace<P>, x: Input<P>)
    requires s0.Valid() && t == Exec(s0, inputs) && t.send.Valid() && SentInv(s0, f, inputs, t)
    requires t.send.frame.header == f.header && t.send.frame.id == f.id
    ensures SentInv(s0, f, inputs + [x], Apply(t, x))
  {
    hide Exec, SentBefore, AckedBefore;
    BeforeStays(s0, f, inputs, x);
    match x
    case Sent(h) => if t.send.status == WaitingForSentOk && h == f.header { SentNow(s0, f, inputs, h); }
    case Ack(h, id) => if t.send.status == WaitingForAck && h == f.header && id == f.id { AckedNow(s0, f, inputs, h, id); }
    case Run(env) =>
    case Refresh(p) =>
  }

  lemma {:induction false} RunKeepsSent<P>(s: Send<P>, f: Frame<P>, now: nat, sendTime: nat, ackTime: nat, inputs: seq<Input<P>>)
    ensures var s0 := s.Request(f, now, sendTime, ackTime); SentInv(s0, f, inputs, Exec(s0, inputs))
  {
    hide SentBefore, AckedBefore;
    if inputs == [] {
    } else {
      var s0, before, x := s.Request(f, now, sendTime, ackTime), inputs[..|inputs| - 1], inputs[|inputs| - 1];
      RunKeepsSent(s, f, now, sendTime, ackTime, before);
      RunKeepsRequest(s, f, now, sendTime, ackTime, before);
      StepKeepsSent(s0, f, before, Exec(s0, before), x);
      assert before + [x] == inputs;
    }
  }

  /** The ack hook fires only when, in this order, the driver accepted the frame, reported it sent, and an ack
      carrying its header and id arrived. */
  lemma AckReceivedIsEarned<P>(s: Send<P>, f: Frame<P>, now: nat, sendTime: nat, ackTime: nat, inputs: seq<Input<P>>)
    requires OnAckReceived in Exec(s.Request(f, now, sendTime, ackTime), inputs).events
    ensures exists i: nat, j: nat :: WasAcked(s.Request(f, now, sendTime, ackTime), f, inputs, i, j)
  {
    RunKeepsSent(s, f, now, sendTime, ackTime, inputs);
  }

  // ---------------------------------------------------------------------------------------------
  // The service object

  /** The sending half of a service. Callback reports which hook the service has to run; the hooks other than
      OnService leave these fields alone, so running them after the fields have changed makes no difference. */
  class PacketSender<P> {
    var header: nat
    var id: nat
    var hasAck: bool
    var payload: P
    var hasDefinition: bool
    var sendStatus: Status
    var sendFailures: nat
    var sendStartMillis: nat
    var sendTimeOutDuration: nat
    var ackTimeOutDuration: nat

    ghost function View(): Send<P>
      reads this
    {
      Send(Frame(header, id, hasAck, payload), hasDefinition, sendStatus, sendFailures, sendStartMillis,
           sendTimeOutDuration, ackTimeOutDuration)
    }

    constructor (payload: P)
      ensures View() == Send(Frame(0, 0, false, payload), false, Done, 0, INVALID_MILLIS, 0, 0)
    {
      header, id, hasAck, this.payload, hasDefinition := 0, 0, false, payload, false;
      sendStatus, sendFailures, sendStartMillis, sendTimeOutDuration, ackTimeOutDuration := Done, 0, INVALID_MILLIS, 0, 0;
    }

    /** SetDefinition, SetId and the payload builders of the services. */
    method Prepare(header: nat, id: nat, hasAck: bool, payload: P)
      modifies this
      ensures View() == old(View()).(frame := Frame(header, id, hasAck, payload), pending := true)
    {
      this.header, this.id, this.hasAck, this.payload := header, id, hasAck, payload;
      hasDefinition := true;
    }

    method RequestSendPacket(now: nat, sendTime: nat := SEND_TIMEOUT, ackTime: nat := ACK_TIMEOUT)
      modifies this
      ensures View() == if old(hasDefinition) then old(View()).Request(old(View()).frame, now, sendTime, ackTime) else old(View())
    {
      if hasDefinition {
        sendStartMillis := now;
        sendTimeOutDuration := sendTime;
        ackTimeOutDuration := ackTime;
        sendFailures := 0;
        sendStatus := SendingPacket;
      }
    }

    method ClearSendRequest()
      modifies this
      ensures View() == old(View()).ClearSendRequest()
    {
      hasDefinition := false;
      sendStartMillis := INVALID_MILLIS;
      sendStatus := Done;
    }

    method ProcessSent(header: nat) returns (mine: bool)
      modifies this
      ensures View() == old(View()).ProcessSent(header)
      ensures mine <==> old(View()).status == WaitingForSentOk && View().status == SentOk
    {
      if hasDefinition && this.header == header && sendStatus == WaitingForSentOk {
        sendStatus := SentOk;
        return true;
      }
      return false;
    }

    /** An ack of the service's header is its own even when it is not waiting for one. */
    method ProcessAck(header: nat, id: nat) returns (mine: bool)
      modifies this
      ensures View() == old(View()).ProcessAck(header, id)
      ensures mine <==> this.header == header && !(old(sendStatus) == WaitingForAck && hasDefinition && this.id != id)
    {
      if this.header == header {
        if sendStatus == WaitingForAck && hasDefinition {
          if this.id != id {
            return false;
          }
          sendStatus := AckOk;
        }
        return true;
      }
      return false;
    }

    method Callback(env: Env) returns (event: Event)
      requires View().Valid()
      modifies this
      ensures (View(), event) == old(View()).Callback(env)
    {
      sendStatus := if !hasDefinition then Done else sendStatus;
      match sendStatus
      case SendingPacket =>
        if sendStartMillis == INVALID_MILLIS || Elapsed(env.now, sendStartMillis) > sendTimeOutDuration {
          ClearSendRequest();
          return OnSendTimedOut;
        }
        if !env.allowed {
          return OnSendDelayed;
        }
        if env.accepted {
          sendStatus := WaitingForSentOk;
          return Transmitted;
        }
        sendFailures := sendFailures + 1;
        if sendFailures > MAX_DENIED {
          sendStatus := SendFailed;
          return Refused;
        }
        return OnSendRetrying;
      case WaitingForSentOk =>
        sendStatus := SendFailed;
        return Nothing;
      case SentOk =>
        if hasAck {
          sendStatus := WaitingForAck;
        } else {
          ClearSendRequest();
        }
        return OnSendOk;
      case SendFailed =>
        ClearSendRequest();
        return OnSendFailed;
      case WaitingForAck =>
        sendStatus := AckFailed;
        return Nothing;
      case AckOk =>
        ClearSendRequest();
        return OnAckReceived;
      case AckFailed =>
        ClearSendRequest();
        return OnAckFailed;
      case Done =>
        return OnService;
    }
  }
}
