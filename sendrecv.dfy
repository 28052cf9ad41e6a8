/**
 * The protocol endpoints: the naive pass-through pair and the alternating-bit
 * stop-and-wait pair with automatic retransmission.
 *
 * As in SendRecvBase, each endpoint is given as a value with member functions
 * (the specification) and as a class whose methods update fields in place and
 * are proved to follow those functions. A concrete endpoint owns its base
 * object (`base`) where the source inherits from the base class.
 */
module SendRecv {
  import opened Wrappers
  import opened Segments
  import opened SendRecvBase

  /** Retransmission timeout of the alternating-bit sender, in ticks. */
  const ALT_BIT_INTERVAL: int := 5

  // ---------------------------------------------------------------------------
  // Naive protocol
  // ---------------------------------------------------------------------------

  datatype NaiveSenderState = NaiveSenderState(base: SenderCore)
  {
    /** Forward the message at once, in one segment for the receiver (bit unused). */
    function ReceiveFromApp(msg: string): NaiveSenderState {
      NaiveSenderState(base.SendToNetwork(Segment(msg, ToReceiver, false)))
    }

    /** Inbound segments are ignored. */
    function ReceiveFromNetwork(seg: Segment): NaiveSenderState {
      this
    }

    /** The timer is never armed; an interrupt does nothing. */
    function OnInterrupt(): NaiveSenderState {
      this
    }

    /** One BaseSender.step with this endpoint's handlers. */
    function Step(tcpStatus: string): NaiveSenderState {
      var (b1, m) := base.AppPhase(tcpStatus);
      var s1 := if m.Some? then NaiveSenderState(b1).ReceiveFromApp(m.value) else NaiveSenderState(b1);
      var (b2, seg) := s1.base.NextInbound();
      var s2 := if seg.Some? then NaiveSenderState(b2).ReceiveFromNetwork(seg.value) else NaiveSenderState(b2);
      var (b3, fired) := s2.base.TimerPhase();
      if fired then NaiveSenderState(b3).OnInterrupt() else NaiveSenderState(b3)
    }
  }

  /** The naive sender stepped once per entry of `statuses`. */
  function NaiveSenderRun(s: NaiveSenderState, statuses: seq<string>): NaiveSenderState
    decreases |statuses|
  {
    if |statuses| == 0 then s else NaiveSenderRun(s.Step(statuses[0]), statuses[1..])
  }

  /** The segments the naive sender emits for the generator's messages, tick by tick. */
  function Forwarded(ms: seq<Option<string>>): seq<Segment>
    decreases |ms|
  {
    if |ms| == 0 then []
    else (if ms[0].Some? then [Segment(ms[0].value, ToReceiver, false)] else []) + Forwarded(ms[1..])
  }

  /** The generator's output depends only on its own fields and the blocked flag. */
  lemma {:induction false} AppRunIgnoresOtherFields(c: SenderCore, c': SenderCore, statuses: seq<string>)
    requires c.appInterval == c'.appInterval && c.appTimer == c'.appTimer
    requires c.appCount == c'.appCount && c.blocked == c'.blocked
    ensures AppRun(c, statuses).1 == AppRun(c', statuses).1
    decreases |statuses|
  {
    if |statuses| > 0 {
      AppRunIgnoresOtherFields(c.AppPhase(statuses[0]).0, c'.AppPhase(statuses[0]).0, statuses[1..]);
    }
  }

  /**
   * Over any number of ticks the naive sender puts on the network exactly one
   * segment per generated message, in order, carrying the message unchanged
   * and addressed to the receiver; it emits nothing else.
   */
  lemma {:induction false} NaiveSenderForwardsEverything(s: NaiveSenderState, statuses: seq<string>)
    ensures NaiveSenderRun(s, statuses).base.outputQueue ==
      s.base.outputQueue + Forwarded(AppRun(s.base, statuses).1)
    decreases |statuses|
  {
    if |statuses| > 0 {
      var (b, m) := s.base.AppPhase(statuses[0]);
      var s1 := s.Step(statuses[0]);
      var sent := if m.Some? then [Segment(m.value, ToReceiver, false)] else [];
      assert s1.base.outputQueue == s.base.outputQueue + sent;
      NaiveSenderForwardsEverything(s1, statuses[1..]);
      AppRunIgnoresOtherFields(s1.base, b, statuses[1..]);
      var ms := AppRun(b, statuses[1..]).1;
      assert AppRun(s.base, statuses).1 == [m] + ms;
      assert ([m] + ms)[1..] == ms;
    }
  }

  datatype NaiveReceiverState = NaiveReceiverState(base: ReceiverCore)
  {
    /** Deliver the message unconditionally: no check, no acknowledgement. */
    function ReceiveFromClient(seg: Segment): NaiveReceiverState {
      NaiveReceiverState(base.SendToApp(seg.msg))
    }

    /** One BaseReceiver.step: handle at most one segment, then report. */
    function Step(): (NaiveReceiverState, string) {
      var (b1, seg) := base.NextInbound();
      var r1 := if seg.Some? then NaiveReceiverState(b1).ReceiveFromClient(seg.value) else NaiveReceiverState(b1);
      var (b2, report) := r1.base.TakeAppside();
      (NaiveReceiverState(b2), report)
    }
  }

  /** The naive receiver stepped `ticks` times; its reports, tick by tick. */
  function NaiveReceiverRun(r: NaiveReceiverState, ticks: nat): (res: (NaiveReceiverState, seq<string>))
    ensures |res.1| == ticks
    decreases ticks
  {
    if ticks == 0 then (r, [])
    else
      var (r1, report) := r.Step();
      var (r2, reports) := NaiveReceiverRun(r1, ticks - 1);
      (r2, [report] + reports)
  }

  /**
   * The naive receiver hands the application the message of every inbound
   * segment, one per tick, in queue order, corrupted or not, and sends nothing.
   */
  lemma {:induction false} NaiveReceiverDeliversEverything(r: NaiveReceiverState, ticks: nat)
    requires ticks <= |r.base.inputQueue|
    ensures var (r', reports) := NaiveReceiverRun(r, ticks);
      reports == seq(ticks, i requires 0 <= i < ticks => r.base.inputQueue[i].msg) &&
      r'.base.receivedCount == r.base.receivedCount + ticks &&
      r'.base.inputQueue == r.base.inputQueue[ticks..] &&
      r'.base.outputQueue == r.base.outputQueue
    decreases ticks
  {
    if ticks > 0 {
      var (r1, report) := r.Step();
      assert r1.base.inputQueue == r.base.inputQueue[1..];
      NaiveReceiverDeliversEverything(r1, ticks - 1);
      var (r2, reports) := NaiveReceiverRun(r1, ticks - 1);
      assert r.base.inputQueue[1..][ticks - 1..] == r.base.inputQueue[ticks..];
      assert [report] + reports == seq(ticks, i requires 0 <= i < ticks => r.base.inputQueue[i].msg);
    }
  }

  // ---------------------------------------------------------------------------
  // Alternating-bit protocol
  // ---------------------------------------------------------------------------

  /**
   * The alternating-bit sender: the base fields, `ready` (the source's `state`:
   * true when waiting for the application layer, false when waiting for an
   * ACK), the bit of the outstanding round and the stored copy `out` of the
   * segment last sent, kept for retransmission.
   */
  datatype AltSenderState = AltSenderState(base: SenderCore, ready: bool, altBit: bool, out: Segment)
  {
    /**
     * Ready: stores Segment(msg, receiver, altBit) as `out`, sends exactly that
     * segment, starts waiting and arms the timer with ALT_BIT_INTERVAL.
     * Waiting: the message is ignored and nothing changes.
     */
    function ReceiveFromApp(msg: string): (r: AltSenderState)
      ensures ready ==>
        r.out == Segment(msg, ToReceiver, altBit) &&
        r.base.outputQueue == base.outputQueue + [r.out] &&
        !r.ready && r.altBit == altBit &&
        r.base.customEnabled && r.base.customInterval == ALT_BIT_INTERVAL && r.base.customTimer == 0 &&
        r.base.inputQueue == base.inputQueue && r.base.appTimer == base.appTimer &&
        r.base.appCount == base.appCount && r.base.blocked == base.blocked
      ensures !ready ==> r == this
    {
      if ready then
        var seg := Segment(msg, ToReceiver, altBit);
        this.(base := base.SendToNetwork(seg).StartTimer(ALT_BIT_INTERVAL), ready := false, out := seg)
      else this
    }

    /**
     * Waiting, with an intact segment carrying the awaited bit: the timer is
     * disarmed, the sender is ready again and its bit flips, and nothing is
     * sent. In every other case nothing changes.
     */
    function ReceiveFromNetwork(seg: Segment): (r: AltSenderState)
      ensures !ready && !IsCorrupted(seg.msg) && seg.altBit == altBit ==>
        r.ready && r.altBit == !altBit && !r.base.customEnabled && r.out == out &&
        r.base.outputQueue == base.outputQueue && r.base.inputQueue == base.inputQueue
      ensures ready || IsCorrupted(seg.msg) || seg.altBit != altBit ==> r == this
    {
      if !ready && !IsCorrupted(seg.msg) && seg.altBit == altBit then
        this.(base := base.EndTimer(), ready := true, altBit := !altBit)
      else this
    }

    /**
     * Waiting: re-sends exactly the stored segment and re-arms the timer with
     * ALT_BIT_INTERVAL. Ready: nothing changes.
     */
    function OnInterrupt(): (r: AltSenderState)
      ensures !ready ==>
        r.base.outputQueue == base.outputQueue + [out] &&
        r.base.customEnabled && r.base.customInterval == ALT_BIT_INTERVAL && r.base.customTimer == 0 &&
        r.ready == ready && r.altBit == altBit && r.out == out && r.base.inputQueue == base.inputQueue
      ensures ready ==> r == this
    {
      if !ready then this.(base := base.SendToNetwork(out).StartTimer(ALT_BIT_INTERVAL))
      else this
    }

    /** The generator phase of step, with receive_from_app. */
    function StepApp(tcpStatus: string): (r: AltSenderState)
      ensures r.base.outputQueue == base.outputQueue || r.base.outputQueue == base.outputQueue + [r.out]
      ensures r.base.inputQueue == base.inputQueue && r.altBit == altBit
    {
      var (b, m) := base.AppPhase(tcpStatus);
      if m.Some? then this.(base := b).ReceiveFromApp(m.value) else this.(base := b)
    }

    /** The dequeue phase of step, with receive_from_network. */
    function StepNetwork(): (r: AltSenderState)
      ensures r.base.outputQueue == base.outputQueue && r.out == out
      ensures r.base.inputQueue == if |base.inputQueue| > 0 then base.inputQueue[1..] else base.inputQueue
      ensures r.altBit != altBit ==> r.ready
    {
      var (b, seg) := base.NextInbound();
      if seg.Some? then this.(base := b).ReceiveFromNetwork(seg.value) else this.(base := b)
    }

    /** The timer phase of step, with on_interrupt. */
    function StepTimer(): (r: AltSenderState)
      ensures r.base.outputQueue == base.outputQueue || r.base.outputQueue == base.outputQueue + [out]
      ensures r.out == out && r.ready == ready && r.altBit == altBit && r.base.inputQueue == base.inputQueue
    {
      var (b, fired) := base.TimerPhase();
      if fired then this.(base := b).OnInterrupt() else this.(base := b)
    }

    /**
     * One BaseSender.step with this endpoint's handlers. It sends at most two
     * segments, each of them the stored segment (a first transmission and a
     * retransmission), takes at most one inbound segment, and changes the bit
     * only by completing a round.
     */
    function Step(tcpStatus: string): (r: AltSenderState)
      ensures |base.outputQueue| <= |r.base.outputQueue| <= |base.outputQueue| + 2
      ensures r.base.outputQueue[..|base.outputQueue|] == base.outputQueue
      ensures forall k :: |base.outputQueue| <= k < |r.base.outputQueue| ==> r.base.outputQueue[k] == r.out
      ensures r.base.inputQueue == if |base.inputQueue| > 0 then base.inputQueue[1..] else base.inputQueue
      ensures r.altBit != altBit ==> r.ready
    {
      StepApp(tcpStatus).StepNetwork().StepTimer()
    }
  }

  /** A freshly constructed AltSender. */
  function InitAltSender(appInterval: int): AltSenderState {
    AltSenderState(InitSender(appInterval), true, false, Segment("", ToReceiver, false))
  }

  /**
   * A message the generator produces while the sender waits for an ACK is
   * consumed (its number is used up) but neither sent nor stored: the calls
   * that would block the generator are disabled in the sender.
   */
  lemma WaitingSenderDropsAppMessages(s: AltSenderState, tcpStatus: string)
    requires !s.ready
    ensures var s' := s.StepApp(tcpStatus);
      !s'.ready && s'.altBit == s.altBit && s'.out == s.out &&
      s'.base.outputQueue == s.base.outputQueue &&
      (s.base.appTimer + 1 >= s.base.appInterval && !s.base.blocked && tcpStatus == "" ==>
         s'.base.appCount == s.base.appCount + 1)
  {
  }

  /** The alternating-bit sender never changes the blocked flag. */
  lemma AltSenderNeverBlocks(s: AltSenderState, tcpStatus: string)
    ensures s.Step(tcpStatus).base.blocked == s.base.blocked
  {
  }

  /** The acknowledgement that carries `bit`. */
  function Ack(bit: bool): Segment {
    Segment(ACK, ToSender, bit)
  }

  /** The alternating-bit receiver: the base fields and the bit it awaits. */
  datatype AltReceiverState = AltReceiverState(base: ReceiverCore, altBit: bool)
  {
    /**
     * A corrupted segment or a duplicate (the other bit) is answered with the
     * opposite bit and not delivered; a segment with the awaited bit is
     * delivered, acknowledged with that bit, and the awaited bit flips.
     */
    function ReceiveFromClient(seg: Segment): (r: AltReceiverState)
      ensures IsCorrupted(seg.msg) || seg.altBit != altBit ==>
        r.base.outputQueue == base.outputQueue + [Ack(!altBit)] &&
        r.base.receivedCount == base.receivedCount && r.base.appside == base.appside &&
        r.altBit == altBit
      ensures !IsCorrupted(seg.msg) && seg.altBit == altBit ==>
        r.base.receivedCount == base.receivedCount + 1 && r.base.appside == seg.msg &&
        r.base.outputQueue == base.outputQueue + [Ack(altBit)] &&
        r.altBit == !altBit
      ensures r.base.inputQueue == base.inputQueue
    {
      if IsCorrupted(seg.msg) then
        this.(base := base.SendToNetwork(Ack(!altBit)))
      else if altBit == seg.altBit then
        AltReceiverState(base.SendToApp(seg.msg).SendToNetwork(Ack(altBit)), !altBit)
      else
        this.(base := base.SendToNetwork(Ack(!altBit)))
    }

    /**
     * One BaseReceiver.step. It takes at most one segment; the application
     * count grows by one exactly when that segment is intact and carries the
     * awaited bit, and then the report is its message; otherwise the report
     * is whatever was latched before. The latch ends reset.
     */
    function Step(): (r: (AltReceiverState, string))
      ensures r.0.base.appside == NOTHING
      ensures r.0.base.receivedCount == base.receivedCount + 1 <==>
        |base.inputQueue| > 0 && !IsCorrupted(base.inputQueue[0].msg) && base.inputQueue[0].altBit == altBit
      ensures r.0.base.receivedCount == base.receivedCount + 1 ==> r.1 == base.inputQueue[0].msg
      ensures r.0.base.receivedCount != base.receivedCount + 1 ==>
        r.0.base.receivedCount == base.receivedCount && r.1 == base.appside && r.0.altBit == altBit
      ensures r.0.base.inputQueue == if |base.inputQueue| > 0 then base.inputQueue[1..] else []
    {
      var (b1, seg) := base.NextInbound();
      var r1 := if seg.Some? then this.(base := b1).ReceiveFromClient(seg.value) else this.(base := b1);
      var (b2, report) := r1.base.TakeAppside();
      (r1.(base := b2), report)
    }
  }

  /** A freshly constructed AltReceiver. */
  function InitAltReceiver(): AltReceiverState {
    AltReceiverState(InitReceiver(), false)
  }

  // ---------------------------------------------------------------------------
  // The classes
  // ---------------------------------------------------------------------------

  class NaiveSender {
    const base: BaseSender

    function Model(): NaiveSenderState
      reads base
    {
      NaiveSenderState(base.Model())
    }

    constructor (appInterval: int)
      ensures fresh(base) && Model() == NaiveSenderState(InitSender(appInterval))
    {
      base := new BaseSender(appInterval);
    }

    /** Sends `msg` unchanged in one segment addressed to the receiver. */
    method ReceiveFromApp(msg: string)
      modifies base
      ensures base.outputQueue == old(base.outputQueue) + [Segment(msg, ToReceiver, false)]
      ensures Model() == old(Model()).ReceiveFromApp(msg)
    {
      var seg := Segment(msg, ToReceiver, false);
      base.SendToNetwork(seg);
    }

    /** Nothing to do. */
    method ReceiveFromNetwork(seg: Segment)
      ensures Model() == old(Model()).ReceiveFromNetwork(seg)
    {
    }

    /** Nothing to do. */
    method OnInterrupt()
      ensures Model() == old(Model()).OnInterrupt()
    {
    }

    method Step(tcpStatus: string)
      modifies base
      ensures Model() == old(Model()).Step(tcpStatus)
    {
      var msg := base.AppPhase(tcpStatus);
      if msg.Some? {
        ReceiveFromApp(msg.value);
      }
      var seg := base.NextInbound();
      if seg.Some? {
        ReceiveFromNetwork(seg.value);
      }
      var fired := base.TimerPhase();
      if fired {
        OnInterrupt();
      }
    }
  }

  class NaiveReceiver {
    const base: BaseReceiver

    function Model(): NaiveReceiverState
      reads base
    {
      NaiveReceiverState(base.Model())
    }

    constructor ()
      ensures fresh(base) && Model() == NaiveReceiverState(InitReceiver())
    {
      base := new BaseReceiver();
    }

    /** Delivers the segment's message unconditionally; sends nothing. */
    method ReceiveFromClient(seg: Segment)
      modifies base
      ensures base.receivedCount == old(base.receivedCount) + 1 && base.appside == seg.msg
      ensures base.outputQueue == old(base.outputQueue)
      ensures Model() == old(Model()).ReceiveFromClient(seg)
    {
      base.SendToApp(seg.msg);
    }

    method Step() returns (report: string)
      modifies base
      ensures (Model(), report) == old(Model()).Step()
    {
      var seg := base.NextInbound();
      if seg.Some? {
        ReceiveFromClient(seg.value);
      }
      report := base.TakeAppside();
    }
  }

  class AltSender {
    const base: BaseSender
    /** The source's `state`: true = waiting for the application layer. */
    var ready: bool
    var altBit: bool
    var out: Segment

    function Model(): AltSenderState
      reads this, base
    {
      AltSenderState(base.Model(), ready, altBit, out)
    }

    constructor (appInterval: int)
      ensures fresh(base) && Model() == InitAltSender(appInterval)
    {
      base := new BaseSender(appInterval);
      ready := true;
      altBit := false;
      out := Segment("", ToReceiver, false);
    }

    /**
     * Ready: stores Segment(msg, receiver, altBit) as `out`, sends exactly
     * that segment, starts waiting and arms the timer with ALT_BIT_INTERVAL.
     * Waiting: nothing is sent and nothing changes.
     */
    method ReceiveFromApp(msg: string)
      modifies this, base
      ensures old(ready) ==>
        out == Segment(msg, ToReceiver, old(altBit)) &&
        base.outputQueue == old(base.outputQueue) + [out] &&
        !ready && altBit == old(altBit) &&
        base.customEnabled && base.customInterval == ALT_BIT_INTERVAL && base.customTimer == 0
      ensures !old(ready) ==> Model() == old(Model())
      ensures Model() == old(Model()).ReceiveFromApp(msg)
    {
      if ready {
        out := Segment(msg, ToReceiver, altBit);
        base.SendToNetwork(out);
        ready := !ready;
        base.StartTimer(ALT_BIT_INTERVAL);
      }
    }

    /**
     * Waiting, with an intact segment carrying the awaited bit: the timer is
     * disarmed, the sender is ready again and its bit flips. In every other
     * case (corrupted, wrong bit, or already ready) nothing changes.
     */
    method ReceiveFromNetwork(seg: Segment)
      modifies this, base
      ensures !old(ready) && !IsCorrupted(seg.msg) && seg.altBit == old(altBit) ==>
        ready && altBit == !old(altBit) && !base.customEnabled &&
        out == old(out) && base.outputQueue == old(base.outputQueue)
      ensures old(ready) || IsCorrupted(seg.msg) || seg.altBit != old(altBit) ==>
        Model() == old(Model())
      ensures Model() == old(Model()).ReceiveFromNetwork(seg)
    {
      if !ready {
        if !IsCorrupted(seg.msg) && seg.altBit == altBit {
          base.EndTimer();
          ready := !ready;
          altBit := !altBit;
        }
      }
    }

    /**
     * Waiting: re-sends exactly the stored segment and re-arms the timer with
     * ALT_BIT_INTERVAL. Ready: nothing changes.
     */
    method OnInterrupt()
      modifies this, base
      ensures !old(ready) ==>
        base.outputQueue == old(base.outputQueue) + [old(out)] &&
        base.customEnabled && base.customInterval == ALT_BIT_INTERVAL && base.customTimer == 0 &&
        ready == old(ready) && altBit == old(altBit) && out == old(out)
      ensures old(ready) ==> Model() == old(Model())
      ensures Model() == old(Model()).OnInterrupt()
    {
      if !ready {
        base.SendToNetwork(out);
        base.StartTimer(ALT_BIT_INTERVAL);
      }
    }

    method Step(tcpStatus: string)
      modifies this, base
      ensures Model() == old(Model()).Step(tcpStatus)
    {
      StepApp(tcpStatus);
      StepNetwork();
      StepTimer();
    }

    /** The generator phase of step, with receive_from_app. */
    method StepApp(tcpStatus: string)
      modifies this, base
      ensures Model() == old(Model()).StepApp(tcpStatus)
    {
      var msg := base.AppPhase(tcpStatus);
      if msg.Some? {
        ReceiveFromApp(msg.value);
      }
    }

    /** The dequeue phase of step, with receive_from_network. */
    method StepNetwork()
      modifies this, base
      ensures Model() == old(Model()).StepNetwork()
    {
      var seg := base.NextInbound();
      if seg.Some? {
        ReceiveFromNetwork(seg.value);
      }
    }

    /** The timer phase of step, with on_interrupt. */
    method StepTimer()
      modifies this, base
      ensures Model() == old(Model()).StepTimer()
    {
      var fired := base.TimerPhase();
      if fired {
        OnInterrupt();
      }
    }
  }

  class AltReceiver {
    const base: BaseReceiver
    var altBit: bool

    function Model(): AltReceiverState
      reads this, base
    {
      AltReceiverState(base.Model(), altBit)
    }

    constructor ()
      ensures fresh(base) && Model() == InitAltReceiver()
    {
      base := new BaseReceiver();
      altBit := false;
    }

    /**
     * Corrupted: replies with an ACK of the opposite bit, delivers nothing,
     * keeps its bit. Intact with the awaited bit: delivers the message once,
     * replies with an ACK of that bit, then flips its bit. Intact with the
     * other bit (a duplicate): replies with an ACK of the opposite bit,
     * delivers nothing, keeps its bit.
     */
    method ReceiveFromClient(seg: Segment)
      modifies this, base
      ensures IsCorrupted(seg.msg) || seg.altBit != old(altBit) ==>
        base.outputQueue == old(base.outputQueue) + [Ack(!old(altBit))] &&
        base.receivedCount == old(base.receivedCount) && base.appside == old(base.appside) &&
        altBit == old(altBit)
      ensures !IsCorrupted(seg.msg) && seg.altBit == old(altBit) ==>
        base.receivedCount == old(base.receivedCount) + 1 && base.appside == seg.msg &&
        base.outputQueue == old(base.outputQueue) + [Ack(old(altBit))] &&
        altBit == !old(altBit)
      ensures base.inputQueue == old(base.inputQueue)
      ensures Model() == old(Model()).ReceiveFromClient(seg)
    {
      if IsCorrupted(seg.msg) {
        var ack := Segment(ACK, ToSender, !altBit);
        base.SendToNetwork(ack);
      } else {
        if altBit == seg.altBit {
          base.SendToApp(seg.msg);
          var ack := Segment(ACK, ToSender, altBit);
          base.SendToNetwork(ack);
          altBit := !altBit;
        } else {
          var ack := Segment(ACK, ToSender, !altBit);
          base.SendToNetwork(ack);
        }
      }
    }

    method Step() returns (report: string)
      modifies this, base
      ensures (Model(), report) == old(Model()).Step()
    {
      var seg := base.NextInbound();
      if seg.Some? {
        ReceiveFromClient(seg.value);
      }
      report := base.TakeAppside();
    }
  }
}
