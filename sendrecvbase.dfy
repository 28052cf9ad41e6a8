/**
 * The endpoint base classes: the network queues, the application-message
 * generator, the single-shot timer and the flow-control flag of a sender, and
 * the queues and the application-side report of a receiver.
 *
 * Each base class is given twice: as a value (SenderCore, ReceiverCore) whose
 * member functions specify every operation, and as a class (BaseSender,
 * BaseReceiver) whose fields the methods update in place and whose Model()
 * the methods are proved to move exactly as those functions say.
 *
 * The source's BaseSender.step calls the hooks receive_from_app,
 * receive_from_network and on_interrupt that a concrete sender overrides.
 * Dafny has no inheritance here, so step is split into its three phases
 * (AppPhase, NextInbound, TimerPhase); each concrete sender runs them in the
 * source's order and calls its own handler between them.
 */
module SendRecvBase {
  import opened Wrappers
  import opened Segments

  // ---------------------------------------------------------------------------
  // Sender
  // ---------------------------------------------------------------------------

  /** The fields of a BaseSender. Queues hold the oldest segment first. */
  datatype SenderCore = SenderCore(
    inputQueue: seq<Segment>,
    outputQueue: seq<Segment>,
    appInterval: int,
    appTimer: nat,
    appCount: nat,
    customEnabled: bool,
    customInterval: int,
    customTimer: nat,
    blocked: bool)
  {
    /** Put a segment at the back of the outbound queue. */
    function SendToNetwork(seg: Segment): SenderCore {
      this.(outputQueue := outputQueue + [seg])
    }

    function DisallowAppMsgs(): SenderCore {
      this.(blocked := true)
    }

    function AllowAppMsgs(): SenderCore {
      this.(blocked := false)
    }

    /** Arm the single-shot timer so that it fires after `interval` timer phases. */
    function StartTimer(interval: int): SenderCore {
      this.(customEnabled := true, customInterval := interval, customTimer := 0)
    }

    /** Disarm the timer; its count and interval stay as they are. */
    function EndTimer(): SenderCore {
      this.(customEnabled := false)
    }

    /**
     * First phase of step: the application-message generator. The second
     * component is the message step hands to receive_from_app, if any.
     */
    function AppPhase(tcpStatus: string): (SenderCore, Option<string>) {
      var t := appTimer + 1;
      if t >= appInterval && !blocked then
        if tcpStatus == "" then
          (this.(appTimer := 0, appCount := appCount + 1), Some(MessageText(appCount + 1)))
        else
          (this.(appTimer := 0), Some(StatusText(tcpStatus)))
      else
        (this.(appTimer := t), None)
    }

    /** Second phase of step: take the oldest inbound segment, if there is one. */
    function NextInbound(): (SenderCore, Option<Segment>) {
      if |inputQueue| == 0 then (this, None)
      else (this.(inputQueue := inputQueue[1..]), Some(inputQueue[0]))
    }

    /** Third phase of step: advance an armed timer; true when it fires. */
    function TimerPhase(): (SenderCore, bool) {
      if !customEnabled then (this, false)
      else if customTimer + 1 >= customInterval then
        (this.(customTimer := 0, customEnabled := false), true)
      else
        (this.(customTimer := customTimer + 1), false)
    }
  }

  /** A freshly constructed BaseSender. */
  function InitSender(appInterval: int): SenderCore {
    SenderCore([], [], appInterval, 0, 0, false, 0, 0, false)
  }

  // ---------------------------------------------------------------------------
  // Repeated phases: what the generator and the timer do over many ticks
  // ---------------------------------------------------------------------------

  /**
   * The generator phase run once per entry of `statuses` (one tick each, with
   * that tick's TCP status); the messages handed to receive_from_app, tick by tick.
   */
  function AppRun(c: SenderCore, statuses: seq<string>): (r: (SenderCore, seq<Option<string>>))
    ensures |r.1| == |statuses|
    decreases |statuses|
  {
    if |statuses| == 0 then (c, [])
    else
      var (c1, m) := c.AppPhase(statuses[0]);
      var (c2, ms) := AppRun(c1, statuses[1..]);
      (c2, [m] + ms)
  }

  /** While the application source is blocked, the generator never produces a message. */
  lemma {:induction false} BlockedGeneratesNothing(c: SenderCore, statuses: seq<string>)
    requires c.blocked
    ensures forall i :: 0 <= i < |statuses| ==> AppRun(c, statuses).1[i].None?
    ensures AppRun(c, statuses).0.appCount == c.appCount
    decreases |statuses|
  {
    if |statuses| > 0 {
      BlockedGeneratesNothing(c.AppPhase(statuses[0]).0, statuses[1..]);
    }
  }

  /**
   * With the source unblocked and the timer below the interval, the generator
   * stays silent until the app timer reaches app_interval and then produces
   * exactly one message, resetting the app timer to 0.
   */
  lemma {:induction false} GeneratorFiresAtInterval(c: SenderCore, statuses: seq<string>)
    requires !c.blocked && c.appTimer < c.appInterval
    requires |statuses| == c.appInterval - c.appTimer
    ensures forall i :: 0 <= i < |statuses| ==> (AppRun(c, statuses).1[i].Some? <==> i == |statuses| - 1)
    ensures AppRun(c, statuses).0.appTimer == 0
    decreases |statuses|
  {
    var (c1, m) := c.AppPhase(statuses[0]);
    if |statuses| > 1 {
      GeneratorFiresAtInterval(c1, statuses[1..]);
    }
  }

  /** In normal operation every generated message is 'message N' for the next N. */
  lemma {:induction false} GeneratedNumbersIncrease(c: SenderCore, statuses: seq<string>)
    requires forall i :: 0 <= i < |statuses| ==> statuses[i] == ""
    ensures AppRun(c, statuses).0.appCount >= c.appCount
    ensures forall i :: 0 <= i < |statuses| && AppRun(c, statuses).1[i].Some? ==>
      exists n: nat :: c.appCount < n <= AppRun(c, statuses).0.appCount &&
        AppRun(c, statuses).1[i].value == MessageText(n) &&
        forall j :: i < j < |statuses| && AppRun(c, statuses).1[j].Some? ==>
          exists n': nat :: n < n' && AppRun(c, statuses).1[j].value == MessageText(n')
    decreases |statuses|
  {
    if |statuses| > 0 {
      var (c1, m) := c.AppPhase(statuses[0]);
      GeneratedNumbersIncrease(c1, statuses[1..]);
    }
  }

  /** In normal operation the generator never produces the same message twice. */
  lemma GeneratedMessagesDistinct(c: SenderCore, statuses: seq<string>, i: nat, j: nat)
    requires forall k :: 0 <= k < |statuses| ==> statuses[k] == ""
    requires i < j < |statuses|
    requires AppRun(c, statuses).1[i].Some? && AppRun(c, statuses).1[j].Some?
    ensures AppRun(c, statuses).1[i].value != AppRun(c, statuses).1[j].value
  {
    GeneratedNumbersIncrease(c, statuses);
    var ms := AppRun(c, statuses).1;
    var n: nat :| c.appCount < n <= AppRun(c, statuses).0.appCount && ms[i].value == MessageText(n) &&
      forall j' :: i < j' < |statuses| && ms[j'].Some? ==>
        exists n': nat :: n < n' && ms[j'].value == MessageText(n');
    var n': nat :| n < n' && ms[j].value == MessageText(n');
    MessageTextInjective(n, n');
  }

  /** The timer phase run `ticks` times; whether it fired, tick by tick. */
  function TimerRun(c: SenderCore, ticks: nat): (r: (SenderCore, seq<bool>))
    ensures |r.1| == ticks
    decreases ticks
  {
    if ticks == 0 then (c, [])
    else
      var (c1, f) := c.TimerPhase();
      var (c2, fs) := TimerRun(c1, ticks - 1);
      (c2, [f] + fs)
  }

  /** A disarmed timer never fires and its phases change nothing. */
  lemma {:induction false} DisabledTimerSilent(c: SenderCore, ticks: nat)
    requires !c.customEnabled
    ensures TimerRun(c, ticks).0 == c
    ensures forall i :: 0 <= i < ticks ==> !TimerRun(c, ticks).1[i]
    decreases ticks
  {
    if ticks > 0 {
      DisabledTimerSilent(c, ticks - 1);
    }
  }

  /** The tick (counted from 0) on which an armed timer fires. */
  function FiringTick(c: SenderCore): nat {
    if c.customTimer + 1 >= c.customInterval then 0 else c.customInterval - c.customTimer - 1
  }

  /**
   * An armed timer, left alone, fires on exactly one tick, FiringTick, and
   * never again: firing disarms it and resets its count to 0.
   */
  lemma {:induction false} ArmedTimerFiresOnce(c: SenderCore, ticks: nat)
    requires c.customEnabled
    ensures forall i :: 0 <= i < ticks ==> (TimerRun(c, ticks).1[i] <==> i == FiringTick(c))
    ensures ticks > FiringTick(c) ==>
      !TimerRun(c, ticks).0.customEnabled && TimerRun(c, ticks).0.customTimer == 0
    decreases ticks
  {
    if ticks > 0 {
      var (c1, f) := c.TimerPhase();
      if f {
        DisabledTimerSilent(c1, ticks - 1);
      } else {
        ArmedTimerFiresOnce(c1, ticks - 1);
      }
    }
  }

  /**
   * start_timer(k) followed by undisturbed ticks: the timer fires on the k-th
   * tick after it was armed (on the first, for k <= 1), exactly once.
   */
  lemma StartedTimerFiresOnKthTick(c: SenderCore, k: int, ticks: nat)
    ensures forall i :: 0 <= i < ticks ==>
      (TimerRun(c.StartTimer(k), ticks).1[i] <==> i + 1 == if k <= 1 then 1 else k)
  {
    ArmedTimerFiresOnce(c.StartTimer(k), ticks);
  }

  // ---------------------------------------------------------------------------
  // Receiver
  // ---------------------------------------------------------------------------

  /** The fields of a BaseReceiver. Queues hold the oldest segment first. */
  datatype ReceiverCore = ReceiverCore(
    inputQueue: seq<Segment>,
    outputQueue: seq<Segment>,
    receivedCount: nat,
    appside: string)
  {
    function SendToNetwork(seg: Segment): ReceiverCore {
      this.(outputQueue := outputQueue + [seg])
    }

    /** Hand a message to the application: count it and latch it for step's report. */
    function SendToApp(msg: string): ReceiverCore {
      this.(receivedCount := receivedCount + 1, appside := msg)
    }

    /** First part of step: take the oldest inbound segment, if there is one. */
    function NextInbound(): (ReceiverCore, Option<Segment>) {
      if |inputQueue| == 0 then (this, None)
      else (this.(inputQueue := inputQueue[1..]), Some(inputQueue[0]))
    }

    /** Last part of step: report the latched message and reset the latch. */
    function TakeAppside(): (ReceiverCore, string) {
      (this.(appside := NOTHING), appside)
    }
  }

  /** A freshly constructed BaseReceiver. */
  function InitReceiver(): ReceiverCore {
    ReceiverCore([], [], 0, NOTHING)
  }

  // ---------------------------------------------------------------------------
  // The classes
  // ---------------------------------------------------------------------------

  class BaseSender {
    var inputQueue: seq<Segment>
    var outputQueue: seq<Segment>
    var appInterval: int
    var appTimer: nat
    var appCount: nat
    var customEnabled: bool
    var customInterval: int
    var customTimer: nat
    var blocked: bool

    /** The object's fields as a value. */
    function Model(): SenderCore
      reads this
    {
      SenderCore(inputQueue, outputQueue, appInterval, appTimer, appCount,
                 customEnabled, customInterval, customTimer, blocked)
    }

    constructor (appInterval: int)
      ensures Model() == InitSender(appInterval)
    {
      inputQueue, outputQueue := [], [];
      this.appInterval := appInterval;
      appTimer, appCount := 0, 0;
      customEnabled, customInterval, customTimer := false, 0, 0;
      blocked := false;
    }

    /** Appends `seg` to the outbound queue and changes nothing else. */
    method SendToNetwork(seg: Segment)
      modifies this
      ensures outputQueue == old(outputQueue) + [seg]
      ensures Model() == old(Model()).SendToNetwork(seg)
    {
      outputQueue := outputQueue + [seg];
    }

    /** Blocks the application source; idempotent; nothing else changes. */
    method DisallowAppMsgs()
      modifies this
      ensures blocked
      ensures Model() == old(Model()).DisallowAppMsgs()
    {
      blocked := true;
    }

    /** Unblocks the application source; idempotent; nothing else changes. */
    method AllowAppMsgs()
      modifies this
      ensures !blocked
      ensures Model() == old(Model()).AllowAppMsgs()
    {
      blocked := false;
    }

    /** Arms the timer with the given interval and a count of 0. */
    method StartTimer(interval: int)
      modifies this
      ensures customEnabled && customInterval == interval && customTimer == 0
      ensures Model() == old(Model()).StartTimer(interval)
    {
      customEnabled := true;
      customInterval := interval;
      customTimer := 0;
    }

    /** Disarms the timer and touches nothing else (count and interval stay). */
    method EndTimer()
      modifies this
      ensures !customEnabled
      ensures Model() == old(Model()).EndTimer()
    {
      customEnabled := false;
    }

    /**
     * The generator phase of step. The app timer always advances; when it
     * reaches app_interval and the source is not blocked, exactly one message
     * is returned for receive_from_app and the app timer goes back to 0.
     */
    method AppPhase(tcpStatus: string) returns (msg: Option<string>)
      modifies this
      ensures msg.Some? <==> old(appTimer) + 1 >= appInterval && !blocked
      ensures msg.Some? ==> appTimer == 0
      ensures msg.None? ==> appTimer == old(appTimer) + 1 && appCount == old(appCount)
      ensures msg.Some? && tcpStatus == "" ==>
        appCount == old(appCount) + 1 && msg.value == MessageText(appCount)
      ensures msg.Some? && tcpStatus != "" ==>
        appCount == old(appCount) && msg.value == StatusText(tcpStatus)
      ensures (Model(), msg) == old(Model()).AppPhase(tcpStatus)
    {
      appTimer := appTimer + 1;
      msg := None;
      if appTimer >= appInterval && !blocked {
        if tcpStatus == "" {
          appCount := appCount + 1;
          msg := Some(MessageText(appCount));
        } else {
          msg := Some(StatusText(tcpStatus));
        }
        appTimer := 0;
      }
    }

    /** The dequeue phase of step: at most one segment, the oldest one. */
    method NextInbound() returns (seg: Option<Segment>)
      modifies this
      ensures old(inputQueue) == [] ==> seg.None? && Model() == old(Model())
      ensures old(inputQueue) != [] ==>
        seg == Some(old(inputQueue)[0]) && inputQueue == old(inputQueue)[1..]
      ensures (Model(), seg) == old(Model()).NextInbound()
    {
      if |inputQueue| == 0 {
        seg := None;
      } else {
        seg := Some(inputQueue[0]);
        inputQueue := inputQueue[1..];
      }
    }

    /**
     * The timer phase of step. A disarmed timer does nothing. An armed timer
     * counts one tick; when the count reaches the interval it is disarmed,
     * its count reset to 0, and `fired` tells the caller to run on_interrupt.
     */
    method TimerPhase() returns (fired: bool)
      modifies this
      ensures !old(customEnabled) ==> !fired && Model() == old(Model())
      ensures fired <==> old(customEnabled) && old(customTimer) + 1 >= customInterval
      ensures fired ==> !customEnabled && customTimer == 0
      ensures old(customEnabled) && !fired ==> customEnabled && customTimer == old(customTimer) + 1
      ensures (Model(), fired) == old(Model()).TimerPhase()
    {
      fired := false;
      if customEnabled {
        customTimer := customTimer + 1;
        if customTimer >= customInterval {
          customTimer := 0;
          customEnabled := false;
          fired := true;
        }
      }
    }
  }

  class BaseReceiver {
    var inputQueue: seq<Segment>
    var outputQueue: seq<Segment>
    var receivedCount: nat
    var appside: string

    function Model(): ReceiverCore
      reads this
    {
      ReceiverCore(inputQueue, outputQueue, receivedCount, appside)
    }

    constructor ()
      ensures Model() == InitReceiver()
    {
      inputQueue, outputQueue := [], [];
      receivedCount := 0;
      appside := NOTHING;
    }

    /** Appends `seg` to the outbound queue and changes nothing else. */
    method SendToNetwork(seg: Segment)
      modifies this
      ensures outputQueue == old(outputQueue) + [seg]
      ensures Model() == old(Model()).SendToNetwork(seg)
    {
      outputQueue := outputQueue + [seg];
    }

    /** Counts exactly one more delivery and latches the message for step's report. */
    method SendToApp(msg: string)
      modifies this
      ensures receivedCount == old(receivedCount) + 1 && appside == msg
      ensures Model() == old(Model()).SendToApp(msg)
    {
      receivedCount := receivedCount + 1;
      appside := msg;
    }

    /** The dequeue part of step: at most one segment, the oldest one. */
    method NextInbound() returns (seg: Option<Segment>)
      modifies this
      ensures old(inputQueue) == [] ==> seg.None? && Model() == old(Model())
      ensures old(inputQueue) != [] ==>
        seg == Some(old(inputQueue)[0]) && inputQueue == old(inputQueue)[1..]
      ensures (Model(), seg) == old(Model()).NextInbound()
    {
      if |inputQueue| == 0 {
        seg := None;
      } else {
        seg := Some(inputQueue[0]);
        inputQueue := inputQueue[1..];
      }
    }

    /** The report part of step: returns the latched message and resets the latch. */
    method TakeAppside() returns (report: string)
      modifies this
      ensures report == old(appside) && appside == NOTHING
      ensures (Model(), report) == old(Model()).TakeAppside()
    {
      report := appside;
      appside := NOTHING;
    }
  }
}
