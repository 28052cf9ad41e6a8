/**
 * The alternating-bit sender and receiver wired together through a network
 * that may lose, corrupt or duplicate segments but keeps each direction in
 * first-in first-out order, with every endpoint running its own step.
 *
 * The system also keeps two histories that the endpoints do not: the messages
 * the sender accepted from its application (`accepted`), and the messages the
 * receiver handed to its application (`delivered`), which is read off the
 * receiver's step report and count as the simulation does.
 *
 * Main result (ExactlyOnceInOrder): in every reachable state the delivered
 * messages are exactly the first accepted ones, in order, each once, and
 * whenever the sender is ready again every accepted message has been delivered.
 */
module AltBitSystem {
  import opened Wrappers
  import opened Segments
  import opened SendRecvBase
  import opened SendRecv

  // ---------------------------------------------------------------------------
  // The closed system
  // ---------------------------------------------------------------------------

  /** Forward carries the sender's output to the receiver; Backward the other way. */
  datatype Link = Forward | Backward

  /** What the network may do with the oldest segment waiting on a link. */
  datatype NetAction =
    | Transmit
    | Corrupt(prefix: string, suffix: string, bit: bool)
    | Duplicate
    | Lose

  datatype Event =
    | SenderTick(tcpStatus: string)
    | ReceiverTick
    | Network(link: Link, action: NetAction)

  datatype System = System(
    sender: AltSenderState,
    receiver: AltReceiverState,
    accepted: seq<string>,
    delivered: seq<string>)

  function Init(appInterval: int): System {
    System(InitAltSender(appInterval), InitAltReceiver(), [], [])
  }

  /** A corrupted copy of a segment: the marker somewhere in its text, any bit. */
  function Garble(seg: Segment, prefix: string, suffix: string, bit: bool): Segment {
    Segment(prefix + CORRUPTED + suffix, seg.dst, bit)
  }

  /** The network acting on one link: the sending side's output queue and the receiving side's input queue. */
  function Carry(act: NetAction, out: seq<Segment>, inq: seq<Segment>): (seq<Segment>, seq<Segment>) {
    if |out| == 0 then (out, inq)
    else match act
      case Transmit => (out[1..], inq + [out[0]])
      case Corrupt(p, q, bit) => (out[1..], inq + [Garble(out[0], p, q, bit)])
      case Duplicate => (out, inq + [out[0]])
      case Lose => (out[1..], inq)
  }

  /** The generator phase of the sender's step, recording a message the sender accepts. */
  function SenderApp(sys: System, tcpStatus: string): System {
    var s := sys.sender.StepApp(tcpStatus);
    var acc := if sys.sender.ready && !s.ready then sys.accepted + [s.out.msg] else sys.accepted;
    sys.(sender := s, accepted := acc)
  }

  function SenderNetwork(sys: System): System {
    sys.(sender := sys.sender.StepNetwork())
  }

  function SenderTimer(sys: System): System {
    sys.(sender := sys.sender.StepTimer())
  }

  /** One receiver step; a delivery is what the step reports when the count grows. */
  function ReceiverStep(sys: System): System {
    var (r, report) := sys.receiver.Step();
    var del := if r.base.receivedCount == sys.receiver.base.receivedCount + 1
               then sys.delivered + [report] else sys.delivered;
    sys.(receiver := r, delivered := del)
  }

  function NetworkStep(sys: System, link: Link, act: NetAction): System {
    match link
    case Forward =>
      var (out, inq) := Carry(act, sys.sender.base.outputQueue, sys.receiver.base.inputQueue);
      sys.(sender := sys.sender.(base := sys.sender.base.(outputQueue := out)),
           receiver := sys.receiver.(base := sys.receiver.base.(inputQueue := inq)))
    case Backward =>
      var (out, inq) := Carry(act, sys.receiver.base.outputQueue, sys.sender.base.inputQueue);
      sys.(sender := sys.sender.(base := sys.sender.base.(inputQueue := inq)),
           receiver := sys.receiver.(base := sys.receiver.base.(outputQueue := out)))
  }

  function Next(sys: System, e: Event): System {
    match e
    case SenderTick(tcpStatus) => SenderTimer(SenderNetwork(SenderApp(sys, tcpStatus)))
    case ReceiverTick => ReceiverStep(sys)
    case Network(link, act) => NetworkStep(sys, link, act)
  }

  function Run(sys: System, events: seq<Event>): System
    decreases |events|
  {
    if |events| == 0 then sys else Run(Next(sys, events[0]), events[1..])
  }

  /** A sender tick moves the sender exactly as AltSender.step does. */
  lemma SenderTickIsStep(sys: System, tcpStatus: string)
    ensures Next(sys, SenderTick(tcpStatus)).sender == sys.sender.Step(tcpStatus)
    ensures Next(sys, SenderTick(tcpStatus)).receiver == sys.receiver
  {
  }

  // ---------------------------------------------------------------------------
  // The invariant
  // ---------------------------------------------------------------------------

  /** The bit of round k (rounds count from 0; round 0 uses false). */
  function Bit(k: nat): bool {
    k % 2 == 1
  }

  lemma BitFlip(k: nat)
    ensures Bit(k + 1) == !Bit(k)
  {
  }

  /** The data segment of round k carrying message m. */
  function DataSeg(m: string, k: nat): Segment {
    Segment(m, ToReceiver, Bit(k))
  }

  predicate Clean(e: Segment) {
    !IsCorrupted(e.msg)
  }

  /** Everything sent from the sender towards the receiver, oldest first. */
  function DataChannel(sys: System): seq<Segment> {
    sys.receiver.base.inputQueue + sys.sender.base.outputQueue
  }

  /** Everything sent from the receiver towards the sender, oldest first. */
  function AckChannel(sys: System): seq<Segment> {
    sys.sender.base.inputQueue + sys.receiver.base.outputQueue
  }

  /** Once an intact segment with bit b appears, every later intact segment has bit b. */
  ghost predicate Settled(ch: seq<Segment>, b: bool) {
    forall i, j :: 0 <= i < j < |ch| && Clean(ch[i]) && Clean(ch[j]) && ch[i].altBit == b ==> ch[j].altBit == b
  }

  /**
   * An intact data segment is a copy of the last delivered round's segment or
   * of the next round's (which must then exist), d being the delivered count.
   */
  ghost predicate DataOk(e: Segment, accepted: seq<string>, d: nat) {
    Clean(e) ==>
      (0 < d <= |accepted| && e == DataSeg(accepted[d - 1], d - 1)) ||
      (d < |accepted| && e == DataSeg(accepted[d], d))
  }

  /**
   * An intact acknowledgement with the bit of round n (n accepted so far)
   * was sent before round n-1 was delivered and only exists while the sender
   * waits; one with the other bit confirms round n-1 and exists only once
   * every accepted message has been delivered.
   */
  ghost predicate AckOk(e: Segment, n: nat, d: nat, ready: bool) {
    Clean(e) ==> (e.altBit == Bit(n) ==> !ready) && (e.altBit != Bit(n) ==> d == n)
  }

  ghost predicate EndpointsOk(sys: System) {
    var n, d := |sys.accepted|, |sys.delivered|;
    && d <= n && sys.delivered == sys.accepted[..d]
    && sys.receiver.base.receivedCount == d
    && sys.receiver.altBit == Bit(d)
    && (sys.sender.ready ==> d == n && sys.sender.altBit == Bit(n))
    && (!sys.sender.ready ==>
          n >= 1 && d >= n - 1 && sys.sender.altBit == Bit(n - 1) &&
          sys.sender.out == DataSeg(sys.accepted[n - 1], n - 1))
  }

  ghost predicate ChannelsOk(sys: System) {
    var n, d := |sys.accepted|, |sys.delivered|;
    && (forall e :: e in DataChannel(sys) ==> DataOk(e, sys.accepted, d))
    && Settled(DataChannel(sys), Bit(d))
    && (forall e :: e in AckChannel(sys) ==> AckOk(e, n, d, sys.sender.ready))
    && Settled(AckChannel(sys), !Bit(n))
  }

  ghost predicate Inv(sys: System) {
    EndpointsOk(sys) && ChannelsOk(sys)
  }

  // ---------------------------------------------------------------------------
  // Sequence facts about Settled
  // ---------------------------------------------------------------------------

  lemma SettledDelete(ch: seq<Segment>, p: nat, b: bool)
    requires Settled(ch, b) && p < |ch|
    ensures Settled(ch[..p] + ch[p + 1..], b)
  {
    var c := ch[..p] + ch[p + 1..];
    forall i, j | 0 <= i < j < |c| && Clean(c[i]) && Clean(c[j]) && c[i].altBit == b
      ensures c[j].altBit == b
    {
      var i0 := if i < p then i else i + 1;
      var j0 := if j < p then j else j + 1;
      assert c[i] == ch[i0] && c[j] == ch[j0];
    }
  }

  lemma SettledTail(ch: seq<Segment>, b: bool)
    requires Settled(ch, b) && |ch| > 0
    ensures Settled(ch[1..], b)
  {
    SettledDelete(ch, 0, b);
    assert ch[..0] + ch[1..] == ch[1..];
  }

  lemma SettledDuplicate(ch: seq<Segment>, p: nat, b: bool)
    requires Settled(ch, b) && p < |ch|
    ensures Settled(ch[..p] + [ch[p]] + ch[p..], b)
  {
    var c := ch[..p] + [ch[p]] + ch[p..];
    forall i, j | 0 <= i < j < |c| && Clean(c[i]) && Clean(c[j]) && c[i].altBit == b
      ensures c[j].altBit == b
    {
      var i0 := if i <= p then i else i - 1;
      var j0 := if j <= p then j else j - 1;
      assert c[i] == ch[i0] && c[j] == ch[j0];
    }
  }

  lemma SettledReplace(ch: seq<Segment>, p: nat, g: Segment, b: bool)
    requires Settled(ch, b) && p < |ch| && !Clean(g)
    ensures Settled(ch[p := g], b)
  {
  }

  lemma SettledAppend(ch: seq<Segment>, e: Segment, b: bool)
    requires Settled(ch, b)
    requires Clean(e) && e.altBit != b ==> forall i :: 0 <= i < |ch| && Clean(ch[i]) ==> ch[i].altBit != b
    ensures Settled(ch + [e], b)
  {
  }

  /** What the network does to a link, seen on the whole channel (input queue, then output queue). */
  lemma CarryKeepsOrder(act: NetAction, out: seq<Segment>, inq: seq<Segment>, b: bool)
    requires Settled(inq + out, b)
    ensures Settled(Carry(act, out, inq).1 + Carry(act, out, inq).0, b)
    ensures forall e :: e in Carry(act, out, inq).1 + Carry(act, out, inq).0 ==> e in inq + out || !Clean(e)
  {
    var ch := inq + out;
    var (out', inq') := Carry(act, out, inq);
    if |out| > 0 {
      var p := |inq|;
      match act
      case Transmit =>
        assert inq' + out' == ch;
      case Corrupt(pre, suf, bit) =>
        var g := Garble(out[0], pre, suf, bit);
        MarkedIsCorrupted(pre, suf);
        assert inq' + out' == ch[p := g];
        SettledReplace(ch, p, g, b);
      case Duplicate =>
        assert inq' + out' == ch[..p] + [ch[p]] + ch[p..];
        SettledDuplicate(ch, p, b);
      case Lose =>
        assert inq' + out' == ch[..p] + ch[p + 1..];
        SettledDelete(ch, p, b);
    }
  }

  // ---------------------------------------------------------------------------
  // Every event keeps the invariant
  // ---------------------------------------------------------------------------

  lemma InitInv(appInterval: int)
    ensures Inv(Init(appInterval))
  {
  }

  lemma {:induction false} SenderAppInv(sys: System, tcpStatus: string)
    requires Inv(sys)
    ensures Inv(SenderApp(sys, tcpStatus))
  {
    var s := sys.sender;
    var (b, m) := s.base.AppPhase(tcpStatus);
    var sys' := SenderApp(sys, tcpStatus);
    var n, d := |sys.accepted|, |sys.delivered|;
    assert b.inputQueue == s.base.inputQueue && b.outputQueue == s.base.outputQueue;
    if m.Some? && s.ready {
      var seg := Segment(m.value, ToReceiver, s.altBit);
      assert sys'.sender == s.(base := b.SendToNetwork(seg).StartTimer(ALT_BIT_INTERVAL), ready := false, out := seg);
      assert sys'.accepted == sys.accepted + [m.value];
      assert DataChannel(sys') == DataChannel(sys) + [seg];
      assert AckChannel(sys') == AckChannel(sys);
      assert d == n && seg == DataSeg(sys'.accepted[d], d);
      assert sys'.accepted[..d] == sys.accepted[..d];
      forall e | e in DataChannel(sys') ensures DataOk(e, sys'.accepted, d) {
        if e in DataChannel(sys) {
          assert DataOk(e, sys.accepted, d);
        }
      }
      SettledAppend(DataChannel(sys), seg, Bit(d));
      BitFlip(n);
      forall e | e in AckChannel(sys') ensures AckOk(e, n + 1, d, false) {
        assert AckOk(e, n, d, true);
      }
      assert Settled(AckChannel(sys), Bit(n)) by {
        forall i | 0 <= i < |AckChannel(sys)| ensures AckOk(AckChannel(sys)[i], n, d, true) {
          assert AckChannel(sys)[i] in AckChannel(sys);
        }
      }
    } else {
      assert sys'.sender == s.(base := b);
      assert sys'.accepted == sys.accepted;
      assert DataChannel(sys') == DataChannel(sys);
      assert AckChannel(sys') == AckChannel(sys);
    }
  }

  lemma {:induction false} SenderNetworkInv(sys: System)
    requires Inv(sys)
    ensures Inv(SenderNetwork(sys))
  {
    var s := sys.sender;
    var sys' := SenderNetwork(sys);
    var n, d := |sys.accepted|, |sys.delivered|;
    var ch := AckChannel(sys);
    if |s.base.inputQueue| > 0 {
      var h := s.base.inputQueue[0];
      var b := s.base.(inputQueue := s.base.inputQueue[1..]);
      assert sys'.sender == s.(base := b).ReceiveFromNetwork(h);
      assert h == ch[0];
      assert AckChannel(sys') == ch[1..];
      assert DataChannel(sys') == DataChannel(sys);
      SettledTail(ch, !Bit(n));
      if !s.ready && Clean(h) && h.altBit == s.altBit {
        BitFlip(n - 1);
        assert AckOk(h, n, d, false);
        assert d == n;
        assert sys'.sender == s.(base := b.EndTimer(), ready := true, altBit := !s.altBit);
        forall j | 1 <= j < |ch| ensures AckOk(ch[j], n, d, true) {
          assert ch[j] in ch;
          assert AckOk(ch[j], n, d, false);
        }
        forall e | e in ch[1..] ensures AckOk(e, n, d, true) {
          var j :| 0 <= j < |ch[1..]| && ch[1..][j] == e;
          assert e == ch[j + 1];
        }
      } else {
        assert sys'.sender == s.(base := b);
      }
    } else {
      assert sys'.sender == s;
    }
  }

  lemma {:induction false} SenderTimerInv(sys: System)
    requires Inv(sys)
    ensures Inv(SenderTimer(sys))
  {
    var s := sys.sender;
    var (b, fired) := s.base.TimerPhase();
    var sys' := SenderTimer(sys);
    var n, d := |sys.accepted|, |sys.delivered|;
    assert b.inputQueue == s.base.inputQueue && b.outputQueue == s.base.outputQueue;
    assert AckChannel(sys') == AckChannel(sys);
    if fired && !s.ready {
      assert sys'.sender == s.(base := b.SendToNetwork(s.out).StartTimer(ALT_BIT_INTERVAL));
      assert DataChannel(sys') == DataChannel(sys) + [s.out];
      if d == n {
        BitFlip(d - 1);
        forall i | 0 <= i < |DataChannel(sys)| && Clean(DataChannel(sys)[i])
          ensures DataChannel(sys)[i].altBit != Bit(d)
        {
          assert DataChannel(sys)[i] in DataChannel(sys);
        }
      }
      SettledAppend(DataChannel(sys), s.out, Bit(d));
    } else {
      assert sys'.sender == s.(base := b);
      assert DataChannel(sys') == DataChannel(sys);
    }
  }

  /** The receiver takes an intact segment with the bit it awaits: the next round's message. */
  lemma {:induction false} ReceiverDeliversInv(sys: System)
    requires Inv(sys) && |sys.receiver.base.inputQueue| > 0
    requires Clean(sys.receiver.base.inputQueue[0]) && sys.receiver.base.inputQueue[0].altBit == sys.receiver.altBit
    ensures Inv(ReceiverStep(sys))
  {
    var r := sys.receiver;
    var sys' := ReceiverStep(sys);
    var n, d := |sys.accepted|, |sys.delivered|;
    var ch := DataChannel(sys);
    var acks := AckChannel(sys);
    var h := r.base.inputQueue[0];
    var b1 := r.base.(inputQueue := r.base.inputQueue[1..]);
    var ack := Ack(r.altBit);
    assert h == ch[0] && h in ch;
    assert DataOk(h, sys.accepted, d);
    BitFlip(d);
    if 0 < d {
      BitFlip(d - 1);
    }
    assert d < n && h == DataSeg(sys.accepted[d], d);
    assert !sys.sender.ready && d == n - 1;
    assert sys'.receiver == AltReceiverState(b1.SendToApp(h.msg).SendToNetwork(ack).(appside := NOTHING), !r.altBit);
    assert sys'.delivered == sys.delivered + [sys.accepted[d]];
    assert sys.accepted[..d + 1] == sys.accepted[..d] + [sys.accepted[d]];
    assert EndpointsOk(sys');
    assert DataChannel(sys') == ch[1..];
    assert AckChannel(sys') == acks + [ack];
    SettledTail(ch, Bit(d));
    BitFlip(n - 1);
    forall j | 1 <= j < |ch| ensures DataOk(ch[j], sys.accepted, d + 1) {
      assert ch[j] in ch;
      assert DataOk(ch[j], sys.accepted, d);
    }
    forall e | e in ch[1..] ensures DataOk(e, sys.accepted, d + 1) {
      var j :| 0 <= j < |ch[1..]| && ch[1..][j] == e;
      assert e == ch[j + 1];
    }
    forall e | e in AckChannel(sys') ensures AckOk(e, n, d + 1, false) {
      if e in acks {
        assert AckOk(e, n, d, false);
      }
    }
    SettledAppend(acks, ack, !Bit(n));
  }

  /** The receiver takes a corrupted segment or a duplicate: it only acknowledges. */
  lemma {:induction false} ReceiverRefusesInv(sys: System)
    requires Inv(sys) && |sys.receiver.base.inputQueue| > 0
    requires !Clean(sys.receiver.base.inputQueue[0]) || sys.receiver.base.inputQueue[0].altBit != sys.receiver.altBit
    ensures Inv(ReceiverStep(sys))
  {
    var r := sys.receiver;
    var sys' := ReceiverStep(sys);
    var n, d := |sys.accepted|, |sys.delivered|;
    var ch := DataChannel(sys);
    var acks := AckChannel(sys);
    var b1 := r.base.(inputQueue := r.base.inputQueue[1..]);
    var ack := Ack(!r.altBit);
    assert sys'.receiver == r.(base := b1.SendToNetwork(ack).(appside := NOTHING));
    assert sys'.delivered == sys.delivered;
    assert EndpointsOk(sys');
    assert DataChannel(sys') == ch[1..];
    assert AckChannel(sys') == acks + [ack];
    SettledTail(ch, Bit(d));
    BitFlip(d);
    if d < n {
      BitFlip(n - 1);
      forall i | 0 <= i < |acks| && Clean(acks[i]) ensures acks[i].altBit != !Bit(n) {
        assert acks[i] in acks;
        assert AckOk(acks[i], n, d, sys.sender.ready);
      }
    }
    SettledAppend(acks, ack, !Bit(n));
  }

  lemma ReceiverStepInv(sys: System)
    requires Inv(sys)
    ensures Inv(ReceiverStep(sys))
  {
    var r := sys.receiver;
    if |r.base.inputQueue| == 0 {
      assert ReceiverStep(sys) == sys.(receiver := r.(base := r.base.(appside := NOTHING)));
    } else if Clean(r.base.inputQueue[0]) && r.base.inputQueue[0].altBit == r.altBit {
      ReceiverDeliversInv(sys);
    } else {
      ReceiverRefusesInv(sys);
    }
  }

  lemma NetworkStepInv(sys: System, link: Link, act: NetAction)
    requires Inv(sys)
    ensures Inv(NetworkStep(sys, link, act))
  {
    var sys' := NetworkStep(sys, link, act);
    match link
    case Forward =>
      var out, inq := sys.sender.base.outputQueue, sys.receiver.base.inputQueue;
      CarryKeepsOrder(act, out, inq, Bit(|sys.delivered|));
      assert DataChannel(sys') == Carry(act, out, inq).1 + Carry(act, out, inq).0;
      assert AckChannel(sys') == AckChannel(sys);
    case Backward =>
      var out, inq := sys.receiver.base.outputQueue, sys.sender.base.inputQueue;
      CarryKeepsOrder(act, out, inq, !Bit(|sys.accepted|));
      assert AckChannel(sys') == Carry(act, out, inq).1 + Carry(act, out, inq).0;
      assert DataChannel(sys') == DataChannel(sys);
  }

  lemma NextInv(sys: System, e: Event)
    requires Inv(sys)
    ensures Inv(Next(sys, e))
  {
    match e
    case SenderTick(tcpStatus) =>
      SenderAppInv(sys, tcpStatus);
      SenderNetworkInv(SenderApp(sys, tcpStatus));
      SenderTimerInv(SenderNetwork(SenderApp(sys, tcpStatus)));
    case ReceiverTick =>
      ReceiverStepInv(sys);
    case Network(link, act) =>
      NetworkStepInv(sys, link, act);
  }

  lemma {:induction false} RunInv(sys: System, events: seq<Event>)
    requires Inv(sys)
    ensures Inv(Run(sys, events))
    decreases |events|
  {
    if |events| > 0 {
      NextInv(sys, events[0]);
      RunInv(Next(sys, events[0]), events[1..]);
    }
  }

  // ---------------------------------------------------------------------------
  // The end-to-end guarantee
  // ---------------------------------------------------------------------------

  /**
   * Whatever the network loses, corrupts or duplicates, and however the ticks
   * interleave: the receiver's application gets the accepted messages in
   * order, none twice and none skipped (the k-th delivery is the k-th
   * accepted message); its count agrees; and whenever the sender is ready
   * for a new message, every accepted message has been delivered.
   */
  lemma ExactlyOnceInOrder(appInterval: int, events: seq<Event>)
    ensures var sys := Run(Init(appInterval), events);
      |sys.delivered| <= |sys.accepted| &&
      sys.delivered == sys.accepted[..|sys.delivered|] &&
      sys.receiver.base.receivedCount == |sys.delivered| &&
      (sys.sender.ready ==> sys.delivered == sys.accepted)
  {
    InitInv(appInterval);
    RunInv(Init(appInterval), events);
  }

  /** Sender ready, nothing in flight in either direction, application source not blocked. */
  ghost predicate Quiescent(sys: System) {
    && Inv(sys)
    && sys.sender.ready && !sys.sender.base.blocked
    && sys.sender.base.inputQueue == [] && sys.sender.base.outputQueue == []
    && sys.receiver.base.inputQueue == [] && sys.receiver.base.outputQueue == []
  }

  /**
   * One round over a network that loses nothing: the sender's application
   * fires, the segment crosses, the receiver delivers and acknowledges, the
   * acknowledgement crosses, and the sender takes it on its next tick.
   */
  function LosslessRound(tcpStatus: string): seq<Event> {
    [SenderTick(""), Network(Forward, Transmit), ReceiverTick, Network(Backward, Transmit), SenderTick(tcpStatus)]
  }

  /** The first tick of a lossless round: the sender accepts 'message N' and sends it. */
  lemma RoundAccept(sys: System) returns (m: string)
    requires Quiescent(sys)
    requires sys.sender.base.appTimer + 1 >= sys.sender.base.appInterval
    ensures m == MessageText(sys.sender.base.appCount + 1) && Clean(DataSeg(m, |sys.accepted|))
    ensures var s1 := Next(sys, SenderTick(""));
      s1.accepted == sys.accepted + [m] && s1.delivered == sys.delivered &&
      s1.sender.base.outputQueue == [DataSeg(m, |sys.accepted|)] && s1.sender.base.inputQueue == [] &&
      !s1.sender.ready && s1.receiver == sys.receiver
  {
    m := MessageText(sys.sender.base.appCount + 1);
    MessageTextNotCorrupted(sys.sender.base.appCount + 1);
    var a := SenderApp(sys, "");
    assert a.sender.base.outputQueue == [DataSeg(m, |sys.accepted|)];
    assert a.sender.base.customEnabled && a.sender.base.customTimer == 0;
    assert a.sender.base.customInterval == ALT_BIT_INTERVAL;
  }

  /** The receiver's tick in a lossless round: it delivers and acknowledges. */
  lemma RoundDeliver(sys: System, m: string, k: nat)
    requires sys.receiver.altBit == Bit(k) && |sys.delivered| == k
    requires sys.receiver.base.inputQueue == [DataSeg(m, k)] && sys.receiver.base.outputQueue == []
    requires Clean(DataSeg(m, k))
    ensures var s3 := Next(sys, ReceiverTick);
      s3.delivered == sys.delivered + [m] && s3.sender == sys.sender && s3.accepted == sys.accepted &&
      s3.receiver.base.inputQueue == [] && s3.receiver.base.outputQueue == [Ack(Bit(k))]
  {
  }

  /** The last tick of a lossless round: the sender takes the acknowledgement. */
  lemma RoundConfirm(sys: System, tcpStatus: string)
    requires Inv(sys) && !sys.sender.ready
    requires sys.sender.base.inputQueue == [Ack(Bit(|sys.accepted| - 1))] && sys.sender.base.outputQueue == []
    ensures var s5 := Next(sys, SenderTick(tcpStatus));
      s5.sender.ready && s5.sender.base.inputQueue == [] && s5.sender.base.outputQueue == [] &&
      s5.receiver == sys.receiver && s5.accepted == sys.accepted && s5.delivered == sys.delivered &&
      s5.sender.base.blocked == sys.sender.base.blocked
  {
    AckNotCorrupted();
    var a := SenderApp(sys, tcpStatus);
    assert a.accepted == sys.accepted && !a.sender.ready && a.sender.altBit == sys.sender.altBit;
    assert a.sender.base.inputQueue == [Ack(Bit(|sys.accepted| - 1))] && a.sender.base.outputQueue == [];
    var b := SenderNetwork(a);
    assert b.sender.ready && !b.sender.base.customEnabled;
  }

  /** A lossless link hands over the only segment waiting on it. */
  lemma TransmitSingle(sys: System, link: Link)
    ensures link == Forward && |sys.sender.base.outputQueue| == 1 && sys.receiver.base.inputQueue == [] ==>
      var s' := Next(sys, Network(link, Transmit));
      s'.receiver.base.inputQueue == sys.sender.base.outputQueue && s'.sender.base.outputQueue == [] &&
      s'.sender.base.inputQueue == sys.sender.base.inputQueue && s'.receiver.base.outputQueue == sys.receiver.base.outputQueue &&
      s'.sender.ready == sys.sender.ready && s'.sender.base.blocked == sys.sender.base.blocked &&
      s'.accepted == sys.accepted && s'.delivered == sys.delivered
    ensures link == Backward && |sys.receiver.base.outputQueue| == 1 && sys.sender.base.inputQueue == [] ==>
      var s' := Next(sys, Network(link, Transmit));
      s'.sender.base.inputQueue == sys.receiver.base.outputQueue && s'.receiver.base.outputQueue == [] &&
      s'.sender.base.outputQueue == sys.sender.base.outputQueue && s'.receiver.base.inputQueue == sys.receiver.base.inputQueue &&
      s'.sender.ready == sys.sender.ready && s'.sender.base.blocked == sys.sender.base.blocked &&
      s'.accepted == sys.accepted && s'.delivered == sys.delivered
  {
  }

  /** The rest of a lossless round once the acknowledgement waits at the sender. */
  lemma RoundFromAckArrived(sys: System, tcpStatus: string)
    requires Inv(sys) && !sys.sender.ready && !sys.sender.base.blocked
    requires sys.sender.base.inputQueue == [Ack(Bit(|sys.accepted| - 1))] && sys.sender.base.outputQueue == []
    requires sys.receiver.base.inputQueue == [] && sys.receiver.base.outputQueue == []
    ensures var y := Run(sys, [SenderTick(tcpStatus)]);
      Quiescent(y) && y.accepted == sys.accepted && y.delivered == sys.delivered
  {
    RoundConfirm(sys, tcpStatus);
    NextInv(sys, SenderTick(tcpStatus));
    assert Run(sys, [SenderTick(tcpStatus)]) == Next(sys, SenderTick(tcpStatus));
  }

  /** The rest of a lossless round once the receiver has sent its acknowledgement. */
  lemma RoundFromAckSent(sys: System, tcpStatus: string)
    requires Inv(sys) && !sys.sender.ready && !sys.sender.base.blocked
    requires sys.receiver.base.outputQueue == [Ack(Bit(|sys.accepted| - 1))] && sys.receiver.base.inputQueue == []
    requires sys.sender.base.inputQueue == [] && sys.sender.base.outputQueue == []
    ensures var y := Run(sys, [Network(Backward, Transmit), SenderTick(tcpStatus)]);
      Quiescent(y) && y.accepted == sys.accepted && y.delivered == sys.delivered
  {
    var es := [Network(Backward, Transmit), SenderTick(tcpStatus)];
    TransmitSingle(sys, Backward);
    NextInv(sys, es[0]);
    RoundFromAckArrived(Next(sys, es[0]), tcpStatus);
    assert es[1..] == [SenderTick(tcpStatus)];
  }

  /** The rest of a lossless round once the data segment waits at the receiver. */
  lemma RoundFromDataArrived(sys: System, m: string, tcpStatus: string)
    requires Inv(sys) && !sys.sender.ready && !sys.sender.base.blocked
    requires |sys.accepted| == |sys.delivered| + 1 && Clean(DataSeg(m, |sys.delivered|))
    requires sys.receiver.base.inputQueue == [DataSeg(m, |sys.delivered|)] && sys.receiver.base.outputQueue == []
    requires sys.sender.base.inputQueue == [] && sys.sender.base.outputQueue == []
    ensures var y := Run(sys, [ReceiverTick, Network(Backward, Transmit), SenderTick(tcpStatus)]);
      Quiescent(y) && y.accepted == sys.accepted && y.delivered == sys.delivered + [m]
  {
    var es := [ReceiverTick, Network(Backward, Transmit), SenderTick(tcpStatus)];
    assert EndpointsOk(sys);
    RoundDeliver(sys, m, |sys.delivered|);
    NextInv(sys, es[0]);
    RoundFromAckSent(Next(sys, es[0]), tcpStatus);
    assert es[1..] == [Network(Backward, Transmit), SenderTick(tcpStatus)];
  }

  /** The rest of a lossless round once the sender has sent the data segment. */
  lemma RoundFromDataSent(sys: System, m: string, tcpStatus: string)
    requires Inv(sys) && !sys.sender.ready && !sys.sender.base.blocked
    requires |sys.accepted| == |sys.delivered| + 1 && Clean(DataSeg(m, |sys.delivered|))
    requires sys.sender.base.outputQueue == [DataSeg(m, |sys.delivered|)] && sys.sender.base.inputQueue == []
    requires sys.receiver.base.inputQueue == [] && sys.receiver.base.outputQueue == []
    ensures var y := Run(sys, LosslessRound(tcpStatus)[1..]);
      Quiescent(y) && y.accepted == sys.accepted && y.delivered == sys.delivered + [m]
  {
    var es := LosslessRound(tcpStatus)[1..];
    TransmitSingle(sys, Forward);
    NextInv(sys, es[0]);
    RoundFromDataArrived(Next(sys, es[0]), m, tcpStatus);
    assert es[1..] == [ReceiverTick, Network(Backward, Transmit), SenderTick(tcpStatus)];
  }

  /**
   * Without loss or corruption a round delivers the generated message
   * 'message N' exactly once and leaves the system quiescent again, with the
   * sender ready for the next message.
   */
  lemma LosslessRoundDelivers(sys: System, tcpStatus: string)
    requires Quiescent(sys)
    requires sys.sender.base.appTimer + 1 >= sys.sender.base.appInterval
    ensures var sys' := Run(sys, LosslessRound(tcpStatus));
      Quiescent(sys') &&
      sys'.accepted == sys.accepted + [MessageText(sys.sender.base.appCount + 1)] &&
      sys'.delivered == sys'.accepted
  {
    assert EndpointsOk(sys);
    var m := RoundAccept(sys);
    NextInv(sys, SenderTick(""));
    RoundFromDataSent(Next(sys, SenderTick("")), m, tcpStatus);
  }
}
