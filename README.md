# Reliable data transfer endpoints: naive and alternating-bit

This project models the sender and receiver endpoints of a small reliable-transport
simulator. Each endpoint advances one tick at a time. A **sender** has an inbound and an
outbound segment queue. It also has an application-message generator that fires every
`app_interval` ticks unless the application is blocked, and a single-shot retransmission
timer. A **receiver** has the two queues, a count of messages handed to its application,
and an `appside` latch that each step reports and then resets to `<NOTHING>`.

Two protocols run on these bases:

- **Naive:** the sender forwards each application message once. The receiver delivers
  every segment it gets, with no check and no reply.
- **Alternating bit:** a stop-and-wait protocol.
  - The sender keeps the segment it sent and its bit, re-sends that segment whenever the
    timer (`ALT_BIT_INTERVAL` = 5 ticks) expires, and completes the round on an intact
    ACK carrying that bit.
  - The receiver delivers an intact segment with the awaited bit exactly once, then
    flips the bit. It answers every segment with an ACK.
  - A segment counts as corrupted when its text contains `<CORRUPTED>`.

Files:

- `wrappers.dfy`: `Option`.
- `segments.dfy`: segments, the special texts (`<ACK>`, `<CORRUPTED>`, `<NOTHING>`), the
  corruption test, and the `message N` texts with their decimal round trip.
- `sendrecvbase.dfy`: the base classes.
  - `SenderCore` and `ReceiverCore` are values whose member functions specify each
    operation.
  - `BaseSender` and `BaseReceiver` are classes whose methods update fields in place.
    Each method is proved to move `Model()` as the matching function says.
  - Lemmas cover the generator and the timer over many ticks.
- `sendrecv.dfy`: the naive and alternating-bit endpoints, in the same two forms as
  value and class.
  - A concrete class owns its base object (`base`) where the source inherits from the
    base class.
  - Its `Step` runs the three phases of the base step in the source's order (generator,
    one inbound segment, timer) and calls its own handler after each phase.
- `altbit_system.dfy`: the alternating-bit sender and receiver joined by a network that,
  on each link, may transmit, lose, corrupt or duplicate the oldest waiting segment.
  - It proves an inductive invariant and, from it, that delivery is exactly-once and
    in-order.
  - It also proves progress for one round over a link that loses nothing.

Two behaviours of the code are worth noting:

- The naive receiver delivers every segment it takes, corrupted ones included: its handler
  passes the message on without any test (sendrecv.py:77-78).
- The alternating-bit sender never blocks its application. Its calls to
  `disallow_app_msgs` and `allow_app_msgs` are commented out (sendrecv.py:103-104 and
  124-125). A message generated while a round is outstanding is therefore consumed and
  dropped (`SendRecv.WaitingSenderDropsAppMessages`). For that reason the delivery
  guarantee is stated relative to the messages the sender *accepted*.

## Model

| member | source | states |
|---|---|---|
| Segments.IsCorrupted | sendrecv.py:116 | the corruption test: the marker `<CORRUPTED>` occurs as a substring, so a corrupted text is at least as long as the marker |
| Segments.MarkedIsCorrupted | sendrecv.py:116 | any text with `<CORRUPTED>` embedded anywhere fails the sender's integrity test |
| Segments.CorruptedIsMarked | sendrecv.py:143 | conversely, a text the receiver treats as corrupted has the marker somewhere in it |
| Segments.AckNotCorrupted | sendrecv.py:145 | the acknowledgement text `<ACK>` is never taken for a corrupted one |
| Segments.Decimal | sendrecvbase.py:39 | the rendering of a counter is a non-empty string of decimal digits |
| Segments.DecimalRoundTrip | sendrecvbase.py:39 | reading back the decimal rendering of a counter gives the counter |
| Segments.MessageTextInjective | sendrecvbase.py:38-39 | two generated texts `message N` are equal exactly when their numbers are |
| Segments.MessageText | sendrecvbase.py:39 | the n-th generated message is `message ` followed only by decimal digits |
| Segments.StatusText | sendrecvbase.py:43 | a TCP status message is the status wrapped in `<` and `>`, and never equals any generated `message N` |
| Segments.MessageTextNotCorrupted | sendrecvbase.py:39 | a generated `message N` never contains the corruption marker |
| SendRecvBase.BaseSender.constructor | sendrecvbase.py:12-21 | both queues empty, timers and counter at 0, timer disarmed, generator not blocked |
| SendRecvBase.BaseSender.SendToNetwork | sendrecvbase.py:23-24 | the segment is appended to the outbound queue; no other field changes |
| SendRecvBase.BaseSender.DisallowAppMsgs | sendrecvbase.py:26-27 | the generator becomes blocked; no other field changes |
| SendRecvBase.BaseSender.AllowAppMsgs | sendrecvbase.py:29-30 | the generator becomes unblocked; no other field changes |
| SendRecvBase.BaseSender.AppPhase | sendrecvbase.py:33-44 | a message is produced exactly when the incremented app timer reaches the interval and the generator is not blocked. It is `message N` for the next N with an empty status, otherwise `<status>` with the counter unchanged. The timer then resets to 0; otherwise it keeps the increment |
| SendRecvBase.BaseSender.NextInbound | sendrecvbase.py:45-46 | with an empty inbound queue nothing is taken and nothing changes; otherwise the oldest segment is removed and returned |
| SendRecvBase.BaseSender.TimerPhase | sendrecvbase.py:47-52 | a disarmed timer does nothing. An armed one fires exactly when its incremented count reaches the interval, and then ends disarmed with count 0; otherwise it counts one more tick |
| SendRecvBase.BaseSender.StartTimer | sendrecvbase.py:54-57 | the timer is armed with the given interval and count 0 |
| SendRecvBase.BaseSender.EndTimer | sendrecvbase.py:59-60 | the timer is disarmed; nothing else changes |
| SendRecvBase.BlockedGeneratesNothing | sendrecvbase.py:34-35 | while blocked, the generator produces nothing on any tick and the counter stays put |
| SendRecvBase.GeneratorFiresAtInterval | sendrecvbase.py:34-44 | unblocked, the generator stays silent until the app timer reaches `app_interval`, fires on exactly that tick, and the timer returns to 0 |
| SendRecvBase.GeneratedNumbersIncrease | sendrecvbase.py:36-39 | in normal operation each generated message is `message N` with N above the starting counter, and later messages carry strictly larger numbers |
| SendRecvBase.GeneratedMessagesDistinct | sendrecvbase.py:36-39 | in normal operation no two ticks generate the same message |
| SendRecvBase.DisabledTimerSilent | sendrecvbase.py:47-52 | a disarmed timer never fires and changes nothing, over any number of ticks |
| SendRecvBase.ArmedTimerFiresOnce | sendrecvbase.py:47-52 | an armed timer, left alone, fires on exactly one tick and never again, ending disarmed with count 0 |
| SendRecvBase.StartedTimerFiresOnKthTick | sendrecvbase.py:47-57 | after `start_timer(k)` the timer fires on the k-th following tick (the first, when k <= 1), exactly once |
| SendRecvBase.BaseReceiver.constructor | sendrecvbase.py:72-77 | both queues empty, count 0, report latch `<NOTHING>` |
| SendRecvBase.BaseReceiver.NextInbound | sendrecvbase.py:80-81 | with an empty inbound queue nothing is taken; otherwise the oldest segment is removed and returned |
| SendRecvBase.BaseReceiver.TakeAppside | sendrecvbase.py:85-87 | the step reports what was latched and leaves `<NOTHING>` behind |
| SendRecvBase.BaseReceiver.SendToNetwork | sendrecvbase.py:89-90 | the segment is appended to the outbound queue; no other field changes |
| SendRecvBase.BaseReceiver.SendToApp | sendrecvbase.py:92-96 | the delivery count grows by one and the message is latched for the report |
| SendRecv.NaiveSender.constructor | sendrecv.py:60-61 | a naive sender starts as a fresh base sender with the given interval |
| SendRecv.NaiveSender.ReceiveFromApp | sendrecv.py:63-65 | the message goes out unchanged in exactly one segment addressed to the receiver |
| SendRecv.NaiveSender.ReceiveFromNetwork | sendrecv.py:67-68 | an inbound segment changes nothing |
| SendRecv.NaiveSender.OnInterrupt | sendrecv.py:70-71 | an interrupt changes nothing |
| SendRecv.NaiveSender.Step | sendrecvbase.py:33-52 | one tick of the naive sender is the base step with the naive handlers |
| SendRecv.NaiveSenderForwardsEverything | sendrecv.py:63-65 | over any number of ticks the sender emits exactly one segment per generated message, in order, carrying the message unchanged, and nothing else |
| SendRecv.NaiveReceiver.constructor | sendrecv.py:74-75 | a naive receiver starts as a fresh base receiver |
| SendRecv.NaiveReceiver.ReceiveFromClient | sendrecv.py:77-78 | every segment's message is delivered, corrupted or not, and nothing is sent back |
| SendRecv.NaiveReceiver.Step | sendrecvbase.py:79-87 | one tick of the naive receiver is the base step with the naive handler, and it returns the report |
| SendRecv.NaiveReceiverDeliversEverything | sendrecv.py:77-78 | over k ticks with k queued segments, the reports are exactly their messages in queue order, the count grows by k and nothing is sent |
| SendRecv.AltSenderState.ReceiveFromApp | sendrecv.py:100-111 | value form. When ready: `out` becomes `Segment(msg, receiver, altBit)` and exactly that segment is sent; the sender waits and the timer is armed with `ALT_BIT_INTERVAL`; generator fields and inbound queue are untouched. When waiting: the whole state is unchanged |
| SendRecv.AltSenderState.ReceiveFromNetwork | sendrecv.py:113-125 | value form. When waiting and the segment is intact with the awaited bit: the sender is ready, its bit flips, the timer is disarmed, nothing is sent and `out` is kept. Otherwise the whole state is unchanged |
| SendRecv.AltSenderState.OnInterrupt | sendrecv.py:128-133 | value form. When waiting: exactly the stored segment is appended and the timer re-armed with `ALT_BIT_INTERVAL`, with state, bit and `out` kept. When ready: unchanged |
| SendRecv.AltSenderState.Step | sendrecvbase.py:33-52 | one sender tick sends at most two segments, each equal to the stored segment (first transmission or retransmission). It takes at most the oldest inbound segment, and the bit changes only when a round completes (the sender ends ready) |
| SendRecv.AltSender.constructor | sendrecv.py:85-98 | the sender starts ready, with bit false and an empty stored segment |
| SendRecv.AltSender.ReceiveFromApp | sendrecv.py:100-111 | when ready: stores and sends exactly `Segment(msg, receiver, altBit)`, starts waiting, and arms the timer with `ALT_BIT_INTERVAL`. When waiting: changes nothing |
| SendRecv.AltSender.ReceiveFromNetwork | sendrecv.py:113-125 | when waiting and the segment is intact with the awaited bit: disarms the timer, becomes ready and flips its bit, sending nothing. In every other case: changes nothing |
| SendRecv.AltSender.OnInterrupt | sendrecv.py:128-133 | when waiting: re-sends exactly the stored segment and re-arms the timer. When ready: changes nothing |
| SendRecv.AltSender.Step | sendrecvbase.py:33-52 | one tick of the alternating-bit sender is the base step with these handlers |
| SendRecv.WaitingSenderDropsAppMessages | sendrecv.py:102-104 | a message generated while a round is outstanding uses up its number but is neither sent nor stored |
| SendRecv.AltSenderNeverBlocks | sendrecv.py:103-104 | the alternating-bit sender never changes whether its application is blocked |
| SendRecv.AltReceiver.constructor | sendrecv.py:137-139 | the receiver starts awaiting bit false |
| SendRecv.AltReceiverState.ReceiveFromClient | sendrecv.py:142-162 | value form. Corrupted, or intact with the other bit: the opposite bit's ACK is sent, nothing is delivered and the bit is kept. Intact with the awaited bit: the message is delivered once, that bit's ACK is sent, and the bit flips |
| SendRecv.AltReceiver.ReceiveFromClient | sendrecv.py:142-162 | corrupted, or intact with the other bit: answers with the opposite bit's ACK and delivers nothing. Intact with the awaited bit: delivers the message once, answers with that bit's ACK, then flips its bit |
| SendRecv.AltReceiverState.Step | sendrecvbase.py:79-87 | the count grows by one exactly when the oldest segment is intact and carries the awaited bit, and the report is then its message; otherwise count, bit and report are unchanged; the latch ends reset |
| SendRecv.AltReceiver.Step | sendrecvbase.py:79-87 | one tick of the alternating-bit receiver is the base step with its handler, and it returns the report |
| AltBitSystem.SenderTickIsStep | sendrecvbase.py:33-52 | a sender event of the closed system moves the sender exactly as one sender step does |
| AltBitSystem.CarryKeepsOrder | sendrecv.py:143 | about the modelled network, not the source: a garbled segment fails the marker test, so transmitting, corrupting, duplicating or losing the oldest segment keeps a link's intact bits settled and creates no new intact segment |
| AltBitSystem.InitInv | sendrecv.py:85-98 | the invariant holds for a fresh sender and receiver on empty links |
| AltBitSystem.SenderAppInv | sendrecv.py:100-111 | the generator phase with receive_from_app keeps the invariant |
| AltBitSystem.SenderNetworkInv | sendrecv.py:113-125 | taking an inbound ACK keeps the invariant |
| AltBitSystem.SenderTimerInv | sendrecv.py:128-133 | a retransmission keeps the invariant |
| AltBitSystem.ReceiverStepInv | sendrecv.py:142-162 | a receiver step keeps the invariant |
| AltBitSystem.NetworkStepInv | sendrecv.py:143-162 | any network action on either link keeps the invariant |
| AltBitSystem.NextInv | sendrecv.py:84-162 | every event of the closed system keeps the invariant |
| AltBitSystem.RunInv | sendrecv.py:84-162 | every finite run from an invariant state ends in an invariant state |
| AltBitSystem.ExactlyOnceInOrder | sendrecv.py:84-162 | from the initial state, over any run: the delivered messages are the first accepted ones, in order, none twice and none skipped; the receiver's count agrees; and when the sender is ready again every accepted message has been delivered |
| AltBitSystem.LosslessRoundDelivers | sendrecv.py:100-162 | from a quiet state, once the generator is due: a round with no loss delivers the next `message N` and leaves the system quiet and ready, with delivered equal to accepted |

## Left out

- GBNSender and GBNReceiver: in the source they are empty placeholder classes with no behaviour.
- Console output: `send_to_app` prints a line. That print is not modelled; the count and the latch that go with it are.
- Queue locking: the queues are thread-safe FIFO objects. They are modelled as sequences with the oldest element first, and each step runs to completion on its own.
- The simulation driver and its network are not part of this model. Only the closed system in `altbit_system.dfy` connects the endpoints. Its network keeps both directions FIFO: each event transmits, loses, corrupts or duplicates the oldest waiting segment. Reordering is not modelled, because the alternating-bit protocol is not meant to survive it. Delays are not modelled either: a delay only postpones a network event.
- The corruption format: the network may replace a segment by any text with `<CORRUPTED>` embedded, carrying any bit. The simulator's own choice of text is not modelled.
- AltSender.OnInterrupt: the source stores the segment object in `out`, queues that same object (sendrecv.py:106-107) and re-queues it on every timeout (sendrecv.py:132). The model treats segments as values, so a corruption on the network never affects `out`. This is faithful only if nothing changes a segment in place after it has been sent. The network driver is not part of this model, so that is an assumption.
- The TCP status argument of `step` is a parameter of each sender tick; where it comes from is not modelled.
- Order of the app-timer reset: the source resets `app_timer` after calling `receive_from_app`. The model resets it inside `AppPhase`, before the handler runs. No handler reads or writes the app timer, so every resulting state is the same.
- The commented-out calls to `disallow_app_msgs` and `allow_app_msgs` in the alternating-bit sender are not modelled, because they do not run. Without them, the delivery guarantee covers the messages the sender accepted (`AltBitSystem.ExactlyOnceInOrder`), not every message the generator produced.
- AltBitSystem.LosslessRoundDelivers: proves progress only for one lossless round from a quiet state. It says nothing about eventual delivery over a network that keeps failing.
