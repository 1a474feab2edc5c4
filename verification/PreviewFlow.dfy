/**
 * One previewed response: the manager sends body chunks against a credit window, the command line client
 * queues them for the browser and acknowledges what the browser has consumed.
 */
module PreviewFlow {
  import opened Prelude

  const WINDOW: nat := 256 * 1024
  const CHUNK: nat := 64 * 1024

  type Bytes = seq<bv8>

  datatype Message = Start | Body(bytes: Bytes) | End | Failure
  datatype Back = Ack(bytes: nat) | CancelRequest

  datatype SenderPhase = Idle | Sending | Aborted | Done

  /** `current` is the unsent part of the last value read from `upstream`. */
  datatype Sender = Sender(phase: SenderPhase, upstream: seq<Bytes>, current: Bytes, credit: int)

  /** `Awaiting`: the request is pending without a body.  `Gone`: it is no longer pending and its stream is dead. */
  datatype ReceiverPhase = Awaiting | Streaming | Closed | Gone

  /** `queue` is the stream's queue and `read` what the browser took from it. */
  datatype Receiver = Receiver(phase: ReceiverPhase, received: nat, acknowledged: int, queue: seq<Bytes>, read: Bytes)

  /** `origin` is the whole upstream body; `lost` counts bytes and credits that arrived after one end was gone. */
  datatype State = State(sender: Sender, forward: seq<Message>, receiver: Receiver, backward: seq<Back>, origin: Bytes,
                         lost: nat)

  function Initial(upstream: seq<Bytes>): State {
    State(Sender(Idle, upstream, [], WINDOW), [], Receiver(Awaiting, 0, 0, [], []), [], Flatten(upstream), 0)
  }

  // ---------- the receiving end ----------

  function Queued(r: Receiver): nat {
    |Flatten(r.queue)|
  }

  /** The stream's desired size; an errored stream has none, which counts as zero. */
  function DesiredSize(r: Receiver): int {
    match r.phase
    case Streaming => WINDOW - Queued(r)
    case Closed => if r.queue == [] then 0 else WINDOW - Queued(r)
    case _ => 0
  }

  /** `open`: the bridge socket takes the message. */
  function Acknowledge(r: Receiver, open: bool): (Receiver, seq<Back>) {
    var consumed := r.received - (WINDOW - DesiredSize(r));
    if r.phase.Streaming? && consumed - r.acknowledged > 0 && open
    then (r.(acknowledged := consumed), [Ack(consumed - r.acknowledged)])
    else (r, [])
  }

  /** `direct`: a read is waiting, so the chunk bypasses the empty queue. */
  function Enqueue(r: Receiver, bytes: Bytes, direct: bool): Receiver {
    if !r.phase.Streaming? then r
    else if direct && r.queue == [] then r.(read := r.read + bytes)
    else r.(queue := r.queue + [bytes])
  }

  function Dead(r: Receiver): Receiver {
    r.(phase := Gone, queue := [])
  }

  function OnBody(r: Receiver, bytes: Bytes, direct: bool, open: bool): (Receiver, seq<Back>) {
    var more := Enqueue(r.(received := r.received + |bytes|), bytes, direct);
    var (acked, acks) := Acknowledge(more, open);
    if acked.phase.Streaming? && DesiredSize(acked) < 0 then (Dead(acked), acks + [CancelRequest]) else (acked, acks)
  }

  predicate Pending(r: Receiver) {
    r.phase.Awaiting? || r.phase.Streaming?
  }

  function Arrive(r: Receiver, m: Message, direct: bool, open: bool): (Receiver, seq<Back>) {
    if !Pending(r) then (r, [])
    else match m
      case Start => (r.(phase := Streaming, queue := []), [])
      case Body(bytes) => OnBody(r, bytes, direct, open)
      case End => if r.phase.Streaming? then (r.(phase := Closed), []) else (Dead(r), [])
      case Failure => (Dead(r), [])
  }

  predicate Cancellable(r: Receiver) {
    Pending(r) || (r.phase.Closed? && r.queue != [])
  }

  // ---------- the sending end ----------

  function NextChunk(s: Sender): Bytes {
    if |s.current| <= CHUNK then s.current else s.current[..CHUNK]
  }

  function SendChunk(s: Sender): Sender {
    s.(current := s.current[|NextChunk(s)|..], credit := s.credit - |NextChunk(s)|)
  }

  predicate ValidAck(s: Sender, bytes: nat) {
    0 < bytes <= WINDOW - s.credit
  }

  // ---------- steps ----------

  datatype Step =
    | Respond                             // the upstream answered
    | Fetch                               // the next value of the upstream body
    | Send
    | Finish
    | Fail                                // timeout or upstream error
    | Deliver(direct: bool, open: bool)   // the oldest forward message arrives
    | Read                                // the browser takes a chunk
    | Pull(open: bool)
    | Cancel                              // by the browser
    | Return                              // the oldest backward message arrives

  predicate Enabled(s: State, step: Step) {
    match step
    case Respond => s.sender.phase.Idle?
    case Fetch => s.sender.phase.Sending? && s.sender.current == [] && s.sender.upstream != []
    case Send => s.sender.phase.Sending? && s.sender.current != [] && s.sender.credit >= |NextChunk(s.sender)|
    case Finish =>
        (s.sender.phase.Sending? || s.sender.phase.Aborted?) && s.sender.current == [] && s.sender.upstream == []
    case Fail => !s.sender.phase.Done?
    case Deliver(_, _) => s.forward != []
    case Read => (s.receiver.phase.Streaming? || s.receiver.phase.Closed?) && s.receiver.queue != []
    case Pull(_) => s.receiver.phase.Streaming? && DesiredSize(s.receiver) > 0
    case Cancel => Cancellable(s.receiver)
    case Return => s.backward != []
  }

  function Returned(s: State): State
    requires s.backward != []
  {
    var t := s.(backward := s.backward[1..]);
    match s.backward[0]
    case CancelRequest => if s.sender.phase.Done? then t else t.(sender := s.sender.(phase := Aborted))
    case Ack(bytes) =>
      if s.sender.phase.Done? then t.(lost := s.lost + bytes)
      else if ValidAck(s.sender, bytes) then t.(sender := s.sender.(credit := s.sender.credit + bytes))
      else t.(sender := s.sender.(phase := Aborted), forward := s.forward + [Failure], lost := s.lost + bytes)
  }

  function Next(s: State, step: Step): State
    requires Enabled(s, step)
  {
    match step
    case Respond => s.(sender := s.sender.(phase := Sending), forward := s.forward + [Start])
    case Fetch => s.(sender := s.sender.(current := s.sender.upstream[0], upstream := s.sender.upstream[1..]))
    case Send => s.(sender := SendChunk(s.sender), forward := s.forward + [Body(NextChunk(s.sender))])
    case Finish => s.(sender := s.sender.(phase := Done), forward := s.forward + [End])
    case Fail =>
        s.(sender := s.sender.(phase := Done),
            forward := if s.sender.phase.Aborted? then s.forward else s.forward + [Failure])
    case Deliver(direct, open) =>
      var (r, backs) := Arrive(s.receiver, s.forward[0], direct, open);
      s.(forward := s.forward[1..], receiver := r, backward := s.backward + backs,
         lost := s.lost + (if s.forward[0].Body? && !Pending(s.receiver) then |s.forward[0].bytes| else 0))
    case Read =>
        s.(receiver := s.receiver.(read := s.receiver.read + s.receiver.queue[0], queue := s.receiver.queue[1..]))
    case Pull(open) =>
      var (r, backs) := Acknowledge(s.receiver, open);
      s.(receiver := r, backward := s.backward + backs)
    case Cancel => s.(receiver := Dead(s.receiver), backward := s.backward + [CancelRequest])
    case Return => Returned(s)
  }

  // ---------- the invariant ----------

  function Carried(m: Message): Bytes {
    if m.Body? then m.bytes else []
  }

  /** What the forward messages carry. */
  function Payload(forward: seq<Message>): Bytes {
    if forward == [] then []
    else Carried(forward[0]) + Payload(forward[1..])
  }

  function Acks(backward: seq<Back>): nat {
    if backward == [] then 0
    else (if backward[0].Ack? then backward[0].bytes else 0) + Acks(backward[1..])
  }

  ghost predicate Positive(backward: seq<Back>) {
    forall i :: 0 <= i < |backward| && backward[i].Ack? ==> backward[i].bytes > 0
  }

  /**
   * Every byte of the window is credit, on its way, received and not acknowledged, or an acknowledgement on its way.
   */
  ghost predicate Balanced(s: State) {
    && s.sender.credit >= 0
    && s.sender.credit + |Payload(s.forward)| + (s.receiver.received - s.receiver.acknowledged) + Acks(s.backward)
       + s.lost == WINDOW
    && Positive(s.backward)
    && (s.lost > 0 ==> s.receiver.phase.Gone? || s.sender.phase.Done?)
  }

  ghost predicate Counted(r: Receiver) {
    && 0 <= r.acknowledged <= |r.read| && |r.read| + Queued(r) <= r.received
    && (!r.phase.Gone? ==> r.received == |r.read| + Queued(r))
    && (r.phase.Awaiting? ==> r.received == 0)
  }

  /** Chunks, then at most one final message. */
  ghost predicate Stream(forward: seq<Message>, ended: bool) {
    && (forall i :: 0 <= i < |forward| ==> !forward[i].Start?)
    && (forall i :: 0 <= i < |forward| && (forward[i].End? || forward[i].Failure?) ==> i == |forward| - 1 && ended)
  }

  /** Messages arrive in the order of the protocol. */
  ghost predicate Ordered(s: State) {
    && (s.sender.phase.Idle? ==> s.forward == [] && (s.receiver.phase.Awaiting? || s.receiver.phase.Gone?))
    && (s.sender.phase.Sending? && s.receiver.phase.Awaiting? ==> s.forward != [])
    && (s.receiver.phase.Streaming? ==> Stream(s.forward, s.sender.phase.Done?))
    && (s.receiver.phase.Awaiting? && s.forward != [] ==>
          || (s.forward[0].Start? && Stream(s.forward[1..], s.sender.phase.Done?))
          || (s.forward == [Failure] && s.sender.phase.Done?))
    && (s.receiver.phase.Closed? ==> s.sender.phase.Done? && s.forward == [])
    && (s.sender.phase.Aborted? || CancelRequest in s.backward ==> s.receiver.phase.Gone? || s.receiver.phase.Closed?)
  }

  /** What the browser read, what is on its way to it and what is still to be sent make up the upstream body. */
  ghost predicate Preserved(s: State) {
    && (!s.receiver.phase.Gone? ==>
          s.receiver.read
            + (Flatten(s.receiver.queue) + (Payload(s.forward) + (s.sender.current + Flatten(s.sender.upstream))))
              == s.origin)
    && (End in s.forward || s.receiver.phase.Closed? ==>
         s.receiver.phase.Gone? || (s.sender.current == [] && s.sender.upstream == []))
    && s.receiver.read <= s.origin
  }

  ghost predicate Inv(s: State) {
    Balanced(s) && Counted(s.receiver) && Ordered(s) && Preserved(s)
  }

  // ---------- bookkeeping ----------

  lemma {:induction false} PayloadSnoc(f: seq<Message>, m: Message)
    ensures Payload(f + [m]) == Payload(f) + Carried(m)
  {
    if f == [] {
      assert [m][1..] == [] && f + [m] == [m];
    } else {
      assert (f + [m])[1..] == f[1..] + [m] && (f + [m])[0] == f[0];
      PayloadSnoc(f[1..], m);
      Associate(Carried(f[0]), Payload(f[1..]), Carried(m));
    }
  }

  lemma Associate(a: Bytes, b: Bytes, c: Bytes)
    ensures a + (b + c) == (a + b) + c
  {
  }

  lemma {:induction false} AcksAppend(a: seq<Back>, b: seq<Back>)
    ensures Acks(a + b) == Acks(a) + Acks(b)
  {
    if a == [] {
      assert a + b == b;
    } else {
      assert (a + b)[1..] == a[1..] + b;
      AcksAppend(a[1..], b);
    }
  }

  lemma AcksOne(b: Back)
    ensures Acks([b]) == if b.Ack? then b.bytes else 0
  {
    assert [b][1..] == [];
  }

  lemma ChunkIsPrefix(s: Sender)
    ensures NextChunk(s) + s.current[|NextChunk(s)|..] == s.current
    ensures |NextChunk(s)| <= CHUNK && (s.current != [] ==> |NextChunk(s)| > 0)
  {
  }

  /** With balanced counters the receiver acknowledges everything consumed and not yet acknowledged. */
  lemma AcknowledgeExactly(r: Receiver, open: bool)
    requires Counted(r)
    ensures var (t, backs) := Acknowledge(r, open);
            && Counted(t) && t == r.(acknowledged := t.acknowledged)
            && t.acknowledged == r.acknowledged + Acks(backs)
            && CancelRequest !in backs && Positive(backs)
            && (open && r.phase.Streaming? ==> t.acknowledged == |r.read|)
            && (!r.phase.Streaming? ==> backs == [])
  {
    var (t, backs) := Acknowledge(r, open);
    if backs != [] {
      AcksOne(backs[0]);
    }
  }

  lemma EnqueueKeeps(r: Receiver, bytes: Bytes, direct: bool)
    requires Counted(r) && r.phase.Streaming?
    ensures var t := Enqueue(r.(received := r.received + |bytes|), bytes, direct);
            && Counted(t) && t.phase.Streaming? && t.received == r.received + |bytes|
               && t.acknowledged == r.acknowledged
            && r.read <= t.read
            && t.read + Flatten(t.queue) == (r.read + Flatten(r.queue)) + bytes
  {
    FlattenSnoc(r.queue, bytes);
    assert r.queue == [] ==> Flatten(r.queue) == [];
    assert (r.read + Flatten(r.queue)) + bytes == r.read + (Flatten(r.queue) + bytes);
  }

  /** A chunk that fits the window is queued, and only then acknowledged. */
  lemma BodyFits(r: Receiver, bytes: Bytes, direct: bool, open: bool)
    requires Counted(r) && r.phase.Streaming? && r.received - r.acknowledged + |bytes| <= WINDOW
    ensures var (t, backs) := OnBody(r, bytes, direct, open);
            && Counted(t) && t.phase.Streaming? && t.received == r.received + |bytes|
            && t.acknowledged == r.acknowledged + Acks(backs) && CancelRequest !in backs && Positive(backs)
            && r.read <= t.read && t.read + Flatten(t.queue) == (r.read + Flatten(r.queue)) + bytes
  {
    EnqueueKeeps(r, bytes, direct);
    AcknowledgeExactly(Enqueue(r.(received := r.received + |bytes|), bytes, direct), open);
  }

  lemma Payload1(f: seq<Message>)
    requires f != []
    ensures Payload(f) == Carried(f[0]) + Payload(f[1..])
  {
  }

  lemma StreamTail(f: seq<Message>, ended: bool)
    requires f != [] && Stream(f, ended)
    ensures Stream(f[1..], ended)
    ensures f[0].End? || f[0].Failure? ==> f[1..] == []
  {
  }

  // ---------- the sender's steps ----------

  lemma SendKeepsInv(s: State)
    requires Inv(s) && Enabled(s, Send)
    ensures Inv(Next(s, Send))
  {
    var chunk := NextChunk(s.sender);
    var t := Next(s, Send);
    ChunkIsPrefix(s.sender);
    PayloadSnoc(s.forward, Body(chunk));
    SendMoves(Payload(s.forward), chunk, t.sender.current, Flatten(s.sender.upstream));
    if s.receiver.phase.Awaiting? {
      assert t.forward[1..] == s.forward[1..] + [Body(chunk)];
    }
  }

  lemma SendMoves(sent: Bytes, chunk: Bytes, left: Bytes, upstream: Bytes)
    ensures sent + ((chunk + left) + upstream) == (sent + chunk) + (left + upstream)
  {
  }

  lemma FetchKeepsInv(s: State)
    requires Inv(s) && Enabled(s, Fetch)
    ensures Inv(Next(s, Fetch))
  {
    assert [] + Flatten(s.sender.upstream) == s.sender.upstream[0] + Flatten(s.sender.upstream[1..]);
  }

  lemma MessageIs(s: State, step: Step, m: Message)
    requires Enabled(s, step) && (step.Respond? || step.Finish? || step.Fail?)
    requires m == if step.Respond? then Start else if step.Finish? then End else Failure
    ensures var t := Next(s, step);
            && t == s.(sender := s.sender.(phase := t.sender.phase), forward := t.forward)
            && (t.forward == s.forward + [m] || (t.forward == s.forward && s.sender.phase.Aborted? && step.Fail?))
            && t.sender.phase == (if step.Respond? then Sending else Done) && Payload(t.forward) == Payload(s.forward)
  {
    PayloadSnoc(s.forward, m);
  }

  lemma MessageOrdered(s: State, step: Step, m: Message)
    requires Ordered(s) && Enabled(s, step) && (step.Respond? || step.Finish? || step.Fail?)
    requires m == if step.Respond? then Start else if step.Finish? then End else Failure
    ensures Ordered(Next(s, step))
  {
    MessageIs(s, step, m);
    var t := Next(s, step);
    if s.receiver.phase.Awaiting? && s.forward != [] && t.forward != s.forward {
      assert t.forward[1..] == s.forward[1..] + [m];
    }
  }

  lemma MessagePreserved(s: State, step: Step, m: Message)
    requires Ordered(s) && Preserved(s) && Enabled(s, step) && (step.Respond? || step.Finish? || step.Fail?)
    requires m == if step.Respond? then Start else if step.Finish? then End else Failure
    ensures Preserved(Next(s, step))
  {
    MessageIs(s, step, m);
    var t := Next(s, step);
    assert End in t.forward ==> End in s.forward || step.Finish?;
  }

  lemma MessageKeepsInv(s: State, step: Step)
    requires Inv(s) && Enabled(s, step) && (step.Respond? || step.Finish? || step.Fail?)
    ensures Inv(Next(s, step))
  {
    var m := if step.Respond? then Start else if step.Finish? then End else Failure;
    MessageIs(s, step, m);
    MessageOrdered(s, step, m);
    MessagePreserved(s, step, m);
  }

  // ---------- deliveries ----------

  lemma BodyKeepsInv(s: State, direct: bool, open: bool)
    requires Inv(s) && s.forward != [] && s.forward[0].Body? && s.receiver.phase.Streaming?
    ensures Inv(Next(s, Deliver(direct, open)))
  {
    var bytes := s.forward[0].bytes;
    var t := Next(s, Deliver(direct, open));
    var (r, backs) := OnBody(s.receiver, bytes, direct, open);
    Payload1(s.forward);
    BodyFits(s.receiver, bytes, direct, open);
    AcksAppend(s.backward, backs);
    assert t.receiver == r && t.backward == s.backward + backs;
    assert Balanced(t);
    StreamTail(s.forward, s.sender.phase.Done?);
    assert Ordered(t);
    BodyPreserved(s.receiver, r, bytes, Payload(t.forward), s.sender.current + Flatten(s.sender.upstream), s.origin);
  }

  lemma BodyPreserved(r: Receiver, t: Receiver, bytes: Bytes, forward: Bytes, left: Bytes, origin: Bytes)
    requires r.read + (Flatten(r.queue) + ((bytes + forward) + left)) == origin
    requires t.read + Flatten(t.queue) == (r.read + Flatten(r.queue)) + bytes
    ensures t.read + (Flatten(t.queue) + (forward + left)) == origin
    ensures t.read <= origin
  {
    BodyMoves(r.read, Flatten(r.queue), bytes, forward, left);
    Associate(t.read, Flatten(t.queue), forward + left);
  }

  lemma BodyMoves(read: Bytes, queued: Bytes, bytes: Bytes, forward: Bytes, left: Bytes)
    ensures read + (queued + ((bytes + forward) + left)) == ((read + queued) + bytes) + (forward + left)
  {
  }

  lemma OtherDeliveryKeepsInv(s: State, direct: bool, open: bool)
    requires Inv(s) && s.forward != [] && !(s.forward[0].Body? && s.receiver.phase.Streaming?)
    ensures Inv(Next(s, Deliver(direct, open)))
  {
    Payload1(s.forward);
    if s.receiver.phase.Streaming? {
      StreamTail(s.forward, s.sender.phase.Done?);
    }
    var t := Next(s, Deliver(direct, open));
    assert t.backward == s.backward;
  }

  // ---------- the browser's steps and the way back ----------

  lemma ReadKeepsInv(s: State)
    requires Inv(s) && Enabled(s, Read)
    ensures Inv(Next(s, Read))
  {
    var q := s.receiver.queue;
    assert Flatten(q) == q[0] + Flatten(q[1..]);
    var rest := Payload(s.forward) + (s.sender.current + Flatten(s.sender.upstream));
    assert s.receiver.read + ((q[0] + Flatten(q[1..])) + rest) == (s.receiver.read + q[0]) + (Flatten(q[1..]) + rest);
  }

  lemma PullKeepsInv(s: State, open: bool)
    requires Inv(s) && Enabled(s, Pull(open))
    ensures Inv(Next(s, Pull(open)))
  {
    var (r, backs) := Acknowledge(s.receiver, open);
    AcknowledgeExactly(s.receiver, open);
    AcksAppend(s.backward, backs);
  }

  lemma CancelKeepsInv(s: State)
    requires Inv(s) && Enabled(s, Cancel)
    ensures Inv(Next(s, Cancel))
  {
    AcksOne(CancelRequest);
    AcksAppend(s.backward, [CancelRequest]);
  }

  /** The manager never refuses an acknowledgement. */
  lemma AcksAreValid(s: State)
    requires Inv(s) && s.backward != [] && s.backward[0].Ack? && !s.sender.phase.Done?
    ensures ValidAck(s.sender, s.backward[0].bytes)
  {
    assert Acks(s.backward) == s.backward[0].bytes + Acks(s.backward[1..]);
  }

  lemma ReturnKeepsInv(s: State)
    requires Inv(s) && Enabled(s, Return)
    ensures Inv(Next(s, Return))
  {
    assert Acks(s.backward) == (if s.backward[0].Ack? then s.backward[0].bytes else 0) + Acks(s.backward[1..]);
    if s.backward[0].Ack? && !s.sender.phase.Done? {
      AcksAreValid(s);
    }
    var t := Next(s, Return);
    assert t.forward == s.forward && t.receiver == s.receiver && t.backward == s.backward[1..];
    assert Positive(t.backward);
    assert Ordered(t);
  }

  lemma StepKeepsInv(s: State, step: Step)
    requires Inv(s) && Enabled(s, step)
    ensures Inv(Next(s, step))
  {
    match step
    case Send => SendKeepsInv(s);
    case Fetch => FetchKeepsInv(s);
    case Deliver(direct, open) =>
      if s.forward[0].Body? && s.receiver.phase.Streaming? { BodyKeepsInv(s, direct, open); }
        else { OtherDeliveryKeepsInv(s, direct, open); }
    case Read => ReadKeepsInv(s);
    case Pull(open) => PullKeepsInv(s, open);
    case Cancel => CancelKeepsInv(s);
    case Return => ReturnKeepsInv(s);
    case _ => MessageKeepsInv(s, step);
  }

  // ---------- every run ----------

  ghost predicate Follows(s: State, steps: seq<Step>, t: State)
    decreases |steps|
  {
    if steps == [] then s == t else Enabled(s, steps[0]) && Follows(Next(s, steps[0]), steps[1..], t)
  }

  lemma {:induction false} RunKeepsInv(s: State, steps: seq<Step>, t: State)
    requires Inv(s) && Follows(s, steps, t)
    ensures Inv(t) && t.origin == s.origin
    decreases |steps|
  {
    if steps != [] {
      StepKeepsInv(s, steps[0]);
      RunKeepsInv(Next(s, steps[0]), steps[1..], t);
    }
  }

  lemma InitialInv(upstream: seq<Bytes>)
    ensures Inv(Initial(upstream))
  {
    assert [] + ([] + ([] + ([] + Flatten(upstream)))) == Flatten(upstream);
  }

  ghost predicate Reachable(upstream: seq<Bytes>, s: State) {
    exists steps :: Follows(Initial(upstream), steps, s)
  }

  lemma ReachableInv(upstream: seq<Bytes>, s: State)
    requires Reachable(upstream, s)
    ensures Inv(s) && s.origin == Flatten(upstream)
  {
    InitialInv(upstream);
    var steps :| Follows(Initial(upstream), steps, s);
    RunKeepsInv(Initial(upstream), steps, s);
  }

  /**
   * Acknowledged at most consumed at most received, the queue within the window, the outstanding bytes of
   * both directions exactly the missing credit, and what the browser read a prefix of the upstream body.
   */
  lemma ReachableIsSafe(upstream: seq<Bytes>, s: State)
    requires Reachable(upstream, s)
    ensures 0 <= s.receiver.acknowledged <= |s.receiver.read| <= s.receiver.received
    ensures Queued(s.receiver) <= WINDOW && 0 <= s.sender.credit <= WINDOW
    ensures s.sender.credit + |Payload(s.forward)| + (s.receiver.received - s.receiver.acknowledged)
            + Acks(s.backward) + s.lost == WINDOW
    ensures s.receiver.read <= Flatten(upstream)
  {
    ReachableInv(upstream, s);
  }

  /** Neither guard fires: a chunk never overflows the queue, and an acknowledgement is never refused. */
  lemma GuardsNeverFire(upstream: seq<Bytes>, s: State, direct: bool, open: bool)
    requires Reachable(upstream, s)
    ensures s.forward != [] && s.forward[0].Body? && s.receiver.phase.Streaming? ==>
              var (r, backs) := OnBody(s.receiver, s.forward[0].bytes, direct, open);
              r.phase.Streaming? && DesiredSize(r) >= 0 && CancelRequest !in backs
    ensures s.backward != [] && s.backward[0].Ack? && !s.sender.phase.Done? ==> ValidAck(s.sender, s.backward[0].bytes)
  {
    ReachableInv(upstream, s);
    if s.forward != [] && s.forward[0].Body? && s.receiver.phase.Streaming? {
      Payload1(s.forward);
      BodyFits(s.receiver, s.forward[0].bytes, direct, open);
    }
    if s.backward != [] && s.backward[0].Ack? && !s.sender.phase.Done? {
      AcksAreValid(s);
    }
  }

  /** Once everything sent was consumed and acknowledged, the whole window is credit again, and only then. */
  lemma FullCreditReturns(upstream: seq<Bytes>, s: State)
    requires Reachable(upstream, s) && s.sender.phase.Sending? && s.receiver.phase.Streaming?
    ensures s.sender.credit == WINDOW <==>
            Payload(s.forward) == [] && Flatten(s.receiver.queue) == []
              && s.receiver.acknowledged == |s.receiver.read| && Acks(s.backward) == 0
  {
    ReachableInv(upstream, s);
  }

  /** When the stream was closed by the end of the response and drained, the browser has the whole body. */
  lemma DrainedIsComplete(upstream: seq<Bytes>, s: State)
    requires Reachable(upstream, s) && s.receiver.phase.Closed? && s.receiver.queue == []
    ensures s.receiver.read == Flatten(upstream)
  {
    ReachableInv(upstream, s);
    assert Flatten(s.receiver.queue) == [] && Payload(s.forward) == [] && Flatten(s.sender.upstream) == [];
    assert s.receiver.read + ([] + ([] + ([] + []))) == s.receiver.read;
  }

  // ---------- every schedule delivers ----------

  /** Steps of a response that nobody cancels, on a bridge that stays open; an idle pull is none. */
  ghost predicate Progress(s: State, step: Step)
    requires Enabled(s, step)
  {
    match step
    case Fail => false
    case Cancel => false
    case Deliver(_, open) => open
    case Pull(open) => open && |s.receiver.read| > s.receiver.acknowledged
    case _ => true
  }

  ghost predicate Healthy(s: State) {
    && !s.receiver.phase.Gone? && !s.sender.phase.Aborted? && CancelRequest !in s.backward && Failure !in s.forward
    && (s.sender.phase.Done? ==> s.receiver.phase.Closed? || (s.forward != [] && s.forward[|s.forward| - 1] == End))
    && (s.receiver.phase.Awaiting? && s.forward != [] ==> s.forward[0].Start?)
  }

  lemma ProgressIsHealthy(s: State, step: Step)
    requires Inv(s) && Healthy(s) && Enabled(s, step) && Progress(s, step)
    ensures Healthy(Next(s, step))
  {
    var t := Next(s, step);
    match step
    case Deliver(direct, open) => DeliveryIsHealthy(s, direct, open);
    case Pull(open) => AcknowledgeExactly(s.receiver, open);
    case Return =>
      if s.backward[0].Ack? && !s.sender.phase.Done? { AcksAreValid(s); }
    case _ =>
  }

  lemma DeliveryIsHealthy(s: State, direct: bool, open: bool)
    requires Inv(s) && Healthy(s) && s.forward != []
    ensures Healthy(Next(s, Deliver(direct, open)))
  {
    var t := Next(s, Deliver(direct, open));
    if s.forward[0].Body? && s.receiver.phase.Streaming? {
      Payload1(s.forward);
      BodyFits(s.receiver, s.forward[0].bytes, direct, open);
    }
    assert t.forward == s.forward[1..];
    assert Failure !in t.forward;
    assert s.forward[0].Failure? ==> Failure in s.forward;
  }

  function Pressing(r: Receiver): nat {
    if |r.read| > r.acknowledged then 2 else 0
  }

  /** Work left, weighted by the stages it still has to pass. */
  function Work(s: State): nat {
    |s.sender.upstream| + 8 * (|s.sender.current| + |Flatten(s.sender.upstream)|) + 7 * |s.forward|
    + 3 * |s.receiver.queue| + Pressing(s.receiver) + |s.backward|
    + (match s.sender.phase case Idle => 16 case Done => 0 case _ => 8)
  }

  lemma ProgressTerminates(s: State, step: Step)
    requires Inv(s) && Healthy(s) && Enabled(s, step) && Progress(s, step)
    ensures Work(Next(s, step)) < Work(s)
  {
    match step
    case Fetch => assert Flatten(s.sender.upstream) == s.sender.upstream[0] + Flatten(s.sender.upstream[1..]);
    case Send => ChunkIsPrefix(s.sender);
    case Deliver(direct, open) =>
      if s.forward[0].Body? && s.receiver.phase.Streaming? { BodyWorks(s.receiver, s.forward[0].bytes, direct, open); }
    case Pull(open) => AcknowledgeWorks(s.receiver, open);
    case Return =>
      if s.backward[0].Ack? && !s.sender.phase.Done? { AcksAreValid(s); }
    case _ =>
  }

  lemma AcknowledgeWorks(r: Receiver, open: bool)
    requires Counted(r)
    ensures var (t, backs) := Acknowledge(r, open);
            && t.queue == r.queue && |backs| <= 1 && Pressing(t) + |backs| <= Pressing(r)
            && (open && r.phase.Streaming? && |r.read| > r.acknowledged ==> Pressing(t) + |backs| < Pressing(r))
  {
    AcknowledgeExactly(r, open);
  }

  lemma BodyWorks(r: Receiver, bytes: Bytes, direct: bool, open: bool)
    requires Counted(r) && r.phase.Streaming?
    ensures var (t, backs) := OnBody(r, bytes, direct, open);
            |t.queue| <= |r.queue| + 1 && Pressing(t) + |backs| <= 3
  {
    EnqueueKeeps(r, bytes, direct);
    AcknowledgeWorks(Enqueue(r.(received := r.received + |bytes|), bytes, direct), open);
  }

  ghost predicate Quiet(s: State) {
    forall step :: Enabled(s, step) ==> !Progress(s, step)
  }

  /** A sender short of credit is never stuck: something on the way will bring credit back. */
  lemma QuietIsComplete(s: State)
    requires Inv(s) && Healthy(s) && Quiet(s)
    ensures s.receiver.phase.Closed? && s.receiver.queue == [] && s.receiver.read == s.origin
    ensures s.forward == [] && s.backward == []
  {
    QuietChannels(s);
    QuietEnds(s);
    assert Flatten(s.receiver.queue) == [] && Flatten(s.sender.upstream) == [];
    assert s.receiver.read + ([] + ([] + ([] + []))) == s.receiver.read;
  }

  lemma QuietChannels(s: State)
    requires Quiet(s)
    ensures s.forward == [] && s.backward == [] && !s.sender.phase.Idle?
    ensures s.receiver.phase.Streaming? || s.receiver.phase.Closed? ==> s.receiver.queue == []
    ensures s.receiver.phase.Streaming? ==> |s.receiver.read| <= s.receiver.acknowledged
    ensures s.sender.phase.Sending? ==> s.sender.current != [] && s.sender.credit < |NextChunk(s.sender)|
  {
    assert !(Enabled(s, Deliver(true, true)) && Progress(s, Deliver(true, true)));
    assert !(Enabled(s, Return) && Progress(s, Return));
    assert !(Enabled(s, Respond) && Progress(s, Respond));
    assert !(Enabled(s, Read) && Progress(s, Read));
    assert Enabled(s, Pull(true)) ==> !Progress(s, Pull(true));
    assert !(Enabled(s, Send) && Progress(s, Send));
    assert !(Enabled(s, Fetch) && Progress(s, Fetch));
    assert !(Enabled(s, Finish) && Progress(s, Finish));
  }

  lemma QuietEnds(s: State)
    requires Inv(s) && Healthy(s) && s.forward == [] && s.backward == [] && !s.sender.phase.Idle?
    requires s.receiver.phase.Streaming? || s.receiver.phase.Closed? ==> s.receiver.queue == []
    requires s.receiver.phase.Streaming? ==> |s.receiver.read| <= s.receiver.acknowledged
    requires s.sender.phase.Sending? ==> s.sender.current != [] && s.sender.credit < |NextChunk(s.sender)|
    ensures s.receiver.phase.Closed?
  {
    ChunkIsPrefix(s.sender);
    assert s.receiver.queue == [] ==> Flatten(s.receiver.queue) == [];
  }

  ghost predicate Progresses(s: State, steps: seq<Step>, t: State)
    decreases |steps|
  {
    if steps == [] then s == t
    else Enabled(s, steps[0]) && Progress(s, steps[0]) && Progresses(Next(s, steps[0]), steps[1..], t)
  }

  /**
   * However the steps are scheduled, at most `Work` of them happen, and when none is left the body was read
   * completely.
   */
  lemma {:induction false} EveryScheduleDelivers(s: State, steps: seq<Step>, t: State)
    requires Inv(s) && Healthy(s) && Progresses(s, steps, t)
    ensures |steps| <= Work(s)
    ensures Quiet(t) ==> t.receiver.phase.Closed? && t.receiver.queue == [] && t.receiver.read == s.origin
    decreases |steps|
  {
    if steps == [] {
      if Quiet(t) { QuietIsComplete(t); }
    } else {
      StepKeepsInv(s, steps[0]);
      ProgressIsHealthy(s, steps[0]);
      ProgressTerminates(s, steps[0]);
      EveryScheduleDelivers(Next(s, steps[0]), steps[1..], t);
    }
  }

  /** Every response that nobody cancels or fails, on a bridge that stays open, is read completely. */
  lemma EveryResponseDelivers(upstream: seq<Bytes>, steps: seq<Step>, t: State)
    requires Progresses(Initial(upstream), steps, t)
    ensures |steps| <= Work(Initial(upstream))
    ensures Quiet(t) ==> t.receiver.phase.Closed? && t.receiver.queue == [] && t.receiver.read == Flatten(upstream)
  {
    InitialInv(upstream);
    EveryScheduleDelivers(Initial(upstream), steps, t);
  }

  // ---------- the two objects ----------

  /** The client's side of a pending request. */
  class PendingPreviewRequest {
    var phase: ReceiverPhase
    var receivedBytes: nat
    var acknowledgedBytes: int
    var queue: seq<Bytes>
    var read: Bytes

    function View(): Receiver
      reads this
    {
      Receiver(phase, receivedBytes, acknowledgedBytes, queue, read)
    }

    constructor ()
      ensures View() == Receiver(Awaiting, 0, 0, [], [])
    {
      phase, receivedBytes, acknowledgedBytes, queue, read := Awaiting, 0, 0, [], [];
    }

    method OnStart()
      requires Pending(View())
      modifies this
      ensures forall direct, open :: (View(), []) == Arrive(old(View()), Start, direct, open)
    {
      phase := Streaming;
      queue := [];
    }

    /** Sends at most one acknowledgement, and on overflow a cancellation. */
    method OnBodyMessage(bytes: Bytes, direct: bool, open: bool) returns (sent: seq<Back>)
      requires Pending(View())
      modifies this
      ensures (View(), sent) == Arrive(old(View()), Body(bytes), direct, open)
    {
      receivedBytes := receivedBytes + |bytes|;
      if phase.Streaming? {
        if direct && queue == [] {
          read := read + bytes;
        } else {
          queue := queue + [bytes];
        }
      }
      sent := AcknowledgeResponse(open);
      if phase.Streaming? && DesiredSize(View()) < 0 {
        phase, queue := Gone, [];
        sent := sent + [CancelRequest];
      }
    }

    method AcknowledgeResponse(open: bool) returns (sent: seq<Back>)
      modifies this`acknowledgedBytes
      ensures (View(), sent) == Acknowledge(old(View()), open)
    {
      if !phase.Streaming? {
        return [];
      }
      var queuedBytes := QueuedBytes();
      var consumedBytes := receivedBytes - queuedBytes;
      var bytes := consumedBytes - acknowledgedBytes;
      if bytes > 0 && open {
        acknowledgedBytes := consumedBytes;
        return [Ack(bytes)];
      }
      return [];
    }

    /** What the byte length strategy charges the queue. */
    method QueuedBytes() returns (bytes: nat)
      ensures bytes == Queued(View())
    {
      bytes := 0;
      var i := 0;
      while i < |queue|
        invariant 0 <= i <= |queue| && bytes == |Flatten(queue[..i])|
      {
        FlattenSnoc(queue[..i], queue[i]);
        assert queue[..i + 1] == queue[..i] + [queue[i]];
        bytes := bytes + |queue[i]|;
        i := i + 1;
      }
      assert queue[..i] == queue;
    }

    method OnEnd()
      requires Pending(View())
      modifies this
      ensures forall direct, open :: (View(), []) == Arrive(old(View()), End, direct, open)
    {
      if phase.Streaming? {
        phase := Closed;
      } else {
        phase, queue := Gone, [];
      }
    }

    method OnFailure()
      requires Pending(View())
      modifies this
      ensures forall direct, open :: (View(), []) == Arrive(old(View()), Failure, direct, open)
    {
      phase, queue := Gone, [];
    }
  }

  /** The manager's side: splits upstream values into chunks and spends credit on them. */
  class ResponseSender {
    var phase: SenderPhase
    var upstream: seq<Bytes>
    var current: Bytes
    var creditBytes: int

    ghost function View(): Sender
      reads this
    {
      Sender(phase, upstream, current, creditBytes)
    }

    constructor (body: seq<Bytes>)
      ensures View() == Initial(body).sender
    {
      phase, upstream, current, creditBytes := Idle, body, [], WINDOW;
    }

    method SendNext() returns (chunk: Bytes)
      requires phase.Sending? && current != [] && creditBytes >= |NextChunk(View())|
      modifies this
      ensures chunk == NextChunk(old(View())) && View() == SendChunk(old(View()))
    {
      var size := if |current| < CHUNK then |current| else CHUNK;
      chunk := current[..size];
      creditBytes := creditBytes - |chunk|;
      current := current[size..];
    }

    /** False: the acknowledgement is refused and the request aborted. */
    method OnAck(bytes: nat) returns (ok: bool)
      requires !phase.Done?
      modifies this
      ensures ok == ValidAck(old(View()), bytes)
      ensures View() == if ok then old(View()).(credit := old(creditBytes) + bytes) else old(View()).(phase := Aborted)
    {
      ok := bytes > 0 && bytes <= WINDOW - creditBytes;
      if ok {
        creditBytes := creditBytes + bytes;
      } else {
        phase := Aborted;
      }
    }
  }
}
