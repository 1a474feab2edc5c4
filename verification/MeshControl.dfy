/**
 * The control-tool half of the native Mesh proxy: worker requests are admitted, run as tools, and
 * answered by `control.result` calls.  Every piece of code between two awaits is one step, so a run
 * is any sequence of steps.
 */
module MeshControl {
  import opened Prelude

  // MESH_CONTROL_MAX_IN_FLIGHT_REQUESTS
  const LIMIT: nat := 16

  type Id = string

  datatype Phase =
    | Running                             // awaiting the tool
    | Waiting(wake: nat, resolved: bool)  // parked until a reply slot is released
    | Replying(slot: nat)                 // control.result in flight
    | Settled(failed: bool)               // body finished, catch and finally still to run

  datatype Call = Call(aborted: bool, phase: Phase) {
    predicate Unanswered() {
      phase.Running? || phase.Waiting?
    }

    // Aborting a parked call also runs its wake listener.
    function Abort(): Call {
      Call(true, if phase.Waiting? then phase.(resolved := true) else phase)
    }

    function Woken(): Call {
      if phase.Waiting? then this.(phase := phase.(resolved := true)) else this
    }
  }

  datatype Note = Admitted(id: Id) | Sent(id: Id) | Dropped(id: Id) | Refused(id: Id)

  // `replies` and `waiters` map each reply controller and each registered wake callback to the call
  // that created it; `serial` names new ones; `log` records what the outside world sees.
  datatype State = State(calls: set<Id>, requests: map<Id, Call>, replies: map<nat, Id>, waiters: map<nat, Id>,
                         streamAborted: bool, serial: nat, log: seq<Note>)

  const INITIAL := State({}, map[], map[], map[], false, 0, [])

  datatype Step =
    | Request(id: Id)
    | Cancel(id: Id)
    | ToolDone(id: Id, live: bool)   // `live`: the session connection is available
    | Resume(id: Id, live: bool)
    | ReplyDone(id: Id, ok: bool)
    | Catch(id: Id)
    | Finally(id: Id)
    | AbortAll                       // observation lost, or disconnect

  /** A step the runtime can schedule. */
  predicate Enabled(s: State, step: Step) {
    match step
    case Request(_) => true
    case Cancel(_) => true
    case AbortAll => true
    case ToolDone(id, _) => id in s.requests && s.requests[id].phase.Running?
    case Resume(id, _) => id in s.requests && s.requests[id].phase.Waiting? && s.requests[id].phase.resolved
    case ReplyDone(id, _) => id in s.requests && s.requests[id].phase.Replying?
    case Catch(id) => id in s.requests && s.requests[id].phase == Settled(true)
    case Finally(id) => id in s.requests && s.requests[id].phase == Settled(false)
  }

  predicate Admits(s: State, id: Id) {
    id !in s.requests && |s.calls| < LIMIT
  }

  function AbortedAll(s: State): State {
    s.(streamAborted := true, requests := map id | id in s.requests :: s.requests[id].Abort())
  }

  /** Calls whose wake callback is registered are woken. */
  function WokenAll(requests: map<Id, Call>, waiters: map<nat, Id>): map<Id, Call> {
    map id | id in requests ::
      if requests[id].phase.Waiting? && requests[id].phase.wake in waiters then requests[id].Woken() else requests[id]
  }

  /** The `control.result` call up to its first await. */
  function SendReply(s: State, id: Id, live: bool): State
    requires id in s.requests
  {
    var call := s.requests[id];
    if !live then
      s.(requests := s.requests[id := call.(phase := Settled(true))], log := s.log + [Dropped(id)])
    else if |s.replies| >= LIMIT then
      s.(requests := s.requests[id := call.(phase := Settled(true))], log := s.log + [Refused(id)])
    else
      s.(requests := s.requests[id := call.(phase := Replying(s.serial))],
         replies := s.replies[s.serial := id], serial := s.serial + 1, log := s.log + [Sent(id)])
  }

  /** From the capacity test of the reply loop to the next await. */
  function Attempt(s: State, id: Id, live: bool): State
    requires id in s.requests
  {
    var call := s.requests[id];
    if |s.replies| >= LIMIT && !call.aborted then
      s.(waiters := s.waiters[s.serial := id], requests := s.requests[id := call.(phase := Waiting(s.serial, false))],
         serial := s.serial + 1)
    else if call.aborted then
      s.(requests := s.requests[id := call.(phase := Settled(false))], log := s.log + [Dropped(id)])
    else
      SendReply(s.(calls := s.calls - {id}), id, live)
  }

  function Next(s: State, step: Step): State
    requires Enabled(s, step)
  {
    match step
    case Request(id) =>
      if !Admits(s, id) then s
      else s.(calls := s.calls + {id}, requests := s.requests[id := Call(s.streamAborted, Running)],
              log := s.log + [Admitted(id)])
    case Cancel(id) =>
      s.(calls := s.calls - {id},
         requests := if id in s.requests then s.requests[id := s.requests[id].Abort()] else s.requests)
    case ToolDone(id, live) => Attempt(s, id, live)
    case Resume(id, live) => Attempt(s.(waiters := s.waiters - {s.requests[id].phase.wake}), id, live)
    case ReplyDone(id, ok) =>
      var call := s.requests[id];
      s.(replies := s.replies - {call.phase.slot},
         requests := WokenAll(s.requests, s.waiters)[id := call.(phase := Settled(!ok))])
    case Catch(id) =>
      var call := s.requests[id];
      var t := if call.aborted then s else AbortedAll(s);
      t.(requests := t.requests[id := t.requests[id].(phase := Settled(false))])
    case Finally(id) =>
      s.(calls := s.calls - {id}, requests := s.requests - {id})
    case AbortAll => AbortedAll(s)
  }

  ghost predicate Follows(s: State, steps: seq<Step>, t: State)
    decreases |steps|
  {
    if steps == [] then s == t
    else Enabled(s, steps[0]) && Follows(Next(s, steps[0]), steps[1..], t)
  }

  ghost predicate Reachable(s: State) {
    exists steps :: Follows(INITIAL, steps, s)
  }

  // ---------- the invariant ----------

  ghost predicate Waits(s: State, id: Id, w: nat) {
    id in s.requests && s.requests[id].phase.Waiting? && s.requests[id].phase.wake == w
  }

  ghost predicate Holds(s: State, id: Id, slot: nat) {
    id in s.requests && s.requests[id].phase == Replying(slot)
  }

  /** Reply slots and wake callbacks are owned one-to-one by the calls in the matching phase. */
  ghost predicate Owned(s: State) {
    && (forall w :: w in s.waiters ==> w < s.serial && Waits(s, s.waiters[w], w))
    && (forall id, w :: Waits(s, id, w) ==> w in s.waiters && s.waiters[w] == id)
    && (forall r :: r in s.replies ==> r < s.serial && Holds(s, s.replies[r], r))
    && (forall id, r :: Holds(s, id, r) ==> r in s.replies && s.replies[r] == id)
  }

  ghost predicate Capacity(s: State) {
    |s.calls| <= LIMIT && |s.replies| <= LIMIT
  }

  ghost predicate Tracked(s: State) {
    && s.calls <= s.requests.Keys
    && (forall id :: id in s.requests && s.requests[id].Unanswered() && !s.requests[id].aborted ==> id in s.calls)
    && (forall id :: id in s.requests && s.requests[id].phase.Replying? ==> id !in s.calls)
    && (s.streamAborted ==> forall id :: id in s.requests ==> s.requests[id].aborted)
  }

  ghost predicate Asleep(s: State, id: Id) {
    id in s.requests && s.requests[id].phase.Waiting? && !s.requests[id].phase.resolved
  }

  /** No lost wake-up: a parked call sleeps only while every slot is taken and nobody aborted it. */
  ghost predicate Awake(s: State) {
    forall id :: Asleep(s, id) ==> |s.replies| == LIMIT && !s.requests[id].aborted
  }

  function Open(s: State, id: Id): nat {
    if id in s.requests && s.requests[id].Unanswered() then 1 else 0
  }

  /** Every admission is accounted for: answered once, dropped once, or still unanswered. */
  ghost predicate AccountedFor(s: State, id: Id) {
    && Count(s.log, Refused(id)) == 0
    && Count(s.log, Admitted(id)) == Count(s.log, Sent(id)) + Count(s.log, Dropped(id)) + Open(s, id)
  }

  ghost predicate Accounted(s: State) {
    forall id :: AccountedFor(s, id)
  }

  ghost predicate Inv(s: State) {
    Owned(s) && Capacity(s) && Tracked(s) && Awake(s) && Accounted(s)
  }

  /** `t` is `s` with the entry of `id` replaced. */
  ghost predicate OnlyChanges(s: State, t: State, id: Id) {
    forall i :: i != id ==>
        (i in t.requests <==> i in s.requests) && (i in s.requests ==> t.requests[i] == s.requests[i])
  }

  /** One more log entry that matches the change in open admissions keeps every account balanced. */
  lemma Balance(s: State, t: State, n: Note)
    requires Accounted(s) && t.log == s.log + [n] && !n.Refused?
    requires forall i :: i != n.id ==> Open(t, i) == Open(s, i)
    requires Open(t, n.id) == Open(s, n.id) + (if n.Admitted? then 1 else -1)
    ensures Accounted(t)
  {
    forall i ensures AccountedFor(t, i) {
      assert AccountedFor(s, i);
      CountSnoc(s.log, n, Refused(i));
      CountSnoc(s.log, n, Admitted(i));
      CountSnoc(s.log, n, Sent(i));
      CountSnoc(s.log, n, Dropped(i));
    }
  }

  lemma SameAccounts(s: State, t: State)
    requires Accounted(s) && t.log == s.log
    requires forall i :: Open(t, i) == Open(s, i)
    ensures Accounted(t)
  {
    forall i ensures AccountedFor(t, i) {
      assert AccountedFor(s, i);
    }
  }

  /** The invariant as it stands once a running or woken call has no wake callback of its own. */
  ghost predicate Detached(s: State, id: Id) {
    && id in s.requests && s.requests[id].Unanswered()
    && Capacity(s) && Tracked(s) && Accounted(s)
    && (forall w :: w in s.waiters ==> w < s.serial && s.waiters[w] != id && Waits(s, s.waiters[w], w))
    && (forall i, w :: i != id && Waits(s, i, w) ==> w in s.waiters && s.waiters[w] == i)
    && (forall r :: r in s.replies ==> r < s.serial && Holds(s, s.replies[r], r))
    && (forall i, r :: Holds(s, i, r) ==> r in s.replies && s.replies[r] == i)
    && (forall i :: i != id && Asleep(s, i) ==> |s.replies| == LIMIT && !s.requests[i].aborted)
  }

  lemma AttemptChanges(s: State, id: Id, live: bool)
    requires id in s.requests
    ensures var t := Attempt(s, id, live);
            && OnlyChanges(s, t, id) && id in t.requests
            && (forall i, w :: i != id ==> (Waits(t, i, w) <==> Waits(s, i, w)))
            && (forall i, r :: i != id ==> (Holds(t, i, r) <==> Holds(s, i, r)))
            && (forall i :: i != id ==> (Asleep(t, i) <==> Asleep(s, i)))
  {
    var t := Attempt(s, id, live);
    assert OnlyChanges(s, t, id);
  }

  lemma AttemptKeepsWaiters(s: State, id: Id, live: bool)
    requires Detached(s, id)
    ensures var t := Attempt(s, id, live);
            && (forall w :: w in t.waiters ==> w < t.serial && Waits(t, t.waiters[w], w))
            && (forall i, w :: Waits(t, i, w) ==> w in t.waiters && t.waiters[w] == i)
  {
    AttemptChanges(s, id, live);
  }

  lemma AttemptKeepsReplies(s: State, id: Id, live: bool)
    requires Detached(s, id)
    ensures var t := Attempt(s, id, live);
            && (forall r :: r in t.replies ==> r < t.serial && Holds(t, t.replies[r], r))
            && (forall i, r :: Holds(t, i, r) ==> r in t.replies && t.replies[r] == i)
  {
    AttemptChanges(s, id, live);
  }

  lemma AttemptKeepsOwned(s: State, id: Id, live: bool)
    requires Detached(s, id)
    ensures Owned(Attempt(s, id, live))
  {
    AttemptKeepsWaiters(s, id, live);
    AttemptKeepsReplies(s, id, live);
  }

  lemma AttemptKeepsCapacity(s: State, id: Id, live: bool)
    requires Capacity(s) && id in s.requests && forall r :: r in s.replies ==> r < s.serial
    ensures Capacity(Attempt(s, id, live))
  {
    assert |s.calls - {id}| <= |s.calls|;
  }

  lemma AttemptKeepsTracked(s: State, id: Id, live: bool)
    requires Tracked(s) && id in s.requests && s.requests[id].Unanswered()
    ensures Tracked(Attempt(s, id, live))
  {
  }

  lemma AttemptKeepsAwake(s: State, id: Id, live: bool)
    requires id in s.requests && s.requests[id].Unanswered() && Capacity(s)
    requires forall i :: i != id && Asleep(s, i) ==> |s.replies| == LIMIT && !s.requests[i].aborted
    ensures Awake(Attempt(s, id, live))
  {
    AttemptChanges(s, id, live);
  }

  lemma AttemptKeepsRest(s: State, id: Id, live: bool)
    requires Detached(s, id)
    ensures var t := Attempt(s, id, live); Capacity(t) && Tracked(t) && Awake(t)
  {
    AttemptKeepsCapacity(s, id, live);
    AttemptKeepsTracked(s, id, live);
    AttemptKeepsAwake(s, id, live);
  }

  lemma AttemptKeepsAccounted(s: State, id: Id, live: bool)
    requires Detached(s, id)
    ensures Accounted(Attempt(s, id, live))
  {
    var t := Attempt(s, id, live);
    assert OnlyChanges(s, t, id);
    if t.log == s.log {
      SameAccounts(s, t);
    } else {
      Balance(s, t, t.log[|s.log|]);
    }
  }

  lemma AttemptKeepsInv(s: State, id: Id, live: bool)
    requires Detached(s, id)
    ensures Inv(Attempt(s, id, live))
  {
    AttemptKeepsOwned(s, id, live);
    AttemptKeepsRest(s, id, live);
    AttemptKeepsAccounted(s, id, live);
  }

  /** Steps that rewrite phases without touching ownership, sleepers or open admissions. */
  lemma QuietStepKeepsInv(s: State, t: State)
    requires Inv(s)
    requires t.waiters == s.waiters && t.replies == s.replies && t.serial == s.serial && t.log == s.log
    requires |t.calls| <= LIMIT && Tracked(t)
    requires forall i, w :: Waits(t, i, w) <==> Waits(s, i, w)
    requires forall i, r :: Holds(t, i, r) <==> Holds(s, i, r)
    requires forall i :: Asleep(t, i) ==> Asleep(s, i) && !t.requests[i].aborted
    requires forall i :: Open(t, i) == Open(s, i)
    ensures Inv(t)
  {
    SameAccounts(s, t);
  }

  lemma AdmissionKeepsOwned(s: State, id: Id)
    requires Owned(s) && Admits(s, id)
    ensures var t := Next(s, Request(id)); Owned(t) && forall i :: Asleep(t, i) <==> Asleep(s, i)
  {
    var t := Next(s, Request(id));
    assert OnlyChanges(s, t, id);
    assert forall i, w :: Waits(t, i, w) <==> Waits(s, i, w);
    assert forall i, r :: Holds(t, i, r) <==> Holds(s, i, r);
  }

  lemma AdmissionKeepsAccounted(s: State, id: Id)
    requires Accounted(s) && Admits(s, id)
    ensures Accounted(Next(s, Request(id)))
  {
    var t := Next(s, Request(id));
    assert OnlyChanges(s, t, id);
    Balance(s, t, Admitted(id));
  }

  lemma AdmissionKeepsTracked(s: State, id: Id)
    requires Tracked(s) && Capacity(s) && Admits(s, id)
    ensures var t := Next(s, Request(id)); Tracked(t) && Capacity(t)
  {
    assert OnlyChanges(s, Next(s, Request(id)), id);
  }

  lemma RequestKeepsInv(s: State, id: Id)
    requires Inv(s)
    ensures Inv(Next(s, Request(id)))
  {
    if Admits(s, id) {
      AdmissionKeepsOwned(s, id);
      AdmissionKeepsTracked(s, id);
      AdmissionKeepsAccounted(s, id);
    }
  }

  lemma CancelKeepsTracked(s: State, id: Id)
    requires Tracked(s)
    ensures Tracked(Next(s, Cancel(id))) && |Next(s, Cancel(id)).calls| <= |s.calls|
  {
    assert |s.calls - {id}| <= |s.calls|;
  }

  lemma CancelChanges(s: State, id: Id, i: Id)
    ensures var t := Next(s, Cancel(id));
            && (i in t.requests <==> i in s.requests)
            && (i in s.requests ==> t.requests[i] == s.requests[i] || t.requests[i] == s.requests[i].Abort())
  {
  }

  lemma CancelKeepsInv(s: State, id: Id)
    requires Inv(s)
    ensures Inv(Next(s, Cancel(id)))
  {
    var t := Next(s, Cancel(id));
    CancelKeepsTracked(s, id);
    forall i
      ensures Asleep(t, i) ==> Asleep(s, i) && !t.requests[i].aborted
      ensures Open(t, i) == Open(s, i)
      ensures forall w :: Waits(t, i, w) <==> Waits(s, i, w)
      ensures forall r :: Holds(t, i, r) <==> Holds(s, i, r)
    {
      CancelChanges(s, id, i);
    }
    QuietStepKeepsInv(s, t);
  }

  lemma AbortAllKeepsInv(s: State)
    requires Inv(s)
    ensures Inv(AbortedAll(s))
  {
    QuietStepKeepsInv(s, AbortedAll(s));
  }

  lemma ReplyDoneKeepsOwned(s: State, id: Id, ok: bool)
    requires Owned(s) && Enabled(s, ReplyDone(id, ok))
    ensures Owned(Next(s, ReplyDone(id, ok)))
    ensures forall i :: !Asleep(Next(s, ReplyDone(id, ok)), i)
  {
    var t := Next(s, ReplyDone(id, ok));
    assert Holds(s, id, s.requests[id].phase.slot);
    assert forall i, w :: Waits(t, i, w) <==> Waits(s, i, w);
    assert forall i, r :: Holds(t, i, r) <==> Holds(s, i, r) && i != id;
    forall i ensures !Asleep(t, i) {
      if Asleep(t, i) {
        assert Waits(s, i, s.requests[i].phase.wake);
      }
    }
  }

  /** Waking changes nothing but whether a parked call sleeps. */
  lemma ReplyDoneChanges(s: State, id: Id, ok: bool, i: Id)
    requires Enabled(s, ReplyDone(id, ok))
    ensures var t := Next(s, ReplyDone(id, ok));
            && (i in t.requests <==> i in s.requests)
            && (i in s.requests ==> t.requests[i].aborted == s.requests[i].aborted)
            && (i in s.requests ==> (t.requests[i].Unanswered() <==> s.requests[i].Unanswered()))
            && (i in s.requests && t.requests[i].phase.Replying? ==> s.requests[i].phase.Replying?)
            && Open(t, i) == Open(s, i)
  {
  }

  lemma ReplyDoneKeepsTracked(s: State, id: Id, ok: bool)
    requires Tracked(s) && Capacity(s) && Accounted(s) && Enabled(s, ReplyDone(id, ok))
    ensures var t := Next(s, ReplyDone(id, ok)); Tracked(t) && Capacity(t) && Accounted(t)
  {
    var t := Next(s, ReplyDone(id, ok));
    forall i ensures Open(t, i) == Open(s, i) {
      ReplyDoneChanges(s, id, ok, i);
    }
    SameAccounts(s, t);
    ReplyDoneTracked(s, id, ok);
    assert |t.replies| <= |s.replies| by {
      Fewer(s.replies, s.requests[id].phase.slot);
    }
  }

  lemma ReplyDoneTracked(s: State, id: Id, ok: bool)
    requires Tracked(s) && Enabled(s, ReplyDone(id, ok))
    ensures Tracked(Next(s, ReplyDone(id, ok)))
  {
    var t := Next(s, ReplyDone(id, ok));
    forall i | i in t.requests
      ensures t.requests[i].Unanswered() && !t.requests[i].aborted ==> i in t.calls
      ensures t.requests[i].phase.Replying? ==> i !in t.calls
      ensures t.streamAborted ==> t.requests[i].aborted
    {
      ReplyDoneChanges(s, id, ok, i);
    }
  }

  lemma Fewer(m: map<nat, Id>, k: nat)
    ensures |m - {k}| <= |m|
  {
    if k in m {
      assert m == (m - {k})[k := m[k]];
    } else {
      assert m - {k} == m;
    }
  }

  lemma ReplyDoneKeepsInv(s: State, id: Id, ok: bool)
    requires Inv(s) && Enabled(s, ReplyDone(id, ok))
    ensures Inv(Next(s, ReplyDone(id, ok)))
  {
    ReplyDoneKeepsOwned(s, id, ok);
    ReplyDoneKeepsTracked(s, id, ok);
  }

  lemma CatchKeepsInv(s: State, id: Id)
    requires Inv(s) && id in s.requests && s.requests[id].phase.Settled?
    ensures Inv(s.(requests := s.requests[id := s.requests[id].(phase := Settled(false))]))
  {
    QuietStepKeepsInv(s, s.(requests := s.requests[id := s.requests[id].(phase := Settled(false))]));
  }

  lemma FinallyKeepsInv(s: State, id: Id)
    requires Inv(s) && Enabled(s, Finally(id))
    ensures Inv(Next(s, Finally(id)))
  {
    var t := Next(s, Finally(id));
    assert |t.calls| <= |s.calls|;
    QuietStepKeepsInv(s, t);
  }

  lemma StepKeepsInv(s: State, step: Step)
    requires Inv(s) && Enabled(s, step)
    ensures Inv(Next(s, step))
  {
    match step
    case Request(id) => RequestKeepsInv(s, id);
    case Cancel(id) => CancelKeepsInv(s, id);
    case ToolDone(id, live) => AttemptKeepsInv(s, id, live);
    case Resume(id, live) =>
      var w := s.requests[id].phase.wake;
      assert Waits(s, id, w);
      var t := s.(waiters := s.waiters - {w});
      assert forall i, v :: Waits(t, i, v) <==> Waits(s, i, v);
      assert forall i, r :: Holds(t, i, r) <==> Holds(s, i, r);
      assert forall i :: Asleep(t, i) <==> Asleep(s, i);
      SameAccounts(s, t);
      AttemptKeepsInv(t, id, live);
    case ReplyDone(id, ok) => ReplyDoneKeepsInv(s, id, ok);
    case Catch(id) =>
      AbortAllKeepsInv(s);
      CatchKeepsInv(if s.requests[id].aborted then s else AbortedAll(s), id);
    case Finally(id) => FinallyKeepsInv(s, id);
    case AbortAll => AbortAllKeepsInv(s);
  }

  lemma {:induction false} RunKeepsInv(s: State, steps: seq<Step>, t: State)
    requires Inv(s) && Follows(s, steps, t)
    ensures Inv(t)
    decreases |steps|
  {
    if steps != [] {
      StepKeepsInv(s, steps[0]);
      RunKeepsInv(Next(s, steps[0]), steps[1..], t);
    }
  }

  // ---------- what every run guarantees ----------

  lemma InitialInv()
    ensures Inv(INITIAL)
  {
    assert |INITIAL.replies| == 0;
  }

  /**
   * Every reachable state: both in-flight sets are bounded, an admitted call is tracked until it ends,
   * no reply was refused for capacity, no id was answered more often than it was admitted, and a parked
   * call can only be asleep while all reply slots are taken.
   */
  lemma ReachableIsSafe(s: State, id: Id)
    requires Reachable(s)
    ensures |s.calls| <= LIMIT && |s.replies| <= LIMIT && s.calls <= s.requests.Keys
    ensures Refused(id) !in s.log
    ensures Count(s.log, Sent(id)) + Count(s.log, Dropped(id)) <= Count(s.log, Admitted(id))
                                                              <= Count(s.log, Sent(id)) + Count(s.log, Dropped(id)) + 1
    ensures |s.replies| < LIMIT ==> !Asleep(s, id)
  {
    var steps :| Follows(INITIAL, steps, s);
    InitialInv();
    RunKeepsInv(INITIAL, steps, s);
    assert AccountedFor(s, id);
    AbsentCount(s.log, Refused(id));
  }

  lemma {:induction false} AbsentCount(log: seq<Note>, n: Note)
    requires Count(log, n) == 0
    ensures n !in log
  {
    if log != [] {
      AbsentCount(log[..|log| - 1], n);
      assert log == log[..|log| - 1] + [log[|log| - 1]];
    }
  }

  /** When every call has ended nothing is left in flight, so a disconnect may forget its tables. */
  lemma QuietMeansEmpty(s: State)
    requires Inv(s) && s.requests == map[]
    ensures s.calls == {} && s.replies == map[] && s.waiters == map[]
  {
    assert forall w :: w in s.waiters ==> Waits(s, s.waiters[w], w);
    assert forall r :: r in s.replies ==> Holds(s, s.replies[r], r);
  }

  ghost predicate Doomed(s: State, id: Id) {
    id in s.requests ==> s.requests[id].aborted && !s.requests[id].phase.Replying?
  }

  lemma DoomedAttempt(s: State, id: Id, live: bool, doomed: Id)
    requires Doomed(s, doomed) && id in s.requests
    ensures var t := Attempt(s, id, live);
      Doomed(t, doomed) && (t.log == s.log || (t.log == s.log + [t.log[|s.log|]] && t.log[|s.log|] != Sent(doomed)))
  {
  }

  lemma DoomedStep(s: State, step: Step, id: Id)
    requires Doomed(s, id) && Enabled(s, step) && step != Request(id)
    ensures var t := Next(s, step);
      Doomed(t, id) && (t.log == s.log || (t.log == s.log + [t.log[|s.log|]] && t.log[|s.log|] != Sent(id)))
  {
    match step
    case ToolDone(i, live) => DoomedAttempt(s, i, live, id);
    case Resume(i, live) => DoomedAttempt(s.(waiters := s.waiters - {s.requests[i].phase.wake}), i, live, id);
    case ReplyDone(i, ok) => ReplyDoneChanges(s, i, ok, id);
    case _ =>
  }

  /** A call aborted before its reply starts never sends one, whatever else is scheduled. */
  lemma {:induction false} CancelledNeverAnswers(s: State, steps: seq<Step>, t: State, id: Id)
    requires Follows(s, steps, t) && Request(id) !in steps && Doomed(s, id)
    ensures Count(t.log, Sent(id)) == Count(s.log, Sent(id))
    decreases |steps|
  {
    if steps != [] {
      DoomedStep(s, steps[0], id);
      var u := Next(s, steps[0]);
      if u.log != s.log {
        CountSnoc(s.log, u.log[|s.log|], Sent(id));
      }
      CancelledNeverAnswers(u, steps[1..], t, id);
    }
  }

  // ---------- progress ----------

  predicate Internal(step: Step) {
    !step.Request? && !step.Cancel? && !step.AbortAll?
  }

  /** Deadlock freedom: while a call is tracked, some continuation, tool or reply can run. */
  lemma SomeStepEnabled(s: State) returns (step: Step)
    requires Inv(s) && s.requests != map[]
    ensures Internal(step) && Enabled(s, step)
  {
    var id :| id in s.requests;
    match s.requests[id].phase
    case Running => step := ToolDone(id, true);
    case Replying(_) => step := ReplyDone(id, true);
    case Settled(failed) => step := if failed then Catch(id) else Finally(id);
    case Waiting(w, resolved) =>
      if resolved {
        step := Resume(id, true);
      } else {
        assert Asleep(s, id);
        assert s.replies.Keys != {} by {
          assert |s.replies| == |s.replies.Keys|;
        }
        var r :| r in s.replies;
        assert Holds(s, s.replies[r], r);
        step := ReplyDone(s.replies[r], true);
      }
  }

  function Weight(phase: Phase): nat {
    match phase
    case Running => 5
    case Waiting(_, _) => 4
    case Replying(_) => 3
    case Settled(failed) => if failed then 2 else 1
  }

  /** The work left in a state: one token for each phase a tracked call still has to leave. */
  ghost function Work(s: State): set<(Id, nat)> {
    set id, k | id in s.requests && 0 <= k < Weight(s.requests[id].phase) :: (id, k)
  }

  ghost function Woken(s: State): set<Id> {
    set id | id in s.requests && s.requests[id].phase.Waiting? && s.requests[id].phase.resolved
  }

  ghost predicate Lighter(s: State, t: State, id: Id) {
    && id in s.requests
    && (forall i :: i in t.requests ==> i in s.requests && Weight(t.requests[i].phase) <= Weight(s.requests[i].phase))
    && (id in t.requests ==> Weight(t.requests[id].phase) < Weight(s.requests[id].phase))
  }

  lemma LighterLosesWork(s: State, t: State, id: Id)
    requires Lighter(s, t, id)
    ensures Work(t) < Work(s)
  {
    var k: nat := Weight(s.requests[id].phase) - 1;
    assert (id, k) in Work(s) && (id, k) !in Work(t);
    assert Work(t) <= Work(s);
  }

  lemma AttemptIsLighter(s: State, id: Id, live: bool)
    requires id in s.requests && s.requests[id].Unanswered()
    requires var p := Attempt(s, id, live).requests[id].phase; s.requests[id].phase.Waiting? ==> !p.Waiting?
    ensures Lighter(s, Attempt(s, id, live), id)
  {
    AttemptChanges(s, id, live);
  }

  lemma StepIsLighter(s: State, step: Step)
    requires Internal(step) && Enabled(s, step)
    requires var t := Next(s, step); step.Resume? && step.id in t.requests ==> !t.requests[step.id].phase.Waiting?
    ensures Lighter(s, Next(s, step), step.id)
  {
    match step
    case ToolDone(id, live) => AttemptIsLighter(s, id, live);
    case Resume(id, live) =>
      var u := s.(waiters := s.waiters - {s.requests[id].phase.wake});
      AttemptChanges(u, id, live);
      AttemptIsLighter(u, id, live);
    case ReplyDone(id, ok) =>
      forall i | i in Next(s, step).requests
        ensures i in s.requests && Weight(Next(s, step).requests[i].phase) <= Weight(s.requests[i].phase) {
        ReplyDoneWeight(s, id, ok, i);
      }
    case _ =>
  }

  lemma ReplyDoneWeight(s: State, id: Id, ok: bool, i: Id)
    requires Enabled(s, ReplyDone(id, ok)) && i in s.requests
    ensures Weight(Next(s, ReplyDone(id, ok)).requests[i].phase) <= Weight(s.requests[i].phase)
  {
  }

  lemma SameWork(s: State, t: State)
    requires s.requests.Keys == t.requests.Keys && forall i :: i in s.requests ==>
               Weight(t.requests[i].phase) == Weight(s.requests[i].phase)
    ensures Work(t) == Work(s)
  {
  }

  lemma ParkedAgain(s: State, id: Id, live: bool)
    requires Enabled(s, Resume(id, live))
    requires var t := Next(s, Resume(id, live)); id in t.requests && t.requests[id].phase.Waiting?
    ensures var t := Next(s, Resume(id, live)); Work(t) == Work(s) && Woken(t) < Woken(s)
  {
    var t := Next(s, Resume(id, live));
    assert t.requests == s.requests[id := s.requests[id].(phase := Waiting(s.serial, false))];
    SameWork(s, t);
    assert id in Woken(s) && id !in Woken(t);
    assert Woken(t) <= Woken(s);
  }

  /**
   * Continuations cannot run forever between outside events: each one loses work, or keeps the work
   * and puts a woken call back to sleep.
   */
  lemma InternalStepsTerminate(s: State, step: Step)
    requires Internal(step) && Enabled(s, step)
    ensures var t := Next(s, step); Work(t) < Work(s) || (Work(t) == Work(s) && Woken(t) < Woken(s))
  {
    var t := Next(s, step);
    if step.Resume? && step.id in t.requests && t.requests[step.id].phase.Waiting? {
      ParkedAgain(s, step.id, step.live);
    } else {
      StepIsLighter(s, step);
      LighterLosesWork(s, t, step.id);
    }
  }

  lemma AbortedAttempt(s: State, id: Id, live: bool, other: Id)
    requires id in s.requests && s.requests[id].aborted
    ensures var t := Attempt(s, id, live);
            t.streamAborted == s.streamAborted && t.log == s.log + [Dropped(id)]
              && Count(t.log, Sent(other)) == Count(s.log, Sent(other))
  {
    CountSnoc(s.log, Dropped(id), Sent(other));
  }

  /** Once everything is aborted no reply is sent any more. */
  lemma AbortedStep(s: State, step: Step, id: Id)
    requires Tracked(s) && s.streamAborted && Enabled(s, step)
    ensures var t := Next(s, step); t.streamAborted && Count(t.log, Sent(id)) == Count(s.log, Sent(id))
  {
    match step
    case ToolDone(i, live) => AbortedAttempt(s, i, live, id);
    case Resume(i, live) => AbortedAttempt(s.(waiters := s.waiters - {s.requests[i].phase.wake}), i, live, id);
    case Request(i) => CountSnoc(s.log, Admitted(i), Sent(id));
    case _ =>
  }

  lemma {:induction false} AbortedRun(s: State, steps: seq<Step>, t: State, id: Id)
    requires Inv(s) && s.streamAborted && Follows(s, steps, t)
    ensures Inv(t) && Count(t.log, Sent(id)) == Count(s.log, Sent(id))
    decreases |steps|
  {
    if steps != [] {
      StepKeepsInv(s, steps[0]);
      AbortedStep(s, steps[0], id);
      AbortedRun(Next(s, steps[0]), steps[1..], t, id);
    }
  }

  /**
   * `disconnect` aborts everything and waits for the tracked calls: whatever their tools, replies and connection
   * still do and whatever the worker still requests or cancels, no further reply is sent, and when no continuation is
   * left all tables are empty.
   */
  lemma DisconnectEmpties(s: State, steps: seq<Step>, t: State, id: Id)
    requires Inv(s) && Follows(AbortedAll(s), steps, t)
    requires forall step :: Internal(step) ==> !Enabled(t, step)
    ensures t.requests == map[] && t.calls == {} && t.replies == map[] && t.waiters == map[]
    ensures Count(t.log, Sent(id)) == Count(s.log, Sent(id))
  {
    AbortAllKeepsInv(s);
    AbortedRun(AbortedAll(s), steps, t, id);
    if t.requests != map[] {
      var step := SomeStepEnabled(t);
    }
    QuietMeansEmpty(t);
  }

  /** Tools, connection and replies all succeed. */
  predicate Smooth(step: Step) {
    match step
    case ToolDone(_, live) => live
    case Resume(_, live) => live
    case ReplyDone(_, ok) => ok
    case Finally(_) => true
    case _ => false
  }

  ghost predicate Healthy(s: State) {
    forall id :: id in s.requests ==> s.requests[id].phase != Settled(true)
  }

  function Owed(s: State, id: Id): nat {
    if id in s.requests && !s.requests[id].aborted then Open(s, id) else 0
  }

  lemma AttemptIsHealthy(s: State, id: Id)
    requires Healthy(s) && Capacity(s) && id in s.requests && s.requests[id].Unanswered()
    ensures Healthy(Attempt(s, id, true))
  {
    AttemptChanges(s, id, true);
  }

  lemma SmoothStepHealthy(s: State, step: Step)
    requires Inv(s) && Healthy(s) && Smooth(step) && Enabled(s, step)
    ensures Healthy(Next(s, step))
  {
    match step
    case ToolDone(id, _) => AttemptIsHealthy(s, id);
    case Resume(id, _) => AttemptIsHealthy(s.(waiters := s.waiters - {s.requests[id].phase.wake}), id);
    case _ =>
  }

  lemma AttemptOwes(s: State, id: Id, other: Id)
    requires id in s.requests && s.requests[id].Unanswered()
    ensures var t := Attempt(s, id, true);
      || (t.log == s.log && Owed(t, other) == Owed(s, other))
      || (t.log == s.log + [Sent(id)] && Owed(t, other) == Owed(s, other) - (if id == other then 1 else 0))
      || (t.log == s.log + [Dropped(id)] && Owed(t, other) == Owed(s, other))
  {
  }

  lemma AttemptSettles(s: State, id: Id, other: Id)
    requires id in s.requests && s.requests[id].Unanswered()
    ensures var t := Attempt(s, id, true);
      (t.log == s.log || t.log == s.log + [Sent(id)] || t.log == s.log + [Dropped(id)])
      ==> Count(t.log, Sent(other)) + Owed(t, other) == Count(s.log, Sent(other)) + Owed(s, other)
  {
    AttemptOwes(s, id, other);
    CountSnoc(s.log, Sent(id), Sent(other));
    CountSnoc(s.log, Dropped(id), Sent(other));
  }

  lemma SmoothStepOwes(s: State, step: Step, id: Id)
    requires Smooth(step) && Enabled(s, step)
    ensures var t := Next(s, step); Count(t.log, Sent(id)) + Owed(t, id) == Count(s.log, Sent(id)) + Owed(s, id)
  {
    match step
    case ToolDone(i, _) =>
      AttemptOwes(s, i, id);
      AttemptSettles(s, i, id);
    case Resume(i, _) =>
      var u := s.(waiters := s.waiters - {s.requests[i].phase.wake});
      AttemptOwes(u, i, id);
      AttemptSettles(u, i, id);
    case ReplyDone(i, ok) => ReplyDoneChanges(s, i, ok, id);
    case Finally(_) =>
  }

  /**
   * Every schedule of successful continuations that has nothing left to run answered exactly the calls
   * that were not aborted, once each, and left the tables empty.
   */
  lemma {:induction false} EveryScheduleAnswers(s: State, steps: seq<Step>, t: State, id: Id)
    requires Inv(s) && Healthy(s) && Follows(s, steps, t) && (forall step :: step in steps ==> Smooth(step))
    requires forall step :: Internal(step) ==> !Enabled(t, step)
    ensures Count(t.log, Sent(id)) == Count(s.log, Sent(id)) + Owed(s, id)
    ensures t.requests == map[] && t.calls == {} && t.replies == map[] && t.waiters == map[]
    decreases |steps|
  {
    if steps == [] {
      if s.requests != map[] {
        var step := SomeStepEnabled(s);
      }
      QuietMeansEmpty(s);
    } else {
      assert Smooth(steps[0]);
      StepKeepsInv(s, steps[0]);
      SmoothStepHealthy(s, steps[0]);
      SmoothStepOwes(s, steps[0], id);
      EveryScheduleAnswers(Next(s, steps[0]), steps[1..], t, id);
    }
  }

  // ---------- the proxy object ----------

  lemma NoneWoken(s: State, none: map<nat, Id>)
    requires none == map[]
    ensures WokenAll(s.requests, none) == s.requests
  {
  }

  /** Waking the callbacks one by one wakes the calls that own them. */
  lemma OneMoreWoken(s: State, done: map<nat, Id>, more: map<nat, Id>, w: nat)
    requires w !in done && w in more && more.Keys == done.Keys + {w}
    requires forall i :: Waits(s, i, w) ==> more[w] == i
    ensures var now, id := WokenAll(s.requests, done), more[w];
            WokenAll(s.requests, more) ==
              if id in now && now[id].phase.Waiting? && now[id].phase.wake == w then now[id := now[id].Woken()] else now
  {
    var now, after := WokenAll(s.requests, done), WokenAll(s.requests, more);
    forall i | i in s.requests && i != more[w] ensures now[i] == after[i] {
      assert !Waits(s, i, w);
    }
  }

  class ControlProxy {
    var controlCalls: set<Id>
    var controlRequests: map<Id, Call>
    var controlReplies: map<nat, Id>
    var controlReplyWaiters: map<nat, Id>
    var aborted: bool
    var serial: nat
    ghost var log: seq<Note>

    ghost function View(): State
      reads this
    {
      State(controlCalls, controlRequests, controlReplies, controlReplyWaiters, aborted, serial, log)
    }

    constructor ()
      ensures View() == INITIAL
    {
      controlCalls, controlRequests, controlReplies, controlReplyWaiters := {}, map[], map[], map[];
      aborted, serial, log := false, 0, [];
    }

    /** False: the event is a duplicate or over capacity, and the observer fails without admitting it. */
    method OnRequest(id: Id) returns (admitted: bool)
      modifies this
      ensures admitted == Admits(old(View()), id)
      ensures View() == Next(old(View()), Request(id))
    {
      if id in controlRequests {
        return false;
      }
      if |controlCalls| >= LIMIT {
        return false;
      }
      controlCalls := controlCalls + {id};
      controlRequests := controlRequests[id := Call(aborted, Running)];
      log := log + [Admitted(id)];
      return true;
    }

    method OnCancel(id: Id)
      modifies this
      ensures View() == Next(old(View()), Cancel(id))
    {
      controlCalls := controlCalls - {id};
      if id in controlRequests {
        controlRequests := controlRequests[id := controlRequests[id].Abort()];
      }
    }

    method OnToolDone(id: Id, live: bool)
      requires Enabled(View(), ToolDone(id, live))
      modifies this
      ensures View() == Next(old(View()), ToolDone(id, live))
    {
      Reply(id, live);
    }

    method OnResume(id: Id, live: bool)
      requires Enabled(View(), Resume(id, live))
      modifies this
      ensures View() == Next(old(View()), Resume(id, live))
    {
      controlReplyWaiters := controlReplyWaiters - {controlRequests[id].phase.wake};
      Reply(id, live);
    }

    method Reply(id: Id, live: bool)
      requires id in controlRequests
      modifies this
      ensures View() == Attempt(old(View()), id, live)
    {
      var call := controlRequests[id];
      if |controlReplies| >= LIMIT && !call.aborted {
        controlReplyWaiters := controlReplyWaiters[serial := id];
        controlRequests := controlRequests[id := call.(phase := Waiting(serial, false))];
        serial := serial + 1;
        return;
      }
      if call.aborted {
        controlRequests := controlRequests[id := call.(phase := Settled(false))];
        log := log + [Dropped(id)];
        return;
      }
      controlCalls := controlCalls - {id};
      Rpc(id, live);
    }

    method Rpc(id: Id, live: bool)
      requires id in controlRequests
      modifies this
      ensures View() == SendReply(old(View()), id, live)
    {
      var call := controlRequests[id];
      if !live {
        controlRequests := controlRequests[id := call.(phase := Settled(true))];
        log := log + [Dropped(id)];
      } else if |controlReplies| >= LIMIT {
        controlRequests := controlRequests[id := call.(phase := Settled(true))];
        log := log + [Refused(id)];
      } else {
        controlReplies := controlReplies[serial := id];
        controlRequests := controlRequests[id := call.(phase := Replying(serial))];
        serial := serial + 1;
        log := log + [Sent(id)];
      }
    }

    method OnReplyDone(id: Id, ok: bool)
      requires Owned(View()) && Enabled(View(), ReplyDone(id, ok))
      modifies this
      ensures View() == Next(old(View()), ReplyDone(id, ok))
    {
      var call := controlRequests[id];
      controlReplies := controlReplies - {call.phase.slot};
      assert forall i, w :: Waits(View(), i, w) ==> Waits(old(View()), i, w);
      WakeReplyWaiters();
      controlRequests := controlRequests[id := call.(phase := Settled(!ok))];
    }

    method WakeReplyWaiters()
      requires forall i, w :: Waits(View(), i, w) ==> w in controlReplyWaiters && controlReplyWaiters[w] == i
      modifies this`controlRequests
      ensures controlRequests == WokenAll(old(controlRequests), controlReplyWaiters)
    {
      ghost var s := View();
      var rest := controlReplyWaiters.Keys;
      NoneWoken(s, controlReplyWaiters - rest);
      while rest != {}
        invariant rest <= controlReplyWaiters.Keys
        invariant controlRequests == WokenAll(s.requests, controlReplyWaiters - rest)
        decreases rest
      {
        var w :| w in rest;
        var id := controlReplyWaiters[w];
        OneMoreWoken(s, controlReplyWaiters - rest, controlReplyWaiters - (rest - {w}), w);
        rest := rest - {w};
        if id in controlRequests && controlRequests[id].phase.Waiting? && controlRequests[id].phase.wake == w {
          controlRequests := controlRequests[id := controlRequests[id].Woken()];
        }
      }
      assert controlReplyWaiters - rest == controlReplyWaiters;
    }

    method OnCatch(id: Id)
      requires Enabled(View(), Catch(id))
      modifies this
      ensures View() == Next(old(View()), Catch(id))
    {
      if !controlRequests[id].aborted {
        ObservationFailed();
      }
      controlRequests := controlRequests[id := controlRequests[id].(phase := Settled(false))];
    }

    method OnFinally(id: Id)
      requires Enabled(View(), Finally(id))
      modifies this
      ensures View() == Next(old(View()), Finally(id))
    {
      controlCalls := controlCalls - {id};
      controlRequests := controlRequests - {id};
    }

    method ObservationFailed()
      modifies this`aborted, this`controlRequests
      ensures View() == AbortedAll(old(View()))
    {
      aborted := true;
      var rest := controlRequests.Keys;
      while rest != {}
        invariant aborted && rest <= controlRequests.Keys == old(controlRequests).Keys
        invariant forall i :: i in controlRequests ==>
                                controlRequests[i]
                                  == if i in rest then old(controlRequests)[i] else old(controlRequests)[i].Abort()
        decreases rest
      {
        var id :| id in rest;
        controlRequests := controlRequests[id := controlRequests[id].Abort()];
        rest := rest - {id};
      }
      assert controlRequests == AbortedAll(old(View())).requests;
    }
  }
}
