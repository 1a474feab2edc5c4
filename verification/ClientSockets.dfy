/**
 * The registry of collaborator sockets: admission, registration, revocation and shutdown as atomic steps
 * between awaits.  An attempt to open a socket and the socket it becomes share one identifier.
 */
module ClientSockets {
  import opened Prelude

  const CAPACITY: nat := 256

  type Id = nat

  datatype Phase =
    | Verifying                   // awaiting the proof
    | Opening(workspace: string)  // awaiting the terminal
    | Rejecting                   // awaiting the close of an attachment that lost its authority
    | Aborting                    // registered, but awaiting its own close because the signal is aborted
    | Finished                    // the promise is settled but still pending in the registry

  datatype Attempt = Attempt(guest: string, aborted: bool, phase: Phase)

  datatype Active = Active(guest: string, workspace: Option<string>, closing: bool)

  datatype Revocation = Revocation(guest: string, workspaces: set<string>, waiting: set<Id>)

  datatype StopPhase = Settling(pending: set<Id>) | Clearing(sockets: set<Id>) | Stopped

  /** `current`: the registry was not configured again since. */
  datatype Stopping = Stopping(phase: StopPhase, current: bool)

  // `attempts` are the pending promises; `closes` records every call that closes an attachment; `grants` is
  // the authority: an authenticated guest is present with the workspaces it may work in.
  datatype State = State(attempts: map<Id, Attempt>, active: map<Id, Active>, opening: int, stopping: bool, serial: nat,
                         closes: multiset<Id>, revocations: map<nat, Revocation>, stops: map<nat, Stopping>,
                         grants: map<string, set<string>>)

  const INITIAL := State(map[], map[], 0, false, 0, multiset{}, map[], map[], map[])

  /** What the proof asks for.  Realtime and preview attach at once, a terminal is awaited. */
  datatype Request = Denied | Realtime | Preview(workspace: string) | Terminal(workspace: string)

  datatype Step =
    | Configure
    | Open(guest: string, transport: bool, aborted: bool)
    | Abort(id: Id)
    | Verified(id: Id, request: Request)
    | TerminalOpened(id: Id, ok: bool)
    | RejectClosed(id: Id)
    | AbortClosed(id: Id)
    | Settled(id: Id)
    | CloseCalled(id: Id)
    | CloseDone(id: Id)
    | Revoke(guest: string, workspaces: set<string>)
    | RevokeDone(k: nat)
    | Stop
    | StopClears(k: nat)
    | StopDone(k: nat)
    | Grant(guest: string, work: Option<set<string>>)

  predicate Enabled(s: State, step: Step) {
    match step
    case Abort(id) => id in s.attempts || id in s.active
    case Verified(id, _) => id in s.attempts && s.attempts[id].phase.Verifying?
    case TerminalOpened(id, _) => id in s.attempts && s.attempts[id].phase.Opening?
    case RejectClosed(id) => id in s.attempts && s.attempts[id].phase.Rejecting?
    case AbortClosed(id) => id in s.attempts && s.attempts[id].phase.Aborting? && id !in s.active
    case Settled(id) => id in s.attempts && s.attempts[id].phase.Finished?
    case CloseDone(id) => id in s.active && s.active[id].closing
    case RevokeDone(k) => k in s.revocations && s.revocations[k].waiting !! s.active.Keys
    case StopClears(k) => k in s.stops && s.stops[k].phase.Settling? && s.stops[k].phase.pending !! InFlight(s)
    case StopDone(k) => k in s.stops && s.stops[k].phase.Clearing? && s.stops[k].phase.sockets !! s.active.Keys
    case _ => true
  }

  /** The attempts that are not settled yet. */
  function InFlight(s: State): set<Id> {
    set id | id in s.attempts && !s.attempts[id].phase.Finished?
  }

  predicate Authorized(s: State, guest: string, workspace: Option<string>) {
    guest in s.grants && (workspace.Some? ==> workspace.value in s.grants[guest])
  }

  // ---------- one step ----------

  function Unclosed(s: State, ids: set<Id>): set<Id> {
    set id | id in s.active && id in ids && !s.active[id].closing
  }

  /** Closing is memoized: only the first call closes the attachment. */
  function CloseAll(s: State, ids: set<Id>): State {
    s.(active := map id | id in s.active :: if id in ids then s.active[id].(closing := true) else s.active[id],
       closes := s.closes + multiset(Unclosed(s, ids)))
  }

  function Phased(s: State, id: Id, phase: Phase): State
    requires id in s.attempts
  {
    s.(attempts := s.attempts[id := s.attempts[id].(phase := phase)])
  }

  function Flagged(s: State, id: Id): State
    requires id in s.attempts
  {
    s.(attempts := s.attempts[id := s.attempts[id].(aborted := true)])
  }

  function Finish(s: State, id: Id): State
    requires id in s.attempts
  {
    Phased(s, id, Finished).(opening := s.opening - 1)
  }

  /** Recheck and registration are one step. */
  function Commit(s: State, id: Id, workspace: Option<string>): State
    requires id in s.attempts
  {
    var a := s.attempts[id];
    if s.stopping || !Authorized(s, a.guest, workspace)
    then Phased(s, id, Rejecting).(closes := s.closes + multiset{id})
    else
      var t := s.(active := s.active[id := Active(a.guest, workspace, false)]);
      if a.aborted then Phased(CloseAll(t, {id}), id, Aborting) else Finish(t, id)
  }

  predicate Admits(s: State, aborted: bool) {
    !aborted && !s.stopping && |s.active| + s.opening < CAPACITY
  }

  function Admit(s: State, guest: string, transport: bool): State {
    var accepted := guest in s.grants && transport;
    s.(attempts := s.attempts[s.serial := Attempt(guest, false, if accepted then Verifying else Finished)],
       opening := s.opening + (if accepted then 1 else 0), serial := s.serial + 1)
  }

  /** Sockets of the guest that a revocation closes. */
  function Affected(s: State, guest: string, workspaces: set<string>): set<Id> {
    set id | id in s.active && s.active[id].guest == guest
          && (s.active[id].workspace.None? || s.active[id].workspace.value in workspaces)
  }

  function Next(s: State, step: Step): State
    requires Enabled(s, step)
  {
    match step
    case Configure => s.(stopping := false, stops := map k | k in s.stops :: s.stops[k].(current := false))
    case Open(guest, transport, aborted) => if Admits(s, aborted) then Admit(s, guest, transport) else s
    case Abort(id) =>
      CloseAll(if id in s.attempts then Flagged(s, id) else s, {id})
    case Verified(id, request) =>
      (match request
       case Denied => Finish(s, id)
       case Realtime => Commit(s, id, None)
       case Preview(workspace) => Commit(s, id, Some(workspace))
       case Terminal(workspace) => Phased(s, id, Opening(workspace)))
    case TerminalOpened(id, ok) => if ok then Commit(s, id, Some(s.attempts[id].phase.workspace)) else Finish(s, id)
    case RejectClosed(id) => Finish(s, id)
    case AbortClosed(id) => Finish(s, id)
    case Settled(id) => s.(attempts := s.attempts - {id})
    case CloseCalled(id) => CloseAll(s, {id})
    case CloseDone(id) => s.(active := s.active - {id})
    case Revoke(guest, workspaces) =>
      var affected := Affected(s, guest, workspaces);
      CloseAll(s, affected).(revocations := s.revocations[s.serial := Revocation(guest, workspaces, affected)],
          serial := s.serial + 1)
    case RevokeDone(k) => s.(revocations := s.revocations - {k})
    case Stop =>
      s.(stopping := true, stops := s.stops[s.serial := Stopping(Settling(s.attempts.Keys), true)],
          serial := s.serial + 1)
    case StopClears(k) =>
        CloseAll(s, s.active.Keys).(stops := s.stops[k := s.stops[k].(phase := Clearing(s.active.Keys))])
    case StopDone(k) => s.(stops := s.stops[k := s.stops[k].(phase := Stopped)])
    case Grant(guest, work) =>
      s.(grants := if work.Some? then s.grants[guest := work.value] else s.grants - {guest})
  }

  // ---------- the invariant ----------

  ghost predicate AttemptOk(s: State, id: Id)
    requires id in s.attempts
  {
    && id < s.serial
    && match s.attempts[id].phase
       case Verifying => id !in s.active && s.closes[id] == 0
       case Opening(_) => id !in s.active && s.closes[id] == 0
       case Rejecting => id !in s.active && s.closes[id] == 1
       case Aborting => s.closes[id] == 1
       case Finished => true
  }

  ghost predicate ActiveOk(s: State, id: Id)
    requires id in s.active
  {
    id < s.serial && s.closes[id] == if s.active[id].closing then 1 else 0
  }

  /** No attachment is closed twice. */
  ghost predicate ClosedOnce(s: State) {
    forall id :: s.closes[id] <= 1 && (s.closes[id] > 0 ==> id < s.serial)
  }

  /** Opening or active. */
  function Present(s: State): set<Id> {
    InFlight(s) + s.active.Keys
  }

  ghost predicate Bounded(s: State) {
    s.opening == |InFlight(s)| && |Present(s)| <= CAPACITY
  }

  /** Whatever a revocation waits for is on its way out. */
  ghost predicate RevocationOk(s: State, k: nat)
    requires k in s.revocations
  {
    k < s.serial && forall id :: id in s.revocations[k].waiting ==> s.closes[id] > 0
  }

  ghost predicate StopOk(s: State, k: nat)
    requires k in s.stops
  {
    && k < s.serial
    && (s.stops[k].phase.Clearing? ==> forall id :: id in s.stops[k].phase.sockets ==> s.closes[id] > 0)
    && (s.stops[k].current ==> s.stopping && Quiescent(s, s.stops[k].phase))
  }

  /** While nothing is admitted, shutdown empties the registry. */
  ghost predicate Quiescent(s: State, phase: StopPhase) {
    match phase
    case Settling(pending) => InFlight(s) <= pending
    case Clearing(sockets) => InFlight(s) == {} && s.active.Keys <= sockets
    case Stopped => InFlight(s) == {} && s.active == map[]
  }

  ghost predicate Inv(s: State) {
    && (forall id {:trigger AttemptOk(s, id)} :: id in s.attempts ==> AttemptOk(s, id))
    && (forall id {:trigger ActiveOk(s, id)} :: id in s.active ==> ActiveOk(s, id))
    && ClosedOnce(s)
    && Bounded(s)
    && (forall k {:trigger RevocationOk(s, k)} :: k in s.revocations ==> RevocationOk(s, k))
    && (forall k {:trigger StopOk(s, k)} :: k in s.stops ==> StopOk(s, k))
  }

  // ---------- closing ----------

  lemma CloseAllClosesOnce(s: State, ids: set<Id>)
    requires Inv(s)
    ensures var t := CloseAll(s, ids);
            && (forall id :: t.closes[id] == s.closes[id] + (if id in Unclosed(s, ids) then 1 else 0))
            && (forall id :: id in Unclosed(s, ids) ==> s.closes[id] == 0 && id < s.serial)
  {
    forall id | id in Unclosed(s, ids) ensures s.closes[id] == 0 && id < s.serial {
      assert ActiveOk(s, id);
    }
  }

  lemma CloseAllRecords(s: State, ids: set<Id>)
    requires Inv(s) && InFlight(CloseAll(s, ids)) == InFlight(s)
    ensures var t := CloseAll(s, ids);
            && (forall k :: k in t.revocations ==> RevocationOk(t, k))
            && (forall k :: k in t.stops ==> StopOk(t, k))
  {
    var t := CloseAll(s, ids);
    assert forall id :: t.closes[id] >= s.closes[id];
    forall k | k in t.revocations ensures RevocationOk(t, k) {
      assert RevocationOk(s, k);
    }
    forall k | k in t.stops ensures StopOk(t, k) {
      assert StopOk(s, k);
    }
  }

  lemma CloseAllSets(s: State, ids: set<Id>)
    ensures InFlight(CloseAll(s, ids)) == InFlight(s) && CloseAll(s, ids).active.Keys == s.active.Keys
  {
  }

  lemma CloseAllKeepsInv(s: State, ids: set<Id>)
    requires Inv(s)
    ensures Inv(CloseAll(s, ids))
  {
    var t := CloseAll(s, ids);
    CloseAllClosesOnce(s, ids);
    CloseAllSets(s, ids);
    CloseAllRecords(s, ids);
    forall id | id in t.attempts ensures AttemptOk(t, id) {
      assert AttemptOk(s, id);
      assert id in s.active ==> ActiveOk(s, id);
    }
    forall id | id in t.active ensures ActiveOk(t, id) {
      assert ActiveOk(s, id);
    }
  }

  // ---------- attempts ----------

  lemma InFlightWithout(s: State, id: Id)
    requires id in s.attempts && !s.attempts[id].phase.Finished?
    ensures InFlight(Finish(s, id)) == InFlight(s) - {id} && |InFlight(s) - {id}| == |InFlight(s)| - 1
  {
    assert InFlight(s) == InFlight(s) - {id} + {id};
  }

  lemma InFlightSame(s: State, id: Id, phase: Phase)
    requires id in s.attempts && !s.attempts[id].phase.Finished? && !phase.Finished?
    ensures InFlight(Phased(s, id, phase)) == InFlight(s)
  {
  }

  lemma Smaller(a: set<Id>, b: set<Id>)
    requires a <= b
    ensures |a| <= |b|
  {
    assert b == a + (b - a);
  }

  lemma FinishBounded(s: State, id: Id)
    requires Bounded(s) && id in s.attempts && !s.attempts[id].phase.Finished?
    ensures Bounded(Finish(s, id)) && InFlight(Finish(s, id)) <= InFlight(s)
  {
    InFlightWithout(s, id);
    Smaller(Present(Finish(s, id)), Present(s));
  }

  /** Fewer attempts in flight and nothing else disturbs nothing. */
  lemma FinishKeepsInv(s: State, id: Id)
    requires Inv(s) && id in s.attempts && !s.attempts[id].phase.Finished?
    ensures Inv(Finish(s, id))
  {
    var t := Finish(s, id);
    FinishBounded(s, id);
    assert AttemptOk(s, id);
    assert t.attempts == s.attempts[id := s.attempts[id].(phase := Finished)];
    OthersOk(s, t, id);
    SameSockets(s, t);
  }

  /** Sockets and records as before, and no more attempts in flight. */
  lemma SameSockets(s: State, t: State)
    requires Inv(s) && t.active == s.active && s.serial <= t.serial && t.stopping == s.stopping
             && t.stops == s.stops && t.revocations == s.revocations
    requires forall i :: (i in s.active ==> t.closes[i] == s.closes[i]) && s.closes[i] <= t.closes[i]
    requires InFlight(t) <= InFlight(s)
    ensures forall i :: i in t.active ==> ActiveOk(t, i)
    ensures forall k :: k in t.revocations ==> RevocationOk(t, k)
    ensures forall k :: k in t.stops ==> StopOk(t, k)
  {
    forall i | i in t.active ensures ActiveOk(t, i) {
      assert ActiveOk(s, i);
    }
    forall k | k in t.revocations ensures RevocationOk(t, k) {
      assert RevocationOk(s, k);
    }
    forall k | k in t.stops ensures StopOk(t, k) {
      assert StopOk(s, k);
    }
  }

  /** Every attempt but `id` as before. */
  lemma OthersOk(s: State, t: State, id: Id)
    requires Inv(s) && s.serial <= t.serial
    requires forall i :: i != id ==> (i in t.attempts ==> i in s.attempts && t.attempts[i] == s.attempts[i])
    requires forall i :: i != id ==> (i in t.active <==> i in s.active)
    requires forall i :: i != id ==> t.closes[i] == s.closes[i]
    ensures forall i :: i in t.attempts && i != id ==> AttemptOk(t, i)
  {
    forall i | i in t.attempts && i != id ensures AttemptOk(t, i) {
      assert AttemptOk(s, i);
    }
  }

  function Rejected(s: State, id: Id): State
    requires id in s.attempts
  {
    Phased(s, id, Rejecting).(closes := s.closes + multiset{id})
  }

  lemma RejectedSets(s: State, id: Id)
    requires id in s.attempts && !s.attempts[id].phase.Finished?
    ensures InFlight(Rejected(s, id)) == InFlight(s)
    ensures forall i :: Rejected(s, id).closes[i] == s.closes[i] + (if i == id then 1 else 0)
  {
  }

  lemma RejectKeepsInv(s: State, id: Id)
    requires Inv(s) && id in s.attempts && (s.attempts[id].phase.Verifying? || s.attempts[id].phase.Opening?)
    ensures Inv(Rejected(s, id))
  {
    var t := Rejected(s, id);
    RejectedSets(s, id);
    SameBounded(s, t);
    assert AttemptOk(s, id);
    OthersOk(s, t, id);
    SameSockets(s, t);
  }

  lemma PhaseKeepsInv(s: State, id: Id, phase: Phase)
    requires Inv(s) && id in s.attempts && !s.attempts[id].phase.Finished?
    requires (phase.Opening? && s.attempts[id].phase.Verifying?) || (phase.Aborting? && s.closes[id] == 1)
    ensures Inv(Phased(s, id, phase))
  {
    var t := Phased(s, id, phase);
    InFlightSame(s, id, phase);
    assert AttemptOk(s, id);
    OthersOk(s, t, id);
    SameSockets(s, t);
  }

  /** `t` has the socket `id` besides those of `s`. */
  ghost predicate Registered(s: State, t: State, id: Id) {
    && id in s.attempts && (s.attempts[id].phase.Verifying? || s.attempts[id].phase.Opening?)
    && t.serial == s.serial && t.stopping == s.stopping && t.stops == s.stops && t.revocations == s.revocations
    && id in t.attempts
       && (forall i :: i != id ==>
            (i in t.attempts <==> i in s.attempts) && (i in s.attempts ==> t.attempts[i] == s.attempts[i]))
    && id in t.active
       && (forall i :: i != id ==> (i in t.active <==> i in s.active) && (i in s.active ==> t.active[i] == s.active[i]))
    && (forall i :: i != id ==> t.closes[i] == s.closes[i])
    && t.closes[id] == (if t.active[id].closing then 1 else 0)
    && match t.attempts[id].phase
       case Finished => t.opening == s.opening - 1
       case Aborting => t.opening == s.opening && t.active[id].closing
       case _ => false
  }

  lemma RegisteredSets(s: State, t: State, id: Id)
    requires Registered(s, t, id)
    ensures id in InFlight(s) && Present(t) == Present(s)
    ensures InFlight(t) == if t.attempts[id].phase.Finished? then InFlight(s) - {id} else InFlight(s)
  {
    forall i ensures i in InFlight(t) <==> i in InFlight(s) && (i != id || t.attempts[id].phase.Aborting?) {
    }
    forall i ensures i in Present(t) <==> i in Present(s) {
    }
  }

  lemma OneLess(a: set<Id>, id: Id)
    requires id in a
    ensures |a - {id}| == |a| - 1
  {
    assert a == a - {id} + {id};
  }

  lemma RegisteredBounded(s: State, t: State, id: Id)
    requires Bounded(s) && Registered(s, t, id)
    ensures Bounded(t)
  {
    RegisteredSets(s, t, id);
    OneLess(InFlight(s), id);
  }

  lemma RegisteredRecords(s: State, t: State, id: Id)
    requires Inv(s) && !s.stopping && Registered(s, t, id)
    ensures forall k :: k in t.revocations ==> RevocationOk(t, k)
    ensures forall k :: k in t.stops ==> StopOk(t, k)
  {
    assert AttemptOk(s, id);
    forall k | k in t.revocations ensures RevocationOk(t, k) {
      assert RevocationOk(s, k);
    }
    forall k | k in t.stops ensures StopOk(t, k) {
      assert StopOk(s, k);
    }
  }

  lemma RegisteredKeepsInv(s: State, t: State, id: Id)
    requires Inv(s) && !s.stopping && Registered(s, t, id)
    ensures Inv(t)
  {
    RegisteredBounded(s, t, id);
    RegisteredRecords(s, t, id);
    assert AttemptOk(s, id);
    OthersOk(s, t, id);
    assert AttemptOk(t, id);
    forall i | i in t.active ensures ActiveOk(t, i) {
      assert i != id ==> ActiveOk(s, i);
    }
  }

  lemma CommitIsFinish(s: State, id: Id, workspace: Option<string>)
    requires id in s.attempts && s.closes[id] == 0 && !s.attempts[id].aborted
             && (s.attempts[id].phase.Verifying? || s.attempts[id].phase.Opening?)
    requires !s.stopping && Authorized(s, s.attempts[id].guest, workspace)
    ensures Registered(s, Commit(s, id, workspace), id)
  {
  }

  lemma CommitIsAbort(s: State, id: Id, workspace: Option<string>)
    requires id in s.attempts && s.closes[id] == 0 && s.attempts[id].aborted
             && (s.attempts[id].phase.Verifying? || s.attempts[id].phase.Opening?)
    requires !s.stopping && Authorized(s, s.attempts[id].guest, workspace)
    ensures Registered(s, Commit(s, id, workspace), id)
  {
    var u := s.(active := s.active[id := Active(s.attempts[id].guest, workspace, false)]);
    assert Unclosed(u, {id}) == {id};
    assert forall i :: multiset({id})[i] == if i == id then 1 else 0;
  }

  lemma CommitRegisters(s: State, id: Id, workspace: Option<string>)
    requires Inv(s) && !s.stopping && id in s.attempts
             && (s.attempts[id].phase.Verifying? || s.attempts[id].phase.Opening?)
    requires Authorized(s, s.attempts[id].guest, workspace)
    ensures Registered(s, Commit(s, id, workspace), id)
  {
    assert AttemptOk(s, id);
    if s.attempts[id].aborted {
      CommitIsAbort(s, id, workspace);
    } else {
      CommitIsFinish(s, id, workspace);
    }
  }

  lemma CommitKeepsInv(s: State, id: Id, workspace: Option<string>)
    requires Inv(s) && id in s.attempts && (s.attempts[id].phase.Verifying? || s.attempts[id].phase.Opening?)
    ensures Inv(Commit(s, id, workspace))
  {
    if s.stopping || !Authorized(s, s.attempts[id].guest, workspace) {
      RejectKeepsInv(s, id);
    } else {
      CommitRegisters(s, id, workspace);
      RegisteredKeepsInv(s, Commit(s, id, workspace), id);
    }
  }

  // ---------- the other steps ----------

  lemma AdmitSets(s: State, guest: string, transport: bool)
    requires s.serial !in s.attempts && s.serial !in s.active
    ensures var t := Admit(s, guest, transport);
            if guest in s.grants && transport
            then InFlight(t) == InFlight(s) + {s.serial} && Present(t) == Present(s) + {s.serial}
            else InFlight(t) == InFlight(s) && Present(t) == Present(s)
  {
    var t := Admit(s, guest, transport);
    forall i ensures i in InFlight(t) <==> i in InFlight(s) || (i == s.serial && guest in s.grants && transport) {
    }
  }

  lemma OneMore(a: set<Id>, id: Id)
    requires id !in a
    ensures |a + {id}| == |a| + 1
  {
  }

  lemma AdmitBounded(s: State, guest: string, transport: bool)
    requires Bounded(s) && s.serial !in s.attempts && s.serial !in s.active && |s.active| + s.opening < CAPACITY
    ensures var t := Admit(s, guest, transport);
            Bounded(t)
              && InFlight(t) == if guest in s.grants && transport then InFlight(s) + {s.serial} else InFlight(s)
  {
    AdmitSets(s, guest, transport);
    OneMore(InFlight(s), s.serial);
    OneMore(Present(s), s.serial);
    AtMostSum(InFlight(s), s.active.Keys);
  }

  lemma AtMostSum(a: set<Id>, b: set<Id>)
    ensures |a + b| <= |a| + |b|
  {
    assert a + b == a + (b - a);
    Smaller(b - a, b);
  }

  lemma Unused(s: State)
    requires Inv(s)
    ensures s.serial !in s.attempts && s.serial !in s.active && s.closes[s.serial] == 0
            && s.serial !in s.revocations && s.serial !in s.stops
  {
    forall id | id in s.attempts ensures id < s.serial {
      assert AttemptOk(s, id);
    }
    forall id | id in s.active ensures id < s.serial {
      assert ActiveOk(s, id);
    }
    forall k | k in s.revocations ensures k < s.serial {
      assert RevocationOk(s, k);
    }
    forall k | k in s.stops ensures k < s.serial {
      assert StopOk(s, k);
    }
  }

  lemma AdmitKeepsInv(s: State, guest: string, transport: bool)
    requires Inv(s) && Admits(s, false)
    ensures Inv(Admit(s, guest, transport))
  {
    var t := Admit(s, guest, transport);
    Unused(s);
    AdmitBounded(s, guest, transport);
    OthersOk(s, t, s.serial);
    forall i | i in t.active ensures ActiveOk(t, i) {
      assert ActiveOk(s, i);
    }
    forall k | k in t.revocations ensures RevocationOk(t, k) {
      assert RevocationOk(s, k);
    }
    forall k | k in t.stops ensures StopOk(t, k) {
      assert StopOk(s, k);
    }
  }

  /** Only a record is added or dropped, or a flag is set. */
  lemma RecordsKeepInv(s: State, t: State)
    requires Inv(s) && t.attempts == s.attempts && t.active == s.active && t.opening == s.opening
             && t.closes == s.closes && s.serial <= t.serial
    requires forall k :: k in t.revocations ==> RevocationOk(t, k)
    requires forall k :: k in t.stops ==> StopOk(t, k)
    ensures Inv(t)
  {
    assert InFlight(t) == InFlight(s);
    forall i | i in t.attempts ensures AttemptOk(t, i) {
      assert AttemptOk(s, i);
    }
    forall i | i in t.active ensures ActiveOk(t, i) {
      assert ActiveOk(s, i);
    }
  }

  lemma SameBounded(s: State, t: State)
    requires Bounded(s) && t.opening == s.opening && t.active == s.active && InFlight(t) == InFlight(s)
    ensures Bounded(t)
  {
  }

  lemma FlaggedInFlight(s: State, id: Id)
    requires id in s.attempts
    ensures InFlight(Flagged(s, id)) == InFlight(s)
  {
  }

  lemma AbortedFlagKeepsInv(s: State, id: Id)
    requires Inv(s) && id in s.attempts
    ensures Inv(Flagged(s, id))
  {
    var t := Flagged(s, id);
    FlaggedInFlight(s, id);
    SameBounded(s, t);
    assert AttemptOk(s, id);
    OthersOk(s, t, id);
    SameSockets(s, t);
  }

  lemma SettledInFlight(s: State, id: Id)
    requires Enabled(s, Settled(id))
    ensures InFlight(Next(s, Settled(id))) == InFlight(s)
  {
  }

  lemma SettledKeepsInv(s: State, id: Id)
    requires Inv(s) && Enabled(s, Settled(id))
    ensures Inv(Next(s, Settled(id)))
  {
    var t := Next(s, Settled(id));
    SettledInFlight(s, id);
    SameBounded(s, t);
    OthersOk(s, t, id);
    SameSockets(s, t);
  }

  lemma CloseDoneKeepsInv(s: State, id: Id)
    requires Inv(s) && Enabled(s, CloseDone(id))
    ensures Inv(Next(s, CloseDone(id)))
  {
    var t := Next(s, CloseDone(id));
    assert InFlight(t) == InFlight(s);
    Smaller(Present(t), Present(s));
    OthersOk(s, t, id);
    assert ActiveOk(s, id);
    assert id in s.attempts ==> AttemptOk(s, id);
    forall i | i in t.active ensures ActiveOk(t, i) {
      assert ActiveOk(s, i);
    }
    CloseDoneRecords(s, id);
  }

  lemma CloseDoneRecords(s: State, id: Id)
    requires Inv(s) && Enabled(s, CloseDone(id)) && InFlight(Next(s, CloseDone(id))) == InFlight(s)
    ensures var t := Next(s, CloseDone(id));
            && (forall k :: k in t.revocations ==> RevocationOk(t, k))
            && (forall k :: k in t.stops ==> StopOk(t, k))
  {
    var t := Next(s, CloseDone(id));
    forall k | k in t.revocations ensures RevocationOk(t, k) {
      assert RevocationOk(s, k);
    }
    forall k | k in t.stops ensures StopOk(t, k) {
      assert StopOk(s, k);
    }
  }

  lemma RevokeKeepsInv(s: State, guest: string, workspaces: set<string>)
    requires Inv(s)
    ensures Inv(Next(s, Revoke(guest, workspaces)))
  {
    var affected := Affected(s, guest, workspaces);
    var u := CloseAll(s, affected);
    var t := Next(s, Revoke(guest, workspaces));
    CloseAllKeepsInv(s, affected);
    CloseAllClosesOnce(s, affected);
    forall id | id in affected ensures t.closes[id] > 0 {
      assert ActiveOk(s, id);
    }
    forall k | k in t.revocations ensures RevocationOk(t, k) {
      assert k in u.revocations ==> RevocationOk(u, k);
    }
    forall k | k in t.stops ensures StopOk(t, k) {
      assert StopOk(u, k);
    }
    RecordsKeepInv(u, t);
  }

  lemma SameRecords(s: State, t: State)
    requires Inv(s) && t.attempts == s.attempts && t.active == s.active && t.closes == s.closes && s.serial <= t.serial
    ensures forall k :: k in t.revocations && k in s.revocations && t.revocations[k] == s.revocations[k] ==>
              RevocationOk(t, k)
    ensures forall k :: k in t.stops && k in s.stops && t.stops[k] == s.stops[k] && (s.stopping ==> t.stopping) ==>
              StopOk(t, k)
  {
    assert InFlight(t) == InFlight(s);
    forall k | k in t.revocations && k in s.revocations && t.revocations[k] == s.revocations[k]
      ensures RevocationOk(t, k) {
      assert RevocationOk(s, k);
    }
    forall k | k in t.stops && k in s.stops && t.stops[k] == s.stops[k] && (s.stopping ==> t.stopping)
      ensures StopOk(t, k) {
      assert StopOk(s, k);
    }
  }

  lemma ConfigureKeepsInv(s: State)
    requires Inv(s)
    ensures Inv(Next(s, Configure))
  {
    var t := Next(s, Configure);
    SameRecords(s, t);
    forall k | k in t.stops ensures StopOk(t, k) {
      assert StopOk(s, k);
    }
    RecordsKeepInv(s, t);
  }

  lemma StopKeepsInv(s: State)
    requires Inv(s)
    ensures Inv(Next(s, Stop))
  {
    var t := Next(s, Stop);
    SameRecords(s, t);
    assert InFlight(t) <= s.attempts.Keys;
    assert StopOk(t, s.serial);
    RecordsKeepInv(s, t);
  }

  lemma StopDoneRecord(s: State, k: nat)
    requires Enabled(s, StopDone(k)) && StopOk(s, k)
    ensures StopOk(Next(s, StopDone(k)), k)
  {
    var t := Next(s, StopDone(k));
    assert InFlight(t) == InFlight(s);
    assert s.stops[k].current ==> s.active.Keys == {};
  }

  lemma StopDoneKeepsInv(s: State, k: nat)
    requires Inv(s) && Enabled(s, StopDone(k))
    ensures Inv(Next(s, StopDone(k)))
  {
    var t := Next(s, StopDone(k));
    SameRecords(s, t);
    StopDoneRecord(s, k);
    RecordsKeepInv(s, t);
  }

  lemma RecordStepsKeepInv(s: State, step: Step)
    requires Inv(s) && Enabled(s, step) && (step.RevokeDone? || step.Grant?)
    ensures Inv(Next(s, step))
  {
    SameRecords(s, Next(s, step));
    RecordsKeepInv(s, Next(s, step));
  }

  lemma StopClearsRecord(s: State, k: nat)
    requires Inv(s) && Enabled(s, StopClears(k))
    ensures StopOk(Next(s, StopClears(k)), k)
  {
    var t := Next(s, StopClears(k));
    CloseAllSets(s, s.active.Keys);
    CloseAllClosesOnce(s, s.active.Keys);
    forall id | id in s.active ensures t.closes[id] > 0 {
      assert ActiveOk(s, id);
    }
    assert InFlight(t) == InFlight(s);
    assert StopOk(s, k);
  }

  lemma StopClearsKeepsInv(s: State, k: nat)
    requires Inv(s) && Enabled(s, StopClears(k))
    ensures Inv(Next(s, StopClears(k)))
  {
    var u := CloseAll(s, s.active.Keys);
    var t := Next(s, StopClears(k));
    CloseAllKeepsInv(s, s.active.Keys);
    StopClearsRecord(s, k);
    SameRecords(u, t);
    RecordsKeepInv(u, t);
  }

  lemma AttemptStepsKeepInv(s: State, step: Step)
    requires Inv(s) && Enabled(s, step)
             && (step.Verified? || step.TerminalOpened? || step.RejectClosed? || step.AbortClosed?)
    ensures Inv(Next(s, step))
  {
    match step
    case Verified(id, request) =>
      match request {
        case Denied => FinishKeepsInv(s, id);
        case Realtime => CommitKeepsInv(s, id, None);
        case Preview(workspace) => CommitKeepsInv(s, id, Some(workspace));
        case Terminal(workspace) => PhaseKeepsInv(s, id, Opening(workspace));
      }
    case TerminalOpened(id, ok) =>
      if ok { CommitKeepsInv(s, id, Some(s.attempts[id].phase.workspace)); } else { FinishKeepsInv(s, id); }
    case RejectClosed(id) => FinishKeepsInv(s, id);
    case AbortClosed(id) => FinishKeepsInv(s, id);
  }

  lemma StepKeepsInv(s: State, step: Step)
    requires Inv(s) && Enabled(s, step)
    ensures Inv(Next(s, step))
  {
    match step
    case Open(guest, transport, aborted) => if Admits(s, aborted) { AdmitKeepsInv(s, guest, transport); }
    case Abort(id) =>
      if id in s.attempts {
        AbortedFlagKeepsInv(s, id);
        CloseAllKeepsInv(Flagged(s, id), {id});
      } else {
        CloseAllKeepsInv(s, {id});
      }
    case Settled(id) => SettledKeepsInv(s, id);
    case CloseCalled(id) => CloseAllKeepsInv(s, {id});
    case CloseDone(id) => CloseDoneKeepsInv(s, id);
    case Revoke(guest, workspaces) => RevokeKeepsInv(s, guest, workspaces);
    case StopClears(k) => StopClearsKeepsInv(s, k);
    case Verified(_, _) => AttemptStepsKeepInv(s, step);
    case TerminalOpened(_, _) => AttemptStepsKeepInv(s, step);
    case RejectClosed(_) => AttemptStepsKeepInv(s, step);
    case AbortClosed(_) => AttemptStepsKeepInv(s, step);
    case Configure => ConfigureKeepsInv(s);
    case Stop => StopKeepsInv(s);
    case StopDone(k) => StopDoneKeepsInv(s, k);
    case _ => RecordStepsKeepInv(s, step);
  }

  // ---------- every run ----------

  ghost predicate Follows(s: State, steps: seq<Step>, t: State)
    decreases |steps|
  {
    if steps == [] then s == t else Enabled(s, steps[0]) && Follows(Next(s, steps[0]), steps[1..], t)
  }

  lemma {:induction false} RunKeepsInv(s: State, steps: seq<Step>, t: State)
    requires Inv(s) && Follows(s, steps, t)
    ensures Inv(t)
    decreases |steps|
  {
    if steps != [] {
      StepKeepsInv(s, steps[0]);
      RunKeepsInv(Next(s, steps[0]), steps[1..], t);
    }
  }

  ghost predicate Reachable(s: State) {
    exists steps :: Follows(INITIAL, steps, s)
  }

  lemma ReachableInv(s: State)
    requires Reachable(s)
    ensures Inv(s)
  {
    var steps :| Follows(INITIAL, steps, s);
    assert InFlight(INITIAL) == {} && Present(INITIAL) == {};
    RunKeepsInv(INITIAL, steps, s);
  }

  /** At most 256 sockets are opening or active, and no attachment is closed twice. */
  lemma ReachableIsBounded(s: State)
    requires Reachable(s)
    ensures |Present(s)| <= CAPACITY && s.opening == |InFlight(s)|
    ensures forall id :: s.closes[id] <= 1
    ensures forall id :: id in s.active ==> (s.active[id].closing <==> s.closes[id] == 1)
  {
    ReachableInv(s);
    forall id | id in s.active ensures s.active[id].closing <==> s.closes[id] == 1 {
      assert ActiveOk(s, id);
    }
  }

  // ---------- revocation ----------

  /** The grant does not cover the workspaces; with `whole` it is gone altogether. */
  ghost predicate Withdrawn(s: State, guest: string, workspaces: set<string>, whole: bool) {
    guest in s.grants ==> !whole && workspaces !! s.grants[guest]
  }

  /** The step registers a realtime socket of the guest. */
  predicate Joins(s: State, step: Step, guest: string)
    requires Enabled(s, step)
  {
    && step.Verified? && step.request.Realtime? && s.attempts[step.id].guest == guest
    && !s.stopping && guest in s.grants
  }

  function Joining(s: State, step: Step, guest: string): set<Id>
    requires Enabled(s, step)
  {
    if Joins(s, step, guest) then {step.id} else {}
  }

  /** The realtime sockets of the guest that are registered during the run. */
  function Joined(s: State, steps: seq<Step>, guest: string): set<Id>
    decreases |steps|
  {
    if steps == [] || !Enabled(s, steps[0]) then {}
    else Joining(s, steps[0], guest) + Joined(Next(s, steps[0]), steps[1..], guest)
  }

  /** The socket is registered as before, if it is, and its attachment closed no less often. */
  predicate Same(s: State, t: State, id: Id) {
    && (id in t.active <==> id in s.active)
    && (id in s.active ==> t.active[id].guest == s.active[id].guest && t.active[id].workspace == s.active[id].workspace)
    && s.closes[id] <= t.closes[id]
  }

  lemma CloseAllSame(s: State, ids: set<Id>, id: Id)
    ensures Same(s, CloseAll(s, ids), id)
  {
  }

  lemma QuietStep(s: State, step: Step, id: Id)
    requires Enabled(s, step) && !step.Verified? && !step.TerminalOpened? && !step.CloseDone?
    ensures Same(s, Next(s, step), id)
  {
    match step
    case Abort(i) => CloseAllSame(if i in s.attempts then Flagged(s, i) else s, {i}, id);
    case CloseCalled(i) => CloseAllSame(s, {i}, id);
    case Revoke(g, w) => CloseAllSame(s, Affected(s, g, w), id);
    case StopClears(_) => CloseAllSame(s, s.active.Keys, id);
    case _ =>
  }

  /** The socket a commit registers, if it does. */
  predicate Committed(s: State, t: State, id: Id, workspace: Option<string>)
    requires id in s.attempts
  {
    && (id in t.active <==> !s.stopping && Authorized(s, s.attempts[id].guest, workspace))
    && (id in t.active ==> t.active[id].guest == s.attempts[id].guest && t.active[id].workspace == workspace)
  }

  lemma CommitIs(s: State, id: Id, workspace: Option<string>)
    requires id in s.attempts && id !in s.active
    ensures Committed(s, Commit(s, id, workspace), id, workspace)
  {
  }

  lemma CommitSame(s: State, id: Id, workspace: Option<string>, other: Id)
    requires id in s.attempts && id !in s.active && other != id
    ensures Same(s, Commit(s, id, workspace), other)
  {
    var u := s.(active := s.active[id := Active(s.attempts[id].guest, workspace, false)]);
    CloseAllSame(u, {id}, other);
  }

  /** The workspace that the step commits to, if it commits. */
  function Request1(s: State, step: Step): Option<Option<string>>
    requires Enabled(s, step) && (step.Verified? || step.TerminalOpened?)
  {
    match step
    case Verified(_, Realtime) => Some(None)
    case Verified(_, Preview(workspace)) => Some(Some(workspace))
    case TerminalOpened(id, true) => Some(Some(s.attempts[id].phase.workspace))
    case _ => None
  }

  lemma RequestIs(s: State, step: Step)
    requires Enabled(s, step) && (step.Verified? || step.TerminalOpened?)
    ensures match Request1(s, step)
            case Some(workspace) => Next(s, step) == Commit(s, step.id, workspace)
            case None => Next(s, step).active == s.active && Next(s, step).closes == s.closes
  {
  }

  lemma AttemptStep(s: State, step: Step, id: Id)
    requires Enabled(s, step) && (step.Verified? || step.TerminalOpened?) && step.id !in s.active
    ensures id != step.id ==> Same(s, Next(s, step), id)
    ensures match Request1(s, step)
            case Some(workspace) => Committed(s, Next(s, step), step.id, workspace)
            case None => step.id !in Next(s, step).active
  {
    RequestIs(s, step);
    var workspace := Request1(s, step);
    if workspace.Some? {
      CommitIs(s, step.id, workspace.value);
      if id != step.id { CommitSame(s, step.id, workspace.value, id); }
    }
  }

  predicate Hit(s: State, id: Id, guest: string, workspaces: set<string>) {
    && id in s.active && s.active[id].guest == guest
    && (s.active[id].workspace.None? || s.active[id].workspace.value in workspaces)
  }

  lemma HitIsAffected(s: State, guest: string, workspaces: set<string>)
    ensures forall id :: Hit(s, id, guest, workspaces) <==> id in Affected(s, guest, workspaces)
  {
  }

  /** `t` has the affected sockets of `s`, and `more`, as far as they are still active. */
  ghost predicate Carries(s: State, t: State, more: set<Id>, guest: string, workspaces: set<string>) {
    forall id :: Hit(t, id, guest, workspaces) <==> id in t.active && (Hit(s, id, guest, workspaces) || id in more)
  }

  /**
   * Under a withdrawn grant the affected sockets after a step are those before it that are still active,
   * and the realtime socket that the step registers, if it does.
   */
  lemma StepAffects(s: State, step: Step, guest: string, workspaces: set<string>)
    requires Inv(s) && Enabled(s, step) && Withdrawn(s, guest, workspaces, false)
    ensures Carries(s, Next(s, step), Joining(s, step, guest), guest, workspaces)
    ensures Joining(s, step, guest) <= Next(s, step).active.Keys
  {
    var t := Next(s, step);
    forall id
      ensures Hit(t, id, guest, workspaces) <==>
              id in t.active && (Hit(s, id, guest, workspaces) || id in Joining(s, step, guest))
      ensures id in Joining(s, step, guest) ==> id in t.active
    {
      if step.Verified? || step.TerminalOpened? {
        assert AttemptOk(s, step.id);
        AttemptAffects(s, step, guest, workspaces, id);
      } else if !step.CloseDone? {
        QuietStep(s, step, id);
      }
    }
  }

  lemma AttemptAffects(s: State, step: Step, guest: string, workspaces: set<string>, id: Id)
    requires Enabled(s, step) && (step.Verified? || step.TerminalOpened?) && step.id !in s.active
    requires Withdrawn(s, guest, workspaces, false)
    ensures var t := Next(s, step);
            && (Hit(t, id, guest, workspaces) <==>
                id in t.active && (Hit(s, id, guest, workspaces) || id in Joining(s, step, guest)))
            && (id in Joining(s, step, guest) ==> id in t.active)
  {
    AttemptStep(s, step, id);
  }

  /** The attachment was closed and the socket left the registry. */
  predicate Gone(s: State, id: Id) {
    s.closes[id] > 0 && id !in s.active
  }

  /** What is gone does not come back. */
  lemma StepGone(s: State, step: Step, gone: Id)
    requires Inv(s) && Enabled(s, step) && Gone(s, gone)
    ensures Gone(Next(s, step), gone)
  {
    if step.Verified? || step.TerminalOpened? {
      assert AttemptOk(s, step.id);
      AttemptStep(s, step, gone);
    } else if !step.CloseDone? {
      QuietStep(s, step, gone);
    }
  }

  lemma {:induction false} RunGone(s: State, steps: seq<Step>, t: State, gone: Id)
    requires Inv(s) && Follows(s, steps, t) && Gone(s, gone)
    ensures Gone(t, gone)
    decreases |steps|
  {
    if steps != [] {
      StepKeepsInv(s, steps[0]);
      StepGone(s, steps[0], gone);
      RunGone(Next(s, steps[0]), steps[1..], t, gone);
    }
  }

  /** A socket only leaves the registry after its attachment was closed. */
  lemma StepLeaves(s: State, step: Step, id: Id)
    requires Inv(s) && Enabled(s, step) && id in s.active && id !in Next(s, step).active
    ensures Gone(Next(s, step), id)
  {
    assert ActiveOk(s, id);
    if step.Verified? || step.TerminalOpened? {
      assert AttemptOk(s, step.id);
      AttemptStep(s, step, id);
    } else if !step.CloseDone? {
      QuietStep(s, step, id);
    }
  }

  /** A run throughout which the grant stays withdrawn. */
  ghost predicate Refuses(s: State, steps: seq<Step>, t: State, guest: string, workspaces: set<string>, whole: bool)
    decreases |steps|
  {
    && Withdrawn(s, guest, workspaces, whole)
    && if steps == [] then s == t
       else Enabled(s, steps[0]) && Refuses(Next(s, steps[0]), steps[1..], t, guest, workspaces, whole)
  }

  lemma {:induction false} RefusesFollows(s: State, steps: seq<Step>, t: State, guest: string,
                                          workspaces: set<string>, whole: bool)
    requires Refuses(s, steps, t, guest, workspaces, whole)
    ensures Follows(s, steps, t) && Refuses(s, steps, t, guest, workspaces, false)
    ensures whole ==> Joined(s, steps, guest) == {}
    decreases |steps|
  {
    if steps != [] {
      RefusesFollows(Next(s, steps[0]), steps[1..], t, guest, workspaces, whole);
    }
  }

  /**
   * However the run goes while the grant stays withdrawn, the affected sockets at its end are exactly those
   * of its beginning and the realtime sockets registered in between, without those that were closed.
   */
  lemma {:induction false} RunAffects(s: State, steps: seq<Step>, t: State, guest: string, workspaces: set<string>)
    requires Inv(s) && Refuses(s, steps, t, guest, workspaces, false)
    ensures Inv(t) && Carries(s, t, Joined(s, steps, guest), guest, workspaces)
    decreases |steps|
  {
    if steps != [] {
      var u := Next(s, steps[0]);
      StepKeepsInv(s, steps[0]);
      StepAffects(s, steps[0], guest, workspaces);
      RunAffects(u, steps[1..], t, guest, workspaces);
      RefusesFollows(u, steps[1..], t, guest, workspaces, false);
      StayedAway(s, steps, t, guest, workspaces);
      CarriesTwice(s, u, t, Joining(s, steps[0], guest), Joined(u, steps[1..], guest), guest, workspaces);
    }
  }

  lemma StayedAway(s: State, steps: seq<Step>, t: State, guest: string, workspaces: set<string>)
    requires Inv(s) && steps != [] && Follows(s, steps, t)
    ensures forall id :: id in s.active && id !in Next(s, steps[0]).active ==> id !in t.active
  {
    var u := Next(s, steps[0]);
    StepKeepsInv(s, steps[0]);
    forall id | id in s.active && id !in u.active ensures id !in t.active {
      StepLeaves(s, steps[0], id);
      RunGone(u, steps[1..], t, id);
    }
  }

  lemma CarriesTwice(s: State, u: State, t: State, more: set<Id>, later: set<Id>, guest: string,
                     workspaces: set<string>)
    requires Carries(s, u, more, guest, workspaces) && Carries(u, t, later, guest, workspaces)
    requires more <= u.active.Keys && forall id :: id in s.active && id !in u.active ==> id !in t.active
    ensures Carries(s, t, more + later, guest, workspaces)
  {
    forall id
      ensures Hit(t, id, guest, workspaces) <==> id in t.active && (Hit(s, id, guest, workspaces) || id in more + later)
    {
      assert Hit(u, id, guest, workspaces) <==> id in u.active && (Hit(s, id, guest, workspaces) || id in more);
    }
  }

  predicate Keeps(s: State, t: State) {
    t.revocations == s.revocations && t.stops == s.stops && s.serial <= t.serial
  }

  lemma VerifiedKeeps(s: State, id: Id, request: Request)
    requires Enabled(s, Verified(id, request))
    ensures Keeps(s, Next(s, Verified(id, request)))
  {
    match request
    case Denied =>
    case Realtime => CommitKeeps(s, id, None);
    case Preview(workspace) => CommitKeeps(s, id, Some(workspace));
    case Terminal(_) =>
  }

  lemma TerminalOpenedKeeps(s: State, id: Id, ok: bool)
    requires Enabled(s, TerminalOpened(id, ok))
    ensures Keeps(s, Next(s, TerminalOpened(id, ok)))
  {
    CommitKeeps(s, id, Some(s.attempts[id].phase.workspace));
  }

  lemma CommitKeeps(s: State, id: Id, workspace: Option<string>)
    requires id in s.attempts
    ensures Keeps(s, Commit(s, id, workspace))
  {
  }

  predicate Recording(step: Step) {
    step.Configure? || step.Revoke? || step.RevokeDone? || step.Stop? || step.StopClears? || step.StopDone?
  }

  /** Only revocations and shutdowns touch their records. */
  lemma StepKeeps(s: State, step: Step)
    requires Enabled(s, step) && !Recording(step)
    ensures Keeps(s, Next(s, step))
  {
    match step
    case Verified(id, request) => VerifiedKeeps(s, id, request);
    case TerminalOpened(id, ok) => TerminalOpenedKeeps(s, id, ok);
    case _ =>
  }

  lemma StepRevocation(s: State, step: Step, k: nat)
    requires Enabled(s, step) && k < s.serial
    ensures var t := Next(s, step); k in t.revocations ==> k in s.revocations && t.revocations[k] == s.revocations[k]
    ensures k < Next(s, step).serial
  {
    if !Recording(step) { StepKeeps(s, step); }
  }

  lemma {:induction false} RunRevocation(s: State, steps: seq<Step>, t: State, guest: string, workspaces: set<string>,
                                         whole: bool, k: nat)
    requires Refuses(s, steps, t, guest, workspaces, whole) && k < s.serial
    ensures k in t.revocations ==> k in s.revocations && t.revocations[k] == s.revocations[k]
    decreases |steps|
  {
    if steps != [] {
      StepRevocation(s, steps[0], k);
      RunRevocation(Next(s, steps[0]), steps[1..], t, guest, workspaces, whole, k);
    }
  }

  /**
   * The grant is withdrawn, then `revoke` is called, then anything happens while it stays withdrawn: when
   * `revoke` may resolve, the guest's affected sockets are exactly the realtime sockets that were registered
   * after the call and are not closed yet.
   */
  lemma RevokedIsClosed(s: State, guest: string, workspaces: set<string>, steps: seq<Step>, t: State)
    requires Reachable(s) && Withdrawn(s, guest, workspaces, false)
    requires Refuses(Next(s, Revoke(guest, workspaces)), steps, t, guest, workspaces, false)
    requires Enabled(t, RevokeDone(s.serial))
    ensures var u := Next(s, Revoke(guest, workspaces));
            Affected(t, guest, workspaces) == Joined(u, steps, guest) * t.active.Keys
  {
    ReachableInv(s);
    var u := Next(s, Revoke(guest, workspaces));
    StepKeepsInv(s, Revoke(guest, workspaces));
    RunAffects(u, steps, t, guest, workspaces);
    RunRevocation(u, steps, t, guest, workspaces, false, s.serial);
    RevokedAreAwaited(s, guest, workspaces);
    HitIsAffected(t, guest, workspaces);
  }

  lemma RevokedAreAwaited(s: State, guest: string, workspaces: set<string>)
    ensures var u := Next(s, Revoke(guest, workspaces));
            s.serial in u.revocations && forall id :: Hit(u, id, guest, workspaces) ==>
                id in u.revocations[s.serial].waiting
  {
    var u := Next(s, Revoke(guest, workspaces));
    forall id | Hit(u, id, guest, workspaces) ensures id in u.revocations[s.serial].waiting {
      QuietStep(s, Revoke(guest, workspaces), id);
    }
  }

  /** When the whole grant is withdrawn, none of the guest's affected sockets is left. */
  lemma WholeRevocationCloses(s: State, guest: string, workspaces: set<string>, steps: seq<Step>, t: State)
    requires Reachable(s) && Withdrawn(s, guest, workspaces, true)
    requires Refuses(Next(s, Revoke(guest, workspaces)), steps, t, guest, workspaces, true)
    requires Enabled(t, RevokeDone(s.serial))
    ensures Affected(t, guest, workspaces) == {}
  {
    var u := Next(s, Revoke(guest, workspaces));
    RefusesFollows(u, steps, t, guest, workspaces, true);
    RevokedIsClosed(s, guest, workspaces, steps, t);
  }

  /** As long as the grant stays withdrawn, only realtime sockets are added to the affected ones. */
  lemma RevokedStaysClosed(s: State, guest: string, workspaces: set<string>, whole: bool, steps: seq<Step>, t: State)
    requires Reachable(s) && Refuses(s, steps, t, guest, workspaces, whole)
    ensures Affected(t, guest, workspaces) == (Affected(s, guest, workspaces) + Joined(s, steps, guest)) * t.active.Keys
    ensures whole ==> Affected(t, guest, workspaces) <= Affected(s, guest, workspaces)
  {
    ReachableInv(s);
    RefusesFollows(s, steps, t, guest, workspaces, whole);
    RunAffects(s, steps, t, guest, workspaces);
    HitIsAffected(s, guest, workspaces);
    HitIsAffected(t, guest, workspaces);
  }

  /** Granted, opening, withdrawn, revoked, resolved; then the proof is verified. */
  function Outliving(guest: string, workspace: string): seq<Step> {
    [Grant(guest, Some({workspace}))] + ([Open(guest, true, false)] + ([Grant(guest, Some({}))] +
    ([Revoke(guest, {workspace})] + ([RevokeDone(1)] + ([Verified(0, Realtime)] + [])))))
  }

  function Waiting(guest: string): State {
    State(map[0 := Attempt(guest, false, Verifying)], map[], 1, false, 2, multiset{}, map[], map[], map[guest := {}])
  }

  /** Opening, with these workspaces left. */
  function Admitted(guest: string, work: set<string>): State {
    State(map[0 := Attempt(guest, false, Verifying)], map[], 1, false, 1, multiset{}, map[], map[], map[guest := work])
  }

  lemma OpenedThenWithdrawn(guest: string, workspace: string)
    ensures var b := Next(Next(INITIAL, Grant(guest, Some({workspace}))), Open(guest, true, false));
            Next(b, Grant(guest, Some({}))) == Admitted(guest, {})
  {
    assert Next(Next(INITIAL, Grant(guest, Some({workspace}))), Open(guest, true, false))
           == Admitted(guest, {workspace});
  }

  lemma NothingToClose(guest: string, workspace: string)
    ensures var d := Next(Admitted(guest, {}), Revoke(guest, {workspace}));
            Enabled(d, RevokeDone(1)) && Next(d, RevokeDone(1)) == Waiting(guest)
  {
    var c := Admitted(guest, {});
    assert Affected(c, guest, {workspace}) == {} && Unclosed(c, {}) == {};
    assert CloseAll(c, {}) == c;
    assert map[1 as nat := Revocation(guest, {workspace}, {})] - {1} == map[];
  }

  lemma RevokedWhileOpening(guest: string, workspace: string)
    ensures var b := Next(Next(INITIAL, Grant(guest, Some({workspace}))), Open(guest, true, false));
            var d := Next(Next(b, Grant(guest, Some({}))), Revoke(guest, {workspace}));
            Enabled(d, RevokeDone(1)) && Next(d, RevokeDone(1)) == Waiting(guest)
  {
    OpenedThenWithdrawn(guest, workspace);
    NothingToClose(guest, workspace);
  }

  lemma RunsThen(s: State, step: Step, steps: seq<Step>, t: State)
    requires Enabled(s, step) && Follows(Next(s, step), steps, t)
    ensures Follows(s, [step] + steps, t)
  {
    assert ([step] + steps)[1..] == steps;
  }

  lemma OutlivingRuns(guest: string, workspace: string)
    ensures Enabled(Waiting(guest), Verified(0, Realtime))
    ensures Follows(INITIAL, Outliving(guest, workspace), Next(Waiting(guest), Verified(0, Realtime)))
  {
    RevokedWhileOpening(guest, workspace);
    var a := Next(INITIAL, Grant(guest, Some({workspace})));
    var b := Next(a, Open(guest, true, false));
    var c := Next(b, Grant(guest, Some({})));
    var d := Next(c, Revoke(guest, {workspace}));
    var t := Next(Waiting(guest), Verified(0, Realtime));
    var last := [Verified(0, Realtime)] + [];
    RunsThen(Waiting(guest), Verified(0, Realtime), [], t);
    RunsThen(d, RevokeDone(1), last, t);
    RunsThen(c, Revoke(guest, {workspace}), [RevokeDone(1)] + last, t);
    RunsThen(b, Grant(guest, Some({})), [Revoke(guest, {workspace})] + ([RevokeDone(1)] + last), t);
    var rest := [Grant(guest, Some({}))] + ([Revoke(guest, {workspace})] + ([RevokeDone(1)] + last));
    RunsThen(a, Open(guest, true, false), rest, t);
    RunsThen(INITIAL, Grant(guest, Some({workspace})), [Open(guest, true, false)] + rest, t);
  }

  /** Hence a realtime open in flight outlives the revocation of the guest's only workspace. */
  lemma RealtimeOutlivesRevocation(guest: string, workspace: string)
    ensures exists s: State ::
              && Follows(INITIAL, Outliving(guest, workspace), s) && s.revocations == map[]
              && Withdrawn(s, guest, {workspace}, false) && Affected(s, guest, {workspace}) != {}
  {
    var s := Next(Waiting(guest), Verified(0, Realtime));
    OutlivingRuns(guest, workspace);
    assert s.active == map[0 := Active(guest, None, false)];
    assert 0 in Affected(s, guest, {workspace});
  }

  // ---------- the admission count ----------

  /** Aborted attempts that close the socket they registered. */
  function Doubly(s: State): (ids: set<Id>)
    ensures forall id :: id in ids <==> id in s.attempts && s.attempts[id].phase.Aborting? && id in s.active
  {
    set id | id in s.attempts && s.attempts[id].phase.Aborting? && id in s.active
  }

  lemma BothAreDoubly(s: State)
    requires Inv(s)
    ensures InFlight(s) * s.active.Keys == Doubly(s)
  {
    forall id | id in InFlight(s) * s.active.Keys ensures id in Doubly(s) {
      assert AttemptOk(s, id);
    }
  }

  lemma SumOfSizes(a: set<Id>, b: set<Id>)
    ensures |a| + |b| == |a + b| + |a * b|
  {
    assert a + b == a + (b - a) && b == (b - a) + a * b;
  }

  /**
   * The count that admission compares is the number of distinct sockets plus that of the aborted attempts that close
   * the socket they registered, which are counted twice.  So it never exceeds twice the capacity, and without such
   * attempts not even the capacity.
   */
  lemma CountIsExact(s: State)
    requires Reachable(s)
    ensures |s.active| + s.opening == |Present(s)| + |Doubly(s)| <= 2 * CAPACITY
    ensures |s.active| + s.opening > CAPACITY <==> |Present(s)| + |Doubly(s)| > CAPACITY
    ensures Doubly(s) == {} ==> |s.active| + s.opening <= CAPACITY
  {
    ReachableInv(s);
    BothAreDoubly(s);
    SumOfSizes(InFlight(s), s.active.Keys);
    Smaller(Doubly(s), Present(s));
    assert |s.active| == |s.active.Keys|;
  }

  /** An open is admitted exactly while these leave room. */
  lemma AdmitsExactly(s: State, aborted: bool)
    requires Reachable(s)
    ensures Admits(s, aborted) <==> !aborted && !s.stopping && |Present(s)| + |Doubly(s)| < CAPACITY
  {
    CountIsExact(s);
  }

  /** `n` aborted attempts of one guest, of which the first `k` were registered and close their sockets. */
  function Doubled(guest: string, n: nat, k: nat): State {
    State(Attempts(guest, n, k), Sockets(guest, k), n, false, n, multiset(Below(k)), map[], map[], map[guest := {}])
  }

  function Attempts(guest: string, n: nat, k: nat): (attempts: map<Id, Attempt>)
    ensures forall id :: id in attempts <==> 0 <= id < n
    ensures forall id :: id in attempts ==> attempts[id] == Attempt(guest, true, if id < k then Aborting else Verifying)
  {
    if n == 0 then map[]
    else Attempts(guest, n - 1, k)[n - 1 := Attempt(guest, true, if n - 1 < k then Aborting else Verifying)]
  }

  function Sockets(guest: string, k: nat): (sockets: map<Id, Active>)
    ensures forall id :: id in sockets <==> 0 <= id < k
  {
    if k == 0 then map[] else Sockets(guest, k - 1)[k - 1 := Active(guest, None, true)]
  }

  function Below(n: nat): (ids: set<Id>)
    ensures |ids| == n && forall id :: id in ids <==> 0 <= id < n
  {
    if n == 0 then {} else Below(n - 1) + {n - 1}
  }

  lemma FollowsThen(s: State, steps: seq<Step>, t: State, step: Step)
    requires Follows(s, steps, t) && Enabled(t, step)
    ensures Follows(s, steps + [step], Next(t, step))
    decreases |steps|
  {
    if steps == [] {
      assert [step][1..] == [];
    } else {
      assert (steps + [step])[1..] == steps[1..] + [step];
      FollowsThen(Next(s, steps[0]), steps[1..], t, step);
    }
  }

  lemma ReachableThen(s: State, step: Step)
    requires Reachable(s) && Enabled(s, step)
    ensures Reachable(Next(s, step))
  {
    var steps :| Follows(INITIAL, steps, s);
    FollowsThen(INITIAL, steps, s, step);
  }

  lemma NoneIsReachable(guest: string)
    ensures Reachable(Doubled(guest, 0, 0))
  {
    assert Follows(INITIAL, [], INITIAL);
    ReachableThen(INITIAL, Grant(guest, Some({})));
    assert Next(INITIAL, Grant(guest, Some({}))) == Doubled(guest, 0, 0);
  }

  lemma OneMoreAttempt(guest: string, n: nat)
    ensures Attempts(guest, n, 0)[n := Attempt(guest, true, Verifying)] == Attempts(guest, n + 1, 0)
    ensures n !in Attempts(guest, n, 0) && Sockets(guest, 0) == map[]
  {
    assert Below(n + 1) == Below(n) + {n};
  }

  /** One more attempt, aborted at once. */
  function Aborted(s: State, guest: string): State {
    s.(attempts := s.attempts[s.serial := Attempt(guest, true, Verifying)], opening := s.opening + 1,
       serial := s.serial + 1)
  }

  lemma AbortedAtOnce(s: State, guest: string)
    requires Admits(s, false) && guest in s.grants && s.serial !in s.active
    ensures var t := Next(s, Open(guest, true, false));
            Enabled(t, Abort(s.serial)) && Next(t, Abort(s.serial)) == Aborted(s, guest)
  {
    var t := Next(s, Open(guest, true, false));
    assert Unclosed(Flagged(t, s.serial), {s.serial}) == {};
    assert CloseAll(Flagged(t, s.serial), {s.serial}).active == s.active;
  }

  lemma AbortedIsReachable(s: State, guest: string)
    requires Reachable(s) && Admits(s, false) && guest in s.grants && s.serial !in s.active
    ensures Reachable(Aborted(s, guest))
  {
    AbortedAtOnce(s, guest);
    ReachableThen(s, Open(guest, true, false));
    ReachableThen(Next(s, Open(guest, true, false)), Abort(s.serial));
  }

  lemma OneMoreAborted(guest: string, n: nat)
    requires n < CAPACITY
    ensures Admits(Doubled(guest, n, 0), false) && n !in Doubled(guest, n, 0).active
    ensures Aborted(Doubled(guest, n, 0), guest) == Doubled(guest, n + 1, 0)
  {
    OneMoreAttempt(guest, n);
  }

  lemma NextAborted(guest: string, n: nat, m: nat)
    requires m == n + 1 <= CAPACITY && Reachable(Doubled(guest, n, 0))
    ensures Reachable(Doubled(guest, m, 0))
  {
    OneMoreAborted(guest, n);
    AbortedIsReachable(Doubled(guest, n, 0), guest);
  }

  lemma {:induction false} AbortedAreReachable(guest: string, n: nat)
    requires n <= CAPACITY
    ensures Reachable(Doubled(guest, n, 0))
  {
    if n == 0 {
      NoneIsReachable(guest);
    } else {
      AbortedAreReachable(guest, n - 1);
      NextAborted(guest, n - 1, n);
    }
  }

  lemma OneMoreRegistered(guest: string, n: nat, k: nat)
    requires k < n
    ensures Attempts(guest, n, k)[k := Attempt(guest, true, Aborting)] == Attempts(guest, n, k + 1)
  {
  }

  lemma OneMoreClosed(k: nat)
    ensures multiset(Below(k)) + multiset{k} == multiset(Below(k + 1))
  {
    assert Below(k + 1) == Below(k) + {k};
  }

  /** An aborted attempt is registered and closes its socket. */
  function Closing(s: State, id: Id, guest: string): State {
    s.(attempts := s.attempts[id := Attempt(guest, true, Aborting)],
       active := s.active[id := Active(guest, None, true)], closes := s.closes + multiset{id})
  }

  lemma RegisteredAborted(s: State, id: Id, guest: string)
    requires id in s.attempts && s.attempts[id] == Attempt(guest, true, Verifying) && id !in s.active
    requires !s.stopping && guest in s.grants
    ensures Next(s, Verified(id, Realtime)) == Closing(s, id, guest)
  {
    var t := s.(active := s.active[id := Active(guest, None, false)]);
    assert Unclosed(t, {id}) == {id};
    assert CloseAll(t, {id}).active == s.active[id := Active(guest, None, true)];
  }

  lemma ClosingIsReachable(s: State, id: Id, guest: string)
    requires Reachable(s) && id in s.attempts && s.attempts[id] == Attempt(guest, true, Verifying) && id !in s.active
    requires !s.stopping && guest in s.grants
    ensures Reachable(Closing(s, id, guest))
  {
    RegisteredAborted(s, id, guest);
    ReachableThen(s, Verified(id, Realtime));
  }

  lemma OneMoreClosing(guest: string, n: nat, k: nat)
    requires k < n
    ensures k !in Doubled(guest, n, k).active && Closing(Doubled(guest, n, k), k, guest) == Doubled(guest, n, k + 1)
  {
    OneMoreRegistered(guest, n, k);
    OneMoreClosed(k);
  }

  lemma NextClosing(guest: string, n: nat, k: nat, j: nat)
    requires j == k + 1 <= n && Reachable(Doubled(guest, n, k))
    ensures Reachable(Doubled(guest, n, j))
  {
    OneMoreClosing(guest, n, k);
    ClosingIsReachable(Doubled(guest, n, k), k, guest);
  }

  lemma {:induction false} DoubledIsReachable(guest: string, n: nat, k: nat)
    requires k <= n <= CAPACITY
    ensures Reachable(Doubled(guest, n, k))
  {
    if k == 0 {
      AbortedAreReachable(guest, n);
    } else {
      DoubledIsReachable(guest, n, k - 1);
      NextClosing(guest, n, k - 1, k);
    }
  }

  /** Every count up to that bound is reached. */
  lemma CountCanExceedCapacity(guest: string, k: nat)
    requires k <= CAPACITY
    ensures exists s: State :: Reachable(s) && |s.active| + s.opening == CAPACITY + k
  {
    var s := Doubled(guest, CAPACITY, k);
    DoubledIsReachable(guest, CAPACITY, k);
    assert s.active.Keys == Below(k) && |s.active| == |s.active.Keys|;
  }

  // ---------- shutdown ----------

  /** A shutdown that ended without reconfiguration: nothing is active or opening. */
  lemma StoppedIsEmpty(s: State, k: nat)
    requires Reachable(s) && k in s.stops && s.stops[k] == Stopping(Stopped, true)
    ensures s.active == map[] && InFlight(s) == {} && s.stopping
  {
    ReachableInv(s);
    assert StopOk(s, k);
  }

  /** And it stays so until the registry is configured again. */
  lemma {:induction false} StoppedStaysEmpty(s: State, k: nat, steps: seq<Step>, t: State)
    requires Inv(s) && Follows(s, steps, t) && Configure !in steps
    requires k in s.stops && s.stops[k] == Stopping(Stopped, true)
    ensures k in t.stops && t.stops[k] == Stopping(Stopped, true) && t.active == map[] && InFlight(t) == {}
    decreases |steps|
  {
    assert StopOk(s, k);
    if steps != [] {
      StepKeepsInv(s, steps[0]);
      StepStops(s, steps[0], k);
      StoppedStaysEmpty(Next(s, steps[0]), k, steps[1..], t);
    }
  }

  lemma StepStops(s: State, step: Step, k: nat)
    requires Enabled(s, step) && step != Configure && k in s.stops && k < s.serial && s.stops[k].phase.Stopped?
    ensures k in Next(s, step).stops && Next(s, step).stops[k] == s.stops[k]
  {
    if !Recording(step) { StepKeeps(s, step); }
  }

  /** No continuation is left to run. */
  ghost predicate Settles(s: State) {
    && (forall id :: id !in InFlight(s))
    && (forall id :: id in s.active ==> !s.active[id].closing)
  }

  lemma NothingRuns(s: State)
    requires Inv(s)
    requires forall id, request :: !Enabled(s, Verified(id, request))
    requires forall id, ok :: !Enabled(s, TerminalOpened(id, ok))
    requires forall id :: !Enabled(s, RejectClosed(id)) && !Enabled(s, AbortClosed(id)) && !Enabled(s, CloseDone(id))
    ensures Settles(s)
  {
    forall id | id in s.active ensures !s.active[id].closing {
      assert !Enabled(s, CloseDone(id));
    }
    forall id ensures id !in InFlight(s) {
      assert !Enabled(s, Verified(id, Denied)) && !Enabled(s, TerminalOpened(id, true))
             && !Enabled(s, RejectClosed(id)) && !Enabled(s, AbortClosed(id));
      assert id in s.attempts ==> AttemptOk(s, id);
      assert id in s.active ==> ActiveOk(s, id);
    }
  }

  /** Cleanup is never stuck: when no continuation is left to run, every revocation and shutdown can go on. */
  lemma CleanupIsNeverStuck(s: State)
    requires Reachable(s)
    requires forall id, request :: !Enabled(s, Verified(id, request))
    requires forall id, ok :: !Enabled(s, TerminalOpened(id, ok))
    requires forall id :: !Enabled(s, RejectClosed(id)) && !Enabled(s, AbortClosed(id)) && !Enabled(s, CloseDone(id))
    ensures forall k :: k in s.revocations ==> Enabled(s, RevokeDone(k))
    ensures forall k :: k in s.stops ==>
              s.stops[k].phase.Stopped? || Enabled(s, StopClears(k)) || Enabled(s, StopDone(k))
  {
    ReachableInv(s);
    NothingRuns(s);
    SettledIsReady(s);
  }

  lemma SettledIsReady(s: State)
    requires Inv(s) && Settles(s)
    ensures forall k :: k in s.revocations ==> Enabled(s, RevokeDone(k))
    ensures forall k :: k in s.stops ==>
              s.stops[k].phase.Stopped? || Enabled(s, StopClears(k)) || Enabled(s, StopDone(k))
  {
    forall id | id in s.active ensures s.closes[id] == 0 {
      assert ActiveOk(s, id);
    }
    forall k | k in s.revocations ensures Enabled(s, RevokeDone(k)) {
      assert RevocationOk(s, k);
    }
    forall k | k in s.stops ensures s.stops[k].phase.Stopped? || Enabled(s, StopClears(k)) || Enabled(s, StopDone(k)) {
      assert StopOk(s, k);
    }
  }

  // ---------- the registry object ----------

  lemma UnclosedOneMore(s: State, done: set<Id>, id: Id)
    requires id !in done
    ensures Unclosed(CloseAll(s, done), {id}) == Unclosed(s, {id})
    ensures multiset(Unclosed(s, done + {id})) == multiset(Unclosed(s, done)) + multiset(Unclosed(s, {id}))
  {
    assert Unclosed(s, done + {id}) == Unclosed(s, done) + Unclosed(s, {id});
    assert Unclosed(s, done) !! Unclosed(s, {id});
  }

  lemma ActiveOneMore(s: State, done: set<Id>, id: Id)
    ensures CloseAll(CloseAll(s, done), {id}).active == CloseAll(s, done + {id}).active
  {
  }

  lemma CloseOneMore(s: State, done: set<Id>, id: Id)
    requires id !in done
    ensures CloseAll(CloseAll(s, done), {id}) == CloseAll(s, done + {id})
  {
    UnclosedOneMore(s, done, id);
    ActiveOneMore(s, done, id);
  }

  lemma CloseNone(s: State)
    ensures CloseAll(s, {}) == s
  {
    assert Unclosed(s, {}) == {};
  }

  datatype Refusal = Aborted | Disconnected | Capacity

  class WorkspaceClientSockets {
    var attempts: map<Id, Attempt>
    var active: map<Id, Active>
    var opening: int
    var stopping: bool
    var serial: nat
    ghost var closes: multiset<Id>
    var revocations: map<nat, Revocation>
    var stops: map<nat, Stopping>
    var grants: map<string, set<string>>

    ghost function View(): State
      reads this
    {
      State(attempts, active, opening, stopping, serial, closes, revocations, stops, grants)
    }

    constructor ()
      ensures View() == INITIAL
    {
      attempts, active, opening, stopping, serial := map[], map[], 0, false, 0;
      closes, revocations, stops, grants := multiset{}, map[], map[], map[];
    }

    method OnConfigure()
      modifies this
      ensures View() == Next(old(View()), Configure)
    {
      stopping := false;
      stops := map k | k in stops :: stops[k].(current := false);
    }

    /** A refused open leaves the registry as it was. */
    method OnOpen(guest: string, transport: bool, aborted: bool) returns (refusal: Option<Refusal>)
      modifies this
      ensures View() == Next(old(View()), Open(guest, transport, aborted))
      ensures refusal.None? <==> Admits(old(View()), aborted)
      ensures refusal == Some(Capacity) ==> old(|active| + opening) >= CAPACITY
    {
      if aborted {
        return Some(Aborted);
      }
      if stopping {
        return Some(Disconnected);
      }
      if |active| + opening >= CAPACITY {
        return Some(Capacity);
      }
      var id := serial;
      serial := serial + 1;
      opening := opening + 1;
      if guest in grants && transport {
        attempts := attempts[id := Attempt(guest, false, Verifying)];
      } else {
        attempts := attempts[id := Attempt(guest, false, Finished)];
        opening := opening - 1;
      }
      return None;
    }

    method OnVerified(id: Id, request: Request)
      requires Enabled(View(), Verified(id, request))
      modifies this
      ensures View() == Next(old(View()), Verified(id, request))
    {
      match request {
        case Denied => SettleAttempt(id);
        case Realtime => CommitAttempt(id, None);
        case Preview(workspace) => CommitAttempt(id, Some(workspace));
        case Terminal(workspace) => attempts := attempts[id := attempts[id].(phase := Opening(workspace))];
      }
    }

    method OnTerminalOpened(id: Id, ok: bool)
      requires Enabled(View(), TerminalOpened(id, ok))
      modifies this
      ensures View() == Next(old(View()), TerminalOpened(id, ok))
    {
      if ok {
        CommitAttempt(id, Some(attempts[id].phase.workspace));
      } else {
        SettleAttempt(id);
      }
    }

    /** The authority is rechecked and the socket registered without an await in between. */
    method CommitAttempt(id: Id, workspace: Option<string>)
      requires id in attempts
      modifies this
      ensures View() == Commit(old(View()), id, workspace)
    {
      var attempt := attempts[id];
      if stopping || attempt.guest !in grants || (workspace.Some? && workspace.value !in grants[attempt.guest]) {
        closes := closes + multiset{id};
        attempts := attempts[id := attempt.(phase := Rejecting)];
        return;
      }
      active := active[id := Active(attempt.guest, workspace, false)];
      if attempt.aborted {
        CloseSocket(id);
        attempts := attempts[id := attempt.(phase := Aborting)];
      } else {
        SettleAttempt(id);
      }
    }

    method SettleAttempt(id: Id)
      requires id in attempts
      modifies this
      ensures View() == Finish(old(View()), id)
    {
      attempts := attempts[id := attempts[id].(phase := Finished)];
      opening := opening - 1;
    }

    method OnCleanupDone(id: Id)
      requires Enabled(View(), RejectClosed(id)) || Enabled(View(), AbortClosed(id))
      modifies this
      ensures View() == Finish(old(View()), id)
    {
      SettleAttempt(id);
    }

    method OnSettled(id: Id)
      requires Enabled(View(), Settled(id))
      modifies this
      ensures View() == Next(old(View()), Settled(id))
    {
      attempts := attempts - {id};
    }

    method OnAbort(id: Id)
      requires Enabled(View(), Abort(id))
      modifies this
      ensures View() == Next(old(View()), Abort(id))
    {
      if id in attempts {
        attempts := attempts[id := attempts[id].(aborted := true)];
      }
      CloseSocket(id);
    }

    /** The memoized close of a registered socket; a socket that is gone was closed before. */
    method CloseSocket(id: Id)
      modifies this`active, this`closes
      ensures View() == CloseAll(old(View()), {id})
    {
      ghost var s := View();
      if id in active && !active[id].closing {
        assert Unclosed(s, {id}) == {id};
        active := active[id := active[id].(closing := true)];
        closes := closes + multiset{id};
      } else {
        assert Unclosed(s, {id}) == {};
      }
    }

    method OnCloseDone(id: Id)
      requires Enabled(View(), CloseDone(id))
      modifies this
      ensures View() == Next(old(View()), CloseDone(id))
    {
      active := active - {id};
    }

    method CloseSockets(ids: set<Id>)
      modifies this`active, this`closes
      ensures View() == CloseAll(old(View()), ids)
    {
      ghost var s := View();
      ghost var done: set<Id> := {};
      var left := ids;
      CloseNone(s);
      while left != {}
        invariant done !! left && done + left == ids && View() == CloseAll(s, done)
        decreases |left|
      {
        var id :| id in left;
        CloseOneMore(s, done, id);
        CloseSocket(id);
        left, done := left - {id}, done + {id};
      }
      assert done == ids;
    }

    method OnRevoke(guest: string, workspaces: set<string>)
      modifies this
      ensures View() == Next(old(View()), Revoke(guest, workspaces))
    {
      var affected := set id | id in active && active[id].guest == guest
                            && (active[id].workspace.None? || active[id].workspace.value in workspaces);
      CloseSockets(affected);
      revocations := revocations[serial := Revocation(guest, workspaces, affected)];
      serial := serial + 1;
    }

    method OnStop()
      modifies this
      ensures View() == Next(old(View()), Stop)
    {
      stopping := true;
      stops := stops[serial := Stopping(Settling(attempts.Keys), true)];
      serial := serial + 1;
    }

    method OnPendingSettled(k: nat)
      requires Enabled(View(), StopClears(k))
      modifies this
      ensures View() == Next(old(View()), StopClears(k))
    {
      var sockets := active.Keys;
      CloseSockets(sockets);
      stops := stops[k := stops[k].(phase := Clearing(sockets))];
    }
  }
}
