/**
 * Start-up and shutdown of the loopback asset server.  Blocks on the server's serial queue are atomic steps;
 * the network framework may report any listener state at any time and in any order.
 */
module AssetServer {
  import opened Prelude

  const LAST_ATTEMPT: nat := 7

  datatype Failure = TimedOut | AddressUnavailable | AddressInUse | Cancellation | Reported | NotCreated

  datatype Outcome = Returned(port: nat) | Threw(error: Failure)

  datatype Timer = Armed | Disarmed | Fired

  /** Who receives a listener's states. */
  datatype Handler = Main | Stopper(stop: nat) | Silent

  /** `failures` counts the calls of `onFailure`. */
  datatype Listener = Listener(start: nat, attempt: nat, started: bool, finished: bool, retired: bool,
                               timer: Timer, handler: Handler, failures: nat)

  /** One call of `start`, with what its continuation was resumed with. */
  datatype Start = Start(queued: bool, resumed: seq<Outcome>)

  // `stops` counts the resumptions of each call of `stop`.
  datatype State = State(localPort: Option<nat>, requested: bool, listeners: map<nat, Listener>,
                         starts: map<nat, Start>,
                         current: Option<nat>, boundPort: Option<nat>, stops: map<nat, nat>, serial: nat)

  function Initial(localPort: Option<nat>, requested: bool): State {
    State(localPort, requested, map[], map[], None, None, map[], 0)
  }

  /** A listener state; a ready listener has a port, zero for none. */
  datatype Event = Ready(port: nat) | Failed | Waiting | Cancelled | Other

  datatype Step =
    | Call                                             // `start` is called
    | Run(start: nat, created: bool)                   // its block runs; the framework may refuse the listener
    | Report(listener: nat, event: Event, created: bool)
    | Timeout(listener: nat)
    | Stop(cancelled: bool)                            // `cancelled`: the current listener's state

  predicate Enabled(s: State, step: Step) {
    match step
    case Call => true
    case Run(start, _) => start in s.starts && s.starts[start].queued
    case Report(i, _, _) => i in s.listeners && s.listeners[i].start in s.starts
                            && (s.listeners[i].handler.Stopper? ==> s.listeners[i].handler.stop in s.stops)
    case Timeout(i) => i in s.listeners && s.listeners[i].timer.Armed? && s.listeners[i].start in s.starts
    case Stop(_) => s.current.Some? ==> s.current.value in s.listeners
  }

  // ---------- one step ----------

  function Resume(s: State, start: nat, outcome: Outcome): State
    requires start in s.starts
  {
    s.(starts := s.starts[start := s.starts[start].(resumed := s.starts[start].resumed + [outcome])])
  }

  function With(s: State, i: nat, l: Listener): State {
    s.(listeners := s.listeners[i := l])
  }

  function Listen(s: State, start: nat, attempt: nat, created: bool): State
    requires start in s.starts
  {
    if created then
      s.(listeners := s.listeners[s.serial := Listener(start, attempt, false, false, false, Armed, Main, 0)],
         current := Some(s.serial), serial := s.serial + 1)
    else Resume(s, start, Threw(NotCreated))
  }

  function OnReady(s: State, i: nat, port: nat, created: bool): State
    requires i in s.listeners && s.listeners[i].start in s.starts
  {
    var l := s.listeners[i].(timer := Disarmed);
    if port == 0 then Resume(With(s, i, l.(finished := true)), l.start, Threw(AddressUnavailable))
    else if s.localPort == Some(port) then
      var t := With(s, i, l.(retired := true)).(current := None);
      if !s.requested && l.attempt < LAST_ATTEMPT then Listen(t, l.start, l.attempt + 1, created)
      else Resume(t, l.start, Threw(AddressInUse))
    else Resume(With(s, i, l.(started := true, finished := true)).(boundPort := Some(port)), l.start, Returned(port))
  }

  function OnMain(s: State, i: nat, event: Event, created: bool): State
    requires i in s.listeners && s.listeners[i].start in s.starts
  {
    var l := s.listeners[i];
    if l.retired then s
    else match event
      case Ready(port) => if l.finished then s else OnReady(s, i, port, created)
      case Failed | Waiting =>
        var gone := l.(timer := Disarmed, retired := true);
        if !l.finished then Resume(With(s, i, gone.(finished := true)), l.start, Threw(Reported))
        else With(s, i, if l.started then gone.(failures := l.failures + 1) else gone)
      case Cancelled =>
        if !l.finished then Resume(With(s, i, l.(timer := Disarmed, finished := true)), l.start, Threw(Cancellation))
        else if l.started then With(s, i, l.(retired := true, failures := l.failures + 1))
        else s
      case Other => s
  }

  function OnStopper(s: State, i: nat, event: Event): State
    requires i in s.listeners && s.listeners[i].handler.Stopper? && s.listeners[i].handler.stop in s.stops
  {
    var l := s.listeners[i];
    if event.Cancelled?
      then With(s, i, l.(handler := Silent)).(stops := s.stops[l.handler.stop := s.stops[l.handler.stop] + 1]) else s
  }

  function OnStop(s: State, cancelled: bool): State
    requires s.current.Some? ==> s.current.value in s.listeners
  {
    var t := s.(current := None, boundPort := None, serial := s.serial + 1);
    if s.current.None? then t.(stops := s.stops[s.serial := 1])
    else
      var i := s.current.value;
      if cancelled then With(t, i, s.listeners[i].(handler := Silent)).(stops := s.stops[s.serial := 1])
      else With(t, i, s.listeners[i].(handler := Stopper(s.serial))).(stops := s.stops[s.serial := 0])
  }

  function Next(s: State, step: Step): State
    requires Enabled(s, step)
  {
    match step
    case Call => s.(starts := s.starts[s.serial := Start(true, [])], serial := s.serial + 1)
    case Run(start, created) =>
        Listen(s.(starts := s.starts[start := s.starts[start].(queued := false)]), start, 0, created)
    case Report(i, event, created) =>
      (match s.listeners[i].handler
       case Main => OnMain(s, i, event, created)
       case Stopper(_) => OnStopper(s, i, event)
       case Silent => s)
    case Timeout(i) =>
      var l := s.listeners[i].(timer := Fired);
      if l.finished then With(s, i, l)
      else Resume(With(s, i, l.(finished := true, retired := true)), l.start, Threw(TimedOut))
    case Stop(cancelled) => OnStop(s, cancelled)
  }

  // ---------- the invariant ----------

  predicate Pending(s: State, i: nat) {
    i in s.listeners && s.listeners[i].timer.Armed?
  }

  ghost predicate ListenerOk(s: State, i: nat)
    requires i in s.listeners
  {
    var l := s.listeners[i];
    && i < s.serial && l.start in s.starts && !s.starts[l.start].queued
    && l.attempt <= LAST_ATTEMPT && (s.requested ==> l.attempt == 0)
    && (l.timer.Armed? <==> !l.finished && !l.retired)
    && (l.timer.Armed? ==> s.starts[l.start].resumed == [])
    && (l.started ==> l.finished && s.starts[l.start].resumed != [] && s.starts[l.start].resumed[0].Returned?)
    && l.failures <= 1 && (l.failures == 1 ==> l.started && l.retired)
  }

  /** Listeners of one call differ in their attempt, and the one whose timer runs is the latest. */
  ghost predicate Ranked(s: State, i: nat, j: nat)
    requires i in s.listeners && j in s.listeners
  {
    i != j && s.listeners[i].start == s.listeners[j].start ==>
      s.listeners[i].attempt != s.listeners[j].attempt
        && (s.listeners[i].timer.Armed? ==> s.listeners[j].attempt < s.listeners[i].attempt)
  }

  ghost predicate StartOk(s: State, k: nat)
    requires k in s.starts
  {
    && k < s.serial && |s.starts[k].resumed| <= 1
    && (s.starts[k].queued ==> s.starts[k].resumed == [])
    && (s.starts[k].resumed != [] && s.starts[k].resumed[0].Returned? ==>
          s.starts[k].resumed[0].port != 0 && s.localPort != Some(s.starts[k].resumed[0].port))
  }

  /** A call that is not resumed yet is queued or has a listener whose timer runs. */
  ghost predicate Alive(s: State, k: nat)
    requires k in s.starts
  {
    s.starts[k].queued || s.starts[k].resumed != [] || exists i :: Pending(s, i) && s.listeners[i].start == k
  }

  ghost predicate StopOk(s: State, k: nat)
    requires k in s.stops
  {
    && k < s.serial && s.stops[k] <= 1
    && (s.stops[k] == 0 ==> exists i :: i in s.listeners && s.listeners[i].handler == Stopper(k))
  }

  ghost predicate HandlerOk(s: State, i: nat)
    requires i in s.listeners
  {
    && (s.listeners[i].handler.Stopper? ==>
         s.listeners[i].handler.stop in s.stops && s.stops[s.listeners[i].handler.stop] == 0)
    && (s.current == Some(i) ==> s.listeners[i].handler.Main?)
  }

  ghost predicate Apart(s: State, i: nat, j: nat)
    requires i in s.listeners && j in s.listeners
  {
    i != j && s.listeners[i].handler.Stopper? ==> s.listeners[i].handler != s.listeners[j].handler
  }

  ghost predicate StartsInv(s: State) {
    && (forall i {:trigger ListenerOk(s, i)} :: i in s.listeners ==> ListenerOk(s, i))
    && (forall i, j {:trigger Ranked(s, i, j)} :: i in s.listeners && j in s.listeners ==> Ranked(s, i, j))
    && (forall k {:trigger StartOk(s, k)} :: k in s.starts ==> StartOk(s, k))
  }

  ghost predicate StopsInv(s: State) {
    && (s.current.Some? ==> s.current.value in s.listeners)
    && (forall k {:trigger StopOk(s, k)} :: k in s.stops ==> StopOk(s, k))
    && (forall i {:trigger HandlerOk(s, i)} :: i in s.listeners ==> HandlerOk(s, i))
    && (forall i, j {:trigger Apart(s, i, j)} :: i in s.listeners && j in s.listeners ==> Apart(s, i, j))
  }

  ghost predicate Inv(s: State) {
    && StartsInv(s) && StopsInv(s)
    && (forall k {:trigger Alive(s, k)} :: k in s.starts ==> Alive(s, k))
  }

  // ---------- one listener changes ----------

  /** Listener `i` becomes `l`, and its call may be resumed. */
  function Update(s: State, i: nat, l: Listener, outcome: Option<Outcome>): State
    requires i in s.listeners && s.listeners[i].start in s.starts
  {
    if outcome.Some? then Resume(With(s, i, l), s.listeners[i].start, outcome.value) else With(s, i, l)
  }

  /** The changes the handlers make: a running timer may stop, and a call is resumed only while it ran. */
  predicate Legal(s: State, i: nat, l: Listener, outcome: Option<Outcome>)
    requires i in s.listeners
  {
    var was := s.listeners[i];
    && l.start == was.start && l.attempt == was.attempt && l.handler == was.handler
    && (l.timer.Armed? ==> was.timer.Armed? && outcome.None?)
    && (l.timer.Armed? <==> !l.finished && !l.retired)
    && (outcome.Some? ==> was.timer.Armed?)
    && (outcome.Some? && outcome.value.Returned? ==> outcome.value.port != 0 && s.localPort != Some(outcome.value.port))
    && (l.started ==> l.finished && (was.started || (outcome.Some? && outcome.value.Returned?)))
    && (was.started ==> l.started)
    && l.failures <= 1 && (l.failures == 1 ==> l.started && l.retired)
  }

  lemma UpdateStarts(s: State, i: nat, l: Listener, outcome: Option<Outcome>)
    requires StartsInv(s) && i in s.listeners && ListenerOk(s, i) && Legal(s, i, l, outcome)
    ensures StartsInv(Update(s, i, l, outcome))
  {
    var t := Update(s, i, l, outcome);
    forall j | j in t.listeners ensures ListenerOk(t, j) {
      assert ListenerOk(s, j) && Ranked(s, i, j) && Ranked(s, j, i);
    }
    forall j, m | j in t.listeners && m in t.listeners ensures Ranked(t, j, m) {
      assert Ranked(s, j, m);
    }
    forall k | k in t.starts ensures StartOk(t, k) {
      assert StartOk(s, k);
    }
  }

  /** Stops depend only on the handlers, the current listener and their own records. */
  lemma SameStops(s: State, t: State)
    requires StopsInv(s) && s.serial <= t.serial && t.stops == s.stops && t.listeners.Keys == s.listeners.Keys
    requires t.current == s.current || t.current.None?
    requires forall i :: i in s.listeners ==> t.listeners[i].handler == s.listeners[i].handler
    ensures StopsInv(t)
  {
    forall k | k in t.stops ensures StopOk(t, k) {
      assert StopOk(s, k);
    }
    forall i | i in t.listeners ensures HandlerOk(t, i) {
      assert HandlerOk(s, i);
    }
    forall i, j | i in t.listeners && j in t.listeners ensures Apart(t, i, j) {
      assert Apart(s, i, j);
    }
  }

  lemma UpdateAlive(s: State, i: nat, l: Listener, outcome: Option<Outcome>, k: nat)
    requires i in s.listeners && s.listeners[i].start in s.starts && Legal(s, i, l, outcome)
    requires s.listeners[i].timer.Armed? ==> l.timer.Armed? || outcome.Some?
    requires k in s.starts && Alive(s, k)
    ensures Alive(Update(s, i, l, outcome), k)
  {
    var t := Update(s, i, l, outcome);
    if !s.starts[k].queued && s.starts[k].resumed == [] {
      var j :| Pending(s, j) && s.listeners[j].start == k;
      assert outcome.None? || k != s.listeners[i].start ==> Pending(t, j) && t.listeners[j].start == k;
    }
  }

  lemma UpdateKeepsInv(s: State, i: nat, l: Listener, outcome: Option<Outcome>)
    requires Inv(s) && i in s.listeners && ListenerOk(s, i) && Legal(s, i, l, outcome)
    requires s.listeners[i].timer.Armed? ==> l.timer.Armed? || outcome.Some?
    ensures Inv(Update(s, i, l, outcome))
  {
    var t := Update(s, i, l, outcome);
    UpdateStarts(s, i, l, outcome);
    SameStops(s, t);
    forall k | k in t.starts ensures Alive(t, k) {
      UpdateAlive(s, i, l, outcome, k);
    }
  }

  lemma PlacesKeepInv(s: State, current: Option<nat>, port: Option<nat>)
    requires Inv(s) && (current == s.current || current.None?)
    ensures Inv(s.(current := current, boundPort := port))
  {
    var t := s.(current := current, boundPort := port);
    SameStops(s, t);
    SameStarts(s, t);
  }

  lemma SameStarts(s: State, t: State)
    requires StartsInv(s) && (forall k :: k in s.starts ==> Alive(s, k))
    requires t.starts == s.starts && t.listeners.Keys == s.listeners.Keys && s.serial <= t.serial
             && t.localPort == s.localPort && t.requested == s.requested
    requires forall i :: i in s.listeners ==> t.listeners[i] == s.listeners[i].(handler := t.listeners[i].handler)
    ensures StartsInv(t) && (forall k :: k in t.starts ==> Alive(t, k))
  {
    forall i | i in t.listeners ensures ListenerOk(t, i) {
      assert ListenerOk(s, i);
    }
    forall i, j | i in t.listeners && j in t.listeners ensures Ranked(t, i, j) {
      assert Ranked(s, i, j);
    }
    forall k | k in t.starts ensures StartOk(t, k) && Alive(t, k) {
      assert StartOk(s, k) && Alive(s, k);
      assert forall i :: Pending(s, i) <==> Pending(t, i);
    }
  }

  // ---------- a listener is created ----------

  /** Every call but `k` is alive, and all listeners of `k` are behind `attempt` with their timers stopped. */
  ghost predicate Vacant(s: State, k: nat, attempt: nat) {
    && StartsInv(s) && StopsInv(s) && k in s.starts && !s.starts[k].queued && s.starts[k].resumed == []
    && (forall i :: i in s.starts && i != k ==> Alive(s, i))
    && (forall i :: i in s.listeners && s.listeners[i].start == k ==>
         s.listeners[i].attempt < attempt && !s.listeners[i].timer.Armed?)
  }

  predicate Allowed(s: State, attempt: nat) {
    attempt <= LAST_ATTEMPT && (s.requested ==> attempt == 0)
  }

  lemma ListenStarts(s: State, k: nat, attempt: nat)
    requires Vacant(s, k, attempt) && Allowed(s, attempt) && s.serial !in s.listeners
    ensures StartsInv(Listen(s, k, attempt, true))
  {
    var t := Listen(s, k, attempt, true);
    forall i | i in t.listeners ensures ListenerOk(t, i) {
      assert i in s.listeners ==> ListenerOk(s, i);
    }
    forall i, j | i in t.listeners && j in t.listeners ensures Ranked(t, i, j) {
      assert i in s.listeners && j in s.listeners ==> Ranked(s, i, j);
    }
    forall i | i in t.starts ensures StartOk(t, i) {
      assert StartOk(s, i);
    }
  }

  lemma ListenStops(s: State, k: nat, attempt: nat)
    requires StopsInv(s) && s.serial !in s.listeners && k in s.starts
    ensures StopsInv(Listen(s, k, attempt, true))
  {
    var t := Listen(s, k, attempt, true);
    forall i | i in t.stops ensures StopOk(t, i) {
      assert StopOk(s, i);
      assert forall j :: j in s.listeners ==> j in t.listeners && t.listeners[j] == s.listeners[j];
    }
    forall i | i in t.listeners ensures HandlerOk(t, i) {
      assert i in s.listeners ==> HandlerOk(s, i);
    }
    forall i, j | i in t.listeners && j in t.listeners ensures Apart(t, i, j) {
      assert i in s.listeners && j in s.listeners ==> Apart(s, i, j);
    }
  }

  lemma ListenAlive(s: State, k: nat, attempt: nat, i: nat)
    requires Vacant(s, k, attempt) && s.serial !in s.listeners && i in s.starts
    ensures Alive(Listen(s, k, attempt, true), i)
  {
    var t := Listen(s, k, attempt, true);
    if i == k {
      assert Pending(t, s.serial) && t.listeners[s.serial].start == k;
    } else if !s.starts[i].queued && s.starts[i].resumed == [] {
      assert Alive(s, i);
      var j :| Pending(s, j) && s.listeners[j].start == i;
      assert Pending(t, j) && t.listeners[j].start == i;
    }
  }

  lemma ListenKeepsInv(s: State, k: nat, attempt: nat, created: bool)
    requires Vacant(s, k, attempt) && Allowed(s, attempt)
    ensures Inv(Listen(s, k, attempt, created))
  {
    assert s.serial in s.listeners ==> ListenerOk(s, s.serial);
    if created {
      ListenStarts(s, k, attempt);
      ListenStops(s, k, attempt);
      forall i | i in s.starts ensures Alive(Listen(s, k, attempt, true), i) {
        ListenAlive(s, k, attempt, i);
      }
    } else {
      ResumeKeepsInv(s, k, attempt, Threw(NotCreated));
    }
  }

  lemma ResumeKeepsInv(s: State, k: nat, attempt: nat, outcome: Outcome)
    requires Vacant(s, k, attempt) && outcome.Threw?
    ensures Inv(Resume(s, k, outcome))
  {
    var t := Resume(s, k, outcome);
    SameStops(s, t);
    forall i | i in t.listeners ensures ListenerOk(t, i) {
      assert ListenerOk(s, i);
    }
    forall i, j | i in t.listeners && j in t.listeners ensures Ranked(t, i, j) {
      assert Ranked(s, i, j);
    }
    forall i | i in t.starts ensures StartOk(t, i) && Alive(t, i) {
      assert StartOk(s, i);
      ResumeAlive(s, k, attempt, outcome, i);
    }
  }

  lemma ResumeAlive(s: State, k: nat, attempt: nat, outcome: Outcome, i: nat)
    requires Vacant(s, k, attempt) && i in s.starts
    ensures Alive(Resume(s, k, outcome), i)
  {
    var t := Resume(s, k, outcome);
    if i != k && !s.starts[i].queued && s.starts[i].resumed == [] {
      assert Alive(s, i);
      var j :| Pending(s, j) && s.listeners[j].start == i;
      assert Pending(t, j);
    }
  }

  // ---------- every step ----------

  /** The listener came up on the port reserved for the local controller. */
  function Conflict(s: State, i: nat): State
    requires i in s.listeners
  {
    With(s, i, s.listeners[i].(timer := Disarmed, retired := true)).(current := None)
  }

  lemma ConflictIsVacant(s: State, i: nat)
    requires Inv(s) && i in s.listeners && ListenerOk(s, i) && s.listeners[i].timer.Armed?
    ensures Vacant(Conflict(s, i), s.listeners[i].start, s.listeners[i].attempt + 1)
  {
    var l := s.listeners[i].(timer := Disarmed, retired := true);
    var u := Update(s, i, l, None);
    var t := Conflict(s, i);
    UpdateStarts(s, i, l, None);
    SameStops(s, u);
    SameStops(u, t);
    StartsInvIgnoresPlaces(u, t);
    forall j | j in t.listeners && t.listeners[j].start == l.start
      ensures t.listeners[j].attempt < l.attempt + 1 && !t.listeners[j].timer.Armed? {
      assert Ranked(s, i, j) && Ranked(s, j, i);
    }
    forall k | k in t.starts && k != l.start ensures Alive(t, k) {
      ConflictAlive(s, i, k);
    }
  }

  lemma StartsInvIgnoresPlaces(s: State, t: State)
    requires StartsInv(s) && t == s.(current := t.current)
    ensures StartsInv(t)
  {
    forall i | i in t.listeners ensures ListenerOk(t, i) {
      assert ListenerOk(s, i);
    }
    forall i, j | i in t.listeners && j in t.listeners ensures Ranked(t, i, j) {
      assert Ranked(s, i, j);
    }
    forall k | k in t.starts ensures StartOk(t, k) {
      assert StartOk(s, k);
    }
  }

  lemma ConflictAlive(s: State, i: nat, k: nat)
    requires i in s.listeners && k in s.starts && k != s.listeners[i].start && Alive(s, k)
    ensures Alive(Conflict(s, i), k)
  {
    if !s.starts[k].queued && s.starts[k].resumed == [] {
      var j :| Pending(s, j) && s.listeners[j].start == k;
      assert Pending(Conflict(s, i), j);
    }
  }

  lemma UpKeepsInv(s: State, i: nat, port: nat)
    requires Inv(s) && i in s.listeners && ListenerOk(s, i) && s.listeners[i].timer.Armed?
    requires port != 0 && s.localPort != Some(port)
    ensures Inv(Update(s, i, s.listeners[i].(timer := Disarmed, started := true, finished := true),
              Some(Returned(port))).(boundPort := Some(port)))
  {
    var up := s.listeners[i].(timer := Disarmed, started := true, finished := true);
    var t := Update(s, i, up, Some(Returned(port)));
    UpdateKeepsInv(s, i, up, Some(Returned(port)));
    PlacesKeepInv(t, t.current, Some(port));
  }

  /** The four outcomes of a listener that came up. */
  lemma ReadyIs(s: State, i: nat, port: nat, created: bool)
    requires i in s.listeners && s.listeners[i].start in s.starts
    ensures var l, t := s.listeners[i].(timer := Disarmed), OnReady(s, i, port, created);
            && (port == 0 ==> t == Update(s, i, l.(finished := true), Some(Threw(AddressUnavailable))))
            && (port != 0 && s.localPort == Some(port) && !s.requested && l.attempt < LAST_ATTEMPT ==>
                  t == Listen(Conflict(s, i), l.start, l.attempt + 1, created))
            && (port != 0 && s.localPort == Some(port) && (s.requested || l.attempt >= LAST_ATTEMPT) ==>
                  t == Resume(Conflict(s, i), l.start, Threw(AddressInUse)))
            && (port != 0 && s.localPort != Some(port) ==>
                  t == Update(s, i, l.(started := true, finished := true),
                      Some(Returned(port))).(boundPort := Some(port)))
  {
  }

  lemma ReadyKeepsInv(s: State, i: nat, port: nat, created: bool)
    requires Inv(s) && i in s.listeners && ListenerOk(s, i) && s.listeners[i].timer.Armed?
    ensures Inv(OnReady(s, i, port, created))
  {
    ReadyIs(s, i, port, created);
    var l := s.listeners[i];
    if port == 0 {
      UpdateKeepsInv(s, i, l.(timer := Disarmed, finished := true), Some(Threw(AddressUnavailable)));
    } else if s.localPort == Some(port) {
      ConflictIsVacant(s, i);
      if !s.requested && l.attempt < LAST_ATTEMPT {
        ListenKeepsInv(Conflict(s, i), l.start, l.attempt + 1, created);
      } else {
        ResumeKeepsInv(Conflict(s, i), l.start, l.attempt + 1, Threw(AddressInUse));
      }
    } else {
      UpKeepsInv(s, i, port);
    }
  }

  lemma MainKeepsInv(s: State, i: nat, event: Event, created: bool)
    requires Inv(s) && i in s.listeners && s.listeners[i].start in s.starts
    ensures Inv(OnMain(s, i, event, created))
  {
    var l := s.listeners[i];
    assert ListenerOk(s, i);
    if !l.retired {
      match event
      case Ready(port) => if !l.finished { ReadyKeepsInv(s, i, port, created); }
      case Cancelled =>
        if !l.finished {
          UpdateKeepsInv(s, i, l.(timer := Disarmed, finished := true), Some(Threw(Cancellation)));
        } else if l.started {
          UpdateKeepsInv(s, i, l.(retired := true, failures := l.failures + 1), None);
        }
      case Other =>
      case _ =>
        var gone := l.(timer := Disarmed, retired := true);
        if !l.finished {
          UpdateKeepsInv(s, i, gone.(finished := true), Some(Threw(Reported)));
        } else {
          UpdateKeepsInv(s, i, if l.started then gone.(failures := l.failures + 1) else gone, None);
        }
    }
  }

  lemma TimeoutKeepsInv(s: State, i: nat)
    requires Inv(s) && Enabled(s, Timeout(i))
    ensures Inv(Next(s, Timeout(i)))
  {
    assert ListenerOk(s, i);
    UpdateKeepsInv(s, i, s.listeners[i].(timer := Fired, finished := true, retired := true), Some(Threw(TimedOut)));
  }

  lemma CallKeepsInv(s: State)
    requires Inv(s)
    ensures Inv(Next(s, Call))
  {
    var t := Next(s, Call);
    assert s.serial in s.starts ==> StartOk(s, s.serial);
    SameStops(s, t);
    forall i | i in t.listeners ensures ListenerOk(t, i) {
      assert ListenerOk(s, i);
    }
    forall i, j | i in t.listeners && j in t.listeners ensures Ranked(t, i, j) {
      assert Ranked(s, i, j);
    }
    forall k | k in t.starts ensures StartOk(t, k) && Alive(t, k) {
      assert k in s.starts ==> StartOk(s, k) && Alive(s, k);
      assert forall i :: Pending(s, i) <==> Pending(t, i);
    }
  }

  lemma RunIsVacant(s: State, k: nat)
    requires Inv(s) && k in s.starts && s.starts[k].queued
    ensures Vacant(s.(starts := s.starts[k := s.starts[k].(queued := false)]), k, 0)
  {
    var t := s.(starts := s.starts[k := s.starts[k].(queued := false)]);
    assert StartOk(s, k);
    SameStops(s, t);
    forall i | i in t.listeners ensures ListenerOk(t, i) && t.listeners[i].start != k {
      assert ListenerOk(s, i);
    }
    forall i, j | i in t.listeners && j in t.listeners ensures Ranked(t, i, j) {
      assert Ranked(s, i, j);
    }
    forall i | i in t.starts ensures StartOk(t, i) && (i != k ==> Alive(t, i)) {
      assert StartOk(s, i) && Alive(s, i);
      assert forall j :: Pending(s, j) <==> Pending(t, j);
    }
  }

  lemma StopperKeepsInv(s: State, i: nat, event: Event)
    requires Inv(s) && i in s.listeners && s.listeners[i].handler.Stopper? && s.listeners[i].handler.stop in s.stops
    ensures Inv(OnStopper(s, i, event))
  {
    if event.Cancelled? {
      var t := OnStopper(s, i, event);
      StopperStops(s, i, event);
      SameStarts(s, t);
    }
  }

  lemma StopperStops(s: State, i: nat, event: Event)
    requires StopsInv(s) && i in s.listeners && s.listeners[i].handler.Stopper?
             && s.listeners[i].handler.stop in s.stops && event.Cancelled?
    ensures StopsInv(OnStopper(s, i, event))
  {
    var t := OnStopper(s, i, event);
    assert HandlerOk(s, i);
    forall k | k in t.stops ensures StopOk(t, k) {
      assert StopOk(s, k);
      if t.stops[k] == 0 {
        var j :| j in s.listeners && s.listeners[j].handler == Stopper(k);
        assert t.listeners[j].handler == Stopper(k);
      }
    }
    forall j | j in t.listeners ensures HandlerOk(t, j) {
      assert HandlerOk(s, j) && Apart(s, j, i);
    }
    forall j, m | j in t.listeners && m in t.listeners ensures Apart(t, j, m) {
      assert Apart(s, j, m);
    }
  }

  lemma StopStops(s: State, cancelled: bool)
    requires StopsInv(s)
    ensures StopsInv(OnStop(s, cancelled))
  {
    var t := OnStop(s, cancelled);
    assert s.serial in s.stops ==> StopOk(s, s.serial);
    forall k | k in t.stops ensures StopOk(t, k) {
      assert k in s.stops ==> StopOk(s, k);
      StoppersStay(s, cancelled, k);
    }
    forall i | i in t.listeners ensures HandlerOk(t, i) {
      assert HandlerOk(s, i);
    }
    forall i, j | i in t.listeners && j in t.listeners ensures Apart(t, i, j) {
      assert Apart(s, i, j) && HandlerOk(s, i) && HandlerOk(s, j);
    }
  }

  lemma StoppersStay(s: State, cancelled: bool, k: nat)
    requires StopsInv(s) && s.serial !in s.stops
    ensures var t := OnStop(s, cancelled);
            k in t.stops && t.stops[k] == 0 ==> exists i :: i in t.listeners && t.listeners[i].handler == Stopper(k)
  {
    var t := OnStop(s, cancelled);
    if k in t.stops && t.stops[k] == 0 {
      if k == s.serial {
        assert t.listeners[s.current.value].handler == Stopper(k);
      } else {
        assert StopOk(s, k);
        var i :| i in s.listeners && s.listeners[i].handler == Stopper(k);
        assert HandlerOk(s, i);
        assert t.listeners[i].handler == Stopper(k);
      }
    }
  }

  lemma StepKeepsInv(s: State, step: Step)
    requires Inv(s) && Enabled(s, step)
    ensures Inv(Next(s, step))
  {
    match step
    case Call => CallKeepsInv(s);
    case Run(start, created) =>
      RunIsVacant(s, start);
      ListenKeepsInv(s.(starts := s.starts[start := s.starts[start].(queued := false)]), start, 0, created);
    case Report(i, event, created) =>
      match s.listeners[i].handler {
        case Main => MainKeepsInv(s, i, event, created);
        case Stopper(_) => StopperKeepsInv(s, i, event);
        case Silent =>
      }
    case Timeout(i) => TimeoutKeepsInv(s, i);
    case Stop(cancelled) => StopKeepsInv(s, cancelled);
  }

  lemma StopKeepsInv(s: State, cancelled: bool)
    requires Inv(s)
    ensures Inv(OnStop(s, cancelled))
  {
    StopStops(s, cancelled);
    SameStarts(s, OnStop(s, cancelled));
  }

  // ---------- every run ----------

  ghost predicate Follows(s: State, steps: seq<Step>, t: State)
    decreases |steps|
  {
    if steps == [] then s == t else Enabled(s, steps[0]) && Follows(Next(s, steps[0]), steps[1..], t)
  }

  lemma {:induction false} RunKeepsInv(s: State, steps: seq<Step>, t: State)
    requires Inv(s) && Follows(s, steps, t)
    ensures Inv(t)
    decreases |steps|
  {
    if steps != [] {
      StepKeepsInv(s, steps[0]);
      RunKeepsInv(Next(s, steps[0]), steps[1..], t);
    }
  }

  ghost predicate Reachable(s: State) {
    exists localPort, requested, steps :: Follows(Initial(localPort, requested), steps, s)
  }

  lemma ReachableInv(s: State)
    requires Reachable(s)
    ensures Inv(s)
  {
    var localPort, requested, steps :| Follows(Initial(localPort, requested), steps, s);
    RunKeepsInv(Initial(localPort, requested), steps, s);
  }

  /** Whatever the framework reports, no continuation is resumed twice, and a port that is returned is usable. */
  lemma ResumedAtMostOnce(s: State)
    requires Reachable(s)
    ensures forall k :: k in s.starts ==> |s.starts[k].resumed| <= 1
    ensures forall k :: k in s.stops ==> s.stops[k] <= 1
    ensures forall k, port: nat :: k in s.starts && s.starts[k].resumed == [Returned(port)] ==>
              port != 0 && s.localPort != Some(port)
  {
    ReachableInv(s);
    forall k | k in s.starts
      ensures |s.starts[k].resumed| <= 1
      ensures forall port: nat :: s.starts[k].resumed == [Returned(port)] ==> port != 0 && s.localPort != Some(port)
    {
      assert StartOk(s, k);
    }
    forall k | k in s.stops ensures s.stops[k] <= 1 {
      assert StopOk(s, k);
    }
  }

  /** A call that ran is resumed unless a timer runs that will resume it: exactly one timer, and it can fire. */
  lemma UnresumedHasTimer(s: State, k: nat)
    requires Reachable(s) && k in s.starts && !s.starts[k].queued
    ensures s.starts[k].resumed == [] <==> exists i :: Pending(s, i) && s.listeners[i].start == k
    ensures forall i, j :: Pending(s, i) && Pending(s, j) && s.listeners[i].start == k && s.listeners[j].start == k ==>
              i == j
    ensures forall i :: Pending(s, i) && s.listeners[i].start == k ==> Enabled(s, Timeout(i))
  {
    ReachableInv(s);
    assert StartOk(s, k) && Alive(s, k);
    forall i | Pending(s, i) && s.listeners[i].start == k ensures s.starts[k].resumed == [] {
      assert ListenerOk(s, i);
    }
    forall i, j | Pending(s, i) && Pending(s, j) && s.listeners[i].start == k && s.listeners[j].start == k
      ensures i == j {
      assert Ranked(s, i, j) && Ranked(s, j, i);
    }
  }

  /** When it fires, the call is resumed exactly once. */
  lemma TimeoutResumes(s: State, i: nat)
    requires Reachable(s) && Enabled(s, Timeout(i))
    ensures Next(s, Timeout(i)).starts[s.listeners[i].start].resumed == [Threw(TimedOut)]
  {
    ReachableInv(s);
    assert ListenerOk(s, i);
  }

  /** The listeners of one call. */
  function Tries(s: State, k: nat): set<nat> {
    set i | i in s.listeners && s.listeners[i].start == k
  }

  /** At most eight listeners are tried for a call, and one only for a requested port. */
  lemma AtMostEightTries(s: State, k: nat)
    requires Reachable(s)
    ensures |Tries(s, k)| <= LAST_ATTEMPT + 1
    ensures s.requested ==> |Tries(s, k)| <= 1
  {
    ReachableInv(s);
    var bound := if s.requested then 0 else LAST_ATTEMPT;
    forall i | i in Tries(s, k) ensures s.listeners[i].attempt <= bound {
      assert ListenerOk(s, i);
    }
    forall i, j | i in Tries(s, k) && j in Tries(s, k) && i != j
      ensures s.listeners[i].attempt != s.listeners[j].attempt {
      assert Ranked(s, i, j);
    }
    Pigeons(s, Tries(s, k), bound);
  }

  lemma {:induction false} Pigeons(s: State, tries: set<nat>, bound: nat)
    requires forall i :: i in tries ==> i in s.listeners && s.listeners[i].attempt <= bound
    requires forall i, j :: i in tries && j in tries && i != j ==> s.listeners[i].attempt != s.listeners[j].attempt
    ensures |tries| <= bound + 1
    decreases bound
  {
    var top := set i | i in tries && s.listeners[i].attempt == bound;
    AtMostOne(top);
    if bound > 0 {
      Pigeons(s, tries - top, bound - 1);
    } else {
      assert tries - top == {};
    }
    assert tries == (tries - top) + top;
  }

  lemma AtMostOne(top: set<nat>)
    requires forall i, j :: i in top && j in top ==> i == j
    ensures |top| <= 1
  {
    if i :| i in top {
      assert top == {i};
    }
  }

  /** `onFailure` is called at most once for a listener, and only after its call returned an address. */
  lemma FailureAfterSuccess(s: State, i: nat)
    requires Reachable(s) && i in s.listeners
    ensures s.listeners[i].failures <= 1
    ensures s.listeners[i].failures > 0 ==>
              var k := s.listeners[i].start;
              k in s.starts && |s.starts[k].resumed| == 1 && s.starts[k].resumed[0].Returned?
  {
    ReachableInv(s);
    assert ListenerOk(s, i);
    assert StartOk(s, s.listeners[i].start);
  }

  /** The listener was taken over by the call, and its cancellation resumes the call. */
  ghost predicate Stops(s: State, i: nat, k: nat)
    requires i in s.listeners && k in s.stops
  {
    && s.listeners[i].handler == Stopper(k)
    && forall created ::
         Enabled(s, Report(i, Cancelled, created)) && Next(s, Report(i, Cancelled, created)).stops[k] == 1
  }

  /** Every call of `stop` is resumed, or waits for the cancellation of the one listener it took over. */
  lemma StopWaitsForCancellation(s: State, k: nat)
    requires Reachable(s) && k in s.stops
    ensures s.stops[k] == 1 || exists i :: i in s.listeners && Stops(s, i, k)
  {
    ReachableInv(s);
    assert StopOk(s, k);
    if s.stops[k] == 0 {
      var i :| i in s.listeners && s.listeners[i].handler == Stopper(k);
      assert ListenerOk(s, i);
      assert Enabled(s, Report(i, Cancelled, true));
    }
  }

  // ---------- the server object ----------

  class AssetServer {
    const localPort: Option<nat>
    const requested: bool
    var listeners: map<nat, Listener>
    var starts: map<nat, Start>
    var current: Option<nat>
    var boundPort: Option<nat>
    var stops: map<nat, nat>
    var serial: nat

    ghost function View(): State
      reads this
    {
      State(localPort, requested, listeners, starts, current, boundPort, stops, serial)
    }

    constructor (localPort: Option<nat>, requested: bool)
      ensures View() == Initial(localPort, requested)
    {
      this.localPort, this.requested := localPort, requested;
      listeners, starts, current, boundPort, stops, serial := map[], map[], None, None, map[], 0;
    }

    method OnCall() returns (start: nat)
      modifies this
      ensures start == old(serial) && View() == Next(old(View()), Call)
    {
      start := serial;
      starts := starts[start := Start(true, [])];
      serial := serial + 1;
    }

    method OnRun(start: nat, created: bool)
      requires Enabled(View(), Run(start, created))
      modifies this
      ensures View() == Next(old(View()), Run(start, created))
    {
      starts := starts[start := starts[start].(queued := false)];
      StartListener(start, 0, created);
    }

    method StartListener(start: nat, attempt: nat, created: bool)
      requires start in starts
      modifies this
      ensures View() == Listen(old(View()), start, attempt, created)
    {
      if !created {
        ResumeCall(start, Threw(NotCreated));
        return;
      }
      current := Some(serial);
      listeners := listeners[serial := Listener(start, attempt, false, false, false, Armed, Main, 0)];
      serial := serial + 1;
    }

    method ResumeCall(start: nat, outcome: Outcome)
      requires start in starts
      modifies this`starts
      ensures View() == Resume(old(View()), start, outcome)
    {
      starts := starts[start := starts[start].(resumed := starts[start].resumed + [outcome])];
    }

    method OnReport(i: nat, event: Event, created: bool)
      requires Enabled(View(), Report(i, event, created))
      modifies this
      ensures View() == Next(old(View()), Report(i, event, created))
    {
      match listeners[i].handler {
        case Main => StartHandler(i, event, created);
        case Stopper(stop) =>
          if event.Cancelled? {
            listeners := listeners[i := listeners[i].(handler := Silent)];
            stops := stops[stop := stops[stop] + 1];
          }
        case Silent =>
      }
    }

    method StartHandler(i: nat, event: Event, created: bool)
      requires i in listeners && listeners[i].start in starts
      modifies this
      ensures View() == OnMain(old(View()), i, event, created)
    {
      var l := listeners[i];
      if l.retired {
        return;
      }
      match event {
        case Ready(port) =>
          if !l.finished {
            ReadyHandler(i, port, created);
          }
        case Cancelled =>
          if !l.finished {
            listeners := listeners[i := l.(timer := Disarmed, finished := true)];
            ResumeCall(l.start, Threw(Cancellation));
          } else if l.started {
            listeners := listeners[i := l.(retired := true, failures := l.failures + 1)];
          }
        case Other =>
        case _ =>
          l := l.(timer := Disarmed, retired := true);
          if !l.finished {
            listeners := listeners[i := l.(finished := true)];
            ResumeCall(l.start, Threw(Reported));
          } else {
            listeners := listeners[i := if l.started then l.(failures := l.failures + 1) else l];
          }
      }
    }

    method ReadyHandler(i: nat, port: nat, created: bool)
      requires i in listeners && listeners[i].start in starts
      modifies this
      ensures View() == OnReady(old(View()), i, port, created)
    {
      var l := listeners[i].(timer := Disarmed);
      if port == 0 {
        listeners := listeners[i := l.(finished := true)];
        ResumeCall(l.start, Threw(AddressUnavailable));
        return;
      }
      if localPort == Some(port) {
        listeners := listeners[i := l.(retired := true)];
        current := None;
        if !requested && l.attempt < LAST_ATTEMPT {
          StartListener(l.start, l.attempt + 1, created);
        } else {
          ResumeCall(l.start, Threw(AddressInUse));
        }
        return;
      }
      boundPort := Some(port);
      listeners := listeners[i := l.(started := true, finished := true)];
      ResumeCall(l.start, Returned(port));
    }

    method OnTimeout(i: nat)
      requires Enabled(View(), Timeout(i))
      modifies this
      ensures View() == Next(old(View()), Timeout(i))
    {
      var l := listeners[i].(timer := Fired);
      listeners := listeners[i := l];
      if l.finished {
        return;
      }
      listeners := listeners[i := l.(finished := true, retired := true)];
      ResumeCall(l.start, Threw(TimedOut));
    }

    method OnStop(cancelled: bool) returns (stop: nat)
      requires Enabled(View(), Stop(cancelled))
      modifies this
      ensures stop == old(serial) && View() == Next(old(View()), Stop(cancelled))
    {
      stop := serial;
      serial := serial + 1;
      var listener := current;
      current, boundPort := None, None;
      if listener.None? {
        stops := stops[stop := 1];
      } else if cancelled {
        listeners := listeners[listener.value := listeners[listener.value].(handler := Silent)];
        stops := stops[stop := 1];
      } else {
        listeners := listeners[listener.value := listeners[listener.value].(handler := Stopper(stop))];
        stops := stops[stop := 0];
      }
    }
  }
}
