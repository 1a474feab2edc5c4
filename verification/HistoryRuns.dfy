/**
 * What holds of the history reader in every run: whatever its callers do while `forget` or `close` waits, and
 * whatever the sources are.  Registrations can be lost then, but no reader is ever worked on twice at once.
 */
module HistoryRuns {
  import opened Prelude
  import opened HistoryReader

  ghost predicate ReaderFits(s: State, r: nat)
    requires r in s.readers
  {
    var reader := s.readers[r];
    && r < s.serial && Batches(reader.pages) <= reader.origin && PagesOk(reader.pages)
    && (reader.owner.Some? ==> reader.owner.value in s.operations && s.operations[reader.owner.value].reader == r)
  }

  /** A cursor names one reader that nobody works on and that holds everything its pages do not. */
  ghost predicate CursorFits(s: State, c: nat)
    requires c in s.cursors
  {
    && c < s.serial && s.cursors[c] in s.readers
    && (var reader := s.readers[s.cursors[c]];
        && reader.cursor == Some(c) && reader.owner.None?
        && reader.origin == Batches(reader.pages) + (Held(reader) + reader.rest))
  }

  ghost predicate PhaseFits(reader: Reader, op: nat, phase: Phase) {
    && reader.owner == Some(op) && reader.cursor.None?
    && match phase
       case Filling(page) => Stocked(reader, op, page) && reader.pending.None? && !Full(page)
       case Checking(page, done) =>
         && Stocked(reader, op, page)
         && (if done then reader.pending.None? && reader.rest == [] else Ended(reader, page))
       case Returning(page, last) =>
           last ==> Stocked(reader, op, page) && reader.pending.None? && reader.rest == []
  }

  ghost predicate OperationFits(s: State, op: nat)
    requires op in s.operations
  {
    var o := s.operations[op];
    op < s.serial && o.reader in s.readers && PhaseFits(s.readers[o.reader], op, o.phase)
  }

  ghost predicate SessionFits(s: State, session: string)
    requires session in s.sessions
  {
    s.sessions[session] in s.readers && s.readers[s.sessions[session]].session == session
  }

  ghost predicate Fits(s: State) {
    && |s.sessions| <= MAX_READERS
    && (forall r {:trigger ReaderFits(s, r)} :: r in s.readers ==> ReaderFits(s, r))
    && (forall c {:trigger CursorFits(s, c)} :: c in s.cursors ==> CursorFits(s, c))
    && (forall op {:trigger OperationFits(s, op)} :: op in s.operations ==> OperationFits(s, op))
    && (forall x {:trigger SessionFits(s, x)} :: x in s.sessions ==> SessionFits(s, x))
  }

  // ---------- losing entries ----------

  /** Timers are stopped and entries are gone; nothing else changes. */
  ghost predicate Loses(s: State, t: State) {
    && s.serial <= t.serial && t.operations == s.operations && t.readers.Keys == s.readers.Keys
    && (forall r :: r in t.readers ==> t.readers[r] == s.readers[r] || t.readers[r] == s.readers[r].(armed := false))
    && (forall c :: c in t.cursors ==> c in s.cursors && t.cursors[c] == s.cursors[c])
    && (forall x :: x in t.sessions ==> x in s.sessions && t.sessions[x] == s.sessions[x])
  }

  lemma LosingFits(s: State, t: State)
    requires Fits(s) && Loses(s, t)
    ensures Fits(t)
  {
    CardinalityMonotone(t.sessions.Keys, s.sessions.Keys);
    assert |t.sessions| == |t.sessions.Keys| && |s.sessions| == |s.sessions.Keys|;
    forall r | r in t.readers ensures ReaderFits(t, r) {
      assert ReaderFits(s, r);
    }
    forall c | c in t.cursors ensures CursorFits(t, c) {
      assert CursorFits(s, c);
    }
    forall op | op in t.operations ensures OperationFits(t, op) {
      assert OperationFits(s, op);
    }
    forall x | x in t.sessions ensures SessionFits(t, x) {
      assert SessionFits(s, x);
    }
  }

  lemma RetireLoses(s: State, r: nat)
    requires r in s.readers
    ensures Loses(s, Retire(s, r))
  {
  }

  // ---------- steps change one reader ----------

  /** Apart from reader `r` and operation `op`, `t` has nothing that `s` did not have. */
  ghost predicate Near(s: State, t: State, r: nat, op: nat) {
    && r in t.readers && s.serial <= t.serial
    && (forall i :: i != r ==>
         (i in t.readers <==> i in s.readers) && (i in s.readers ==> t.readers[i] == s.readers[i]))
    && (forall i :: i != op ==>
         (i in t.operations <==> i in s.operations) && (i in s.operations ==> t.operations[i] == s.operations[i]))
    && (forall c :: c in t.cursors && t.cursors[c] != r ==> c in s.cursors && t.cursors[c] == s.cursors[c])
    && (forall y :: y in t.sessions && t.sessions[y] != r ==> y in s.sessions && t.sessions[y] == s.sessions[y])
    && (r in s.readers && s.readers[r].owner.Some? ==> s.readers[r].owner == Some(op))
    && (op in s.operations ==> s.operations[op].reader == r)
  }

  lemma NearFits(s: State, t: State, r: nat, op: nat)
    requires Fits(s) && Near(s, t, r, op) && |t.sessions| <= MAX_READERS && ReaderFits(t, r)
    requires op in t.operations ==> t.operations[op].reader == r && OperationFits(t, op)
    requires forall c :: c in t.cursors && t.cursors[c] == r ==> CursorFits(t, c)
    requires forall y :: y in t.sessions && t.sessions[y] == r ==> SessionFits(t, y)
    ensures Fits(t)
  {
    forall i | i in t.readers ensures ReaderFits(t, i) {
      assert i in s.readers ==> ReaderFits(s, i);
    }
    forall c | c in t.cursors ensures CursorFits(t, c) {
      assert c in s.cursors ==> CursorFits(s, c);
    }
    forall i | i in t.operations ensures OperationFits(t, i) {
      assert i in s.operations ==> OperationFits(s, i);
    }
    forall y | y in t.sessions ensures SessionFits(t, y) {
      assert y in s.sessions ==> SessionFits(s, y);
    }
  }

  /** Operation `op` works on reader `r`, which no cursor names. */
  ghost predicate Worked(s: State, u: State, r: nat, op: nat) {
    && Near(s, u, r, op) && |u.sessions| <= MAX_READERS && r < u.serial && op < u.serial
    && op in u.operations && u.operations[op].reader == r
    && (forall c :: c in u.cursors ==> u.cursors[c] != r)
    && (forall y :: y in u.sessions && u.sessions[y] == r ==> y == u.readers[r].session)
    && Batches(u.readers[r].pages) <= u.readers[r].origin && PagesOk(u.readers[r].pages)
  }

  lemma PhaseIsSet(s: State, u: State, r: nat, op: nat, phase: Phase)
    requires Fits(s) && Worked(s, u, r, op) && PhaseFits(u.readers[r], op, phase)
    ensures Fits(InPhaseOf(u, op, phase))
  {
    var t := InPhaseOf(u, op, phase);
    assert OperationFits(t, op) && ReaderFits(t, r);
    NearFits(s, t, r, op);
  }

  lemma RetiringFits(s: State, u: State, r: nat, op: nat, last: bool)
    requires Fits(s) && Worked(s, u, r, op) && PhaseFits(u.readers[r], op, Returning(u.operations[op].phase.page, last))
    ensures Fits(RetireWith(u, op, last))
  {
    var t := InPhaseOf(u, op, Returning(u.operations[op].phase.page, last));
    PhaseIsSet(s, u, r, op, Returning(u.operations[op].phase.page, last));
    RetireLoses(t, r);
    LosingFits(t, Retire(t, r));
    assert Retire(t, r) == RetireWith(u, op, last);
  }

  lemma LeaveFits(s: State, u: State, r: nat, op: nat, page: Page, done: bool)
    requires Fits(s) && Worked(s, u, r, op) && Stocked(u.readers[r], op, page)
    requires if done then u.readers[r].pending.None? && u.readers[r].rest == []
             else u.closing || Ended(u.readers[r], page)
    ensures Fits(Leave(u, op, page, done))
  {
    if u.closing {
      RetiringFits(s, InPhaseOf(u, op, Checking(page, done)), r, op, false);
    } else {
      PhaseIsSet(s, u, r, op, Checking(page, done));
    }
  }

  lemma TakeFits(s: State, u: State, r: nat, op: nat, page: Page, batch: Batch)
    requires Fits(s) && Worked(s, u, r, op) && u.readers[r].pending.None? && !Full(page)
    requires Stocked(u.readers[r].(pending := Some(batch)), op, page)
    ensures Fits(Take(u, op, page, batch))
  {
    if Overflows(page, batch) {
      assert page.taken != [];
      LeaveFits(s, WithReader(u, r, u.readers[r].(pending := Some(batch))), r, op, page, false);
    } else {
      StockAdd(u.readers[r], op, page, batch);
      if Full(Add(page, batch)) || u.closing {
        LeaveFits(s, u, r, op, Add(page, batch), false);
      } else {
        PhaseIsSet(s, u, r, op, Filling(Add(page, batch)));
      }
    }
  }

  // ---------- every step ----------

  lemma OperationIsWorked(s: State, op: nat)
    requires Fits(s) && op in s.operations
    ensures OperationFits(s, op) && Worked(s, s, s.operations[op].reader, op)
  {
    var r := s.operations[op].reader;
    assert OperationFits(s, op) && ReaderFits(s, r);
    forall c | c in s.cursors ensures s.cursors[c] != r {
      assert CursorFits(s, c);
    }
    forall y | y in s.sessions && s.sessions[y] == r ensures y == s.readers[r].session {
      assert SessionFits(s, y);
    }
  }

  lemma PageStepFits(s: State, step: Step)
    requires Fits(s) && Enabled(s, step) && (step.Batched? || step.Drained? || step.SourceFailed?)
    ensures Fits(Next(s, step))
  {
    var op := step.op;
    var r, page := s.operations[op].reader, s.operations[op].phase.page;
    var reader := s.readers[r];
    OperationIsWorked(s, op);
    match step
    case Batched(_) =>
      StockRead(reader, op, page);
      TakeFits(s, WithReader(s, r, reader.(rest := reader.rest[1..])), r, op, page, reader.rest[0]);
    case Drained(_) => LeaveFits(s, s, r, op, page, true);
    case SourceFailed(_) => RetiringFits(s, s, r, op, false);
  }

  lemma ParkIsNear(s: State, op: nat)
    requires op in s.operations && s.operations[op].reader in s.readers
    requires Near(s, s, s.operations[op].reader, op)
    ensures Near(s, Park(s, op), s.operations[op].reader, op)
    ensures var t := Park(s, op);
            t.cursors == s.cursors[s.serial := s.operations[op].reader] && t.sessions == s.sessions
              && op !in t.operations
  {
  }

  lemma ParkedFits(s: State, op: nat)
    requires op in s.operations && s.operations[op].phase.Checking? && s.operations[op].reader in s.readers
    requires Stocked(s.readers[s.operations[op].reader], op, s.operations[op].phase.page)
    requires s.operations[op].reader < s.serial
    ensures ReaderFits(Park(s, op), s.operations[op].reader) && s.serial in Park(s, op).cursors
    ensures CursorFits(Park(s, op), s.serial)
  {
    PageReturned(s.readers[s.operations[op].reader], op, s.operations[op].phase.page);
  }

  lemma ParkFits(s: State, op: nat)
    requires Fits(s) && op in s.operations && s.operations[op].phase.Checking? && s.operations[op].reader in s.readers
    ensures Fits(Park(s, op))
  {
    var r, t := s.operations[op].reader, Park(s, op);
    OperationIsWorked(s, op);
    ParkIsNear(s, op);
    ParkedFits(s, op);
    forall y | y in t.sessions && t.sessions[y] == r ensures SessionFits(t, y) {
      assert SessionFits(s, y);
    }
    NearFits(s, t, r, op);
  }

  lemma SettleIsNear(s: State, op: nat)
    requires op in s.operations && s.operations[op].reader in s.readers
    requires Near(s, s, s.operations[op].reader, op)
    ensures Near(s, Settle(s, op), s.operations[op].reader, op) && Near(s, Yield(s, op), s.operations[op].reader, op)
    ensures Settle(s, op).cursors == s.cursors == Yield(s, op).cursors
    ensures Settle(s, op).sessions == s.sessions == Yield(s, op).sessions
    ensures op !in Settle(s, op).operations && op !in Yield(s, op).operations
  {
  }

  lemma SettledFits(s: State, op: nat)
    requires op in s.operations && s.operations[op].phase.Returning? && s.operations[op].reader in s.readers
    requires ReaderFits(s, s.operations[op].reader) && OperationFits(s, op)
    ensures ReaderFits(Settle(s, op), s.operations[op].reader)
    ensures s.operations[op].phase.last ==> ReaderFits(Yield(s, op), s.operations[op].reader)
  {
    if s.operations[op].phase.last {
      PageReturned(s.readers[s.operations[op].reader], op, s.operations[op].phase.page);
    }
  }

  lemma SettleFits(s: State, op: nat)
    requires Fits(s) && op in s.operations && s.operations[op].phase.Returning? && s.operations[op].reader in s.readers
    ensures Fits(if s.operations[op].phase.last then Yield(s, op) else Settle(s, op))
  {
    var r, t := s.operations[op].reader, if s.operations[op].phase.last then Yield(s, op) else Settle(s, op);
    OperationIsWorked(s, op);
    SettleIsNear(s, op);
    assert ReaderFits(s, r);
    SettledFits(s, op);
    forall y | y in t.sessions && t.sessions[y] == r ensures SessionFits(t, y) {
      assert SessionFits(s, y);
    }
    NearFits(s, t, r, op);
  }

  lemma LateStepFits(s: State, step: Step)
    requires Fits(s) && Enabled(s, step) && (step.Processed? || step.Returned?)
    ensures Fits(Next(s, step))
  {
    var op := step.op;
    var r := s.operations[op].reader;
    OperationIsWorked(s, op);
    match step
    case Processed(_, ok) =>
      if !ok || s.operations[op].phase.done {
        RetiringFits(s, s, r, op, ok);
      } else {
        ParkFits(s, op);
      }
    case Returned(_, ok) =>
      if s.operations[op].phase.last && !ok {
        RetiringFits(s, s, r, op, false);
      } else {
        SettleFits(s, op);
      }
  }

  /** Serial numbers ahead are unused. */
  lemma Unused(s: State)
    requires Fits(s)
    ensures s.serial !in s.readers && s.serial !in s.operations && s.serial + 1 !in s.operations
    ensures forall c :: c in s.cursors ==> s.cursors[c] in s.readers
    ensures forall y :: y in s.sessions ==> s.sessions[y] in s.readers && s.readers[s.sessions[y]].session == y
  {
    forall i | i in s.readers ensures i < s.serial {
      assert ReaderFits(s, i);
    }
    forall op | op in s.operations ensures op < s.serial {
      assert OperationFits(s, op);
    }
    forall c | c in s.cursors ensures s.cursors[c] in s.readers {
      assert CursorFits(s, c);
    }
    forall y | y in s.sessions ensures s.sessions[y] in s.readers && s.readers[s.sessions[y]].session == y {
      assert SessionFits(s, y);
    }
  }

  lemma BeginFits(s: State, u: State, r: nat)
    requires Fits(s) && r in u.readers && Idle(u.readers[r]) && Worked(s, Start(u, r), r, u.serial)
    ensures Fits(Begin(u, r))
  {
    var reader, op, t := u.readers[r], u.serial, Start(u, r);
    BeginsStocked(reader, op);
    if reader.pending.Some? {
      assert t.readers[r].(pending := reader.pending) == reader.(owner := Some(op));
      TakeFits(s, t, r, op, EMPTY, reader.pending.value);
    } else {
      assert t.readers[r] == reader.(owner := Some(op));
      PhaseIsSet(s, t, r, op, Filling(EMPTY));
      assert InPhaseOf(t, op, Filling(EMPTY)) == t;
    }
  }

  lemma ResumeFits(s: State, cursor: nat)
    requires Fits(s) && cursor in s.cursors && s.cursors[cursor] in s.readers
    ensures Fits(Begin(Unpark(s, cursor), s.cursors[cursor]))
  {
    var r, u := s.cursors[cursor], Unpark(s, cursor);
    Unused(s);
    assert CursorFits(s, cursor) && ReaderFits(s, r);
    forall c | c in u.cursors ensures u.cursors[c] != r {
      assert CursorFits(s, c);
    }
    BeginFits(s, u, r);
  }

  lemma RegisterFits(s: State, session: string, source: seq<Batch>)
    requires Fits(s) && session !in s.sessions && |s.sessions| < MAX_READERS
    ensures Fits(Begin(Register(s, session, source), s.serial))
  {
    Unused(s);
    RegisterIsIdle(s, session, source);
    BeginFits(s, Register(s, session, source), s.serial);
  }

  lemma ForgetFits(s: State, k: nat)
    requires Fits(s) && Enabled(s, ForgetRetire(k))
    ensures Fits(Next(s, ForgetRetire(k)))
  {
    var x, t := s.forgetting[k].session, s.(forgetting := s.forgetting - {k});
    LosingFits(s, t);
    if x in s.sessions && s.sessions[x] in s.readers {
      RetireLoses(t, s.sessions[x]);
      LosingFits(t, Retire(t, s.sessions[x]));
    }
  }

  lemma CloseLoses(s: State, k: nat)
    requires Enabled(s, CloseRetire(k))
    ensures Loses(s, Next(s, CloseRetire(k)))
  {
  }

  lemma StepFits(s: State, step: Step)
    requires Fits(s) && Enabled(s, step)
    ensures Fits(Next(s, step))
  {
    match step
    case Read(session, cursor, source) =>
      if Accepts(s, step) {
        if cursor.Some? { ResumeFits(s, cursor.value); } else { RegisterFits(s, session, source); }
      }
    case Batched(_) => PageStepFits(s, step);
    case Drained(_) => PageStepFits(s, step);
    case SourceFailed(_) => PageStepFits(s, step);
    case Processed(_, _) => LateStepFits(s, step);
    case Returned(_, _) => LateStepFits(s, step);
    case Expired(r) =>
      RetireLoses(s, r);
      LosingFits(s, Retire(s, r));
    case ForgetRetire(k) => ForgetFits(s, k);
    case CloseRetire(k) =>
      CloseLoses(s, k);
      LosingFits(s, Next(s, step));
    case _ => LosingFits(s, Next(s, step));
  }

  lemma {:induction false} RunFits(s: State, steps: seq<Step>, t: State)
    requires Fits(s) && Runs(s, steps, t)
    ensures Fits(t)
    decreases |steps|
  {
    if steps != [] {
      StepFits(s, steps[0]);
      RunFits(Next(s, steps[0]), steps[1..], t);
    }
  }

  // ---------- what every run keeps ----------

  /** Reached by any callers with any sources. */
  ghost predicate Reached(s: State) {
    exists steps :: Runs(INITIAL, steps, s)
  }

  lemma ReachedFits(s: State)
    requires Reached(s)
    ensures Fits(s)
  {
    var steps :| Runs(INITIAL, steps, s);
    RunFits(INITIAL, steps, s);
  }

  /**
   * In every run: at most eight sessions; two operations never work on the same reader, so no source is advanced
   * twice at once; a cursor names one reader, which nobody works on; and what was returned is a prefix of the source.
   */
  lemma AlwaysExclusive(s: State)
    requires Reached(s)
    ensures |s.sessions| <= MAX_READERS
    ensures forall i, j :: i in s.operations && j in s.operations && i != j ==>
              s.operations[i].reader != s.operations[j].reader
    ensures forall c, d :: c in s.cursors && d in s.cursors && c != d ==> s.cursors[c] != s.cursors[d]
    ensures forall c, op :: c in s.cursors && op in s.operations ==> s.operations[op].reader != s.cursors[c]
    ensures forall r :: r in s.readers ==> Batches(s.readers[r].pages) <= s.readers[r].origin
  {
    ReachedFits(s);
    forall op | op in s.operations
      ensures s.operations[op].reader in s.readers && s.readers[s.operations[op].reader].owner == Some(op)
    {
      assert OperationFits(s, op);
    }
    forall c | c in s.cursors
      ensures s.cursors[c] in s.readers && s.readers[s.cursors[c]].cursor == Some(c)
              && s.readers[s.cursors[c]].owner.None?
    {
      assert CursorFits(s, c);
    }
    forall r | r in s.readers ensures Batches(s.readers[r].pages) <= s.readers[r].origin {
      assert ReaderFits(s, r);
    }
  }

  /** Whatever the callers do, a page about to be returned is made of whole batches, bounded, and ends for a reason. */
  lemma PagesAreBounded(s: State, op: nat)
    requires Reached(s) && Enabled(s, Processed(op, true))
    ensures var page, reader := s.operations[op].phase.page, s.readers[s.operations[op].reader];
            && page.events == Flatten(page.taken) && Bounded(page)
            && (if s.operations[op].phase.done then reader.pending.None? && reader.rest == [] else Ended(reader, page))
  {
    ReachedFits(s);
    assert OperationFits(s, op);
  }

  /** The page without a cursor completes the source: together the pages are made of all its batches, in order. */
  lemma LastPageCompletes(s: State, op: nat)
    requires Reached(s) && Enabled(s, Returned(op, true)) && s.operations[op].phase.last
    ensures var reader := Next(s, Returned(op, true)).readers[s.operations[op].reader];
            && Batches(reader.pages) == reader.origin && Events(reader.pages) == Flatten(reader.origin)
            && forall i :: 0 <= i < |reader.pages| ==> PageOk(reader.pages[i])
  {
    ReachedFits(s);
    assert OperationFits(s, op);
    PageReturned(s.readers[s.operations[op].reader], op, s.operations[op].phase.page);
    EventsOfBatches(Next(s, Returned(op, true)).readers[s.operations[op].reader].pages);
  }
}
