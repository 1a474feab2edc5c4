/**
 * Bounded, expiring continuations over native history sources.  A read runs as an operation that is cut
 * at every await; between two cuts the code is one atomic step.
 */
module HistoryReader {
  import opened Prelude

  const MAX_READERS: nat := 8
  const PAGE_EVENTS: nat := 512
  const PAGE_BYTES: nat := 1024 * 1024

  /** An event is represented by its JSON text, one character per byte. */
  type Event = string
  type Batch = seq<Event>

  function TextLength(batch: Batch): nat {
    if batch == [] then 0 else |batch[0]| + TextLength(batch[1..])
  }

  /** The size of the JSON array: brackets, texts and separators. */
  function Size(batch: Batch): nat {
    2 + TextLength(batch) + (if batch == [] then 0 else |batch| - 1)
  }

  function Sizes(batches: seq<Batch>): nat {
    if batches == [] then 0 else Sizes(batches[..|batches| - 1]) + Size(batches[|batches| - 1])
  }

  // `rest` is what the source will still yield, `armed` the expiry timer; `owner`, `origin` and `pages`
  // record the operation that works on the reader, the whole source and the pages returned so far.
  datatype Reader = Reader(session: string, rest: seq<Batch>, pending: Option<Batch>, cursor: Option<nat>, armed: bool,
                           owner: Option<nat>, origin: seq<Batch>, pages: seq<Page>)

  // `taken` records the batches behind `events`.
  datatype Page = Page(events: seq<Event>, bytes: nat, taken: seq<Batch>)

  datatype Phase =
    | Filling(page: Page)                // awaiting the source's next batch
    | Checking(page: Page, done: bool)   // awaiting the processing state
    | Returning(page: Page, last: bool)  // awaiting the source's return; `last`: then the page is returned

  datatype Operation = Operation(reader: nat, phase: Phase)

  /** A call of `forget` and the operations it waits for. */
  datatype Wait = Wait(session: string, operations: set<nat>)

  // `forgetting` and `closers` are the calls of `forget` and `close` that are still waiting.
  datatype State = State(cursors: map<nat, nat>, sessions: map<string, nat>, readers: map<nat, Reader>,
                         operations: map<nat, Operation>, closing: bool, serial: nat,
                         forgetting: map<nat, Wait>, closers: map<nat, set<nat>>)

  const INITIAL := State(map[], map[], map[], map[], false, 0, map[], map[])

  datatype Step =
    | Open
    | Read(session: string, cursor: Option<nat>, source: seq<Batch>)
    | Batched(op: nat)                // next() yields a batch
    | Drained(op: nat)                // next() reports the end
    | SourceFailed(op: nat)           // next() throws
    | Processed(op: nat, ok: bool)
    | Returned(op: nat, ok: bool)
    | Expired(reader: nat)
    | Forget(session: string)
    | ForgetRetire(call: nat)         // after the operations of that moment settled
    | Close
    | CloseRetire(call: nat)          // after the operations of that moment settled

  predicate InPhase(s: State, op: nat, step: Step) {
    && op in s.operations && s.operations[op].reader in s.readers
    && match step
       case Batched(_) => s.operations[op].phase.Filling? && s.readers[s.operations[op].reader].rest != []
       case Drained(_) => s.operations[op].phase.Filling? && s.readers[s.operations[op].reader].rest == []
       case SourceFailed(_) => s.operations[op].phase.Filling?
       case Processed(_, _) => s.operations[op].phase.Checking?
       case Returned(_, _) => s.operations[op].phase.Returning?
       case _ => false
  }

  predicate Enabled(s: State, step: Step) {
    match step
    case Open => true
    case Read(_, _, _) => true
    case Expired(r) => r in s.readers && s.readers[r].armed
    case Forget(_) => true
    case ForgetRetire(k) => k in s.forgetting && s.forgetting[k].operations !! s.operations.Keys
    case Close => true
    case CloseRetire(k) => k in s.closers && s.closers[k] !! s.operations.Keys
    case _ => InPhase(s, step.op, step)
  }

  // ---------- one step ----------

  function Retire(s: State, r: nat): State
    requires r in s.readers
  {
    var reader := s.readers[r];
    s.(readers := s.readers[r := reader.(armed := false)],
       cursors := if reader.cursor.Some? then s.cursors - {reader.cursor.value} else s.cursors,
       sessions := s.sessions - {reader.session})
  }

  /** The operation's promise settles. */
  function Settle(s: State, op: nat): State
    requires op in s.operations && s.operations[op].reader in s.readers
  {
    var r := s.operations[op].reader;
    s.(operations := s.operations - {op}, readers := s.readers[r := s.readers[r].(owner := None)])
  }

  /** The operation returns its page. */
  function Yield(s: State, op: nat): State
    requires op in s.operations && s.operations[op].reader in s.readers
  {
    var r, page := s.operations[op].reader, s.operations[op].phase.page;
    var t := Settle(s, op);
    t.(readers := t.readers[r := t.readers[r].(pages := t.readers[r].pages + [page])])
  }

  /** Retires the operation's reader and waits for its source to return. */
  function RetireWith(s: State, op: nat, last: bool): State
    requires op in s.operations && s.operations[op].reader in s.readers
  {
    var o := s.operations[op];
    Retire(s, o.reader).(operations := s.operations[op := o.(phase := Returning(o.phase.page, last))])
  }

  /** Leaving the page loop. */
  function Leave(s: State, op: nat, page: Page, done: bool): State
    requires op in s.operations && s.operations[op].reader in s.readers
  {
    var t := s.(operations := s.operations[op := s.operations[op].(phase := Checking(page, done))]);
    if s.closing then RetireWith(t, op, false) else t
  }

  predicate Overflows(page: Page, batch: Batch) {
    page.events != [] && (|page.events| + |batch| > PAGE_EVENTS || page.bytes + Size(batch) > PAGE_BYTES)
  }

  predicate Full(page: Page) {
    |page.events| >= PAGE_EVENTS || page.bytes >= PAGE_BYTES
  }

  function Add(page: Page, batch: Batch): Page {
    Page(page.events + batch, page.bytes + Size(batch), page.taken + [batch])
  }

  function Take(s: State, op: nat, page: Page, batch: Batch): State
    requires op in s.operations && s.operations[op].reader in s.readers
  {
    var r := s.operations[op].reader;
    if Overflows(page, batch) then
      Leave(s.(readers := s.readers[r := s.readers[r].(pending := Some(batch))]), op, page, false)
    else if Full(Add(page, batch)) || s.closing then Leave(s, op, Add(page, batch), false)
    else s.(operations := s.operations[op := s.operations[op].(phase := Filling(Add(page, batch)))])
  }

  const EMPTY := Page([], 0, [])

  /** A new operation runs up to its first await; a batch held back by the previous page comes first. */
  function Start(s: State, r: nat): State
    requires r in s.readers
  {
    s.(operations := s.operations[s.serial := Operation(r, Filling(EMPTY))], serial := s.serial + 1,
       readers := s.readers[r := s.readers[r].(pending := None, owner := Some(s.serial))])
  }

  function Begin(s: State, r: nat): State
    requires r in s.readers
  {
    var pending := s.readers[r].pending;
    if pending.Some? then Take(Start(s, r), s.serial, EMPTY, pending.value) else Start(s, r)
  }

  function Resumes(s: State, session: string, cursor: nat): bool {
    cursor in s.cursors && s.cursors[cursor] in s.readers && s.readers[s.cursors[cursor]].session == session
  }

  predicate Accepts(s: State, step: Step)
    requires step.Read?
  {
    && !s.closing
    && if step.cursor.Some? then Resumes(s, step.session, step.cursor.value)
       else step.session !in s.sessions && |s.sessions| < MAX_READERS
  }

  /** A cursor is used up: the reader leaves its parking place. */
  function Unpark(s: State, cursor: nat): State
    requires cursor in s.cursors && s.cursors[cursor] in s.readers
  {
    var r := s.cursors[cursor];
    s.(cursors := s.cursors - {cursor}, readers := s.readers[r := s.readers[r].(cursor := None, armed := false)])
  }

  function Register(s: State, session: string, source: seq<Batch>): State {
    s.(sessions := s.sessions[session := s.serial], serial := s.serial + 1,
       readers := s.readers[s.serial := Reader(session, source, None, None, false, None, source, [])])
  }

  function StartRead(s: State, step: Step): State
    requires step.Read? && Accepts(s, step)
  {
    if step.cursor.Some? then Begin(Unpark(s, step.cursor.value), s.cursors[step.cursor.value])
    else Begin(Register(s, step.session, step.source), s.serial)
  }

  /** The page is complete: the reader is parked under a fresh cursor. */
  function Park(s: State, op: nat): State
    requires op in s.operations && s.operations[op].reader in s.readers
  {
    var r := s.operations[op].reader;
    var t := Yield(s, op);
    t.(cursors := t.cursors[t.serial := r], serial := t.serial + 1,
       readers := t.readers[r := t.readers[r].(cursor := Some(t.serial), armed := true)])
  }

  function Next(s: State, step: Step): State
    requires Enabled(s, step)
  {
    match step
    case Open => s.(closing := false)
    case Read(_, _, _) => if Accepts(s, step) then StartRead(s, step) else s
    case Batched(op) =>
      var r := s.operations[op].reader;
      var reader := s.readers[r];
      Take(s.(readers := s.readers[r := reader.(rest := reader.rest[1..])]), op, s.operations[op].phase.page,
          reader.rest[0])
    case Drained(op) => Leave(s, op, s.operations[op].phase.page, true)
    case SourceFailed(op) => RetireWith(s, op, false)
    case Processed(op, ok) =>
      if !ok then RetireWith(s, op, false)
      else if s.operations[op].phase.done then RetireWith(s, op, true)
      else Park(s, op)
    case Returned(op, ok) =>
      var o := s.operations[op];
      if o.phase.last && ok then Yield(s, op)
      else if o.phase.last then RetireWith(s, op, false)
      else Settle(s, op)
    case Expired(r) => Retire(s, r)
    case Forget(session) =>
        s.(forgetting := s.forgetting[s.serial := Wait(session, s.operations.Keys)], serial := s.serial + 1)
    case ForgetRetire(k) =>
      var session, t := s.forgetting[k].session, s.(forgetting := s.forgetting - {k});
      if session in s.sessions && s.sessions[session] in s.readers then Retire(t, s.sessions[session]) else t
    case Close => s.(closing := true, closers := s.closers[s.serial := s.operations.Keys], serial := s.serial + 1)
    case CloseRetire(k) =>
      s.(closers := s.closers - {k}, sessions := map[],
         cursors := map c | c in s.cursors && !RetiredAtClose(s, s.cursors[c], c) :: s.cursors[c],
         readers := map r | r in s.readers ::
           if s.readers[r].session in s.sessions && s.sessions[s.readers[r].session] == r
             then s.readers[r].(armed := false) else s.readers[r])
  }

  /** The cursor belongs to one of the readers that are retired by `close`. */
  predicate RetiredAtClose(s: State, r: nat, c: nat) {
    exists session :: session in s.sessions && s.sessions[session] in s.readers
      && s.readers[s.sessions[session]].cursor == Some(c)
  }

  // ---------- the invariant ----------

  predicate Registered(s: State, r: nat) {
    r in s.readers && s.readers[r].session in s.sessions && s.sessions[s.readers[r].session] == r
  }

  /** Exactly one non-empty batch, or within both limits. */
  ghost predicate Bounded(page: Page) {
    || (|page.events| <= PAGE_EVENTS && page.bytes <= PAGE_BYTES)
    || exists k :: 0 <= k < |page.taken| && page.events == page.taken[k]
  }

  ghost predicate PageOk(page: Page) {
    page.events == Flatten(page.taken) && page.bytes == Sizes(page.taken) && Bounded(page)
  }

  function Held(reader: Reader): seq<Batch> {
    match reader.pending case Some(b) => [b] case None => []
  }

  function InHand(s: State, reader: Reader): seq<Batch> {
    if reader.owner.Some? && reader.owner.value in s.operations
      then s.operations[reader.owner.value].phase.page.taken else []
  }

  /** The batches behind the pages, in order. */
  function Batches(pages: seq<Page>): seq<Batch> {
    if pages == [] then [] else Batches(pages[..|pages| - 1]) + pages[|pages| - 1].taken
  }

  /** What a caller that follows the cursors puts together. */
  function Events(pages: seq<Page>): seq<Event> {
    if pages == [] then [] else Events(pages[..|pages| - 1]) + pages[|pages| - 1].events
  }

  ghost predicate PagesOk(pages: seq<Page>) {
    forall i :: 0 <= i < |pages| ==> PageOk(pages[i])
  }

  lemma {:induction false} EventsOfBatches(pages: seq<Page>)
    requires PagesOk(pages)
    ensures Events(pages) == Flatten(Batches(pages))
  {
    if pages != [] {
      var before := pages[..|pages| - 1];
      EventsOfBatches(before);
      FlattenAppend(Batches(before), pages[|pages| - 1].taken);
    }
  }

  /** No batch is lost, repeated, split or reordered. */
  ghost predicate Conserved(s: State, r: nat)
    requires r in s.readers
  {
    var reader := s.readers[r];
    reader.origin == Batches(reader.pages) + (InHand(s, reader) + (Held(reader) + reader.rest))
  }

  /** A page that does not end the source holds a batch, and is full or stopped by the batch held back. */
  predicate Ended(reader: Reader, page: Page) {
    page.taken != [] && (Full(page) || (reader.pending.Some? && Overflows(page, reader.pending.value)))
  }

  ghost predicate ReaderOk(s: State, r: nat)
    requires r in s.readers
  {
    var reader := s.readers[r];
    && r < s.serial
    && (reader.armed ==> reader.cursor.Some? && reader.cursor.value in s.cursors && s.cursors[reader.cursor.value] == r)
    && (reader.owner.Some? ==> reader.owner.value in s.operations && s.operations[reader.owner.value].reader == r)
    && Batches(reader.pages) <= reader.origin && PagesOk(reader.pages)
    && (Registered(s, r) || reader.owner.Some? ==> Conserved(s, r))
  }

  /** A cursor names one registered reader that nobody works on and that will expire. */
  ghost predicate CursorOk(s: State, c: nat)
    requires c in s.cursors
  {
    var r := s.cursors[c];
    && c < s.serial && Registered(s, r)
    && s.readers[r].cursor == Some(c) && s.readers[r].armed && s.readers[r].owner.None?
  }

  /** An operation works alone on its reader, which is registered until the operation retires it. */
  ghost predicate OperationOk(s: State, op: nat)
    requires op in s.operations
  {
    var o := s.operations[op];
    && op < s.serial && o.reader in s.readers
    && (var reader := s.readers[o.reader];
        && reader.owner == Some(op) && reader.cursor.None? && !reader.armed && PageOk(o.phase.page)
        && match o.phase
           case Filling(page) => Registered(s, o.reader) && reader.pending.None? && !Full(page)
           case Checking(page, done) =>
             && Registered(s, o.reader)
             && (if done then reader.pending.None? && reader.rest == [] else Ended(reader, page))
           case Returning(_, last) => !Registered(s, o.reader) && (last ==> reader.pending.None? && reader.rest == []))
  }

  /** A registered reader is parked under a cursor or worked on. */
  ghost predicate SessionOk(s: State, session: string)
    requires session in s.sessions
  {
    var r := s.sessions[session];
    r in s.readers && s.readers[r].session == session && (s.readers[r].armed || s.readers[r].owner.Some?)
  }

  ghost predicate Inv(s: State) {
    && |s.sessions| <= MAX_READERS
    && (forall r {:trigger ReaderOk(s, r)} :: r in s.readers ==> ReaderOk(s, r))
    && (forall c {:trigger CursorOk(s, c)} :: c in s.cursors ==> CursorOk(s, c))
    && (forall op {:trigger OperationOk(s, op)} :: op in s.operations ==> OperationOk(s, op))
    && (forall session {:trigger SessionOk(s, session)} :: session in s.sessions ==> SessionOk(s, session))
  }

  // ---------- steps change one reader ----------

  /** `t` differs from `s` only in reader `r`, operation `op`, and the cursors and session entries of `r`. */
  ghost predicate Around(s: State, t: State, r: nat, op: nat) {
    && r in t.readers && s.serial <= t.serial
    && (forall i :: i != r ==>
         (i in t.readers <==> i in s.readers) && (i in s.readers ==> t.readers[i] == s.readers[i]))
    && (forall i :: i != op ==>
         (i in t.operations <==> i in s.operations) && (i in s.operations ==> t.operations[i] == s.operations[i]))
    && (forall c :: (c in t.cursors && t.cursors[c] != r <==> c in s.cursors && s.cursors[c] != r)
                 && (c in s.cursors && s.cursors[c] != r ==> t.cursors[c] == s.cursors[c]))
    && (forall y :: (y in t.sessions && t.sessions[y] != r <==> y in s.sessions && s.sessions[y] != r)
                 && (y in s.sessions && s.sessions[y] != r ==> t.sessions[y] == s.sessions[y]))
    && (r in s.readers ==>
         s.readers[r].session == t.readers[r].session && (s.readers[r].owner.Some? ==> s.readers[r].owner == Some(op)))
    && (op in s.operations ==> s.operations[op].reader == r)
  }

  ghost predicate LocalOk(t: State, r: nat, op: nat)
    requires r in t.readers
  {
    && ReaderOk(t, r)
    && (op in t.operations ==> t.operations[op].reader == r && OperationOk(t, op))
    && (forall c :: c in t.cursors && t.cursors[c] == r ==> CursorOk(t, c))
    && (forall y :: y in t.sessions && t.sessions[y] == r ==> SessionOk(t, y))
    && |t.sessions| <= MAX_READERS
  }

  lemma LocalKeepsInv(s: State, t: State, r: nat, op: nat)
    requires Inv(s) && Around(s, t, r, op) && LocalOk(t, r, op)
    ensures Inv(t)
  {
    forall i | i in t.readers ensures ReaderOk(t, i) {
      if i != r { OtherReader(s, t, r, op, i); }
    }
    forall c | c in t.cursors ensures CursorOk(t, c) {
      if t.cursors[c] != r { OtherCursor(s, t, r, op, c); }
    }
    forall i | i in t.operations ensures OperationOk(t, i) {
      if i != op { OtherOperation(s, t, r, op, i); }
    }
    forall y | y in t.sessions ensures SessionOk(t, y) {
      if t.sessions[y] != r { OtherSession(s, t, r, op, y); }
    }
  }

  lemma OtherReader(s: State, t: State, r: nat, op: nat, i: nat)
    requires Inv(s) && Around(s, t, r, op) && i in t.readers && i != r
    ensures ReaderOk(t, i)
  {
    assert ReaderOk(s, i);
    assert Registered(t, i) <==> Registered(s, i);
  }

  lemma OtherCursor(s: State, t: State, r: nat, op: nat, c: nat)
    requires Inv(s) && Around(s, t, r, op) && c in t.cursors && t.cursors[c] != r
    ensures CursorOk(t, c)
  {
    assert CursorOk(s, c);
  }

  lemma OtherOperation(s: State, t: State, r: nat, op: nat, i: nat)
    requires Inv(s) && Around(s, t, r, op) && i in t.operations && i != op
    ensures OperationOk(t, i)
  {
    assert OperationOk(s, i);
    assert s.operations[i].reader != r;
    assert Registered(t, s.operations[i].reader) <==> Registered(s, s.operations[i].reader);
  }

  lemma OtherSession(s: State, t: State, r: nat, op: nat, y: string)
    requires Inv(s) && Around(s, t, r, op) && y in t.sessions && t.sessions[y] != r
    ensures SessionOk(t, y)
  {
    assert SessionOk(s, y);
  }

  // ---------- pages ----------

  lemma AddKeepsPage(page: Page, batch: Batch)
    requires PageOk(page) && !Overflows(page, batch)
    ensures PageOk(Add(page, batch)) && Add(page, batch).taken != []
  {
    var more := Add(page, batch);
    FlattenSnoc(page.taken, batch);
    assert more.taken[..|more.taken| - 1] == page.taken;
    if page.events == [] {
      assert more.events == more.taken[|more.taken| - 1];
    }
  }

  lemma Regroup<T>(pages: seq<T>, taken: seq<T>, held: seq<T>, rest: seq<T>)
    ensures pages + (taken + (held + rest)) == pages + ((taken + held) + ([] + rest))
    ensures pages + (taken + ([] + rest)) == (pages + taken) + ([] + ([] + rest))
    ensures pages + (taken + (held + rest)) == (pages + taken) + ([] + (held + rest))
  {
    assert [] + rest == rest;
  }

  /** Operation `op` works on the registered reader `r`; everything else is as in `s`. */
  ghost predicate Placed(s: State, u: State, r: nat, op: nat) {
    && Around(s, u, r, op) && |u.sessions| <= MAX_READERS && r < u.serial && op < u.serial
    && op in u.operations && u.operations[op].reader == r && Registered(u, r)
    && (forall c :: c in u.cursors ==> u.cursors[c] != r)
    && (forall y :: y in u.sessions && u.sessions[y] == r ==> y == u.readers[r].session)
  }

  /** `page` is what the operation gathered so far, the reader holds the rest. */
  ghost predicate Stocked(reader: Reader, op: nat, page: Page) {
    && PageOk(page)
    && reader.owner == Some(op) && reader.cursor.None? && !reader.armed
    && Batches(reader.pages) <= reader.origin && PagesOk(reader.pages)
    && reader.origin == Batches(reader.pages) + (page.taken + (Held(reader) + reader.rest))
  }

  ghost predicate Poised(s: State, u: State, r: nat, op: nat, page: Page) {
    Placed(s, u, r, op) && Stocked(u.readers[r], op, page)
  }

  function WithReader(u: State, r: nat, reader: Reader): State {
    u.(readers := u.readers[r := reader])
  }

  lemma PlacedWithReader(s: State, u: State, r: nat, op: nat, reader: Reader)
    requires Placed(s, u, r, op) && reader.session == u.readers[r].session
    ensures Placed(s, WithReader(u, r, reader), r, op)
  {
  }

  function InPhaseOf(u: State, op: nat, phase: Phase): State
    requires op in u.operations
  {
    u.(operations := u.operations[op := u.operations[op].(phase := phase)])
  }

  lemma FillKeepsInv(s: State, u: State, r: nat, op: nat, page: Page)
    requires Inv(s) && Poised(s, u, r, op, page) && u.readers[r].pending.None? && !Full(page)
    ensures Inv(InPhaseOf(u, op, Filling(page)))
  {
    var t := InPhaseOf(u, op, Filling(page));
    assert OperationOk(t, op) && ReaderOk(t, r) && SessionOk(t, t.readers[r].session);
    LocalKeepsInv(s, t, r, op);
  }

  lemma CheckKeepsInv(s: State, u: State, r: nat, op: nat, page: Page, done: bool)
    requires Inv(s) && Poised(s, u, r, op, page)
    requires if done then u.readers[r].pending.None? && u.readers[r].rest == [] else Ended(u.readers[r], page)
    ensures Inv(InPhaseOf(u, op, Checking(page, done)))
  {
    var t := InPhaseOf(u, op, Checking(page, done));
    assert OperationOk(t, op) && ReaderOk(t, r) && SessionOk(t, t.readers[r].session);
    LocalKeepsInv(s, t, r, op);
  }

  lemma RetireIsAround(s: State, u: State, r: nat, op: nat, last: bool)
    requires Around(s, u, r, op) && op in u.operations && u.operations[op].reader == r && r in u.readers
    requires u.readers[r].cursor.None?
    requires u.readers[r].session in u.sessions ==> u.sessions[u.readers[r].session] == r
    ensures Around(s, RetireWith(u, op, last), r, op)
  {
    var t := RetireWith(u, op, last);
    assert t.cursors == u.cursors && t.serial == u.serial;
    assert forall y :: y in t.sessions <==> y in u.sessions && y != u.readers[r].session;
  }

  lemma RetireKeepsInv(s: State, u: State, r: nat, op: nat, page: Page, last: bool)
    requires Inv(s) && Poised(s, u, r, op, page) && u.operations[op].phase.page == page
    requires last ==> u.readers[r].pending.None? && u.readers[r].rest == []
    ensures Inv(RetireWith(u, op, last))
  {
    var t := RetireWith(u, op, last);
    RetireIsAround(s, u, r, op, last);
    CardinalityMonotone(t.sessions.Keys, u.sessions.Keys);
    assert LocalOk(t, r, op) by {
      assert !Registered(t, r);
      assert OperationOk(t, op) && ReaderOk(t, r);
    }
    LocalKeepsInv(s, t, r, op);
  }

  lemma {:induction false} CardinalityMonotone<T>(a: set<T>, b: set<T>)
    requires a <= b
    ensures |a| <= |b|
  {
    assert b == a + (b - a);
  }

  lemma LeaveKeepsInv(s: State, u: State, r: nat, op: nat, page: Page, done: bool)
    requires Inv(s) && Poised(s, u, r, op, page)
    requires if done then u.readers[r].pending.None? && u.readers[r].rest == []
             else u.closing || Ended(u.readers[r], page)
    ensures Inv(Leave(u, op, page, done))
  {
    if u.closing {
      RetireKeepsInv(s, InPhaseOf(u, op, Checking(page, done)), r, op, page, false);
    } else {
      CheckKeepsInv(s, u, r, op, page, done);
    }
  }

  lemma StockAdd(reader: Reader, op: nat, page: Page, batch: Batch)
    requires Stocked(reader.(pending := Some(batch)), op, page) && !Overflows(page, batch)
    ensures Stocked(reader.(pending := None), op, Add(page, batch)) && Add(page, batch).taken != []
  {
    AddKeepsPage(page, batch);
    Regroup(Batches(reader.pages), page.taken, [batch], reader.rest);
  }

  lemma TakeKeepsInv(s: State, u: State, r: nat, op: nat, page: Page, batch: Batch)
    requires Inv(s) && Placed(s, u, r, op) && u.readers[r].pending.None? && !Full(page)
    requires Stocked(u.readers[r].(pending := Some(batch)), op, page)
    ensures Inv(Take(u, op, page, batch))
  {
    if Overflows(page, batch) {
      assert page.taken != [];
      var reader := u.readers[r].(pending := Some(batch));
      PlacedWithReader(s, u, r, op, reader);
      LeaveKeepsInv(s, WithReader(u, r, reader), r, op, page, false);
    } else {
      StockAdd(u.readers[r], op, page, batch);
      if Full(Add(page, batch)) || u.closing {
        LeaveKeepsInv(s, u, r, op, Add(page, batch), false);
      } else {
        FillKeepsInv(s, u, r, op, Add(page, batch));
      }
    }
  }

  // ---------- every step ----------

  lemma OperationIsPoised(s: State, op: nat)
    requires Inv(s) && op in s.operations && !s.operations[op].phase.Returning?
    ensures Poised(s, s, s.operations[op].reader, op, s.operations[op].phase.page)
  {
    var r := s.operations[op].reader;
    assert OperationOk(s, op) && ReaderOk(s, r);
    forall c | c in s.cursors ensures s.cursors[c] != r {
      assert CursorOk(s, c);
    }
    forall y | y in s.sessions && s.sessions[y] == r ensures y == s.readers[r].session {
      assert SessionOk(s, y);
    }
  }

  lemma StockRead(reader: Reader, op: nat, page: Page)
    requires Stocked(reader, op, page) && reader.pending.None? && reader.rest != []
    ensures Stocked(reader.(pending := Some(reader.rest[0]), rest := reader.rest[1..]), op, page)
  {
    assert [] + reader.rest == [reader.rest[0]] + reader.rest[1..];
  }

  lemma BatchedKeepsInv(s: State, op: nat)
    requires Inv(s) && Enabled(s, Batched(op))
    ensures Inv(Next(s, Batched(op)))
  {
    var r, page := s.operations[op].reader, s.operations[op].phase.page;
    OperationIsPoised(s, op);
    assert OperationOk(s, op);
    var reader := s.readers[r];
    var read := reader.(rest := reader.rest[1..]);
    StockRead(reader, op, page);
    PlacedWithReader(s, s, r, op, read);
    TakeKeepsInv(s, WithReader(s, r, read), r, op, page, reader.rest[0]);
  }

  lemma LeavingStepKeepsInv(s: State, step: Step)
    requires Inv(s) && Enabled(s, step) && (step.Drained? || step.SourceFailed?)
    ensures Inv(Next(s, step))
  {
    var op := step.op;
    var r, page := s.operations[op].reader, s.operations[op].phase.page;
    OperationIsPoised(s, op);
    assert OperationOk(s, op);
    if step.Drained? {
      LeaveKeepsInv(s, s, r, op, page, true);
    } else {
      RetireKeepsInv(s, s, r, op, page, false);
    }
  }

  lemma ParkIsAround(s: State, op: nat)
    requires op in s.operations && s.operations[op].reader in s.readers
             && s.readers[s.operations[op].reader].owner == Some(op)
    requires forall c :: c in s.cursors ==> c < s.serial && s.cursors[c] != s.operations[op].reader
    ensures Around(s, Park(s, op), s.operations[op].reader, op)
  {
    var t := Park(s, op);
    assert t.sessions == s.sessions;
    assert t.cursors == s.cursors[s.serial := s.operations[op].reader];
  }

  lemma ParkedReader(s: State, op: nat)
    requires Inv(s) && op in s.operations && s.operations[op].phase.Checking?
    requires OperationOk(s, op) && ReaderOk(s, s.operations[op].reader)
    requires Stocked(s.readers[s.operations[op].reader], op, s.operations[op].phase.page)
    ensures ReaderOk(Park(s, op), s.operations[op].reader)
  {
    PageReturned(s.readers[s.operations[op].reader], op, s.operations[op].phase.page);
  }

  lemma ParkIsLocal(s: State, op: nat)
    requires op in s.operations && s.operations[op].phase.Checking? && s.operations[op].reader in s.readers
    requires Placed(s, s, s.operations[op].reader, op) && ReaderOk(Park(s, op), s.operations[op].reader)
    requires s.readers[s.operations[op].reader].owner == Some(op)
    ensures LocalOk(Park(s, op), s.operations[op].reader, op)
  {
    var r := s.operations[op].reader;
    var t := Park(s, op);
    assert t.cursors == s.cursors[s.serial := r] && t.sessions == s.sessions && op !in t.operations;
    assert CursorOk(t, s.serial);
    assert SessionOk(t, t.readers[r].session);
  }

  lemma ParkKeepsInv(s: State, op: nat)
    requires Inv(s) && op in s.operations && s.operations[op].phase.Checking? && s.operations[op].reader in s.readers
    ensures Inv(Park(s, op))
  {
    OperationIsPoised(s, op);
    assert OperationOk(s, op);
    forall c | c in s.cursors ensures c < s.serial && s.cursors[c] != s.operations[op].reader {
      assert CursorOk(s, c);
    }
    ParkIsAround(s, op);
    ParkedReader(s, op);
    ParkIsLocal(s, op);
    LocalKeepsInv(s, Park(s, op), s.operations[op].reader, op);
  }

  lemma PageReturned(reader: Reader, op: nat, page: Page)
    requires Stocked(reader, op, page)
    ensures var all := Batches(reader.pages + [page]);
            && PagesOk(reader.pages + [page]) && all == Batches(reader.pages) + page.taken && all <= reader.origin
            && reader.origin == all + ([] + (Held(reader) + reader.rest))
            && (reader.pending.None? && reader.rest == [] ==> all == reader.origin)
  {
    assert (reader.pages + [page])[..|reader.pages|] == reader.pages;
    Regroup(Batches(reader.pages), page.taken, Held(reader), reader.rest);
  }

  lemma ProcessedKeepsInv(s: State, op: nat, ok: bool)
    requires Inv(s) && Enabled(s, Processed(op, ok))
    ensures Inv(Next(s, Processed(op, ok)))
  {
    var r, page := s.operations[op].reader, s.operations[op].phase.page;
    OperationIsPoised(s, op);
    assert OperationOk(s, op);
    if !ok || s.operations[op].phase.done {
      RetireKeepsInv(s, s, r, op, page, ok);
    } else {
      ParkKeepsInv(s, op);
    }
  }

  /** A retired reader has no entry left. */
  lemma RetiredIsGone(s: State, op: nat)
    requires Inv(s) && op in s.operations && s.operations[op].phase.Returning?
    ensures var r := s.operations[op].reader;
            && OperationOk(s, op) && ReaderOk(s, r)
            && (forall c :: c in s.cursors ==> s.cursors[c] != r)
            && (forall y :: y in s.sessions ==> s.sessions[y] != r)
  {
    var r := s.operations[op].reader;
    assert OperationOk(s, op);
    forall c | c in s.cursors ensures s.cursors[c] != r {
      assert CursorOk(s, c);
    }
    forall y | y in s.sessions ensures s.sessions[y] != r {
      assert SessionOk(s, y);
    }
  }

  lemma SettledReader(s: State, op: nat)
    requires Inv(s) && op in s.operations && s.operations[op].phase.Returning?
    requires OperationOk(s, op) && ReaderOk(s, s.operations[op].reader)
    ensures var o := s.operations[op];
            && ReaderOk(Settle(s, op), o.reader)
            && (o.phase.last ==> ReaderOk(Yield(s, op), o.reader))
  {
    if s.operations[op].phase.last {
      PageReturned(s.readers[s.operations[op].reader], op, s.operations[op].phase.page);
    }
  }

  lemma SettleIsAround(s: State, op: nat)
    requires op in s.operations && s.operations[op].reader in s.readers
             && s.readers[s.operations[op].reader].owner == Some(op)
    ensures Around(s, Settle(s, op), s.operations[op].reader, op)
            && Around(s, Yield(s, op), s.operations[op].reader, op)
  {
  }

  /** The operation ends after its reader was retired; with a page only when the source was exhausted. */
  lemma SettleKeepsInv(s: State, op: nat)
    requires Inv(s) && op in s.operations && s.operations[op].phase.Returning? && s.operations[op].reader in s.readers
    ensures Inv(if s.operations[op].phase.last then Yield(s, op) else Settle(s, op))
  {
    RetiredIsGone(s, op);
    SettledReader(s, op);
    SettleIsAround(s, op);
    var t := if s.operations[op].phase.last then Yield(s, op) else Settle(s, op);
    LocalKeepsInv(s, t, s.operations[op].reader, op);
  }

  /**
   * The source's return fails after the last page: the reader is retired a second time.  That is harmless
   * exactly when nobody has started a new read of the session in the meantime.
   */
  lemma SecondRetire(s: State, op: nat)
    requires Inv(s) && Enabled(s, Returned(op, false)) && s.operations[op].phase.last
    ensures Inv(Next(s, Returned(op, false))) <==> s.readers[s.operations[op].reader].session !in s.sessions
  {
    var r := s.operations[op].reader;
    var x := s.readers[r].session;
    RetiredIsGone(s, op);
    if x in s.sessions {
      SecondRetireOrphans(s, op);
    } else {
      SecondRetireIsHarmless(s, op);
    }
  }

  lemma RetireElsewhere(s: State, op: nat, other: nat)
    requires op in s.operations && s.operations[op].reader in s.readers && s.operations[op].reader != other
             && other in s.readers
    requires s.readers[s.operations[op].reader].cursor.None?
    ensures var t := RetireWith(s, op, false);
            && t.readers.Keys == s.readers.Keys && t.readers[other] == s.readers[other] && t.cursors == s.cursors
            && s.readers[s.operations[op].reader].session !in t.sessions
            && forall i :: i in s.operations && i != op ==> i in t.operations && t.operations[i] == s.operations[i]
  {
  }

  lemma SecondRetireOrphans(s: State, op: nat)
    requires Inv(s) && op in s.operations && OperationOk(s, op) && ReaderOk(s, s.operations[op].reader)
    requires s.operations[op].phase.Returning? && s.readers[s.operations[op].reader].session in s.sessions
    ensures !Inv(RetireWith(s, op, false))
  {
    var x := s.readers[s.operations[op].reader].session;
    var other := s.sessions[x];
    assert SessionOk(s, x) && ReaderOk(s, other);
    RetireElsewhere(s, op, other);
    Orphaned(s, RetireWith(s, op, false), x);
  }

  lemma SecondRetireIsLocal(s: State, op: nat)
    requires op in s.operations && s.operations[op].phase.Returning?
    requires OperationOk(s, op) && ReaderOk(s, s.operations[op].reader)
    requires s.readers[s.operations[op].reader].session !in s.sessions
    ensures var t := RetireWith(s, op, false);
            && t.sessions == s.sessions && t.cursors == s.cursors
            && OperationOk(t, op) && ReaderOk(t, s.operations[op].reader)
  {
  }

  lemma SecondRetireIsHarmless(s: State, op: nat)
    requires Inv(s) && op in s.operations && s.operations[op].phase.Returning?
    requires s.operations[op].reader in s.readers && s.readers[s.operations[op].reader].session !in s.sessions
    ensures Inv(RetireWith(s, op, false))
  {
    var r := s.operations[op].reader;
    RetiredIsGone(s, op);
    SecondRetireIsLocal(s, op);
    RetireIsAround(s, s, r, op, false);
    LocalKeepsInv(s, RetireWith(s, op, false), r, op);
  }

  /** Forgetting the registration of a reader that is parked or at work breaks the invariant. */
  lemma Orphaned(s: State, t: State, x: string)
    requires Inv(s) && x in s.sessions && s.sessions[x] in s.readers && x !in t.sessions
    requires var r := s.sessions[x];
             && r in t.readers && t.readers[r].session == x
             && (s.readers[r].owner.Some? ==>
                   var op := s.readers[r].owner.value;
                   op in s.operations && op in t.operations && t.operations[op] == s.operations[op])
             && (s.readers[r].owner.None? ==>
                   var c := s.readers[r].cursor;
                   c.Some? ==> c.value in t.cursors && t.cursors[c.value] == r)
    ensures !Inv(t)
  {
    var r := s.sessions[x];
    assert SessionOk(s, x) && ReaderOk(s, r);
    if s.readers[r].owner.Some? {
      var op := s.readers[r].owner.value;
      assert OperationOk(s, op);
      assert !OperationOk(t, op);
    } else {
      assert !CursorOk(t, s.readers[r].cursor.value);
    }
  }

  // ---------- reads, expiry, forget and close ----------

  /** Serial numbers ahead are unused, and a registered reader has one session entry and at most one cursor. */
  lemma Entries(s: State, r: nat)
    requires Inv(s)
    ensures s.serial !in s.readers && s.serial !in s.cursors && s.serial !in s.operations
            && s.serial + 1 !in s.operations
    ensures forall y :: y in s.sessions ==>
              s.sessions[y] < s.serial && (s.sessions[y] == r ==> r in s.readers && y == s.readers[r].session)
    ensures forall c :: c in s.cursors ==>
              s.cursors[c] < s.serial && (s.cursors[c] == r ==> r in s.readers && s.readers[r].cursor == Some(c))
  {
    forall i | i in s.readers ensures i < s.serial {
      assert ReaderOk(s, i);
    }
    forall op | op in s.operations ensures op < s.serial {
      assert OperationOk(s, op);
    }
    forall c | c in s.cursors ensures c < s.serial {
      assert CursorOk(s, c);
    }
    forall y | y in s.sessions
      ensures s.sessions[y] < s.serial && (s.sessions[y] == r ==> r in s.readers && y == s.readers[r].session)
    {
      assert SessionOk(s, y) && ReaderOk(s, s.sessions[y]);
    }
    forall c | c in s.cursors
      ensures s.cursors[c] < s.serial && (s.cursors[c] == r ==> r in s.readers && s.readers[r].cursor == Some(c))
    {
      assert CursorOk(s, c) && ReaderOk(s, s.cursors[c]);
    }
  }

  /** Everything but `r` is as in `s`, and `r` is registered without a cursor. */
  ghost predicate Free(s: State, u: State, r: nat) {
    && Around(s, u, r, u.serial) && |u.sessions| <= MAX_READERS && r < u.serial && u.serial !in u.operations
       && Registered(u, r)
    && (forall c :: c in u.cursors ==> u.cursors[c] != r)
    && (forall y :: y in u.sessions && u.sessions[y] == r ==> y == u.readers[r].session)
  }

  /** Nobody works on the reader and it holds everything its pages do not. */
  ghost predicate Idle(reader: Reader) {
    && reader.owner.None? && reader.cursor.None? && !reader.armed
    && Batches(reader.pages) <= reader.origin && PagesOk(reader.pages)
    && reader.origin == Batches(reader.pages) + (Held(reader) + reader.rest)
  }

  lemma StartIsPlaced(s: State, u: State, r: nat)
    requires Free(s, u, r) && u.serial !in s.operations && (r in s.readers ==> s.readers[r].owner.None?)
    ensures Placed(s, Start(u, r), r, u.serial)
  {
  }

  lemma BeginsStocked(reader: Reader, op: nat)
    requires Idle(reader)
    ensures Stocked(reader.(owner := Some(op)), op, EMPTY)
  {
    assert EMPTY.taken + (Held(reader) + reader.rest) == Held(reader) + reader.rest;
  }

  lemma BeginKeepsInv(s: State, u: State, r: nat)
    requires Inv(s) && Free(s, u, r) && Idle(u.readers[r])
    requires u.serial !in s.operations && (r in s.readers ==> s.readers[r].owner.None?)
    ensures Inv(Begin(u, r))
  {
    var reader, op := u.readers[r], u.serial;
    BeginsStocked(reader, op);
    StartIsPlaced(s, u, r);
    if reader.pending.Some? {
      BeginWithPending(s, Start(u, r), r, op, reader);
    } else {
      BeginFilling(s, Start(u, r), r, op, reader);
    }
  }

  lemma BeginWithPending(s: State, t: State, r: nat, op: nat, reader: Reader)
    requires Inv(s) && Placed(s, t, r, op) && Stocked(reader.(owner := Some(op)), op, EMPTY) && reader.pending.Some?
    requires t.readers[r] == reader.(pending := None, owner := Some(op))
    ensures Inv(Take(t, op, EMPTY, reader.pending.value))
  {
    assert t.readers[r].(pending := reader.pending) == reader.(owner := Some(op));
    TakeKeepsInv(s, t, r, op, EMPTY, reader.pending.value);
  }

  lemma BeginFilling(s: State, t: State, r: nat, op: nat, reader: Reader)
    requires Inv(s) && Placed(s, t, r, op) && Stocked(reader.(owner := Some(op)), op, EMPTY) && reader.pending.None?
    requires t.readers[r] == reader.(pending := None, owner := Some(op))
    requires t.operations[op] == Operation(r, Filling(EMPTY))
    ensures Inv(t)
  {
    assert t.readers[r] == reader.(owner := Some(op));
    FillKeepsInv(s, t, r, op, EMPTY);
    assert InPhaseOf(t, op, Filling(EMPTY)) == t;
  }

  lemma UnparkIsAround(s: State, cursor: nat)
    requires cursor in s.cursors && s.cursors[cursor] in s.readers && s.readers[s.cursors[cursor]].owner.None?
             && s.serial !in s.operations
    ensures Around(s, Unpark(s, cursor), s.cursors[cursor], s.serial)
  {
  }

  lemma UnparkIsIdle(s: State, cursor: nat)
    requires Inv(s) && cursor in s.cursors && s.cursors[cursor] in s.readers
    ensures s.readers[s.cursors[cursor]].owner.None? && Registered(s, s.cursors[cursor])
    ensures Idle(Unpark(s, cursor).readers[s.cursors[cursor]])
  {
    var r := s.cursors[cursor];
    assert CursorOk(s, cursor) && ReaderOk(s, r);
    assert [] + (Held(s.readers[r]) + s.readers[r].rest) == Held(s.readers[r]) + s.readers[r].rest;
  }

  lemma UnparkIsFree(s: State, cursor: nat)
    requires Inv(s) && cursor in s.cursors && s.cursors[cursor] in s.readers
    ensures Free(s, Unpark(s, cursor), s.cursors[cursor])
  {
    UnparkIsIdle(s, cursor);
    Entries(s, s.cursors[cursor]);
    UnparkIsAround(s, cursor);
  }

  lemma RegisterIsAround(s: State, session: string, source: seq<Batch>)
    requires session !in s.sessions && s.serial !in s.readers && s.serial + 1 !in s.operations
    requires forall y :: y in s.sessions ==> s.sessions[y] < s.serial
    requires forall c :: c in s.cursors ==> s.cursors[c] < s.serial
    ensures var u := Register(s, session, source); Around(s, u, s.serial, u.serial)
  {
  }

  lemma RegisterIsFree(s: State, session: string, source: seq<Batch>)
    requires Inv(s) && session !in s.sessions && |s.sessions| < MAX_READERS
    ensures Free(s, Register(s, session, source), s.serial)
  {
    Entries(s, s.serial);
    RegisterIsAround(s, session, source);
  }

  lemma RegisterIsIdle(s: State, session: string, source: seq<Batch>)
    ensures Idle(Register(s, session, source).readers[s.serial])
  {
    assert [] + ([] + source) == source;
  }

  lemma ReadKeepsInv(s: State, step: Step)
    requires Inv(s) && step.Read? && Accepts(s, step)
    ensures Inv(StartRead(s, step))
  {
    if step.cursor.Some? {
      var c := step.cursor.value;
      UnparkIsIdle(s, c);
      UnparkIsFree(s, c);
      Entries(s, s.cursors[c]);
      BeginKeepsInv(s, Unpark(s, c), s.cursors[c]);
    } else {
      RegisterIsFree(s, step.session, step.source);
      RegisterIsIdle(s, step.session, step.source);
      Entries(s, s.serial);
      BeginKeepsInv(s, Register(s, step.session, step.source), s.serial);
    }
  }

  lemma RetireParkedIsAround(s: State, r: nat)
    requires Registered(s, r) && s.readers[r].owner.None? && s.serial !in s.operations
    requires forall y :: y in s.sessions && s.sessions[y] == r ==> y == s.readers[r].session
    requires s.readers[r].cursor.Some? ==> s.readers[r].cursor.value in s.cursors ==>
               s.cursors[s.readers[r].cursor.value] == r
    ensures Around(s, Retire(s, r), r, s.serial)
  {
  }

  /** Retiring a parked reader, by expiry or by `forget`. */
  lemma RetireParkedKeepsInv(s: State, r: nat)
    requires Inv(s) && Registered(s, r) && s.readers[r].owner.None?
    ensures Inv(Retire(s, r))
  {
    var t := Retire(s, r);
    assert ReaderOk(s, r) && SessionOk(s, s.readers[r].session);
    Entries(s, r);
    RetireParkedIsAround(s, r);
    CardinalityMonotone(t.sessions.Keys, s.sessions.Keys);
    assert ReaderOk(t, r);
    LocalKeepsInv(s, t, r, s.serial);
  }

  lemma CloseClearsCursors(s: State, k: nat)
    requires Inv(s) && Enabled(s, CloseRetire(k))
    ensures Next(s, CloseRetire(k)).cursors == map[]
  {
    forall c | c in s.cursors ensures RetiredAtClose(s, s.cursors[c], c) {
      assert CursorOk(s, c);
      assert s.readers[s.cursors[c]].session in s.sessions;
    }
  }

  lemma CloseRetireReader(s: State, k: nat, r: nat)
    requires Inv(s) && Enabled(s, CloseRetire(k)) && r in s.readers
    requires forall x :: x in s.sessions && s.sessions[x] in s.readers ==> s.readers[s.sessions[x]].owner.None?
    ensures ReaderOk(Next(s, CloseRetire(k)), r)
  {
    assert ReaderOk(s, r);
    if s.readers[r].armed {
      assert CursorOk(s, s.readers[r].cursor.value);
    }
  }

  lemma CloseRetireOperation(s: State, k: nat, op: nat)
    requires Inv(s) && Enabled(s, CloseRetire(k)) && op in s.operations
    requires forall x :: x in s.sessions && s.sessions[x] in s.readers ==> s.readers[s.sessions[x]].owner.None?
    ensures OperationOk(Next(s, CloseRetire(k)), op)
  {
    assert OperationOk(s, op);
    assert !Registered(s, s.operations[op].reader);
  }

  lemma CloseRetireKeepsInv(s: State, k: nat)
    requires Inv(s) && Enabled(s, CloseRetire(k))
    requires forall x :: x in s.sessions && s.sessions[x] in s.readers ==> s.readers[s.sessions[x]].owner.None?
    ensures Inv(Next(s, CloseRetire(k)))
  {
    CloseClearsCursors(s, k);
    var t := Next(s, CloseRetire(k));
    assert t.readers.Keys == s.readers.Keys && t.operations == s.operations && t.sessions == map[];
    forall r | r in t.readers ensures ReaderOk(t, r) {
      CloseRetireReader(s, k, r);
    }
    forall op | op in t.operations ensures OperationOk(t, op) {
      CloseRetireOperation(s, k, op);
    }
  }

  // ---------- every step, and when it is safe ----------

  /** The only steps that can break the invariant, and what must hold for them not to. */
  ghost predicate Safe(s: State, step: Step)
    requires Enabled(s, step)
  {
    match step
    case Returned(op, ok) =>
        s.operations[op].phase.last && !ok ==> s.readers[s.operations[op].reader].session !in s.sessions
    case ForgetRetire(k) =>
      var x := s.forgetting[k].session;
      x in s.sessions && s.sessions[x] in s.readers ==> s.readers[s.sessions[x]].owner.None?
    case CloseRetire(_) =>
        forall x :: x in s.sessions && s.sessions[x] in s.readers ==> s.readers[s.sessions[x]].owner.None?
    case _ => true
  }

  lemma ForgetRetireKeepsInv(s: State, k: nat)
    requires Inv(s) && Enabled(s, ForgetRetire(k))
    ensures Inv(Next(s, ForgetRetire(k))) <==> Safe(s, ForgetRetire(k))
  {
    var x, u := s.forgetting[k].session, s.(forgetting := s.forgetting - {k});
    FlagsKeepInv(s, u);
    if x in s.sessions {
      var r := s.sessions[x];
      assert SessionOk(s, x);
      if s.readers[r].owner.None? {
        RetireParkedKeepsInv(u, r);
      } else {
        assert ReaderOk(s, r);
        Orphaned(s, Next(s, ForgetRetire(k)), x);
      }
    }
  }

  lemma FlagsKeepInv(s: State, t: State)
    requires Inv(s)
    requires t.cursors == s.cursors && t.sessions == s.sessions && t.readers == s.readers
             && t.operations == s.operations && s.serial <= t.serial
    ensures Inv(t)
  {
    forall r | r in t.readers ensures ReaderOk(t, r) {
      assert ReaderOk(s, r);
    }
    forall c | c in t.cursors ensures CursorOk(t, c) {
      assert CursorOk(s, c);
    }
    forall op | op in t.operations ensures OperationOk(t, op) {
      assert OperationOk(s, op);
    }
    forall x | x in t.sessions ensures SessionOk(t, x) {
      assert SessionOk(s, x);
    }
  }

  lemma CloseRetireExactly(s: State, k: nat)
    requires Inv(s) && Enabled(s, CloseRetire(k))
    ensures Inv(Next(s, CloseRetire(k))) <==> Safe(s, CloseRetire(k))
  {
    if Safe(s, CloseRetire(k)) {
      CloseRetireKeepsInv(s, k);
    } else {
      var x :| x in s.sessions && s.sessions[x] in s.readers && s.readers[s.sessions[x]].owner.Some?;
      assert SessionOk(s, x) && ReaderOk(s, s.sessions[x]);
      Orphaned(s, Next(s, CloseRetire(k)), x);
    }
  }

  lemma ExpiryKeepsInv(s: State, r: nat)
    requires Inv(s) && Enabled(s, Expired(r))
    ensures Inv(Next(s, Expired(r)))
  {
    assert ReaderOk(s, r);
    assert CursorOk(s, s.readers[r].cursor.value);
    RetireParkedKeepsInv(s, r);
  }

  /** A step keeps the invariant if and only if it is safe. */
  lemma StepKeepsInvExactly(s: State, step: Step)
    requires Inv(s) && Enabled(s, step)
    ensures Inv(Next(s, step)) <==> Safe(s, step)
  {
    match step
    case Open => FlagsKeepInv(s, Next(s, step));
    case Forget(_) => FlagsKeepInv(s, Next(s, step));
    case Close => FlagsKeepInv(s, Next(s, step));
    case Read(_, _, _) => if Accepts(s, step) { ReadKeepsInv(s, step); }
    case Batched(op) => BatchedKeepsInv(s, op);
    case Drained(_) => LeavingStepKeepsInv(s, step);
    case SourceFailed(_) => LeavingStepKeepsInv(s, step);
    case Processed(op, ok) => ProcessedKeepsInv(s, op, ok);
    case Returned(op, ok) =>
        if s.operations[op].phase.last && !ok { SecondRetire(s, op); } else { SettleKeepsInv(s, op); }
    case Expired(r) => ExpiryKeepsInv(s, r);
    case ForgetRetire(k) => ForgetRetireKeepsInv(s, k);
    case CloseRetire(k) => CloseRetireExactly(s, k);
  }

  /** Any sequence of enabled steps. */
  ghost predicate Runs(s: State, steps: seq<Step>, t: State)
    decreases |steps|
  {
    if steps == [] then s == t else Enabled(s, steps[0]) && Runs(Next(s, steps[0]), steps[1..], t)
  }

  /** Every step of the run is safe. */
  ghost predicate AllSafe(s: State, steps: seq<Step>)
    decreases |steps|
  {
    steps == [] || (Enabled(s, steps[0]) && Safe(s, steps[0]) && AllSafe(Next(s, steps[0]), steps[1..]))
  }

  /** Every state of the run has the invariant. */
  ghost predicate AllInv(s: State, steps: seq<Step>)
    decreases |steps|
  {
    Inv(s) && (steps == [] || (Enabled(s, steps[0]) && AllInv(Next(s, steps[0]), steps[1..])))
  }

  /** A run has the invariant throughout if and only if each of its steps is safe. */
  lemma {:induction false} RunKeepsInvExactly(s: State, steps: seq<Step>, t: State)
    requires Inv(s) && Runs(s, steps, t)
    ensures AllInv(s, steps) <==> AllSafe(s, steps)
    decreases |steps|
  {
    if steps != [] {
      var u := Next(s, steps[0]);
      StepKeepsInvExactly(s, steps[0]);
      if Inv(u) {
        RunKeepsInvExactly(u, steps[1..], t);
      } else {
        assert !AllInv(u, steps[1..]);
      }
    }
  }

  // ---------- disciplined use ----------

  /** What the callers owe: no read is started for a session that is being forgotten, or while a `close` waits. */
  ghost predicate Disciplined(s: State, step: Step) {
    step.Read? && Accepts(s, step) ==> s.closers == map[] && forall k :: k in s.forgetting ==>
        s.forgetting[k].session != step.session
  }

  /** What an async generator guarantees: once it has reported its end, its return does not fail. */
  predicate Generated(s: State, step: Step)
    requires Enabled(s, step)
  {
    step.Returned? && s.operations[step.op].phase.last ==> step.ok
  }

  /** The operation is a page of the session. */
  predicate Serves(s: State, op: nat, session: string) {
    op in s.operations && s.operations[op].reader in s.readers && s.readers[s.operations[op].reader].session == session
  }

  /** `forget` and `close` wait for every operation that concerns them. */
  ghost predicate Awaited(s: State) {
    && (forall k, op :: k in s.forgetting && Serves(s, op, s.forgetting[k].session) ==>
         op in s.forgetting[k].operations)
    && (forall k :: k in s.closers ==> s.operations.Keys <= s.closers[k])
  }

  /** No operation is new, and those that are left serve the session they served. */
  ghost predicate Descends(s: State, t: State) {
    && t.operations.Keys <= s.operations.Keys
    && forall op, x :: Serves(t, op, x) ==> Serves(s, op, x)
  }

  lemma PhaseDescends(s: State, op: nat, phase: Phase)
    requires op in s.operations
    ensures Descends(s, InPhaseOf(s, op, phase))
  {
  }

  lemma ReaderDescends(s: State, r: nat, reader: Reader)
    requires r in s.readers && reader.session == s.readers[r].session
    ensures Descends(s, WithReader(s, r, reader))
  {
  }

  lemma RetireDescends(s: State, op: nat, last: bool)
    requires op in s.operations && s.operations[op].reader in s.readers
    ensures Descends(s, RetireWith(s, op, last))
  {
    var r := s.operations[op].reader;
    var u := WithReader(s, r, s.readers[r].(armed := false));
    ReaderDescends(s, r, u.readers[r]);
    PhaseDescends(u, op, Returning(s.operations[op].phase.page, last));
  }

  lemma LeaveDescends(s: State, op: nat, page: Page, done: bool)
    requires op in s.operations && s.operations[op].reader in s.readers
    ensures Descends(s, Leave(s, op, page, done))
  {
    PhaseDescends(s, op, Checking(page, done));
    if s.closing {
      RetireDescends(InPhaseOf(s, op, Checking(page, done)), op, false);
    }
  }

  lemma TakeDescends(s: State, op: nat, page: Page, batch: Batch)
    requires op in s.operations && s.operations[op].reader in s.readers
    ensures Descends(s, Take(s, op, page, batch))
  {
    var r := s.operations[op].reader;
    if Overflows(page, batch) {
      var held := s.readers[r].(pending := Some(batch));
      ReaderDescends(s, r, held);
      LeaveDescends(WithReader(s, r, held), op, page, false);
    } else if Full(Add(page, batch)) || s.closing {
      LeaveDescends(s, op, Add(page, batch), false);
    } else {
      PhaseDescends(s, op, Filling(Add(page, batch)));
    }
  }

  lemma SettleDescends(s: State, op: nat)
    requires op in s.operations && s.operations[op].reader in s.readers
    ensures Descends(s, Settle(s, op)) && Descends(s, Yield(s, op))
  {
    var t := Settle(s, op);
    var r := s.operations[op].reader;
    assert forall i, x :: Serves(t, i, x) ==> Serves(s, i, x);
    ReaderDescends(t, r, Yield(s, op).readers[r]);
  }

  lemma ParkDescends(s: State, op: nat)
    requires op in s.operations && s.operations[op].reader in s.readers
    ensures Descends(s, Park(s, op))
  {
    SettleDescends(s, op);
    var t, r := Yield(s, op), s.operations[op].reader;
    ReaderDescends(t, r, Park(s, op).readers[r]);
  }

  lemma RetirementsDescend(s: State, step: Step)
    requires Enabled(s, step) && (step.Expired? || step.ForgetRetire? || step.CloseRetire?)
    ensures Descends(s, Next(s, step))
  {
    var t := Next(s, step);
    assert t.operations == s.operations;
    assert forall r :: r in t.readers ==> r in s.readers && t.readers[r].session == s.readers[r].session;
  }

  lemma BatchedDescends(s: State, op: nat)
    requires Enabled(s, Batched(op))
    ensures Descends(s, Next(s, Batched(op)))
  {
    var r := s.operations[op].reader;
    var reader := s.readers[r].(rest := s.readers[r].rest[1..]);
    ReaderDescends(s, r, reader);
    TakeDescends(WithReader(s, r, reader), op, s.operations[op].phase.page, s.readers[r].rest[0]);
  }

  lemma StepDescends(s: State, step: Step)
    requires Enabled(s, step) && !step.Read?
    ensures Descends(s, Next(s, step))
  {
    match step
    case Batched(op) => BatchedDescends(s, op);
    case Drained(op) => LeaveDescends(s, op, s.operations[op].phase.page, true);
    case SourceFailed(op) => RetireDescends(s, op, false);
    case Processed(op, ok) => RetireDescends(s, op, ok); ParkDescends(s, op);
    case Returned(op, ok) => RetireDescends(s, op, false); SettleDescends(s, op);
    case Expired(_) => RetirementsDescend(s, step);
    case ForgetRetire(_) => RetirementsDescend(s, step);
    case CloseRetire(_) => RetirementsDescend(s, step);
    case _ =>
  }

  /** No operation but the new one, which serves `session`. */
  ghost predicate Begins(s: State, t: State, session: string) {
    && t.forgetting == s.forgetting && t.closers == s.closers && t.closing == s.closing
    && forall op, x :: Serves(t, op, x) ==> Serves(s, op, x) || x == session
  }

  lemma StartBegins(s: State, r: nat)
    requires r in s.readers
    ensures Begins(s, Start(s, r), s.readers[r].session)
  {
  }

  lemma BeginBegins(s: State, r: nat)
    requires r in s.readers
    ensures Begins(s, Begin(s, r), s.readers[r].session)
  {
    StartBegins(s, r);
    if s.readers[r].pending.Some? {
      TakeDescends(Start(s, r), s.serial, EMPTY, s.readers[r].pending.value);
      TakeKeepsFlags(Start(s, r), s.serial, EMPTY, s.readers[r].pending.value);
    }
  }

  lemma TakeKeepsFlags(s: State, op: nat, page: Page, batch: Batch)
    requires op in s.operations && s.operations[op].reader in s.readers
    ensures var t := Take(s, op, page, batch);
            t.forgetting == s.forgetting && t.closers == s.closers && t.closing == s.closing
  {
  }

  lemma RegisterBegins(s: State, session: string, source: seq<Batch>)
    requires Inv(s)
    ensures Begins(s, Register(s, session, source), session)
  {
    var t := Register(s, session, source);
    forall op, x | Serves(t, op, x) ensures Serves(s, op, x) {
      assert OperationOk(s, op);
      Entries(s, s.serial);
    }
  }

  lemma StartReadBegins(s: State, step: Step)
    requires Inv(s) && step.Read? && Accepts(s, step)
    ensures Begins(s, StartRead(s, step), step.session)
  {
    if step.cursor.Some? {
      var r := s.cursors[step.cursor.value];
      var u := Unpark(s, step.cursor.value);
      ReaderDescends(s, r, u.readers[r]);
      assert Begins(s, u, step.session);
      BeginBegins(u, r);
    } else {
      RegisterBegins(s, step.session, step.source);
      BeginBegins(Register(s, step.session, step.source), s.serial);
    }
  }

  predicate SameFlags(s: State, t: State) {
    t.forgetting == s.forgetting && t.closers == s.closers && t.closing == s.closing
  }

  lemma BatchedKeepsFlags(s: State, op: nat)
    requires Enabled(s, Batched(op))
    ensures SameFlags(s, Next(s, Batched(op)))
  {
    var r := s.operations[op].reader;
    var reader := s.readers[r].(rest := s.readers[r].rest[1..]);
    TakeKeepsFlags(WithReader(s, r, reader), op, s.operations[op].phase.page, s.readers[r].rest[0]);
  }

  lemma RetireKeepsFlags(s: State, op: nat, last: bool)
    requires op in s.operations && s.operations[op].reader in s.readers
    ensures SameFlags(s, RetireWith(s, op, last)) && SameFlags(s, Settle(s, op)) && SameFlags(s, Yield(s, op))
            && SameFlags(s, Park(s, op))
  {
  }

  /** Apart from reads, `forget` and `close`, steps leave the waits and the flag alone. */
  lemma StepKeepsFlags(s: State, step: Step)
    requires Enabled(s, step)
    requires step.Batched? || step.Drained? || step.SourceFailed? || step.Processed? || step.Returned? || step.Expired?
    ensures SameFlags(s, Next(s, step))
  {
    match step
    case Batched(op) => BatchedKeepsFlags(s, op);
    case SourceFailed(op) => RetireKeepsFlags(s, op, false);
    case Processed(op, ok) => RetireKeepsFlags(s, op, ok);
    case Returned(op, _) => RetireKeepsFlags(s, op, false);
    case _ =>
  }

  lemma StepKeepsAwaited(s: State, step: Step)
    requires Inv(s) && Awaited(s) && Enabled(s, step) && Disciplined(s, step)
    ensures Awaited(Next(s, step))
  {
    if step.Read? {
      if Accepts(s, step) {
        StartReadBegins(s, step);
      }
    } else {
      StepDescends(s, step);
      if !step.Open? && !step.Forget? && !step.ForgetRetire? && !step.Close? && !step.CloseRetire? {
        StepKeepsFlags(s, step);
      }
    }
  }

  lemma DisciplineIsSafe(s: State, step: Step)
    requires Inv(s) && Awaited(s) && Enabled(s, step) && Generated(s, step)
    ensures Safe(s, step)
  {
    forall x | x in s.sessions && s.sessions[x] in s.readers && s.readers[s.sessions[x]].owner.Some?
      ensures s.readers[s.sessions[x]].owner.value in s.operations
      ensures s.operations[s.readers[s.sessions[x]].owner.value].reader == s.sessions[x]
    {
      assert SessionOk(s, x) && ReaderOk(s, s.sessions[x]);
    }
    forall x | x in s.sessions ensures s.sessions[x] in s.readers && s.readers[s.sessions[x]].session == x {
      assert SessionOk(s, x);
    }
  }

  ghost predicate Follows(s: State, steps: seq<Step>, t: State)
    decreases |steps|
  {
    if steps == [] then s == t
    else
      && Enabled(s, steps[0]) && Generated(s, steps[0]) && Disciplined(s, steps[0])
      && Follows(Next(s, steps[0]), steps[1..], t)
  }

  lemma {:induction false} RunKeepsInv(s: State, steps: seq<Step>, t: State)
    requires Inv(s) && Awaited(s) && Follows(s, steps, t)
    ensures Inv(t) && Awaited(t)
    decreases |steps|
  {
    if steps != [] {
      DisciplineIsSafe(s, steps[0]);
      StepKeepsInvExactly(s, steps[0]);
      StepKeepsAwaited(s, steps[0]);
      RunKeepsInv(Next(s, steps[0]), steps[1..], t);
    }
  }

  ghost predicate Reachable(s: State) {
    exists steps :: Follows(INITIAL, steps, s)
  }

  lemma ReachableInv(s: State)
    requires Reachable(s)
    ensures Inv(s) && Awaited(s)
  {
    var steps :| Follows(INITIAL, steps, s);
    RunKeepsInv(INITIAL, steps, s);
  }

  /**
   * With such callers and sources a cursor names a registered reader, and a registered reader is parked under the
   * one cursor that names it or is worked on by one operation, never both.
   */
  lemma RegisteredIsInUse(s: State)
    requires Reachable(s)
    ensures forall c :: c in s.cursors ==> Registered(s, s.cursors[c])
    ensures forall x :: x in s.sessions ==>
              var parked := exists c :: c in s.cursors && s.cursors[c] == s.sessions[x];
              var worked := exists op :: op in s.operations && s.operations[op].reader == s.sessions[x];
              parked != worked
  {
    ReachableInv(s);
    forall c | c in s.cursors ensures Registered(s, s.cursors[c]) {
      assert CursorOk(s, c);
    }
    forall x | x in s.sessions
      ensures var parked := exists c :: c in s.cursors && s.cursors[c] == s.sessions[x];
              var worked := exists op :: op in s.operations && s.operations[op].reader == s.sessions[x];
              parked != worked
    {
      assert SessionOk(s, x) && ReaderOk(s, s.sessions[x]);
      forall c, op | c in s.cursors && op in s.operations ensures s.cursors[c] != s.operations[op].reader {
        assert CursorOk(s, c) && OperationOk(s, op);
      }
    }
  }

  /** When `close` retires the readers, nothing is left registered, parked or running. */
  lemma CloseEmptiesEverything(s: State, k: nat)
    requires Reachable(s) && Enabled(s, CloseRetire(k))
    ensures var t := Next(s, CloseRetire(k)); t.sessions == map[] && t.cursors == map[] && t.operations == map[]
  {
    ReachableInv(s);
    CloseClearsCursors(s, k);
    assert s.operations.Keys == {};
  }

  // ---------- a read while a close waits ----------

  /** The reader was reopened while a `close` waits, and a read has started. */
  function Reopened(): State {
    State(map[], map["a" := 1], map[1 := Reader("a", [], None, None, false, Some(2), [], [])],
          map[2 := Operation(1, Filling(EMPTY))], false, 3, map[], map[0 := {}])
  }

  lemma ReopenedIs()
    ensures Next(Next(INITIAL, Close), Open) == State(map[], map[], map[], map[], false, 1, map[], map[0 := {}])
    ensures Next(Next(Next(INITIAL, Close), Open), Read("a", None, [])) == Reopened()
  {
    assert INITIAL.operations.Keys == {};
    assert Next(Next(INITIAL, Close), Open) == State(map[], map[], map[], map[], false, 1, map[], map[0 := {}]);
  }

  /** The read loses its registration when that `close` goes on. */
  lemma ReopenedWhileClosing()
    ensures var b := Next(Next(INITIAL, Close), Open);
            && !Disciplined(b, Read("a", None, [])) && Next(b, Read("a", None, [])) == Reopened()
            && Enabled(Reopened(), CloseRetire(0))
    ensures var t := Next(Reopened(), CloseRetire(0)); 2 in t.operations && t.sessions == map[] && !Inv(t)
  {
    ReopenedIs();
    assert !OperationOk(Next(Reopened(), CloseRetire(0)), 2);
  }

  // ---------- a source that fails to return after its end ----------

  lemma RunsThen(s: State, step: Step, steps: seq<Step>, t: State)
    requires Enabled(s, step) && Runs(Next(s, step), steps, t)
    ensures Runs(s, [step] + steps, t)
  {
    assert ([step] + steps)[1..] == steps;
  }

  /** Twice the same session; the first source fails to return when the second read is under way. */
  function StaleReturn(big: Batch): seq<Step> {
    [Read("a", None, [])] + ([Drained(1)] + ([Processed(1, true)] + ([Read("a", None, [big])] + ([Returned(1, false)] +
    ([Returned(1, true)] + ([Batched(3)] + ([Processed(3, true)] + ([Close] + []))))))))
  }

  function AfterFirst(): State {
    State(map[], map[], map[0 := Reader("a", [], None, None, false, Some(1), [], [])],
          map[1 := Operation(0, Returning(EMPTY, true))], false, 2, map[], map[])
  }

  lemma FirstRead()
    ensures var s := Next(INITIAL, Read("a", None, []));
            Enabled(s, Drained(1)) && Enabled(Next(s, Drained(1)), Processed(1, true))
            && Next(Next(s, Drained(1)), Processed(1, true)) == AfterFirst()
  {
    var s := Next(INITIAL, Read("a", None, []));
    assert s == State(map[], map["a" := 0], map[0 := Reader("a", [], None, None, false, Some(1), [], [])],
                      map[1 := Operation(0, Filling(EMPTY))], false, 2, map[], map[]);
  }

  function AfterStale(big: Batch): State {
    State(map[], map[],
        map[0 := Reader("a", [], None, None, false, None, [], []),
            2 := Reader("a", [big], None, None, false, Some(3), [big], [])],
          map[3 := Operation(2, Filling(EMPTY))], false, 4, map[], map[])
  }

  /** The second read is under way when the first source fails to return. */
  function Reading(big: Batch, last: bool, sessions: map<string, nat>): State {
    State(map[], sessions,
          map[0 := Reader("a", [], None, None, false, Some(1), [], []),
              2 := Reader("a", [big], None, None, false, Some(3), [big], [])],
          map[1 := Operation(0, Returning(EMPTY, last)), 3 := Operation(2, Filling(EMPTY))], false, 4, map[], map[])
  }

  lemma SecondReadStarts(big: Batch)
    ensures Next(AfterFirst(), Read("a", None, [big])) == Reading(big, true, map["a" := 2])
  {
    assert Accepts(AfterFirst(), Read("a", None, [big]));
  }

  lemma FirstReturnFails(big: Batch)
    ensures Enabled(Reading(big, true, map["a" := 2]), Returned(1, false))
    ensures Next(Reading(big, true, map["a" := 2]), Returned(1, false)) == Reading(big, false, map[])
  {
    assert map["a" := 2 as nat] - {"a"} == map[];
  }

  lemma FirstSettles(big: Batch)
    ensures Enabled(Reading(big, false, map[]), Returned(1, true))
            && Next(Reading(big, false, map[]), Returned(1, true)) == AfterStale(big)
  {
    assert AfterStale(big).operations == Reading(big, false, map[]).operations - {1};
  }

  lemma SecondRead(big: Batch)
    ensures var read := Next(AfterFirst(), Read("a", None, [big]));
            Enabled(read, Returned(1, false)) && Enabled(Next(read, Returned(1, false)), Returned(1, true))
            && Next(Next(read, Returned(1, false)), Returned(1, true)) == AfterStale(big)
  {
    SecondReadStarts(big);
    FirstReturnFails(big);
    FirstSettles(big);
  }

  lemma CursorSurvives(big: Batch)
    requires |big| == PAGE_EVENTS
    ensures var s := AfterStale(big);
            Enabled(s, Batched(3)) && Enabled(Next(s, Batched(3)), Processed(3, true))
            && (var t := Next(Next(Next(s, Batched(3)), Processed(3, true)), Close);
                Enabled(t, CloseRetire(5)) && 4 in Next(t, CloseRetire(5)).cursors)
  {
    var page := Add(EMPTY, big);
    assert Full(page);
    var s := Next(AfterStale(big), Batched(3));
    assert s.operations[3] == Operation(2, Checking(page, false));
    var t := Next(Next(s, Processed(3, true)), Close);
    assert t.operations.Keys == {} && t.sessions == map[] && 4 in t.cursors;
  }

  /** A hand-written iterator can violate `Generated`, and then a cursor can outlive `close`. */
  lemma StaleReturnLeavesCursor(big: Batch)
    requires |big| == PAGE_EVENTS
    ensures exists t ::
              && Runs(INITIAL, StaleReturn(big), t) && Enabled(t, CloseRetire(5))
              && Next(t, CloseRetire(5)).cursors != map[]
  {
    FirstRead();
    SecondRead(big);
    CursorSurvives(big);
    var s := AfterStale(big);
    var t := Next(Next(Next(s, Batched(3)), Processed(3, true)), Close);
    StaleReturnEnd(big);
    StaleReturnStart(big, [Batched(3)] + ([Processed(3, true)] + ([Close] + [])), t);
  }

  lemma StaleReturnEnd(big: Batch)
    requires |big| == PAGE_EVENTS
    ensures var s := AfterStale(big);
            Enabled(s, Batched(3)) && Enabled(Next(s, Batched(3)), Processed(3, true))
            && Runs(s, [Batched(3)] + ([Processed(3, true)] + ([Close] + [])),
                    Next(Next(Next(s, Batched(3)), Processed(3, true)), Close))
  {
    CursorSurvives(big);
    var s := AfterStale(big);
    var u := Next(Next(s, Batched(3)), Processed(3, true));
    var t := Next(u, Close);
    RunsThen(u, Close, [], t);
    RunsThen(Next(s, Batched(3)), Processed(3, true), [Close] + [], t);
    RunsThen(s, Batched(3), [Processed(3, true)] + ([Close] + []), t);
  }

  lemma StaleReturnStart(big: Batch, steps: seq<Step>, t: State)
    requires Runs(AfterStale(big), steps, t)
    ensures Runs(INITIAL, [Read("a", None, [])] + ([Drained(1)] + ([Processed(1, true)] + ([Read("a", None, [big])] +
                          ([Returned(1, false)] + ([Returned(1, true)] + steps))))), t)
  {
    FirstRead();
    SecondRead(big);
    var read := Next(AfterFirst(), Read("a", None, [big]));
    var first := Next(INITIAL, Read("a", None, []));
    var five := [Returned(1, true)] + steps;
    var four := [Returned(1, false)] + five;
    var three := [Read("a", None, [big])] + four;
    RunsThen(Next(read, Returned(1, false)), Returned(1, true), steps, t);
    RunsThen(read, Returned(1, false), five, t);
    RunsThen(AfterFirst(), Read("a", None, [big]), four, t);
    RunsThen(Next(first, Drained(1)), Processed(1, true), three, t);
    RunsThen(first, Drained(1), [Processed(1, true)] + three, t);
    RunsThen(INITIAL, Read("a", None, []), [Drained(1)] + ([Processed(1, true)] + three), t);
  }

  // ---------- the class ----------

  datatype Refusal = TransportClosed | CursorGap | AlreadyReading | InputCapacity

  /** Each method is the code from one await to the next; the callbacks carry the operation they resume. */
  class NativeHistoryReader {
    var cursors: map<nat, nat>
    var sessions: map<string, nat>
    var readers: map<nat, Reader>
    var operations: map<nat, Operation>
    var closing: bool
    var serial: nat
    var forgetting: map<nat, Wait>
    var closers: map<nat, set<nat>>

    ghost function View(): State
      reads this
    {
      State(cursors, sessions, readers, operations, closing, serial, forgetting, closers)
    }

    constructor ()
      ensures View() == INITIAL
    {
      cursors, sessions, readers, operations := map[], map[], map[], map[];
      closing, serial, forgetting, closers := false, 0, map[], map[];
    }

    method OnOpen()
      modifies this
      ensures View() == Next(old(View()), Step.Open)
    {
      closing := false;
    }

    /** A refused read changes nothing. */
    method OnRead(session: string, cursor: Option<nat>, source: seq<Batch>) returns (refusal: Option<Refusal>)
      requires Inv(View())
      modifies this
      ensures View() == Next(old(View()), Read(session, cursor, source))
      ensures refusal.None? <==> Accepts(old(View()), Read(session, cursor, source))
      ensures refusal == Some(TransportClosed) <==> old(closing)
      ensures refusal == Some(InputCapacity) ==> cursor.None? && old(|sessions|) == MAX_READERS
      ensures refusal == Some(AlreadyReading) ==> cursor.None? && session in old(sessions)
      ensures refusal == Some(CursorGap) ==> cursor.Some? && !Resumes(old(View()), session, cursor.value)
    {
      if closing {
        return Some(TransportClosed);
      }
      if cursor.Some? {
        assert cursor.value in cursors ==> CursorOk(View(), cursor.value);
        if cursor.value !in cursors || readers[cursors[cursor.value]].session != session {
          return Some(CursorGap);
        }
        ResumeReader(cursor.value);
      } else {
        if session in sessions {
          return Some(AlreadyReading);
        }
        if |sessions| >= MAX_READERS {
          return Some(InputCapacity);
        }
        OpenReader(session, source);
      }
      return None;
    }

    method ResumeReader(cursor: nat)
      requires cursor in cursors && cursors[cursor] in readers
      modifies this
      ensures View() == Begin(Unpark(old(View()), cursor), old(cursors[cursor]))
    {
      var r := cursors[cursor];
      cursors := cursors - {cursor};
      readers := readers[r := readers[r].(cursor := None, armed := false)];
      StartPage(r);
    }

    method OpenReader(session: string, source: seq<Batch>)
      modifies this
      ensures View() == Begin(Register(old(View()), session, source), old(serial))
    {
      var r := serial;
      readers := readers[r := Reader(session, source, None, None, false, None, source, [])];
      sessions := sessions[session := r];
      serial := serial + 1;
      StartPage(r);
    }

    method StartPage(r: nat)
      requires r in readers
      modifies this
      ensures View() == Begin(old(View()), r)
    {
      var op := serial;
      var held := readers[r].pending;
      serial := serial + 1;
      operations := operations[op := Operation(r, Filling(EMPTY))];
      readers := readers[r := readers[r].(pending := None, owner := Some(op))];
      assert View() == Start(old(View()), r);
      if held.Some? {
        TakeBatch(op, EMPTY, held.value);
      }
    }

    /** The loop body after `next` produced a batch. */
    method TakeBatch(op: nat, page: Page, batch: Batch)
      requires op in operations && operations[op].reader in readers
      modifies this
      ensures View() == Take(old(View()), op, page, batch)
    {
      var r := operations[op].reader;
      if page.events != [] && (|page.events| + |batch| > PAGE_EVENTS || page.bytes + Size(batch) > PAGE_BYTES) {
        readers := readers[r := readers[r].(pending := Some(batch))];
        LeaveLoop(op, page, false);
        return;
      }
      var more := Page(page.events + batch, page.bytes + Size(batch), page.taken + [batch]);
      if |more.events| >= PAGE_EVENTS || more.bytes >= PAGE_BYTES || closing {
        LeaveLoop(op, more, false);
      } else {
        operations := operations[op := Operation(r, Filling(more))];
      }
    }

    method LeaveLoop(op: nat, page: Page, done: bool)
      requires op in operations && operations[op].reader in readers
      modifies this
      ensures View() == Leave(old(View()), op, page, done)
    {
      operations := operations[op := operations[op].(phase := Checking(page, done))];
      if closing {
        RetireAndWait(op, false);
      }
    }

    method RetireReader(r: nat)
      requires r in readers
      modifies this`cursors, this`sessions, this`readers
      ensures View() == Retire(old(View()), r)
    {
      var reader := readers[r];
      readers := readers[r := reader.(armed := false)];
      if reader.cursor.Some? {
        cursors := cursors - {reader.cursor.value};
      }
      sessions := sessions - {reader.session};
    }

    method RetireAndWait(op: nat, last: bool)
      requires op in operations && operations[op].reader in readers
      modifies this
      ensures View() == RetireWith(old(View()), op, last)
    {
      RetireReader(operations[op].reader);
      operations := operations[op := operations[op].(phase := Returning(operations[op].phase.page, last))];
    }

    method OnBatch(op: nat)
      requires Enabled(View(), Batched(op))
      modifies this
      ensures View() == Next(old(View()), Batched(op))
    {
      var r := operations[op].reader;
      var batch := readers[r].rest[0];
      readers := readers[r := readers[r].(rest := readers[r].rest[1..])];
      TakeBatch(op, operations[op].phase.page, batch);
    }

    method OnDrained(op: nat)
      requires Enabled(View(), Drained(op))
      modifies this
      ensures View() == Next(old(View()), Drained(op))
    {
      LeaveLoop(op, operations[op].phase.page, true);
    }

    method OnSourceFailed(op: nat)
      requires Enabled(View(), SourceFailed(op))
      modifies this
      ensures View() == Next(old(View()), SourceFailed(op))
    {
      RetireAndWait(op, false);
    }

    method OnProcessed(op: nat, ok: bool)
      requires Enabled(View(), Processed(op, ok))
      modifies this
      ensures View() == Next(old(View()), Processed(op, ok))
    {
      if !ok {
        RetireAndWait(op, false);
      } else if operations[op].phase.done {
        RetireAndWait(op, true);
      } else {
        var r := operations[op].reader;
        FinishPage(op);
        readers := readers[r := readers[r].(cursor := Some(serial), armed := true)];
        cursors := cursors[serial := r];
        serial := serial + 1;
      }
    }

    /** The page goes to the caller. */
    method FinishPage(op: nat)
      requires op in operations && operations[op].reader in readers
      modifies this
      ensures View() == Yield(old(View()), op)
    {
      var r, page := operations[op].reader, operations[op].phase.page;
      operations := operations - {op};
      readers := readers[r := readers[r].(owner := None, pages := readers[r].pages + [page])];
    }

    method OnReturned(op: nat, ok: bool)
      requires Enabled(View(), Returned(op, ok))
      modifies this
      ensures View() == Next(old(View()), Returned(op, ok))
    {
      var o := operations[op];
      if !o.phase.last {
        operations := operations - {op};
        readers := readers[o.reader := readers[o.reader].(owner := None)];
      } else if ok {
        FinishPage(op);
      } else {
        RetireAndWait(op, false);
      }
    }

    method OnExpired(r: nat)
      requires Enabled(View(), Expired(r))
      modifies this
      ensures View() == Next(old(View()), Expired(r))
    {
      RetireReader(r);
    }

    method OnForget(session: string) returns (call: nat)
      modifies this
      ensures call == old(serial) && View() == Next(old(View()), Forget(session))
    {
      call := serial;
      forgetting := forgetting[call := Wait(session, operations.Keys)];
      serial := serial + 1;
    }

    method OnForgetSettled(call: nat)
      requires Inv(View()) && Enabled(View(), ForgetRetire(call))
      modifies this
      ensures View() == Next(old(View()), ForgetRetire(call))
    {
      var session := forgetting[call].session;
      assert session in sessions ==> SessionOk(View(), session);
      forgetting := forgetting - {call};
      if session in sessions {
        RetireReader(sessions[session]);
      }
    }

    method OnClose() returns (call: nat)
      modifies this
      ensures call == old(serial) && View() == Next(old(View()), Step.Close)
    {
      closing := true;
      call := serial;
      closers := closers[call := operations.Keys];
      serial := serial + 1;
    }

    method RetireSession(ghost s: State, ghost left: set<string>, x: string)
      requires CursorsNamed(s) && SessionsNamed(s) && left <= s.sessions.Keys && x in left && View() == Closing(s, left)
      modifies this`cursors, this`sessions, this`readers
      ensures View() == Closing(s, left - {x})
    {
      OneMoreClosed(s, left, x);
      RetireReader(sessions[x]);
    }

    method OnCloseSettled(call: nat)
      requires Inv(View()) && Enabled(View(), CloseRetire(call))
      modifies this
      ensures View() == Next(old(View()), CloseRetire(call))
    {
      ghost var s := View();
      CloseClearsCursors(s, call);
      CursorsBelong(s);
      SessionsBelong(s);
      RetireSessions();
      AllClosed(s, call);
      closers := closers - {call};
    }

    method RetireSessions()
      requires CursorsNamed(View()) && SessionsNamed(View())
      modifies this`cursors, this`sessions, this`readers
      ensures View() == Closing(old(View()), {})
    {
      ghost var s := View();
      NoneClosed(s);
      var left := sessions.Keys;
      while left != {}
        invariant left <= s.sessions.Keys && View() == Closing(s, left)
        decreases |left|
      {
        var x :| x in left;
        RetireSession(s, left, x);
        left := left - {x};
      }
    }
  }

  // ---------- closing, one reader after the other ----------

  /** The readers of the sessions that are not `left` have been retired. */
  function Closing(s: State, left: set<string>): State {
    s.(sessions := map x | x in s.sessions && x in left :: s.sessions[x],
       cursors := map c | c in s.cursors && s.cursors[c] in s.readers
         && s.readers[s.cursors[c]].session in left :: s.cursors[c],
       readers := map r | r in s.readers ::
         if Registered(s, r) && s.readers[r].session !in left then s.readers[r].(armed := false) else s.readers[r])
  }

  ghost predicate CursorsNamed(s: State) {
    forall c :: c in s.cursors ==> Registered(s, s.cursors[c]) && s.readers[s.cursors[c]].cursor == Some(c)
  }

  ghost predicate SessionsNamed(s: State) {
    forall x :: x in s.sessions ==>
      var r := s.sessions[x];
      r in s.readers && s.readers[r].session == x
        && (s.readers[r].cursor.Some? && s.readers[r].cursor.value in s.cursors ==>
             s.cursors[s.readers[r].cursor.value] == r)
  }

  lemma CursorsBelong(s: State)
    requires Inv(s)
    ensures CursorsNamed(s)
  {
    forall c | c in s.cursors ensures Registered(s, s.cursors[c]) && s.readers[s.cursors[c]].cursor == Some(c) {
      assert CursorOk(s, c);
    }
  }

  lemma SessionsBelong(s: State)
    requires Inv(s)
    ensures SessionsNamed(s)
  {
    forall x | x in s.sessions
      ensures var r := s.sessions[x];
              r in s.readers && s.readers[r].session == x
              && (s.readers[r].cursor.Some? && s.readers[r].cursor.value in s.cursors ==>
                   s.cursors[s.readers[r].cursor.value] == r)
    {
      var r := s.sessions[x];
      assert SessionOk(s, x) && ReaderOk(s, r);
      if s.readers[r].owner.Some? {
        assert OperationOk(s, s.readers[r].owner.value);
      }
    }
  }

  lemma NoneClosed(s: State)
    requires CursorsNamed(s)
    ensures Closing(s, s.sessions.Keys) == s
  {
    var t := Closing(s, s.sessions.Keys);
    assert t.sessions == s.sessions;
    assert t.cursors == s.cursors;
    assert t.readers == s.readers;
  }

  lemma OneMoreClosed(s: State, left: set<string>, x: string)
    requires CursorsNamed(s) && SessionsNamed(s) && left <= s.sessions.Keys && x in left
    ensures var t := Closing(s, left);
            x in t.sessions && t.sessions[x] in t.readers && Retire(t, t.sessions[x]) == Closing(s, left - {x})
  {
    var t, u := Closing(s, left), Closing(s, left - {x});
    var r := s.sessions[x];
    var v := Retire(t, r);
    assert v.sessions == u.sessions;
    OneMoreCursor(s, left, x);
    OneMoreReader(s, left, x);
  }

  lemma OneMoreCursor(s: State, left: set<string>, x: string)
    requires CursorsNamed(s) && SessionsNamed(s) && left <= s.sessions.Keys && x in left
    ensures Retire(Closing(s, left), s.sessions[x]).cursors == Closing(s, left - {x}).cursors
  {
    var v, u := Retire(Closing(s, left), s.sessions[x]), Closing(s, left - {x});
    forall c ensures c in v.cursors <==> c in u.cursors {
      if c in s.cursors {
        assert s.readers[s.cursors[c]].session == x <==> s.cursors[c] == s.sessions[x];
      }
    }
  }

  lemma OneMoreReader(s: State, left: set<string>, x: string)
    requires SessionsNamed(s) && left <= s.sessions.Keys && x in left
    ensures Retire(Closing(s, left), s.sessions[x]).readers == Closing(s, left - {x}).readers
  {
    var v, u := Retire(Closing(s, left), s.sessions[x]), Closing(s, left - {x});
    assert v.readers.Keys == s.readers.Keys;
    forall r | r in s.readers ensures v.readers[r] == u.readers[r] {
      if Registered(s, r) && s.readers[r].session == x {
        assert r == s.sessions[x];
      }
    }
  }

  lemma AllClosed(s: State, k: nat)
    requires SessionsNamed(s) && CursorsNamed(s) && Enabled(s, CloseRetire(k))
             && Next(s, CloseRetire(k)).cursors == map[]
    ensures Closing(s, {}).(closers := s.closers - {k}) == Next(s, CloseRetire(k))
  {
    var t, u := Closing(s, {}), Next(s, CloseRetire(k));
    assert t.sessions == map[] && t.cursors == map[];
    assert t.readers == u.readers;
  }
}
