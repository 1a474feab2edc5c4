/**
 * The two collectors that turn a replayed event stream into completed history.  What they emit is stated over
 * the whole stream seen so far; the classes keep only the unmatched starts and the events not yet taken.
 */
module Collectors {
  import opened Prelude

  datatype Kind =
    | ToolStart | ToolComplete | MessageStart | MessageComplete | Error | RequestError
    | UserMessage | ReasoningDelta | QuestionAsked | QuestionResolved | PermissionAsked
    | Other // every other type

  datatype Scope = Principal(native: string) | Child(activity: string, native: string) | Unknown(native: string)

  datatype Value = Undefined | Null | Json(text: string)

  datatype Envelope = Envelope(scope: Scope, timestamp: Option<string>, sourceEventId: Option<string>,
                               sourceSequence: Option<int>)

  /** `id` is the tool call or message identity, `text` whatever else the payload carries. */
  datatype Event = Event(kind: Kind, envelope: Envelope, id: Option<string>, name: string, input: Value, text: string,
                         code: string)

  /** Whose history is collected. */
  datatype Own = OwnPrincipal | OwnChild(activity: string)

  const GAP := "harness_event_gap"
  const OMITTED := "provider_image_omitted"

  function Limit(own: Own): nat {
    if own.OwnPrincipal? then 100_000 else 1000
  }

  predicate Concerns(own: Own, e: Event) {
    match own
    case OwnPrincipal => e.envelope.scope.Principal?
    case OwnChild(activity) => e.envelope.scope.Child? && e.envelope.scope.activity == activity
  }

  /** An absent and an empty identity are treated alike. */
  predicate Named(e: Event) {
    e.id.Some? && e.id.value != ""
  }

  // ---------- what a stream means ----------

  /** The latest start of tool call `id` that no completion has answered. */
  function Unmatched(own: Own, seen: seq<Event>, id: string): Option<Event> {
    if seen == [] then None
    else
      var before, e := seen[..|seen| - 1], seen[|seen| - 1];
      if Concerns(own, e) && e.id == Some(id) && e.kind.ToolStart? then Some(e)
      else if Concerns(own, e) && e.id == Some(id) && e.kind.ToolComplete? then None
      else Unmatched(own, before, id)
  }

  function Ids(seen: seq<Event>): set<string> {
    set e | e in seen && e.id.Some? :: e.id.value
  }

  function Open(own: Own, seen: seq<Event>): set<string> {
    set id | id in Ids(seen) && Unmatched(own, seen, id).Some?
  }

  /** The event makes the history incomplete. */
  predicate Rejected(own: Own, seen: seq<Event>, e: Event) {
    && Concerns(own, e)
    && match e.kind
       case Error => e.code == GAP || (own.OwnPrincipal? && e.code == OMITTED)
       case RequestError => own.OwnPrincipal? && (e.code == GAP || e.code == OMITTED)
       case ToolStart => !Named(e) || |Open(own, seen)| >= Limit(own)
       case ToolComplete => !Named(e) || (own.OwnChild? && Unmatched(own, seen, e.id.value).None?)
       case MessageComplete => !Named(e)
       case _ => false
  }

  predicate PassedOn(e: Event) {
    match e.kind
    case Error | RequestError | UserMessage | ReasoningDelta | QuestionAsked | QuestionResolved | PermissionAsked =>
        true
    case _ => false
  }

  /** The completion with the input of its start. */
  function Completed(own: Own, start: Option<Event>, e: Event): Event {
    if start.None? then e
    else if own.OwnPrincipal? || e.input.Undefined? || e.input.Null? then e.(input := start.value.input)
    else e
  }

  function PrincipalStart(completed: Event): Event {
    if completed.kind.MessageComplete? then Event(MessageStart, completed.envelope, completed.id, "", Undefined, "", "")
    else Event(ToolStart, completed.envelope, completed.id, completed.name, completed.input, "", "")
  }

  /** What `e` adds to the history of the stream `seen`. */
  function Emission(own: Own, seen: seq<Event>, e: Event): seq<Event>
    requires !Rejected(own, seen, e)
  {
    if !Concerns(own, e) then []
    else match e.kind
      case ToolComplete =>
        var start := Unmatched(own, seen, e.id.value);
        var completed := Completed(own, start, e);
        [if own.OwnPrincipal? then PrincipalStart(completed) else start.value, completed]
      case MessageComplete =>
        [if own.OwnPrincipal? then PrincipalStart(e) else e.(kind := MessageStart), e]
      case _ => if own.OwnChild? && PassedOn(e) then [e] else []
  }

  /** No event of the stream was rejected. */
  predicate Sound(own: Own, seen: seq<Event>) {
    seen == [] || (Sound(own, seen[..|seen| - 1]) && !Rejected(own, seen[..|seen| - 1], seen[|seen| - 1]))
  }

  /** The history of a stream. */
  function History(own: Own, seen: seq<Event>): seq<Event>
    requires Sound(own, seen)
  {
    if seen == [] then []
    else History(own, seen[..|seen| - 1]) + Emission(own, seen[..|seen| - 1], seen[|seen| - 1])
  }

  // ---------- properties of the history ----------

  predicate Touches(own: Own, e: Event, id: string) {
    Concerns(own, e) && e.id == Some(id) && (e.kind.ToolStart? || e.kind.ToolComplete?)
  }

  /** `seen[j]` is the last event about the tool call, and it starts it. */
  predicate StartsLast(own: Own, seen: seq<Event>, id: string, j: int) {
    && 0 <= j < |seen| && Touches(own, seen[j], id) && seen[j].kind.ToolStart?
    && forall k :: j < k < |seen| ==> !Touches(own, seen[k], id)
  }

  lemma {:induction false} UnmatchedIsLatest(own: Own, seen: seq<Event>, id: string)
    ensures Unmatched(own, seen, id).Some? <==> exists j :: StartsLast(own, seen, id, j)
    ensures forall j :: StartsLast(own, seen, id, j) ==> Unmatched(own, seen, id) == Some(seen[j])
  {
    if seen != [] {
      var n := |seen| - 1;
      UnmatchedIsLatest(own, seen[..n], id);
      if Touches(own, seen[n], id) {
        assert seen[n].kind.ToolStart? ==> StartsLast(own, seen, id, n);
      } else {
        forall j ensures StartsLast(own, seen, id, j) <==> StartsLast(own, seen[..n], id, j) {
          assert StartsLast(own, seen[..n], id, j) ==> forall k :: j < k < n ==> !Touches(own, seen[..n][k], id);
        }
      }
    }
  }

  predicate Completes(e: Event) {
    e.kind.ToolComplete? || e.kind.MessageComplete?
  }

  /** The completions of the stream, in order. */
  function Completions(own: Own, seen: seq<Event>): seq<Event> {
    if seen == [] then []
    else
      var e := seen[|seen| - 1];
      Completions(own, seen[..|seen| - 1]) + (if Concerns(own, e) && Completes(e) then [e] else [])
  }

  /** A start and its completion, side by side. */
  predicate Paired(start: Event, completed: Event) {
    && Completes(completed) && Named(completed)
    && start.kind == (if completed.kind.ToolComplete? then ToolStart else MessageStart)
    && start.id == completed.id
  }

  /** The principal history is one adjacent pair for each completion, under one envelope and with one input. */
  lemma {:induction false} PrincipalHistoryIsPairs(seen: seq<Event>)
    requires Sound(OwnPrincipal, seen)
    ensures var h, c := History(OwnPrincipal, seen), Completions(OwnPrincipal, seen);
            && |h| == 2 * |c|
            && forall k :: 0 <= k < |c| ==>
                 && Paired(h[2 * k], h[2 * k + 1]) && h[2 * k].envelope == h[2 * k + 1].envelope
                 && h[2 * k].name == (if c[k].kind.ToolComplete? then c[k].name else "")
                 && (c[k].kind.ToolComplete? ==> h[2 * k].input == h[2 * k + 1].input)
                 && h[2 * k + 1] == c[k].(input := h[2 * k + 1].input)
  {
    if seen != [] {
      var before, e := seen[..|seen| - 1], seen[|seen| - 1];
      PrincipalHistoryIsPairs(before);
      var h, c := History(OwnPrincipal, before), Completions(OwnPrincipal, before);
      var h', c' := History(OwnPrincipal, seen), Completions(OwnPrincipal, seen);
      assert h' == h + Emission(OwnPrincipal, before, e);
      forall k | 0 <= k < |c| ensures h'[2 * k] == h[2 * k] && h'[2 * k + 1] == h[2 * k + 1] && c'[k] == c[k] {
      }
    }
  }

  /** A completed tool carries the input of the start it answers, or its own when there is none. */
  lemma PrincipalInput(seen: seq<Event>, e: Event, j: int)
    requires !Rejected(OwnPrincipal, seen, e) && Concerns(OwnPrincipal, e) && e.kind.ToolComplete?
    ensures var pair := Emission(OwnPrincipal, seen, e);
            && |pair| == 2 && pair[0].input == pair[1].input
            && (StartsLast(OwnPrincipal, seen, e.id.value, j) ==> pair[1].input == seen[j].input)
            && ((forall i :: !StartsLast(OwnPrincipal, seen, e.id.value, i)) ==> pair[1] == e)
  {
    UnmatchedIsLatest(OwnPrincipal, seen, e.id.value);
  }

  /** In a child history every completion follows its start, which is the recorded one for a tool. */
  predicate Follows(own: Own, seen: seq<Event>, h: seq<Event>, k: int)
    requires 0 <= k < |h|
  {
    Completes(h[k]) ==>
        k > 0 && Paired(h[k - 1], h[k]) && (h[k].kind.ToolComplete? ==> h[k - 1] in seen && Concerns(own, h[k - 1]))
  }

  /** And a start is only emitted in front of its completion. */
  predicate Leads(h: seq<Event>, k: int)
    requires 0 <= k < |h|
  {
    h[k].kind.ToolStart? || h[k].kind.MessageStart? ==> k + 1 < |h| && Paired(h[k], h[k + 1])
  }

  ghost predicate WellPaired(own: Own, seen: seq<Event>, h: seq<Event>) {
    && (forall k :: 0 <= k < |h| ==> Follows(own, seen, h, k))
    && (forall k :: 0 <= k < |h| ==> Leads(h, k))
  }

  lemma {:induction false} ChildHistoryIsPaired(own: Own, seen: seq<Event>)
    requires own.OwnChild? && Sound(own, seen)
    ensures WellPaired(own, seen, History(own, seen))
  {
    if seen != [] {
      var before, e := seen[..|seen| - 1], seen[|seen| - 1];
      ChildHistoryIsPaired(own, before);
      ChildEmission(own, before, e);
      assert before + [e] == seen;
      PairedConcat(own, before, seen, History(own, before), Emission(own, before, e));
    }
  }

  lemma PairedConcat(own: Own, before: seq<Event>, seen: seq<Event>, h: seq<Event>, more: seq<Event>)
    requires before <= seen && WellPaired(own, before, h) && WellPaired(own, seen, more)
    ensures WellPaired(own, seen, h + more)
  {
    forall k | 0 <= k < |h + more| ensures Follows(own, seen, h + more, k) && Leads(h + more, k) {
      if k < |h| {
        assert Follows(own, before, h, k) && Leads(h, k);
      } else {
        assert Follows(own, seen, more, k - |h|) && Leads(more, k - |h|);
      }
    }
  }

  lemma ChildEmission(own: Own, seen: seq<Event>, e: Event)
    requires own.OwnChild? && !Rejected(own, seen, e)
    ensures WellPaired(own, seen + [e], Emission(own, seen, e))
  {
    if Concerns(own, e) && e.kind.ToolComplete? {
      UnmatchedIsLatest(own, seen, e.id.value);
      var j :| StartsLast(own, seen, e.id.value, j);
      assert Emission(own, seen, e)[0] == seen[j];
    }
  }

  /** Everything a child completes or passes on is in its history, in order and otherwise unchanged. */
  predicate Kept(own: Own, e: Event) {
    Concerns(own, e) && (Completes(e) || PassedOn(e))
  }

  function Select(own: Own, seen: seq<Event>): seq<Event> {
    if seen == [] then []
    else
      var e := seen[|seen| - 1];
      Select(own, seen[..|seen| - 1]) + (if Kept(own, e) then [e.(input := Null)] else [])
  }

  lemma {:induction false} SelectAppend(own: Own, a: seq<Event>, b: seq<Event>)
    ensures Select(own, a + b) == Select(own, a) + Select(own, b)
  {
    if b == [] {
      assert a + b == a;
    } else {
      assert (a + b)[..|a + b| - 1] == a + b[..|b| - 1];
      SelectAppend(own, a, b[..|b| - 1]);
    }
  }

  lemma SelectSnoc(own: Own, s: seq<Event>, e: Event)
    ensures Select(own, s + [e]) == Select(own, s) + (if Kept(own, e) then [e.(input := Null)] else [])
  {
    assert (s + [e])[..|s|] == s;
  }

  lemma SelectEmission(own: Own, seen: seq<Event>, e: Event)
    requires own.OwnChild? && !Rejected(own, seen, e)
    ensures Select(own, Emission(own, seen, e)) == if Kept(own, e) then [e.(input := Null)] else []
  {
    var more := Emission(own, seen, e);
    if |more| == 2 {
      ChildEmission(own, seen, e);
      assert Follows(own, seen + [e], more, 1);
      SelectSnoc(own, [more[0]], more[1]);
      SelectSnoc(own, [], more[0]);
      assert more == [more[0]] + [more[1]] && [more[0]] == [] + [more[0]];
    } else if |more| == 1 {
      SelectSnoc(own, [], more[0]);
      assert more == [] + [more[0]];
    }
  }

  lemma {:induction false} ChildHistoryIsComplete(own: Own, seen: seq<Event>)
    requires own.OwnChild? && Sound(own, seen)
    ensures Select(own, History(own, seen)) == Select(own, seen)
  {
    if seen != [] {
      var before, e := seen[..|seen| - 1], seen[|seen| - 1];
      ChildHistoryIsComplete(own, before);
      SelectAppend(own, History(own, before), Emission(own, before, e));
      SelectEmission(own, before, e);
    }
  }

  // ---------- the collectors ----------

  /** The map holds exactly the unmatched starts. */
  ghost predicate Tracks(own: Own, tools: map<string, Event>, seen: seq<Event>) {
    && tools.Keys == Open(own, seen)
    && forall id :: id in tools ==> Unmatched(own, seen, id) == Some(tools[id])
  }

  lemma UnmatchedHasId(own: Own, seen: seq<Event>, id: string)
    ensures Unmatched(own, seen, id).Some? ==> Unmatched(own, seen, id).value.id == Some(id) && id in Ids(seen)
  {
  }

  lemma OpenIs(own: Own, seen: seq<Event>)
    ensures forall id :: id in Open(own, seen) <==> Unmatched(own, seen, id).Some?
  {
    forall id ensures id in Open(own, seen) <==> Unmatched(own, seen, id).Some? {
      UnmatchedHasId(own, seen, id);
    }
  }

  lemma UnmatchedSnoc(own: Own, seen: seq<Event>, e: Event, id: string)
    ensures Unmatched(own, seen + [e], id) ==
            if Touches(own, e, id) then (if e.kind.ToolStart? then Some(e) else None) else Unmatched(own, seen, id)
  {
    assert (seen + [e])[..|seen|] == seen;
  }

  function Track(own: Own, tools: map<string, Event>, e: Event): map<string, Event> {
    if !Concerns(own, e) || e.id.None? then tools
    else if e.kind.ToolStart? then tools[e.id.value := e]
    else if e.kind.ToolComplete? then tools - {e.id.value}
    else tools
  }

  lemma TrackTracks(own: Own, tools: map<string, Event>, seen: seq<Event>, e: Event)
    requires Tracks(own, tools, seen)
    ensures Tracks(own, Track(own, tools, e), seen + [e])
  {
    var more := Track(own, tools, e);
    OpenIs(own, seen);
    OpenIs(own, seen + [e]);
    forall id
      ensures id in more <==> Unmatched(own, seen + [e], id).Some?
      ensures id in more ==> Unmatched(own, seen + [e], id) == Some(more[id])
    {
      UnmatchedSnoc(own, seen, e, id);
    }
    assert more.Keys == Open(own, seen + [e]);
  }

  lemma HistorySnoc(own: Own, seen: seq<Event>, e: Event)
    requires Sound(own, seen) && !Rejected(own, seen, e)
    ensures Sound(own, seen + [e]) && History(own, seen + [e]) == History(own, seen) + Emission(own, seen, e)
  {
    assert (seen + [e])[..|seen|] == seen;
  }

  lemma Appended(taken: seq<Event>, events: seq<Event>, history: seq<Event>, start: Event, completed: Event)
    requires taken + events == history
    ensures taken + ((events + [start]) + [completed]) == history + [start, completed]
  {
  }

  class NativeSessionHistory {
    var events: seq<Event>
    var tools: map<string, Event>
    ghost var seen: seq<Event>
    ghost var taken: seq<Event>

    /** However takes and appends alternate, the takes and what is left are the history of the stream. */
    ghost predicate Valid()
      reads this
    {
      Sound(OwnPrincipal, seen) && Tracks(OwnPrincipal, tools, seen) && taken + events == History(OwnPrincipal, seen)
    }

    constructor ()
      ensures Valid() && seen == [] && taken == []
    {
      events, tools, seen, taken := [], map[], [], [];
    }

    /** False: the event was refused with an error and changed nothing. */
    method Append(event: Event) returns (ok: bool)
      requires Valid()
      modifies this
      ensures Valid() && taken == old(taken)
      ensures ok == !Rejected(OwnPrincipal, old(seen), event)
      ensures seen == if ok then old(seen) + [event] else old(seen)
      ensures !ok ==> events == old(events) && tools == old(tools)
    {
      TrackTracks(OwnPrincipal, tools, seen, event);
      OpenIs(OwnPrincipal, seen);
      if !event.envelope.scope.Principal? {
        Note(event);
        return true;
      }
      if event.kind.Error? || event.kind.RequestError? {
        if event.code == GAP || event.code == OMITTED {
          return false;
        }
        Note(event);
        return true;
      }
      if event.kind.ToolStart? {
        if !Named(event) || |tools| >= 100_000 {
          return false;
        }
        tools := tools[event.id.value := event];
        Note(event);
        return true;
      }
      if !event.kind.MessageComplete? && !event.kind.ToolComplete? {
        Note(event);
        return true;
      }
      if !Named(event) {
        return false;
      }
      PushPair(event);
      return true;
    }

    method PushPair(event: Event)
      requires Valid() && !Rejected(OwnPrincipal, seen, event) && Concerns(OwnPrincipal, event) && Completes(event)
      requires Tracks(OwnPrincipal, Track(OwnPrincipal, tools, event), seen + [event])
      modifies this
      ensures Valid() && taken == old(taken) && seen == old(seen) + [event]
    {
      var completed := event;
      OpenIs(OwnPrincipal, seen);
      if event.kind.ToolComplete? {
        if event.id.value in tools {
          completed := event.(input := tools[event.id.value].input);
        }
        tools := tools - {event.id.value};
      }
      var start := if completed.kind.MessageComplete?
                   then Event(MessageStart, completed.envelope, completed.id, "", Undefined, "", "")
                   else Event(ToolStart, completed.envelope, completed.id, completed.name, completed.input, "", "");
      Appended(taken, events, History(OwnPrincipal, seen), start, completed);
      assert [start, completed] == Emission(OwnPrincipal, seen, event);
      events := events + [start];
      events := events + [completed];
      Note(event);
    }

    ghost method Note(event: Event)
      requires Sound(OwnPrincipal, seen) && !Rejected(OwnPrincipal, seen, event)
      requires Tracks(OwnPrincipal, tools, seen + [event])
      requires taken + events == History(OwnPrincipal, seen) + Emission(OwnPrincipal, seen, event)
      modifies this`seen
      ensures Valid() && seen == old(seen) + [event]
    {
      HistorySnoc(OwnPrincipal, seen, event);
      seen := seen + [event];
    }

    method TakeEvents() returns (batch: seq<Event>)
      requires Valid()
      modifies this
      ensures Valid() && batch == old(events) && events == [] && taken == old(taken) + batch
      ensures seen == old(seen) && tools == old(tools)
    {
      batch := events;
      taken := taken + events;
      events := [];
    }
  }

  class NativeSubagentHistory {
    const own: Own
    var events: seq<Event>
    var tools: map<string, Event>
    ghost var seen: seq<Event>
    ghost var taken: seq<Event>

    ghost predicate Valid()
      reads this
    {
      own.OwnChild? && Sound(own, seen) && Tracks(own, tools, seen) && taken + events == History(own, seen)
    }

    constructor (activityId: string)
      ensures Valid() && own == OwnChild(activityId) && seen == [] && taken == []
    {
      own := OwnChild(activityId);
      events, tools, seen, taken := [], map[], [], [];
    }

    method Append(event: Event) returns (ok: bool)
      requires Valid()
      modifies this
      ensures Valid() && taken == old(taken)
      ensures ok == !Rejected(own, old(seen), event)
      ensures seen == if ok then old(seen) + [event] else old(seen)
      ensures !ok ==> events == old(events) && tools == old(tools)
    {
      TrackTracks(own, tools, seen, event);
      OpenIs(own, seen);
      if !event.envelope.scope.Child? || event.envelope.scope.activity != own.activity {
        Note(event);
        return true;
      }
      if event.kind.Error? && event.code == GAP {
        return false;
      }
      if event.kind.ToolStart? {
        if !Named(event) || |tools| >= 1000 {
          return false;
        }
        tools := tools[event.id.value := event];
      } else if event.kind.ToolComplete? {
        if !Named(event) || event.id.value !in tools {
          return false;
        }
        var start := tools[event.id.value];
        UnmatchedHasId(own, seen, event.id.value);
        Push(event,
            [start, if event.input.Undefined? || event.input.Null? then event.(input := start.input) else event]);
        tools := tools - {start.id.value};
      } else if event.kind.MessageComplete? {
        if !Named(event) {
          return false;
        }
        Push(event, [event.(kind := MessageStart), event]);
      } else if PassedOn(event) {
        Push(event, [event]);
      }
      Note(event);
      return true;
    }

    method Push(ghost event: Event, more: seq<Event>)
      requires own.OwnChild? && Sound(own, seen) && !Rejected(own, seen, event)
      requires taken + events == History(own, seen) && more == Emission(own, seen, event)
      modifies this`events
      ensures events == old(events) + more && taken + events == History(own, seen) + Emission(own, seen, event)
    {
      events := events + more;
    }

    ghost method Note(event: Event)
      requires own.OwnChild? && Sound(own, seen) && !Rejected(own, seen, event)
      requires Tracks(own, tools, seen + [event])
      requires taken + events == History(own, seen) + Emission(own, seen, event)
      modifies this`seen
      ensures Valid() && seen == old(seen) + [event]
    {
      HistorySnoc(own, seen, event);
      seen := seen + [event];
    }

    method TakeEvents() returns (batch: seq<Event>)
      requires Valid()
      modifies this
      ensures Valid() && batch == old(events) && events == [] && taken == old(taken) + batch
      ensures seen == old(seen) && tools == old(tools)
    {
      batch := events;
      taken := taken + events;
      events := [];
    }
  }
}
