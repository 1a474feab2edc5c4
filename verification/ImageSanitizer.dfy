/**
 * Removal of inline images from provider output.  The value is an object graph that may share and
 * cycle; the traversal replaces recursion by an explicit stack of jobs.
 */
module ImageSanitizer {
  import opened Prelude
  import opened JsText

  type Ref = nat

  datatype Value = Text(text: string) | Atom(atom: int) | Obj(ref: Ref)

  datatype Kind = Arr | Rec

  /** An array (whose keys carry no information) or a record with its own enumerable entries in order. */
  datatype Node = Node(kind: Kind, entries: seq<(string, Value)>)

  type Heap = map<Ref, Node>

  /** Sanitized output: every object in it was newly created, so it is a tree. */
  datatype Tree = TText(text: string) | TAtom(atom: int) | TNode(kind: Kind, entries: seq<Field>)

  datatype Field = Field(key: string, value: Tree)

  // ---------- classification ----------

  predicate IsInlineImage(s: string) {
    StartsWith(Lower(s), "data:image/")
  }

  predicate IsImageMimeType(s: string) {
    StartsWith(Lower(TrimStart(Before(s, ';'))), "image/")
  }

  const IMAGE_TYPES: set<string> :=
    {"image", "inputimage", "image_url", "imagegeneration", "image_generation_call", "output_image"}

  /** Decided by the string-valued fields of a record only. */
  predicate IsImagePayload(texts: map<string, string>) {
    || ("type" in texts && Lower(texts["type"]) in IMAGE_TYPES)
    || ("mimeType" in texts && IsImageMimeType(texts["mimeType"]) && ("data" in texts || "url" in texts))
  }

  function TextFields(entries: seq<(string, Value)>): map<string, string> {
    if entries == [] then map[]
    else (if entries[0].1.Text? then map[entries[0].0 := entries[0].1.text] else map[]) + TextFields(entries[1..])
  }

  function TreeTextFields(entries: seq<Field>): map<string, string> {
    if entries == [] then map[]
    else
      var first := entries[0];
      (if first.value.TText? then map[first.key := first.value.text] else map[]) + TreeTextFields(entries[1..])
  }

  predicate IsPayloadNode(node: Node) {
    node.kind.Rec? && IsImagePayload(TextFields(node.entries))
  }

  /** Records that lost everything, or everything but a `type: "content"` marker, are dropped as well. */
  predicate IsHusk(entries: seq<Field>) {
    entries == [] || (|entries| == 1 && entries[0] == Field("type", TText("content")))
  }

  function Close(kind: Kind, entries: seq<Field>): Option<Tree> {
    if kind.Rec? && IsHusk(entries) then None else Some(TNode(kind, entries))
  }

  // ---------- the recursive definition ----------

  /** Left-to-right recursion with a threaded set of visited objects.  `None` means: omitted. */
  function San(h: Heap, v: Value, seen: set<Ref>): (r: (Option<Tree>, set<Ref>))
    ensures seen <= r.1
    decreases h.Keys - seen, 0
  {
    match v
    case Text(s) => (if IsInlineImage(s) then None else Some(TText(s)), seen)
    case Atom(n) => (Some(TAtom(n)), seen)
    case Obj(ref) =>
      if ref !in h || ref in seen || IsPayloadNode(h[ref]) then (None, seen)
      else
        var (entries, after) := SanEntries(h, h[ref].entries, seen + {ref});
        (Close(h[ref].kind, entries), after)
  }

  function SanEntries(h: Heap, entries: seq<(string, Value)>, seen: set<Ref>): (r: (seq<Field>, set<Ref>))
    ensures seen <= r.1
    decreases h.Keys - seen, |entries| + 1
  {
    if entries == [] then ([], seen)
    else
      var (first, middle) := San(h, entries[0].1, seen);
      assert middle == seen || h.Keys - middle < h.Keys - seen || h.Keys - middle == h.Keys - seen;
      var (rest, after) := SanEntries(h, entries[1..], middle);
      (Keep(entries[0].0, first) + rest, after)
  }

  function Keep(key: string, r: Option<Tree>): seq<Field> {
    match r case None => [] case Some(t) => [Field(key, t)]
  }

  function Sanitize(h: Heap, v: Value): Option<Tree> {
    San(h, v, {}).0
  }

  // ---------- the explicit stack ----------

  datatype Dest = ToResult | ToFrame(frame: nat, key: string)

  datatype Frame = Frame(kind: Kind, entries: seq<Field>, dest: Dest)

  datatype Job = Visit(value: Value, dest: Dest) | Finish(frame: nat)

  function WriteFrames(frames: seq<Frame>, dest: Dest, r: Option<Tree>): (after: seq<Frame>)
    ensures |after| == |frames|
  {
    if dest.ToFrame? && dest.frame < |frames| && r.Some? then
      var f := frames[dest.frame];
      frames[dest.frame := f.(entries := f.entries + [Field(dest.key, r.value)])]
    else frames
  }

  function WriteResult(result: Option<Tree>, dest: Dest, r: Option<Tree>): Option<Tree> {
    if dest.ToResult? then r else result
  }

  /** What the remaining jobs produce when each visit is answered by the recursive definition. */
  function Resume(h: Heap, pending: seq<Job>, frames: seq<Frame>, result: Option<Tree>, seen: set<Ref>): Option<Tree>
    decreases |pending|
  {
    if pending == [] then result
    else
      var rest := pending[..|pending| - 1];
      match pending[|pending| - 1]
      case Visit(v, dest) =>
        var (r, after) := San(h, v, seen);
        Resume(h, rest, WriteFrames(frames, dest, r), WriteResult(result, dest, r), after)
      case Finish(f) =>
        if f >= |frames| then result
        else
          var r := Close(frames[f].kind, frames[f].entries);
          Resume(h, rest, WriteFrames(frames, frames[f].dest, r), WriteResult(result, frames[f].dest, r), seen)
  }

  /** The visits of `entries`, first entry on top of the stack. */
  function Visits(entries: seq<(string, Value)>, frame: nat): seq<Job> {
    if entries == [] then [] else Visits(entries[1..], frame) + [Visit(entries[0].1, ToFrame(frame, entries[0].0))]
  }

  function Append(frames: seq<Frame>, f: nat, more: seq<Field>): seq<Frame>
    requires f < |frames|
  {
    frames[f := frames[f].(entries := frames[f].entries + more)]
  }

  lemma AppendTwice(frames: seq<Frame>, f: nat, a: seq<Field>, b: seq<Field>)
    requires f < |frames|
    ensures Append(Append(frames, f, a), f, b) == Append(frames, f, a + b)
    ensures Append(frames, f, []) == frames
  {
    assert frames[f].entries + a + b == frames[f].entries + (a + b);
    assert frames[f].entries + [] == frames[f].entries;
  }

  lemma ResumeVisit(h: Heap, below: seq<Job>, v: Value, f: nat, key: string,
                    frames: seq<Frame>, result: Option<Tree>, seen: set<Ref>)
    requires f < |frames|
    ensures var (r, after) := San(h, v, seen);
            Resume(h, below + [Visit(v, ToFrame(f, key))], frames, result, seen)
            == Resume(h, below, Append(frames, f, Keep(key, r)), result, after)
  {
    var stack := below + [Visit(v, ToFrame(f, key))];
    assert stack[..|stack| - 1] == below;
    AppendTwice(frames, f, [], []);
  }

  lemma {:induction false} ResumeVisits(h: Heap, below: seq<Job>, entries: seq<(string, Value)>, f: nat,
                                        frames: seq<Frame>, result: Option<Tree>, seen: set<Ref>)
    requires f < |frames|
    ensures var (done, after) := SanEntries(h, entries, seen);
            Resume(h, below + Visits(entries, f), frames, result, seen)
            == Resume(h, below, Append(frames, f, done), result, after)
    decreases |entries|
  {
    if entries == [] {
      assert below + [] == below;
      AppendTwice(frames, f, [], []);
    } else {
      var (r, middle) := San(h, entries[0].1, seen);
      var first := Keep(entries[0].0, r);
      var rest := SanEntries(h, entries[1..], middle).0;
      var top := Visit(entries[0].1, ToFrame(f, entries[0].0));
      assert below + Visits(entries, f) == (below + Visits(entries[1..], f)) + [top];
      ResumeVisit(h, below + Visits(entries[1..], f), entries[0].1, f, entries[0].0, frames, result, seen);
      ResumeVisits(h, below, entries[1..], f, Append(frames, f, first), result, middle);
      AppendTwice(frames, f, first, rest);
    }
  }

  predicate DestInRange(dest: Dest, n: nat) {
    dest.ToFrame? ==> dest.frame < n
  }

  predicate JobInRange(job: Job, n: nat) {
    if job.Visit? then DestInRange(job.dest, n) else job.frame < n
  }

  /** Every job and every open object refers to an existing frame. */
  ghost predicate InRange(pending: seq<Job>, frames: seq<Frame>) {
    && (forall i :: 0 <= i < |pending| ==> JobInRange(pending[i], |frames|))
    && (forall i :: 0 <= i < |frames| ==> DestInRange(frames[i].dest, |frames|))
  }

  lemma {:induction false} UnusedFrame(h: Heap, pending: seq<Job>, frames: seq<Frame>, extra: Frame,
                                       result: Option<Tree>, seen: set<Ref>)
    requires InRange(pending, frames)
    ensures Resume(h, pending, frames + [extra], result, seen) == Resume(h, pending, frames, result, seen)
    decreases |pending|
  {
    if pending != [] {
      var top, rest := pending[|pending| - 1], pending[..|pending| - 1];
      assert JobInRange(top, |frames|);
      match top
      case Visit(v, dest) =>
        var (r, after) := San(h, v, seen);
        var written := WriteFrames(frames, dest, r);
        assert WriteFrames(frames + [extra], dest, r) == written + [extra];
        UnusedFrame(h, rest, written, extra, WriteResult(result, dest, r), after);
      case Finish(f) =>
        var dest := frames[f].dest;
        var r := Close(frames[f].kind, frames[f].entries);
        var written := WriteFrames(frames, dest, r);
        assert WriteFrames(frames + [extra], dest, r) == written + [extra];
        UnusedFrame(h, rest, written, extra, WriteResult(result, dest, r), seen);
    }
  }

  /** Opening an object: its frame and the visits of its entries stand for the object's own visit. */
  lemma ResumeOpen(h: Heap, rest: seq<Job>, ref: Ref, dest: Dest, frames: seq<Frame>, result: Option<Tree>,
                   seen: set<Ref>)
    requires ref in h && ref !in seen && !IsPayloadNode(h[ref])
    requires InRange(rest, frames) && DestInRange(dest, |frames|)
    ensures Resume(h, rest + [Visit(Obj(ref), dest)], frames, result, seen)
         == Resume(h, rest + [Finish(|frames|)] + Visits(h[ref].entries, |frames|),
                   frames + [Frame(h[ref].kind, [], dest)], result, seen + {ref})
  {
    var f, node, stack := |frames|, h[ref], rest + [Finish(|frames|)];
    var (done, after) := SanEntries(h, node.entries, seen + {ref});
    var empty := frames + [Frame(node.kind, [], dest)];
    var full := frames + [Frame(node.kind, done, dest)];
    ResumeVisits(h, stack, node.entries, f, empty, result, seen + {ref});
    assert [] + done == done;
    assert Append(empty, f, done) == full;
    var r := Close(node.kind, done);
    assert WriteFrames(full, dest, r) == WriteFrames(frames, dest, r) + [full[f]];
    UnusedFrame(h, rest, WriteFrames(frames, dest, r), full[f], WriteResult(result, dest, r), after);
    assert stack[..|stack| - 1] == rest;
    var visit := rest + [Visit(Obj(ref), dest)];
    assert visit[..|visit| - 1] == rest;
  }

  lemma ResumeTop(h: Heap, rest: seq<Job>, job: Job, frames: seq<Frame>, result: Option<Tree>, seen: set<Ref>)
    requires JobInRange(job, |frames|)
    ensures job.Visit? ==>
              var (r, after) := San(h, job.value, seen);
              Resume(h, rest + [job], frames, result, seen)
              == Resume(h, rest, WriteFrames(frames, job.dest, r), WriteResult(result, job.dest, r), after)
    ensures job.Finish? ==>
              var frame := frames[job.frame];
              var r := Close(frame.kind, frame.entries);
              Resume(h, rest + [job], frames, result, seen)
              == Resume(h, rest, WriteFrames(frames, frame.dest, r), WriteResult(result, frame.dest, r), seen)
  {
    var stack := rest + [job];
    assert stack[..|stack| - 1] == rest;
  }

  lemma WriteKeepsRange(pending: seq<Job>, frames: seq<Frame>, dest: Dest, r: Option<Tree>)
    requires InRange(pending, frames)
    ensures InRange(pending, WriteFrames(frames, dest, r))
  {
  }

  lemma {:induction false} VisitsInRange(entries: seq<(string, Value)>, f: nat)
    ensures forall i :: 0 <= i < |Visits(entries, f)| ==> JobInRange(Visits(entries, f)[i], f + 1)
  {
    if entries != [] {
      VisitsInRange(entries[1..], f);
    }
  }

  lemma OpenKeepsRange(pending: seq<Job>, frames: seq<Frame>, kind: Kind, dest: Dest, entries: seq<(string, Value)>)
    requires InRange(pending, frames) && DestInRange(dest, |frames|)
    ensures InRange(pending + [Finish(|frames|)] + Visits(entries, |frames|), frames + [Frame(kind, [], dest)])
  {
    VisitsInRange(entries, |frames|);
  }

  method PushVisits(below: seq<Job>, entries: seq<(string, Value)>, f: nat) returns (pending: seq<Job>)
    ensures pending == below + Visits(entries, f)
  {
    pending := below;
    var index := |entries|;
    assert below == below + Visits(entries[index..], f);
    while index > 0
      invariant 0 <= index <= |entries|
      invariant pending == below + Visits(entries[index..], f)
    {
      index := index - 1;
      pending := pending + [Visit(entries[index].1, ToFrame(f, entries[index].0))];
      assert entries[index..][1..] == entries[index + 1..];
    }
    assert entries[0..] == entries;
  }

  method SanitizeImagePayloads(h: Heap, value: Value) returns (result: Option<Tree>)
    ensures result == Sanitize(h, value)
  {
    result := None;
    var pending: seq<Job> := [Visit(value, ToResult)];
    var frames: seq<Frame> := [];
    var seen: set<Ref> := {};
    ResumeTop(h, [], pending[0], frames, result, seen);
    assert [] + pending == pending;
    while pending != []
      invariant InRange(pending, frames)
      invariant Resume(h, pending, frames, result, seen) == Sanitize(h, value)
      decreases h.Keys - seen, |pending|
    {
      var job := pending[|pending| - 1];
      assert JobInRange(job, |frames|);
      assert pending == pending[..|pending| - 1] + [job];
      pending := pending[..|pending| - 1];
      ResumeTop(h, pending, job, frames, result, seen);
      var r: Option<Tree>;
      var dest: Dest;
      if job.Finish? {
        var frame := frames[job.frame];
        r, dest := Close(frame.kind, frame.entries), frame.dest;
      } else {
        dest := job.dest;
        match job.value {
          case Text(s) => r := if IsInlineImage(s) then None else Some(TText(s));
          case Atom(n) => r := Some(TAtom(n));
          case Obj(ref) =>
            if ref in h && ref !in seen && !IsPayloadNode(h[ref]) {
              var f, node := |frames|, h[ref];
              ResumeOpen(h, pending, ref, dest, frames, result, seen);
              OpenKeepsRange(pending, frames, node.kind, dest, node.entries);
              seen := seen + {ref};
              frames := frames + [Frame(node.kind, [], dest)];
              pending := PushVisits(pending + [Finish(f)], node.entries, f);
              continue;
            }
            r := None;
        }
      }
      WriteKeepsRange(pending, frames, dest, r);
      frames, result := WriteFrames(frames, dest, r), WriteResult(result, dest, r);
    }
  }

  // ---------- what sanitized output looks like ----------

  predicate DistinctKeys(entries: seq<(string, Value)>) {
    forall i, j :: 0 <= i < j < |entries| ==> entries[i].0 != entries[j].0
  }

  /** Records of a real heap have distinct keys. */
  ghost predicate WellFormed(h: Heap) {
    forall r :: r in h && h[r].kind.Rec? ==> DistinctKeys(h[r].entries)
  }

  /** No inline image text, no image payload record and no husk anywhere. */
  predicate Clean(t: Tree)
    decreases t, 0
  {
    match t
    case TText(s) => !IsInlineImage(s)
    case TAtom(_) => true
    case TNode(kind, entries) =>
      (kind.Rec? ==> !IsImagePayload(TreeTextFields(entries)) && !IsHusk(entries)) && AllClean(entries)
  }

  predicate AllClean(entries: seq<Field>)
    decreases entries, 1
  {
    entries == [] || (Clean(entries[0].value) && AllClean(entries[1..]))
  }

  ghost predicate SubMap(a: map<string, string>, b: map<string, string>) {
    forall k :: k in a ==> k in b && a[k] == b[k]
  }

  lemma {:induction false} TextFieldsHaveKeys(entries: seq<(string, Value)>, key: string)
    requires key in TextFields(entries)
    ensures exists i :: 0 <= i < |entries| && entries[i].0 == key
  {
    if key in TextFields(entries[1..]) {
      TextFieldsHaveKeys(entries[1..], key);
      var i :| 0 <= i < |entries[1..]| && entries[1..][i].0 == key;
      assert entries[i + 1].0 == key;
    } else {
      assert entries[0].0 == key;
    }
  }

  /** Sanitizing keeps text fields as they are or drops them; it never makes a new one. */
  lemma {:induction false} TextFieldsShrink(h: Heap, entries: seq<(string, Value)>, seen: set<Ref>)
    requires DistinctKeys(entries)
    ensures SubMap(TreeTextFields(SanEntries(h, entries, seen).0), TextFields(entries))
    decreases |entries|
  {
    if entries != [] {
      var (first, middle) := San(h, entries[0].1, seen);
      TextFieldsShrink(h, entries[1..], middle);
      var rest := SanEntries(h, entries[1..], middle).0;
      var all := SanEntries(h, entries, seen).0;
      if first.Some? {
        assert all[0] == Field(entries[0].0, first.value) && all[1..] == rest;
        if entries[0].0 in TextFields(entries[1..]) {
          TextFieldsHaveKeys(entries[1..], entries[0].0);
        }
      } else {
        assert all == rest;
      }
    }
  }

  lemma {:induction false} SanIsClean(h: Heap, v: Value, seen: set<Ref>)
    requires WellFormed(h)
    ensures var r := San(h, v, seen).0; r.Some? ==> Clean(r.value)
    decreases h.Keys - seen, 0
  {
    if v.Obj? && v.ref in h && v.ref !in seen && !IsPayloadNode(h[v.ref]) {
      var node := h[v.ref];
      SanEntriesAreClean(h, node.entries, seen + {v.ref});
      if node.kind.Rec? {
        TextFieldsShrink(h, node.entries, seen + {v.ref});
      }
    }
  }

  lemma {:induction false} SanEntriesAreClean(h: Heap, entries: seq<(string, Value)>, seen: set<Ref>)
    requires WellFormed(h)
    ensures AllClean(SanEntries(h, entries, seen).0)
    decreases h.Keys - seen, |entries| + 1
  {
    if entries != [] {
      var (first, middle) := San(h, entries[0].1, seen);
      SanIsClean(h, entries[0].1, seen);
      SanEntriesAreClean(h, entries[1..], middle);
      var rest := SanEntries(h, entries[1..], middle).0;
      var all := SanEntries(h, entries, seen).0;
      assert if first.Some? then all[0].value == first.value && all[1..] == rest else all == rest;
    }
  }

  // ---------- a second pass ----------

  /** `t` laid out as fresh objects numbered from `next`: the value, its heap and the next free number. */
  function Store(t: Tree, next: Ref): (r: (Value, Heap, Ref))
    ensures next <= r.2 && (forall k :: k in r.1 ==> next <= k < r.2)
    decreases t, 0
  {
    match t
    case TText(s) => (Text(s), map[], next)
    case TAtom(n) => (Atom(n), map[], next)
    case TNode(kind, entries) =>
      var (stored, heap, after) := StoreEntries(entries, next + 1);
      (Obj(next), heap[next := Node(kind, stored)], after)
  }

  function StoreEntries(entries: seq<Field>, next: Ref): (r: (seq<(string, Value)>, Heap, Ref))
    ensures next <= r.2 && (forall k :: k in r.1 ==> next <= k < r.2)
    decreases entries, 1
  {
    if entries == [] then ([], map[], next)
    else
      var (v, h1, middle) := Store(entries[0].value, next);
      var (vs, h2, after) := StoreEntries(entries[1..], middle);
      ([(entries[0].key, v)] + vs, h1 + h2, after)
  }

  ghost predicate SubHeap(a: Heap, b: Heap) {
    forall k :: k in a ==> k in b && a[k] == b[k]
  }

  lemma {:induction false} StoredTextFields(entries: seq<Field>, next: Ref)
    ensures TextFields(StoreEntries(entries, next).0) == TreeTextFields(entries)
    decreases |entries|
  {
    if entries != [] {
      var (v, h1, middle) := Store(entries[0].value, next);
      StoredTextFields(entries[1..], middle);
      var stored := StoreEntries(entries, next).0;
      assert stored[0] == (entries[0].key, v) && stored[1..] == StoreEntries(entries[1..], middle).0;
    }
  }

  lemma {:induction false} CleanIsFixed(t: Tree, next: Ref, h: Heap, seen: set<Ref>)
    requires Clean(t) && SubHeap(Store(t, next).1, h)
    requires forall k :: next <= k < Store(t, next).2 ==> k !in seen
    ensures var (v, _, after) := Store(t, next);
            var r := San(h, v, seen);
            r.0 == Some(t) && forall k :: k in r.1 ==> k in seen || next <= k < after
    decreases t, 0
  {
    if t.TNode? {
      var (stored, heap, after) := StoreEntries(t.entries, next + 1);
      assert SubHeap(heap, h) by {
        forall k | k in heap ensures k in h && heap[k] == h[k] {
          assert k in Store(t, next).1 && Store(t, next).1[k] == heap[k];
        }
      }
      assert next in Store(t, next).1;
      StoredTextFields(t.entries, next + 1);
      CleanEntriesAreFixed(t.entries, next + 1, h, seen + {next});
    }
  }

  lemma {:induction false} CleanEntriesAreFixed(entries: seq<Field>, next: Ref, h: Heap, seen: set<Ref>)
    requires AllClean(entries) && SubHeap(StoreEntries(entries, next).1, h)
    requires forall k :: next <= k < StoreEntries(entries, next).2 ==> k !in seen
    ensures var (vs, _, after) := StoreEntries(entries, next);
            var r := SanEntries(h, vs, seen);
            r.0 == entries && forall k :: k in r.1 ==> k in seen || next <= k < after
    decreases entries, 1
  {
    if entries != [] {
      var (v, h1, middle) := Store(entries[0].value, next);
      var (vs, h2, after) := StoreEntries(entries[1..], middle);
      var all := h1 + h2;
      assert StoreEntries(entries, next).1 == all;
      assert SubHeap(h1, h) by {
        forall k | k in h1 ensures k in h && h1[k] == h[k] {
          assert k in all && k !in h2;
        }
      }
      assert SubHeap(h2, h) by {
        forall k | k in h2 ensures k in h && h2[k] == h[k] {
          assert k in all;
        }
      }
      CleanIsFixed(entries[0].value, next, h, seen);
      var seen1 := San(h, v, seen).1;
      CleanEntriesAreFixed(entries[1..], middle, h, seen1);
      var stored := StoreEntries(entries, next).0;
      assert stored[0] == (entries[0].key, v) && stored[1..] == vs;
      assert [entries[0]] + entries[1..] == entries;
    }
  }

  /**
   * Whatever the object graph, sanitized output carries no image, and sanitizing it again returns it
   * unchanged.
   */
  lemma SanitizedIsCleanAndFixed(h: Heap, v: Value)
    requires WellFormed(h) && Sanitize(h, v).Some?
    ensures var t := Sanitize(h, v).value;
            Clean(t) && Sanitize(Store(t, 0).1, Store(t, 0).0) == Some(t)
  {
    SanIsClean(h, v, {});
    var t := Sanitize(h, v).value;
    CleanIsFixed(t, 0, Store(t, 0).1, {});
  }
}
