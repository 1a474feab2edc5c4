/**
 * The event stream decoder of the native Mesh proxy: newline-framed, sequence-checked, fed by chunks
 * that may cut a frame anywhere.  Text decoding and JSON parsing are a given total function.
 */
module MeshFraming {
  import opened Prelude
  import opened JsText

  datatype Payload<E> =
    | Ready
    | Heartbeat
    | Control(control: Option<E>)   // None: the event does not match its schema
    | Event(event: Option<E>)
    | Other

  datatype Frame<E> = Malformed | Frame(versionMatches: bool, sequence: Option<int>, payload: Option<Payload<E>>)

  datatype Failure = FrameInvalid | SequenceGap | SchemaInvalid | HandlerFailed | Incomplete | Ended

  /** The control channel (no conversation id) or a conversation's channel. */
  datatype Channel = ControlChannel | Conversation

  /** `handles(before, e)`: the consumer of `e` does not throw, given the events it already got. */
  datatype Source<!E> = Source(channel: Channel, parse: string -> Frame<E>, handles: (seq<E>, E) -> bool)

  datatype Progress<E> = Progress(sequence: nat, readies: nat, delivered: seq<E>, failure: Option<Failure>)

  // ---------- one frame ----------

  function Deliver<E>(src: Source<E>, p: Progress<E>, event: Option<E>): Progress<E> {
    if event.None? then p.(failure := Some(SchemaInvalid))
    else if !src.handles(p.delivered, event.value) then p.(failure := Some(HandlerFailed))
    else p.(delivered := p.delivered + [event.value])
  }

  /** The checks in the order of the code; `sequence` advances before the payload is looked at. */
  function Dispatch<E>(src: Source<E>, p: Progress<E>, frame: Frame<E>): Progress<E> {
    if frame.Malformed? || !frame.versionMatches then p.(failure := Some(FrameInvalid))
    else if frame.sequence != Some(p.sequence as int) then p.(failure := Some(SequenceGap))
    else
      var q := p.(sequence := p.sequence + 1);
      if frame.payload.None? then q.(failure := Some(FrameInvalid))
      else
        var payload := frame.payload.value;
        if src.channel.ControlChannel? && q.sequence == 1 && !payload.Ready? then q.(failure := Some(FrameInvalid))
        else if payload.Ready? && q.sequence == 1 then q.(readies := q.readies + 1)
        else if payload.Heartbeat? then q
        else if payload.Control? && src.channel.ControlChannel? then Deliver(src, q, payload.control)
        else if payload.Event? && src.channel.Conversation? then Deliver(src, q, payload.event)
        else q.(failure := Some(FrameInvalid))
  }

  function ProcessLine<E>(src: Source<E>, p: Progress<E>, line: string): Progress<E> {
    if p.failure.Some? || Blank(line) then p else Dispatch(src, p, src.parse(line))
  }

  function ProcessLines<E>(src: Source<E>, p: Progress<E>, lines: seq<string>): Progress<E>
    decreases |lines|
  {
    if lines == [] then p else ProcessLines(src, ProcessLine(src, p, lines[0]), lines[1..])
  }

  // ---------- lines of a text ----------

  function Lines(text: string): seq<string> {
    Split(text, '\n')[..|Split(text, '\n')| - 1]
  }

  function Residue(text: string): string {
    Split(text, '\n')[|Split(text, '\n')| - 1]
  }

  function Start<E>(): Progress<E> {
    Progress(0, 0, [], None)
  }

  /** The whole stream at once. */
  function Observed<E>(src: Source<E>, text: string): Progress<E> {
    var p := ProcessLines(src, Start(), Lines(text));
    if p.failure.Some? then p else p.(failure := Some(if Blank(Residue(text)) then Ended else Incomplete))
  }

  lemma SplitCons(s: string)
    requires s != ""
    ensures var c, rest := s[0], s[1..];
            if c == '\n' then Lines(s) == [""] + Lines(rest) && Residue(s) == Residue(rest)
            else if Lines(rest) == [] then Lines(s) == [] && Residue(s) == [c] + Residue(rest)
            else Lines(s) == [[c] + Lines(rest)[0]] + Lines(rest)[1..] && Residue(s) == Residue(rest)
  {
  }

  lemma {:induction false} SplitAppend(a: string, b: string)
    requires '\n' !in b
    ensures Lines(a + b) == Lines(a) && Residue(a + b) == Residue(a) + b
    decreases |a|
  {
    if a == "" {
      assert a + b == b;
      SplitWhole(b);
    } else {
      assert (a + b)[0] == a[0] && (a + b)[1..] == a[1..] + b;
      SplitAppend(a[1..], b);
      SplitCons(a);
      SplitCons(a + b);
      assert [a[0]] + (Residue(a[1..]) + b) == ([a[0]] + Residue(a[1..])) + b;
    }
  }

  lemma {:induction false} SplitWhole(b: string)
    requires '\n' !in b
    ensures Split(b, '\n') == [b]
  {
    if b != "" {
      SplitWhole(b[1..]);
      assert [b[0]] + b[1..] == b;
    }
  }

  lemma {:induction false} SplitNewline(a: string)
    ensures Lines(a + "\n") == Lines(a) + [Residue(a)] && Residue(a + "\n") == ""
    decreases |a|
  {
    var t := a + "\n";
    SplitCons(t);
    if a == "" {
      assert t[1..] == "" && Split("", '\n') == [""];
    } else {
      assert t[1..] == a[1..] + "\n" && t[0] == a[0];
      SplitNewline(a[1..]);
      SplitCons(a);
    }
  }

  lemma SplitLine(a: string, w: string)
    requires '\n' !in w
    ensures Lines(a + w + "\n") == Lines(a) + [Residue(a) + w] && Residue(a + w + "\n") == ""
  {
    SplitAppend(a, w);
    SplitNewline(a + w);
  }

  lemma {:induction false} LinesExtend(a: string, b: string)
    ensures Lines(a) <= Lines(a + b)
    decreases |b|
  {
    if b == "" {
      assert a + b == a;
    } else {
      assert a + b == a + [b[0]] + b[1..];
      if b[0] == '\n' {
        SplitNewline(a);
        assert a + [b[0]] == a + "\n";
      } else {
        SplitAppend(a, [b[0]]);
      }
      LinesExtend(a + [b[0]], b[1..]);
    }
  }

  lemma {:induction false} ProcessAppend<E>(src: Source<E>, p: Progress<E>, a: seq<string>, b: seq<string>)
    ensures ProcessLines(src, p, a + b) == ProcessLines(src, ProcessLines(src, p, a), b)
    decreases |a|
  {
    if a == [] {
      assert a + b == b;
    } else {
      assert (a + b)[1..] == a[1..] + b;
      ProcessAppend(src, ProcessLine(src, p, a[0]), a[1..], b);
    }
  }

  lemma {:induction false} FailureIsFinal<E>(src: Source<E>, p: Progress<E>, lines: seq<string>)
    requires p.failure.Some?
    ensures ProcessLines(src, p, lines) == p
    decreases |lines|
  {
    if lines != [] {
      FailureIsFinal(src, p, lines[1..]);
    }
  }

  lemma ProcessSnoc<E>(src: Source<E>, p: Progress<E>, lines: seq<string>, line: string)
    ensures ProcessLines(src, p, lines + [line]) == ProcessLine(src, ProcessLines(src, p, lines), line)
  {
    ProcessAppend(src, p, lines, [line]);
    assert [line][1..] == [];
  }

  /** A failure inside a prefix of the stream is the outcome of the whole stream. */
  lemma EarlyFailure<E>(src: Source<E>, text: string, more: string)
    requires ProcessLines(src, Start(), Lines(text)).failure.Some?
    ensures Observed(src, text + more) == ProcessLines(src, Start(), Lines(text))
  {
    LinesExtend(text, more);
    var rest := Lines(text + more)[|Lines(text)|..];
    assert Lines(text + more) == Lines(text) + rest;
    ProcessAppend(src, Start(), Lines(text), rest);
    FailureIsFinal(src, ProcessLines(src, Start(), Lines(text)), rest);
  }

  // ---------- the loop ----------

  /** `s.indexOf(c, from)` */
  method IndexOf(s: string, c: char, from: nat) returns (index: int)
    requires from <= |s|
    ensures index == -1 ==> c !in s[from..]
    ensures index != -1 ==> from <= index < |s| && s[index] == c && c !in s[from..index]
  {
    index := from;
    while index < |s|
      invariant from <= index <= |s|
      invariant c !in s[from..index]
    {
      if s[index] == c {
        return;
      }
      assert s[from..index + 1] == s[from..index] + [s[index]];
      index := index + 1;
    }
    assert s[from..index] == s[from..];
    index := -1;
  }

  lemma BlankConcat(a: string, b: string)
    ensures Blank(a + b) <==> Blank(a) && Blank(b)
  {
    if Blank(a + b) {
      assert forall i :: 0 <= i < |a| ==> a[i] == (a + b)[i];
      assert forall i :: 0 <= i < |b| ==> b[i] == (a + b)[|a| + i];
    }
  }

  lemma {:induction false} BlankParts(parts: seq<string>)
    ensures Blank(Flatten(parts)) <==> forall i :: 0 <= i < |parts| ==> Blank(parts[i])
  {
    if parts != [] {
      BlankParts(parts[1..]);
      BlankConcat(parts[0], Flatten(parts[1..]));
      assert forall i :: 1 <= i < |parts| ==> parts[i] == parts[1..][i - 1];
    }
  }

  /** Whatever the cuts, the outcome is that of the concatenated text. */
  method Observe<E>(src: Source<E>, chunks: seq<string>) returns (p: Progress<E>)
    ensures p == Observed(src, Flatten(chunks))
  {
    p := Start();
    var frameParts: seq<string> := [];
    var k := 0;
    ghost var text := "";
    while k < |chunks|
      invariant 0 <= k <= |chunks|
      invariant text == Flatten(chunks[..k])
      invariant p == ProcessLines(src, Start(), Lines(text)) && p.failure.None?
      invariant Flatten(frameParts) == Residue(text)
    {
      ghost var before := text;
      assert chunks == chunks[..k] + [chunks[k]] + chunks[k + 1..];
      FlattenSnoc(chunks[..k], chunks[k]);
      FlattenAppend(chunks[..k] + [chunks[k]], chunks[k + 1..]);
      assert before + chunks[k][..0] == before;
      p, frameParts := ObserveChunk(src, before, chunks[k], p, frameParts, Flatten(chunks[k + 1..]));
      if p.failure.Some? {
        return;
      }
      text := before + chunks[k];
      assert chunks[k][..|chunks[k]|] == chunks[k];
      assert chunks[..k + 1] == chunks[..k] + [chunks[k]];
      k := k + 1;
    }
    assert chunks[..k] == chunks;
    BlankParts(frameParts);
    if exists i :: 0 <= i < |frameParts| && !Blank(frameParts[i]) {
      p := p.(failure := Some(Incomplete));
    } else {
      p := p.(failure := Some(Ended));
    }
  }

  /** One complete line: what is left of the frame parts plus the piece up to the newline. */
  lemma LineStep<E>(src: Source<E>, done: string, piece: string, parts: seq<string>)
    requires '\n' !in piece && Flatten(parts) == Residue(done)
    ensures var next := done + piece + "\n";
            && ProcessLines(src, Start(), Lines(next))
               == ProcessLine(src, ProcessLines(src, Start(), Lines(done)), Flatten(parts + [piece]))
            && Residue(next) == ""
  {
    FlattenSnoc(parts, piece);
    SplitLine(done, piece);
    ProcessSnoc(src, Start(), Lines(done), Flatten(parts + [piece]));
  }

  lemma PartStep(done: string, rest: string, parts: seq<string>)
    requires '\n' !in rest && Flatten(parts) == Residue(done)
    ensures Lines(done + rest) == Lines(done)
    ensures Flatten(if rest == "" then parts else parts + [rest]) == Residue(done + rest)
  {
    SplitAppend(done, rest);
    FlattenSnoc(parts, rest);
    assert Residue(done) + "" == Residue(done);
  }

  /** The decoder stands at `start` of `chunk`, after the text `before`. */
  ghost predicate At<E>(src: Source<E>, before: string, chunk: string, start: nat, p: Progress<E>, parts: seq<string>) {
    && start <= |chunk| && p.failure.None?
    && p == ProcessLines(src, Start(), Lines(before + chunk[..start]))
    && Flatten(parts) == Residue(before + chunk[..start])
  }

  /** Joins the frame parts with the piece up to the newline and dispatches the frame, if it is not blank. */
  method ObserveLine<E>(src: Source<E>, ghost before: string, chunk: string, ghost later: string,
                        start: nat, newline: nat, p0: Progress<E>, parts0: seq<string>) returns (p: Progress<E>)
    requires At(src, before, chunk, start, p0, parts0)
    requires start <= newline < |chunk| && chunk[newline] == '\n' && '\n' !in chunk[start..newline]
    ensures if p.failure.None? then At(src, before, chunk, newline + 1, p, [])
            else p == Observed(src, before + chunk + later)
  {
    var piece := chunk[start..newline];
    ghost var done := before + chunk[..newline + 1];
    LineStep(src, before + chunk[..start], piece, parts0);
    assert done == before + chunk[..start] + piece + "\n";
    var frameText := Flatten(parts0 + [piece]);
    if Blank(frameText) {
      return p0;
    }
    p := Dispatch(src, p0, src.parse(frameText));
    if p.failure.Some? {
      EarlyFailure(src, done, chunk[newline + 1..] + later);
      assert done + (chunk[newline + 1..] + later) == before + chunk + later;
    }
  }

  method ObserveChunk<E>(src: Source<E>, ghost before: string, chunk: string, p0: Progress<E>, parts0: seq<string>,
                         ghost later: string)
    returns (p: Progress<E>, frameParts: seq<string>)
    requires At(src, before, chunk, 0, p0, parts0)
    ensures if p.failure.None? then At(src, before, chunk, |chunk|, p, frameParts)
            else p == Observed(src, before + chunk + later)
  {
    p, frameParts := p0, parts0;
    var start := 0;
    var newline := IndexOf(chunk, '\n', 0);
    while newline >= 0
      invariant At(src, before, chunk, start, p, frameParts)
      invariant newline == -1 ==> '\n' !in chunk[start..]
      invariant newline != -1 ==> start <= newline < |chunk| && chunk[newline] == '\n' && '\n' !in chunk[start..newline]
      decreases |chunk| - start
    {
      p := ObserveLine(src, before, chunk, later, start, newline, p, frameParts);
      frameParts := [];
      if p.failure.Some? {
        return;
      }
      start := newline + 1;
      newline := IndexOf(chunk, '\n', start);
    }
    PartStep(before + chunk[..start], chunk[start..], frameParts);
    assert before + chunk[..start] + chunk[start..] == before + chunk[..|chunk|];
    if start < |chunk| {
      frameParts := frameParts + [chunk[start..]];
    }
  }

  // ---------- what is dispatched ----------

  function Frames(lines: seq<string>): seq<string> {
    if lines == [] then []
    else (if Blank(lines[0]) then [] else [lines[0]]) + Frames(lines[1..])
  }

  /** The event a frame carries on its channel, if any. */
  function EventOf<E>(src: Source<E>, frame: Frame<E>): Option<E> {
    if frame.Malformed? || frame.payload.None? then None
    else if frame.payload.value.Control? && src.channel.ControlChannel? then frame.payload.value.control
    else if frame.payload.value.Event? && src.channel.Conversation? then frame.payload.value.event
    else None
  }

  function EventsOf<E>(src: Source<E>, frames: seq<string>): seq<E> {
    if frames == [] then []
    else
      var last := |frames| - 1;
      EventsOf(src, frames[..last]) + (match EventOf(src, src.parse(frames[last])) case Some(e) => [e] case None => [])
  }

  /** A frame is acceptable at position `i`: right version and number, and a payload its channel allows there. */
  predicate Acceptable<E>(src: Source<E>, frame: Frame<E>, i: nat, before: seq<E>) {
    && frame.Frame? && frame.versionMatches && frame.sequence == Some(i as int) && frame.payload.Some?
    && match frame.payload.value
       case Ready => i == 0
       case Heartbeat => i > 0 || src.channel.Conversation?
       case Control(e) => i > 0 && src.channel.ControlChannel? && e.Some? && src.handles(before, e.value)
       case Event(e) => src.channel.Conversation? && e.Some? && src.handles(before, e.value)
       case Other => false
  }

  ghost predicate ValidFrames<E(!new)>(src: Source<E>, frames: seq<string>) {
    forall i :: 0 <= i < |frames| ==> Acceptable(src, src.parse(frames[i]), i, EventsOf(src, frames[..i]))
  }

  /** `p` is where the longest valid prefix of `frames`, of length `k`, leads. */
  ghost predicate StopsAfter<E(!new)>(src: Source<E>, frames: seq<string>, k: nat, p: Progress<E>) {
    && k <= |frames| && ValidFrames(src, frames[..k])
    && (k < |frames| ==> !ValidFrames(src, frames[..k + 1]))
    && p.delivered == EventsOf(src, frames[..k])
    && (p.failure.None? <==> k == |frames|)
    && (p.failure.None? ==> p.sequence == k)
    && p.readies == (if k > 0 && src.parse(frames[0]).payload == Some(Ready) then 1 else 0)
  }

  lemma DispatchOne<E(!new)>(src: Source<E>, p: Progress<E>, frame: Frame<E>)
    requires p.failure.None?
    ensures var q := Dispatch(src, p, frame);
            if Acceptable(src, frame, p.sequence, p.delivered) then
              && q.failure.None? && q.sequence == p.sequence + 1
              && q.delivered == p.delivered + (match EventOf(src, frame) case Some(e) => [e] case None => [])
              && q.readies == p.readies + (if frame.payload == Some(Ready) then 1 else 0)
            else
              q.failure.Some? && q.delivered == p.delivered && q.readies == p.readies
  {
  }

  lemma PrefixStep<E(!new)>(src: Source<E>, frames: seq<string>, k: nat, p: Progress<E>, line: string) returns (k': nat)
    requires StopsAfter(src, frames, k, p) && !Blank(line)
    ensures StopsAfter(src, frames + [line], k', ProcessLine(src, p, line))
  {
    var all := frames + [line];
    k' := k;
    assert all[..k] == frames[..k];
    if p.failure.Some? {
      assert all[..k + 1] == frames[..k + 1];
    } else {
      DispatchOne(src, p, src.parse(line));
      assert all[..k + 1] == all && all[..k] == frames == frames[..k];
      if Acceptable(src, src.parse(line), k, p.delivered) {
        assert forall i :: 0 <= i < k ==> all[..i] == frames[..i];
        k' := k + 1;
      }
    }
  }

  lemma {:induction false} LongestValidPrefix<E(!new)>(src: Source<E>, lines: seq<string>) returns (k: nat)
    ensures StopsAfter(src, Frames(lines), k, ProcessLines(src, Start(), lines))
    decreases |lines|
  {
    if lines == [] {
      k := 0;
    } else {
      var last := |lines| - 1;
      var line := lines[last];
      k := LongestValidPrefix(src, lines[..last]);
      assert lines == lines[..last] + [line];
      ProcessSnoc(src, Start(), lines[..last], line);
      FramesSnoc(lines[..last], line);
      if Blank(line) {
        assert Frames(lines) == Frames(lines[..last]);
      } else {
        k := PrefixStep(src, Frames(lines[..last]), k, ProcessLines(src, Start(), lines[..last]), line);
      }
    }
  }

  lemma {:induction false} FramesSnoc(lines: seq<string>, line: string)
    ensures Frames(lines + [line]) == Frames(lines) + (if Blank(line) then [] else [line])
  {
    if lines == [] {
      assert [] + [line] == [line];
    } else {
      assert (lines + [line])[1..] == lines[1..] + [line];
      FramesSnoc(lines[1..], line);
    }
  }

  /**
   * However the stream is cut, exactly the longest prefix of its non-blank lines that is numbered
   * 0, 1, 2, ... and valid on the channel is dispatched, and the end is reported.
   */
  lemma DispatchesLongestValidPrefix<E(!new)>(src: Source<E>, chunks: seq<string>) returns (k: nat)
    ensures var frames := Frames(Lines(Flatten(chunks)));
            var p := Observed(src, Flatten(chunks));
            && k <= |frames| && ValidFrames(src, frames[..k]) && (k < |frames| ==> !ValidFrames(src, frames[..k + 1]))
            && p.delivered == EventsOf(src, frames[..k])
            && (p.failure in {Some(Ended), Some(Incomplete)} <==> k == |frames|)
  {
    k := LongestValidPrefix(src, Lines(Flatten(chunks)));
    OnlyFrameFailures(src, Start(), Lines(Flatten(chunks)));
  }

  lemma {:induction false} OnlyFrameFailures<E(!new)>(src: Source<E>, p: Progress<E>, lines: seq<string>)
    requires p.failure !in {Some(Ended), Some(Incomplete)}
    ensures ProcessLines(src, p, lines).failure !in {Some(Ended), Some(Incomplete)}
    decreases |lines|
  {
    if lines != [] {
      OnlyFrameFailures(src, ProcessLine(src, p, lines[0]), lines[1..]);
    }
  }
}
