/** Provider output turned into message events: collect image candidates, decode them, report the rest. */
module ImageProjection {
  import opened Prelude
  import opened JsText
  import opened ImageSanitizer
  import Base64Gate

  // ---------- candidates ----------

  function Lookup(entries: seq<(string, Value)>, key: string): Option<Value> {
    if entries == [] then None else if entries[0].0 == key then Some(entries[0].1) else Lookup(entries[1..], key)
  }

  function TextAt(entries: seq<(string, Value)>, key: string): Option<string> {
    match Lookup(entries, key)
    case Some(Text(s)) => Some(s)
    case _ => None
  }

  function InlineOnly(s: Option<string>): Option<string> {
    if s.Some? && IsInlineImage(s.value) then s else None
  }

  function OrElse(a: Option<string>, b: Option<string>): Option<string> {
    if a.Some? then a else b
  }

  /** `image_url.url`, when `image_url` is a record. */
  function NestedUrl(h: Heap, entries: seq<(string, Value)>): Option<string> {
    match Lookup(entries, "image_url")
    case Some(Obj(r)) => if r in h && h[r].kind.Rec? then TextAt(h[r].entries, "url") else None
    case _ => None
  }

  const FOLLOWED: seq<string> :=
    ["attachments", "content", "contents", "contentItems", "binaryResultsForLlm",
     "images", "items", "output", "parts", "result", "toolOutput", "update"]

  function Followed(entries: seq<(string, Value)>, keys: seq<string>): seq<Value> {
    if keys == [] then []
    else
      (match Lookup(entries, keys[0]) case Some(v) => [v] case None => []) + Followed(entries, keys[1..])
  }

  /** What one object contributes: an image, a rejected image, or children to look at in order. */
  datatype Finding = Candidate(data: string) | Rejected | Descend(children: seq<Value>)

  function OrRejected(data: Option<string>): Finding {
    match data case Some(s) => Candidate(s) case None => Rejected
  }

  function Items(entries: seq<(string, Value)>): seq<Value> {
    seq(|entries|, i requires 0 <= i < |entries| => entries[i].1)
  }

  function Inspect(h: Heap, node: Node): Finding {
    var es := node.entries;
    if node.kind.Arr? then Descend(Items(es))
    else
      var kind := match TextAt(es, "type") case Some(s) => Lower(s) case None => "";
      var data := TextAt(es, "data");
      var mime := match TextAt(es, "mimeType") case Some(m) => IsImageMimeType(m) case None => false;
      if kind in {"image", "image_url", "inputimage"} then
        OrRejected(OrElse(data, OrElse(InlineOnly(TextAt(es, "url")),
                   OrElse(InlineOnly(NestedUrl(h, es)), InlineOnly(TextAt(es, "imageUrl"))))))
      else if kind in {"imagegeneration", "image_generation_call", "output_image"} then
        OrRejected(OrElse(TextAt(es, "result"), data))
      else if data.Some? && (mime || IsInlineImage(data.value)) then Candidate(data.value)
      else
        var url := OrElse(TextAt(es, "url"), NestedUrl(h, es));
        if mime && url.Some? then OrRejected(InlineOnly(url))
        else Descend(Followed(es, FOLLOWED))
  }

  datatype Collection = Collection(candidates: seq<string>, rejected: nat, seen: set<Ref>)

  /** Depth-first, left to right, each object once. */
  function Collect(h: Heap, v: Value, c: Collection): (r: Collection)
    ensures c.seen <= r.seen
    decreases h.Keys - c.seen, 0
  {
    match v
    case Text(s) => if IsInlineImage(s) then c.(candidates := c.candidates + [s]) else c
    case Atom(_) => c
    case Obj(ref) =>
      if ref !in h || ref in c.seen then c
      else
        var marked := c.(seen := c.seen + {ref});
        match Inspect(h, h[ref])
        case Candidate(data) => marked.(candidates := c.candidates + [data])
        case Rejected => marked.(rejected := c.rejected + 1)
        case Descend(children) => CollectAll(h, children, marked)
  }

  function CollectAll(h: Heap, vs: seq<Value>, c: Collection): (r: Collection)
    ensures c.seen <= r.seen
    decreases h.Keys - c.seen, |vs| + 1
  {
    if vs == [] then c
    else
      var d := Collect(h, vs[0], c);
      assert d.seen == c.seen || h.Keys - d.seen < h.Keys - c.seen || h.Keys - d.seen == h.Keys - c.seen;
      CollectAll(h, vs[1..], d)
  }

  /** What a stack of pending values still contributes, last value first. */
  function Drain(h: Heap, pending: seq<Value>, c: Collection): Collection
    decreases |pending|
  {
    if pending == [] then c else Drain(h, pending[..|pending| - 1], Collect(h, pending[|pending| - 1], c))
  }

  function Reverse(vs: seq<Value>): seq<Value> {
    if vs == [] then [] else Reverse(vs[1..]) + [vs[0]]
  }

  lemma {:induction false} DrainReversed(h: Heap, below: seq<Value>, vs: seq<Value>, c: Collection)
    ensures Drain(h, below + Reverse(vs), c) == Drain(h, below, CollectAll(h, vs, c))
    decreases |vs|
  {
    if vs == [] {
      assert below + [] == below;
    } else {
      var stack := below + Reverse(vs);
      assert stack[..|stack| - 1] == below + Reverse(vs[1..]) && stack[|stack| - 1] == vs[0];
      DrainReversed(h, below, vs[1..], Collect(h, vs[0], c));
    }
  }

  method CollectImageCandidates(h: Heap, value: Value) returns (c: Collection)
    ensures c == Collect(h, value, Collection([], 0, {}))
  {
    c := Collection([], 0, {});
    var pending := [value];
    assert pending[..0] == [];
    while pending != []
      invariant Drain(h, pending, c) == Collect(h, value, Collection([], 0, {}))
      decreases h.Keys - c.seen, |pending|
    {
      var current := pending[|pending| - 1];
      pending := pending[..|pending| - 1];
      match current {
        case Text(s) =>
          if IsInlineImage(s) {
            c := c.(candidates := c.candidates + [s]);
          }
        case Atom(_) =>
        case Obj(ref) =>
          if ref in h && ref !in c.seen {
            c := c.(seen := c.seen + {ref});
            match Inspect(h, h[ref]) {
              case Candidate(data) => c := c.(candidates := c.candidates + [data]);
              case Rejected => c := c.(rejected := c.rejected + 1);
              case Descend(children) =>
                DrainReversed(h, pending, children, c);
                pending := PushReversed(pending, children);
            }
          }
      }
    }
  }

  method PushReversed(below: seq<Value>, vs: seq<Value>) returns (pending: seq<Value>)
    ensures pending == below + Reverse(vs)
  {
    pending := below;
    var index := |vs|;
    assert below == below + Reverse(vs[index..]);
    while index > 0
      invariant 0 <= index <= |vs|
      invariant pending == below + Reverse(vs[index..])
    {
      index := index - 1;
      pending := pending + [vs[index]];
      assert vs[index..][1..] == vs[index + 1..];
    }
    assert vs[0..] == vs;
  }

  // ---------- decoding ----------

  datatype Attachment = Attachment(id: string, mimeType: string, data: string, size: nat)

  /** The data part of a base64 image data URI, or the text itself. */
  function RawBase64(text: string): string {
    var head := Before(text, ',');
    if |head| == |text| || !IsInlineImage(text) then text
    else
      var metadata := Split(Drop(head, 5), ';');
      if StartsWith(Lower(metadata[0]), "image/") && exists i :: 1 <= i < |metadata| && Lower(metadata[i]) == "base64"
      then Drop(text, |head| + 1)
      else text
  }

  const ALLOWED_MIME_TYPES: set<string> := {"image/png", "image/jpeg", "image/webp", "image/gif"}

  /** `detect` sniffs the content; `id` is the digest that names the attachment. */
  function DecodeImageAttachment(text: string, detect: seq<Base64Gate.Byte> -> Option<string>,
                                 id: string): Option<Attachment> {
    var base64 := StripSpaces(RawBase64(text));
    if !Base64Gate.Accepts(base64) then None
    else
      var bytes := Base64Gate.Decode(Base64Gate.Body(base64));
      match detect(bytes)
      case Some(mime) => if mime in ALLOWED_MIME_TYPES then Some(Attachment(id, mime, base64, |bytes|)) else None
      case None => None
  }

  /** An attachment is published only as the canonical encoding of bytes that were recognized as its type. */
  lemma AttachmentIsFaithful(text: string, detect: seq<Base64Gate.Byte> -> Option<string>, id: string)
    requires DecodeImageAttachment(text, detect, id).Some?
    ensures var a := DecodeImageAttachment(text, detect, id).value;
            exists bytes: seq<Base64Gate.Byte> ::
              && bytes != [] && (a.data == Base64Gate.Encode(bytes) || a.data == Base64Gate.Padded(bytes))
              && |bytes| == a.size && detect(bytes) == Some(a.mimeType) && a.mimeType in ALLOWED_MIME_TYPES
  {
    Base64Gate.AcceptedIsEncoding(StripSpaces(RawBase64(text)));
  }

  // ---------- projection ----------

  datatype Event = MessageStart(id: string) | MessageComplete(id: string, attachment: Attachment)
      | OmissionWarning(count: nat)

  /** A candidate's text and position to its attachment, if it decodes. */
  type Decoder = (string, nat) -> Option<Attachment>

  /** Position and attachment of the candidates that decode, in order. */
  function Accepted(decode: Decoder, candidates: seq<string>): (r: seq<(nat, Attachment)>) {
    if candidates == [] then []
    else
      var last := |candidates| - 1;
      Accepted(decode, candidates[..last])
      + (match decode(candidates[last], last) case Some(a) => [(last, a)] case None => [])
  }

  ghost predicate Decodes(decode: Decoder, candidates: seq<string>, entry: (nat, Attachment)) {
    entry.0 < |candidates| && decode(candidates[entry.0], entry.0) == Some(entry.1)
  }

  ghost predicate Ascending(entries: seq<(nat, Attachment)>) {
    forall i, j :: 0 <= i < j < |entries| ==> entries[i].0 < entries[j].0
  }

  /** Accepted attachments belong to their candidates and keep candidate order. */
  lemma {:induction false} AcceptedInOrder(decode: Decoder, candidates: seq<string>)
    ensures forall e :: e in Accepted(decode, candidates) ==> Decodes(decode, candidates, e)
    ensures Ascending(Accepted(decode, candidates))
    decreases |candidates|
  {
    if candidates != [] {
      var last := |candidates| - 1;
      AcceptedInOrder(decode, candidates[..last]);
      var before, all := Accepted(decode, candidates[..last]), Accepted(decode, candidates);
      assert forall i :: 0 <= i < |before| ==> before[i] in before;
      forall e | e in all
        ensures Decodes(decode, candidates, e)
      {
        if e in before {
          assert Decodes(decode, candidates[..last], e);
        }
      }
      forall i, j | 0 <= i < j < |all|
        ensures all[i].0 < all[j].0
      {
        assert all[i] == before[i] && Decodes(decode, candidates[..last], before[i]);
        if j < |before| {
          assert before[i].0 < before[j].0;
        }
      }
    }
  }

  /** A candidate is missing only when it does not decode. */
  lemma {:induction false} AcceptedIsComplete(decode: Decoder, candidates: seq<string>, k: nat)
    requires k < |candidates| && decode(candidates[k], k).Some?
    ensures (k, decode(candidates[k], k).value) in Accepted(decode, candidates)
    decreases |candidates|
  {
    var last := |candidates| - 1;
    if k < last {
      assert candidates[..last][k] == candidates[k];
      AcceptedIsComplete(decode, candidates[..last], k);
    }
  }

  /** The output value is kept, or replaced by its sanitized form (`None`: null). */
  datatype Output = Kept | Redacted(tree: Option<Tree>)

  /** A start/complete pair with one message id per attachment. */
  ghost predicate Paired(messageId: nat -> string, accepted: seq<(nat, Attachment)>, events: seq<Event>) {
    && |events| == 2 * |accepted|
    && forall i :: 0 <= i < |accepted| ==>
         && events[2 * i] == MessageStart(messageId(accepted[i].0))
         && events[2 * i + 1] == MessageComplete(messageId(accepted[i].0), accepted[i].1)
  }

  /** The pairs of the accepted attachments, then one warning exactly when something was rejected. */
  ghost predicate Projected(messageId: nat -> string, accepted: seq<(nat, Attachment)>, rejected: nat,
                            events: seq<Event>) {
    && 2 * |accepted| <= |events|
    && Paired(messageId, accepted, events[..2 * |accepted|])
    && events[2 * |accepted|..] == (if rejected > 0 then [OmissionWarning(rejected)] else [])
  }

  /** Nothing is lost between attachments and rejections, and the output is redacted iff an image was found. */
  method ProjectProviderImageOutput(h: Heap, value: Value, decode: Decoder, messageId: nat -> string)
    returns (output: Output, events: seq<Event>, rejected: nat)
    ensures var c := Collect(h, value, Collection([], 0, {}));
            && |Accepted(decode, c.candidates)| + rejected == |c.candidates| + c.rejected
            && Projected(messageId, Accepted(decode, c.candidates), rejected, events)
            && output == (if c.candidates == [] && c.rejected == 0 then Kept else Redacted(Sanitize(h, value)))
  {
    var c := CollectImageCandidates(h, value);
    rejected, events := ProjectCandidates(c.candidates, c.rejected, decode, messageId);
    output := Kept;
    if c.candidates != [] || c.rejected > 0 {
      var sanitized := SanitizeImagePayloads(h, value);
      output := Redacted(sanitized);
    }
  }

  method ProjectCandidates(candidates: seq<string>, initial: nat, decode: Decoder, messageId: nat -> string)
    returns (rejected: nat, events: seq<Event>)
    ensures |Accepted(decode, candidates)| + rejected == |candidates| + initial
    ensures Projected(messageId, Accepted(decode, candidates), rejected, events)
  {
    rejected, events := initial, [];
    var index := 0;
    while index < |candidates|
      invariant 0 <= index <= |candidates|
      invariant |Accepted(decode, candidates[..index])| + rejected == index + initial
      invariant Paired(messageId, Accepted(decode, candidates[..index]), events)
    {
      assert candidates[..index + 1][..index] == candidates[..index];
      var attachment := decode(candidates[index], index);
      if attachment.None? {
        rejected := rejected + 1;
      } else {
        events := events + [MessageStart(messageId(index)), MessageComplete(messageId(index), attachment.value)];
      }
      index := index + 1;
    }
    assert candidates[..index] == candidates;
    ghost var pairs := events;
    if rejected > 0 {
      events := events + [OmissionWarning(rejected)];
    }
    assert events[..|pairs|] == pairs;
  }
}
