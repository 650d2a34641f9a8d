/** The webhook body with a text preview: the ladder of shorter previews that meets two size limits. */
module TextBody {
  import opened Wrappers
  import opened Json

  const MAX_TEXT_UNITS := 65536
  const MAX_BODY_BYTES := 256 * 1024

  /** The JSON library: what it writes it can read back. */
  datatype Codec = Codec(encode: Json -> string, decode: string -> Option<Json>)

  ghost predicate Sound(c: Codec) { forall j :: c.decode(c.encode(j)) == Some(j) }

  function Utf16Units(s: string): nat
  {
    if s == "" then 0 else Utf16Units(s[1..]) + if s[0] > '\U{FFFF}' then 2 else 1
  }

  function CharBytes(c: char): nat
  {
    if c < '\U{80}' then 1 else if c < '\U{800}' then 2 else if c <= '\U{FFFF}' then 3 else 4
  }

  function Utf8Bytes(s: string): nat { if s == "" then 0 else Utf8Bytes(s[1..]) + CharBytes(s[0]) }

  /** Characters of s at this code point or above. */
  function AtLeast(s: string, code: nat): nat
  {
    if s == "" then 0 else AtLeast(s[1..], code) + if s[0] as int >= code then 1 else 0
  }

  /** A character takes one unit and one byte, and one more byte from each of U+0080, U+0800 and U+10000
      on, where it also takes a second unit. */
  lemma {:induction false} EncodedSizes(s: string)
    ensures Utf16Units(s) == |s| + AtLeast(s, 0x10000)
    ensures Utf8Bytes(s) == |s| + AtLeast(s, 0x80) + AtLeast(s, 0x800) + AtLeast(s, 0x10000)
  {
    if s != "" { EncodedSizes(s[1..]); }
  }

  type Event = map<string, Json>

  /** Preview limits in characters, finest first; None keeps everything. */
  const LEVELS: seq<Option<nat>> := [None, Some(4096), Some(1024), Some(256), Some(0)]

  function Take(s: string, limit: nat): string { if |s| <= limit then s else s[..limit] }

  function Shortened(j: Json, limit: nat): Json { if j.Str? then Str(Take(j.s, limit)) else j }

  predicate HasData(event: Event) { "data" in event && event["data"].Obj? }

  predicate CutsContent(data: map<string, Json>, limit: nat)
  {
    "content" in data && data["content"].Str? && |data["content"].s| > limit
  }

  function ShortData(data: map<string, Json>, limit: nat): map<string, Json>
  {
    var short := map k | k in data :: Shortened(data[k], limit);
    if CutsContent(data, limit) then short["content_truncated" := Bool(true)] else short
  }

  function Preview(event: Event, level: Option<nat>): Event
    requires level.Some? ==> HasData(event)
  {
    if level.None? then event
    else event["data" := Obj(ShortData(event["data"].fields, level.value))]["text_truncated" := Bool(true)]
  }

  function Text(c: Codec, event: Event, level: Option<nat>): string
    requires level.Some? ==> HasData(event)
  {
    c.encode(Obj(Preview(event, level)))
  }

  /** The body at one level; `cut` also replaces the outer data by its preview. */
  function Payload(c: Codec, event: Event, level: Option<nat>, cut: bool): Event
    requires level.Some? ==> HasData(event)
    requires cut ==> level.Some?
  {
    var withText := event["text" := Str(Text(c, event, level))];
    if cut then withText["data" := Preview(event, level)["data"]]["data_truncated" := Bool(true)] else withText
  }

  function Body(c: Codec, event: Event, level: Option<nat>, cut: bool): string
    requires level.Some? ==> HasData(event)
    requires cut ==> level.Some?
  {
    c.encode(Obj(Payload(c, event, level, cut)))
  }

  predicate Fits(c: Codec, event: Event, level: Option<nat>, cut: bool)
    requires level.Some? ==> HasData(event)
    requires cut ==> level.Some?
  {
    Utf16Units(Text(c, event, level)) <= MAX_TEXT_UNITS && Utf8Bytes(Body(c, event, level, cut)) <= MAX_BODY_BYTES
  }

  /** A rung of the ladder: a level, with or without cutting the outer data. */
  predicate Rung(event: Event, k: nat, cut: bool)
  {
    k < |LEVELS| && (LEVELS[k].Some? ==> HasData(event)) && (cut ==> LEVELS[k].Some?)
  }

  predicate Finer(k: nat, cut: bool, k': nat, cut': bool) { k < k' || (k == k' && !cut && cut') }

  /** The chosen rung fits and every finer one does not. */
  ghost predicate Finest(c: Codec, event: Event, k: nat, cut: bool)
  {
    && Rung(event, k, cut) && Fits(c, event, LEVELS[k], cut)
    && forall i: nat, cutI: bool | Rung(event, i, cutI) && Finer(i, cutI, k, cut) :: !Fits(c, event, LEVELS[i], cutI)
  }

  /** The body of the rung, which with a sound codec tells its receiver no more and no less. */
  ghost predicate Returned(c: Codec, event: Event, k: nat, cut: bool, body: string)
    requires Rung(event, k, cut)
  {
    body == Body(c, event, LEVELS[k], cut) && (Sound(c) ==> Faithful(c, event, LEVELS[k], cut, body))
  }

  lemma FinestIsReturned(c: Codec, event: Event, k: nat, cut: bool)
    requires Finest(c, event, k, cut)
    ensures Returned(c, event, k, cut, Body(c, event, LEVELS[k], cut))
  {
    hide Faithful, Body, Fits, HasData;
    if Sound(c) { FittingBodyIsFaithful(c, event, LEVELS[k], cut); }
  }

  /** A rung fits when its text takes at most 65536 UTF-16 units and its body at most 256 KiB. */
  lemma FitsMeans(c: Codec, event: Event, level: Option<nat>, cut: bool)
    requires level.Some? ==> HasData(event)
    requires cut ==> level.Some?
    ensures Fits(c, event, level, cut) <==>
      Utf16Units(Text(c, event, level)) <= 65536 && Utf8Bytes(Body(c, event, level, cut)) <= 262144
  {
  }

  /** The ladder keeps everything first, and then 4096, 1024, 256 and no characters of each string. */
  lemma Ladder(event: Event, k: nat, cut: bool)
    ensures Rung(event, k, cut) <==>
      || (k == 0 && !cut && LEVELS[0] == None)
      || (1 <= k <= 4 && HasData(event) && LEVELS[k] == Some([4096, 1024, 256, 0][k - 1]))
  {
  }

  method ShortenData(data: map<string, Json>, limit: nat) returns (short: map<string, Json>)
    ensures short == ShortData(data, limit)
  {
    short := data;
    var todo, contentTruncated := data.Keys, false;
    while todo != {}
      invariant todo <= data.Keys == short.Keys
      invariant forall k <- data :: short[k] == if k in todo then data[k] else Shortened(data[k], limit)
      invariant contentTruncated <==> CutsContent(data, limit) && "content" !in todo
      decreases |todo|
    {
      var name :| name in todo;
      var value := short[name];
      if value.Str? && |value.s| > limit {
        contentTruncated := contentTruncated || name == "content";
        short := short[name := Str(value.s[..limit])];
      }
      todo := todo - {name};
    }
    if contentTruncated { short := short["content_truncated" := Bool(true)]; }
  }

  /** body_with_text: the body of the first rung, from the finest down, that meets both limits. */
  method BodyWithText(c: Codec, input: string) returns (r: Result<string, ()>)
    ensures c.decode(input).None? || !c.decode(input).value.Obj? ==> r.Err?
    ensures c.decode(input).Some? && c.decode(input).value.Obj? ==>
      var event := c.decode(input).value.fields;
      && (r.Ok? ==> exists k: nat, cut: bool :: Finest(c, event, k, cut) && Returned(c, event, k, cut, r.value))
      && (r.Err? ==> forall k: nat, cut: bool | Rung(event, k, cut) :: !Fits(c, event, LEVELS[k], cut))
  {
    hide Utf16Units, Utf8Bytes, ShortData, Body, Text, Payload, Sound, Faithful, Returned;
    var decoded := c.decode(input);
    if decoded.None? || !decoded.value.Obj? { return Err(()); }
    var event := decoded.value.fields;
    var k := 0;
    while k < |LEVELS|
      invariant 0 <= k <= |LEVELS|
      invariant forall i: nat, cut: bool | i < k && Rung(event, i, cut) :: !Fits(c, event, LEVELS[i], cut)
    {
      var level := LEVELS[k];
      if level.Some? && !HasData(event) {
        assert forall i: nat, cut: bool | Rung(event, i, cut) :: i == 0 && i < k;
        return Err(());
      }
      var preview := event;
      if level.Some? {
        var data := ShortenData(event["data"].fields, level.value);
        preview := preview["data" := Obj(data)]["text_truncated" := Bool(true)];
      }
      assert preview == Preview(event, level);
      var text := c.encode(Obj(preview));
      assert text == Text(c, event, level) by { TextOf(c, event, level); }
      if Utf16Units(text) <= MAX_TEXT_UNITS {
        var payload := event["text" := Str(text)];
        assert payload == Payload(c, event, level, false) by { PayloadOf(c, event, level); }
        var body := c.encode(Obj(payload));
        BodyOf(c, event, level, false);
        if Utf8Bytes(body) <= MAX_BODY_BYTES {
          assert Finest(c, event, k, false);
          FinestIsReturned(c, event, k, false);
          return Ok(body);
        }
        if level.Some? {
          payload := payload["data" := preview["data"]]["data_truncated" := Bool(true)];
          assert payload == Payload(c, event, level, true) by { PayloadOf(c, event, level); }
          body := c.encode(Obj(payload));
          BodyOf(c, event, level, true);
          if Utf8Bytes(body) <= MAX_BODY_BYTES {
            assert Finest(c, event, k, true);
            FinestIsReturned(c, event, k, true);
            return Ok(body);
          }
        }
      }
      k := k + 1;
    }
    return Err(());
  }

  lemma TextOf(c: Codec, event: Event, level: Option<nat>)
    requires level.Some? ==> HasData(event)
    ensures Text(c, event, level) == c.encode(Obj(Preview(event, level)))
  {
  }

  lemma PayloadOf(c: Codec, event: Event, level: Option<nat>)
    requires level.Some? ==> HasData(event)
    ensures Payload(c, event, level, false) == event["text" := Str(Text(c, event, level))]
    ensures level.Some? ==>
      var withText := event["text" := Str(Text(c, event, level))];
      var data := Preview(event, level)["data"];
      Payload(c, event, level, true) == withText["data" := data]["data_truncated" := Bool(true)]
  {
  }

  lemma BodyOf(c: Codec, event: Event, level: Option<nat>, cut: bool)
    requires level.Some? ==> HasData(event)
    requires cut ==> level.Some?
    ensures Body(c, event, level, cut) == c.encode(Obj(Payload(c, event, level, cut)))
  {
  }

  // ---- what a receiver gets ----

  predicate IsPrefix(short: string, full: string) { |short| <= |full| && short == full[..|short|] }

  predicate Marked(j: map<string, Json>, key: string) { key in j && j[key] == Bool(true) }

  /** The content is a string longer than the limit. */
  ghost predicate ContentCut(data: map<string, Json>, limit: nat)
  {
    "content" in data && exists s :: data["content"] == Str(s) && |s| > limit
  }

  /** Strings of at most `limit` characters and other values are untouched, longer strings are cut to a
      prefix of exactly `limit` characters, and only the marker that the content was cut is added. */
  ghost predicate CutTo(data: map<string, Json>, short: map<string, Json>, limit: nat)
  {
    && short.Keys == data.Keys + (if ContentCut(data, limit) then {"content_truncated"} else {})
    && (ContentCut(data, limit) ==> short["content_truncated"] == Bool(true))
    && forall k <- data | !(k == "content_truncated" && ContentCut(data, limit)) ::
         if data[k].Str? && |data[k].s| > limit
         then short[k].Str? && |short[k].s| == limit && IsPrefix(short[k].s, data[k].s)
         else short[k] == data[k]
  }

  /** The preview of the event at a level: the event itself, or one with its data cut and a mark. */
  ghost predicate Previews(event: Event, level: Option<nat>, inner: Event)
  {
    match level
    case None => inner == event
    case Some(limit) =>
      && HasData(event) && HasData(inner) && inner.Keys == event.Keys + {"text_truncated"}
      && Marked(inner, "text_truncated") && CutTo(event["data"].fields, inner["data"].fields, limit)
      && forall k <- event | k !in {"data", "text_truncated"} :: inner[k] == event[k]
  }

  /** What the decoded body and its decoded text say about the event they came from. */
  ghost predicate Faithful(c: Codec, event: Event, level: Option<nat>, cut: bool, body: string)
  {
    && Utf8Bytes(body) <= 262144 && c.decode(body).Some? && c.decode(body).value.Obj?
    && var outer := c.decode(body).value.fields;
    && outer.Keys == event.Keys + {"text"} + (if cut then {"data", "data_truncated"} else {})
    && outer["text"].Str? && Utf16Units(outer["text"].s) <= 65536
    && c.decode(outer["text"].s).Some? && c.decode(outer["text"].s).value.Obj?
    && var inner := c.decode(outer["text"].s).value.fields;
    && Previews(event, level, inner)
    && (forall k <- event | k != "text" && !(cut && k in {"data", "data_truncated"}) :: outer[k] == event[k])
    && (cut ==> Marked(outer, "data_truncated") && "data" in inner && outer["data"] == inner["data"])
  }

  lemma ShortDataCutTo(data: map<string, Json>, limit: nat)
    ensures CutTo(data, ShortData(data, limit), limit)
  {
    assert CutsContent(data, limit) <==> ContentCut(data, limit);
  }

  lemma PreviewPreviews(event: Event, level: Option<nat>)
    requires level.Some? ==> HasData(event)
    ensures Previews(event, level, Preview(event, level))
  {
    hide ShortData, CutTo;
    if level.Some? { ShortDataCutTo(event["data"].fields, level.value); }
  }

  lemma PayloadKeeps(c: Codec, event: Event, level: Option<nat>, cut: bool)
    requires level.Some? ==> HasData(event)
    requires cut ==> level.Some?
    ensures var outer, inner := Payload(c, event, level, cut), Preview(event, level);
      && outer.Keys == event.Keys + {"text"} + (if cut then {"data", "data_truncated"} else {})
      && outer["text"] == Str(Text(c, event, level))
      && (forall k <- event | k != "text" && !(cut && k in {"data", "data_truncated"}) :: outer[k] == event[k])
      && (cut ==> Marked(outer, "data_truncated") && "data" in inner && outer["data"] == inner["data"])
  {
    hide ShortData, Text;
  }

  /** A body that fits meets both limits and decodes to the event with a text added and, when cut, with
      the data of the preview; the text decodes to the preview at that level. */
  lemma FittingBodyIsFaithful(c: Codec, event: Event, level: Option<nat>, cut: bool)
    requires Sound(c)
    requires level.Some? ==> HasData(event)
    requires cut ==> level.Some?
    requires Fits(c, event, level, cut)
    ensures Faithful(c, event, level, cut, Body(c, event, level, cut))
  {
    hide Utf16Units, Utf8Bytes, ShortData, Previews, Preview, Payload;
    var payload, preview := Payload(c, event, level, cut), Preview(event, level);
    assert c.decode(Body(c, event, level, cut)) == Some(Obj(payload));
    assert c.decode(Text(c, event, level)) == Some(Obj(preview));
    PreviewPreviews(event, level);
    PayloadKeeps(c, event, level, cut);
  }

  /** The content is marked cut exactly when a content string was longer than the limit. */
  lemma ContentMark(event: Event, limit: nat)
    requires HasData(event) && "content_truncated" !in event["data"].fields
    ensures Preview(event, Some(limit))["data"].Obj?
    ensures Marked(Preview(event, Some(limit))["data"].fields, "content_truncated") <==>
      "content" in event["data"].fields && event["data"].fields["content"].Str? &&
        |event["data"].fields["content"].s| > limit
  {
  }
}
