/** The inbound half of `Messaging.receive`: the decoded webhook body is
    translated into the generic message record. Reading the body from the
    standard input is left to the caller, which passes the decoded value. */
module Inbound {
  import opened Json
  import Merge

  /** The dict `receive` returns. */
  datatype Received = Received(
    sender: Value,
    recipient: Value,
    text: Value,
    attachment: seq<Value>,
    other: Value,
    raw: Value)

  /** `d[k]` when present, else None. */
  function Field(d: map<string, Value>, k: string): Value {
    if k in d then d[k] else Null
  }

  /** One guarded copy `if test in src: acc[dst] = src[key]`. */
  function CopyIf(src: Value, test: string, key: string, dst: string, acc: map<string, Value>)
    : Result<map<string, Value>>
  {
    var has :- Contains(test, src);
    if !has then Ok(acc)
    else
      var v :- GetKey(src, key);
      Ok(acc[dst := v])
  }

  /* ------------------------------------------------------------------ */
  /* Facebook webhook shape                                              */
  /* ------------------------------------------------------------------ */

  /** What the Facebook branch has assigned so far: the two ids, the text,
      the attachment list and the `other` dict. */
  datatype Event = Event(
    senderId: Value,
    recipientId: Value,
    text: Value,
    attachment: seq<Value>,
    other: map<string, Value>)

  const NoEvent := Event(Null, Null, Null, [], map[])

  function Assemble(e: Event, data: Value): Received {
    Received(Obj(map["id" := e.senderId]), Obj(map["id" := e.recipientId]),
             e.text, e.attachment, Obj(e.other), data)
  }

  /** The shape test `'entry' in data and data['entry'] and 'messaging' in
      data['entry'][0]`. It stands outside the `try`, so its exceptions
      reach the caller of `receive`. */
  function FacebookGuard(data: Value): (r: Result<bool>)
    ensures r == Ok(true) <==>
      && data.Obj? && "entry" in data.fields && Truthy(data.fields["entry"])
      && First(data.fields["entry"]).Ok?
      && Contains("messaging", First(data.fields["entry"]).value) == Ok(true)
    ensures data.Obj? && "entry" !in data.fields ==> r == Ok(false)
    ensures Contains("entry", data).Err? ==> r.Err?
  {
    var hasEntry :- Contains("entry", data);
    if !hasEntry then Ok(false)
    else
      var entry :- GetKey(data, "entry");
      if !Truthy(entry) then Ok(false)
      else
        var first :- First(entry);
        Contains("messaging", first)
  }

  /** `data['entry'][0]['messaging'][0]`, the event every statement of the
      `try` block starts from. */
  function FirstEvent(data: Value): Result<Value> {
    var entry :- GetKey(data, "entry");
    var first :- First(entry);
    var messaging :- GetKey(first, "messaging");
    First(messaging)
  }

  /** The sender and recipient ids. */
  function IdsStage(m: Value): Partial<Event> {
    match Path(m, ["sender", "id"])
    case Err(_) => Partial(NoEvent, false)
    case Ok(sid) =>
      var e := NoEvent.(senderId := sid);
      match Path(m, ["recipient", "id"])
      case Err(_) => Partial(e, false)
      case Ok(rid) => Partial(e.(recipientId := rid), true)
  }

  function DeliveryWatermark(m: Value, o: map<string, Value>): Result<map<string, Value>> {
    var has :- Contains("delivery", m);
    if !has then Ok(o)
    else
      var d :- GetKey(m, "delivery");
      CopyIf(d, "watermark", "watermark", "delivery", o)
  }

  /** As written, a delivery receipt that carries `mids` has `other['mids']`
      filled from its `watermark`, and a receipt without a watermark makes
      the copy raise. */
  function DeliveryMids(m: Value, o: map<string, Value>): Result<map<string, Value>> {
    var has :- Contains("delivery", m);
    if !has then Ok(o)
    else
      var d :- GetKey(m, "delivery");
      CopyIf(d, "mids", "watermark", "mids", o)
  }

  /** `'read' in m and 'watermark' in m['read']` */
  function ReadWatermark(m: Value, o: map<string, Value>): Result<map<string, Value>> {
    var has :- Contains("read", m);
    if !has then Ok(o)
    else
      var r :- GetKey(m, "read");
      CopyIf(r, "watermark", "watermark", "read", o)
  }

  /** The timestamp and the delivery and read watermarks, in source order; a
      statement that raises stops the rest and keeps what came before. */
  function SignalsStage(m: Value, o: map<string, Value>): Partial<map<string, Value>> {
    match CopyIf(m, "timestamp", "timestamp", "timestamp", o)
    case Err(_) => Partial(o, false)
    case Ok(o1) =>
      match DeliveryWatermark(m, o1)
      case Err(_) => Partial(o1, false)
      case Ok(o2) =>
        match DeliveryMids(m, o2)
        case Err(_) => Partial(o2, false)
        case Ok(o3) =>
          match ReadWatermark(m, o3)
          case Err(_) => Partial(o3, false)
          case Ok(o4) => Partial(o4, true)
  }

  /** The text of a `message` event: copied when present, `""` when the
      message has none; None when the event is not a message. */
  function MessageText(m: Value): Result<Option<Value>> {
    var has :- Contains("message", m);
    if !has then Ok(None)
    else
      var msg :- GetKey(m, "message");
      var hasText :- Contains("text", msg);
      if hasText then
        var t :- GetKey(msg, "text");
        Ok(Some(t))
      else Ok(Some(Str("")))
  }

  function IsEcho(m: Value, o: map<string, Value>): Result<map<string, Value>> {
    var has :- Contains("message", m);
    if !has then Ok(o)
    else
      var msg :- GetKey(m, "message");
      CopyIf(msg, "is_echo", "is_echo", "is_echo", o)
  }

  /** A message id becomes the one-element list `other['mids']`. */
  function MessageMid(m: Value, o: map<string, Value>): Result<map<string, Value>> {
    var has :- Contains("message", m);
    if !has then Ok(o)
    else
      var msg :- GetKey(m, "message");
      var hasMid :- Contains("mid", msg);
      if !hasMid then Ok(o)
      else
        var mid :- GetKey(msg, "mid");
        Ok(o["mids" := Arr([mid])])
  }

  /** `message['attachments']` when the event is a message that has them. */
  function AttachmentSource(m: Value): Result<Option<Value>> {
    var has :- Contains("message", m);
    if !has then Ok(None)
    else
      var msg :- GetKey(m, "message");
      var hasAtt :- Contains("attachments", msg);
      if !hasAtt then Ok(None)
      else
        var c :- GetKey(msg, "attachments");
        Ok(Some(c))
  }

  /** The record every kept attachment starts from. */
  function AttachmentTemplate(kind: Value): map<string, Value> {
    map["url" := Null, "type" := kind, "reusable" := Null, "title" := Null,
        "description" := Null, "sticker" := Null, "latitude" := Null,
        "longitude" := Null, "buttons" := Arr([])]
  }

  function Coordinates(p: Value, t: map<string, Value>): Result<map<string, Value>> {
    var has :- Contains("coordinates", p);
    if !has then Ok(t)
    else
      var c :- GetKey(p, "coordinates");
      var lat :- GetKey(c, "lat");
      var long :- GetKey(c, "long");
      Ok(t["latitude" := lat]["longitude" := long])
  }

  /** The fields of a truthy `payload`. */
  function FromPayload(p: Value, tmp: map<string, Value>): Result<map<string, Value>> {
    var t1 :- CopyIf(p, "url", "url", "url", tmp);
    var t2 :- CopyIf(p, "title", "title", "title", t1);
    var t3 :- CopyIf(p, "subtitle", "subtitle", "description", t2);
    var t4 :- CopyIf(p, "sticker_id", "sticker_id", "sticker", t3);
    var t5 :- Coordinates(p, t4);
    CopyIf(p, "is_reusable", "is_reusable", "reusable", t5)
  }

  /** The undocumented fallback for a falsy `payload`: the item itself
      carries `url`, `title` and `subtitle`. */
  function FromItem(item: Value, tmp: map<string, Value>): Result<map<string, Value>> {
    var t1 :- CopyIf(item, "url", "url", "url", tmp);
    var t2 :- CopyIf(item, "title", "title", "title", t1);
    CopyIf(item, "subtitle", "subtitle", "description", t2)
  }

  /** One pass of the attachment loop: None when the item is skipped (falsy,
      or without `payload`), the translated record otherwise. */
  function FbAttachment(item: Value): (r: Result<Option<Value>>)
    ensures !Truthy(item) || Contains("payload", item) == Ok(false) ==> r == Ok(None)
    ensures r.Ok? && r.value.Some? ==>
      item.Obj? && "payload" in item.fields && "type" in item.fields && r.value.value.Obj?
  {
    if !Truthy(item) then Ok(None)
    else
      var hasPayload :- Contains("payload", item);
      if !hasPayload then Ok(None)
      else
        var kind :- GetKey(item, "type");
        var payload :- GetKey(item, "payload");
        var tmp := AttachmentTemplate(kind);
        var t :- if Truthy(payload) then FromPayload(payload, tmp) else FromItem(item, tmp);
        Ok(Some(Obj(t)))
  }

  /** The attachment loop over a list: items in order, stopping at the first
      item that raises with the records appended so far. */
  function FbAttachments(items: seq<Value>): (r: Partial<seq<Value>>)
    ensures |r.value| <= |items|
    ensures forall j :: 0 <= j < |r.value| ==> r.value[j].Obj?
    decreases |items|
  {
    if items == [] then Partial([], true)
    else
      var before := FbAttachments(items[..|items| - 1]);
      if !before.ok then before
      else
        match FbAttachment(items[|items| - 1])
        case Err(_) => Partial(before.value, false)
        case Ok(None) => before
        case Ok(Some(a)) => Partial(before.value + [a], true)
  }

  /** The attachment loop over whatever `attachments` holds. A string yields
      its characters and a dict its keys: all of them are strings, which are
      skipped unless they contain "payload", and then raise; so the outcome
      does not depend on the (unmodelled) order of a dict's keys, see
      KeyOrderIrrelevant. Anything else is not iterable. */
  function IterateAttachments(c: Value): Partial<seq<Value>> {
    match c
    case Arr(items) => FbAttachments(items)
    case Str(s) => FbAttachments(Chars(s))
    case Obj(m) => Partial([], forall k :: k in m ==> FbAttachment(Str(k)).Ok?)
    case _ => Partial([], false)
  }

  /** The statements of the `try` block before the attachment loop: `ok`
      says whether all of them ran. */
  function Prelude(m: Value): Partial<Event> {
    var p1 := IdsStage(m);
    if !p1.ok then p1
    else
      var p2 := SignalsStage(m, p1.value.other);
      var e2 := p1.value.(other := p2.value);
      if !p2.ok then Partial(e2, false)
      else
        match MessageText(m)
        case Err(_) => Partial(e2, false)
        case Ok(t) =>
          var e3 := if t.Some? then e2.(text := t.value) else e2;
          match IsEcho(m, e3.other)
          case Err(_) => Partial(e3, false)
          case Ok(o4) =>
            var e4 := e3.(other := o4);
            match MessageMid(m, o4)
            case Err(_) => Partial(e4, false)
            case Ok(o5) => Partial(e4.(other := o5), true)
  }

  /** The `try` block of the Facebook branch, run on the first event. */
  function RunEvent(m: Value): Event {
    var pre := Prelude(m);
    if !pre.ok then pre.value
    else
      match AttachmentSource(m)
      case Ok(Some(c)) => pre.value.(attachment := IterateAttachments(c).value)
      case _ => pre.value
  }

  /** The Facebook branch of `receive`. An exception inside the `try` is
      logged and what had been assigned stays; one in the shape test
      propagates. */
  function FacebookInbound(data: Value): (r: Result<Received>)
    ensures r.Err? <==> FacebookGuard(data).Err?
    ensures r.Err? ==> r.error == FacebookGuard(data).error
    ensures r.Ok? ==> r.value.raw == data
    ensures FacebookGuard(data) == Ok(false) || (FacebookGuard(data) == Ok(true) && FirstEvent(data).Err?) ==>
      r == Ok(Received(NoId, NoId, Null, [], Obj(map[]), data))
  {
    var recognized :- FacebookGuard(data);
    if !recognized then Ok(Assemble(NoEvent, data))
    else
      match FirstEvent(data)
      case Err(_) => Ok(Assemble(NoEvent, data))
      case Ok(m) => Ok(Assemble(RunEvent(m), data))
  }

  /* ------------------------------------------------------------------ */
  /* Raw shape                                                           */
  /* ------------------------------------------------------------------ */

  /** The attachment fields the raw transport keeps. */
  const RawAllowedKeys: set<string> :=
    {"url", "type", "reusable", "title", "description", "sticker", "latitude", "longitude"}

  /** The allow-listed part of one attachment dict. */
  function AllowedPart(m: map<string, Value>): map<string, Value> {
    map k | k in m && k in RawAllowedKeys :: m[k]
  }

  function RawAttachment(item: Value): Result<Option<Value>> {
    match item
    case Obj(m) =>
      var fix := AllowedPart(m);
      if fix == map[] then Ok(None) else Ok(Some(Obj(fix)))
    case _ => Err(AttributeError)   // `item.items()`
  }

  function RawAttachments(items: seq<Value>): Result<seq<Value>>
    decreases |items|
  {
    if items == [] then Ok([])
    else
      var before :- RawAttachments(items[..|items| - 1]);
      var last :- RawAttachment(items[|items| - 1]);
      if last.Some? then Ok(before + [last.value]) else Ok(before)
  }

  /** The raw attachment loop over whatever `attachment` holds: characters of
      a string and keys of a dict are strings, which have no `items()`. */
  function RawAttachmentsOf(c: Value): Result<seq<Value>> {
    match c
    case Arr(items) => RawAttachments(items)
    case Str(s) => RawAttachments(Chars(s))
    case Obj(m) => if m == map[] then Ok([]) else Err(AttributeError)
    case _ => Err(TypeError)
  }

  const NoId := Obj(map["id" := Null])

  /** The statements of the raw `try` block. */
  function RawParts(data: Value): Result<Received> {
    var s :- GetKey(data, "sender");
    var sender :- Merge.DeepMerge(NoId, s);
    var r :- GetKey(data, "recipient");
    var recipient :- Merge.DeepMerge(NoId, r);
    var hasText :- Contains("text", data);
    var text :- if hasText then GetKey(data, "text") else Ok(Str(""));
    var hasAtt :- Contains("attachment", data);
    var atts :- if hasAtt then (var c :- GetKey(data, "attachment"); RawAttachmentsOf(c)) else Ok([]);
    var hasOther :- Contains("other", data);
    var other :- if hasOther then GetKey(data, "other") else Ok(Obj(map[]));
    Ok(Received(sender, recipient, text, atts, other, data))
  }

  /** The raw branch of `receive`. Its bare `except:` formats the unbound
      name `e`, so every exception of the block surfaces as NameError
      (UnboundLocalError) and nothing is returned. */
  function RawInbound(data: Value): (r: Result<Received>)
    ensures r.Err? ==> r.error == NameError
    ensures r.Ok? ==> r.value.raw == data && data.Obj? && "sender" in data.fields && "recipient" in data.fields
  {
    match RawParts(data)
    case Ok(r) => Ok(r)
    case Err(_) => Err(NameError)
  }

  /* ------------------------------------------------------------------ */
  /* The loops, as the source runs them                                  */
  /* ------------------------------------------------------------------ */

  /** The attachment loop runs to the end exactly when no item raises. */
  lemma {:induction false} CompletesUnlessRaised(items: seq<Value>)
    ensures FbAttachments(items).ok <==> forall i :: 0 <= i < |items| ==> FbAttachment(items[i]).Ok?
    decreases |items|
  {
    if items != [] {
      var init := items[..|items| - 1];
      CompletesUnlessRaised(init);
      assert forall i :: 0 <= i < |init| ==> init[i] == items[i];
    }
  }

  /** Once the attachment loop has stopped, later items change nothing. */
  lemma {:induction false} FailureIsFinal(items: seq<Value>, n: nat)
    requires n <= |items| && !FbAttachments(items[..n]).ok
    ensures FbAttachments(items) == FbAttachments(items[..n])
    decreases |items| - n
  {
    if n < |items| {
      assert items[..n + 1][..n] == items[..n];
      assert FbAttachments(items[..n + 1]) == FbAttachments(items[..n]);
      FailureIsFinal(items, n + 1);
    } else {
      assert items[..n] == items;
    }
  }

  /** `for item in ...['attachments']` over a list. */
  method CollectFacebookAttachments(items: seq<Value>) returns (atts: seq<Value>, ok: bool)
    ensures Partial(atts, ok) == FbAttachments(items)
  {
    atts := [];
    var i := 0;
    while i < |items|
      invariant 0 <= i <= |items|
      invariant FbAttachments(items[..i]) == Partial(atts, true)
    {
      assert items[..i + 1][..i] == items[..i];
      var step := FbAttachment(items[i]);
      if step.Err? {
        FailureIsFinal(items, i + 1);
        return atts, false;
      }
      if step.value.Some? {
        atts := atts + [step.value.value];
      }
      i := i + 1;
    }
    assert items[..i] == items;
    ok := true;
  }

  /** `for key, value in item.items(): if key in (...): item_fix[key] = value` */
  method FilterAllowed(m: map<string, Value>) returns (fix: map<string, Value>)
    ensures fix == AllowedPart(m)
  {
    fix := map[];
    var todo := m.Keys;
    while todo != {}
      invariant todo <= m.Keys
      invariant fix == map k | k in m && k !in todo && k in RawAllowedKeys :: m[k]
      decreases todo
    {
      var k :| k in todo;
      if k in RawAllowedKeys {
        fix := fix[k := m[k]];
      }
      todo := todo - {k};
    }
  }

  /** `for item in data['attachment']` over a list. */
  method CollectRawAttachments(items: seq<Value>) returns (r: Result<seq<Value>>)
    ensures r == RawAttachments(items)
  {
    var atts: seq<Value> := [];
    var i := 0;
    while i < |items|
      invariant 0 <= i <= |items|
      invariant RawAttachments(items[..i]) == Ok(atts)
    {
      assert items[..i + 1][..i] == items[..i];
      if !items[i].Obj? {
        RawFailureIsFinal(items, i + 1);
        return Err(AttributeError);
      }
      var fix := FilterAllowed(items[i].fields);
      if fix != map[] {
        atts := atts + [Obj(fix)];
      }
      i := i + 1;
    }
    assert items[..i] == items;
    r := Ok(atts);
  }

  lemma {:induction false} RawFailureIsFinal(items: seq<Value>, n: nat)
    requires n <= |items| && RawAttachments(items[..n]).Err?
    ensures RawAttachments(items) == Err(AttributeError)
    decreases |items| - n
  {
    RawErrorIsAttributeError(items[..n]);
    if n < |items| {
      assert items[..n + 1][..n] == items[..n];
      RawFailureIsFinal(items, n + 1);
    } else {
      assert items[..n] == items;
    }
  }

  lemma {:induction false} RawErrorIsAttributeError(items: seq<Value>)
    requires RawAttachments(items).Err?
    ensures RawAttachments(items) == Err(AttributeError)
    decreases |items|
  {
    if items != [] && RawAttachments(items[..|items| - 1]).Err? {
      RawErrorIsAttributeError(items[..|items| - 1]);
    }
  }

  /** The raw branch of `receive`, statement by statement. */
  method TranslateRaw(data: Value) returns (r: Result<Received>)
    ensures r == RawInbound(data)
  {
    var s := GetKey(data, "sender");
    if s.Err? { return Err(NameError); }
    var sender := Merge.DeepDictMerge(NoId, s.value);
    if sender.Err? { return Err(NameError); }
    var rc := GetKey(data, "recipient");
    if rc.Err? { return Err(NameError); }
    var recipient := Merge.DeepDictMerge(NoId, rc.value);
    if recipient.Err? { return Err(NameError); }
    // `data` is a dict from here on
    var df := data.fields;
    var text := if "text" in df then df["text"] else Str("");
    var atts: seq<Value> := [];
    if "attachment" in df {
      var c := df["attachment"];
      var collected: Result<seq<Value>>;
      match c {
        case Arr(items) => collected := CollectRawAttachments(items);
        case Str(chars) => collected := CollectRawAttachments(Chars(chars));
        case Obj(m) => collected := if m == map[] then Ok([]) else Err(AttributeError);
        case _ => collected := Err(TypeError);
      }
      if collected.Err? { return Err(NameError); }
      atts := collected.value;
    }
    var other := if "other" in df then df["other"] else Obj(map[]);
    r := Ok(Received(sender.value, recipient.value, text, atts, other, data));
  }

  /** The Facebook branch of `receive`, running the attachment loop. */
  method TranslateFacebook(data: Value) returns (r: Result<Received>)
    ensures r == FacebookInbound(data)
  {
    var recognized :- FacebookGuard(data);
    var first := FirstEvent(data);
    if !recognized || first.Err? {
      return Ok(Assemble(NoEvent, data));
    }
    var m := first.value;
    var pre := Prelude(m);
    var e := pre.value;
    if pre.ok {
      var source := AttachmentSource(m);
      if source.Ok? && source.value.Some? {
        var c := source.value.value;
        var atts: seq<Value> := [];
        var done := true;
        if c.Arr? {
          atts, done := CollectFacebookAttachments(c.items);
        } else if c.Str? {
          atts, done := CollectFacebookAttachments(Chars(c.s));
        }
        e := e.(attachment := atts);
      }
    }
    r := Ok(Assemble(e, data));
  }

  /* ------------------------------------------------------------------ */
  /* Properties of the Facebook translation                              */
  /* ------------------------------------------------------------------ */

  /** The sub-dict `mf[k]`, or nothing. */
  function Sub(mf: map<string, Value>, k: string): map<string, Value> {
    if k in mf && mf[k].Obj? then mf[k].fields else map[]
  }

  /** An event every statement of the `try` block can read: both ids are
      present, the receipts and the message are dicts, and a delivery
      receipt that lists `mids` also carries a watermark. */
  predicate WellFormedEvent(m: Value) {
    && m.Obj?
    && Path(m, ["sender", "id"]).Ok?
    && Path(m, ["recipient", "id"]).Ok?
    && ("delivery" in m.fields ==> m.fields["delivery"].Obj?)
    && ("mids" in Sub(m.fields, "delivery") ==> "watermark" in Sub(m.fields, "delivery"))
    && ("read" in m.fields ==> m.fields["read"].Obj?)
    && ("message" in m.fields ==> m.fields["message"].Obj?)
  }

  /** The timestamp and the receipts' watermarks of a well-formed event, in
      source order. */
  function ReceiptsOf(mf: map<string, Value>): map<string, Value> {
    var o0: map<string, Value> := map[];
    var o1 := if "timestamp" in mf then o0["timestamp" := mf["timestamp"]] else o0;
    var d := Sub(mf, "delivery");
    var o2 := if "watermark" in d then o1["delivery" := d["watermark"]] else o1;
    var o3 := if "mids" in d then o2["mids" := Field(d, "watermark")] else o2;
    var rd := Sub(mf, "read");
    if "watermark" in rd then o3["read" := rd["watermark"]] else o3
  }

  /** The `other` dict of a well-formed event, assembled in source order:
      the receipts, then the message's echo flag and id. */
  function SignalsOf(mf: map<string, Value>): map<string, Value> {
    var msg := Sub(mf, "message");
    var o5 := if "is_echo" in msg then ReceiptsOf(mf)["is_echo" := msg["is_echo"]] else ReceiptsOf(mf);
    if "mid" in msg then o5["mids" := Arr([msg["mid"]])] else o5
  }

  /** The text of a well-formed event: the message's text, `""` for a
      message without one, None for a receipt. */
  function EventText(mf: map<string, Value>): Value {
    if "message" !in mf then Null
    else if "text" in Sub(mf, "message") then Sub(mf, "message")["text"]
    else Str("")
  }

  /** On a well-formed event every statement before the attachment loop
      runs: the ids, the text and `other` are those of the event. */
  lemma EventPrelude(m: Value)
    requires WellFormedEvent(m)
    ensures Prelude(m) ==
      Partial(Event(Path(m, ["sender", "id"]).value, Path(m, ["recipient", "id"]).value,
                    EventText(m.fields), [], SignalsOf(m.fields)), true)
  {
    var mf := m.fields;
    ReceiptsStage(m);
    var o4 := ReceiptsOf(mf);
    var msg := Sub(mf, "message");
    var t := MessageText(m).value;
    assert (if t.Some? then t.value else Null) == EventText(mf);
    var o5 := if "is_echo" in msg then o4["is_echo" := msg["is_echo"]] else o4;
    assert IsEcho(m, o4) == Ok(o5);
    assert MessageMid(m, o5) == Ok(SignalsOf(mf));
    PreludeFrom(m, o4, t, o5, SignalsOf(mf));
  }

  /** The receipt statements of a well-formed event all run. */
  lemma ReceiptsStage(m: Value)
    requires WellFormedEvent(m)
    ensures IdsStage(m).ok && IdsStage(m).value.other == map[]
    ensures SignalsStage(m, map[]) == Partial(ReceiptsOf(m.fields), true)
  {
    var mf := m.fields;
    var o0: map<string, Value> := map[];
    var o1 := if "timestamp" in mf then o0["timestamp" := mf["timestamp"]] else o0;
    assert CopyIf(m, "timestamp", "timestamp", "timestamp", o0) == Ok(o1);
    var d := Sub(mf, "delivery");
    var o2 := if "watermark" in d then o1["delivery" := d["watermark"]] else o1;
    assert DeliveryWatermark(m, o1) == Ok(o2);
    var o3 := if "mids" in d then o2["mids" := Field(d, "watermark")] else o2;
    assert DeliveryMids(m, o2) == Ok(o3);
    assert ReadWatermark(m, o3) == Ok(ReceiptsOf(mf));
  }

  /** `other` holds exactly the receipts and flags the event carries. A
      message id wins over a delivery receipt's `mids`, which, as written,
      is filled with the receipt's watermark. */
  lemma SignalsContent(mf: map<string, Value>)
    ensures var o := SignalsOf(mf);
      && ("timestamp" in o <==> "timestamp" in mf)
      && ("timestamp" in mf ==> o["timestamp"] == mf["timestamp"])
      && ("delivery" in o <==> "watermark" in Sub(mf, "delivery"))
      && ("delivery" in o ==> o["delivery"] == Sub(mf, "delivery")["watermark"])
      && ("read" in o <==> "watermark" in Sub(mf, "read"))
      && ("read" in o ==> o["read"] == Sub(mf, "read")["watermark"])
      && ("is_echo" in o <==> "is_echo" in Sub(mf, "message"))
      && ("is_echo" in o ==> o["is_echo"] == Sub(mf, "message")["is_echo"])
      && ("mids" in o <==> "mid" in Sub(mf, "message") || "mids" in Sub(mf, "delivery"))
      && ("mid" in Sub(mf, "message") ==> o["mids"] == Arr([Sub(mf, "message")["mid"]]))
      && ("mid" !in Sub(mf, "message") && "mids" in Sub(mf, "delivery") ==>
            o["mids"] == Field(Sub(mf, "delivery"), "watermark"))
      && o.Keys <= {"timestamp", "delivery", "mids", "read", "is_echo"}
  {
  }

  /** The stages of the `try` block compose into Prelude. */
  lemma PreludeFrom(m: Value, o4: map<string, Value>, t: Option<Value>, o5: map<string, Value>,
                    o6: map<string, Value>)
    requires IdsStage(m).ok
    requires SignalsStage(m, IdsStage(m).value.other) == Partial(o4, true)
    requires MessageText(m) == Ok(t)
    requires IsEcho(m, o4) == Ok(o5)
    requires MessageMid(m, o5) == Ok(o6)
    ensures Prelude(m) ==
      Partial(IdsStage(m).value.(text := if t.Some? then t.value else Null, other := o6), true)
  {
  }

  /** What the Facebook branch returns for a well-formed event: the two ids
      wrapped in `{'id': ...}`, the text (`""` for a message without one,
      None for a receipt), the signals of EventSignals and the attachments
      of the list the message carries. */
  lemma FacebookEvent(data: Value, m: Value)
    requires FacebookGuard(data) == Ok(true) && FirstEvent(data) == Ok(m)
    requires WellFormedEvent(m)
    ensures FacebookInbound(data).Ok?
    ensures var r, mf := FacebookInbound(data).value, m.fields;
      && r.sender == Obj(map["id" := Path(m, ["sender", "id"]).value])
      && r.recipient == Obj(map["id" := Path(m, ["recipient", "id"]).value])
      && r.text == (if "message" !in mf then Null
                    else if "text" in Sub(mf, "message") then Sub(mf, "message")["text"]
                    else Str(""))
      && r.other == Obj(SignalsOf(mf))
      && ("attachments" !in Sub(mf, "message") ==> r.attachment == [])
      && ("attachments" in Sub(mf, "message") && Sub(mf, "message")["attachments"].Arr? ==>
            r.attachment == FbAttachments(Sub(mf, "message")["attachments"].items).value)
      && r.raw == data
  {
    EventPrelude(m);
    var e := Prelude(m).value;
    var mf := m.fields;
    if "attachments" in Sub(mf, "message") {
      var c := Sub(mf, "message")["attachments"];
      assert AttachmentSource(m) == Ok(Some(c));
      assert RunEvent(m) == e.(attachment := IterateAttachments(c).value);
    } else {
      assert AttachmentSource(m) == Ok(None);
      assert RunEvent(m) == e;
    }
  }

  /** A body that is not a Facebook webhook is answered with an empty
      message: no ids, no text, no attachments. */
  lemma UnrecognizedBody(data: Value)
    requires FacebookGuard(data) == Ok(false)
    ensures FacebookInbound(data) == Ok(Received(NoId, NoId, Null, [], Obj(map[]), data))
  {
  }

  /** An event that is not a message never gets a text, however malformed
      the rest of it is. */
  lemma NoMessageNoText(data: Value, m: Value)
    requires FacebookGuard(data) == Ok(true) && FirstEvent(data) == Ok(m)
    requires m.Obj? && "message" !in m.fields
    ensures FacebookInbound(data).Ok? && FacebookInbound(data).value.text == Null
    ensures FacebookInbound(data).value.attachment == []
  {
    assert MessageText(m) == Ok(None);
    assert AttachmentSource(m) == Ok(None);
  }

  /** The attachment loop over a concatenation: the records of the first
      part, then those of the second, unless the first part stopped. */
  lemma {:induction false} FbAttachmentsAppend(a: seq<Value>, b: seq<Value>)
    requires FbAttachments(a).ok
    ensures FbAttachments(a + b) ==
      Partial(FbAttachments(a).value + FbAttachments(b).value, FbAttachments(b).ok)
    decreases |b|
  {
    if b == [] {
      assert a + b == a;
      assert FbAttachments(a).value + [] == FbAttachments(a).value;
    } else {
      var b' := b[..|b| - 1];
      assert (a + b)[..|a + b| - 1] == a + b';
      assert (a + b)[|a + b| - 1] == b[|b| - 1];
      FbAttachmentsAppend(a, b');
      var x := b[|b| - 1];
      if !FbAttachments(b').ok {
        assert FbAttachments(b) == FbAttachments(b');
        assert FbAttachments(a + b) == FbAttachments(a + b');
      } else if FbAttachment(x).Ok? && FbAttachment(x).value.Some? {
        var y := FbAttachment(x).value.value;
        assert FbAttachments(a).value + FbAttachments(b').value + [y] ==
          FbAttachments(a).value + (FbAttachments(b').value + [y]);
      }
    }
  }

  /** The records come out in the order of the items: each kept item
      contributes its record at the end. */
  lemma KeptItemAppended(items: seq<Value>, x: Value)
    requires FbAttachments(items).ok && FbAttachment(x) .Ok? && FbAttachment(x).value.Some?
    ensures FbAttachments(items + [x]) == Partial(FbAttachments(items).value + [FbAttachment(x).value.value], true)
  {
    assert (items + [x])[..|items|] == items;
  }

  /** A falsy item, or one without `payload`, is skipped. */
  lemma SkippedItem(x: Value)
    requires !Truthy(x) || Contains("payload", x) == Ok(false)
    ensures FbAttachment(x) == Ok(None)
    ensures forall items :: FbAttachments(items).ok ==> FbAttachments(items + [x]) == FbAttachments(items)
  {
    forall items | FbAttachments(items).ok
      ensures FbAttachments(items + [x]) == FbAttachments(items)
    {
      assert (items + [x])[..|items|] == items;
    }
  }

  /** One copy into a template field that still holds None: the field ends
      up holding the source's entry, or None when it has none. */
  lemma CopyField(src: Value, key: string, dst: string, acc: map<string, Value>)
    returns (r: map<string, Value>)
    requires src.Obj? && dst in acc && acc[dst] == Null
    ensures CopyIf(src, key, key, dst, acc) == Ok(r)
    ensures r == acc[dst := Field(src.fields, key)]
  {
    r := acc[dst := Field(src.fields, key)];
    if key !in src.fields {
      assert r == acc;
    }
  }

  /** The record built from a payload dict: the template with each field
      replaced by the payload's entry, or None when it has none. */
  function PayloadRecord(kind: Value, p: map<string, Value>): map<string, Value>
    requires "coordinates" in p ==>
      (p["coordinates"].Obj? && "lat" in p["coordinates"].fields && "long" in p["coordinates"].fields)
  {
    AttachmentTemplate(kind)
      ["url" := Field(p, "url")]
      ["title" := Field(p, "title")]
      ["description" := Field(p, "subtitle")]
      ["sticker" := Field(p, "sticker_id")]
      ["latitude" := if "coordinates" in p then p["coordinates"].fields["lat"] else Null]
      ["longitude" := if "coordinates" in p then p["coordinates"].fields["long"] else Null]
      ["reusable" := Field(p, "is_reusable")]
  }

  lemma FromPayloadRecord(kind: Value, p: Value)
    requires p.Obj?
    requires "coordinates" in p.fields ==>
      (p.fields["coordinates"].Obj? && "lat" in p.fields["coordinates"].fields &&
       "long" in p.fields["coordinates"].fields)
    ensures FromPayload(p, AttachmentTemplate(kind)) == Ok(PayloadRecord(kind, p.fields))
  {
    var pf := p.fields;
    var t4 := PayloadHead(kind, p);
    var t5 := t4["latitude" := Null]["longitude" := Null];
    if "coordinates" in pf {
      var c := pf["coordinates"].fields;
      t5 := t4["latitude" := c["lat"]]["longitude" := c["long"]];
    } else {
      assert t5 == t4;
    }
    assert Coordinates(p, t4) == Ok(t5);
    var t6 := CopyField(p, "is_reusable", "reusable", t5);
  }

  /** The first four copies of a payload into the template. */
  lemma PayloadHead(kind: Value, p: Value) returns (t4: map<string, Value>)
    requires p.Obj?
    ensures var t0 := AttachmentTemplate(kind);
      var t1 := t0["url" := Field(p.fields, "url")];
      var t2 := t1["title" := Field(p.fields, "title")];
      var t3 := t2["description" := Field(p.fields, "subtitle")];
      && CopyIf(p, "url", "url", "url", t0) == Ok(t1)
      && CopyIf(p, "title", "title", "title", t1) == Ok(t2)
      && CopyIf(p, "subtitle", "subtitle", "description", t2) == Ok(t3)
      && CopyIf(p, "sticker_id", "sticker_id", "sticker", t3) == Ok(t4)
      && t4 == t3["sticker" := Field(p.fields, "sticker_id")]
      && t4["latitude"] == Null && t4["longitude"] == Null && t4["reusable"] == Null
  {
    var t0 := AttachmentTemplate(kind);
    var t1 := CopyField(p, "url", "url", t0);
    var t2 := CopyField(p, "title", "title", t1);
    var t3 := CopyField(p, "subtitle", "description", t2);
    t4 := CopyField(p, "sticker_id", "sticker", t3);
  }

  /** An item with a truthy payload is translated field by field: `url`,
      `title`, `subtitle` as description, `sticker_id` as sticker,
      `coordinates.lat`/`.long` as latitude/longitude and `is_reusable` as
      reusable; what the payload lacks stays None, and `buttons` is always
      the empty list. */
  lemma PayloadItem(x: Value)
    requires x.Obj? && "payload" in x.fields && "type" in x.fields
    requires var p := x.fields["payload"]; p.Obj? && p.fields != map[]
    requires var p := x.fields["payload"].fields;
      "coordinates" in p ==>
        (p["coordinates"].Obj? && "lat" in p["coordinates"].fields && "long" in p["coordinates"].fields)
    ensures FbAttachment(x) == Ok(Some(Obj(PayloadRecord(x.fields["type"], x.fields["payload"].fields))))
  {
    FromPayloadRecord(x.fields["type"], x.fields["payload"]);
  }

  /** An item whose payload is falsy takes `url`, `title` and `subtitle`
      from the item itself. */
  lemma FallbackItem(x: Value)
    requires x.Obj? && "payload" in x.fields && "type" in x.fields
    requires !Truthy(x.fields["payload"])
    ensures var f := x.fields;
      FbAttachment(x) == Ok(Some(Obj(map[
        "url" := Field(f, "url"),
        "type" := f["type"],
        "reusable" := Null,
        "title" := Field(f, "title"),
        "description" := Field(f, "subtitle"),
        "sticker" := Null,
        "latitude" := Null,
        "longitude" := Null,
        "buttons" := Arr([])])))
  {
    var t0 := AttachmentTemplate(x.fields["type"]);
    var t1 := CopyField(x, "url", "url", t0);
    var t2 := CopyField(x, "title", "title", t1);
    var t3 := CopyField(x, "subtitle", "description", t2);
    assert FromItem(x, t0) == Ok(t3);
    var f := x.fields;
    var expected := map[
        "url" := Field(f, "url"),
        "type" := f["type"],
        "reusable" := Null,
        "title" := Field(f, "title"),
        "description" := Field(f, "subtitle"),
        "sticker" := Null,
        "latitude" := Null,
        "longitude" := Null,
        "buttons" := Arr([])];
    assert t3.Keys == expected.Keys;
    assert forall k :: k in t3 ==> t3[k] == expected[k];
    assert t3 == expected;
  }

  /** A list of strings yields no attachment; it completes exactly when no
      string contains "payload". */
  lemma {:induction false} StringItems(items: seq<Value>)
    requires forall i :: 0 <= i < |items| ==> items[i].Str?
    ensures FbAttachments(items) ==
      Partial([], forall i :: 0 <= i < |items| ==> !IsSubstring("payload", items[i].s))
    decreases |items|
  {
    if items != [] {
      var init := items[..|items| - 1];
      StringItems(init);
      var last := items[|items| - 1];
      if !FbAttachments(init).ok {
        var i :| 0 <= i < |init| && IsSubstring("payload", init[i].s);
        assert items[i] == init[i];
      } else {
        assert forall i :: 0 <= i < |init| ==> items[i] == init[i];
      }
    }
  }

  /** Iterating a dict walks its keys in an order the model does not keep;
      the outcome is the same for every order. */
  lemma KeyOrderIrrelevant(m: map<string, Value>, keys: seq<string>)
    requires forall k :: k in m <==> k in keys
    ensures FbAttachments(StrItems(keys)) == IterateAttachments(Obj(m))
  {
    var items := StrItems(keys);
    StringItems(items);
    forall k | k in m ensures FbAttachment(Str(k)).Ok? <==> !IsSubstring("payload", k) {
      if k != "" && IsSubstring("payload", k) {
        assert Contains("payload", Str(k)) == Ok(true);
      }
    }
    if forall i :: 0 <= i < |items| ==> !IsSubstring("payload", items[i].s) {
      forall k | k in m ensures !IsSubstring("payload", k) {
        var i :| 0 <= i < |keys| && keys[i] == k;
        assert items[i].s == k;
      }
    } else {
      var i :| 0 <= i < |items| && IsSubstring("payload", items[i].s);
      assert keys[i] in m;
    }
  }

  /** A one-character string cannot contain "payload". */
  lemma ShortNoPayload(s: string)
    requires |s| < 7
    ensures !IsSubstring("payload", s)
  {
  }

  /** An `attachments` string is walked character by character and yields
      nothing. */
  lemma StringAttachments(s: string)
    ensures IterateAttachments(Str(s)) == Partial([], true)
  {
    var items := Chars(s);
    StringItems(items);
    forall i | 0 <= i < |items| ensures !IsSubstring("payload", items[i].s) {
      ShortNoPayload(items[i].s);
    }
  }

  /* ------------------------------------------------------------------ */
  /* Properties of the raw translation                                   */
  /* ------------------------------------------------------------------ */

  /** An attachment record the raw transport passes through unchanged: a
      non-empty dict of allow-listed fields. */
  predicate CleanRecord(a: Value) {
    a.Obj? && a.fields != map[] && a.fields.Keys <= RawAllowedKeys
  }

  /** The raw attachment loop over a concatenation: it succeeds when both
      parts do, with the records of the first part before those of the
      second. */
  lemma {:induction false} RawAttachmentsAppend(a: seq<Value>, b: seq<Value>)
    ensures RawAttachments(a + b).Ok? <==> RawAttachments(a).Ok? && RawAttachments(b).Ok?
    ensures RawAttachments(a + b).Ok? ==>
      RawAttachments(a + b).value == RawAttachments(a).value + RawAttachments(b).value
    decreases |b|
  {
    if b == [] {
      assert a + b == a;
    } else {
      var b' := b[..|b| - 1];
      var x := b[|b| - 1];
      assert (a + b)[..|a + b| - 1] == a + b';
      assert (a + b)[|a + b| - 1] == x;
      RawAttachmentsAppend(a, b');
      if RawAttachments(a + b').Ok? && RawAttachment(x).Ok? && RawAttachment(x).value.Some? {
        var y := RawAttachment(x).value.value;
        assert RawAttachments(a).value + RawAttachments(b').value + [y] ==
          RawAttachments(a).value + (RawAttachments(b').value + [y]);
      }
    }
  }

  /** The raw loop fails exactly when some item is not a dict; otherwise it
      yields at most one clean record per item (their order is that of the
      items, see RawAttachmentsAppend). */
  lemma {:induction false} RawAttachmentsSpec(items: seq<Value>)
    ensures RawAttachments(items).Ok? <==> forall i :: 0 <= i < |items| ==> items[i].Obj?
    ensures RawAttachments(items).Ok? ==>
      |RawAttachments(items).value| <= |items| &&
      forall j :: 0 <= j < |RawAttachments(items).value| ==> CleanRecord(RawAttachments(items).value[j])
    decreases |items|
  {
    if items != [] {
      var init := items[..|items| - 1];
      RawAttachmentsSpec(init);
      assert forall i :: 0 <= i < |init| ==> items[i] == init[i];
      if RawAttachments(init).Ok? && items[|items| - 1].Obj? {
        var fix := AllowedPart(items[|items| - 1].fields);
        assert fix.Keys <= RawAllowedKeys;
      }
    }
  }

  /** A list of clean records passes through unchanged. */
  lemma {:induction false} RawCleanKept(items: seq<Value>)
    requires forall i :: 0 <= i < |items| ==> CleanRecord(items[i])
    ensures RawAttachments(items) == Ok(items)
    decreases |items|
  {
    if items != [] {
      var init := items[..|items| - 1];
      RawCleanKept(init);
      var last := items[|items| - 1];
      assert AllowedPart(last.fields) == last.fields;
      assert init + [last] == items;
    }
  }

  /** Translating the attachments a second time changes nothing. */
  lemma RawAttachmentsIdempotent(items: seq<Value>)
    requires RawAttachments(items).Ok?
    ensures RawAttachments(RawAttachments(items).value) == RawAttachments(items)
  {
    RawAttachmentsSpec(items);
    RawCleanKept(RawAttachments(items).value);
  }

  /** `deep_dict_merge({'id': None}, s)` for a sender dict whose `id` is not
      itself a dict: the sender's fields over a default None id. */
  lemma MergeParty(s: Value)
    requires s.Obj? && ("id" in s.fields ==> !s.fields["id"].Obj?)
    ensures Merge.DeepMerge(NoId, s) == Ok(Obj(map["id" := Null] + s.fields))
  {
    var sm := s.fields;
    if sm != map[] {
      var noid := map["id" := Null];
      forall k | k in sm ensures Merge.MergeEntry(noid, k, sm[k]) == Ok(sm[k]) {
        if sm[k].Obj? {
          assert Merge.GetOrEmpty(noid, k) == Obj(map[]);
          Merge.MergeIntoEmptyCopies(sm[k]);
        }
      }
      assert !Merge.MergeFails(noid, sm);
      var merged := Merge.DeepMerge(NoId, s).value.fields;
      assert forall k :: k in merged ==> merged[k] == (noid + sm)[k];
      assert merged == noid + sm;
    } else {
      assert map["id" := Null] + sm == map["id" := Null];
    }
  }

  /** A raw body the translator accepts: both parties are dicts with a plain
      id, and the attachments, when given, are a list of dicts. */
  predicate RawShaped(data: Value) {
    && data.Obj?
    && "sender" in data.fields && "recipient" in data.fields
    && var s, r := data.fields["sender"], data.fields["recipient"];
    && s.Obj? && ("id" in s.fields ==> !s.fields["id"].Obj?)
    && r.Obj? && ("id" in r.fields ==> !r.fields["id"].Obj?)
    && ("attachment" in data.fields ==>
          data.fields["attachment"].Arr? &&
          forall i :: 0 <= i < |data.fields["attachment"].items| ==> data.fields["attachment"].items[i].Obj?)
  }

  /** What the raw branch returns for an accepted body: the parties with a
      default None id, the text (default `""`), the cleaned attachments,
      `other` passed through (default `{}`) and the body itself. */
  lemma RawTranslation(data: Value)
    requires RawShaped(data)
    ensures RawInbound(data).Ok?
    ensures var r, df := RawInbound(data).value, data.fields;
      && r.sender == Obj(map["id" := Null] + df["sender"].fields)
      && r.recipient == Obj(map["id" := Null] + df["recipient"].fields)
      && r.text == (if "text" in df then df["text"] else Str(""))
      && r.other == (if "other" in df then df["other"] else Obj(map[]))
      && ("attachment" !in df ==> r.attachment == [])
      && ("attachment" in df ==> Ok(r.attachment) == RawAttachments(df["attachment"].items))
      && (forall j :: 0 <= j < |r.attachment| ==> CleanRecord(r.attachment[j]))
      && r.raw == data
  {
    var df := data.fields;
    MergeParty(df["sender"]);
    MergeParty(df["recipient"]);
    if "attachment" in df {
      RawAttachmentsSpec(df["attachment"].items);
    }
  }

  /** Whatever goes wrong in the raw branch surfaces as the same NameError,
      and a body without a sender is always refused. */
  lemma RawRefusal(data: Value)
    ensures RawInbound(data).Err? ==> RawInbound(data) == Err(NameError)
    ensures !data.Obj? || "sender" !in data.fields ==> RawInbound(data) == Err(NameError)
  {
  }
}
