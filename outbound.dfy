/** The payload half of `Messaging.send`: the generic message is turned into
    the body posted to the Facebook Send API, or into the raw transport's
    JSON. Posting it and reading the reply are left to the caller. */
module Outbound {
  import opened Json
  import Classifier

  /** How the attachment-type test looks up `allowed_attachments`. As
      written the method names it unqualified, which is no name in the
      method's scope; the class tuple is what the code evidently means. */
  datatype TypeLookup = UnqualifiedName | ClassTuple

  /** What a Facebook `send` produces: the request body (or the exception
      that stopped it) and the message as the call leaves it, since the
      first attachment is completed in place. */
  datatype Sent = Sent(payload: Result<Value>, message: map<string, Value>)

  /** Lines 216-217: keep a valid `type`, otherwise infer it from the url. */
  function FixType(a0: map<string, Value>, lookup: TypeLookup): (r: Result<map<string, Value>>)
    requires "url" in a0
    ensures r.Ok? ==> r.value.Keys == a0.Keys + {"type"}
    ensures r.Ok? ==> r.value["type"] in Classifier.AllowedTypes
    ensures r.Ok? ==> forall k :: k in a0 && k != "type" ==> r.value[k] == a0[k]
    ensures r.Ok? && "type" in a0 && a0["type"] in Classifier.AllowedTypes ==> r.value == a0
    ensures lookup == UnqualifiedName && "type" in a0 ==> r == Err(NameError)
    ensures lookup == ClassTuple || "type" !in a0 ==>
      (r.Err? <==> !("type" in a0 && a0["type"] in Classifier.AllowedTypes) &&
                   Classifier.GetAttachmentType(a0["url"]).Err?)
    ensures r.Ok? && !("type" in a0 && a0["type"] in Classifier.AllowedTypes) ==>
      r.value == a0["type" := Str(Classifier.GetAttachmentType(a0["url"]).value.Name())]
  {
    if "type" in a0 && lookup == UnqualifiedName then Err(NameError)
    else if "type" in a0 && a0["type"] in Classifier.AllowedTypes then Ok(a0)
    else
      var kind :- Classifier.GetAttachmentType(a0["url"]);
      Classifier.NameIsAllowed(kind);
      Ok(a0["type" := Str(kind.Name())])
  }

  /** Lines 223-229: a truthy text goes to the title, or else to the
      description, of an attachment that lacks one; the flag says the text
      is then dropped from the body. */
  function TextIntoAttachment(msg: map<string, Value>, a: map<string, Value>)
    : (r: Result<(map<string, Value>, bool)>)
    ensures r.Ok? ==> r.value.0.Keys >= a.Keys
    ensures r.Ok? ==> forall k :: k in a ==> r.value.0[k] == a[k]
    ensures r.Ok? ==> (r.value.1 <==> "text" in msg && Truthy(msg["text"]))
    ensures r.Err? <==> Fills(msg, a) && Prefix(msg["text"], 80).Err?
    ensures r.Ok? && Fills(msg, a) && "title" !in a ==>
      r.value.0 == a["title" := Prefix(msg["text"], 80).value]
    ensures r.Ok? && Fills(msg, a) && "title" in a ==>
      r.value.0 == a["description" := Prefix(msg["text"], 80).value]
    ensures r.Ok? && !Fills(msg, a) ==> r.value.0 == a
  {
    if "text" in msg && Truthy(msg["text"]) then
      if "title" !in a then
        var p :- Prefix(msg["text"], 80);
        Ok((a["title" := p], true))
      else if "description" !in a then
        var p :- Prefix(msg["text"], 80);
        Ok((a["description" := p], true))
      else Ok((a, true))
    else Ok((a, false))
  }

  /** Lines 223-227: the text is truthy and the attachment lacks a title or
      a description, so `text[:80]` is written into it. */
  predicate Fills(msg: map<string, Value>, a: map<string, Value>) {
    "text" in msg && Truthy(msg["text"]) && ("title" !in a || "description" !in a)
  }

  /** Line 232: the attachment has neither a title nor a description worth
      showing. */
  predicate Untitled(a: map<string, Value>) {
    ("title" !in a || !Truthy(a["title"])) && ("description" !in a || !Truthy(a["description"]))
  }

  /** Lines 233-239: the simple `{type, payload: {url, is_reusable}}` form. */
  function SimpleAttachment(a: map<string, Value>): Value
    requires "type" in a && "url" in a && "reusable" in a
  {
    Obj(map["type" := a["type"],
            "payload" := Obj(map["url" := a["url"], "is_reusable" := a["reusable"]])])
  }

  /** Lines 219-220: a missing reusable flag defaults to `False`. */
  function WithReusable(a1: map<string, Value>): (a2: map<string, Value>)
    ensures a2.Keys == a1.Keys + {"reusable"}
    ensures forall k :: k in a1 ==> a2[k] == a1[k]
    ensures a2["reusable"] == if "reusable" in a1 then a1["reusable"] else Bool(false)
  {
    if "reusable" in a1 then a1 else a1["reusable" := Bool(false)]
  }

  /** An attachment list holding exactly one dict. */
  predicate LoneDict(att: Value) {
    att.Arr? && |att.items| == 1 && att.items[0].Obj?
  }

  /** Line 216: the list holds one dict, and its url is truthy. */
  predicate LoneUrl(att: Value) {
    LoneDict(att) && "url" in att.items[0].fields && Truthy(att.items[0].fields["url"])
  }

  /** A lone attachment as `send` leaves it: a valid type, a url and a
      reusable flag. */
  predicate Completed(att: Value) {
    && LoneDict(att)
    && att.items[0].fields.Keys >= {"type", "url", "reusable"}
    && att.items[0].fields["type"] in Classifier.AllowedTypes
  }

  /** Lines 241-245: `other` is a dict naming a sender action. */
  predicate Action(msg: map<string, Value>) {
    "other" in msg && msg["other"].Obj? && "action" in msg["other"].fields
  }

  /** The message `m'` is `msg` with at most its attachment changed, and a
      changed attachment is the completed form of a lone attachment dict:
      its keys and url kept, a valid type and a reusable flag added. */
  predicate FirstCompleted(msg: map<string, Value>, m': map<string, Value>) {
    && m'.Keys == msg.Keys
    && (forall k :: k in msg && k != "attachment" ==> m'[k] == msg[k])
    && (m' != msg ==>
          "attachment" in msg && msg["attachment"].Arr? && |msg["attachment"].items| == 1 &&
          var a, a' := msg["attachment"].items[0], m'["attachment"];
          && a.Obj? && a'.Arr? && |a'.items| == 1 && a'.items[0].Obj?
          && a'.items[0].fields.Keys >= a.fields.Keys + {"type", "reusable"}
          && a'.items[0].fields["type"] in Classifier.AllowedTypes
          && "url" in a.fields && a'.items[0].fields["url"] == a.fields["url"])
  }

  /** The attachment statements (lines 213-239) on the body built so far. */
  datatype Step = Step(body: Result<map<string, Value>>, message: map<string, Value>)

  function AttachmentStep(msg: map<string, Value>, body: map<string, Value>, lookup: TypeLookup): (r: Step)
    requires "attachment" in msg
    ensures FirstCompleted(msg, r.message)
    ensures Length(msg["attachment"]).Err? ==> r == Step(Err(Length(msg["attachment"]).error), msg)
    ensures Length(msg["attachment"]).Ok? && Length(msg["attachment"]).value != 1 ==> r == Step(Ok(body), msg)
    ensures LoneUrl(msg["attachment"]) ==> var a0 := msg["attachment"].items[0].fields;
      && (FixType(a0, lookup).Err? ==> r == Step(Err(FixType(a0, lookup).error), msg))
      && (FixType(a0, lookup).Ok? ==> r == CompleteAttachment(msg, body, FixType(a0, lookup).value))
    ensures Length(msg["attachment"]) == Ok(1) && !LoneUrl(msg["attachment"]) ==>
      && r.message == msg
      && (r.body.Ok? ==> r.body.value == body)
      && (r.body.Ok? <==> First(msg["attachment"]).Ok? && GetKey(First(msg["attachment"]).value, "url").Ok?)
  {
    var att := msg["attachment"];
    match Length(att)
    case Err(e) => Step(Err(e), msg)
    case Ok(n) =>
      if n != 1 then Step(Ok(body), msg)
      else
        match First(att)
        case Err(e) => Step(Err(e), msg)
        case Ok(item) =>
          match GetKey(item, "url")
          case Err(e) => Step(Err(e), msg)
          case Ok(url) =>
            if !Truthy(url) then Step(Ok(body), msg)
            else
              match FixType(item.fields, lookup)
              case Err(e) => Step(Err(e), msg)
              case Ok(a1) => CompleteAttachment(msg, body, a1)
  }

  /** Lines 218-239, once the type is settled: default the reusable flag,
      move the text, and add the simple attachment when untitled. */
  function CompleteAttachment(msg: map<string, Value>, body: map<string, Value>, a1: map<string, Value>): (r: Step)
    requires "type" in a1 && "url" in a1
    ensures "attachment" in r.message && r.message == msg["attachment" := r.message["attachment"]]
    ensures LoneDict(r.message["attachment"])
    ensures var a' := r.message["attachment"].items[0].fields;
      && a'.Keys >= a1.Keys + {"reusable"}
      && (forall k :: k in a1 ==> a'[k] == a1[k])
      && a'["reusable"] == (if "reusable" in a1 then a1["reusable"] else Bool(false))
    ensures r.body.Err? <==> TextIntoAttachment(msg, WithReusable(a1)).Err?
    ensures r.body.Err? ==> r.message["attachment"] == Arr([Obj(WithReusable(a1))])
    ensures r.body.Ok? ==>
      r.message["attachment"] == Arr([Obj(TextIntoAttachment(msg, WithReusable(a1)).value.0)])
    ensures r.body.Ok? ==> var a', b := r.message["attachment"].items[0].fields, r.body.value;
      && ("text" in b <==> "text" in body && !("text" in msg && Truthy(msg["text"])))
      && ("attachment" in b <==> "attachment" in body || Untitled(a'))
      && (Untitled(a') ==> b["attachment"] == SimpleAttachment(a'))
      && (forall k :: k in b && k != "attachment" ==> k in body && b[k] == body[k])
  {
    var a2 := WithReusable(a1);
    match TextIntoAttachment(msg, a2)
    case Err(e) => Step(Err(e), msg["attachment" := Arr([Obj(a2)])])
    case Ok((a3, dropText)) =>
      var body2 := if dropText then body - {"text"} else body;
      var body3 := if Untitled(a3) then body2["attachment" := SimpleAttachment(a3)] else body2;
      Step(Ok(body3), msg["attachment" := Arr([Obj(a3)])])
  }

  /** Lines 241-249: a sender action replaces the whole message; a
      notification kind is copied in any case. */
  function OtherStep(msg: map<string, Value>, resp: map<string, Value>): (r: Result<Value>)
    ensures r.Ok? ==> r.value.Obj? && r.value.fields.Keys >= resp.Keys
    ensures r.Ok? && "recipient" in resp ==> r.value.fields["recipient"] == resp["recipient"]
    ensures r.Ok? && "message" in resp ==>
      r.value.fields["message"] == if Action(msg) then Obj(map[]) else resp["message"]
    ensures r.Ok? && Action(msg) ==>
      "sender_action" in r.value.fields && r.value.fields["sender_action"] == msg["other"].fields["action"]
    ensures "other" !in msg ==> r == Ok(Obj(resp))
  {
    if "other" !in msg then Ok(Obj(resp))
    else
      var o := msg["other"];
      var hasAction :- Contains("action", o);
      var r1 :- if hasAction then
                  (var act :- GetKey(o, "action");
                   Ok(resp["message" := Obj(map[])]["sender_action" := act]))
                else Ok(resp);
      var hasNotification :- Contains("notification", o);
      var r2 :- if hasNotification then
                  (var kind :- GetKey(o, "notification");
                   Ok(r1["notification_type" := kind]))
                else Ok(r1);
      Ok(Obj(r2))
  }

  /** The body `send` starts from: the text, when there is one. */
  function TextBody(msg: map<string, Value>): map<string, Value> {
    if "text" in msg then map["text" := msg["text"]] else map[]
  }

  /** The Facebook branch of `send` up to the request: the body to post and
      the message as it is left. Only the first attachment ever changes: it
      gains a valid type, a reusable flag and perhaps a title or
      description, whether or not a later statement raises. */
  function FacebookSend(msg: map<string, Value>, lookup: TypeLookup): (r: Sent)
    ensures FirstCompleted(msg, r.message)
    ensures r.payload.Ok? ==> r.payload.value.Obj? && "recipient" in r.payload.value.fields
    ensures r.payload.Ok? ==>
      && BodyStep(msg, lookup).body.Ok?
      && r.message == BodyStep(msg, lookup).message
      && "message" in r.payload.value.fields
      && r.payload.value.fields["message"] ==
           if Action(msg) then Obj(map[]) else Obj(BodyStep(msg, lookup).body.value)
    ensures r.payload.Err? ==>
      Path(Obj(msg), ["recipient", "id"]).Err? || BodyStep(msg, lookup).body.Err? || "other" in msg
  {
    match Path(Obj(msg), ["recipient", "id"])
    case Err(e) => Sent(Err(e), msg)
    case Ok(rid) =>
      var st := BodyStep(msg, lookup);
      match st.body
      case Err(e) => Sent(Err(e), st.message)
      case Ok(body) => Sent(OtherStep(msg, Request(rid, body)), st.message)
  }

  /** Lines 208-239: the text, then the attachment statements when the
      message has an attachment. */
  function BodyStep(msg: map<string, Value>, lookup: TypeLookup): (r: Step)
    ensures FirstCompleted(msg, r.message)
    ensures r.body.Err? ==> "attachment" in msg
    ensures r.body.Ok? && !("attachment" in msg && LoneUrl(msg["attachment"])) ==>
      r.body.value == TextBody(msg) && r.message == msg
    ensures r.body.Ok? && "attachment" in msg && LoneUrl(msg["attachment"]) ==>
      && Completed(r.message["attachment"])
      && var a', b := r.message["attachment"].items[0].fields, r.body.value;
      && ("text" in b <==> "text" in msg && !Truthy(msg["text"]))
      && ("text" in b ==> b["text"] == msg["text"])
      && ("attachment" in b <==> Untitled(a'))
      && (Untitled(a') ==> b["attachment"] == SimpleAttachment(a'))
      && b.Keys <= {"text", "attachment"}
  {
    if "attachment" in msg then AttachmentStep(msg, TextBody(msg), lookup) else Step(Ok(TextBody(msg)), msg)
  }

  /** The request for recipient `rid` carrying the message body `body`. */
  function Request(rid: Value, body: map<string, Value>): map<string, Value> {
    map["recipient" := Obj(map["id" := rid]), "message" := Obj(body)]
  }

  /** The fields the raw transport forwards. */
  const RawFields: set<string> := {"recipient", "sender", "text", "attachment", "other"}

  /** Lines 313-316: the raw payload is the message restricted to the
      forwarded fields. */
  function RawPayload(msg: map<string, Value>): (r: map<string, Value>)
    ensures r.Keys == msg.Keys * RawFields
    ensures forall k :: k in r ==> r[k] == msg[k]
  {
    map k | k in msg && k in RawFields :: msg[k]
  }

  /** Lines 324-325: whether the raw transport echoes the payload, from the
      `print` and `print_text_only` settings of the raw section. Reading a
      missing setting raises, and the caller reports an output error. */
  function ShouldPrint(raw: Value, payload: map<string, Value>): (r: Result<bool>)
    ensures r.Ok? <==>
      (Path(raw, ["print"]).Ok? &&
       (Truthy(Path(raw, ["print"]).value) ==> Path(raw, ["print_text_only"]).Ok?))
  {
    var printOn :- GetKey(raw, "print");
    if !Truthy(printOn) then Ok(false)
    else
      var textOnly :- GetKey(raw, "print_text_only");
      Ok(!Truthy(textOnly) || ("text" in payload && Truthy(payload["text"])))
  }

  /** What the raw transport writes to standard output: nothing, the
      payload as JSON, or the payload wrapped in a call to a JSONP
      callback. */
  datatype Echo = Silent | Plain | Jsonp(callback: Value)

  /** Lines 323-333 with `self.get_value`: once ShouldPrint says yes, a
      truthy `jsonp` setting wraps the payload in a call to it. A setting
      that cannot be read surfaces in the bare `except`, which records an
      output error and prints nothing. */
  function RawEcho(raw: Value, payload: map<string, Value>): (e: Echo)
    ensures e != Silent <==> ShouldPrint(raw, payload) == Ok(true) && GetKey(raw, "jsonp").Ok?
    ensures e.Jsonp? <==> e != Silent && Truthy(GetKey(raw, "jsonp").value)
    ensures e.Jsonp? ==> GetKey(raw, "jsonp") == Ok(e.callback)
  {
    match ShouldPrint(raw, payload)
    case Ok(true) =>
      (match GetKey(raw, "jsonp")
       case Ok(j) => if Truthy(j) then Jsonp(j) else Plain
       case Err(_) => Silent)
    case _ => Silent
  }

  /** Lines 323-333 as written: the JSONP branch calls `get_value`
      unqualified, which is no name at module level; the NameError is
      caught by the bare `except` and nothing is printed. */
  function RawEchoAsWritten(raw: Value, payload: map<string, Value>): (e: Echo)
    ensures !e.Jsonp?
  {
    match ShouldPrint(raw, payload)
    case Ok(true) =>
      (match GetKey(raw, "jsonp")
       case Ok(j) => if Truthy(j) then Silent else Plain
       case Err(_) => Silent)
    case _ => Silent
  }

  /* ------------------------------------------------------------------ */
  /* Properties                                                          */
  /* ------------------------------------------------------------------ */

  /** The message a `send` can address: its recipient has an id. */
  predicate Addressed(msg: map<string, Value>) {
    "recipient" in msg && msg["recipient"].Obj? && "id" in msg["recipient"].fields
  }

  /** The body always targets the message's recipient id. */
  lemma PayloadRecipient(msg: map<string, Value>, lookup: TypeLookup)
    requires FacebookSend(msg, lookup).payload.Ok?
    ensures Addressed(msg)
    ensures FacebookSend(msg, lookup).payload.value.fields["recipient"] ==
      Obj(map["id" := msg["recipient"].fields["id"]])
  {
    assert Addressed(msg);
    var rid := msg["recipient"].fields["id"];
    assert Path(Obj(msg), ["recipient", "id"]) == Ok(rid);
  }

  /** A message without text, attachment or other sends an empty message. */
  lemma BareMessage(msg: map<string, Value>, lookup: TypeLookup)
    requires Addressed(msg) && "text" !in msg && "attachment" !in msg && "other" !in msg
    ensures FacebookSend(msg, lookup) ==
      Sent(Ok(Obj(map["recipient" := Obj(map["id" := msg["recipient"].fields["id"]]),
                      "message" := Obj(map[])])), msg)
  {
    assert Path(Obj(msg), ["recipient", "id"]) == Ok(msg["recipient"].fields["id"]);
  }

  /** A text-only message is posted verbatim. */
  lemma TextMessage(msg: map<string, Value>, lookup: TypeLookup)
    requires Addressed(msg) && "text" in msg && "attachment" !in msg && "other" !in msg
    ensures FacebookSend(msg, lookup).payload ==
      Ok(Obj(map["recipient" := Obj(map["id" := msg["recipient"].fields["id"]]),
                 "message" := Obj(map["text" := msg["text"]])]))
  {
    assert Path(Obj(msg), ["recipient", "id"]) == Ok(msg["recipient"].fields["id"]);
  }

  /** With no `other`, the body is the recipient and the message the
      attachment statements built. */
  lemma SendWithoutOther(msg: map<string, Value>, lookup: TypeLookup, rid: Value, body: map<string, Value>)
    requires Path(Obj(msg), ["recipient", "id"]) == Ok(rid)
    requires "attachment" in msg && "other" !in msg
    requires AttachmentStep(msg, TextBody(msg), lookup).body == Ok(body)
    ensures FacebookSend(msg, lookup).payload ==
      Ok(Obj(map["recipient" := Obj(map["id" := rid]), "message" := Obj(body)]))
    ensures FacebookSend(msg, lookup).message ==
      AttachmentStep(msg, TextBody(msg), lookup).message
  {
  }

  /** A message whose only attachment has a truthy url but whose text is
      truthy and which has no title: the text becomes the title, is removed
      from the body, and the now titled attachment is not sent either. */
  lemma TextSwallowsAttachment(msg: map<string, Value>, url: Value, lookup: TypeLookup)
    requires Addressed(msg) && "other" !in msg
    requires "text" in msg && msg["text"].Str? && msg["text"].s != ""
    requires "attachment" in msg && msg["attachment"].Arr? && |msg["attachment"].items| == 1
    requires var a := msg["attachment"].items[0];
      a.Obj? && "url" in a.fields && a.fields["url"] == url && url.Str? && url.s != "" &&
      "title" !in a.fields && "type" !in a.fields
    ensures var r := FacebookSend(msg, lookup);
      && r.payload == Ok(Obj(map["recipient" := Obj(map["id" := msg["recipient"].fields["id"]]),
                                 "message" := Obj(map[])]))
      && r.message["attachment"].Arr? && |r.message["attachment"].items| == 1
      && r.message["attachment"].items[0].Obj?
      && "title" in r.message["attachment"].items[0].fields
      && r.message["attachment"].items[0].fields["title"] ==
           Str(if |msg["text"].s| <= 80 then msg["text"].s else msg["text"].s[..80])
  {
    var rid := msg["recipient"].fields["id"];
    assert Path(Obj(msg), ["recipient", "id"]) == Ok(rid);
    var a := msg["attachment"].items[0].fields;
    var a1 := a["type" := Str(Classifier.Classify(url.s).Name())];
    assert FixType(a, lookup) == Ok(a1);
    var body := map["text" := msg["text"]];
    assert AttachmentStep(msg, body, lookup) == CompleteAttachment(msg, body, a1)
      by { assert LoneUrl(msg["attachment"]); }
    SwallowStep(msg, a1);
    SendWithoutOther(msg, lookup, rid, map[]);
  }

  /** The completion statements for a truthy text and a titleless
      attachment: the text moves into the title and the body is left empty. */
  lemma SwallowStep(msg: map<string, Value>, a1: map<string, Value>)
    requires "text" in msg && msg["text"].Str? && msg["text"].s != ""
    requires "title" !in a1 && "type" in a1 && "url" in a1
    ensures var t := Str(if |msg["text"].s| <= 80 then msg["text"].s else msg["text"].s[..80]);
      var a2 := if "reusable" in a1 then a1 else a1["reusable" := Bool(false)];
      CompleteAttachment(msg, map["text" := msg["text"]], a1) ==
        Step(Ok(map[]), msg["attachment" := Arr([Obj(a2["title" := t])])])
  {
    var a2 := if "reusable" in a1 then a1 else a1["reusable" := Bool(false)];
    var t := Str(if |msg["text"].s| <= 80 then msg["text"].s else msg["text"].s[..80]);
    assert TextIntoAttachment(msg, a2) == Ok((a2["title" := t], true));
    assert map["text" := msg["text"]] - {"text"} == map[];
    assert !Untitled(a2["title" := t]);
  }

  /** A lone attachment with a truthy url and no text, title or type is sent
      as a simple attachment of the inferred kind, not reusable. */
  lemma LoneAttachment(msg: map<string, Value>, url: string, lookup: TypeLookup)
    requires Addressed(msg) && "text" !in msg && "other" !in msg
    requires "attachment" in msg && msg["attachment"].Arr? && |msg["attachment"].items| == 1
    requires var a := msg["attachment"].items[0];
      a.Obj? && "url" in a.fields && a.fields["url"] == Str(url) && url != "" &&
      "type" !in a.fields && "reusable" !in a.fields &&
      "title" !in a.fields && "description" !in a.fields
    ensures FacebookSend(msg, lookup).payload ==
      Ok(Obj(map["recipient" := Obj(map["id" := msg["recipient"].fields["id"]]),
                 "message" := Obj(map["attachment" := Obj(map[
                    "type" := Str(Classifier.Classify(url).Name()),
                    "payload" := Obj(map["url" := Str(url), "is_reusable" := Bool(false)])])])]))
  {
    var rid := msg["recipient"].fields["id"];
    assert Path(Obj(msg), ["recipient", "id"]) == Ok(rid);
    var a2 := UrlOnlyBody(msg, url, lookup);
    var simple := Obj(map["type" := Str(Classifier.Classify(url).Name()),
                          "payload" := Obj(map["url" := Str(url), "is_reusable" := Bool(false)])]);
    assert SimpleAttachment(a2) == simple;
    assert FacebookSend(msg, lookup).payload == OtherStep(msg, Request(rid, map["attachment" := simple]));
  }

  /** The attachment statements on a lone url-only attachment and no text:
      the url's kind is written in as the type and the flag as `False`, and
      the simple attachment is the whole body. */
  lemma UrlOnlyBody(msg: map<string, Value>, url: string, lookup: TypeLookup) returns (a2: map<string, Value>)
    requires "text" !in msg
    requires "attachment" in msg && msg["attachment"].Arr? && |msg["attachment"].items| == 1
    requires var a := msg["attachment"].items[0];
      a.Obj? && "url" in a.fields && a.fields["url"] == Str(url) && url != "" &&
      "type" !in a.fields && "reusable" !in a.fields &&
      "title" !in a.fields && "description" !in a.fields
    ensures a2 == msg["attachment"].items[0].fields
                    ["type" := Str(Classifier.Classify(url).Name())]["reusable" := Bool(false)]
    ensures BodyStep(msg, lookup) ==
      Step(Ok(map["attachment" := SimpleAttachment(a2)]), msg["attachment" := Arr([Obj(a2)])])
  {
    var a := msg["attachment"].items[0].fields;
    var a1 := a["type" := Str(Classifier.Classify(url).Name())];
    assert FixType(a, lookup) == Ok(a1);
    assert TextBody(msg) == map[];
    assert AttachmentStep(msg, map[], lookup) == CompleteAttachment(msg, map[], a1)
      by { assert LoneUrl(msg["attachment"]); }
    a2 := a1["reusable" := Bool(false)];
    UntitledCompletion(msg, a1);
  }

  /** The completion statements without text on an attachment with neither
      title, description nor flag: the flag becomes `False` and the simple
      attachment is the whole body. */
  lemma UntitledCompletion(msg: map<string, Value>, a1: map<string, Value>)
    requires "text" !in msg
    requires "type" in a1 && "url" in a1
    requires "reusable" !in a1 && "title" !in a1 && "description" !in a1
    ensures var a2 := a1["reusable" := Bool(false)];
      CompleteAttachment(msg, map[], a1) ==
        Step(Ok(map["attachment" := SimpleAttachment(a2)]), msg["attachment" := Arr([Obj(a2)])])
  {
    var a2 := a1["reusable" := Bool(false)];
    assert WithReusable(a1) == a2;
    assert TextIntoAttachment(msg, a2) == Ok((a2, false));
    assert Untitled(a2);
  }

  /** A sender action discards text and attachment: the body's message is
      empty and `sender_action` carries the action. */
  lemma ActionResetsMessage(msg: map<string, Value>, lookup: TypeLookup)
    requires FacebookSend(msg, lookup).payload.Ok?
    requires "other" in msg && msg["other"].Obj? && "action" in msg["other"].fields
    ensures var p := FacebookSend(msg, lookup).payload.value.fields;
      p["message"] == Obj(map[]) && p["sender_action"] == msg["other"].fields["action"]
  {
  }

  /** The notification kind is forwarded whatever else the message holds. */
  lemma NotificationForwarded(msg: map<string, Value>, lookup: TypeLookup)
    requires FacebookSend(msg, lookup).payload.Ok?
    requires "other" in msg && msg["other"].Obj?
    ensures var p := FacebookSend(msg, lookup).payload.value.fields;
      ("notification_type" in p <==> "notification" in msg["other"].fields) &&
      ("notification" in msg["other"].fields ==>
         p["notification_type"] == msg["other"].fields["notification"])
  {
  }

  /** Sending the message a `send` has left behind posts the same body again:
      the completed attachment keeps its type, flag and title. */
  lemma ResendSamePayload(msg: map<string, Value>)
    requires FacebookSend(msg, ClassTuple).payload.Ok?
    ensures var s := FacebookSend(msg, ClassTuple);
      FacebookSend(s.message, ClassTuple).payload == s.payload
  {
    var m2 := FacebookSend(msg, ClassTuple).message;
    assert m2["recipient"] == msg["recipient"];
    if "text" in msg { assert m2["text"] == msg["text"]; }
    if "other" in msg { assert m2["other"] == msg["other"]; }
    assert Path(Obj(m2), ["recipient", "id"]) == Path(Obj(msg), ["recipient", "id"]);
    assert TextBody(m2) == TextBody(msg);
    if "attachment" in msg {
      ResendAttachmentStep(msg, TextBody(msg));
      assert m2 == BodyStep(msg, ClassTuple).message;
    }
    SameBodySameSend(msg, m2);
  }

  /** The other-step reads nothing of the message but its `other` entry. */
  lemma OtherStepReadsOther(msg: map<string, Value>, m2: map<string, Value>, resp: map<string, Value>)
    requires ("other" in m2) == ("other" in msg)
    requires "other" in msg ==> m2["other"] == msg["other"]
    ensures OtherStep(m2, resp) == OtherStep(msg, resp)
  {
  }

  /** Two messages that agree on everything but the attachment, and whose
      attachment statements build the same body, send the same body. */
  lemma SameBodySameSend(msg: map<string, Value>, m2: map<string, Value>)
    requires Path(Obj(m2), ["recipient", "id"]) == Path(Obj(msg), ["recipient", "id"])
    requires ("other" in m2) == ("other" in msg)
    requires "other" in msg ==> m2["other"] == msg["other"]
    requires BodyStep(m2, ClassTuple).body == BodyStep(msg, ClassTuple).body
    ensures FacebookSend(m2, ClassTuple).payload == FacebookSend(msg, ClassTuple).payload
  {
    var p := Path(Obj(msg), ["recipient", "id"]);
    var b := BodyStep(msg, ClassTuple).body;
    if p.Ok? && b.Ok? {
      OtherStepReadsOther(msg, m2, Request(p.value, b.value));
    }
  }

  /** A prefix of a truthy string or list is truthy. */
  lemma PrefixTruthy(v: Value, n: nat)
    requires n > 0 && Truthy(v) && Prefix(v, n).Ok?
    ensures Truthy(Prefix(v, n).value)
  {
    if v.Str? {
      assert Prefix(v, n).value.s[0] == v.s[0];
    } else {
      assert Prefix(v, n).value.items[0] == v.items[0];
    }
  }

  /** Filling the title or description again from the same text finds
      nothing left to fill that would change whether the attachment is
      untitled, and keeps every field it already had. */
  lemma RefillStable(msg: map<string, Value>, a2: map<string, Value>)
    requires TextIntoAttachment(msg, a2).Ok?
    ensures var (a3, drop) := TextIntoAttachment(msg, a2).value;
      TextIntoAttachment(msg, a3).Ok? &&
      TextIntoAttachment(msg, a3).value.1 == drop &&
      Untitled(TextIntoAttachment(msg, a3).value.0) == Untitled(a3)
  {
    var (a3, drop) := TextIntoAttachment(msg, a2).value;
    if drop {
      if "title" !in a2 {
        PrefixTruthy(msg["text"], 80);
      } else if "description" !in a2 {
        PrefixTruthy(msg["text"], 80);
      }
    }
  }

  /** The attachment statements, run again on the completed attachment,
      build the same body. */
  lemma ResendAttachmentStep(msg: map<string, Value>, body: map<string, Value>)
    requires "attachment" in msg
    requires AttachmentStep(msg, body, ClassTuple).body.Ok?
    ensures var st := AttachmentStep(msg, body, ClassTuple);
      AttachmentStep(st.message, body, ClassTuple).body == st.body
  {
    var st := AttachmentStep(msg, body, ClassTuple);
    if st.message != msg {
      var item := msg["attachment"].items[0];
      assert First(msg["attachment"]) == Ok(item);
      assert Truthy(item.fields["url"]);
      var a1 := FixType(item.fields, ClassTuple).value;
      assert AttachmentStep(msg, body, ClassTuple) == CompleteAttachment(msg, body, a1)
        by { assert LoneUrl(msg["attachment"]); }
      CompleteAgain(msg, body, a1);
    }
  }

  /** Completing an attachment that is already complete builds the same
      body: its type is valid, its flag set, and refilling the title or
      description changes nothing that counts. */
  lemma CompleteAgain(msg: map<string, Value>, body: map<string, Value>, a1: map<string, Value>)
    requires "type" in a1 && a1["type"] in Classifier.AllowedTypes
    requires "url" in a1 && Truthy(a1["url"])
    requires CompleteAttachment(msg, body, a1).body.Ok?
    ensures var st := CompleteAttachment(msg, body, a1);
      AttachmentStep(st.message, body, ClassTuple).body == st.body
  {
    var a2 := if "reusable" in a1 then a1 else a1["reusable" := Bool(false)];
    var (a3, drop) := TextIntoAttachment(msg, a2).value;
    var m2 := msg["attachment" := Arr([Obj(a3)])];
    assert CompleteAttachment(msg, body, a1).message == m2;
    assert FixType(a3, ClassTuple) == Ok(a3);
    assert AttachmentStep(m2, body, ClassTuple) == CompleteAttachment(m2, body, a3)
      by { assert LoneUrl(m2["attachment"]); }
    RefillStable(msg, a2);
    assert TextIntoAttachment(m2, a3) == TextIntoAttachment(msg, a3) by {
      assert ("text" in m2) == ("text" in msg);
      if "text" in msg { assert m2["text"] == msg["text"]; }
    }
    var a4 := TextIntoAttachment(m2, a3).value.0;
    assert SimpleAttachment(a4) == SimpleAttachment(a3);
  }

  /** As written, an addressed message whose one attachment dict has a
      truthy url and already names a type can never be sent: the unqualified
      `allowed_attachments` raises. */
  lemma AsWrittenRejectsTypedAttachment(msg: map<string, Value>)
    requires Addressed(msg)
    requires "attachment" in msg && msg["attachment"].Arr? && |msg["attachment"].items| == 1
    requires var a := msg["attachment"].items[0];
      a.Obj? && "url" in a.fields && Truthy(a.fields["url"]) && "type" in a.fields
    ensures FacebookSend(msg, UnqualifiedName).payload == Err(NameError)
  {
    assert Path(Obj(msg), ["recipient", "id"]) == Ok(msg["recipient"].fields["id"]);
  }

  /** As written, a message whose lone attachment has a url and nothing
      else is sent once, but the type that send writes into it makes every
      later send of the same message raise. */
  lemma AsWrittenSecondSendFails(msg: map<string, Value>, url: string)
    requires Addressed(msg) && "text" !in msg && "other" !in msg
    requires "attachment" in msg && msg["attachment"] == Arr([Obj(map["url" := Str(url)])]) && url != ""
    ensures FacebookSend(msg, UnqualifiedName).payload.Ok?
    ensures FacebookSend(FacebookSend(msg, UnqualifiedName).message, UnqualifiedName).payload == Err(NameError)
  {
    var rid := msg["recipient"].fields["id"];
    assert Path(Obj(msg), ["recipient", "id"]) == Ok(rid);
    var a2 := UrlOnlyBody(msg, url, UnqualifiedName);
    var m2 := msg["attachment" := Arr([Obj(a2)])];
    var body := map["attachment" := SimpleAttachment(a2)];
    assert FacebookSend(msg, UnqualifiedName) == Sent(OtherStep(msg, Request(rid, body)), m2);
    assert m2["recipient"] == msg["recipient"];
    AsWrittenRejectsTypedAttachment(m2);
  }

  /** The witness: `{"recipient": {"id": "1"}, "attachment": [{"url": "a.jpg"}]}`. */
  lemma AsWrittenWitness()
    ensures var msg := map["recipient" := Obj(map["id" := Str("1")]),
                           "attachment" := Arr([Obj(map["url" := Str("a.jpg")])])];
      && FacebookSend(msg, UnqualifiedName).payload.Ok?
      && FacebookSend(FacebookSend(msg, UnqualifiedName).message, UnqualifiedName).payload == Err(NameError)
  {
    var msg := map["recipient" := Obj(map["id" := Str("1")]),
                   "attachment" := Arr([Obj(map["url" := Str("a.jpg")])])];
    AsWrittenSecondSendFails(msg, "a.jpg");
  }

  /** The raw payload forwards what it is given: building it again changes
      nothing, and a message of forwarded fields only is its own payload. */
  lemma RawPayloadProperties(msg: map<string, Value>)
    ensures RawPayload(RawPayload(msg)) == RawPayload(msg)
    ensures msg.Keys <= RawFields ==> RawPayload(msg) == msg
  {
  }

  /** With `print_text_only` on, the raw payload is echoed exactly when
      printing is on and the message has a truthy text; with it off,
      whenever printing is on. */
  lemma PrintDecision(raw: Value, msg: map<string, Value>)
    requires raw.Obj? && "print" in raw.fields && "print_text_only" in raw.fields
    ensures var r := ShouldPrint(raw, RawPayload(msg)); var f := raw.fields;
      r.Ok? &&
      (r.value <==> Truthy(f["print"]) &&
                    (!Truthy(f["print_text_only"]) || ("text" in msg && Truthy(msg["text"]))))
  {
  }

  /** As written, a truthy `jsonp` silences the echo the corrected code
      would print; without one the two agree. */
  lemma AsWrittenJsonpSilent(raw: Value, payload: map<string, Value>)
    ensures GetKey(raw, "jsonp").Ok? && Truthy(GetKey(raw, "jsonp").value) ==>
      RawEchoAsWritten(raw, payload) == Silent
    ensures RawEcho(raw, payload).Jsonp? ==> RawEchoAsWritten(raw, payload) == Silent
    ensures !RawEcho(raw, payload).Jsonp? ==> RawEchoAsWritten(raw, payload) == RawEcho(raw, payload)
  {
  }

  /** The witness: printing on for every message and a `jsonp` callback. */
  lemma AsWrittenJsonpWitness()
    ensures var raw := Obj(map["print" := Bool(true), "print_text_only" := Bool(false), "jsonp" := Str("cb")]);
      && RawEcho(raw, map[]) == Jsonp(Str("cb"))
      && RawEchoAsWritten(raw, map[]) == Silent
  {
  }

  /* ------------------------------------------------------------------ */
  /* smart_send                                                          */
  /* ------------------------------------------------------------------ */

  /** The message carries something a sender action cannot travel with. */
  predicate HasContent(m: map<string, Value>) {
    ("text" in m && Truthy(m["text"])) || ("attachment" in m && Truthy(m["attachment"]))
  }

  /** Lines 400-409: the messages `smart_send` sends, in order. A sender
      action next to content splits the message in two shallow copies: the
      first loses its text and attachment, and `sender_action` is deleted
      from the `other` dict both copies share. */
  function SmartPlan(m: map<string, Value>): (r: Result<seq<map<string, Value>>>)
    ensures r.Ok? ==> 1 <= |r.value| <= 2
  {
    if "other" !in m then Ok([m])
    else
      var split :- Contains("sender_action", m["other"]);
      if !split || !HasContent(m) then Ok([m])
      else if !m["other"].Obj? then Err(TypeError)   // `del` on a list or string
      else
        var other := Obj(m["other"].fields - {"sender_action"});
        Ok([(m - {"text", "attachment"})["other" := other], m["other" := other]])
  }

  /** The two copies of a split, spelled out. */
  lemma SplitPlan(m: map<string, Value>)
    requires "other" in m && m["other"].Obj? && "sender_action" in m["other"].fields && HasContent(m)
    ensures var other := Obj(m["other"].fields - {"sender_action"});
      SmartPlan(m) == Ok([(m - {"text", "attachment"})["other" := other], m["other" := other]])
  {
  }

  /** What the Facebook branch of `smart_send` returns, and the caller's
      message as it is left (see SmartPlan). */
  datatype Smart = Smart(payloads: Result<seq<Value>>, message: map<string, Value>)

  function SmartSendSpec(m: map<string, Value>): (r: Smart)
    ensures SmartPlan(m).Err? ==> r == Smart(Err(SmartPlan(m).error), m)
    ensures r.payloads.Ok? ==>
      && SmartPlan(m).Ok?
      && |r.payloads.value| == |SmartPlan(m).value|
      && forall j :: 0 <= j < |r.payloads.value| ==>
           FacebookSend(SmartPlan(m).value[j], ClassTuple).payload == Ok(r.payloads.value[j])
  {
    match SmartPlan(m)
    case Err(e) => Smart(Err(e), m)
    case Ok(plan) => Outcome(plan, Sends(plan))
  }

  /** What `send` does with each planned copy. */
  function Sends(plan: seq<map<string, Value>>): (r: seq<Sent>)
    ensures |r| == |plan|
    ensures forall j :: 0 <= j < |plan| ==> r[j] == FacebookSend(plan[j], ClassTuple)
  {
    seq(|plan|, j requires 0 <= j < |plan| => FacebookSend(plan[j], ClassTuple))
  }

  /** The copies sent in turn until one raises; the caller's message ends as
      the last copy, which shares its attachment list and other dict. */
  function Outcome(plan: seq<map<string, Value>>, sends: seq<Sent>): (r: Smart)
    requires 1 <= |plan| <= 2 && |sends| == |plan|
    ensures r.payloads.Ok? <==> forall j :: 0 <= j < |plan| ==> sends[j].payload.Ok?
    ensures r.payloads.Ok? ==>
      |r.payloads.value| == |plan| && forall j :: 0 <= j < |plan| ==> sends[j].payload == Ok(r.payloads.value[j])
  {
    var s0 := sends[0];
    if |plan| == 1 then
      Smart(if s0.payload.Ok? then Ok([s0.payload.value]) else Err(s0.payload.error), s0.message)
    else if s0.payload.Err? then Smart(Err(s0.payload.error), plan[1])
    else
      var s1 := sends[1];
      Smart(if s1.payload.Ok? then Ok([s0.payload.value, s1.payload.value]) else Err(s1.payload.error),
            s1.message)
  }

  /** The split happens exactly when `other` names a sender action and the
      message has content. Then the content travels once, in the second
      copy; the first carries neither text nor attachment; no copy and not
      the caller's message keeps the sender action; and both copies keep
      the recipient and everything else. */
  lemma SmartPlanProperties(m: map<string, Value>)
    requires SmartPlan(m).Ok?
    ensures var plan := SmartPlan(m).value;
      && (|plan| == 2 <==> "other" in m && Contains("sender_action", m["other"]) == Ok(true) && HasContent(m))
      && (|plan| == 1 ==> plan[0] == m)
      && (|plan| == 2 ==>
            && "text" !in plan[0] && "attachment" !in plan[0] && !HasContent(plan[0])
            && plan[1].Keys == m.Keys
            && (forall k :: k in m && k != "other" ==> plan[1][k] == m[k])
            && (forall j :: 0 <= j < 2 ==>
                  && plan[j]["other"].Obj?
                  && plan[j]["other"].fields == m["other"].fields - {"sender_action"}
                  && ("recipient" in m ==> plan[j]["recipient"] == m["recipient"])))
  {
  }

  /** Of two sends, the first posts no text and no attachment. */
  lemma SplitFirstIsBare(m: map<string, Value>)
    requires SmartPlan(m).Ok? && |SmartPlan(m).value| == 2
    requires SmartSendSpec(m).payloads.Ok?
    ensures var p := SmartSendSpec(m).payloads.value[0].fields;
      p["message"] == Obj(map[])
  {
    var plan := SmartPlan(m).value;
    var m0 := plan[0];
    assert "text" !in m0 && "attachment" !in m0;
    assert BodyStep(m0, ClassTuple) == Step(Ok(map[]), m0);
    var s0 := Sends(plan)[0];
    assert s0.payload.Ok? && SmartSendSpec(m).payloads.value[0] == s0.payload.value;
    var rid := Path(Obj(m0), ["recipient", "id"]).value;
    assert s0.payload == OtherStep(m0, Request(rid, map[]));
  }

  /** Without a sender action the message is sent once, as it is. */
  lemma NoActionSingleSend(m: map<string, Value>)
    requires "other" !in m || (m["other"].Obj? && "sender_action" !in m["other"].fields)
    ensures SmartPlan(m) == Ok([m])
    ensures SmartSendSpec(m).payloads ==
      if FacebookSend(m, ClassTuple).payload.Ok? then Ok([FacebookSend(m, ClassTuple).payload.value])
      else Err(FacebookSend(m, ClassTuple).payload.error)
  {
  }

  /** Every planned send succeeded: the payloads are theirs, in order. */
  lemma SmartAllSent(plan: seq<map<string, Value>>, sends: seq<Sent>, results: seq<Value>)
    requires 1 <= |plan| <= 2 && |sends| == |results| == |plan|
    requires forall j :: 0 <= j < |plan| ==> sends[j].payload == Ok(results[j])
    ensures Outcome(plan, sends).payloads == Ok(results)
    ensures Outcome(plan, sends).message == sends[|plan| - 1].message
  {
    assert results == if |plan| == 1 then [results[0]] else [results[0], results[1]];
  }

  /** A planned send raised after the earlier ones succeeded: its exception
      is the outcome. */
  lemma SmartStopped(plan: seq<map<string, Value>>, sends: seq<Sent>, i: nat)
    requires 1 <= |plan| <= 2 && |sends| == |plan| && i < |plan|
    requires forall j :: 0 <= j < i ==> sends[j].payload.Ok?
    requires sends[i].payload.Err?
    ensures Outcome(plan, sends).payloads == Err(sends[i].payload.error)
    ensures Outcome(plan, sends).message == if i == |plan| - 1 then sends[i].message else plan[|plan| - 1]
  {
  }
}
