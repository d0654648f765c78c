/** The `Messaging` object: its settings and platform switch, the
    verify-token handshake of the constructor, and `receive`, `send`,
    `smart_send`, `reply` and `smart_reply` working on message dicts that
    the caller and its shallow copies share. */
module Phemia {
  import opened Json
  import Merge
  import Inbound
  import Outbound

  const Facebook := Str("facebook")
  const Raw := Str("raw")

  /** The class tuple `allowed_platforms`. */
  const AllowedPlatforms: seq<Value> := [Facebook, Raw]

  /** The constructor's `default_settings`. */
  const DefaultSettings: Value := Obj(map[
    "platform" := Facebook,
    "log_file" := Null,
    "facebook" := Obj(map[
      "access_token" := Null,
      "verify_token" := Null,
      "timeout" := Num(5.0)]),
    "raw" := Obj(map[
      "server" := Null,
      "allow_ips" := Arr([]),
      "disallow_ips" := Arr([]),
      "print" := Bool(true),
      "print_text_only" := Bool(true),
      "jsonp" := Null,
      "timeout" := Num(5.0)])])

  /** Settings a `Messaging` object can hold: a dict naming a supported
      platform. */
  predicate ValidSettings(s: Value) {
    s.Obj? && "platform" in s.fields && s.fields["platform"] in AllowedPlatforms
  }

  /** Lines 41-48: the options merged over the defaults; a platform the
      class does not support is refused. */
  function Configure(options: Value): (r: Result<Value>)
    ensures r.Ok? ==> ValidSettings(r.value) && r.value.fields.Keys >= DefaultSettings.fields.Keys
    ensures r.Ok? <==> Merge.DeepMerge(DefaultSettings, options).Ok? &&
                       Merge.DeepMerge(DefaultSettings, options).value.fields["platform"] in AllowedPlatforms
    ensures Merge.DeepMerge(DefaultSettings, options).Ok? && r.Err? ==> r == Err(ValueError)
  {
    var s :- Merge.DeepMerge(DefaultSettings, options);
    if s.fields["platform"] in AllowedPlatforms then Ok(s) else Err(ValueError)
  }

  /** `get_value`: `settings[settings['platform']][variable]`. */
  function GetValue(settings: Value, variable: string): (r: Result<Value>)
    requires ValidSettings(settings)
    ensures var p := settings.fields["platform"].s;
      && (r.Ok? <==> p in settings.fields && settings.fields[p].Obj? && variable in settings.fields[p].fields)
      && (r.Ok? ==> r.value == settings.fields[p].fields[variable])
      && (p !in settings.fields ==> r == Err(KeyError))
      && (p in settings.fields && !settings.fields[p].Obj? ==> r == Err(TypeError))
      && (p in settings.fields && settings.fields[p].Obj? && variable !in settings.fields[p].fields ==>
            r == Err(KeyError))
  {
    var section :- GetKey(settings, settings.fields["platform"].s);
    GetKey(section, variable)
  }

  /** Lines 52-54: the challenge echoed back to Facebook's subscription
      request, given the query parameters. Both tokens must be configured,
      the request must carry a token and a challenge, and the token must
      match. */
  function Challenge(settings: Value, args: map<string, string>): (r: Result<Option<string>>)
    requires ValidSettings(settings)
    ensures settings.fields["platform"] != Facebook ==> r == Ok(None)
    ensures r.Err? ==> GetValue(settings, "verify_token").Err? || GetValue(settings, "access_token").Err?
    ensures r.Ok? && r.value.Some? ==>
      "hub.challenge" in args && r.value.value == args["hub.challenge"] && "hub.verify_token" in args
  {
    if settings.fields["platform"] != Facebook then Ok(None)
    else
      var verifyToken :- GetValue(settings, "verify_token");
      if verifyToken == Null then Ok(None)
      else
        var accessToken :- GetValue(settings, "access_token");
        if accessToken == Null then Ok(None)
        else if "hub.verify_token" in args && "hub.challenge" in args &&
                Str(args["hub.verify_token"]) == verifyToken
        then Ok(Some(args["hub.challenge"]))
        else Ok(None)
  }

  /** `receive` as a function of the settings and the decoded body. */
  function Translate(settings: Value, data: Value): (r: Result<Inbound.Received>)
    requires ValidSettings(settings)
    ensures r.Ok? ==> r.value.raw == data
    ensures settings.fields["platform"] == Facebook ==> (r.Err? <==> Inbound.FacebookGuard(data).Err?)
    ensures settings.fields["platform"] != Facebook && r.Err? ==> r.error == NameError
  {
    if settings.fields["platform"] == Facebook then Inbound.FacebookInbound(data)
    else Inbound.RawInbound(data)
  }

  /** The message `reply` sends: the last sender is the recipient unless the
      message names one. */
  function ReplyMessage(lastSender: Value, m: map<string, Value>): (r: map<string, Value>)
    ensures "recipient" in r
    ensures "recipient" in m ==> r == m
    ensures "recipient" !in m ==> r["recipient"] == lastSender && r - {"recipient"} == m
  {
    if "recipient" in m then m else m["recipient" := lastSender]
  }

  /** The raw section of the settings, where `print` and
      `print_text_only` are read. */
  function RawSection(settings: Value): Value
    requires settings.Obj?
  {
    if "raw" in settings.fields then settings.fields["raw"] else Null
  }

  /** The challenge is echoed exactly when the platform is Facebook, both
      tokens are set, the request carries a token and a challenge, and the
      token is the configured one; what is echoed is the challenge. */
  lemma ChallengeEcho(settings: Value, args: map<string, string>, c: string)
    requires ValidSettings(settings)
    ensures Challenge(settings, args) == Ok(Some(c)) <==>
      && settings.fields["platform"] == Facebook
      && GetValue(settings, "verify_token").Ok? && GetValue(settings, "verify_token").value != Null
      && GetValue(settings, "access_token").Ok? && GetValue(settings, "access_token").value != Null
      && "hub.verify_token" in args && "hub.challenge" in args
      && Str(args["hub.verify_token"]) == GetValue(settings, "verify_token").value
      && c == args["hub.challenge"]
  {
  }

  /** With the default settings the constructor succeeds, on Facebook, and
      echoes nothing whatever the request: no tokens are configured. */
  lemma DefaultsNeverEcho(args: map<string, string>)
    ensures Configure(Obj(map[])) == Ok(DefaultSettings)
    ensures DefaultSettings.fields["platform"] == Facebook
    ensures Challenge(DefaultSettings, args) == Ok(None)
  {
    assert Path(DefaultSettings, ["facebook", "verify_token"]) == Ok(Null);
  }

  /** Choosing the platform in the options: the constructor accepts exactly
      the supported platforms, and the settings are the defaults with that
      platform. */
  lemma PlatformOption(p: Value)
    requires !p.Obj?
    ensures Configure(Obj(map["platform" := p])).Ok? <==> p in AllowedPlatforms
    ensures p in AllowedPlatforms ==>
      Configure(Obj(map["platform" := p])) == Ok(Obj(DefaultSettings.fields["platform" := p]))
  {
    Merge.FlatMerge(DefaultSettings.fields, map["platform" := p]);
    assert DefaultSettings.fields + map["platform" := p] == DefaultSettings.fields["platform" := p];
  }

  /** `is_platform` holds for the configured platform and nothing else, so
      every object is on exactly one of the two. */
  lemma PlatformsExclusive(m: Messaging, c: Value)
    requires m.Valid()
    ensures m.IsPlatform(c) <==> c == m.settings.fields["platform"]
    ensures m.IsPlatform(Facebook) != m.IsPlatform(Raw)
  {
  }

  /** With the default raw settings a payload is echoed, as plain JSON,
      exactly when it has a truthy text. */
  lemma DefaultRawEcho(payload: map<string, Value>)
    ensures Outbound.RawEcho(RawSection(DefaultSettings), payload) ==
      if "text" in payload && Truthy(payload["text"]) then Outbound.Plain else Outbound.Silent
  {
    var raw := RawSection(DefaultSettings);
    assert GetKey(raw, "print") == Ok(Bool(true));
    assert GetKey(raw, "print_text_only") == Ok(Bool(true));
    assert GetKey(raw, "jsonp") == Ok(Null);
  }

  /** A reply to a message without a recipient, after `receive` stored the
      sender `{'id': sid}`, is addressed to `sid`. */
  lemma ReplyGoesToSender(sid: Value, m: map<string, Value>)
    requires "recipient" !in m
    requires Outbound.FacebookSend(ReplyMessage(Obj(map["id" := sid]), m), Outbound.ClassTuple).payload.Ok?
    ensures Outbound.FacebookSend(ReplyMessage(Obj(map["id" := sid]), m), Outbound.ClassTuple)
              .payload.value.fields["recipient"] == Obj(map["id" := sid])
  {
    Outbound.PayloadRecipient(ReplyMessage(Obj(map["id" := sid]), m), Outbound.ClassTuple);
  }

  /** A dict or list the caller and its shallow copies hold by reference. */
  class Cell {
    var value: Value

    constructor (v: Value)
      ensures value == v
    {
      value := v;
    }
  }

  /** A message dict. `send` reads five of its keys; the `attachment` list
      and the `other` dict are held by reference, so a shallow copy shares
      them and what `send` writes into them shows in every copy. */
  class Message {
    var recipient: Option<Value>
    var sender: Option<Value>
    var text: Option<Value>
    var attachment: Cell?
    var other: Cell?

    constructor (recipient: Option<Value>, sender: Option<Value>, text: Option<Value>,
                 attachment: Cell?, other: Cell?)
      ensures this.recipient == recipient && this.sender == sender && this.text == text
      ensures this.attachment == attachment && this.other == other
    {
      this.recipient := recipient;
      this.sender := sender;
      this.text := text;
      this.attachment := attachment;
      this.other := other;
    }

    /** The attachment list and the other dict are two objects. */
    predicate Valid()
      reads this
    {
      attachment == null || attachment != other
    }

    /** The message as a dict of its present keys. */
    function Snapshot(): (m: map<string, Value>)
      reads this, attachment, other
      ensures m.Keys <= Outbound.RawFields
      ensures ("recipient" in m <==> recipient.Some?) && (recipient.Some? ==> m["recipient"] == recipient.value)
      ensures ("sender" in m <==> sender.Some?) && (sender.Some? ==> m["sender"] == sender.value)
      ensures ("text" in m <==> text.Some?) && (text.Some? ==> m["text"] == text.value)
      ensures ("attachment" in m <==> attachment != null) &&
              (attachment != null ==> m["attachment"] == attachment.value)
      ensures ("other" in m <==> other != null) && (other != null ==> m["other"] == other.value)
    {
      var m0: map<string, Value> := map[];
      var m1 := if recipient.Some? then m0["recipient" := recipient.value] else m0;
      var m2 := if sender.Some? then m1["sender" := sender.value] else m1;
      var m3 := if text.Some? then m2["text" := text.value] else m2;
      var m4 := if attachment != null then m3["attachment" := attachment.value] else m3;
      if other != null then m4["other" := other.value] else m4
    }

    /** `message.copy()`: a new dict over the same values. */
    method Copy() returns (c: Message)
      ensures fresh(c)
      ensures c.recipient == recipient && c.sender == sender && c.text == text
      ensures c.attachment == attachment && c.other == other
    {
      c := new Message(recipient, sender, text, attachment, other);
    }
  }

  /** Two dicts with the same keys and values. */
  lemma SnapshotsAgree(a: Message, b: Message)
    requires a.recipient == b.recipient && a.sender == b.sender && a.text == b.text
    requires a.attachment == b.attachment && a.other == b.other
    ensures a.Snapshot() == b.Snapshot()
  {
  }

  /** A message whose slots hold exactly the entries of `m` has `m` as its
      dict. */
  lemma SnapshotOf(c: Message, m: map<string, Value>)
    requires m.Keys <= Outbound.RawFields
    requires ("recipient" in m <==> c.recipient.Some?) && (c.recipient.Some? ==> m["recipient"] == c.recipient.value)
    requires ("sender" in m <==> c.sender.Some?) && (c.sender.Some? ==> m["sender"] == c.sender.value)
    requires ("text" in m <==> c.text.Some?) && (c.text.Some? ==> m["text"] == c.text.value)
    requires ("attachment" in m <==> c.attachment != null) &&
             (c.attachment != null ==> m["attachment"] == c.attachment.value)
    requires ("other" in m <==> c.other != null) && (c.other != null ==> m["other"] == c.other.value)
    ensures c.Snapshot() == m
  {
    assert c.Snapshot().Keys == m.Keys;
  }

  class Messaging {
    var settings: Value
    var lastSender: Value
    var lastRecipient: Value

    predicate Valid()
      reads this
    {
      ValidSettings(settings)
    }

    /** Lines 21-54: the constructor. It raises when the options cannot be
        merged, name an unsupported platform, or make a token unreadable;
        it returns the challenge it echoes. */
    static method Create(options: Value, args: map<string, string>)
      returns (r: Result<Messaging>, echo: Option<string>)
      ensures r.Ok? <==> Configure(options).Ok? && Challenge(Configure(options).value, args).Ok?
      ensures r.Ok? ==> fresh(r.value) && r.value.Valid()
      ensures r.Ok? ==> r.value.settings == Configure(options).value
      ensures r.Ok? ==> r.value.lastSender == Obj(map[]) && r.value.lastRecipient == Obj(map[])
      ensures r.Ok? ==> echo == Challenge(Configure(options).value, args).value
      ensures r.Err? ==> echo == None
    {
      echo := None;
      var merged := Merge.DeepDictMerge(DefaultSettings, options);
      if merged.Err? { return Err(merged.error), None; }
      var s := merged.value;
      if s.fields["platform"] !in AllowedPlatforms { return Err(ValueError), None; }
      var handshake := Challenge(s, args);
      if handshake.Err? { return Err(handshake.error), None; }
      var m := new Messaging.Init(s);
      r, echo := Ok(m), handshake.value;
    }

    constructor Init(s: Value)
      requires ValidSettings(s)
      ensures Valid() && settings == s
      ensures lastSender == Obj(map[]) && lastRecipient == Obj(map[])
    {
      settings := s;
      lastSender := Obj(map[]);
      lastRecipient := Obj(map[]);
    }

    /** `is_platform` */
    function IsPlatform(compare: Value): (r: bool)
      reads this
      requires Valid()
      ensures r <==> compare == settings.fields["platform"]
    {
      Truthy(compare) && compare == settings.fields["platform"]
    }

    /** Lines 62-65: switch to a supported platform, or raise and change
        nothing. */
    method SetPlatform(p: Value) returns (r: Result<()>)
      requires Valid()
      modifies this
      ensures Valid()
      ensures r.Ok? <==> p in AllowedPlatforms
      ensures r.Ok? ==> settings == Obj(old(settings).fields["platform" := p]) && IsPlatform(p)
      ensures r.Err? ==> r.error == ValueError && settings == old(settings)
      ensures lastSender == old(lastSender) && lastRecipient == old(lastRecipient)
    {
      if Truthy(p) && p in AllowedPlatforms {
        settings := Obj(settings.fields["platform" := p]);
        r := Ok(());
      } else {
        r := Err(ValueError);
      }
    }

    /** Lines 93-201 on the decoded body: translate it and remember its
        parties. An exception leaves the parties as they were. */
    method Receive(data: Value) returns (r: Result<Inbound.Received>)
      requires Valid()
      modifies this
      ensures Valid() && settings == old(settings)
      ensures r == Translate(settings, data)
      ensures r.Ok? ==> lastSender == r.value.sender && lastRecipient == r.value.recipient
      ensures r.Err? ==> lastSender == old(lastSender) && lastRecipient == old(lastRecipient)
    {
      if IsPlatform(Facebook) {
        r := Inbound.TranslateFacebook(data);
      } else {
        r := Inbound.TranslateRaw(data);
      }
      if r.Ok? {
        lastSender := r.value.sender;
        lastRecipient := r.value.recipient;
      }
    }

    /** `send` up to the request: the body it would post. On Facebook the
        first attachment of the caller's list is completed in place; the
        raw transport leaves the message alone and says what it echoes. */
    method Send(msg: Message) returns (r: Result<Value>, echo: Outbound.Echo)
      requires Valid() && msg.Valid()
      modifies msg.attachment
      ensures IsPlatform(Facebook) ==>
        && r == Outbound.FacebookSend(old(msg.Snapshot()), Outbound.ClassTuple).payload
        && msg.Snapshot() == Outbound.FacebookSend(old(msg.Snapshot()), Outbound.ClassTuple).message
        && echo == Outbound.Silent
      ensures IsPlatform(Raw) ==>
        && r == Ok(Obj(Outbound.RawPayload(old(msg.Snapshot()))))
        && msg.Snapshot() == old(msg.Snapshot())
        && echo == Outbound.RawEcho(RawSection(settings), Outbound.RawPayload(old(msg.Snapshot())))
    {
      if IsPlatform(Facebook) {
        r := SendFacebook(msg);
        echo := Outbound.Silent;
      } else {
        var payload;
        payload, echo := SendRaw(msg);
        r := Ok(payload);
      }
    }

    /** Lines 313-333: the raw body is the message's forwarded fields; what
        is echoed follows the raw settings. The message is left as it is. */
    method SendRaw(msg: Message) returns (payload: Value, echo: Outbound.Echo)
      requires Valid()
      ensures payload == Obj(Outbound.RawPayload(msg.Snapshot()))
      ensures echo == Outbound.RawEcho(RawSection(settings), Outbound.RawPayload(msg.Snapshot()))
    {
      var fields := Outbound.RawPayload(msg.Snapshot());
      payload := Obj(fields);
      echo := Outbound.RawEcho(RawSection(settings), fields);
    }

    /** Lines 398-416. On Facebook a sender action next to content is sent
        as a separate, earlier message (see Outbound.SmartPlan); the raw
        transport sends the message once, and echoes it as `send` does. */
    method SmartSend(msg: Message) returns (r: Result<seq<Value>>, echo: Outbound.Echo)
      requires Valid() && msg.Valid()
      modifies msg.attachment, msg.other
      ensures IsPlatform(Facebook) ==>
        && r == Outbound.SmartSendSpec(old(msg.Snapshot())).payloads
        && msg.Snapshot() == Outbound.SmartSendSpec(old(msg.Snapshot())).message
        && echo == Outbound.Silent
      ensures IsPlatform(Raw) ==>
        && r == Ok([Obj(Outbound.RawPayload(old(msg.Snapshot())))])
        && msg.Snapshot() == old(msg.Snapshot())
        && echo == Outbound.RawEcho(RawSection(settings), Outbound.RawPayload(old(msg.Snapshot())))
    {
      if !IsPlatform(Facebook) {
        var p;
        p, echo := SendRaw(msg);
        return Ok([p]), echo;
      }
      r := SmartSendFacebook(msg);
      echo := Outbound.Silent;
    }

    /** `reply`: to the last sender unless the message names a recipient.
        The recipient is written into the caller's message. */
    method Reply(msg: Message) returns (r: Result<Value>, echo: Outbound.Echo)
      requires Valid() && msg.Valid()
      modifies msg, msg.attachment
      ensures msg.recipient == if old(msg.recipient).Some? then old(msg.recipient) else Some(lastSender)
      ensures IsPlatform(Facebook) ==>
        && r == Outbound.FacebookSend(ReplyMessage(lastSender, old(msg.Snapshot())), Outbound.ClassTuple).payload
        && msg.Snapshot() ==
             Outbound.FacebookSend(ReplyMessage(lastSender, old(msg.Snapshot())), Outbound.ClassTuple).message
        && echo == Outbound.Silent
      ensures IsPlatform(Raw) ==>
        && r == Ok(Obj(Outbound.RawPayload(ReplyMessage(lastSender, old(msg.Snapshot())))))
        && msg.Snapshot() == ReplyMessage(lastSender, old(msg.Snapshot()))
        && echo == Outbound.RawEcho(RawSection(settings), Outbound.RawPayload(ReplyMessage(lastSender, old(msg.Snapshot()))))
    {
      ghost var m := msg.Snapshot();
      if msg.recipient.None? {
        msg.recipient := Some(lastSender);
      }
      assert msg.Snapshot() == ReplyMessage(lastSender, m);
      r, echo := Send(msg);
    }

    /** `smart_reply`: `reply` through `smart_send`. */
    method SmartReply(msg: Message) returns (r: Result<seq<Value>>, echo: Outbound.Echo)
      requires Valid() && msg.Valid()
      modifies msg, msg.attachment, msg.other
      ensures msg.recipient == if old(msg.recipient).Some? then old(msg.recipient) else Some(lastSender)
      ensures IsPlatform(Facebook) ==>
        && r == Outbound.SmartSendSpec(ReplyMessage(lastSender, old(msg.Snapshot()))).payloads
        && msg.Snapshot() == Outbound.SmartSendSpec(ReplyMessage(lastSender, old(msg.Snapshot()))).message
        && echo == Outbound.Silent
      ensures IsPlatform(Raw) ==>
        && r == Ok([Obj(Outbound.RawPayload(ReplyMessage(lastSender, old(msg.Snapshot()))))])
        && msg.Snapshot() == ReplyMessage(lastSender, old(msg.Snapshot()))
        && echo ==
             Outbound.RawEcho(RawSection(settings), Outbound.RawPayload(ReplyMessage(lastSender, old(msg.Snapshot()))))
    {
      ghost var m := msg.Snapshot();
      if msg.recipient.None? {
        msg.recipient := Some(lastSender);
      }
      assert msg.Snapshot() == ReplyMessage(lastSender, m);
      r, echo := SmartSend(msg);
    }
  }

  /** Lines 399-412: the Facebook branch of `smart_send`. */
  method SmartSendFacebook(msg: Message) returns (r: Result<seq<Value>>)
    requires msg.Valid()
    modifies msg.attachment, msg.other
    ensures r == Outbound.SmartSendSpec(old(msg.Snapshot())).payloads
    ensures msg.Snapshot() == Outbound.SmartSendSpec(old(msg.Snapshot())).message
  {
    ghost var m := msg.Snapshot();
    var copies := SmartCopies(msg);
    if copies.Err? {
      return Err(copies.error);
    }
    ghost var plan := Outbound.SmartPlan(m).value;
    r := SendCopies(msg, copies.value, plan, Outbound.Sends(plan));
  }

  /** The copies `smart_send` makes of the caller's message. With a sender
      action next to content there are two: the first loses its text and
      attachment, and the action is deleted from the other dict the copies
      and the caller share. */
  method SmartCopies(msg: Message) returns (r: Result<seq<Message>>)
    requires msg.Valid()
    modifies msg.other
    ensures r.Ok? <==> Outbound.SmartPlan(old(msg.Snapshot())).Ok?
    ensures r.Err? ==>
      Outbound.SmartPlan(old(msg.Snapshot())) == Err(r.error) && msg.Snapshot() == old(msg.Snapshot())
    ensures r.Ok? ==>
      && |r.value| == |Outbound.SmartPlan(old(msg.Snapshot())).value|
      && SameSlots(msg, r.value[|r.value| - 1])
      && (|r.value| == 2 ==> r.value[0].attachment == null)
      && forall j :: 0 <= j < |r.value| ==>
           && fresh(r.value[j]) && r.value[j].Valid() && r.value[j].other == msg.other
           && (r.value[j].attachment == null || r.value[j].attachment == msg.attachment)
           && r.value[j].Snapshot() == Outbound.SmartPlan(old(msg.Snapshot())).value[j]
  {
    ghost var m := msg.Snapshot();
    var c0 := msg.Copy();
    SnapshotsAgree(msg, c0);
    if c0.other == null {
      assert Outbound.SmartPlan(m) == Ok([m]);
      return Ok([c0]);
    }
    var split := Contains("sender_action", c0.other.value);
    if split.Err? {
      assert Outbound.SmartPlan(m) == Err(split.error);
      return Err(split.error);
    }
    if !split.value || !((c0.text.Some? && Truthy(c0.text.value)) ||
                         (c0.attachment != null && Truthy(c0.attachment.value))) {
      assert Outbound.SmartPlan(m) == Ok([m]) by {
        assert !split.value || !Outbound.HasContent(m);
      }
      return Ok([c0]);
    }
    assert Outbound.HasContent(m);
    r := SplitCopies(msg, c0);
  }

  /** The split of `smart_send`: a second copy, the first one stripped of
      its text and attachment, and the sender action deleted from the
      shared other dict, which fails unless that is a dict. */
  method SplitCopies(msg: Message, c0: Message) returns (r: Result<seq<Message>>)
    requires msg.Valid() && c0 != msg && SameSlots(msg, c0) && msg.other != null
    requires "other" in msg.Snapshot() && Contains("sender_action", msg.Snapshot()["other"]) == Ok(true)
    requires Outbound.HasContent(msg.Snapshot())
    modifies c0, msg.other
    ensures r.Ok? <==> Outbound.SmartPlan(old(msg.Snapshot())).Ok?
    ensures r.Err? ==>
      Outbound.SmartPlan(old(msg.Snapshot())) == Err(r.error) && msg.Snapshot() == old(msg.Snapshot())
    ensures r.Ok? ==>
      && |r.value| == 2 && r.value[0] == c0 && fresh(r.value[1])
      && SameSlots(msg, r.value[1]) && c0.attachment == null
      && c0.Valid() && c0.other == msg.other && r.value[1].Valid()
      && c0.Snapshot() == Outbound.SmartPlan(old(msg.Snapshot())).value[0]
      && r.value[1].Snapshot() == Outbound.SmartPlan(old(msg.Snapshot())).value[1]
  {
    ghost var m := msg.Snapshot();
    var c1 := msg.Copy();
    if !c1.other.value.Obj? {
      assert Outbound.SmartPlan(m) == Err(TypeError);
      return Err(TypeError);
    }
    c0.text := None;
    c0.attachment := null;
    var other := Obj(c1.other.value.fields - {"sender_action"});
    Outbound.SplitPlan(m);
    c1.other.value := other;
    SnapshotOf(c0, (m - {"text", "attachment"})["other" := other]);
    SnapshotOf(c1, m["other" := other]);
    r := Ok([c0, c1]);
  }

  /** A dict whose entries other than the attachment are unchanged is the
      old one with at most a new attachment. */
  lemma OnlyAttachmentChanges(m: map<string, Value>, m': map<string, Value>)
    requires m'.Keys == m.Keys
    requires forall k :: k in m && k != "attachment" ==> m'[k] == m[k]
    ensures "attachment" in m ==> m' == m["attachment" := m'["attachment"]]
    ensures "attachment" !in m ==> m' == m
  {
    if "attachment" in m {
      assert m' == m["attachment" := m'["attachment"]] by {
        assert forall k :: k in m' ==> m'[k] == m["attachment" := m'["attachment"]][k];
      }
    }
  }

  /** The loop of `smart_send`: each copy is sent in turn, the first
      exception ends it. The copies share the caller's attachment list and
      other dict, so what `send` writes shows in the caller's message;
      `sends` holds what `send` makes of each planned copy. */
  method SendCopies(msg: Message, copies: seq<Message>,
                    ghost plan: seq<map<string, Value>>, ghost sends: seq<Outbound.Sent>)
    returns (r: Result<seq<Value>>)
    requires msg.Valid() && 1 <= |plan| <= 2 && |copies| == |plan|
    requires Planned(plan, sends)
    requires forall j :: 0 <= j < |copies| ==>
      && copies[j].Valid() && copies[j].other == msg.other
      && (copies[j].attachment == null || copies[j].attachment == msg.attachment)
      && copies[j].Snapshot() == plan[j]
    requires |copies| == 2 ==> copies[0].attachment == null
    requires SameSlots(msg, copies[|copies| - 1])
    modifies msg.attachment
    ensures r == Outbound.Outcome(plan, sends).payloads
    ensures msg.Snapshot() == Outbound.Outcome(plan, sends).message
  {
    var results: seq<Value> := [];
    var i := 0;
    while i < |copies|
      invariant 0 <= i <= |copies| && |results| == i
      invariant forall j :: i <= j < |copies| ==> copies[j].Snapshot() == plan[j]
      invariant i == |copies| ==> copies[i - 1].Snapshot() == sends[i - 1].message
      invariant forall j :: 0 <= j < i ==> sends[j].payload == Ok(results[j])
      decreases |copies| - i
    {
      var p := SendNext(msg, copies, i, plan, sends);
      if p.Err? {
        SnapshotsAgree(msg, copies[|copies| - 1]);
        Outbound.SmartStopped(plan, sends, i);
        return Err(p.error);
      }
      results := results + [p.value];
      i := i + 1;
    }
    SnapshotsAgree(msg, copies[|copies| - 1]);
    Outbound.SmartAllSent(plan, sends, results);
    r := Ok(results);
  }

  /** `sends` holds what `send` makes of each planned copy. */
  predicate Planned(plan: seq<map<string, Value>>, sends: seq<Outbound.Sent>) {
    && |sends| == |plan|
    && forall j {:trigger Outbound.FacebookSend(plan[j], Outbound.ClassTuple)} ::
         0 <= j < |plan| ==> sends[j] == Outbound.FacebookSend(plan[j], Outbound.ClassTuple)
  }

  /** One pass of the loop of `smart_send`: the copy at `i` is sent. The
      copies after it are the ones holding the attachment, so they are left
      as they were. */
  method SendNext(msg: Message, copies: seq<Message>, i: nat,
                  ghost plan: seq<map<string, Value>>, ghost sends: seq<Outbound.Sent>)
    returns (p: Result<Value>)
    requires i < |copies| == |plan| && copies[i].Valid() && Planned(plan, sends)
    requires copies[i].Snapshot() == plan[i]
    requires i + 1 < |copies| ==> copies[i].attachment == null
    requires copies[i].attachment == null || copies[i].attachment == msg.attachment
    modifies msg.attachment
    ensures p == sends[i].payload && copies[i].Snapshot() == sends[i].message
    ensures forall j :: i < j < |copies| ==> copies[j].Snapshot() == old(copies[j].Snapshot())
  {
    p := SendFacebook(copies[i]);
  }

  /** Lines 205-249: the Facebook body. The first attachment of the
      caller's list is completed in place, even when the send then
      raises. */
  method SendFacebook(msg: Message) returns (r: Result<Value>)
    requires msg.Valid()
    modifies msg.attachment
    ensures r == Outbound.FacebookSend(old(msg.Snapshot()), Outbound.ClassTuple).payload
    ensures msg.Snapshot() == Outbound.FacebookSend(old(msg.Snapshot()), Outbound.ClassTuple).message
  {
    ghost var m := msg.Snapshot();
    var s := Outbound.FacebookSend(msg.Snapshot(), Outbound.ClassTuple);
    OnlyAttachmentChanges(m, s.message);
    if msg.attachment != null {
      msg.attachment.value := s.message["attachment"];
      assert msg.Snapshot() == m["attachment" := s.message["attachment"]] by {
        assert msg.Snapshot().Keys == m.Keys;
      }
    }
    r := s.payload;
  }

  /** The top-level slots of two messages agree. */
  predicate SameSlots(a: Message, b: Message)
    reads a, b
  {
    a.recipient == b.recipient && a.sender == b.sender && a.text == b.text &&
    a.attachment == b.attachment && a.other == b.other
  }
}
