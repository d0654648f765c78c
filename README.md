# Phemia messaging core in Dafny

Phemia (`phemia.py`) is a small Python library for chat bots. A
`Messaging` object does three things:

- it reads a webhook body (from Facebook Messenger or from a "raw" custom
  platform) and turns it into one generic message dict;
- it turns a generic message back into the body it posts (the Facebook
  Send API request, or the raw JSON it echoes);
- it keeps the last sender and recipient so that it can reply.

This project models that core and proves properties of the model.

Modules:

- `Json` (json.dfy): decoded JSON values, plus the Python operations the
  code applies to them (truthiness, `in`, `x[k]`, `x[0]`, `len`, `[:n]`,
  iteration). Each one fails with the exception Python raises, so no
  precondition excludes malformed input.
- `Classifier` (classifier.dfy): `get_attachment_type`, which maps a file
  name to `image`, `audio`, `video` or `file` by its lower-cased extension.
- `Merge` (merge.dfy): `deep_dict_merge`. It has a pure specification
  (`DeepMerge`) and a loop method that runs like the source
  (`DeepDictMerge`).
- `Inbound` (inbound.dfy): `receive` without the input read.
  - The Facebook branch is a chain of stages, each of which may stop and
    keep what it has assigned (the `try` block).
  - The raw branch is an all-or-nothing translation.
  - The two attachment loops are methods proved against their
    specification functions.
- `Outbound` (outbound.dfy): the Facebook request body of `send`, and the
  first attachment as `send` completes it in place. Also the raw payload
  and the decision to echo it, and what `smart_send` plans and what its
  loop yields.
- `Phemia` (phemia.dfy): the `Messaging` class. It covers the settings,
  the constructor's platform check and verify-token handshake, and
  `is_platform`/`set_platform`. It also covers `receive`, which updates
  `last_sender`/`last_recipient`, and `send`, `smart_send`, `reply` and
  `smart_reply`.
  - A message is a `Message` object.
  - Its attachment list and `other` dict are `Cell` objects, shared by the
    shallow copies `smart_send` makes, so what `send` writes into the first
    attachment shows in the caller's message.

Modelling choices:

- JSON numbers are opaque reals; only equality and truthiness matter.
- Dict key order is not modelled. Where the code's outcome could depend on
  it, a lemma shows that it does not (`Inbound.KeyOrderIrrelevant`), or the
  exception is reported as a single class (see `Merge.DeepMerge`).
- The inputs of the I/O reads are parameters:
  - the decoded POST body becomes `data` of `Receive`;
  - the parsed query string becomes `args` of `Create`.

## Model

| member | source | states |
|---|---|---|
| Classifier.GetAttachmentType | phemia.py:440-449 | it fails exactly on a truthy non-string (no `lower()`); a falsy value is a `file`; a string gets the kind Classify gives it |
| Classifier.ClassifyByExtension | phemia.py:441-449 | a string's kind is the kind named by the text after its last dot, lower-cased |
| Classifier.ExtensionOfLower | phemia.py:442 | lower-casing and taking the text after the last dot commute |
| Classifier.Extension | phemia.py:442 | the result is the suffix after the last dot (no dot in it, preceded by a dot unless it is the whole name) |
| Classifier.Lower | phemia.py:442 | same length, each character lower-cased |
| Classifier.NameIsAllowed | phemia.py:18 | every kind the classifier returns is in `allowed_attachments` |
| Classifier.ExtensionAfterLastDot | phemia.py:442 | the extension of `p.e` is `e` for every dot-free `e`, whatever `p` holds |
| Classifier.NoDotIsExtension | phemia.py:442 | a name without a dot is its own extension |
| Classifier.ClassifyNoDot | phemia.py:442-449 | a dot-free name is classified by the whole lower-cased name |
| Classifier.LowerIdempotent | phemia.py:442 | lower-casing twice is lower-casing once |
| Classifier.LowerConcat | phemia.py:442 | lower-casing distributes over concatenation |
| Classifier.CaseInsensitive | phemia.py:442 | a name and its lower-cased form get the same kind |
| Classifier.ClassifyBySuffix | phemia.py:442-449 | the kind of `p.e` depends only on `e`, case-insensitively |
| Classifier.LowerJpg | phemia.py:442 | `JPG` and `jpg` both lower-case to `jpg` |
| Classifier.ImageExample | phemia.py:442-444 | `a.JPG` and `a.jpg` are both images |
| Classifier.DotlessName | phemia.py:442-449 | a dot-free name is a file unless the whole name is a known extension |
| Classifier.EmptyIsFile | phemia.py:441-449 | `""` and None are files |
| Merge.DeepMerge | phemia.py:430-438 | it succeeds exactly when `u` is a dict that is empty, or all of whose entries merge into the dict `d`; then the keys are the union, keys of `d` alone keep their value, and non-dict entries of `u` win (dict entries: see MergeRecurses) |
| Merge.MergeRecurses | phemia.py:433-434 | a dict entry of `u` becomes the merge of it into `d`'s entry, or into `{}` when `d` has none |
| Merge.DeepDictMerge | phemia.py:430-438 | the loop over `u`'s entries, recursing into dict values, returns DeepMerge |
| Merge.MergeIntoEmptyCopies | phemia.py:434 | merging a dict into `{}` yields that dict |
| Merge.MergeIdempotent | phemia.py:430-438 | merging the same `u` twice changes nothing the second time |
| Merge.FlatMerge | phemia.py:432-437 | with no dict among its values, the merge is a plain dict update |
| Inbound.TranslateFacebook | phemia.py:101-167 | the Facebook branch, with the attachment loop run as a loop, yields FacebookInbound |
| Inbound.FacebookGuard | phemia.py:102 | the shape test holds exactly when the body is a dict with a truthy `entry` whose first element contains `messaging`; a dict without `entry` fails it, and the test raises where `in` or `[0]` raises |
| Inbound.FacebookInbound | phemia.py:101-167 | it raises exactly when the shape test raises, with that error; an accepted body is kept as `raw`; a body that fails the test, or whose first event cannot be read, yields None ids, no text, no attachments and `{}` other |
| Inbound.FbAttachment | phemia.py:130-165 | a falsy item, or one not containing `payload`, is skipped; a kept item is a dict with `payload` and `type`, and its record is a dict |
| Inbound.FbAttachments | phemia.py:129-166 | the loop yields at most one record per item, and every record is a dict |
| Inbound.CompletesUnlessRaised | phemia.py:129-166 | the loop completes exactly when no item raises |
| Inbound.CollectFacebookAttachments | phemia.py:129-166 | the loop yields, in order, the records of the items before the first one that raises, and says whether it raised |
| Inbound.FailureIsFinal | phemia.py:129-166 | once an item has raised, later items change nothing |
| Inbound.EventPrelude | phemia.py:103-126 | on a well-formed event every statement before the loop runs; the ids, text and `other` are those of the event |
| Inbound.ReceiptsStage | phemia.py:104-115 | on a well-formed event the id and receipt statements all run and fill `other` with the receipts |
| Inbound.PreludeFrom | phemia.py:103-126 | when every stage runs to completion, the `try` block's result is their composition in source order |
| Inbound.SignalsContent | phemia.py:107-126 | `other` holds the timestamp, watermarks, echo flag and message ids exactly when the event has them; a message id wins over a receipt's `mids`, which as written holds the watermark |
| Inbound.FacebookEvent | phemia.py:101-201 | for a recognized, well-formed event: the ids wrapped as `{'id': ...}`, the text (`""` for a message without text, None for a receipt), `other`, the records of the attachment list, and the raw body |
| Inbound.UnrecognizedBody | phemia.py:95-102 | a body that fails the shape test yields None ids, no text, no attachments, `{}` other |
| Inbound.NoMessageNoText | phemia.py:117-128 | an event that is not a message never has a text or attachments, however malformed it is |
| Inbound.FbAttachmentsAppend | phemia.py:129-165 | the loop over a concatenation is the first part's records, then the second's, unless the first part stopped |
| Inbound.KeptItemAppended | phemia.py:130-165 | a kept item's record is appended at the end |
| Inbound.SkippedItem | phemia.py:130 | a falsy item or one without `payload` is skipped |
| Inbound.CopyField | phemia.py:143-163 | a guarded copy into a None field leaves the source entry, or None, in that field |
| Inbound.FromPayloadRecord | phemia.py:142-155 | a dict payload fills `url`, `title`, `description`, `sticker`, the coordinates and `reusable` from the payload, leaving None where it has no entry |
| Inbound.PayloadHead | phemia.py:143-150 | the first four guarded copies from a payload |
| Inbound.PayloadItem | phemia.py:130-165 | an item with a truthy dict payload yields the payload record, with the item's type and empty buttons |
| Inbound.FallbackItem | phemia.py:156-163 | an item with a falsy payload takes `url`, `title` and `subtitle` from the item itself |
| Inbound.StringItems | phemia.py:129-130 | a list of strings yields no record and completes exactly when no string contains "payload" |
| Inbound.KeyOrderIrrelevant | phemia.py:129-130 | iterating a dict of `attachments` gives the same outcome for every key order |
| Inbound.ShortNoPayload | phemia.py:130 | a string shorter than "payload" does not contain it |
| Inbound.StringAttachments | phemia.py:129-130 | a string `attachments` value is walked character by character and yields nothing |
| Inbound.TranslateRaw | phemia.py:169-189 | the raw branch, statement by statement, yields RawInbound |
| Inbound.RawInbound | phemia.py:169-189 | a failure is NameError; an accepted body is a dict with `sender` and `recipient`, kept as `raw` |
| Inbound.CollectRawAttachments | phemia.py:178-185 | the raw attachment loop yields RawAttachments |
| Inbound.FilterAllowed | phemia.py:180-183 | the inner loop keeps exactly the allow-listed keys of the item |
| Inbound.RawFailureIsFinal | phemia.py:179-185 | once an item is not a dict, the whole loop fails with AttributeError |
| Inbound.RawErrorIsAttributeError | phemia.py:181 | the only way the raw loop over a list fails is AttributeError |
| Inbound.RawAttachmentsAppend | phemia.py:179-185 | the raw loop over a concatenation succeeds iff both parts do, with the records in order |
| Inbound.RawAttachmentsSpec | phemia.py:179-185 | the loop succeeds iff every item is a dict; then it yields at most one record per item, each a non-empty dict of allow-listed keys |
| Inbound.RawCleanKept | phemia.py:179-185 | a list of such records passes through unchanged |
| Inbound.RawAttachmentsIdempotent | phemia.py:179-185 | translating the attachments again changes nothing |
| Inbound.MergeParty | phemia.py:172-173 | merging a party dict over `{'id': None}` is the party's fields over a None id |
| Inbound.RawTranslation | phemia.py:169-189 | for an accepted raw body: the parties with a default id, the text (default `""`), the cleaned attachments, `other` (default `{}`) and the body |
| Inbound.RawRefusal | phemia.py:171-189 | every failure surfaces as the same NameError, and a body without a sender is refused |
| Outbound.FixType | phemia.py:216-218 | a valid type is kept; a missing or invalid one becomes `get_attachment_type(url)`, and the step fails exactly when that call fails; the result type is allowed; as written, any present `type` raises NameError |
| Outbound.TextIntoAttachment | phemia.py:222-228 | with a truthy text and a free `title` (else `description`) slot, that slot becomes `text[:80]`, and the step raises exactly when the slice raises; otherwise the attachment is unchanged; the text is dropped from the body exactly when it is truthy |
| Outbound.WithReusable | phemia.py:219-220 | a missing `reusable` becomes False; every other field is kept |
| Outbound.AttachmentStep | phemia.py:214-239 | a list whose length is not 1, or whose one entry has a falsy url, leaves message and body unchanged; a lone url attachment is completed from FixType's result, or the send raises with FixType's error; `len`, `[0]` and `['url']` raise as in Python |
| Outbound.CompleteAttachment | phemia.py:219-239 | only the attachment list changes; it becomes the one completed dict, which keeps every field it had and defaults `reusable` to False; the text is dropped from the body exactly when truthy; the simple attachment is posted exactly when the result is untitled; the slice error is raised |
| Outbound.OtherStep | phemia.py:241-249 | the recipient is never overwritten; with an `action` the message becomes `{}` and `sender_action` is that action, otherwise the message is kept; with no `other` the body is unchanged |
| Outbound.BodyStep | phemia.py:210-239 | without a lone url attachment the body is the text alone and the message unchanged; with one the first attachment is completed, the body holds the text exactly when it is falsy, and the simple attachment exactly when the completed one is untitled; a failure needs an attachment |
| Outbound.FacebookSend | phemia.py:205-249 | a built body posts BodyStep's body, or `{}` under a sender action, to the recipient, and the message is left as BodyStep leaves it; at most the first attachment changes, also when the send raises; a failure is in the recipient path, the body statements or `other` |
| Outbound.RawPayload | phemia.py:313-316 | the payload is the message restricted to the five forwarded keys |
| Outbound.ShouldPrint | phemia.py:323-325 | it fails exactly when `print` is missing, or is truthy while `print_text_only` is missing |
| Outbound.RawEcho | phemia.py:323-333 | something is printed exactly when ShouldPrint says yes and `jsonp` can be read; the JSONP form exactly when `jsonp` is truthy, with it as the callback |
| Outbound.RawEchoAsWritten | phemia.py:323-333 | as written, the JSONP form is never printed |
| Outbound.AsWrittenJsonpSilent | phemia.py:326-333 | as written, a truthy `jsonp` prints nothing where the corrected code prints the JSONP form; otherwise the two agree |
| Outbound.AsWrittenJsonpWitness | phemia.py:326-327 | concrete raw settings for which the corrected code prints `cb(...)` and the code as written prints nothing |
| Outbound.PayloadRecipient | phemia.py:206-209 | a built body is addressed to `{'id': message['recipient']['id']}`, and the message was addressed |
| Outbound.BareMessage | phemia.py:205-212 | an addressed message without text, attachment or other sends an empty message and is left as it is |
| Outbound.TextMessage | phemia.py:205-212 | a text-only message is posted with that text |
| Outbound.SendWithoutOther | phemia.py:205-239 | without `other`, the body is the recipient plus what the attachment statements built |
| Outbound.TextSwallowsAttachment | phemia.py:222-238 | a truthy text and an untitled attachment: the text (first 80 characters) becomes the title, so neither text nor attachment is posted |
| Outbound.SwallowStep | phemia.py:219-238 | the completion statements for that case |
| Outbound.LoneAttachment | phemia.py:216-238 | a lone url attachment with no text is posted as a simple attachment of the inferred kind, not reusable |
| Outbound.UntitledCompletion | phemia.py:219-238 | without text, an attachment with no title, description or flag gets `reusable: False`, and its simple form is the whole body |
| Outbound.UrlOnlyBody | phemia.py:216-238 | for a url-only attachment the statements add the inferred type and `reusable: False`, and post the simple attachment |
| Outbound.ActionResetsMessage | phemia.py:243-246 | a sender action empties the message and is sent as `sender_action` |
| Outbound.NotificationForwarded | phemia.py:248-249 | `notification_type` is present exactly when `other` has a notification, and carries it |
| Outbound.ResendSamePayload | phemia.py:205-249 | with the class tuple, sending the message `send` left behind posts the same body again |
| Outbound.OtherStepReadsOther | phemia.py:241-249 | the other-step depends only on the message's `other` |
| Outbound.SameBodySameSend | phemia.py:205-249 | messages with the same recipient, `other` and built body post the same body |
| Outbound.PrefixTruthy | phemia.py:224-226 | a non-empty prefix of a truthy text is truthy |
| Outbound.RefillStable | phemia.py:222-231 | refilling a completed attachment from the same text keeps the drop decision and whether it is untitled |
| Outbound.ResendAttachmentStep | phemia.py:214-239 | the attachment statements on a completed attachment build the same body |
| Outbound.CompleteAgain | phemia.py:219-239 | completing an already completed attachment builds the same body |
| Outbound.AsWrittenRejectsTypedAttachment | phemia.py:207-217 | as written, an addressed message whose one attachment dict has a truthy `url` and a `type` makes `send` raise NameError |
| Outbound.AsWrittenSecondSendFails | phemia.py:216-220 | as written, a url-only attachment is sent once, and every later send of that message raises |
| Outbound.AsWrittenWitness | phemia.py:217 | a concrete message for which the second send raises |
| Outbound.RawPayloadProperties | phemia.py:313-316 | building the raw payload twice changes nothing, and a message of forwarded keys is its own payload |
| Outbound.PrintDecision | phemia.py:324-325 | with both settings present, the payload is echoed iff `print` is on and (`print_text_only` is off or the text is truthy) |
| Outbound.SmartPlan | phemia.py:400-410 | one or two copies are planned |
| Outbound.SplitPlan | phemia.py:403-410 | with a sender action and content, the plan is the bare copy and the copy without the action |
| Outbound.Sends | phemia.py:412-413 | one send result per planned copy, each that copy's FacebookSend |
| Outbound.SmartSendSpec | phemia.py:398-414 | a plan that raises is the outcome; when every send succeeds there is one body per copy, each that copy's FacebookSend body |
| Outbound.Outcome | phemia.py:412-414 | the bodies are returned exactly when every send succeeded, one per copy and in order |
| Outbound.SmartPlanProperties | phemia.py:400-410 | it splits exactly when `other` has a sender action and the message has content; the first copy has no text or attachment, the second keeps the rest; no copy keeps the action; both keep the recipient |
| Outbound.SplitFirstIsBare | phemia.py:406-413 | in a split, the first body posts an empty message |
| Outbound.NoActionSingleSend | phemia.py:403 | without a sender action the message is sent once, as it is |
| Outbound.SmartAllSent | phemia.py:412-414 | when every send succeeds, the result is their bodies in order |
| Outbound.SmartStopped | phemia.py:412-414 | the first send that raises is the outcome |
| Phemia.Configure | phemia.py:41-48 | it succeeds exactly when the merge succeeds and names a supported platform, and then holds every default key; a bad platform is a ValueError |
| Phemia.GetValue | phemia.py:67-68 | it succeeds exactly when the configured platform's section is a dict holding the variable, and then returns that entry; a missing section or variable is KeyError, a non-dict section TypeError |
| Phemia.ChallengeEcho | phemia.py:49-54 | the challenge is echoed iff the platform is Facebook, both tokens are set, the request carries a token and a challenge, and the token matches |
| Phemia.Challenge | phemia.py:49-54 | outside Facebook nothing is echoed; an error comes from reading a token; an echoed value is the request's `hub.challenge`, and both arguments are present |
| Phemia.DefaultsNeverEcho | phemia.py:21-54 | with default options the object is on Facebook and never echoes a challenge |
| Phemia.PlatformOption | phemia.py:42-48 | an option `platform` is accepted iff it is supported, and then the settings are the defaults with it |
| Phemia.PlatformsExclusive | phemia.py:56-59 | `is_platform` holds for the configured platform only, so exactly one of Facebook and raw holds |
| Phemia.ReplyMessage | phemia.py:419-421 | the message gets the last sender as recipient unless it names one, and nothing else changes |
| Phemia.DefaultRawEcho | phemia.py:323-329 | with the default raw settings, a payload is printed as plain JSON exactly when it has a truthy text |
| Phemia.ReplyGoesToSender | phemia.py:419-422 | a reply built after `receive` stored `{'id': sid}` is addressed to `sid` |
| Phemia.Translate | phemia.py:93-189 | the branch of the configured platform: on Facebook it raises exactly when the shape test does, on raw a failure is NameError; an accepted body is kept as `raw` |
| Phemia.Message.Snapshot | phemia.py:204-249 | the message dict has exactly the present slots, with their values |
| Phemia.Message.Copy | phemia.py:401-405 | `message.copy()` is a new dict over the same values, sharing the list and dict |
| Phemia.SnapshotOf | phemia.py:401 | a message whose slots hold exactly the entries of a dict has that dict as its snapshot |
| Phemia.SnapshotsAgree | phemia.py:401 | copies with the same slots are the same dict |
| Phemia.Messaging.Create | phemia.py:21-54 | the constructor fails exactly when Configure or the handshake fails; it starts with `{}` parties and returns the challenge it echoes |
| Phemia.Messaging.Init | phemia.py:41-43 | the settings are stored and the parties start as `{}` |
| Phemia.Messaging.IsPlatform | phemia.py:56-59 | it holds exactly when the argument is the configured platform |
| Phemia.Messaging.SetPlatform | phemia.py:61-65 | it succeeds iff the platform is supported, and then only the platform changes; otherwise ValueError and nothing changes |
| Phemia.Messaging.Receive | phemia.py:93-201 | it returns the translation for the current platform; on success the parties are the result's, on an exception they stay |
| Phemia.Messaging.Send | phemia.py:204-333 | on Facebook, the FacebookSend body, with the caller's first attachment completed in place, and nothing printed; on raw, the forwarded fields, the message unchanged, and the RawEcho output |
| Phemia.Messaging.SendRaw | phemia.py:312-333 | the raw body and what is printed |
| Phemia.Messaging.SmartSend | phemia.py:398-416 | on Facebook, SmartSendSpec's bodies and final message, and nothing printed; on raw, the one raw body, the message unchanged, and the RawEcho output |
| Phemia.Messaging.Reply | phemia.py:419-422 | the recipient is written into the message unless it has one; then on Facebook the FacebookSend body and final message of the reply, nothing printed; on raw the raw body, that message, and the RawEcho output |
| Phemia.Messaging.SmartReply | phemia.py:424-427 | the recipient is written into the message unless it has one; then on Facebook SmartSendSpec's bodies and final message of the reply, nothing printed; on raw the raw body, that message, and the RawEcho output |
| Phemia.SmartSendFacebook | phemia.py:399-414 | the heap run of the Facebook branch yields SmartSendSpec's bodies and final message |
| Phemia.SmartCopies | phemia.py:400-410 | the copies made are the planned messages; a failed `del` is reported and leaves the message unchanged |
| Phemia.SplitCopies | phemia.py:405-410 | the split copies are the two planned messages, and the action is deleted from the shared dict |
| Phemia.SendCopies | phemia.py:412-414 | the loop over the copies yields the outcome of the planned sends |
| Phemia.SendNext | phemia.py:413 | one pass of the loop: the send of that copy, leaving later copies as they were |
| Phemia.SendFacebook | phemia.py:205-249 | the FacebookSend body, with the completed attachment written into the shared list |
| Phemia.OnlyAttachmentChanges | phemia.py:216-226 | a dict whose other entries are unchanged is the old one with a new attachment |

## Left out

- HTTP, standard input and output, and logging are left out.
  - `_http_request_get` and `_http_request_post` (lines 76-91) are not
    modelled; their results are the parameters `args` and `data`.
  - `log_txt` (lines 70-73) is not modelled: it writes to a file.
  - The `requests.post` call and the handling of its reply (lines
    251-310) are not modelled.
  - The raw server post and its reply (lines 334-395) are not modelled.
- Phemia.Messaging.Send: it returns the request body it would post, not
  the result dict that `send` builds from the HTTP reply.
- Phemia.Messaging.SendRaw: what is printed is returned as an Echo value
  rather than written to standard output. The model uses the corrected
  JSONP branch (see Findings).
- Phemia.Messaging.Send: takes an explicit Message: the shared mutable
  default `message={}` (lines 204, 398, 419 and 424) is not modelled. It
  uses the corrected type lookup `self.allowed_attachments`
  (Outbound.ClassTuple, see the line 217 Finding); as written, an addressed
  message whose one attachment dict has a truthy `url` and a `type` raises
  NameError (Outbound.AsWrittenRejectsTypedAttachment). On raw, its echo is
  the corrected JSONP branch (Outbound.RawEcho); as written, a truthy
  `jsonp` prints nothing (Outbound.RawEchoAsWritten).
- Phemia.Messaging.SmartSend: takes an explicit Message: the shared mutable
  default `message={}` (lines 204, 398, 419 and 424) is not modelled. It
  uses the corrected type lookup `self.allowed_attachments`
  (Outbound.ClassTuple, see the line 217 Finding); as written, an addressed
  message whose one attachment dict has a truthy `url` and a `type` raises
  NameError (Outbound.AsWrittenRejectsTypedAttachment). On raw, its echo is
  the corrected JSONP branch (Outbound.RawEcho); as written, a truthy
  `jsonp` prints nothing (Outbound.RawEchoAsWritten).
- Phemia.Messaging.Reply: takes an explicit Message: the shared mutable
  default `message={}` (lines 204, 398, 419 and 424) is not modelled. A
  `reply()` without an argument writes `last_sender` into that shared dict,
  so later replies without an argument keep going to the first sender; this
  is not captured. It uses the corrected type lookup
  `self.allowed_attachments` (Outbound.ClassTuple, see the line 217
  Finding); as written, an addressed message whose one attachment dict has a
  truthy `url` and a `type` raises NameError
  (Outbound.AsWrittenRejectsTypedAttachment). On raw, its echo is the
  corrected JSONP branch (Outbound.RawEcho); as written, a truthy `jsonp`
  prints nothing (Outbound.RawEchoAsWritten).
- Phemia.Messaging.SmartReply: takes an explicit Message: the shared mutable
  default `message={}` (lines 204, 398, 419 and 424) is not modelled. The
  same stale recipient as for `reply()` is not captured. It uses the
  corrected type lookup `self.allowed_attachments` (Outbound.ClassTuple, see
  the line 217 Finding); as written, an addressed message whose one
  attachment dict has a truthy `url` and a `type` raises NameError
  (Outbound.AsWrittenRejectsTypedAttachment). On raw, its echo is the
  corrected JSONP branch (Outbound.RawEcho); as written, a truthy `jsonp`
  prints nothing (Outbound.RawEchoAsWritten).
- Phemia.SendFacebook: uses the corrected type lookup
  `self.allowed_attachments` (Outbound.ClassTuple, see the line 217
  Finding); as written, an addressed message whose one attachment dict has a
  truthy `url` and a `type` raises NameError.
- Phemia.SmartSendFacebook: uses the corrected type lookup
  `self.allowed_attachments` (Outbound.ClassTuple, see the line 217
  Finding); as written, an addressed message whose one attachment dict has a
  truthy `url` and a `type` raises NameError.
- Phemia.SendCopies: uses the corrected type lookup
  `self.allowed_attachments` (Outbound.ClassTuple, see the line 217
  Finding); as written, an addressed message whose one attachment dict has a
  truthy `url` and a `type` raises NameError.
- Phemia.SendNext: uses the corrected type lookup `self.allowed_attachments`
  (Outbound.ClassTuple, see the line 217 Finding); as written, an addressed
  message whose one attachment dict has a truthy `url` and a `type` raises
  NameError.
- Outbound.Sends: uses the corrected type lookup `self.allowed_attachments`
  (Outbound.ClassTuple, see the line 217 Finding); as written, an addressed
  message whose one attachment dict has a truthy `url` and a `type` raises
  NameError.
- Outbound.SmartSendSpec: sends each copy with the corrected type lookup
  `self.allowed_attachments` (Outbound.ClassTuple, see the line 217
  Finding); as written, an addressed message whose one attachment dict has a
  truthy `url` and a `type` raises NameError.
- Reading the body with `json.load(..., encoding=...)` (line 87) is input
  and is not modelled.
- Classifier.Lower: only ASCII letters are lower-cased; Python's
  `str.lower` also folds other Unicode letters.
- Merge.DeepMerge: every failed merge is reported as TypeError.
  - In Python the class depends on the order of the dict's entries:
    AttributeError from `.get` on a non-dict, TypeError from writing into
    one.
  - `isinstance(v, collections.Mapping)` is modelled as "v is a dict". The
    alias `collections.Mapping` no longer exists in Python 3.10 and later.
- Phemia.Messaging.Create: the echoed challenge is returned rather than
  printed. Only `settings['facebook']` is read, through GetValue.
- Phemia.Messaging.Receive: the log line written on a Facebook exception is
  not modelled. The raw branch's log call raises NameError (see
  Inbound.RawInbound) before anything is written.
- Phemia.Message holds only the five keys `send` reads, and `Valid()` keeps
  the attachment list and the `other` dict apart; Python allows further keys
  and either aliasing, but no modelled operation reads another key or
  depends on that aliasing.
- Merge.DeepDictMerge returns the merged value, where `deep_dict_merge` also
  writes into `d` in place; its callers (lines 42, 172 and 173) merge into
  dicts they have just built, so the in-place update is not observable.
- Dict key order is lost in maps. Reordering is not modelled: that covers
  the order in which a dict's keys are iterated and the order of keys in a
  posted body.

Behaviour of the code worth noting:

- `smart_send` sends the copy without text and attachment first, and the
  content second.
- `smart_send` tests `other['sender_action']`, while `send` reads
  `other['action']`.
- A truthy text with an untitled attachment becomes the attachment's title,
  so the body then carries neither the text nor the simple attachment.

## Findings

| source | as written | input that shows it | evidently intended | confidence | as-written member | corrected member |
|---|---|---|---|---|---|---|
| phemia.py:217 | `message['attachment'][0]['type'] not in allowed_attachments` names the class tuple unqualified; inside the method it is no name, so an addressed message whose one attachment dict has a truthy `url` and a `type` raises NameError, and a message `send` has completed (which then has a `type`) can never be sent again | `{"recipient": {"id": "1"}, "attachment": [{"url": "a.jpg"}]}` sent twice: the first send succeeds, the second raises NameError | `self.allowed_attachments`: keep a valid type, and re-sending a completed message posts the same body | not executed | Outbound.AsWrittenSecondSendFails | Outbound.ResendSamePayload |
| phemia.py:327 | `get_value('jsonp')` is called unqualified. There is no module-level `get_value`, so the NameError is caught by the bare `except` at line 330, an output error is recorded, and nothing is printed | raw settings `{"print": true, "print_text_only": false, "jsonp": "cb"}`: nothing is printed | `self.get_value('jsonp')`: print `cb(<payload>);` | not executed | Outbound.AsWrittenJsonpWitness | Outbound.RawEcho |
