/** The `whatsapp-webhook` function: the gateway posts an event for an
    instance, and the function dispatches on its kind. A connection update
    rewrites the instance's status (clearing the QR once connected), a QR
    update stores the new code, and a message batch is written message by
    message into conversations and messages.

    The payload's fields are read as the handlers read them; the functions
    here state what each handler does to the store, and the methods perform
    the handlers on a `Store` and are proved to do exactly that. */
module Webhook {
  import opened Common
  import opened Store
  import opened Gateway

  // ---------------------------------------------------------------------
  // The payload

  /** `data.qrcode`: a string, or an object whose `base64` is read (any
      other truthy value reads like an object without `base64`). */
  datatype QrField = QrString(text: string) | QrObject(base64: Option<string>)

  /** `message.key`; `fromMe` as JavaScript truthiness. */
  datatype MessageKey = MessageKey(fromMe: bool, remoteJid: Option<string>, id: Option<string>)

  /** A media part of a message; `caption` is its caption (its file name for
      a document). */
  datatype Attachment = Attachment(caption: Option<string>)

  /** The `message` object: the text fields and media parts the handler
      looks at, each present or absent. `extendedText` is
      `extendedTextMessage.text`. */
  datatype MessageContent = MessageContent(
    conversation: Option<string>,
    extendedText: Option<string>,
    image: Option<Attachment>,
    audio: Option<Attachment>,
    video: Option<Attachment>,
    document: Option<Attachment>,
    sticker: Option<Attachment>)

  datatype WaMessage = WaMessage(key: Option<MessageKey>, content: Option<MessageContent>, pushName: Option<string>)

  /** The event's `data`: an object carrying the fields some handler reads
      (`id` only when it is a string), or an array of messages. */
  datatype EventData =
    | Fields(state: Option<string>, connectionStatus: Option<string>,
             phoneNumber: Option<string>, owner: Option<string>, id: Option<string>,
             qrcode: Option<QrField>, base64: Option<string>,
             messages: Option<seq<WaMessage>>,
             key: Option<MessageKey>, message: Option<MessageContent>, pushName: Option<string>)
    | Items(items: seq<WaMessage>)

  /** `{ event, instance, data }`; an absent `data` is `undefined` or
      `null`. */
  datatype Payload = Payload(event: Option<string>, instance: string, data: Option<EventData>)

  // ---------------------------------------------------------------------
  // connection.update

  /** `state || connectionStatus`. */
  function StatusValue(d: EventData): Option<string> {
    if d.Fields? then Or(d.state, d.connectionStatus) else None
  }

  function NormaliseStatus(v: Option<string>): Status {
    if v == Some("open") then Connected
    else if v == Some("connecting") then Connecting
    else Disconnected
  }

  /** `data.phoneNumber || data.owner || (id is a string ? id.split('@')[0] : null)`. */
  function ExtractPhone(d: EventData): Option<string> {
    if d.Items? then None
    else Or(Or(d.phoneNumber, d.owner), if d.id.Some? then Some(BeforeFirst(d.id.value, '@')) else None)
  }

  /** `updateData`: status and last-seen always; on `connected` also the
      phone (domain stripped, when there is one), the connection time and
      null QR columns. */
  function ConnectionPatch(d: EventData, now: int): Patch {
    var status := NormaliseStatus(StatusValue(d));
    var phone := ExtractPhone(d);
    if status == Connected then
      Patch(
        botId := Keep,
        status := Write(Connected),
        qrCode := Write(None),
        qrExpiresAt := Write(None),
        phoneNumber := if Present(phone) then Write(Some(StripJidDomain(phone.value))) else Keep,
        connectedAt := Write(Some(now)),
        lastSeen := Write(Some(now)))
    else
      Patch(Keep, Write(status), Keep, Keep, Keep, Keep, Write(Some(now)))
  }

  /** The effect of a connection update on the instance's row: it is
      `connected` exactly when the reported state is "open" and
      `connecting` exactly when it is "connecting"; once connected it holds
      no QR and records the connection time (and the phone, when one is
      reported); otherwise its QR, phone and connection time are kept. No
      other row changes and the store invariant holds afterwards. */
  lemma ConnectionUpdateEffect(db: Db, name: string, d: EventData, now: int)
    requires name in db.instances
    ensures var row := UpdateInstance(db, name, ConnectionPatch(d, now)).instances[name];
      var old_ := db.instances[name];
      && (row.status == Connected <==> StatusValue(d) == Some("open"))
      && (row.status == Connecting <==> StatusValue(d) == Some("connecting"))
      && row.lastSeen == Some(now)
      && (row.status == Connected ==>
          && row.qrCode.None? && row.qrExpiresAt.None? && row.connectedAt == Some(now)
          && row.phoneNumber == (if Present(ExtractPhone(d)) then Some(StripJidDomain(ExtractPhone(d).value))
                                 else old_.phoneNumber))
      && (row.status != Connected ==>
          && row.qrCode == old_.qrCode && row.qrExpiresAt == old_.qrExpiresAt
          && row.phoneNumber == old_.phoneNumber && row.connectedAt == old_.connectedAt)
      && row.botId == old_.botId && row.id == old_.id
    ensures var db' := UpdateInstance(db, name, ConnectionPatch(d, now));
      && (forall n :: n in db.instances && n != name ==> db'.instances[n] == db.instances[n])
      && (Valid(db) ==> Valid(db'))
  {
    if Valid(db) {
      UpdateKeepsValid(db, name, ConnectionPatch(d, now));
    }
  }

  /** A gateway user id `p@s.whatsapp.net` reported in `id` becomes the
      phone `p`, whether or not the domain-stripping step is applied. */
  lemma PhoneFromJid(p: string, d: EventData)
    requires '@' !in p && |p| > 0
    requires d.Fields? && !Present(d.phoneNumber) && !Present(d.owner) && d.id == Some(p + JidDomain)
    ensures ExtractPhone(d) == Some(p)
    ensures StatusValue(d) == Some("open") ==> ConnectionPatch(d, 0).phoneNumber == Write(Some(p))
  {
    BeforeFirstJid(p);
    StripJidDomainOfId(p);
  }

  lemma BeforeFirstJid(p: string)
    requires '@' !in p
    ensures BeforeFirst(p + JidDomain, '@') == p
  {
    var s := p + JidDomain;
    var r := BeforeFirst(s, '@');
    assert s[|p|] == '@';
    assert r == s[..|p|] == p;
  }

  // ---------------------------------------------------------------------
  // qrcode.updated

  /** The QR the handler finds: a non-empty `data.qrcode` string; else the
      `base64` of a `data.qrcode` object; else, only when `data.qrcode` is
      falsy, `data.base64`. Only a truthy value counts. */
  function ExtractQr(d: EventData): Option<string> {
    if d.Items? then None
    else match d.qrcode
      case Some(QrString(t)) => if |t| > 0 then Some(t) else Truthy(d.base64)
      case Some(QrObject(b)) => Truthy(b)
      case None => Truthy(d.base64)
  }

  /** The update a found QR triggers: the code, an expiry five minutes
      from now, and status `connecting`. */
  function QrPatch(qr: string, now: int): Patch {
    Patch(Keep, Write(Connecting), Write(Some(qr)), Write(Some(now + QrLifetimeMs)), Keep, Keep, Keep)
  }

  /** Where the QR comes from: the string `data.qrcode` when non-empty,
      otherwise `data.qrcode.base64` when `data.qrcode` is an object (and
      then `data.base64` is never consulted), otherwise `data.base64`; the
      QR found is never empty. */
  lemma QrSources(d: EventData)
    ensures ExtractQr(d).Some? ==> Present(ExtractQr(d))
    ensures d.Fields? && d.qrcode.Some? && d.qrcode.value.QrString? && |d.qrcode.value.text| > 0 ==>
              ExtractQr(d) == Some(d.qrcode.value.text)
    ensures d.Fields? && d.qrcode.Some? && d.qrcode.value.QrObject? ==>
              ExtractQr(d) == Truthy(d.qrcode.value.base64)
    ensures d.Fields? && (d.qrcode.None? || d.qrcode == Some(QrString(""))) ==> ExtractQr(d) == Truthy(d.base64)
    ensures d.Items? ==> ExtractQr(d).None?
  {
  }

  /** The effect of a QR update: with a QR found, the row holds it, expires
      five minutes from now and is `connecting`, and the store invariant
      holds afterwards. */
  lemma QrUpdateEffect(db: Db, name: string, qr: string, now: int)
    requires name in db.instances
    ensures var row := UpdateInstance(db, name, QrPatch(qr, now)).instances[name];
      && row.qrCode == Some(qr) && row.qrExpiresAt == Some(now + QrLifetimeMs) && row.status == Connecting
      && row.phoneNumber == db.instances[name].phoneNumber
      && row.connectedAt == db.instances[name].connectedAt
    ensures Valid(db) ==> Valid(UpdateInstance(db, name, QrPatch(qr, now)))
  {
    if Valid(db) {
      UpdateKeepsValid(db, name, QrPatch(qr, now));
    }
  }

  // ---------------------------------------------------------------------
  // messages.upsert: reading one message

  const ImageLabel: string := "[Imagem]"
  const AudioLabel: string := "[Áudio]"
  const VideoLabel: string := "[Vídeo]"
  const DocumentLabel: string := "[Documento]"
  const StickerLabel: string := "[Figurinha]"
  const SentStatus: string := "sent"

  /** The content and media type stored for a message. */
  datatype Classified = Classified(content: string, mediaType: Option<MediaType>)

  /** `part.caption || fallback` (`fileName` for documents). */
  function LabelOr(a: Attachment, fallback: string): string {
    if Present(a.caption) then a.caption.value else fallback
  }

  /** The content extraction: plain text, then extended text, then the
      first media part present (image, audio, video, document, sticker), in
      that order; nothing recognised gives empty content and no media. */
  function Classify(c: Option<MessageContent>): Classified {
    if c.None? then Classified("", None)
    else
      var m := c.value;
      if Present(m.conversation) then Classified(m.conversation.value, None)
      else if Present(m.extendedText) then Classified(m.extendedText.value, None)
      else if m.image.Some? then Classified(LabelOr(m.image.value, ImageLabel), Some(Image))
      else if m.audio.Some? then Classified(AudioLabel, Some(Audio))
      else if m.video.Some? then Classified(LabelOr(m.video.value, VideoLabel), Some(Video))
      else if m.document.Some? then Classified(LabelOr(m.document.value, DocumentLabel), Some(Document))
      else if m.sticker.Some? then Classified(StickerLabel, Some(Sticker))
      else Classified("", None)
  }

  const RuleCount: nat := 7

  /** Rule `i` of the extraction on its own, in priority order (plain
      text, extended text, image, audio, video, document, sticker): what it
      makes of the message, or nothing when its part is absent. */
  function Rule(m: MessageContent, i: nat): Option<Classified>
    requires i < RuleCount
  {
    if i == 0 then (if Present(m.conversation) then Some(Classified(m.conversation.value, None)) else None)
    else if i == 1 then (if Present(m.extendedText) then Some(Classified(m.extendedText.value, None)) else None)
    else if i == 2 then (if m.image.Some? then Some(Classified(LabelOr(m.image.value, ImageLabel), Some(Image))) else None)
    else if i == 3 then (if m.audio.Some? then Some(Classified(AudioLabel, Some(Audio))) else None)
    else if i == 4 then (if m.video.Some? then Some(Classified(LabelOr(m.video.value, VideoLabel), Some(Video))) else None)
    else if i == 5 then (if m.document.Some? then Some(Classified(LabelOr(m.document.value, DocumentLabel), Some(Document))) else None)
    else (if m.sticker.Some? then Some(Classified(StickerLabel, Some(Sticker))) else None)
  }

  /** The first rule from `i` on that applies. */
  function FirstRule(m: MessageContent, i: nat): Option<Classified>
    decreases RuleCount - i
  {
    if i >= RuleCount then None
    else if Rule(m, i).Some? then Rule(m, i)
    else FirstRule(m, i + 1)
  }

  /** `FirstRule` picks the applicable rule of least index, and finds none
      only when no rule applies. */
  lemma {:induction false} FirstRuleIsFirst(m: MessageContent, i: nat)
    ensures var r := FirstRule(m, i);
      && (r.Some? ==> exists j :: i <= j < RuleCount && Rule(m, j) == r &&
                                  forall k :: i <= k < j ==> Rule(m, k).None?)
      && (r.None? ==> forall j :: i <= j < RuleCount ==> Rule(m, j).None?)
    decreases RuleCount - i
  {
    if i < RuleCount && Rule(m, i).None? {
      FirstRuleIsFirst(m, i + 1);
    }
  }

  /** The extraction is the first-match over the rules, and it stores
      non-empty content exactly when some rule applies; a media type is
      stored only when the message has no text. */
  lemma ClassifyIsFirstMatch(c: Option<MessageContent>)
    ensures c.Some? && FirstRule(c.value, 0).Some? ==> Classify(c) == FirstRule(c.value, 0).value
    ensures c.None? || FirstRule(c.value, 0).None? ==> Classify(c) == Classified("", None)
    ensures |Classify(c).content| > 0 <==> c.Some? && FirstRule(c.value, 0).Some?
    ensures Classify(c).mediaType.Some? ==> c.Some? && !Present(c.value.conversation) && !Present(c.value.extendedText)
  {
    if c.Some? {
      var m := c.value;
      assert FirstRule(m, 0) == if Rule(m, 0).Some? then Rule(m, 0) else FirstRule(m, 1);
      assert FirstRule(m, 1) == if Rule(m, 1).Some? then Rule(m, 1) else FirstRule(m, 2);
      assert FirstRule(m, 2) == if Rule(m, 2).Some? then Rule(m, 2) else FirstRule(m, 3);
      assert FirstRule(m, 3) == if Rule(m, 3).Some? then Rule(m, 3) else FirstRule(m, 4);
      assert FirstRule(m, 4) == if Rule(m, 4).Some? then Rule(m, 4) else FirstRule(m, 5);
      assert FirstRule(m, 5) == if Rule(m, 5).Some? then Rule(m, 5) else FirstRule(m, 6);
      assert FirstRule(m, 6) == if Rule(m, 6).Some? then Rule(m, 6) else FirstRule(m, 7);
    }
  }

  // ---------------------------------------------------------------------
  // messages.upsert: writing a batch

  /** `Array.isArray(data) ? data : (data.messages || [data])`; a missing
      `data` throws inside the handler's own try block, which writes
      nothing, exactly like an empty batch. */
  function NormaliseBatch(d: Option<EventData>): seq<WaMessage> {
    match d
    case None => []
    case Some(Items(ms)) => ms
    case Some(Fields(_, _, _, _, _, _, _, messages, key, message, pushName)) =>
      if messages.Some? then messages.value else [WaMessage(key, message, pushName)]
  }

  /** The row inserted into `whatsapp_messages` for a message. */
  function MessageOf(conversationId: nat, key: MessageKey, content: Option<MessageContent>, now: int): Message {
    var cls := Classify(content);
    Message(conversationId, key.id, if key.fromMe then Outgoing else Incoming,
            cls.content, None, cls.mediaType, SentStatus, now)
  }

  /** One message of a batch for the instance `row`: skipped without a key
      or a remote JID; otherwise its conversation (by instance and phone)
      is touched, or created when `.single()` finds none; a failed create
      skips the message, and a failed message insert writes nothing more. */
  function IngestOne(db: Db, row: InstanceRow, m: WaMessage, now: int, convFails: bool, msgFails: bool): Db {
    if m.key.None? || !Present(m.key.value.remoteJid) then db
    else
      var key := m.key.value;
      var phone := StripJidDomain(key.remoteJid.value);
      var name := Truthy(m.pushName);
      var existing := SingleConversation(db, row.id, phone);
      if existing.None? && convFails then db
      else
        var db1 := if existing.None? then InsertConversation(db, row.id, row.botId, phone, name, now)
                   else TouchConversation(db, existing.value, name, now);
        var conversationId := if existing.None? then db.nextId else existing.value;
        if msgFails then db1 else InsertMessage(db1, MessageOf(conversationId, key, m.content, now))
  }

  /** The messages of `ms` in order; the positions in `convFail` and
      `msgFail` are those whose conversation insert or message insert the
      store rejects. */
  function Ingest(db: Db, row: InstanceRow, ms: seq<WaMessage>, now: int, convFail: set<nat>, msgFail: set<nat>): Db
    decreases |ms|
  {
    if ms == [] then db
    else
      var k := |ms| - 1;
      IngestOne(Ingest(db, row, ms[..k], now, convFail, msgFail), row, ms[k], now, k in convFail, k in msgFail)
  }

  /** The message handler: nothing without the instance's row, otherwise
      the batch. */
  function MessageUpsertSpec(db: Db, instance: string, data: Option<EventData>, now: int,
                             convFail: set<nat>, msgFail: set<nat>): Db {
    match LookupInstance(db, instance)
    case None => db
    case Some(row) => Ingest(db, row, NormaliseBatch(data), now, convFail, msgFail)
  }

  /** A message touches only conversations and messages: stored messages
      stay as they are, at most one is added, and stored conversations
      keep their ids and keys. */
  lemma IngestOneFrame(db: Db, row: InstanceRow, m: WaMessage, now: int, convFails: bool, msgFails: bool)
    ensures var db' := IngestOne(db, row, m, now, convFails, msgFails);
      && db'.bots == db.bots && db'.instances == db.instances
      && |db.messages| <= |db'.messages| <= |db.messages| + 1
      && db'.messages[..|db.messages|] == db.messages
      && |db.conversations| <= |db'.conversations|
      && (forall i :: 0 <= i < |db.conversations| ==>
            db'.conversations[i].id == db.conversations[i].id && SameKey(db'.conversations[i], db.conversations[i]))
  {
    var db' := IngestOne(db, row, m, now, convFails, msgFails);
    assert db'.messages == db.messages || db'.messages == db.messages + [db'.messages[|db.messages|]];
  }

  /** A message keeps the store invariant. */
  lemma IngestOneValid(db: Db, row: InstanceRow, m: WaMessage, now: int, convFails: bool, msgFails: bool)
    requires Valid(db)
    ensures Valid(IngestOne(db, row, m, now, convFails, msgFails))
  {
    if m.key.Some? && Present(m.key.value.remoteJid) {
      var key := m.key.value;
      var phone := StripJidDomain(key.remoteJid.value);
      var name := Truthy(m.pushName);
      var existing := SingleConversation(db, row.id, phone);
      if existing.None? && !convFails {
        InsertConversationKeepsValid(db, row.id, row.botId, phone, name, now);
        var db1 := InsertConversation(db, row.id, row.botId, phone, name, now);
        if !msgFails {
          InsertMessageKeepsValid(db1, MessageOf(db.nextId, key, m.content, now));
        }
      } else if existing.Some? {
        SingleConversationFound(db, row.id, phone);
        TouchConversationKeepsValid(db, existing.value, name, now);
        var db1 := TouchConversation(db, existing.value, name, now);
        if !msgFails {
          InsertMessageKeepsValid(db1, MessageOf(existing.value, key, m.content, now));
        }
      }
    }
  }

  /** A batch keeps the store invariant, leaves bots and instances alone,
      only appends messages (at most one per message in the batch) and
      keeps the ids and keys of stored conversations. */
  lemma {:induction false} IngestKeeps(db: Db, row: InstanceRow, ms: seq<WaMessage>, now: int,
                                       convFail: set<nat>, msgFail: set<nat>)
    requires Valid(db)
    ensures var db' := Ingest(db, row, ms, now, convFail, msgFail);
      && Valid(db')
      && db'.bots == db.bots && db'.instances == db.instances
      && |db.messages| <= |db'.messages| <= |db.messages| + |ms|
      && db'.messages[..|db.messages|] == db.messages
      && |db.conversations| <= |db'.conversations|
      && (forall i :: 0 <= i < |db.conversations| ==>
            db'.conversations[i].id == db.conversations[i].id && SameKey(db'.conversations[i], db.conversations[i]))
    decreases |ms|
  {
    if ms != [] {
      var k := |ms| - 1;
      IngestKeeps(db, row, ms[..k], now, convFail, msgFail);
      var mid := Ingest(db, row, ms[..k], now, convFail, msgFail);
      IngestOneFrame(mid, row, ms[k], now, k in convFail, k in msgFail);
      IngestOneValid(mid, row, ms[k], now, k in convFail, k in msgFail);
      var db' := IngestOne(mid, row, ms[k], now, k in convFail, k in msgFail);
      assert db'.messages[..|db.messages|] == db'.messages[..|mid.messages|][..|db.messages|];
    }
  }

  /** A message with a key and a remote JID, written without failures,
      lands in the conversation for its key (the one found, or a new one
      under the next id), which a later lookup then finds. */
  lemma IngestOneStores(db: Db, row: InstanceRow, m: WaMessage, now: int)
    requires Valid(db)
    requires m.key.Some? && Present(m.key.value.remoteJid)
    ensures var phone := StripJidDomain(m.key.value.remoteJid.value);
      var e := SingleConversation(db, row.id, phone);
      var cid := if e.Some? then e.value else db.nextId;
      var db' := IngestOne(db, row, m, now, false, false);
      && SingleConversation(db', row.id, phone) == Some(cid)
      && db'.messages == db.messages + [MessageOf(cid, m.key.value, m.content, now)]
  {
    var phone := StripJidDomain(m.key.value.remoteJid.value);
    var name := Truthy(m.pushName);
    var e := SingleConversation(db, row.id, phone);
    var i := |db.conversations|;
    if e.None? {
      InsertConversationKeepsValid(db, row.id, row.botId, phone, name, now);
      var ins := InsertConversation(db, row.id, row.botId, phone, name, now);
      assert ins.conversations[i] == Conversation(db.nextId, row.id, row.botId, phone, name, now, Active);
      SingleConversationIs(ins, i);
    } else {
      SingleConversationFound(db, row.id, phone);
      var j :| 0 <= j < |db.conversations| && db.conversations[j].instanceId == row.id && db.conversations[j].customerPhone == phone;
      SingleConversationIs(db, j);
      TouchConversationKeepsValid(db, e.value, name, now);
      var touched := TouchConversation(db, e.value, name, now);
      SingleConversationIs(touched, j);
    }
  }

  /** The conversation a stored message lands in carries the sender's push
      name (null when the message has none, overwriting a stored name) and
      the time of the message: a new conversation is appended, active, with
      the instance's bot; a found one is the only row with its id. */
  lemma IngestOneRecordsSender(db: Db, row: InstanceRow, m: WaMessage, now: int)
    requires Valid(db)
    requires m.key.Some? && Present(m.key.value.remoteJid)
    ensures var phone := StripJidDomain(m.key.value.remoteJid.value);
      var e := SingleConversation(db, row.id, phone);
      var cid := if e.Some? then e.value else db.nextId;
      var cs' := IngestOne(db, row, m, now, false, false).conversations;
      && (e.None? ==> cs' == db.conversations + [Conversation(cid, row.id, row.botId, phone, Truthy(m.pushName), now, Active)])
      && (exists j :: 0 <= j < |cs'| && cs'[j].id == cid)
      && (forall j :: 0 <= j < |cs'| && cs'[j].id == cid ==>
            && cs'[j].instanceId == row.id && cs'[j].customerPhone == phone
            && cs'[j].customerName == Truthy(m.pushName) && cs'[j].lastMessageAt == now)
  {
    var phone := StripJidDomain(m.key.value.remoteJid.value);
    var name := Truthy(m.pushName);
    var e := SingleConversation(db, row.id, phone);
    var cs := db.conversations;
    if e.None? {
      InsertedIdIsFresh(db, row.id, row.botId, phone, name, now);
      var ins := InsertConversation(db, row.id, row.botId, phone, name, now);
      assert IngestOne(db, row, m, now, false, false).conversations == ins.conversations;
      assert ins.conversations[|cs|].id == db.nextId;
    } else {
      SingleConversationFound(db, row.id, phone);
      var k :| 0 <= k < |cs| && cs[k].instanceId == row.id && cs[k].customerPhone == phone;
      SingleConversationIs(db, k);
      TouchedRowIsOnly(db, k, name, now);
      var touched := TouchConversation(db, e.value, name, now);
      assert IngestOne(db, row, m, now, false, false).conversations == touched.conversations;
      assert touched.conversations[k].id == e.value;
    }
  }

  /** The same message delivered twice is stored twice: no deduplication
      by message id. Both copies go to one conversation, which the first
      delivery creates or finds and the second finds again. */
  lemma ReplayStoresTwice(db: Db, row: InstanceRow, m: WaMessage, now: int)
    requires Valid(db)
    requires m.key.Some? && Present(m.key.value.remoteJid)
    ensures var db' := Ingest(db, row, [m, m], now, {}, {});
      var phone := StripJidDomain(m.key.value.remoteJid.value);
      var cid := SingleConversation(db', row.id, phone);
      && cid.Some?
      && db'.messages == db.messages + [MessageOf(cid.value, m.key.value, m.content, now),
                                        MessageOf(cid.value, m.key.value, m.content, now)]
  {
    assert [m, m][..1] == [m] && [m][..0] == [];
    var db1 := IngestOne(db, row, m, now, false, false);
    assert Ingest(db, row, [m], now, {}, {}) == db1;
    IngestOneStores(db, row, m, now);
    IngestOneValid(db, row, m, now, false, false);
    IngestOneStores(db1, row, m, now);
  }

  // ---------------------------------------------------------------------
  // Dispatch

  /** The response status and the store after one webhook request.
      `payload` is `None` for a body that does not parse or is `null`: the
      only bodies whose destructuring throws. Any other body that is not an
      object (a number, a string, an array) has no `event` field and so
      reaches the default case. `writeFails` is the store rejecting the
      instance update (only logged by the handlers). An unparsable or null
      body, or a connection or QR event without `data`, throws and answers
      400; everything else answers 200, including unknown events and failed
      message writes. */
  datatype Outcome = Outcome(status: int, db: Db)

  function WebhookSpec(db: Db, payload: Option<Payload>, now: int, writeFails: bool,
                       convFail: set<nat>, msgFail: set<nat>): Outcome {
    if payload.None? then Outcome(400, db)
    else
      var p := payload.value;
      if p.event == Some(ConnectionUpdateEvent) then
        if p.data.None? then Outcome(400, db)
        else if writeFails then Outcome(200, db)
        else Outcome(200, UpdateInstance(db, p.instance, ConnectionPatch(p.data.value, now)))
      else if p.event == Some(QrCodeUpdatedEvent) then
        if p.data.None? then Outcome(400, db)
        else
          var qr := ExtractQr(p.data.value);
          if qr.None? || writeFails then Outcome(200, db)
          else Outcome(200, UpdateInstance(db, p.instance, QrPatch(qr.value, now)))
      else if p.event == Some(MessagesUpsertEvent) then
        Outcome(200, MessageUpsertSpec(db, p.instance, p.data, now, convFail, msgFail))
      else Outcome(200, db)
  }

  /** The request answers 400 exactly when the body does not parse or is
      null, or a connection or QR event comes without `data`, and then changes
      nothing; an event of another kind changes nothing either. */
  lemma WebhookStatus(db: Db, payload: Option<Payload>, now: int, writeFails: bool,
                      convFail: set<nat>, msgFail: set<nat>)
    ensures var o := WebhookSpec(db, payload, now, writeFails, convFail, msgFail);
      && (o.status == 400 <==>
          payload.None? ||
          (payload.value.data.None? &&
           payload.value.event in {Some(ConnectionUpdateEvent), Some(QrCodeUpdatedEvent)}))
      && (o.status == 400 ==> o.db == db)
      && (o.status != 400 ==> o.status == 200)
      && (payload.Some? &&
          payload.value.event !in {Some(ConnectionUpdateEvent), Some(QrCodeUpdatedEvent), Some(MessagesUpsertEvent)}
          ==> o.db == db)
  {
  }

  /** Every webhook request keeps the store invariant, and only a message
      batch changes conversations or messages. */
  lemma WebhookKeepsValid(db: Db, payload: Option<Payload>, now: int, writeFails: bool,
                          convFail: set<nat>, msgFail: set<nat>)
    requires Valid(db)
    ensures var o := WebhookSpec(db, payload, now, writeFails, convFail, msgFail);
      && Valid(o.db)
      && o.db.bots == db.bots
      && (payload.Some? && payload.value.event != Some(MessagesUpsertEvent) ==>
            o.db.conversations == db.conversations && o.db.messages == db.messages)
      && (payload.Some? && payload.value.event == Some(MessagesUpsertEvent) ==>
            o.db.instances == db.instances && |db.messages| <= |o.db.messages| &&
            o.db.messages[..|db.messages|] == db.messages)
  {
    if payload.Some? {
      var p := payload.value;
      if p.event == Some(ConnectionUpdateEvent) && p.data.Some? {
        UpdateKeepsValid(db, p.instance, ConnectionPatch(p.data.value, now));
      } else if p.event == Some(QrCodeUpdatedEvent) && p.data.Some? && ExtractQr(p.data.value).Some? {
        UpdateKeepsValid(db, p.instance, QrPatch(ExtractQr(p.data.value).value, now));
      } else if p.event == Some(MessagesUpsertEvent) {
        var row := LookupInstance(db, p.instance);
        if row.Some? {
          IngestKeeps(db, row.value, NormaliseBatch(p.data), now, convFail, msgFail);
        }
      }
    }
  }

  /** Replaying a connection or QR event (with the same time) answers the
      same and changes nothing more: these updates are idempotent, unlike
      message batches (see `ReplayStoresTwice`). */
  lemma StatusEventReplay(db: Db, p: Payload, now: int, writeFails: bool)
    requires p.event != Some(MessagesUpsertEvent)
    ensures var o := WebhookSpec(db, Some(p), now, writeFails, {}, {});
      WebhookSpec(o.db, Some(p), now, writeFails, {}, {}) == o
  {
    if p.event == Some(ConnectionUpdateEvent) && p.data.Some? {
      UpdateInstanceIdempotent(db, p.instance, ConnectionPatch(p.data.value, now));
    } else if p.event == Some(QrCodeUpdatedEvent) && p.data.Some? && ExtractQr(p.data.value).Some? {
      UpdateInstanceIdempotent(db, p.instance, QrPatch(ExtractQr(p.data.value).value, now));
    }
  }

  // ---------------------------------------------------------------------
  // The handlers, step by step

  method HandleConnectionUpdate(store: Store, instance: string, data: EventData, now: int, writeFails: bool)
    modifies store
    ensures store.State() == if writeFails then old(store.State())
                             else UpdateInstance(old(store.State()), instance, ConnectionPatch(data, now))
  {
    var statusVal := StatusValue(data);
    var phoneNumber := ExtractPhone(data);
    var status := NormaliseStatus(statusVal);
    var updateData := Patch(Keep, Write(status), Keep, Keep, Keep, Keep, Write(Some(now)));
    if status == Connected {
      if Present(phoneNumber) {
        updateData := updateData.(phoneNumber := Write(Some(StripJidDomain(phoneNumber.value))));
      }
      updateData := updateData.(connectedAt := Write(Some(now)), qrCode := Write(None), qrExpiresAt := Write(None));
    }
    if !writeFails {
      store.Update(instance, updateData);
    }
  }

  method HandleQrCodeUpdate(store: Store, instance: string, data: EventData, now: int, writeFails: bool)
    modifies store
    ensures var qr := ExtractQr(data);
      store.State() == if qr.None? || writeFails then old(store.State())
                       else UpdateInstance(old(store.State()), instance, QrPatch(qr.value, now))
  {
    var qrcodeBase64: Option<string> := None;
    if data.Fields? {
      if data.qrcode.Some? && !(data.qrcode.value.QrString? && data.qrcode.value.text == "") {
        match data.qrcode.value
        case QrString(t) =>
          qrcodeBase64 := Some(t);
        case QrObject(b) =>
          if Present(b) {
            qrcodeBase64 := b;
          }
      } else if Present(data.base64) {
        qrcodeBase64 := data.base64;
      }
    }
    if Present(qrcodeBase64) && !writeFails {
      store.Update(instance, QrPatch(qrcodeBase64.value, now));
    }
  }

  method HandleMessageUpsert(store: Store, instance: string, data: Option<EventData>, now: int,
                             convFail: set<nat>, msgFail: set<nat>)
    modifies store
    ensures store.State() == MessageUpsertSpec(old(store.State()), instance, data, now, convFail, msgFail)
  {
    var row := store.FindInstance(instance);
    if row.None? {
      return;
    }
    var messages := NormaliseBatch(data);
    for i := 0 to |messages|
      invariant store.State() == Ingest(old(store.State()), row.value, messages[..i], now, convFail, msgFail)
    {
      assert messages[..i + 1][..i] == messages[..i];
      var message := messages[i];
      if message.key.None? {
        continue;
      }
      var key := message.key.value;
      if !Present(key.remoteJid) {
        continue;
      }
      var customerPhone := StripJidDomain(key.remoteJid.value);
      var name := Truthy(message.pushName);
      var existing := store.FindConversation(row.value.id, customerPhone);
      var conversationId: nat;
      if existing.None? {
        if i in convFail {
          continue;
        }
        conversationId := store.CreateConversation(row.value.id, row.value.botId, customerPhone, name, now);
      } else {
        conversationId := existing.value;
        store.UpdateConversation(conversationId, name, now);
      }
      if i !in msgFail {
        store.AddMessage(MessageOf(conversationId, key, message.content, now));
      }
    }
    assert messages[..|messages|] == messages;
  }

  method HandleWebhook(store: Store, payload: Option<Payload>, now: int, writeFails: bool,
                       convFail: set<nat>, msgFail: set<nat>) returns (status: int)
    modifies store
    ensures var o := WebhookSpec(old(store.State()), payload, now, writeFails, convFail, msgFail);
      status == o.status && store.State() == o.db
  {
    if payload.None? {
      return 400;
    }
    var p := payload.value;
    if p.event == Some(ConnectionUpdateEvent) {
      if p.data.None? {
        return 400;
      }
      HandleConnectionUpdate(store, p.instance, p.data.value, now, writeFails);
    } else if p.event == Some(QrCodeUpdatedEvent) {
      if p.data.None? {
        return 400;
      }
      HandleQrCodeUpdate(store, p.instance, p.data.value, now, writeFails);
    } else if p.event == Some(MessagesUpsertEvent) {
      HandleMessageUpsert(store, p.instance, p.data, now, convFail, msgFail);
    }
    status := 200;
  }
}
