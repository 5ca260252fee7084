/** The persisted store the three edge functions share: the bot
    configurations they read, the `whatsapp_instances` table (one row per
    `instance_name`), `whatsapp_conversations` and `whatsapp_messages`.
    Queries are modelled as functions over a `Db` value; the class `Store`
    holds the tables as fields and offers the point reads and writes the
    handlers issue. */
module Store {
  import opened Common

  datatype Status = Disconnected | Connecting | Connected
  datatype Direction = Incoming | Outgoing
  datatype MediaType = Image | Audio | Video | Document | Sticker
  datatype ConversationStatus = Active | Archived | Closed

  /** How long a stored QR code stays valid: five minutes. */
  const QrLifetimeMs: int := 5 * 60 * 1000

  /** The part of a `bot_configurations` row the connect flow reads. */
  datatype BotConfig = BotConfig(whatsappNumber: Option<string>)

  /** A `whatsapp_instances` row; its `instance_name` is the key of the
      table map and so is not repeated here. Timestamps are abstract
      milliseconds. */
  datatype InstanceRow = InstanceRow(
    id: nat,
    botId: Option<string>,
    status: Status,
    qrCode: Option<string>,
    qrExpiresAt: Option<int>,
    phoneNumber: Option<string>,
    connectedAt: Option<int>,
    lastSeen: Option<int>)

  /** One column of an update payload: left out of the object (`Keep`) or
      given a value, possibly null (`Write`). */
  datatype Column<T> = Keep | Write(value: T)

  function Put<T>(c: Column<T>, current: T): T {
    match c
    case Keep => current
    case Write(v) => v
  }

  /** The object passed to `.update(...)` or `.upsert(...)` on the
      instances table: only the columns it names are written. */
  datatype Patch = Patch(
    botId: Column<Option<string>>,
    status: Column<Status>,
    qrCode: Column<Option<string>>,
    qrExpiresAt: Column<Option<int>>,
    phoneNumber: Column<Option<string>>,
    connectedAt: Column<Option<int>>,
    lastSeen: Column<Option<int>>)

  /** Merges the supplied columns of `p` into `r`; `id` is never written. */
  function ApplyPatch(r: InstanceRow, p: Patch): (r': InstanceRow)
    ensures r'.id == r.id
    ensures p.status.Keep? ==> r'.status == r.status
    ensures p.qrCode.Keep? ==> r'.qrCode == r.qrCode
    ensures p.qrExpiresAt.Keep? ==> r'.qrExpiresAt == r.qrExpiresAt
    ensures p.phoneNumber.Keep? ==> r'.phoneNumber == r.phoneNumber
    ensures p.connectedAt.Keep? ==> r'.connectedAt == r.connectedAt
    ensures p.lastSeen.Keep? ==> r'.lastSeen == r.lastSeen
    ensures p.botId.Keep? ==> r'.botId == r.botId
    ensures p.botId.Write? ==> r'.botId == p.botId.value
    ensures p.status.Write? ==> r'.status == p.status.value
    ensures p.qrCode.Write? ==> r'.qrCode == p.qrCode.value
    ensures p.qrExpiresAt.Write? ==> r'.qrExpiresAt == p.qrExpiresAt.value
    ensures p.phoneNumber.Write? ==> r'.phoneNumber == p.phoneNumber.value
    ensures p.connectedAt.Write? ==> r'.connectedAt == p.connectedAt.value
    ensures p.lastSeen.Write? ==> r'.lastSeen == p.lastSeen.value
  {
    InstanceRow(
      r.id,
      Put(p.botId, r.botId),
      Put(p.status, r.status),
      Put(p.qrCode, r.qrCode),
      Put(p.qrExpiresAt, r.qrExpiresAt),
      Put(p.phoneNumber, r.phoneNumber),
      Put(p.connectedAt, r.connectedAt),
      Put(p.lastSeen, r.lastSeen))
  }

  /** The row an insert creates: every column not supplied is null, and
      the status column starts as disconnected. */
  function NewRow(id: nat, p: Patch): InstanceRow {
    ApplyPatch(InstanceRow(id, None, Disconnected, None, None, None, None, None), p)
  }

  /** A patch writes only constants, so applying it a second time changes
      nothing. */
  lemma ApplyPatchIdempotent(r: InstanceRow, p: Patch)
    ensures ApplyPatch(ApplyPatch(r, p), p) == ApplyPatch(r, p)
  {
  }

  datatype Conversation = Conversation(
    id: nat,
    instanceId: nat,
    botId: Option<string>,
    customerPhone: string,
    customerName: Option<string>,
    lastMessageAt: int,
    status: ConversationStatus)

  datatype Message = Message(
    conversationId: nat,
    messageId: Option<string>,
    direction: Direction,
    content: string,
    mediaUrl: Option<string>,
    mediaType: Option<MediaType>,
    status: string,
    sentAt: int)

  /** The whole store as a value. `nextId` stands for the database's
      generator of row ids. */
  datatype Db = Db(
    bots: map<string, BotConfig>,
    instances: map<string, InstanceRow>,
    conversations: seq<Conversation>,
    messages: seq<Message>,
    nextId: nat)

  // ---------------------------------------------------------------------
  // The store invariant

  /** A connected instance carries no QR code and no QR expiry. */
  predicate QrClearedWhenConnected(r: InstanceRow) {
    r.status == Connected ==> r.qrCode.None? && r.qrExpiresAt.None?
  }

  predicate InstancesValid(t: map<string, InstanceRow>) {
    forall n :: n in t ==> QrClearedWhenConnected(t[n])
  }

  predicate SameKey(a: Conversation, b: Conversation) {
    a.instanceId == b.instanceId && a.customerPhone == b.customerPhone
  }

  /** Instance rows carry distinct positive ids below the id generator. */
  predicate InstanceIdsValid(t: map<string, InstanceRow>, nextId: nat) {
    && (forall n :: n in t ==> 0 < t[n].id < nextId)
    && (forall n, n' :: n in t && n' in t && n != n' ==> t[n].id != t[n'].id)
  }

  /** At most one conversation per (instance id, customer phone), distinct
      positive row ids below the id generator. */
  predicate ConversationsValid(cs: seq<Conversation>, nextId: nat) {
    && (forall i :: 0 <= i < |cs| ==> 0 < cs[i].id < nextId)
    && (forall i, j :: 0 <= i < j < |cs| ==> cs[i].id != cs[j].id)
    && (forall i, j :: 0 <= i < j < |cs| ==> !SameKey(cs[i], cs[j]))
  }

  function ConversationIds(cs: seq<Conversation>): set<nat> {
    set c | c in cs :: c.id
  }

  /** Every message belongs to a stored conversation. */
  predicate MessagesLinked(db: Db) {
    forall k :: 0 <= k < |db.messages| ==> db.messages[k].conversationId in ConversationIds(db.conversations)
  }

  /** The generator starts above zero, so every stored id is truthy. */
  predicate Valid(db: Db) {
    && 0 < db.nextId
    && InstancesValid(db.instances)
    && InstanceIdsValid(db.instances, db.nextId)
    && ConversationsValid(db.conversations, db.nextId)
    && MessagesLinked(db)
  }

  /** A patch that cannot leave a connected row with a QR code: it either
      writes `connected` together with null QR columns, or writes a status
      other than `connected`, or touches the QR columns only to null them. */
  predicate KeepsQrCleared(p: Patch) {
    match p.status
    case Write(s) => s == Connected ==> p.qrCode == Write(None) && p.qrExpiresAt == Write(None)
    case Keep => p.qrCode in {Keep, Write(None)} && p.qrExpiresAt in {Keep, Write(None)}
  }

  lemma ApplyPatchKeepsQrCleared(r: InstanceRow, p: Patch)
    requires QrClearedWhenConnected(r) && KeepsQrCleared(p)
    ensures QrClearedWhenConnected(ApplyPatch(r, p))
  {
  }

  // ---------------------------------------------------------------------
  // Queries and writes, as functions of the store

  function LookupBot(db: Db, botId: string): Option<BotConfig> {
    if botId in db.bots then Some(db.bots[botId]) else None
  }

  /** `.select().eq('instance_name', name).single()`: the key is unique, so
      the row is found exactly when the name is in the table. */
  function LookupInstance(db: Db, name: string): (r: Option<InstanceRow>)
    ensures r.Some? <==> name in db.instances
    ensures r.Some? ==> r.value == db.instances[name]
  {
    if name in db.instances then Some(db.instances[name]) else None
  }

  /** `.update(p).eq('instance_name', name)`: patches the row with that
      name, if any; no other row and no other table changes. */
  function UpdateInstance(db: Db, name: string, p: Patch): (db': Db)
    ensures db'.instances.Keys == db.instances.Keys
    ensures name in db.instances ==> db'.instances[name] == ApplyPatch(db.instances[name], p)
    ensures forall n :: n in db.instances && n != name ==> db'.instances[n] == db.instances[n]
    ensures db' == db.(instances := db'.instances)
  {
    if name in db.instances then db.(instances := db.instances[name := ApplyPatch(db.instances[name], p)])
    else db
  }

  /** `.upsert(p, { onConflict: 'instance_name' })`: patches the row with
      that name, or inserts one with a fresh id; either way the table holds
      exactly one row under the name afterwards. */
  function UpsertInstance(db: Db, name: string, p: Patch): (db': Db)
    ensures db'.instances.Keys == db.instances.Keys + {name}
    ensures name in db.instances ==> db'.instances[name] == ApplyPatch(db.instances[name], p)
    ensures name !in db.instances ==> db'.instances[name] == NewRow(db.nextId, p)
    ensures forall n :: n in db.instances && n != name ==> db'.instances[n] == db.instances[n]
    ensures db' == db.(instances := db'.instances, nextId := db'.nextId)
  {
    if name in db.instances then UpdateInstance(db, name, p)
    else db.(instances := db.instances[name := NewRow(db.nextId, p)], nextId := db.nextId + 1)
  }

  /** Ids of the conversations with the given key, in table order. */
  function MatchingConversations(cs: seq<Conversation>, instanceId: nat, phone: string): (ids: seq<nat>)
    ensures forall id :: id in ids <==>
      exists i :: 0 <= i < |cs| && cs[i].id == id && cs[i].instanceId == instanceId && cs[i].customerPhone == phone
  {
    if cs == [] then []
    else
      var rest := MatchingConversations(cs[1..], instanceId, phone);
      assert forall i :: 0 < i < |cs| ==> cs[i] == cs[1..][i - 1];
      if cs[0].instanceId == instanceId && cs[0].customerPhone == phone then [cs[0].id] + rest else rest
  }

  /** `.select('id').eq(instance).eq(phone).single()`: an id only when
      exactly one row matches. */
  function SingleConversation(db: Db, instanceId: nat, phone: string): Option<nat> {
    var ids := MatchingConversations(db.conversations, instanceId, phone);
    if |ids| == 1 then Some(ids[0]) else None
  }

  /** With unique keys, a conversation for the key is found exactly when one
      is stored, and the id found is that row's. */
  lemma {:induction false} SingleConversationFound(db: Db, instanceId: nat, phone: string)
    requires ConversationsValid(db.conversations, db.nextId)
    ensures SingleConversation(db, instanceId, phone).Some? <==>
      exists i :: 0 <= i < |db.conversations| && db.conversations[i].instanceId == instanceId && db.conversations[i].customerPhone == phone
    ensures SingleConversation(db, instanceId, phone).Some? ==>
      SingleConversation(db, instanceId, phone).value in ConversationIds(db.conversations)
  {
    CountMatching(db.conversations, instanceId, phone);
    var ids := MatchingConversations(db.conversations, instanceId, phone);
    if |ids| == 1 {
      assert ids[0] in ids;
    }
  }

  /** With unique keys, looking up a stored conversation's key finds that
      conversation. */
  lemma SingleConversationIs(db: Db, i: nat)
    requires ConversationsValid(db.conversations, db.nextId)
    requires i < |db.conversations|
    ensures var c := db.conversations[i];
      SingleConversation(db, c.instanceId, c.customerPhone) == Some(c.id)
  {
    var cs := db.conversations;
    var c := cs[i];
    CountMatching(cs, c.instanceId, c.customerPhone);
    var ids := MatchingConversations(cs, c.instanceId, c.customerPhone);
    assert ids[0] in ids;
    var j :| 0 <= j < |cs| && cs[j].id == ids[0] && cs[j].instanceId == c.instanceId && cs[j].customerPhone == c.customerPhone;
  }

  lemma {:induction false} CountMatching(cs: seq<Conversation>, instanceId: nat, phone: string)
    requires forall i, j :: 0 <= i < j < |cs| ==> !SameKey(cs[i], cs[j])
    ensures |MatchingConversations(cs, instanceId, phone)| <= 1
    ensures |MatchingConversations(cs, instanceId, phone)| == 1 <==>
      exists i :: 0 <= i < |cs| && cs[i].instanceId == instanceId && cs[i].customerPhone == phone
  {
    if cs != [] {
      var tail := cs[1..];
      assert forall i, j :: 0 <= i < j < |tail| ==> tail[i] == cs[i + 1] && tail[j] == cs[j + 1];
      CountMatching(tail, instanceId, phone);
      if cs[0].instanceId == instanceId && cs[0].customerPhone == phone {
        forall i | 0 <= i < |tail| ensures !(tail[i].instanceId == instanceId && tail[i].customerPhone == phone) {
          assert tail[i] == cs[i + 1];
          assert !SameKey(cs[0], cs[i + 1]);
        }
      } else {
        if exists i :: 0 <= i < |cs| && cs[i].instanceId == instanceId && cs[i].customerPhone == phone {
          var i :| 0 <= i < |cs| && cs[i].instanceId == instanceId && cs[i].customerPhone == phone;
          assert i > 0 && tail[i - 1] == cs[i];
        }
      }
    }
  }

  /** Inserts a conversation under a fresh id. */
  function InsertConversation(db: Db, instanceId: nat, botId: Option<string>, phone: string,
                              name: Option<string>, now: int): (db': Db)
    ensures |db'.conversations| == |db.conversations| + 1
    ensures db'.conversations[..|db.conversations|] == db.conversations
    ensures db'.conversations[|db.conversations|] == Conversation(db.nextId, instanceId, botId, phone, name, now, Active)
    ensures db'.nextId == db.nextId + 1
  {
    db.(conversations := db.conversations + [Conversation(db.nextId, instanceId, botId, phone, name, now, Active)],
        nextId := db.nextId + 1)
  }

  /** `.update({ last_message_at, customer_name }).eq('id', id)`. */
  function TouchConversation(db: Db, id: nat, name: Option<string>, now: int): (db': Db)
    ensures |db'.conversations| == |db.conversations|
    ensures forall i :: 0 <= i < |db.conversations| ==>
      db'.conversations[i] == if db.conversations[i].id == id
                              then db.conversations[i].(lastMessageAt := now, customerName := name)
                              else db.conversations[i]
    ensures db' == db.(conversations := db'.conversations)
  {
    var cs := db.conversations;
    db.(conversations := seq(|cs|, i requires 0 <= i < |cs| =>
                               if cs[i].id == id then cs[i].(lastMessageAt := now, customerName := name) else cs[i]))
  }

  function InsertMessage(db: Db, m: Message): Db {
    db.(messages := db.messages + [m])
  }

  // ---------------------------------------------------------------------
  // The invariant is kept by every write the handlers issue

  lemma UpdateKeepsValid(db: Db, name: string, p: Patch)
    requires Valid(db) && KeepsQrCleared(p)
    ensures Valid(UpdateInstance(db, name, p))
  {
    if name in db.instances {
      ApplyPatchKeepsQrCleared(db.instances[name], p);
    }
  }

  /** Writing the same patch to the same row twice is writing it once. */
  lemma UpdateInstanceIdempotent(db: Db, name: string, p: Patch)
    ensures UpdateInstance(UpdateInstance(db, name, p), name, p) == UpdateInstance(db, name, p)
  {
    var once := UpdateInstance(db, name, p);
    var twice := UpdateInstance(once, name, p);
    if name in db.instances {
      ApplyPatchIdempotent(db.instances[name], p);
    }
    assert twice.instances == once.instances;
  }

  lemma UpsertKeepsValid(db: Db, name: string, p: Patch)
    requires Valid(db) && KeepsQrCleared(p)
    ensures Valid(UpsertInstance(db, name, p))
  {
    if name in db.instances {
      UpdateKeepsValid(db, name, p);
    } else {
      ApplyPatchKeepsQrCleared(InstanceRow(db.nextId, None, Disconnected, None, None, None, None, None), p);
    }
  }

  lemma {:induction false} InsertConversationKeepsValid(db: Db, instanceId: nat, botId: Option<string>,
                                                       phone: string, name: Option<string>, now: int)
    requires Valid(db)
    requires SingleConversation(db, instanceId, phone).None?
    ensures Valid(InsertConversation(db, instanceId, botId, phone, name, now))
    ensures db.nextId in ConversationIds(InsertConversation(db, instanceId, botId, phone, name, now).conversations)
  {
    SingleConversationFound(db, instanceId, phone);
    var db' := InsertConversation(db, instanceId, botId, phone, name, now);
    var cs := db.conversations;
    var cs' := db'.conversations;
    assert cs'[|cs|] in cs';
    assert ConversationIds(cs) <= ConversationIds(cs') by {
      forall id | id in ConversationIds(cs) ensures id in ConversationIds(cs') {
        var c :| c in cs && c.id == id;
        assert c in cs';
      }
    }
    forall i, j | 0 <= i < j < |cs'| ensures !SameKey(cs'[i], cs'[j]) && cs'[i].id != cs'[j].id {
      if j == |cs| {
        assert cs'[i] == cs[i];
      }
    }
  }

  lemma {:induction false} TouchConversationKeepsValid(db: Db, id: nat, name: Option<string>, now: int)
    requires Valid(db)
    ensures Valid(TouchConversation(db, id, name, now))
    ensures ConversationIds(TouchConversation(db, id, name, now).conversations) == ConversationIds(db.conversations)
  {
    var db' := TouchConversation(db, id, name, now);
    var cs := db.conversations;
    var cs' := db'.conversations;
    assert ConversationIds(cs) == ConversationIds(cs') by {
      forall x | x in ConversationIds(cs) ensures x in ConversationIds(cs') {
        var c :| c in cs && c.id == x;
        var i :| 0 <= i < |cs| && cs[i] == c;
        assert cs'[i].id == x;
        assert cs'[i] in cs';
      }
      forall x | x in ConversationIds(cs') ensures x in ConversationIds(cs) {
        var c :| c in cs' && c.id == x;
        var i :| 0 <= i < |cs'| && cs'[i] == c;
        assert cs[i].id == x;
        assert cs[i] in cs;
      }
    }
  }

  /** Under the invariant, the row an insert appends is the only one with
      the fresh id. */
  lemma InsertedIdIsFresh(db: Db, instanceId: nat, botId: Option<string>,
                          phone: string, name: Option<string>, now: int)
    requires ConversationsValid(db.conversations, db.nextId)
    ensures var cs' := InsertConversation(db, instanceId, botId, phone, name, now).conversations;
      forall j :: 0 <= j < |cs'| && cs'[j].id == db.nextId ==> j == |db.conversations|
  {
  }

  /** Under the invariant, touching the conversation at `k` by its id
      changes that row alone. */
  lemma TouchedRowIsOnly(db: Db, k: nat, name: Option<string>, now: int)
    requires ConversationsValid(db.conversations, db.nextId)
    requires k < |db.conversations|
    ensures var cs' := TouchConversation(db, db.conversations[k].id, name, now).conversations;
      forall j :: 0 <= j < |cs'| && cs'[j].id == db.conversations[k].id ==> j == k
  {
  }

  lemma InsertMessageKeepsValid(db: Db, m: Message)
    requires Valid(db) && m.conversationId in ConversationIds(db.conversations)
    ensures Valid(InsertMessage(db, m))
  {
  }

  // ---------------------------------------------------------------------
  // The store as mutable state

  class Store {
    var bots: map<string, BotConfig>
    var instances: map<string, InstanceRow>
    var conversations: seq<Conversation>
    var messages: seq<Message>
    var nextId: nat

    /** The tables as one value. */
    function State(): Db
      reads this
    {
      Db(bots, instances, conversations, messages, nextId)
    }

    constructor (bots: map<string, BotConfig>)
      ensures State() == Db(bots, map[], [], [], 1)
      ensures Valid(State())
    {
      this.bots := bots;
      instances := map[];
      conversations := [];
      messages := [];
      nextId := 1;
    }

    method FindBot(botId: string) returns (bot: Option<BotConfig>)
      ensures bot.Some? <==> botId in bots
      ensures bot.Some? ==> bot.value == bots[botId]
    {
      bot := if botId in bots then Some(bots[botId]) else None;
    }

    method FindInstance(name: string) returns (row: Option<InstanceRow>)
      ensures row == LookupInstance(State(), name)
    {
      row := if name in instances then Some(instances[name]) else None;
    }

    method Update(name: string, p: Patch)
      modifies this
      ensures State() == UpdateInstance(old(State()), name, p)
    {
      if name in instances {
        instances := instances[name := ApplyPatch(instances[name], p)];
      }
    }

    method Upsert(name: string, p: Patch)
      modifies this
      ensures State() == UpsertInstance(old(State()), name, p)
    {
      if name in instances {
        instances := instances[name := ApplyPatch(instances[name], p)];
      } else {
        instances := instances[name := NewRow(nextId, p)];
        nextId := nextId + 1;
      }
    }

    method FindConversation(instanceId: nat, phone: string) returns (id: Option<nat>)
      ensures id == SingleConversation(State(), instanceId, phone)
    {
      var ids := MatchingConversations(conversations, instanceId, phone);
      id := if |ids| == 1 then Some(ids[0]) else None;
    }

    method CreateConversation(instanceId: nat, botId: Option<string>, phone: string,
                              name: Option<string>, now: int) returns (id: nat)
      modifies this
      ensures id == old(nextId)
      ensures State() == InsertConversation(old(State()), instanceId, botId, phone, name, now)
    {
      id := nextId;
      conversations := conversations + [Conversation(id, instanceId, botId, phone, name, now, Active)];
      nextId := nextId + 1;
    }

    method UpdateConversation(id: nat, name: Option<string>, now: int)
      modifies this
      ensures State() == TouchConversation(old(State()), id, name, now)
    {
      var cs := conversations;
      conversations := seq(|cs|, i requires 0 <= i < |cs| =>
                             if cs[i].id == id then cs[i].(lastMessageAt := now, customerName := name) else cs[i]);
    }

    method AddMessage(m: Message)
      modifies this
      ensures State() == InsertMessage(old(State()), m)
    {
      messages := messages + [m];
    }
  }
}
