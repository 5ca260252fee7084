/** The Evolution API gateway as the edge functions see it: each HTTP call
    resolves to a reply that is OK with a body, non-OK with a body text, or
    a rejected fetch. A `Script` lists the replies the gateway gives, per
    endpoint, in order; the `Gateway` object hands them out, counting how
    many each endpoint has answered, and keeps a log of the calls made. `Timer` stands for `setTimeout` sleeps. */
module Gateway {
  import opened Common

  /** The `instance` object of one `fetchInstances` entry. */
  datatype InstanceInfo = InstanceInfo(instanceName: Option<string>, state: Option<string>, ownerId: Option<string>)

  /** One element of the `fetchInstances` array. */
  datatype FetchedEntry = FetchedEntry(instance: Option<InstanceInfo>, connectionStatus: Option<string>)

  /** The parsed `fetchInstances` body: an array, some other JSON value, or
      text that `response.json()` cannot parse. */
  datatype FetchBody = EntryArray(entries: seq<FetchedEntry>) | NotAnArray | Unparsable

  datatype FetchReply = FetchOk(body: FetchBody) | FetchNotOk(text: string) | FetchThrown

  /** The create body is never read on success, so an OK reply carries
      nothing. */
  datatype CreateReply = CreateOk | CreateNotOk(text: string) | CreateThrown

  /** The QR fields of a parsed `connect` body; a body that does not parse
      is `{}`, i.e. all three absent. */
  datatype QrData = QrData(base64: Option<string>, code: Option<string>, qrcodeBase64: Option<string>)

  datatype ConnectReply = ConnectOk(data: QrData) | ConnectNotOk(text: string) | ConnectThrown

  datatype DeleteReply = DeleteOk | DeleteNotOk(text: string) | DeleteThrown

  /** The replies the gateway gives, per endpoint, in call order. */
  datatype Script = Script(
    fetches: seq<FetchReply>,
    creates: seq<CreateReply>,
    connects: seq<ConnectReply>,
    deletes: seq<DeleteReply>)

  /** How many calls each endpoint has answered so far. */
  datatype Cursor = Cursor(fetches: nat, creates: nat, connects: nat, deletes: nat)

  const ConnectionUpdateEvent: string := "connection.update"
  const QrCodeUpdatedEvent: string := "qrcode.updated"
  const MessagesUpsertEvent: string := "messages.upsert"

  /** Event kinds the create request subscribes the webhook to. */
  const WebhookEvents: seq<string> := [ConnectionUpdateEvent, QrCodeUpdatedEvent, MessagesUpsertEvent]

  const Integration: string := "WHATSAPP-BAILEYS"

  /** One request sent to the gateway. The create request carries the body
      fields that matter: QR generation at create time and the
      subscriptions. */
  datatype Call =
    | FetchInstances(instanceName: string)
    | CreateInstance(instanceName: string, qrcode: bool, integration: string, events: seq<string>)
    | ConnectInstance(instanceName: string)
    | DeleteInstance(instanceName: string)

  /** The create request the connect flow always sends. */
  function CreateCall(name: string): Call {
    CreateInstance(name, false, Integration, WebhookEvents)
  }

  /** The reply to call `k` (from 0) of an endpoint; once the script is
      used up, the gateway is unreachable and every call rejects. */
  function ReplyAt<T>(replies: seq<T>, k: nat, unreachable: T): T {
    if k < |replies| then replies[k] else unreachable
  }

  function FetchAt(s: Script, k: nat): FetchReply {
    ReplyAt(s.fetches, k, FetchThrown)
  }

  function CreateAt(s: Script, k: nat): CreateReply {
    ReplyAt(s.creates, k, CreateThrown)
  }

  function ConnectAt(s: Script, k: nat): ConnectReply {
    ReplyAt(s.connects, k, ConnectThrown)
  }

  function DeleteAt(s: Script, k: nat): DeleteReply {
    ReplyAt(s.deletes, k, DeleteThrown)
  }

  /** The gateway: a fixed script of replies, how far each endpoint has
      got through it, and the log of calls made. */
  class Gateway {
    const script: Script
    var used: Cursor
    var log: seq<Call>

    constructor (script: Script)
      ensures this.script == script && used == Cursor(0, 0, 0, 0) && log == []
    {
      this.script := script;
      used := Cursor(0, 0, 0, 0);
      log := [];
    }

    method Fetch(name: string) returns (r: FetchReply)
      modifies this
      ensures r == FetchAt(script, old(used.fetches))
      ensures used == old(used).(fetches := old(used.fetches) + 1)
      ensures log == old(log) + [FetchInstances(name)]
    {
      r := FetchAt(script, used.fetches);
      used := used.(fetches := used.fetches + 1);
      log := log + [FetchInstances(name)];
    }

    method Create(name: string) returns (r: CreateReply)
      modifies this
      ensures r == CreateAt(script, old(used.creates))
      ensures used == old(used).(creates := old(used.creates) + 1)
      ensures log == old(log) + [CreateCall(name)]
    {
      r := CreateAt(script, used.creates);
      used := used.(creates := used.creates + 1);
      log := log + [CreateCall(name)];
    }

    method Connect(name: string) returns (r: ConnectReply)
      modifies this
      ensures r == ConnectAt(script, old(used.connects))
      ensures used == old(used).(connects := old(used.connects) + 1)
      ensures log == old(log) + [ConnectInstance(name)]
    {
      r := ConnectAt(script, used.connects);
      used := used.(connects := used.connects + 1);
      log := log + [ConnectInstance(name)];
    }

    method Delete(name: string) returns (r: DeleteReply)
      modifies this
      ensures r == DeleteAt(script, old(used.deletes))
      ensures used == old(used).(deletes := old(used.deletes) + 1)
      ensures log == old(log) + [DeleteInstance(name)]
    {
      r := DeleteAt(script, used.deletes);
      used := used.(deletes := used.deletes + 1);
      log := log + [DeleteInstance(name)];
    }
  }

  /** Accumulates the time spent in `setTimeout` sleeps. */
  class Timer {
    var elapsed: nat

    constructor ()
      ensures elapsed == 0
    {
      elapsed := 0;
    }

    method Sleep(ms: nat)
      modifies this
      ensures elapsed == old(elapsed) + ms
    {
      elapsed := elapsed + ms;
    }
  }
}
