/** The connect request of `create-whatsapp-instance`: derive the instance
    name, probe the gateway, return early when the session is already open,
    otherwise create the instance if the gateway does not know it, poll for
    a QR code, fall back once to delete/recreate/connect, and upsert the
    instance row.

    `ConnectSpec` states the whole request as a function of the bot id, the
    bot configuration, the gateway's scripted replies and the clock; the
    method `Connect` performs it step by step on a `Gateway`, a `Timer` and
    the `Store`, and is proved to do exactly what `ConnectSpec` says. */
module Connect {
  import opened Common
  import opened Store
  import opened Gateway

  const MaxAttempts: nat := 10
  const ShortWaitMs: nat := 1500
  const LongWaitMs: nat := 3000
  const ResetGraceMs: nat := 5000
  const RecreateGraceMs: nat := 2000
  const AlreadyExists: string := "already exists"
  const OpenState: string := "open"

  /** Why the request answered 400. */
  datatype ConnectError =
    | BotIdRequired
    | BotLookupFailed
    | GatewayUnreachable
    | MalformedReply
    | CreateFailed(text: string)

  datatype Response =
    | AlreadyConnected(instanceName: string, phoneNumber: Option<string>)
    | QrIssued(qrCode: Option<string>, instanceName: string, phoneNumber: Option<string>, expiresAt: int)
    | Failed(error: ConnectError)

  function HttpStatus(r: Response): int {
    if r.Failed? then 400 else 200
  }

  function InstanceNameOf(botId: string): string {
    "bot-" + botId
  }

  /** `bot.whatsapp_number || null`. */
  function BotPhone(bot: BotConfig): Option<string> {
    Truthy(bot.whatsappNumber)
  }

  // ---------------------------------------------------------------------
  // Reading the gateway's replies

  /** `i.instance && i.instance.instanceName === instanceName`. */
  predicate Named(e: FetchedEntry, name: string) {
    e.instance.Some? && e.instance.value.instanceName == Some(name)
  }

  /** The index of the first entry named `name` at or after `from`. */
  function FindNamed(es: seq<FetchedEntry>, name: string, from: nat): (r: Option<nat>)
    decreases |es| - from
    ensures r.Some? ==> from <= r.value < |es|
  {
    if from >= |es| then None
    else if Named(es[from], name) then Some(from)
    else FindNamed(es, name, from + 1)
  }

  /** `FindNamed` is `findIndex` from `from` on: the entry it returns is
      named `name` and no earlier one is; when it returns nothing, no entry
      is. */
  lemma {:induction false} FindNamedFirst(es: seq<FetchedEntry>, name: string, from: nat)
    ensures var r := FindNamed(es, name, from);
      && (r.Some? ==> from <= r.value < |es| && Named(es[r.value], name))
      && (r.Some? ==> forall k :: from <= k < r.value ==> !Named(es[k], name))
      && (r.None? ==> forall k :: from <= k < |es| ==> !Named(es[k], name))
    decreases |es| - from
  {
    if from < |es| && !Named(es[from], name) {
      FindNamedFirst(es, name, from + 1);
    }
  }

  /** The gateway's view of the instance: set only when the fetch is OK and
      returns a non-empty array, and then the first entry with the
      instance's name, or else the first entry. */
  function ProbeState(reply: FetchReply, name: string): Option<FetchedEntry> {
    match reply
    case FetchOk(EntryArray(es)) =>
      if |es| == 0 then None
      else
        var k := FindNamed(es, name, 0);
        if k.Some? then Some(es[k.value]) else Some(es[0])
    case _ => None
  }

  /** `instances.find(i => i.instance?.instanceName === name) || instances[0]`
      on a non-empty array: the first entry with the name, or else the
      first entry; nothing for any other reply. */
  lemma ProbeStatePicks(reply: FetchReply, name: string)
    ensures var r := ProbeState(reply, name);
      && (r.Some? <==> reply.FetchOk? && reply.body.EntryArray? && |reply.body.entries| > 0)
      && (r.Some? ==> forall k :: (0 <= k < |reply.body.entries| && Named(reply.body.entries[k], name) &&
                                   forall j :: 0 <= j < k ==> !Named(reply.body.entries[j], name)) ==>
                                  r.value == reply.body.entries[k])
      && (r.Some? && (forall k :: 0 <= k < |reply.body.entries| ==> !Named(reply.body.entries[k], name)) ==>
            r.value == reply.body.entries[0])
  {
    if reply.FetchOk? && reply.body.EntryArray? {
      FindNamedFirst(reply.body.entries, name, 0);
    }
  }

  /** `instanceState.instance?.state || instanceState.connectionStatus`. */
  function EntryStatus(e: FetchedEntry): Option<string> {
    Or(if e.instance.Some? then e.instance.value.state else None, e.connectionStatus)
  }

  /** `instance?.owner?.id?.replace('@s.whatsapp.net', '') || botPhoneNumber`. */
  function OwnerPhone(e: FetchedEntry, botPhone: Option<string>): Option<string> {
    var owner := if e.instance.Some? && e.instance.value.ownerId.Some?
                 then Some(StripJidDomain(e.instance.value.ownerId.value)) else None;
    Or(owner, botPhone)
  }

  /** The QR a connect reply yields: the first truthy one of `data.base64`,
      `data.code` and `data.qrcode?.base64`, from an OK reply only. */
  function QrOf(r: ConnectReply): Option<string> {
    if !r.ConnectOk? then None
    else if Present(r.data.base64) then r.data.base64
    else if Present(r.data.code) then r.data.code
    else Truthy(r.data.qrcodeBase64)
  }

  /** `QrOf` is the JavaScript expression `data.base64 || data.code ||
      data.qrcode?.base64` read as a condition: a QR is never empty, comes
      only from an OK reply, and is the first truthy field. */
  lemma QrOfIsOrChain(r: ConnectReply)
    ensures r.ConnectOk? ==> QrOf(r) == Truthy(Or(Or(r.data.base64, r.data.code), r.data.qrcodeBase64))
    ensures QrOf(r).Some? ==> r.ConnectOk? && Present(QrOf(r))
    ensures QrOf(r).None? <==> !r.ConnectOk? ||
                               (!Present(r.data.base64) && !Present(r.data.code) && !Present(r.data.qrcodeBase64))
  {
  }

  /** A connect attempt that neither rejects nor yields a QR. */
  predicate Fruitless(r: ConnectReply) {
    !r.ConnectThrown? && QrOf(r).None?
  }

  /** Connect replies `k` to `k + n - 1` are all fruitless. */
  predicate FruitlessRun(s: Script, k: nat, n: nat) {
    forall m :: k <= m < k + n ==> Fruitless(ConnectAt(s, m))
  }

  /** What `createInstance` does with a reply: nothing on success or on an
      "already exists" error body, otherwise the request fails. */
  function CreateError(r: CreateReply): (e: Option<ConnectError>)
    ensures e.None? <==> r.CreateOk? || (r.CreateNotOk? && Contains(r.text, AlreadyExists))
    ensures r.CreateThrown? ==> e == Some(GatewayUnreachable)
    ensures r.CreateNotOk? && !Contains(r.text, AlreadyExists) ==> e == Some(CreateFailed(r.text))
  {
    match r
    case CreateOk => None
    case CreateNotOk(text) => if Contains(text, AlreadyExists) then None else Some(CreateFailed(text))
    case CreateThrown => Some(GatewayUnreachable)
  }

  // ---------------------------------------------------------------------
  // The QR poll loop

  /** The sleep after failed attempt `i` (attempts count from 1). */
  function WaitAfter(i: nat): nat {
    if i < 3 then ShortWaitMs else LongWaitMs
  }

  /** Total sleep after attempts 1..n. */
  function WaitTotal(n: nat): nat {
    if n == 0 then 0 else WaitTotal(n - 1) + WaitAfter(n)
  }

  lemma {:induction false} WaitTotalClosedForm(n: nat)
    ensures n <= 2 ==> WaitTotal(n) == ShortWaitMs * n
    ensures n >= 2 ==> WaitTotal(n) == LongWaitMs * n - LongWaitMs
  {
    if n > 0 {
      WaitTotalClosedForm(n - 1);
    }
  }

  /** Ten failed attempts sleep 27 seconds in all, and no run of the loop
      sleeps longer. */
  lemma WaitTotalBound(n: nat)
    requires n <= MaxAttempts
    ensures WaitTotal(n) <= WaitTotal(MaxAttempts) == 27000
  {
    WaitTotalClosedForm(n);
    WaitTotalClosedForm(MaxAttempts);
  }

  datatype PollOutcome = PollOutcome(qr: Option<string>, thrown: bool, attempts: nat)

  /** Attempts i..MaxAttempts of the loop, attempt i getting connect reply
      `k + i - 1` of the script. An attempt whose fetch rejects ends the
      request; one that yields a QR breaks the loop; any other is followed
      by a sleep and the next attempt. `attempts` is the number of the last
      attempt made. */
  function PollFrom(s: Script, k: nat, i: nat): PollOutcome
    requires 1 <= i <= MaxAttempts + 1
    decreases MaxAttempts + 1 - i
  {
    if i > MaxAttempts then PollOutcome(None, false, MaxAttempts)
    else
      var reply := ConnectAt(s, k + i - 1);
      if reply.ConnectThrown? then PollOutcome(None, true, i)
      else if QrOf(reply).Some? then PollOutcome(QrOf(reply), false, i)
      else PollFrom(s, k, i + 1)
  }

  /** The number of sleeps a loop run makes: one after every attempt except
      the one that stopped it early. */
  function Sleeps(p: PollOutcome): nat {
    if (p.qr.Some? || p.thrown) && p.attempts > 0 then p.attempts - 1 else p.attempts
  }

  /** How far a loop run goes: it makes at least the attempt it starts with
      and at most ten, and it makes all ten only when none stopped it. */
  lemma {:induction false} PollFromBounds(s: Script, k: nat, i: nat)
    requires 1 <= i <= MaxAttempts + 1
    ensures var p := PollFrom(s, k, i);
      && i - 1 <= p.attempts <= MaxAttempts
      && (i <= MaxAttempts ==> i <= p.attempts)
      && (p.thrown ==> p.qr.None?)
      && (!p.thrown && p.qr.None? ==> p.attempts == MaxAttempts)
    decreases MaxAttempts + 1 - i
  {
    if i <= MaxAttempts {
      var reply := ConnectAt(s, k + i - 1);
      if !reply.ConnectThrown? && QrOf(reply).None? {
        PollFromBounds(s, k, i + 1);
      }
    }
  }

  /** Every reply a loop run got before its last one was fruitless. */
  lemma {:induction false} PollFromPrefix(s: Script, k: nat, i: nat)
    requires 1 <= i <= MaxAttempts + 1
    ensures var p := PollFrom(s, k, i);
      forall m :: k + i - 1 <= m < k + p.attempts - 1 ==> Fruitless(ConnectAt(s, m))
    decreases MaxAttempts + 1 - i
  {
    if i <= MaxAttempts {
      var reply := ConnectAt(s, k + i - 1);
      if !reply.ConnectThrown? && QrOf(reply).None? {
        PollFromPrefix(s, k, i + 1);
      }
    }
  }

  /** The last reply a loop run got is why it stopped: it yielded the QR,
      or it rejected, or it was the tenth fruitless one. */
  lemma {:induction false} PollFromStop(s: Script, k: nat, i: nat)
    requires 1 <= i <= MaxAttempts
    ensures var p := PollFrom(s, k, i);
      && 1 <= p.attempts
      && (var last := ConnectAt(s, k + p.attempts - 1);
          && (p.qr.Some? ==> p.qr == QrOf(last))
          && (p.thrown <==> last.ConnectThrown?)
          && (!p.thrown && p.qr.None? ==> Fruitless(last)))
    decreases MaxAttempts + 1 - i
  {
    PollFromBounds(s, k, i);
    var reply := ConnectAt(s, k + i - 1);
    if !reply.ConnectThrown? && QrOf(reply).None? && i < MaxAttempts {
      PollFromStop(s, k, i + 1);
    }
  }

  /** Skipping `j` fruitless replies from the start of the loop leaves it
      at attempt `j + 1`. */
  lemma {:induction false} PollSkipsFruitless(s: Script, k: nat, j: nat)
    requires j <= MaxAttempts
    requires forall m :: k <= m < k + j ==> Fruitless(ConnectAt(s, m))
    ensures PollFrom(s, k, 1) == PollFrom(s, k, j + 1)
  {
    if j > 0 {
      PollSkipsFruitless(s, k, j - 1);
      assert Fruitless(ConnectAt(s, k + j - 1));
    }
  }

  /** The QR poll loop run from its start: at most ten connect calls; it
      stops at the first reply that rejects or yields a QR, every earlier
      reply having been fruitless; each failed attempt i sleeps 1500 ms if
      i < 3 and 3000 ms otherwise, 27000 ms in all when every attempt
      fails. */
  lemma PollSpec(s: Script, k: nat)
    ensures var p := PollFrom(s, k, 1);
      && 1 <= p.attempts <= MaxAttempts
      && (forall m :: k <= m < k + p.attempts - 1 ==> Fruitless(ConnectAt(s, m)))
      && (p.qr.Some? ==> p.qr == QrOf(ConnectAt(s, k + p.attempts - 1)))
      && (p.thrown <==> ConnectAt(s, k + p.attempts - 1).ConnectThrown?)
      && (p.qr.None? && !p.thrown <==> FruitlessRun(s, k, MaxAttempts))
      && (p.qr.None? && !p.thrown ==> WaitTotal(Sleeps(p)) == 27000)
      && WaitTotal(Sleeps(p)) <= 27000
  {
    PollFromBounds(s, k, 1);
    PollFromPrefix(s, k, 1);
    PollFromStop(s, k, 1);
    var p := PollFrom(s, k, 1);
    WaitTotalBound(Sleeps(p));
    if p.qr.Some? || p.thrown {
      assert !Fruitless(ConnectAt(s, k + p.attempts - 1));
    }
  }

  /** The QR of the first of the `n` replies from `k` on that yields one. */
  function FirstQr(s: Script, k: nat, n: nat): Option<string>
    decreases n
  {
    if n == 0 then None
    else if QrOf(ConnectAt(s, k)).Some? then QrOf(ConnectAt(s, k))
    else FirstQr(s, k + 1, n - 1)
  }

  /** None of connect replies `k` to `k + n - 1` rejects. */
  predicate Answered(s: Script, k: nat, n: nat) {
    forall m :: k <= m < k + n ==> !ConnectAt(s, m).ConnectThrown?
  }

  /** None of connect replies `k` to `k + n - 1` yields a QR. */
  predicate NoQr(s: Script, k: nat, n: nat) {
    forall m :: k <= m < k + n ==> QrOf(ConnectAt(s, m)).None?
  }

  /** No QR comes first exactly when none of the `n` replies yields one. */
  lemma {:induction false} FirstQrNone(s: Script, k: nat, n: nat)
    ensures FirstQr(s, k, n).None? <==> NoQr(s, k, n)
    decreases n
  {
    if n > 0 {
      FirstQrNone(s, k + 1, n - 1);
    }
  }

  /** Among replies that all answer, a fruitless run is one with no QR. */
  lemma FruitlessIffNoQr(s: Script, k: nat, n: nat)
    requires Answered(s, k, n)
    ensures FruitlessRun(s, k, n) <==> NoQr(s, k, n)
  {
  }

  /** A loop run that did not reject found the first QR among its replies;
      when it found none, the first QR among its replies and the one after
      them is the QR of that next reply. */
  lemma {:induction false} PollFirstQr(s: Script, k: nat, i: nat)
    requires 1 <= i <= MaxAttempts + 1
    ensures var p := PollFrom(s, k, i);
      !p.thrown ==> FirstQr(s, k + i - 1, MaxAttempts + 2 - i) ==
                    (if p.qr.Some? then p.qr else QrOf(ConnectAt(s, k + MaxAttempts)))
    decreases MaxAttempts + 1 - i
  {
    if i > MaxAttempts {
      assert FirstQr(s, k + i, 0) == None;
    } else {
      var reply := ConnectAt(s, k + i - 1);
      if !reply.ConnectThrown? && QrOf(reply).None? {
        PollFirstQr(s, k, i + 1);
      }
    }
  }

  // ---------------------------------------------------------------------
  // The forced reset

  datatype ResetOutcome = ResetOutcome(qr: Option<string>, error: Option<ConnectError>,
                                       used: Cursor, calls: seq<Call>, waited: nat)

  /** Delete, wait 5000 ms, create, wait 2000 ms, connect once, from cursor
      `c`. A rejected fetch or a fatal create error ends the request; the
      delete's answer is otherwise ignored. */
  function ResetSpec(name: string, s: Script, c: Cursor): ResetOutcome {
    var c1 := c.(deletes := c.deletes + 1);
    if DeleteAt(s, c.deletes).DeleteThrown? then
      ResetOutcome(None, Some(GatewayUnreachable), c1, [DeleteInstance(name)], 0)
    else
      var created := CreateAt(s, c.creates);
      var c2 := c1.(creates := c.creates + 1);
      if CreateError(created).Some? then
        ResetOutcome(None, CreateError(created), c2, [DeleteInstance(name), CreateCall(name)], ResetGraceMs)
      else
        var final := ConnectAt(s, c.connects);
        var c3 := c2.(connects := c.connects + 1);
        var calls := [DeleteInstance(name), CreateCall(name), ConnectInstance(name)];
        if final.ConnectThrown? then
          ResetOutcome(None, Some(GatewayUnreachable), c3, calls, ResetGraceMs + RecreateGraceMs)
        else ResetOutcome(QrOf(final), None, c3, calls, ResetGraceMs + RecreateGraceMs)
  }

  /** The reset makes one delete, then one create, then one connect,
      stopping early only on a failure, and its QR (possibly absent) is the
      one the final connect yields. */
  lemma ResetShape(name: string, s: Script, c: Cursor)
    ensures var r := ResetSpec(name, s, c);
      && (|| r.calls == [DeleteInstance(name)]
          || r.calls == [DeleteInstance(name), CreateCall(name)]
          || r.calls == [DeleteInstance(name), CreateCall(name), ConnectInstance(name)])
      && (r.error.None? <==> r.calls == [DeleteInstance(name), CreateCall(name), ConnectInstance(name)] &&
                             !ConnectAt(s, c.connects).ConnectThrown?)
      && (r.error.None? ==> r.qr == QrOf(ConnectAt(s, c.connects)) && r.waited == 7000)
      && (r.error.Some? ==> r.qr.None?)
      && (|r.calls| == 1 <==> DeleteAt(s, c.deletes).DeleteThrown?)
      && (|r.calls| == 1 ==> r.error == Some(GatewayUnreachable) && r.waited == 0)
      && (|r.calls| == 2 <==> !DeleteAt(s, c.deletes).DeleteThrown? && CreateError(CreateAt(s, c.creates)).Some?)
      && (|r.calls| == 2 ==> r.error == CreateError(CreateAt(s, c.creates)) && r.waited == ResetGraceMs)
      && (|r.calls| == 3 && r.error.Some? ==> r.error == Some(GatewayUnreachable))
      && r.waited <= 7000
      && r.used == c.(deletes := c.deletes + 1,
                      creates := c.creates + (if |r.calls| >= 2 then 1 else 0),
                      connects := c.connects + (if |r.calls| == 3 then 1 else 0))
  {
  }

  // ---------------------------------------------------------------------
  // The whole request

  /** The `upsert(upsertData, { onConflict: 'instance_name' })` request. */
  datatype Upsert = Upsert(instanceName: string, patch: Patch)

  /** What a request answers, the upsert it issues, how far it got through
      the gateway's script, the call log after it (the log it started from
      followed by its own calls), and how long it slept. */
  datatype Run = Run(response: Response, upsert: Option<Upsert>, used: Cursor, log: seq<Call>, waited: nat)

  /** `upsertData`: bot, status and expiry always; the QR only when one was
      obtained and the phone only when the bot has one. */
  function UpsertPatch(botId: string, qr: Option<string>, phone: Option<string>, now: int): Patch {
    Patch(
      botId := Write(Some(botId)),
      status := Write(Connecting),
      qrCode := if qr.Some? then Write(qr) else Keep,
      qrExpiresAt := Write(Some(now + QrLifetimeMs)),
      phoneNumber := if phone.Some? then Write(phone) else Keep,
      connectedAt := Keep,
      lastSeen := Keep)
  }

  /** The instance row after the upsert: it exists, belongs to the bot, is
      connecting and expires five minutes from now; it holds the new QR
      and phone when there are any and keeps the stored ones otherwise, and
      no other row changes. The written row never breaks the store
      invariant. */
  lemma UpsertedRow(db: Db, botId: string, name: string, qr: Option<string>, phone: Option<string>, now: int)
    ensures var db' := UpsertInstance(db, name, UpsertPatch(botId, qr, phone, now));
      var row := db'.instances[name];
      var before := if name in db.instances then db.instances[name] else NewRow(db.nextId, UpsertPatch(botId, qr, phone, now));
      && name in db'.instances
      && row.botId == Some(botId) && row.status == Connecting && row.qrExpiresAt == Some(now + QrLifetimeMs)
      && row.qrCode == (if qr.Some? then qr else if name in db.instances then before.qrCode else None)
      && row.phoneNumber == (if phone.Some? then phone else if name in db.instances then before.phoneNumber else None)
      && (name in db.instances ==> row.connectedAt == before.connectedAt && row.lastSeen == before.lastSeen)
      && (forall n :: n in db.instances && n != name ==> db'.instances[n] == db.instances[n])
      && (Valid(db) ==> Valid(db'))
  {
    if Valid(db) {
      UpsertKeepsValid(db, name, UpsertPatch(botId, qr, phone, now));
    }
  }

  function Persist(botId: string, name: string, phone: Option<string>, qr: Option<string>,
                   c: Cursor, log: seq<Call>, waited: nat, now: int): Run {
    Run(QrIssued(qr, name, phone, now + QrLifetimeMs),
        Some(Upsert(name, UpsertPatch(botId, qr, phone, now))), c, log, waited)
  }

  /** The outcome of obtaining a QR: the QR (possibly none) or the error
      that ends the request, with the cursor, call log and sleep time after
      it. */
  datatype Obtained = Obtained(qr: Option<string>, error: Option<ConnectError>,
                               used: Cursor, log: seq<Call>, waited: nat)

  /** Poll for a QR; when ten attempts bring none, force a reset. */
  function ObtainSpec(name: string, s: Script, c: Cursor, log: seq<Call>): Obtained {
    var p := PollFrom(s, c.connects, 1);
    var c1 := c.(connects := c.connects + p.attempts);
    var log1 := Append(log, ConnectInstance(name), p.attempts);
    var waited := WaitTotal(Sleeps(p));
    if p.thrown then Obtained(None, Some(GatewayUnreachable), c1, log1, waited)
    else if p.qr.Some? then Obtained(p.qr, None, c1, log1, waited)
    else
      var r := ResetSpec(name, s, c1);
      Obtained(r.qr, r.error, r.used, log1 + r.calls, waited + r.waited)
  }

  /** `log` followed by `n` copies of `x`. */
  function Append<T>(log: seq<T>, x: T, n: nat): seq<T> {
    if n == 0 then log else Append(log, x, n - 1) + [x]
  }

  /** From the create decision on: create if needed, poll, reset if no QR
      came, persist; `log` is the call log so far. */
  function ProvisionSpec(botId: string, name: string, phone: Option<string>, create: bool,
                         s: Script, c: Cursor, log: seq<Call>, now: int): Run {
    var createErr := if create then CreateError(CreateAt(s, c.creates)) else None;
    var c1 := if create then c.(creates := c.creates + 1) else c;
    var log1 := if create then log + [CreateCall(name)] else log;
    if createErr.Some? then Run(Failed(createErr.value), None, c1, log1, 0)
    else
      var o := ObtainSpec(name, s, c1, log1);
      if o.error.Some? then Run(Failed(o.error.value), None, o.used, o.log, o.waited)
      else Persist(botId, name, phone, o.qr, o.used, o.log, o.waited, now)
  }

  /** The gateway reports the instance as an open session. */
  predicate SessionOpen(reply: FetchReply, name: string) {
    var state := ProbeState(reply, name);
    state.Some? && EntryStatus(state.value) == Some(OpenState)
  }

  /** From the gateway probe on: fetch the instance list, answer at once
      when the session is open, otherwise provision, creating the instance
      only when the gateway returned no entry. */
  function ProbeSpec(botId: string, phone: Option<string>, s: Script, c: Cursor, log: seq<Call>, now: int): Run {
    var name := InstanceNameOf(botId);
    var reply := FetchAt(s, c.fetches);
    var c1 := c.(fetches := c.fetches + 1);
    var log1 := log + [FetchInstances(name)];
    if reply.FetchThrown? then Run(Failed(GatewayUnreachable), None, c1, log1, 0)
    else if reply == FetchOk(Unparsable) then Run(Failed(MalformedReply), None, c1, log1, 0)
    else if SessionOpen(reply, name) then
      Run(AlreadyConnected(name, OwnerPhone(ProbeState(reply, name).value, phone)), None, c1, log1, 0)
    else ProvisionSpec(botId, name, phone, ProbeState(reply, name).None?, s, c1, log1, now)
  }

  /** The connect request. `bot` is the result of the bot configuration
      lookup (`None` when it failed), `s` the gateway's replies, `c` how
      many of them earlier requests used and `log` the calls they made. The
      stored instance row plays no part: the request reads it but its
      status changes nothing. */
  function ConnectSpec(botId: Option<string>, bot: Option<BotConfig>, s: Script, c: Cursor, log: seq<Call>,
                       now: int): Run {
    if !Present(botId) then Run(Failed(BotIdRequired), None, c, log, 0)
    else if bot.None? then Run(Failed(BotLookupFailed), None, c, log, 0)
    else ProbeSpec(botId.value, BotPhone(bot.value), s, c, log, now)
  }

  /** The bot lookup as the store answers it. */
  function BotOf(db: Db, botId: Option<string>): Option<BotConfig> {
    if botId.Some? then LookupBot(db, botId.value) else None
  }

  /** The store after the request: the upsert is merged unless the store
      rejected it. */
  function StoreAfter(db: Db, u: Option<Upsert>, upsertFails: bool): Db {
    if u.Some? && !upsertFails then UpsertInstance(db, u.value.instanceName, u.value.patch) else db
  }

  // ---------------------------------------------------------------------
  // The request, step by step

  method PollForQr(gw: Gateway, timer: Timer, name: string) returns (qr: Option<string>, thrown: bool)
    modifies gw, timer
    ensures var p := PollFrom(gw.script, old(gw.used.connects), 1);
      && qr == p.qr && thrown == p.thrown
      && gw.used == old(gw.used).(connects := old(gw.used.connects) + p.attempts)
      && gw.log == Append(old(gw.log), ConnectInstance(name), p.attempts)
      && timer.elapsed == old(timer.elapsed) + WaitTotal(Sleeps(p))
  {
    ghost var k := gw.used.connects;
    qr, thrown := None, false;
    var i := 1;
    while i <= MaxAttempts
      invariant 1 <= i <= MaxAttempts + 1
      invariant gw.used == old(gw.used).(connects := k + i - 1)
      invariant forall m :: k <= m < k + i - 1 ==> Fruitless(ConnectAt(gw.script, m))
      invariant timer.elapsed == old(timer.elapsed) + WaitTotal(i - 1)
      invariant gw.log == Append(old(gw.log), ConnectInstance(name), i - 1)
      invariant qr.None? && !thrown
      decreases MaxAttempts + 1 - i
    {
      var reply := gw.Connect(name);
      if reply.ConnectThrown? || QrOf(reply).Some? {
        PollSkipsFruitless(gw.script, k, i - 1);
        thrown := reply.ConnectThrown?;
        qr := QrOf(reply);
        return;
      }
      timer.Sleep(WaitAfter(i));
      i := i + 1;
    }
    PollSkipsFruitless(gw.script, k, MaxAttempts);
  }

  method ForceReset(gw: Gateway, timer: Timer, name: string) returns (qr: Option<string>, err: Option<ConnectError>)
    modifies gw, timer
    ensures var r := ResetSpec(name, gw.script, old(gw.used));
      && qr == r.qr && err == r.error
      && gw.used == r.used
      && gw.log == old(gw.log) + r.calls
      && timer.elapsed == old(timer.elapsed) + r.waited
  {
    var deleted := gw.Delete(name);
    if deleted.DeleteThrown? {
      return None, Some(GatewayUnreachable);
    }
    timer.Sleep(ResetGraceMs);
    var created := gw.Create(name);
    err := CreateError(created);
    if err.Some? {
      return None, err;
    }
    timer.Sleep(RecreateGraceMs);
    var final := gw.Connect(name);
    if final.ConnectThrown? {
      return None, Some(GatewayUnreachable);
    }
    qr := QrOf(final);
  }

  method ObtainQr(gw: Gateway, timer: Timer, name: string) returns (qr: Option<string>, err: Option<ConnectError>)
    modifies gw, timer
    ensures var o := ObtainSpec(name, gw.script, old(gw.used), old(gw.log));
      && qr == o.qr && err == o.error
      && gw.used == o.used
      && gw.log == o.log
      && timer.elapsed == old(timer.elapsed) + o.waited
  {
    var thrown;
    qr, thrown := PollForQr(gw, timer, name);
    if thrown {
      return None, Some(GatewayUnreachable);
    }
    err := None;
    if qr.None? {
      qr, err := ForceReset(gw, timer, name);
    }
  }

  method Connect(gw: Gateway, timer: Timer, store: Store, botId: Option<string>, now: int, upsertFails: bool)
    returns (resp: Response)
    modifies gw, timer, store
    ensures var run := ConnectSpec(botId, BotOf(old(store.State()), botId), gw.script, old(gw.used), old(gw.log), now);
      && resp == run.response
      && gw.used == run.used
      && gw.log == run.log
      && timer.elapsed == old(timer.elapsed) + run.waited
      && store.State() == StoreAfter(old(store.State()), run.upsert, upsertFails)
  {
    if !Present(botId) {
      return Failed(BotIdRequired);
    }
    var bot := store.FindBot(botId.value);
    if bot.None? {
      return Failed(BotLookupFailed);
    }
    var name := InstanceNameOf(botId.value);
    // The stored row is read, but nothing below depends on it.
    var existing := store.FindInstance(name);
    resp := Probe(gw, timer, store, botId.value, BotPhone(bot.value), now, upsertFails);
  }

  /** The request from the gateway probe on. */
  method Probe(gw: Gateway, timer: Timer, store: Store, botId: string, phone: Option<string>, now: int, upsertFails: bool)
    returns (resp: Response)
    modifies gw, timer, store
    ensures var run := ProbeSpec(botId, phone, gw.script, old(gw.used), old(gw.log), now);
      && resp == run.response
      && gw.used == run.used
      && gw.log == run.log
      && timer.elapsed == old(timer.elapsed) + run.waited
      && store.State() == StoreAfter(old(store.State()), run.upsert, upsertFails)
  {
    var name := InstanceNameOf(botId);
    var checked := gw.Fetch(name);
    if checked.FetchThrown? {
      return Failed(GatewayUnreachable);
    }
    if checked == FetchOk(Unparsable) {
      return Failed(MalformedReply);
    }
    var instanceState := ProbeState(checked, name);
    var shouldCreate := false;
    if instanceState.None? {
      shouldCreate := true;
    } else if EntryStatus(instanceState.value) == Some(OpenState) {
      return AlreadyConnected(name, OwnerPhone(instanceState.value, phone));
    }
    resp := Provision(gw, timer, store, botId, name, phone, shouldCreate, now, upsertFails);
  }

  /** The request from the create decision on. */
  method Provision(gw: Gateway, timer: Timer, store: Store, botId: string, name: string, phone: Option<string>,
                   shouldCreate: bool, now: int, upsertFails: bool) returns (resp: Response)
    modifies gw, timer, store
    ensures var run := ProvisionSpec(botId, name, phone, shouldCreate, gw.script, old(gw.used), old(gw.log), now);
      && resp == run.response
      && gw.used == run.used
      && gw.log == run.log
      && timer.elapsed == old(timer.elapsed) + run.waited
      && store.State() == StoreAfter(old(store.State()), run.upsert, upsertFails)
  {
    if shouldCreate {
      var created := gw.Create(name);
      var err := CreateError(created);
      if err.Some? {
        return Failed(err.value);
      }
    }
    var qr, err := ObtainQr(gw, timer, name);
    if err.Some? {
      return Failed(err.value);
    }

    var upsertData := Patch(Write(Some(botId)), Write(Connecting), Keep, Write(Some(now + QrLifetimeMs)), Keep, Keep, Keep);
    if qr.Some? {
      upsertData := upsertData.(qrCode := Write(qr));
    }
    if phone.Some? {
      upsertData := upsertData.(phoneNumber := Write(phone));
    }
    assert upsertData == UpsertPatch(botId, qr, phone, now);
    if !upsertFails {
      store.Upsert(name, upsertData);
    }
    resp := QrIssued(qr, name, phone, now + QrLifetimeMs);
  }
}
