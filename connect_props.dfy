/** Properties of the whole connect request, stated on `ConnectSpec` (and
    so, through the contract of `Connect.Connect`, on the imperative
    request): input validation, the early answer for an open session, when
    an instance row is written, which QR is returned, how the create step
    treats "already exists", and bounds on gateway calls and sleeping. */
module ConnectProps {
  import opened Common
  import opened Store
  import opened Gateway
  import opened Connect

  /** The calls the gateway answered between cursors `c` and `c'`. */
  function Made(c: Cursor, c': Cursor): int {
    (c'.fetches - c.fetches) + (c'.creates - c.creates) + (c'.connects - c.connects) + (c'.deletes - c.deletes)
  }

  /** `log'` is `log` followed by calls that all address instance `name`,
      one per call the gateway answered between cursors `c` and `c'`. */
  predicate Extends(log: seq<Call>, log': seq<Call>, name: string, c: Cursor, c': Cursor) {
    && |log| <= |log'|
    && |log'| - |log| == Made(c, c')
    && log'[..|log|] == log
    && forall j :: |log| <= j < |log'| ==> log'[j].instanceName == name
  }

  /** Extending by one call to `name`, then by more, is one extension. */
  lemma ExtendsAfter(log: seq<Call>, x: Call, log': seq<Call>, name: string, c: Cursor, c1: Cursor, c': Cursor)
    requires Extends(log + [x], log', name, c1, c')
    requires x.instanceName == name && Made(c, c1) == 1
    ensures Extends(log, log', name, c, c')
    ensures |log'| > |log| && log'[|log|] == x
  {
    assert log'[..|log|] == log'[..|log| + 1][..|log|];
    assert log'[|log|] == log'[..|log| + 1][|log|];
  }

  lemma {:induction false} AppendFacts(log: seq<Call>, x: Call, n: nat)
    ensures var l := Append(log, x, n);
      && |l| == |log| + n
      && l[..|log|] == log
      && forall j :: |log| <= j < |l| ==> l[j] == x
  {
    if n > 0 {
      AppendFacts(log, x, n - 1);
      var l := Append(log, x, n - 1);
      assert (l + [x])[..|log|] == l[..|log|];
    }
  }

  // ---------------------------------------------------------------------
  // Obtaining a QR: poll, then reset

  lemma ObtainLog(name: string, s: Script, c: Cursor, log: seq<Call>)
    ensures var o := ObtainSpec(name, s, c, log);
      && Extends(log, o.log, name, c, o.used)
      && |o.log| > |log| && o.log[|log|] == ConnectInstance(name)
  {
    var p := PollFrom(s, c.connects, 1);
    PollSpec(s, c.connects);
    var c1 := c.(connects := c.connects + p.attempts);
    var log1 := Append(log, ConnectInstance(name), p.attempts);
    AppendFacts(log, ConnectInstance(name), p.attempts);
    var o := ObtainSpec(name, s, c, log);
    if !p.thrown && p.qr.None? {
      var r := ResetSpec(name, s, c1);
      ResetShape(name, s, c1);
      var l := log1 + r.calls;
      assert o == Obtained(r.qr, r.error, r.used, l, WaitTotal(Sleeps(p)) + r.waited);
      assert l[..|log|] == log1[..|log|];
      assert l[|log|] == log1[|log|];
      forall j | |log| <= j < |l| ensures l[j].instanceName == name {
        if j >= |log1| {
          assert l[j] == r.calls[j - |log1|];
        }
      }
    } else {
      assert o.log == log1 && o.used == c1;
    }
  }

  lemma ObtainBudget(name: string, s: Script, c: Cursor, log: seq<Call>)
    ensures var o := ObtainSpec(name, s, c, log);
      && o.used.fetches == c.fetches
      && c.creates <= o.used.creates <= c.creates + 1
      && c.connects + 1 <= o.used.connects <= c.connects + MaxAttempts + 1
      && c.deletes <= o.used.deletes <= c.deletes + 1
      && (o.used.deletes == c.deletes + 1 <==>
          FruitlessRun(s, c.connects, MaxAttempts))
      && o.waited <= 34000
  {
    var p := PollFrom(s, c.connects, 1);
    PollSpec(s, c.connects);
    var c1 := c.(connects := c.connects + p.attempts);
    var o := ObtainSpec(name, s, c, log);
    if !p.thrown && p.qr.None? {
      var r := ResetSpec(name, s, c1);
      ResetShape(name, s, c1);
      assert o.used == r.used && o.waited == WaitTotal(Sleeps(p)) + r.waited;
    } else {
      assert o.used == c1 && o.waited == WaitTotal(Sleeps(p));
    }
  }

  lemma ObtainFirstQr(name: string, s: Script, c: Cursor, log: seq<Call>)
    ensures var o := ObtainSpec(name, s, c, log);
      && (o.error.None? ==> o.qr == FirstQr(s, c.connects, MaxAttempts + 1))
      && (o.error.Some? ==> o.qr.None? && (o.error.value == GatewayUnreachable || o.error.value.CreateFailed?))
  {
    var p := PollFrom(s, c.connects, 1);
    PollSpec(s, c.connects);
    PollFirstQr(s, c.connects, 1);
    var c1 := c.(connects := c.connects + p.attempts);
    var o := ObtainSpec(name, s, c, log);
    if !p.thrown && p.qr.None? {
      var r := ResetSpec(name, s, c1);
      ResetShape(name, s, c1);
      assert o.qr == r.qr && o.error == r.error;
    } else {
      assert o.qr == p.qr && o.error == (if p.thrown then Some(GatewayUnreachable) else None);
    }
  }

  // ---------------------------------------------------------------------
  // From the create decision on

  lemma ProvisionLog(botId: string, name: string, phone: Option<string>, create: bool,
                     s: Script, c: Cursor, log: seq<Call>, now: int)
    ensures var run := ProvisionSpec(botId, name, phone, create, s, c, log, now);
      && Extends(log, run.log, name, c, run.used)
      && |run.log| > |log|
      && run.log[|log|] == (if create then CreateCall(name) else ConnectInstance(name))
  {
    var run := ProvisionSpec(botId, name, phone, create, s, c, log, now);
    var c1 := if create then c.(creates := c.creates + 1) else c;
    var log1 := if create then log + [CreateCall(name)] else log;
    if create && CreateError(CreateAt(s, c.creates)).Some? {
      assert run.log == log1 && run.used == c1;
      assert log1[..|log|] == log;
    } else {
      var o := ObtainSpec(name, s, c1, log1);
      assert run.log == o.log && run.used == o.used;
      ObtainLog(name, s, c1, log1);
      if create {
        ExtendsAfter(log, CreateCall(name), o.log, name, c, c1, o.used);
      }
    }
  }

  lemma ProvisionBudget(botId: string, name: string, phone: Option<string>, create: bool,
                        s: Script, c: Cursor, log: seq<Call>, now: int)
    ensures var run := ProvisionSpec(botId, name, phone, create, s, c, log, now);
      && run.used.fetches == c.fetches
      && c.creates <= run.used.creates <= c.creates + 2
      && c.connects <= run.used.connects <= c.connects + MaxAttempts + 1
      && c.deletes <= run.used.deletes <= c.deletes + 1
      && (run.used.deletes == c.deletes + 1 <==>
          && run.used.connects > c.connects
          && FruitlessRun(s, c.connects, MaxAttempts))
      && run.waited <= 34000
  {
    var c1 := if create then c.(creates := c.creates + 1) else c;
    var log1 := if create then log + [CreateCall(name)] else log;
    var run := ProvisionSpec(botId, name, phone, create, s, c, log, now);
    if !(create && CreateError(CreateAt(s, c.creates)).Some?) {
      ObtainBudget(name, s, c1, log1);
      var o := ObtainSpec(name, s, c1, log1);
      assert run.used == o.used && run.waited == o.waited;
    } else {
      assert run.used == c1 && run.waited == 0;
    }
  }

  lemma ProvisionOutcome(botId: string, name: string, phone: Option<string>, create: bool,
                         s: Script, c: Cursor, log: seq<Call>, now: int)
    ensures var run := ProvisionSpec(botId, name, phone, create, s, c, log, now);
      && (run.response.Failed? || run.response.QrIssued?)
      && (run.upsert.Some? <==> run.response.QrIssued?)
      && (run.response.QrIssued? ==>
          && run.response == QrIssued(FirstQr(s, c.connects, MaxAttempts + 1), name, phone, now + QrLifetimeMs)
          && run.upsert == Some(Upsert(name, UpsertPatch(botId, run.response.qrCode, phone, now))))
      && (run.response.Failed? ==>
          run.response.error == GatewayUnreachable || run.response.error.CreateFailed?)
      && (create && CreateError(CreateAt(s, c.creates)).Some? ==>
          run == Run(Failed(CreateError(CreateAt(s, c.creates)).value), None,
                     c.(creates := c.creates + 1), log + [CreateCall(name)], 0))
  {
    var c1 := if create then c.(creates := c.creates + 1) else c;
    var log1 := if create then log + [CreateCall(name)] else log;
    var run := ProvisionSpec(botId, name, phone, create, s, c, log, now);
    if !(create && CreateError(CreateAt(s, c.creates)).Some?) {
      ObtainFirstQr(name, s, c1, log1);
      var o := ObtainSpec(name, s, c1, log1);
      assert run == if o.error.Some? then Run(Failed(o.error.value), None, o.used, o.log, o.waited)
                    else Persist(botId, name, phone, o.qr, o.used, o.log, o.waited, now);
    }
  }

  // ---------------------------------------------------------------------
  // From the gateway probe on

  lemma ProbeLog(botId: string, phone: Option<string>, s: Script, c: Cursor, log: seq<Call>, now: int)
    ensures var run := ProbeSpec(botId, phone, s, c, log, now);
      var name := InstanceNameOf(botId);
      var reply := FetchAt(s, c.fetches);
      && Extends(log, run.log, name, c, run.used)
      && |run.log| > |log| && run.log[|log|] == FetchInstances(name)
      && (!reply.FetchThrown? && reply != FetchOk(Unparsable) && !SessionOpen(reply, name) ==>
          && |run.log| > |log| + 1
          && run.log[|log| + 1] == (if ProbeState(reply, name).None? then CreateCall(name) else ConnectInstance(name)))
  {
    var name := InstanceNameOf(botId);
    var reply := FetchAt(s, c.fetches);
    var c1 := c.(fetches := c.fetches + 1);
    var log1 := log + [FetchInstances(name)];
    var run := ProbeSpec(botId, phone, s, c, log, now);
    if reply.FetchThrown? || reply == FetchOk(Unparsable) || SessionOpen(reply, name) {
      assert run.log == log1 && run.used == c1;
      assert log1[..|log|] == log && log1[|log|] == FetchInstances(name);
    } else {
      var create := ProbeState(reply, name).None?;
      var pr := ProvisionSpec(botId, name, phone, create, s, c1, log1, now);
      assert run.log == pr.log && run.used == pr.used;
      ProvisionLog(botId, name, phone, create, s, c1, log1, now);
      ExtendsAfter(log, FetchInstances(name), pr.log, name, c, c1, pr.used);
    }
  }

  lemma ProbeBudget(botId: string, phone: Option<string>, s: Script, c: Cursor, log: seq<Call>, now: int)
    ensures var run := ProbeSpec(botId, phone, s, c, log, now);
      && run.used.fetches == c.fetches + 1
      && c.creates <= run.used.creates <= c.creates + 2
      && c.connects <= run.used.connects <= c.connects + MaxAttempts + 1
      && c.deletes <= run.used.deletes <= c.deletes + 1
      && run.waited <= 34000
  {
    var name := InstanceNameOf(botId);
    var reply := FetchAt(s, c.fetches);
    var run := ProbeSpec(botId, phone, s, c, log, now);
    if !reply.FetchThrown? && reply != FetchOk(Unparsable) && !SessionOpen(reply, name) {
      var create := ProbeState(reply, name).None?;
      var c1 := c.(fetches := c.fetches + 1);
      var log1 := log + [FetchInstances(name)];
      var pr := ProvisionSpec(botId, name, phone, create, s, c1, log1, now);
      assert run.used == pr.used && run.waited == pr.waited;
      ProvisionBudget(botId, name, phone, create, s, c1, log1, now);
    } else {
      assert run.used == c.(fetches := c.fetches + 1) && run.waited == 0;
    }
  }

  lemma ProbeResets(botId: string, phone: Option<string>, s: Script, c: Cursor, log: seq<Call>, now: int)
    ensures var run := ProbeSpec(botId, phone, s, c, log, now);
      run.used.deletes == c.deletes + 1 <==> run.used.connects > c.connects && FruitlessRun(s, c.connects, MaxAttempts)
  {
    var name := InstanceNameOf(botId);
    var reply := FetchAt(s, c.fetches);
    var run := ProbeSpec(botId, phone, s, c, log, now);
    if !reply.FetchThrown? && reply != FetchOk(Unparsable) && !SessionOpen(reply, name) {
      var create := ProbeState(reply, name).None?;
      var c1 := c.(fetches := c.fetches + 1);
      var log1 := log + [FetchInstances(name)];
      var pr := ProvisionSpec(botId, name, phone, create, s, c1, log1, now);
      assert run.used == pr.used;
      ProvisionBudget(botId, name, phone, create, s, c1, log1, now);
      assert c1.connects == c.connects && c1.deletes == c.deletes;
    } else {
      assert run.used == c.(fetches := c.fetches + 1);
    }
  }

  lemma ProbeOutcome(botId: string, phone: Option<string>, s: Script, c: Cursor, log: seq<Call>, now: int)
    ensures var run := ProbeSpec(botId, phone, s, c, log, now);
      var name := InstanceNameOf(botId);
      var reply := FetchAt(s, c.fetches);
      && (run.response.Failed? ==> run.response.error != BotIdRequired && run.response.error != BotLookupFailed)
      && (run.response.AlreadyConnected? <==> SessionOpen(reply, name))
      && (run.response.AlreadyConnected? ==>
          && run.response == AlreadyConnected(name, OwnerPhone(ProbeState(reply, name).value, phone))
          && run.upsert.None? && run.log == log + [FetchInstances(name)]
          && run.used == c.(fetches := c.fetches + 1) && run.waited == 0)
      && (run.upsert.Some? <==> run.response.QrIssued?)
      && (run.response.QrIssued? ==>
          && run.response == QrIssued(FirstQr(s, c.connects, MaxAttempts + 1), name, phone, now + QrLifetimeMs)
          && run.upsert == Some(Upsert(name, UpsertPatch(botId, run.response.qrCode, phone, now))))
      && (reply.FetchThrown? ==> run.response == Failed(GatewayUnreachable))
      && (reply == FetchOk(Unparsable) ==> run.response == Failed(MalformedReply))
      && (reply.FetchThrown? || reply == FetchOk(Unparsable) ==>
          run.upsert.None? && run.log == log + [FetchInstances(name)])
      && (run.response == Failed(MalformedReply) ==> reply == FetchOk(Unparsable))
      && (var err := CreateError(CreateAt(s, c.creates));
          !reply.FetchThrown? && reply != FetchOk(Unparsable) && ProbeState(reply, name).None? && err.Some? ==>
            && run.response == Failed(err.value)
            && run.upsert.None?
            && run.log == log + [FetchInstances(name), CreateCall(name)])
  {
    var name := InstanceNameOf(botId);
    var reply := FetchAt(s, c.fetches);
    var c1 := c.(fetches := c.fetches + 1);
    var log1 := log + [FetchInstances(name)];
    var run := ProbeSpec(botId, phone, s, c, log, now);
    if !reply.FetchThrown? && reply != FetchOk(Unparsable) && !SessionOpen(reply, name) {
      var create := ProbeState(reply, name).None?;
      assert run == ProvisionSpec(botId, name, phone, create, s, c1, log1, now);
      ProvisionOutcome(botId, name, phone, create, s, c1, log1, now);
    } else if reply.FetchThrown? {
      assert run == Run(Failed(GatewayUnreachable), None, c1, log1, 0);
    } else if reply == FetchOk(Unparsable) {
      assert run == Run(Failed(MalformedReply), None, c1, log1, 0);
    } else {
      assert run == Run(AlreadyConnected(name, OwnerPhone(ProbeState(reply, name).value, phone)), None, c1, log1, 0);
    }
  }

  // ---------------------------------------------------------------------
  // The whole request

  /** A missing or empty `botId` is answered 400 before anything else; a
      bot that cannot be looked up likewise; in both cases the gateway is
      not called, nothing is written and nothing waits. No later step
      fails with either of these errors. */
  lemma ValidationComesFirst(botId: Option<string>, bot: Option<BotConfig>, s: Script, c: Cursor,
                             log: seq<Call>, now: int)
    ensures var run := ConnectSpec(botId, bot, s, c, log, now);
      && (run.response == Failed(BotIdRequired) <==> !Present(botId))
      && (run.response == Failed(BotLookupFailed) <==> Present(botId) && bot.None?)
      && (!Present(botId) || bot.None? ==> run.upsert.None? && run.used == c && run.log == log && run.waited == 0)
  {
    if Present(botId) && bot.Some? {
      ProbeOutcome(botId.value, BotPhone(bot.value), s, c, log, now);
    }
  }

  /** The request answers "already connected" exactly when the bot is
      valid and the gateway reports the instance's session as open; it
      then has made only the fetch, writes nothing, and reports the owner's
      number (domain stripped) or else the bot's number. */
  lemma AlreadyConnectedIff(botId: Option<string>, bot: Option<BotConfig>, s: Script, c: Cursor,
                            log: seq<Call>, now: int)
    ensures var run := ConnectSpec(botId, bot, s, c, log, now);
      run.response.AlreadyConnected? <==>
        Present(botId) && bot.Some? && SessionOpen(FetchAt(s, c.fetches), InstanceNameOf(botId.value))
    ensures var run := ConnectSpec(botId, bot, s, c, log, now);
      run.response.AlreadyConnected? ==>
        var name := InstanceNameOf(botId.value);
        && run.response == AlreadyConnected(name, OwnerPhone(ProbeState(FetchAt(s, c.fetches), name).value,
                                                              BotPhone(bot.value)))
        && run.upsert.None?
        && run.log == log + [FetchInstances(name)]
        && run.used == c.(fetches := c.fetches + 1)
        && run.waited == 0
  {
    if Present(botId) && bot.Some? {
      ProbeOutcome(botId.value, BotPhone(bot.value), s, c, log, now);
    }
  }

  /** A rejected `fetchInstances` answers 400 (gateway unreachable) and a
      body that is not JSON answers 400 (malformed reply); either way after
      that one call and with nothing written. */
  lemma ProbeFailures(botId: Option<string>, bot: Option<BotConfig>, s: Script, c: Cursor,
                      log: seq<Call>, now: int)
    requires Present(botId) && bot.Some?
    ensures var run := ConnectSpec(botId, bot, s, c, log, now);
      var reply := FetchAt(s, c.fetches);
      && (reply.FetchThrown? ==> run.response == Failed(GatewayUnreachable))
      && (reply == FetchOk(Unparsable) ==> run.response == Failed(MalformedReply))
      && (reply.FetchThrown? || reply == FetchOk(Unparsable) ==>
          run.upsert.None? && run.log == log + [FetchInstances(InstanceNameOf(botId.value))])
      && (run.response == Failed(MalformedReply) ==> reply == FetchOk(Unparsable))
  {
    ProbeOutcome(botId.value, BotPhone(bot.value), s, c, log, now);
  }

  /** Past the probe, the instance is created exactly when the gateway
      returned no entry for it (a non-OK reply, a non-array body or an
      empty array); the create comes right after the fetch. A create reply
      that rejects, or that is an error without "already exists", answers
      400 with nothing written and no further call. */
  lemma CreateOnlyWhenUnknown(botId: Option<string>, bot: Option<BotConfig>, s: Script, c: Cursor,
                              log: seq<Call>, now: int)
    requires Present(botId) && bot.Some?
    requires var reply := FetchAt(s, c.fetches);
      !reply.FetchThrown? && reply != FetchOk(Unparsable) && !SessionOpen(reply, InstanceNameOf(botId.value))
    ensures var run := ConnectSpec(botId, bot, s, c, log, now);
      var name := InstanceNameOf(botId.value);
      && |run.log| > |log| + 1
      && (run.log[|log| + 1] == CreateCall(name) <==> ProbeState(FetchAt(s, c.fetches), name).None?)
    ensures var run := ConnectSpec(botId, bot, s, c, log, now);
      var name := InstanceNameOf(botId.value);
      var err := CreateError(CreateAt(s, c.creates));
      ProbeState(FetchAt(s, c.fetches), name).None? && err.Some? ==>
        && run.response == Failed(err.value)
        && run.upsert.None?
        && run.log == log + [FetchInstances(name), CreateCall(name)]
  {
    ProbeLog(botId.value, BotPhone(bot.value), s, c, log, now);
    ProbeOutcome(botId.value, BotPhone(bot.value), s, c, log, now);
  }

  /** An instance row is written exactly when the request answers with a
      QR code (possibly null). The QR returned is the first one among the
      ten poll replies and the reply to the connect after the reset; the
      row and the answer carry the instance name, the bot's number and an
      expiry five minutes from now. */
  lemma UpsertIffQrIssued(botId: Option<string>, bot: Option<BotConfig>, s: Script, c: Cursor,
                          log: seq<Call>, now: int)
    ensures var run := ConnectSpec(botId, bot, s, c, log, now);
      run.upsert.Some? <==> run.response.QrIssued?
    ensures var run := ConnectSpec(botId, bot, s, c, log, now);
      run.response.QrIssued? ==>
        && Present(botId) && bot.Some?
        && var name := InstanceNameOf(botId.value);
           && run.response == QrIssued(FirstQr(s, c.connects, MaxAttempts + 1), name, BotPhone(bot.value),
                                       now + QrLifetimeMs)
           && run.upsert == Some(Upsert(name, UpsertPatch(botId.value, run.response.qrCode, BotPhone(bot.value), now)))
  {
    if Present(botId) && bot.Some? {
      ProbeOutcome(botId.value, BotPhone(bot.value), s, c, log, now);
    }
  }

  /** Every call the request makes addresses its own instance, and the
      request makes at most one fetch, two creates, eleven connects and
      one delete. */
  lemma CallBudget(botId: Option<string>, bot: Option<BotConfig>, s: Script, c: Cursor,
                   log: seq<Call>, now: int)
    requires Present(botId)
    ensures var run := ConnectSpec(botId, bot, s, c, log, now);
      && Extends(log, run.log, InstanceNameOf(botId.value), c, run.used)
      && c.fetches <= run.used.fetches <= c.fetches + 1
      && c.creates <= run.used.creates <= c.creates + 2
      && c.connects <= run.used.connects <= c.connects + MaxAttempts + 1
      && c.deletes <= run.used.deletes <= c.deletes + 1
  {
    if bot.Some? {
      ProbeLog(botId.value, BotPhone(bot.value), s, c, log, now);
      ProbeBudget(botId.value, BotPhone(bot.value), s, c, log, now);
    }
  }

  /** The delete-and-recreate fallback runs exactly when the poll ran and
      all ten of its replies were fruitless (OK, but without a QR). */
  lemma ResetOnlyAfterTenFruitless(botId: Option<string>, bot: Option<BotConfig>, s: Script, c: Cursor,
                                   log: seq<Call>, now: int)
    ensures var run := ConnectSpec(botId, bot, s, c, log, now);
      run.used.deletes == c.deletes + 1 <==>
        && run.used.connects > c.connects
        && FruitlessRun(s, c.connects, MaxAttempts)
  {
    if Present(botId) && bot.Some? {
      ProbeResets(botId.value, BotPhone(bot.value), s, c, log, now);
    }
  }

  /** The request sleeps at most 34 seconds: 27 in the poll and 7 in the
      reset. */
  lemma WaitBound(botId: Option<string>, bot: Option<BotConfig>, s: Script, c: Cursor,
                  log: seq<Call>, now: int)
    ensures ConnectSpec(botId, bot, s, c, log, now).waited <= 34000
  {
    if Present(botId) && bot.Some? {
      ProbeBudget(botId.value, BotPhone(bot.value), s, c, log, now);
    }
  }

  /** The store invariant survives the request, whether or not the upsert
      is rejected. */
  lemma ConnectKeepsStoreValid(db: Db, botId: Option<string>, s: Script, c: Cursor, log: seq<Call>,
                               now: int, upsertFails: bool)
    requires Valid(db)
    ensures var run := ConnectSpec(botId, BotOf(db, botId), s, c, log, now);
      Valid(StoreAfter(db, run.upsert, upsertFails))
  {
    var run := ConnectSpec(botId, BotOf(db, botId), s, c, log, now);
    UpsertIffQrIssued(botId, BotOf(db, botId), s, c, log, now);
    if run.upsert.Some? && !upsertFails {
      var u := run.upsert.value;
      UpsertKeepsValid(db, u.instanceName, u.patch);
    }
  }

  // ---------------------------------------------------------------------
  // The create reply

  lemma {:induction false} PollFromSameConnects(s: Script, s': Script, k: nat, i: nat)
    requires s.connects == s'.connects
    requires 1 <= i <= MaxAttempts + 1
    ensures PollFrom(s, k, i) == PollFrom(s', k, i)
    decreases MaxAttempts + 1 - i
  {
    assert ConnectAt(s, k + i - 1) == ConnectAt(s', k + i - 1);
    if i <= MaxAttempts {
      PollFromSameConnects(s, s', k, i + 1);
    }
  }

  /** Scripts `s` and `s'` agree on everything but the create replies,
      and those mean the same to the connect flow. */
  predicate SameButCreateText(s: Script, s': Script) {
    && s'.fetches == s.fetches && s'.connects == s.connects && s'.deletes == s.deletes
    && |s'.creates| == |s.creates|
    && forall k :: 0 <= k < |s.creates| ==> CreateError(s.creates[k]) == CreateError(s'.creates[k])
  }

  lemma CreateErrorAt(s: Script, s': Script, k: nat)
    requires SameButCreateText(s, s')
    ensures CreateError(CreateAt(s, k)) == CreateError(CreateAt(s', k))
  {
    if k < |s.creates| {
      assert CreateError(s.creates[k]) == CreateError(s'.creates[k]);
    }
  }

  lemma ObtainSameButCreateText(name: string, s: Script, s': Script, c: Cursor, log: seq<Call>)
    requires SameButCreateText(s, s')
    ensures ObtainSpec(name, s, c, log) == ObtainSpec(name, s', c, log)
  {
    PollFromSameConnects(s, s', c.connects, 1);
    var p := PollFrom(s, c.connects, 1);
    if !p.thrown && p.qr.None? {
      var c1 := c.(connects := c.connects + p.attempts);
      CreateErrorAt(s, s', c.creates);
      assert ResetSpec(name, s, c1) == ResetSpec(name, s', c1);
    }
  }

  lemma ProvisionSameButCreateText(botId: string, name: string, phone: Option<string>, create: bool,
                                   s: Script, s': Script, c: Cursor, log: seq<Call>, now: int)
    requires SameButCreateText(s, s')
    ensures ProvisionSpec(botId, name, phone, create, s, c, log, now) ==
            ProvisionSpec(botId, name, phone, create, s', c, log, now)
  {
    CreateErrorAt(s, s', c.creates);
    var c1 := if create then c.(creates := c.creates + 1) else c;
    var log1 := if create then log + [CreateCall(name)] else log;
    ObtainSameButCreateText(name, s, s', c1, log1);
  }

  /** Two scripts that differ only in create replies with the same
      meaning (`CreateError`) lead to the same request. */
  lemma CreateRepliesMatterOnlyByError(botId: Option<string>, bot: Option<BotConfig>, s: Script, s': Script,
                                       c: Cursor, log: seq<Call>, now: int)
    requires SameButCreateText(s, s')
    ensures ConnectSpec(botId, bot, s, c, log, now) == ConnectSpec(botId, bot, s', c, log, now)
  {
    if Present(botId) && bot.Some? {
      var name := InstanceNameOf(botId.value);
      var reply := FetchAt(s, c.fetches);
      assert reply == FetchAt(s', c.fetches);
      if !reply.FetchThrown? && reply != FetchOk(Unparsable) && !SessionOpen(reply, name) {
        var create := ProbeState(reply, name).None?;
        var c1 := c.(fetches := c.fetches + 1);
        var log1 := log + [FetchInstances(name)];
        var phone := BotPhone(bot.value);
        ProvisionSameButCreateText(botId.value, name, phone, create, s, s', c1, log1, now);
        assert ConnectSpec(botId, bot, s, c, log, now) == ProvisionSpec(botId.value, name, phone, create, s, c1, log1, now);
        assert ConnectSpec(botId, bot, s', c, log, now) == ProvisionSpec(botId.value, name, phone, create, s', c1, log1, now);
      }
    }
  }

  /** A create reply that is an error whose text contains "already exists"
      has the same effect as a successful create. */
  lemma AlreadyExistsIsBenign(botId: Option<string>, bot: Option<BotConfig>, s: Script, c: Cursor,
                              log: seq<Call>, now: int, k: nat)
    requires k < |s.creates| && s.creates[k].CreateNotOk? && Contains(s.creates[k].text, AlreadyExists)
    ensures ConnectSpec(botId, bot, s, c, log, now) ==
            ConnectSpec(botId, bot, s.(creates := s.creates[k := CreateOk]), c, log, now)
  {
    var s' := s.(creates := s.creates[k := CreateOk]);
    assert CreateError(s.creates[k]).None?;
    CreateRepliesMatterOnlyByError(botId, bot, s, s', c, log, now);
  }

  // ---------------------------------------------------------------------
  // A scenario

  /** Without a gateway failure a QR is obtained: when the connect calls
      the poll and the reset can make all answer, every create the request
      can make is benign and the delete answers, the poll loop either finds
      a QR or ends with ten fruitless attempts and the reset's final
      connect answers, so no error is raised. */
  lemma ObtainSucceeds(name: string, s: Script, c: Cursor, log: seq<Call>)
    requires Answered(s, c.connects, MaxAttempts + 1)
    requires !DeleteAt(s, c.deletes).DeleteThrown?
    requires CreateError(CreateAt(s, c.creates)).None?
    ensures ObtainSpec(name, s, c, log).error.None?
  {
    PollSpec(s, c.connects);
    PollFromBounds(s, c.connects, 1);
  }

  /** Provisioning with a benign create (when one is made) and a
      cooperative gateway persists the first QR of the eleven replies. */
  lemma ProvisionSucceeds(botId: string, name: string, phone: Option<string>, create: bool,
                          s: Script, c: Cursor, log: seq<Call>, now: int)
    requires Answered(s, c.connects, MaxAttempts + 1)
    requires CreateError(CreateAt(s, c.creates)).None? && CreateError(CreateAt(s, c.creates + 1)).None?
    requires !DeleteAt(s, c.deletes).DeleteThrown?
    ensures var run := ProvisionSpec(botId, name, phone, create, s, c, log, now);
      var qr := FirstQr(s, c.connects, MaxAttempts + 1);
      && run.response == QrIssued(qr, name, phone, now + QrLifetimeMs)
      && run.upsert == Some(Upsert(name, UpsertPatch(botId, qr, phone, now)))
  {
    var c1 := if create then c.(creates := c.creates + 1) else c;
    var log1 := if create then log + [CreateCall(name)] else log;
    ObtainSucceeds(name, s, c1, log1);
    ObtainFirstQr(name, s, c1, log1);
  }

  /** An instance that is not an open session is answered with a QR
      response and upserted whenever the gateway does not fail the request:
      the fetch answers with a list, the eleven connect calls the request
      can make all answer, both creates it can make are benign and the
      delete answers. The QR is absent, and the request still succeeds,
      exactly when none of those eleven replies carries one. */
  lemma QrIssuedUnlessGatewayFails(botId: Option<string>, bot: Option<BotConfig>, s: Script, c: Cursor,
                                   log: seq<Call>, now: int)
    requires Present(botId) && bot.Some?
    requires var reply := FetchAt(s, c.fetches);
      !reply.FetchThrown? && reply != FetchOk(Unparsable) && !SessionOpen(reply, InstanceNameOf(botId.value))
    requires Answered(s, c.connects, MaxAttempts + 1)
    requires CreateError(CreateAt(s, c.creates)).None? && CreateError(CreateAt(s, c.creates + 1)).None?
    requires !DeleteAt(s, c.deletes).DeleteThrown?
    ensures var run := ConnectSpec(botId, bot, s, c, log, now);
      var name := InstanceNameOf(botId.value);
      var phone := BotPhone(bot.value);
      && run.response == QrIssued(FirstQr(s, c.connects, MaxAttempts + 1), name, phone, now + QrLifetimeMs)
      && run.upsert == Some(Upsert(name, UpsertPatch(botId.value, run.response.qrCode, phone, now)))
      && (run.response.qrCode.None? <==> FruitlessRun(s, c.connects, MaxAttempts + 1))
  {
    var name := InstanceNameOf(botId.value);
    var phone := BotPhone(bot.value);
    var reply := FetchAt(s, c.fetches);
    var c1 := c.(fetches := c.fetches + 1);
    var log1 := log + [FetchInstances(name)];
    var create := ProbeState(reply, name).None?;
    var run := ConnectSpec(botId, bot, s, c, log, now);
    var probe := ProbeSpec(botId.value, phone, s, c, log, now);
    var pr := ProvisionSpec(botId.value, name, phone, create, s, c1, log1, now);
    assert run.response == probe.response && run.upsert == probe.upsert;
    assert probe.response == pr.response && probe.upsert == pr.upsert;
    ProvisionSucceeds(botId.value, name, phone, create, s, c1, log1, now);
    FirstQrNone(s, c.connects, MaxAttempts + 1);
    FruitlessIffNoQr(s, c.connects, MaxAttempts + 1);
  }

  /** A gateway that never hands out a QR: the request still answers 200,
      with a null QR, after ten polls, the reset, and 34 seconds of
      sleeping, and it records the instance as connecting. */
  lemma QrFailureStillSucceeds(now: int)
    ensures var blank := ConnectOk(QrData(None, None, None));
      var s := Script([FetchOk(EntryArray([]))], [CreateOk, CreateOk], seq(11, _ => blank), [DeleteOk]);
      var run := ConnectSpec(Some("b"), Some(BotConfig(None)), s, Cursor(0, 0, 0, 0), [], now);
      && run.response == QrIssued(None, "bot-b", None, now + QrLifetimeMs)
      && run.upsert == Some(Upsert("bot-b", UpsertPatch("b", None, None, now)))
      && run.used == Cursor(1, 2, 11, 1)
      && run.waited == 34000
  {
    var blank := ConnectOk(QrData(None, None, None));
    var s := Script([FetchOk(EntryArray([]))], [CreateOk, CreateOk], seq(11, _ => blank), [DeleteOk]);
    assert FruitlessRun(s, 0, MaxAttempts);
    PollSpec(s, 0);
    var p := PollFrom(s, 0, 1);
    assert p == PollOutcome(None, false, MaxAttempts);
    assert WaitTotal(Sleeps(p)) == 27000;
  }
}
