/** The `delete-whatsapp-instance` function: given an instance name, it asks
    the gateway to delete the instance (whatever the gateway answers, the
    request goes on) and then marks the stored row disconnected, with no QR
    code and no phone number. A missing name or a failed store write
    answers 400. */
module Disconnect {
  import opened Common
  import opened Store
  import opened Gateway

  /** The parsed JSON body; `instanceName` as a string field. */
  datatype DeleteRequest = DeleteRequest(instanceName: Option<string>)

  datatype DeleteError = NameRequired | StoreWriteFailed

  datatype DeleteResponse = Deleted | DeleteFailed(error: DeleteError)

  function DeleteStatus(r: DeleteResponse): int {
    if r.Deleted? then 200 else 400
  }

  /** The row update: `disconnected`, and null QR code and phone number.
      The QR expiry, the connection time and the bot are not written. */
  const ResetPatch: Patch := Patch(Keep, Write(Disconnected), Write(None), Keep, Write(None), Keep, Keep)

  /** What a delete request leaves behind: the response, the store, and
      the gateway's cursor and call log. */
  datatype DeleteRun = DeleteRun(response: DeleteResponse, db: Db, used: Cursor, log: seq<Call>)

  /** The request as a function of the store and the gateway: `req` is
      `None` when the body does not parse or is null (both answer as a
      missing name does); any other body without an `instanceName` field
      reads as `DeleteRequest(None)`. `dbFails` is the store
      rejecting the update. The gateway's reply to the delete is read and
      dropped, so the script of replies plays no part: only the cursor
      and the log move. */
  function DisconnectSpec(db: Db, req: Option<DeleteRequest>, c: Cursor, log: seq<Call>,
                          dbFails: bool): DeleteRun {
    if req.None? || !Present(req.value.instanceName) then DeleteRun(DeleteFailed(NameRequired), db, c, log)
    else
      var name := req.value.instanceName.value;
      var c1 := c.(deletes := c.deletes + 1);
      var log1 := log + [DeleteInstance(name)];
      if dbFails then DeleteRun(DeleteFailed(StoreWriteFailed), db, c1, log1)
      else DeleteRun(Deleted, UpdateInstance(db, name, ResetPatch), c1, log1)
  }

  method Disconnect(gw: Gateway, store: Store, req: Option<DeleteRequest>, dbFails: bool)
    returns (response: DeleteResponse)
    modifies gw, store
    ensures var run := DisconnectSpec(old(store.State()), req, old(gw.used), old(gw.log), dbFails);
      && response == run.response
      && store.State() == run.db
      && gw.used == run.used
      && gw.log == run.log
  {
    if req.None? || !Present(req.value.instanceName) {
      return DeleteFailed(NameRequired);
    }
    var instanceName := req.value.instanceName.value;
    var deleteReply := gw.Delete(instanceName);
    if dbFails {
      return DeleteFailed(StoreWriteFailed);
    }
    store.Update(instanceName, ResetPatch);
    response := Deleted;
  }

  // ---------------------------------------------------------------------
  // Properties

  /** The request answers 400 exactly when the name is missing (or empty)
      or the store write fails, and then the store is unchanged; without a
      name the gateway is not called at all, and with one it receives
      exactly one delete for that name. */
  lemma DisconnectOutcome(db: Db, req: Option<DeleteRequest>, c: Cursor, log: seq<Call>, dbFails: bool)
    ensures var run := DisconnectSpec(db, req, c, log, dbFails);
      var named := req.Some? && Present(req.value.instanceName);
      && (DeleteStatus(run.response) == 400 <==> !named || dbFails)
      && (run.response.DeleteFailed? ==> run.db == db)
      && (run.response == DeleteFailed(NameRequired) <==> !named)
      && (!named ==> run.used == c && run.log == log)
      && (named ==> run.used == c.(deletes := c.deletes + 1) &&
                    run.log == log + [DeleteInstance(req.value.instanceName.value)])
  {
  }

  /** A successful delete leaves the named row disconnected with neither a
      QR code nor a phone number; its QR expiry, connection time, bot and
      id stay; every other row is untouched and the store invariant holds
      afterwards. A name with no row changes nothing. */
  lemma DisconnectEffect(db: Db, req: Option<DeleteRequest>, c: Cursor, log: seq<Call>)
    requires req.Some? && Present(req.value.instanceName)
    ensures var name := req.value.instanceName.value;
      var db' := DisconnectSpec(db, req, c, log, false).db;
      && db'.instances.Keys == db.instances.Keys
      && (name in db.instances ==>
            var r := db.instances[name];
            db'.instances[name] == r.(status := Disconnected, qrCode := None, phoneNumber := None))
      && (name !in db.instances ==> db' == db)
      && (forall n :: n in db.instances && n != name ==> db'.instances[n] == db.instances[n])
      && db'.conversations == db.conversations && db'.messages == db.messages
      && (Valid(db) ==> Valid(db'))
  {
    var name := req.value.instanceName.value;
    if Valid(db) {
      UpdateKeepsValid(db, name, ResetPatch);
    }
    if name !in db.instances {
      var db' := UpdateInstance(db, name, ResetPatch);
      assert db'.instances == db.instances;
    }
  }

  /** Deleting twice leaves the store as deleting once. */
  lemma DisconnectIdempotent(db: Db, req: Option<DeleteRequest>, c: Cursor, log: seq<Call>,
                             c': Cursor, log': seq<Call>, dbFails: bool)
    ensures var once := DisconnectSpec(db, req, c, log, false).db;
      DisconnectSpec(once, req, c', log', dbFails).db == once
  {
    if req.Some? && Present(req.value.instanceName) {
      UpdateInstanceIdempotent(db, req.value.instanceName.value, ResetPatch);
    }
  }
}
