/** The account service as an object (internal/platform/account): every method reads, checks and saves
    rows in the source's order and is proved to be the transaction that `Accounts` gives for it. */
module AccountService {
  import opened Common
  import opened Accounts
  import opened AccountRuns

  class Service {
    const cfg: Config
    var db: Db

    constructor (c: Config)
      ensures cfg == c && db == Db(map[], map[]) && GuestsOk(db)
    {
      cfg, db := c, Db(map[], map[]);
    }

    method HasIdentity(uid: Uid) returns (bound: bool)
      ensures bound <==> IsBound(db, uid)
    {
      bound := exists name | name in db.identities :: db.identities[name].uid == uid;
    }

    /** sessionInTx: locks the account and compares the whole token. */
    method Session(uid: Uid, token: Token) returns (r: Result<Account, AccountError>)
      ensures r == if uid in db.accounts && db.accounts[uid].tokenHash == cfg.hash(token) then Ok(db.accounts[uid]) else Err(Invalid)
    {
      if uid !in db.accounts { return Err(Invalid); }
      var a := db.accounts[uid];
      if a.tokenHash != cfg.hash(token) { return Err(Invalid); }
      return Ok(a);
    }

    method ActiveSession(uid: Uid, token: Token, now: int) returns (r: Result<Account, AccountError>)
      ensures r == match SessionError(cfg, db, uid, token, now) case None => Ok(db.accounts[uid]) case Some(e) => Err(e)
    {
      r := Session(uid, token);
      if r.Err? { return r; }
      var a := r.value;
      if !a.active || a.expiresAt.None? { return Err(Invalid); }
      if !(now < a.expiresAt.value) { return Err(Expired); }
      return Ok(a);
    }

    method Authenticate(token: Token, device: string, now: int, later: int) returns (r: Result<(Uid, int), AccountError>)
      modifies this
      ensures if ValidDevice(device) then Reply(db, r) == AuthenticateTx(cfg, old(db), token, device, now, later)
              else r == Err(BadRequest) && db == old(db)
    {
      if !ValidDevice(device) { return Err(BadRequest); }
      var uid := ParseToken(token);
      if uid.None? { return Err(Invalid); }
      var session := ActiveSession(uid.value, token, now);
      if session.Err? { return Err(session.error); }
      var a := session.value;
      if device != "" { a := a.(deviceId := device); }
      var deadline := later + cfg.ttl;
      if deadline > a.expiresAt.value { a := a.(expiresAt := Some(deadline)); }
      db := db.(accounts := db.accounts[uid.value := a]);
      return Ok((uid.value, a.expiresAt.value));
    }

    method Logout(token: Token)
      modifies this
      ensures db == LogoutTx(cfg, old(db), token)
    {
      var uid := ParseToken(token);
      if uid.None? { return; }
      var session := Session(uid.value, token);
      if session.Err? { return; }
      db := db.(accounts := db.accounts[uid.value := session.value.(tokenHash := "", expiresAt := None)]);
    }

    /** guestAccountInTx. */
    method GuestAccount(uid: Uid, device: string) returns (r: Result<Account, AccountError>)
      ensures r == match GuestError(db, uid, device) case None => Ok(db.accounts[uid]) case Some(e) => Err(e)
    {
      if uid !in db.accounts { return Err(Invalid); }
      var a := db.accounts[uid];
      if a.guestDevice.None? || a.guestDevice.value != device { return Err(GuestDeviceChanged); }
      if !a.active { return Err(Invalid); }
      var bound := HasIdentity(uid);
      if bound { return Err(Invalid); }
      return Ok(a);
    }

    /** The transaction of Login; `token` has just been drawn. */
    method CommitLogin(uid: Uid, device: string, guest: bool, token: Token, now: int) returns (r: Result<int, AccountError>)
      modifies this
      ensures Reply(db, r) == LoginTx(cfg, old(db), uid, device, guest, token, now)
    {
      var a;
      if guest {
        var found := GuestAccount(uid, device);
        if found.Err? && found.error == GuestDeviceChanged { return Err(Invalid); }
        if found.Err? { return Err(found.error); }
        a := found.value;
      } else {
        if uid !in db.accounts { return Err(Invalid); }
        a := db.accounts[uid];
      }
      if !a.active { return Err(Invalid); }
      if device != "" { a := a.(deviceId := device); }
      var expiry := now + cfg.ttl;
      a := a.(tokenHash := cfg.hash(token), expiresAt := Some(expiry));
      db := db.(accounts := db.accounts[uid := a]);
      return Ok(expiry);
    }

    /** Register with an account name: with no session a new account, otherwise the guest's own. A
        failed transaction leaves no trace. */
    method RegisterNamed(session: Option<Token>, newUid: Uid, name: string, passwordHash: string, device: string, now: int)
      returns (r: Result<Uid, AccountError>)
      modifies this
      ensures Reply(db, r) == if session.Some? then BindTx(cfg, old(db), session.value, name, passwordHash, device, now)
                              else CreateFormalTx(old(db), newUid, name, passwordHash, device)
    {
      var before := db;
      var uid := newUid;
      var a := Account(true, "", None, device, None);
      if session.Some? {
        var parsed := ParseToken(session.value);
        if parsed.None? { return Err(Invalid); }
        uid := parsed.value;
        var current := ActiveSession(uid, session.value, now);
        if current.Err? { return Err(current.error); }
        a := current.value;
        var bound := HasIdentity(uid);
        if bound { return Err(Unavailable); }
      } else {
        if uid in db.accounts { return Err(StorageFailed); }
        db := db.(accounts := db.accounts[uid := a]);
      }
      if name in db.identities {
        db := before;
        return Err(Unavailable);
      }
      db := db.(identities := db.identities[name := Identity(uid, passwordHash)]);
      if session.None? { return Ok(uid); }
      a := a.(guestDevice := None);
      if device != "" { a := a.(deviceId := device); }
      db := db.(accounts := db.accounts[uid := a]);
      return Ok(uid);
    }

    /** Whatever other requests commit between two steps of this one. Callers know only the contract. */
    method OtherRequests()
      requires GuestsOk(db)
      modifies this
      ensures GuestsOk(db) && forall uid :: KeyFrame(old(db), db, uid)
    {
    }

    method LookupGuest(device: string) returns (found: Option<Uid>)
      ensures found.Some? ==> HoldsKey(db, found.value, device)
      ensures found.None? ==> forall u :: !HoldsKey(db, u, device)
    {
      if exists u | u in db.accounts :: db.accounts[u].guestDevice == Some(device) {
        var u :| u in db.accounts && db.accounts[u].guestDevice == Some(device);
        return Some(u);
      }
      return None;
    }

    /** registerDevice: at most two rounds of a lookup outside the transaction and a transaction that
        re-checks it. A conflict in the first leads to the second; the answer is that of the last. Success
        means it was the device's one active, unbound holder when it was committed. */
    method RegisterDevice(device: string, newUids: seq<Uid>) returns (r: Result<Uid, AccountError>, ghost rounds: seq<Round>)
      requires GuestsOk(db) && |newUids| == 2
      modifies this
      ensures GuestsOk(db)
      ensures r.Ok? ==> SoleHolder(db, r.value, device)
      ensures if device == "" then r == Err(BadRequest) && db == old(db) && rounds == [] else 1 <= |rounds| <= 2
      ensures forall k :: 0 <= k < |rounds| ==> Finds(rounds[k].seen, device, rounds[k].found)
      ensures |rounds| == 2 ==> Conflicts(rounds[0], newUids[0], device)
      ensures |rounds| == 1 ==> !Conflicts(rounds[0], newUids[0], device)
      ensures rounds != [] ==>
        var n := |rounds| - 1;
        var last := RegisterDeviceTx(rounds[n].before, rounds[n].found, newUids[n], device);
        db == last.db && r == if Conflicts(rounds[n], newUids[n], device) then Err(GuestDeviceExists) else last.answer
    {
      rounds := [];
      if device == "" { return Err(BadRequest), rounds; }
      for attempt := 0 to 2
        invariant GuestsOk(db) && |rounds| == attempt
        invariant forall k :: 0 <= k < |rounds| ==> Finds(rounds[k].seen, device, rounds[k].found) && Conflicts(rounds[k], newUids[k], device)
        invariant attempt > 0 ==> db == RegisterDeviceTx(rounds[attempt - 1].before, rounds[attempt - 1].found, newUids[attempt - 1], device).db
      {
        var found := LookupGuest(device);
        ghost var seen := db;
        OtherRequests();
        ghost var before := db;
        var answer;
        if found.Some? {
          var checked := GuestAccount(found.value, device);
          answer := if checked.Ok? then Ok(found.value) else Err(checked.error);
        } else {
          var uid := newUids[attempt];
          if uid in db.accounts || exists u | u in db.accounts :: db.accounts[u].guestDevice == Some(device) {
            answer := Err(GuestDeviceExists);
          } else {
            db := db.(accounts := db.accounts[uid := Account(true, "", None, device, Some(device))]);
            answer := Ok(uid);
          }
        }
        NewGuestKeepsKeys(before, found, newUids[attempt], device);
        assert Reply(db, answer) == RegisterDeviceTx(before, found, newUids[attempt], device) by {
          assert forall u :: HoldsKey(before, u, device) <==> (u in before.accounts && before.accounts[u].guestDevice == Some(device));
        }
        rounds := rounds + [Round(seen, before, found)];
        if answer.Err? && (answer.error == GuestDeviceExists || answer.error == GuestDeviceChanged) {
          continue;
        }
        return answer, rounds;
      }
      return Err(GuestDeviceExists), rounds;
    }
  }

  /** One round of registerDevice: what its lookup saw and found, and the tables its transaction met. */
  datatype Round = Round(seen: Db, before: Db, found: Option<Uid>)

  ghost predicate Conflicts(round: Round, newUid: Uid, device: string) {
    var answer := RegisterDeviceTx(round.before, round.found, newUid, device).answer;
    answer.Err? && Retries(answer.error)
  }

  /** A registerDevice transaction keeps keys unique, and what it answers is the one holder. */
  lemma NewGuestKeepsKeys(db: Db, found: Option<Uid>, newUid: Uid, device: string)
    requires GuestsOk(db)
    ensures var reply := RegisterDeviceTx(db, found, newUid, device);
      GuestsOk(reply.db) && (reply.answer.Ok? ==> SoleHolder(reply.db, reply.answer.value, device))
  {
    var reply := RegisterDeviceTx(db, found, newUid, device);
    assert forall u :: (u in db.accounts && db.accounts[u].guestDevice == Some(device)) <==> HoldsKey(db, u, device);
    forall u, v ensures KeysApart(reply.db, u, v) { assert KeysApart(db, u, v); }
    forall name ensures BoundHoldsNoKey(reply.db, name) { assert BoundHoldsNoKey(db, name); }
    if reply.answer.Ok? {
      var uid := reply.answer.value;
      forall v ensures HoldsKey(reply.db, v, device) ==> v == uid { assert KeysApart(reply.db, uid, v); }
      forall name | name in reply.db.identities ensures reply.db.identities[name].uid != uid { assert BoundHoldsNoKey(reply.db, name); }
    }
  }
}
