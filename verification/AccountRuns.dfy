/** What the requests of `Accounts` do to sessions and guest devices, one by one and over every run. */
module AccountRuns {
  import opened Common
  import opened Accounts

  // ---- Tokens over a run ----

  predicate Matches(cfg: Config, s: State, token: Token) {
    && ParseToken(token).Some? && ParseToken(token).value in s.db.accounts
    && s.db.accounts[ParseToken(token).value].tokenHash == cfg.hash(token)
  }

  /** The token is the account's current one and has time left. */
  predicate IsLive(cfg: Config, s: State, token: Token) {
    && Matches(cfg, s, token)
    && var a := s.db.accounts[ParseToken(token).value]; a.expiresAt.Some? && s.now < a.expiresAt.value
  }

  /** Authenticate accepts a token exactly while it is live and its account is not banned. */
  lemma AcceptedExactlyWhileLive(cfg: Config, s: State, token: Token, device: string, later: int)
    ensures AuthenticateTx(cfg, s.db, token, device, s.now, later).answer.Ok? <==>
            IsLive(cfg, s, token) && s.db.accounts[ParseToken(token).value].active
  {
  }

  /** An account accepts at most one token. */
  lemma OneTokenPerAccount(cfg: Config, s: State, a: Token, b: Token)
    requires GoodHash(cfg) && IsLive(cfg, s, a) && IsLive(cfg, s, b) && ParseToken(a) == ParseToken(b)
    ensures a == b
  {
    assert cfg.hash(a) == cfg.hash(b);
  }

  /** A current hash is the hash of a token issued for that very account. */
  ghost predicate HashIssued(cfg: Config, s: State, uid: Uid) {
    uid in s.db.accounts && s.db.accounts[uid].tokenHash != "" ==>
      exists t :: t in s.issued && ParseToken(t) == Some(uid) && cfg.hash(t) == s.db.accounts[uid].tokenHash
  }

  lemma HashIssuedKept(cfg: Config, s: State, l: Label, uid: Uid)
    requires GoodHash(cfg) && Enabled(cfg, s, l) && HashIssued(cfg, s, uid)
    ensures HashIssued(cfg, Apply(cfg, s, l), uid)
  {
    if l.LoginCommit? {
      ParseNewToken(s.calls[l.call].uid, l.secret);
      assert NewToken(s.calls[l.call].uid, l.secret) in Apply(cfg, s, l).issued;
    }
    if uid in s.db.accounts && s.db.accounts[uid].tokenHash != "" {
      var t :| t in s.issued && ParseToken(t) == Some(uid) && cfg.hash(t) == s.db.accounts[uid].tokenHash;
      assert t in Apply(cfg, s, l).issued;
    }
  }

  lemma {:induction false} EveryRunHashIssued(cfg: Config, run: seq<State>, labels: seq<Label>, i: nat, uid: Uid)
    requires GoodHash(cfg) && IsRun(cfg, run, labels) && i < |run|
    ensures HashIssued(cfg, run[i], uid)
  {
    if i > 0 {
      EveryRunHashIssued(cfg, run, labels, i - 1, uid);
      HashIssuedKept(cfg, run[i - 1], labels[i - 1], uid);
    }
  }

  /** Only tokens that were issued are ever accepted. */
  lemma OnlyIssuedTokensLive(cfg: Config, run: seq<State>, labels: seq<Label>, i: nat, token: Token)
    requires GoodHash(cfg) && IsRun(cfg, run, labels) && i < |run| && IsLive(cfg, run[i], token)
    ensures token in run[i].issued
  {
    EveryRunHashIssued(cfg, run, labels, i, ParseToken(token).value);
    assert cfg.hash(token) != "";
  }

  lemma DeadStaysDeadStep(cfg: Config, s: State, l: Label, token: Token)
    requires GoodHash(cfg) && Enabled(cfg, s, l) && token in s.issued && !IsLive(cfg, s, token)
    ensures token in Apply(cfg, s, l).issued && !IsLive(cfg, Apply(cfg, s, l), token)
  {
  }

  /** An issued token that is not live any more, because it was replaced, logged out or ran out, is
      never accepted again. */
  lemma {:induction false} DeadTokensStayDead(cfg: Config, run: seq<State>, labels: seq<Label>, i: nat, j: nat, token: Token)
    requires GoodHash(cfg) && IsRun(cfg, run, labels) && i <= j < |run|
    requires token in run[i].issued && !IsLive(cfg, run[i], token)
    ensures token in run[j].issued && !IsLive(cfg, run[j], token)
  {
    if i < j {
      DeadTokensStayDead(cfg, run, labels, i, j - 1, token);
      DeadStaysDeadStep(cfg, run[j - 1], labels[j - 1], token);
    }
  }

  /** A logout with another token, however late, leaves the live session as it is. */
  lemma LateLogoutHarmless(cfg: Config, s: State, late: Token, ok: bool, current: Token)
    requires GoodHash(cfg) && IsLive(cfg, s, current) && late != current
    ensures IsLive(cfg, Apply(cfg, s, Logout(late, ok)), current)
    ensures Apply(cfg, s, Logout(late, ok)).db.accounts[ParseToken(current).value] == s.db.accounts[ParseToken(current).value]
  {
  }

  /** While a token stays an account's current one, its expiry never moves back; every accepted use
      gives it at least a whole idle period from that use. */
  lemma ExpiryNeverShortens(cfg: Config, s: State, l: Label, token: Token)
    requires GoodHash(cfg) && Enabled(cfg, s, l) && token in s.issued
    requires IsLive(cfg, s, token) && Matches(cfg, Apply(cfg, s, l), token)
    ensures var uid, s' := ParseToken(token).value, Apply(cfg, s, l);
      && s'.db.accounts[uid].expiresAt.Some?
      && s'.db.accounts[uid].expiresAt.value >= s.db.accounts[uid].expiresAt.value
      && (l.Authenticate? && l.token == token && l.ok && s.db.accounts[uid].active ==>
            s'.db.accounts[uid].expiresAt.value >= s'.now + cfg.ttl)
  {
  }

  // ---- What each request does to a session ----

  function AccountOf(db: Db, uid: Uid): Option<Account> { if uid in db.accounts then Some(db.accounts[uid]) else None }

  /** Everything but the row of one account is the same. */
  ghost predicate OnlyAccount(db: Db, db': Db, uid: Uid) {
    db'.identities == db.identities && forall u :: u != uid ==> AccountOf(db', u) == AccountOf(db, u)
  }

  /** What the login checks of the account its lookup found. */
  ghost predicate MayLogIn(db: Db, call: Call)
    requires call.LoggingIn?
  {
    && call.uid in db.accounts && db.accounts[call.uid].active
    && (call.guest ==> HoldsKey(db, call.uid, call.device) && !IsBound(db, call.uid))
  }

  /** A login that may go through, and is committed, makes its new token the account's live one for a whole
      idle period; otherwise it changes nothing. */
  lemma LoginMeans(cfg: Config, s: State, c: int, secret: string, ok: bool)
    requires cfg.ttl > 0 && Enabled(cfg, s, LoginCommit(c, secret, ok))
    ensures var s', call := Apply(cfg, s, LoginCommit(c, secret, ok)), s.calls[c];
      var token := NewToken(call.uid, secret);
      && token in s'.issued && c !in s'.calls && OnlyAccount(s.db, s'.db, call.uid)
      && (ok && MayLogIn(s.db, call) ==>
            && IsLive(cfg, s', token)
            && s'.db.accounts[call.uid].expiresAt == Some(s.now + cfg.ttl)
            && (call.device != "" ==> s'.db.accounts[call.uid].deviceId == call.device)
            && s'.db.accounts[call.uid].guestDevice == s.db.accounts[call.uid].guestDevice)
      && (!(ok && MayLogIn(s.db, call)) ==> s'.db == s.db)
  {
    ParseNewToken(s.calls[c].uid, secret);
  }

  /** So in every run, a login opens a session exactly when it may go through and is committed. */
  lemma LoginOpensIff(cfg: Config, run: seq<State>, labels: seq<Label>, i: nat)
    requires cfg.ttl > 0 && GoodHash(cfg) && IsRun(cfg, run, labels) && i < |labels| && labels[i].LoginCommit?
    requires Enabled(cfg, run[i], labels[i]) && run[i + 1] == Apply(cfg, run[i], labels[i])
    ensures IsLive(cfg, run[i + 1], NewToken(run[i].calls[labels[i].call].uid, labels[i].secret))
       <==> labels[i].ok && MayLogIn(run[i].db, run[i].calls[labels[i].call])
  {
    var s, l := run[i], labels[i];
    var uid, token := s.calls[l.call].uid, NewToken(s.calls[l.call].uid, l.secret);
    LoginMeans(cfg, s, l.call, l.secret, l.ok);
    ParseNewToken(uid, l.secret);
    if IsLive(cfg, s, token) { OnlyIssuedTokensLive(cfg, run, labels, i, token); }
  }

  /** The call of a login is open from its lookup in step `i` to state `j`. */
  ghost predicate LoginOpen(cfg: Config, run: seq<State>, labels: seq<Label>, i: nat, j: nat, c: int) {
    && IsRun(cfg, run, labels) && i < j < |run| && (labels[i].LookupGuest? || labels[i].LookupPassword?) && labels[i].call == c
    && forall k :: i < k <= j ==> c in run[k].calls
  }

  /** Whom a login is for, as its lookup found it. */
  function LookedUp(s: State, l: Label): Call
    requires l.LookupGuest? || (l.LookupPassword? && l.name in s.db.identities)
  {
    if l.LookupGuest? then LoggingIn(l.uid, l.device, true) else LoggingIn(s.db.identities[l.name].uid, l.device, false)
  }

  lemma OpenLoginStays(cfg: Config, s: State, l: Label, c: int)
    requires Enabled(cfg, s, l) && c in s.calls && s.calls[c].LoggingIn? && c in Apply(cfg, s, l).calls
    ensures Apply(cfg, s, l).calls[c] == s.calls[c]
  {
  }

  /** A login checks again, when it commits, what it looked up before: by device, that the account still
      holds it and has no identity; either way, that it is active. */
  lemma {:induction false} LoginCommitsWhatWasLookedUp(cfg: Config, run: seq<State>, labels: seq<Label>, i: nat, j: nat, c: int)
    requires LoginOpen(cfg, run, labels, i, j, c)
    ensures Enabled(cfg, run[i], labels[i]) && run[j].calls[c] == LookedUp(run[i], labels[i])
    decreases j
  {
    assert Enabled(cfg, run[i], labels[i]) && run[i + 1] == Apply(cfg, run[i], labels[i]);
    if i + 1 < j {
      LoginCommitsWhatWasLookedUp(cfg, run, labels, i, j - 1, c);
      assert c in run[j - 1].calls && c in run[j].calls && run[j - 1 + 1] == Apply(cfg, run[j - 1], labels[j - 1]);
      OpenLoginStays(cfg, run[j - 1], labels[j - 1], c);
    }
  }

  /** The token before it is dead at once. */
  lemma LoginReplaces(cfg: Config, s: State, c: int, secret: string, before: Token)
    requires GoodHash(cfg) && Enabled(cfg, s, LoginCommit(c, secret, true)) && MayLogIn(s.db, s.calls[c])
    requires before in s.issued && ParseToken(before) == Some(s.calls[c].uid)
    ensures !IsLive(cfg, Apply(cfg, s, LoginCommit(c, secret, true)), before)
  {
    ParseNewToken(s.calls[c].uid, secret);
  }

  /** A committed logout ends the session of its token, and that session only. */
  lemma LogoutEnds(cfg: Config, s: State, token: Token)
    requires GoodHash(cfg)
    ensures var s' := Apply(cfg, s, Logout(token, true));
      && !IsLive(cfg, s', token)
      && (if Matches(cfg, s, token)
          then OnlyAccount(s.db, s'.db, ParseToken(token).value)
            && s'.db.accounts[ParseToken(token).value] == s.db.accounts[ParseToken(token).value].(tokenHash := "", expiresAt := None)
          else s'.db == s.db)
  {
  }

  /** After it, Authenticate refuses the token in every state of the run. */
  lemma LogoutIsFinal(cfg: Config, run: seq<State>, labels: seq<Label>, i: nat, j: nat, token: Token, device: string, later: int)
    requires GoodHash(cfg) && IsRun(cfg, run, labels) && i < j < |run| && labels[i] == Logout(token, true) && token in run[i].issued
    ensures AuthenticateTx(cfg, run[j].db, token, device, run[j].now, later).answer.Err?
  {
    LogoutEnds(cfg, run[i], token);
    assert run[i + 1] == Apply(cfg, run[i], labels[i]);
    DeadTokensStayDead(cfg, run, labels, i + 1, j, token);
    AcceptedExactlyWhileLive(cfg, run[j], token, device, later);
  }

  /** An accepted use moves the deadline to a whole idle period from then, or leaves a later one, and notes
      the device. A refused one changes nothing, and is told that the session ran out exactly when that is
      all that is wrong with it. */
  lemma AuthenticateMeans(cfg: Config, s: State, token: Token, device: string, later: int)
    ensures var Reply(db, answer) := AuthenticateTx(cfg, s.db, token, device, s.now, later);
      && (answer.Ok? ==>
            var uid, expiry := answer.value.0, answer.value.1;
            var a, b := s.db.accounts[uid], AccountOf(db, uid);
            && ParseToken(token) == Some(uid) && OnlyAccount(s.db, db, uid) && b.Some?
            && expiry >= later + cfg.ttl && expiry >= a.expiresAt.value && expiry in {later + cfg.ttl, a.expiresAt.value}
            && b.value == a.(expiresAt := Some(expiry), deviceId := if device == "" then a.deviceId else device))
      && (answer.Err? ==> db == s.db && answer.error in {Invalid, Expired})
      && (answer == Err(Expired) <==>
            Matches(cfg, s, token)
            && var a := s.db.accounts[ParseToken(token).value]; a.active && a.expiresAt.Some? && a.expiresAt.value <= s.now)
  {
  }

  // ---- What each registration does ----

  /** Without a session a new account and its identity come into being, exactly when the name is free. */
  lemma CreateFormalMeans(db: Db, uid: Uid, name: string, passwordHash: string, device: string)
    requires uid !in db.accounts
    ensures var Reply(db', answer) := CreateFormalTx(db, uid, name, passwordHash, device);
      && answer == (if name in db.identities then Err(Unavailable) else Ok(uid))
      && (answer.Err? ==> db' == db)
      && (answer.Ok? ==>
            && uid in db'.accounts && db'.accounts == db.accounts[uid := db'.accounts[uid]]
            && db'.accounts[uid].active && db'.accounts[uid].tokenHash == "" && db'.accounts[uid].expiresAt.None?
            && db'.accounts[uid].guestDevice.None? && db'.accounts[uid].deviceId == device
            && db'.identities == db.identities[name := Identity(uid, passwordHash)])
  {
  }

  /** With a guest's session the account gets the identity, exactly when the session is live, the account
      has none yet and the name is free; its device key is released, its session stays. */
  lemma BindMeans(cfg: Config, s: State, token: Token, name: string, passwordHash: string, device: string)
    ensures var Reply(db', answer) := BindTx(cfg, s.db, token, name, passwordHash, device, s.now);
      var live := IsLive(cfg, s, token) && s.db.accounts[ParseToken(token).value].active;
      && (answer.Ok? <==> live && !IsBound(s.db, ParseToken(token).value) && name !in s.db.identities)
      && (live && answer.Err? ==> answer.error == Unavailable)
      && (answer.Err? ==> db' == s.db)
      && (answer.Ok? ==>
            var uid := answer.value;
            && ParseToken(token) == Some(uid)
            && db'.identities == s.db.identities[name := Identity(uid, passwordHash)] && IsBound(db', uid)
            && db'.accounts == s.db.accounts[uid := s.db.accounts[uid].(guestDevice := None,
                                 deviceId := if device == "" then s.db.accounts[uid].deviceId else device)])
  {
    var Reply(db', answer) := BindTx(cfg, s.db, token, name, passwordHash, device, s.now);
    if answer.Ok? { assert db'.identities[name].uid == answer.value; }
  }

  /** Whether a lookup answers truly. */
  ghost predicate Finds(db: Db, device: string, found: Option<Uid>) {
    if found.Some? then HoldsKey(db, found.value, device) else forall u :: !HoldsKey(db, u, device)
  }

  /** Where nothing comes between lookup and transaction, a device is registered exactly when nobody holds
      it or its holder is active; the account is the holder, or a new, active one without a session. */
  lemma RegistersUndisturbedIff(db: Db, found: Option<Uid>, newUid: Uid, device: string)
    requires GuestsOk(db) && Finds(db, device, found) && newUid !in db.accounts
    ensures var Reply(db', answer) := RegisterDeviceTx(db, found, newUid, device);
      && answer == (if found.None? then Ok(newUid) else if db.accounts[found.value].active then Ok(found.value) else Err(Invalid))
      && (found.Some? ==> db' == db)
      && (found.None? ==> OnlyAccount(db, db', newUid) && AccountOf(db', newUid) == Some(Account(true, "", None, device, Some(device))))
  {
    if found.Some? {
      forall name | name in db.identities ensures db.identities[name].uid != found.value { assert BoundHoldsNoKey(db, name); }
    }
  }

  /** What came between is noticed: the transaction conflicts exactly when someone else holds the device by
      now, or the account that was found does not any more. Then there is a second round, and no third. */
  lemma ConflictMeansChange(cfg: Config, s: State, c: int, newUid: Uid, ok: bool)
    requires Enabled(cfg, s, RegisterCommit(c, newUid, ok))
    ensures var s', call := Apply(cfg, s, RegisterCommit(c, newUid, ok)), s.calls[c];
      var answer := RegisterReply(s, c, newUid, ok).answer;
      var changed := if call.found.None? then exists u :: HoldsKey(s.db, u, call.device)
                     else call.found.value in s.db.accounts && !HoldsKey(s.db, call.found.value, call.device);
      && (answer.Err? && Retries(answer.error) <==> ok && changed)
      && (if ok && changed && call.round == 0 then s'.calls == s.calls[c := Looking(call.device, 1)] else c !in s'.calls)
      && (answer.Err? ==> s'.db == s.db)
  {
  }

  // ---- Guest devices over a run ----

  /** No two accounts hold the same recovery key. */
  predicate KeysApart(db: Db, u: Uid, v: Uid) {
    u != v && u in db.accounts && v in db.accounts && db.accounts[u].guestDevice.Some? ==>
      db.accounts[u].guestDevice != db.accounts[v].guestDevice
  }

  /** An identity belongs to an account, and that account holds no recovery key. */
  predicate BoundHoldsNoKey(db: Db, name: string) {
    name in db.identities ==>
      db.identities[name].uid in db.accounts && db.accounts[db.identities[name].uid].guestDevice.None?
  }

  ghost predicate GuestsOk(db: Db) {
    (forall u, v :: KeysApart(db, u, v)) && (forall name :: BoundHoldsNoKey(db, name))
  }

  /** What any transaction may do to an existing account: its recovery key stays until the account is
      bound, and a bound account gets none. */
  ghost predicate KeyFrame(db: Db, db': Db, uid: Uid) {
    uid in db.accounts ==>
      && uid in db'.accounts
      && (db'.accounts[uid].guestDevice == db.accounts[uid].guestDevice || (db'.accounts[uid].guestDevice.None? && IsBound(db', uid)))
      && (IsBound(db, uid) ==> IsBound(db', uid))
  }

  lemma KeysKept(cfg: Config, s: State, l: Label, u: Uid, v: Uid)
    requires Enabled(cfg, s, l) && KeysApart(s.db, u, v)
    ensures KeysApart(Apply(cfg, s, l).db, u, v)
  {
    if l.RegisterCommit? {
      assert HoldsKey(s.db, u, s.calls[l.call].device) || !HoldsKey(s.db, u, s.calls[l.call].device);
      assert HoldsKey(s.db, v, s.calls[l.call].device) || !HoldsKey(s.db, v, s.calls[l.call].device);
    }
  }

  lemma BoundKept(cfg: Config, s: State, l: Label, name: string)
    requires Enabled(cfg, s, l) && BoundHoldsNoKey(s.db, name)
    ensures BoundHoldsNoKey(Apply(cfg, s, l).db, name)
  {
  }

  lemma KeyFramed(cfg: Config, s: State, l: Label, uid: Uid)
    requires Enabled(cfg, s, l)
    ensures KeyFrame(s.db, Apply(cfg, s, l).db, uid)
  {
    var db' := Apply(cfg, s, l).db;
    assert forall name :: name in s.db.identities ==> name in db'.identities && db'.identities[name] == s.db.identities[name];
    if l.BindIdentity? && db' != s.db {
      assert db'.identities[l.name].uid == ParseToken(l.token).value;
    }
  }

  lemma {:induction false} EveryRunGuestsOk(cfg: Config, run: seq<State>, labels: seq<Label>, i: nat)
    requires IsRun(cfg, run, labels) && i < |run|
    ensures GuestsOk(run[i].db)
  {
    if i > 0 {
      EveryRunGuestsOk(cfg, run, labels, i - 1);
      forall u, v ensures KeysApart(run[i].db, u, v) {
        assert KeysApart(run[i - 1].db, u, v);
        KeysKept(cfg, run[i - 1], labels[i - 1], u, v);
      }
      forall name ensures BoundHoldsNoKey(run[i].db, name) {
        assert BoundHoldsNoKey(run[i - 1].db, name);
        BoundKept(cfg, run[i - 1], labels[i - 1], name);
      }
    }
  }

  /** No two accounts hold the same guest device, and no account with an identity holds one. */
  lemma GuestKeysUniqueAndUnbound(cfg: Config, run: seq<State>, labels: seq<Label>, i: nat, u: Uid, v: Uid, device: string)
    requires IsRun(cfg, run, labels) && i < |run| && HoldsKey(run[i].db, u, device)
    ensures HoldsKey(run[i].db, v, device) ==> v == u
    ensures !IsBound(run[i].db, u)
  {
    EveryRunGuestsOk(cfg, run, labels, i);
    assert KeysApart(run[i].db, u, v);
    var db := run[i].db;
    forall name | name in db.identities ensures db.identities[name].uid != u { assert BoundHoldsNoKey(db, name); }
  }

  /** A registerDevice that succeeds at step `i` with `uid`. */
  ghost predicate Registered(s: State, l: Label, device: string, uid: Uid) {
    && l.RegisterCommit? && l.call in s.calls && s.calls[l.call].Found? && s.calls[l.call].device == device
    && RegisterReply(s, l.call, l.newUid, l.ok).answer == Ok(uid)
  }

  /** The account is the one holder of the device, active and without an identity. */
  ghost predicate SoleHolder(db: Db, uid: Uid, device: string) {
    && HoldsKey(db, uid, device) && db.accounts[uid].active && !IsBound(db, uid)
    && forall v :: HoldsKey(db, v, device) ==> v == uid
  }

  /** What registerDevice returns was, at its commit, the active unbound holder of the device, although
      the lookup was made earlier and other requests came in between. */
  lemma RegisteredIsTheHolder(cfg: Config, run: seq<State>, labels: seq<Label>, i: nat, device: string, uid: Uid)
    requires IsRun(cfg, run, labels) && i < |labels| && Registered(run[i], labels[i], device, uid)
    ensures SoleHolder(run[i + 1].db, uid, device)
  {
    var db := run[i + 1].db;
    EveryRunGuestsOk(cfg, run, labels, i + 1);
    assert HoldsKey(db, uid, device);
    GuestKeysUniqueAndUnbound(cfg, run, labels, i + 1, uid, uid, device);
    forall v ensures HoldsKey(db, v, device) ==> v == uid { assert KeysApart(db, uid, v); }
  }

  lemma {:induction false} HolderStays(cfg: Config, run: seq<State>, labels: seq<Label>, i: nat, j: nat, device: string, uid: Uid)
    requires IsRun(cfg, run, labels) && i <= j < |run| && HoldsKey(run[i].db, uid, device) && !IsBound(run[j].db, uid)
    ensures HoldsKey(run[j].db, uid, device)
  {
    if i < j {
      KeyFramed(cfg, run[j - 1], labels[j - 1], uid);
      StillUnbound(cfg, run, labels, i, j - 1, uid);
      HolderStays(cfg, run, labels, i, j - 1, device, uid);
    }
  }

  lemma {:induction false} StillUnbound(cfg: Config, run: seq<State>, labels: seq<Label>, i: nat, j: nat, uid: Uid)
    requires IsRun(cfg, run, labels) && i <= j && j + 1 < |run| && uid in run[i].db.accounts && !IsBound(run[j + 1].db, uid)
    ensures uid in run[j].db.accounts && !IsBound(run[j].db, uid)
    decreases j - i
  {
    AccountStays(cfg, run, labels, i, j, uid);
    KeyFramed(cfg, run[j], labels[j], uid);
  }

  lemma {:induction false} KeptOver(run: seq<State>, i: nat, j: nat, uid: Uid)
    requires i <= j < |run| && uid in run[i].db.accounts && forall k :: i <= k < j ==> KeyFrame(run[k].db, run[k + 1].db, uid)
    ensures uid in run[j].db.accounts
  {
    if i < j {
      KeptOver(run, i, j - 1, uid);
      assert KeyFrame(run[j - 1].db, run[j - 1 + 1].db, uid);
    }
  }

  lemma AccountStays(cfg: Config, run: seq<State>, labels: seq<Label>, i: nat, j: nat, uid: Uid)
    requires IsRun(cfg, run, labels) && i <= j < |run| && uid in run[i].db.accounts
    ensures uid in run[j].db.accounts
  {
    forall k | i <= k < j ensures KeyFrame(run[k].db, run[k + 1].db, uid) { KeyFramed(cfg, run[k], labels[k], uid); }
    KeptOver(run, i, j, uid);
  }

  /** The answer stays the same until that account is bound: two successful registrations of a device
      give the same account unless the first account has an identity by the second. */
  lemma RegistrationIsStable(cfg: Config, run: seq<State>, labels: seq<Label>, i: nat, j: nat, device: string, uid: Uid, later: Uid)
    requires IsRun(cfg, run, labels) && i <= j < |labels|
    requires Registered(run[i], labels[i], device, uid) && Registered(run[j], labels[j], device, later)
    ensures later == uid || IsBound(run[j + 1].db, uid)
  {
    RegisteredIsTheHolder(cfg, run, labels, i, device, uid);
    RegisteredIsTheHolder(cfg, run, labels, j, device, later);
    if !IsBound(run[j + 1].db, uid) {
      HolderStays(cfg, run, labels, i + 1, j + 1, device, uid);
    }
  }
}
