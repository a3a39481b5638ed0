/** Accounts, their one session token, and guest devices (internal/platform/account/session.go, device.go,
    service.go and the two tables of internal/repo/account_repo.go).

    A transaction is one function on the database; what happens outside it (the lookups of Login and
    registerDevice) is a step of its own, so other requests may come in between. The token hash and the
    password check are parameters; times are counted from a fixed origin. */
module Accounts {
  import opened Common
  import opened Text

  type Uid = string
  type Token = string

  datatype Account = Account(
    active: bool, tokenHash: string, expiresAt: Option<int>, deviceId: string, guestDevice: Option<string>)

  datatype Identity = Identity(uid: Uid, passwordHash: string)

  /** Identities are keyed by their unique account name. */
  datatype Db = Db(accounts: map<Uid, Account>, identities: map<string, Identity>)

  datatype AccountError = BadRequest | Invalid | Expired | Unavailable | GuestDeviceExists | GuestDeviceChanged | StorageFailed

  /** `hash` is SHA-256 and `matches` bcrypt; `ttl` is the idle time a session lives. */
  datatype Config = Config(hash: Token -> string, matches: (string, string) -> bool, ttl: nat)

  /** Different tokens have different hashes, and no hash is the empty string that marks a logout. */
  ghost predicate GoodHash(cfg: Config) {
    && (forall a, b :: cfg.hash(a) == cfg.hash(b) ==> a == b)
    && (forall a :: cfg.hash(a) != "")
  }

  // ---- Tokens ----

  predicate IsHex(c: char) { '0' <= c <= '9' || 'a' <= c <= 'f' || 'A' <= c <= 'F' }

  predicate IsBase64Url(c: char) { '0' <= c <= '9' || 'a' <= c <= 'z' || 'A' <= c <= 'Z' || c == '-' || c == '_' }

  predicate IsUuid(s: string) {
    |s| == 36 && forall i :: 0 <= i < 36 ==> if i in {8, 13, 18, 23} then s[i] == '-' else IsHex(s[i])
  }

  /** 43 characters of unpadded base64 are 32 bytes. */
  predicate IsSecret(s: string) {
    |s| == 43 && forall i :: 0 <= i < 43 ==> IsBase64Url(s[i])
  }

  function NewToken(uid: Uid, secret: string): Token { "s." + uid + "." + secret }

  function ParseToken(token: Token): Option<Uid> {
    if |token| != 82 then None
    else
      var parts := Split(token);
      if |parts| != 3 || parts[0] != "s" || !IsUuid(parts[1]) || !IsSecret(parts[2]) then None else Some(parts[1])
  }

  /** A token issued for an account leads back to that account. */
  lemma ParseNewToken(uid: Uid, secret: string)
    requires IsUuid(uid) && IsSecret(secret)
    ensures ParseToken(NewToken(uid, secret)) == Some(uid)
  {
    var token := NewToken(uid, secret);
    assert token == "s" + "." + (uid + "." + secret);
    SplitJoin("s", uid + "." + secret);
    assert NoDot(uid);
    SplitJoin(uid, secret);
    SplitOne(secret);
    assert Split(token) == ["s", uid, secret];
  }

  /** Conversely, a token is accepted for parsing only if it was put together that way. */
  lemma ParsedTokenIsBuilt(token: Token)
    requires ParseToken(token).Some?
    ensures exists secret :: IsSecret(secret) && IsUuid(ParseToken(token).value) && token == NewToken(ParseToken(token).value, secret)
  {
    var parts := Split(token);
    JoinSplit(token);
    assert parts[1..][1..] == [parts[2]];
    assert Join(parts[1..]) == parts[1] + "." + parts[2];
    assert token == NewToken(parts[1], parts[2]);
  }

  // ---- The transactions ----

  predicate ValidDevice(device: string) {
    |device| <= 128 && forall i :: 0 <= i < |device| ==> '!' <= device[i] <= '~'
  }

  ghost predicate IsBound(db: Db, uid: Uid) {
    exists name :: name in db.identities && db.identities[name].uid == uid
  }

  predicate HoldsKey(db: Db, uid: Uid, device: string) {
    uid in db.accounts && db.accounts[uid].guestDevice == Some(device)
  }

  /** sessionInTx and activeSessionInTx: `None` means the token is the account's live one. */
  function SessionError(cfg: Config, db: Db, uid: Uid, token: Token, now: int): Option<AccountError> {
    if uid !in db.accounts then Some(Invalid)
    else
      var a := db.accounts[uid];
      if a.tokenHash != cfg.hash(token) then Some(Invalid)
      else if !a.active || a.expiresAt.None? then Some(Invalid)
      else if now >= a.expiresAt.value then Some(Expired)
      else None
  }

  /** guestAccountInTx. */
  ghost function GuestError(db: Db, uid: Uid, device: string): Option<AccountError> {
    if uid !in db.accounts then Some(Invalid)
    else if db.accounts[uid].guestDevice != Some(device) then Some(GuestDeviceChanged)
    else if !db.accounts[uid].active || IsBound(db, uid) then Some(Invalid)
    else None
  }

  function Save(db: Db, uid: Uid, a: Account): Db { db.(accounts := db.accounts[uid := a]) }

  function NewDevice(a: Account, device: string): Account { if device != "" then a.(deviceId := device) else a }

  datatype Reply<T> = Reply(db: Db, answer: Result<T, AccountError>)

  /** The clock is read once for the check (`now`) and once for the extension (`later`). */
  function AuthenticateTx(cfg: Config, db: Db, token: Token, device: string, now: int, later: int): Reply<(Uid, int)> {
    match ParseToken(token)
    case None => Reply(db, Err(Invalid))
    case Some(uid) =>
      match SessionError(cfg, db, uid, token, now)
      case Some(e) => Reply(db, Err(e))
      case None =>
        var a := NewDevice(db.accounts[uid], device);
        var expiry := if later + cfg.ttl > a.expiresAt.value then later + cfg.ttl else a.expiresAt.value;
        Reply(Save(db, uid, a.(expiresAt := Some(expiry))), Ok((uid, expiry)))
  }

  function LogoutTx(cfg: Config, db: Db, token: Token): Db {
    match ParseToken(token)
    case None => db
    case Some(uid) =>
      if uid !in db.accounts || db.accounts[uid].tokenHash != cfg.hash(token) then db
      else Save(db, uid, db.accounts[uid].(tokenHash := "", expiresAt := None))
  }

  /** The transaction of Login, after the lookup found `uid`. */
  ghost function LoginTx(cfg: Config, db: Db, uid: Uid, device: string, guest: bool, token: Token, now: int): Reply<int> {
    if guest && GuestError(db, uid, device).Some? then Reply(db, Err(Invalid))
    else if uid !in db.accounts || !db.accounts[uid].active then Reply(db, Err(Invalid))
    else
      var a := NewDevice(db.accounts[uid], device).(tokenHash := cfg.hash(token), expiresAt := Some(now + cfg.ttl));
      Reply(Save(db, uid, a), Ok(now + cfg.ttl))
  }

  /** Register without a session: a new account together with its identity. */
  function CreateFormalTx(db: Db, uid: Uid, name: string, passwordHash: string, device: string): Reply<Uid> {
    if uid in db.accounts then Reply(db, Err(StorageFailed))
    else if name in db.identities then Reply(db, Err(Unavailable))
    else Reply(Db(db.accounts[uid := Account(true, "", None, device, None)],
                  db.identities[name := Identity(uid, passwordHash)]), Ok(uid))
  }

  /** Register with a guest's session: the identity is bound and the recovery key is released. */
  ghost function BindTx(cfg: Config, db: Db, token: Token, name: string, passwordHash: string, device: string, now: int): Reply<Uid> {
    match ParseToken(token)
    case None => Reply(db, Err(Invalid))
    case Some(uid) =>
      match SessionError(cfg, db, uid, token, now)
      case Some(e) => Reply(db, Err(e))
      case None =>
        if IsBound(db, uid) || name in db.identities then Reply(db, Err(Unavailable))
        else
          var a := NewDevice(db.accounts[uid].(guestDevice := None), device);
          Reply(Db(db.accounts[uid := a], db.identities[name := Identity(uid, passwordHash)]), Ok(uid))
  }

  /** The insert of registerDevice; the unique key on the guest device refuses a second holder. */
  ghost function CreateGuestTx(db: Db, uid: Uid, device: string): Reply<Uid> {
    if uid in db.accounts || exists u :: HoldsKey(db, u, device) then Reply(db, Err(GuestDeviceExists))
    else Reply(Save(db, uid, Account(true, "", None, device, Some(device))), Ok(uid))
  }

  /** The transaction of registerDevice: re-check the account the lookup found, or create one. */
  ghost function RegisterDeviceTx(db: Db, found: Option<Uid>, newUid: Uid, device: string): Reply<Uid> {
    match found
    case None => CreateGuestTx(db, newUid, device)
    case Some(uid) =>
      match GuestError(db, uid, device)
      case Some(e) => Reply(db, Err(e))
      case None => Reply(db, Ok(uid))
  }

  predicate Retries(e: AccountError) { e == GuestDeviceExists || e == GuestDeviceChanged }

  // ---- Any number of requests ----

  /** A Login past its lookup; a registerDevice call in its first or second round. */
  datatype Call =
    | LoggingIn(uid: Uid, device: string, guest: bool)
    | Looking(device: string, round: nat)
    | Found(device: string, round: nat, found: Option<Uid>)

  datatype State = State(db: Db, now: int, issued: set<Token>, calls: map<int, Call>)

  /** `ok` says whether the transaction could be committed; `SetActive` is a ban or its lifting. */
  datatype Label =
    | Tick(d: nat)
    | SetActive(uid: Uid, active: bool)
    | LookupGuest(call: int, device: string, uid: Uid)
    | LookupPassword(call: int, name: string, password: string, device: string)
    | LoginCommit(call: int, secret: string, ok: bool)
    | Authenticate(token: Token, device: string, d: nat, ok: bool)
    | Logout(token: Token, ok: bool)
    | RegisterFormal(uid: Uid, name: string, passwordHash: string, device: string, ok: bool)
    | BindIdentity(token: Token, name: string, passwordHash: string, device: string, ok: bool)
    | RegisterBegin(call: int, device: string)
    | RegisterLookup(call: int, found: Option<Uid>)
    | RegisterCommit(call: int, newUid: Uid, ok: bool)

  /** New uids, call numbers and tokens are fresh; lookups read the database as it is. */
  ghost predicate Enabled(cfg: Config, s: State, l: Label) {
    match l
    case Tick(_) => true
    case SetActive(uid, _) => uid in s.db.accounts
    case LookupGuest(c, device, uid) => c !in s.calls && device != "" && ValidDevice(device) && HoldsKey(s.db, uid, device)
    case LookupPassword(c, name, password, device) =>
      c !in s.calls && ValidDevice(device) && name in s.db.identities && cfg.matches(s.db.identities[name].passwordHash, password)
    case LoginCommit(c, secret, _) =>
      c in s.calls && s.calls[c].LoggingIn? && IsUuid(s.calls[c].uid) && IsSecret(secret)
      && NewToken(s.calls[c].uid, secret) !in s.issued
    case Authenticate(_, device, _, _) => ValidDevice(device)
    case Logout(_, _) => true
    case RegisterFormal(uid, _, _, device, _) => uid !in s.db.accounts && IsUuid(uid) && ValidDevice(device)
    case BindIdentity(_, _, _, device, _) => ValidDevice(device)
    case RegisterBegin(c, device) => c !in s.calls && device != "" && ValidDevice(device)
    case RegisterLookup(c, found) =>
      c in s.calls && s.calls[c].Looking?
      && (found.Some? ==> HoldsKey(s.db, found.value, s.calls[c].device))
      && (found.None? ==> forall u :: !HoldsKey(s.db, u, s.calls[c].device))
    case RegisterCommit(c, newUid, _) => c in s.calls && s.calls[c].Found? && newUid !in s.db.accounts && IsUuid(newUid)
  }

  /** What a registerDevice transaction answers. */
  ghost function RegisterReply(s: State, c: int, newUid: Uid, ok: bool): Reply<Uid>
    requires c in s.calls && s.calls[c].Found?
  {
    if ok then RegisterDeviceTx(s.db, s.calls[c].found, newUid, s.calls[c].device) else Reply(s.db, Err(StorageFailed))
  }

  ghost function Apply(cfg: Config, s: State, l: Label): State
    requires Enabled(cfg, s, l)
  {
    match l
    case Tick(d) => s.(now := s.now + d)
    case SetActive(uid, active) => s.(db := Save(s.db, uid, s.db.accounts[uid].(active := active)))
    case LookupGuest(c, device, uid) => s.(calls := s.calls[c := LoggingIn(uid, device, true)])
    case LookupPassword(c, name, _, device) => s.(calls := s.calls[c := LoggingIn(s.db.identities[name].uid, device, false)])
    case LoginCommit(c, secret, ok) =>
      var token := NewToken(s.calls[c].uid, secret);
      var reply := LoginTx(cfg, s.db, s.calls[c].uid, s.calls[c].device, s.calls[c].guest, token, s.now);
      s.(db := if ok then reply.db else s.db, issued := s.issued + {token}, calls := s.calls - {c})
    case Authenticate(token, device, d, ok) =>
      s.(db := if ok then AuthenticateTx(cfg, s.db, token, device, s.now, s.now + d).db else s.db, now := s.now + d)
    case Logout(token, ok) => s.(db := if ok then LogoutTx(cfg, s.db, token) else s.db)
    case RegisterFormal(uid, name, passwordHash, device, ok) =>
      s.(db := if ok then CreateFormalTx(s.db, uid, name, passwordHash, device).db else s.db)
    case BindIdentity(token, name, passwordHash, device, ok) =>
      s.(db := if ok then BindTx(cfg, s.db, token, name, passwordHash, device, s.now).db else s.db)
    case RegisterBegin(c, device) => s.(calls := s.calls[c := Looking(device, 0)])
    case RegisterLookup(c, found) => s.(calls := s.calls[c := Found(s.calls[c].device, s.calls[c].round, found)])
    case RegisterCommit(c, newUid, ok) =>
      var reply := RegisterReply(s, c, newUid, ok);
      var again := reply.answer.Err? && Retries(reply.answer.error) && s.calls[c].round + 1 < 2;
      s.(db := reply.db,
         calls := if again then s.calls[c := Looking(s.calls[c].device, s.calls[c].round + 1)] else s.calls - {c})
  }

  const INIT := State(Db(map[], map[]), 0, {}, map[])

  ghost predicate IsRun(cfg: Config, run: seq<State>, labels: seq<Label>) {
    && |run| == |labels| + 1 && run[0] == INIT
    && forall i :: 0 <= i < |labels| ==> Enabled(cfg, run[i], labels[i]) && run[i + 1] == Apply(cfg, run[i], labels[i])
  }
}
