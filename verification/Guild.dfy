/** Guilds, members, applications and guild chat (internal/globalcore/guild_service.go,
    internal/repo/guild_repo.go).

    A command is one transaction, so one function on the tables. Names and ids are taken as already
    trimmed. Sending a chat message is two steps: the channel is looked up before the row is inserted. */
module Guild {
  import opened Common

  type Uid = string
  type Gid = string

  datatype GuildRow = GuildRow(name: string, owner: Uid)

  /** `id` is the auto-increment key; members are keyed by their unique uid. */
  datatype Member = Member(gid: Gid, leader: bool, joinedAt: int, id: nat)

  datatype Db = Db(
    players: set<Uid>, guilds: map<Gid, GuildRow>, members: map<Uid, Member>, nextId: nat,
    applications: set<(Gid, Uid)>, messages: map<Gid, seq<string>>)

  datatype GuildError =
    | InvalidReqId | InvalidName | PlayerNotFound | GuildNotFound | AlreadyInGuild | NotGuildMember
    | NameTaken | PermissionDenied | ApplicationExists | ApplicationNotFound

  datatype Reply = Reply(db: Db, error: Option<GuildError>)

  predicate NameTaken(db: Db, name: string) { exists g | g in db.guilds :: db.guilds[g].name == name }

  function Withdrawn(applications: set<(Gid, Uid)>, uid: Uid): set<(Gid, Uid)> {
    set a | a in applications && a.1 != uid
  }

  /** Insert a member row; it takes the next key, and the player's applications are withdrawn. */
  function Joined(db: Db, uid: Uid, gid: Gid, leader: bool, at: int): Db {
    db.(members := db.members[uid := Member(gid, leader, at, db.nextId)], nextId := db.nextId + 1,
        applications := Withdrawn(db.applications, uid))
  }

  function Create(db: Db, uid: Uid, name: string, reqId: string, gid: Gid, at: int): Reply {
    if reqId == "" then Reply(db, Some(InvalidReqId))
    else if !(2 <= |name| <= 20) then Reply(db, Some(InvalidName))
    else if uid !in db.players then Reply(db, Some(PlayerNotFound))
    else if uid in db.members then Reply(db, Some(AlreadyInGuild))
    else if gid in db.guilds || NameTaken(db, name) then Reply(db, Some(GuildError.NameTaken))
    else Reply(Joined(db.(guilds := db.guilds[gid := GuildRow(name, uid)]), uid, gid, true, at), None)
  }

  function ApplyJoin(db: Db, uid: Uid, gid: Gid, reqId: string): Reply {
    if reqId == "" then Reply(db, Some(InvalidReqId))
    else if gid == "" then Reply(db, Some(GuildNotFound))
    else if uid !in db.players then Reply(db, Some(PlayerNotFound))
    else if gid !in db.guilds then Reply(db, Some(GuildNotFound))
    else if uid in db.members then Reply(db, Some(AlreadyInGuild))
    else if (gid, uid) in db.applications then Reply(db, Some(ApplicationExists))
    else Reply(db.(applications := db.applications + {(gid, uid)}), None)
  }

  predicate Leads(db: Db, uid: Uid, gid: Gid) {
    uid in db.members && db.members[uid].gid == gid && db.members[uid].leader
  }

  function ApproveJoin(db: Db, operator: Uid, gid: Gid, target: Uid, reqId: string, at: int): Reply {
    if reqId == "" then Reply(db, Some(InvalidReqId))
    else if gid == "" || target == "" || operator == target then Reply(db, Some(ApplicationNotFound))
    else if operator !in db.players || target !in db.players then Reply(db, Some(PlayerNotFound))
    else if gid !in db.guilds then Reply(db, Some(GuildNotFound))
    else if !Leads(db, operator, gid) then Reply(db, Some(PermissionDenied))
    else if (gid, target) !in db.applications then Reply(db, Some(ApplicationNotFound))
    else if target in db.members then Reply(db, Some(AlreadyInGuild))
    else Reply(Joined(db, target, gid, false, at), None)
  }

  predicate NoLater(a: Member, b: Member) { a.joinedAt < b.joinedAt || (a.joinedAt == b.joinedAt && a.id <= b.id) }

  predicate Fellow(db: Db, gid: Gid, leaver: Uid, uid: Uid) {
    uid in db.members && uid != leaver && db.members[uid].gid == gid
  }

  /** The first of the other members by time of joining, then by key; None when there is no other. */
  ghost predicate IsHeir(db: Db, gid: Gid, leaver: Uid, heir: Option<Uid>) {
    match heir
    case None => forall v :: !Fellow(db, gid, leaver, v)
    case Some(h) => Fellow(db, gid, leaver, h) && forall v :: Fellow(db, gid, leaver, v) ==> NoLater(db.members[h], db.members[v])
  }

  function Promoted(db: Db, gid: Gid, leaver: Uid, heir: Uid): Db
    requires gid in db.guilds && heir in db.members
  {
    db.(members := db.members[heir := db.members[heir].(leader := true)] - {leaver},
        guilds := db.guilds[gid := db.guilds[gid].(owner := heir)])
  }

  function Dissolved(db: Db, gid: Gid, leaver: Uid): Db {
    db.(messages := db.messages - {gid}, applications := (set a | a in db.applications && a.0 != gid),
        members := db.members - {leaver}, guilds := db.guilds - {gid})
  }

  /** The leader of a guild asks to leave, and nothing speaks against it. */
  predicate StepsDown(db: Db, uid: Uid, reqId: string) {
    reqId != "" && uid in db.players && uid in db.members && db.members[uid].gid in db.guilds && db.members[uid].leader
  }

  ghost function Leave(db: Db, uid: Uid, reqId: string, heir: Option<Uid>): Reply
    requires StepsDown(db, uid, reqId) ==> IsHeir(db, db.members[uid].gid, uid, heir)
  {
    if reqId == "" then Reply(db, Some(InvalidReqId))
    else if uid !in db.players then Reply(db, Some(PlayerNotFound))
    else if uid !in db.members then Reply(db, Some(NotGuildMember))
    else
      var gid := db.members[uid].gid;
      if gid !in db.guilds then Reply(db, Some(GuildNotFound))
      else if !db.members[uid].leader then Reply(db.(members := db.members - {uid}), None)
      else if heir.Some? then Reply(Promoted(db, gid, uid, heir.value), None)
      else Reply(Dissolved(db, gid, uid), None)
  }

  // ---- What each command does ----

  /** The player is now in the guild, under a key that no member had, and has no application left. */
  ghost predicate IsIn(db: Db, db': Db, uid: Uid, gid: Gid, leader: bool, at: int) {
    && db'.members == db.members[uid := Member(gid, leader, at, db.nextId)] && db'.nextId > db.nextId
    && (forall a :: a in db'.applications <==> a in db.applications && a.1 != uid)
    && db'.players == db.players && db'.messages == db.messages
  }

  /** Founding needs a request id, a name of 2 to 20 characters that no guild has, and a player outside any
      guild, who becomes leader and owner of a guild of that name. */
  lemma CreateMeans(db: Db, uid: Uid, name: string, reqId: string, gid: Gid, at: int)
    requires gid !in db.guilds
    ensures var Reply(db', error) := Create(db, uid, name, reqId, gid, at);
      && error == First(Unless(reqId != "", InvalidReqId), First(Unless(2 <= |name| <= 20, InvalidName),
           First(Unless(uid in db.players, PlayerNotFound), First(Unless(uid !in db.members, AlreadyInGuild),
             Unless(forall g :: g in db.guilds ==> db.guilds[g].name != name, GuildError.NameTaken)))))
      && (if error.Some? then db' == db else IsIn(db, db', uid, gid, true, at) && db'.guilds == db.guilds[gid := GuildRow(name, uid)])
  {
  }

  /** Applying needs a guild that exists and a player outside any guild without an application there; then
      the application stands. */
  lemma ApplyMeans(db: Db, uid: Uid, gid: Gid, reqId: string)
    ensures var Reply(db', error) := ApplyJoin(db, uid, gid, reqId);
      && error == First(Unless(reqId != "", InvalidReqId), First(Unless(gid != "", GuildNotFound),
           First(Unless(uid in db.players, PlayerNotFound), First(Unless(gid in db.guilds, GuildNotFound),
             First(Unless(uid !in db.members, AlreadyInGuild), Unless((gid, uid) !in db.applications, ApplicationExists))))))
      && db' == db.(applications := db'.applications)
      && forall a :: a in db'.applications <==> a in db.applications || (error.None? && a == (gid, uid))
  {
  }

  /** Approving needs the guild's leader and an application that stands; then the applicant is a member. */
  lemma ApproveMeans(db: Db, operator: Uid, gid: Gid, target: Uid, reqId: string, at: int)
    ensures var Reply(db', error) := ApproveJoin(db, operator, gid, target, reqId, at);
      var leads := operator in db.members && db.members[operator].gid == gid && db.members[operator].leader;
      && error == First(Unless(reqId != "", InvalidReqId), First(Unless(gid != "" && target != "" && operator != target, ApplicationNotFound),
           First(Unless(operator in db.players && target in db.players, PlayerNotFound), First(Unless(gid in db.guilds, GuildNotFound),
             First(Unless(leads, PermissionDenied), First(Unless((gid, target) in db.applications, ApplicationNotFound),
               Unless(target !in db.members, AlreadyInGuild)))))))
      && (if error.Some? then db' == db else IsIn(db, db', target, gid, false, at) && db'.guilds == db.guilds)
  {
  }

  /** Whoever may leave does. Of a leader's guild the heir becomes leader and owner; without one the guild
      goes with its channel and applications. Nothing else changes: no other member, guild or channel. */
  lemma LeaveMeans(db: Db, uid: Uid, reqId: string, heir: Option<Uid>)
    requires StepsDown(db, uid, reqId) ==> IsHeir(db, db.members[uid].gid, uid, heir)
    ensures var Reply(db', error) := Leave(db, uid, reqId, heir);
      && error == First(Unless(reqId != "", InvalidReqId), First(Unless(uid in db.players, PlayerNotFound),
           First(Unless(uid in db.members, NotGuildMember), Unless(uid in db.members ==> db.members[uid].gid in db.guilds, GuildNotFound))))
      && (error.Some? ==> db' == db)
      && (error.None? ==>
            var me := db.members[uid];
            var ends := me.leader && heir.None?;
            && (forall u :: u in db'.members <==> u in db.members && u != uid)
            && (forall u :: u in db'.members ==> db'.members[u] == if me.leader && heir == Some(u) then db.members[u].(leader := true) else db.members[u])
            && (forall g :: g in db'.guilds <==> g in db.guilds && !(ends && g == me.gid))
            && (forall g :: g in db'.guilds ==> db'.guilds[g] == if me.leader && g == me.gid then GuildRow(db.guilds[g].name, heir.value) else db.guilds[g])
            && (forall g :: g in db'.messages <==> g in db.messages && !(ends && g == me.gid))
            && (forall g :: g in db'.messages ==> db'.messages[g] == db.messages[g])
            && (forall a :: a in db'.applications <==> a in db.applications && !(ends && a.0 == me.gid))
            && db'.players == db.players && db'.nextId == db.nextId)
  {
  }

  // ---- What every run keeps ----

  ghost predicate MemberOk(db: Db, u: Uid) {
    u in db.members ==>
      && u in db.players && db.members[u].id < db.nextId
      && db.members[u].gid in db.guilds
      && (db.members[u].leader <==> db.guilds[db.members[u].gid].owner == u)
  }

  ghost predicate GuildOk(db: Db, g: Gid) {
    g in db.guilds ==> db.guilds[g].owner in db.members && db.members[db.guilds[g].owner].gid == g
  }

  ghost predicate ApplicationOk(db: Db, g: Gid, u: Uid) {
    (g, u) in db.applications ==> g in db.guilds && u in db.players && u !in db.members
  }

  ghost predicate NamesApart(db: Db, g: Gid, h: Gid) {
    g in db.guilds && h in db.guilds && db.guilds[g].name == db.guilds[h].name ==> g == h
  }

  ghost predicate KeysApart(db: Db, u: Uid, v: Uid) {
    u in db.members && v in db.members && db.members[u].id == db.members[v].id ==> u == v
  }

  ghost predicate Consistent(db: Db) {
    && (forall u :: MemberOk(db, u))
    && (forall g :: GuildOk(db, g))
    && (forall g, u :: ApplicationOk(db, g, u))
    && (forall g, h :: NamesApart(db, g, h))
    && (forall u, v :: KeysApart(db, u, v))
  }

  /** A chat message whose channel has been looked up. */
  datatype Send = Send(gid: Gid, text: string)

  /** `used` are the guild ids drawn so far, `clock` the last time a command read. */
  datatype State = State(db: Db, used: set<Gid>, clock: int, sends: map<int, Send>)

  /** BurnKeys stands for keys lost to transactions that were rolled back. */
  datatype Label =
    | NewPlayer(uid: Uid)
    | BurnKeys(n: nat)
    | Creates(uid: Uid, name: string, reqId: string, gid: Gid, at: int)
    | Applies(uid: Uid, gid: Gid, reqId: string)
    | Approves(operator: Uid, gid: Gid, target: Uid, reqId: string, at: int)
    | Leaves(uid: Uid, reqId: string, heir: Option<Uid>)
    | LooksUpChannel(call: int, uid: Uid, text: string)
    | InsertsMessage(call: int)

  /** Guild ids are drawn fresh, and the successor is the one the query finds; everything else may
      be asked at any time and is then refused by the command itself. */
  ghost predicate Enabled(s: State, l: Label) {
    match l
    case Creates(_, _, _, gid, _) => gid !in s.used
    case Leaves(uid, reqId, heir) => StepsDown(s.db, uid, reqId) ==> IsHeir(s.db, s.db.members[uid].gid, uid, heir)
    case LooksUpChannel(c, uid, _) => c !in s.sends && uid in s.db.members
    case InsertsMessage(c) => c in s.sends
    case _ => true
  }

  ghost function Answer(s: State, l: Label): Reply
    requires Enabled(s, l)
  {
    match l
    case Creates(uid, name, reqId, gid, at) => Create(s.db, uid, name, reqId, gid, at)
    case Applies(uid, gid, reqId) => ApplyJoin(s.db, uid, gid, reqId)
    case Approves(op, gid, target, reqId, at) => ApproveJoin(s.db, op, gid, target, reqId, at)
    case Leaves(uid, reqId, heir) => Leave(s.db, uid, reqId, heir)
    case _ => Reply(s.db, None)
  }

  function Posted(messages: map<Gid, seq<string>>, m: Send): map<Gid, seq<string>> {
    messages[m.gid := (if m.gid in messages then messages[m.gid] else []) + [m.text]]
  }

  ghost function Apply(s: State, l: Label): State
    requires Enabled(s, l)
  {
    match l
    case NewPlayer(uid) => s.(db := s.db.(players := s.db.players + {uid}))
    case BurnKeys(n) => s.(db := s.db.(nextId := s.db.nextId + n))
    case Creates(_, _, _, gid, at) => s.(db := Answer(s, l).db, used := s.used + {gid}, clock := at)
    case Applies(_, _, _) => s.(db := Answer(s, l).db)
    case Approves(_, _, _, _, at) => s.(db := Answer(s, l).db, clock := at)
    case Leaves(_, _, _) => s.(db := Answer(s, l).db)
    case LooksUpChannel(c, uid, text) =>
      s.(sends := s.sends[c := Send(if uid in s.db.members then s.db.members[uid].gid else "", text)])
    case InsertsMessage(c) => s.(db := s.db.(messages := Posted(s.db.messages, s.sends[c])), sends := s.sends - {c})
  }

  const INIT := State(Db({}, map[], map[], 0, {}, map[]), {}, 0, map[])

  datatype Run = Run(states: seq<State>, labels: seq<Label>)

  ghost predicate IsStep(s: State, l: Label, s': State) { Enabled(s, l) && s' == Apply(s, l) }

  ghost predicate IsRun(r: Run) {
    && |r.states| == |r.labels| + 1
    && r.states[0] == INIT
    && forall i :: 0 <= i < |r.labels| ==> IsStep(r.states[i], r.labels[i], r.states[i + 1])
  }

  lemma JoinedKeeps(db: Db, uid: Uid, gid: Gid, at: int)
    requires Consistent(db) && uid in db.players && uid !in db.members && gid in db.guilds
    ensures Consistent(Joined(db, uid, gid, false, at))
  {
    var db' := Joined(db, uid, gid, false, at);
    assert GuildOk(db, gid);
    forall u ensures MemberOk(db', u) { assert MemberOk(db, u); }
    forall g ensures GuildOk(db', g) { assert GuildOk(db, g); }
    forall g, u ensures ApplicationOk(db', g, u) { assert ApplicationOk(db, g, u); }
    forall g, h ensures NamesApart(db', g, h) { assert NamesApart(db, g, h); }
    forall u, v ensures KeysApart(db', u, v) { assert KeysApart(db, u, v) && MemberOk(db, u) && MemberOk(db, v); }
  }

  lemma CreateKeeps(db: Db, uid: Uid, name: string, reqId: string, gid: Gid, at: int)
    requires Consistent(db)
    ensures Consistent(Create(db, uid, name, reqId, gid, at).db)
  {
    var db' := Create(db, uid, name, reqId, gid, at).db;
    if db' != db {
      forall u ensures MemberOk(db', u) { assert MemberOk(db, u); }
      forall g ensures GuildOk(db', g) { assert GuildOk(db, g); }
      forall g, u ensures ApplicationOk(db', g, u) { assert ApplicationOk(db, g, u); }
      forall g, h ensures NamesApart(db', g, h) { assert NamesApart(db, g, h); }
      forall u, v ensures KeysApart(db', u, v) { assert KeysApart(db, u, v) && MemberOk(db, u) && MemberOk(db, v); }
    }
  }

  lemma LeaveKeeps(db: Db, uid: Uid, reqId: string, heir: Option<Uid>)
    requires Consistent(db) && (StepsDown(db, uid, reqId) ==> IsHeir(db, db.members[uid].gid, uid, heir))
    ensures Consistent(Leave(db, uid, reqId, heir).db)
  {
    var db' := Leave(db, uid, reqId, heir).db;
    if db' != db {
      var gid := db.members[uid].gid;
      assert MemberOk(db, uid) && GuildOk(db, gid);
      forall u ensures MemberOk(db', u) {
        assert MemberOk(db, u);
        assert StepsDown(db, uid, reqId) && heir.None? ==> !Fellow(db, gid, uid, u);
      }
      forall g ensures GuildOk(db', g) { assert GuildOk(db, g); }
      forall g, u ensures ApplicationOk(db', g, u) { assert ApplicationOk(db, g, u); }
      forall g, h ensures NamesApart(db', g, h) { assert NamesApart(db, g, h); }
      forall u, v ensures KeysApart(db', u, v) { assert KeysApart(db, u, v); }
    }
  }

  lemma StepKeeps(s: State, l: Label)
    requires Consistent(s.db) && Enabled(s, l)
    ensures Consistent(Apply(s, l).db)
  {
    var db, db' := s.db, Apply(s, l).db;
    match l
    case Creates(uid, name, reqId, gid, at) => CreateKeeps(db, uid, name, reqId, gid, at);
    case Leaves(uid, reqId, heir) => LeaveKeeps(db, uid, reqId, heir);
    case Approves(op, gid, target, reqId, at) =>
      if db' != db { JoinedKeeps(db, target, gid, at); }
    case _ =>
      forall u ensures MemberOk(db', u) { assert MemberOk(db, u); }
      forall g ensures GuildOk(db', g) { assert GuildOk(db, g); }
      forall g, u ensures ApplicationOk(db', g, u) { assert ApplicationOk(db, g, u); }
      forall g, h ensures NamesApart(db', g, h) { assert NamesApart(db, g, h); }
      forall u, v ensures KeysApart(db', u, v) { assert KeysApart(db, u, v); }
  }

  lemma {:induction false} RunConsistent(r: Run, n: nat)
    requires IsRun(r) && n < |r.states|
    ensures Consistent(r.states[n].db)
  {
    if n > 0 {
      RunConsistent(r, n - 1);
      assert IsStep(r.states[n - 1], r.labels[n - 1], r.states[n - 1 + 1]);
      StepKeeps(r.states[n - 1], r.labels[n - 1]);
    }
  }

  /** In every state of every run, a guild exists exactly while it has members, has exactly one leader
      and that is its owner; members are players; applications come from players outside any guild
      and go to guilds that exist; and no two guilds share a name. */
  lemma EveryRunConsistent(r: Run, n: nat)
    requires IsRun(r) && n < |r.states|
    ensures var db := r.states[n].db;
      && (forall g :: g in db.guilds <==> exists u :: u in db.members && db.members[u].gid == g)
      && (forall g, u :: Leads(db, u, g) <==> g in db.guilds && db.guilds[g].owner == u)
      && (forall u :: u in db.members ==> u in db.players)
      && (forall a :: a in db.applications ==> a.0 in db.guilds && a.1 in db.players && a.1 !in db.members)
      && (forall g, h :: g in db.guilds && h in db.guilds && g != h ==> db.guilds[g].name != db.guilds[h].name)
  {
    RunConsistent(r, n);
    var db := r.states[n].db;
    forall g ensures g in db.guilds <==> exists u :: u in db.members && db.members[u].gid == g {
      assert GuildOk(db, g);
      if u :| u in db.members && db.members[u].gid == g { assert MemberOk(db, u); }
    }
    forall g, u ensures Leads(db, u, g) <==> g in db.guilds && db.guilds[g].owner == u {
      assert GuildOk(db, g) && MemberOk(db, u);
    }
    forall u | u in db.members ensures u in db.players { assert MemberOk(db, u); }
    forall a | a in db.applications ensures a.0 in db.guilds && a.1 in db.players && a.1 !in db.members {
      assert ApplicationOk(db, a.0, a.1);
    }
    forall g, h | g in db.guilds && h in db.guilds && g != h ensures db.guilds[g].name != db.guilds[h].name {
      assert NamesApart(db, g, h);
    }
  }

  /** The query for a successor has one answer. */
  lemma OneHeir(db: Db, gid: Gid, leaver: Uid, a: Option<Uid>, b: Option<Uid>)
    requires Consistent(db) && IsHeir(db, gid, leaver, a) && IsHeir(db, gid, leaver, b)
    ensures a == b
  {
    assert a.Some? ==> Fellow(db, gid, leaver, a.value);
    assert b.Some? ==> Fellow(db, gid, leaver, b.value);
    assert a.Some? && b.Some? ==> KeysApart(db, a.value, b.value);
  }

  // ---- Succession ----

  predicate IsMember(s: State, u: Uid, g: Gid) { u in s.db.members && s.db.members[u].gid == g }

  /** The clock the commands read never runs backwards. */
  ghost predicate Steady(r: Run) {
    && |r.states| == |r.labels| + 1
    && forall i :: 0 <= i < |r.labels| ==>
      match r.labels[i]
      case Creates(_, _, _, _, at) => r.states[i].clock <= at
      case Approves(_, _, _, _, at) => r.states[i].clock <= at
      case _ => true
  }

  /** `u` has been in the guild without a break since a state in which `v` was not in it. */
  ghost predicate Senior(r: Run, n: nat, g: Gid, u: Uid, v: Uid) {
    exists k: nat :: SeniorSince(r, n, g, u, v, k)
  }

  ghost predicate SeniorSince(r: Run, n: nat, g: Gid, u: Uid, v: Uid, k: nat) {
    && k <= n < |r.states|
    && !IsMember(r.states[k], v, g)
    && forall j :: k <= j <= n ==> IsMember(r.states[j], u, g)
  }

  /** Keys and join times follow the order in which the members came. */
  ghost predicate Ranked(r: Run, n: nat, u: Uid, v: Uid)
    requires n < |r.states|
  {
    var members := r.states[n].db.members;
    u in members && v in members && members[u].id < members[v].id ==>
      && members[u].joinedAt <= members[v].joinedAt
      && (members[u].gid == members[v].gid ==> Senior(r, n, members[u].gid, u, v))
  }

  ghost predicate Stamped(s: State, u: Uid) { u in s.db.members ==> s.db.members[u].joinedAt <= s.clock }

  /** A step leaves a member row alone but for its role, or it is the player's own joining or leaving. */
  lemma RowsStay(s: State, l: Label, u: Uid)
    requires Enabled(s, l) && Consistent(s.db)
    ensures var s' := Apply(s, l);
      u in s'.db.members ==>
        if u in s.db.members then s'.db.members[u].(leader := s.db.members[u].leader) == s.db.members[u]
        else s'.db.members[u].id == s.db.nextId && s'.db.members[u].joinedAt == s'.clock
             && (l.Creates? || l.Approves?) && forall v :: v != u ==> (v in s.db.members <==> v in s'.db.members)
  {
  }

  lemma {:induction false} RunRanked(r: Run, n: nat, u: Uid, v: Uid)
    requires IsRun(r) && Steady(r) && n < |r.states|
    ensures Stamped(r.states[n], u) && Stamped(r.states[n], v) && Ranked(r, n, u, v)
  {
    if n > 0 {
      RunRanked(r, n - 1, u, v);
      RunConsistent(r, n - 1);
      var s, l, s' := r.states[n - 1], r.labels[n - 1], r.states[n - 1 + 1];
      assert IsStep(s, l, s');
      RowsStay(s, l, u);
      RowsStay(s, l, v);
      assert MemberOk(s.db, u) && MemberOk(s.db, v);
      var members := s'.db.members;
      if u in members && v in members && members[u].id < members[v].id && members[u].gid == members[v].gid {
        var g := members[u].gid;
        if v in s.db.members {
          var k: nat :| SeniorSince(r, n - 1, g, u, v, k);
          assert SeniorSince(r, n, g, u, v, k);
        } else {
          assert SeniorSince(r, n, g, u, v, n - 1);
        }
      }
    }
  }

  /** When a leader leaves and someone stays, the one who becomes leader and owner has been in the
      guild without a break since before any other of those who stay came in. */
  lemma EarliestJoinerSucceeds(r: Run, n: nat, g: Gid, v: Uid)
    requires IsRun(r) && Steady(r) && n < |r.labels|
    requires r.labels[n].Leaves? && Leads(r.states[n].db, r.labels[n].uid, g)
    requires !IsMember(r.states[n + 1], r.labels[n].uid, g) && IsMember(r.states[n + 1], v, g)
    ensures var db' := r.states[n + 1].db;
      g in db'.guilds && Leads(db', db'.guilds[g].owner, g) && (v != db'.guilds[g].owner ==> Senior(r, n, g, db'.guilds[g].owner, v))
  {
    var s, l := r.states[n], r.labels[n];
    assert IsStep(s, l, r.states[n + 1]);
    RunConsistent(r, n);
    assert MemberOk(s.db, l.uid);
    assert Fellow(s.db, g, l.uid, v);
    var h := l.heir.value;
    if v != h {
      assert NoLater(s.db.members[h], s.db.members[v]);
      assert KeysApart(s.db, h, v);
      RunRanked(r, n, h, v);
      RunRanked(r, n, v, h);
    }
  }

  // ---- Consent ----

  /** The player applied at step `k`, and the application has stood from then on. */
  ghost predicate AppliedSince(r: Run, n: nat, u: Uid, g: Gid, k: nat) {
    && k < n < |r.states| && n <= |r.labels|
    && r.labels[k].Applies? && r.labels[k].uid == u && r.labels[k].gid == g
    && forall j :: k < j <= n ==> (g, u) in r.states[j].db.applications
  }

  lemma {:induction false} ApplicationsAreAsked(r: Run, n: nat, u: Uid, g: Gid) returns (k: nat)
    requires IsRun(r) && n < |r.states| && (g, u) in r.states[n].db.applications
    ensures AppliedSince(r, n, u, g, k)
  {
    var s, l := r.states[n - 1], r.labels[n - 1];
    assert IsStep(s, l, r.states[n - 1 + 1]);
    if (g, u) in s.db.applications { k := ApplicationsAreAsked(r, n - 1, u, g); } else { k := n - 1; }
  }

  /** A player comes into a guild only by founding it or when its leader of the moment approves an
      application the player made and that still stands, and drops out only by leaving. */
  lemma MembershipNeedsConsent(r: Run, n: nat, u: Uid, g: Gid)
    requires IsRun(r) && n < |r.labels|
    ensures var s, l := r.states[n], r.labels[n];
      && (!IsMember(s, u, g) && IsMember(r.states[n + 1], u, g) ==>
            || (l.Creates? && l.uid == u && l.gid == g && g !in s.db.guilds)
            || (l.Approves? && l.target == u && l.gid == g && Leads(s.db, l.operator, g) && exists k :: AppliedSince(r, n, u, g, k)))
      && (IsMember(s, u, g) && !IsMember(r.states[n + 1], u, g) ==> l.Leaves? && l.uid == u)
  {
    var s, l, s' := r.states[n], r.labels[n], r.states[n + 1];
    assert IsStep(s, l, s');
    RunDrawn(r, n, g);
    if l.Approves? && !IsMember(s, u, g) && IsMember(s', u, g) {
      var k := ApplicationsAreAsked(r, n, u, g);
    }
  }

  // ---- Guild chat ----

  predicate Orphaned(s: State, g: Gid) { g in s.db.messages && g !in s.db.guilds }

  /** The step inserts a message into the channel of a guild that is not there any more. */
  predicate LateInsert(s: State, l: Label, g: Gid) {
    l.InsertsMessage? && l.call in s.sends && s.sends[l.call].gid == g && g !in s.db.guilds
  }

  ghost predicate LateInsertAt(r: Run, i: nat, g: Gid) {
    i < |r.labels| && i < |r.states| && LateInsert(r.states[i], r.labels[i], g)
  }

  ghost predicate Drawn(s: State, g: Gid) {
    && (g in s.db.guilds ==> g in s.used)
    && (g in s.db.messages ==> g in s.used)
    && (forall c :: c in s.sends && s.sends[c].gid == g ==> g in s.used)
  }

  lemma {:induction false} RunDrawn(r: Run, n: nat, g: Gid)
    requires IsRun(r) && n < |r.states|
    ensures Drawn(r.states[n], g)
  {
    if n > 0 {
      RunDrawn(r, n - 1, g);
      RunConsistent(r, n - 1);
      var s, l := r.states[n - 1], r.labels[n - 1];
      assert IsStep(s, l, r.states[n - 1 + 1]);
      assert forall u :: u in s.db.members ==> MemberOk(s.db, u);
    }
  }

  /** A message goes to the end of the channel of the guild its sender was in when it was looked up, and
      to no other channel. */
  lemma SendingMeans(s: State, c: int, uid: Uid, text: string, t: State)
    requires Enabled(s, LooksUpChannel(c, uid, text))
    requires c in t.sends && t.sends[c] == Apply(s, LooksUpChannel(c, uid, text)).sends[c]
    ensures var g, t' := s.db.members[uid].gid, Apply(t, InsertsMessage(c));
      && g in t'.db.messages && t'.db.messages[g] == (if g in t.db.messages then t.db.messages[g] else []) + [text]
      && t'.db == t.db.(messages := t.db.messages[g := t'.db.messages[g]]) && c !in t'.sends
  {
  }

  /** A new guild starts with an empty channel. */
  lemma NewGuildHasEmptyChannel(r: Run, n: nat)
    requires IsRun(r) && n < |r.labels| && r.labels[n].Creates?
    ensures r.labels[n].gid !in r.states[n + 1].db.messages
  {
    RunDrawn(r, n, r.labels[n].gid);
    assert IsStep(r.states[n], r.labels[n], r.states[n + 1]);
  }

  lemma OrphanStep(s: State, l: Label, g: Gid)
    requires Enabled(s, l) && Consistent(s.db) && Drawn(s, g)
    ensures Orphaned(Apply(s, l), g) <==> Orphaned(s, g) || LateInsert(s, l, g)
  {
    assert l.Leaves? && l.uid in s.db.members ==> MemberOk(s.db, l.uid);
  }

  ghost predicate LateBefore(r: Run, n: nat, g: Gid) { exists i: nat :: i < n && LateInsertAt(r, i, g) }

  lemma LateNext(r: Run, n: nat, g: Gid)
    ensures LateBefore(r, n + 1, g) <==> LateBefore(r, n, g) || LateInsertAt(r, n, g)
  {
    if LateBefore(r, n, g) {
      var i: nat :| i < n && LateInsertAt(r, i, g);
      assert i < n + 1;
    }
    assert n < n + 1;
  }

  lemma OrphanRunStep(r: Run, n: nat, g: Gid)
    requires IsRun(r) && n < |r.labels|
    ensures Orphaned(r.states[n + 1], g) <==> Orphaned(r.states[n], g) || LateInsertAt(r, n, g)
  {
    RunDrawn(r, n, g);
    RunConsistent(r, n);
    assert IsStep(r.states[n], r.labels[n], r.states[n + 1]);
    OrphanStep(r.states[n], r.labels[n], g);
  }

  /** Messages outlive their guild exactly when one was inserted after the guild was gone: disbanding
      deletes the channel, but not what a send that has already looked it up inserts later. */
  lemma {:induction false} OrphansAreLateInserts(r: Run, n: nat, g: Gid)
    requires IsRun(r) && n < |r.states|
    ensures Orphaned(r.states[n], g) <==> LateBefore(r, n, g)
  {
    if n > 0 {
      OrphansAreLateInserts(r, n - 1, g);
      OrphanRunStep(r, n - 1, g);
      LateNext(r, n - 1, g);
    }
  }

  /** That does happen: the channel is looked up, the only member leaves, the message is inserted. */
  lemma LateInsertHappens() returns (r: Run)
    ensures IsRun(r) && exists g :: Orphaned(r.states[|r.labels|], g)
  {
    var s0 := INIT;
    var l0 := NewPlayer("u");
    var s1 := Apply(s0, l0);
    var l1 := Creates("u", "ab", "r1", "g", 5);
    var s2 := Apply(s1, l1);
    var l2 := LooksUpChannel(0, "u", "hi");
    var s3 := Apply(s2, l2);
    var l3 := Leaves("u", "r2", None);
    assert forall v :: !Fellow(s3.db, "g", "u", v);
    var s4 := Apply(s3, l3);
    var l4 := InsertsMessage(0);
    var s5 := Apply(s4, l4);
    r := Run([s0, s1, s2, s3, s4, s5], [l0, l1, l2, l3, l4]);
    assert IsStep(s0, l0, s1) && IsStep(s1, l1, s2) && IsStep(s2, l2, s3) && IsStep(s3, l3, s4) && IsStep(s4, l4, s5);
    assert s5.db.messages["g"] == ["hi"];
    assert Orphaned(r.states[|r.labels|], "g");
  }
}
