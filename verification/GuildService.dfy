/** The guild service as an object: every command locks, checks and writes rows in the source's order
    and is proved to be the transaction that `Guild` gives for it. */
module GuildService {
  import opened Common
  import opened Guild

  class Service {
    var db: Db

    constructor (players: set<Uid>)
      ensures db == INIT.db.(players := players)
    {
      db := INIT.db.(players := players);
    }

    /** lockGuildPlayers: the rows are locked in the order of their uids. */
    method LockPlayers(uids: seq<Uid>) returns (ok: bool)
      ensures ok <==> forall u :: u in uids ==> u in db.players
    {
      for i := 0 to |uids|
        invariant forall j :: 0 <= j < i ==> uids[j] in db.players
      {
        if uids[i] !in db.players { return false; }
      }
      return true;
    }

    method DeleteApplicationsByUid(uid: Uid)
      modifies this
      ensures db == old(db).(applications := Withdrawn(old(db).applications, uid))
    {
      db := db.(applications := set a | a in db.applications && a.1 != uid);
    }

    /** The insert of a member row: nothing happens when the uid already has one. */
    method InsertMember(uid: Uid, gid: Gid, leader: bool, at: int) returns (inserted: bool)
      modifies this
      ensures inserted <==> uid !in old(db).members
      ensures db == if inserted then old(db).(members := old(db).members[uid := Member(gid, leader, at, old(db).nextId)], nextId := old(db).nextId + 1) else old(db)
    {
      if uid in db.members { return false; }
      db := db.(members := db.members[uid := Member(gid, leader, at, db.nextId)], nextId := db.nextId + 1);
      return true;
    }

    method AddMember(uid: Uid, gid: Gid, leader: bool, at: int) returns (error: Option<GuildError>)
      modifies this
      ensures if uid in old(db).members then error == Some(AlreadyInGuild) && db == old(db)
              else error == None && db == Joined(old(db), uid, gid, leader, at)
    {
      var inserted := InsertMember(uid, gid, leader, at);
      if !inserted { return Some(AlreadyInGuild); }
      DeleteApplicationsByUid(uid);
      return None;
    }

    method CreateGuild(uid: Uid, name: string, reqId: string, gid: Gid, at: int) returns (error: Option<GuildError>)
      modifies this
      ensures Reply(db, error) == Create(old(db), uid, name, reqId, gid, at)
    {
      if reqId == "" { return Some(InvalidReqId); }
      if |name| < 2 || |name| > 20 { return Some(InvalidName); }
      var found := LockPlayers([uid]);
      assert found <==> uid in db.players;
      if !found { return Some(PlayerNotFound); }
      if uid in db.members { return Some(AlreadyInGuild); }
      if gid in db.guilds || exists g | g in db.guilds :: db.guilds[g].name == name { return Some(GuildError.NameTaken); }
      db := db.(guilds := db.guilds[gid := GuildRow(name, uid)]);
      error := AddMember(uid, gid, true, at);
    }

    method Apply(uid: Uid, gid: Gid, reqId: string) returns (error: Option<GuildError>)
      modifies this
      ensures Reply(db, error) == ApplyJoin(old(db), uid, gid, reqId)
    {
      if reqId == "" { return Some(InvalidReqId); }
      if gid == "" { return Some(GuildNotFound); }
      var found := LockPlayers([uid]);
      assert found <==> uid in db.players;
      if !found { return Some(PlayerNotFound); }
      if gid !in db.guilds { return Some(GuildNotFound); }
      if uid in db.members { return Some(AlreadyInGuild); }
      if (gid, uid) in db.applications { return Some(ApplicationExists); }
      db := db.(applications := db.applications + {(gid, uid)});
      return None;
    }

    method Approve(operator: Uid, gid: Gid, target: Uid, reqId: string, at: int) returns (error: Option<GuildError>)
      modifies this
      ensures Reply(db, error) == ApproveJoin(old(db), operator, gid, target, reqId, at)
    {
      if reqId == "" { return Some(InvalidReqId); }
      if gid == "" || target == "" || operator == target { return Some(ApplicationNotFound); }
      var found := LockPlayers([operator, target]);
      assert found <==> operator in db.players && target in db.players;
      if !found { return Some(PlayerNotFound); }
      if gid !in db.guilds { return Some(GuildNotFound); }
      if operator !in db.members { return Some(PermissionDenied); }
      var membership := db.members[operator];
      if membership.gid != gid || !membership.leader { return Some(PermissionDenied); }
      if (gid, target) !in db.applications { return Some(ApplicationNotFound); }
      if target in db.members { return Some(AlreadyInGuild); }
      error := AddMember(target, gid, false, at);
    }

    /** FindGuildSuccessorForUpdate: a pass over the member rows of the guild. */
    method FindSuccessor(gid: Gid, leaver: Uid) returns (heir: Option<Uid>)
      ensures IsHeir(db, gid, leaver, heir)
    {
      heir := None;
      var rest := db.members.Keys;
      while rest != {}
        invariant rest <= db.members.Keys
        invariant heir.Some? ==> Fellow(db, gid, leaver, heir.value)
        invariant forall v :: Fellow(db, gid, leaver, v) && v !in rest ==> heir.Some? && NoLater(db.members[heir.value], db.members[v])
        decreases |rest|
      {
        assert (forall u :: u !in rest) ==> rest == {};
        var u :| u in rest;
        if u != leaver && db.members[u].gid == gid && (heir.None? || !NoLater(db.members[heir.value], db.members[u])) {
          heir := Some(u);
        }
        rest := rest - {u};
      }
    }

    method TransferLeadership(gid: Gid, leaver: Uid, heir: Uid)
      requires gid in db.guilds && heir in db.members
      modifies this
      ensures db == Promoted(old(db), gid, leaver, heir)
    {
      db := db.(members := db.members[heir := db.members[heir].(leader := true)]);
      db := db.(guilds := db.guilds[gid := db.guilds[gid].(owner := heir)]);
      db := db.(members := db.members - {leaver});
    }

    method DeleteGuild(gid: Gid, leaver: Uid)
      modifies this
      ensures db == Dissolved(old(db), gid, leaver)
    {
      db := db.(messages := db.messages - {gid});
      db := db.(applications := set a | a in db.applications && a.0 != gid);
      db := db.(members := db.members - {leaver});
      db := db.(guilds := db.guilds - {gid});
    }

    method LeaveGuild(uid: Uid, reqId: string) returns (error: Option<GuildError>, ghost heir: Option<Uid>)
      modifies this
      ensures StepsDown(old(db), uid, reqId) ==> IsHeir(old(db), old(db).members[uid].gid, uid, heir)
      ensures Reply(db, error) == Leave(old(db), uid, reqId, heir)
    {
      heir := None;
      if reqId == "" { return Some(InvalidReqId), heir; }
      var found := LockPlayers([uid]);
      assert found <==> uid in db.players;
      if !found { return Some(PlayerNotFound), heir; }
      if uid !in db.members { return Some(NotGuildMember), heir; }
      var gid := db.members[uid].gid;
      if gid !in db.guilds { return Some(GuildNotFound), heir; }
      if !db.members[uid].leader {
        db := db.(members := db.members - {uid});
        return None, heir;
      }
      var successor := FindSuccessor(gid, uid);
      heir := successor;
      if successor.None? { DeleteGuild(gid, uid); } else { TransferLeadership(gid, uid, successor.value); }
      return None, heir;
    }
  }
}
