/** The stores behind player ownership: the Redis record of which server a player is on
    (internal/infra/redis/player_owner_store.go), one server's uid-to-connection table
    (internal/platform/session/manager.go), and the reconciler's decision
    (internal/app/gameserver/player_owner_reconciler.go). The functions say what each script or
    critical section does to its table; `Ownership` builds the step system from them. */
module OwnerStore {
  import opened Common

  type Uid = string
  type Node = string
  type Conn = string

  /** A record is gone once the clock reaches `expires`. */
  datatype Owner = Owner(server: Node, conn: Conn, expires: int)

  type Owners = map<Uid, Owner>

  function Live(owners: Owners, now: int, uid: Uid): Option<Owner> {
    if uid in owners && now < owners[uid].expires then Some(owners[uid]) else None
  }

  function RecordOf(owners: Owners, uid: Uid): Option<Owner> { if uid in owners then Some(owners[uid]) else None }

  // ---- The three scripts ----

  function Claimed(owners: Owners, now: int, uid: Uid, server: Node, conn: Conn, ttl: int): Owners {
    owners[uid := Owner(server, conn, now + ttl)]
  }

  function MarkedOffline(owners: Owners, now: int, uid: Uid, server: Node, conn: Conn, ttl: int): Owners {
    match Live(owners, now, uid)
    case Some(o) => if o.server == server && o.conn == conn then owners[uid := o.(expires := now + ttl)] else owners
    case None => owners
  }

  function Refreshed(owners: Owners, now: int, uid: Uid, server: Node, ttl: int): Owners {
    match Live(owners, now, uid)
    case Some(o) => if o.server == server then owners[uid := o.(expires := now + ttl)] else owners
    case None => owners
  }

  datatype StoreError = InvalidArgument | Unavailable

  /** What became of a call: it was answered, it ran but its reply was lost, or it never got there. */
  datatype Wire = Answered | ReplyLost | Unreached

  /** The uids a pipeline has a command for. */
  function NonEmpty(uids: seq<Uid>): seq<Uid> {
    if uids == [] then [] else NonEmpty(uids[..|uids| - 1]) + if uids[|uids| - 1] != "" then [uids[|uids| - 1]] else []
  }

  lemma {:induction false} InNonEmpty(uids: seq<Uid>)
    ensures forall uid :: uid in NonEmpty(uids) <==> uid in uids && uid != ""
  {
    if uids != [] {
      InNonEmpty(uids[..|uids| - 1]);
      assert uids == uids[..|uids| - 1] + [uids[|uids| - 1]];
    }
  }

  class PlayerOwnerStore {
    var owners: Owners

    constructor ()
      ensures owners == map[]
    {
      owners := map[];
    }

    /** Overwrites the owner and returns the one before; an error may hide that it ran. */
    method Claim(uid: Uid, server: Node, conn: Conn, ttl: int, now: int, wire: Wire) returns (r: Result<Option<Owner>, StoreError>)
      modifies this
      ensures var valid := uid != "" && server != "" && conn != "" && ttl > 0;
        && (r.Ok? <==> valid && wire.Answered?)
        && owners == (if valid && !wire.Unreached? then Claimed(old(owners), now, uid, server, conn, ttl) else old(owners))
        && (valid && !wire.Unreached? ==> Live(owners, now, uid) == Some(Owner(server, conn, now + ttl)))
      ensures r.Ok? ==> r.value == Live(old(owners), now, uid)
      ensures forall u :: u != uid ==> RecordOf(owners, u) == RecordOf(old(owners), u)
    {
      if uid == "" || server == "" || ttl <= 0 { return Err(InvalidArgument); }
      if conn == "" { return Err(InvalidArgument); }
      if wire.Unreached? { return Err(Unavailable); }
      var previous := Live(owners, now, uid);
      owners := owners[uid := Owner(server, conn, now + ttl)];
      if wire.ReplyLost? { return Err(Unavailable); }
      return Ok(previous);
    }

    /** Shortens the record's life only while it is still this connection's. */
    method MarkOffline(uid: Uid, server: Node, conn: Conn, ttl: int, now: int, wire: Wire) returns (r: Result<(), StoreError>)
      modifies this
      ensures var valid := uid != "" && server != "" && conn != "" && ttl > 0;
        && (r.Ok? <==> valid && wire.Answered?)
        && owners == if valid && !wire.Unreached? then MarkedOffline(old(owners), now, uid, server, conn, ttl) else old(owners)
    {
      if uid == "" || server == "" || ttl <= 0 { return Err(InvalidArgument); }
      if conn == "" { return Err(InvalidArgument); }
      if wire.Unreached? { return Err(Unavailable); }
      if uid in owners && now < owners[uid].expires && owners[uid].server == server && owners[uid].conn == conn {
        owners := owners[uid := owners[uid].(expires := now + ttl)];
      }
      if wire.ReplyLost? { return Err(Unavailable); }
      return Ok(());
    }

    /** The commands of a pipeline: one for each uid that is not empty. */
    method Pipeline(uids: seq<Uid>) returns (pipe: seq<Uid>)
      ensures pipe == NonEmpty(uids)
    {
      pipe := [];
      for i := 0 to |uids|
        invariant pipe == NonEmpty(uids[..i])
      {
        assert uids[..i + 1][..i] == uids[..i];
        if uids[i] != "" { pipe := pipe + [uids[i]]; }
      }
      assert uids[..|uids|] == uids;
    }

    /** Reads many owners at once; missing, expired and empty records are absent from the result. An
        empty pipeline is not sent at all. */
    method GetOwners(uids: seq<Uid>, now: int, up: bool) returns (r: Result<map<Uid, Owner>, StoreError>)
      ensures r.Ok? <==> up || forall uid :: uid in uids ==> uid == ""
      ensures r.Ok? ==> forall uid :: uid in r.value <==>
                uid in uids && uid != "" && Live(owners, now, uid).Some? && Live(owners, now, uid).value.server != ""
      ensures r.Ok? ==> forall uid :: uid in r.value ==> Live(owners, now, uid) == Some(r.value[uid])
    {
      var found: map<Uid, Owner> := map[];
      if |uids| == 0 { return Ok(found); }
      var pipe := Pipeline(uids);
      InNonEmpty(uids);
      if |pipe| != 0 && !up {
        assert pipe[0] in pipe;
        return Err(Unavailable);
      }
      for i := 0 to |pipe|
        invariant forall uid :: uid in found <==> uid in pipe[..i] && Live(owners, now, uid).Some? && Live(owners, now, uid).value.server != ""
        invariant forall uid :: uid in found ==> Live(owners, now, uid) == Some(found[uid])
      {
        var uid := pipe[i];
        if uid in owners && now < owners[uid].expires && owners[uid].server != "" {
          found := found[uid := owners[uid]];
        }
      }
      assert pipe[..|pipe|] == pipe;
      return Ok(found);
    }

    /** Renews the listed players that are still this server's: all of them, or those among the first
        `ran` commands when the connection broke. */
    method RefreshOwned(server: Node, uids: seq<Uid>, ttl: int, now: int, up: bool, ran: nat) returns (r: Result<(), StoreError>)
      modifies this
      ensures r.Ok? <==> server != "" && ttl > 0 && (up || forall uid :: uid in uids ==> uid == "")
      ensures owners.Keys == old(owners).Keys
      ensures forall uid :: uid in owners ==>
                owners[uid] == if server != "" && ttl > 0 && uid in Sent(NonEmpty(uids), up, ran) then Refreshed(old(owners), now, uid, server, ttl)[uid]
                               else old(owners)[uid]
    {
      if server == "" || ttl <= 0 { return Err(InvalidArgument); }
      if |uids| == 0 { return Ok(()); }
      var pipe := Pipeline(uids);
      InNonEmpty(uids);
      var sent := Sent(pipe, up, ran);
      RunPipeline(server, sent, ttl, now);
      if |pipe| != 0 && !up {
        assert pipe[0] in pipe;
        return Err(Unavailable);
      }
      return Ok(());
    }

    method RunPipeline(server: Node, pipe: seq<Uid>, ttl: int, now: int)
      requires ttl > 0
      modifies this
      ensures owners.Keys == old(owners).Keys
      ensures forall uid :: uid in owners ==>
                owners[uid] == if uid in pipe then Refreshed(old(owners), now, uid, server, ttl)[uid] else old(owners)[uid]
    {
      for i := 0 to |pipe|
        invariant owners.Keys == old(owners).Keys
        invariant forall uid :: uid in owners ==>
                    owners[uid] == if uid in pipe[..i] then Refreshed(old(owners), now, uid, server, ttl)[uid] else old(owners)[uid]
      {
        var uid := pipe[i];
        if uid in owners && now < owners[uid].expires && owners[uid].server == server {
          owners := owners[uid := owners[uid].(expires := now + ttl)];
        }
      }
      assert pipe[..|pipe|] == pipe;
    }
  }

  /** The commands that reached the store. */
  function Sent(pipe: seq<Uid>, up: bool, ran: nat): seq<Uid> { if up || |pipe| <= ran then pipe else pipe[..ran] }

  /** Server and connection are those of the live record. */
  predicate IsLiveClaim(owners: Owners, now: int, uid: Uid, server: Node, conn: Conn) {
    Live(owners, now, uid).Some? && owners[uid].server == server && owners[uid].conn == conn
  }

  /** The offline script re-dates the record of exactly that claim, and touches nothing else. */
  lemma OfflineTouchesOnlyItsOwnClaim(owners: Owners, now: int, uid: Uid, server: Node, conn: Conn, ttl: int, u: Uid)
    ensures RecordOf(MarkedOffline(owners, now, uid, server, conn, ttl), u)
         == if u == uid && IsLiveClaim(owners, now, uid, server, conn) then Some(Owner(server, conn, now + ttl)) else RecordOf(owners, u)
  {
  }

  /** The renewal re-dates a live record of that server, whatever its connection, and touches nothing else. */
  lemma RefreshTouchesOnlyItsOwnServer(owners: Owners, now: int, uid: Uid, server: Node, ttl: int, u: Uid)
    ensures RecordOf(Refreshed(owners, now, uid, server, ttl), u)
         == if u == uid && Live(owners, now, u).Some? && owners[u].server == server then Some(owners[u].(expires := now + ttl)) else RecordOf(owners, u)
  {
  }

  // ---- One server's session table ----

  function Bound(items: map<Uid, Conn>, uid: Uid, conn: Conn): map<Uid, Conn> { items[uid := conn] }

  function Unbound(items: map<Uid, Conn>, uid: Uid, conn: Conn): map<Uid, Conn> {
    if uid in items && (conn == "" || items[uid] == conn) then items - {uid} else items
  }

  class MemoryManager {
    var items: map<Uid, Conn>

    constructor ()
      ensures items == map[]
    {
      items := map[];
    }

    /** A player who is already online is let in at the limit: the number of sessions does not grow. */
    method BindWithinLimit(uid: Uid, conn: Conn, max: int) returns (prior: Option<Conn>, accepted: bool)
      modifies this
      ensures accepted <==> uid in old(items) || max <= 0 || |old(items)| < max
      ensures items == if accepted then Bound(old(items), uid, conn) else old(items)
      ensures accepted ==> uid in items && items[uid] == conn
      ensures forall u :: u != uid ==> (u in items <==> u in old(items)) && (u in items ==> items[u] == old(items)[u])
      ensures prior == if uid in old(items) then Some(old(items)[uid]) else None
      ensures max > 0 && |old(items)| <= max ==> |items| <= max
    {
      prior := if uid in items then Some(items[uid]) else None;
      if prior.None? && max > 0 && |items| >= max {
        return prior, false;
      }
      assert items.Keys + {uid} == Bound(items, uid, conn).Keys;
      if uid in items { assert items.Keys + {uid} == items.Keys; }
      items := items[uid := conn];
      return prior, true;
    }

    method Unbind(uid: Uid, conn: Conn)
      modifies this
      ensures items == Unbound(old(items), uid, conn)
      ensures forall u :: u in items <==> u in old(items) && !(u == uid && (conn == "" || old(items)[u] == conn))
      ensures forall u :: u in items ==> items[u] == old(items)[u]
    {
      if uid in items && (conn == "" || items[uid] == conn) {
        items := items - {uid};
      }
    }
  }

  // ---- The reconciler ----

  datatype Verdict = Keep | Remove | Renew

  /** What the reconciler decides for one local player from what it has read. */
  function Judge(node: Node, active: set<Uid>, snapshot: map<Uid, Owner>, uid: Uid): Verdict {
    if uid !in snapshot then (if uid in active then Keep else Remove)
    else if snapshot[uid].server != node then Remove
    else if uid in active then Renew
    else Keep
  }

  /** One pass over the local players: whom to remove and whom to renew. */
  method Reconcile(node: Node, uids: seq<Uid>, active: set<Uid>, snapshot: map<Uid, Owner>)
    returns (remove: seq<Uid>, renew: seq<Uid>)
    ensures forall uid :: uid in remove <==> uid in uids && Judge(node, active, snapshot, uid) == Remove
    ensures forall uid :: uid in renew <==> uid in uids && Judge(node, active, snapshot, uid) == Renew
    ensures forall uid :: uid in remove <==> uid in uids && if uid in snapshot then snapshot[uid].server != node else uid !in active
    ensures forall uid :: uid in renew <==> uid in uids && uid in snapshot && snapshot[uid].server == node && uid in active
  {
    remove, renew := [], [];
    for i := 0 to |uids|
      invariant forall uid :: uid in remove <==> uid in uids[..i] && Judge(node, active, snapshot, uid) == Remove
      invariant forall uid :: uid in renew <==> uid in uids[..i] && Judge(node, active, snapshot, uid) == Renew
    {
      var uid := uids[i];
      if uid !in snapshot {
        if uid !in active {
          remove := remove + [uid];
        }
      } else if snapshot[uid].server != node {
        remove := remove + [uid];
      } else if uid in active {
        renew := renew + [uid];
      }
    }
    assert uids[..|uids|] == uids;
  }
}
