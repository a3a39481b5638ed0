/** The retry cache (internal/platform/session/command_cache.go): for each player a bounded list of
    recent results, oldest first, which expires as a whole. */
module CommandCache {
  import opened Common

  type Uid = string
  type ReqId = string

  datatype Entry = Entry(opCode: int, payloadHash: string, result: string)

  datatype PlayerCache = PlayerCache(expiresAt: int, order: seq<ReqId>, entries: map<ReqId, Entry>)

  type Players = map<Uid, PlayerCache>

  datatype Config = Config(ttl: int, maxEntries: int, maxBytes: int)

  ghost predicate NoDuplicates(order: seq<ReqId>) { forall i, j :: 0 <= i < j < |order| ==> order[i] != order[j] }

  ghost predicate Lists(order: seq<ReqId>, entries: map<ReqId, Entry>) { forall id :: id in entries <==> id in order }

  /** `order` lists every cached id once, and there are never more than the limit. */
  ghost predicate PlayerOk(cfg: Config, p: PlayerCache) {
    NoDuplicates(p.order) && Lists(p.order, p.entries) && |p.order| <= cfg.maxEntries
  }

  ghost predicate Valid(cfg: Config, players: Players) {
    forall uid :: uid in players ==> uid != "" && PlayerOk(cfg, players[uid])
  }

  function Lookup(players: Players, uid: Uid, reqId: ReqId, now: int): Option<Entry> {
    if reqId != "" && uid in players && now <= players[uid].expiresAt && reqId in players[uid].entries
    then Some(players[uid].entries[reqId]) else None
  }

  function Expire(players: Players, uid: Uid, now: int): Players {
    if uid in players && now > players[uid].expiresAt then players - {uid} else players
  }

  /** Get drops an expired player, but not for an empty request id. */
  function AfterGet(players: Players, uid: Uid, reqId: ReqId, now: int): Players {
    if reqId == "" then players else Expire(players, uid, now)
  }

  predicate Accepts(cfg: Config, uid: Uid, reqId: ReqId, e: Entry) {
    uid != "" && reqId != "" && cfg.ttl > 0 && cfg.maxEntries > 0 && |e.result| <= cfg.maxBytes
  }

  /** The last `n` of a list. */
  function Last<T>(s: seq<T>, n: nat): seq<T> { if |s| <= n then s else s[|s| - n..] }

  /** A new id goes to the end and pushes the oldest out; a known one keeps its position. */
  function Put(cfg: Config, players: Players, uid: Uid, reqId: ReqId, e: Entry, now: int, later: int): Players
    requires Accepts(cfg, uid, reqId, e)
  {
    players[uid := Added(cfg, Current(players, uid, now), reqId, e, later)]
  }

  function Added(cfg: Config, p: PlayerCache, reqId: ReqId, e: Entry, later: int): PlayerCache
    requires cfg.maxEntries > 0
  {
    var order := Last(Listed(p, reqId), cfg.maxEntries);
    PlayerCache(later + cfg.ttl, order, Kept(p.entries[reqId := e], order))
  }

  /** The player's cache, or a new one when it is missing or expired. */
  function Current(players: Players, uid: Uid, now: int): PlayerCache {
    if uid in players && now <= players[uid].expiresAt then players[uid] else PlayerCache(0, [], map[])
  }

  function Listed(p: PlayerCache, reqId: ReqId): seq<ReqId> { if reqId in p.entries then p.order else p.order + [reqId] }

  function Kept(entries: map<ReqId, Entry>, order: seq<ReqId>): map<ReqId, Entry> {
    map id | id in entries && id in order :: entries[id]
  }

  /** CleanupExpired. */
  function Cleaned(players: Players, now: int): Players {
    map uid | uid in players && now <= players[uid].expiresAt :: players[uid]
  }

  lemma ListedOk(p: PlayerCache, reqId: ReqId, e: Entry)
    requires NoDuplicates(p.order) && Lists(p.order, p.entries)
    ensures NoDuplicates(Listed(p, reqId)) && Lists(Listed(p, reqId), p.entries[reqId := e])
  {
    assert reqId !in p.entries ==> reqId !in p.order;
  }

  lemma LastKeeps(order: seq<ReqId>, n: nat)
    requires NoDuplicates(order)
    ensures NoDuplicates(Last(order, n)) && |Last(order, n)| <= n && forall id :: id in Last(order, n) ==> id in order
  {
    var last := Last(order, n);
    assert forall i :: 0 <= i < |last| ==> last[i] == order[|order| - |last| + i];
  }

  lemma EvictOne(order: seq<ReqId>, all: map<ReqId, Entry>)
    requires NoDuplicates(order) && order != []
    ensures NoDuplicates(order[1..]) && Kept(all, order) - {order[0]} == Kept(all, order[1..])
  {
    assert order == [order[0]] + order[1..];
    assert forall id :: id in order <==> id == order[0] || id in order[1..];
    assert order[0] !in order[1..];
  }

  lemma CurrentOk(cfg: Config, players: Players, uid: Uid, now: int)
    requires Valid(cfg, players) && cfg.maxEntries > 0
    ensures PlayerOk(cfg, Current(players, uid, now))
  {
    assert uid in players ==> PlayerOk(cfg, players[uid]);
  }

  lemma PutKeepsValid(cfg: Config, players: Players, uid: Uid, reqId: ReqId, e: Entry, now: int, later: int)
    requires Valid(cfg, players) && Accepts(cfg, uid, reqId, e)
    ensures Valid(cfg, Put(cfg, players, uid, reqId, e, now, later))
  {
    CurrentOk(cfg, players, uid, now);
    var p := Current(players, uid, now);
    ListedOk(p, reqId, e);
    LastKeeps(Listed(p, reqId), cfg.maxEntries);
    assert PlayerOk(cfg, Put(cfg, players, uid, reqId, e, now, later)[uid]);
  }

  /** What is put is found until the whole player expires, a lifetime after the last put. Of what was there
      before it stays at most what had not expired, and of that all but what the limit pushes out; no other
      player is touched. */
  lemma PutMeans(cfg: Config, players: Players, uid: Uid, reqId: ReqId, e: Entry, now: int, later: int)
    requires Valid(cfg, players) && Accepts(cfg, uid, reqId, e)
    ensures var after := Put(cfg, players, uid, reqId, e, now, later);
      var live := uid in players && now <= players[uid].expiresAt;
      && (forall t :: Lookup(after, uid, reqId, t) == if t <= later + cfg.ttl then Some(e) else None)
      && after[uid].expiresAt == later + cfg.ttl
      && (forall id :: id != reqId && id in after[uid].entries ==>
            live && id in players[uid].entries && after[uid].entries[id] == players[uid].entries[id])
      && (live && (reqId in players[uid].entries || |players[uid].order| < cfg.maxEntries) ==>
            forall id :: id in players[uid].entries ==> id in after[uid].entries)
      && (forall u :: u != uid ==> (u in after <==> u in players) && (u in players ==> after[u] == players[u]))
  {
    CurrentOk(cfg, players, uid, now);
    var p := Current(players, uid, now);
    ListedOk(p, reqId, e);
    var longer := Listed(p, reqId);
    assert reqId in p.entries ==> |longer| <= cfg.maxEntries;
    assert reqId !in p.entries ==> longer[|longer| - 1] == reqId;
    assert Last(longer, cfg.maxEntries)[|Last(longer, cfg.maxEntries)| - 1] == longer[|longer| - 1];
  }

  /** Least-recently-put order: a put moves its id to the end. */
  function Touched(order: seq<ReqId>, reqId: ReqId, n: nat): seq<ReqId> { Last(Without(order, reqId) + [reqId], n) }

  function Without(order: seq<ReqId>, id: ReqId): seq<ReqId> {
    if order == [] then [] else (if order[0] == id then [] else [order[0]]) + Without(order[1..], id)
  }

  lemma {:induction false} WithoutAbsent(order: seq<ReqId>, id: ReqId)
    ensures id !in Without(order, id) && (id !in order ==> Without(order, id) == order) && |Without(order, id)| <= |order|
  {
    if order != [] { WithoutAbsent(order[1..], id); }
  }

  lemma {:induction false} WithoutLast(order: seq<ReqId>, id: ReqId)
    requires id !in order
    ensures Without(order + [id], id) == order
  {
    if order == [] {
      assert (order + [id])[1..] == [];
    } else {
      WithoutLast(order[1..], id);
      assert (order + [id])[1..] == order[1..] + [id];
    }
  }

  lemma ResidentTouched(order: seq<ReqId>, reqId: ReqId, n: nat)
    requires NoDuplicates(order) && 0 < |order| <= n && reqId in order
    ensures order == Touched(order, reqId, n) <==> order[|order| - 1] == reqId
  {
    var k := |order| - 1;
    if order[k] == reqId {
      WithoutLast(order[..k], reqId);
      assert order == order[..k] + [reqId];
    } else {
      var t := Without(order, reqId) + [reqId];
      assert Last(t, n)[|Last(t, n)| - 1] == reqId;
    }
  }

  /** The list is the one of least recent use exactly when a put names a new id or the newest one:
      putting an older resident id again does not save it from being pushed out next. */
  lemma PutIsRecencyIff(cfg: Config, players: Players, uid: Uid, reqId: ReqId, e: Entry, now: int, later: int)
    requires Valid(cfg, players) && Accepts(cfg, uid, reqId, e)
    requires uid in players && now <= players[uid].expiresAt
    ensures var p := players[uid];
      Put(cfg, players, uid, reqId, e, now, later)[uid].order == Touched(p.order, reqId, cfg.maxEntries)
      <==> reqId !in p.entries || p.order[|p.order| - 1] == reqId
  {
    var p := players[uid];
    assert PlayerOk(cfg, p);
    if reqId in p.entries { ResidentTouched(p.order, reqId, cfg.maxEntries); } else { WithoutAbsent(p.order, reqId); }
  }

  class Cache {
    const cfg: Config
    var players: Players

    constructor (c: Config)
      ensures cfg == c && players == map[] && Valid(cfg, players)
    {
      cfg, players := c, map[];
    }

    method Get(uid: Uid, reqId: ReqId, now: int) returns (found: Option<Entry>)
      requires Valid(cfg, players)
      modifies this
      ensures Valid(cfg, players)
      ensures found == Lookup(old(players), uid, reqId, now) && players == AfterGet(old(players), uid, reqId, now)
      ensures found.Some? <==> reqId != "" && uid in old(players) && now <= old(players)[uid].expiresAt && reqId in old(players)[uid].entries
      ensures found.Some? ==> found.value == old(players)[uid].entries[reqId]
      ensures forall u :: u in players <==> u in old(players) && !(u == uid && reqId != "" && now > old(players)[u].expiresAt)
      ensures forall u :: u in players ==> players[u] == old(players)[u]
    {
      if uid == "" || reqId == "" { return None; }
      if uid !in players { return None; }
      var player := players[uid];
      if now > player.expiresAt {
        players := players - {uid};
        return None;
      }
      if reqId !in player.entries { return None; }
      return Some(player.entries[reqId]);
    }

    /** `now` is read for the expiry test, `later` for the new deadline. */
    method Store(uid: Uid, reqId: ReqId, e: Entry, now: int, later: int) returns (stored: bool)
      requires Valid(cfg, players)
      modifies this
      ensures Valid(cfg, players)
      ensures stored <==> Accepts(cfg, uid, reqId, e)
      ensures stored <==> uid != "" && reqId != "" && cfg.ttl > 0 && cfg.maxEntries > 0 && |e.result| <= cfg.maxBytes
      ensures players == if stored then Put(cfg, old(players), uid, reqId, e, now, later) else old(players)
    {
      if uid == "" || reqId == "" || cfg.ttl <= 0 || cfg.maxEntries <= 0 || |e.result| > cfg.maxBytes { return false; }
      PutKeepsValid(cfg, players, uid, reqId, e, now, later);
      CurrentOk(cfg, players, uid, now);
      var player := if uid !in players || now > players[uid].expiresAt then PlayerCache(0, [], map[]) else players[uid];
      ListedOk(player, reqId, e);
      var order := player.order;
      if reqId !in player.entries { order := order + [reqId]; }
      var entries := player.entries[reqId := e];
      order, entries := Evict(order, entries);
      players := players[uid := PlayerCache(later + cfg.ttl, order, entries)];
      return true;
    }

    /** The eviction loop: the oldest id goes until the limit holds. */
    method Evict(longer: seq<ReqId>, all: map<ReqId, Entry>) returns (order: seq<ReqId>, entries: map<ReqId, Entry>)
      requires NoDuplicates(longer) && Lists(longer, all) && cfg.maxEntries > 0
      ensures order == Last(longer, cfg.maxEntries) && entries == Kept(all, order)
    {
      order, entries := longer, all;
      ghost var gone := 0;
      assert entries == Kept(all, order);
      while |order| > cfg.maxEntries
        invariant gone <= |longer| && order == longer[gone..] && (gone > 0 ==> |order| >= cfg.maxEntries)
        invariant NoDuplicates(order) && entries == Kept(all, order)
      {
        EvictOne(order, all);
        var oldest := order[0];
        order := order[1..];
        gone := gone + 1;
        entries := entries - {oldest};
      }
    }

    method Delete(uid: Uid)
      requires Valid(cfg, players)
      modifies this
      ensures Valid(cfg, players) && players == old(players) - {uid}
    {
      if uid == "" { return; }
      players := players - {uid};
    }

    method CleanupExpired(now: int)
      requires Valid(cfg, players)
      modifies this
      ensures Valid(cfg, players) && players == Cleaned(old(players), now)
      ensures forall uid :: uid in players <==> uid in old(players) && now <= old(players)[uid].expiresAt
      ensures forall uid :: uid in players ==> players[uid] == old(players)[uid]
    {
      var rest := players.Keys;
      while rest != {}
        invariant Valid(cfg, players)
        invariant rest <= old(players).Keys
        invariant forall uid :: uid in players <==> uid in old(players) && (uid in rest || now <= old(players)[uid].expiresAt)
        invariant forall uid :: uid in players ==> players[uid] == old(players)[uid]
        decreases |rest|
      {
        assert (forall u :: u !in rest) ==> rest == {};
        var uid :| uid in rest;
        if now > players[uid].expiresAt { players := players - {uid}; }
        rest := rest - {uid};
      }
    }
  }
}
