/** The business entry point (internal/handler/dispatcher.go): a request that is answered from the retry
    cache does not run its handler. One request is one step: the player's shard runs it alone. */
module Dispatcher {
  import opened Common
  import opened CommandCache

  /** What the handler did, if it was run: `encodes` says whether the result became JSON. */
  datatype Handled = Failed | Returned(result: string, encodes: bool)

  /** `caches` is None for an unknown operation, else whether the route keeps results; `reqId` is ""
      when the payload holds none; `hash` is that of the whole payload. */
  datatype Request = Request(
    uid: Uid, opCode: int, caches: Option<bool>, reqId: ReqId, hash: string, handled: Handled, now: int, later: int, latest: int)

  datatype Response = BadRequest | Unsupported | Conflict | Replayed(result: string) | Ran(handled: Handled)

  function EntryOf(r: Request): Entry
    requires r.handled.Returned?
  {
    Entry(r.opCode, r.hash, r.handled.result)
  }

  predicate Cacheable(r: Request) { r.opCode != 0 && r.caches == Some(true) && r.reqId != "" }

  function Answer(cfg: Config, players: Players, r: Request): Response {
    if r.opCode == 0 then BadRequest
    else if r.caches == None then Unsupported
    else if r.caches == Some(false) then Ran(r.handled)
    else if r.reqId == "" then BadRequest
    else match Lookup(players, r.uid, r.reqId, r.now)
      case Some(e) => if e.opCode != r.opCode || e.payloadHash != r.hash then Conflict else Replayed(e.result)
      case None => Ran(r.handled)
  }

  /** The handler ran and its result went into the cache. */
  predicate Stores(cfg: Config, players: Players, r: Request) {
    && Cacheable(r) && Answer(cfg, players, r) == Ran(r.handled)
    && r.handled.Returned? && r.handled.encodes && Accepts(cfg, r.uid, r.reqId, EntryOf(r))
  }

  function AfterRequest(cfg: Config, players: Players, r: Request): Players {
    if !Cacheable(r) then players
    else
      var looked := AfterGet(players, r.uid, r.reqId, r.now);
      if Stores(cfg, players, r) then Put(cfg, looked, r.uid, r.reqId, EntryOf(r), r.later, r.latest) else looked
  }

  /** Forget is the removal of a player who moved to another server. */
  datatype Event = Serve(request: Request) | Forget(uid: Uid) | Cleanup(now: int)

  function Apply(cfg: Config, players: Players, e: Event): Players {
    match e
    case Serve(r) => AfterRequest(cfg, players, r)
    case Forget(uid) => players - {uid}
    case Cleanup(now) => Cleaned(players, now)
  }

  function Run(cfg: Config, events: seq<Event>): Players {
    if events == [] then map[] else Apply(cfg, Run(cfg, events[..|events| - 1]), events[|events| - 1])
  }

  lemma {:induction false} RunValid(cfg: Config, events: seq<Event>)
    ensures Valid(cfg, Run(cfg, events))
  {
    if events != [] {
      var n := |events| - 1;
      RunValid(cfg, events[..n]);
      var players, e := Run(cfg, events[..n]), events[n];
      if e.Serve? && Stores(cfg, players, e.request) {
        var r := e.request;
        PutKeepsValid(cfg, AfterGet(players, r.uid, r.reqId, r.now), r.uid, r.reqId, EntryOf(r), r.later, r.latest);
      }
    }
  }

  // ---- One handler run per request id ----

  /** Event `i` runs a handler for this player and puts its result into the cache. */
  predicate StoresAt(cfg: Config, events: seq<Event>, i: int, uid: Uid) {
    0 <= i < |events| && events[i].Serve? && events[i].request.uid == uid && Stores(cfg, Run(cfg, events[..i]), events[i].request)
  }

  /** How many results were stored for the player by the events from `m` to before `n`. */
  function StoredSince(cfg: Config, events: seq<Event>, m: nat, n: nat, uid: Uid): nat
    requires m <= n
  {
    if m == n then 0 else StoredSince(cfg, events, m, n - 1, uid) + if StoresAt(cfg, events, n - 1, uid) then 1 else 0
  }

  /** Clocks do not go back behind `begin` nor past `end`, and the player is not forgotten. */
  ghost predicate Calm(e: Event, uid: Uid, begin: int, end: int) {
    match e
    case Serve(r) => r.uid == uid ==> begin <= r.now <= r.later <= r.latest && r.later <= end
    case Forget(u) => u != uid
    case Cleanup(now) => now <= end
  }

  ghost predicate Living(players: Players, uid: Uid, end: int) { uid in players && players[uid].expiresAt >= end }

  /** The id is cached with that entry and followed by exactly `k` younger ones. */
  ghost predicate Resident(p: PlayerCache, reqId: ReqId, e: Entry, k: nat) {
    k < |p.order| && p.order[|p.order| - 1 - k] == reqId && reqId in p.entries && p.entries[reqId] == e
  }

  /** A new id goes behind all others; only the oldest of a full list makes room. */
  lemma LastMoves(order: seq<ReqId>, newId: ReqId, n: nat, id: ReqId, k: nat)
    requires NoDuplicates(order) && newId !in order && k < |order| <= n && order[|order| - 1 - k] == id
    ensures var o := Last(order + [newId], n);
      if k + 1 < n then k + 1 < |o| && o[|o| - 1 - (k + 1)] == id && id in o else id !in o
  {
    var longer, at := order + [newId], |order| - 1 - k;
    var o := Last(longer, n);
    if k + 1 < n {
      assert o[|o| - 1 - (k + 1)] == longer[at];
    } else {
      assert at == 0 && o == longer[1..];
    }
  }

  lemma AddedMoves(cfg: Config, p: PlayerCache, newId: ReqId, added: Entry, later: int, reqId: ReqId, e: Entry, k: nat)
    requires PlayerOk(cfg, p) && newId !in p.entries && Resident(p, reqId, e, k)
    ensures var q := Added(cfg, p, newId, added, later);
      if k + 1 < cfg.maxEntries then Resident(q, reqId, e, k + 1) else reqId !in q.entries
  {
    LastMoves(p.order, newId, cfg.maxEntries, reqId, k);
    var q := Added(cfg, p, newId, added, later);
    assert forall id :: id in q.entries ==> id in q.order;
    assert reqId in q.order ==> reqId in q.entries && q.entries[reqId] == e;
  }

  lemma StoreStep(cfg: Config, players: Players, r: Request, reqId: ReqId, e: Entry, begin: int, k: nat)
    requires Valid(cfg, players) && Stores(cfg, players, r) && Calm(Serve(r), r.uid, begin, begin + cfg.ttl)
    requires Living(players, r.uid, begin + cfg.ttl) && Resident(players[r.uid], reqId, e, k) && k < cfg.maxEntries
    ensures var after := AfterRequest(cfg, players, r);
      && Living(after, r.uid, begin + cfg.ttl) && r.reqId != reqId
      && if k + 1 < cfg.maxEntries then Resident(after[r.uid], reqId, e, k + 1) else reqId !in after[r.uid].entries
  {
    assert AfterGet(players, r.uid, r.reqId, r.now) == players;
    assert PlayerOk(cfg, players[r.uid]);
    AddedMoves(cfg, players[r.uid], r.reqId, EntryOf(r), r.latest, reqId, e, k);
  }

  lemma AbsentStep(cfg: Config, players: Players, e: Event, uid: Uid, reqId: ReqId, begin: int)
    requires Valid(cfg, players) && Calm(e, uid, begin, begin + cfg.ttl) && Living(players, uid, begin + cfg.ttl)
    requires reqId !in players[uid].entries
    requires !(e.Serve? && e.request.uid == uid && e.request.reqId == reqId && Stores(cfg, players, e.request))
    ensures Living(Apply(cfg, players, e), uid, begin + cfg.ttl) && reqId !in Apply(cfg, players, e)[uid].entries
  {
    if e.Serve? && e.request.uid == uid { assert AfterGet(players, uid, e.request.reqId, e.request.now) == players; }
  }

  lemma OtherStep(cfg: Config, players: Players, e: Event, uid: Uid, begin: int)
    requires Calm(e, uid, begin, begin + cfg.ttl) && Living(players, uid, begin + cfg.ttl)
    requires !(e.Serve? && e.request.uid == uid && Stores(cfg, players, e.request))
    ensures uid in Apply(cfg, players, e) && Apply(cfg, players, e)[uid] == players[uid]
  {
    if e.Serve? && e.request.uid == uid { assert AfterGet(players, uid, e.request.reqId, e.request.now) == players; }
  }

  predicate StoresIdAt(cfg: Config, events: seq<Event>, i: int, uid: Uid, reqId: ReqId) {
    StoresAt(cfg, events, i, uid) && events[i].request.reqId == reqId
  }

  /** Nothing is stored for the id between the events `m` and `n`. */
  ghost predicate NotRestored(cfg: Config, events: seq<Event>, m: nat, n: nat, uid: Uid, reqId: ReqId) {
    forall i :: m < i < n ==> !StoresIdAt(cfg, events, i, uid, reqId)
  }

  /** A result that was just stored is the youngest. */
  lemma FirstStore(cfg: Config, players: Players, r: Request)
    requires Valid(cfg, players) && Stores(cfg, players, r)
    ensures var after := AfterRequest(cfg, players, r);
      Living(after, r.uid, r.latest + cfg.ttl) && Resident(after[r.uid], r.reqId, EntryOf(r), 0)
  {
    var looked := AfterGet(players, r.uid, r.reqId, r.now);
    var p := Current(looked, r.uid, r.later);
    assert r.reqId !in p.entries;
    var longer := p.order + [r.reqId];
    assert Last(longer, cfg.maxEntries)[|Last(longer, cfg.maxEntries)| - 1] == r.reqId;
  }

  /** What is known of an id after `k` other results were stored. */
  ghost predicate Tracked(cfg: Config, players: Players, uid: Uid, reqId: ReqId, e: Entry, begin: int, k: nat, restored: bool) {
    && Living(players, uid, begin + cfg.ttl)
    && (k < cfg.maxEntries ==> Resident(players[uid], reqId, e, k))
    && (k >= cfg.maxEntries && !restored ==> reqId !in players[uid].entries)
  }

  predicate StoresFor(cfg: Config, players: Players, e: Event, uid: Uid) {
    e.Serve? && e.request.uid == uid && Stores(cfg, players, e.request)
  }

  lemma TrackStep(cfg: Config, players: Players, e: Event, uid: Uid, reqId: ReqId, entry: Entry, begin: int, k: nat, restored: bool)
    requires Tracked(cfg, players, uid, reqId, entry, begin, k, restored) && Calm(e, uid, begin, begin + cfg.ttl)
    requires Valid(cfg, players) && Valid(cfg, Apply(cfg, players, e))
    ensures var stores := StoresFor(cfg, players, e, uid);
      Tracked(cfg, Apply(cfg, players, e), uid, reqId, entry, begin, if stores then k + 1 else k, restored || (stores && e.request.reqId == reqId))
  {
    if !StoresFor(cfg, players, e, uid) {
      OtherStep(cfg, players, e, uid, begin);
    } else if k < cfg.maxEntries {
      StoreStep(cfg, players, e.request, reqId, entry, begin, k);
    } else if !restored && e.request.reqId != reqId {
      AbsentStep(cfg, players, e, uid, reqId, begin);
    } else {
      assert AfterGet(players, uid, e.request.reqId, e.request.now) == players;
    }
  }

  lemma RunStep(cfg: Config, events: seq<Event>, n: nat)
    requires n < |events|
    ensures Run(cfg, events[..n + 1]) == Apply(cfg, Run(cfg, events[..n]), events[n])
    ensures Valid(cfg, Run(cfg, events[..n])) && Valid(cfg, Run(cfg, events[..n + 1]))
  {
    assert events[..n + 1][..n] == events[..n];
    RunValid(cfg, events[..n]);
    RunValid(cfg, events[..n + 1]);
  }

  lemma RestoredStep(cfg: Config, events: seq<Event>, m: nat, n: nat, uid: Uid, reqId: ReqId)
    requires m < n < |events|
    ensures NotRestored(cfg, events, m, n + 1, uid, reqId) <==>
      NotRestored(cfg, events, m, n, uid, reqId) && !(StoresFor(cfg, Run(cfg, events[..n]), events[n], uid) && events[n].request.reqId == reqId)
    ensures StoresFor(cfg, Run(cfg, events[..n]), events[n], uid) == StoresAt(cfg, events, n, uid)
  {
    assert m < n < n + 1 && StoresIdAt(cfg, events, n, uid, reqId) == (StoresAt(cfg, events, n, uid) && events[n].request.reqId == reqId);
  }

  /** What is known before event `n` of the id stored by event `m`. */
  ghost predicate WindowAt(cfg: Config, events: seq<Event>, m: nat, n: nat)
    requires m < n <= |events| && events[m].Serve? && events[m].request.handled.Returned?
  {
    var r := events[m].request;
    Tracked(cfg, Run(cfg, events[..n]), r.uid, r.reqId, EntryOf(r), r.latest, StoredSince(cfg, events, m + 1, n, r.uid),
            !NotRestored(cfg, events, m, n, r.uid, r.reqId))
  }

  /** Event `n` stores a result for the player of `r`. */
  predicate StoresBy(cfg: Config, events: seq<Event>, n: nat, r: Request)
    requires n < |events|
  {
    StoresFor(cfg, Run(cfg, events[..n]), events[n], r.uid)
  }

  lemma RunTracks(cfg: Config, events: seq<Event>, n: nat, r: Request, k: nat, restored: bool)
    requires n < |events| && r.handled.Returned? && Calm(events[n], r.uid, r.latest, r.latest + cfg.ttl)
    requires Tracked(cfg, Run(cfg, events[..n]), r.uid, r.reqId, EntryOf(r), r.latest, k, restored)
    ensures Tracked(cfg, Run(cfg, events[..n + 1]), r.uid, r.reqId, EntryOf(r), r.latest, if StoresBy(cfg, events, n, r) then k + 1 else k,
                    restored || (StoresBy(cfg, events, n, r) && events[n].request.reqId == r.reqId))
  {
    RunStep(cfg, events, n);
    TrackStep(cfg, Run(cfg, events[..n]), events[n], r.uid, r.reqId, EntryOf(r), r.latest, k, restored);
  }

  lemma CountsMove(cfg: Config, events: seq<Event>, m: nat, n: nat, r: Request)
    requires m < n < |events|
    ensures StoredSince(cfg, events, m + 1, n + 1, r.uid) == if StoresBy(cfg, events, n, r) then StoredSince(cfg, events, m + 1, n, r.uid) + 1 else StoredSince(cfg, events, m + 1, n, r.uid)
    ensures !NotRestored(cfg, events, m, n + 1, r.uid, r.reqId) <==>
      !NotRestored(cfg, events, m, n, r.uid, r.reqId) || (StoresBy(cfg, events, n, r) && events[n].request.reqId == r.reqId)
  {
    RestoredStep(cfg, events, m, n, r.uid, r.reqId);
  }

  lemma WindowStep(cfg: Config, events: seq<Event>, m: nat, n: nat)
    requires m < n < |events| && events[m].Serve? && events[m].request.handled.Returned?
    requires var r := events[m].request; Calm(events[n], r.uid, r.latest, r.latest + cfg.ttl)
    requires WindowAt(cfg, events, m, n)
    ensures WindowAt(cfg, events, m, n + 1)
  {
    var r := events[m].request;
    CountsMove(cfg, events, m, n, r);
    RunTracks(cfg, events, n, r, StoredSince(cfg, events, m + 1, n, r.uid), !NotRestored(cfg, events, m, n, r.uid, r.reqId));
  }

  lemma WindowStart(cfg: Config, events: seq<Event>, m: nat)
    requires m < |events| && events[m].Serve? && StoresAt(cfg, events, m, events[m].request.uid)
    ensures WindowAt(cfg, events, m, m + 1)
  {
    RunStep(cfg, events, m);
    FirstStore(cfg, Run(cfg, events[..m]), events[m].request);
  }

  /** The player's cache lives on from the request at `m` to before event `n`. */
  ghost predicate CalmAfter(cfg: Config, events: seq<Event>, m: nat, n: nat)
    requires m < n <= |events| && events[m].Serve?
  {
    var r := events[m].request;
    forall i :: m < i < n ==> Calm(events[i], r.uid, r.latest, r.latest + cfg.ttl)
  }

  lemma {:induction false} WindowGrows(cfg: Config, events: seq<Event>, m: nat, n: nat)
    requires m < n <= |events| && events[m].Serve? && events[m].request.handled.Returned?
    requires WindowAt(cfg, events, m, m + 1) && CalmAfter(cfg, events, m, n)
    ensures WindowAt(cfg, events, m, n)
    decreases n
  {
    if n > m + 1 {
      WindowGrows(cfg, events, m, n - 1);
      WindowStep(cfg, events, m, n - 1);
    }
  }

  lemma Window(cfg: Config, events: seq<Event>, m: nat, n: nat)
    requires m < n <= |events| && events[m].Serve? && StoresAt(cfg, events, m, events[m].request.uid) && CalmAfter(cfg, events, m, n)
    ensures WindowAt(cfg, events, m, n) && Valid(cfg, Run(cfg, events[..n]))
  {
    RunValid(cfg, events[..n]);
    WindowStart(cfg, events, m);
    WindowGrows(cfg, events, m, n);
  }

  /** Once a request has run and been stored, and while the player's cache lives, a request with the
      same id does not run a handler as long as fewer than the limit of other results have been stored
      since: it gets the first result, or is refused when operation or payload differ. From the limit
      on the handler runs again. */
  lemma HandlerRunsOnce(cfg: Config, events: seq<Event>, m: nat, n: nat)
    requires m < n < |events| && events[m].Serve? && StoresAt(cfg, events, m, events[m].request.uid)
    requires CalmAfter(cfg, events, m, n + 1)
    requires events[n].Serve? && Cacheable(events[n].request)
    requires events[n].request.uid == events[m].request.uid && events[n].request.reqId == events[m].request.reqId
    ensures var first, again := events[m].request, events[n].request;
      var answer, k := Answer(cfg, Run(cfg, events[..n]), again), StoredSince(cfg, events, m + 1, n, first.uid);
      && (k < cfg.maxEntries ==>
            answer == if again.opCode == first.opCode && again.hash == first.hash then Replayed(first.handled.result) else Conflict)
      && (k >= cfg.maxEntries && NotRestored(cfg, events, m, n, first.uid, first.reqId) ==> answer == Ran(again.handled))
  {
    Window(cfg, events, m, n);
  }

  /** The cache would keep the result: it became JSON and is not too large for it. */
  predicate Keeps(cfg: Config, r: Request) {
    r.handled.Returned? && r.handled.encodes && Accepts(cfg, r.uid, r.reqId, EntryOf(r))
  }

  /** The id is not in the player's cache, if there is one. */
  predicate Missing(players: Players, uid: Uid, reqId: ReqId) { uid in players ==> reqId !in players[uid].entries }

  /** A request that ran its handler but was not kept leaves its id out of the cache. */
  lemma NotKept(cfg: Config, players: Players, r: Request)
    requires Cacheable(r) && Answer(cfg, players, r) == Ran(r.handled) && !Keeps(cfg, r)
    ensures Missing(AfterRequest(cfg, players, r), r.uid, r.reqId)
  {
  }

  /** Event `m` ran the handler of a cached route, and it succeeded. */
  predicate RanAt(cfg: Config, events: seq<Event>, m: nat) {
    && m < |events| && events[m].Serve? && Cacheable(events[m].request) && events[m].request.handled.Returned?
    && Answer(cfg, Run(cfg, events[..m]), events[m].request) == Ran(events[m].request.handled)
  }

  lemma StaysMissingStep(cfg: Config, events: seq<Event>, m: nat, k: nat, n: nat, uid: Uid, reqId: ReqId)
    requires m < k < n <= |events| && NotRestored(cfg, events, m, n, uid, reqId) && Missing(Run(cfg, events[..k]), uid, reqId)
    ensures Missing(Run(cfg, events[..k + 1]), uid, reqId)
  {
    RunStep(cfg, events, k);
    RestoredStep(cfg, events, m, k, uid, reqId);
    assert !StoresIdAt(cfg, events, k, uid, reqId);
  }

  predicate MissingAt(cfg: Config, events: seq<Event>, k: nat, uid: Uid, reqId: ReqId) {
    k <= |events| && Missing(Run(cfg, events[..k]), uid, reqId)
  }

  lemma {:induction false} MissingOver(cfg: Config, events: seq<Event>, m: nat, n: nat, uid: Uid, reqId: ReqId)
    requires m < n && MissingAt(cfg, events, m + 1, uid, reqId)
    requires forall k: nat :: m < k < n && MissingAt(cfg, events, k, uid, reqId) ==> MissingAt(cfg, events, k + 1, uid, reqId)
    ensures MissingAt(cfg, events, n, uid, reqId)
  {
    if n > m + 1 { MissingOver(cfg, events, m, n - 1, uid, reqId); }
  }

  lemma StaysMissing(cfg: Config, events: seq<Event>, m: nat, n: nat, uid: Uid, reqId: ReqId)
    requires m < n <= |events| && NotRestored(cfg, events, m, n, uid, reqId) && Missing(Run(cfg, events[..m + 1]), uid, reqId)
    ensures Missing(Run(cfg, events[..n]), uid, reqId)
  {
    forall k: nat | m < k < n && MissingAt(cfg, events, k, uid, reqId) ensures MissingAt(cfg, events, k + 1, uid, reqId) {
      StaysMissingStep(cfg, events, m, k, n, uid, reqId);
    }
    MissingOver(cfg, events, m, n, uid, reqId);
  }

  /** After a successful run of the handler whose cache lives, and as long as nothing else was stored
      under its id, a repeat runs the handler again exactly when the first result did not encode or the
      cache would not take it, for being too large, or as many other results as the limit were stored
      since. Otherwise it gets the first result, or a conflict. */
  lemma RepeatRunsIff(cfg: Config, events: seq<Event>, m: nat, n: nat)
    requires m < n < |events| && RanAt(cfg, events, m)
    requires CalmAfter(cfg, events, m, n + 1)
    requires events[n].Serve? && Cacheable(events[n].request)
    requires events[n].request.uid == events[m].request.uid && events[n].request.reqId == events[m].request.reqId
    requires NotRestored(cfg, events, m, n, events[m].request.uid, events[m].request.reqId)
    ensures var first, again := events[m].request, events[n].request;
      var answer := Answer(cfg, Run(cfg, events[..n]), again);
      && (answer == Ran(again.handled) <==> !Keeps(cfg, first) || StoredSince(cfg, events, m + 1, n, first.uid) >= cfg.maxEntries)
      && (answer != Ran(again.handled) ==>
            answer == if again.opCode == first.opCode && again.hash == first.hash then Replayed(first.handled.result) else Conflict)
  {
    var first := events[m].request;
    if Keeps(cfg, first) {
      HandlerRunsOnce(cfg, events, m, n);
    } else {
      RunStep(cfg, events, m);
      NotKept(cfg, Run(cfg, events[..m]), first);
      StaysMissing(cfg, events, m, n, first.uid, first.reqId);
    }
  }

  /** So a command whose result is too large for the cache takes effect again when it is repeated at once. */
  lemma OversizedResultRunsAgain(cfg: Config, players: Players, first: Request, again: Request)
    requires Cacheable(first) && Answer(cfg, players, first) == Ran(first.handled)
    requires first.handled.Returned? && |first.handled.result| > cfg.maxBytes
    requires Cacheable(again) && again.uid == first.uid && again.reqId == first.reqId
    ensures Answer(cfg, AfterRequest(cfg, players, first), again) == Ran(again.handled)
  {
    NotKept(cfg, players, first);
  }

  // ---- The other answers ----

  /** Operations that are missing or unknown and cached ones without a request id are refused; routes that do
      not cache always run, and neither read nor change the cache. A handler that failed is not remembered. */
  lemma UncachedMeans(cfg: Config, players: Players, r: Request)
    ensures var answer, after := Answer(cfg, players, r), AfterRequest(cfg, players, r);
      && (answer == BadRequest <==> r.opCode == 0 || (r.caches.Some? && r.caches.value && r.reqId == ""))
      && (answer == Unsupported <==> r.opCode != 0 && r.caches.None?)
      && (r.opCode != 0 && r.caches == Some(false) ==> answer == Ran(r.handled))
      && (!Cacheable(r) ==> after == players)
      && (r.handled.Failed? ==> forall u :: u in after ==> u in players && after[u] == players[u])
  {
  }

  /** A player who is forgotten, or has expired when a clean-up comes, has no results left. */
  lemma ForgottenRunsAgain(cfg: Config, events: seq<Event>, e: Event, r: Request)
    requires Cacheable(r) && ((e.Forget? && e.uid == r.uid) || (e.Cleanup? && Stale(Run(cfg, events), r.uid, e.now)))
    ensures Answer(cfg, Run(cfg, events + [e]), r) == Ran(r.handled)
  {
    assert (events + [e])[..|events|] == events;
  }

  predicate Stale(players: Players, uid: Uid, now: int) { uid in players ==> players[uid].expiresAt < now }

  /** The player's results, if still kept, were last added to by event `m`. */
  ghost predicate LastedSince(cfg: Config, players: Players, r: Request) {
    r.uid in players ==> players[r.uid].expiresAt == r.latest + cfg.ttl
  }

  lemma QuietStep(cfg: Config, players: Players, e: Event, r: Request)
    requires LastedSince(cfg, players, r) && !StoresFor(cfg, players, e, r.uid)
    ensures LastedSince(cfg, Apply(cfg, players, e), r)
  {
  }

  lemma {:induction false} ExpiryOfTheLastStore(cfg: Config, events: seq<Event>, m: nat, n: nat)
    requires m < n <= |events| && events[m].Serve? && StoresAt(cfg, events, m, events[m].request.uid)
    requires StoredSince(cfg, events, m + 1, n, events[m].request.uid) == 0
    ensures LastedSince(cfg, Run(cfg, events[..n]), events[m].request)
    decreases n
  {
    RunStep(cfg, events, n - 1);
    if n > m + 1 {
      ExpiryOfTheLastStore(cfg, events, m, n - 1);
      QuietStep(cfg, Run(cfg, events[..n - 1]), events[n - 1], events[m].request);
    }
  }

  /** Once the lifetime of the player's last stored result has passed, a request runs its handler whatever
      was stored before. */
  lemma ExpiredRunsAgain(cfg: Config, events: seq<Event>, m: nat, n: nat)
    requires m < n < |events| && events[m].Serve? && StoresAt(cfg, events, m, events[m].request.uid)
    requires StoredSince(cfg, events, m + 1, n, events[m].request.uid) == 0
    requires events[n].Serve? && Cacheable(events[n].request) && events[n].request.uid == events[m].request.uid
    requires events[n].request.now > events[m].request.latest + cfg.ttl
    ensures Answer(cfg, Run(cfg, events[..n]), events[n].request) == Ran(events[n].request.handled)
  {
    ExpiryOfTheLastStore(cfg, events, m, n);
  }

  // ---- The list as a history ----

  /** The player's cache is there at both times a request reads. */
  predicate Live(players: Players, r: Request) {
    r.uid in players && r.now <= players[r.uid].expiresAt && r.later <= players[r.uid].expiresAt
  }

  /** The ids stored for a player since the player's cache was last begun, oldest first. */
  function History(cfg: Config, events: seq<Event>, uid: Uid): seq<ReqId> {
    if events == [] then []
    else
      var before, e := Run(cfg, events[..|events| - 1]), events[|events| - 1];
      var prior := History(cfg, events[..|events| - 1], uid);
      if StoresFor(cfg, before, e, uid) then (if Live(before, e.request) then prior else []) + [e.request.reqId]
      else if uid in Apply(cfg, before, e) then prior else []
  }

  lemma OrderAfterStore(cfg: Config, players: Players, r: Request)
    requires Valid(cfg, players) && Stores(cfg, players, r)
    ensures var after := AfterRequest(cfg, players, r);
      r.uid in after && after[r.uid].order == Last((if Live(players, r) then players[r.uid].order else []) + [r.reqId], cfg.maxEntries)
  {
    var p := Current(AfterGet(players, r.uid, r.reqId, r.now), r.uid, r.later);
    assert p == if Live(players, r) then players[r.uid] else PlayerCache(0, [], map[]);
    assert r.reqId !in p.entries;
  }

  lemma LastTwice(s: seq<ReqId>, x: ReqId, n: nat)
    requires n > 0
    ensures Last(Last(s, n) + [x], n) == Last(s + [x], n)
  {
  }

  /** Through this entry point a resident id is never put again, so the list is exactly the last ids
      stored, up to the limit, each once. */
  lemma {:induction false} HoldsTheLastStored(cfg: Config, events: seq<Event>, uid: Uid)
    requires cfg.maxEntries > 0
    ensures var players := Run(cfg, events);
      if uid in players then players[uid].order == Last(History(cfg, events, uid), cfg.maxEntries) && NoDuplicates(players[uid].order)
      else History(cfg, events, uid) == []
  {
    if events != [] {
      var before, e := events[..|events| - 1], events[|events| - 1];
      HoldsTheLastStored(cfg, before, uid);
      RunValid(cfg, before);
      RunValid(cfg, events);
      if StoresFor(cfg, Run(cfg, before), e, uid) {
        OrderAfterStore(cfg, Run(cfg, before), e.request);
      }
      assert uid in Run(cfg, events) ==> PlayerOk(cfg, Run(cfg, events)[uid]);
      if StoresFor(cfg, Run(cfg, before), e, uid) { LastTwice(History(cfg, before, uid), e.request.reqId, cfg.maxEntries); }
    }
  }

  /** `execute` on the cache object; the handler's doing is a parameter. */
  method Execute(cache: Cache, r: Request) returns (response: Response)
    requires Valid(cache.cfg, cache.players) && r.opCode != 0 && r.caches.Some?
    modifies cache
    ensures Valid(cache.cfg, cache.players)
    ensures response == Answer(cache.cfg, old(cache.players), r)
    ensures cache.players == AfterRequest(cache.cfg, old(cache.players), r)
  {
    if !r.caches.value { return Ran(r.handled); }
    if r.reqId == "" { return BadRequest; }
    var cached := cache.Get(r.uid, r.reqId, r.now);
    if cached.Some? {
      if cached.value.opCode != r.opCode || cached.value.payloadHash != r.hash { return Conflict; }
      return Replayed(cached.value.result);
    }
    if r.handled.Failed? { return Ran(Failed); }
    if r.handled.encodes {
      var stored := cache.Store(r.uid, r.reqId, Entry(r.opCode, r.hash, r.handled.result), r.later, r.latest);
    }
    return Ran(r.handled);
  }

  /** The entry point: operations that are missing or unknown are refused before anything else. */
  method Handle(cache: Cache, r: Request) returns (response: Response)
    requires Valid(cache.cfg, cache.players)
    modifies cache
    ensures Valid(cache.cfg, cache.players)
    ensures response == Answer(cache.cfg, old(cache.players), r)
    ensures cache.players == AfterRequest(cache.cfg, old(cache.players), r)
  {
    if r.opCode == 0 { return BadRequest; }
    if r.caches.None? { return Unsupported; }
    response := Execute(cache, r);
  }
}
