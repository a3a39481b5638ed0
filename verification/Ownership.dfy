/** Player ownership across servers: any number of servers, players, connections, reconciler passes and
    kick notices, interleaved in any way.

    Sources: internal/app/gameserver/bootstrap.go (OnSessionBound, OnDisconnect),
    internal/framework/gateway/ws/server.go (authenticate, the deferred cleanup, the kicks),
    internal/app/gameserver/player_owner_reconciler.go, and the tables of `OwnerStore`.
    OnSessionBound, one request, and one removal by the reconciler are single steps. When a claim fails,
    its script may have run all the same and only the reply was lost. A notice stays deliverable for ever,
    so it may arrive late, out of order, several times or never. */
module Ownership {
  import opened Common
  import opened OwnerStore

  datatype Config = Config(ownerTtl: nat, offlineTtl: nat)

  /** Where a connection's handler is. `prior` is the connection it replaced on its server. */
  datatype Stage =
    | Authenticating(prior: Option<Conn>)  // session bound, owner not yet claimed
    | Owning(prior: Option<Conn>)          // claimed, client not yet registered
    | Registered(prior: Option<Conn>)      // registered, the prior connection not yet kicked
    | Serving
    | Unbinding                            // cleanup: session unbound
    | Deregistered                         // cleanup: client removed
    | Leaving                              // cleanup: about to mark the owner offline
    | Gone

  datatype Connection = Connection(node: Node, uid: Uid, stage: Stage)

  datatype Notice = Notice(target: Node, uid: Uid, conn: Conn)

  /** A reconciler pass: the local players, then also what Redis said of them. */
  datatype Pass = NoPass | Listed(uids: set<Uid>, active: set<Uid>) | Fetched(uids: set<Uid>, active: set<Uid>, snapshot: map<Uid, Owner>)

  /** Battle runtimes and cached results carry the number of the step that created them. */
  datatype Server = Server(
    sessions: map<Uid, Conn>, clients: map<Conn, Uid>, runtimes: map<Uid, nat>, cached: map<Uid, set<nat>>, pass: Pass)

  /** `since[uid]` is the step after which the present server has owned the player. */
  datatype State = State(
    now: int, step: nat, owners: Owners, servers: map<Node, Server>, conns: map<Conn, Connection>,
    closed: set<Conn>, notices: set<Notice>, since: map<Uid, nat>)

  datatype Label =
    | Tick(d: nat)
    | Bind(node: Node, uid: Uid, conn: Conn)
    | Claim(conn: Conn) | ClaimFails(conn: Conn, ran: bool)
    | Register(conn: Conn) | AckFails(conn: Conn) | KickPrior(conn: Conn)
    | StartLevel(conn: Conn) | CacheResult(conn: Conn) | Forget(node: Node, uid: Uid)
    | HangUp(conn: Conn) | Deregister(conn: Conn) | Callback(conn: Conn) | Offline(conn: Conn, up: bool)
    | Deliver(notice: Notice)
    | List(node: Node) | Fetch(node: Node) | RemovePlayer(node: Node, uid: Uid) | RenewPlayer(node: Node, uid: Uid) | Finish(node: Node)

  const EMPTY_SERVER := Server(map[], map[], map[], map[], NoPass)

  const INIT := State(0, 0, map[], map[], map[], {}, {}, map[])

  function At(s: State, n: Node): Server { if n in s.servers then s.servers[n] else EMPTY_SERVER }

  function OwnerOf(s: State, uid: Uid): Option<Owner> { Live(s.owners, s.now, uid) }

  predicate OwnedBy(s: State, uid: Uid, n: Node) { OwnerOf(s, uid).Some? && OwnerOf(s, uid).value.server == n }

  function Since(s: State, uid: Uid): nat { if uid in s.since then s.since[uid] else 0 }

  function CachedOf(v: Server, uid: Uid): set<nat> { if uid in v.cached then v.cached[uid] else {} }

  function SetAt(s: State, n: Node, v: Server): State { s.(servers := s.servers[n := v]) }

  function SetStage(s: State, c: Conn, stage: Stage): State
    requires c in s.conns
  {
    s.(conns := s.conns[c := s.conns[c].(stage := stage)])
  }

  function Home(s: State, c: Conn): Server
    requires c in s.conns
  {
    At(s, s.conns[c].node)
  }

  /** kickClient: closes a registered connection. */
  function Kicked(s: State, n: Node, c: Conn): State {
    if c in At(s, n).clients then s.(closed := s.closed + {c}) else s
  }

  predicate Enabled(cfg: Config, s: State, l: Label) {
    match l
    case Tick(_) => true
    case Bind(n, uid, c) => c != "" && c !in s.conns  // whatever the session limit is
    case Claim(c) => c in s.conns && s.conns[c].stage.Authenticating?
    case ClaimFails(c, _) => c in s.conns && s.conns[c].stage.Authenticating?
    case Register(c) => c in s.conns && s.conns[c].stage.Owning?
    case AckFails(c) => c in s.conns && s.conns[c].stage.Registered?
    case KickPrior(c) => c in s.conns && s.conns[c].stage.Registered?
    case StartLevel(c) => c in s.conns && s.conns[c].stage.Serving?
    case CacheResult(c) => c in s.conns && s.conns[c].stage.Serving?
    case Forget(_, _) => true
    case HangUp(c) => c in s.conns && s.conns[c].stage.Serving?
    case Deregister(c) => c in s.conns && s.conns[c].stage.Unbinding?
    case Callback(c) => c in s.conns && s.conns[c].stage.Deregistered?
    case Offline(c, _) => c in s.conns && s.conns[c].stage.Leaving?
    case Deliver(notice) => notice in s.notices
    case List(n) => At(s, n).pass.NoPass?
    case Fetch(n) => At(s, n).pass.Listed?
    case RemovePlayer(n, uid) =>
      var p := At(s, n).pass;
      p.Fetched? && uid in p.uids && Judge(n, p.active, p.snapshot, uid) == Remove
    case RenewPlayer(n, uid) =>
      var p := At(s, n).pass;
      p.Fetched? && uid in p.uids && Judge(n, p.active, p.snapshot, uid) == Renew
    case Finish(n) => !At(s, n).pass.NoPass?  // at once when the owners cannot be read
  }

  /** The claim script: the record is now this connection's, and the server's if it was not before. */
  function TakeRecord(cfg: Config, s: State, c: Conn): State
    requires c in s.conns
  {
    var Connection(n, uid, _) := s.conns[c];
    s.(owners := Claimed(s.owners, s.now, uid, n, c, cfg.ownerTtl),
       since := if OwnedBy(s, uid, n) then s.since else s.since[uid := s.step + 1])
  }

  /** OnSessionBound: claim, forget local state unless ownership is continuous, notify the old server. */
  function AfterClaim(cfg: Config, s: State, c: Conn): State
    requires c in s.conns && s.conns[c].stage.Authenticating?
  {
    var Connection(n, uid, stage) := s.conns[c];
    var previous := OwnerOf(s, uid);
    var mine := previous.Some? && previous.value.server == n;
    var v := At(s, n);
    var kept := if mine then v else v.(runtimes := v.runtimes - {uid}, cached := v.cached - {uid});
    TakeRecord(cfg, SetStage(SetAt(s, n, kept), c, Owning(stage.prior)), c).(
      notices := if previous.Some? && !mine && previous.value.conn != ""
                 then s.notices + {Notice(previous.value.server, uid, previous.value.conn)} else s.notices)
  }

  function Effect(cfg: Config, s: State, l: Label): State
    requires Enabled(cfg, s, l)
  {
    match l
    case Tick(d) => s.(now := s.now + d)
    case Bind(n, uid, c) =>
      var v := At(s, n);
      var prior := if uid in v.sessions then Some(v.sessions[uid]) else None;
      SetAt(s, n, v.(sessions := Bound(v.sessions, uid, c)))
      .(conns := s.conns[c := Connection(n, uid, Authenticating(prior))])
    case Claim(c) => AfterClaim(cfg, s, c)
    case ClaimFails(c, ran) =>
      var refused := SetStage(SetAt(s, s.conns[c].node, Home(s, c).(sessions := Unbound(Home(s, c).sessions, s.conns[c].uid, c))), c, Gone);
      if ran then TakeRecord(cfg, refused, c) else refused
    case Register(c) =>
      SetStage(SetAt(s, s.conns[c].node, Home(s, c).(clients := Home(s, c).clients[c := s.conns[c].uid])),
               c, Registered(s.conns[c].stage.prior))
    case AckFails(c) =>
      SetStage(SetAt(s, s.conns[c].node, Home(s, c).(
                 clients := Home(s, c).clients - {c},
                 sessions := Unbound(Home(s, c).sessions, s.conns[c].uid, c))), c, Gone)
      .(closed := s.closed + {c})
    case KickPrior(c) =>
      var prior := s.conns[c].stage.prior;
      SetStage(if prior.Some? then Kicked(s, s.conns[c].node, prior.value) else s, c, Serving)
    case StartLevel(c) =>
      SetAt(s, s.conns[c].node, Home(s, c).(runtimes := Home(s, c).runtimes[s.conns[c].uid := s.step]))
    case CacheResult(c) =>
      SetAt(s, s.conns[c].node, Home(s, c).(
        cached := Home(s, c).cached[s.conns[c].uid := CachedOf(Home(s, c), s.conns[c].uid) + {s.step}]))
    case Forget(n, uid) => SetAt(s, n, At(s, n).(runtimes := At(s, n).runtimes - {uid}, cached := At(s, n).cached - {uid}))
    case HangUp(c) =>
      SetStage(SetAt(s, s.conns[c].node, Home(s, c).(sessions := Unbound(Home(s, c).sessions, s.conns[c].uid, c))), c, Unbinding)
    case Deregister(c) =>
      SetStage(SetAt(s, s.conns[c].node, Home(s, c).(clients := Home(s, c).clients - {c})), c, Deregistered)
    case Callback(c) =>
      var replaced := s.conns[c].uid in Home(s, c).sessions && Home(s, c).sessions[s.conns[c].uid] != c;
      SetStage(s, c, if replaced then Gone else Leaving).(closed := if replaced then s.closed + {c} else s.closed)
    case Offline(c, up) =>
      SetStage(s, c, Gone).(
        closed := s.closed + {c},
        owners := if up then MarkedOffline(s.owners, s.now, s.conns[c].uid, s.conns[c].node, c, cfg.offlineTtl) else s.owners)
    case Deliver(notice) =>
      var clients := At(s, notice.target).clients;
      if notice.conn in clients && clients[notice.conn] == notice.uid then Kicked(s, notice.target, notice.conn) else s
    case List(n) =>
      var v := At(s, n);
      SetAt(s, n, v.(pass := Listed(v.sessions.Keys + v.runtimes.Keys - {""}, v.sessions.Keys)))
    case Fetch(n) =>
      var p := At(s, n).pass;
      SetAt(s, n, At(s, n).(pass := Fetched(p.uids, p.active, map uid | uid in p.uids && OwnerOf(s, uid).Some? :: s.owners[uid])))
    case RemovePlayer(n, uid) =>
      var v := At(s, n);
      var kicked := if uid in v.sessions then Kicked(s, n, v.sessions[uid]) else s;
      SetAt(kicked, n, v.(runtimes := v.runtimes - {uid}, cached := v.cached - {uid}))
    case RenewPlayer(n, uid) => s.(owners := Refreshed(s.owners, s.now, uid, n, cfg.ownerTtl))
    case Finish(n) => SetAt(s, n, At(s, n).(pass := NoPass))
  }

  function Apply(cfg: Config, s: State, l: Label): State
    requires Enabled(cfg, s, l)
  {
    Effect(cfg, s, l).(step := s.step + 1)
  }

  ghost predicate IsRun(cfg: Config, run: seq<State>, labels: seq<Label>) {
    && |run| == |labels| + 1 && run[0] == INIT
    && forall i :: 0 <= i < |labels| ==> Enabled(cfg, run[i], labels[i]) && run[i + 1] == Apply(cfg, run[i], labels[i])
  }

  // ---- What each step leaves alone ----

  /** A claim whose script ran. */
  predicate TakesRecord(l: Label) { l.Claim? || (l.ClaimFails? && l.ran) }

  predicate MovesOwners(l: Label) { l.Tick? || TakesRecord(l) || l.Offline? || l.RenewPlayer? }

  predicate MovesItems(l: Label) { l.Claim? || l.StartLevel? || l.CacheResult? || l.RemovePlayer? || l.Forget? }

  predicate Handshake(l: Label) { l.Bind? || l.Claim? || l.ClaimFails? || l.Register? || l.AckFails? || l.KickPrior? }

  predicate Entering(l: Label) { l.Bind? || l.ClaimFails? }

  predicate PassLabel(l: Label) { l.List? || l.Fetch? || l.RemovePlayer? || l.RenewPlayer? || l.Finish? }

  predicate SameOwners(s: State, s': State) { s'.owners == s.owners && s'.now == s.now && s'.since == s.since }

  lemma OwnersFramed(cfg: Config, s: State, l: Label)
    requires Enabled(cfg, s, l) && !MovesOwners(l)
    ensures SameOwners(s, Apply(cfg, s, l))
  {
  }

  predicate SameItems(v: Server, v': Server) { v'.runtimes == v.runtimes && v'.cached == v.cached }

  lemma FailedClaimItems(cfg: Config, s: State, l: Label, n: Node)
    requires Enabled(cfg, s, l) && l.ClaimFails?
    ensures SameItems(At(s, n), At(Apply(cfg, s, l), n))
  {
  }

  lemma HandshakeItems(cfg: Config, s: State, l: Label, n: Node)
    requires Enabled(cfg, s, l) && (l.Register? || l.AckFails? || l.KickPrior?)
    ensures SameItems(At(s, n), At(Apply(cfg, s, l), n))
  {
  }

  lemma PassItems(cfg: Config, s: State, l: Label, n: Node)
    requires Enabled(cfg, s, l) && PassLabel(l) && !l.RemovePlayer?
    ensures SameItems(At(s, n), At(Apply(cfg, s, l), n))
  {
  }

  predicate Departure(l: Label) { l.HangUp? || l.Deregister? || l.Callback? || l.Offline? }

  lemma DepartureItems(cfg: Config, s: State, l: Label, n: Node)
    requires Enabled(cfg, s, l) && Departure(l)
    ensures SameItems(At(s, n), At(Apply(cfg, s, l), n))
  {
  }

  lemma ItemsFramed(cfg: Config, s: State, l: Label, n: Node)
    requires Enabled(cfg, s, l) && !MovesItems(l)
    ensures SameItems(At(s, n), At(Apply(cfg, s, l), n))
  {
    if l.ClaimFails? {
      FailedClaimItems(cfg, s, l, n);
    } else if Handshake(l) && !l.Bind? {
      HandshakeItems(cfg, s, l, n);
    } else if PassLabel(l) {
      PassItems(cfg, s, l, n);
    } else if Departure(l) {
      DepartureItems(cfg, s, l, n);
    }
  }
}
