/** What the steps of `Ownership` achieve: who becomes the owner, who is told, who is closed, what is kept
    and for how long, and that one player's steps leave every other player alone. */
module OwnershipSteps {
  import opened Common
  import opened OwnerStore
  import opened Ownership
  import opened OwnershipClaims

  // ---- Logging in ----

  /** A login is bound, remembers whom it replaced, and is not owner yet. */
  lemma BindMeans(cfg: Config, s: State, n: Node, uid: Uid, c: Conn)
    requires Enabled(cfg, s, Bind(n, uid, c))
    ensures var s', sessions := Apply(cfg, s, Bind(n, uid, c)), At(s, n).sessions;
      && HasSession(s', c) && s'.conns[c].node == n && s'.conns[c].uid == uid && s'.owners == s.owners
      && s'.conns[c].stage == Authenticating(if uid in sessions then Some(sessions[uid]) else None)
  {
  }

  /** A claim that is answered makes its server the owner for a whole period; the connection is current if
      it is still bound. The server keeps what it held for the player exactly when it was the owner. */
  lemma ClaimMeans(cfg: Config, s: State, c: Conn)
    requires cfg.ownerTtl > 0 && Enabled(cfg, s, Claim(c))
    ensures var s', n, uid := Apply(cfg, s, Claim(c)), s.conns[c].node, s.conns[c].uid;
      && uid in s'.owners && s'.owners[uid] == Owner(n, c, s.now + cfg.ownerTtl) && Holds(s', c)
      && (HasSession(s, c) && c !in s.closed ==> Current(s', c))
      && (if OwnedBy(s, uid, n) then SameItems(At(s, n), At(s', n)) else uid !in At(s', n).runtimes && CachedOf(At(s', n), uid) == {})
  {
  }

  /** The owner before, if it was another server with a known connection. */
  function ToldBy(s: State, c: Conn): set<Notice>
    requires c in s.conns
  {
    var before := OwnerOf(s, s.conns[c].uid);
    if before.Some? && before.value.server != s.conns[c].node && before.value.conn != ""
    then {Notice(before.value.server, s.conns[c].uid, before.value.conn)} else {}
  }

  /** Notices are sent by answered claims, to the server and connection they overtook, and by nothing else. */
  lemma NoticesAreSentByClaims(cfg: Config, s: State, l: Label)
    requires Enabled(cfg, s, l)
    ensures Apply(cfg, s, l).notices == s.notices + if l.Claim? then ToldBy(s, l.conn) else {}
  {
  }

  lemma {:induction false} NoticesGrow(run: seq<State>, i: nat, j: nat)
    requires i <= j < |run| && forall k :: i <= k < j ==> run[k].notices <= run[k + 1].notices
    ensures run[i].notices <= run[j].notices
  {
    if i < j {
      NoticesGrow(run, i, j - 1);
      assert run[j - 1].notices <= run[j - 1 + 1].notices;
    }
  }

  lemma NoticesStay(cfg: Config, run: seq<State>, labels: seq<Label>, i: nat, j: nat)
    requires IsRun(cfg, run, labels) && i <= j < |run|
    ensures run[i].notices <= run[j].notices
  {
    forall k | i <= k < j ensures run[k].notices <= run[k + 1].notices { NoticesAreSentByClaims(cfg, run[k], labels[k]); }
    NoticesGrow(run, i, j);
  }

  /** A login that overtakes a live owner on another server tells that server: from then on, in every state
      of the run, the notice can be delivered, and when it is, the overtaken connection is closed if it is a
      registered client of that player there. */
  lemma OvertakenIsNotified(cfg: Config, run: seq<State>, labels: seq<Label>, i: nat, j: nat, c: Conn, b: Node, x: Conn)
    requires IsRun(cfg, run, labels) && i < j < |run| && labels[i] == Claim(c)
    requires var o := OwnerOf(run[i], run[i].conns[c].uid); o.Some? && o.value.server == b != run[i].conns[c].node && o.value.conn == x != ""
    ensures var notice := Notice(b, run[i].conns[c].uid, x);
      && Enabled(cfg, run[j], Deliver(notice))
      && (x in At(run[j], b).clients && At(run[j], b).clients[x] == run[i].conns[c].uid ==> x in Apply(cfg, run[j], Deliver(notice)).closed)
  {
    NoticesAreSentByClaims(cfg, run[i], labels[i]);
    NoticesStay(cfg, run, labels, i + 1, j);
  }

  /** Conversely a delivery closes nobody else. */
  lemma DeliveryClosesIff(cfg: Config, s: State, notice: Notice, x: Conn)
    requires Enabled(cfg, s, Deliver(notice))
    ensures var clients := At(s, notice.target).clients;
      x in Apply(cfg, s, Deliver(notice)).closed <==>
        x in s.closed || (x == notice.conn && x in clients && clients[x] == notice.uid)
  {
  }

  /** A login that replaced a connection on its own server closes that connection before it serves, if the
      connection is a registered client by then; and it closes no other. */
  lemma ReplacedIsKicked(cfg: Config, run: seq<State>, labels: seq<Label>, i: nat, k: nat, n: Node, uid: Uid, c: Conn, x: Conn)
    requires IsRun(cfg, run, labels) && i < k < |labels| && labels[i] == Bind(n, uid, c) && labels[k] == KickPrior(c)
    ensures c in run[k + 1].conns && run[k + 1].conns[c].stage.Serving?
    ensures x in run[k + 1].closed <==>
      x in run[k].closed || (x in At(run[k], n).clients && uid in At(run[i], n).sessions && At(run[i], n).sessions[uid] == x)
  {
    BindMeans(cfg, run[i], n, uid, c);
    ConnsFramed(cfg, run, labels, i + 1, k, c);
    assert Enabled(cfg, run[k], labels[k]);
    KickMeans(cfg, run[k], c, x);
  }

  lemma KickMeans(cfg: Config, s: State, c: Conn, x: Conn)
    requires Enabled(cfg, s, KickPrior(c))
    ensures var s' := Apply(cfg, s, KickPrior(c));
      && c in s'.conns && s'.conns[c].stage.Serving?
      && (x in s'.closed <==> x in s.closed || (s.conns[c].stage.prior == Some(x) && x in Home(s, c).clients))
  {
  }

  /** Registering makes the connection a client under its player; a claim or an acknowledgement that fails
      takes it out of the tables, and the latter closes it. */
  lemma RegisterMeans(cfg: Config, s: State, c: Conn)
    requires Enabled(cfg, s, Register(c))
    ensures var s', n := Apply(cfg, s, Register(c)), s.conns[c].node;
      c in At(s', n).clients && At(s', n).clients[c] == s.conns[c].uid && s'.conns[c].stage == Registered(s.conns[c].stage.prior)
  {
  }

  lemma ClaimFailsMeans(cfg: Config, s: State, c: Conn, ran: bool)
    requires Enabled(cfg, s, ClaimFails(c, ran))
    ensures var s', n, uid := Apply(cfg, s, ClaimFails(c, ran)), s.conns[c].node, s.conns[c].uid;
      && !HasSession(s', c) && s'.conns[c].stage.Gone?
      && RecordOf(s'.owners, uid) == if ran then Some(Owner(n, c, s.now + cfg.ownerTtl)) else RecordOf(s.owners, uid)
  {
  }

  lemma AckFailsMeans(cfg: Config, s: State, c: Conn)
    requires Enabled(cfg, s, AckFails(c))
    ensures var s' := Apply(cfg, s, AckFails(c));
      !HasSession(s', c) && c !in Home(s', c).clients && c in s'.closed && s'.conns[c].stage.Gone?
  {
  }

  // ---- Playing ----

  lemma StartLevelMeans(cfg: Config, s: State, c: Conn)
    requires Enabled(cfg, s, StartLevel(c))
    ensures var v, uid := Home(Apply(cfg, s, StartLevel(c)), c), s.conns[c].uid;
      uid in v.runtimes && v.runtimes[uid] == s.step && v.cached == Home(s, c).cached
  {
  }

  lemma CacheResultMeans(cfg: Config, s: State, c: Conn)
    requires Enabled(cfg, s, CacheResult(c))
    ensures var v, uid := Home(Apply(cfg, s, CacheResult(c)), c), s.conns[c].uid;
      CachedOf(v, uid) == CachedOf(Home(s, c), uid) + {s.step} && v.runtimes == Home(s, c).runtimes
  {
  }

  lemma ForgetMeans(cfg: Config, s: State, n: Node, uid: Uid)
    ensures var v := At(Apply(cfg, s, Forget(n, uid)), n); uid !in v.runtimes && CachedOf(v, uid) == {}
  {
  }

  // ---- Leaving ----

  lemma HangUpMeans(cfg: Config, s: State, c: Conn)
    requires Enabled(cfg, s, HangUp(c)) && c != ""
    ensures var s' := Apply(cfg, s, HangUp(c));
      && s'.conns[c].stage.Unbinding?
      && Home(s', c) == Home(s, c).(sessions := Home(s', c).sessions)
      && Home(s', c).sessions == if HasSession(s, c) then Home(s, c).sessions - {s.conns[c].uid} else Home(s, c).sessions
  {
  }

  lemma DeregisterMeans(cfg: Config, s: State, c: Conn)
    requires Enabled(cfg, s, Deregister(c))
    ensures var s' := Apply(cfg, s, Deregister(c));
      s'.conns[c].stage.Deregistered? && Home(s', c) == Home(s, c).(clients := Home(s, c).clients - {c})
  {
  }

  /** A connection marks its player offline exactly when no newer session took its place. */
  lemma CallbackMeans(cfg: Config, s: State, c: Conn)
    requires Enabled(cfg, s, Callback(c))
    ensures var s', uid := Apply(cfg, s, Callback(c)), s.conns[c].uid;
      && (s'.conns[c].stage.Leaving? <==> uid !in Home(s, c).sessions || HasSession(s, c))
      && (s'.conns[c].stage.Leaving? || (s'.conns[c].stage.Gone? && c in s'.closed))
  {
  }

  lemma OfflineMeans(cfg: Config, s: State, c: Conn, up: bool)
    requires Enabled(cfg, s, Offline(c, up))
    ensures var s', n, uid := Apply(cfg, s, Offline(c, up)), s.conns[c].node, s.conns[c].uid;
      && s'.conns[c].stage.Gone? && c in s'.closed
      && RecordOf(s'.owners, uid)
           == if up && IsLiveClaim(s.owners, s.now, uid, n, c) then Some(Owner(n, c, s.now + cfg.offlineTtl)) else RecordOf(s.owners, uid)
  {
  }

  /** So a current connection that leaves while nothing else happens is in no table any more, and its
      player's record lives for the offline period from then on. */
  lemma QuietDeparture(cfg: Config, s: State, c: Conn) returns (s4: State)
    requires Current(s, c) && s.conns[c].stage.Serving? && c != "" && OwnerOk(s, s.conns[c].uid)
    ensures var s1 := Apply(cfg, s, HangUp(c));
      var s2 := Apply(cfg, s1, Deregister(c));
      var s3 := Apply(cfg, s2, Callback(c));
      Enabled(cfg, s3, Offline(c, true)) && s4 == Apply(cfg, s3, Offline(c, true))
    ensures c in s4.conns && s4.conns[c].stage.Gone? && c in s4.closed
    ensures s.conns[c].uid !in Home(s4, c).sessions && c !in Home(s4, c).clients
    ensures RecordOf(s4.owners, s.conns[c].uid) == Some(Owner(s.conns[c].node, c, s.now + cfg.offlineTtl))
  {
    HangUpMeans(cfg, s, c);
    var s1 := Apply(cfg, s, HangUp(c));
    DeregisterMeans(cfg, s1, c);
    var s2 := Apply(cfg, s1, Deregister(c));
    CallbackMeans(cfg, s2, c);
    var s3 := Apply(cfg, s2, Callback(c));
    OfflineMeans(cfg, s3, c, true);
    s4 := Apply(cfg, s3, Offline(c, true));
  }

  // ---- The reconciler ----

  lemma ListMeans(cfg: Config, s: State, n: Node, uid: Uid)
    requires Enabled(cfg, s, List(n))
    ensures var v, p := At(s, n), At(Apply(cfg, s, List(n)), n).pass;
      p.Listed? && (uid in p.active <==> uid in v.sessions) && (uid in p.uids <==> uid != "" && (uid in v.sessions || uid in v.runtimes))
  {
  }

  lemma FetchMeans(cfg: Config, s: State, n: Node, uid: Uid)
    requires Enabled(cfg, s, Fetch(n))
    ensures var p, q := At(s, n).pass, At(Apply(cfg, s, Fetch(n)), n).pass;
      q.Fetched? && q.uids == p.uids && q.active == p.active && RecordOf(q.snapshot, uid) == if uid in p.uids then OwnerOf(s, uid) else None
  {
  }

  /** What is due for a player once the owners are read: removal when the record named another server, or
      none was there and no session; renewal when it named this one and there was a session. */
  lemma DueIff(cfg: Config, s: State, n: Node, uid: Uid)
    ensures var p := At(s, n).pass;
      && (Enabled(cfg, s, RemovePlayer(n, uid)) <==>
            p.Fetched? && uid in p.uids && if uid in p.snapshot then p.snapshot[uid].server != n else uid !in p.active)
      && (Enabled(cfg, s, RenewPlayer(n, uid)) <==>
            p.Fetched? && uid in p.uids && uid in p.snapshot && p.snapshot[uid].server == n && uid in p.active)
  {
  }

  /** A removal forgets the player here and closes the connection that is bound, if it is a client. */
  lemma RemovalMeans(cfg: Config, s: State, n: Node, uid: Uid, x: Conn)
    requires Enabled(cfg, s, RemovePlayer(n, uid))
    ensures var s', v, v' := Apply(cfg, s, RemovePlayer(n, uid)), At(s, n), At(Apply(cfg, s, RemovePlayer(n, uid)), n);
      && uid !in v'.runtimes && CachedOf(v', uid) == {} && v'.sessions == v.sessions && s'.owners == s.owners
      && (x in s'.closed <==> x in s.closed || (uid in v.sessions && v.sessions[uid] == x && x in v.clients))
  {
  }

  /** A renewal gives an owner another whole period, and nobody else anything. */
  lemma RenewalMeans(cfg: Config, s: State, n: Node, uid: Uid)
    requires Enabled(cfg, s, RenewPlayer(n, uid))
    ensures var s' := Apply(cfg, s, RenewPlayer(n, uid));
      RecordOf(s'.owners, uid) == if OwnedBy(s, uid, n) then Some(s.owners[uid].(expires := s.now + cfg.ownerTtl)) else RecordOf(s.owners, uid)
  {
  }

  // ---- One player's steps and the others ----

  /** The player a step is about, if it is about one. */
  function Subject(s: State, l: Label): Option<Uid> {
    match l
    case Bind(_, uid, _) => Some(uid)
    case Forget(_, uid) => Some(uid)
    case RemovePlayer(_, uid) => Some(uid)
    case RenewPlayer(_, uid) => Some(uid)
    case Tick(_) => None
    case Deliver(_) => None
    case List(_) => None
    case Fetch(_) => None
    case Finish(_) => None
    case _ => if l.conn in s.conns then Some(s.conns[l.conn].uid) else None
  }

  /** The player's session, level and results on a server are the same in both. */
  predicate SamePlayer(v: Server, v': Server, uid: Uid) {
    && (uid in v'.sessions <==> uid in v.sessions) && (uid in v.sessions ==> v'.sessions[uid] == v.sessions[uid])
    && (uid in v'.runtimes <==> uid in v.runtimes) && (uid in v.runtimes ==> v'.runtimes[uid] == v.runtimes[uid])
    && CachedOf(v', uid) == CachedOf(v, uid)
  }

  lemma EnteringLeavesOthers(cfg: Config, s: State, l: Label, n: Node, uid: Uid)
    requires Enabled(cfg, s, l) && Subject(s, l) != Some(uid) && Entering(l)
    ensures SamePlayer(At(s, n), At(Apply(cfg, s, l), n), uid)
  {
  }

  lemma JoiningLeavesOthers(cfg: Config, s: State, l: Label, n: Node, uid: Uid)
    requires Enabled(cfg, s, l) && Subject(s, l) != Some(uid) && Handshake(l) && !Entering(l)
    ensures SamePlayer(At(s, n), At(Apply(cfg, s, l), n), uid)
  {
  }

  lemma PassLeavesOthers(cfg: Config, s: State, l: Label, n: Node, uid: Uid)
    requires Enabled(cfg, s, l) && Subject(s, l) != Some(uid) && PassLabel(l) && !l.RemovePlayer?
    ensures SamePlayer(At(s, n), At(Apply(cfg, s, l), n), uid)
  {
  }

  lemma PlayingLeavesOthers(cfg: Config, s: State, l: Label, n: Node, uid: Uid)
    requires Enabled(cfg, s, l) && Subject(s, l) != Some(uid) && (l.StartLevel? || l.CacheResult?)
    ensures SamePlayer(At(s, n), At(Apply(cfg, s, l), n), uid)
  {
  }

  lemma ForgettingLeavesOthers(cfg: Config, s: State, l: Label, n: Node, uid: Uid)
    requires Enabled(cfg, s, l) && Subject(s, l) != Some(uid) && (l.Forget? || l.RemovePlayer?)
    ensures SamePlayer(At(s, n), At(Apply(cfg, s, l), n), uid)
  {
  }

  lemma LeavingLeavesOthers(cfg: Config, s: State, l: Label, n: Node, uid: Uid)
    requires Enabled(cfg, s, l) && Subject(s, l) != Some(uid) && !Handshake(l) && !PassLabel(l) && !MovesItems(l)
    ensures SamePlayer(At(s, n), At(Apply(cfg, s, l), n), uid)
  {
  }

  lemma RecordsOfOthersStay(cfg: Config, s: State, l: Label, uid: Uid)
    requires Enabled(cfg, s, l) && Subject(s, l) != Some(uid)
    ensures RecordOf(Apply(cfg, s, l).owners, uid) == RecordOf(s.owners, uid) && Since(Apply(cfg, s, l), uid) == Since(s, uid)
  {
    if !MovesOwners(l) { OwnersFramed(cfg, s, l); }
  }

  /** A step about one player leaves the record, sessions, levels and results of every other one alone. */
  lemma OthersUntouched(cfg: Config, s: State, l: Label, n: Node, uid: Uid)
    requires Enabled(cfg, s, l) && Subject(s, l) != Some(uid)
    ensures RecordOf(Apply(cfg, s, l).owners, uid) == RecordOf(s.owners, uid) && Since(Apply(cfg, s, l), uid) == Since(s, uid)
    ensures SamePlayer(At(s, n), At(Apply(cfg, s, l), n), uid)
  {
    RecordsOfOthersStay(cfg, s, l, uid);
    if Entering(l) {
      EnteringLeavesOthers(cfg, s, l, n, uid);
    } else if Handshake(l) {
      JoiningLeavesOthers(cfg, s, l, n, uid);
    } else if l.StartLevel? || l.CacheResult? {
      PlayingLeavesOthers(cfg, s, l, n, uid);
    } else if MovesItems(l) {
      ForgettingLeavesOthers(cfg, s, l, n, uid);
    } else if PassLabel(l) {
      PassLeavesOthers(cfg, s, l, n, uid);
    } else {
      LeavingLeavesOthers(cfg, s, l, n, uid);
    }
  }
}
