/** What late events of old connections can and cannot do to the connection that holds a player's claim:
    results about the runs of `Ownership`. */
module OwnershipClaims {
  import opened Common
  import opened OwnerStore
  import opened Ownership

  // ---- Late events of an old connection never disturb a newer claim ----

  /** A session entry names a connection of that player on that server. */
  predicate SessionOk(s: State, n: Node, uid: Uid) {
    uid in At(s, n).sessions ==>
      var c := At(s, n).sessions[uid];
      c in s.conns && s.conns[c].node == n && s.conns[c].uid == uid
  }

  predicate ClientOk(s: State, n: Node, c: Conn) {
    c in At(s, n).clients ==> c in s.conns && s.conns[c].node == n && s.conns[c].uid == At(s, n).clients[c]
  }

  /** The record names a connection that has claimed. */
  predicate OwnerOk(s: State, uid: Uid) {
    uid in s.owners ==>
      var o := s.owners[uid];
      o.conn in s.conns && s.conns[o.conn].node == o.server && s.conns[o.conn].uid == uid
      && !s.conns[o.conn].stage.Authenticating?
  }

  predicate InUse(s: State, c: Conn) {
    c in s.conns && (s.conns[c].stage.Owning? || s.conns[c].stage.Registered? || s.conns[c].stage.Serving?)
  }

  /** While its connection is in use, a record lives at most one online period longer. */
  predicate ExpiryOk(cfg: Config, s: State, uid: Uid) {
    uid in s.owners && InUse(s, s.owners[uid].conn) ==> s.owners[uid].expires <= s.now + cfg.ownerTtl
  }

  /** A notice names a connection whose claim has been overwritten; it can never claim again. */
  predicate NoticeOk(s: State, notice: Notice) {
    notice in s.notices ==>
      var c := notice.conn;
      c in s.conns && !s.conns[c].stage.Authenticating?
      && (s.conns[c].uid in s.owners ==> s.owners[s.conns[c].uid].conn != c)
  }

  predicate Joining(stage: Stage) { stage.Authenticating? || stage.Owning? || stage.Registered? }

  predicate HasPrior(stage: Stage) { Joining(stage) && stage.prior.Some? }

  /** A connection about to be kicked as replaced is bound nowhere any more. */
  predicate PriorOk(s: State, c: Conn) {
    c in s.conns && HasPrior(s.conns[c].stage) ==>
      var x := s.conns[c].stage.prior.value;
      x in s.conns && s.conns[x].node == s.conns[c].node && s.conns[x].uid == s.conns[c].uid
      && !(s.conns[x].uid in At(s, s.conns[x].node).sessions && At(s, s.conns[x].node).sessions[s.conns[x].uid] == x)
  }

  /** A connection keeps its server and player, and never goes back to authenticating. */
  predicate ConnFrame(s: State, s': State, c: Conn) {
    c in s.conns ==>
      && c in s'.conns && s'.conns[c].node == s.conns[c].node && s'.conns[c].uid == s.conns[c].uid
      && (s'.conns[c].stage.Authenticating? ==> s'.conns[c] == s.conns[c])
      && (Joining(s'.conns[c].stage) ==> Joining(s.conns[c].stage) && s'.conns[c].stage.prior == s.conns[c].stage.prior)
  }

  /** A session entry is new only by a login of that player on that server. */
  predicate SessionFrame(s: State, s': State, l: Label, n: Node, uid: Uid) {
    uid in At(s', n).sessions ==>
      || (uid in At(s, n).sessions && At(s', n).sessions[uid] == At(s, n).sessions[uid])
      || l == Bind(n, uid, At(s', n).sessions[uid])
  }

  lemma HandshakeConn(cfg: Config, s: State, l: Label, c: Conn)
    requires Enabled(cfg, s, l) && Handshake(l)
    ensures ConnFrame(s, Apply(cfg, s, l), c)
  {
  }

  lemma ConnFramed(cfg: Config, s: State, l: Label, c: Conn)
    requires Enabled(cfg, s, l)
    ensures ConnFrame(s, Apply(cfg, s, l), c)
  {
    if Handshake(l) { HandshakeConn(cfg, s, l, c); }
  }

  lemma HandshakeSession(cfg: Config, s: State, l: Label, n: Node, uid: Uid)
    requires Enabled(cfg, s, l) && Handshake(l)
    ensures SessionFrame(s, Apply(cfg, s, l), l, n, uid)
  {
  }

  lemma SessionFramed(cfg: Config, s: State, l: Label, n: Node, uid: Uid)
    requires Enabled(cfg, s, l)
    ensures SessionFrame(s, Apply(cfg, s, l), l, n, uid)
  {
    if Handshake(l) { HandshakeSession(cfg, s, l, n, uid); }
  }

  /** A client is registered by its own connection only. */
  predicate ClientFrame(s: State, s': State, l: Label, n: Node, c: Conn) {
    c in At(s', n).clients ==>
      || (c in At(s, n).clients && At(s', n).clients[c] == At(s, n).clients[c])
      || (l == Register(c) && c in s.conns && s.conns[c].node == n && s.conns[c].uid == At(s', n).clients[c])
  }

  lemma HandshakeClient(cfg: Config, s: State, l: Label, n: Node, c: Conn)
    requires Enabled(cfg, s, l) && Handshake(l)
    ensures ClientFrame(s, Apply(cfg, s, l), l, n, c)
  {
  }

  lemma ClientFramed(cfg: Config, s: State, l: Label, n: Node, c: Conn)
    requires Enabled(cfg, s, l)
    ensures ClientFrame(s, Apply(cfg, s, l), l, n, c)
  {
    if Handshake(l) { HandshakeClient(cfg, s, l, n, c); }
  }

  lemma OwnerKept(cfg: Config, s: State, l: Label, uid: Uid)
    requires Enabled(cfg, s, l) && OwnerOk(s, uid)
    ensures OwnerOk(Apply(cfg, s, l), uid)
  {
    if !MovesOwners(l) {
      OwnersFramed(cfg, s, l);
      if uid in s.owners { ConnFramed(cfg, s, l, s.owners[uid].conn); }
    }
  }

  lemma ExpiryKept(cfg: Config, s: State, l: Label, uid: Uid)
    requires Enabled(cfg, s, l) && OwnerOk(s, uid) && ExpiryOk(cfg, s, uid)
    ensures ExpiryOk(cfg, Apply(cfg, s, l), uid)
  {
  }

  /** Outside a claim no notice is born and no record gets another connection. */
  predicate NoticeFrame(s: State, s': State) {
    && s'.notices == s.notices
    && s'.owners.Keys == s.owners.Keys
    && forall uid :: uid in s.owners ==> s'.owners[uid].conn == s.owners[uid].conn
  }

  lemma NoticeFramed(cfg: Config, s: State, l: Label)
    requires Enabled(cfg, s, l) && !TakesRecord(l)
    ensures NoticeFrame(s, Apply(cfg, s, l))
  {
    if !MovesOwners(l) { OwnersFramed(cfg, s, l); }
  }

  lemma NoticeKept(cfg: Config, s: State, l: Label, notice: Notice)
    requires Enabled(cfg, s, l) && NoticeOk(s, notice)
    requires l.Claim? ==> OwnerOk(s, s.conns[l.conn].uid)
    ensures NoticeOk(Apply(cfg, s, l), notice)
  {
    if !TakesRecord(l) {
      NoticeFramed(cfg, s, l);
      ConnFramed(cfg, s, l, notice.conn);
    }
  }

  ghost predicate Linked(cfg: Config, s: State) {
    && "" !in s.conns
    && (forall n, uid :: SessionOk(s, n, uid))
    && (forall n, c :: ClientOk(s, n, c))
    && (forall uid :: OwnerOk(s, uid) && ExpiryOk(cfg, s, uid))
    && (forall notice :: NoticeOk(s, notice))
    && (forall c :: PriorOk(s, c))
  }

  lemma LinkedKept(cfg: Config, s: State, l: Label)
    requires Linked(cfg, s) && Enabled(cfg, s, l)
    ensures Linked(cfg, Apply(cfg, s, l))
  {
    var s' := Apply(cfg, s, l);
    forall n, uid ensures SessionOk(s', n, uid) {
      assert SessionOk(s, n, uid);
      SessionFramed(cfg, s, l, n, uid);
      if uid in At(s, n).sessions { ConnFramed(cfg, s, l, At(s, n).sessions[uid]); }
    }
    forall n, c ensures ClientOk(s', n, c) {
      assert ClientOk(s, n, c);
      ClientFramed(cfg, s, l, n, c);
      ConnFramed(cfg, s, l, c);
    }
    forall uid ensures OwnerOk(s', uid) && ExpiryOk(cfg, s', uid) {
      assert OwnerOk(s, uid) && ExpiryOk(cfg, s, uid);
      OwnerKept(cfg, s, l, uid);
      ExpiryKept(cfg, s, l, uid);
    }
    forall notice ensures NoticeOk(s', notice) {
      assert NoticeOk(s, notice) && (l.Claim? ==> OwnerOk(s, s.conns[l.conn].uid));
      NoticeKept(cfg, s, l, notice);
    }
    forall c ensures PriorOk(s', c) { PriorAlwaysOk(cfg, s, l, c); }
  }

  lemma PriorAlwaysOk(cfg: Config, s: State, l: Label, c: Conn)
    requires Linked(cfg, s) && Enabled(cfg, s, l)
    ensures PriorOk(Apply(cfg, s, l), c)
  {
    var s' := Apply(cfg, s, l);
    assert PriorOk(s, c);
    if c in s.conns {
      ConnFramed(cfg, s, l, c);
      if HasPrior(s.conns[c].stage) {
        var x := s.conns[c].stage.prior.value;
        ConnFramed(cfg, s, l, x);
        SessionFramed(cfg, s, l, s.conns[x].node, s.conns[x].uid);
      }
    } else if c in s'.conns {
      assert SessionOk(s, l.node, l.uid);
    }
  }

  lemma {:induction false} EveryRunLinked(cfg: Config, run: seq<State>, labels: seq<Label>, i: nat)
    requires IsRun(cfg, run, labels) && i < |run|
    ensures Linked(cfg, run[i])
  {
    if i > 0 {
      EveryRunLinked(cfg, run, labels, i - 1);
      LinkedKept(cfg, run[i - 1], labels[i - 1]);
    }
  }

  /** The connection is in use, bound on its server, open, and the record is its claim. */
  predicate Current(s: State, c: Conn) {
    InUse(s, c) && Holds(s, c) && HasSession(s, c) && c !in s.closed
  }

  predicate Holds(s: State, c: Conn) {
    c in s.conns && OwnerOf(s, s.conns[c].uid).Some? && s.owners[s.conns[c].uid].conn == c
  }

  predicate HasSession(s: State, c: Conn) {
    c in s.conns && s.conns[c].uid in Home(s, c).sessions && Home(s, c).sessions[s.conns[c].uid] == c
  }

  /** A claim of the player's record, by whatever connection. */
  predicate Takes(s: State, l: Label, c: Conn)
    requires c in s.conns
  {
    TakesRecord(l) && l.conn in s.conns && s.conns[l.conn].uid == s.conns[c].uid
  }

  /** The other events that may end it: its own departure, a login of the player bound on the same
      server, its expiry, or a removal by its server's reconciler. */
  predicate EndsOtherwise(s: State, l: Label, c: Conn)
    requires c in s.conns
  {
    var me := s.conns[c];
    match l
    case HangUp(x) => x == c
    case AckFails(x) => x == c
    case Bind(n, uid, _) => n == me.node && uid == me.uid
    case RemovePlayer(n, uid) => n == me.node && uid == me.uid
    case Tick(d) => me.uid in s.owners && s.now + d >= s.owners[me.uid].expires
    case _ => false
  }

  predicate Ends(s: State, l: Label, c: Conn)
    requires c in s.conns
  {
    Takes(s, l, c) || EndsOtherwise(s, l, c)
  }

  lemma EnteringKeepsSession(cfg: Config, s: State, l: Label, c: Conn)
    requires Enabled(cfg, s, l) && Entering(l) && InUse(s, c) && HasSession(s, c) && !Ends(s, l, c) && "" !in s.conns
    ensures HasSession(Apply(cfg, s, l), c)
  {
  }

  lemma HandshakeKeepsSession(cfg: Config, s: State, l: Label, c: Conn)
    requires Enabled(cfg, s, l) && Handshake(l) && InUse(s, c) && HasSession(s, c) && !Ends(s, l, c) && "" !in s.conns
    ensures HasSession(Apply(cfg, s, l), c)
  {
    if Entering(l) { EnteringKeepsSession(cfg, s, l, c); }
  }

  lemma SessionStays(cfg: Config, s: State, l: Label, c: Conn)
    requires Enabled(cfg, s, l) && InUse(s, c) && HasSession(s, c) && !Ends(s, l, c) && "" !in s.conns
    ensures HasSession(Apply(cfg, s, l), c)
  {
    if Handshake(l) { HandshakeKeepsSession(cfg, s, l, c); }
  }

  lemma ClaimStays(cfg: Config, s: State, l: Label, c: Conn)
    requires cfg.ownerTtl > 0 && Enabled(cfg, s, l) && InUse(s, c) && Holds(s, c) && !Ends(s, l, c)
    requires ExpiryOk(cfg, s, s.conns[c].uid)
    ensures var s' := Apply(cfg, s, l); Holds(s', c) && s'.owners[s.conns[c].uid].expires >= s.owners[s.conns[c].uid].expires
  {
    if !MovesOwners(l) {
      OwnersFramed(cfg, s, l);
      ConnFramed(cfg, s, l, c);
    }
  }

  lemma StaysOpen(cfg: Config, s: State, l: Label, c: Conn)
    requires Enabled(cfg, s, l) && Current(s, c) && !Ends(s, l, c)
    requires l.KickPrior? ==> PriorOk(s, l.conn)
    requires l.Deliver? ==> NoticeOk(s, l.notice)
    requires l.RemovePlayer? ==> SessionOk(s, l.node, l.uid)
    ensures c !in Apply(cfg, s, l).closed
  {
  }

  /** The claim of `c` went from `s` to `s'` untouched, except that it may live longer. */
  ghost predicate Carries(s: State, s': State, c: Conn) {
    && c in s.conns && c in s'.conns && s'.conns[c].uid == s.conns[c].uid && s'.conns[c].node == s.conns[c].node
    && s.conns[c].uid in s.owners && s.conns[c].uid in s'.owners
    && s'.owners[s.conns[c].uid].expires >= s.owners[s.conns[c].uid].expires
  }

  lemma StepUndisturbed(cfg: Config, s: State, l: Label, c: Conn)
    requires cfg.ownerTtl > 0 && Linked(cfg, s) && Enabled(cfg, s, l) && Current(s, c) && !Ends(s, l, c)
    ensures Current(Apply(cfg, s, l), c) && Carries(s, Apply(cfg, s, l), c)
  {
    assert ExpiryOk(cfg, s, s.conns[c].uid);
    if l.KickPrior? { assert PriorOk(s, l.conn); }
    if l.Deliver? { assert NoticeOk(s, l.notice); }
    if l.RemovePlayer? { assert SessionOk(s, l.node, l.uid); }

    SessionStays(cfg, s, l, c);
    ClaimStays(cfg, s, l, c);
    StaysOpen(cfg, s, l, c);
    ConnFramed(cfg, s, l, c);
  }

  /** Nothing in steps `i` to `j` may rightly end the claim of `c`. */
  ghost predicate NothingEnds(run: seq<State>, labels: seq<Label>, i: nat, j: nat, c: Conn)
    requires i <= j <= |labels| && |labels| < |run|
  {
    forall k :: i <= k < j ==> c !in run[k].conns || !Ends(run[k], labels[k], c)
  }

  /** Over any stretch of a run without such an event, a current connection stays bound, open and the
      owner, and its record never expires sooner: whatever disconnects, unbinds, kicks and delayed,
      repeated or reordered notices of older connections happen meanwhile. */
  lemma {:induction false} ClaimUndisturbed(cfg: Config, run: seq<State>, labels: seq<Label>, i: nat, j: nat, c: Conn)
    requires cfg.ownerTtl > 0 && IsRun(cfg, run, labels) && i <= j < |run| && Current(run[i], c)
    requires NothingEnds(run, labels, i, j, c)
    ensures Current(run[j], c) && Carries(run[i], run[j], c)
  {
    if i < j {
      assert NothingEnds(run, labels, i, j - 1, c);
      ClaimUndisturbed(cfg, run, labels, i, j - 1, c);
      LastStepUndisturbed(cfg, run, labels, j - 1, c);
    }
  }

  lemma LastStepUndisturbed(cfg: Config, run: seq<State>, labels: seq<Label>, k: nat, c: Conn)
    requires cfg.ownerTtl > 0 && IsRun(cfg, run, labels) && k < |labels| && Current(run[k], c)
    requires !Ends(run[k], labels[k], c)
    ensures Current(run[k + 1], c) && Carries(run[k], run[k + 1], c)
  {
    EveryRunLinked(cfg, run, labels, k);
    StepUndisturbed(cfg, run[k], labels[k], c);
  }

  // ---- Logins that were overtaken ----

  /** Another connection of the player is still on its way to claim. */
  predicate Rival(s: State, x: Conn, c: Conn)
    requires c in s.conns
  {
    x in s.conns && x != c && s.conns[x].uid == s.conns[c].uid && s.conns[x].stage.Authenticating?
  }

  ghost predicate Unrivalled(s: State, c: Conn)
    requires c in s.conns
  {
    forall x :: !Rival(s, x, c)
  }

  /** A connection that is bound already can take the record of a current one exactly when it is such a
      rival, be it older or newer. */
  lemma RivalsTake(cfg: Config, s: State, c: Conn, x: Conn)
    requires Current(s, c) && x in s.conns && s.conns[x].uid == s.conns[c].uid
    ensures Rival(s, x, c) <==> Enabled(cfg, s, Claim(x)) && !Holds(Apply(cfg, s, Claim(x)), c)
  {
  }

  lemma RunConnFramed(cfg: Config, run: seq<State>, labels: seq<Label>, k: nat, x: Conn)
    requires IsRun(cfg, run, labels) && k < |labels|
    ensures ConnFrame(run[k], run[k + 1], x)
  {
    ConnFramed(cfg, run[k], labels[k], x);
  }

  lemma {:induction false} FramesOver(run: seq<State>, i: nat, j: nat, x: Conn)
    requires i <= j < |run| && x in run[i].conns && forall k :: i <= k < j ==> ConnFrame(run[k], run[k + 1], x)
    ensures x in run[j].conns && run[j].conns[x].uid == run[i].conns[x].uid && run[j].conns[x].node == run[i].conns[x].node
    ensures run[j].conns[x].stage.Authenticating? ==> run[i].conns[x].stage.Authenticating?
    ensures Joining(run[j].conns[x].stage) ==> Joining(run[i].conns[x].stage) && run[j].conns[x].stage.prior == run[i].conns[x].stage.prior
  {
    if i < j {
      FramesOver(run, i, j - 1, x);
      assert ConnFrame(run[j - 1], run[j - 1 + 1], x);
    }
  }

  lemma ConnsFramed(cfg: Config, run: seq<State>, labels: seq<Label>, i: nat, j: nat, x: Conn)
    requires IsRun(cfg, run, labels) && i <= j < |run| && x in run[i].conns
    ensures x in run[j].conns && run[j].conns[x].uid == run[i].conns[x].uid && run[j].conns[x].node == run[i].conns[x].node
    ensures run[j].conns[x].stage.Authenticating? ==> run[i].conns[x].stage.Authenticating?
    ensures Joining(run[j].conns[x].stage) ==> Joining(run[i].conns[x].stage) && run[j].conns[x].stage.prior == run[i].conns[x].stage.prior
  {
    forall k | i <= k < j ensures ConnFrame(run[k], run[k + 1], x) { RunConnFramed(cfg, run, labels, k, x); }
    FramesOver(run, i, j, x);
  }

  /** Over a stretch that begins without rivals, only a connection that was bound later can take the
      record: as long as none does, and no other ending event comes, the current connection stays
      bound, open and owner. */
  lemma OnlyLaterBindsTake(cfg: Config, run: seq<State>, labels: seq<Label>, i: nat, j: nat, c: Conn)
    requires cfg.ownerTtl > 0 && IsRun(cfg, run, labels) && i <= j < |run| && Current(run[i], c) && Unrivalled(run[i], c)
    requires forall k :: i <= k < j && c in run[k].conns ==> !EndsOtherwise(run[k], labels[k], c)
    requires forall k :: i <= k < j && c in run[k].conns && Takes(run[k], labels[k], c) ==> labels[k].conn in run[i].conns
    ensures Current(run[j], c) && Carries(run[i], run[j], c)
  {
    forall k | i <= k < j && c in run[k].conns ensures !Ends(run[k], labels[k], c) {
      ConnsFramed(cfg, run, labels, i, k, c);
      if TakesRecord(labels[k]) && labels[k].conn in run[i].conns {
        ConnsFramed(cfg, run, labels, i, k, labels[k].conn);
        assert !Rival(run[i], labels[k].conn, c);
      }
    }
    ClaimUndisturbed(cfg, run, labels, i, j, c);
  }

  // ---- The reconciler works on what it read ----

  /** No other read, and no end, of server `n`'s pass between its read at step `f` and state `i`. */
  ghost predicate SamePass(labels: seq<Label>, f: nat, i: nat, n: Node)
    requires f < i <= |labels|
  {
    labels[f] == Fetch(n) && forall k :: f < k < i ==> labels[k] != Fetch(n) && labels[k] != Finish(n)
  }

  lemma {:induction false} PassIsTheFetch(cfg: Config, run: seq<State>, labels: seq<Label>, f: nat, i: nat, n: Node)
    requires IsRun(cfg, run, labels) && f < i < |run| && SamePass(labels, f, i, n)
    ensures At(run[i], n).pass == At(run[f + 1], n).pass && At(run[i], n).pass.Fetched?
  {
    if f + 1 < i {
      PassIsTheFetch(cfg, run, labels, f, i - 1, n);
      assert labels[i - 1] != Fetch(n) && labels[i - 1] != Finish(n);
      RunPassKept(cfg, run, labels, i - 1, n);
    } else {
      RunFetches(cfg, run, labels, f, n);
    }
  }

  lemma RunFetches(cfg: Config, run: seq<State>, labels: seq<Label>, f: nat, n: Node)
    requires IsRun(cfg, run, labels) && f < |labels| && labels[f] == Fetch(n)
    ensures At(run[f], n).pass.Listed? && At(run[f + 1], n).pass.Fetched?
  {
    assert Enabled(cfg, run[f], Fetch(n)) && run[f + 1] == Apply(cfg, run[f], Fetch(n));
  }

  lemma RunPassKept(cfg: Config, run: seq<State>, labels: seq<Label>, k: nat, n: Node)
    requires IsRun(cfg, run, labels) && k < |labels| && At(run[k], n).pass.Fetched? && labels[k] != Fetch(n) && labels[k] != Finish(n)
    ensures At(run[k + 1], n).pass == At(run[k], n).pass
  {
    PassKept(cfg, run[k], labels[k], n);
  }

  /** A pass that fetched the owners while the connection was current will not remove its player. */
  lemma FetchedClaimIsSpared(cfg: Config, run: seq<State>, labels: seq<Label>, f: nat, i: nat, c: Conn)
    requires IsRun(cfg, run, labels) && f < i < |run| && Current(run[f], c)
    requires SamePass(labels, f, i, run[f].conns[c].node)
    ensures !Enabled(cfg, run[i], RemovePlayer(run[f].conns[c].node, run[f].conns[c].uid))
  {
    var n, uid := run[f].conns[c].node, run[f].conns[c].uid;
    EveryRunLinked(cfg, run, labels, f);
    assert OwnerOk(run[f], uid);
    PassIsTheFetch(cfg, run, labels, f, i, n);
  }

  /** What the pass saw at its read: a player it had listed whose record named another server, or had
      none while there was no session. */
  predicate SeenElsewhere(s: State, n: Node, uid: Uid)
    requires At(s, n).pass.Listed?
  {
    var p := At(s, n).pass;
    uid in p.uids && if OwnerOf(s, uid).Some? then OwnerOf(s, uid).value.server != n else uid !in p.active
  }

  /** A current, registered connection is closed by a pass exactly when the pass saw its player
      elsewhere when it read, whatever the record says by now. */
  lemma CurrentIsClosedIff(cfg: Config, run: seq<State>, labels: seq<Label>, f: nat, i: nat, c: Conn)
    requires IsRun(cfg, run, labels) && f < i < |run| && Current(run[i], c) && c in Home(run[i], c).clients
    requires SamePass(labels, f, i, run[i].conns[c].node)
    ensures At(run[f], run[i].conns[c].node).pass.Listed?
    ensures var removal := RemovePlayer(run[i].conns[c].node, run[i].conns[c].uid);
      Enabled(cfg, run[i], removal) && c in Apply(cfg, run[i], removal).closed
      <==> SeenElsewhere(run[f], run[i].conns[c].node, run[i].conns[c].uid)
  {
    var n, uid := run[i].conns[c].node, run[i].conns[c].uid;
    PassIsTheFetch(cfg, run, labels, f, i, n);
    assert Enabled(cfg, run[f], Fetch(n)) && run[f + 1] == Apply(cfg, run[f], Fetch(n));
    if Enabled(cfg, run[i], RemovePlayer(n, uid)) { RemovalClosesWhoeverIsBound(cfg, run[i], c); }
  }

  lemma HandshakeKeepsPass(cfg: Config, s: State, l: Label, n: Node)
    requires Enabled(cfg, s, l) && Handshake(l)
    ensures At(Apply(cfg, s, l), n).pass == At(s, n).pass
  {
    if l.Bind? {
    } else if l.ClaimFails? {
    }
  }

  lemma PassKept(cfg: Config, s: State, l: Label, n: Node)
    requires Enabled(cfg, s, l) && At(s, n).pass.Fetched? && l != Fetch(n) && l != Finish(n)
    ensures At(Apply(cfg, s, l), n).pass == At(s, n).pass
  {
    if Handshake(l) { HandshakeKeepsPass(cfg, s, l, n); }
  }

  /** A removal closes the registered connection that is bound now, whoever it belongs to. */
  lemma RemovalClosesWhoeverIsBound(cfg: Config, s: State, c: Conn)
    requires c in s.conns && HasSession(s, c) && c in Home(s, c).clients
    requires Enabled(cfg, s, RemovePlayer(s.conns[c].node, s.conns[c].uid))
    ensures c in Apply(cfg, s, RemovePlayer(s.conns[c].node, s.conns[c].uid)).closed
  {
  }

  /** A claim newer than the fetch is not spared: if the pass read another server for a player whose
      connection is just authenticating here, then once that connection has claimed and registered the
      removal is still due, and closes it although the record says this server by now. */
  lemma ClaimAfterFetchIsClosed(cfg: Config, s: State, c: Conn) returns (s2: State)
    requires cfg.ownerTtl > 0 && c in s.conns && s.conns[c].stage.Authenticating? && HasSession(s, c) && c !in s.closed
    requires var p := Home(s, c).pass; p.Fetched? && s.conns[c].uid in p.uids && Judge(s.conns[c].node, p.active, p.snapshot, s.conns[c].uid) == Remove
    ensures s2 == Apply(cfg, Apply(cfg, s, Claim(c)), Register(c))
    ensures Current(s2, c) && OwnedBy(s2, s.conns[c].uid, s.conns[c].node)
    ensures Enabled(cfg, s2, RemovePlayer(s.conns[c].node, s.conns[c].uid))
    ensures c in Apply(cfg, s2, RemovePlayer(s.conns[c].node, s.conns[c].uid)).closed
  {
    s2 := Apply(cfg, Apply(cfg, s, Claim(c)), Register(c));
  }
}
