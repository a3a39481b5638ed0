/** What a server keeps for a player was made while it owned the player, without a gap until now: results about
    the runs of `Ownership`. */
module OwnershipContinuity {
  import opened Common
  import opened OwnerStore
  import opened Ownership

  predicate ItemsSince(v: Server, uid: Uid, from: nat) {
    && (uid in v.runtimes ==> from <= v.runtimes[uid])
    && (forall c :: c in CachedOf(v, uid) ==> from <= c)
  }

  /** The step makes server `n` the owner although its claim was answered with an error, so what it
      kept for the player from earlier stays. */
  predicate TakesSilently(s: State, l: Label, n: Node, uid: Uid) {
    && l.ClaimFails? && l.ran && l.conn in s.conns && s.conns[l.conn].node == n && s.conns[l.conn].uid == uid
    && !OwnedBy(s, uid, n)
  }

  lemma AnsweredClaimForgets(cfg: Config, s: State, c: Conn)
    requires Enabled(cfg, s, Claim(c)) && !OwnedBy(s, s.conns[c].uid, s.conns[c].node)
    ensures var v := At(Apply(cfg, s, Claim(c)), s.conns[c].node); s.conns[c].uid !in v.runtimes && CachedOf(v, s.conns[c].uid) == {}
  {
  }

  /** The step by which server `n` came to own the player, or had owned it already. */
  lemma OwnershipBeginsWithClaim(cfg: Config, s: State, l: Label, n: Node, uid: Uid)
    requires cfg.ownerTtl > 0 && cfg.offlineTtl > 0 && Enabled(cfg, s, l)
    requires OwnedBy(Apply(cfg, s, l), uid, n)
    ensures var s' := Apply(cfg, s, l);
      if OwnedBy(s, uid, n) then Since(s', uid) == Since(s, uid)
      else Since(s', uid) == s'.step
           && (TakesSilently(s, l, n, uid) || (l.Claim? && uid !in At(s', n).runtimes && CachedOf(At(s', n), uid) == {}))
  {
    if !MovesOwners(l) { OwnersFramed(cfg, s, l); }
    if l.Claim? && !OwnedBy(s, s.conns[l.conn].uid, s.conns[l.conn].node) { AnsweredClaimForgets(cfg, s, l.conn); }
  }

  lemma ItemStamped(cfg: Config, s: State, l: Label, n: Node, uid: Uid, from: nat)
    requires Enabled(cfg, s, l) && ItemsSince(At(s, n), uid, from) && from <= s.step
    ensures ItemsSince(At(Apply(cfg, s, l), n), uid, from)
  {
    var v, v' := At(s, n), At(Apply(cfg, s, l), n);
    if !MovesItems(l) { ItemsFramed(cfg, s, l, n); }
    forall c | c in CachedOf(v', uid) ensures from <= c {
      if c !in CachedOf(v, uid) { ResultCreated(cfg, s, l, n, uid, c); }
    }
  }

  lemma ResultCreated(cfg: Config, s: State, l: Label, n: Node, uid: Uid, c: nat)
    requires Enabled(cfg, s, l) && MovesItems(l)
    requires c !in CachedOf(At(s, n), uid) && c in CachedOf(At(Apply(cfg, s, l), n), uid)
    ensures l.CacheResult? && c == s.step
    ensures l.conn in s.conns && s.conns[l.conn].node == n && s.conns[l.conn].uid == uid
  {
  }

  /** Ownership began with a claim, and if that was answered, everything the server keeps for the player
      was created since. */
  ghost predicate FreshAt(run: seq<State>, labels: seq<Label>, i: nat, n: Node, uid: Uid)
    requires i < |run| <= |labels| + 1
  {
    OwnedBy(run[i], uid, n) ==>
      var k := Since(run[i], uid);
      0 < k <= i && (TakesSilently(run[k - 1], labels[k - 1], n, uid) || ItemsSince(At(run[i], n), uid, k))
  }

  lemma {:induction false} EveryRunFresh(cfg: Config, run: seq<State>, labels: seq<Label>, i: nat, n: Node, uid: Uid)
    requires cfg.ownerTtl > 0 && cfg.offlineTtl > 0 && IsRun(cfg, run, labels) && i < |run|
    ensures FreshAt(run, labels, i, n, uid) && run[i].step == i
  {
    if i > 0 {
      EveryRunFresh(cfg, run, labels, i - 1, n, uid);
      var s, l := run[i - 1], labels[i - 1];
      if OwnedBy(run[i], uid, n) {
        OwnershipBeginsWithClaim(cfg, s, l, n, uid);
        if OwnedBy(s, uid, n) && ItemsSince(At(s, n), uid, Since(s, uid)) { ItemStamped(cfg, s, l, n, uid, Since(s, uid)); }
      }
    }
  }

  lemma {:induction false} StepCounts(cfg: Config, run: seq<State>, labels: seq<Label>, i: nat)
    requires IsRun(cfg, run, labels) && i < |run|
    ensures run[i].step == i
  {
    if i > 0 { StepCounts(cfg, run, labels, i - 1); }
  }

  /** Between the states before and after step `k`, ownership goes on from before or begins. */
  predicate OwnedOn(s: State, s': State, k: nat, n: Node, uid: Uid) {
    OwnedBy(s', uid, n) ==> (OwnedBy(s, uid, n) && Since(s', uid) == Since(s, uid)) || Since(s', uid) == k + 1
  }

  lemma {:induction false} OwnedDown(run: seq<State>, i: nat, k: nat, n: Node, uid: Uid)
    requires k <= i < |run| && OwnedBy(run[i], uid, n) && Since(run[i], uid) <= k
    requires forall m: nat :: k <= m < i ==> OwnedOn(run[m], run[m + 1], m, n, uid)
    ensures OwnedBy(run[k], uid, n)
  {
    if k < i {
      assert OwnedOn(run[i - 1], run[i - 1 + 1], i - 1, n, uid);
      OwnedDown(run, i - 1, k, n, uid);
    }
  }

  /** `since` means what it says: the owner has been the owner at every step from then on. */
  lemma OwnedWithoutGap(cfg: Config, run: seq<State>, labels: seq<Label>, i: nat, k: nat, n: Node, uid: Uid)
    requires cfg.ownerTtl > 0 && cfg.offlineTtl > 0 && IsRun(cfg, run, labels) && k <= i < |run|
    requires OwnedBy(run[i], uid, n) && Since(run[i], uid) <= k
    ensures OwnedBy(run[k], uid, n)
  {
    forall m: nat | k <= m < i ensures OwnedOn(run[m], run[m + 1], m, n, uid) {
      StepCounts(cfg, run, labels, m);
      if OwnedBy(run[m + 1], uid, n) { OwnershipBeginsWithClaim(cfg, run[m], labels[m], n, uid); }
    }
    OwnedDown(run, i, k, n, uid);
  }

  /** The server keeps something for the player that carries the stamp `c`. */
  predicate Keeps(v: Server, uid: Uid, c: nat) { (uid in v.runtimes && v.runtimes[uid] == c) || c in CachedOf(v, uid) }

  /** In step `c` a connection of that player on that server made something. */
  predicate MadeAt(run: seq<State>, labels: seq<Label>, c: nat, n: Node, uid: Uid) {
    && c < |labels| && c < |run| && (labels[c].StartLevel? || labels[c].CacheResult?)
    && labels[c].conn in run[c].conns && run[c].conns[labels[c].conn].node == n && run[c].conns[labels[c].conn].uid == uid
  }

  lemma KeptOrMade(cfg: Config, run: seq<State>, labels: seq<Label>, i: nat, n: Node, uid: Uid, c: nat)
    requires IsRun(cfg, run, labels) && i < |labels| && Keeps(At(run[i + 1], n), uid, c)
    ensures Keeps(At(run[i], n), uid, c) || (c == i && MadeAt(run, labels, c, n, uid))
  {
    var s, l := run[i], labels[i];
    StepCounts(cfg, run, labels, i);
    if !MovesItems(l) {
      ItemsFramed(cfg, s, l, n);
    } else if !Keeps(At(s, n), uid, c) && c in CachedOf(At(run[i + 1], n), uid) {
      ResultCreated(cfg, s, l, n, uid, c);
    }
  }

  lemma {:induction false} KeptWasMade(run: seq<State>, labels: seq<Label>, i: nat, n: Node, uid: Uid, c: nat)
    requires i < |run| && !Keeps(At(run[0], n), uid, c) && Keeps(At(run[i], n), uid, c)
    requires forall k: nat :: k < i ==> Keeps(At(run[k + 1], n), uid, c) ==> Keeps(At(run[k], n), uid, c) || (c == k && MadeAt(run, labels, c, n, uid))
    ensures c < i && MadeAt(run, labels, c, n, uid)
  {
    if i > 0 && Keeps(At(run[i - 1], n), uid, c) {
      KeptWasMade(run, labels, i - 1, n, uid, c);
    } else {
      assert Keeps(At(run[i - 1 + 1], n), uid, c);
    }
  }

  /** A stamp is the step at which some connection of that player on that server made the item. */
  lemma StampsAreCreations(cfg: Config, run: seq<State>, labels: seq<Label>, i: nat, n: Node, uid: Uid, c: nat)
    requires IsRun(cfg, run, labels) && i < |run|
    requires (uid in At(run[i], n).runtimes && At(run[i], n).runtimes[uid] == c) || c in CachedOf(At(run[i], n), uid)
    ensures c < i && (labels[c].StartLevel? || labels[c].CacheResult?)
    ensures labels[c].conn in run[c].conns && run[c].conns[labels[c].conn].node == n && run[c].conns[labels[c].conn].uid == uid
  {
    forall k: nat | k < i && Keeps(At(run[k + 1], n), uid, c)
      ensures Keeps(At(run[k], n), uid, c) || (c == k && MadeAt(run, labels, c, n, uid))
    {
      KeptOrMade(cfg, run, labels, k, n, uid, c);
    }
    KeptWasMade(run, labels, i, n, uid, c);
  }

  /** Step `b` is an answered login, and an item made at step `c` is still there after it. */
  ghost predicate Survives(cfg: Config, run: seq<State>, labels: seq<Label>, b: nat, c: nat) {
    && IsRun(cfg, run, labels) && b < |labels| && labels[b].Claim?
    && var login := run[b].conns[labels[b].conn];
       var v := At(run[b + 1], login.node);
       (login.uid in v.runtimes && v.runtimes[login.uid] == c) || c in CachedOf(v, login.uid)
  }

  /** From step `c` to the login at `b` the login's server owned the player at every step. */
  ghost predicate OwnedThroughout(run: seq<State>, labels: seq<Label>, b: nat, c: nat)
    requires b < |labels| < |run| && labels[b].Claim? && labels[b].conn in run[b].conns
  {
    var login := run[b].conns[labels[b].conn];
    forall k :: c <= k <= b ==> OwnedBy(run[k], login.uid, login.node)
  }

  ghost predicate TakenSilently(run: seq<State>, labels: seq<Label>, b: nat, c: nat)
    requires b < |labels| < |run| && labels[b].Claim? && labels[b].conn in run[b].conns
  {
    var login := run[b].conns[labels[b].conn];
    exists k :: c <= k < b && TakesSilently(run[k], labels[k], login.node, login.uid)
  }

  /** What is still there after a login on server `n` was made while `n` owned the player, and `n` has
      owned the player at every step from then to the login, exactly when `n` did not in between take the
      record by a claim whose reply was lost. So with replies that arrive, after A, B, A nothing of A's
      old state is used again, whatever A's old connections did in between. */
  lemma SurvivorWasAlwaysOwned(cfg: Config, run: seq<State>, labels: seq<Label>, b: nat, c: nat)
    requires cfg.ownerTtl > 0 && cfg.offlineTtl > 0 && Survives(cfg, run, labels, b, c)
    ensures OwnedThroughout(run, labels, b, c) <==> !TakenSilently(run, labels, b, c)
  {
    var login := run[b].conns[labels[b].conn];
    var n, uid := login.node, login.uid;
    EveryRunFresh(cfg, run, labels, b + 1, n, uid);
    StepCounts(cfg, run, labels, b);
    assert OwnedBy(run[b + 1], uid, n);
    var from := Since(run[b + 1], uid);
    if !TakenSilently(run, labels, b, c) {
      var silent := TakesSilently(run[from - 1], labels[from - 1], n, uid);
      assert silent ==> !(c <= from - 1 < b);
      assert from <= c;
      forall k | c <= k <= b ensures OwnedBy(run[k], uid, n) { OwnedWithoutGap(cfg, run, labels, b + 1, k, n, uid); }
    }
  }
}
