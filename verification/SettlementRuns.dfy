/** What settlements do, over every run of `Settlement`: who is paid what, when, and when nobody can be. */
module SettlementRuns {
  import opened Common
  import opened GameData
  import B = Battle
  import A = Assets
  import opened Settlement

  /** In every state of every run: the clear count of a player and level is the number of their settled
      sessions; exactly one of these is a first clear once there is any; and what was paid under the
      settlement reason, slot by slot, is the sum of the rewards of the settled sessions. */
  lemma EveryRunBalances(cat: A.Catalog, d: Data, run: seq<World>, labels: seq<Label>, n: nat)
    requires BattleReady(d) && IsRun(cat, d, run, labels) && n < |run|
    ensures var w := run[n];
      && (forall key :: Sum(Clears(key), w.plays) == if key in w.progress then w.progress[key].clearCount else 0)
      && (forall key :: key in w.progress <==> HasFirst(w, key))
      && (forall key, i, j :: IsFirst(w, key, i) && IsFirst(w, key, j) ==> i == j)
      && (forall uid, slot :: A.Logged(cat, w.db.log, uid, slot, Some(REASON)) == Sum(Pays(cat, uid, slot), w.plays))
      && A.Audited(cat, w.db)
  {
    EveryRunSettled(cat, d, run, labels, n);
    var w := run[n];
    forall key ensures Sum(Clears(key), w.plays) == (if key in w.progress then w.progress[key].clearCount else 0)
                       && (key in w.progress <==> HasFirst(w, key))
    {
      assert ProgressOk(w, key);
      if i :| IsFirst(w, key, i) { assert PlayOk(d, w, i); }
    }
    forall key, i, j | IsFirst(w, key, i) && IsFirst(w, key, j) ensures i == j {
      assert PlayOk(d, w, i) && PlayOk(d, w, j) && PlacesApart(w, i, j);
    }
    forall uid, slot ensures A.Logged(cat, w.db.log, uid, slot, Some(REASON)) == Sum(Pays(cat, uid, slot), w.plays) {
      assert Paid(cat, w, uid, slot);
    }
  }

  /** A settled session was paid for exactly the orders it completed, plus the one reward for its place. */
  lemma PaidForCompletedOrders(cat: A.Catalog, d: Data, run: seq<World>, labels: seq<Label>, n: nat, i: nat, item: ItemCount)
    requires BattleReady(d) && IsRun(cat, d, run, labels) && n < |run|
    requires i < |run[n].plays| && run[n].plays[i].result.Some?
    ensures var p := run[n].plays[i];
      var r, engine := p.result.value, State(d, p).engine;
      && engine.completed >= p.level.target
      && multiset(r.rewards)[item] == B.Done(B.Pays(d, item), engine.orders)
           + multiset(if r.progress.clearCount == 1 then p.level.firstClearRewards else p.level.repeatRewards)[item]
  {
    EveryRunSettled(cat, d, run, labels, n);
    var p := run[n].plays[i];
    assert PlayOk(d, run[n], i);
    B.EveryRunConsistent(d, p.level, p.commands);
  }

  /** A result once given is never changed, so a session is settled, and paid, at most once. */
  lemma {:induction false} SettledOnce(cat: A.Catalog, d: Data, run: seq<World>, labels: seq<Label>, m: nat, n: nat, i: nat)
    requires BattleReady(d) && IsRun(cat, d, run, labels) && m <= n < |run|
    requires i < |run[m].plays| && run[m].plays[i].result.Some?
    ensures i < |run[n].plays| && run[n].plays[i].result == run[m].plays[i].result
    ensures n < |labels| && labels[n].SettleLevel? && labels[n].play == i ==> !Settles(cat, d, run[n], labels[n])
  {
    if m < n {
      SettledOnce(cat, d, run, labels, m, n - 1, i);
      assert IsStep(cat, d, run[n - 1], labels[n - 1], run[n - 1 + 1]);
    }
    EveryRunSettled(cat, d, run, labels, n);
    assert PlayOk(d, run[n], i);
    if n < |labels| { assert IsStep(cat, d, run[n], labels[n], run[n + 1]); }
  }

  /** What SettleLevel answers; None stands for its errors. */
  function Answered(cat: A.Catalog, d: Data, w: World, l: Label): Option<B.SettleResult>
    requires Enabled(d, w, l) && l.SettleLevel?
  {
    var p := w.plays[l.play];
    if B.Step(d, p.level, State(d, p), B.Settle(l.reqId, Settles(cat, d, w, l))).error.Some? then None
    else Apply(cat, d, w, l).plays[l.play].result
  }

  /** Once a session was settled, every later settlement of it that has a request id is answered with the
      first result, whether storage works by then or not. */
  lemma RepeatsGetTheFirstResult(cat: A.Catalog, d: Data, run: seq<World>, labels: seq<Label>, m: nat, n: nat)
    requires BattleReady(d) && IsRun(cat, d, run, labels) && m < n < |labels|
    requires IsStep(cat, d, run[m], labels[m], run[m + 1]) && IsStep(cat, d, run[n], labels[n], run[n + 1])
    requires labels[m].SettleLevel? && labels[n].SettleLevel? && labels[n].play == labels[m].play && labels[n].reqId != ""
    requires Answered(cat, d, run[m], labels[m]).Some?
    ensures Answered(cat, d, run[n], labels[n]) == Answered(cat, d, run[m], labels[m])
  {
    var w, l := run[n], labels[n];
    SettledOnce(cat, d, run, labels, m + 1, n, l.play);
    EveryRunSettled(cat, d, run, labels, n);
    assert PlayOk(d, w, l.play);
    B.SettleMeans(d, w.plays[l.play].level, State(d, w.plays[l.play]), l.reqId, Settles(cat, d, w, l));
    StaysUnsettled(cat, d, w, l, l.play);
  }

  /** Places follow the order of settling: who settles earlier has the lower clear count, so the first
      clear is the first session to settle. */
  lemma {:induction false} PlacesFollowTime(cat: A.Catalog, d: Data, run: seq<World>, labels: seq<Label>, m: nat, n: nat, i: nat, j: nat)
    requires BattleReady(d) && IsRun(cat, d, run, labels) && m <= n < |run|
    requires i < |run[m].plays| && run[m].plays[i].result.Some?
    requires j < |run[n].plays| && run[n].plays[j].result.Some?
    requires j < |run[m].plays| ==> run[m].plays[j].result.None?
    requires Key(run[n].plays[j]) == Key(run[m].plays[i])
    ensures run[m].plays[i].result.value.progress.clearCount < run[n].plays[j].result.value.progress.clearCount
  {
    SettledOnce(cat, d, run, labels, m, n - 1, i);
    EveryRunSettled(cat, d, run, labels, n - 1);
    var w, l := run[n - 1], labels[n - 1];
    assert IsStep(cat, d, w, l, run[n - 1 + 1]);
    assert PlayOk(d, w, i);
    LevelsStay(cat, d, run, labels, m, n - 1, i);
    if j < |w.plays| && w.plays[j].result.Some? {
      PlacesFollowTime(cat, d, run, labels, m, n - 1, i, j);
    }
  }

  lemma {:induction false} LevelsStay(cat: A.Catalog, d: Data, run: seq<World>, labels: seq<Label>, m: nat, n: nat, i: nat)
    requires IsRun(cat, d, run, labels) && m <= n < |run| && i < |run[m].plays|
    ensures i < |run[n].plays| && Key(run[n].plays[i]) == Key(run[m].plays[i])
  {
    if m < n {
      LevelsStay(cat, d, run, labels, m, n - 1, i);
      assert IsStep(cat, d, run[n - 1], labels[n - 1], run[n - 1 + 1]);
    }
  }

  /** Given storage that commits, a session that has a request id, reached its goal and is neither settled
      nor failed is settled exactly when there is nothing to pay or every reward is positive and has a place
      to go: level rewards are not validated at start-up. The rewards are those of its orders, then those
      of a first or a later clear. Paid is its player and nobody else. */
  lemma SettlementCommitsIff(cat: A.Catalog, d: Data, run: seq<World>, labels: seq<Label>, n: nat)
    requires BattleReady(d) && IsRun(cat, d, run, labels) && n < |labels| && labels[n].SettleLevel?
    requires IsStep(cat, d, run[n], labels[n], run[n + 1])
    ensures var w, w', l := run[n], run[n + 1], labels[n];
      var p, b := w.plays[l.play], State(d, w.plays[l.play]);
      var rewards := b.engine.pending + if Key(p) in w.progress then p.level.repeatRewards else p.level.firstClearRewards;
      var eligible := l.reqId != "" && !b.settled && !b.failed && b.engine.completed >= p.level.target;
      var payable := rewards == [] || (A.AllPositive(rewards) && A.AllPlaced(cat, w.db, p.uid, rewards));
      && (Settles(cat, d, w, l) <==> l.commits && eligible && payable)
      && forall u, slot :: A.Balance(w'.db, u, slot)
           == A.Balance(w.db, u, slot) + if Settles(cat, d, w, l) && u == p.uid then A.SlotTotal(cat, rewards, slot) else 0
  {
    EveryRunSettled(cat, d, run, labels, n);
    var w, l := run[n], labels[n];
    var p := w.plays[l.play];
    var rewards := Outcome(d, w, p, l.now).rewards;
    forall slot ensures A.Balance(w.db, p.uid, slot) >= 0 { assert A.SlotOk(cat, w.db, p.uid, slot); }
    A.RewardCommitsIff(cat, w.db, p.uid, rewards, REASON, l.reqId);
  }

  /** The progress row after one more clear: counted once more, its first time kept, its last time now. */
  ghost predicate ClearedOnceMore(before: Option<B.Progress>, row: B.Progress, now: int) {
    && row.lastAt == now
    && (before.None? ==> row.clearCount == 1 && row.firstAt == now)
    && (before.Some? ==> row.clearCount == before.value.clearCount + 1 && row.firstAt == before.value.firstAt)
  }

  function RowOf(w: World, key: (Uid, int)): Option<B.Progress> { if key in w.progress then Some(w.progress[key]) else None }

  /** A settlement that goes through clears the level of its player once more, and its result says so; no
      other row and no other session changes. One that does not leaves ledger and progress alone. */
  lemma SettlementMeans(cat: A.Catalog, d: Data, w: World, l: Label)
    requires Enabled(d, w, l) && l.SettleLevel?
    ensures var w', p := Apply(cat, d, w, l), w.plays[l.play];
      && (forall key :: key != Key(p) ==> RowOf(w', key) == RowOf(w, key))
      && (forall i :: 0 <= i < |w.plays| && i != l.play ==> w'.plays[i] == w.plays[i])
      && (Settles(cat, d, w, l) ==>
            var r := w'.plays[l.play].result;
            && r.Some? && RowOf(w', Key(p)) == Some(r.value.progress) && (r.value.firstClear <==> RowOf(w, Key(p)).None?)
            && ClearedOnceMore(RowOf(w, Key(p)), r.value.progress, l.now)
            && r.value.rewards == State(d, p).engine.pending + if r.value.firstClear then p.level.firstClearRewards else p.level.repeatRewards)
      && (!Settles(cat, d, w, l) ==> w'.db == w.db && w'.progress == w.progress && w'.plays[l.play].result == p.result)
  {
  }

  // ---- Levels that can never be settled ----

  /** Some entry of the list can never be paid. */
  ghost predicate Unusable(cat: A.Catalog, rewards: seq<ItemCount>) {
    exists i :: 0 <= i < |rewards| && (rewards[i].count <= 0 || A.SlotOf(cat, rewards[i].itemId).None?)
  }

  lemma UnusableIsNotPaid(cat: A.Catalog, db: A.Db, uid: Uid, pending: seq<ItemCount>, configured: seq<ItemCount>, reqId: string)
    requires A.Audited(cat, db) && Unusable(cat, configured)
    ensures Payout(cat, db, uid, pending + configured, reqId).Err?
  {
    var rewards := pending + configured;
    var i :| 0 <= i < |configured| && (configured[i].count <= 0 || A.SlotOf(cat, configured[i].itemId).None?);
    assert rewards[|pending| + i] == configured[i];
    forall slot ensures A.Balance(db, uid, slot) >= 0 { assert A.SlotOk(cat, db, uid, slot); }
    A.RewardCommitsIff(cat, db, uid, rewards, REASON, reqId);
  }

  /** Levels are indexed by their own id, as validation leaves them. */
  ghost predicate IndexedLevels(d: Data) { forall k :: k in d.levels ==> d.levels[k].levelId == k }

  ghost predicate Uncleared(d: Data, w: World, levelId: int) {
    && (forall uid :: (uid, levelId) !in w.progress)
    && (forall i :: 0 <= i < |w.plays| && w.plays[i].level.levelId == levelId ==>
          levelId in d.levels && w.plays[i].level == d.levels[levelId] && w.plays[i].result.None?)
  }

  lemma UnclearedStep(cat: A.Catalog, d: Data, w: World, l: Label, levelId: int)
    requires A.Audited(cat, w.db) && Enabled(d, w, l) && IndexedLevels(d)
    requires levelId in d.levels && Unusable(cat, d.levels[levelId].firstClearRewards) && Uncleared(d, w, levelId)
    ensures Uncleared(d, Apply(cat, d, w, l), levelId)
  {
    if l.SettleLevel? && w.plays[l.play].level.levelId == levelId {
      var p := w.plays[l.play];
      assert Key(p) !in w.progress;
      UnusableIsNotPaid(cat, w.db, p.uid, State(d, p).engine.pending, p.level.firstClearRewards, l.reqId);
    }
  }

  /** A level whose first-clear reward has an entry that is not positive or has no place is never
      settled by anyone, in any run. */
  lemma {:induction false} UnusableNeverSettles(cat: A.Catalog, d: Data, run: seq<World>, labels: seq<Label>, n: nat, levelId: int)
    requires BattleReady(d) && IndexedLevels(d) && IsRun(cat, d, run, labels) && n < |run|
    requires levelId in d.levels && Unusable(cat, d.levels[levelId].firstClearRewards)
    ensures Uncleared(d, run[n], levelId)
  {
    if n > 0 {
      UnusableNeverSettles(cat, d, run, labels, n - 1, levelId);
      EveryRunSettled(cat, d, run, labels, n - 1);
      assert IsStep(cat, d, run[n - 1], labels[n - 1], run[n - 1 + 1]);
      UnclearedStep(cat, d, run[n - 1], labels[n - 1], levelId);
    }
  }

  const NOTHING_PAID := [ItemCount(1, 0)]

  lemma CompletedRun(cat: A.Catalog, uid: Uid) returns (run: seq<World>, labels: seq<Label>)
    ensures IsRun(cat, B.OneOrderData(NOTHING_PAID), run, labels) && |labels| == 2
    ensures run[2].plays == [Play(uid, B.OneOrderLevel(NOTHING_PAID), [B.PlayCard(1, "r")], None)]
  {
    var d := B.OneOrderData(NOTHING_PAID);
    var w1 := Apply(cat, d, EMPTY, StartLevel(uid, 1));
    var w2 := Apply(cat, d, w1, Command(0, B.PlayCard(1, "r")));
    run, labels := [EMPTY, w1, w2], [StartLevel(uid, 1), Command(0, B.PlayCard(1, "r"))];
    assert IsStep(cat, d, EMPTY, labels[0], w1) && IsStep(cat, d, w1, labels[1], w2);
    assert w1.plays == [Play(uid, B.OneOrderLevel(NOTHING_PAID), [], None)];
    assert [] + [B.PlayCard(1, "r")] == [B.PlayCard(1, "r")];
    assert w2.plays == [Play(uid, B.OneOrderLevel(NOTHING_PAID), [B.PlayCard(1, "r")], None)];
  }

  /** Validation accepts such a level, and a player can complete it: then every test of SettleLevel is
      passed, but no call of it ever settles the session. */
  lemma AcceptedLevelNeverSettles(cat: A.Catalog, uid: Uid) returns (run: seq<World>, labels: seq<Label>)
    ensures var d, lv := B.OneOrderData(NOTHING_PAID), B.OneOrderLevel(NOTHING_PAID);
      && Acceptable([B.WOOD_CARD], [B.TWICE_WOOD], [lv], {1}) && Indexes(d.levels, [lv], LevelKey)
      && IsRun(cat, d, run, labels) && |labels| == 2 && |run[2].plays| == 1 && run[2].plays[0].uid == uid
      && (forall reqId :: reqId != "" ==> Eligible(lv, State(d, run[2].plays[0]), reqId))
      && (forall more, events, n: nat :: IsRun(cat, d, more, events) && n < |more| ==> Uncleared(d, more[n], 1))
  {
    var d, lv := B.OneOrderData(NOTHING_PAID), B.OneOrderLevel(NOTHING_PAID);
    B.OneOrderAccepted(NOTHING_PAID);
    B.AcceptedLevelOverdraws(NOTHING_PAID);
    run, labels := CompletedRun(cat, uid);
    assert State(d, run[2].plays[0]) == B.Run(d, lv, [B.PlayCard(1, "r")]);
    assert NOTHING_PAID[0].count <= 0;
    forall more, events, n: nat | IsRun(cat, d, more, events) && n < |more| ensures Uncleared(d, more[n], 1) {
      UnusableNeverSettles(cat, d, more, events, n, 1);
    }
  }
}
