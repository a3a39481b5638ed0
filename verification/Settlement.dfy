/** Level settlement (internal/gameplay/battle/service.go, SettleLevel; internal/repo/level_repo.go):
    sessions in memory, level progress and the asset ledger, over any run of plays, settlements and other
    asset changes in which any transaction may fail. A session is its list of commands, so its battle is
    the one `Battle.Run` gives; sessions are numbered in the order in which they start. */
module Settlement {
  import opened Common
  import opened GameData
  import B = Battle
  import A = Assets

  type Uid = string

  const REASON := "level.settle"

  datatype Play = Play(uid: Uid, level: LevelConfig, commands: seq<B.Command>, result: Option<B.SettleResult>)

  datatype World = World(db: A.Db, progress: map<(Uid, int), B.Progress>, plays: seq<Play>)

  function State(d: Data, p: Play): B.Battle { B.Run(d, p.level, p.commands) }

  function Key(p: Play): (Uid, int) { (p.uid, p.level.levelId) }

  /** The progress row after one more clear. */
  function Advanced(progress: map<(Uid, int), B.Progress>, key: (Uid, int), now: int): B.Progress {
    if key in progress then B.Progress(progress[key].clearCount + 1, progress[key].firstAt, now) else B.Progress(1, now, now)
  }

  /** buildSettleRewards: the orders of the session, and the reward of a first or of a later clear. */
  function SettleRewards(lv: LevelConfig, pending: seq<ItemCount>, firstClear: bool): seq<ItemCount> {
    pending + if firstClear then lv.firstClearRewards else lv.repeatRewards
  }

  function ResultOf(progress: map<(Uid, int), B.Progress>, uid: Uid, lv: LevelConfig, pending: seq<ItemCount>, now: int): B.SettleResult {
    var key := (uid, lv.levelId);
    B.SettleResult(key !in progress, Advanced(progress, key, now), SettleRewards(lv, pending, key !in progress))
  }

  /** What the session is settled with when the transaction goes through. */
  function Outcome(d: Data, w: World, p: Play, now: int): B.SettleResult {
    ResultOf(w.progress, p.uid, p.level, State(d, p).engine.pending, now)
  }

  function Payout(cat: A.Catalog, db: A.Db, uid: Uid, rewards: seq<ItemCount>, reqId: string): Result<A.Db, A.AssetError> {
    if rewards == [] then Ok(db) else A.ApplyReward(cat, db, uid, rewards, REASON, reqId)
  }

  datatype Label =
    | StartLevel(uid: Uid, levelId: int)
    | Command(play: nat, command: B.Command)
    | SettleLevel(play: nat, reqId: string, now: int, commits: bool)
    | Assets(op: A.Op)

  /** Only settlement writes the settlement reason into the log. */
  predicate Enabled(d: Data, w: World, l: Label) {
    match l
    case StartLevel(_, levelId) => levelId in d.levels
    case Command(i, c) => i < |w.plays| && !c.Settle?
    case SettleLevel(i, _, _, _) => i < |w.plays|
    case Assets(op) => op.Register? || op.reason != REASON
  }

  predicate Eligible(lv: LevelConfig, b: B.Battle, reqId: string) {
    reqId != "" && !b.settled && !b.failed && b.engine.completed >= lv.target
  }

  /** Whether this call settles the session: it may, and the transaction commits. */
  predicate Settles(cat: A.Catalog, d: Data, w: World, l: Label)
    requires Enabled(d, w, l)
  {
    && l.SettleLevel? && l.commits && Eligible(w.plays[l.play].level, State(d, w.plays[l.play]), l.reqId)
    && Payout(cat, w.db, w.plays[l.play].uid, Outcome(d, w, w.plays[l.play], l.now).rewards, l.reqId).Ok?
  }

  function Apply(cat: A.Catalog, d: Data, w: World, l: Label): World
    requires Enabled(d, w, l)
  {
    match l
    case StartLevel(uid, levelId) => w.(plays := w.plays + [Play(uid, d.levels[levelId], [], None)])
    case Command(i, c) => w.(plays := w.plays[i := w.plays[i].(commands := w.plays[i].commands + [c])])
    case SettleLevel(i, reqId, now, _) =>
      var p, done := w.plays[i], Settles(cat, d, w, l);
      var next := p.(commands := p.commands + [B.Settle(reqId, done)]);
      if !done then w.(plays := w.plays[i := next])
      else
        var result := Outcome(d, w, p, now);
        World(Payout(cat, w.db, p.uid, result.rewards, reqId).value, w.progress[Key(p) := result.progress],
              w.plays[i := next.(result := Some(result))])
    case Assets(op) => w.(db := A.Apply(cat, w.db, op))
  }

  const EMPTY := World(A.Db(map[], map[], []), map[], [])

  ghost predicate IsRun(cat: A.Catalog, d: Data, run: seq<World>, labels: seq<Label>) {
    && |run| == |labels| + 1 && run[0] == EMPTY
    && forall i :: 0 <= i < |labels| ==> IsStep(cat, d, run[i], labels[i], run[i + 1])
  }

  ghost predicate IsStep(cat: A.Catalog, d: Data, w: World, l: Label, w': World) {
    Enabled(d, w, l) && w' == Apply(cat, d, w, l)
  }

  // ---- Sums over the settled sessions ----

  datatype Measure = Clears(key: (Uid, int)) | Pays(cat: A.Catalog, uid: Uid, slot: A.Slot)

  function Value(m: Measure, p: Play): int {
    if p.result.None? then 0
    else match m
      case Clears(key) => if Key(p) == key then 1 else 0
      case Pays(cat, uid, slot) => if p.uid == uid then A.SlotTotal(cat, p.result.value.rewards, slot) else 0
  }

  /** Over all sessions: how many were settled for a player and level, or what they paid into a slot. */
  function Sum(m: Measure, plays: seq<Play>): int {
    if plays == [] then 0 else Sum(m, plays[..|plays| - 1]) + Value(m, plays[|plays| - 1])
  }

  lemma {:induction false} SumUpdate(m: Measure, plays: seq<Play>, i: nat, p: Play)
    requires i < |plays|
    ensures Sum(m, plays[i := p]) == Sum(m, plays) - Value(m, plays[i]) + Value(m, p)
  {
    var n := |plays| - 1;
    if i == n {
      assert plays[i := p][..n] == plays[..n];
    } else {
      SumUpdate(m, plays[..n], i, p);
      assert plays[i := p][..n] == plays[..n][i := p];
    }
  }

  lemma SumAppend(m: Measure, plays: seq<Play>, p: Play)
    ensures Sum(m, plays + [p]) == Sum(m, plays) + Value(m, p)
  {
    assert (plays + [p])[..|plays|] == plays;
  }

  // ---- What every run keeps ----

  /** A settled session shows its place among the clears and was paid for its completed orders and
      for exactly that place. */
  ghost predicate PlayOk(d: Data, w: World, i: nat)
    requires i < |w.plays|
  {
    var p := w.plays[i];
    && LevelReady(d, p.level)
    && (p.result.Some? <==> State(d, p).settled)
    && (p.result.Some? ==>
          var r := p.result.value;
          && Key(p) in w.progress && 1 <= r.progress.clearCount <= w.progress[Key(p)].clearCount
          && (r.firstClear <==> r.progress.clearCount == 1)
          && r.rewards == SettleRewards(p.level, State(d, p).engine.pending, r.firstClear)
          && r.progress.firstAt == w.progress[Key(p)].firstAt
          && (r.progress.clearCount == w.progress[Key(p)].clearCount ==> r.progress == w.progress[Key(p)]))
  }

  ghost predicate PlacesApart(w: World, i: nat, j: nat)
    requires i < |w.plays| && j < |w.plays|
  {
    var p, q := w.plays[i], w.plays[j];
    i != j && p.result.Some? && q.result.Some? && Key(p) == Key(q) ==> p.result.value.progress.clearCount != q.result.value.progress.clearCount
  }

  ghost predicate ProgressOk(w: World, key: (Uid, int)) {
    && Sum(Clears(key), w.plays) == (if key in w.progress then w.progress[key].clearCount else 0)
    && (key in w.progress ==> w.progress[key].clearCount >= 1 && HasFirst(w, key))
  }

  predicate IsFirst(w: World, key: (Uid, int), i: int) {
    0 <= i < |w.plays| && Key(w.plays[i]) == key && w.plays[i].result.Some? && w.plays[i].result.value.firstClear
  }

  ghost predicate HasFirst(w: World, key: (Uid, int)) { exists i :: IsFirst(w, key, i) }

  ghost predicate Paid(cat: A.Catalog, w: World, uid: Uid, slot: A.Slot) {
    A.Logged(cat, w.db.log, uid, slot, Some(REASON)) == Sum(Pays(cat, uid, slot), w.plays)
  }

  ghost predicate Settled(cat: A.Catalog, d: Data, w: World) {
    && A.Audited(cat, w.db)
    && (forall i :: 0 <= i < |w.plays| ==> PlayOk(d, w, i))
    && (forall i, j :: 0 <= i < |w.plays| && 0 <= j < |w.plays| ==> PlacesApart(w, i, j))
    && (forall key :: ProgressOk(w, key))
    && (forall uid, slot :: Paid(cat, w, uid, slot))
  }

  /** What a batch adds to the log under a reason. */
  lemma {:induction false} BatchLogs(cat: A.Catalog, db: A.Db, uid: Uid, changes: seq<ItemCount>, reason: string, reqId: string, u: Uid, slot: A.Slot)
    requires A.ChangeAll(cat, db, uid, changes, reason, reqId).Ok?
    ensures A.Logged(cat, A.ChangeAll(cat, db, uid, changes, reason, reqId).value.log, u, slot, Some(REASON))
         == A.Logged(cat, db.log, u, slot, Some(REASON)) + if u == uid && reason == REASON then A.SlotTotal(cat, changes, slot) else 0
    decreases |changes|
  {
    if changes != [] {
      var row := A.ChangeLogs(cat, db, uid, changes[0], reason, reqId);
      A.LoggedAppend(cat, db.log, row, u, slot, Some(REASON));
      BatchLogs(cat, A.Change(cat, db, uid, changes[0], reason, reqId).value, uid, changes[1..], reason, reqId, u, slot);
    }
  }

  lemma OtherReasonsLog(cat: A.Catalog, db: A.Db, op: A.Op, u: Uid, slot: A.Slot)
    requires op.Register? || op.reason != REASON
    ensures A.Logged(cat, A.Apply(cat, db, op).log, u, slot, Some(REASON)) == A.Logged(cat, db.log, u, slot, Some(REASON))
  {
    match op
    case Register(_) =>
    case Grant(uid, items, reason, reqId, _) =>
      if A.ApplyReward(cat, db, uid, items, reason, reqId).Ok? { BatchLogs(cat, db, uid, A.Merged(items), reason, reqId, u, slot); }
    case Consume(uid, items, reason, reqId, _) =>
      if A.ApplyCost(cat, db, uid, items, reason, reqId).Ok? { BatchLogs(cat, db, uid, A.Negated(A.Merged(items)), reason, reqId, u, slot); }
  }

  /** One settlement pays its rewards into the player's slots, under its reason, and keeps the audit. */
  lemma PayoutMeans(cat: A.Catalog, db: A.Db, uid: Uid, rewards: seq<ItemCount>, reqId: string)
    requires A.Audited(cat, db) && reqId != "" && Payout(cat, db, uid, rewards, reqId).Ok?
    ensures var after := Payout(cat, db, uid, rewards, reqId).value;
      && A.Audited(cat, after)
      && (forall u, slot :: A.Balance(after, u, slot) == A.Balance(db, u, slot) + if u == uid then A.SlotTotal(cat, rewards, slot) else 0)
      && (forall u, slot :: A.Logged(cat, after.log, u, slot, Some(REASON))
            == A.Logged(cat, db.log, u, slot, Some(REASON)) + if u == uid then A.SlotTotal(cat, rewards, slot) else 0)
  {
    if rewards != [] {
      A.MergedIds(rewards);
      A.ChangeAllKeepsAudit(cat, db, uid, A.Merged(rewards), REASON, reqId);
      A.ChangeAllMeans(cat, db, uid, A.Merged(rewards), REASON, reqId);
      forall u, slot ensures A.Logged(cat, Payout(cat, db, uid, rewards, reqId).value.log, u, slot, Some(REASON))
          == A.Logged(cat, db.log, u, slot, Some(REASON)) + if u == uid then A.SlotTotal(cat, rewards, slot) else 0
      {
        BatchLogs(cat, db, uid, A.Merged(rewards), REASON, reqId, u, slot);
        A.MergedTotals(cat, rewards, slot);
      }
      forall slot { A.MergedTotals(cat, rewards, slot); }
    }
  }

  /** One more command is one more step of the battle. */
  lemma StateStep(d: Data, p: Play, c: B.Command)
    ensures State(d, p.(commands := p.commands + [c])) == B.Step(d, p.level, State(d, p), c).after
  {
    assert (p.commands + [c])[..|p.commands|] == p.commands;
  }

  /** Such a step neither settles a session nor changes what a settled one was paid for. */
  lemma StaysUnsettled(cat: A.Catalog, d: Data, w: World, l: Label, i: nat)
    requires i < |w.plays| && Enabled(d, w, l) && !Settles(cat, d, w, l)
    ensures var p, p' := w.plays[i], Apply(cat, d, w, l).plays[i];
      && p' == p.(commands := p'.commands)
      && State(d, p').settled == State(d, p).settled
      && (State(d, p).settled ==> State(d, p').engine == State(d, p).engine)
  {
    var p, p' := w.plays[i], Apply(cat, d, w, l).plays[i];
    if p'.commands != p.commands {
      var c := p'.commands[|p.commands|];
      StateStep(d, p, c);
    }
  }

  lemma QuietStepSums(cat: A.Catalog, d: Data, w: World, l: Label, m: Measure)
    requires Enabled(d, w, l) && !Settles(cat, d, w, l)
    ensures Sum(m, Apply(cat, d, w, l).plays) == Sum(m, w.plays)
  {
    match l
    case StartLevel(uid, levelId) => SumAppend(m, w.plays, Play(uid, d.levels[levelId], [], None));
    case Command(i, _) => SumUpdate(m, w.plays, i, Apply(cat, d, w, l).plays[i]);
    case SettleLevel(i, _, _, _) => SumUpdate(m, w.plays, i, Apply(cat, d, w, l).plays[i]);
    case Assets(_) =>
  }

  lemma QuietStepProgress(cat: A.Catalog, d: Data, w: World, l: Label, key: (Uid, int))
    requires Enabled(d, w, l) && !Settles(cat, d, w, l) && ProgressOk(w, key)
    ensures ProgressOk(Apply(cat, d, w, l), key)
  {
    QuietStepSums(cat, d, w, l, Clears(key));
    if i :| IsFirst(w, key, i) {
      StaysUnsettled(cat, d, w, l, i);
      assert IsFirst(Apply(cat, d, w, l), key, i);
    }
  }

  /** Any step but a settlement that goes through leaves results and progress alone. */
  lemma QuietStep(cat: A.Catalog, d: Data, w: World, l: Label)
    requires BattleReady(d) && Settled(cat, d, w) && Enabled(d, w, l) && !Settles(cat, d, w, l)
    ensures Settled(cat, d, Apply(cat, d, w, l))
  {
    var w' := Apply(cat, d, w, l);
    if l.Assets? { A.ApplyKeepsAudit(cat, w.db, l.op); }
    forall i | 0 <= i < |w'.plays| ensures PlayOk(d, w', i) {
      if i < |w.plays| {
        assert PlayOk(d, w, i);
        StaysUnsettled(cat, d, w, l, i);
      }
    }
    forall i, j | 0 <= i < |w'.plays| && 0 <= j < |w'.plays| ensures PlacesApart(w', i, j) {
      if i < |w.plays| && j < |w.plays| { assert PlacesApart(w, i, j); }
    }
    forall key ensures ProgressOk(w', key) { QuietStepProgress(cat, d, w, l, key); }
    forall uid, slot ensures Paid(cat, w', uid, slot) {
      assert Paid(cat, w, uid, slot);
      QuietStepSums(cat, d, w, l, Pays(cat, uid, slot));
      if l.Assets? { OtherReasonsLog(cat, w.db, l.op, uid, slot); }
    }
  }

  lemma SettleStepOwn(cat: A.Catalog, d: Data, w: World, l: Label)
    requires Settled(cat, d, w) && Enabled(d, w, l) && Settles(cat, d, w, l)
    ensures PlayOk(d, Apply(cat, d, w, l), l.play)
  {
    assert PlayOk(d, w, l.play) && ProgressOk(w, Key(w.plays[l.play]));
    StateStep(d, w.plays[l.play], B.Settle(l.reqId, true));
  }

  lemma SettleStepOther(cat: A.Catalog, d: Data, w: World, l: Label, i: nat)
    requires Settled(cat, d, w) && Enabled(d, w, l) && Settles(cat, d, w, l) && i < |w.plays| && i != l.play
    ensures PlayOk(d, Apply(cat, d, w, l), i)
  {
    assert PlayOk(d, w, i);
    assert Apply(cat, d, w, l).plays[i] == w.plays[i];
  }

  lemma SettleStepApart(cat: A.Catalog, d: Data, w: World, l: Label, i: nat, j: nat)
    requires Settled(cat, d, w) && Enabled(d, w, l) && Settles(cat, d, w, l) && i < |w.plays| && j < |w.plays|
    ensures PlacesApart(Apply(cat, d, w, l), i, j)
  {
    assert PlacesApart(w, i, j) && PlayOk(d, w, i) && PlayOk(d, w, j);
  }

  lemma SettleStepProgress(cat: A.Catalog, d: Data, w: World, l: Label, key: (Uid, int))
    requires Settled(cat, d, w) && Enabled(d, w, l) && Settles(cat, d, w, l)
    ensures ProgressOk(Apply(cat, d, w, l), key)
  {
    var w', n := Apply(cat, d, w, l), l.play;
    assert PlayOk(d, w, n) && ProgressOk(w, key);
    SumUpdate(Clears(key), w.plays, n, w'.plays[n]);
    if i :| IsFirst(w, key, i) { assert IsFirst(w', key, i); }
    if Key(w.plays[n]) == key && key !in w.progress { assert IsFirst(w', key, n); }
  }

  lemma SettleStep(cat: A.Catalog, d: Data, w: World, l: Label)
    requires Settled(cat, d, w) && Enabled(d, w, l) && Settles(cat, d, w, l)
    ensures Settled(cat, d, Apply(cat, d, w, l))
  {
    var w', n := Apply(cat, d, w, l), l.play;
    forall i | 0 <= i < |w'.plays| ensures PlayOk(d, w', i) {
      if i == n { SettleStepOwn(cat, d, w, l); } else { SettleStepOther(cat, d, w, l, i); }
    }
    forall i, j | 0 <= i < |w'.plays| && 0 <= j < |w'.plays| ensures PlacesApart(w', i, j) { SettleStepApart(cat, d, w, l, i, j); }
    forall key ensures ProgressOk(w', key) { SettleStepProgress(cat, d, w, l, key); }
    assert PlayOk(d, w, n);
    PayoutMeans(cat, w.db, w.plays[n].uid, w'.plays[n].result.value.rewards, l.reqId);
    forall uid, slot ensures Paid(cat, w', uid, slot) {
      assert Paid(cat, w, uid, slot);
      SumUpdate(Pays(cat, uid, slot), w.plays, n, w'.plays[n]);
    }
  }

  lemma {:induction false} EveryRunSettled(cat: A.Catalog, d: Data, run: seq<World>, labels: seq<Label>, n: nat)
    requires BattleReady(d) && IsRun(cat, d, run, labels) && n < |run|
    ensures Settled(cat, d, run[n])
  {
    if n > 0 {
      EveryRunSettled(cat, d, run, labels, n - 1);
      var w, l := run[n - 1], labels[n - 1];
      assert IsStep(cat, d, w, l, run[n - 1 + 1]);
      if Settles(cat, d, w, l) { SettleStep(cat, d, w, l); } else { QuietStep(cat, d, w, l); }
    }
  }
}
