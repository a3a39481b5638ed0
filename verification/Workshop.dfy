/** Offline rewards (internal/gameplay/workshop/service.go). The clock is read twice: once to work out the
    reward, once more for the new stamp. One player's claims run one after the other. */
module Workshop {
  import opened Common
  import opened GameData
  import A = Assets
  import AssetService

  const MIN_SECONDS := 300
  const MAX_SECONDS := 14400
  const GOLD_PER_HOUR := 20
  const MATERIAL_PER_HOUR := 1
  const ITEM_GOLD := 1
  const ITEM_BASIC_MATERIAL := 10001
  const REASON := "workshop.claim_offline_reward"

  function Effective(offline: int): int {
    if offline < MIN_SECONDS then 0 else if offline > MAX_SECONDS then MAX_SECONDS else offline
  }

  /** Integer division that truncates toward zero. */
  function Quotient(a: int, b: int): int
    requires b > 0
  {
    if a >= 0 then a / b else -(-a / b)
  }

  datatype Preview = Preview(offlineSeconds: int, gold: int, material: int)

  function PreviewOf(stamp: int, now: int, level: int): Preview {
    var offline := if now - stamp < 0 then 0 else now - stamp;
    var effective := Effective(offline);
    if effective <= 0 then Preview(offline, 0, 0)
    else Preview(offline, Quotient(level * GOLD_PER_HOUR * effective, 3600), Quotient(MATERIAL_PER_HOUR * effective, 3600))
  }

  function Rewards(gold: int, material: int): seq<ItemCount> {
    (if gold > 0 then [ItemCount(ITEM_GOLD, gold)] else []) + (if material > 0 then [ItemCount(ITEM_BASIC_MATERIAL, material)] else [])
  }

  /** `commits` says whether the transaction goes through. */
  datatype Claim = Claim(previewAt: int, claimedAt: int, level: int, commits: bool)

  /** The stamp, and what has been paid so far. */
  datatype State = State(stamp: int, gold: int, material: int)

  function Positive(n: int): int { if n > 0 then n else 0 }

  function Step(s: State, c: Claim): State {
    var p := PreviewOf(s.stamp, c.previewAt, c.level);
    if !c.commits then s
    else State(if Effective(p.offlineSeconds) > 0 then c.claimedAt else s.stamp, s.gold + Positive(p.gold), s.material + Positive(p.material))
  }

  function Run(stamp: int, claims: seq<Claim>): State {
    if claims == [] then State(stamp, 0, 0) else Step(Run(stamp, claims[..|claims| - 1]), claims[|claims| - 1])
  }

  lemma Rounded(rate: int, seconds: int)
    requires seconds >= 0
    ensures 3600 * Positive(Quotient(rate * seconds, 3600)) <= Positive(rate) * seconds
  {
    if rate < 0 {
      NonNegativeProduct(-rate, seconds);
      assert -(rate * seconds) == -rate * seconds;
    } else {
      NonNegativeProduct(rate, seconds);
    }
  }

  lemma NonNegativeProduct(a: int, b: int)
    requires a >= 0 && b >= 0
    ensures a * b >= 0
  {
  }

  lemma SmallerProduct(a: int, b: int, x: int, y: int)
    requires 0 <= a <= b && 0 <= x <= y
    ensures a * x <= b * y
  {
    assert b * y - a * x == (b - a) * y + a * (y - x);
    NonNegativeProduct(b - a, y);
    NonNegativeProduct(a, y - x);
  }

  /** The time that counts is that since the stamp, nothing below five minutes, four hours at most. The
      reward is 20 gold for each level and one material an hour for that time, rounded down. */
  lemma PreviewMeans(stamp: int, now: int, level: int)
    requires level >= 0
    ensures var p, since := PreviewOf(stamp, now, level), now - stamp;
      var counted := if since < 300 then 0 else if since > 14400 then 14400 else since;
      && p.offlineSeconds == (if since > 0 then since else 0)
      && 3600 * p.gold <= 20 * level * counted < 3600 * (p.gold + 1)
      && 3600 * p.material <= counted < 3600 * (p.material + 1)
  {
    var since := now - stamp;
    var counted := if since < 300 then 0 else if since > 14400 then 14400 else since;
    assert Effective(if since < 0 then 0 else since) == counted;
    NonNegativeProduct(level * GOLD_PER_HOUR, counted);
  }

  /** A claim that goes through pays what its preview shows and moves the stamp exactly when at least the
      minimum has passed; one that fails does neither. */
  lemma ClaimMeans(s: State, c: Claim)
    requires c.level >= 0
    ensures var t, p := Step(s, c), PreviewOf(s.stamp, c.previewAt, c.level);
      && t.gold == s.gold + (if c.commits then p.gold else 0) && t.material == s.material + (if c.commits then p.material else 0)
      && t.stamp == if c.commits && c.previewAt - s.stamp >= MIN_SECONDS then c.claimedAt else s.stamp
  {
    PreviewMeans(s.stamp, c.previewAt, c.level);
  }

  /** What one claim pays is covered by the time by which it moves the stamp. */
  lemma StepBounded(s: State, c: Claim, m: int)
    requires c.previewAt <= c.claimedAt && c.level <= m && 0 <= m
    ensures var t := Step(s, c);
      && t.stamp >= s.stamp && (t.stamp != s.stamp ==> t.stamp >= s.stamp + MIN_SECONDS && t.stamp == c.claimedAt)
      && 3600 * (t.gold - s.gold) <= GOLD_PER_HOUR * m * (t.stamp - s.stamp)
      && 3600 * (t.material - s.material) <= t.stamp - s.stamp
  {
    var t, p := Step(s, c), PreviewOf(s.stamp, c.previewAt, c.level);
    var effective := Effective(p.offlineSeconds);
    if c.commits && effective > 0 {
      var rate := c.level * GOLD_PER_HOUR;
      Rounded(rate, effective);
      Rounded(MATERIAL_PER_HOUR, effective);
      assert effective <= t.stamp - s.stamp;
      SmallerProduct(Positive(rate), GOLD_PER_HOUR * m, effective, t.stamp - s.stamp);
    } else {
      assert GOLD_PER_HOUR * m * 0 == 0;
    }
  }

  /** Over any run of claims, failed ones included, the gold paid is covered by the highest level and the
      time between the first and the last stamp, and the material by that time; a stamp never moves back
      and never by less than the minimum. */
  lemma {:induction false} EveryRunBounded(stamp: int, claims: seq<Claim>, m: int)
    requires 0 <= m && forall i :: 0 <= i < |claims| ==> claims[i].previewAt <= claims[i].claimedAt && claims[i].level <= m
    ensures var s := Run(stamp, claims);
      && 3600 * s.gold <= GOLD_PER_HOUR * m * (s.stamp - stamp)
      && 3600 * s.material <= s.stamp - stamp
      && (s.stamp == stamp || s.stamp >= stamp + MIN_SECONDS)
  {
    if claims == [] {
      assert GOLD_PER_HOUR * m * 0 == 0;
    } else {
      var n := |claims| - 1;
      EveryRunBounded(stamp, claims[..n], m);
      var s := Run(stamp, claims[..n]);
      StepBounded(s, claims[n], m);
      var t, k := Step(s, claims[n]), GOLD_PER_HOUR * m;
      assert k * (t.stamp - stamp) == k * (t.stamp - s.stamp) + k * (s.stamp - stamp);
    }
  }

  lemma {:induction false} StampsWithin(stamp: int, claims: seq<Claim>, end: int)
    requires stamp <= end && forall i :: 0 <= i < |claims| ==> claims[i].claimedAt <= end
    ensures Run(stamp, claims).stamp <= end
  {
    if claims != [] { StampsWithin(stamp, claims[..|claims| - 1], end); }
  }

  /** At a fixed level and inside a window no longer than the cap, any number of claims together pay no
      more than one claim at the end of the window. */
  lemma SplittingNeverPaysMore(stamp: int, claims: seq<Claim>, level: int, end: int)
    requires 0 <= level && stamp <= end <= stamp + MAX_SECONDS
    requires forall i :: 0 <= i < |claims| ==> claims[i].previewAt <= claims[i].claimedAt <= end && claims[i].level == level
    ensures var s, once := Run(stamp, claims), Run(stamp, [Claim(end, end, level, true)]); s.gold <= once.gold && s.material <= once.material
  {
    EveryRunBounded(stamp, claims, level);
    StampsWithin(stamp, claims, end);
    var s, one := Run(stamp, claims), Claim(end, end, level, true);
    assert [one][..0] == [];
    assert Run(stamp, [one]) == Step(State(stamp, 0, 0), one);
    var window, rate := end - stamp, level * GOLD_PER_HOUR;
    SmallerProduct(rate, rate, s.stamp - stamp, window);
    NonNegativeProduct(rate, window);
    if window < MIN_SECONDS {
      assert s.stamp == stamp;
      assert GOLD_PER_HOUR * level * 0 == 0;
    } else {
      assert Effective(window) == window;
      assert 3600 * s.gold <= rate * window && 3600 * s.material <= window;
      assert Positive(Quotient(rate * window, 3600)) == rate * window / 3600;
    }
  }

  /** Beyond the cap it does pay to claim more often. */
  lemma BeyondTheCapSplittingPays(stamp: int, level: int)
    requires level > 0
    ensures var mid, end := stamp + MAX_SECONDS, stamp + 2 * MAX_SECONDS;
      Run(stamp, [Claim(mid, mid, level, true), Claim(end, end, level, true)]).gold > Run(stamp, [Claim(end, end, level, true)]).gold
  {
    var mid, end := stamp + MAX_SECONDS, stamp + 2 * MAX_SECONDS;
    var a, b := Claim(mid, mid, level, true), Claim(end, end, level, true);
    assert [a, b][..1] == [a] && [a][..0] == [] && [b][..0] == [];
    assert PreviewOf(stamp, mid, level).gold == 80 * level == PreviewOf(mid, end, level).gold;
    assert PreviewOf(stamp, end, level).gold == 80 * level;
    assert Run(stamp, [a]) == Step(State(stamp, 0, 0), a) && Run(stamp, [b]) == Step(State(stamp, 0, 0), b);
    assert Run(stamp, [a, b]) == Step(Run(stamp, [a]), b);
  }

  // ---- The claim on the tables ----

  function Payout(cat: A.Catalog, db: A.Db, uid: A.Uid, p: Preview, reqId: string): Result<A.Db, A.AssetError> {
    var rewards := Rewards(p.gold, p.material);
    if rewards == [] then Ok(db) else A.ApplyReward(cat, db, uid, rewards, REASON, reqId)
  }

  /** What a preview is worth in a slot. */
  function Share(p: Preview, slot: A.Slot): int {
    if slot == A.Gold then Positive(p.gold) else if slot == A.Stack(ITEM_BASIC_MATERIAL) then Positive(p.material) else 0
  }

  ghost predicate UsualItems(cat: A.Catalog) {
    A.SlotOf(cat, ITEM_GOLD) == Some(A.Gold) && A.SlotOf(cat, ITEM_BASIC_MATERIAL) == Some(A.Stack(ITEM_BASIC_MATERIAL))
  }

  lemma RewardsTotal(cat: A.Catalog, p: Preview, slot: A.Slot)
    requires UsualItems(cat)
    ensures A.SlotTotal(cat, Rewards(p.gold, p.material), slot) == Share(p, slot)
  {
    var a := if p.gold > 0 then [ItemCount(ITEM_GOLD, p.gold)] else [];
    var b := if p.material > 0 then [ItemCount(ITEM_BASIC_MATERIAL, p.material)] else [];
    assert Rewards(p.gold, p.material) == a + b;
    A.SlotTotalConcat(cat, a, b, slot);
    assert a != [] ==> a[1..] == [];
    assert b != [] ==> b[1..] == [];
  }

  /** With the two items configured as usual, a claim that commits raises the player's gold and material
      by the amounts that `Step` counts, and no other balance. */
  lemma PayoutIsCounted(cat: A.Catalog, db: A.Db, uid: A.Uid, p: Preview, reqId: string, u: A.Uid, slot: A.Slot)
    requires UsualItems(cat) && Payout(cat, db, uid, p, reqId).Ok?
    ensures A.Balance(Payout(cat, db, uid, p, reqId).value, u, slot) == A.Balance(db, u, slot) + if u == uid then Share(p, slot) else 0
  {
    var rewards := Rewards(p.gold, p.material);
    RewardsTotal(cat, p, slot);
    if rewards != [] {
      A.ChangeAllMeans(cat, db, uid, A.Merged(rewards), REASON, reqId);
      A.MergedTotals(cat, rewards, slot);
    }
  }

  /** And it can be paid exactly when there is nothing to pay, or there is a request id and, for gold, a
      row to keep it in. */
  lemma PayoutFitsIff(cat: A.Catalog, db: A.Db, uid: A.Uid, p: Preview, reqId: string)
    requires UsualItems(cat) && A.Audited(cat, db)
    ensures Payout(cat, db, uid, p, reqId).Ok? <==> (p.gold <= 0 && p.material <= 0) || (reqId != "" && (p.gold > 0 ==> uid in db.gold))
  {
    var rewards := Rewards(p.gold, p.material);
    forall slot ensures A.Balance(db, uid, slot) >= 0 { assert A.SlotOk(cat, db, uid, slot); }
    if rewards != [] { A.RewardCommitsIff(cat, db, uid, rewards, REASON, reqId); }
    if p.gold > 0 { assert rewards[0] == ItemCount(ITEM_GOLD, p.gold); }
  }

  datatype ClaimError = InvalidReqId | ClaimFailed

  class Service {
    const assets: AssetService.Service
    var stamps: map<A.Uid, int>

    constructor (a: AssetService.Service)
      ensures assets == a && stamps == map[]
    {
      assets, stamps := a, map[];
    }

    /** getOrCreateWorkshop: a new row starts at the time it is made. */
    method GetOrCreate(uid: A.Uid, now: int) returns (stamp: int)
      modifies `stamps
      ensures stamp == if uid in old(stamps) then old(stamps)[uid] else now
      ensures stamps == old(stamps)[uid := stamp]
    {
      if uid !in stamps { stamps := stamps[uid := now]; }
      stamp := stamps[uid];
      assert stamps == old(stamps)[uid := stamp];
    }

    method ClaimOfflineReward(uid: A.Uid, reqId: string, createdAt: int, previewAt: int, claimedAt: int, level: int, commits: bool)
      returns (r: Result<Preview, ClaimError>)
      modifies `stamps, assets
      ensures reqId == "" ==> r == Err(InvalidReqId) && stamps == old(stamps) && assets.db == old(assets.db)
      ensures reqId != "" ==>
        var stamp := if uid in old(stamps) then old(stamps)[uid] else createdAt;
        var preview := PreviewOf(stamp, previewAt, level);
        var paid := Payout(assets.cat, old(assets.db), uid, preview, reqId);
        var done := commits && paid.Ok?;
        && r == (if done then Ok(preview) else Err(ClaimFailed))
        && assets.db == (if done then paid.value else old(assets.db))
        && stamps == old(stamps)[uid := Step(State(stamp, 0, 0), Claim(previewAt, claimedAt, level, done)).stamp]
    {
      if reqId == "" { return Err(InvalidReqId); }
      var stamp := GetOrCreate(uid, createdAt);
      var preview := PreviewOf(stamp, previewAt, level);
      var effective := Effective(preview.offlineSeconds);
      var rewards := Rewards(preview.gold, preview.material);
      var beforeDb, beforeStamps := assets.db, stamps;
      var failed := false;
      if |rewards| > 0 {
        var error := assets.ApplyRewardInTx(uid, rewards, REASON, reqId);
        failed := error.Some?;
      }
      if !failed && effective > 0 { stamps := stamps[uid := claimedAt]; }
      if failed || !commits {
        assets.db, stamps := beforeDb, beforeStamps;
        return Err(ClaimFailed);
      }
      return Ok(preview);
    }
  }
}
