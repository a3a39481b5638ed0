/** SettleLevel on the mutable session, the progress rows and the ledger, in the source's order: the
    transaction writes progress first and rewards second, and memory follows only when it commits. */
module SettlementService {
  import opened Common
  import opened GameData
  import A = Assets
  import AssetService
  import B = Battle
  import R = BattleRuntime
  import S = Settlement

  class Service {
    const assets: AssetService.Service
    var progress: map<(S.Uid, int), B.Progress>

    constructor (a: AssetService.Service)
      ensures assets == a && progress == map[]
    {
      assets, progress := a, map[];
    }

    /** buildSettleRewards. */
    method BuildSettleRewards(rs: R.RuntimeSession, firstClear: bool) returns (rewards: seq<ItemCount>)
      ensures rewards == S.SettleRewards(rs.level, rs.pendingRewards, firstClear)
    {
      rewards := rs.pendingRewards;
      var configured := if firstClear then rs.level.firstClearRewards else rs.level.repeatRewards;
      for i := 0 to |configured|
        invariant rewards == rs.pendingRewards + configured[..i]
      {
        rewards := rewards + [configured[i]];
      }
      assert configured[..|configured|] == configured;
    }

    /** The body of the settlement transaction; the caller rolls back when it fails. */
    method SettleInTx(rs: R.RuntimeSession, uid: S.Uid, reqId: string, now: int) returns (result: Option<B.SettleResult>)
      modifies `progress, assets
      ensures var done := S.ResultOf(old(progress), uid, rs.level, rs.pendingRewards, now);
        var paid := S.Payout(assets.cat, old(assets.db), uid, done.rewards, reqId);
        && (result == if paid.Ok? then Some(done) else None)
        && (paid.Ok? ==> assets.db == paid.value && progress == old(progress)[(uid, rs.level.levelId) := done.progress])
    {
      var key := (uid, rs.level.levelId);
      var firstClear := key !in progress;
      var row := if firstClear then B.Progress(0, now, 0) else progress[key];
      row := row.(clearCount := row.clearCount + 1, lastAt := now);
      progress := progress[key := row];
      var rewards := BuildSettleRewards(rs, firstClear);
      if |rewards| != 0 {
        var error := assets.ApplyRewardInTx(uid, rewards, S.REASON, reqId);
        if error.Some? { return None; }
      }
      return Some(B.SettleResult(firstClear, row, rewards));
    }

    method SettleLevel(rs: R.RuntimeSession, uid: S.Uid, reqId: string, now: int, commits: bool) returns (r: Result<B.SettleResult, B.BattleError>)
      requires rs.settleResult.Some? <==> rs.settled
      modifies `progress, assets, rs`settled, rs`settleResult
      ensures rs.settleResult.Some? <==> rs.settled
      ensures reqId != "" && old(rs.settleResult).Some? ==> r == Ok(old(rs.settleResult).value)
      ensures var done := S.ResultOf(old(progress), uid, rs.level, rs.pendingRewards, now);
        var paid := S.Payout(assets.cat, old(assets.db), uid, done.rewards, reqId);
        var settles := S.Eligible(rs.level, old(rs.State()), reqId) && commits && paid.Ok?;
        && B.Outcome(rs.State(), if r.Ok? then None else Some(r.error)) == B.StepSettle(rs.level, old(rs.State()), reqId, settles)
        && (if settles then
              r == Ok(done) && rs.settleResult == Some(done) && assets.db == paid.value
              && progress == old(progress)[(uid, rs.level.levelId) := done.progress]
            else
              (r.Ok? ==> old(rs.settleResult) == Some(r.value)) && rs.settleResult == old(rs.settleResult)
              && assets.db == old(assets.db) && progress == old(progress))
    {
      if reqId == "" { return Err(B.InvalidReqId); }
      if rs.settleResult.Some? { return Ok(rs.settleResult.value); }
      if rs.failed { return Err(B.LevelFailed); }
      if rs.completedOrders < rs.level.target { return Err(B.LevelNotComplete); }
      var beforeDb, beforeProgress := assets.db, progress;
      var result := SettleInTx(rs, uid, reqId, now);
      if result.None? || !commits {
        assets.db, progress := beforeDb, beforeProgress;
        return Err(B.StorageFailed);
      }
      rs.settled := true;
      rs.settleResult := result;
      return Ok(result.value);
    }
  }
}
