/** The asset service as an object (internal/domain/asset/service.go): the merge loop with its index map,
    the routing of one change, and the transactions, proved to be what `Assets` gives for them. */
module AssetService {
  import opened Common
  import opened GameData
  import opened Assets

  /** The index map gives the position of every item in the merged list. */
  ghost predicate Positions(index: map<int, nat>, merged: seq<ItemCount>) {
    && (forall id :: id in index ==> index[id] < |merged| && merged[index[id]].itemId == id)
    && (forall p :: 0 <= p < |merged| ==> merged[p].itemId in index)
  }

  lemma MergeStep(items: seq<ItemCount>, i: nat, index: map<int, nat>)
    requires i < |items| && Positions(index, Merged(items[..i]))
    ensures var m, x := Merged(items[..i]), items[i];
      Merged(items[..i + 1]) == if x.itemId in index then m[index[x.itemId] := m[index[x.itemId]].(count := m[index[x.itemId]].count + x.count)] else m + [x]
  {
    var m, x := Merged(items[..i]), items[i];
    assert items[..i + 1][..i] == items[..i] && items[..i + 1][i] == x;
    assert Merged(items[..i + 1]) == Add(m, x);
    if x.itemId in index {
      MergedIds(items[..i]);
      AddAt(m, x, index[x.itemId]);
    } else {
      assert !Has(m, x.itemId);
      AddNew(m, x);
    }
  }

  /** mergeRewardItems and mergeCostItems, which differ only in the type of their items. */
  method MergeItems(items: seq<ItemCount>) returns (r: Result<seq<ItemCount>, AssetError>)
    ensures r == if AllPositive(items) then Ok(Merged(items)) else Err(InvalidAmount)
  {
    var merged: seq<ItemCount> := [];
    var index: map<int, nat> := map[];
    for i := 0 to |items|
      invariant forall k :: 0 <= k < i ==> items[k].count > 0
      invariant merged == Merged(items[..i]) && Positions(index, merged)
    {
      var item := items[i];
      if item.count <= 0 { return Err(InvalidAmount); }
      MergeStep(items, i, index);
      if item.itemId in index {
        var pos := index[item.itemId];
        merged := merged[pos := merged[pos].(count := merged[pos].count + item.count)];
      } else {
        index := index[item.itemId := |merged|];
        merged := merged + [item];
      }
    }
    assert items[..|items|] == items;
    return Ok(merged);
  }

  class Service {
    const cat: Catalog
    var db: Db

    constructor (c: Catalog)
      ensures cat == c && db == Db(map[], map[], []) && Audited(cat, db)
    {
      cat, db := c, Db(map[], map[], []);
    }

    method SaveGold(uid: Uid, balance: int, row: LogRow)
      requires uid in db.gold
      modifies this
      ensures db == old(db).(gold := old(db).gold[uid := balance], log := old(db).log + [row])
    {
      db := db.(gold := db.gold[uid := balance]);
      db := db.(log := db.log + [row]);
    }

    method ChangePlayerField(uid: Uid, key: string, c: ItemCount, reason: string, reqId: string) returns (error: Option<AssetError>)
      requires c.itemId in cat && cat[c.itemId] == PlayerField(key)
      modifies this
      ensures Change(cat, old(db), uid, c, reason, reqId) == if error.None? then Ok(db) else Err(error.value)
    {
      if key != "gold" { return Some(UnsupportedStorage); }
      if uid !in db.gold { return Some(PlayerNotFound); }
      var gold := db.gold[uid];
      if gold + c.count < 0 { return Some(InsufficientGold); }
      gold := gold + c.count;
      SaveGold(uid, gold, LogRow(uid, c.itemId, c.count, gold, if reason == "" then "asset.change_gold" else reason, reqId));
      return None;
    }

    /** The row is created with count zero when it is missing, even if the change is then refused; the
        rollback of the surrounding transaction removes it. */
    method ChangeInventoryStack(uid: Uid, c: ItemCount, reason: string, reqId: string) returns (error: Option<AssetError>)
      requires c.itemId in cat && cat[c.itemId] == InventoryStack
      modifies this
      ensures Change(cat, old(db), uid, c, reason, reqId) == if error.None? then Ok(db) else Err(error.value)
    {
      if (uid, c.itemId) !in db.inventory { db := db.(inventory := db.inventory[(uid, c.itemId) := 0]); }
      var count := db.inventory[(uid, c.itemId)];
      if count + c.count < 0 { return Some(InsufficientItem); }
      count := count + c.count;
      assert db.inventory[(uid, c.itemId) := count] == old(db).inventory[(uid, c.itemId) := count];
      db := db.(inventory := db.inventory[(uid, c.itemId) := count]);
      db := db.(log := db.log + [LogRow(uid, c.itemId, c.count, count, if reason == "" then "asset.change_item" else reason, reqId)]);
      return None;
    }

    method ChangeInTx(uid: Uid, c: ItemCount, reason: string, reqId: string) returns (error: Option<AssetError>)
      modifies this
      ensures Change(cat, old(db), uid, c, reason, reqId) == if error.None? then Ok(db) else Err(error.value)
    {
      if c.itemId !in cat { return Some(UnsupportedItem); }
      match cat[c.itemId]
      case PlayerField(key) => error := ChangePlayerField(uid, key, c, reason, reqId);
      case InventoryStack => error := ChangeInventoryStack(uid, c, reason, reqId);
      case OtherStorage => return Some(UnsupportedStorage);
    }

    /** The loop of ApplyRewardInTx and ApplyCostInTx; `sign` is -1 for costs. */
    method ChangeEach(uid: Uid, items: seq<ItemCount>, sign: int, reason: string, reqId: string) returns (error: Option<AssetError>)
      requires sign == 1 || sign == -1
      modifies this
      ensures ChangeAll(cat, old(db), uid, if sign == 1 then items else Negated(items), reason, reqId) == if error.None? then Ok(db) else Err(error.value)
    {
      ghost var changes := if sign == 1 then items else Negated(items);
      for i := 0 to |items|
        invariant ChangeAll(cat, db, uid, changes[i..], reason, reqId) == ChangeAll(cat, old(db), uid, changes, reason, reqId)
      {
        var change := ItemCount(items[i].itemId, sign * items[i].count);
        assert changes[i..][0] == change && changes[i..][1..] == changes[i + 1..];
        error := ChangeInTx(uid, change, reason, reqId);
        if error.Some? { return error; }
      }
      return None;
    }

    method ApplyRewardInTx(uid: Uid, rewards: seq<ItemCount>, reason: string, reqId: string) returns (error: Option<AssetError>)
      modifies this
      ensures ApplyReward(cat, old(db), uid, rewards, reason, reqId) == if error.None? then Ok(db) else Err(error.value)
    {
      if reqId == "" { return Some(InvalidReqId); }
      if |rewards| == 0 { return Some(InvalidAmount); }
      var merged := MergeItems(rewards);
      if merged.Err? { return Some(merged.error); }
      error := ChangeEach(uid, merged.value, 1, reason, reqId);
    }

    method ApplyCostInTx(uid: Uid, costs: seq<ItemCount>, reason: string, reqId: string) returns (error: Option<AssetError>)
      modifies this
      ensures ApplyCost(cat, old(db), uid, costs, reason, reqId) == if error.None? then Ok(db) else Err(error.value)
    {
      if reqId == "" { return Some(InvalidReqId); }
      if |costs| == 0 { return Some(InvalidAmount); }
      var merged := MergeItems(costs);
      if merged.Err? { return Some(merged.error); }
      error := ChangeEach(uid, merged.value, -1, reason, reqId);
    }

    method Grant(uid: Uid, rewards: seq<ItemCount>, reason: string, reqId: string, commits: bool) returns (error: Option<AssetError>)
      modifies this
      ensures var r := ApplyReward(cat, old(db), uid, rewards, reason, reqId);
        && db == Tx(old(db), r, commits)
        && error == if r.Err? then Some(r.error) else if commits then None else Some(StorageFailed)
    {
      if reqId == "" { return Some(InvalidReqId); }
      if |rewards| == 0 { return Some(InvalidAmount); }
      var before := db;
      error := ApplyRewardInTx(uid, rewards, reason, reqId);
      if error.None? && !commits { error := Some(StorageFailed); }
      if error.Some? { db := before; }
    }

    method Consume(uid: Uid, costs: seq<ItemCount>, reason: string, reqId: string, commits: bool) returns (error: Option<AssetError>)
      modifies this
      ensures var r := ApplyCost(cat, old(db), uid, costs, reason, reqId);
        && db == Tx(old(db), r, commits)
        && error == if r.Err? then Some(r.error) else if commits then None else Some(StorageFailed)
    {
      if reqId == "" { return Some(InvalidReqId); }
      if |costs| == 0 { return Some(InvalidAmount); }
      var before := db;
      error := ApplyCostInTx(uid, costs, reason, reqId);
      if error.None? && !commits { error := Some(StorageFailed); }
      if error.Some? { db := before; }
    }
  }
}
