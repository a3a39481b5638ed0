/** The asset ledger (internal/domain/asset/service.go, internal/repo/asset_repo.go): gold in the player
    row, stackable items in the inventory, and one log row for every change.

    One player's transactions run one after the other, as gold is read without a lock on its row. */
module Assets {
  import opened Common
  import opened GameData

  type Uid = string

  datatype Storage = PlayerField(key: string) | InventoryStack | OtherStorage

  type Catalog = map<int, Storage>

  datatype LogRow = LogRow(uid: Uid, itemId: int, delta: int, balance: int, reason: string, reqId: string)

  /** `gold` has a row for every player. */
  datatype Db = Db(gold: map<Uid, int>, inventory: map<(Uid, int), int>, log: seq<LogRow>)

  datatype AssetError =
    | InvalidReqId | InvalidAmount | UnsupportedItem | UnsupportedStorage | PlayerNotFound
    | InsufficientGold | InsufficientItem | StorageFailed

  /** Where an item is kept. Several items may be kept as gold. */
  datatype Slot = Gold | Stack(itemId: int)

  function SlotOf(cat: Catalog, itemId: int): Option<Slot> {
    if itemId !in cat then None
    else match cat[itemId]
      case PlayerField(key) => if key == "gold" then Some(Gold) else None
      case InventoryStack => Some(Stack(itemId))
      case OtherStorage => None
  }

  function Balance(db: Db, uid: Uid, slot: Slot): int {
    match slot
    case Gold => if uid in db.gold then db.gold[uid] else 0
    case Stack(id) => if (uid, id) in db.inventory then db.inventory[(uid, id)] else 0
  }

  /** changeInTx: one signed change, routed to its storage and logged with the new balance. */
  function Change(cat: Catalog, db: Db, uid: Uid, c: ItemCount, reason: string, reqId: string): Result<Db, AssetError> {
    if c.itemId !in cat then Err(UnsupportedItem)
    else match cat[c.itemId]
      case PlayerField(key) =>
        if key != "gold" then Err(UnsupportedStorage)
        else if uid !in db.gold then Err(PlayerNotFound)
        else
          var balance := db.gold[uid] + c.count;
          if balance < 0 then Err(InsufficientGold)
          else Ok(db.(gold := db.gold[uid := balance],
                      log := db.log + [LogRow(uid, c.itemId, c.count, balance, if reason == "" then "asset.change_gold" else reason, reqId)]))
      case InventoryStack =>
        var balance := Balance(db, uid, Stack(c.itemId)) + c.count;
        if balance < 0 then Err(InsufficientItem)
        else Ok(db.(inventory := db.inventory[(uid, c.itemId) := balance],
                    log := db.log + [LogRow(uid, c.itemId, c.count, balance, if reason == "" then "asset.change_item" else reason, reqId)]))
      case OtherStorage => Err(UnsupportedStorage)
  }

  function ChangeAll(cat: Catalog, db: Db, uid: Uid, changes: seq<ItemCount>, reason: string, reqId: string): Result<Db, AssetError>
    decreases |changes|
  {
    if changes == [] then Ok(db)
    else
      var first := Change(cat, db, uid, changes[0], reason, reqId);
      if first.Err? then first else ChangeAll(cat, first.value, uid, changes[1..], reason, reqId)
  }

  // ---- Merging ----

  predicate AllPositive(items: seq<ItemCount>) { forall i :: 0 <= i < |items| ==> items[i].count > 0 }

  /** Put one more item into a merged list: into its own entry, or at the end. */
  function Add(merged: seq<ItemCount>, x: ItemCount): seq<ItemCount> {
    if merged == [] then [x]
    else if merged[0].itemId == x.itemId then [merged[0].(count := merged[0].count + x.count)] + merged[1..]
    else [merged[0]] + Add(merged[1..], x)
  }

  function Merged(items: seq<ItemCount>): seq<ItemCount> {
    if items == [] then [] else Add(Merged(items[..|items| - 1]), items[|items| - 1])
  }

  predicate DistinctItems(items: seq<ItemCount>) {
    forall i, j :: 0 <= i < j < |items| ==> items[i].itemId != items[j].itemId
  }

  predicate Has(items: seq<ItemCount>, itemId: int) { exists i :: 0 <= i < |items| && items[i].itemId == itemId }

  /** The sum of the counts kept in one slot. */
  function SlotTotal(cat: Catalog, items: seq<ItemCount>, slot: Slot): int {
    if items == [] then 0
    else (if SlotOf(cat, items[0].itemId) == Some(slot) then items[0].count else 0) + SlotTotal(cat, items[1..], slot)
  }

  lemma {:induction false} SlotTotalConcat(cat: Catalog, a: seq<ItemCount>, b: seq<ItemCount>, slot: Slot)
    ensures SlotTotal(cat, a + b, slot) == SlotTotal(cat, a, slot) + SlotTotal(cat, b, slot)
  {
    if a == [] {
      assert a + b == b;
    } else {
      SlotTotalConcat(cat, a[1..], b, slot);
      assert (a + b)[1..] == a[1..] + b;
    }
  }

  lemma {:induction false} AddAt(merged: seq<ItemCount>, x: ItemCount, i: nat)
    requires DistinctItems(merged) && i < |merged| && merged[i].itemId == x.itemId
    ensures Add(merged, x) == merged[i := merged[i].(count := merged[i].count + x.count)]
  {
    if i > 0 {
      assert merged[0].itemId != x.itemId;
      AddAt(merged[1..], x, i - 1);
    }
  }

  lemma {:induction false} AddNew(merged: seq<ItemCount>, x: ItemCount)
    requires !Has(merged, x.itemId)
    ensures Add(merged, x) == merged + [x]
  {
    if merged != [] {
      assert merged[0].itemId != x.itemId;
      forall i | 0 <= i < |merged[1..]| ensures merged[1..][i].itemId != x.itemId { assert merged[1..][i] == merged[i + 1]; }
      AddNew(merged[1..], x);
    }
  }

  lemma {:induction false} AddTotals(cat: Catalog, merged: seq<ItemCount>, x: ItemCount, slot: Slot)
    ensures SlotTotal(cat, Add(merged, x), slot) == SlotTotal(cat, merged, slot) + SlotTotal(cat, [x], slot)
  {
    if merged != [] && merged[0].itemId != x.itemId {
      AddTotals(cat, merged[1..], x, slot);
      assert Add(merged, x)[0] == merged[0] && Add(merged, x)[1..] == Add(merged[1..], x);
    } else if merged != [] {
      assert Add(merged, x)[1..] == merged[1..];
    }
  }

  /** The ids stay in the order in which they first appear in `items`. */
  ghost predicate FirstAppearance(items: seq<ItemCount>, m: seq<ItemCount>) {
    forall i, j :: 0 <= i < j < |m| ==> Precedes(items, m[i].itemId, m[j].itemId)
  }

  ghost predicate Precedes(items: seq<ItemCount>, a: int, b: int) {
    exists p :: 0 <= p < |items| && items[p].itemId == a && !Has(items[..p], b)
  }

  lemma AddShape(m: seq<ItemCount>, x: ItemCount)
    requires DistinctItems(m)
    ensures var a := Add(m, x);
      && |m| <= |a| <= |m| + 1 && (forall i :: 0 <= i < |m| ==> a[i].itemId == m[i].itemId && a[i].count >= Minimum(m[i].count, m[i].count + x.count))
      && (if Has(m, x.itemId) then |a| == |m| else |a| == |m| + 1 && a[|m|] == x)
  {
    if Has(m, x.itemId) {
      var at :| 0 <= at < |m| && m[at].itemId == x.itemId;
      AddAt(m, x, at);
    } else {
      AddNew(m, x);
    }
  }

  function Minimum(a: int, b: int): int { if a < b then a else b }

  lemma AddIds(m: seq<ItemCount>, x: ItemCount)
    requires DistinctItems(m)
    ensures var a := Add(m, x);
      && DistinctItems(a) && (AllPositive(m) && x.count > 0 ==> AllPositive(a))
      && forall id :: Has(a, id) <==> Has(m, id) || id == x.itemId
  {
    AddShape(m, x);
    var a := Add(m, x);
    forall id ensures Has(a, id) <==> Has(m, id) || id == x.itemId {
      HasSameIds(a[..|m|], m, id);
      if |a| > |m| {
        assert a == a[..|m|] + [x];
        HasAppend(a[..|m|], x, id);
      } else {
        assert a[..|m|] == a;
      }
    }
    forall i, j | 0 <= i < j < |a| ensures a[i].itemId != a[j].itemId {
      assert j == |m| ==> Has(m, m[i].itemId);
    }
  }

  /** One more item keeps the order of first appearance. */
  lemma OrderKept(rest: seq<ItemCount>, k: seq<ItemCount>, x: ItemCount)
    requires DistinctItems(k) && FirstAppearance(rest, k) && forall id :: Has(k, id) <==> Has(rest, id)
    ensures FirstAppearance(rest + [x], Add(k, x))
  {
    var items, m := rest + [x], Add(k, x);
    AddShape(k, x);
    forall i, j | 0 <= i < j < |m| ensures Precedes(items, m[i].itemId, m[j].itemId) {
      var p: int;
      if j < |k| {
        assert Precedes(rest, k[i].itemId, k[j].itemId);
        p :| 0 <= p < |rest| && rest[p].itemId == k[i].itemId && !Has(rest[..p], k[j].itemId);
      } else {
        assert Has(k, k[i].itemId);
        p :| 0 <= p < |rest| && rest[p].itemId == k[i].itemId;
        HasPrefix(rest, p, x.itemId);
      }
      assert items[..p] == rest[..p];
    }
  }

  /** Merging names each item once, in the order of first appearance, and keeps positive counts positive. */
  lemma {:induction false} MergedIds(items: seq<ItemCount>)
    ensures var m := Merged(items);
      && DistinctItems(m) && (forall id :: Has(m, id) <==> Has(items, id))
      && (AllPositive(items) ==> AllPositive(m)) && FirstAppearance(items, m)
  {
    if items != [] {
      var rest, x := items[..|items| - 1], items[|items| - 1];
      MergedIds(rest);
      AddIds(Merged(rest), x);
      OrderKept(rest, Merged(rest), x);
      assert items == rest + [x];
      forall id ensures Has(items, id) <==> Has(rest, id) || id == x.itemId { HasAppend(rest, x, id); }
    }
  }

  /** Merging keeps what every slot gains. */
  lemma {:induction false} MergedTotals(cat: Catalog, items: seq<ItemCount>, slot: Slot)
    ensures SlotTotal(cat, Merged(items), slot) == SlotTotal(cat, items, slot)
  {
    if items != [] {
      var n := |items| - 1;
      MergedTotals(cat, items[..n], slot);
      AddTotals(cat, Merged(items[..n]), items[n], slot);
      SlotTotalConcat(cat, items[..n], [items[n]], slot);
      assert items == items[..n] + [items[n]];
    }
  }

  lemma HasSameIds(a: seq<ItemCount>, b: seq<ItemCount>, id: int)
    requires |a| == |b| && forall i :: 0 <= i < |a| ==> a[i].itemId == b[i].itemId
    ensures Has(a, id) <==> Has(b, id)
  {
    if i :| 0 <= i < |a| && a[i].itemId == id { assert b[i].itemId == id; }
    if i :| 0 <= i < |b| && b[i].itemId == id { assert a[i].itemId == id; }
  }

  lemma HasAppend(a: seq<ItemCount>, x: ItemCount, id: int)
    ensures Has(a + [x], id) <==> Has(a, id) || id == x.itemId
  {
    assert (a + [x])[|a|] == x;
    if i :| 0 <= i < |a| && a[i].itemId == id { assert (a + [x])[i].itemId == id; }
    if i :| 0 <= i < |a + [x]| && (a + [x])[i].itemId == id { assert i < |a| ==> a[i].itemId == id; }
  }

  lemma HasPrefix(a: seq<ItemCount>, p: int, id: int)
    requires 0 <= p <= |a|
    ensures Has(a[..p], id) ==> Has(a, id)
  {
    if Has(a[..p], id) {
      var i :| 0 <= i < p && a[..p][i].itemId == id;
      assert a[i].itemId == id;
    }
  }

  // ---- Batches ----

  function Negated(items: seq<ItemCount>): seq<ItemCount> {
    seq(|items|, i requires 0 <= i < |items| => ItemCount(items[i].itemId, -items[i].count))
  }

  function ApplyReward(cat: Catalog, db: Db, uid: Uid, rewards: seq<ItemCount>, reason: string, reqId: string): Result<Db, AssetError> {
    if reqId == "" then Err(InvalidReqId)
    else if rewards == [] || !AllPositive(rewards) then Err(InvalidAmount)
    else ChangeAll(cat, db, uid, Merged(rewards), reason, reqId)
  }

  function ApplyCost(cat: Catalog, db: Db, uid: Uid, costs: seq<ItemCount>, reason: string, reqId: string): Result<Db, AssetError> {
    if reqId == "" then Err(InvalidReqId)
    else if costs == [] || !AllPositive(costs) then Err(InvalidAmount)
    else ChangeAll(cat, db, uid, Negated(Merged(costs)), reason, reqId)
  }

  /** The items have a place to go: configured, in a supported storage, and a player row for gold. */
  predicate Placed(cat: Catalog, db: Db, uid: Uid, itemId: int) {
    SlotOf(cat, itemId).Some? && (SlotOf(cat, itemId) == Some(Gold) ==> uid in db.gold)
  }

  ghost predicate AllPlaced(cat: Catalog, db: Db, uid: Uid, items: seq<ItemCount>) {
    forall i :: 0 <= i < |items| ==> Placed(cat, db, uid, items[i].itemId)
  }

  /** One change fits exactly when the item has a place and its slot does not go below zero; then only
      that slot moves, by the change. */
  lemma ChangeMeans(cat: Catalog, db: Db, uid: Uid, c: ItemCount, reason: string, reqId: string)
    ensures var r := Change(cat, db, uid, c, reason, reqId);
      && (r.Ok? <==> Placed(cat, db, uid, c.itemId) && Balance(db, uid, SlotOf(cat, c.itemId).value) + c.count >= 0)
      && (r.Ok? ==> r.value.gold.Keys == db.gold.Keys)
      && (r.Ok? ==> forall u, slot :: Balance(r.value, u, slot) == Balance(db, u, slot) + if u == uid then SlotTotal(cat, [c], slot) else 0)
  {
    assert [c][1..] == [];
    assert forall slot :: SlotTotal(cat, [c], slot) == if SlotOf(cat, c.itemId) == Some(slot) then c.count else 0;
  }

  function ErrorOf<T>(r: Result<T, AssetError>): Option<AssetError> { if r.Err? then Some(r.error) else None }

  /** What is wrong with a change that is refused: the first of these tests that fails. */
  lemma ChangeRefusals(cat: Catalog, db: Db, uid: Uid, c: ItemCount, reason: string, reqId: string)
    ensures var slot := SlotOf(cat, c.itemId);
      ErrorOf(Change(cat, db, uid, c, reason, reqId))
        == First(Unless(c.itemId in cat, UnsupportedItem), First(Unless(slot.Some?, UnsupportedStorage),
             First(Unless(slot == Some(Gold) ==> uid in db.gold, PlayerNotFound),
               Unless(slot.Some? ==> Balance(db, uid, slot.value) + c.count >= 0, if slot == Some(Gold) then InsufficientGold else InsufficientItem))))
  {
  }

  lemma {:induction false} ChangeAllMeans(cat: Catalog, db: Db, uid: Uid, changes: seq<ItemCount>, reason: string, reqId: string)
    requires ChangeAll(cat, db, uid, changes, reason, reqId).Ok?
    ensures var after := ChangeAll(cat, db, uid, changes, reason, reqId).value;
      && after.gold.Keys == db.gold.Keys
      && forall u, slot :: Balance(after, u, slot) == Balance(db, u, slot) + if u == uid then SlotTotal(cat, changes, slot) else 0
    decreases |changes|
  {
    if changes != [] {
      ChangeMeans(cat, db, uid, changes[0], reason, reqId);
      ChangeAllMeans(cat, Change(cat, db, uid, changes[0], reason, reqId).value, uid, changes[1..], reason, reqId);
      forall slot { SlotTotalConcat(cat, [changes[0]], changes[1..], slot); }
      assert changes == [changes[0]] + changes[1..];
    }
  }

  lemma {:induction false} NegativeTotal(cat: Catalog, changes: seq<ItemCount>, slot: Slot)
    requires forall i :: 0 <= i < |changes| ==> changes[i].count < 0
    ensures SlotTotal(cat, changes, slot) <= 0
  {
    if changes != [] { NegativeTotal(cat, changes[1..], slot); }
  }

  /** Deductions go through exactly when each slot can bear its total. */
  lemma {:induction false} DeductionsFitIff(cat: Catalog, db: Db, uid: Uid, changes: seq<ItemCount>, reason: string, reqId: string)
    requires forall i :: 0 <= i < |changes| ==> changes[i].count < 0
    ensures ChangeAll(cat, db, uid, changes, reason, reqId).Ok? <==>
      AllPlaced(cat, db, uid, changes) && forall slot :: SlotTotal(cat, changes, slot) < 0 ==> Balance(db, uid, slot) + SlotTotal(cat, changes, slot) >= 0
    decreases |changes|
  {
    if changes != [] {
      var c, rest := changes[0], changes[1..];
      ChangeMeans(cat, db, uid, c, reason, reqId);
      forall slot ensures SlotTotal(cat, changes, slot) == SlotTotal(cat, [c], slot) + SlotTotal(cat, rest, slot) && SlotTotal(cat, rest, slot) <= 0 {
        SlotTotalConcat(cat, [c], rest, slot);
        assert changes == [c] + rest;
        NegativeTotal(cat, rest, slot);
      }
      assert forall slot :: SlotTotal(cat, [c], slot) == if SlotOf(cat, c.itemId) == Some(slot) then c.count else 0;
      var first := Change(cat, db, uid, c, reason, reqId);
      assert AllPlaced(cat, db, uid, changes) <==> Placed(cat, db, uid, c.itemId) && AllPlaced(cat, db, uid, rest) by {
        assert forall i :: 0 <= i < |rest| ==> rest[i] == changes[i + 1];
        assert forall i :: 0 < i < |changes| ==> changes[i] == rest[i - 1];
      }
      if Placed(cat, db, uid, c.itemId) {
        var home := SlotOf(cat, c.itemId).value;
        assert SlotTotal(cat, changes, home) <= c.count < 0;
        if first.Ok? {
          DeductionsFitIff(cat, first.value, uid, rest, reason, reqId);
        }
      }
    }
  }

  lemma {:induction false} RewardsFitIff(cat: Catalog, db: Db, uid: Uid, changes: seq<ItemCount>, reason: string, reqId: string)
    requires AllPositive(changes) && forall slot :: Balance(db, uid, slot) >= 0
    ensures ChangeAll(cat, db, uid, changes, reason, reqId).Ok? <==> AllPlaced(cat, db, uid, changes)
    decreases |changes|
  {
    if changes != [] {
      var c, rest := changes[0], changes[1..];
      ChangeMeans(cat, db, uid, c, reason, reqId);
      assert forall slot :: SlotTotal(cat, [c], slot) == if SlotOf(cat, c.itemId) == Some(slot) then c.count else 0;
      assert forall i :: 0 < i < |changes| ==> changes[i] == rest[i - 1];
      if Change(cat, db, uid, c, reason, reqId).Ok? {
        RewardsFitIff(cat, Change(cat, db, uid, c, reason, reqId).value, uid, rest, reason, reqId);
      }
    }
  }

  lemma {:induction false} NegatedTotal(cat: Catalog, items: seq<ItemCount>, slot: Slot)
    ensures SlotTotal(cat, Negated(items), slot) == -SlotTotal(cat, items, slot)
  {
    if items != [] {
      NegatedTotal(cat, items[1..], slot);
      assert Negated(items)[1..] == Negated(items[1..]);
    }
  }

  lemma PlacedById(cat: Catalog, db: Db, uid: Uid, items: seq<ItemCount>)
    ensures AllPlaced(cat, db, uid, items) <==> forall id :: Has(items, id) ==> Placed(cat, db, uid, id)
  {
    if AllPlaced(cat, db, uid, items) {
      forall id | Has(items, id) ensures Placed(cat, db, uid, id) { var i :| 0 <= i < |items| && items[i].itemId == id; }
    } else {
      var i :| 0 <= i < |items| && !Placed(cat, db, uid, items[i].itemId);
      assert Has(items, items[i].itemId);
    }
  }

  /** Every slot can bear the sum of what it is asked for. */
  ghost predicate Affordable(cat: Catalog, db: Db, uid: Uid, costs: seq<ItemCount>) {
    forall slot :: SlotTotal(cat, costs, slot) > 0 ==> SlotTotal(cat, costs, slot) <= Balance(db, uid, slot)
  }

  predicate WellFormed(items: seq<ItemCount>, reqId: string) { reqId != "" && items != [] && AllPositive(items) }

  /** A cost batch commits exactly when it is well formed, every item has a place and every slot can
      bear the sum of what it is asked for, however the batch is cut into items; then every slot of the
      player falls by that sum and nothing else moves. */
  lemma CostCommitsIff(cat: Catalog, db: Db, uid: Uid, costs: seq<ItemCount>, reason: string, reqId: string)
    ensures var r := ApplyCost(cat, db, uid, costs, reason, reqId);
      && (r.Ok? <==> WellFormed(costs, reqId) && AllPlaced(cat, db, uid, costs) && Affordable(cat, db, uid, costs))
      && (r.Ok? ==> forall u, slot :: Balance(r.value, u, slot) == Balance(db, u, slot) - if u == uid then SlotTotal(cat, costs, slot) else 0)
  {
    if WellFormed(costs, reqId) {
      MergedIds(costs);
      PlacedById(cat, db, uid, costs);
      PlacedById(cat, db, uid, Merged(costs));
      var changes := Negated(Merged(costs));
      forall slot ensures SlotTotal(cat, changes, slot) == -SlotTotal(cat, costs, slot) {
        NegatedTotal(cat, Merged(costs), slot);
        MergedTotals(cat, costs, slot);
      }
      assert forall i :: 0 <= i < |changes| ==> changes[i].itemId == Merged(costs)[i].itemId;
      assert forall i :: 0 <= i < |changes| ==> Merged(costs)[i].itemId == changes[i].itemId;
      DeductionsFitIff(cat, db, uid, changes, reason, reqId);
      if ApplyCost(cat, db, uid, costs, reason, reqId).Ok? { ChangeAllMeans(cat, db, uid, changes, reason, reqId); }
    }
  }

  /** A reward batch commits exactly when it is well formed and every item has a place. */
  lemma RewardCommitsIff(cat: Catalog, db: Db, uid: Uid, rewards: seq<ItemCount>, reason: string, reqId: string)
    requires forall slot :: Balance(db, uid, slot) >= 0
    ensures var r := ApplyReward(cat, db, uid, rewards, reason, reqId);
      && (r.Ok? <==> WellFormed(rewards, reqId) && AllPlaced(cat, db, uid, rewards))
      && (r.Ok? ==> forall u, slot :: Balance(r.value, u, slot) == Balance(db, u, slot) + if u == uid then SlotTotal(cat, rewards, slot) else 0)
  {
    if WellFormed(rewards, reqId) {
      MergedIds(rewards);
      PlacedById(cat, db, uid, rewards);
      PlacedById(cat, db, uid, Merged(rewards));
      forall slot { MergedTotals(cat, rewards, slot); }
      RewardsFitIff(cat, db, uid, Merged(rewards), reason, reqId);
      if ApplyReward(cat, db, uid, rewards, reason, reqId).Ok? { ChangeAllMeans(cat, db, uid, Merged(rewards), reason, reqId); }
    }
  }

  // ---- The ledger ----

  /** What the log says of one slot of one player, over all reasons or only those in `reasons`. */
  function Logged(cat: Catalog, log: seq<LogRow>, uid: Uid, slot: Slot, only: Option<string>): int {
    if log == [] then 0
    else
      var row := log[|log| - 1];
      Logged(cat, log[..|log| - 1], uid, slot, only)
      + Part(cat, row, uid, slot, only)
  }

  function Part(cat: Catalog, row: LogRow, uid: Uid, slot: Slot, only: Option<string>): int {
    if row.uid == uid && SlotOf(cat, row.itemId) == Some(slot) && (only.None? || only.value == row.reason) then row.delta else 0
  }

  /** Row `k` was written for a supported item and records the balance it led to. */
  ghost predicate RowOk(cat: Catalog, log: seq<LogRow>, k: nat)
    requires k < |log|
  {
    && SlotOf(cat, log[k].itemId).Some? && log[k].delta != 0
    && log[k].balance == Logged(cat, log[..k + 1], log[k].uid, SlotOf(cat, log[k].itemId).value, None) >= 0
  }

  ghost predicate RowsOk(cat: Catalog, log: seq<LogRow>) { forall k :: 0 <= k < |log| ==> RowOk(cat, log, k) }

  ghost predicate SlotOk(cat: Catalog, db: Db, uid: Uid, slot: Slot) {
    Balance(db, uid, slot) == Logged(cat, db.log, uid, slot, None) >= 0
  }

  ghost predicate Audited(cat: Catalog, db: Db) {
    (forall uid, slot :: SlotOk(cat, db, uid, slot)) && RowsOk(cat, db.log)
  }

  lemma LoggedAppend(cat: Catalog, log: seq<LogRow>, row: LogRow, uid: Uid, slot: Slot, only: Option<string>)
    ensures Logged(cat, log + [row], uid, slot, only) == Logged(cat, log, uid, slot, only) + Part(cat, row, uid, slot, only)
  {
    assert (log + [row])[..|log|] == log;
  }

  /** A change without a reason is logged as what it is. */
  function ReasonOf(cat: Catalog, itemId: int, reason: string): string {
    if reason != "" then reason else if SlotOf(cat, itemId) == Some(Gold) then "asset.change_gold" else "asset.change_item"
  }

  lemma ChangeLogs(cat: Catalog, db: Db, uid: Uid, c: ItemCount, reason: string, reqId: string) returns (row: LogRow)
    requires Change(cat, db, uid, c, reason, reqId).Ok?
    ensures var after := Change(cat, db, uid, c, reason, reqId).value;
      && after.log == db.log + [row] && row.uid == uid && row.itemId == c.itemId && row.delta == c.count && row.reqId == reqId
      && row.reason == ReasonOf(cat, c.itemId, reason)
      && row.balance == Balance(after, uid, SlotOf(cat, c.itemId).value) >= 0
  {
    row := Change(cat, db, uid, c, reason, reqId).value.log[|db.log|];
  }

  lemma RowsStayOk(cat: Catalog, log: seq<LogRow>, row: LogRow)
    requires RowsOk(cat, log) && RowOk(cat, log + [row], |log|)
    ensures RowsOk(cat, log + [row])
  {
    forall k | 0 <= k < |log| ensures RowOk(cat, log + [row], k) {
      assert RowOk(cat, log, k) && (log + [row])[..k + 1] == log[..k + 1];
    }
  }

  lemma ChangeKeepsSlots(cat: Catalog, db: Db, uid: Uid, c: ItemCount, reason: string, reqId: string, u: Uid, slot: Slot)
    requires SlotOk(cat, db, u, slot) && Change(cat, db, uid, c, reason, reqId).Ok?
    ensures SlotOk(cat, Change(cat, db, uid, c, reason, reqId).value, u, slot)
  {
    ChangeMeans(cat, db, uid, c, reason, reqId);
    var row := ChangeLogs(cat, db, uid, c, reason, reqId);
    LoggedAppend(cat, db.log, row, u, slot, None);
    assert [c][1..] == [];
  }

  lemma ChangeKeepsAudit(cat: Catalog, db: Db, uid: Uid, c: ItemCount, reason: string, reqId: string)
    requires Audited(cat, db) && c.count != 0 && Change(cat, db, uid, c, reason, reqId).Ok?
    ensures Audited(cat, Change(cat, db, uid, c, reason, reqId).value)
  {
    var after := Change(cat, db, uid, c, reason, reqId).value;
    forall u, slot ensures SlotOk(cat, after, u, slot) {
      assert SlotOk(cat, db, u, slot);
      ChangeKeepsSlots(cat, db, uid, c, reason, reqId, u, slot);
    }
    var row := ChangeLogs(cat, db, uid, c, reason, reqId);
    ChangeMeans(cat, db, uid, c, reason, reqId);
    assert SlotOk(cat, after, uid, SlotOf(cat, c.itemId).value);
    assert after.log[..|db.log| + 1] == after.log;
    RowsStayOk(cat, db.log, row);
  }

  lemma {:induction false} ChangeAllKeepsAudit(cat: Catalog, db: Db, uid: Uid, changes: seq<ItemCount>, reason: string, reqId: string)
    requires Audited(cat, db) && forall i :: 0 <= i < |changes| ==> changes[i].count != 0
    requires ChangeAll(cat, db, uid, changes, reason, reqId).Ok?
    ensures Audited(cat, ChangeAll(cat, db, uid, changes, reason, reqId).value)
    decreases |changes|
  {
    if changes != [] {
      ChangeKeepsAudit(cat, db, uid, changes[0], reason, reqId);
      ChangeAllKeepsAudit(cat, Change(cat, db, uid, changes[0], reason, reqId).value, uid, changes[1..], reason, reqId);
    }
  }

  /** `commits` says whether the storage could carry the transaction through. */
  datatype Op =
    | Register(uid: Uid)
    | Grant(uid: Uid, items: seq<ItemCount>, reason: string, reqId: string, commits: bool)
    | Consume(uid: Uid, items: seq<ItemCount>, reason: string, reqId: string, commits: bool)

  /** All or nothing. */
  function Tx(db: Db, r: Result<Db, AssetError>, commits: bool): Db {
    if r.Ok? && commits then r.value else db
  }

  function Apply(cat: Catalog, db: Db, op: Op): Db {
    match op
    case Register(uid) => if uid in db.gold then db else db.(gold := db.gold[uid := 0])
    case Grant(uid, items, reason, reqId, commits) => Tx(db, ApplyReward(cat, db, uid, items, reason, reqId), commits)
    case Consume(uid, items, reason, reqId, commits) => Tx(db, ApplyCost(cat, db, uid, items, reason, reqId), commits)
  }

  function Run(cat: Catalog, ops: seq<Op>): Db {
    if ops == [] then Db(map[], map[], []) else Apply(cat, Run(cat, ops[..|ops| - 1]), ops[|ops| - 1])
  }

  lemma ApplyKeepsAudit(cat: Catalog, db: Db, op: Op)
    requires Audited(cat, db)
    ensures Audited(cat, Apply(cat, db, op))
  {
    match op
    case Register(uid) =>
      var after := Apply(cat, db, op);
      forall u, slot ensures SlotOk(cat, after, u, slot) { assert SlotOk(cat, db, u, slot); }
    case Grant(uid, items, reason, reqId, _) =>
      if ApplyReward(cat, db, uid, items, reason, reqId).Ok? {
        MergedIds(items);
        ChangeAllKeepsAudit(cat, db, uid, Merged(items), reason, reqId);
      }
    case Consume(uid, items, reason, reqId, _) =>
      if ApplyCost(cat, db, uid, items, reason, reqId).Ok? {
        MergedIds(items);
        ChangeAllKeepsAudit(cat, db, uid, Negated(Merged(items)), reason, reqId);
      }
  }

  /** Whether a batch is acceptable before any row is looked at. */
  function BatchError(items: seq<ItemCount>, reqId: string): Option<AssetError> {
    First(Unless(reqId != "", InvalidReqId), Unless(items != [] && AllPositive(items), InvalidAmount))
  }

  /** A grant that is well formed, has a place for every item and is committed raises the player's slots by
      what it names and logs every item once; any other changes nothing. No other balance moves. */
  lemma GrantTakesEffectIff(cat: Catalog, ops: seq<Op>, op: Op)
    requires op.Grant?
    ensures var db, db' := Run(cat, ops), Run(cat, ops + [op]);
      var done := op.commits && BatchError(op.items, op.reqId).None? && AllPlaced(cat, db, op.uid, op.items);
      && (forall u, slot :: Balance(db', u, slot) == Balance(db, u, slot) + if done && u == op.uid then SlotTotal(cat, op.items, slot) else 0)
      && (if done then |db'.log| == |db.log| + |Merged(op.items)| && db'.log[..|db.log|] == db.log else db' == db)
      && (BatchError(op.items, op.reqId).Some? ==> ErrorOf(ApplyReward(cat, db, op.uid, op.items, op.reason, op.reqId)) == BatchError(op.items, op.reqId))
  {
    assert (ops + [op])[..|ops|] == ops;
    var db := Run(cat, ops);
    EveryRunAudited(cat, ops);
    forall slot ensures Balance(db, op.uid, slot) >= 0 { assert SlotOk(cat, db, op.uid, slot); }
    RewardCommitsIff(cat, db, op.uid, op.items, op.reason, op.reqId);
    if ApplyReward(cat, db, op.uid, op.items, op.reason, op.reqId).Ok? { LogOnlyGrows(cat, db, op.uid, Merged(op.items), op.reason, op.reqId); }
  }

  /** Likewise a cost that every slot can bear lowers them. */
  lemma ConsumeTakesEffectIff(cat: Catalog, ops: seq<Op>, op: Op)
    requires op.Consume?
    ensures var db, db' := Run(cat, ops), Run(cat, ops + [op]);
      var done := op.commits && BatchError(op.items, op.reqId).None? && AllPlaced(cat, db, op.uid, op.items) && Affordable(cat, db, op.uid, op.items);
      && (forall u, slot :: Balance(db', u, slot) == Balance(db, u, slot) - if done && u == op.uid then SlotTotal(cat, op.items, slot) else 0)
      && (if done then |db'.log| == |db.log| + |Merged(op.items)| && db'.log[..|db.log|] == db.log else db' == db)
      && (BatchError(op.items, op.reqId).Some? ==> ErrorOf(ApplyCost(cat, db, op.uid, op.items, op.reason, op.reqId)) == BatchError(op.items, op.reqId))
  {
    assert (ops + [op])[..|ops|] == ops;
    var db := Run(cat, ops);
    CostCommitsIff(cat, db, op.uid, op.items, op.reason, op.reqId);
    if ApplyCost(cat, db, op.uid, op.items, op.reason, op.reqId).Ok? { LogOnlyGrows(cat, db, op.uid, Negated(Merged(op.items)), op.reason, op.reqId); }
  }

  /** A player who is registered has gold from then on, none of it at first; nobody else is affected. */
  lemma RegisterMeans(cat: Catalog, db: Db, uid: Uid, u: Uid)
    ensures var db' := Apply(cat, db, Register(uid));
      && uid in db'.gold && (u in db'.gold <==> u in db.gold || u == uid) && db'.inventory == db.inventory && db'.log == db.log
      && (u in db'.gold ==> db'.gold[u] == if u in db.gold then db.gold[u] else 0)
  {
  }

  /** In every run, with any transactions failing, every balance is the sum of its logged changes and
      not negative, and every log row records the balance it led to. */
  lemma {:induction false} EveryRunAudited(cat: Catalog, ops: seq<Op>)
    ensures Audited(cat, Run(cat, ops))
  {
    if ops != [] {
      EveryRunAudited(cat, ops[..|ops| - 1]);
      ApplyKeepsAudit(cat, Run(cat, ops[..|ops| - 1]), ops[|ops| - 1]);
    }
  }

  /** The row says what was asked for. */
  predicate Records(cat: Catalog, row: LogRow, uid: Uid, c: ItemCount, reason: string, reqId: string) {
    row.uid == uid && row.itemId == c.itemId && row.delta == c.count && row.reqId == reqId
    && row.reason == ReasonOf(cat, c.itemId, reason)
  }

  /** A batch that goes through adds one row for each of its merged items and touches no older row. */
  lemma {:induction false} LogOnlyGrows(cat: Catalog, db: Db, uid: Uid, changes: seq<ItemCount>, reason: string, reqId: string)
    requires ChangeAll(cat, db, uid, changes, reason, reqId).Ok?
    ensures var log := ChangeAll(cat, db, uid, changes, reason, reqId).value.log;
      && |log| == |db.log| + |changes| && log[..|db.log|] == db.log
      && forall i :: 0 <= i < |changes| ==> Records(cat, log[|db.log| + i], uid, changes[i], reason, reqId)
    decreases |changes|
  {
    if changes != [] {
      var next := Change(cat, db, uid, changes[0], reason, reqId).value;
      var row := ChangeLogs(cat, db, uid, changes[0], reason, reqId);
      var rest := changes[1..];
      LogOnlyGrows(cat, next, uid, rest, reason, reqId);
      var log := ChangeAll(cat, db, uid, changes, reason, reqId).value.log;
      assert log[..|db.log|] == log[..|next.log|][..|db.log|] == db.log;
      assert log[|db.log|] == log[..|next.log|][|db.log|] == row;
      forall i | 0 <= i < |changes| ensures Records(cat, log[|db.log| + i], uid, changes[i], reason, reqId) {
        if i > 0 { assert Records(cat, log[|next.log| + (i - 1)], uid, rest[i - 1], reason, reqId); }
      }
    }
  }
}
