/** The battle configuration and its start-up validation (internal/gamedata). */
module GameData {
  import opened Common

  datatype ResourceAmount = ResourceAmount(resource: string, count: int)

  /** An item with a count: a reward or a cost in the configuration, a reward item at run time. */
  datatype ItemCount = ItemCount(itemId: int, count: int)

  datatype EffectConfig = EffectConfig(
    effectType: string, resource: string, value: int, toResource: string, toValue: int)

  datatype CardUpgrade = CardUpgrade(targetLevel: int, costs: seq<ItemCount>)

  datatype CardConfig = CardConfig(
    cardId: int, key: string, name: string, rarity: string, cardType: string,
    cost: int, effects: seq<EffectConfig>, upgradeCosts: seq<CardUpgrade>)

  datatype OrderConfig = OrderConfig(
    orderId: int, key: string, name: string, orderType: string,
    requirements: seq<ResourceAmount>, rewards: seq<ItemCount>)

  datatype OrderPoolEntry = OrderPoolEntry(orderId: int, weight: int)

  datatype LevelConfig = LevelConfig(
    levelId: int, name: string, chapter: int, turnLimit: int, actionPointPerTurn: int,
    orderSlots: int, initialOrders: int, goalType: string, target: int,
    fixedCards: seq<int>, orderPool: seq<OrderPoolEntry>,
    firstClearRewards: seq<ItemCount>, repeatRewards: seq<ItemCount>)

  datatype Data = Data(
    cards: map<int, CardConfig>, orders: map<int, OrderConfig>, levels: map<int, LevelConfig>)

  /** What was wrong; the index is the position in the list being read. */
  datatype DataError =
    | InvalidCard(cardAt: nat) | DuplicateCard(cardAt: nat)
    | InvalidOrder(orderAt: nat) | DuplicateOrder(orderAt: nat)
    | InvalidLevel(levelAt: nat) | DuplicateLevel(levelAt: nat)
    | EmptyData

  // ---- What the validators accept ----

  /** A list of item counts is well formed: not empty, positive, and every item defined. */
  ghost predicate ValidItems(list: seq<ItemCount>, items: set<int>) {
    list != [] && forall i :: 0 <= i < |list| ==> list[i].count > 0 && list[i].itemId in items
  }

  ghost predicate ValidCard(c: CardConfig, items: set<int>) {
    && c.cardId > 0 && c.key != "" && c.name != "" && c.rarity != "" && c.cardType != ""
    && c.cost >= 0 && c.effects != []
    && (forall i :: 0 <= i < |c.effects| ==> c.effects[i].effectType != "")
    && (forall i :: 0 <= i < |c.upgradeCosts| ==>
          c.upgradeCosts[i].targetLevel > 1 && ValidItems(c.upgradeCosts[i].costs, items))
  }

  ghost predicate ValidOrder(o: OrderConfig, items: set<int>) {
    && o.orderId > 0 && o.key != "" && o.name != "" && o.orderType != ""
    && o.requirements != []
    && (forall i :: 0 <= i < |o.requirements| ==>
          o.requirements[i].resource != "" && o.requirements[i].count > 0)
    && ValidItems(o.rewards, items)
  }

  ghost predicate ValidLevel(l: LevelConfig, cards: set<int>, orders: set<int>) {
    && l.levelId > 0 && l.name != "" && l.chapter > 0
    && l.turnLimit > 0 && l.actionPointPerTurn > 0 && l.orderSlots > 0 && l.initialOrders > 0
    && l.goalType != "" && l.target > 0
    && (forall i :: 0 <= i < |l.fixedCards| ==> l.fixedCards[i] in cards)
    && l.orderPool != []
    && (forall i :: 0 <= i < |l.orderPool| ==> l.orderPool[i].orderId in orders && l.orderPool[i].weight > 0)
  }

  // ---- The validators: early returns inside loops ----

  method CheckItems(list: seq<ItemCount>, items: set<int>) returns (ok: bool)
    ensures ok <==> ValidItems(list, items)
  {
    if |list| == 0 { return false; }
    for i := 0 to |list|
      invariant forall k :: 0 <= k < i ==> list[k].count > 0 && list[k].itemId in items
    {
      if list[i].count <= 0 { return false; }
      if list[i].itemId !in items { return false; }
    }
    return true;
  }

  method CheckCard(c: CardConfig, items: set<int>) returns (ok: bool)
    ensures ok <==> ValidCard(c, items)
  {
    if c.cardId <= 0 { return false; }
    if c.key == "" || c.name == "" || c.rarity == "" || c.cardType == "" { return false; }
    if c.cost < 0 { return false; }
    if |c.effects| == 0 { return false; }
    for i := 0 to |c.effects|
      invariant forall k :: 0 <= k < i ==> c.effects[k].effectType != ""
    {
      if c.effects[i].effectType == "" { return false; }
    }
    for i := 0 to |c.upgradeCosts|
      invariant forall k :: 0 <= k < i ==>
                  c.upgradeCosts[k].targetLevel > 1 && ValidItems(c.upgradeCosts[k].costs, items)
    {
      if c.upgradeCosts[i].targetLevel <= 1 { return false; }
      var costsOk := CheckItems(c.upgradeCosts[i].costs, items);
      if !costsOk { return false; }
    }
    return true;
  }

  method CheckOrder(o: OrderConfig, items: set<int>) returns (ok: bool)
    ensures ok <==> ValidOrder(o, items)
  {
    if o.orderId <= 0 { return false; }
    if o.key == "" || o.name == "" || o.orderType == "" { return false; }
    if |o.requirements| == 0 { return false; }
    for i := 0 to |o.requirements|
      invariant forall k :: 0 <= k < i ==> o.requirements[k].resource != "" && o.requirements[k].count > 0
    {
      if o.requirements[i].resource == "" || o.requirements[i].count <= 0 { return false; }
    }
    ok := CheckItems(o.rewards, items);
  }

  method CheckLevel(l: LevelConfig, cards: set<int>, orders: set<int>) returns (ok: bool)
    ensures ok <==> ValidLevel(l, cards, orders)
  {
    if l.levelId <= 0 { return false; }
    if l.name == "" || l.chapter <= 0 { return false; }
    if l.turnLimit <= 0 || l.actionPointPerTurn <= 0 || l.orderSlots <= 0 || l.initialOrders <= 0 { return false; }
    if l.goalType == "" || l.target <= 0 { return false; }
    for i := 0 to |l.fixedCards|
      invariant forall k :: 0 <= k < i ==> l.fixedCards[k] in cards
    {
      if l.fixedCards[i] !in cards { return false; }
    }
    if |l.orderPool| == 0 { return false; }
    for i := 0 to |l.orderPool|
      invariant forall k :: 0 <= k < i ==> l.orderPool[k].orderId in orders && l.orderPool[k].weight > 0
    {
      if l.orderPool[i].orderId !in orders { return false; }
      if l.orderPool[i].weight <= 0 { return false; }
    }
    return true;
  }

  // ---- Building the index ----

  /** `m` indexes exactly the entries of `list`, one per id. */
  ghost predicate Indexes<T(!new)>(m: map<int, T>, list: seq<T>, id: T -> int) {
    && (forall i :: 0 <= i < |list| ==> id(list[i]) in m && m[id(list[i])] == list[i])
    && m.Keys == Ids(list, id)
  }

  ghost predicate Distinct<T>(list: seq<T>, id: T -> int) {
    forall i, j :: 0 <= i < j < |list| ==> id(list[i]) != id(list[j])
  }

  function CardKey(c: CardConfig): int { c.cardId }
  function OrderKey(o: OrderConfig): int { o.orderId }
  function LevelKey(l: LevelConfig): int { l.levelId }

  ghost function Ids<T>(list: seq<T>, id: T -> int): set<int> {
    set i | 0 <= i < |list| :: id(list[i])
  }

  /** The whole input is acceptable. */
  ghost predicate Acceptable(cards: seq<CardConfig>, orders: seq<OrderConfig>, levels: seq<LevelConfig>, items: set<int>) {
    && cards != [] && orders != [] && levels != []
    && Distinct(cards, CardKey) && Distinct(orders, OrderKey) && Distinct(levels, LevelKey)
    && (forall i :: 0 <= i < |cards| ==> ValidCard(cards[i], items))
    && (forall i :: 0 <= i < |orders| ==> ValidOrder(orders[i], items))
    && (forall i :: 0 <= i < |levels| ==> ValidLevel(levels[i], Ids(cards, CardKey), Ids(orders, OrderKey)))
  }

  /** What an order must be for the order engine: it asks for something, in positive counts. */
  ghost predicate OrderReady(o: OrderConfig) {
    o.requirements != [] && forall i :: 0 <= i < |o.requirements| ==> o.requirements[i].count > 0
  }

  ghost predicate LevelReady(d: Data, l: LevelConfig) {
    && l.turnLimit > 0 && l.actionPointPerTurn > 0 && l.initialOrders > 0 && l.target >= 1
    && l.orderPool != []
    && (forall i :: 0 <= i < |l.orderPool| ==> l.orderPool[i].orderId in d.orders)
    && (forall i :: 0 <= i < |l.fixedCards| ==> l.fixedCards[i] in d.cards)
  }

  /** The preconditions a battle relies on. */
  ghost predicate BattleReady(d: Data) {
    && (forall k :: k in d.orders ==> OrderReady(d.orders[k]) && d.orders[k].orderId == k)
    && (forall k :: k in d.levels ==> LevelReady(d, d.levels[k]))
    && (forall k :: k in d.cards ==> d.cards[k].cost >= 0)
  }

  /** Which entry an error points at, and that the complaint is true. */
  ghost predicate Blames(e: DataError, cards: seq<CardConfig>, orders: seq<OrderConfig>, levels: seq<LevelConfig>, items: set<int>) {
    match e
    case InvalidCard(i) => i < |cards| && !ValidCard(cards[i], items)
    case DuplicateCard(i) => i < |cards| && exists j :: 0 <= j < i && cards[j].cardId == cards[i].cardId
    case InvalidOrder(i) => i < |orders| && !ValidOrder(orders[i], items)
    case DuplicateOrder(i) => i < |orders| && exists j :: 0 <= j < i && orders[j].orderId == orders[i].orderId
    case InvalidLevel(i) => i < |levels| && !ValidLevel(levels[i], Ids(cards, CardKey), Ids(orders, OrderKey))
    case DuplicateLevel(i) => i < |levels| && exists j :: 0 <= j < i && levels[j].levelId == levels[i].levelId
    case EmptyData => cards == [] || orders == [] || levels == []
  }

  method IndexCards(cards: seq<CardConfig>, items: set<int>) returns (m: map<int, CardConfig>, e: Option<DataError>)
    ensures e.None? <==> Distinct(cards, CardKey) && forall i :: 0 <= i < |cards| ==> ValidCard(cards[i], items)
    ensures e.None? ==> Indexes(m, cards, CardKey)
    ensures e.Some? ==> (e.value.InvalidCard? || e.value.DuplicateCard?) && Blames(e.value, cards, [], [], items)
  {
    m := map[];
    for i := 0 to |cards|
      invariant Indexes(m, cards[..i], CardKey) && Distinct(cards[..i], CardKey)
      invariant forall k :: 0 <= k < i ==> ValidCard(cards[k], items)
    {
      var ok := CheckCard(cards[i], items);
      if !ok { return m, Some(InvalidCard(i)); }
      if cards[i].cardId in m {
        ghost var j := EarlierEntry(m, cards, i, CardKey);
        return m, Some(DuplicateCard(i));
      }
      IndexesGrow(m, cards, i, CardKey);
      m := m[cards[i].cardId := cards[i]];
    }
    assert cards[..|cards|] == cards;
    return m, None;
  }

  method IndexOrders(orders: seq<OrderConfig>, items: set<int>) returns (m: map<int, OrderConfig>, e: Option<DataError>)
    ensures e.None? <==> Distinct(orders, OrderKey) && forall i :: 0 <= i < |orders| ==> ValidOrder(orders[i], items)
    ensures e.None? ==> Indexes(m, orders, OrderKey)
    ensures e.Some? ==> (e.value.InvalidOrder? || e.value.DuplicateOrder?) && Blames(e.value, [], orders, [], items)
  {
    m := map[];
    for i := 0 to |orders|
      invariant Indexes(m, orders[..i], OrderKey) && Distinct(orders[..i], OrderKey)
      invariant forall k :: 0 <= k < i ==> ValidOrder(orders[k], items)
    {
      var ok := CheckOrder(orders[i], items);
      if !ok { return m, Some(InvalidOrder(i)); }
      if orders[i].orderId in m {
        ghost var j := EarlierEntry(m, orders, i, OrderKey);
        return m, Some(DuplicateOrder(i));
      }
      IndexesGrow(m, orders, i, OrderKey);
      m := m[orders[i].orderId := orders[i]];
    }
    assert orders[..|orders|] == orders;
    return m, None;
  }

  method IndexLevels(levels: seq<LevelConfig>, cards: set<int>, orders: set<int>) returns (m: map<int, LevelConfig>, e: Option<DataError>)
    ensures e.None? <==> Distinct(levels, LevelKey) && forall i :: 0 <= i < |levels| ==> ValidLevel(levels[i], cards, orders)
    ensures e.None? ==> Indexes(m, levels, LevelKey)
    ensures e.Some? ==>
      match e.value
      case InvalidLevel(i) => i < |levels| && !ValidLevel(levels[i], cards, orders)
      case DuplicateLevel(i) => i < |levels| && exists j :: 0 <= j < i && levels[j].levelId == levels[i].levelId
      case _ => false
  {
    m := map[];
    for i := 0 to |levels|
      invariant Indexes(m, levels[..i], LevelKey) && Distinct(levels[..i], LevelKey)
      invariant forall k :: 0 <= k < i ==> ValidLevel(levels[k], cards, orders)
    {
      var ok := CheckLevel(levels[i], cards, orders);
      if !ok { return m, Some(InvalidLevel(i)); }
      if levels[i].levelId in m {
        ghost var j := EarlierEntry(m, levels, i, LevelKey);
        return m, Some(DuplicateLevel(i));
      }
      IndexesGrow(m, levels, i, LevelKey);
      m := m[levels[i].levelId := levels[i]];
    }
    assert levels[..|levels|] == levels;
    return m, None;
  }

  /** Accepts exactly the acceptable inputs; an accepted input is indexed whole and is ready for
      battles, a refused one is refused for a true reason. */
  method NewGameData(cards: seq<CardConfig>, orders: seq<OrderConfig>, levels: seq<LevelConfig>, items: set<int>)
    returns (r: Result<Data, DataError>)
    ensures r.Ok? <==> Acceptable(cards, orders, levels, items)
    ensures r.Ok? ==> Indexes(r.value.cards, cards, CardKey) && Indexes(r.value.orders, orders, OrderKey)
                      && Indexes(r.value.levels, levels, LevelKey)
    ensures r.Ok? ==> BattleReady(r.value)
    ensures r.Err? ==> Blames(r.error, cards, orders, levels, items)
  {
    var byCard, cardError := IndexCards(cards, items);
    if cardError.Some? { return Err(cardError.value); }
    var byOrder, orderError := IndexOrders(orders, items);
    if orderError.Some? { return Err(orderError.value); }
    var byLevel, levelError := IndexLevels(levels, byCard.Keys, byOrder.Keys);
    if levelError.Some? { return Err(levelError.value); }
    assert (|byCard| == 0 ==> cards == []) && (|byOrder| == 0 ==> orders == []) && (|byLevel| == 0 ==> levels == []) by {
      if cards != [] { assert CardKey(cards[0]) in byCard; }
      if orders != [] { assert OrderKey(orders[0]) in byOrder; }
      if levels != [] { assert LevelKey(levels[0]) in byLevel; }
    }
    if |byCard| == 0 || |byOrder| == 0 || |byLevel| == 0 {
      return Err(EmptyData);
    }
    r := Ok(Data(byCard, byOrder, byLevel));
    AcceptedIsReady(r.value, cards, orders, levels, items);
  }

  /** Validation supplies the preconditions of a battle. */
  lemma AcceptedIsReady(d: Data, cards: seq<CardConfig>, orders: seq<OrderConfig>, levels: seq<LevelConfig>, items: set<int>)
    requires Acceptable(cards, orders, levels, items)
    requires Indexes(d.cards, cards, CardKey) && Indexes(d.orders, orders, OrderKey) && Indexes(d.levels, levels, LevelKey)
    ensures BattleReady(d) && forall k :: k in d.levels ==> d.levels[k].levelId == k
  {
    forall k | k in d.orders ensures OrderReady(d.orders[k]) && d.orders[k].orderId == k {
      var i :| 0 <= i < |orders| && OrderKey(orders[i]) == k;
    }
    forall k | k in d.levels ensures LevelReady(d, d.levels[k]) && d.levels[k].levelId == k {
      var i :| 0 <= i < |levels| && LevelKey(levels[i]) == k;
    }
    forall k | k in d.cards ensures d.cards[k].cost >= 0 {
      var i :| 0 <= i < |cards| && CardKey(cards[i]) == k;
    }
  }

  /** An id that is already indexed belongs to an earlier entry. */
  lemma EarlierEntry<T(!new)>(m: map<int, T>, list: seq<T>, i: nat, id: T -> int) returns (j: nat)
    requires i < |list| && Indexes(m, list[..i], id) && id(list[i]) in m
    ensures j < i && id(list[j]) == id(list[i])
  {
    j :| 0 <= j < i && id(list[..i][j]) == id(list[i]);
  }

  lemma IndexesGrow<T(!new)>(m: map<int, T>, list: seq<T>, i: nat, id: T -> int)
    requires i < |list| && id(list[i]) !in m
    requires Indexes(m, list[..i], id) && Distinct(list[..i], id)
    ensures Indexes(m[id(list[i]) := list[i]], list[..i + 1], id) && Distinct(list[..i + 1], id)
  {
    var before, grown := list[..i], list[..i + 1];
    assert grown == before + [list[i]];
    assert id(grown[i]) == id(list[i]);
    forall k ensures k in Ids(grown, id) <==> k in Ids(before, id) || k == id(list[i]) {
      if k in Ids(before, id) {
        var j :| 0 <= j < i && id(before[j]) == k;
        assert id(grown[j]) == k;
      }
      if k in Ids(grown, id) && k != id(list[i]) {
        var j :| 0 <= j < |grown| && id(grown[j]) == k;
        assert id(before[j]) == k;
      }
    }
    forall a, b | 0 <= a < b < |grown| ensures id(grown[a]) != id(grown[b]) {
      assert before[a] == grown[a];
      if b < i { assert before[b] == grown[b]; }
    }
    forall j | 0 <= j < i ensures id(grown[j]) in m && m[id(grown[j])] == grown[j] {
      assert before[j] == grown[j];
    }
  }
}
